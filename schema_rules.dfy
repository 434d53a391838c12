/** Each modelled zod schema restated as a plain condition on the input record, and the
    defaults each fills in. */
module SchemaRules {
  import opened Common
  import opened Schema

  predicate StrAt(input: map<string, JsValue>, k: string) {
    k in input && input[k].JStr?
  }

  predicate DateAt(input: map<string, JsValue>, k: string) {
    k in input && CoerceDate(input[k]).Some?
  }

  function TimeAt(input: map<string, JsValue>, k: string): int
    requires DateAt(input, k)
  {
    CoerceDate(input[k]).value
  }

  /** The key holds an integer within `lo..hi`. */
  predicate IntIn(input: map<string, JsValue>, k: string, lo: int, hi: int) {
    k in input && input[k].JNum? && IsInteger(input[k].n) && lo as real <= input[k].n <= hi as real
  }

  predicate OptStr(input: map<string, JsValue>, k: string) {
    k !in input || input[k].JStr?
  }

  predicate StrLen(input: map<string, JsValue>, k: string, lo: nat, hi: nat) {
    k in input && input[k].JStr? && lo <= |input[k].s| <= hi
  }

  /** Absent, `null`, or a string. */
  predicate NullableStr(input: map<string, JsValue>, k: string) {
    k !in input || input[k] == JNull || input[k].JStr?
  }

  predicate OptDate(input: map<string, JsValue>, k: string) {
    k !in input || DateAt(input, k)
  }

  /** Absent, `null`, or a date. */
  predicate NullableDate(input: map<string, JsValue>, k: string) {
    k !in input || input[k] == JNull || DateAt(input, k)
  }

  predicate OptIntIn(input: map<string, JsValue>, k: string, lo: int, hi: int) {
    k !in input || IntIn(input, k, lo, hi)
  }

  /** The key holds an integer no smaller than `lo`. */
  predicate IntAtLeast(input: map<string, JsValue>, k: string, lo: int) {
    k in input && input[k].JNum? && IsInteger(input[k].n) && lo as real <= input[k].n
  }

  predicate NumIn(input: map<string, JsValue>, k: string, lo: real, hi: real) {
    k in input && input[k].JNum? && lo <= input[k].n <= hi
  }

  predicate NumAbove(input: map<string, JsValue>, k: string, lo: real) {
    k in input && input[k].JNum? && input[k].n > lo
  }

  predicate NumAtLeast(input: map<string, JsValue>, k: string, lo: real) {
    k in input && input[k].JNum? && input[k].n >= lo
  }

  predicate EnumAt(input: map<string, JsValue>, k: string, options: seq<string>) {
    k in input && input[k].JStr? && input[k].s in options
  }

  predicate OptEnum(input: map<string, JsValue>, k: string, options: seq<string>) {
    k !in input || EnumAt(input, k, options)
  }

  /** An integer leaf with bounds `lo..hi` accepts exactly the integers in that range;
      `.positive()` on an integer is the same as a lower bound of 1. */
  lemma IntLeaf(v: JsValue, lower: Lower, upper: Option<real>, lo: int)
    requires lower == Above((lo - 1) as real) || lower == AtLeast(lo as real)
    ensures ParseLeaf(Num(true, lower, upper), v).Some?
        <==> v.JNum? && IsInteger(v.n) && lo as real <= v.n && (upper.Some? ==> v.n <= upper.value)
  {
    if v.JNum? && IsInteger(v.n) && lower == Above((lo - 1) as real) {
      assert v.n > (lo - 1) as real <==> v.n.Floor > lo - 1;
    }
  }

  /** A string field without a default accepts a string, `null` when nullable, and
      absence when optional. */
  lemma StrField(k: string, f: Field, input: map<string, JsValue>)
    requires f.kind == Plain(AnyString) && !f.presence.Default?
    ensures ParseField(k, f, input) != Reject
        <==> if k in input then input[k].JStr? || (f.nullable && input[k] == JNull) else f.presence == Optional
  {
  }

  /** An enum field without a default accepts one of the options, and absence when optional. */
  lemma EnumField(k: string, f: Field, options: seq<string>, input: map<string, JsValue>)
    requires f.kind == Plain(Enum(options)) && !f.presence.Default? && !f.nullable
    ensures ParseField(k, f, input) != Reject
        <==> if k in input then EnumAt(input, k, options) else f.presence == Optional
  {
  }

  /** An integer field without a default accepts an integer in range, and absence when
      optional. */
  lemma IntField(k: string, f: Field, lower: Lower, upper: Option<real>, lo: int, input: map<string, JsValue>)
    requires f.kind == Plain(Num(true, lower, upper)) && !f.presence.Default? && !f.nullable
    requires lower == Above((lo - 1) as real) || lower == AtLeast(lo as real)
    ensures ParseField(k, f, input) != Reject
        <==> if k in input then input[k].JNum? && IsInteger(input[k].n) && lo as real <= input[k].n
                               && (upper.Some? ==> input[k].n <= upper.value)
             else f.presence == Optional
  {
    if k in input {
      IntLeaf(input[k], lower, upper, lo);
    }
  }

  /** An optional non-integer number field accepts absence and any number within its
      bounds. */
  lemma NumField(k: string, f: Field, lower: Lower, upper: Option<real>, input: map<string, JsValue>)
    requires f.kind == Plain(Num(false, lower, upper)) && !f.nullable && f.presence == Optional
    ensures ParseField(k, f, input) != Reject
        <==> (k in input ==> input[k].JNum? && NumOk(false, lower, upper, input[k].n))
  {
  }

  /** Adding a field to a shape adds that field's check to the object's. */
  lemma FieldsPassAdd(shape: map<string, Field>, k: string, f: Field, input: map<string, JsValue>)
    requires k !in shape
    ensures FieldsPass(shape[k := f], input) <==> FieldsPass(shape, input) && ParseField(k, f, input) != Reject
  {
    var s2 := shape[k := f];
    if FieldsPass(shape, input) && ParseField(k, f, input) != Reject {
      forall j | j in s2
        ensures ParseField(j, s2[j], input) != Reject
      {
        if j != k {
          assert s2[j] == shape[j];
        }
      }
    }
    if FieldsPass(s2, input) {
      forall j | j in shape
        ensures ParseField(j, shape[j], input) != Reject
      {
        assert j in s2 && s2[j] == shape[j];
      }
      assert k in s2;
    }
  }

  /** Every rating is an integer from 1 to 5. */
  lemma RatingsValid(input: map<string, JsValue>)
    ensures Parse(RatingsSchema, input).Some? <==>
      IntIn(input, "accuracy", 1, 5) && IntIn(input, "cleanliness", 1, 5) && IntIn(input, "communication", 1, 5)
      && IntIn(input, "location", 1, 5) && IntIn(input, "value", 1, 5)
  {
    var shape := RatingsSchema.shape;
    RatingField("accuracy", input);
    RatingField("cleanliness", input);
    RatingField("communication", input);
    RatingField("location", input);
    RatingField("value", input);
    assert ParseObject(shape, input).Some? <==>
      ParseField("accuracy", shape["accuracy"], input) != Reject &&
      ParseField("cleanliness", shape["cleanliness"], input) != Reject &&
      ParseField("communication", shape["communication"], input) != Reject &&
      ParseField("location", shape["location"], input) != Reject &&
      ParseField("value", shape["value"], input) != Reject;
  }

  /** Each rating field takes an integer from 1 to 5. */
  lemma RatingField(k: string, input: map<string, JsValue>)
    requires k in RatingsSchema.shape
    ensures ParseField(k, RatingsSchema.shape[k], input) != Reject <==> IntIn(input, k, 1, 5)
  {
    assert RatingsSchema.shape[k] == Req(Rating);
    IntField(k, Req(Rating), AtLeast(1.0), Some(5.0), 1, input);
  }

  /** A booking is accepted exactly when both ids are strings, both dates are dates with
      check-out strictly after check-in, there are 1 to 99 adults and 0 to 99 children
      and infants, all integers. */
  lemma CreateBookingValid(input: map<string, JsValue>)
    ensures Parse(CreateBookingInput, input).Some? <==>
      StrAt(input, "guest_user_id") && StrAt(input, "villa_id")
      && DateAt(input, "check_in") && DateAt(input, "check_out")
      && IntIn(input, "adults", 1, 99) && IntIn(input, "children", 0, 99) && IntIn(input, "infants", 0, 99)
      && TimeAt(input, "check_out") > TimeAt(input, "check_in")
  {
    ParseDateOrder(CreateBookingInput, input);
    CreateBookingFields(input);
  }

  lemma CreateBookingFields(input: map<string, JsValue>)
    ensures ParseObject(CreateBookingInput.shape, input).Some? <==>
      StrAt(input, "guest_user_id") && StrAt(input, "villa_id")
      && DateAt(input, "check_in") && DateAt(input, "check_out")
      && IntIn(input, "adults", 1, 99) && IntIn(input, "children", 0, 99) && IntIn(input, "infants", 0, 99)
  {
    StrField("guest_user_id", Req(AnyString), input);
    StrField("villa_id", Req(AnyString), input);
    DateField("check_in", Req(CoercedDate), input);
    DateField("check_out", Req(CoercedDate), input);
    IntField("adults", Req(Adults), Above(0.0), Some(99.0), 1, input);
    IntField("children", Req(Children), AtLeast(0.0), Some(99.0), 0, input);
    IntField("infants", Req(Children), AtLeast(0.0), Some(99.0), 0, input);
    CreateBookingCombine(input);
  }

  /** The ids and dates of `createBookingInputSchema`, the first four of its fields. */
  const BookingStay: map<string, Field> :=
    map["guest_user_id" := Req(AnyString), "villa_id" := Req(AnyString),
        "check_in" := Req(CoercedDate), "check_out" := Req(CoercedDate)]

  lemma BookingStayPasses(input: map<string, JsValue>)
    ensures FieldsPass(BookingStay, input) <==>
      ParseField("guest_user_id", Req(AnyString), input) != Reject &&
      ParseField("villa_id", Req(AnyString), input) != Reject &&
      ParseField("check_in", Req(CoercedDate), input) != Reject &&
      ParseField("check_out", Req(CoercedDate), input) != Reject
  {
    var m1 := map["guest_user_id" := Req(AnyString)];
    var m2 := m1["villa_id" := Req(AnyString)];
    var m3 := m2["check_in" := Req(CoercedDate)];
    FieldsPassAdd(map[], "guest_user_id", Req(AnyString), input);
    FieldsPassAdd(m1, "villa_id", Req(AnyString), input);
    FieldsPassAdd(m2, "check_in", Req(CoercedDate), input);
    FieldsPassAdd(m3, "check_out", Req(CoercedDate), input);
  }

  lemma CreateBookingCombine(input: map<string, JsValue>)
    ensures FieldsPass(CreateBookingInput.shape, input) <==>
      FieldsPass(BookingStay, input) &&
      ParseField("adults", Req(Adults), input) != Reject &&
      ParseField("children", Req(Children), input) != Reject &&
      ParseField("infants", Req(Children), input) != Reject
    ensures FieldsPass(BookingStay, input) <==>
      ParseField("guest_user_id", Req(AnyString), input) != Reject &&
      ParseField("villa_id", Req(AnyString), input) != Reject &&
      ParseField("check_in", Req(CoercedDate), input) != Reject &&
      ParseField("check_out", Req(CoercedDate), input) != Reject
  {
    var m5 := BookingStay["adults" := Req(Adults)];
    var m6 := m5["children" := Req(Children)];
    BookingStayPasses(input);
    FieldsPassAdd(BookingStay, "adults", Req(Adults), input);
    FieldsPassAdd(m5, "children", Req(Children), input);
    FieldsPassAdd(m6, "infants", Req(Children), input);
  }

  /** For a schema refined by the order of two non-nullable date fields, parsing succeeds
      when the fields parse and the two coerced times are in order (or, for a check that
      applies only when both are given, one of them is absent). */
  lemma ParseDateOrder(s: ObjectSchema, input: map<string, JsValue>)
    requires s.refinement.DateOrder?
    requires s.refinement.earlier in s.shape && s.shape[s.refinement.earlier].kind == Plain(CoercedDate)
    requires s.refinement.later in s.shape && s.shape[s.refinement.later].kind == Plain(CoercedDate)
    requires !s.shape[s.refinement.earlier].nullable && !s.shape[s.refinement.later].nullable
    requires !s.shape[s.refinement.earlier].presence.Default? && !s.shape[s.refinement.later].presence.Default?
    ensures Parse(s, input).Some? <==> (ParseObject(s.shape, input).Some? &&
      var e, l := s.refinement.earlier, s.refinement.later;
       if DateAt(input, e) && DateAt(input, l) then
         (if s.refinement.strict then TimeAt(input, l) > TimeAt(input, e) else TimeAt(input, l) >= TimeAt(input, e))
       else s.refinement.onlyWhenBoth)
  {
    var e, l := s.refinement.earlier, s.refinement.later;
    DateField(e, s.shape[e], input);
    DateField(l, s.shape[l], input);
    if ParseObject(s.shape, input).Some? {
      var out := ParseObject(s.shape, input).value;
      assert e in out <==> DateAt(input, e);
      assert l in out <==> DateAt(input, l);
    }
  }

  /** A required or optional date field keeps the coerced time value. */
  lemma DateField(k: string, f: Field, input: map<string, JsValue>)
    requires f.kind == Plain(CoercedDate) && !f.nullable && !f.presence.Default?
    ensures DateAt(input, k) ==> ParseField(k, f, input) == Keep(JDate(TimeAt(input, k)))
    ensures k in input && !DateAt(input, k) ==> ParseField(k, f, input) == Reject
    ensures k !in input ==> ParseField(k, f, input) == (if f.presence == Required then Reject else Omit)
  {
  }

  /** An optional nullable date field accepts absence, `null` and a date. */
  lemma NullableDateField(k: string, f: Field, input: map<string, JsValue>)
    requires f.kind == Plain(CoercedDate) && f.nullable && f.presence == Optional
    ensures ParseField(k, f, input) != Reject <==> NullableDate(input, k)
  {
  }

  /** A booking update is accepted exactly when every field present has the right type
      and range; the date order is checked only when both dates are given, and the
      status may be any of the enum's values. */
  lemma UpdateBookingValid(input: map<string, JsValue>)
    ensures Parse(UpdateBookingInput, input).Some? <==>
      StrAt(input, "id") && OptDate(input, "check_in") && OptDate(input, "check_out")
      && OptIntIn(input, "adults", 1, 99) && OptIntIn(input, "children", 0, 99) && OptIntIn(input, "infants", 0, 99)
      && OptEnum(input, "status", BookingStatuses) && NullableDate(input, "contract_signed_at")
      && NullableStr(input, "contract_pdf_url") && NullableStr(input, "payment_intent_id")
      && (DateAt(input, "check_in") && DateAt(input, "check_out") ==> TimeAt(input, "check_out") > TimeAt(input, "check_in"))
  {
    ParseDateOrder(UpdateBookingInput, input);
    UpdateBookingFields(input);
  }

  /** The id, the dates and the party of `updateBookingInputSchema`. */
  const UpdateBookingStay: map<string, Field> :=
    map["id" := Req(AnyString), "check_in" := Opt(CoercedDate), "check_out" := Opt(CoercedDate),
        "adults" := Opt(Adults), "children" := Opt(Children)]

  lemma UpdateBookingStayPasses(input: map<string, JsValue>)
    ensures FieldsPass(UpdateBookingStay, input) <==>
      ParseField("id", Req(AnyString), input) != Reject &&
      ParseField("check_in", Opt(CoercedDate), input) != Reject &&
      ParseField("check_out", Opt(CoercedDate), input) != Reject &&
      ParseField("adults", Opt(Adults), input) != Reject &&
      ParseField("children", Opt(Children), input) != Reject
  {
    var m1 := map["id" := Req(AnyString)];
    var m2 := m1["check_in" := Opt(CoercedDate)];
    var m3 := m2["check_out" := Opt(CoercedDate)];
    var m4 := m3["adults" := Opt(Adults)];
    FieldsPassAdd(map[], "id", Req(AnyString), input);
    FieldsPassAdd(m1, "check_in", Opt(CoercedDate), input);
    FieldsPassAdd(m2, "check_out", Opt(CoercedDate), input);
    FieldsPassAdd(m3, "adults", Opt(Adults), input);
    FieldsPassAdd(m4, "children", Opt(Children), input);
  }

  lemma UpdateBookingCombine(input: map<string, JsValue>)
    ensures FieldsPass(UpdateBookingInput.shape, input) <==>
      FieldsPass(UpdateBookingStay, input) &&
      ParseField("infants", Opt(Children), input) != Reject &&
      ParseField("status", Opt(Enum(BookingStatuses)), input) != Reject &&
      ParseField("contract_signed_at", NullOpt(CoercedDate), input) != Reject &&
      ParseField("contract_pdf_url", NullOpt(AnyString), input) != Reject &&
      ParseField("payment_intent_id", NullOpt(AnyString), input) != Reject
  {
    var m6 := UpdateBookingStay["infants" := Opt(Children)];
    var m7 := m6["status" := Opt(Enum(BookingStatuses))];
    var m8 := m7["contract_signed_at" := NullOpt(CoercedDate)];
    var m9 := m8["contract_pdf_url" := NullOpt(AnyString)];
    FieldsPassAdd(UpdateBookingStay, "infants", Opt(Children), input);
    FieldsPassAdd(m6, "status", Opt(Enum(BookingStatuses)), input);
    FieldsPassAdd(m7, "contract_signed_at", NullOpt(CoercedDate), input);
    FieldsPassAdd(m8, "contract_pdf_url", NullOpt(AnyString), input);
    FieldsPassAdd(m9, "payment_intent_id", NullOpt(AnyString), input);
  }

  lemma UpdateBookingFields(input: map<string, JsValue>)
    ensures ParseObject(UpdateBookingInput.shape, input).Some? <==>
      StrAt(input, "id") && OptDate(input, "check_in") && OptDate(input, "check_out")
      && OptIntIn(input, "adults", 1, 99) && OptIntIn(input, "children", 0, 99) && OptIntIn(input, "infants", 0, 99)
      && OptEnum(input, "status", BookingStatuses) && NullableDate(input, "contract_signed_at")
      && NullableStr(input, "contract_pdf_url") && NullableStr(input, "payment_intent_id")
  {
    StrField("id", Req(AnyString), input);
    DateField("check_in", Opt(CoercedDate), input);
    DateField("check_out", Opt(CoercedDate), input);
    IntField("adults", Opt(Adults), Above(0.0), Some(99.0), 1, input);
    IntField("children", Opt(Children), AtLeast(0.0), Some(99.0), 0, input);
    IntField("infants", Opt(Children), AtLeast(0.0), Some(99.0), 0, input);
    EnumField("status", Opt(Enum(BookingStatuses)), BookingStatuses, input);
    NullableDateField("contract_signed_at", NullOpt(CoercedDate), input);
    StrField("contract_pdf_url", NullOpt(AnyString), input);
    StrField("payment_intent_id", NullOpt(AnyString), input);
    UpdateBookingStayPasses(input);
    UpdateBookingCombine(input);
  }

  /** An update may set any status whatever the booking's current one: the schema sees no
      current status. */
  lemma UpdateBookingAnyStatus(id: string, status: string)
    requires status in BookingStatuses
    ensures Parse(UpdateBookingInput, map["id" := JStr(id), "status" := JStr(status)])
         == Some(map["id" := JStr(id), "status" := JStr(status)])
  {
    var input := map["id" := JStr(id), "status" := JStr(status)];
    UpdateBookingStatusOnly(id, status);
    assert RefinementHolds(UpdateBookingInput.refinement, input);
  }

  lemma UpdateBookingStatusOnly(id: string, status: string)
    requires status in BookingStatuses
    ensures ParseObject(UpdateBookingInput.shape, map["id" := JStr(id), "status" := JStr(status)])
         == Some(map["id" := JStr(id), "status" := JStr(status)])
  {
    var input := map["id" := JStr(id), "status" := JStr(status)];
    var shape := UpdateBookingInput.shape;
    assert ParseField("id", shape["id"], input) == Keep(JStr(id));
    assert ParseField("status", shape["status"], input) == Keep(JStr(status));
    assert shape.Keys == {"id", "check_in", "check_out", "adults", "children", "infants", "status",
                          "contract_signed_at", "contract_pdf_url", "payment_intent_id"};
    forall k | k in shape && k != "id" && k != "status"
      ensures ParseField(k, shape[k], input) == Omit
    {
      assert k !in input && shape[k].presence == Optional;
    }
    ParseObjectKeepsInput(shape, input);
  }

  /** When every key of the input is a field that keeps its value as it is and every
      other field is omitted, the object parses to the input itself. */
  lemma ParseObjectKeepsInput(shape: map<string, Field>, input: map<string, JsValue>)
    requires input.Keys <= shape.Keys
    requires forall k :: k in input ==> ParseField(k, shape[k], input) == Keep(input[k])
    requires forall k :: k in shape && k !in input ==> ParseField(k, shape[k], input) == Omit
    ensures ParseObject(shape, input) == Some(input)
  {
    assert FieldsPass(shape, input);
    var out := ParseObject(shape, input).value;
    forall k | k in shape
      ensures k in out <==> k in input
    {
      if k in input {
        assert ParseField(k, shape[k], input).Keep?;
      } else {
        assert ParseField(k, shape[k], input) == Omit;
      }
    }
    assert out.Keys == input.Keys;
    assert forall k :: k in out ==> out[k] == input[k];
    assert out == input;
  }

  /** A calendar event is accepted exactly when its fields have the right types and the
      end is strictly after the start. */
  lemma CreateCalendarEventValid(input: map<string, JsValue>)
    ensures Parse(CreateCalendarEventInput, input).Some? <==>
      StrAt(input, "villa_id") && EnumAt(input, "event_type", EventTypes)
      && DateAt(input, "start_date") && DateAt(input, "end_date")
      && OptStr(input, "booking_id") && OptStr(input, "note")
      && TimeAt(input, "end_date") > TimeAt(input, "start_date")
  {
    ParseDateOrder(CreateCalendarEventInput, input);
    StrField("villa_id", Req(AnyString), input);
    EnumField("event_type", Req(Enum(EventTypes)), EventTypes, input);
    DateField("start_date", Req(CoercedDate), input);
    DateField("end_date", Req(CoercedDate), input);
    StrField("booking_id", Opt(AnyString), input);
    StrField("note", Opt(AnyString), input);
    CreateCalendarEventCombine(input);
  }

  /** The villa and the type of a new calendar event. */
  const EventTarget: map<string, Field> := map["villa_id" := Req(AnyString), "event_type" := Req(Enum(EventTypes))]

  lemma CreateCalendarEventCombine(input: map<string, JsValue>)
    ensures FieldsPass(CreateCalendarEventInput.shape, input) <==>
      ParseField("villa_id", Req(AnyString), input) != Reject &&
      ParseField("event_type", Req(Enum(EventTypes)), input) != Reject &&
      ParseField("start_date", Req(CoercedDate), input) != Reject &&
      ParseField("end_date", Req(CoercedDate), input) != Reject &&
      ParseField("booking_id", Opt(AnyString), input) != Reject &&
      ParseField("note", Opt(AnyString), input) != Reject
  {
    var m1 := map["villa_id" := Req(AnyString)];
    var m3 := EventTarget["start_date" := Req(CoercedDate)];
    var m4 := m3["end_date" := Req(CoercedDate)];
    var m5 := m4["booking_id" := Opt(AnyString)];
    FieldsPassAdd(map[], "villa_id", Req(AnyString), input);
    FieldsPassAdd(m1, "event_type", Req(Enum(EventTypes)), input);
    FieldsPassAdd(EventTarget, "start_date", Req(CoercedDate), input);
    FieldsPassAdd(m3, "end_date", Req(CoercedDate), input);
    FieldsPassAdd(m4, "booking_id", Opt(AnyString), input);
    FieldsPassAdd(m5, "note", Opt(AnyString), input);
  }

  /** An event update is accepted exactly when its fields have the right types: there is
      no date-order check. */
  lemma UpdateCalendarEventValid(input: map<string, JsValue>)
    ensures Parse(UpdateCalendarEventInput, input).Some? <==>
      StrAt(input, "id") && OptEnum(input, "event_type", EventTypes)
      && OptDate(input, "start_date") && OptDate(input, "end_date")
      && OptStr(input, "booking_id") && OptStr(input, "note")
  {
    StrField("id", Req(AnyString), input);
    EnumField("event_type", Opt(Enum(EventTypes)), EventTypes, input);
    DateField("start_date", Opt(CoercedDate), input);
    DateField("end_date", Opt(CoercedDate), input);
    StrField("booking_id", Opt(AnyString), input);
    StrField("note", Opt(AnyString), input);
    UpdateCalendarEventCombine(input);
  }

  lemma UpdateCalendarEventCombine(input: map<string, JsValue>)
    ensures FieldsPass(UpdateCalendarEventInput.shape, input) <==>
      ParseField("id", Req(AnyString), input) != Reject &&
      ParseField("event_type", Opt(Enum(EventTypes)), input) != Reject &&
      ParseField("start_date", Opt(CoercedDate), input) != Reject &&
      ParseField("end_date", Opt(CoercedDate), input) != Reject &&
      ParseField("booking_id", Opt(AnyString), input) != Reject &&
      ParseField("note", Opt(AnyString), input) != Reject
  {
    var m1 := map["id" := Req(AnyString)];
    var m2 := m1["event_type" := Opt(Enum(EventTypes))];
    var m3 := m2["start_date" := Opt(CoercedDate)];
    var m4 := m3["end_date" := Opt(CoercedDate)];
    var m5 := m4["booking_id" := Opt(AnyString)];
    FieldsPassAdd(map[], "id", Req(AnyString), input);
    FieldsPassAdd(m1, "event_type", Opt(Enum(EventTypes)), input);
    FieldsPassAdd(m2, "start_date", Opt(CoercedDate), input);
    FieldsPassAdd(m3, "end_date", Opt(CoercedDate), input);
    FieldsPassAdd(m4, "booking_id", Opt(AnyString), input);
    FieldsPassAdd(m5, "note", Opt(AnyString), input);
  }

  /** The same reversed dates that creation refuses pass an update. */
  lemma ReversedDatesPassUpdateOnly(villa: string, id: string, start: int, end: int)
    requires 0 <= end <= start <= MaxTime
    ensures Parse(CreateCalendarEventInput, map["villa_id" := JStr(villa), "event_type" := JStr("blocked"),
                                               "start_date" := JDate(start), "end_date" := JDate(end)]).None?
    ensures Parse(UpdateCalendarEventInput, map["id" := JStr(id), "start_date" := JDate(start),
                                               "end_date" := JDate(end)]).Some?
  {
    CreateCalendarEventValid(map["villa_id" := JStr(villa), "event_type" := JStr("blocked"),
                                 "start_date" := JDate(start), "end_date" := JDate(end)]);
    UpdateCalendarEventValid(map["id" := JStr(id), "start_date" := JDate(start), "end_date" := JDate(end)]);
  }

  /** A pricing rule is accepted exactly when its fields have the right types, the
      percentage is within -100..100, the minimum stay and the priority are positive
      integers, and the end is not before the start when both are given. */
  lemma CreatePricingRuleValid(input: map<string, JsValue>)
    ensures Parse(CreatePricingRuleInput, input).Some? <==>
      StrAt(input, "villa_id") && EnumAt(input, "rule_type", RuleTypes)
      && OptDate(input, "start_date") && OptDate(input, "end_date")
      && ("adjustment_fixed_usd" in input ==> input["adjustment_fixed_usd"].JNum?)
      && ("adjustment_percent" in input ==> NumIn(input, "adjustment_percent", -100.0, 100.0))
      && ("min_nights" in input ==> IntAtLeast(input, "min_nights", 1))
      && ("priority" in input ==> IntAtLeast(input, "priority", 1))
      && (DateAt(input, "start_date") && DateAt(input, "end_date") ==> TimeAt(input, "end_date") >= TimeAt(input, "start_date"))
  {
    ParseDateOrder(CreatePricingRuleInput, input);
    CreatePricingRuleFields(input);
  }

  lemma CreatePricingRuleCombine(input: map<string, JsValue>)
    ensures FieldsPass(CreatePricingRuleInput.shape, input) <==>
      ParseField("villa_id", Req(AnyString), input) != Reject &&
      ParseField("rule_type", Req(Enum(RuleTypes)), input) != Reject &&
      ParseField("start_date", Opt(CoercedDate), input) != Reject &&
      ParseField("end_date", Opt(CoercedDate), input) != Reject &&
      ParseField("adjustment_fixed_usd", Opt(AnyNumber), input) != Reject &&
      ParseField("adjustment_percent", Opt(Num(false, AtLeast(-100.0), Some(100.0))), input) != Reject &&
      ParseField("min_nights", Opt(PositiveInt), input) != Reject &&
      ParseField("priority", Def(PositiveInt, JNum(10.0)), input) != Reject
  {
    var m5 := PricingRuleTarget["adjustment_fixed_usd" := Opt(AnyNumber)];
    var m6 := m5["adjustment_percent" := Opt(Num(false, AtLeast(-100.0), Some(100.0)))];
    var m7 := m6["min_nights" := Opt(PositiveInt)];
    PricingRuleTargetPasses(input);
    FieldsPassAdd(PricingRuleTarget, "adjustment_fixed_usd", Opt(AnyNumber), input);
    FieldsPassAdd(m5, "adjustment_percent", Opt(Num(false, AtLeast(-100.0), Some(100.0))), input);
    FieldsPassAdd(m6, "min_nights", Opt(PositiveInt), input);
    FieldsPassAdd(m7, "priority", Def(PositiveInt, JNum(10.0)), input);
  }

  /** The first four fields of the pricing rule shape, in declaration order. */
  const PricingRuleTarget: map<string, Field> :=
    map["villa_id" := Req(AnyString), "rule_type" := Req(Enum(RuleTypes)),
        "start_date" := Opt(CoercedDate), "end_date" := Opt(CoercedDate)]

  lemma PricingRuleTargetPasses(input: map<string, JsValue>)
    ensures FieldsPass(PricingRuleTarget, input) <==>
      ParseField("villa_id", Req(AnyString), input) != Reject &&
      ParseField("rule_type", Req(Enum(RuleTypes)), input) != Reject &&
      ParseField("start_date", Opt(CoercedDate), input) != Reject &&
      ParseField("end_date", Opt(CoercedDate), input) != Reject
  {
    var m1 := map["villa_id" := Req(AnyString)];
    var m2 := m1["rule_type" := Req(Enum(RuleTypes))];
    var m3 := m2["start_date" := Opt(CoercedDate)];
    FieldsPassAdd(map[], "villa_id", Req(AnyString), input);
    FieldsPassAdd(m1, "rule_type", Req(Enum(RuleTypes)), input);
    FieldsPassAdd(m2, "start_date", Opt(CoercedDate), input);
    FieldsPassAdd(m3, "end_date", Opt(CoercedDate), input);
  }

  lemma CreatePricingRuleFields(input: map<string, JsValue>)
    ensures ParseObject(CreatePricingRuleInput.shape, input).Some? <==>
      StrAt(input, "villa_id") && EnumAt(input, "rule_type", RuleTypes)
      && OptDate(input, "start_date") && OptDate(input, "end_date")
      && ("adjustment_fixed_usd" in input ==> input["adjustment_fixed_usd"].JNum?)
      && ("adjustment_percent" in input ==> NumIn(input, "adjustment_percent", -100.0, 100.0))
      && ("min_nights" in input ==> IntAtLeast(input, "min_nights", 1))
      && ("priority" in input ==> IntAtLeast(input, "priority", 1))
  {
    StrField("villa_id", Req(AnyString), input);
    EnumField("rule_type", Req(Enum(RuleTypes)), RuleTypes, input);
    DateField("start_date", Opt(CoercedDate), input);
    DateField("end_date", Opt(CoercedDate), input);
    NumField("adjustment_fixed_usd", Opt(AnyNumber), Unbounded, None, input);
    NumField("adjustment_percent", Opt(Num(false, AtLeast(-100.0), Some(100.0))), AtLeast(-100.0), Some(100.0), input);
    IntField("min_nights", Opt(PositiveInt), Above(0.0), None, 1, input);
    PriorityField(input);
    CreatePricingRuleCombine(input);
  }

  /** The priority defaults to 10, which is itself a positive integer, so only a given
      priority can be refused. */
  lemma PriorityField(input: map<string, JsValue>)
    ensures ParseField("priority", Def(PositiveInt, JNum(10.0)), input) != Reject
        <==> ("priority" in input ==> IntAtLeast(input, "priority", 1))
  {
    if "priority" in input {
      IntLeaf(input["priority"], Above(0.0), None, 1);
    } else {
      assert IsInteger(10.0);
    }
  }

  /** An accepted pricing rule carries the given priority, or 10 when none is given. */
  lemma PricingRulePriorityDefault(input: map<string, JsValue>)
    requires Parse(CreatePricingRuleInput, input).Some?
    ensures "priority" in Parse(CreatePricingRuleInput, input).value
    ensures Parse(CreatePricingRuleInput, input).value["priority"]
         == (if "priority" in input then input["priority"] else JNum(10.0))
  {
    assert ParseField("priority", CreatePricingRuleInput.shape["priority"], input).Keep?;
  }

  // ---------------------------------------------------------------------------
  // Villas

  /** Parsing against the union of two shapes with disjoint keys succeeds exactly when
      parsing against each part does. */
  lemma ParseObjectUnion(a: map<string, Field>, b: map<string, Field>, input: map<string, JsValue>)
    requires a.Keys !! b.Keys
    ensures ParseObject(a + b, input).Some? <==> ParseObject(a, input).Some? && ParseObject(b, input).Some?
  {
    if ParseObject(a, input).Some? && ParseObject(b, input).Some? {
      forall k | k in a + b
        ensures ParseField(k, (a + b)[k], input) != Reject
      {
        if k in b {
          assert (a + b)[k] == b[k];
        } else {
          assert (a + b)[k] == a[k];
        }
      }
    }
    if ParseObject(a + b, input).Some? {
      forall k | k in a
        ensures ParseField(k, a[k], input) != Reject
      {
        assert k !in b;
        assert (a + b)[k] == a[k];
        assert ParseField(k, (a + b)[k], input) != Reject;
      }
      forall k | k in b
        ensures ParseField(k, b[k], input) != Reject
      {
        assert (a + b)[k] == b[k];
        assert ParseField(k, (a + b)[k], input) != Reject;
      }
    }
  }

  /** The price fields of a new villa: a base price above 0, a cleaning fee of at least 0,
      and both ratios within 0..1. */
  lemma VillaPriceValid(input: map<string, JsValue>)
    ensures ParseObject(VillaPriceFields, input).Some? <==>
      NumAbove(input, "base_price_usd_per_night", 0.0) && NumAtLeast(input, "cleaning_fee_usd", 0.0)
      && NumIn(input, "service_fee_ratio", 0.0, 1.0) && NumIn(input, "damage_waiver_ratio", 0.0, 1.0)
  {
    var m1 := map["base_price_usd_per_night" := Req(Num(false, Above(0.0), None))];
    var m2 := m1["cleaning_fee_usd" := Req(Num(false, AtLeast(0.0), None))];
    var m3 := m2["service_fee_ratio" := Req(Ratio)];
    FieldsPassAdd(map[], "base_price_usd_per_night", Req(Num(false, Above(0.0), None)), input);
    FieldsPassAdd(m1, "cleaning_fee_usd", Req(Num(false, AtLeast(0.0), None)), input);
    FieldsPassAdd(m2, "service_fee_ratio", Req(Ratio), input);
    FieldsPassAdd(m3, "damage_waiver_ratio", Req(Ratio), input);
  }

  /** A villa is created only with those price bounds, whatever its other fields are. */
  lemma CreateVillaPriceBounds(input: map<string, JsValue>)
    ensures Parse(CreateVillaInput, input).Some? <==>
      ParseObject(VillaDescriptionFields, input).Some?
      && NumAbove(input, "base_price_usd_per_night", 0.0) && NumAtLeast(input, "cleaning_fee_usd", 0.0)
      && NumIn(input, "service_fee_ratio", 0.0, 1.0) && NumIn(input, "damage_waiver_ratio", 0.0, 1.0)
  {
    VillaFieldsDisjoint();
    ParseObjectUnion(VillaDescriptionFields, VillaPriceFields, input);
    VillaPriceValid(input);
  }

  lemma VillaFieldsDisjoint()
    ensures VillaDescriptionFields.Keys !! VillaPriceFields.Keys
  {
    assert VillaPriceFields.Keys == {"base_price_usd_per_night", "cleaning_fee_usd", "service_fee_ratio", "damage_waiver_ratio"};
  }

  /** A ratio above 1 is refused when a villa is created but accepted by the stored villa
      schema, which has no upper bound; both refuse a negative ratio. */
  lemma StoredRatioUnbounded(x: real)
    ensures ParseLeaf(StoredVillaRatio, JNum(x)).Some? <==> x >= 0.0
    ensures ParseLeaf(Ratio, JNum(x)).Some? <==> 0.0 <= x <= 1.0
  {
  }

  // ---------------------------------------------------------------------------
  // Support tickets

  /** The ticket fields other than the priority are acceptable. */
  predicate TicketFieldsOk(input: map<string, JsValue>) {
    StrLen(input, "subject", 5, 255) && StrAt(input, "reporter_user_id") && OptStr(input, "booking_id")
    && EnumAt(input, "department", TicketDepartments) && OptStr(input, "assigned_user_id")
  }

  /** The five fields other than the priority parse exactly when `TicketFieldsOk` holds. */
  lemma TicketFieldsAgree(input: map<string, JsValue>)
    ensures TicketFieldsOk(input) <==>
      ParseField("subject", Req(Str(5, Some(255))), input) != Reject &&
      ParseField("reporter_user_id", Req(AnyString), input) != Reject &&
      ParseField("booking_id", Opt(AnyString), input) != Reject &&
      ParseField("department", Req(Enum(TicketDepartments)), input) != Reject &&
      ParseField("assigned_user_id", Opt(AnyString), input) != Reject
  {
    StrField("reporter_user_id", Req(AnyString), input);
    StrField("booking_id", Opt(AnyString), input);
    StrField("assigned_user_id", Opt(AnyString), input);
    EnumField("department", Req(Enum(TicketDepartments)), TicketDepartments, input);
  }

  lemma TicketCombine(priorities: seq<string>, input: map<string, JsValue>)
    ensures ParseObject(TicketSchemaWith(priorities).shape, input).Some? <==>
      TicketFieldsOk(input) && ParseField("priority", Def(Enum(priorities), JStr("medium")), input) != Reject
  {
    var m1 := map["subject" := Req(Str(5, Some(255)))];
    var m2 := m1["reporter_user_id" := Req(AnyString)];
    var m3 := m2["booking_id" := Opt(AnyString)];
    var m4 := m3["department" := Req(Enum(TicketDepartments))];
    var m5 := m4["priority" := Def(Enum(priorities), JStr("medium"))];
    TicketFieldsAgree(input);
    FieldsPassAdd(map[], "subject", Req(Str(5, Some(255))), input);
    FieldsPassAdd(m1, "reporter_user_id", Req(AnyString), input);
    FieldsPassAdd(m2, "booking_id", Opt(AnyString), input);
    FieldsPassAdd(m3, "department", Req(Enum(TicketDepartments)), input);
    FieldsPassAdd(m4, "priority", Def(Enum(priorities), JStr("medium")), input);
    FieldsPassAdd(m5, "assigned_user_id", Opt(AnyString), input);
  }

  /** As written, a ticket that leaves the priority to its default is always refused: the
      default `'medium'` is not one of the enum's values. */
  lemma TicketDefaultRejected(input: map<string, JsValue>)
    requires "priority" !in input
    ensures Parse(CreateTicketInput, input).None?
  {
    assert "medium" !in TicketPriorities;
    assert ParseField("priority", Def(Enum(TicketPriorities), JStr("medium")), input) == Reject;
    TicketCombine(TicketPriorities, input);
  }

  /** With `'medium'` in the enum, a ticket without a priority is accepted exactly when its
      other fields are, and its priority is `'medium'`. */
  lemma TicketDefaultMedium(input: map<string, JsValue>)
    requires "priority" !in input
    ensures Parse(TicketSchemaWith(TicketPrioritiesWithMedium), input).Some? <==> TicketFieldsOk(input)
    ensures Parse(TicketSchemaWith(TicketPrioritiesWithMedium), input).Some? ==>
      "priority" in Parse(TicketSchemaWith(TicketPrioritiesWithMedium), input).value
      && Parse(TicketSchemaWith(TicketPrioritiesWithMedium), input).value["priority"] == JStr("medium")
  {
    var shape := TicketSchemaWith(TicketPrioritiesWithMedium).shape;
    assert ParseField("priority", shape["priority"], input) == Keep(JStr("medium"));
    assert ParseField("priority", Def(Enum(TicketPrioritiesWithMedium), JStr("medium")), input) == Keep(JStr("medium"));
    TicketCombine(TicketPrioritiesWithMedium, input);
  }

  /** Two shapes over the same keys whose fields give the same results parse alike. */
  lemma ParseObjectSameFields(a: map<string, Field>, b: map<string, Field>, input: map<string, JsValue>)
    requires a.Keys == b.Keys
    requires forall k :: k in a ==> ParseField(k, a[k], input) == ParseField(k, b[k], input)
    ensures ParseObject(a, input) == ParseObject(b, input)
  {
    if ParseObject(a, input).Some? {
      assert ParseObject(a, input).value == ParseObject(b, input).value;
    }
  }

  /** The correction only adds the inputs that rely on the default: every ticket the
      schema as written accepts is accepted by the corrected one with the same result. */
  lemma TicketCorrectionConservative(input: map<string, JsValue>)
    requires Parse(CreateTicketInput, input).Some?
    ensures Parse(TicketSchemaWith(TicketPrioritiesWithMedium), input) == Parse(CreateTicketInput, input)
  {
    var a, b := CreateTicketInput.shape, TicketSchemaWith(TicketPrioritiesWithMedium).shape;
    assert ParseField("priority", a["priority"], input) != Reject;
    if "priority" !in input {
      TicketDefaultRejected(input);
    }
    assert ParseField("priority", a["priority"], input) == ParseField("priority", b["priority"], input);
    ParseObjectSameFields(a, b, input);
  }

  // ---------------------------------------------------------------------------
  // Search paging

  /** The user, villa and booking search schemas. */
  predicate IsSearchSchema(s: ObjectSchema) {
    s == SearchUserInput || s == SearchVillaInput || s == SearchBookingInput
  }

  lemma PagingShape(s: ObjectSchema)
    requires IsSearchSchema(s)
    ensures "limit" in s.shape && s.shape["limit"] == Def(PositiveInt, JNum(10.0))
    ensures "offset" in s.shape && s.shape["offset"] == Def(NonNegativeInt, JNum(0.0))
  {
  }

  /** In every search, the limit is a positive integer, 10 when not given, and the offset
      a non-negative integer, 0 when not given. */
  lemma SearchPaging(s: ObjectSchema, input: map<string, JsValue>)
    requires IsSearchSchema(s)
    ensures ParseField("limit", s.shape["limit"], input) != Reject
        <==> ("limit" in input ==> IntAtLeast(input, "limit", 1))
    ensures ParseField("offset", s.shape["offset"], input) != Reject
        <==> ("offset" in input ==> IntAtLeast(input, "offset", 0))
    ensures Parse(s, input).Some? ==>
      "limit" in Parse(s, input).value && "offset" in Parse(s, input).value
      && Parse(s, input).value["limit"] == (if "limit" in input then input["limit"] else JNum(10.0))
      && Parse(s, input).value["offset"] == (if "offset" in input then input["offset"] else JNum(0.0))
  {
    PagingShape(s);
    if "limit" in input {
      IntLeaf(input["limit"], Above(0.0), None, 1);
    } else {
      assert IsInteger(10.0);
    }
    if "offset" in input {
      IntLeaf(input["offset"], AtLeast(0.0), None, 0);
    } else {
      assert IsInteger(0.0);
    }
  }
}
