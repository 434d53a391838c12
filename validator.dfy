/** The back end's hand-rolled request-body validator (`Joi.object(shape)` in
    backend/server.ts). It checks only that the body is an object and that every key of
    the shape is defined, in the shape's key order; it never runs the nested
    string/number validators, so the model keeps only which keys of the body are defined.

    None of the validator objects has an `optional` property, so `shape[k].optional` is
    `undefined` for every real entry and every key counts as required. The shapes for
    optional fields are written `Joi.number().optional` — a property read, not a call —
    so the shape entry itself is `undefined`, and reading `.optional` of it throws a
    TypeError when that key is missing from the body. */
module MiniValidator {
  import opened Common

  /** The request body as the validator sees it: not an object (`typeof v !== 'object'`),
      `null`, or an object with the set of keys whose values are not `undefined`. */
  datatype Value = Primitive | Null | Object(present: set<string>)

  /** A shape entry: a validator object (required, since it has no `optional` flag), or
      the `undefined` that an uncalled `.optional` evaluates to. */
  datatype Entry = Checker | Undefined

  type Shape = seq<(string, Entry)>

  /** `{ value }`, `{ error }`, or an exception thrown out of `validate`. */
  datatype Outcome = Passed | Failed(error: string) | Crashed

  const NotObject: string := "not-object"

  function RequiredMessage(k: string): string {
    "field " + k + " required"
  }

  /** A key the check considers: every key as written; with `requiredOnly`, only the keys
      whose entry is a validator object. */
  predicate Considered(e: Entry, requiredOnly: bool) {
    !requiredOnly || e == Checker
  }

  /** The index of the first considered key at or after `from` that is not defined. */
  function FirstAbsent(shape: Shape, present: set<string>, requiredOnly: bool, from: nat): (r: Option<nat>)
    requires from <= |shape|
    ensures r.Some? ==> from <= r.value < |shape| && shape[r.value].0 !in present
                        && Considered(shape[r.value].1, requiredOnly)
                        && forall j :: from <= j < r.value && Considered(shape[j].1, requiredOnly) ==> shape[j].0 in present
    ensures r.None? <==> forall j :: from <= j < |shape| && Considered(shape[j].1, requiredOnly) ==> shape[j].0 in present
    decreases |shape| - from
  {
    if from == |shape| then None
    else if Considered(shape[from].1, requiredOnly) && shape[from].0 !in present then Some(from)
    else FirstAbsent(shape, present, requiredOnly, from + 1)
  }

  /** What `validate` does as written (backend/server.ts:55-60). */
  function AsWritten(shape: Shape, v: Value): (o: Outcome)
    ensures !v.Object? ==> o == Failed(NotObject)
    ensures v.Object? ==> (o == Passed <==> forall j :: 0 <= j < |shape| ==> shape[j].0 in v.present)
    ensures o == Crashed <==> v.Object? && (exists i :: 0 <= i < |shape| && shape[i].1 == Undefined
                                              && shape[i].0 !in v.present
                                              && forall j :: 0 <= j < i ==> shape[j].0 in v.present)
  {
    if !v.Object? then Failed(NotObject)
    else match FirstAbsent(shape, v.present, false, 0)
      case None => Passed
      case Some(i) =>
        if shape[i].1 == Undefined then Crashed
        else
          Failed(RequiredMessage(shape[i].0))
  }

  /** The validator's loop over the shape's keys (backend/server.ts:53-61). */
  method ValidateAsWritten(shape: Shape, v: Value) returns (o: Outcome)
    ensures o == AsWritten(shape, v)
  {
    if !v.Object? {
      return Failed(NotObject);
    }
    var k := 0;
    while k < |shape|
      invariant 0 <= k <= |shape|
      invariant forall j :: 0 <= j < k ==> shape[j].0 in v.present
      invariant FirstAbsent(shape, v.present, false, 0) == FirstAbsent(shape, v.present, false, k)
    {
      if shape[k].0 !in v.present {
        if shape[k].1 == Undefined {
          return Crashed;
        }
        return Failed(RequiredMessage(shape[k].0));
      }
      k := k + 1;
    }
    return Passed;
  }

  /** The evidently intended validator: an entry written `.optional` marks an optional key,
      every other key is required. */
  function Validate(shape: Shape, v: Value): (o: Outcome)
    ensures o != Crashed
    ensures !v.Object? ==> o == Failed(NotObject)
    ensures o == Passed <==> v.Object? && forall j :: 0 <= j < |shape| && shape[j].1 == Checker ==> shape[j].0 in v.present
    ensures v.Object? && o.Failed? ==> exists i :: 0 <= i < |shape| && shape[i].1 == Checker && shape[i].0 !in v.present
                                                 && o == Failed(RequiredMessage(shape[i].0))
                                                 && forall j :: 0 <= j < i && shape[j].1 == Checker ==> shape[j].0 in v.present
  {
    if !v.Object? then Failed(NotObject)
    else match FirstAbsent(shape, v.present, true, 0)
      case None => Passed
      case Some(i) => Failed(RequiredMessage(shape[i].0))
  }

  /** Whenever the validator as written does not throw, the intended one gives the same
      answer (the same first missing key, the same message). */
  lemma CorrectedAgrees(shape: Shape, v: Value)
    requires AsWritten(shape, v) != Crashed
    ensures Validate(shape, v) == AsWritten(shape, v)
  {
    if v.Object? {
      var a := FirstAbsent(shape, v.present, false, 0);
      var b := FirstAbsent(shape, v.present, true, 0);
      if a.Some? {
        assert shape[a.value].1 == Checker;
        assert b.Some?;
      } else {
        assert b.None?;
      }
    }
  }

  // ---------------------------------------------------------------------------
  // The shapes of the booking, search and review bodies

  /** `bookingBody` (backend/server.ts:187-194). */
  const BookingBody: Shape := [("villa_id", Checker), ("check_in", Checker), ("check_out", Checker),
                               ("adults", Checker), ("children", Undefined), ("infants", Undefined)]

  /** `searchQuery` (backend/server.ts:153-160): every entry is an uncalled `.optional`. */
  const SearchQuery: Shape := [("min_guests", Undefined), ("max_price", Undefined), ("location", Undefined),
                               ("tags", Undefined), ("limit", Undefined), ("offset", Undefined)]

  /** `reviewBody` (backend/server.ts:280-285): `Joi.object` uncalled is a function without
      an `optional` property, so `ratings` and `photos` are required like the others. */
  const ReviewBody: Shape := [("booking_id", Checker), ("ratings", Checker), ("content", Checker), ("photos", Checker)]

  /** A hold request that leaves out `children` makes the validator throw, while the
      intended validator accepts it. */
  lemma BookingWithoutChildrenCrashes()
    ensures AsWritten(BookingBody, Object({"villa_id", "check_in", "check_out", "adults"})) == Crashed
    ensures Validate(BookingBody, Object({"villa_id", "check_in", "check_out", "adults"})) == Passed
  {
    var v := Object({"villa_id", "check_in", "check_out", "adults"});
    assert BookingBody[4].1 == Undefined && BookingBody[4].0 !in v.present;
    assert forall j :: 0 <= j < 4 ==> BookingBody[j].0 in v.present;
  }

  /** The keys of `searchQuery`. */
  const SearchKeys: set<string> := {"min_guests", "max_price", "location", "tags", "limit", "offset"}

  /** A shape made only of uncalled `.optional` entries throws on every object that
      leaves out any of its keys. */
  lemma AllUndefinedCrashes(shape: Shape, present: set<string>, k: int)
    requires forall j :: 0 <= j < |shape| ==> shape[j].1 == Undefined
    requires 0 <= k < |shape| && shape[k].0 !in present
    ensures AsWritten(shape, Object(present)) == Crashed
  {
    assert AsWritten(shape, Object(present)) != Passed;
  }

  /** A search request passes the validator as written only when it carries all six
      query parameters, and any one of them missing makes it throw; the intended
      validator accepts every object. */
  lemma SearchQueryCrashesUnlessComplete(present: set<string>)
    ensures AsWritten(SearchQuery, Object(present)) == if SearchKeys <= present then Passed else Crashed
    ensures Validate(SearchQuery, Object(present)) == Passed
  {
    if SearchKeys <= present {
      assert forall j :: 0 <= j < |SearchQuery| ==> SearchQuery[j].0 in present;
    } else {
      var k :| k in SearchKeys && k !in present;
      var i := if k == "min_guests" then 0 else if k == "max_price" then 1 else if k == "location" then 2
               else if k == "tags" then 3 else if k == "limit" then 4 else 5;
      assert SearchQuery[i].0 == k;
      AllUndefinedCrashes(SearchQuery, present, i);
    }
  }

  /** A review body passes exactly when all four fields are defined. */
  lemma ReviewBodyRequiresAll(present: set<string>)
    ensures AsWritten(ReviewBody, Object(present)) == Passed
        <==> {"booking_id", "ratings", "content", "photos"} <= present
  {
    if {"booking_id", "ratings", "content", "photos"} <= present {
      assert forall j :: 0 <= j < |ReviewBody| ==> ReviewBody[j].0 in present;
    } else {
      var k :| k in {"booking_id", "ratings", "content", "photos"} && k !in present;
      assert k == ReviewBody[0].0 || k == ReviewBody[1].0 || k == ReviewBody[2].0 || k == ReviewBody[3].0;
    }
  }

  /** The intended validator accepts a hold body exactly when the four required fields
      are defined. */
  lemma BookingBodyRequired(present: set<string>)
    ensures Validate(BookingBody, Object(present)) == Passed
        <==> {"villa_id", "check_in", "check_out", "adults"} <= present
  {
    if !({"villa_id", "check_in", "check_out", "adults"} <= present) {
      var k :| k in {"villa_id", "check_in", "check_out", "adults"} && k !in present;
      assert k == BookingBody[0].0 || k == BookingBody[1].0 || k == BookingBody[2].0 || k == BookingBody[3].0;
    }
  }
}
