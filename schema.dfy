/** The zod input schemas of backend/schema.ts, as data, and the part of zod's
    `safeParse` they use, as a function: `z.object` (unknown keys stripped),
    `z.number()` with `.int()`, `.positive()`, `.nonnegative()`, `.min()` and `.max()`,
    `z.string()` with length bounds, `z.boolean()`, `z.enum()`, `z.coerce.date()`,
    `z.array()`, `.nullable()`, `.optional()`, `.default()` and an object-level
    `.refine()` comparing two dates. The lemmas in module SchemaRules restate each
    schema as a plain predicate over the input record. */
module Schema {
  import opened Common

  /** A JSON-like input value. `JDate(ms)` is a `Date` (or a date string `Date` parses)
      with its time value in milliseconds; `JStr` in a date field stands for a string
      `Date` cannot parse. */
  datatype JsValue =
    | JNum(n: real)
    | JStr(s: string)
    | JBool(b: bool)
    | JNull
    | JDate(ms: int)
    | JObj(fields: map<string, JsValue>)
    | JArr(items: seq<JsValue>)

  /** A numeric lower bound: none, `.positive()` / `.gt(x)`, or `.nonnegative()` / `.min(x)`. */
  datatype Lower = Unbounded | Above(x: real) | AtLeast(x: real)

  /** A schema for one value that is not an object. */
  datatype Leaf =
    | Num(isInt: bool, lower: Lower, upper: Option<real>)
    | Str(minLen: nat, maxLen: Option<nat>)
    | Bool
    | Enum(options: seq<string>)
    | CoercedDate
    | ArrayOf(elem: Leaf)

  /** A field's schema: a leaf, or a nested object all of whose fields are required leaves
      (the only nested objects the modelled schemas have). */
  datatype Kind = Plain(leaf: Leaf) | Nested(shape: map<string, Leaf>)

  /** What an absent (`undefined`) key does: fail, stay absent, or take a default that is
      then checked like an input. */
  datatype Presence = Required | Optional | Default(value: JsValue)

  datatype Field = Field(kind: Kind, nullable: bool, presence: Presence)

  /** An object-level `.refine()` over two date fields: `later > earlier` (or `>=`); with
      `onlyWhenBoth` the check passes when either date is absent. */
  datatype Refinement = NoRefinement | DateOrder(earlier: string, later: string, strict: bool, onlyWhenBoth: bool)

  datatype ObjectSchema = ObjectSchema(shape: map<string, Field>, refinement: Refinement)

  datatype FieldResult = Reject | Omit | Keep(v: JsValue)

  /** The largest time value a `Date` holds (TimeClip, section 21.4.1.31 of ECMA-262). */
  const MaxTime: int := 8_640_000_000_000_000

  predicate IsInteger(n: real) {
    n.Floor as real == n
  }

  /** `ToIntegerOrInfinity`: truncation toward zero. */
  function Trunc(n: real): (r: int)
    ensures -1.0 < n - r as real < 1.0
    ensures n >= 0.0 ==> 0.0 <= r as real <= n
    ensures n < 0.0 ==> n <= r as real <= 0.0
  {
    if n >= 0.0 then n.Floor else -((-n).Floor)
  }

  /** `new Date(v)` for the values the schemas meet: a number is clipped to an integer
      time value, `null` is 0, a boolean is 0 or 1. */
  function CoerceDate(v: JsValue): (r: Option<int>)
    ensures r.Some? ==> -MaxTime <= r.value <= MaxTime
    ensures v.JDate? ==> (r.Some? <==> -MaxTime <= v.ms <= MaxTime) && (r.Some? ==> r.value == v.ms)
  {
    match v
    case JDate(ms) => if -MaxTime <= ms <= MaxTime then Some(ms) else None
    case JNum(n) => if -MaxTime as real <= n <= MaxTime as real then Some(Trunc(n)) else None
    case JNull => Some(0)
    case JBool(b) => Some(if b then 1 else 0)
    case _ => None
  }

  predicate NumOk(isInt: bool, lower: Lower, upper: Option<real>, n: real) {
    (isInt ==> IsInteger(n))
    && (match lower
        case Unbounded => true
        case Above(x) => n > x
        case AtLeast(x) => n >= x)
    && (upper.Some? ==> n <= upper.value)
  }

  /** The value a leaf schema accepts, converted (dates), if it accepts it. */
  function ParseLeaf(l: Leaf, v: JsValue): (r: Option<JsValue>)
    ensures r.Some? && !l.CoercedDate? && !l.ArrayOf? ==> r.value == v
  {
    match l
    case Num(isInt, lower, upper) => if v.JNum? && NumOk(isInt, lower, upper, v.n) then Some(v) else None
    case Str(lo, hi) => if v.JStr? && lo <= |v.s| && (hi.None? || |v.s| <= hi.value) then Some(v) else None
    case Bool => if v.JBool? then Some(v) else None
    case Enum(options) => if v.JStr? && v.s in options then Some(v) else None
    case CoercedDate =>
      (match CoerceDate(v)
       case Some(ms) => Some(JDate(ms))
       case None => None)
    case ArrayOf(e) =>
      if v.JArr? && forall i :: 0 <= i < |v.items| ==> ParseLeaf(e, v.items[i]).Some? then
        Some(JArr(seq(|v.items|, i requires 0 <= i < |v.items| => ParseLeaf(e, v.items[i]).value)))
      else None
  }

  function ParseKind(k: Kind, v: JsValue): Option<JsValue> {
    match k
    case Plain(l) => ParseLeaf(l, v)
    case Nested(shape) =>
      if v.JObj? && forall f :: f in shape ==> f in v.fields && ParseLeaf(shape[f], v.fields[f]).Some? then
        Some(JObj(map f | f in shape :: ParseLeaf(shape[f], v.fields[f]).value))
      else None
  }

  /** One field of an object: an absent key is governed by the field's presence, `null`
      by its nullability, anything else by its kind. */
  function ParseField(name: string, f: Field, input: map<string, JsValue>): FieldResult {
    if name !in input then
      match f.presence
      case Required => Reject
      case Optional => Omit
      case Default(d) =>
        (match ParseKind(f.kind, d)
         case Some(x) => Keep(x)
         case None => Reject)
    else if input[name] == JNull && f.nullable then Keep(JNull)
    else
      match ParseKind(f.kind, input[name])
      case Some(x) => Keep(x)
      case None => Reject
  }

  /** No field of the shape rejects the input. */
  predicate FieldsPass(shape: map<string, Field>, input: map<string, JsValue>) {
    forall k :: k in shape ==> ParseField(k, shape[k], input) != Reject
  }

  /** The object parses when every field of the shape does; the output holds exactly the
      kept fields, so keys the shape does not name are dropped. */
  function ParseObject(shape: map<string, Field>, input: map<string, JsValue>): (r: Option<map<string, JsValue>>)
    ensures r.Some? <==> FieldsPass(shape, input)
    ensures r.Some? ==> r.value.Keys <= shape.Keys
    ensures r.Some? ==> forall k :: k in shape ==>
              (k in r.value <==> ParseField(k, shape[k], input).Keep?)
              && (k in r.value ==> r.value[k] == ParseField(k, shape[k], input).v)
  {
    if FieldsPass(shape, input) then
      Some(map k | k in shape && ParseField(k, shape[k], input).Keep? :: ParseField(k, shape[k], input).v)
    else None
  }

  predicate RefinementHolds(rf: Refinement, out: map<string, JsValue>) {
    match rf
    case NoRefinement => true
    case DateOrder(earlier, later, strict, onlyWhenBoth) =>
      if earlier in out && later in out && out[earlier].JDate? && out[later].JDate? then
        (if strict then out[later].ms > out[earlier].ms else out[later].ms >= out[earlier].ms)
      else onlyWhenBoth
  }

  /** `schema.safeParse(input)`: the parsed object, or None for `{ success: false }`. */
  function Parse(s: ObjectSchema, input: map<string, JsValue>): Option<map<string, JsValue>> {
    match ParseObject(s.shape, input)
    case Some(out) => if RefinementHolds(s.refinement, out) then Some(out) else None
    case None => None
  }

  // ---------------------------------------------------------------------------
  // Enums (backend/schema.ts:8-70)

  const BookingStatuses: seq<string> := ["inquiry", "in_progress", "confirmed", "cancelled", "completed"]
  const EventTypes: seq<string> := ["blocked", "booking", "manual_hold"]
  const RuleTypes: seq<string> := ["season", "weekend", "event", "min_stay", "discount_week", "discount_month"]
  const TicketDepartments: seq<string> := ["guest_support", "host_support", "ops"]
  const TicketPriorities: seq<string> := ["low", "high", "urgent"]
  const UserRoles: seq<string> := ["guest", "host", "admin"]
  const VillaStatuses: seq<string> := ["draft", "under_review", "live", "suspended"]

  // ---------------------------------------------------------------------------
  // Shorthands

  const AnyNumber: Leaf := Num(false, Unbounded, None)
  const AnyString: Leaf := Str(0, None)
  const PositiveInt: Leaf := Num(true, Above(0.0), None)
  const NonNegativeInt: Leaf := Num(true, AtLeast(0.0), None)
  const Adults: Leaf := Num(true, Above(0.0), Some(99.0))
  const Children: Leaf := Num(true, AtLeast(0.0), Some(99.0))
  const Rating: Leaf := Num(true, AtLeast(1.0), Some(5.0))
  const Ratio: Leaf := Num(false, AtLeast(0.0), Some(1.0))

  function Req(l: Leaf): Field { Field(Plain(l), false, Required) }
  function Opt(l: Leaf): Field { Field(Plain(l), false, Optional) }
  function Def(l: Leaf, d: JsValue): Field { Field(Plain(l), false, Default(d)) }
  function NullOpt(l: Leaf): Field { Field(Plain(l), true, Optional) }

  // ---------------------------------------------------------------------------
  // The schemas

  /** `ratingsSchema` (backend/schema.ts:99-105). */
  const RatingsSchema: ObjectSchema := ObjectSchema(
    map["accuracy" := Req(Rating), "cleanliness" := Req(Rating), "communication" := Req(Rating),
        "location" := Req(Rating), "value" := Req(Rating)],
    NoRefinement)

  /** `createBookingInputSchema` (backend/schema.ts:345-355). */
  const CreateBookingInput: ObjectSchema := ObjectSchema(
    map["guest_user_id" := Req(AnyString), "villa_id" := Req(AnyString),
        "check_in" := Req(CoercedDate), "check_out" := Req(CoercedDate),
        "adults" := Req(Adults), "children" := Req(Children), "infants" := Req(Children)],
    DateOrder("check_in", "check_out", true, false))

  /** `updateBookingInputSchema` (backend/schema.ts:357-371). */
  const UpdateBookingInput: ObjectSchema := ObjectSchema(
    map["id" := Req(AnyString),
        "check_in" := Opt(CoercedDate), "check_out" := Opt(CoercedDate),
        "adults" := Opt(Adults), "children" := Opt(Children), "infants" := Opt(Children),
        "status" := Opt(Enum(BookingStatuses)),
        "contract_signed_at" := NullOpt(CoercedDate), "contract_pdf_url" := NullOpt(AnyString),
        "payment_intent_id" := NullOpt(AnyString)],
    DateOrder("check_in", "check_out", true, true))

  /** `createCalendarEventInputSchema` (backend/schema.ts:454-463). */
  const CreateCalendarEventInput: ObjectSchema := ObjectSchema(
    map["villa_id" := Req(AnyString), "event_type" := Req(Enum(EventTypes)),
        "start_date" := Req(CoercedDate), "end_date" := Req(CoercedDate),
        "booking_id" := Opt(AnyString), "note" := Opt(AnyString)],
    DateOrder("start_date", "end_date", true, false))

  /** `updateCalendarEventInputSchema` (backend/schema.ts:465-472). */
  const UpdateCalendarEventInput: ObjectSchema := ObjectSchema(
    map["id" := Req(AnyString), "event_type" := Opt(Enum(EventTypes)),
        "start_date" := Opt(CoercedDate), "end_date" := Opt(CoercedDate),
        "booking_id" := Opt(AnyString), "note" := Opt(AnyString)],
    NoRefinement)

  /** `createPricingRuleInputSchema` (backend/schema.ts:491-502). */
  const CreatePricingRuleInput: ObjectSchema := ObjectSchema(
    map["villa_id" := Req(AnyString), "rule_type" := Req(Enum(RuleTypes)),
        "start_date" := Opt(CoercedDate), "end_date" := Opt(CoercedDate),
        "adjustment_fixed_usd" := Opt(AnyNumber),
        "adjustment_percent" := Opt(Num(false, AtLeast(-100.0), Some(100.0))),
        "min_nights" := Opt(PositiveInt),
        "priority" := Def(PositiveInt, JNum(10.0))],
    DateOrder("start_date", "end_date", false, true))

  /** `locationDataSchema` (backend/schema.ts:77-84). */
  const LocationData: Kind := Nested(
    map["lat" := AnyNumber, "lng" := AnyNumber, "city" := AnyString,
        "address" := AnyString, "postal_code" := AnyString, "country" := AnyString])

  /** `policiesSchema` (backend/schema.ts:86-92). */
  const Policies: Kind := Nested(
    map["cancellation_tier" := AnyString, "security_deposit_usd" := AnyNumber,
        "house_rules" := ArrayOf(AnyString), "checkin_time" := AnyString, "checkout_time" := AnyString])

  /** The fields of `createVillaInputSchema` other than the price and ratio fields
      (backend/schema.ts:217-227, 232). */
  const VillaDescriptionFields: map<string, Field> :=
    map["host_user_id" := Req(AnyString), "slug" := Req(Str(1, Some(255))), "title" := Req(Str(1, Some(500))),
        "description" := Req(Str(10, None)), "location_data" := Field(LocationData, false, Required),
        "bedrooms_total" := Req(PositiveInt), "bathrooms_total" := Req(PositiveInt),
        "max_guests" := Req(PositiveInt), "max_pets" := Opt(NonNegativeInt),
        "policies" := Field(Policies, false, Required), "status" := Req(Enum(VillaStatuses))]

  /** The price and ratio fields of `createVillaInputSchema` (backend/schema.ts:228-231). */
  const VillaPriceFields: map<string, Field> :=
    map["base_price_usd_per_night" := Req(Num(false, Above(0.0), None)),
        "cleaning_fee_usd" := Req(Num(false, AtLeast(0.0), None)),
        "service_fee_ratio" := Req(Ratio), "damage_waiver_ratio" := Req(Ratio)]

  /** `createVillaInputSchema` (backend/schema.ts:217-233). */
  const CreateVillaInput: ObjectSchema := ObjectSchema(VillaDescriptionFields + VillaPriceFields, NoRefinement)

  /** The ratio fields of the stored `villaSchema` (backend/schema.ts:205-206): no upper bound. */
  const StoredVillaRatio: Leaf := Num(false, AtLeast(0.0), None)

  /** `createTicketInputSchema` (backend/schema.ts:768-775) over a given priority enum. */
  function TicketSchemaWith(priorities: seq<string>): ObjectSchema {
    ObjectSchema(
      map["subject" := Req(Str(5, Some(255))), "reporter_user_id" := Req(AnyString), "booking_id" := Opt(AnyString),
          "department" := Req(Enum(TicketDepartments)), "priority" := Def(Enum(priorities), JStr("medium")),
          "assigned_user_id" := Opt(AnyString)],
      NoRefinement)
  }

  /** `createTicketInputSchema` as written: its priority default is not one of its enum's values. */
  const CreateTicketInput: ObjectSchema := TicketSchemaWith(TicketPriorities)

  /** The priority enum with the `'medium'` level that the default names. */
  const TicketPrioritiesWithMedium: seq<string> := ["low", "medium", "high", "urgent"]

  /** `searchUserInputSchema` (backend/schema.ts:152-159). */
  const SearchUserInput: ObjectSchema := ObjectSchema(
    map["query" := Opt(AnyString), "role" := Opt(Enum(UserRoles)),
        "limit" := Def(PositiveInt, JNum(10.0)), "offset" := Def(NonNegativeInt, JNum(0.0)),
        "sort_by" := Def(Enum(["created_at", "email", "first_name"]), JStr("created_at")),
        "sort_order" := Def(Enum(["asc", "desc"]), JStr("desc"))],
    NoRefinement)

  /** `searchVillaInputSchema` (backend/schema.ts:254-265). */
  const SearchVillaInput: ObjectSchema := ObjectSchema(
    map["query" := Opt(AnyString), "min_guests" := Opt(PositiveInt), "max_price" := Opt(Num(false, Above(0.0), None)),
        "location" := Opt(AnyString), "tags" := Opt(ArrayOf(AnyString)),
        "published_only" := Def(Bool, JBool(true)),
        "limit" := Def(PositiveInt, JNum(10.0)), "offset" := Def(NonNegativeInt, JNum(0.0)),
        "sort_by" := Def(Enum(["price", "max_guests", "created_at"]), JStr("created_at")),
        "sort_order" := Def(Enum(["asc", "desc"]), JStr("desc"))],
    NoRefinement)

  /** `searchBookingInputSchema` (backend/schema.ts:373-383). */
  const SearchBookingInput: ObjectSchema := ObjectSchema(
    map["guest_user_id" := Opt(AnyString), "villa_id" := Opt(AnyString), "status" := Opt(Enum(BookingStatuses)),
        "date_from" := Opt(CoercedDate), "date_to" := Opt(CoercedDate),
        "limit" := Def(PositiveInt, JNum(10.0)), "offset" := Def(NonNegativeInt, JNum(0.0)),
        "sort_by" := Def(Enum(["check_in", "check_out", "total_usd", "created_at"]), JStr("created_at")),
        "sort_order" := Def(Enum(["asc", "desc"]), JStr("desc"))],
    NoRefinement)
}
