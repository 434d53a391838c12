/** The guest's three-step checkout wizard (vitereact/src/components/views/UV_WizardCheckout.tsx):
    step 1 picks the dates, the party and the concierge extras, step 2 takes the guest's
    details, and step 3 shows the contract and the pay button. Leaving step 1 places a
    hold on the villa; the pay button confirms the held booking.

    The draft is a value that the form replaces field by field; the wizard's own state
    (the step, the validation errors, the hold the server granted) is a class whose
    methods are the component's event handlers. The requests the wizard sends and the
    notifications and page changes it causes are kept as logs. */
module WizardCheckout {
  import opened Common
  import opened IsoDate

  /** `draft.guest`; a field never typed in is `undefined`, which the form shows and
      the validator treats like the empty string, so both are `""` here. */
  datatype Guest = Guest(firstName: string, lastName: string, email: string, phone: string, passport: string)

  /** `CheckoutDraft` without `price_breakdown`, which nothing reads. */
  datatype Draft = Draft(villaId: string, checkIn: string, checkOut: string,
                         adults: int, children: int, infants: int,
                         concierge: seq<string>, paymentPlan: string,
                         guest: Guest, contractSigned: bool)

  /** The draft a first visit starts from (lines 68-81). */
  function DefaultDraft(villaId: string): (d: Draft)
    ensures d.villaId == villaId && d.checkIn == "" && d.checkOut == ""
    ensures d.adults == 2 && d.children == 0 && d.infants == 0 && d.concierge == []
    ensures d.paymentPlan == "full" && !d.contractSigned
  {
    Draft(villaId, "", "", 2, 0, 0, [], "full", Guest("", "", "", "", ""), false)
  }

  // ---------------------------------------------------------------------------
  // Per-step validation

  const SelectDates: string := "Select dates"
  const SignContract: string := "Sign contract"
  const GuestMessages: seq<string> := ["Enter first name", "Enter last name", "Enter email", "Enter phone"]

  /** The guest fields step 2 checks, in the order it checks them. */
  function GuestFields(g: Guest): (r: seq<string>)
    ensures r == [g.firstName, g.lastName, g.email, g.phone]
  {
    [g.firstName, g.lastName, g.email, g.phone]
  }

  /** The position of the last empty string of `fields`. */
  function LastEmpty(fields: seq<string>): (r: Option<nat>)
    ensures r.None? <==> forall i :: 0 <= i < |fields| ==> fields[i] != ""
    ensures r.Some? ==> r.value < |fields| && fields[r.value] == ""
                        && forall j :: r.value < j < |fields| ==> fields[j] != ""
    decreases |fields|
  {
    if fields == [] then None
    else if fields[|fields| - 1] == "" then Some(|fields| - 1)
    else
      var r := LastEmpty(fields[..|fields| - 1]);
      assert forall i :: 0 <= i < |fields| - 1 ==> fields[..|fields| - 1][i] == fields[i];
      r
  }

  /** Which of four checks made one after another is the last to fail. */
  lemma LastEmptyOfFour(a: string, b: string, c: string, e: string)
    ensures LastEmpty([a, b, c, e]) == if e == "" then Some(3) else if c == "" then Some(2)
                                       else if b == "" then Some(1) else if a == "" then Some(0) else None
  {
    assert [a][..0] == [];
    assert LastEmpty([a]) == if a == "" then Some(0) else None;
    assert [a, b][..1] == [a];
    assert LastEmpty([a, b]) == if b == "" then Some(1) else LastEmpty([a]);
    assert [a, b, c][..2] == [a, b];
    assert LastEmpty([a, b, c]) == if c == "" then Some(2) else LastEmpty([a, b]);
    assert [a, b, c, e][..3] == [a, b, c];
    assert LastEmpty([a, b, c, e]) == if e == "" then Some(3) else LastEmpty([a, b, c]);
  }

  /** The `errs` object that `validate(s)` builds (lines 166-182): at most one message,
      for step `s` itself. Step 1 needs both dates, step 2 the four guest fields, step 3
      the signed contract; since each failing guest check overwrites `errs[2]`, step 2
      reports the LAST missing field. Any other step has no checks. */
  function StepErrors(s: int, d: Draft): (errs: map<int, string>)
    ensures errs.Keys <= {s}
    ensures forall k :: k in errs ==> errs[k] != ""
    ensures s == 1 ==> (1 in errs <==> d.checkIn == "" || d.checkOut == "")
    ensures s == 1 && 1 in errs ==> errs[1] == SelectDates
    ensures s == 2 ==> (2 in errs <==> exists i :: 0 <= i < 4 && GuestFields(d.guest)[i] == "")
    ensures s == 2 && 2 in errs ==> exists i :: 0 <= i < 4 && GuestFields(d.guest)[i] == ""
                                        && errs[2] == GuestMessages[i]
                                        && forall j :: i < j < 4 ==> GuestFields(d.guest)[j] != ""
    ensures s == 3 ==> (3 in errs <==> !d.contractSigned)
    ensures s == 3 && 3 in errs ==> errs[3] == SignContract
    ensures s != 1 && s != 2 && s != 3 ==> errs == map[]
  {
    if s == 1 then (if d.checkIn == "" || d.checkOut == "" then map[1 := SelectDates] else map[])
    else if s == 2 then
      match LastEmpty(GuestFields(d.guest))
      case None => map[]
      case Some(i) => map[2 := GuestMessages[i]]
    else if s == 3 then (if !d.contractSigned then map[3 := SignContract] else map[])
    else map[]
  }

  /** `validate(s)`'s answer, `!errs[s]`. */
  predicate StepValid(s: int, d: Draft) {
    s !in StepErrors(s, d)
  }

  // ---------------------------------------------------------------------------
  // Draft edits (pure record spreads)

  datatype Party = Adults | Children | Infants

  function Count(d: Draft, k: Party): int {
    match k
    case Adults => d.adults
    case Children => d.children
    case Infants => d.infants
  }

  /** `{ ...d, [k]: n }` */
  function WithCount(d: Draft, k: Party, n: int): (r: Draft)
    ensures Count(r, k) == n
    ensures forall k2 :: k2 != k ==> Count(r, k2) == Count(d, k2)
    ensures r.(adults := d.adults, children := d.children, infants := d.infants) == d
  {
    match k
    case Adults => d.(adults := n)
    case Children => d.(children := n)
    case Infants => d.(infants := n)
  }

  /** The `-` button (line 242): `Math.max(0, d[k] - 1)`. */
  function Decrement(d: Draft, k: Party): (r: Draft)
    ensures Count(r, k) >= 0
    ensures Count(d, k) >= 1 ==> Count(r, k) == Count(d, k) - 1
    ensures Count(d, k) <= 1 ==> Count(r, k) == 0
    ensures forall k2 :: k2 != k ==> Count(r, k2) == Count(d, k2)
    ensures r.(adults := d.adults, children := d.children, infants := d.infants) == d
  {
    WithCount(d, k, if Count(d, k) - 1 > 0 then Count(d, k) - 1 else 0)
  }

  /** The `+` button (line 244). */
  function Increment(d: Draft, k: Party): (r: Draft)
    ensures Count(r, k) == Count(d, k) + 1
    ensures forall k2 :: k2 != k ==> Count(r, k2) == Count(d, k2)
    ensures r.(adults := d.adults, children := d.children, infants := d.infants) == d
  {
    WithCount(d, k, Count(d, k) + 1)
  }

  /** `-` undoes `+` on every count the form can show. */
  lemma IncrementThenDecrement(d: Draft, k: Party)
    requires Count(d, k) >= 0
    ensures Decrement(Increment(d, k), k) == d
  {
    var r := Decrement(Increment(d, k), k);
    assert Count(r, Adults) == Count(d, Adults) && Count(r, Children) == Count(d, Children)
        && Count(r, Infants) == Count(d, Infants);
  }

  const ConciergeTags: seq<string> := ["chef", "yacht", "spa"]

  /** A concierge checkbox (line 253): checking appends the tag, unchecking removes
      every copy of it and keeps the rest in order. */
  function ToggleExtra(d: Draft, tag: string, checked: bool): (r: Draft)
    ensures r == d.(concierge := r.concierge)
    ensures checked ==> |r.concierge| == |d.concierge| + 1 && r.concierge[..|d.concierge|] == d.concierge
                        && r.concierge[|d.concierge|] == tag
    ensures !checked ==> r.concierge == Filter(d.concierge, (t: string) => t != tag)
    ensures !checked ==> tag !in r.concierge && |r.concierge| <= |d.concierge|
                         && forall t :: t != tag ==> (t in r.concierge <==> t in d.concierge)
  {
    if checked then d.(concierge := d.concierge + [tag])
    else d.(concierge := Filter(d.concierge, (t: string) => t != tag))
  }

  /** Checking an extra that is not chosen and unchecking it again restores the draft. */
  lemma ToggleExtraTwice(d: Draft, tag: string)
    requires tag !in d.concierge
    ensures ToggleExtra(ToggleExtra(d, tag, true), tag, false) == d
  {
    var p := (t: string) => t != tag;
    FilterConcat(d.concierge, [tag], p);
    FilterAll(d.concierge, p);
    assert Filter([tag], p) == [];
  }

  /** `{ ...d, contract_signed: true }`, which the contract frame's `onLoad` applies
      (line 322): loading the frame counts as signing. */
  function Signed(d: Draft): (r: Draft)
    ensures r.contractSigned && r.(contractSigned := d.contractSigned) == d
  {
    d.(contractSigned := true)
  }

  // ---------------------------------------------------------------------------
  // The hold's expiry

  /** The one-second check (lines 150-152), with `holdExpiresAt` a time in seconds
      (0 while there is no hold): it applies from step 3 on, once a hold exists, and
      the hold has expired once the clock is strictly past it. */
  predicate HoldExpired(step: int, expiresAt: real, nowMs: real): (r: bool)
    ensures r ==> step >= 3 && expiresAt != 0.0
    ensures r && expiresAt > 0.0 ==> nowMs > 1000.0 * expiresAt
  {
    expiresAt != 0.0 && step >= 3 && nowMs / 1000.0 > expiresAt
  }

  /** Once expired, a hold stays expired as the clock advances, and it has expired
      exactly when the clock is past `1000 * expiresAt` milliseconds. */
  lemma HoldExpiryOrder(step: int, expiresAt: real, t1: real, t2: real)
    requires step >= 3 && expiresAt > 0.0
    ensures HoldExpired(step, expiresAt, t1) <==> t1 > 1000.0 * expiresAt
    ensures HoldExpired(step, expiresAt, t1) && t1 <= t2 ==> HoldExpired(step, expiresAt, t2)
  {
  }

  /** A JavaScript number as far as a `>` comparison needs it. */
  datatype JsNumber = Finite(v: real) | NaN

  predicate IsDigit(c: char) {
    '0' <= c <= '9'
  }

  /** The value of a string of decimal digits. */
  function DigitsValue(s: string): (r: nat)
    requires forall i :: 0 <= i < |s| ==> IsDigit(s[i])
    decreases |s|
  {
    if s == [] then 0
    else
      assert IsDigit(s[|s| - 1]);
      DigitsValue(s[..|s| - 1]) * 10 + (s[|s| - 1] as int - '0' as int)
  }

  /** `Number(text)` for a string of digits (the empty string is 0); any string with a
      character that is not a digit is taken to be NaN. */
  function TextToNumber(text: string): (r: JsNumber)
    ensures r.NaN? <==> exists i :: 0 <= i < |text| && !IsDigit(text[i])
    ensures r.Finite? ==> r.v >= 0.0
  {
    if forall i :: 0 <= i < |text| ==> IsDigit(text[i]) then Finite(DigitsValue(text) as real) else NaN
  }

  /** The interval's comparison as written (line 152), with the step test of line 150:
      the server answers `expires_at` with the text of `toISOString()`
      (backend/server.ts:232), `onSuccess` stores that text, and
      `Date.now() / 1000 > holdExpiresAt` converts it to a number before comparing. Whether
      the interval is running at all is left to `Checkout.Tick`. */
  predicate ExpiredAsWritten(step: int, holdText: string, nowMs: real): (r: bool)
    ensures r ==> step >= 3 && holdText != "" && forall i :: 0 <= i < |holdText| ==> IsDigit(holdText[i])
  {
    holdText != "" && step >= 3
    && match TextToNumber(holdText)
       case NaN => false
       case Finite(e) => nowMs / 1000.0 > e
  }

  /** So the hold never expires on the client: every timestamp the server sends has a
      `T` in it and compares as NaN. */
  lemma HoldNeverExpiresAsWritten(step: int, d: Date, hour: nat, minute: nat, second: nat, milli: nat, nowMs: real)
    requires Valid(d) && hour < 24 && minute < 60 && second < 60 && milli < 1000
    ensures !ExpiredAsWritten(step, IsoInstant(d, hour, minute, second, milli), nowMs)
  {
    var text := IsoInstant(d, hour, minute, second, milli);
    assert !IsDigit(text[10]);
  }

  // ---------------------------------------------------------------------------
  // The wizard

  /** The body of `POST /bookings/hold` (lines 191-198 and 114). */
  datatype HoldRequest = HoldRequest(villaId: string, checkIn: string, checkOut: string,
                                     adults: int, children: int, infants: int, addons: seq<string>)

  function HoldRequestOf(villaId: string, d: Draft): (h: HoldRequest)
    ensures h.villaId == villaId && h.checkIn == d.checkIn && h.checkOut == d.checkOut
    ensures h.adults == d.adults && h.children == d.children && h.infants == d.infants
    ensures h.addons == d.concierge
  {
    HoldRequest(villaId, d.checkIn, d.checkOut, d.adults, d.children, d.infants, d.concierge)
  }

  /** What the hold request comes back with: the booking id and the expiry time in
      seconds, or a failure (the awaited mutation then throws out of `onNext`). */
  datatype HoldReply = HoldGranted(bookingId: string, expiresAt: real) | HoldFailed

  const BookingLocked: string := "Booking Locked!"
  const HoldExpiredNotice: string := "Hold expired!"

  class Checkout {
    /** `villaId` from the route. */
    const villaId: string
    var step: int
    var draft: Draft
    /** `validationErrors` */
    var errors: map<int, string>
    /** `holdExpiresAt`, in seconds; 0 until a hold is granted. */
    var holdExpiresAt: real
    /** `holdMutation.data?.data.booking_id` */
    var holdBookingId: Option<string>
    /** Requests sent to the back end, oldest first. */
    var holdRequests: seq<HoldRequest>
    var confirmRequests: seq<string>
    /** Titles pushed to the notification store. */
    var notices: seq<string>
    /** The page the wizard navigated away to, if any. */
    var location: Option<string>

    /** A step of the wizard; the counters never go below zero; beyond step 1 there is
        always a granted hold, and a granted hold comes from a sent request. */
    predicate Valid()
      reads this
    {
      1 <= step <= 3
      && draft.adults >= 0 && draft.children >= 0 && draft.infants >= 0
      && (step >= 2 ==> holdBookingId.Some?)
      && (holdBookingId.Some? ==> |holdRequests| > 0)
    }

    /** A first visit, without a saved draft or a `step` query parameter (lines 64-84). */
    constructor(villa: string)
      ensures Valid()
      ensures villaId == villa && step == 1 && draft == DefaultDraft(villa) && errors == map[]
      ensures holdExpiresAt == 0.0 && holdBookingId == None
      ensures holdRequests == [] && confirmRequests == [] && notices == [] && location == None
    {
      villaId := villa;
      step := 1;
      draft := DefaultDraft(villa);
      errors := map[];
      holdExpiresAt := 0.0;
      holdBookingId := None;
      holdRequests := [];
      confirmRequests := [];
      notices := [];
      location := None;
    }

    /** `validate(s)` (lines 166-185): fills the errors object check by check, stores
        it, and answers whether step `s` has no error. */
    method Validate(s: int) returns (ok: bool)
      modifies this`errors
      ensures errors == StepErrors(s, draft)
      ensures ok <==> StepValid(s, draft)
    {
      var errs: map<int, string> := map[];
      if s == 1 {
        if draft.checkIn == "" || draft.checkOut == "" {
          errs := errs[1 := SelectDates];
        }
      } else if s == 2 {
        if draft.guest.firstName == "" { errs := errs[2 := GuestMessages[0]]; }
        if draft.guest.lastName == "" { errs := errs[2 := GuestMessages[1]]; }
        if draft.guest.email == "" { errs := errs[2 := GuestMessages[2]]; }
        if draft.guest.phone == "" { errs := errs[2 := GuestMessages[3]]; }
        LastEmptyOfFour(draft.guest.firstName, draft.guest.lastName, draft.guest.email, draft.guest.phone);
      } else if s == 3 {
        if !draft.contractSigned {
          errs := errs[3 := SignContract];
        }
      }
      errors := errs;
      ok := s !in errs;
    }

    /** The Next button (lines 187-203), shown only before step 3 (line 354). An
        invalid step only records its errors. From a valid step 1 exactly one hold
        request is sent; the step advances to 2 once it is granted, and stays at 1 if
        it fails. From a valid step 2 the wizard moves to step 3 without a request. */
    method OnNext(reply: HoldReply)
      requires Valid() && step < 3
      modifies this
      ensures Valid()
      ensures errors == StepErrors(old(step), old(draft))
      ensures draft == old(draft) && confirmRequests == old(confirmRequests)
      ensures notices == old(notices) && location == old(location)
      ensures !StepValid(old(step), old(draft)) ==>
                step == old(step) && holdRequests == old(holdRequests)
                && holdBookingId == old(holdBookingId) && holdExpiresAt == old(holdExpiresAt)
      ensures StepValid(old(step), old(draft)) && old(step) == 2 ==>
                step == 3 && holdRequests == old(holdRequests)
                && holdBookingId == old(holdBookingId) && holdExpiresAt == old(holdExpiresAt)
      ensures StepValid(old(step), old(draft)) && old(step) == 1 ==>
                holdRequests == old(holdRequests) + [HoldRequestOf(villaId, old(draft))]
      ensures StepValid(old(step), old(draft)) && old(step) == 1 && reply.HoldGranted? ==>
                step == 2 && holdBookingId == Some(reply.bookingId) && holdExpiresAt == reply.expiresAt
      ensures StepValid(old(step), old(draft)) && old(step) == 1 && reply.HoldFailed? ==>
                step == 1 && holdBookingId == None && holdExpiresAt == old(holdExpiresAt)
    {
      var ok := Validate(step);
      if !ok {
        return;
      }
      var next := step + 1;
      if next == 2 {
        holdRequests := holdRequests + [HoldRequestOf(villaId, draft)];
        match reply
        case HoldFailed =>
          holdBookingId := None;
          return;
        case HoldGranted(id, expiresAt) =>
          holdBookingId := Some(id);
          holdExpiresAt := expiresAt;
      }
      step := next;
    }

    /** The Back button, shown after step 1 (line 352). */
    method Back()
      requires Valid() && step > 1
      modifies this`step
      ensures Valid() && step == old(step) - 1
    {
      step := step - 1;
    }

    /** A guest counter button (lines 242 and 244). */
    method ChangeCount(k: Party, up: bool)
      requires Valid()
      modifies this`draft
      ensures Valid()
      ensures draft == if up then Increment(old(draft), k) else Decrement(old(draft), k)
    {
      draft := if up then Increment(draft, k) else Decrement(draft, k);
    }

    /** A concierge checkbox (line 253). */
    method ChangeExtra(tag: string, checked: bool)
      requires Valid()
      modifies this`draft
      ensures Valid() && draft == ToggleExtra(old(draft), tag, checked)
    {
      draft := ToggleExtra(draft, tag, checked);
    }

    /** The contract frame finished loading (line 322). */
    method ContractLoaded()
      requires Valid()
      modifies this`draft
      ensures Valid() && draft == Signed(old(draft))
    {
      draft := Signed(draft);
    }

    /** One run of the expiry interval at time `nowMs` (lines 151-155): an expired hold
        sends the guest back to the landing page with a notice; otherwise nothing
        happens. */
    method Tick(nowMs: real)
      modifies this`notices, this`location
      ensures HoldExpired(step, holdExpiresAt, nowMs) ==>
                notices == old(notices) + [HoldExpiredNotice] && location == Some("/")
      ensures !HoldExpired(step, holdExpiresAt, nowMs) ==>
                notices == old(notices) && location == old(location)
    {
      if holdExpiresAt != 0.0 && step >= 3 && nowMs / 1000.0 > holdExpiresAt {
        notices := notices + [HoldExpiredNotice];
        location := Some("/");
      }
    }

    /** The pay button of step 3 (lines 361-369), disabled until the contract is
        signed: without a booking id from the hold it does nothing; otherwise it sends
        one confirmation and, when the back end accepts it, notifies and moves on to the
        confirmation page. */
    method Pay(accepted: bool)
      requires Valid() && step == 3
      modifies this`confirmRequests, this`notices, this`location
      ensures !draft.contractSigned || holdBookingId == Some("") ==>
                confirmRequests == old(confirmRequests) && notices == old(notices) && location == old(location)
      ensures draft.contractSigned && holdBookingId != Some("") ==>
                confirmRequests == old(confirmRequests) + [holdBookingId.value]
      ensures draft.contractSigned && holdBookingId != Some("") && accepted ==>
                notices == old(notices) + [BookingLocked] && location == Some("/confirmation")
      ensures draft.contractSigned && holdBookingId != Some("") && !accepted ==>
                notices == old(notices) && location == old(location)
    {
      if !draft.contractSigned {
        return;
      }
      match holdBookingId
      case None =>
        assert false;
      case Some(id) =>
        if id == "" {
          return;
        }
        confirmRequests := confirmRequests + [id];
        if accepted {
          notices := notices + [BookingLocked];
          location := Some("/confirmation");
        }
    }
  }

  /** Two presses of Next from a valid start reach step 3 with exactly one hold request
      sent, and the booking that the pay button confirms is the one the hold created. */
  method WalkToReview(villa: string, d: Draft, id: string, expiresAt: real) returns (c: Checkout)
    requires d.checkIn != "" && d.checkOut != "" && d.contractSigned
    requires forall i :: 0 <= i < 4 ==> GuestFields(d.guest)[i] != ""
    requires d.adults >= 0 && d.children >= 0 && d.infants >= 0
    ensures fresh(c) && c.Valid() && c.step == 3
    ensures c.holdRequests == [HoldRequestOf(villa, d)]
    ensures c.holdBookingId == Some(id) && c.holdExpiresAt == expiresAt
  {
    c := new Checkout(villa);
    c.draft := d;
    c.OnNext(HoldGranted(id, expiresAt));
    c.OnNext(HoldGranted(id, expiresAt));
  }
}
