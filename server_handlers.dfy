/** The booking handlers of backend/server.ts over in-memory tables: hold, confirm,
    admin refund, bulk calendar blocks, guest reviews with their loyalty credit, and
    listing creation.

    Stripe is an abstract gateway: each call is appended to `gatewayCalls` and its answer
    is a parameter of the handler. Ids from `genId` and the clock are parameters too. */
module ServerHandlers {
  import opened Common
  import opened MiniValidator
  import opened ServerData

  datatype GatewayCall = CreateIntent(amountCents: int, bookingId: string) | CaptureIntent(intentId: string)
                       | RefundIntent(intentId: string)

  /** What a Stripe call answers: an object with an id, or an error with a message. */
  datatype GatewayReply = Approved(id: string) | Declined(message: string)

  // ---------------------------------------------------------------------------
  // Hold (backend/server.ts:187-233)

  /** The hold body; `None` is a key the body does not define. */
  datatype HoldBody = HoldBody(villaId: Option<string>, checkIn: Option<int>, checkOut: Option<int>,
                               adults: Option<int>, children: Option<int>, infants: Option<int>)

  /** The keys the body defines, as the validator sees them. */
  function HoldKeys(b: HoldBody): (keys: set<string>)
    ensures "villa_id" in keys <==> b.villaId.Some?
    ensures "check_in" in keys <==> b.checkIn.Some?
    ensures "check_out" in keys <==> b.checkOut.Some?
    ensures "adults" in keys <==> b.adults.Some?
  {
    (if b.villaId.Some? then {"villa_id"} else {}) + (if b.checkIn.Some? then {"check_in"} else {})
    + (if b.checkOut.Some? then {"check_out"} else {}) + (if b.adults.Some? then {"adults"} else {})
    + (if b.children.Some? then {"children"} else {}) + (if b.infants.Some? then {"infants"} else {})
  }

  /** The message of a 400 for a body the validator refuses. The handlers answer
      `{ error: error.error }`, but `error` is already the validator's message string, whose
      `error` property is `undefined`, so the JSON body is `{}`: no message is sent. */
  const MissingMessage: string := ""

  /** The outcome of the checks that precede any call or write. */
  datatype HoldCheck =
    | HoldRejected(reply: Reply)
    | HoldAccepted(villa: Villa, checkIn: int, checkOut: int, adults: int, children: int, infants: int, quote: Quote)

  predicate Bookable(villaId: string, v: Villa) {
    v.id == villaId && v.published
  }

  /** Role gate, body validation, the published-villa lookup and the nights check, in the
      handler's order. The villa's `deleted_at` is not consulted, and the calendar is not
      consulted at all: there is no overlap check. */
  function CheckHold(villas: seq<Villa>, u: User, body: HoldBody): (c: HoldCheck)
    ensures u.role != Guest ==> c == HoldRejected(Error(403, "Forbidden"))
    ensures u.role == Guest && Validate(BookingBody, Object(HoldKeys(body))).Failed? ==>
              c == HoldRejected(Error(400, MissingMessage))
    ensures c.HoldAccepted? <==>
              u.role == Guest && body.villaId.Some? && body.checkIn.Some? && body.checkOut.Some? && body.adults.Some?
              && (exists i :: 0 <= i < |villas| && Bookable(body.villaId.value, villas[i]))
              && body.checkOut.value - body.checkIn.value > 0
    ensures u.role == Guest && Validate(BookingBody, Object(HoldKeys(body))) == Passed
            && (forall i :: 0 <= i < |villas| ==> !Bookable(body.villaId.value, villas[i]))
            ==> c == HoldRejected(Error(400, "Villa invalid"))
    ensures u.role == Guest && Validate(BookingBody, Object(HoldKeys(body))) == Passed
            && (exists i :: 0 <= i < |villas| && Bookable(body.villaId.value, villas[i]))
            && body.checkOut.value - body.checkIn.value <= 0
            ==> c == HoldRejected(Error(400, "Bad dates"))
    ensures c.HoldAccepted? ==>
              c.villa in villas && Bookable(body.villaId.value, c.villa)
              && c.checkIn == body.checkIn.value && c.checkOut == body.checkOut.value
              && c.adults == body.adults.value && c.children == body.children.GetOr(0) && c.infants == body.infants.GetOr(0)
              && c.quote == PriceHold(c.villa, c.checkOut - c.checkIn)
  {
    BookingBodyRequired(HoldKeys(body));
    if u.role != Guest then HoldRejected(Error(403, "Forbidden"))
    else match Validate(BookingBody, Object(HoldKeys(body)))
      case Failed(_) => HoldRejected(Error(400, MissingMessage))
      case Passed =>
        (match First(villas, v => Bookable(body.villaId.value, v))
         case None => HoldRejected(Error(400, "Villa invalid"))
         case Some(v) =>
           var nights := body.checkOut.value - body.checkIn.value;
           if nights <= 0 then HoldRejected(Error(400, "Bad dates"))
           else HoldAccepted(v, body.checkIn.value, body.checkOut.value, body.adults.value,
                             body.children.GetOr(0), body.infants.GetOr(0), PriceHold(v, nights)))
  }

  /** The booking row a hold inserts. The source passes `intent.stripe_secret_key ? 0 :
      total` for `total_usd` and `balance_usd`, but `intent` is not declared (only
      `intents` is), so the statement throws a ReferenceError and nothing is inserted.
      The model assumes the evident intent: both columns hold base + fees + taxes. */
  function HoldRow(c: HoldCheck, u: User, bookingId: string, villaId: string, intentId: string): (b: Booking)
    requires c.HoldAccepted?
    ensures b.status == InProgress && b.total == b.balance == c.quote.Total()
    ensures b.id == bookingId && b.guestUserId == u.id && b.villaId == villaId && b.paymentIntentId == intentId
    ensures b.checkIn == c.checkIn && b.checkOut == c.checkOut && b.contractSignedAt.None?
  {
    Booking(bookingId, u.id, villaId, c.checkIn, c.checkOut, c.adults, c.children, c.infants,
            c.quote.base, c.quote.fees, c.quote.taxes, c.quote.Total(), c.quote.Total(),
            InProgress, intentId, None)
  }

  /** The calendar event a hold inserts. The source's statement names seven columns but
      supplies six values, so PostgreSQL refuses it; the model assumes the evident intent:
      a `manual_hold` event over the stay carrying the booking id. */
  function HoldEvent(c: HoldCheck, villaId: string, eventId: string, bookingId: string): (e: CalendarEvent)
    requires c.HoldAccepted?
    ensures e.eventType == ManualHold && e.bookingId == Some(bookingId) && e.villaId == villaId
    ensures e.start == c.checkIn && e.end == c.checkOut && e.id == eventId
  {
    CalendarEvent(eventId, villaId, ManualHold, c.checkIn, c.checkOut, Some(bookingId))
  }

  /** Fifteen minutes, in milliseconds. */
  const HoldLifetime: int := 15 * 60 * 1000

  // ---------------------------------------------------------------------------
  // Confirm and refund (backend/server.ts:236-263, 387-399)

  predicate Confirmable(id: string, u: User, b: Booking) {
    b.id == id && b.guestUserId == u.id && b.status == InProgress
  }

  /** `UPDATE bookings SET status='confirmed', contract_signed_at=now(), balance_usd=0
      WHERE id=$1`. */
  function ConfirmRows(bs: seq<Booking>, id: string, now: int): (r: seq<Booking>)
    ensures |r| == |bs|
    ensures forall i :: 0 <= i < |bs| && bs[i].id == id ==>
              r[i] == bs[i].(status := Confirmed, contractSignedAt := Some(now), balance := 0.0)
    ensures forall i :: 0 <= i < |bs| && bs[i].id != id ==> r[i] == bs[i]
  {
    seq(|bs|, i requires 0 <= i < |bs| =>
      if bs[i].id == id then bs[i].(status := Confirmed, contractSignedAt := Some(now), balance := 0.0) else bs[i])
  }

  /** `UPDATE calendar_events SET event_type='booking' WHERE booking_id=$1`. */
  function RetagEvents(es: seq<CalendarEvent>, id: string): (r: seq<CalendarEvent>)
    ensures |r| == |es|
    ensures forall i :: 0 <= i < |es| && es[i].bookingId == Some(id) ==> r[i] == es[i].(eventType := BookingEvent)
    ensures forall i :: 0 <= i < |es| && es[i].bookingId != Some(id) ==> r[i] == es[i]
  {
    seq(|es|, i requires 0 <= i < |es| =>
      if es[i].bookingId == Some(id) then es[i].(eventType := BookingEvent) else es[i])
  }

  /** `UPDATE bookings SET status='cancelled' WHERE id=$1`: no condition on the status. */
  function CancelRows(bs: seq<Booking>, id: string): (r: seq<Booking>)
    ensures |r| == |bs|
    ensures forall i :: 0 <= i < |bs| && bs[i].id == id ==> r[i] == bs[i].(status := Cancelled)
    ensures forall i :: 0 <= i < |bs| && bs[i].id != id ==> r[i] == bs[i]
  {
    seq(|bs|, i requires 0 <= i < |bs| => if bs[i].id == id then bs[i].(status := Cancelled) else bs[i])
  }

  // ---------------------------------------------------------------------------
  // Bulk blocks (backend/server.ts:326-344)

  predicate OwnsVilla(villas: seq<Villa>, u: User, villaId: string) {
    exists i :: 0 <= i < |villas| && villas[i].id == villaId && villas[i].hostUserId == u.id
  }

  /** The events the loop inserts for the first blocks: one `blocked` event per block whose
      villa belongs to the requester, in input order, with that block's generated id. */
  function BlockInserts(villas: seq<Villa>, u: User, bs: seq<Block>, ids: seq<string>): (r: seq<CalendarEvent>)
    requires |ids| == |bs|
    ensures |r| <= |bs|
    ensures forall e :: e in r ==> e.eventType == Blocked && e.bookingId.None? && OwnsVilla(villas, u, e.villaId)
    decreases |bs|
  {
    if bs == [] then []
    else
      var n := |bs| - 1;
      BlockInserts(villas, u, bs[..n], ids[..n])
      + (if OwnsVilla(villas, u, bs[n].villaId)
         then [CalendarEvent(ids[n], bs[n].villaId, Blocked, bs[n].start, bs[n].end, None)] else [])
  }

  /** When every block is on one of the requester's villas every block is inserted, each
      under its own id, and when none is, nothing is. */
  lemma {:induction false} BlockInsertsExtremes(villas: seq<Villa>, u: User, bs: seq<Block>, ids: seq<string>)
    requires |ids| == |bs|
    ensures (forall i :: 0 <= i < |bs| ==> OwnsVilla(villas, u, bs[i].villaId)) ==>
              |BlockInserts(villas, u, bs, ids)| == |bs|
              && forall i :: 0 <= i < |bs| ==> BlockInserts(villas, u, bs, ids)[i].id == ids[i]
                                                && BlockInserts(villas, u, bs, ids)[i].villaId == bs[i].villaId
    ensures (forall i :: 0 <= i < |bs| ==> !OwnsVilla(villas, u, bs[i].villaId)) ==>
              BlockInserts(villas, u, bs, ids) == []
    decreases |bs|
  {
    if bs != [] {
      var n := |bs| - 1;
      BlockInsertsExtremes(villas, u, bs[..n], ids[..n]);
    }
  }

  /** `{...b, id}`: every input block, in order, under its generated id. */
  function Echo(bs: seq<Block>, ids: seq<string>): (r: seq<Block>)
    requires |ids| == |bs|
    ensures |r| == |bs|
    ensures forall i :: 0 <= i < |bs| ==> r[i] == bs[i].(id := Some(ids[i]))
  {
    seq(|bs|, i requires 0 <= i < |bs| => bs[i].(id := Some(ids[i])))
  }

  /** One more block adds its own insert, when the villa is the requester's. */
  lemma BlockInsertsStep(villas: seq<Villa>, u: User, bs: seq<Block>, ids: seq<string>, i: nat)
    requires |ids| == |bs| && i < |bs|
    ensures BlockInserts(villas, u, bs[..i + 1], ids[..i + 1])
            == BlockInserts(villas, u, bs[..i], ids[..i])
               + (if OwnsVilla(villas, u, bs[i].villaId)
                  then [CalendarEvent(ids[i], bs[i].villaId, Blocked, bs[i].start, bs[i].end, None)] else [])
  {
    assert bs[..i + 1][..i] == bs[..i] && ids[..i + 1][..i] == ids[..i];
  }

  /** One more block adds its own echo. */
  lemma EchoStep(bs: seq<Block>, ids: seq<string>, i: nat)
    requires |ids| == |bs| && i < |bs|
    ensures Echo(bs[..i + 1], ids[..i + 1]) == Echo(bs[..i], ids[..i]) + [bs[i].(id := Some(ids[i]))]
  {
    var e, e1 := Echo(bs[..i], ids[..i]), Echo(bs[..i + 1], ids[..i + 1]);
    assert forall k :: 0 <= k < i ==> e1[k] == e[k];
  }

  // ---------------------------------------------------------------------------
  // Reviews and loyalty credit (backend/server.ts:280-303)

  /** A review body; `None` is an undefined key. `photos` is `Some(None)` for a falsy
      value, which `|| []` replaces by an empty list; `ratings` and `photos` are kept as
      their JSON text. */
  datatype ReviewRequest = ReviewRequest(bookingId: Option<string>, ratings: Option<string>, content: Option<string>,
                                         photos: Option<Option<string>>)

  function ReviewKeys(r: ReviewRequest): (keys: set<string>)
    ensures keys == (if r.bookingId.Some? then {"booking_id"} else {}) + (if r.ratings.Some? then {"ratings"} else {})
                    + (if r.content.Some? then {"content"} else {}) + (if r.photos.Some? then {"photos"} else {})
  {
    (if r.bookingId.Some? then {"booking_id"} else {}) + (if r.ratings.Some? then {"ratings"} else {})
    + (if r.content.Some? then {"content"} else {}) + (if r.photos.Some? then {"photos"} else {})
  }

  /** The booking may be reviewed by `u`: it is theirs and completed. */
  predicate Reviewable(bookings: seq<Booking>, u: User, bookingId: string) {
    exists i :: 0 <= i < |bookings| && bookings[i].id == bookingId && bookings[i].guestUserId == u.id
                && bookings[i].status == Completed
  }

  /** Twelve 30-day months, in milliseconds. */
  const CreditLifetime: int := 12 * 30 * 24 * 3600 * 1000

  /** The review row, written by the signed-in guest: its villa id is not looked up but
      cut from the booking id, its first ten characters, and falsy photos (`null`, say) are
      stored as an empty JSON list. */
  function ReviewRow(req: ReviewRequest, u: User, reviewId: string): (r: GuestReview)
    requires req.bookingId.Some? && req.ratings.Some? && req.content.Some? && req.photos.Some?
    ensures r.id == reviewId && r.guestUserId == u.id && r.bookingId == req.bookingId.value
    ensures r.ratings == req.ratings.value && r.content == req.content.value
    ensures |r.villaId| == (if |r.bookingId| < 10 then |r.bookingId| else 10)
    ensures r.villaId == r.bookingId[..|r.villaId|]
    ensures req.photos.value.None? ==> r.photos == "[]"
    ensures req.photos.value.Some? ==> r.photos == req.photos.value.value
  {
    GuestReview(reviewId, req.bookingId.value, u.id, Prefix10(req.bookingId.value), req.ratings.value,
                req.content.value, req.photos.value.GetOr("[]"))
  }

  function CreditRow(bookingId: string, u: User, creditId: string, now: int): (c: LoyaltyCredit)
    ensures c.amount == 100 && c.expiresAt == now + CreditLifetime && c.guestUserId == u.id && c.bookingId == bookingId
  {
    LoyaltyCredit(creditId, u.id, bookingId, 100, now + CreditLifetime)
  }

  /** The rows the review handler inserts, as written: the review only for the guest's own
      completed booking, but the credit whatever the review insert did. */
  function ReviewWritesAsWritten(bookings: seq<Booking>, u: User, req: ReviewRequest, reviewId: string,
                                 creditId: string, now: int): (w: (Option<GuestReview>, Option<LoyaltyCredit>))
    requires req.bookingId.Some? && req.ratings.Some? && req.content.Some? && req.photos.Some?
    ensures w.0.Some? <==> Reviewable(bookings, u, req.bookingId.value)
    ensures w.1 == Some(CreditRow(req.bookingId.value, u, creditId, now))
  {
    (if Reviewable(bookings, u, req.bookingId.value) then Some(ReviewRow(req, u, reviewId)) else None,
     Some(CreditRow(req.bookingId.value, u, creditId, now)))
  }

  /** As written, a guest earns the 100-dollar credit for a booking that is not theirs, or
      not completed, or does not exist, although no review is stored. */
  lemma CreditWithoutReview(u: User, req: ReviewRequest, reviewId: string, creditId: string, now: int)
    requires req.bookingId.Some? && req.ratings.Some? && req.content.Some? && req.photos.Some?
    ensures ReviewWritesAsWritten([], u, req, reviewId, creditId, now).0.None?
    ensures ReviewWritesAsWritten([], u, req, reviewId, creditId, now).1.Some?
  {
  }

  /** The evidently intended review writes: the credit is issued together with the review. */
  function ReviewWrites(bookings: seq<Booking>, u: User, req: ReviewRequest, reviewId: string,
                        creditId: string, now: int): (w: (Option<GuestReview>, Option<LoyaltyCredit>))
    requires req.bookingId.Some? && req.ratings.Some? && req.content.Some? && req.photos.Some?
    ensures w.0.Some? <==> Reviewable(bookings, u, req.bookingId.value)
    ensures w.1.Some? <==> w.0.Some?
    ensures w.1.Some? ==> w.1.value == CreditRow(req.bookingId.value, u, creditId, now)
  {
    var asWritten := ReviewWritesAsWritten(bookings, u, req, reviewId, creditId, now);
    (asWritten.0, if asWritten.0.Some? then asWritten.1 else None)
  }

  /** The correction changes nothing for a review that is stored. */
  lemma ReviewCorrectionAgrees(bookings: seq<Booking>, u: User, req: ReviewRequest, reviewId: string,
                               creditId: string, now: int)
    requires req.bookingId.Some? && req.ratings.Some? && req.content.Some? && req.photos.Some?
    requires Reviewable(bookings, u, req.bookingId.value)
    ensures ReviewWrites(bookings, u, req, reviewId, creditId, now)
         == ReviewWritesAsWritten(bookings, u, req, reviewId, creditId, now)
  {
  }

  // ---------------------------------------------------------------------------
  // The tables

  /** A booking row whose money columns agree with its status: a held booking still owes
      its total, a confirmed one owes nothing and has a signed contract. */
  predicate RowConsistent(b: Booking) {
    (b.status == InProgress ==> b.balance == b.total)
    && (b.status == Confirmed ==> b.balance == 0.0 && b.contractSignedAt.Some?)
  }

  function BookingIds(bs: seq<Booking>): set<string> {
    set i | 0 <= i < |bs| :: bs[i].id
  }

  lemma BookingIdsAppend(bs: seq<Booking>, b: Booking)
    ensures BookingIds(bs + [b]) == BookingIds(bs) + {b.id}
  {
    var t := bs + [b];
    assert t[|bs|] == b;
    assert forall i :: 0 <= i < |bs| ==> t[i] == bs[i];
  }

  /** Appending events that name no booking keeps every booking an event names in `ids`. */
  lemma UnlinkedEventsKeepLinks(es: seq<CalendarEvent>, more: seq<CalendarEvent>, ids: set<string>)
    requires forall i :: 0 <= i < |es| && es[i].bookingId.Some? ==> es[i].bookingId.value in ids
    requires forall e :: e in more ==> e.bookingId.None?
    ensures forall i :: 0 <= i < |es + more| && (es + more)[i].bookingId.Some? ==> (es + more)[i].bookingId.value in ids
  {
    assert forall i :: |es| <= i < |es + more| ==> (es + more)[i] == more[i - |es|];
  }

  class Server {
    var villas: seq<Villa>
    var bookings: seq<Booking>
    var events: seq<CalendarEvent>
    var reviews: seq<GuestReview>
    var credits: seq<LoyaltyCredit>
    var gatewayCalls: seq<GatewayCall>

    /** Every booking row is consistent, and every event that names a booking names one
        that exists. */
    predicate Valid()
      reads this
    {
      (forall i :: 0 <= i < |bookings| ==> RowConsistent(bookings[i]))
      && (forall i :: 0 <= i < |events| && events[i].bookingId.Some? ==> events[i].bookingId.value in BookingIds(bookings))
    }

    constructor (villas0: seq<Villa>)
      ensures Valid()
      ensures villas == villas0 && bookings == [] && events == [] && reviews == [] && credits == []
      ensures gatewayCalls == []
    {
      villas, bookings, events, reviews, credits, gatewayCalls := villas0, [], [], [], [], [];
    }

    /** `POST /bookings/hold`. */
    method Hold(u: User, body: HoldBody, bookingId: string, eventId: string, now: int, reply: GatewayReply)
      returns (r: Reply)
      requires Valid()
      modifies this`gatewayCalls, this`bookings, this`events
      ensures Valid()
      ensures villas == old(villas) && reviews == old(reviews) && credits == old(credits)
      ensures CheckHold(old(villas), u, body).HoldRejected? ==>
                r == CheckHold(old(villas), u, body).reply && bookings == old(bookings) && events == old(events)
                && gatewayCalls == old(gatewayCalls)
      ensures CheckHold(old(villas), u, body).HoldAccepted? ==>
                var c := CheckHold(old(villas), u, body);
                gatewayCalls == old(gatewayCalls) + [CreateIntent(AmountCents(c.quote), bookingId)]
                && (reply.Declined? ==> r == Aborted && bookings == old(bookings) && events == old(events))
                && (reply.Approved? ==>
                      bookings == old(bookings) + [HoldRow(c, u, bookingId, body.villaId.value, reply.id)]
                      && events == old(events) + [HoldEvent(c, body.villaId.value, eventId, bookingId)]
                      && r == Ok(201, HoldPayload(bookingId, now + HoldLifetime)))
    {
      var c := CheckHold(villas, u, body);
      if c.HoldRejected? {
        return c.reply;
      }
      gatewayCalls := gatewayCalls + [CreateIntent(AmountCents(c.quote), bookingId)];
      if reply.Declined? {
        return Aborted;
      }
      InsertHold(HoldRow(c, u, bookingId, body.villaId.value, reply.id), HoldEvent(c, body.villaId.value, eventId, bookingId));
      r := Ok(201, HoldPayload(bookingId, now + HoldLifetime));
    }

    /** The two inserts of a hold: a consistent booking row and an event naming it. */
    method InsertHold(row: Booking, ev: CalendarEvent)
      requires Valid() && RowConsistent(row) && ev.bookingId == Some(row.id)
      modifies this`bookings, this`events
      ensures Valid() && bookings == old(bookings) + [row] && events == old(events) + [ev]
    {
      BookingIdsAppend(bookings, row);
      bookings := bookings + [row];
      events := events + [ev];
    }

    /** `PUT /bookings/:booking_id/confirm`. */
    method Confirm(u: User, id: string, now: int, reply: GatewayReply) returns (r: Reply)
      requires Valid()
      modifies this`gatewayCalls, this`bookings, this`events
      ensures Valid()
      ensures villas == old(villas) && reviews == old(reviews) && credits == old(credits)
      ensures u.role != Guest ==> r == Error(403, "Forbidden") && unchanged(this)
      ensures u.role == Guest && (forall i :: 0 <= i < |old(bookings)| ==> !Confirmable(id, u, old(bookings)[i])) ==>
                r == Error(404, "Not found / wrong status") && unchanged(this)
      ensures u.role == Guest && (exists i :: 0 <= i < |old(bookings)| && Confirmable(id, u, old(bookings)[i])) ==>
                var b := First(old(bookings), b => Confirmable(id, u, b)).value;
                gatewayCalls == old(gatewayCalls) + [CaptureIntent(b.paymentIntentId)]
                && (reply.Declined? ==>
                      r == Error(502, "Stripe error: " + reply.message)
                      && bookings == old(bookings) && events == old(events))
                && (reply.Approved? ==>
                      bookings == ConfirmRows(old(bookings), id, now) && events == RetagEvents(old(events), id)
                      && r == Ok(200, ConfirmPayload("/vouchers/" + id)))
    {
      if u.role != Guest {
        return Error(403, "Forbidden");
      }
      var found := First(bookings, b => Confirmable(id, u, b));
      if found.None? {
        return Error(404, "Not found / wrong status");
      }
      gatewayCalls := gatewayCalls + [CaptureIntent(found.value.paymentIntentId)];
      if reply.Declined? {
        return Error(502, "Stripe error: " + reply.message);
      }
      ConfirmUpdates(id, now);
      r := Ok(200, ConfirmPayload("/vouchers/" + id));
    }

    /** The two updates of a confirmation: the booking rows, then their events. */
    method ConfirmUpdates(id: string, now: int)
      requires Valid()
      modifies this`bookings, this`events
      ensures Valid() && bookings == ConfirmRows(old(bookings), id, now) && events == RetagEvents(old(events), id)
    {
      var old0 := bookings;
      bookings := ConfirmRows(bookings, id, now);
      assert BookingIds(bookings) == BookingIds(old0) by {
        assert forall i :: 0 <= i < |old0| ==> bookings[i].id == old0[i].id;
      }
      events := RetagEvents(events, id);
    }

    /** `POST /admin/bookings/:id/refund`. */
    method Refund(u: User, id: string, reply: GatewayReply) returns (r: Reply)
      requires Valid()
      modifies this`gatewayCalls, this`bookings
      ensures Valid()
      ensures villas == old(villas) && events == old(events) && reviews == old(reviews) && credits == old(credits)
      ensures u.role != Admin ==> r == Error(403, "Forbidden") && unchanged(this)
      ensures u.role == Admin && (forall i :: 0 <= i < |old(bookings)| ==> old(bookings)[i].id != id) ==>
                r == Error(404, "Not found") && unchanged(this)
      ensures u.role == Admin && (exists i :: 0 <= i < |old(bookings)| && old(bookings)[i].id == id) ==>
                var b := First(old(bookings), (b: Booking) => b.id == id).value;
                gatewayCalls == old(gatewayCalls) + [RefundIntent(b.paymentIntentId)]
                && (reply.Declined? ==> r == Aborted && bookings == old(bookings))
                && (reply.Approved? ==>
                      bookings == CancelRows(old(bookings), id) && r == Ok(200, RefundPayload(reply.id, b.total)))
    {
      if u.role != Admin {
        return Error(403, "Forbidden");
      }
      var found := First(bookings, (b: Booking) => b.id == id);
      if found.None? {
        return Error(404, "Not found");
      }
      gatewayCalls := gatewayCalls + [RefundIntent(found.value.paymentIntentId)];
      if reply.Declined? {
        return Aborted;
      }
      CancelUpdate(id);
      r := Ok(200, RefundPayload(reply.id, found.value.total));
    }

    /** The booking update of a refund. */
    method CancelUpdate(id: string)
      requires Valid()
      modifies this`bookings
      ensures Valid() && bookings == CancelRows(old(bookings), id)
    {
      var old0 := bookings;
      bookings := CancelRows(bookings, id);
      assert BookingIds(bookings) == BookingIds(old0) by {
        assert forall i :: 0 <= i < |old0| ==> bookings[i].id == old0[i].id;
      }
    }

    /** `PATCH /calendar_events/bulk`; `blocks` is None when `req.body.blocks` is not an
        array, and `ids` are the ids `genId` hands out, one per block. */
    method BulkBlock(u: User, blocks: Option<seq<Block>>, ids: seq<string>) returns (r: Reply)
      requires Valid()
      requires blocks.Some? ==> |ids| == |blocks.value|
      modifies this`events
      ensures Valid()
      ensures villas == old(villas) && bookings == old(bookings) && reviews == old(reviews)
      ensures credits == old(credits) && gatewayCalls == old(gatewayCalls)
      ensures u.role != Host ==> r == Error(403, "Forbidden") && events == old(events)
      ensures u.role == Host && blocks.None? ==> r == Error(400, "blocks array") && events == old(events)
      ensures u.role == Host && blocks.Some? ==>
                events == old(events) + BlockInserts(villas, u, blocks.value, ids)
                && r == Ok(207, BlocksPayload(Echo(blocks.value, ids)))
    {
      if u.role != Host {
        return Error(403, "Forbidden");
      }
      if blocks.None? {
        return Error(400, "blocks array");
      }
      var bs := blocks.value;
      var inserted: seq<CalendarEvent> := [];
      var result: seq<Block> := [];
      var i := 0;
      while i < |bs|
        invariant 0 <= i <= |bs| && events == old(events)
        invariant inserted == BlockInserts(villas, u, bs[..i], ids[..i])
        invariant result == Echo(bs[..i], ids[..i])
      {
        var b := bs[i];
        BlockInsertsStep(villas, u, bs, ids, i);
        EchoStep(bs, ids, i);
        if OwnsVilla(villas, u, b.villaId) {
          inserted := inserted + [CalendarEvent(ids[i], b.villaId, Blocked, b.start, b.end, None)];
        }
        result := result + [b.(id := Some(ids[i]))];
        i := i + 1;
      }
      assert bs[..i] == bs && ids[..i] == ids;
      assert inserted == BlockInserts(villas, u, bs, ids);
      UnlinkedEventsKeepLinks(events, inserted, BookingIds(bookings));
      events := events + inserted;
      r := Ok(207, BlocksPayload(result));
    }

    /** `POST /guest_reviews`, with the credit issued together with the review. */
    method PostReview(u: User, req: ReviewRequest, reviewId: string, creditId: string, now: int) returns (r: Reply)
      requires Valid()
      modifies this
      ensures Valid()
      ensures villas == old(villas) && bookings == old(bookings) && events == old(events)
      ensures gatewayCalls == old(gatewayCalls)
      ensures u.role != Guest ==> r == Error(403, "Forbidden") && unchanged(this)
      ensures u.role == Guest && Validate(ReviewBody, Object(ReviewKeys(req))).Failed? ==>
                r == Error(400, MissingMessage) && unchanged(this)
      ensures u.role == Guest && Validate(ReviewBody, Object(ReviewKeys(req))) == Passed ==>
                req.bookingId.Some? && req.ratings.Some? && req.content.Some? && req.photos.Some?
                && var w := ReviewWrites(old(bookings), u, req, reviewId, creditId, now);
                   reviews == old(reviews) + (if w.0.Some? then [w.0.value] else [])
                   && credits == old(credits) + (if w.1.Some? then [w.1.value] else [])
                   && r == Ok(201, ReviewPayload(reviewId, if w.1.Some? then 100 else 0))
    {
      if u.role != Guest {
        return Error(403, "Forbidden");
      }
      var v := Validate(ReviewBody, Object(ReviewKeys(req)));
      if v.Failed? {
        return Error(400, MissingMessage);
      }
      ReviewBodyRequiresAll(ReviewKeys(req));
      CorrectedAgrees(ReviewBody, Object(ReviewKeys(req)));
      var w := ReviewWrites(bookings, u, req, reviewId, creditId, now);
      if w.0.Some? {
        reviews := reviews + [w.0.value];
      }
      if w.1.Some? {
        credits := credits + [w.1.value];
      }
      r := Ok(201, ReviewPayload(reviewId, if w.1.Some? then 100 else 0));
    }

    /** `POST /villas`: no validation; `||` defaults; a draft, unpublished listing. */
    method CreateVilla(u: User, body: VillaBody, id: string, now: int) returns (r: Reply)
      requires Valid()
      modifies this
      ensures Valid()
      ensures bookings == old(bookings) && events == old(events) && reviews == old(reviews)
      ensures credits == old(credits) && gatewayCalls == old(gatewayCalls)
      ensures u.role != Host ==> r == Error(403, "Forbidden") && villas == old(villas)
      ensures u.role == Host ==> villas == old(villas) + [NewVilla(u, id, body, now)] && r == Ok(201, VillaPayload(id))
    {
      if u.role != Host {
        return Error(403, "Forbidden");
      }
      villas := villas + [NewVilla(u, id, body, now)];
      r := Ok(201, VillaPayload(id));
    }
  }
}
