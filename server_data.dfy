/** The rows of the back end's tables (backend/server.ts) and the pure computations its
    handlers perform on them: the role gate of `requireAuth`, the hold price, the villa
    record built from a create request, and the public search query.

    Units: calendar dates are integer day numbers, so a stay's nights are
    `check_out - check_in`; instants (`now()`, `Date.now()`) are integer milliseconds;
    money is a `real` in dollars, and the payment amount integer cents. */
module ServerData {
  import opened Common

  datatype Role = Guest | Host | Admin

  /** The authenticated user of a request (`req.user`). */
  datatype User = User(id: string, role: Role)

  datatype BookingStatus = Inquiry | InProgress | Confirmed | Cancelled | Completed

  datatype EventType = Blocked | BookingEvent | ManualHold

  /** A row of `villas`. `city` is `location_data->>'city'`, absent when the JSON has none. */
  datatype Villa = Villa(id: string, hostUserId: string, slug: string, title: string,
                         city: Option<string>, maxGuests: int, maxPets: int,
                         basePrice: real, cleaningFee: real, serviceRatio: real, damageRatio: real,
                         status: string, published: bool, deleted: bool, createdAt: int)

  /** A row of `bookings`. */
  datatype Booking = Booking(id: string, guestUserId: string, villaId: string, checkIn: int, checkOut: int,
                             adults: int, children: int, infants: int,
                             totalBase: real, totalFees: real, totalTaxes: real, total: real, balance: real,
                             status: BookingStatus, paymentIntentId: string, contractSignedAt: Option<int>)

  /** A row of `calendar_events`: the dates cover `[start, end)`. */
  datatype CalendarEvent = CalendarEvent(id: string, villaId: string, eventType: EventType,
                                         start: int, end: int, bookingId: Option<string>)

  datatype GuestReview = GuestReview(id: string, bookingId: string, guestUserId: string, villaId: string,
                                     ratings: string, content: string, photos: string)

  datatype LoyaltyCredit = LoyaltyCredit(id: string, guestUserId: string, bookingId: string,
                                         amount: int, expiresAt: int)

  /** A handler's HTTP answer, or `Aborted` when an exception escapes a handler that has
      no `try` around it, so that no response is written. */
  datatype Reply = Ok(code: int, payload: Payload) | Error(code: int, message: string) | Aborted

  datatype Payload =
    | HoldPayload(bookingId: string, expiresAt: int)
    | ConfirmPayload(voucherUrl: string)
    | RefundPayload(refundId: string, amount: real)
    | BlocksPayload(blocks: seq<Block>)
    | ReviewPayload(reviewId: string, creditsIssued: int)
    | VillaPayload(villaId: string)

  /** One entry of a bulk-block request, echoed back with the id given to it. */
  datatype Block = Block(villaId: string, start: int, end: int, id: Option<string>)

  // ---------------------------------------------------------------------------
  // requireAuth

  /** The role check of `requireAuth(roles)` (backend/server.ts:94) for an authenticated
      user: no role list admits everyone, otherwise the user's role must be listed. */
  function RoleGate(roles: Option<seq<Role>>, u: User): (r: Option<Reply>)
    ensures r.None? <==> roles.None? || u.role in roles.value
    ensures r.Some? ==> r.value == Error(403, "Forbidden")
  {
    if roles.Some? && u.role !in roles.value then Some(Error(403, "Forbidden")) else None
  }

  /** Listing more roles never turns away a user who was admitted. */
  lemma RoleGateMonotone(roles: seq<Role>, more: seq<Role>, u: User)
    requires forall x :: x in roles ==> x in more
    ensures RoleGate(Some(roles), u).None? ==> RoleGate(Some(more), u).None?
  {
  }

  // ---------------------------------------------------------------------------
  // Hold pricing (backend/server.ts:202-212)

  datatype Quote = Quote(base: real, fees: real, taxes: real)
  {
    function Total(): real { base + fees + taxes }
  }

  /** The nightly price times the nights; fees are the cleaning fee plus the service
      share of the base; taxes are a tenth of the base. The damage waiver is not used. */
  function PriceHold(v: Villa, nights: int): (q: Quote)
    ensures q.Total() == v.cleaningFee + v.basePrice * nights as real * (11.0 / 10.0 + v.serviceRatio)
  {
    var base := v.basePrice * nights as real;
    Quote(base, v.cleaningFee + base * v.serviceRatio, base * 0.1)
  }

  /** The damage waiver ratio has no influence on the price of a hold. */
  lemma PriceIgnoresDamageWaiver(v: Villa, nights: int, ratio: real)
    ensures PriceHold(v.(damageRatio := ratio), nights) == PriceHold(v, nights)
  {
    var w := v.(damageRatio := ratio);
    assert w.basePrice == v.basePrice && w.cleaningFee == v.cleaningFee && w.serviceRatio == v.serviceRatio;
  }

  /** `Math.round(total * 100)`: the payment amount in cents, within half a cent of the total. */
  function AmountCents(q: Quote): (cents: int)
    ensures q.Total() * 100.0 - 0.5 < cents as real <= q.Total() * 100.0 + 0.5
  {
    JsRound(q.Total() * 100.0)
  }

  /** Three nights at 1000 with a cleaning fee of 200 and a service ratio of 0.1 cost
      3000 + 500 + 300 = 3800, charged as 380000 cents, whatever the damage waiver. */
  lemma ThreeNightExample(v: Villa)
    requires v.basePrice == 1000.0 && v.cleaningFee == 200.0 && v.serviceRatio == 0.1
    ensures PriceHold(v, 3) == Quote(3000.0, 500.0, 300.0)
    ensures PriceHold(v, 3).Total() == 3800.0
    ensures AmountCents(PriceHold(v, 3)) == 380000
  {
    assert PriceHold(v, 3).Total() * 100.0 == 380000.0;
  }

  // ---------------------------------------------------------------------------
  // Villa creation (backend/server.ts:306-322)

  /** The fields of a create-listing body; `None` stands for a missing key. The handler
      runs no validation on this body. */
  datatype VillaBody = VillaBody(slug: Option<string>, title: string, city: Option<string>,
                                 maxGuests: int, maxPets: Option<int>,
                                 basePrice: real, cleaningFee: real,
                                 serviceRatio: Option<real>, damageRatio: Option<real>)

  /** `x || d` on a number: a missing value and 0 both give the default. */
  function OrNum(x: Option<real>, d: real): (r: real)
    ensures r == d <==> x.None? || x.value == 0.0 || x.value == d
    ensures x.Some? && x.value != 0.0 ==> r == x.value
  {
    if x.None? || x.value == 0.0 then d else x.value
  }

  /** `id.slice(-8)`: the last eight characters, or all of a shorter id. */
  function Last8(id: string): (r: string)
    ensures |r| == if |id| < 8 then |id| else 8
    ensures id == id[..|id| - |r|] + r
  {
    if |id| < 8 then id else id[|id| - 8..]
  }

  /** The listing row inserted for `body`: defaults by `||`, status `draft`, unpublished,
      and the requester as host. */
  function NewVilla(host: User, id: string, body: VillaBody, now: int): (v: Villa)
    ensures v.id == id && v.hostUserId == host.id && v.status == "draft" && !v.published && !v.deleted
    ensures v.slug == if body.slug.None? || body.slug.value == "" then "villa-" + Last8(id) else body.slug.value
    ensures v.maxPets == if body.maxPets.None? || body.maxPets.value == 0 then 0 else body.maxPets.value
    ensures body.serviceRatio.Some? && body.serviceRatio.value != 0.0 ==> v.serviceRatio == body.serviceRatio.value
    ensures body.damageRatio.Some? && body.damageRatio.value != 0.0 ==> v.damageRatio == body.damageRatio.value
    ensures v.title == body.title && v.city == body.city && v.maxGuests == body.maxGuests
    ensures v.basePrice == body.basePrice && v.cleaningFee == body.cleaningFee && v.createdAt == now
  {
    Villa(id, host.id,
          if body.slug.None? || body.slug.value == "" then "villa-" + Last8(id) else body.slug.value,
          body.title, body.city, body.maxGuests,
          if body.maxPets.None? then 0 else body.maxPets.value,
          body.basePrice, body.cleaningFee,
          OrNum(body.serviceRatio, 0.1), OrNum(body.damageRatio, 0.035),
          "draft", false, false, now)
  }

  /** A zero ratio is not kept: `||` replaces it by the default, 0.1 for the service fee
      and 0.035 for the damage waiver, exactly as if it had been left out. */
  lemma ZeroRatioBecomesDefault(host: User, id: string, body: VillaBody, now: int)
    requires body.serviceRatio == Some(0.0) && body.damageRatio == Some(0.0)
    ensures NewVilla(host, id, body, now).serviceRatio == 0.1
    ensures NewVilla(host, id, body, now).damageRatio == 0.035
    ensures NewVilla(host, id, body, now) == NewVilla(host, id, body.(serviceRatio := None, damageRatio := None), now)
  {
  }

  /** A generated slug is `villa-` followed by the id's last eight characters. */
  lemma DefaultSlugShape(host: User, id: string, body: VillaBody, now: int)
    requires body.slug.None? && |id| >= 8
    ensures |NewVilla(host, id, body, now).slug| == 14
    ensures NewVilla(host, id, body, now).slug[..6] == "villa-"
    ensures NewVilla(host, id, body, now).slug[6..] == id[|id| - 8..]
  {
  }

  // ---------------------------------------------------------------------------
  // Public search (backend/server.ts:161-175)

  /** The query parameters. `None` is a parameter that is missing or empty: query values
      are strings, so any non-empty value is truthy and is applied, `"0"` included. */
  datatype SearchParams = SearchParams(minGuests: Option<int>, maxPrice: Option<real>, location: Option<string>,
                                       limit: Option<int>, offset: Option<int>)

  function LowerAscii(c: char): char {
    if 'A' <= c <= 'Z' then (c as int + 32) as char else c
  }

  function LowerAll(s: string): (r: string)
    ensures |r| == |s| && forall i :: 0 <= i < |s| ==> r[i] == LowerAscii(s[i])
  {
    seq(|s|, i requires 0 <= i < |s| => LowerAscii(s[i]))
  }

  /** `needle` occurs in `hay` at `i`, letters compared case-insensitively. */
  predicate OccursAt(hay: string, needle: string, i: int) {
    0 <= i <= |hay| - |needle| && LowerAll(hay[i..i + |needle|]) == LowerAll(needle)
  }

  /** `hay ILIKE '%' || needle || '%'`. */
  predicate ContainsInsensitive(hay: string, needle: string) {
    exists i :: 0 <= i <= |hay| && OccursAt(hay, needle, i)
  }

  /** The `WHERE` clause the handler assembles: only published villas that are not
      deleted are ever listed, and each parameter supplied narrows the list further. */
  predicate Matches(p: SearchParams, v: Villa): (r: bool)
    ensures r ==> v.published && !v.deleted
    ensures r && p.location.Some? ==> v.city.Some? && |p.location.value| <= |v.city.value|
  {
    v.published && !v.deleted
    && (p.minGuests.Some? ==> v.maxGuests >= p.minGuests.value)
    && (p.maxPrice.Some? ==> v.basePrice <= p.maxPrice.value)
    && (p.location.Some? ==> v.city.Some? && ContainsInsensitive(v.city.value, p.location.value))
  }

  lemma LowerTwice(s: string)
    ensures LowerAll(LowerAll(s)) == LowerAll(s)
  {
  }

  /** The location filter ignores the letter case of the query: a query and its
      lower-case form select the same villas. */
  lemma MatchesIgnoresCase(p: SearchParams, v: Villa, location: string)
    ensures Matches(p.(location := Some(LowerAll(location))), v) == Matches(p.(location := Some(location)), v)
  {
    LowerTwice(location);
    if v.city.Some? {
      var hay := v.city.value;
      forall i | 0 <= i <= |hay|
        ensures OccursAt(hay, LowerAll(location), i) == OccursAt(hay, location, i)
      {
      }
    }
  }

  predicate SortedByPrice(s: seq<Villa>) {
    forall i, j :: 0 <= i < j < |s| ==> s[i].basePrice <= s[j].basePrice
  }

  function Below(price: real): Villa -> bool {
    (v: Villa) => v.basePrice < price
  }

  function AtMost(price: real): Villa -> bool {
    (v: Villa) => v.basePrice <= price
  }

  /** How many villas of `s` are cheaper than `price`. */
  function CountBelow(s: seq<Villa>, price: real): nat {
    |Filter(s, Below(price))|
  }

  /** How many villas of `s` cost at most `price`. */
  function CountAtMost(s: seq<Villa>, price: real): nat {
    |Filter(s, AtMost(price))|
  }

  /** In a price-sorted list, the villa at position `k` has at most `k` cheaper villas
      before it and at least `k + 1` villas (itself included) that cost no more. */
  lemma RankInSorted(s: seq<Villa>, k: int)
    requires SortedByPrice(s) && 0 <= k < |s|
    ensures CountBelow(s, s[k].basePrice) <= k < CountAtMost(s, s[k].basePrice)
  {
    CheaperBefore(s, k);
    NoDearerUpTo(s, k);
  }

  lemma CheaperBefore(s: seq<Villa>, k: int)
    requires SortedByPrice(s) && 0 <= k < |s|
    ensures CountBelow(s, s[k].basePrice) <= k
  {
    var x := s[k].basePrice;
    assert s == s[..k] + s[k..];
    FilterConcat(s[..k], s[k..], Below(x));
    FilterNone(s[k..], Below(x));
  }

  lemma NoDearerUpTo(s: seq<Villa>, k: int)
    requires SortedByPrice(s) && 0 <= k < |s|
    ensures k < CountAtMost(s, s[k].basePrice)
  {
    var x := s[k].basePrice;
    var head := s[..k + 1];
    assert s == head + s[k + 1..];
    assert forall i :: 0 <= i < |head| ==> head[i] == s[i];
    FilterConcat(head, s[k + 1..], AtMost(x));
    FilterAll(head, AtMost(x));
  }

  /** `v` placed before the first villa of a price-sorted list that costs more. */
  function InsertByPrice(v: Villa, s: seq<Villa>): (r: seq<Villa>)
    requires SortedByPrice(s)
    ensures SortedByPrice(r)
    ensures multiset(r) == multiset(s) + multiset{v}
    decreases |s|
  {
    if s == [] || v.basePrice <= s[0].basePrice then
      assert forall j :: 0 <= j < |s| ==> s[0].basePrice <= s[j].basePrice;
      [v] + s
    else
      var rest := InsertByPrice(v, s[1..]);
      assert s == [s[0]] + s[1..];
      InsertStep(v, s, rest);
      [s[0]] + rest
  }

  /** The head of a sorted list, cheaper than `v`, may precede `v` inserted into the tail. */
  lemma InsertStep(v: Villa, s: seq<Villa>, rest: seq<Villa>)
    requires s != [] && SortedByPrice(s) && s[0].basePrice < v.basePrice
    requires SortedByPrice(rest) && multiset(rest) == multiset(s[1..]) + multiset{v}
    ensures SortedByPrice([s[0]] + rest)
  {
    forall j | 0 <= j < |rest|
      ensures s[0].basePrice <= rest[j].basePrice
    {
      assert rest[j] in multiset(rest);
      if rest[j] != v {
        assert rest[j] in s[1..];
      }
    }
    var t := [s[0]] + rest;
    forall i, j | 0 <= i < j < |t|
      ensures t[i].basePrice <= t[j].basePrice
    {
      if i > 0 {
        assert t[i] == rest[i - 1] && t[j] == rest[j - 1];
      } else {
        assert t[j] == rest[j - 1];
      }
    }
  }

  /** `ORDER BY base_price_usd_per_night ASC`. */
  function SortByPrice(s: seq<Villa>): (r: seq<Villa>)
    ensures SortedByPrice(r)
    ensures multiset(r) == multiset(s)
    decreases |s|
  {
    if s == [] then []
    else
      assert s == [s[0]] + s[1..];
      InsertByPrice(s[0], SortByPrice(s[1..]))
  }

  /** `LIMIT limit OFFSET offset` on a list of rows. */
  function Window<T>(s: seq<T>, offset: nat, limit: nat): (r: seq<T>)
    ensures |r| <= limit
    ensures |r| == PageLength(|s|, offset, limit)
    ensures forall i :: 0 <= i < |r| ==> offset + i < |s| && r[i] == s[offset + i]
  {
    var from := if offset <= |s| then offset else |s|;
    var to := if limit <= |s| - from then from + limit else |s|;
    s[from..to]
  }

  /** How many rows `LIMIT limit OFFSET offset` leaves of `n`: none once the offset is
      at or past the end, otherwise at most `limit` of the rows after the offset. */
  function PageLength(n: nat, offset: nat, limit: nat): nat {
    if offset >= n then 0 else if limit <= n - offset then limit else n - offset
  }

  /** `Number(value.limit || 10)` and `Number(value.offset || 0)`: a page of ten rows
      from the start unless the query says otherwise; a supplied value is taken as it is,
      negative or `0` included. */
  function PageBounds(p: SearchParams): (r: (int, int))
    ensures p.limit.None? ==> r.0 == 10
    ensures p.offset.None? ==> r.1 == 0
    ensures p.limit.Some? ==> r.0 == p.limit.value
    ensures p.offset.Some? ==> r.1 == p.offset.value
  {
    (p.limit.GetOr(10), p.offset.GetOr(0))
  }

  /** The villas the search returns, or None when PostgreSQL refuses a negative `LIMIT`
      or `OFFSET`. Rows of equal price may come in any order in SQL; the model fixes one. */
  function Search(villas: seq<Villa>, p: SearchParams): (r: Option<seq<Villa>>)
    ensures r.None? <==> PageBounds(p).0 < 0 || PageBounds(p).1 < 0
    ensures r.Some? ==> |r.value| <= PageBounds(p).0
    ensures r.Some? ==> |r.value| == PageLength(|Filter(villas, v => Matches(p, v))|, PageBounds(p).1, PageBounds(p).0)
    ensures r.Some? ==> multiset(r.value) <= multiset(Filter(villas, v => Matches(p, v)))
    ensures r.Some? ==> SortedByPrice(r.value)
    ensures r.Some? ==> forall v :: v in r.value ==> v in villas && Matches(p, v)
    ensures r.Some? ==> forall i :: 0 <= i < |r.value| ==>
              CountBelow(Filter(villas, v => Matches(p, v)), r.value[i].basePrice) <= PageBounds(p).1 + i
              < CountAtMost(Filter(villas, v => Matches(p, v)), r.value[i].basePrice)
  {
    var (limit, offset) := PageBounds(p);
    if limit < 0 || offset < 0 then None
    else
      var matching := Filter(villas, v => Matches(p, v));
      var sorted := SortByPrice(matching);
      var w := Window(sorted, offset, limit);
      WindowOfSorted(matching, sorted, offset, limit);
      WindowRank(matching, sorted, offset, limit);
      Some(w)
  }

  /** The `i`-th villa of a page of a sorted permutation of `s` ranks `offset + i` in `s`
      by price: which villas a page holds is fixed up to villas of equal price. */
  lemma WindowRank(s: seq<Villa>, sorted: seq<Villa>, offset: nat, limit: nat)
    requires SortedByPrice(sorted) && multiset(sorted) == multiset(s)
    ensures forall i :: 0 <= i < |Window(sorted, offset, limit)| ==>
              CountBelow(s, Window(sorted, offset, limit)[i].basePrice) <= offset + i
              < CountAtMost(s, Window(sorted, offset, limit)[i].basePrice)
  {
    var w := Window(sorted, offset, limit);
    forall i | 0 <= i < |w|
      ensures CountBelow(s, w[i].basePrice) <= offset + i < CountAtMost(s, w[i].basePrice)
    {
      assert w[i] == sorted[offset + i];
      RankInPermutation(s, sorted, offset + i);
    }
  }

  /** Ranks by price do not depend on the order of the list. */
  lemma RankInPermutation(s: seq<Villa>, sorted: seq<Villa>, k: int)
    requires SortedByPrice(sorted) && multiset(sorted) == multiset(s) && 0 <= k < |sorted|
    ensures CountBelow(s, sorted[k].basePrice) <= k < CountAtMost(s, sorted[k].basePrice)
  {
    var x := sorted[k].basePrice;
    RankInSorted(sorted, k);
    FilterPermutation(sorted, s, Below(x));
    FilterPermutation(sorted, s, AtMost(x));
  }

  /** A window takes each element at most as often as the list holds it. */
  lemma WindowSubMultiset<T>(s: seq<T>, offset: nat, limit: nat)
    ensures multiset(Window(s, offset, limit)) <= multiset(s)
  {
    var w := Window(s, offset, limit);
    var from := if offset <= |s| then offset else |s|;
    var to := from + |w|;
    assert w == s[from..to];
    assert s == s[..from] + w + s[to..];
    assert multiset(s) == multiset(s[..from]) + multiset(w) + multiset(s[to..]);
  }

  /** A window of a sorted permutation of `s` is sorted, as long as a window of `s`, and
      holds only elements of `s`, none more often than in `s`. */
  lemma WindowOfSorted(s: seq<Villa>, sorted: seq<Villa>, offset: nat, limit: nat)
    requires SortedByPrice(sorted) && multiset(sorted) == multiset(s)
    ensures SortedByPrice(Window(sorted, offset, limit))
    ensures |Window(sorted, offset, limit)| == PageLength(|s|, offset, limit)
    ensures multiset(Window(sorted, offset, limit)) <= multiset(s)
    ensures forall v :: v in Window(sorted, offset, limit) ==> v in s
  {
    var w := Window(sorted, offset, limit);
    assert |sorted| == |s| by {
      assert |multiset(sorted)| == |multiset(s)|;
    }
    WindowSubMultiset(sorted, offset, limit);
    forall v | v in w
      ensures v in s
    {
      assert v in multiset(sorted);
    }
    forall i, j | 0 <= i < j < |w|
      ensures w[i].basePrice <= w[j].basePrice
    {
      assert w[i] == sorted[offset + i] && w[j] == sorted[offset + j];
    }
  }

  /** A first page at least as long as the number of matches holds every matching villa,
      as often as it occurs in the table. */
  lemma SearchFirstPageComplete(villas: seq<Villa>, p: SearchParams)
    requires PageBounds(p).1 == 0 && PageBounds(p).0 >= |villas|
    ensures Search(villas, p).Some?
    ensures multiset(Search(villas, p).value) == multiset(Filter(villas, v => Matches(p, v)))
  {
    var sorted := SortByPrice(Filter(villas, v => Matches(p, v)));
    assert |sorted| <= |villas| by {
      assert |multiset(sorted)| == |multiset(Filter(villas, v => Matches(p, v)))|;
    }
    assert Window(sorted, 0, PageBounds(p).0) == sorted;
  }

  /** With no parameter at all the search returns at most ten villas, all published and
      not deleted; `Search`'s rank clause says they are the cheapest ones. */
  lemma SearchDefaults(villas: seq<Villa>)
    ensures Search(villas, SearchParams(None, None, None, None, None)).Some?
    ensures |Search(villas, SearchParams(None, None, None, None, None)).value| <= 10
    ensures forall v :: v in Search(villas, SearchParams(None, None, None, None, None)).value ==> v.published && !v.deleted
  {
  }
}
