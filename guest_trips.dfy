/** The guest's trips dashboard (vitereact/src/components/views/UV_GuestTripsDashboard.tsx):
    the split of the guest's bookings into upcoming and past trips, the count of bookings
    that still need the guest's attention, and the per-trip countdown. Instants are
    integer milliseconds. */
module GuestTrips {
  import opened Common
  import opened ServerData

  /** A booking as the dashboard receives it; `contractSignedAt` is None for a falsy
      `contract_signed_at`. */
  datatype Trip = Trip(id: string, checkIn: int, checkOut: int, status: BookingStatus,
                       contractSignedAt: Option<int>, total: real, balance: real)

  datatype Tab = Upcoming | Past

  const DayMs: int := 1000 * 60 * 60 * 24

  /** `new Date(b.check_out) > now` */
  predicate IsUpcoming(now: int, b: Trip) {
    b.checkOut > now
  }

  function UpcomingTrips(bookings: seq<Trip>, now: int): seq<Trip> {
    Filter(bookings, b => IsUpcoming(now, b))
  }

  function PastTrips(bookings: seq<Trip>, now: int): seq<Trip> {
    Filter(bookings, b => !IsUpcoming(now, b))
  }

  /** Every booking is in exactly one of the two tabs, as often as it occurs. */
  lemma TripsPartition(bookings: seq<Trip>, now: int)
    ensures multiset(UpcomingTrips(bookings, now)) + multiset(PastTrips(bookings, now)) == multiset(bookings)
    ensures |UpcomingTrips(bookings, now)| + |PastTrips(bookings, now)| == |bookings|
    ensures forall b :: b in UpcomingTrips(bookings, now) ==> b !in PastTrips(bookings, now)
  {
    FilterPartition(bookings, b => IsUpcoming(now, b), b => !IsUpcoming(now, b));
  }

  /** Latest check-in first, the order the bookings are requested in. */
  predicate NewestFirst(s: seq<Trip>) {
    forall i, j :: 0 <= i < j < |s| ==> s[i].checkIn >= s[j].checkIn
  }

  /** Both tabs keep the order of the list they are taken from. */
  lemma {:induction false} TabsKeepOrder(bookings: seq<Trip>, now: int)
    requires NewestFirst(bookings)
    ensures NewestFirst(UpcomingTrips(bookings, now)) && NewestFirst(PastTrips(bookings, now))
    decreases |bookings|
  {
    if bookings != [] {
      var rest := bookings[1..];
      assert NewestFirst(rest) by {
        forall i, j | 0 <= i < j < |rest|
          ensures rest[i].checkIn >= rest[j].checkIn
        {
          assert rest[i] == bookings[i + 1] && rest[j] == bookings[j + 1];
        }
      }
      TabsKeepOrder(rest, now);
      KeepOrderStep(bookings, b => IsUpcoming(now, b));
      KeepOrderStep(bookings, b => !IsUpcoming(now, b));
    }
  }

  lemma KeepOrderStep(bookings: seq<Trip>, p: Trip -> bool)
    requires bookings != [] && NewestFirst(bookings) && NewestFirst(Filter(bookings[1..], p))
    ensures NewestFirst(Filter(bookings, p))
  {
    var rest := Filter(bookings[1..], p);
    forall x | x in rest
      ensures bookings[0].checkIn >= x.checkIn
    {
      var k :| 0 <= k < |bookings[1..]| && bookings[1..][k] == x;
      assert bookings[k + 1] == x;
    }
    if p(bookings[0]) {
      assert Filter(bookings, p) == [bookings[0]] + rest;
      ConsNewestFirst(bookings[0], rest);
    } else {
      assert Filter(bookings, p) == rest;
    }
  }

  /** A trip that checks in no earlier than every trip of a newest-first list can be
      put in front of it. */
  lemma ConsNewestFirst(h: Trip, rest: seq<Trip>)
    requires NewestFirst(rest) && forall x :: x in rest ==> h.checkIn >= x.checkIn
    ensures NewestFirst([h] + rest)
  {
    var r := [h] + rest;
    forall i, j | 0 <= i < j < |r|
      ensures r[i].checkIn >= r[j].checkIn
    {
      assert r[j] == rest[j - 1];
      if i > 0 {
        assert r[i] == rest[i - 1];
      }
    }
  }

  /** `new Date(b.check_in) > now && (status in_progress || no contract || balance > 0)` */
  predicate NeedsAttention(now: int, b: Trip): (r: bool)
    ensures r ==> b.checkIn > now
    ensures b.status != InProgress && b.contractSignedAt.Some? && b.balance <= 0.0 ==> !r
  {
    b.checkIn > now && (b.status == InProgress || b.contractSignedAt.None? || b.balance > 0.0)
  }

  /** `pending_tasks_count`: the bookings that need attention, so every booking either
      counts or is one of those that do not. */
  function PendingCount(bookings: seq<Trip>, now: int): (n: nat)
    ensures n <= |bookings|
    ensures n + |Filter(bookings, b => !NeedsAttention(now, b))| == |bookings|
    ensures n == 0 <==> forall i :: 0 <= i < |bookings| ==> !NeedsAttention(now, bookings[i])
  {
    PendingSplit(bookings, now);
    |Filter(bookings, b => NeedsAttention(now, b))|
  }

  lemma PendingSplit(bookings: seq<Trip>, now: int)
    ensures |Filter(bookings, b => NeedsAttention(now, b))| + |Filter(bookings, b => !NeedsAttention(now, b))| == |bookings|
    ensures |Filter(bookings, b => NeedsAttention(now, b))| == 0
            <==> forall i :: 0 <= i < |bookings| ==> !NeedsAttention(now, bookings[i])
  {
    var f := Filter(bookings, b => NeedsAttention(now, b));
    FilterPartition(bookings, b => NeedsAttention(now, b), b => !NeedsAttention(now, b));
    if |f| == 0 {
      assert forall i :: 0 <= i < |bookings| ==> bookings[i] !in f;
    } else {
      assert f[0] in f;
    }
  }

  /** The count one booking at a time: a booking adds one exactly when it needs attention. */
  lemma PendingCountCons(b: Trip, bookings: seq<Trip>, now: int)
    ensures PendingCount([b] + bookings, now)
         == PendingCount(bookings, now) + (if NeedsAttention(now, b) then 1 else 0)
  {
    assert ([b] + bookings)[1..] == bookings;
  }

  /** For bookings that do not end before they start, every booking needing attention is
      an upcoming one. */
  lemma PendingAreUpcoming(bookings: seq<Trip>, now: int)
    requires forall i :: 0 <= i < |bookings| ==> bookings[i].checkIn <= bookings[i].checkOut
    ensures PendingCount(bookings, now) <= |UpcomingTrips(bookings, now)|
  {
    var p := b => NeedsAttention(now, b) && b in bookings;
    assert Filter(bookings, p) == Filter(bookings, b => NeedsAttention(now, b)) by {
      FilterSameOn(bookings, p, b => NeedsAttention(now, b));
    }
    FilterMonotone(bookings, p, b => IsUpcoming(now, b));
  }

  /** Filters that agree on the elements give the same list. */
  lemma {:induction false} FilterSameOn(s: seq<Trip>, p: Trip -> bool, q: Trip -> bool)
    requires forall x :: x in s ==> p(x) == q(x)
    ensures Filter(s, p) == Filter(s, q)
    decreases |s|
  {
    if s != [] {
      FilterSameOn(s[1..], p, q);
    }
  }

  /** `count_down`: whole days until check-in, rounded up and never negative, on the
      upcoming tab; 0 on the past tab. */
  function CountDown(tab: Tab, checkIn: int, now: int): (days: int)
    ensures days >= 0
    ensures tab == Past ==> days == 0
    ensures tab == Upcoming && checkIn > now ==> (days - 1) * DayMs < checkIn - now <= days * DayMs
    ensures checkIn <= now ==> days == 0
  {
    if tab == Upcoming then
      var d := CeilDiv(checkIn - now, DayMs);
      if d < 0 then 0 else d
    else 0
  }

  /** The countdown line is shown only on the upcoming tab and only for a positive count,
      that is for a check-in still ahead. */
  predicate ShowCountDown(tab: Tab, days: int) {
    tab == Upcoming && days > 0
  }

  lemma CountDownShownIffAhead(tab: Tab, checkIn: int, now: int)
    ensures ShowCountDown(tab, CountDown(tab, checkIn, now)) <==> tab == Upcoming && checkIn > now
  {
  }

  /** `day` or `days` after the countdown. */
  function DayNoun(days: int): (s: string)
    ensures s == "day" <==> days == 1
    ensures s == "days" <==> days != 1
  {
    if days != 1 then "days" else "day"
  }

  /** The "due" note of a trip card appears only for a positive balance. */
  predicate ShowDue(b: Trip) {
    b.balance > 0.0
  }

  /** The red banner: absent for no pending booking, with `bookings` in the plural for
      more than one. */
  datatype Banner = NoBanner | Attention(count: int, noun: string)

  function PendingBanner(count: int): (b: Banner)
    ensures b.NoBanner? <==> count <= 0
    ensures b.Attention? ==> b.count == count && (b.noun == "bookings" <==> count > 1)
                             && (b.noun == "booking" <==> count == 1)
  {
    if count > 0 then Attention(count, "booking" + (if count > 1 then "s" else "")) else NoBanner
  }
}
