/** The host calendar's month grid (vitereact/src/components/views/UV_HostCalendar.tsx):
    35 consecutive days from today, the events listed on each day, the colour of a cell,
    and what a click on a cell asks the server to do.

    Events carry their dates as the server's timestamps; the grid compares their first
    ten characters, the `YYYY-MM-DD` part, with the day's ISO date using JavaScript's
    string comparison. Dates are UTC. */
module HostCalendar {
  import opened Common
  import opened IsoDate
  import opened ServerData

  /** An event as the view receives it. */
  datatype ViewEvent = ViewEvent(id: string, eventType: EventType, startDate: string, endDate: string)

  /** One cell of the grid. */
  datatype Day = Day(date: string, events: seq<ViewEvent>)

  const GridDays: nat := 35

  /** `e.start_date.slice(0, 10) <= iso && e.end_date.slice(0, 10) > iso`. */
  predicate ListedOn(e: ViewEvent, iso: string) {
    LexLe(Prefix10(e.startDate), iso) && LexLess(iso, Prefix10(e.endDate))
  }

  function EventsOn(events: seq<ViewEvent>, iso: string): (r: seq<ViewEvent>)
    ensures forall e :: e in r <==> e in events && ListedOn(e, iso)
  {
    Filter(events, e => ListedOn(e, iso))
  }

  /** The cell of the `k`-th day from `since`: its ISO date and the events listed on it. */
  function Cell(since: Date, events: seq<ViewEvent>, k: nat): Day
    requires Valid(since) && since.year < 9999 && k < GridDays
  {
    AddDaysStaysValid(since, k);
    var iso := Iso(AddDays(since, k));
    Day(iso, EventsOn(events, iso))
  }

  /** The `days` memo: one cell per day from `since`, with that day's events. */
  method BuildDays(since: Date, events: seq<ViewEvent>) returns (out: seq<Day>)
    requires Valid(since) && since.year < 9999
    ensures |out| == GridDays
    ensures forall i :: 0 <= i < GridDays ==> out[i] == Cell(since, events, i)
  {
    out := [];
    var i := 0;
    while i < GridDays
      invariant 0 <= i <= GridDays
      invariant |out| == i
      invariant forall k :: 0 <= k < i ==> out[k] == Cell(since, events, k)
    {
      CellsExtend(since, events, out);
      out := out + [Cell(since, events, i)];
      i := i + 1;
    }
  }

  lemma CellsExtend(since: Date, events: seq<ViewEvent>, out: seq<Day>)
    requires Valid(since) && since.year < 9999 && |out| < GridDays
    requires forall k :: 0 <= k < |out| ==> out[k] == Cell(since, events, k)
    ensures forall k :: 0 <= k <= |out| ==> (out + [Cell(since, events, |out|)])[k] == Cell(since, events, k)
  {
    var next := out + [Cell(since, events, |out|)];
    assert forall k :: 0 <= k < |out| ==> next[k] == out[k];
  }

  /** Every day of the grid is a valid date. */
  lemma GridDaysValid(since: Date)
    requires Valid(since) && since.year < 9999
    ensures forall k :: 0 <= k < GridDays ==> Valid(AddDays(since, k))
  {
    forall k | 0 <= k < GridDays
      ensures Valid(AddDays(since, k))
    {
      AddDaysStaysValid(since, k);
    }
  }

  /** The grid's dates run forward day by day: each cell is the day after the previous,
      and the ISO strings are strictly increasing for JavaScript's `<`. */
  lemma GridDatesIncrease(since: Date, i: nat, j: nat)
    requires Valid(since) && since.year < 9999 && i < j < GridDays
    ensures Valid(AddDays(since, i)) && Valid(AddDays(since, j))
    ensures LexLess(Iso(AddDays(since, i)), Iso(AddDays(since, j)))
    ensures j == i + 1 ==> AddDays(since, j) == NextDay(AddDays(since, i))
  {
    AddDaysStaysValid(since, i);
    AddDaysStaysValid(since, j);
    AddDaysIncreasing(since, i, j);
    IsoOrder(AddDays(since, i), AddDays(since, j));
  }

  /** For an event whose timestamps begin with valid dates, being listed on a day is
      lying in the half-open interval `[start, end)`: listed from the start date up to,
      but not on, the end date. */
  lemma ListedOnHalfOpen(e: ViewEvent, start: Date, end: Date, d: Date)
    requires Valid(start) && Valid(end) && Valid(d)
    requires Prefix10(e.startDate) == Iso(start) && Prefix10(e.endDate) == Iso(end)
    ensures ListedOn(e, Iso(d)) <==> !Before(d, start) && Before(d, end)
  {
    IsoOrder(d, start);
    IsoOrder(d, end);
  }

  /** The cell background: grey for a blocked date, red for a booked one, green otherwise. */
  datatype Colour = Grey | Red | Green

  function CellColour(events: seq<ViewEvent>): (c: Colour)
    ensures c == Grey <==> exists i :: 0 <= i < |events| && events[i].eventType == Blocked
    ensures c == Red <==> (forall i :: 0 <= i < |events| ==> events[i].eventType != Blocked)
                          && exists i :: 0 <= i < |events| && events[i].eventType == BookingEvent
  {
    var blockEvent := First(events, (e: ViewEvent) => e.eventType == Blocked);
    var bookingEvent := First(events, (e: ViewEvent) => e.eventType == BookingEvent);
    if blockEvent.Some? then Grey else if bookingEvent.Some? then Red else Green
  }

  /** A held (`manual_hold`) date is shown as free: only blocks and bookings colour a cell. */
  lemma HoldsLookFree(events: seq<ViewEvent>)
    requires forall i :: 0 <= i < |events| ==> events[i].eventType == ManualHold
    ensures CellColour(events) == Green
  {
  }

  /** A click asks the server for nothing, to delete an event, or to create a block. */
  datatype ClickAction = NoAction | DeleteEvent(id: string) | CreateBlock(villaId: string, start: Date, end: Date, note: string)

  const ManualBlockNote: string := "manual block via calendar"

  predicate BlockStartingOn(iso: string, e: ViewEvent) {
    Prefix10(e.startDate) == iso && e.eventType == Blocked
  }

  /** `handleCellClick`: without a selected villa nothing happens; a blocked event that
      starts on the date is deleted (the first one); otherwise a one-day block is created
      from midnight to midnight 24 hours later. */
  function CellClick(selectedVilla: Option<string>, events: seq<ViewEvent>, d: Date): (a: ClickAction)
    requires Valid(d)
    ensures selectedVilla.None? ==> a == NoAction
    ensures selectedVilla.Some? && (exists i :: 0 <= i < |events| && BlockStartingOn(Iso(d), events[i])) ==>
              a.DeleteEvent? && exists i :: 0 <= i < |events| && BlockStartingOn(Iso(d), events[i]) && events[i].id == a.id
                                            && forall j :: 0 <= j < i ==> !BlockStartingOn(Iso(d), events[j])
    ensures selectedVilla.Some? && (forall i :: 0 <= i < |events| ==> !BlockStartingOn(Iso(d), events[i])) ==>
              a == CreateBlock(selectedVilla.value, d, NextDay(d), ManualBlockNote)
  {
    if selectedVilla.None? then NoAction
    else match First(events, e => BlockStartingOn(Iso(d), e))
      case Some(existing) => DeleteEvent(existing.id)
      case None => CreateBlock(selectedVilla.value, d, NextDay(d), ManualBlockNote)
  }

  /** A created block covers exactly its own day of the grid: it is listed on the clicked
      date and on no other date. */
  lemma CreatedBlockCoversOneDay(villa: string, events: seq<ViewEvent>, d: Date, e: ViewEvent, other: Date)
    requires Valid(d) && d.year < 9999 && Valid(other)
    requires CellClick(Some(villa), events, d).CreateBlock?
    requires Prefix10(e.startDate) == Iso(d) && Prefix10(e.endDate) == Iso(NextDay(d))
    ensures ListedOn(e, Iso(d))
    ensures ListedOn(e, Iso(other)) <==> other == d
  {
    ListedOnHalfOpen(e, d, NextDay(d), d);
    ListedOnHalfOpen(e, d, NextDay(d), other);
    NextDayIsNext(d, other);
  }

  /** No valid date lies strictly between a date and the next one. */
  lemma NextDayIsNext(d: Date, x: Date)
    requires Valid(d) && Valid(x) && d.year < 9999
    ensures !Before(x, d) && Before(x, NextDay(d)) <==> x == d
  {
  }
}
