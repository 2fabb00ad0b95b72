/**
 * The events page's manager (js/event-loader.js): loading the event
 * records, splitting them into upcoming and past, and the two date helpers.
 *
 * Dates are millisecond timestamps in local time, without time zones or
 * daylight-saving jumps, so a calendar day is `MsPerDay` long and
 * `setHours(0, 0, 0, 0)` rounds down to a multiple of it. The network is a
 * parameter: each fetch is given by its outcome.
 */
module EventLoader {
  import opened Wrappers
  import opened Lists

  // ------------------------------------------------------------ dates

  const MsPerDay: int := 86400000

  /** The number of the local calendar day a timestamp falls on. */
  function DayNumber(t: int): int {
    t / MsPerDay
  }

  /** `d.setHours(0, 0, 0, 0)`: the start of the day `t` falls on. */
  function Midnight(t: int): (m: int)
    ensures m <= t < m + MsPerDay
  {
    DayNumber(t) * MsPerDay
  }

  /** `a.toDateString() === b.toDateString()` */
  predicate SameDay(a: int, b: int) {
    DayNumber(a) == DayNumber(b)
  }

  // ------------------------------------------------------------ events

  /** An `event.json` record, with the fields the manager reads. */
  datatype Event = Event(id: string, title: string, startingDate: int, endingDate: int)

  /**
   * `today >= pastThreshold`: at `now`, today's midnight is at or after the
   * midnight that follows the event's ending day.
   */
  predicate IsPast(now: int, e: Event) {
    Midnight(now) >= Midnight(e.endingDate) + MsPerDay
  }

  /** An event becomes past on the first day after its ending day: it is still upcoming on that day itself. */
  lemma PastIffLaterDay(now: int, e: Event)
    ensures IsPast(now, e) <==> DayNumber(now) > DayNumber(e.endingDate)
    ensures SameDay(now, e.endingDate) ==> !IsPast(now, e)
  {
    var a, b := DayNumber(now), DayNumber(e.endingDate);
    assert Midnight(now) - (Midnight(e.endingDate) + MsPerDay) == (a - b - 1) * MsPerDay;
  }

  /** The events still upcoming at `now`, in list order. */
  function StillUpcoming(events: seq<Event>, now: int): seq<Event> {
    if events == [] then []
    else
      var init, e := events[..|events| - 1], events[|events| - 1];
      if IsPast(now, e) then StillUpcoming(init, now) else StillUpcoming(init, now) + [e]
  }

  /** The events already past at `now`, in list order. */
  function AlreadyPast(events: seq<Event>, now: int): seq<Event> {
    if events == [] then []
    else
      var init, e := events[..|events| - 1], events[|events| - 1];
      if IsPast(now, e) then AlreadyPast(init, now) + [e] else AlreadyPast(init, now)
  }

  /** The forEach puts each event in exactly one of the two lists. */
  lemma {:induction false} SplitPartitions(events: seq<Event>, now: int)
    ensures multiset(StillUpcoming(events, now)) + multiset(AlreadyPast(events, now)) == multiset(events)
    ensures forall e :: e in StillUpcoming(events, now) <==> e in events && !IsPast(now, e)
    ensures forall e :: e in AlreadyPast(events, now) <==> e in events && IsPast(now, e)
  {
    if events != [] {
      var init, e := events[..|events| - 1], events[|events| - 1];
      SplitPartitions(init, now);
      assert events == init + [e];
    }
  }

  /** `(a, b) => new Date(a.starting_date) - new Date(b.starting_date)` */
  function ByStart(a: Event, b: Event): int {
    a.startingDate - b.startingDate
  }

  /** `(a, b) => new Date(b.ending_date) - new Date(a.ending_date)` */
  function ByEndDescending(a: Event, b: Event): int {
    b.endingDate - a.endingDate
  }

  lemma EventComparators()
    ensures IsComparator(ByStart) && IsComparator(ByEndDescending)
  {
  }

  /** `upcomingEvents` after `categorizeEvents`. */
  function UpcomingEvents(events: seq<Event>, now: int): seq<Event> {
    SortWith(StillUpcoming(events, now), ByStart)
  }

  /** `pastEvents` after `categorizeEvents`. */
  function PastEvents(events: seq<Event>, now: int): seq<Event> {
    SortWith(AlreadyPast(events, now), ByEndDescending)
  }

  /**
   * Every event ends up in exactly one of the two lists, the upcoming ones
   * earliest start first and the past ones latest end first.
   */
  lemma Categorized(events: seq<Event>, now: int)
    ensures var up, past := UpcomingEvents(events, now), PastEvents(events, now);
            && multiset(up) + multiset(past) == multiset(events)
            && |up| + |past| == |events|
            && (forall e :: e in up <==> e in events && !IsPast(now, e))
            && (forall e :: e in past <==> e in events && IsPast(now, e))
            && (forall i, j :: 0 <= i < j < |up| ==> up[i].startingDate <= up[j].startingDate)
            && (forall i, j :: 0 <= i < j < |past| ==> past[i].endingDate >= past[j].endingDate)
  {
    var up, past := UpcomingEvents(events, now), PastEvents(events, now);
    SplitPartitions(events, now);
    SortWithPermutes(StillUpcoming(events, now), ByStart);
    SortWithPermutes(AlreadyPast(events, now), ByEndDescending);
    EventComparators();
    SortWithSorted(StillUpcoming(events, now), ByStart);
    SortWithSorted(AlreadyPast(events, now), ByEndDescending);
    assert |multiset(up)| + |multiset(past)| == |multiset(events)|;
    forall e ensures e in up <==> e in events && !IsPast(now, e) {
      assert e in up <==> e in multiset(up);
    }
    forall e ensures e in past <==> e in events && IsPast(now, e) {
      assert e in past <==> e in multiset(past);
    }
  }

  // ------------------------------------------------------------ loading

  /** The outcome of fetching one `event.json`. */
  datatype EventResponse =
    | FetchError          // `fetch` or `response.json()` threw
    | NotOk               // the response's status is not OK
    | OkBody(parsed: Option<Event>)  // the body: an event record, or `None` for a falsy one (`null`, `false`, `0`, `""`)

  /** `loadEventData`: the record, or `null` on an error or a response that is not OK. */
  function LoadEventData(r: EventResponse): (e: Option<Event>)
    ensures e.Some? <==> r.OkBody? && r.parsed.Some?
    ensures e.Some? ==> e == r.parsed
  {
    match r
    case OkBody(parsed) => parsed
    case _ => None
  }

  /** What `loadEventData` returns for each folder of a listing. */
  function LoadedData(responses: seq<EventResponse>): (r: seq<Option<Event>>)
    ensures |r| == |responses| && forall i :: 0 <= i < |r| ==> r[i] == LoadEventData(responses[i])
  {
    seq(|responses|, i requires 0 <= i < |responses| => LoadEventData(responses[i]))
  }

  /** The records a listing contributes: the non-null ones, in folder order. */
  function LoadedEvents(responses: seq<EventResponse>): seq<Event> {
    Somes(LoadedData(responses))
  }

  /** A record is pushed exactly when some folder's fetch answered OK with it. */
  lemma LoadedEventsIff(responses: seq<EventResponse>, e: Event)
    ensures e in LoadedEvents(responses) <==> exists i :: 0 <= i < |responses| && responses[i] == OkBody(Some(e))
    ensures |LoadedEvents(responses)| <= |responses|
  {
    var data := LoadedData(responses);
    SomesMember(data, e);
    if e in LoadedEvents(responses) {
      var i :| 0 <= i < |data| && data[i] == Some(e);
      assert responses[i] == OkBody(Some(e));
    }
  }

  /** The outcome of fetching an events folder (`./data/events/upcoming/` or `./data/events/past/`). */
  datatype FolderResponse =
    | FolderFetchError
    | FolderNotOk
    | FolderListed(responses: seq<EventResponse>)  // one per folder `getEventFolders` names

  function FolderEvents(f: FolderResponse): seq<Event> {
    if f.FolderListed? then LoadedEvents(f.responses) else []
  }

  /** The `EventManager` instance. */
  class EventManager {
    var events: seq<Event>
    var upcomingEvents: seq<Event>
    var pastEvents: seq<Event>

    constructor ()
      ensures events == [] && upcomingEvents == [] && pastEvents == []
    {
      events := [];
      upcomingEvents := [];
      pastEvents := [];
    }

    /** `categorizeEvents` at time `now`. */
    method CategorizeEvents(now: int)
      modifies this
      ensures events == old(events)
      ensures upcomingEvents == UpcomingEvents(events, now)
      ensures pastEvents == PastEvents(events, now)
    {
      upcomingEvents := [];
      pastEvents := [];
      for i := 0 to |events|
        invariant events == old(events)
        invariant upcomingEvents == StillUpcoming(events[..i], now)
        invariant pastEvents == AlreadyPast(events[..i], now)
      {
        assert events[..i + 1][..i] == events[..i];
        var event := events[i];
        if IsPast(now, event) {
          pastEvents := pastEvents + [event];
        } else {
          upcomingEvents := upcomingEvents + [event];
        }
      }
      assert events[..|events|] == events;
      upcomingEvents := SortWith(upcomingEvents, ByStart);
      pastEvents := SortWith(pastEvents, ByEndDescending);
    }

    /** The loop over a listing's folders: each non-null record is pushed onto `events`. */
    method PushLoaded(responses: seq<EventResponse>)
      modifies this
      ensures events == old(events) + LoadedEvents(responses)
      ensures upcomingEvents == old(upcomingEvents) && pastEvents == old(pastEvents)
    {
      ghost var data := LoadedData(responses);
      for i := 0 to |responses|
        invariant events == old(events) + Somes(data[..i])
        invariant upcomingEvents == old(upcomingEvents) && pastEvents == old(pastEvents)
      {
        assert data[..i + 1] == data[..i] + [data[i]];
        SomesSnoc(data[..i], data[i]);
        var eventData := LoadEventData(responses[i]);
        if eventData.Some? {
          events := events + [eventData.value];
        }
      }
      assert data[..|responses|] == data;
    }

    /**
     * `loadAllEvents` at time `now`: the upcoming folder, then the past one,
     * then the split. A folder fetch that throws ends the load with `false`,
     * keeping what was pushed before it and skipping the split. `events` is
     * not emptied first, so a second load appends again.
     */
    method LoadAllEvents(upcoming: FolderResponse, past: FolderResponse, now: int) returns (ok: bool)
      modifies this
      ensures ok <==> !upcoming.FolderFetchError? && !past.FolderFetchError?
      ensures upcoming.FolderFetchError? ==>
        events == old(events) && upcomingEvents == old(upcomingEvents) && pastEvents == old(pastEvents)
      ensures !upcoming.FolderFetchError? && past.FolderFetchError? ==>
        events == old(events) + FolderEvents(upcoming)
        && upcomingEvents == old(upcomingEvents) && pastEvents == old(pastEvents)
      ensures ok ==>
        events == old(events) + FolderEvents(upcoming) + FolderEvents(past)
        && upcomingEvents == UpcomingEvents(events, now) && pastEvents == PastEvents(events, now)
    {
      if upcoming.FolderFetchError? {
        return false;
      }
      if upcoming.FolderListed? {
        PushLoaded(upcoming.responses);
      }
      if past.FolderFetchError? {
        return false;
      }
      if past.FolderListed? {
        PushLoaded(past.responses);
      }
      CategorizeEvents(now);
      return true;
    }
  }

  // ------------------------------------------------------------ helpers

  function MonthTable(): seq<string> {
    ["JAN", "FEV", "MAR", "ABR", "MAI", "JUN", "JUL", "AGO", "SET", "OUT", "NOV", "DEZ"]
  }

  /** `getMonthAbbreviation(month)`: `None` stands for the `undefined` an index outside the table gives. */
  function MonthAbbreviation(month: int): (r: Option<string>)
    ensures r.Some? <==> 0 <= month < 12
  {
    if 0 <= month < 12 then Some(MonthTable()[month]) else None
  }

  /** The twelve Portuguese abbreviations are three capital letters each and tell the months apart. */
  lemma MonthAbbreviationsDistinct(m: int, n: int)
    requires 0 <= m < 12 && 0 <= n < 12
    ensures |MonthAbbreviation(m).value| == 3
    ensures forall k :: 0 <= k < 3 ==> 'A' <= MonthAbbreviation(m).value[k] <= 'Z'
    ensures m != n ==> MonthAbbreviation(m) != MonthAbbreviation(n)
  {
  }

  lemma MonthAbbreviationExample()
    ensures MonthAbbreviation(0) == Some("JAN") && MonthAbbreviation(11) == Some("DEZ")
    ensures MonthAbbreviation(12) == None
  {
  }

  /**
   * `formatDateRange`, with `toLocaleDateString('pt-BR')` as the parameter
   * `format`: one date when both fall on the same day, else `start - end`.
   */
  function FormatDateRange(start: int, end: int, format: int -> string): string {
    if SameDay(start, end) then format(start) else format(start) + " - " + format(end)
  }

  /** The range is a single date exactly when start and end fall on the same calendar day. */
  lemma SingleDateIffSameDay(start: int, end: int, format: int -> string)
    ensures FormatDateRange(start, end, format) == format(start) <==> SameDay(start, end)
  {
    if !SameDay(start, end) {
      assert |FormatDateRange(start, end, format)| >= |format(start)| + 3;
    }
  }

  /**
   * With a formatter that depends only on the calendar day, the range starts
   * with the start date and ends with the end date.
   */
  lemma RangeShowsBothEnds(start: int, end: int, format: int -> string)
    requires forall a, b :: SameDay(a, b) ==> format(a) == format(b)
    ensures var r := FormatDateRange(start, end, format);
            && |format(start)| <= |r| && r[..|format(start)|] == format(start)
            && |format(end)| <= |r| && r[|r| - |format(end)|..] == format(end)
  {
    var r := FormatDateRange(start, end, format);
    if !SameDay(start, end) {
      assert r == format(start) + (" - " + format(end));
    }
  }
}
