/** The log-generation endpoint (`generate_logs` in trucker_logbook/views.py)
    as a transition of an abstract store: look the trip up, delete its log
    entries, make sure it has a configuration, generate a fresh log, insert
    it, and summarise the trip's entries by date.  No transaction wraps the
    request, so when a later step raises, the writes before it stay. */
module Orchestration {
  import opened Wrappers
  import opened Models
  import opened Generator
  import opened GeneratorTheorems
  import opened Summary

  /** The tables the endpoint touches. */
  datatype Store = Store(
    trips: map<TripId, Trip>,
    entries: seq<LogEntry>,
    configurations: seq<Configuration>,
    summaries: Summaries)

  /** `get_object_or_404` answers 404 for an unknown trip; an
      `OverflowError` of the calendar answers 500 and leaves the store as
      `written`. */
  datatype Error = TripNotFound | CalendarOverflow(written: Store)

  /** The trip's three location labels. */
  function RouteOf(t: Trip): Route {
    Route(t.startLocation, t.pickupLocation, t.dropoffLocation)
  }

  /** The entries of one trip, in stored order (`trip.log_entries.all()`). */
  function TripEntries(es: seq<LogEntry>, trip: TripId): (r: seq<LogEntry>)
    ensures OfTrip(r, trip)
    ensures forall e :: e in r <==> e in es && e.trip == trip
  {
    if |es| == 0 then []
    else TripEntries(es[..|es| - 1], trip) + (if es[|es| - 1].trip == trip then [es[|es| - 1]] else [])
  }

  /** The entries left after deleting one trip's
      (`LogEntry.objects.filter(trip=trip).delete()`). */
  function WithoutTrip(es: seq<LogEntry>, trip: TripId): (r: seq<LogEntry>)
    ensures forall e :: e in r <==> e in es && e.trip != trip
  {
    if |es| == 0 then []
    else WithoutTrip(es[..|es| - 1], trip) + (if es[|es| - 1].trip != trip then [es[|es| - 1]] else [])
  }

  predicate HasConfiguration(cs: seq<Configuration>, trip: TripId) {
    exists i :: 0 <= i < |cs| && cs[i].trip == trip
  }

  /** `Configuration.objects.filter(trip=trip).first()`, creating a default
      configuration when there is none. */
  function GetOrCreateConfiguration(cs: seq<Configuration>, trip: TripId): (r: seq<Configuration>)
    ensures HasConfiguration(r, trip)
    ensures |cs| <= |r| <= |cs| + 1 && r[..|cs|] == cs
    ensures |r| == |cs| + 1 <==> !HasConfiguration(cs, trip)
  {
    if HasConfiguration(cs, trip) then cs
    else
      assert (cs + [DefaultConfiguration(trip)])[|cs|].trip == trip;
      cs + [DefaultConfiguration(trip)]
  }

  /** The draws the generator needs for the trip, when the trip exists. */
  predicate DrawsFor(st: Store, trip: TripId, draws: seq<DayDraw>) {
    trip in st.trips ==> ValidDraws(RouteOf(st.trips[trip]), draws)
  }

  /** The log the endpoint generates for an existing trip. */
  function FreshLog(st: Store, trip: TripId, geo: Geocoder, draws: seq<DayDraw>): seq<LogEntry>
    requires trip in st.trips && DrawsFor(st, trip, draws)
  {
    var t := st.trips[trip];
    GenerateDummyLogs(trip, t.startDate, RouteOf(t), geo, draws)
  }

  /** The store once the trip's entries are deleted and its configuration
      is ensured, the writes before the log is generated. */
  function Cleared(st: Store, trip: TripId): (r: Store)
    ensures r.trips == st.trips && r.summaries == st.summaries
  {
    st.(entries := WithoutTrip(st.entries, trip),
        configurations := GetOrCreateConfiguration(st.configurations, trip))
  }

  /** Inserting the generated log and summarising the trip: the insert stays
      when the summary raises. */
  function InsertAndSummarise(st: Store, trip: TripId, log: seq<LogEntry>): (r: Result<Store, Error>)
    ensures r.Success? ==> r.value.trips == st.trips && r.value.entries == st.entries + log
    ensures r.Failure? ==> r.error.CalendarOverflow? && r.error.written == st.(entries := st.entries + log)
  {
    var inserted := st.(entries := st.entries + log);
    match CalculateDailySummary(st.summaries, trip, TripEntries(inserted.entries, trip))
    case Failure(_) => Failure(CalendarOverflow(inserted))
    case Success(summaries) => Success(inserted.(summaries := summaries))
  }

  /** `generate_logs`. */
  function GenerateLogs(st: Store, trip: TripId, geo: Geocoder, draws: seq<DayDraw>): (r: Result<Store, Error>)
    requires DrawsFor(st, trip, draws)
    ensures (r.Failure? && r.error.TripNotFound?) <==> trip !in st.trips
    ensures r.Success? ==> r.value.trips == st.trips
    ensures r.Failure? && r.error.CalendarOverflow? ==> r.error.written.trips == st.trips
  {
    if trip !in st.trips then Failure(TripNotFound)
    else
      var t := st.trips[trip];
      var generated := GenerateDummyLogsChecked(trip, t.startDate, RouteOf(t), geo, draws);
      if generated.Failure? then Failure(CalendarOverflow(Cleared(st, trip)))
      else InsertAndSummarise(Cleared(st, trip), trip, generated.value)
  }

  /** The trip's calendar fits Python's dates: its start date has a previous
      date, and the last roll-over stays on or before 9999-12-31. */
  predicate CalendarFits(t: Trip) {
    FirstDate < t.startDate && t.startDate + DaysSimulated(RouteOf(t)) <= LastDate
  }

  lemma {:induction false} TripEntriesConcat(a: seq<LogEntry>, b: seq<LogEntry>, trip: TripId)
    ensures TripEntries(a + b, trip) == TripEntries(a, trip) + TripEntries(b, trip)
    decreases |b|
  {
    if |b| == 0 {
      assert a + b == a;
    } else {
      var init := b[..|b| - 1];
      assert (a + b)[..|a + b| - 1] == a + init;
      assert (a + b)[|a + b| - 1] == b[|b| - 1];
      TripEntriesConcat(a, init, trip);
    }
  }

  /** Deleting a trip's entries and selecting them split the stored entries
      between them: every entry lands on exactly one side, as often as it
      was stored. */
  lemma {:induction false} TripEntriesPartition(es: seq<LogEntry>, trip: TripId)
    ensures multiset(TripEntries(es, trip)) + multiset(WithoutTrip(es, trip)) == multiset(es)
  {
    if |es| > 0 {
      TripEntriesPartition(es[..|es| - 1], trip);
      TripEntriesLast(es, trip);
      WithoutTripLast(es, trip);
      MultisetLast(es);
    }
  }

  /** A sequence's multiset is its prefix's plus its last element. */
  lemma MultisetLast(es: seq<LogEntry>)
    requires |es| > 0
    ensures multiset(es) == multiset(es[..|es| - 1]) + multiset{es[|es| - 1]}
  {
    assert es == es[..|es| - 1] + [es[|es| - 1]];
  }

  /** The last stored entry joins the trip's entries exactly when it is the trip's. */
  lemma TripEntriesLast(es: seq<LogEntry>, trip: TripId)
    requires |es| > 0
    ensures multiset(TripEntries(es, trip))
      == multiset(TripEntries(es[..|es| - 1], trip)) + if es[|es| - 1].trip == trip then multiset{es[|es| - 1]} else multiset{}
  {
  }

  /** The last stored entry survives the delete exactly when it is another trip's. */
  lemma WithoutTripLast(es: seq<LogEntry>, trip: TripId)
    requires |es| > 0
    ensures multiset(WithoutTrip(es, trip))
      == multiset(WithoutTrip(es[..|es| - 1], trip)) + if es[|es| - 1].trip != trip then multiset{es[|es| - 1]} else multiset{}
  {
  }

  /** Filtering a sequence of one trip's entries by that trip keeps it. */
  lemma {:induction false} TripEntriesOfTrip(es: seq<LogEntry>, trip: TripId)
    requires OfTrip(es, trip)
    ensures TripEntries(es, trip) == es
  {
    if |es| > 0 {
      TripEntriesOfTrip(es[..|es| - 1], trip);
      assert es[..|es| - 1] + [es[|es| - 1]] == es;
    }
  }

  /** A log of one trip has no entries of another. */
  lemma {:induction false} TripEntriesOfOtherTrip(es: seq<LogEntry>, trip: TripId, other: TripId)
    requires OfTrip(es, trip) && other != trip
    ensures TripEntries(es, other) == []
  {
    if |es| > 0 {
      TripEntriesOfOtherTrip(es[..|es| - 1], trip, other);
    }
  }

  lemma {:induction false} TripEntriesWithoutTrip(es: seq<LogEntry>, trip: TripId, other: TripId)
    ensures TripEntries(WithoutTrip(es, trip), trip) == []
    ensures other != trip ==> TripEntries(WithoutTrip(es, trip), other) == TripEntries(es, other)
  {
    if |es| > 0 {
      TripEntriesWithoutTrip(es[..|es| - 1], trip, other);
      var e := es[|es| - 1];
      TripEntriesConcat(WithoutTrip(es[..|es| - 1], trip), if e.trip != trip then [e] else [], trip);
      TripEntriesConcat(WithoutTrip(es[..|es| - 1], trip), if e.trip != trip then [e] else [], other);
    }
  }

  /** Deleting a trip's entries and inserting a log of that trip leaves the
      log as the trip's entries and every other trip's entries as they
      were. */
  lemma ReplaceTripEntries(es: seq<LogEntry>, log: seq<LogEntry>, trip: TripId)
    requires OfTrip(log, trip)
    ensures TripEntries(WithoutTrip(es, trip) + log, trip) == log
    ensures forall other :: other != trip ==> TripEntries(WithoutTrip(es, trip) + log, other) == TripEntries(es, other)
  {
    var kept := WithoutTrip(es, trip);
    TripEntriesConcat(kept, log, trip);
    TripEntriesOfTrip(log, trip);
    TripEntriesWithoutTrip(es, trip, trip);
    forall other | other != trip
      ensures TripEntries(kept + log, other) == TripEntries(es, other)
    {
      TripEntriesConcat(kept, log, other);
      TripEntriesWithoutTrip(es, trip, other);
      TripEntriesOfOtherTrip(log, trip, other);
    }
  }

  /** The dates of the fresh log run from the trip's start date to the
      drop-off date, five days later unless the trip starts at its drop-off,
      and every date in between has an entry. */
  lemma FreshLogDates(st: Store, trip: TripId, geo: Geocoder, draws: seq<DayDraw>)
    requires DrawsFor(st, trip, draws) && trip in st.trips
    ensures var t := st.trips[trip];
      var last := t.startDate + DaysSimulated(RouteOf(t));
      var log := FreshLog(st, trip, geo, draws);
      && OfTrip(log, trip)
      && (forall i :: 0 <= i < |log| ==> t.startDate <= DateOf(log[i].timestamp) <= last)
      && (forall d :: t.startDate <= d <= last ==> HasDate(log, d))
  {
    var t := st.trips[trip];
    var route := RouteOf(t);
    var log := FreshLog(st, trip, geo, draws);
    var last := t.startDate + DaysSimulated(route);
    GeneratedLogShape(trip, t.startDate, route, geo, draws);
    GeneratedLogCalendar(trip, t.startDate, route, geo, draws);
    DateOfMidnightPlus(last, 0);
    forall i | 0 <= i < |log|
      ensures t.startDate <= DateOf(log[i].timestamp) <= last
    {
      if i < |log| - 1 {
        assert log[i] == log[..|log| - 1][i];
      }
    }
  }

  /** Summarising after inserting a log of the trip raises exactly when the
      log has an entry stamped on 0001-01-01. */
  lemma InsertAndSummariseOutcome(st: Store, trip: TripId, log: seq<LogEntry>)
    requires OfTrip(log, trip)
    ensures InsertAndSummarise(Cleared(st, trip), trip, log).Success? <==> AfterFirstDate(log)
  {
    ReplaceTripEntries(st.entries, log, trip);
    CalculateDailySummaryOutcome(st.summaries, trip, log);
  }

  /** The fresh log is stamped after 0001-01-01 exactly when the trip starts
      after it. */
  lemma FreshLogAfterFirstDate(st: Store, trip: TripId, geo: Geocoder, draws: seq<DayDraw>)
    requires DrawsFor(st, trip, draws) && trip in st.trips
    ensures AfterFirstDate(FreshLog(st, trip, geo, draws)) <==> FirstDate < st.trips[trip].startDate
  {
    var t := st.trips[trip];
    var log := FreshLog(st, trip, geo, draws);
    FreshLogDates(st, trip, geo, draws);
    if t.startDate <= FirstDate {
      assert HasDate(log, t.startDate);
    }
  }

  /** The endpoint succeeds on a known trip exactly when the trip's calendar
      fits Python's dates: past the last five dates the generator's
      roll-over raises, and on 0001-01-01 the summary's step back a day
      does. */
  lemma GenerateLogsOutcome(st: Store, trip: TripId, geo: Geocoder, draws: seq<DayDraw>)
    requires DrawsFor(st, trip, draws) && trip in st.trips
    ensures GenerateLogs(st, trip, geo, draws).Success? <==> CalendarFits(st.trips[trip])
  {
    var t := st.trips[trip];
    var route := RouteOf(t);
    GeneratedLogOverflow(trip, t.startDate, route, geo, draws);
    if t.startDate + DaysSimulated(route) <= LastDate {
      GeneratedLogShape(trip, t.startDate, route, geo, draws);
      InsertAndSummariseOutcome(st, trip, FreshLog(st, trip, geo, draws));
      FreshLogAfterFirstDate(st, trip, geo, draws);
    }
  }

  /** When the calendar overflows, the writes before the exception stay: the
      trip's old entries are gone, it has a configuration, the summaries are
      as they were, other trips' entries are untouched, and the fresh log is
      stored exactly when the generator itself did not raise. */
  lemma GenerateLogsPartialWrite(st: Store, trip: TripId, geo: Geocoder, draws: seq<DayDraw>)
    requires DrawsFor(st, trip, draws) && trip in st.trips
    requires !CalendarFits(st.trips[trip])
    ensures GenerateLogs(st, trip, geo, draws).Failure?
    ensures GenerateLogs(st, trip, geo, draws).error.CalendarOverflow?
    ensures var t := st.trips[trip];
      var w := GenerateLogs(st, trip, geo, draws).error.written;
      && w.summaries == st.summaries
      && HasConfiguration(w.configurations, trip)
      && (forall other :: other != trip ==> TripEntries(w.entries, other) == TripEntries(st.entries, other))
      && TripEntries(w.entries, trip)
         == if t.startDate + DaysSimulated(RouteOf(t)) > LastDate then [] else FreshLog(st, trip, geo, draws)
  {
    var t := st.trips[trip];
    var route := RouteOf(t);
    GenerateLogsOutcome(st, trip, geo, draws);
    GeneratedLogOverflow(trip, t.startDate, route, geo, draws);
    GeneratedLogShape(trip, t.startDate, route, geo, draws);
    ReplaceTripEntries(st.entries, FreshLog(st, trip, geo, draws), trip);
    TripEntriesWithoutTrip(st.entries, trip, trip);
    forall other | other != trip
      ensures TripEntries(WithoutTrip(st.entries, trip), other) == TripEntries(st.entries, other)
    {
      TripEntriesWithoutTrip(st.entries, trip, other);
    }
  }

  /** After the endpoint runs, the trip's entries are exactly the freshly
      generated log, and every other trip's entries are as they were. */
  lemma GenerateLogsEntries(st: Store, trip: TripId, geo: Geocoder, draws: seq<DayDraw>)
    requires DrawsFor(st, trip, draws) && trip in st.trips && CalendarFits(st.trips[trip])
    ensures GenerateLogs(st, trip, geo, draws).Success?
    ensures var r := GenerateLogs(st, trip, geo, draws).value;
      && TripEntries(r.entries, trip) == FreshLog(st, trip, geo, draws)
      && forall other :: other != trip ==> TripEntries(r.entries, other) == TripEntries(st.entries, other)
  {
    var t := st.trips[trip];
    GenerateLogsOutcome(st, trip, geo, draws);
    GeneratedLogOverflow(trip, t.startDate, RouteOf(t), geo, draws);
    GeneratedLogShape(trip, t.startDate, RouteOf(t), geo, draws);
    ReplaceTripEntries(st.entries, FreshLog(st, trip, geo, draws), trip);
  }

  /** A configuration is created exactly when the trip had none; existing
      configurations are kept as they were. */
  lemma GenerateLogsConfiguration(st: Store, trip: TripId, geo: Geocoder, draws: seq<DayDraw>)
    requires DrawsFor(st, trip, draws) && trip in st.trips && CalendarFits(st.trips[trip])
    ensures GenerateLogs(st, trip, geo, draws).Success?
    ensures var r := GenerateLogs(st, trip, geo, draws).value;
      && HasConfiguration(r.configurations, trip)
      && r.configurations[..|st.configurations|] == st.configurations
      && (HasConfiguration(st.configurations, trip) ==> r.configurations == st.configurations)
      && (!HasConfiguration(st.configurations, trip) ==>
            r.configurations == st.configurations + [DefaultConfiguration(trip)])
  {
    GenerateLogsOutcome(st, trip, geo, draws);
  }

  /** Every summary the endpoint does not rewrite keeps its value: other
      trips' summaries, and the trip's own summaries for dates the fresh log
      does not reach. */
  lemma GenerateLogsKeepsSummaries(st: Store, trip: TripId, geo: Geocoder, draws: seq<DayDraw>)
    requires DrawsFor(st, trip, draws) && trip in st.trips && CalendarFits(st.trips[trip])
    ensures GenerateLogs(st, trip, geo, draws).Success?
    ensures var r := GenerateLogs(st, trip, geo, draws).value;
      var log := FreshLog(st, trip, geo, draws);
      forall k :: k in st.summaries && !(k.0 == trip && k.1 in DistinctDates(log)) ==>
        k in r.summaries && r.summaries[k] == st.summaries[k]
  {
    var t := st.trips[trip];
    var log := FreshLog(st, trip, geo, draws);
    GenerateLogsEntries(st, trip, geo, draws);
    FreshLogAfterFirstDate(st, trip, geo, draws);
    CalculateDailySummaryKeys(st.summaries, trip, log);
  }

  /** The summaries after the endpoint runs: none is ever deleted, other
      trips' are untouched, so are the trip's own for dates outside the
      fresh log, and every date of the fresh log has its summary
      computed from that date's entries of the log, with the mileage carried
      from the previous date. */
  lemma GenerateLogsSummaries(st: Store, trip: TripId, geo: Geocoder, draws: seq<DayDraw>)
    requires DrawsFor(st, trip, draws) && trip in st.trips && CalendarFits(st.trips[trip])
    ensures GenerateLogs(st, trip, geo, draws).Success?
    ensures var r := GenerateLogs(st, trip, geo, draws).value;
      var log := FreshLog(st, trip, geo, draws);
      && (forall k :: k in st.summaries ==> k in r.summaries)
      && (forall k :: k in st.summaries && k.0 != trip ==> r.summaries[k] == st.summaries[k])
      && (forall k :: k in st.summaries && k.0 == trip && k.1 !in DistinctDates(log) ==>
            r.summaries[k] == st.summaries[k])
      && (forall k :: k in r.summaries && k !in st.summaries ==> k.0 == trip && k.1 in DistinctDates(log))
      && (forall d :: d in DistinctDates(log) ==>
            (trip, d) in r.summaries
            && r.summaries[(trip, d)] == DaySummary(EntriesOn(log, d), MilesCarried(r.summaries, trip, d)))
  {
    var t := st.trips[trip];
    var log := FreshLog(st, trip, geo, draws);
    GenerateLogsEntries(st, trip, geo, draws);
    GeneratedLogShape(trip, t.startDate, RouteOf(t), geo, draws);
    FreshLogDates(st, trip, geo, draws);
    OrderByTimestampOfSorted(log);
    CalculateDailySummaryKeys(st.summaries, trip, log);
    CalculateDailySummaryValues(st.summaries, trip, log);
    GenerateLogsKeepsSummaries(st, trip, geo, draws);
  }

  /** The first date of the fresh log starts from the mileage of the trip's
      summary for the day before the start date, as stored before the
      endpoint ran: that summary is never deleted nor rewritten. */
  lemma GenerateLogsFirstMileage(st: Store, trip: TripId, geo: Geocoder, draws: seq<DayDraw>)
    requires DrawsFor(st, trip, draws) && trip in st.trips && CalendarFits(st.trips[trip])
    ensures GenerateLogs(st, trip, geo, draws).Success?
    ensures var r := GenerateLogs(st, trip, geo, draws).value;
      var start := st.trips[trip].startDate;
      && (trip, start) in r.summaries
      && MilesCarried(r.summaries, trip, start) == MilesCarried(st.summaries, trip, start)
  {
    var t := st.trips[trip];
    var log := FreshLog(st, trip, geo, draws);
    GenerateLogsDates(st, trip, geo, draws);
    assert t.startDate - 1 !in DistinctDates(log);
    GenerateLogsSummaries(st, trip, geo, draws);
  }

  /** The dates the endpoint summarises for the trip are exactly those from
      the trip's start date to the drop-off date, five days later unless the
      trip starts at its drop-off. */
  lemma GenerateLogsDates(st: Store, trip: TripId, geo: Geocoder, draws: seq<DayDraw>)
    requires DrawsFor(st, trip, draws) && trip in st.trips
    ensures var t := st.trips[trip];
      var last := t.startDate + DaysSimulated(RouteOf(t));
      var dates := DistinctDates(FreshLog(st, trip, geo, draws));
      forall d :: d in dates <==> t.startDate <= d <= last
  {
    FreshLogDates(st, trip, geo, draws);
    var t := st.trips[trip];
    var log := FreshLog(st, trip, geo, draws);
    forall d | t.startDate <= d <= t.startDate + DaysSimulated(RouteOf(t))
      ensures d in DistinctDates(log)
    {
      assert HasDate(log, d);
    }
  }
}
