/** The daily-summary aggregator (`calculate_daily_summary` in
    trucker_logbook/views.py).

    The trip's entries are read in timestamp order and grouped by calendar
    date.  Within a date, the time between two consecutive entries is booked
    to the duty status of the earlier one, and every such pair that starts
    with a driving entry adds a flat 100 miles to the mileage carried forward
    from the previous date's stored summary.  One summary per date is then
    written over whatever the store held for that trip and date.

    Hours are exact reals: seconds divided by 3600. */
module Summary {
  import opened Wrappers
  import opened Models

  /** The placeholder mileage booked for every interval that starts driving. */
  const MilesPerDrivingPair: real := 100.0

  /** The summary store, keyed by trip and date. */
  type Summaries = map<(TripId, Date), DailySummary>

  // ---------------------------------------------------------------------------
  // One date's entries.

  /** The hours from one entry to the next (`total_seconds() / 3600`). */
  function HoursBetween(a: LogEntry, b: LogEntry): real {
    (b.timestamp - a.timestamp) as real / SecondsPerHour as real
  }

  /** The hours booked to `status`: the length of every interval between
      consecutive entries whose earlier entry has that status. */
  function HoursIn(es: seq<LogEntry>, status: DutyStatus): real
    decreases |es|
  {
    if |es| < 2 then 0.0
    else (if es[0].dutyStatus == status then HoursBetween(es[0], es[1]) else 0.0) + HoursIn(es[1..], status)
  }

  /** How many intervals between consecutive entries start with driving. */
  function DrivingPairs(es: seq<LogEntry>): nat
    decreases |es|
  {
    if |es| < 2 then 0
    else (if es[0].dutyStatus == Driving then 1 else 0) + DrivingPairs(es[1..])
  }

  /** What the summary of a date holds, given its entries in order and the
      miles carried over from the previous date. */
  function DaySummary(es: seq<LogEntry>, carried: real): DailySummary {
    var driving := HoursIn(es, Driving);
    var onDuty := HoursIn(es, OnDuty);
    DailySummary(
      carried + MilesPerDrivingPair * DrivingPairs(es) as real,
      HoursIn(es, OffDuty), HoursIn(es, SleeperBerth), driving, onDuty,
      driving + onDuty)
  }

  /** Appending an entry books one more interval, to the previous last
      entry's status. */
  lemma {:induction false} HoursInSnoc(es: seq<LogEntry>, e: LogEntry, status: DutyStatus)
    requires |es| > 0
    ensures HoursIn(es + [e], status)
         == HoursIn(es, status) + (if es[|es| - 1].dutyStatus == status then HoursBetween(es[|es| - 1], e) else 0.0)
  {
    if |es| > 1 {
      assert (es + [e])[1..] == es[1..] + [e];
      HoursInSnoc(es[1..], e, status);
    }
  }

  lemma {:induction false} DrivingPairsSnoc(es: seq<LogEntry>, e: LogEntry)
    requires |es| > 0
    ensures DrivingPairs(es + [e]) == DrivingPairs(es) + (if es[|es| - 1].dutyStatus == Driving then 1 else 0)
  {
    if |es| > 1 {
      assert (es + [e])[1..] == es[1..] + [e];
      DrivingPairsSnoc(es[1..], e);
    }
  }

  /** The loop over one date's entries: from the second entry on, the hours
      since the previous entry go to the previous entry's bucket, and a
      previous driving entry adds the flat mileage. */
  method TallyDay(es: seq<LogEntry>, carried: real) returns (summary: DailySummary)
    ensures summary == DaySummary(es, carried)
  {
    var miles, offDuty, sleeper, driving, onDuty := carried, 0.0, 0.0, 0.0, 0.0;
    var i := 0;
    while i < |es|
      invariant 0 <= i <= |es|
      invariant miles == carried + MilesPerDrivingPair * DrivingPairs(es[..i]) as real
      invariant offDuty == HoursIn(es[..i], OffDuty)
      invariant sleeper == HoursIn(es[..i], SleeperBerth)
      invariant driving == HoursIn(es[..i], Driving)
      invariant onDuty == HoursIn(es[..i], OnDuty)
    {
      if i > 0 {
        var previous := es[i - 1];
        var hours := HoursBetween(previous, es[i]);
        match previous.dutyStatus {
          case OffDuty => offDuty := offDuty + hours;
          case SleeperBerth => sleeper := sleeper + hours;
          case Driving =>
            driving := driving + hours;
            miles := miles + MilesPerDrivingPair;
          case OnDuty => onDuty := onDuty + hours;
        }
        assert es[..i + 1] == es[..i] + [es[i]];
        HoursInSnoc(es[..i], es[i], OffDuty);
        HoursInSnoc(es[..i], es[i], SleeperBerth);
        HoursInSnoc(es[..i], es[i], Driving);
        HoursInSnoc(es[..i], es[i], OnDuty);
        DrivingPairsSnoc(es[..i], es[i]);
      }
      i := i + 1;
    }
    assert es[..|es|] == es;
    summary := DailySummary(miles, offDuty, sleeper, driving, onDuty, driving + onDuty);
  }

  /** The four buckets together cover the date from its first entry to its
      last: the intervals telescope. */
  lemma {:induction false} HoursTelescope(es: seq<LogEntry>)
    requires |es| > 0
    ensures HoursIn(es, OffDuty) + HoursIn(es, SleeperBerth) + HoursIn(es, Driving) + HoursIn(es, OnDuty)
         == HoursBetween(es[0], es[|es| - 1])
  {
    if |es| > 1 {
      HoursTelescope(es[1..]);
    }
  }

  /** In timestamp order no bucket is negative. */
  lemma {:induction false} HoursNonNegative(es: seq<LogEntry>, status: DutyStatus)
    requires Sorted(es)
    ensures HoursIn(es, status) >= 0.0
  {
    if |es| > 1 {
      HoursNonNegative(es[1..], status);
    }
  }

  /** The mileage depends on the statuses alone, not on how long anything
      took. */
  lemma {:induction false} DrivingPairsByStatuses(a: seq<LogEntry>, b: seq<LogEntry>)
    requires Statuses(a) == Statuses(b)
    ensures DrivingPairs(a) == DrivingPairs(b)
  {
    if |a| > 1 {
      assert a[0].dutyStatus == Statuses(a)[0] == Statuses(b)[0] == b[0].dutyStatus;
      assert Statuses(a[1..]) == Statuses(a)[1..];
      assert Statuses(b[1..]) == Statuses(b)[1..];
      DrivingPairsByStatuses(a[1..], b[1..]);
    }
  }

  // ---------------------------------------------------------------------------
  // Reading the trip's entries in timestamp order.

  /** Insert an entry after every entry stamped no later than it. */
  function InsertByTime(s: seq<LogEntry>, e: LogEntry): (r: seq<LogEntry>)
    ensures multiset(r) == multiset(s) + multiset{e}
    ensures |r| == |s| + 1
  {
    if |s| == 0 || s[|s| - 1].timestamp <= e.timestamp then s + [e]
    else
      assert s == s[..|s| - 1] + [s[|s| - 1]];
      InsertByTime(s[..|s| - 1], e) + [s[|s| - 1]]
  }

  /** `order_by("timestamp")`, with entries stamped at the same second kept
      in the order they were stored. */
  function OrderByTimestamp(es: seq<LogEntry>): (r: seq<LogEntry>)
    ensures multiset(r) == multiset(es)
    ensures |r| == |es|
  {
    if |es| == 0 then []
    else
      assert es == es[..|es| - 1] + [es[|es| - 1]];
      InsertByTime(OrderByTimestamp(es[..|es| - 1]), es[|es| - 1])
  }

  lemma {:induction false} InsertSorted(s: seq<LogEntry>, e: LogEntry)
    requires Sorted(s)
    ensures Sorted(InsertByTime(s, e))
  {
    if |s| > 0 && s[|s| - 1].timestamp > e.timestamp {
      var init := s[..|s| - 1];
      var last := s[|s| - 1];
      InsertSorted(init, e);
      var r := InsertByTime(init, e);
      forall x | x in r
        ensures x.timestamp <= last.timestamp
      {
        assert x in multiset(r);
        assert x in multiset(init) || x == e;
        if x != e {
          var k :| 0 <= k < |init| && init[k] == x;
          assert s[k] == x;
        }
      }
      assert forall i :: 0 <= i < |r| ==> r[i] in r;
    }
  }

  /** The entries come back in timestamp order. */
  lemma {:induction false} OrderByTimestampSorted(es: seq<LogEntry>)
    ensures Sorted(OrderByTimestamp(es))
  {
    if |es| > 0 {
      OrderByTimestampSorted(es[..|es| - 1]);
      InsertSorted(OrderByTimestamp(es[..|es| - 1]), es[|es| - 1]);
    }
  }

  /** Entries already in timestamp order come back unchanged. */
  lemma {:induction false} OrderByTimestampOfSorted(es: seq<LogEntry>)
    requires Sorted(es)
    ensures OrderByTimestamp(es) == es
  {
    if |es| > 0 {
      var init := es[..|es| - 1];
      SortedInit(es);
      OrderByTimestampOfSorted(init);
      InsertLatest(init, es[|es| - 1]);
      assert init + [es[|es| - 1]] == es;
    }
  }

  /** Dropping the last entry keeps timestamp order, and the entry left last
      is no later than the one dropped. */
  lemma SortedInit(es: seq<LogEntry>)
    requires Sorted(es) && |es| > 0
    ensures Sorted(es[..|es| - 1])
    ensures |es| > 1 ==> es[..|es| - 1][|es| - 2].timestamp <= es[|es| - 1].timestamp
  {
    var init := es[..|es| - 1];
    forall i, j | 0 <= i < j < |init|
      ensures init[i].timestamp <= init[j].timestamp
    {
      assert init[i] == es[i] && init[j] == es[j];
    }
  }

  /** An entry no earlier than the last one goes at the end. */
  lemma InsertLatest(s: seq<LogEntry>, e: LogEntry)
    requires |s| == 0 || s[|s| - 1].timestamp <= e.timestamp
    ensures InsertByTime(s, e) == s + [e]
  {
  }

  // ---------------------------------------------------------------------------
  // Grouping by calendar date.

  /** The dates of the entries, each once, in order of first appearance (the
      keys of the `daily_logs` dictionary). */
  function DistinctDates(es: seq<LogEntry>): (ds: seq<Date>)
    ensures forall d :: d in ds <==> exists i :: 0 <= i < |es| && DateOf(es[i].timestamp) == d
  {
    if |es| == 0 then []
    else
      var ds := DistinctDates(es[..|es| - 1]);
      var d := DateOf(es[|es| - 1].timestamp);
      if d in ds then ds else ds + [d]
  }

  /** The entries of one date, in order (the lists of `daily_logs`). */
  function EntriesOn(es: seq<LogEntry>, d: Date): (r: seq<LogEntry>)
    ensures forall i :: 0 <= i < |r| ==> DateOf(r[i].timestamp) == d
    ensures forall i :: 0 <= i < |r| ==> r[i] in es
  {
    if |es| == 0 then []
    else EntriesOn(es[..|es| - 1], d) + (if DateOf(es[|es| - 1].timestamp) == d then [es[|es| - 1]] else [])
  }

  /** A date's group holds every entry of that date, as often as it occurs
      among the entries, and nothing else. */
  lemma {:induction false} EntriesOnContents(es: seq<LogEntry>, d: Date)
    ensures forall e :: multiset(EntriesOn(es, d))[e] == if DateOf(e.timestamp) == d then multiset(es)[e] else 0
    ensures forall i :: 0 <= i < |es| && DateOf(es[i].timestamp) == d ==> es[i] in EntriesOn(es, d)
  {
    if |es| > 0 {
      var init := es[..|es| - 1];
      EntriesOnContents(init, d);
      assert es == init + [es[|es| - 1]];
      var r := EntriesOn(es, d);
      forall i | 0 <= i < |es| && DateOf(es[i].timestamp) == d
        ensures es[i] in r
      {
        assert multiset(r)[es[i]] == multiset(es)[es[i]];
      }
    }
  }

  /** A date has entries exactly when it is among the distinct dates. */
  lemma {:induction false} EntriesOnPresent(es: seq<LogEntry>, d: Date)
    ensures |EntriesOn(es, d)| > 0 <==> d in DistinctDates(es)
  {
    if |es| > 0 {
      var init := es[..|es| - 1];
      EntriesOnPresent(init, d);
      if d in DistinctDates(init) {
        var i :| 0 <= i < |init| && DateOf(init[i].timestamp) == d;
        assert es[i] == init[i];
      }
      if d in DistinctDates(es) && DateOf(es[|es| - 1].timestamp) != d {
        var i :| 0 <= i < |es| && DateOf(es[i].timestamp) == d;
        assert init[i] == es[i];
      }
    }
  }

  /** Reordering the entries does not change which dates occur. */
  lemma DistinctDatesPermutation(a: seq<LogEntry>, b: seq<LogEntry>)
    requires multiset(a) == multiset(b)
    ensures forall d :: d in DistinctDates(a) <==> d in DistinctDates(b)
  {
    forall d | d in DistinctDates(a)
      ensures d in DistinctDates(b)
    {
      var i :| 0 <= i < |a| && DateOf(a[i].timestamp) == d;
      assert a[i] in multiset(b);
      var j :| 0 <= j < |b| && b[j] == a[i];
    }
    forall d | d in DistinctDates(b)
      ensures d in DistinctDates(a)
    {
      var j :| 0 <= j < |b| && DateOf(b[j].timestamp) == d;
      assert b[j] in multiset(a);
      var i :| 0 <= i < |a| && a[i] == b[j];
    }
  }

  /** Strictly increasing. */
  predicate Increasing(ds: seq<Date>) {
    forall i, j :: 0 <= i < j < |ds| ==> ds[i] < ds[j]
  }

  lemma DateOfMonotone(s: Timestamp, t: Timestamp)
    requires s <= t
    ensures DateOf(s) <= DateOf(t)
  {
    NextMidnightIsLater(s);
    NextMidnightIsLater(t);
  }

  /** For entries in timestamp order, the dates come out in increasing
      order. */
  lemma {:induction false} DistinctDatesIncreasing(es: seq<LogEntry>)
    requires Sorted(es)
    ensures Increasing(DistinctDates(es))
  {
    if |es| > 0 {
      var init := es[..|es| - 1];
      DistinctDatesIncreasing(init);
      var ds := DistinctDates(init);
      var d := DateOf(es[|es| - 1].timestamp);
      forall k | 0 <= k < |ds|
        ensures ds[k] <= d
      {
        assert ds[k] in ds;
        var i :| 0 <= i < |init| && DateOf(init[i].timestamp) == ds[k];
        DateOfMonotone(init[i].timestamp, es[|es| - 1].timestamp);
      }
      if d !in ds {
        assert forall k :: 0 <= k < |ds| ==> ds[k] != d;
        assert DistinctDates(es) == ds + [d];
      }
    }
  }

  /** A date's entries of a log in timestamp order are in timestamp order. */
  lemma {:induction false} EntriesOnSorted(es: seq<LogEntry>, d: Date)
    requires Sorted(es)
    ensures Sorted(EntriesOn(es, d))
  {
    if |es| > 0 {
      var init := es[..|es| - 1];
      EntriesOnSorted(init, d);
      var r := EntriesOn(init, d);
      forall i | 0 <= i < |r|
        ensures r[i].timestamp <= es[|es| - 1].timestamp
      {
        var k :| 0 <= k < |init| && init[k] == r[i];
        assert es[k] == r[i];
      }
    }
  }

  // ---------------------------------------------------------------------------
  // Writing the summaries.

  /** The mileage a date starts from: the stored summary of the previous
      date, or nothing. */
  function MilesCarried(m: Summaries, trip: TripId, d: Date): real {
    if (trip, d - 1) in m then m[(trip, d - 1)].totalMilesDriving else 0.0
  }

  /** The loop over dates: each date's summary is computed with the mileage
      of the store as written so far, then stored over any earlier one. */
  function SummarizeDates(m: Summaries, trip: TripId, es: seq<LogEntry>, dates: seq<Date>): Summaries
    decreases |dates|
  {
    if |dates| == 0 then m
    else
      var d := dates[0];
      SummarizeDates(m[(trip, d) := DaySummary(EntriesOn(es, d), MilesCarried(m, trip, d))], trip, es, dates[1..])
  }

  /** `calculate_daily_summary`: `entries` are the trip's stored entries, in
      any order.  Looking up the previous date's summary steps back a day,
      which raises `OverflowError` for 0001-01-01.  The dates are visited in
      increasing order, so such a date is the first one visited, and the
      exception leaves before any summary is written. */
  function CalculateDailySummary(m: Summaries, trip: TripId, entries: seq<LogEntry>): Result<Summaries, CalendarError> {
    var sorted := OrderByTimestamp(entries);
    if |sorted| == 0 then Success(m)
    else
      var dates := DistinctDates(sorted);
      assert DateOf(sorted[0].timestamp) in dates;
      if dates[0] - 1 < FirstDate then Failure(DateOverflow)
      else Success(SummarizeDates(m, trip, sorted, dates))
  }

  /** Every entry is stamped after 0001-01-01, so its date has a previous
      date Python can hold. */
  ghost predicate AfterFirstDate(es: seq<LogEntry>) {
    forall i :: 0 <= i < |es| ==> FirstDate < DateOf(es[i].timestamp)
  }

  /** The loop over increasing dates writes one summary per date, leaves
      every other key alone, and each date's summary carries forward the
      mileage of the previous date as the final store holds it: the summary
      just written when that date was processed too, the stored one
      otherwise. */
  lemma {:induction false} SummarizeDatesFacts(m: Summaries, trip: TripId, es: seq<LogEntry>, dates: seq<Date>)
    requires Increasing(dates)
    ensures var r := SummarizeDates(m, trip, es, dates);
      && (forall k :: k in r <==> k in m || (k.0 == trip && k.1 in dates))
      && (forall k :: k in m && !(k.0 == trip && k.1 in dates) ==> r[k] == m[k])
      && (forall d :: d in dates ==> r[(trip, d)] == DaySummary(EntriesOn(es, d), MilesCarried(r, trip, d)))
    decreases |dates|
  {
    if |dates| > 0 {
      var d0 := dates[0];
      var m1 := m[(trip, d0) := DaySummary(EntriesOn(es, d0), MilesCarried(m, trip, d0))];
      var rest := dates[1..];
      assert Increasing(rest);
      SummarizeDatesFacts(m1, trip, es, rest);
      var r := SummarizeDates(m1, trip, es, rest);
      assert d0 !in rest && d0 - 1 !in rest;
      assert r[(trip, d0)] == m1[(trip, d0)];
      var previous := (trip, d0 - 1);
      assert previous in r <==> previous in m;
      if previous in m {
        assert r[previous] == m1[previous] == m[previous];
      }
      assert MilesCarried(r, trip, d0) == MilesCarried(m, trip, d0);
    }
  }

  /** For entries in timestamp order, the first distinct date is the
      earliest. */
  lemma LeastDistinctDate(es: seq<LogEntry>)
    requires Sorted(es) && |es| > 0
    ensures var dates := DistinctDates(es);
      && |dates| > 0
      && forall i :: 0 <= i < |es| ==> dates[0] <= DateOf(es[i].timestamp)
  {
    var dates := DistinctDates(es);
    DistinctDatesIncreasing(es);
    assert DateOf(es[0].timestamp) in dates;
    forall i | 0 <= i < |es|
      ensures dates[0] <= DateOf(es[i].timestamp)
    {
      var x := DateOf(es[i].timestamp);
      assert x in dates;
      var k :| 0 <= k < |dates| && dates[k] == x;
      assert dates[0] <= dates[k];
    }
  }

  /** The first date the loop visits is the earliest date of any entry. */
  lemma FirstVisitedDate(entries: seq<LogEntry>)
    requires |entries| > 0
    ensures var dates := DistinctDates(OrderByTimestamp(entries));
      && |dates| > 0 && dates[0] in DistinctDates(entries)
      && forall i :: 0 <= i < |entries| ==> dates[0] <= DateOf(entries[i].timestamp)
  {
    var sorted := OrderByTimestamp(entries);
    var dates := DistinctDates(sorted);
    OrderByTimestampSorted(entries);
    LeastDistinctDate(sorted);
    DistinctDatesPermutation(entries, sorted);
    forall i | 0 <= i < |entries|
      ensures dates[0] <= DateOf(entries[i].timestamp)
    {
      assert entries[i] in multiset(sorted);
      var j :| 0 <= j < |sorted| && sorted[j] == entries[i];
    }
  }

  /** When `calculate_daily_summary` raises: exactly when some entry is
      stamped on 0001-01-01 (or earlier); with no entries it never does and
      leaves the store as it was. */
  lemma CalculateDailySummaryOutcome(m: Summaries, trip: TripId, entries: seq<LogEntry>)
    ensures CalculateDailySummary(m, trip, entries).Failure? <==> !AfterFirstDate(entries)
    ensures |entries| == 0 ==> CalculateDailySummary(m, trip, entries) == Success(m)
  {
    if |entries| > 0 {
      FirstVisitedDate(entries);
      var dates := DistinctDates(OrderByTimestamp(entries));
      if AfterFirstDate(entries) {
        var i :| 0 <= i < |entries| && DateOf(entries[i].timestamp) == dates[0];
      }
    }
  }

  /** Which summaries `calculate_daily_summary` writes: exactly one per
      calendar date among the entries (an existing one overwritten), and
      every other summary is left alone. */
  lemma CalculateDailySummaryKeys(m: Summaries, trip: TripId, entries: seq<LogEntry>)
    requires AfterFirstDate(entries)
    ensures CalculateDailySummary(m, trip, entries).Success?
    ensures var r := CalculateDailySummary(m, trip, entries).value;
      && (forall k :: k in r <==> k in m || (k.0 == trip && k.1 in DistinctDates(entries)))
      && (forall k :: k in m && !(k.0 == trip && k.1 in DistinctDates(entries)) ==> r[k] == m[k])
  {
    CalculateDailySummaryOutcome(m, trip, entries);
    var sorted := OrderByTimestamp(entries);
    OrderByTimestampSorted(entries);
    DistinctDatesIncreasing(sorted);
    DistinctDatesPermutation(entries, sorted);
    if |sorted| > 0 {
      SummarizeDatesFacts(m, trip, sorted, DistinctDates(sorted));
    }
  }

  /** What `calculate_daily_summary` writes: each date's summary holds that
      date's buckets, in timestamp order, and the mileage carried from the
      previous date's final summary. */
  lemma CalculateDailySummaryValues(m: Summaries, trip: TripId, entries: seq<LogEntry>)
    requires AfterFirstDate(entries)
    ensures CalculateDailySummary(m, trip, entries).Success?
    ensures var r := CalculateDailySummary(m, trip, entries).value;
      forall d :: d in DistinctDates(entries) ==>
        && (trip, d) in r
        && r[(trip, d)] == DaySummary(EntriesOn(OrderByTimestamp(entries), d), MilesCarried(r, trip, d))
  {
    CalculateDailySummaryOutcome(m, trip, entries);
    CalculateDailySummaryKeys(m, trip, entries);
    var sorted := OrderByTimestamp(entries);
    OrderByTimestampSorted(entries);
    DistinctDatesIncreasing(sorted);
    DistinctDatesPermutation(entries, sorted);
    if |sorted| > 0 {
      SummarizeDatesFacts(m, trip, sorted, DistinctDates(sorted));
    }
  }

  /** A date's summary from entries in timestamp order: no bucket is
      negative, the buckets together span the date from its first entry to
      its last, and lines 3 and 4 are the driving plus the on-duty hours. */
  lemma DaySummaryHours(es: seq<LogEntry>, carried: real)
    requires Sorted(es) && |es| > 0
    ensures var s := DaySummary(es, carried);
      && s.totalOffDutyHours >= 0.0 && s.totalSleeperBerthHours >= 0.0
      && s.totalDrivingHours >= 0.0 && s.totalOnDutyHours >= 0.0
      && s.totalOffDutyHours + s.totalSleeperBerthHours + s.totalDrivingHours + s.totalOnDutyHours
         == HoursBetween(es[0], es[|es| - 1])
      && s.totalLines34 == s.totalDrivingHours + s.totalOnDutyHours
  {
    HoursNonNegative(es, OffDuty);
    HoursNonNegative(es, SleeperBerth);
    HoursNonNegative(es, Driving);
    HoursNonNegative(es, OnDuty);
    HoursTelescope(es);
  }

  /** Every date among the entries gets a summary built from a non-empty,
      timestamp-ordered run of that date's entries. */
  lemma WrittenSummaryHours(m: Summaries, trip: TripId, entries: seq<LogEntry>, d: Date)
    requires AfterFirstDate(entries) && d in DistinctDates(entries)
    ensures CalculateDailySummary(m, trip, entries).Success?
    ensures (trip, d) in CalculateDailySummary(m, trip, entries).value
    ensures var r := CalculateDailySummary(m, trip, entries).value;
      var day := EntriesOn(OrderByTimestamp(entries), d);
      && |day| > 0 && Sorted(day)
      && r[(trip, d)] == DaySummary(day, MilesCarried(r, trip, d))
  {
    CalculateDailySummaryValues(m, trip, entries);
    var sorted := OrderByTimestamp(entries);
    DistinctDatesPermutation(entries, sorted);
    OrderByTimestampSorted(entries);
    EntriesOnSorted(sorted, d);
    EntriesOnPresent(sorted, d);
  }
}
