/** The loop over days: the state at the top of each pass, how many days
    the generator simulates, and the properties of the whole generated log. */
module GeneratorTheorems {
  import opened Wrappers
  import opened Models
  import opened Generator
  import opened GeneratorProofs
  import opened GeneratorRun

  /** The facts about the draws the run needs: every day the loop can reach
      has durations in range and three intermediate cities. */
  predicate RunDraws(draws: seq<DayDraw>, route: Route, cities: seq<string>) {
    && |draws| >= MaxDays
    && forall k :: 0 <= k < MaxDays ==> DurationsInRange(draws[k]) && DrawsIntermediate(draws[k], route, cities)
  }

  /** Draws the intermediate-location sampler can produce only ever name
      intermediate cities of the pool. */
  lemma ValidDrawsRun(route: Route, draws: seq<DayDraw>)
    requires ValidDraws(route, draws)
    ensures RunDraws(draws, route, Cities)
  {
    forall k | 0 <= k < MaxDays
      ensures DurationsInRange(draws[k]) && DrawsIntermediate(draws[k], route, Cities)
    {
      var current := LocationBefore(route, draws, k);
      assert ValidDraw(draws[k], current, route);
      AdmissibleIsIntermediate(draws[k].fuelStop, current, route);
      AdmissibleIsIntermediate(draws[k].sleeperBerth, current, route);
      AdmissibleIsIntermediate(draws[k].endOfDay, current, route);
    }
  }

  /** The state at the top of the loop after `s.dayCount` simulated days:
      the log invariant, the clock at midnight of the next date, the
      location the last day ended at (never the drop-off once a day has
      run), nothing driven, nine or ten entries per day, every entry
      stamped on one of the dates simulated so far, and each of those dates
      with an entry stamped on it. */
  ghost predicate RunInv(s: GenState, trip: TripId, startDate: Date, route: Route, cities: seq<string>, geo: Geocoder, draws: seq<DayDraw>) {
    && Inv(s, trip, geo, route, cities)
    && |draws| >= MaxDays && s.dayCount <= MaxDays
    && s.time == Midnight(startDate + s.dayCount)
    && s.location == LocationBefore(route, draws, s.dayCount)
    && (s.dayCount > 0 ==> s.location != route.dropoff)
    && s.driving == 0
    && 9 * s.dayCount <= |s.log| <= 10 * s.dayCount
    && DatedWithin(s.log, startDate, startDate + s.dayCount)
    && forall k :: startDate <= k < startDate + s.dayCount ==> HasDate(s.log, k)
  }

  lemma InitialRunInv(trip: TripId, startDate: Date, route: Route, cities: seq<string>, geo: Geocoder, draws: seq<DayDraw>)
    requires |draws| >= MaxDays
    ensures RunInv(InitialState(startDate, route), trip, startDate, route, cities, geo, draws)
  {
  }

  /** A day that appends entries stamped on `day` to a log that covers every
      date from `startDate` up to `day` covers `day` too. */
  lemma CoveredNext(s: seq<LogEntry>, r: seq<LogEntry>, startDate: Date, day: Date)
    requires |s| < |r| && r[..|s|] == s
    requires DatedWithin(r[|s|..], day, day + 1)
    requires forall k :: startDate <= k < day ==> HasDate(s, k)
    ensures forall k :: startDate <= k < day + 1 ==> HasDate(r, k)
  {
    forall k | startDate <= k < day + 1
      ensures HasDate(r, k)
    {
      if k < day {
        HasDatePrefix(r, |s|, k);
      } else {
        assert r[|s|..][0] == r[|s|];
      }
    }
  }

  /** A state that a day's effect leads to from the top of the loop is again
      at the top of the loop, one day further. */
  lemma RunInvNext(s: GenState, r: GenState, trip: TripId, startDate: Date, route: Route, cities: seq<string>, geo: Geocoder, draws: seq<DayDraw>)
    requires RunInv(s, trip, startDate, route, cities, geo, draws) && RunDraws(draws, route, cities)
    requires s.dayCount < MaxDays
    requires DayEffect(s, r, trip, geo, route, cities, draws[s.dayCount], startDate + s.dayCount)
    ensures RunInv(r, trip, startDate, route, cities, geo, draws)
  {
    assert r.location == LocationBefore(route, draws, r.dayCount);
    DatedWithinExtend(r.log, |s.log|, startDate, startDate + s.dayCount);
    CoveredNext(s.log, r.log, startDate, startDate + s.dayCount);
  }

  /** One pass of the loop body keeps the run invariant. */
  lemma RunStep(s: GenState, trip: TripId, startDate: Date, route: Route, cities: seq<string>, geo: Geocoder, draws: seq<DayDraw>)
    requires RunInv(s, trip, startDate, route, cities, geo, draws) && RunDraws(draws, route, cities)
    requires s.dayCount < MaxDays
    ensures RunInv(SimulateDay(s, trip, route, geo, draws[s.dayCount]), trip, startDate, route, cities, geo, draws)
  {
    var d := draws[s.dayCount];
    DayStep(s, trip, route, cities, geo, d, startDate + s.dayCount);
    RunInvNext(s, SimulateDay(s, trip, route, geo, d), trip, startDate, route, cities, geo, draws);
  }

  /** The loop keeps the run invariant. */
  lemma {:induction false} RunDaysKeeps(s: GenState, trip: TripId, startDate: Date, route: Route, cities: seq<string>, geo: Geocoder, draws: seq<DayDraw>)
    requires RunInv(s, trip, startDate, route, cities, geo, draws) && RunDraws(draws, route, cities)
    ensures RunInv(RunDays(s, trip, route, geo, draws), trip, startDate, route, cities, geo, draws)
    decreases MaxDays - s.dayCount
  {
    if s.location != route.dropoff && s.dayCount < MaxDays {
      RunStep(s, trip, startDate, route, cities, geo, draws);
      RunDaysKeeps(SimulateDay(s, trip, route, geo, draws[s.dayCount]), trip, startDate, route, cities, geo, draws);
    }
  }

  /** How many days the generator simulates: none when the trip starts at
      its drop-off, otherwise always the full five, because every day ends at
      an intermediate city and so never at the drop-off. */
  function DaysSimulated(route: Route): nat {
    if route.start == route.dropoff then 0 else MaxDays
  }

  /** The state the loop exits with. */
  lemma RunDaysResult(trip: TripId, startDate: Date, route: Route, cities: seq<string>, geo: Geocoder, draws: seq<DayDraw>)
    requires RunDraws(draws, route, cities)
    ensures var r := RunDays(InitialState(startDate, route), trip, route, geo, draws);
      && RunInv(r, trip, startDate, route, cities, geo, draws)
      && r.dayCount == DaysSimulated(route)
  {
    var s := InitialState(startDate, route);
    InitialRunInv(trip, startDate, route, cities, geo, draws);
    RunDaysKeeps(s, trip, startDate, route, cities, geo, draws);
  }

  /** The generated log keeps the log invariant: it is in time order, belongs
      to the trip, logs driving en route at the previous entry's position,
      carries the coordinates of the places it names, stops only at
      intermediate cities of the pool, and has one start-of-day entry per
      simulated day. */
  lemma GeneratedLogShape(trip: TripId, startDate: Date, route: Route, geo: Geocoder, draws: seq<DayDraw>)
    requires ValidDraws(route, draws)
    ensures var r := GenerateDummyLogs(trip, startDate, route, geo, draws);
      && Sorted(r) && OfTrip(r, trip) && DrivesEnRoute(r)
      && Geocoded(r, geo, route) && StopsIntermediate(r, route, Cities)
      && CountRemark(r, StartOfDay) == DaysSimulated(route)
  {
    ValidDrawsRun(route, draws);
    RunDaysResult(trip, startDate, route, Cities, geo, draws);
    var s := RunDays(InitialState(startDate, route), trip, route, geo, draws);
    RemarkFacts();
    EmitKeeps(s, trip, geo, route, Cities, OnDuty, route.dropoff, Dropoff, geo(route.dropoff));
  }

  /** The generated log on the calendar: nine or ten entries per simulated
      day plus the drop-off, every other entry stamped on one of the
      simulated dates, the drop-off stamped at midnight after the last
      simulated day, and every date from the start date to the drop-off's
      with an entry stamped on it. */
  lemma GeneratedLogCalendar(trip: TripId, startDate: Date, route: Route, geo: Geocoder, draws: seq<DayDraw>)
    requires ValidDraws(route, draws)
    ensures var r := GenerateDummyLogs(trip, startDate, route, geo, draws);
      && 9 * DaysSimulated(route) + 1 <= |r| <= 10 * DaysSimulated(route) + 1
      && DatedWithin(r[..|r| - 1], startDate, startDate + DaysSimulated(route))
      && r[|r| - 1].timestamp == Midnight(startDate + DaysSimulated(route))
      && forall k :: startDate <= k <= startDate + DaysSimulated(route) ==> HasDate(r, k)
  {
    ValidDrawsRun(route, draws);
    RunDaysResult(trip, startDate, route, Cities, geo, draws);
    var s := RunDays(InitialState(startDate, route), trip, route, geo, draws);
    var r := GenerateDummyLogs(trip, startDate, route, geo, draws);
    var last := startDate + DaysSimulated(route);
    assert r[..|r| - 1] == s.log;
    forall k | startDate <= k <= last
      ensures HasDate(r, k)
    {
      if k < last {
        HasDatePrefix(r, |r| - 1, k);
      } else {
        DateOfMidnightPlus(last, 0);
      }
    }
  }

  /** The calendar ceiling: the generator raises exactly when its last
      roll-over would pass 9999-12-31, that is when the trip is not at its
      drop-off and its start date is one of the last five dates Python can
      hold. */
  lemma GeneratedLogOverflow(trip: TripId, startDate: Date, route: Route, geo: Geocoder, draws: seq<DayDraw>)
    requires ValidDraws(route, draws)
    ensures GenerateDummyLogsChecked(trip, startDate, route, geo, draws).Failure?
            <==> startDate + DaysSimulated(route) > LastDate
  {
    GeneratedLogCalendar(trip, startDate, route, geo, draws);
    DateOfMidnightPlus(startDate + DaysSimulated(route), 0);
  }

  /** The intermediate-location draw always has a city to land on: at most
      four labels are excluded, and the first five cities of the pool are
      pairwise different, so one of them is admissible whatever the trip. */
  lemma AdmissibleCityExists(current: string, route: Route)
    ensures exists k :: 0 <= k < 5 && Admissible(Cities[k], current, route)
  {
    if !Excluded(Cities[0], current, route) {
      assert Admissible(Cities[0], current, route);
    } else if !Excluded(Cities[1], current, route) {
      assert Admissible(Cities[1], current, route);
    } else if !Excluded(Cities[2], current, route) {
      assert Admissible(Cities[2], current, route);
    } else if !Excluded(Cities[3], current, route) {
      assert Admissible(Cities[3], current, route);
    } else if !Excluded(Cities[4], current, route) {
      assert Admissible(Cities[4], current, route);
    } else {
      assert false;
    }
  }

  /** Hence some single pick of the pool ends the resampling loop. */
  lemma ResampleCanStop(current: string, route: Route)
    ensures exists k :: 0 <= k < |Cities| && ResampleIntermediate([k], current, route) == Some(Cities[k])
  {
    AdmissibleCityExists(current, route);
    var k :| 0 <= k < 5 && Admissible(Cities[k], current, route);
    assert ResampleIntermediate([k], current, route) == Some(Cities[k]);
  }

  /** A trip that starts at its drop-off simulates no day: the log is the
      drop-off entry alone, stamped at midnight of the start date. */
  lemma StartAtDropoff(trip: TripId, startDate: Date, route: Route, geo: Geocoder, draws: seq<DayDraw>)
    requires ValidDraws(route, draws) && route.start == route.dropoff
    ensures var r := GenerateDummyLogs(trip, startDate, route, geo, draws);
      && |r| == 1 && r[0].timestamp == Midnight(startDate)
      && r[0].dutyStatus == OnDuty && r[0].location == route.dropoff && r[0].remarks == Dropoff
  {
    GeneratedLogCalendar(trip, startDate, route, geo, draws);
  }
}
