/** Properties of the whole generated log, proved as an invariant of the
    generator's state that every appended entry keeps: time order, the trip,
    where driving is logged, which coordinates each entry carries, that every
    drawn stop is at an intermediate city, and one start-of-day entry per
    simulated day.  One simulated day is then a step that keeps the invariant
    and stamps every entry it appends on the date it started. */
module GeneratorRun {
  import opened Wrappers
  import opened Models
  import opened Generator
  import opened GeneratorProofs

  // ---------------------------------------------------------------------------
  // Facts about a log.

  /** The coordinates an entry carries are those of the lookup `c`. */
  ghost predicate CoordsFrom(e: LogEntry, c: Option<Coord>) {
    e.latitude == LatitudeOf(c) && e.longitude == LongitudeOf(c)
  }

  /** Every driving entry is "En Route", follows another entry and repeats
      that entry's coordinates. */
  ghost predicate DrivesEnRoute(es: seq<LogEntry>) {
    forall i :: 0 <= i < |es| && es[i].dutyStatus == Driving ==>
      && 0 < i
      && es[i].location == EnRoute && es[i].remarks == DrivingRemark
      && es[i].latitude == es[i - 1].latitude && es[i].longitude == es[i - 1].longitude
  }

  /** Every entry that is not driving carries its own location's
      coordinates, except that the start-of-day and pre-trip entries may
      carry the start location's instead, wherever the day starts. */
  ghost predicate Geocoded(es: seq<LogEntry>, geo: Geocoder, route: Route) {
    forall i :: 0 <= i < |es| && es[i].dutyStatus != Driving ==>
      || CoordsFrom(es[i], geo(es[i].location))
      || (es[i].remarks in [StartOfDay, PreTrip] && CoordsFrom(es[i], geo(route.start)))
  }

  /** The remarks of the entries logged at a city from the
      intermediate-location draw. */
  predicate StopRemark(remarks: string) {
    remarks in [FuelStop, DrivingBreak, SleeperBerthBreak, EndOfDay]
  }

  /** A city from the list `cities` that is none of the trip's own
      locations; the generator's list is `Cities`. */
  predicate Intermediate(city: string, route: Route, cities: seq<string>) {
    city in cities && city !in [route.start, route.pickup, route.dropoff]
  }

  /** Every stop at a drawn city is at an intermediate city. */
  ghost predicate StopsIntermediate(es: seq<LogEntry>, route: Route, cities: seq<string>) {
    forall i :: 0 <= i < |es| && StopRemark(es[i].remarks) ==> Intermediate(es[i].location, route, cities)
  }

  /** No entry is stamped after `t`. */
  ghost predicate NotAfter(es: seq<LogEntry>, t: Timestamp) {
    forall i :: 0 <= i < |es| ==> es[i].timestamp <= t
  }

  /** The remarks of a sequence of entries, in order. */
  function Remarks(es: seq<LogEntry>): (rs: seq<string>)
    ensures |rs| == |es|
    ensures forall i :: 0 <= i < |es| ==> rs[i] == es[i].remarks
  {
    if |es| == 0 then [] else Remarks(es[..|es| - 1]) + [es[|es| - 1].remarks]
  }

  lemma RemarksConcat(a: seq<LogEntry>, b: seq<LogEntry>)
    ensures Remarks(a + b) == Remarks(a) + Remarks(b)
  {
  }

  /** How many entries carry the given remark. */
  function CountRemark(es: seq<LogEntry>, remark: string): nat {
    multiset(Remarks(es))[remark]
  }

  /** The remark texts the proofs need told apart. */
  lemma RemarkFacts()
    ensures !StopRemark(StartOfDay) && !StopRemark(PreTrip) && !StopRemark(DrivingRemark)
    ensures !StopRemark(Loading) && !StopRemark(Dropoff)
    ensures StartOfDay != PreTrip && StartOfDay != DrivingRemark && StartOfDay != FuelStop
    ensures StartOfDay != DrivingBreak && StartOfDay != SleeperBerthBreak
    ensures StartOfDay != Loading && StartOfDay != EndOfDay && StartOfDay != Dropoff
  {
  }

  lemma AdmissibleIsIntermediate(city: string, current: string, route: Route)
    requires Admissible(city, current, route)
    ensures Intermediate(city, route, Cities)
  {
  }

  // ---------------------------------------------------------------------------
  // The invariant of the generator's state and the steps that keep it.

  /** What the log built so far satisfies: time order with nothing after the
      clock, the trip, driving logged en route, the coordinates, the stops,
      and one start-of-day entry per day begun. */
  ghost predicate Inv(s: GenState, trip: TripId, geo: Geocoder, route: Route, cities: seq<string>) {
    && Sorted(s.log) && NotAfter(s.log, s.time)
    && OfTrip(s.log, trip) && DrivesEnRoute(s.log) && Geocoded(s.log, geo, route)
    && StopsIntermediate(s.log, route, cities)
    && CountRemark(s.log, StartOfDay) == s.dayCount
  }

  /** What an appended entry needs for the log to keep the invariant. */
  ghost predicate Fits(s: GenState, geo: Geocoder, route: Route, cities: seq<string>, status: DutyStatus, location: string, remarks: string, c: Option<Coord>) {
    && (status == Driving ==>
          && |s.log| > 0 && location == EnRoute && remarks == DrivingRemark
          && LatitudeOf(c) == s.log[|s.log| - 1].latitude
          && LongitudeOf(c) == s.log[|s.log| - 1].longitude)
    && (status != Driving ==> c == geo(location) || (remarks in [StartOfDay, PreTrip] && c == geo(route.start)))
    && (StopRemark(remarks) ==> Intermediate(location, route, cities))
  }

  /** The last entry of the log carries the coordinates `c`. */
  ghost predicate LastCarries(s: GenState, c: Option<Coord>) {
    |s.log| > 0 && s.log[|s.log| - 1].latitude == LatitudeOf(c) && s.log[|s.log| - 1].longitude == LongitudeOf(c)
  }

  lemma SortedAppend(es: seq<LogEntry>, e: LogEntry, t: Timestamp)
    requires Sorted(es) && NotAfter(es, t) && e.timestamp == t
    ensures Sorted(es + [e]) && NotAfter(es + [e], t)
  {
  }

  lemma OfTripAppend(es: seq<LogEntry>, e: LogEntry, trip: TripId)
    requires OfTrip(es, trip) && e.trip == trip
    ensures OfTrip(es + [e], trip)
  {
  }

  lemma DrivesAppend(es: seq<LogEntry>, e: LogEntry)
    requires DrivesEnRoute(es)
    requires e.dutyStatus == Driving ==>
      && |es| > 0 && e.location == EnRoute && e.remarks == DrivingRemark
      && e.latitude == es[|es| - 1].latitude && e.longitude == es[|es| - 1].longitude
    ensures DrivesEnRoute(es + [e])
  {
  }

  lemma GeocodedAppend(es: seq<LogEntry>, e: LogEntry, geo: Geocoder, route: Route)
    requires Geocoded(es, geo, route)
    requires e.dutyStatus != Driving ==>
      CoordsFrom(e, geo(e.location)) || (e.remarks in [StartOfDay, PreTrip] && CoordsFrom(e, geo(route.start)))
    ensures Geocoded(es + [e], geo, route)
  {
  }

  lemma StopsAppend(es: seq<LogEntry>, e: LogEntry, route: Route, cities: seq<string>)
    requires StopsIntermediate(es, route, cities)
    requires StopRemark(e.remarks) ==> Intermediate(e.location, route, cities)
    ensures StopsIntermediate(es + [e], route, cities)
  {
  }

  lemma CountAppend(es: seq<LogEntry>, e: LogEntry, remark: string)
    ensures CountRemark(es + [e], remark) == CountRemark(es, remark) + if e.remarks == remark then 1 else 0
  {
    RemarksConcat(es, [e]);
  }

  /** Appending a fitting entry keeps the log's facts. */
  lemma AppendKeeps(es: seq<LogEntry>, e: LogEntry, t: Timestamp, trip: TripId, geo: Geocoder, route: Route, cities: seq<string>)
    requires Sorted(es) && NotAfter(es, t) && OfTrip(es, trip) && DrivesEnRoute(es)
    requires Geocoded(es, geo, route) && StopsIntermediate(es, route, cities)
    requires e.timestamp == t && e.trip == trip
    requires e.dutyStatus == Driving ==>
      && |es| > 0 && e.location == EnRoute && e.remarks == DrivingRemark
      && e.latitude == es[|es| - 1].latitude && e.longitude == es[|es| - 1].longitude
    requires e.dutyStatus != Driving ==>
      CoordsFrom(e, geo(e.location)) || (e.remarks in [StartOfDay, PreTrip] && CoordsFrom(e, geo(route.start)))
    requires StopRemark(e.remarks) ==> Intermediate(e.location, route, cities)
    ensures Sorted(es + [e]) && NotAfter(es + [e], t) && OfTrip(es + [e], trip) && DrivesEnRoute(es + [e])
    ensures Geocoded(es + [e], geo, route) && StopsIntermediate(es + [e], route, cities)
  {
    SortedAppend(es, e, t);
    OfTripAppend(es, e, trip);
    DrivesAppend(es, e);
    GeocodedAppend(es, e, geo, route);
    StopsAppend(es, e, route, cities);
  }

  /** Appending a fitting entry keeps the invariant. */
  lemma EmitKeeps(s: GenState, trip: TripId, geo: Geocoder, route: Route, cities: seq<string>, status: DutyStatus, location: string, remarks: string, c: Option<Coord>)
    requires Inv(s, trip, geo, route, cities)
    requires Fits(s, geo, route, cities, status, location, remarks, c)
    requires remarks != StartOfDay
    ensures Inv(Emit(s, trip, status, location, remarks, c), trip, geo, route, cities)
    ensures LastCarries(Emit(s, trip, status, location, remarks, c), c)
  {
    var e := NewEntry(trip, s.time, status, location, remarks, c);
    AppendKeeps(s.log, e, s.time, trip, geo, route, cities);
    CountAppend(s.log, e, StartOfDay);
  }

  /** The start-of-day entry keeps the invariant once the day is counted. */
  lemma EmitStartKeeps(s: GenState, trip: TripId, geo: Geocoder, route: Route, cities: seq<string>)
    requires Inv(s, trip, geo, route, cities)
    ensures
      var s1 := s.(dayCount := s.dayCount + 1);
      Inv(Emit(s1, trip, OffDuty, s1.location, StartOfDay, geo(route.start)), trip, geo, route, cities)
  {
    RemarkFacts();
    var e := NewEntry(trip, s.time, OffDuty, s.location, StartOfDay, geo(route.start));
    AppendKeeps(s.log, e, s.time, trip, geo, route, cities);
    CountAppend(s.log, e, StartOfDay);
  }

  lemma AdvanceKeeps(s: GenState, trip: TripId, geo: Geocoder, route: Route, cities: seq<string>, seconds: int)
    requires Inv(s, trip, geo, route, cities) && seconds >= 0
    ensures Inv(Advance(s, seconds), trip, geo, route, cities)
    ensures Advance(s, seconds).log == s.log
  {
  }

  lemma DriveKeeps(s: GenState, trip: TripId, geo: Geocoder, route: Route, cities: seq<string>, seconds: int)
    requires Inv(s, trip, geo, route, cities) && seconds >= 0
    ensures Inv(Drive(s, seconds), trip, geo, route, cities)
    ensures Drive(s, seconds).log == s.log
  {
  }

  lemma BreakKeeps(s: GenState, trip: TripId, geo: Geocoder, route: Route, cities: seq<string>, location: string)
    requires Inv(s, trip, geo, route, cities) && Intermediate(location, route, cities)
    ensures Inv(BreakIfNeeded(s, trip, location, geo(location)), trip, geo, route, cities)
  {
    if s.driving > DrivingLimit {
      RemarkFacts();
      EmitKeeps(s, trip, geo, route, cities, OnDuty, location, DrivingBreak, geo(location));
      AdvanceKeeps(Emit(s, trip, OnDuty, location, DrivingBreak, geo(location)), trip, geo, route, cities, HalfHour);
    }
  }

  lemma EndDayKeeps(s: GenState, trip: TripId, geo: Geocoder, route: Route, cities: seq<string>, location: string)
    requires Inv(s, trip, geo, route, cities)
    ensures Inv(EndDay(s, location), trip, geo, route, cities)
  {
    NextMidnightIsLater(s.time);
  }

  // ---------------------------------------------------------------------------
  // Each phase of a day keeps the invariant.

  /** The three cities a day's draws picked are intermediate cities. */
  predicate DrawsIntermediate(d: DayDraw, route: Route, cities: seq<string>) {
    && Intermediate(d.fuelStop, route, cities)
    && Intermediate(d.sleeperBerth, route, cities)
    && Intermediate(d.endOfDay, route, cities)
  }

  /** The pre-trip entry and the gap after it keep the invariant. */
  lemma PreTripKeeps(s: GenState, trip: TripId, route: Route, cities: seq<string>, geo: Geocoder, d: DayDraw)
    requires Inv(s, trip, geo, route, cities) && DurationsInRange(d)
    ensures
      var r := Advance(Emit(s, trip, OnDuty, s.location, PreTrip, geo(route.start)), d.gapMinutes * SecondsPerMinute);
      Inv(r, trip, geo, route, cities) && LastCarries(r, geo(route.start))
  {
    assert !StopRemark(PreTrip) && PreTrip != StartOfDay;
    EmitKeeps(s, trip, geo, route, cities, OnDuty, s.location, PreTrip, geo(route.start));
  }

  lemma StartDayKeeps(s: GenState, trip: TripId, route: Route, cities: seq<string>, geo: Geocoder, d: DayDraw)
    requires Inv(s, trip, geo, route, cities) && DurationsInRange(d)
    ensures Inv(StartDay(s, trip, route, geo, d), trip, geo, route, cities)
    ensures LastCarries(StartDay(s, trip, route, geo, d), geo(route.start))
  {
    var s0 := s.(dayCount := s.dayCount + 1);
    EmitStartKeeps(s, trip, geo, route, cities);
    var s1 := Emit(s0, trip, OffDuty, s0.location, StartOfDay, geo(route.start));
    var s2 := Advance(s1, d.preTripMinutes * SecondsPerMinute);
    PreTripKeeps(s2, trip, route, cities, geo, d);
  }

  lemma FirstLegsKeeps(s: GenState, trip: TripId, route: Route, cities: seq<string>, geo: Geocoder, d: DayDraw)
    requires Inv(s, trip, geo, route, cities) && LastCarries(s, geo(route.start))
    requires DurationsInRange(d) && Intermediate(d.fuelStop, route, cities)
    ensures Inv(FirstLegs(s, trip, route, geo, d), trip, geo, route, cities)
  {
    RemarkFacts();
    EmitKeeps(s, trip, geo, route, cities, Driving, EnRoute, DrivingRemark, geo(route.start));
    var s1 := Emit(s, trip, Driving, EnRoute, DrivingRemark, geo(route.start));
    DriveKeeps(s1, trip, geo, route, cities, d.firstLeg);
    var s2 := Drive(s1, d.firstLeg);
    EmitKeeps(s2, trip, geo, route, cities, OnDuty, d.fuelStop, FuelStop, geo(d.fuelStop));
    var s3 := Emit(s2, trip, OnDuty, d.fuelStop, FuelStop, geo(d.fuelStop));
    AdvanceKeeps(s3, trip, geo, route, cities, HalfHour);
    var s4 := Advance(s3, HalfHour);
    EmitKeeps(s4, trip, geo, route, cities, Driving, EnRoute, DrivingRemark, geo(d.fuelStop));
    var s5 := Emit(s4, trip, Driving, EnRoute, DrivingRemark, geo(d.fuelStop));
    DriveKeeps(s5, trip, geo, route, cities, d.secondLeg);
    BreakKeeps(Drive(s5, d.secondLeg), trip, geo, route, cities, d.fuelStop);
  }

  lemma LastLegKeeps(s: GenState, trip: TripId, route: Route, cities: seq<string>, geo: Geocoder, d: DayDraw)
    requires Inv(s, trip, geo, route, cities) && DurationsInRange(d)
    requires Intermediate(d.fuelStop, route, cities) && Intermediate(d.sleeperBerth, route, cities)
    ensures Inv(LastLeg(s, trip, geo, d), trip, geo, route, cities)
  {
    RemarkFacts();
    EmitKeeps(s, trip, geo, route, cities, SleeperBerth, d.sleeperBerth, SleeperBerthBreak, geo(d.sleeperBerth));
    var s1 := Emit(s, trip, SleeperBerth, d.sleeperBerth, SleeperBerthBreak, geo(d.sleeperBerth));
    AdvanceKeeps(s1, trip, geo, route, cities, SleeperBerthRest);
    var s2 := Advance(s1, SleeperBerthRest);
    EmitKeeps(s2, trip, geo, route, cities, Driving, EnRoute, DrivingRemark, geo(d.sleeperBerth));
    var s3 := Emit(s2, trip, Driving, EnRoute, DrivingRemark, geo(d.sleeperBerth));
    DriveKeeps(s3, trip, geo, route, cities, d.thirdLeg);
    BreakKeeps(Drive(s3, d.thirdLeg), trip, geo, route, cities, d.fuelStop);
  }

  lemma FinishDayKeeps(s: GenState, trip: TripId, route: Route, cities: seq<string>, geo: Geocoder, d: DayDraw)
    requires Inv(s, trip, geo, route, cities) && DurationsInRange(d)
    requires Intermediate(d.endOfDay, route, cities)
    ensures Inv(FinishDay(s, trip, route, geo, d), trip, geo, route, cities)
  {
    RemarkFacts();
    EmitKeeps(s, trip, geo, route, cities, OnDuty, route.pickup, Loading, geo(route.pickup));
    var s1 := Emit(s, trip, OnDuty, route.pickup, Loading, geo(route.pickup));
    AdvanceKeeps(s1, trip, geo, route, cities, d.loading);
    var s2 := Advance(s1, d.loading);
    EmitKeeps(s2, trip, geo, route, cities, OffDuty, d.endOfDay, EndOfDay, geo(d.endOfDay));
    EndDayKeeps(Emit(s2, trip, OffDuty, d.endOfDay, EndOfDay, geo(d.endOfDay)), trip, geo, route, cities, d.endOfDay);
  }

  /** One simulated day keeps the invariant of the log. */
  lemma DayKeeps(s: GenState, trip: TripId, route: Route, cities: seq<string>, geo: Geocoder, d: DayDraw)
    requires Inv(s, trip, geo, route, cities)
    requires DurationsInRange(d) && DrawsIntermediate(d, route, cities)
    ensures Inv(SimulateDay(s, trip, route, geo, d), trip, geo, route, cities)
  {
    StartDayKeeps(s, trip, route, cities, geo, d);
    var s1 := StartDay(s, trip, route, geo, d);
    FirstLegsKeeps(s1, trip, route, cities, geo, d);
    var s2 := FirstLegs(s1, trip, route, geo, d);
    LastLegKeeps(s2, trip, route, cities, geo, d);
    FinishDayKeeps(LastLeg(s2, trip, geo, d), trip, route, cities, geo, d);
  }

  /** A day that starts at midnight of `day` stamps every entry it appends
      on `day`. */
  lemma DayDates(s: GenState, trip: TripId, route: Route, geo: Geocoder, d: DayDraw, day: Date)
    requires DurationsInRange(d)
    requires s.time == Midnight(day) && s.driving == 0
    ensures var r := SimulateDay(s, trip, route, geo, d);
      forall i :: |s.log| <= i < |r.log| ==> DateOf(r.log[i].timestamp) == day
  {
    var r := SimulateDay(s, trip, route, geo, d);
    DayExplicit(s, trip, route, geo, d);
    DayNextMidnight(s, trip, route, geo, d, day);
    DayEntriesWithin(s, trip, route, geo, d);
    var es := DayEntries(s, trip, route, geo, d);
    var end := EveningEnd(MorningEnd(s, d), d.firstLeg + d.secondLeg, d);
    assert r.log == s.log + es;
    forall i | |s.log| <= i < |r.log|
      ensures DateOf(r.log[i].timestamp) == day
    {
      assert r.log[i] == es[i - |s.log|];
      DateOfMidnightPlus(day, r.log[i].timestamp - s.time);
    }
  }

  /** What one simulated day from midnight of `day` does, as the run sees
      it: the invariant holds after it, it appends nine or ten entries all
      stamped on `day`, and the next day starts at the following midnight at
      the end-of-day city with nothing driven. */
  ghost predicate DayEffect(s: GenState, r: GenState, trip: TripId, geo: Geocoder, route: Route, cities: seq<string>, d: DayDraw, day: Date) {
    && Inv(r, trip, geo, route, cities)
    && r.time == Midnight(day + 1) && r.location == d.endOfDay && r.driving == 0
    && r.dayCount == s.dayCount + 1
    && |s.log| + 9 <= |r.log| <= |s.log| + 10
    && r.log[..|s.log|] == s.log
    && DatedWithin(r.log[|s.log|..], day, day + 1)
  }

  lemma DayStep(s: GenState, trip: TripId, route: Route, cities: seq<string>, geo: Geocoder, d: DayDraw, day: Date)
    requires Inv(s, trip, geo, route, cities)
    requires DurationsInRange(d) && DrawsIntermediate(d, route, cities)
    requires s.time == Midnight(day) && s.driving == 0
    ensures DayEffect(s, SimulateDay(s, trip, route, geo, d), trip, geo, route, cities, d, day)
  {
    DayKeeps(s, trip, route, cities, geo, d);
    DayOutline(s, trip, route, geo, d, day);
    DayDates(s, trip, route, geo, d, day);
    var r := SimulateDay(s, trip, route, geo, d);
    assert DatedWithin(r.log[|s.log|..], day, day + 1) by {
      forall i | 0 <= i < |r.log| - |s.log|
        ensures DateOf(r.log[|s.log|..][i].timestamp) == day
      {
        assert r.log[|s.log|..][i] == r.log[|s.log| + i];
      }
    }
  }
}
