/** The closed form of one simulated day of the duty-log generator: the
    entries it appends, their statuses and the time window they lie in.
    The run over all days is in `GeneratorTheorems`. */
module GeneratorProofs {
  import opened Wrappers
  import opened Models
  import opened Generator

  /** A day's entries lie within 22.5 hours of its midnight. */
  const DayWindow: int := 22 * SecondsPerHour + HalfHour

  /** The statuses of one simulated day when the first driving check does not
      fire; `breakTaken` is whether the second one does. */
  function DayPattern(breakTaken: bool): seq<DutyStatus> {
    [OffDuty, OnDuty, Driving, OnDuty, Driving, SleeperBerth, Driving]
    + (if breakTaken then [OnDuty] else [])
    + [OnDuty, OffDuty]
  }

  function BreakEntry(trip: TripId, t: Timestamp, location: string, c: Option<Coord>): LogEntry {
    NewEntry(trip, t, OnDuty, location, DrivingBreak, c)
  }

  /** The driving check logs a break exactly when the day's driving exceeds
      the limit: a thirty-minute on-duty entry at the given city that
      restarts the driving count and nothing else. */
  lemma BreakIfNeededEffect(s: GenState, trip: TripId, location: string, c: Option<Coord>)
    ensures var r := BreakIfNeeded(s, trip, location, c);
      && (s.driving > DrivingLimit <==> |r.log| == |s.log| + 1)
      && (s.driving > DrivingLimit ==>
            && r.log == s.log + [BreakEntry(trip, s.time, location, c)]
            && r.time == s.time + HalfHour && r.driving == 0)
      && (s.driving <= DrivingLimit ==> r == s)
      && r.onDuty == s.onDuty && r.location == s.location && r.dayCount == s.dayCount
  {
  }

  // ---------------------------------------------------------------------------
  // What each phase of a day appends, with the state it leaves behind.

  lemma StartDayAppends(s: GenState, trip: TripId, route: Route, geo: Geocoder, d: DayDraw)
    ensures StartDay(s, trip, route, geo, d) == s.(
      log := s.log + [
        NewEntry(trip, s.time, OffDuty, s.location, StartOfDay, geo(route.start)),
        NewEntry(trip, s.time + d.preTripMinutes * SecondsPerMinute, OnDuty, s.location, PreTrip, geo(route.start))],
      time := s.time + d.preTripMinutes * SecondsPerMinute + d.gapMinutes * SecondsPerMinute,
      dayCount := s.dayCount + 1)
  {
  }

  lemma FirstLegsAppends(s: GenState, trip: TripId, route: Route, geo: Geocoder, d: DayDraw)
    requires s.driving + d.firstLeg + d.secondLeg <= DrivingLimit
    ensures
      var t1 := s.time + d.firstLeg;
      FirstLegs(s, trip, route, geo, d) == s.(
        log := s.log + [
          NewEntry(trip, s.time, Driving, EnRoute, DrivingRemark, geo(route.start)),
          NewEntry(trip, t1, OnDuty, d.fuelStop, FuelStop, geo(d.fuelStop)),
          NewEntry(trip, t1 + HalfHour, Driving, EnRoute, DrivingRemark, geo(d.fuelStop))],
        time := t1 + HalfHour + d.secondLeg,
        driving := s.driving + d.firstLeg + d.secondLeg,
        onDuty := s.onDuty + d.firstLeg + d.secondLeg)
  {
  }

  lemma LastLegAppends(s: GenState, trip: TripId, geo: Geocoder, d: DayDraw)
    ensures
      var t1 := s.time + SleeperBerthRest;
      var t2 := t1 + d.thirdLeg;
      var legs := [
        NewEntry(trip, s.time, SleeperBerth, d.sleeperBerth, SleeperBerthBreak, geo(d.sleeperBerth)),
        NewEntry(trip, t1, Driving, EnRoute, DrivingRemark, geo(d.sleeperBerth))];
      var driven := s.driving + d.thirdLeg;
      var onDuty := s.onDuty + d.thirdLeg;
      LastLeg(s, trip, geo, d) ==
        if driven > DrivingLimit then
          s.(log := s.log + legs + [BreakEntry(trip, t2, d.fuelStop, geo(d.fuelStop))],
             time := t2 + HalfHour, driving := 0, onDuty := onDuty)
        else
          s.(log := s.log + legs, time := t2, driving := driven, onDuty := onDuty)
  {
  }

  lemma FinishDayAppends(s: GenState, trip: TripId, route: Route, geo: Geocoder, d: DayDraw)
    ensures FinishDay(s, trip, route, geo, d) == s.(
      log := s.log + [
        NewEntry(trip, s.time, OnDuty, route.pickup, Loading, geo(route.pickup)),
        NewEntry(trip, s.time + d.loading, OffDuty, d.endOfDay, EndOfDay, geo(d.endOfDay))],
      time := Midnight(DateOf(s.time + d.loading) + 1),
      location := d.endOfDay, driving := 0, onDuty := 0)
  {
  }

  // ---------------------------------------------------------------------------
  // One whole day.

  /** The morning of a day whose first driving check does not fire: start of
      day, pre-trip inspection, the first leg, the fuel stop and the second
      leg.  The first two entries carry the start location's coordinates. */
  ghost function Morning(s: GenState, trip: TripId, route: Route, geo: Geocoder, d: DayDraw): seq<LogEntry> {
    var t1 := s.time + d.preTripMinutes * SecondsPerMinute;
    var t2 := t1 + d.gapMinutes * SecondsPerMinute;
    var t3 := t2 + d.firstLeg;
    [NewEntry(trip, s.time, OffDuty, s.location, StartOfDay, geo(route.start)),
     NewEntry(trip, t1, OnDuty, s.location, PreTrip, geo(route.start)),
     NewEntry(trip, t2, Driving, EnRoute, DrivingRemark, geo(route.start)),
     NewEntry(trip, t3, OnDuty, d.fuelStop, FuelStop, geo(d.fuelStop)),
     NewEntry(trip, t3 + HalfHour, Driving, EnRoute, DrivingRemark, geo(d.fuelStop))]
  }

  /** When the second leg of a day starting at `s.time` ends. */
  function MorningEnd(s: GenState, d: DayDraw): Timestamp {
    s.time + d.preTripMinutes * SecondsPerMinute + d.gapMinutes * SecondsPerMinute
    + d.firstLeg + HalfHour + d.secondLeg
  }

  lemma MorningExplicit(s: GenState, trip: TripId, route: Route, geo: Geocoder, d: DayDraw)
    requires s.driving + d.firstLeg + d.secondLeg <= DrivingLimit
    ensures
      var r := FirstLegs(StartDay(s, trip, route, geo, d), trip, route, geo, d);
      && r.log == s.log + Morning(s, trip, route, geo, d)
      && r.time == MorningEnd(s, d)
      && r.driving == s.driving + d.firstLeg + d.secondLeg
      && r.location == s.location && r.dayCount == s.dayCount + 1
  {
    StartDayAppends(s, trip, route, geo, d);
    var s1 := StartDay(s, trip, route, geo, d);
    FirstLegsAppends(s1, trip, route, geo, d);
    var s2 := FirstLegs(s1, trip, route, geo, d);
    var t1 := s.time + d.preTripMinutes * SecondsPerMinute;
    var a := [NewEntry(trip, s.time, OffDuty, s.location, StartOfDay, geo(route.start)),
              NewEntry(trip, t1, OnDuty, s.location, PreTrip, geo(route.start))];
    var t2 := t1 + d.gapMinutes * SecondsPerMinute;
    var t3 := t2 + d.firstLeg;
    var b := [NewEntry(trip, t2, Driving, EnRoute, DrivingRemark, geo(route.start)),
              NewEntry(trip, t3, OnDuty, d.fuelStop, FuelStop, geo(d.fuelStop)),
              NewEntry(trip, t3 + HalfHour, Driving, EnRoute, DrivingRemark, geo(d.fuelStop))];
    assert s1.log == s.log + a;
    assert s1.time == t2;
    assert s2.log == s1.log + b;
    assert a + b == Morning(s, trip, route, geo, d);
  }

  /** The rest of the day from time `t`, with `driven` seconds driven so far:
      the sleeper-berth rest, the third leg, the break when the driving limit
      is passed, loading at the pickup and the end of the day. */
  ghost function Evening(t: Timestamp, driven: int, trip: TripId, route: Route, geo: Geocoder, d: DayDraw): seq<LogEntry> {
    var t1 := t + SleeperBerthRest;
    var t2 := t1 + d.thirdLeg;
    var breakTaken := driven + d.thirdLeg > DrivingLimit;
    var t3 := if breakTaken then t2 + HalfHour else t2;
    [NewEntry(trip, t, SleeperBerth, d.sleeperBerth, SleeperBerthBreak, geo(d.sleeperBerth)),
     NewEntry(trip, t1, Driving, EnRoute, DrivingRemark, geo(d.sleeperBerth))]
    + (if breakTaken then [BreakEntry(trip, t2, d.fuelStop, geo(d.fuelStop))] else [])
    + [NewEntry(trip, t3, OnDuty, route.pickup, Loading, geo(route.pickup)),
       NewEntry(trip, t3 + d.loading, OffDuty, d.endOfDay, EndOfDay, geo(d.endOfDay))]
  }

  /** When the end-of-day entry of a day starting at `t` is stamped. */
  function EveningEnd(t: Timestamp, driven: int, d: DayDraw): Timestamp {
    var t2 := t + SleeperBerthRest + d.thirdLeg;
    (if driven + d.thirdLeg > DrivingLimit then t2 + HalfHour else t2) + d.loading
  }

  lemma EveningExplicit(s: GenState, trip: TripId, route: Route, geo: Geocoder, d: DayDraw)
    ensures
      var r := FinishDay(LastLeg(s, trip, geo, d), trip, route, geo, d);
      && r.log == s.log + Evening(s.time, s.driving, trip, route, geo, d)
      && r.time == Midnight(DateOf(EveningEnd(s.time, s.driving, d)) + 1)
      && r.location == d.endOfDay && r.driving == 0 && r.onDuty == 0
      && r.dayCount == s.dayCount
  {
    LastLegAppends(s, trip, geo, d);
    var s1 := LastLeg(s, trip, geo, d);
    FinishDayAppends(s1, trip, route, geo, d);
    if s.driving + d.thirdLeg <= DrivingLimit {
      assert s1.log == s.log + s1.log[|s.log|..] + [];
    }
  }

  /** The entries of a day that starts with nothing driven. */
  ghost function DayEntries(s: GenState, trip: TripId, route: Route, geo: Geocoder, d: DayDraw): seq<LogEntry> {
    Morning(s, trip, route, geo, d) + Evening(MorningEnd(s, d), d.firstLeg + d.secondLeg, trip, route, geo, d)
  }

  /** The state after the morning phases, when the first check does not fire. */
  lemma MorningState(s: GenState, trip: TripId, route: Route, geo: Geocoder, d: DayDraw)
    requires s.driving + d.firstLeg + d.secondLeg <= DrivingLimit
    ensures
      var s2 := FirstLegs(StartDay(s, trip, route, geo, d), trip, route, geo, d);
      var r := SimulateDay(s, trip, route, geo, d);
      && s2.log == s.log + Morning(s, trip, route, geo, d)
      && s2.time == MorningEnd(s, d) && s2.driving == s.driving + d.firstLeg + d.secondLeg
      && s2.dayCount == s.dayCount + 1
      && r == FinishDay(LastLeg(s2, trip, geo, d), trip, route, geo, d)
  {
    MorningExplicit(s, trip, route, geo, d);
  }

  /** One pass of the loop body, when the day starts with nothing driven and
      the first driving check does not fire. */
  lemma DayExplicit(s: GenState, trip: TripId, route: Route, geo: Geocoder, d: DayDraw)
    requires s.driving == 0
    requires d.firstLeg + d.secondLeg <= DrivingLimit
    ensures
      var r := SimulateDay(s, trip, route, geo, d);
      && r.log == s.log + Morning(s, trip, route, geo, d)
                 + Evening(MorningEnd(s, d), d.firstLeg + d.secondLeg, trip, route, geo, d)
      && r.time == Midnight(DateOf(EveningEnd(MorningEnd(s, d), d.firstLeg + d.secondLeg, d)) + 1)
      && r.location == d.endOfDay && r.driving == 0 && r.onDuty == 0
      && r.dayCount == s.dayCount + 1
  {
    MorningState(s, trip, route, geo, d);
    var s2 := FirstLegs(StartDay(s, trip, route, geo, d), trip, route, geo, d);
    assert s2.time == MorningEnd(s, d) && s2.driving == d.firstLeg + d.secondLeg;
    EveningExplicit(s2, trip, route, geo, d);
    var r := SimulateDay(s, trip, route, geo, d);
    var r3 := FinishDay(LastLeg(s2, trip, geo, d), trip, route, geo, d);
    var end := EveningEnd(MorningEnd(s, d), d.firstLeg + d.secondLeg, d);
    assert r == r3;
    assert EveningEnd(s2.time, s2.driving, d) == end;
    assert r3.time == Midnight(DateOf(end) + 1);
  }

  // ---------------------------------------------------------------------------
  // Facts about one day's entries.

  /** The statuses of a day's entries follow the fixed pattern. */
  lemma DayEntriesStatuses(s: GenState, trip: TripId, route: Route, geo: Geocoder, d: DayDraw)
    ensures Statuses(DayEntries(s, trip, route, geo, d)) == DayPattern(d.firstLeg + d.secondLeg + d.thirdLeg > DrivingLimit)
    ensures |DayEntries(s, trip, route, geo, d)| == if d.firstLeg + d.secondLeg + d.thirdLeg > DrivingLimit then 10 else 9
  {
    var m := Morning(s, trip, route, geo, d);
    var e := Evening(MorningEnd(s, d), d.firstLeg + d.secondLeg, trip, route, geo, d);
    StatusesConcat(m, e);
    assert Statuses(m) == [OffDuty, OnDuty, Driving, OnDuty, Driving];
    if d.firstLeg + d.secondLeg + d.thirdLeg > DrivingLimit {
      assert Statuses(e) == [SleeperBerth, Driving, OnDuty, OnDuty, OffDuty];
    } else {
      assert Statuses(e) == [SleeperBerth, Driving, OnDuty, OffDuty];
    }
  }

  /** One pass of the loop body from a day with nothing driven appends nine
      or ten entries whose statuses follow the fixed pattern; the optional
      on-duty break after the third leg is there exactly when the three legs
      together pass the driving limit. */
  lemma DayStatuses(s: GenState, trip: TripId, route: Route, geo: Geocoder, d: DayDraw)
    requires s.driving == 0 && DurationsInRange(d)
    ensures var r := SimulateDay(s, trip, route, geo, d);
      && |r.log| == |s.log| + (if d.firstLeg + d.secondLeg + d.thirdLeg > DrivingLimit then 10 else 9)
      && Statuses(r.log[|s.log|..]) == DayPattern(d.firstLeg + d.secondLeg + d.thirdLeg > DrivingLimit)
  {
    DayExplicit(s, trip, route, geo, d);
    DayEntriesStatuses(s, trip, route, geo, d);
    var r := SimulateDay(s, trip, route, geo, d);
    assert r.log[|s.log|..] == DayEntries(s, trip, route, geo, d);
  }

  /** Every entry of a day is stamped between the day's start and its
      end-of-day entry. */
  lemma DayEntriesWithin(s: GenState, trip: TripId, route: Route, geo: Geocoder, d: DayDraw)
    requires DurationsInRange(d)
    ensures var es := DayEntries(s, trip, route, geo, d);
      var end := EveningEnd(MorningEnd(s, d), d.firstLeg + d.secondLeg, d);
      forall i :: 0 <= i < |es| ==> s.time <= es[i].timestamp <= end
  {
    var m := Morning(s, trip, route, geo, d);
    var t := MorningEnd(s, d);
    var e := Evening(t, d.firstLeg + d.secondLeg, trip, route, geo, d);
    var end := EveningEnd(t, d.firstLeg + d.secondLeg, d);
    forall i | 0 <= i < |m|
      ensures s.time <= m[i].timestamp <= t
    {
      if i == 0 {
      } else if i == 1 {
      } else if i == 2 {
      } else if i == 3 {
      } else {
        assert i == 4;
      }
    }
    forall i | 0 <= i < |e|
      ensures t <= e[i].timestamp <= end
    {
      if i == 0 {
      } else if i == 1 {
      } else if i < |e| - 2 {
        assert i == 2;
      } else if i == |e| - 2 {
      } else {
        assert i == |e| - 1;
      }
    }
    var es := m + e;
    forall i | 0 <= i < |es|
      ensures s.time <= es[i].timestamp <= end
    {
      if i < |m| {
        assert es[i] == m[i];
      } else {
        assert es[i] == e[i - |m|];
      }
    }
  }

  /** A day that starts at midnight ends within 22.5 hours, so the next day
      starts at the following midnight. */
  lemma DayNextMidnight(s: GenState, trip: TripId, route: Route, geo: Geocoder, d: DayDraw, day: Date)
    requires DurationsInRange(d)
    requires s.time == Midnight(day) && s.driving == 0
    ensures var end := EveningEnd(MorningEnd(s, d), d.firstLeg + d.secondLeg, d);
      && s.time <= MorningEnd(s, d) <= end <= s.time + DayWindow
      && SimulateDay(s, trip, route, geo, d).time == Midnight(day + 1)
  {
    DayExplicit(s, trip, route, geo, d);
    var end := EveningEnd(MorningEnd(s, d), d.firstLeg + d.secondLeg, d);
    assert s.time <= MorningEnd(s, d) <= end <= s.time + DayWindow;
    DateOfMidnightPlus(day, end - s.time);
  }

  /** What a day that starts at midnight with nothing driven does to the
      state: it keeps the log so far, appends nine or ten entries, counts the
      day, and leaves at the next midnight from the end-of-day city with both
      day counters reset. */
  lemma DayOutline(s: GenState, trip: TripId, route: Route, geo: Geocoder, d: DayDraw, day: Date)
    requires DurationsInRange(d)
    requires s.time == Midnight(day) && s.driving == 0
    ensures var r := SimulateDay(s, trip, route, geo, d);
      && r.time == Midnight(day + 1) && r.location == d.endOfDay
      && r.driving == 0 && r.onDuty == 0 && r.dayCount == s.dayCount + 1
      && |s.log| + 9 <= |r.log| <= |s.log| + 10
      && r.log[..|s.log|] == s.log
  {
    DayExplicit(s, trip, route, geo, d);
    DayEntriesStatuses(s, trip, route, geo, d);
    DayNextMidnight(s, trip, route, geo, d, day);
    var r := SimulateDay(s, trip, route, geo, d);
    assert r.log == s.log + DayEntries(s, trip, route, geo, d);
  }
}
