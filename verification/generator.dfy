/** The duty-log generator (`generate_dummy_logs` in
    trucker_logbook/helper.py).

    The generator is a small state machine over the locals of the Python
    function: the list of entries built so far, the current time, the current
    location, the day's accumulated driving and on-duty time, and the day
    counter.  Each simulated day appends a fixed-shape run of entries; the loop
    stops when the current location is the drop-off or after five days, and a
    final drop-off entry is always appended.

    Every random draw of a day is passed in as data (a `DayDraw`), so the
    generator is a total, deterministic function; the ranges the random calls
    produce are the preconditions.  Geocoding is an opaque function from a
    location label to an optional coordinate. */
module Generator {
  import opened Wrappers
  import opened Models

  /** The pool intermediate cities are drawn from. */
  const Cities: seq<string> := [
    "Atlanta, GA", "Chicago, IL", "Houston, TX", "Phoenix, AZ",
    "Philadelphia, PA", "San Antonio, TX", "San Diego, CA", "Dallas, TX",
    "San Jose, CA", "Austin, TX", "Jacksonville, FL", "Fort Worth, TX",
    "Columbus, OH", "Charlotte, NC", "San Francisco, CA", "Indianapolis, IN",
    "Seattle, WA", "Denver, CO", "Washington, DC", "Boston, MA"
  ]

  /** The loop simulates at most this many days. */
  const MaxDays: nat := 5

  /** The location label of every driving entry. */
  const EnRoute: string := "En Route"

  const StartOfDay: string := "Start of day"
  const PreTrip: string := "Pre-trip inspection"
  const DrivingRemark: string := "Driving"
  const DrivingBreak: string := "30-minute break"
  const Loading: string := "Loading/Unloading Freight"
  const FuelStop: string := "Fuel stop and 30-minute break"
  const SleeperBerthBreak: string := "Sleeper berth break"
  const EndOfDay: string := "End of day"
  const Dropoff: string := "Dropoff"

  /** The fuel stop and the driving break each last thirty minutes. */
  const HalfHour: int := 30 * SecondsPerMinute

  /** The sleeper-berth rest lasts eight hours. */
  const SleeperBerthRest: int := 8 * SecondsPerHour

  /** A break is taken once the day's driving exceeds eight hours. */
  const DrivingLimit: int := 8 * SecondsPerHour

  /** Address lookup: a label either resolves to a coordinate or does not. */
  type Geocoder = string -> Option<Coord>

  /** The trip's three location labels. */
  datatype Route = Route(start: string, pickup: string, dropoff: string)

  /** The random draws of one simulated day.  Minutes are whole minutes (the
      source draws them with `randint`); the leg and loading durations are in
      seconds. */
  datatype DayDraw = DayDraw(
    preTripMinutes: int,
    gapMinutes: int,
    firstLeg: int,
    secondLeg: int,
    thirdLeg: int,
    loading: int,
    fuelStop: string,
    sleeperBerth: string,
    endOfDay: string)

  /** The locals of the generator loop. */
  datatype GenState = GenState(
    log: seq<LogEntry>,
    time: Timestamp,
    location: string,
    driving: int,
    onDuty: int,
    dayCount: nat)

  /** A city the intermediate-location draw rejects and draws again. */
  predicate Excluded(city: string, current: string, route: Route) {
    city in [current, route.start, route.pickup, route.dropoff]
  }

  /** A city the intermediate-location draw can return. */
  predicate Admissible(city: string, current: string, route: Route) {
    city in Cities && !Excluded(city, current, route)
  }

  /** The draws of one day: durations in range, and three cities the
      intermediate-location draw can return from the day's location. */
  predicate ValidDraw(d: DayDraw, current: string, route: Route) {
    && DurationsInRange(d)
    && Admissible(d.fuelStop, current, route)
    && Admissible(d.sleeperBerth, current, route)
    && Admissible(d.endOfDay, current, route)
  }

  /** The durations lie in the ranges the random calls produce: `randint`
      bounds are inclusive, and `uniform` may return either end point. */
  predicate DurationsInRange(d: DayDraw) {
    && 0 <= d.preTripMinutes <= 60
    && 0 <= d.gapMinutes <= 30
    && 3 * SecondsPerHour <= d.firstLeg <= 4 * SecondsPerHour
    && 3 * SecondsPerHour <= d.secondLeg <= 4 * SecondsPerHour
    && 2 * SecondsPerHour <= d.thirdLeg <= 3 * SecondsPerHour
    && SecondsPerHour / 2 <= d.loading <= SecondsPerHour
  }

  /** The current location at the start of day `k + 1` (0-based `k`) when the
      loop runs that far: the start, then each day's end-of-day city. */
  function LocationBefore(route: Route, draws: seq<DayDraw>, k: nat): string
    requires k <= |draws|
  {
    if k == 0 then route.start else draws[k - 1].endOfDay
  }

  /** A draw for every day the loop can run, each valid for the location the
      day starts from. */
  predicate ValidDraws(route: Route, draws: seq<DayDraw>) {
    && |draws| >= MaxDays
    && forall k :: 0 <= k < MaxDays ==> ValidDraw(draws[k], LocationBefore(route, draws, k), route)
  }

  /** The intermediate-location draw as the source writes it: take a city,
      and while it is the current, start, pickup or drop-off location, take
      another.  `choices` are the successive indices `random.choice` picks;
      the result is the first pick that is not excluded, and `None` means the
      stream ran out before an acceptable city came up. */
  function ResampleIntermediate(choices: seq<nat>, current: string, route: Route): (r: Option<string>)
    requires forall i :: 0 <= i < |choices| ==> choices[i] < |Cities|
    ensures r.Some? ==> Admissible(r.value, current, route)
    ensures r.Some? ==> exists i :: 0 <= i < |choices| && r.value == Cities[choices[i]]
    ensures r.Some? ==>
      exists i :: 0 <= i < |choices| && r.value == Cities[choices[i]]
        && forall j :: 0 <= j < i ==> Excluded(Cities[choices[j]], current, route)
    ensures r.None? <==> forall i :: 0 <= i < |choices| ==> Excluded(Cities[choices[i]], current, route)
  {
    if |choices| == 0 then None
    else if !Excluded(Cities[choices[0]], current, route) then Some(Cities[choices[0]])
    else ResampleIntermediate(choices[1..], current, route)
  }

  /** The nullable latitude and longitude an entry stores for a lookup. */
  function LatitudeOf(c: Option<Coord>): Option<real> {
    if c.Some? then Some(c.value.latitude) else None
  }

  function LongitudeOf(c: Option<Coord>): Option<real> {
    if c.Some? then Some(c.value.longitude) else None
  }

  /** An entry whose coordinates come from a lookup (`get_lat_lon`). */
  function NewEntry(trip: TripId, t: Timestamp, status: DutyStatus, location: string, remarks: string, c: Option<Coord>): LogEntry {
    LogEntry(trip, t, status, location, remarks, LatitudeOf(c), LongitudeOf(c))
  }

  /** Append an entry stamped with the current time. */
  function Emit(s: GenState, trip: TripId, status: DutyStatus, location: string, remarks: string, c: Option<Coord>): GenState
  {
    s.(log := s.log + [NewEntry(trip, s.time, status, location, remarks, c)])
  }

  /** Let time pass without an entry. */
  function Advance(s: GenState, seconds: int): GenState
  {
    s.(time := s.time + seconds)
  }

  /** Drive a leg: time passes and counts as both driving and on-duty time. */
  function Drive(s: GenState, seconds: int): GenState
  {
    s.(time := s.time + seconds, driving := s.driving + seconds, onDuty := s.onDuty + seconds)
  }

  /** The driving check: past the limit, log a thirty-minute on-duty break at
      the fuel-stop city and restart the driving count (only that count). */
  function BreakIfNeeded(s: GenState, trip: TripId, location: string, c: Option<Coord>): GenState
  {
    if s.driving > DrivingLimit then
      Advance(Emit(s, trip, OnDuty, location, DrivingBreak, c), HalfHour).(driving := 0)
    else
      s
  }

  /** Close the day: the clock jumps to the next midnight, the end-of-day city
      becomes the current location and both day counters restart. */
  function EndDay(s: GenState, location: string): GenState
  {
    s.(time := Midnight(DateOf(s.time) + 1), location := location, driving := 0, onDuty := 0)
  }

  /** Morning: the start-of-day and pre-trip entries at the current location,
      both carrying the start location's coordinates. */
  function StartDay(s: GenState, trip: TripId, route: Route, geo: Geocoder, d: DayDraw): GenState
  {
    var s := s.(dayCount := s.dayCount + 1);
    var s := Emit(s, trip, OffDuty, s.location, StartOfDay, geo(route.start));
    var s := Advance(s, d.preTripMinutes * SecondsPerMinute);
    var s := Emit(s, trip, OnDuty, s.location, PreTrip, geo(route.start));
    Advance(s, d.gapMinutes * SecondsPerMinute)
  }

  /** The first two legs around the fuel stop, and the first driving check. */
  function FirstLegs(s: GenState, trip: TripId, route: Route, geo: Geocoder, d: DayDraw): GenState
  {
    var s := Emit(s, trip, Driving, EnRoute, DrivingRemark, geo(route.start));
    var s := Drive(s, d.firstLeg);
    var s := Emit(s, trip, OnDuty, d.fuelStop, FuelStop, geo(d.fuelStop));
    var s := Advance(s, HalfHour);
    var s := Emit(s, trip, Driving, EnRoute, DrivingRemark, geo(d.fuelStop));
    var s := Drive(s, d.secondLeg);
    BreakIfNeeded(s, trip, d.fuelStop, geo(d.fuelStop))
  }

  /** The sleeper-berth rest, the third leg and the second driving check,
      whose break is logged at the fuel-stop city. */
  function LastLeg(s: GenState, trip: TripId, geo: Geocoder, d: DayDraw): GenState
  {
    var s := Emit(s, trip, SleeperBerth, d.sleeperBerth, SleeperBerthBreak, geo(d.sleeperBerth));
    var s := Advance(s, SleeperBerthRest);
    var s := Emit(s, trip, Driving, EnRoute, DrivingRemark, geo(d.sleeperBerth));
    var s := Drive(s, d.thirdLeg);
    BreakIfNeeded(s, trip, d.fuelStop, geo(d.fuelStop))
  }

  /** Loading at the pickup, then the end-of-day entry and the roll-over to
      the next midnight at the end-of-day city. */
  function FinishDay(s: GenState, trip: TripId, route: Route, geo: Geocoder, d: DayDraw): GenState
  {
    var s := Emit(s, trip, OnDuty, route.pickup, Loading, geo(route.pickup));
    var s := Advance(s, d.loading);
    var s := Emit(s, trip, OffDuty, d.endOfDay, EndOfDay, geo(d.endOfDay));
    EndDay(s, d.endOfDay)
  }

  /** One pass of the loop body. */
  function SimulateDay(s: GenState, trip: TripId, route: Route, geo: Geocoder, d: DayDraw): GenState
  {
    FinishDay(LastLeg(FirstLegs(StartDay(s, trip, route, geo, d), trip, route, geo, d), trip, geo, d), trip, route, geo, d)
  }

  /** The loop: simulate days until the drop-off is reached or the day
      ceiling is hit. */
  function RunDays(s: GenState, trip: TripId, route: Route, geo: Geocoder, draws: seq<DayDraw>): (r: GenState)
    requires |draws| >= MaxDays
    ensures r.location == route.dropoff || r.dayCount >= MaxDays
    ensures s.dayCount <= r.dayCount <= if s.dayCount < MaxDays then MaxDays else s.dayCount
    decreases MaxDays - s.dayCount
  {
    if s.location == route.dropoff || s.dayCount >= MaxDays then s
    else RunDays(SimulateDay(s, trip, route, geo, draws[s.dayCount]), trip, route, geo, draws)
  }

  /** The state the generator starts from: midnight of the start date, at the
      start location, nothing logged. */
  function InitialState(startDate: Date, route: Route): GenState {
    GenState([], Midnight(startDate), route.start, 0, 0, 0)
  }

  /** `generate_dummy_logs`: the simulated days followed by the drop-off. */
  function GenerateDummyLogs(trip: TripId, startDate: Date, route: Route, geo: Geocoder, draws: seq<DayDraw>): (r: seq<LogEntry>)
    requires ValidDraws(route, draws)
    ensures |r| > 0
    ensures r[|r| - 1].dutyStatus == OnDuty && r[|r| - 1].location == route.dropoff
    ensures r[|r| - 1].remarks == Dropoff
    ensures r[|r| - 1].latitude == LatitudeOf(geo(route.dropoff))
    ensures r[|r| - 1].longitude == LongitudeOf(geo(route.dropoff))
  {
    var s := RunDays(InitialState(startDate, route), trip, route, geo, draws);
    Emit(s, trip, OnDuty, route.dropoff, Dropoff, geo(route.dropoff)).log
  }

  /** `generate_dummy_logs` under Python's calendar ceiling: the roll-over to
      the next date raises `OverflowError` once it would pass the last date a
      `date` can hold, and the exception leaves the function with no log.
      The clock only moves forward and the drop-off is stamped with the clock
      the loop ends on, so for a start date Python can hold some roll-over
      overflows exactly when the drop-off's date lies past that day. */
  function GenerateDummyLogsChecked(trip: TripId, startDate: Date, route: Route, geo: Geocoder, draws: seq<DayDraw>): (r: Result<seq<LogEntry>, CalendarError>)
    requires ValidDraws(route, draws)
    ensures r.Success? ==> r.value == GenerateDummyLogs(trip, startDate, route, geo, draws)
    ensures r.Success? ==> DateOf(r.value[|r.value| - 1].timestamp) <= LastDate
  {
    var log := GenerateDummyLogs(trip, startDate, route, geo, draws);
    if DateOf(log[|log| - 1].timestamp) > LastDate then Failure(DateOverflow) else Success(log)
  }
}
