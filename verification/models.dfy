/** The records of the duty log: trips, log entries, daily summaries and the
    per-trip configuration, with the calendar arithmetic they share.

    Timestamps are whole seconds since the epoch.  The deployment runs in UTC,
    so the calendar date of a timestamp is its floor-division by the number of
    seconds in a day, and "midnight of a date" is the inverse. */
module Models {
  import opened Wrappers

  type TripId = nat

  /** Seconds since the epoch, UTC. */
  type Timestamp = int

  /** Days since the epoch. */
  type Date = int

  const SecondsPerMinute: int := 60
  const SecondsPerHour: int := 3600
  const SecondsPerDay: int := 86400

  /** The first and the last date Python's `date` can hold, 0001-01-01 and
      9999-12-31, as days since the epoch.  Stepping a date past either
      raises `OverflowError`. */
  const FirstDate: Date := -719162
  const LastDate: Date := 2932896

  /** The error date arithmetic raises when it leaves that range. */
  datatype CalendarError = DateOverflow

  /** The calendar date of a timestamp (`timestamp.date()` in UTC). */
  function DateOf(t: Timestamp): Date {
    t / SecondsPerDay
  }

  /** The first second of a date (`datetime.combine(d, time.min)` in UTC). */
  function Midnight(d: Date): Timestamp {
    d * SecondsPerDay
  }

  /** The four duty statuses, stored as OD, SB, DR and ON. */
  datatype DutyStatus = OffDuty | SleeperBerth | Driving | OnDuty

  /** A geocoded position; only ever passed through, never computed. */
  datatype Coord = Coord(latitude: real, longitude: real)

  /** One change of duty status; latitude and longitude are nullable. */
  datatype LogEntry = LogEntry(
    trip: TripId,
    timestamp: Timestamp,
    dutyStatus: DutyStatus,
    location: string,
    remarks: string,
    latitude: Option<real>,
    longitude: Option<real>)

  datatype Trip = Trip(
    startLocation: string,
    pickupLocation: string,
    dropoffLocation: string,
    currentCycleHours: real,
    startDate: Date)

  datatype Configuration = Configuration(
    trip: TripId,
    fuelStopFrequency: real,
    pickupDropoffTime: real,
    minimumRestStop: real)

  /** The configuration a trip gets when it has none: the field defaults. */
  function DefaultConfiguration(trip: TripId): Configuration {
    Configuration(trip, 1000.0, 1.0, 0.5)
  }

  /** The recap of one date of one trip. */
  datatype DailySummary = DailySummary(
    totalMilesDriving: real,
    totalOffDutyHours: real,
    totalSleeperBerthHours: real,
    totalDrivingHours: real,
    totalOnDutyHours: real,
    totalLines34: real)

  /** Timestamps never decrease along the sequence. */
  ghost predicate Sorted(es: seq<LogEntry>) {
    forall i, j :: 0 <= i < j < |es| ==> es[i].timestamp <= es[j].timestamp
  }

  /** Every entry belongs to the trip. */
  ghost predicate OfTrip(es: seq<LogEntry>, trip: TripId) {
    forall i :: 0 <= i < |es| ==> es[i].trip == trip
  }

  /** Every entry is stamped on a date in [from, to). */
  ghost predicate DatedWithin(es: seq<LogEntry>, from: Date, to: Date) {
    forall i :: 0 <= i < |es| ==> from <= DateOf(es[i].timestamp) < to
  }

  /** Some entry is stamped on date `d`. */
  ghost predicate HasDate(es: seq<LogEntry>, d: Date) {
    exists i :: 0 <= i < |es| && DateOf(es[i].timestamp) == d
  }

  /** The duty statuses of a sequence of entries, in order. */
  function Statuses(es: seq<LogEntry>): (ss: seq<DutyStatus>)
    ensures |ss| == |es|
    ensures forall i :: 0 <= i < |es| ==> ss[i] == es[i].dutyStatus
  {
    if |es| == 0 then [] else Statuses(es[..|es| - 1]) + [es[|es| - 1].dutyStatus]
  }

  lemma DateOfMidnightPlus(d: Date, offset: int)
    requires 0 <= offset < SecondsPerDay
    ensures DateOf(Midnight(d) + offset) == d
  {
    var t := Midnight(d) + offset;
    var q, r := t / SecondsPerDay, t % SecondsPerDay;
    assert t == q * SecondsPerDay + r && 0 <= r < SecondsPerDay;
  }

  /** The next midnight is strictly later than any time of the day before it. */
  lemma NextMidnightIsLater(t: Timestamp)
    ensures t < Midnight(DateOf(t) + 1)
    ensures Midnight(DateOf(t)) <= t
  {
    var q, r := t / SecondsPerDay, t % SecondsPerDay;
    assert t == q * SecondsPerDay + r && 0 <= r < SecondsPerDay;
  }

  lemma StatusesConcat(a: seq<LogEntry>, b: seq<LogEntry>)
    ensures Statuses(a + b) == Statuses(a) + Statuses(b)
  {
  }

  /** A log whose first part is dated before `to` and whose rest is dated on
      `to` is dated before the next date. */
  lemma DatedWithinExtend(es: seq<LogEntry>, k: nat, from: Date, to: Date)
    requires k <= |es| && from <= to
    requires DatedWithin(es[..k], from, to) && DatedWithin(es[k..], to, to + 1)
    ensures DatedWithin(es, from, to + 1)
  {
    forall i | 0 <= i < |es|
      ensures from <= DateOf(es[i].timestamp) < to + 1
    {
      if i < k {
        assert es[i] == es[..k][i];
      } else {
        assert es[i] == es[k..][i - k];
      }
    }
  }

  /** An entry of a prefix is an entry of the whole sequence. */
  lemma HasDatePrefix(es: seq<LogEntry>, k: nat, d: Date)
    requires k <= |es| && HasDate(es[..k], d)
    ensures HasDate(es, d)
  {
    var i :| 0 <= i < k && DateOf(es[..k][i].timestamp) == d;
    assert es[i] == es[..k][i];
  }
}
