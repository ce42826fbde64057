# Trucker logbook: duty-log generation and daily summaries

A Dafny model of the duty-log pipeline of a Django trucker-logbook backend.
The pipeline has three parts:

- **The generator** (`generate_dummy_logs`) simulates a multi-day trip as a
  sequence of duty-status changes. The statuses are off duty (OD), sleeper
  berth (SB), driving (DR) and on duty (ON). Each simulated day starts at
  midnight and follows a fixed pattern: start of day, pre-trip inspection, a
  first leg, a fuel stop, a second leg, a sleeper-berth rest, a third leg, a
  thirty-minute break if the day's driving passed eight hours, loading at the
  pickup, and end of day at a randomly drawn intermediate city. The loop stops
  at the drop-off or after five days. A drop-off entry always closes the log.
- **The aggregator** (`calculate_daily_summary`) reads a trip's entries in
  timestamp order and groups them by calendar date. It books each interval
  between consecutive entries of a date to the earlier entry's status. Every
  interval that starts driving adds a flat 100 miles to the mileage carried
  from the previous date's summary. It then writes one summary per date.
- **The endpoint** (`generate_logs`) is modelled as a transition on an
  abstract store. It looks the trip up, deletes the trip's entries, gets or
  creates its configuration, generates and inserts a fresh log, and
  summarises.

Modelling choices:

- Time is whole seconds since the epoch, in UTC. A timestamp's date is its
  floor-division by 86400. Hours are exact reals.
- Every random draw of a day is a `DayDraw` value: the pre-trip and gap
  minutes, the three leg lengths, the loading time and the three cities.
  The ranges of the random calls are preconditions.
- The three drawn cities must be ones the source's resampling loop can
  return: a city of the pool that is none of the day's current location, the
  start, the pickup or the drop-off.
- Geocoding is a function from a label to an optional coordinate.
- Python's `date` holds 0001-01-01 to 9999-12-31. The generator's roll-over
  past the last date and the aggregator's step back before the first date
  raise. No transaction wraps the endpoint, so such an error leaves the
  writes made before it in place; the model returns that store with the
  error.

Modules:

| file | module | contents |
|---|---|---|
| `wrappers.dfy` | `Wrappers` | `Option` and `Result` |
| `models.dfy` | `Models` | the records, the status enum and the calendar arithmetic |
| `generator.dfy` | `Generator` | the generator as a state machine over the Python locals |
| `generator_proofs.dfy` | `GeneratorProofs` | the closed form of one day: its entries, statuses and time window |
| `generator_run.dfy` | `GeneratorRun` | the invariant every appended entry keeps, and one day as a step |
| `generator_theorems.dfy` | `GeneratorTheorems` | the loop over days and the properties of the whole generated log |
| `summary.dfy` | `Summary` | the aggregator |
| `orchestration.dfy` | `Orchestration` | the endpoint as a store transition |

## Model

| member | source | states |
|---|---|---|
| Models.DateOfMidnightPlus | spotter_ai_logbook/spotter_ai_trucker_logbook/settings.py:110-114 | with the clock in UTC, a time less than a day after a date's midnight is dated on that date |
| Generator.ResampleIntermediate | spotter_ai_logbook/trucker_logbook/helper.py:90-100 | the resampling loop returns the first pick that is none of the current, start, pickup and drop-off labels, every earlier pick being excluded; it finds nothing exactly when every pick is excluded |
| GeneratorTheorems.AdmissibleCityExists | spotter_ai_logbook/trucker_logbook/helper.py:8-30 | whatever the four excluded labels are, one of the first five pool cities is admissible, so the resampling loop can always stop |
| GeneratorTheorems.ResampleCanStop | spotter_ai_logbook/trucker_logbook/helper.py:90-100 | some single pick of the pool ends the resampling loop with that city |
| Generator.RunDays | spotter_ai_logbook/trucker_logbook/helper.py:102-105 | the loop ends at the drop-off or once five days have run, and never runs more than five |
| Generator.GenerateDummyLogs | spotter_ai_logbook/trucker_logbook/helper.py:289-301 | the log ends with an ON entry at the drop-off, remark "Dropoff", carrying the drop-off's coordinates |
| Generator.GenerateDummyLogsChecked | spotter_ai_logbook/trucker_logbook/helper.py:280-284 | the roll-over to the next date raises past 9999-12-31, leaving no log; a log that is returned is the simulated one and ends on a date Python can hold |
| GeneratorProofs.BreakIfNeededEffect | spotter_ai_logbook/trucker_logbook/helper.py:184-198 | a break entry is logged exactly when the day's driving exceeds eight hours; it is a thirty-minute ON entry at the given city and resets only the driving count |
| GeneratorProofs.MorningExplicit | spotter_ai_logbook/trucker_logbook/helper.py:105-182 | when the first two legs stay within eight hours, the morning logs start of day, pre-trip, driving, fuel stop and driving; the first two carry the start location's coordinates whatever the day's location |
| GeneratorProofs.EveningExplicit | spotter_ai_logbook/trucker_logbook/helper.py:200-287 | the rest of the day logs sleeper berth, driving, the optional break at the fuel-stop city, loading at the pickup and end of day; the clock jumps to the next midnight at the end-of-day city with both counters reset |
| GeneratorProofs.DayExplicit | spotter_ai_logbook/trucker_logbook/helper.py:102-287 | one pass of the loop body from a day with nothing driven appends exactly the morning and evening entries and counts the day, when the first two legs stay within eight hours (which their 3-4 hour ranges guarantee, so the first break check never fires) |
| GeneratorProofs.DayStatuses | spotter_ai_logbook/trucker_logbook/helper.py:107-279 | one pass of the loop body from a day with nothing driven appends entries whose statuses are OD ON DR ON DR SB DR [ON] ON OD, the optional ON present exactly when the three legs pass eight hours; so a day appends 9 or 10 entries |
| GeneratorProofs.DayNextMidnight | spotter_ai_logbook/trucker_logbook/helper.py:118-284 | a day started at midnight ends within 22.5 hours, so the next day starts at the following midnight |
| GeneratorProofs.DayOutline | spotter_ai_logbook/trucker_logbook/helper.py:102-287 | a day keeps the log so far, appends 9 or 10 entries and leaves at the next midnight from the end-of-day city with nothing driven |
| GeneratorRun.EmitKeeps | spotter_ai_logbook/trucker_logbook/helper.py:154-164 | appending an entry stamped with the current clock, with coordinates of its own location and at an intermediate city when it is a stop, keeps the log ordered, of the trip, driving en route, geocoded and its start-of-day count |
| GeneratorRun.DayKeeps | spotter_ai_logbook/trucker_logbook/helper.py:105-287 | one simulated day keeps that invariant |
| GeneratorRun.DayDates | spotter_ai_logbook/trucker_logbook/helper.py:118-284 | every entry a day started at midnight appends is dated on that day |
| GeneratorRun.DayStep | spotter_ai_logbook/trucker_logbook/helper.py:102-287 | one day, as the loop sees it: invariant kept, prefix kept, 9 or 10 entries dated on that day, next midnight, end-of-day city |
| GeneratorRun.AdmissibleIsIntermediate | spotter_ai_logbook/trucker_logbook/helper.py:90-100 | a city the resampling loop returns is a pool city other than the start, pickup and drop-off |
| GeneratorTheorems.ValidDrawsRun | spotter_ai_logbook/trucker_logbook/helper.py:150-268 | the cities drawn for every day the loop can reach are intermediate cities |
| GeneratorTheorems.RunInvNext | spotter_ai_logbook/trucker_logbook/helper.py:102-287 | after day k the state is at midnight of the start date plus k, at day k's end-of-day city, never the drop-off, with 9 to 10 entries per day, all dated within the days simulated and each of those days with an entry |
| GeneratorTheorems.RunDaysKeeps | spotter_ai_logbook/trucker_logbook/helper.py:102-287 | the loop keeps that state invariant |
| GeneratorTheorems.RunDaysResult | spotter_ai_logbook/trucker_logbook/helper.py:102-105 | the loop runs exactly five days unless the trip starts at its drop-off, when it runs none, because every day ends at an intermediate city |
| GeneratorTheorems.GeneratedLogShape | spotter_ai_logbook/trucker_logbook/helper.py:57-301 | the generated log is in timestamp order, belongs to the trip, logs every DR entry "En Route" with the previous entry's coordinates, stops only at intermediate cities, and has one "Start of day" entry per simulated day |
| GeneratorTheorems.GeneratedLogCalendar | spotter_ai_logbook/trucker_logbook/helper.py:65-301 | the log has 9 to 10 entries per simulated day plus the drop-off; every other entry is dated within the simulated days, the drop-off is stamped at midnight of the start date plus the days simulated, and every date from the start date to the drop-off's has an entry |
| GeneratorTheorems.GeneratedLogOverflow | spotter_ai_logbook/trucker_logbook/helper.py:102-284 | the generator raises exactly when the start date plus the days simulated lies past 9999-12-31: for a trip not starting at its drop-off, a start date among the last five dates Python can hold |
| GeneratorTheorems.StartAtDropoff | spotter_ai_logbook/trucker_logbook/helper.py:102-104 | a trip that starts at its drop-off logs only the drop-off entry, at midnight of its start date |
| Summary.TallyDay | spotter_ai_logbook/trucker_logbook/views.py:184-217 | the loop over a date's entries books each interval to the earlier entry's status and adds 100 miles per interval that starts driving, matching the pairwise reference sums |
| Summary.HoursTelescope | spotter_ai_logbook/trucker_logbook/views.py:199-217 | the four buckets of a date add up to the time from its first entry to its last |
| Summary.HoursNonNegative | spotter_ai_logbook/trucker_logbook/views.py:199-217 | for entries in timestamp order no bucket is negative |
| Summary.DrivingPairsByStatuses | spotter_ai_logbook/trucker_logbook/views.py:210-215 | the mileage increment depends only on the statuses, not on the intervals' lengths |
| Summary.DaySummaryHours | spotter_ai_logbook/trucker_logbook/views.py:199-229 | for a date's ordered entries the buckets are non-negative, span the date's first to last entry, and lines 3 and 4 are driving plus on-duty hours |
| Summary.OrderByTimestamp | spotter_ai_logbook/trucker_logbook/views.py:169 | ordering by timestamp is a permutation of the trip's entries |
| Summary.OrderByTimestampSorted | spotter_ai_logbook/trucker_logbook/views.py:169 | the entries come back in timestamp order |
| Summary.OrderByTimestampOfSorted | spotter_ai_logbook/trucker_logbook/views.py:169 | entries already in timestamp order come back unchanged |
| Summary.DistinctDates | spotter_ai_logbook/trucker_logbook/views.py:174-179 | the grouping's keys are exactly the dates some entry is stamped on |
| Summary.DistinctDatesIncreasing | spotter_ai_logbook/trucker_logbook/views.py:169-182 | for ordered entries the dates are visited in strictly increasing order |
| Summary.EntriesOn | spotter_ai_logbook/trucker_logbook/views.py:174-179 | a date's group holds only entries of that date, all taken from the input |
| Summary.EntriesOnContents | spotter_ai_logbook/trucker_logbook/views.py:174-179 | a date's group holds every entry of that date, as many times as it occurs among the entries, and no other entry |
| Summary.EntriesOnPresent | spotter_ai_logbook/trucker_logbook/views.py:174-179 | a date's group is non-empty exactly when the date is among the grouping's keys |
| Summary.EntriesOnSorted | spotter_ai_logbook/trucker_logbook/views.py:174-179 | the group of a date keeps timestamp order |
| Summary.SummarizeDatesFacts | spotter_ai_logbook/trucker_logbook/views.py:181-231 | the loop over increasing dates writes exactly one summary per date and nothing else; each carries the mileage of the previous date's summary as the store ends up holding it, which makes mileage cumulative over consecutive dates |
| Summary.CalculateDailySummaryOutcome | spotter_ai_logbook/trucker_logbook/views.py:165-196 | with no entries the store is unchanged; otherwise the step back to the previous date raises exactly when some entry is stamped on 0001-01-01, and then before any summary is written, because that date is visited first |
| Summary.CalculateDailySummaryKeys | spotter_ai_logbook/trucker_logbook/views.py:174-231 | when no entry is on 0001-01-01, one summary per date among the entries is upserted and every other key is untouched |
| Summary.CalculateDailySummaryValues | spotter_ai_logbook/trucker_logbook/views.py:181-231 | each written summary holds that date's totals over its entries in timestamp order, with the mileage carried from the previous date's final summary |
| Summary.WrittenSummaryHours | spotter_ai_logbook/trucker_logbook/views.py:165-231 | when no entry is on 0001-01-01, every date among the entries gets a summary, built from a non-empty, timestamp-ordered run of that date's entries |
| Orchestration.TripEntries | spotter_ai_logbook/trucker_logbook/views.py:169 | a trip's entries are exactly the stored entries of that trip |
| Orchestration.WithoutTrip | spotter_ai_logbook/trucker_logbook/views.py:138 | deleting a trip's entries keeps exactly the other trips' entries |
| Orchestration.TripEntriesPartition | spotter_ai_logbook/trucker_logbook/views.py:138-169 | selecting a trip's entries and deleting them split the stored entries: every entry lands on exactly one side, as often as it was stored |
| Orchestration.GetOrCreateConfiguration | spotter_ai_logbook/trucker_logbook/views.py:147-149 | afterwards the trip has a configuration; existing rows are kept, and one row is added exactly when the trip had none |
| Orchestration.GenerateLogs | spotter_ai_logbook/trucker_logbook/views.py:130-162 | the request fails with not-found exactly when the trip is unknown; a success or a calendar overflow leaves the trips as they were |
| Orchestration.InsertAndSummarise | spotter_ai_logbook/trucker_logbook/views.py:156-159 | the insert stays when the summary raises; a success stores the entries with the log appended |
| Orchestration.ReplaceTripEntries | spotter_ai_logbook/trucker_logbook/views.py:138-156 | deleting a trip's entries and inserting a log of that trip leaves exactly that log as the trip's entries and other trips' entries as they were |
| Orchestration.GenerateLogsOutcome | spotter_ai_logbook/trucker_logbook/views.py:130-162 | on a known trip the endpoint succeeds exactly when the start date is after 0001-01-01 and the start date plus the days simulated is on or before 9999-12-31 |
| Orchestration.GenerateLogsPartialWrite | spotter_ai_logbook/trucker_logbook/views.py:136-159 | when the calendar overflows, the writes before the exception stay: the trip's old entries are gone, it has a configuration, the summaries and other trips' entries are as they were, and the fresh log is stored exactly when only the summary raised |
| Orchestration.GenerateLogsEntries | spotter_ai_logbook/trucker_logbook/views.py:130-156 | when the calendar fits, the endpoint succeeds, the trip's entries are exactly the fresh log and other trips' entries are unchanged |
| Orchestration.GenerateLogsConfiguration | spotter_ai_logbook/trucker_logbook/views.py:147-149 | when the calendar fits, the trip ends with a configuration, existing rows are kept, and the default one is added exactly when the trip had none |
| Orchestration.GenerateLogsKeepsSummaries | spotter_ai_logbook/trucker_logbook/views.py:158-231 | every summary the endpoint does not rewrite, of another trip or of the trip on a date the fresh log does not reach, stays with its value |
| Orchestration.GenerateLogsSummaries | spotter_ai_logbook/trucker_logbook/views.py:158-159 | when the calendar fits, no summary is deleted, other trips' summaries and the trip's own for dates outside the fresh log keep their values, new keys are the fresh log's dates, and each of those dates is summarised from the fresh log with the carried mileage |
| Orchestration.GenerateLogsFirstMileage | spotter_ai_logbook/trucker_logbook/views.py:190-196 | the start date gets a summary whose mileage starts from the trip's summary for the day before, as stored before the request |
| Orchestration.GenerateLogsDates | spotter_ai_logbook/trucker_logbook/views.py:151-159 | the dates of the fresh log, which the endpoint summarises, are exactly those from the trip's start date to the drop-off date, start date plus five unless the trip starts at its drop-off |

## Left out

- Geocoding (`geocode_location`, helper.py:33-54) is an HTTP call with error handling. It is a parameter `Geocoder = string -> Option<Coord>`; a failed lookup is `None`, which stores null coordinates.
- Python's `random` is replaced by the per-day `DayDraw` records. The resampling loop's probabilistic termination is modelled as a finite stream of picks (`ResampleIntermediate`) plus the proof that a stopping pick exists.
- Floating point: `random.uniform` durations are whole seconds and hours are exact reals, so float rounding in the sums is not modelled.
- Timezone handling: the deployment runs in UTC, and dates are floor-divisions of the timestamp.
- Python's calendar bounds are modelled where the pipeline steps a date: the generator's roll-over past 9999-12-31 and the summary's step back from 0001-01-01. A stored trip's start date is not constrained to that range, because the database never holds one outside it.
- Summary.OrderByTimestamp: the database's order among entries with the same timestamp is unspecified. The model keeps stored order among ties. The generator can produce ties when a random gap is zero, and the order of tied entries changes which bucket an interval is booked to.
- `delete_all_data` (helper.py:304-309) and its import-time call are a global wipe with no logic.
- The REST views, `check_existing_trip`, the serialisers and the URL table are request marshalling over the ORM.
- Configuration values are only checked for existence, because the generator never reads them. `Trip.current_cycle_hours` is carried but unused. Row ids and `Trip.created_at` are not modelled: nothing in the pipeline reads them.
- Concurrency: two concurrent regenerations of one trip can interleave their deletes and inserts. The code takes no lock, so there is nothing to model.
- GeneratorTheorems.GeneratedLogShape: the coordinates are stated as "of the entry's own location, or of the start location for start-of-day and pre-trip entries". This is weaker than the source's promise that those two entries always carry the start location's coordinates. The exact per-day entries, coordinates included, are stated by GeneratorProofs.MorningExplicit and GeneratorProofs.EveningExplicit.
- Stale summaries: the code never deletes summaries, so a regeneration keeps summaries for dates that no longer have entries, and the model follows it. Orchestration.GenerateLogsSummaries states that every earlier summary survives, with its value unless the fresh log rewrites its date. Orchestration.GenerateLogsFirstMileage states that a stale summary for the day before the new start date seeds the first date's mileage.
