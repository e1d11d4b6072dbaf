# tomtom2garmin, modelled in Dafny

tomtom2garmin converts TomTom exports into Garmin FIT activity files. It reads GPX
tracks (`*.gpx`) and JSON step-tracking exports (`*.json_2`), picks an activity type,
sport and sub-sport from the file name prefix, turns every sample into a FIT record
message, and computes the aggregate statistics: first and last timestamp, elapsed
time, heart-rate min/max/avg, and for geolocated activities altitude min/max/avg and
start/end positions. It then lists the messages in order (file id, timer start,
records, timer stop, lap, session, activity) and hands them to the FIT library.

This project models everything the script itself decides, up to the point where the
message list reaches the FIT builder:

- `Profile`: the FIT profile enumeration members the script names.
- `Types`: a record message (`Record`, every optional field an `Option`), the
  classification `Descriptor`, and the ways a conversion stops (`ConversionError`).
- `Extract`: the nested `for` loops of `gpx_to_fit` and the heart-rate loop of
  `json_to_fit`, as methods whose loop invariants tie the list built so far to a
  specification function.
- `Classify`: the two `if/elif` prefix chains, plus the prefix tables as data and
  lemmas that the chains agree with the tables in both directions.
- `Aggregator`: the statistics of `create_activity_file`, as functions with lemmas.
- `Encoder`: the field-by-field filling of the file id, event, lap, session and
  activity messages and the final list, as methods.
- `Convert`: `gpx_to_fit` and `json_to_fit` end to end.

Numbers are exact: timestamps, positions and altitudes are `real`, heart rates are
`int`, and `/ 1000` and `/ len(...)` are real division. Python's `int()` on a float
is modelled as truncation toward zero (`Extract.Truncate`).

Two behaviours of the code are kept exactly as written:

- Values are selected by Python truthiness (`if record_msg.heart_rate`), so an unset
  value and a value of 0 are both left out (`ZeroHeartRateIsAbsent`,
  `ZeroAltitudeIsAbsent`). The same holds for `position_lat` in the "is geolocated"
  test: a track lying entirely on the equator counts as not geolocated.
- The average divides the sum of the selected values by the number of all records.
  So `min <= avg <= max` holds when every record has the value
  (`AverageBetweenWhenAllSelected`). Otherwise the average can fall below the minimum
  (`AverageBelowMinimumExample`: 100 bpm and an unset heart rate give min 100, avg 50).
  With negative altitudes it can even exceed the maximum (`AverageAboveMaximumExample`).
  With non-negative values it never exceeds the maximum (`AverageAtMostMax`).

Further behaviours of the code, modelled as written:

- The code does not guarantee `min <= avg <= max` for a metric with statistics,
  for the reason above.
- When no sample has a truthy heart rate, the code calls `min()` on an empty
  generator (tomtom2garmin.py:142-144), which raises, so no file is written. The
  model returns `Err(NoHeartRate)`. Likewise a geolocated activity without a truthy
  altitude fails at :153-155, modelled as `Err(NoAltitude)`.
- The `ValueError` built for an unrecognised prefix at tomtom2garmin.py:72 and :103
  is never raised. `activity_type` then stays unbound and the next use of it raises
  `UnboundLocalError`. Either way the file is not converted, and the model returns
  `Err(UnclassifiedActivity(name))` before any aggregation.
- `hiking_` maps to activity type RUNNING with sport HIKING (tomtom2garmin.py:65-67).

## Model

| member | source | states |
|---|---|---|
| `Extract.Truncate` | tomtom2garmin.py:87 | `int()` of a float truncates toward zero: the result has the sign of the input and lies within 1 of it, never farther from 0 |
| `Extract.GpxRecords` | tomtom2garmin.py:43-60 | one record per track point, tracks then segments then points in input order; each copies latitude, longitude, elevation and heart rate and has timestamp `int(time * 1000)` |
| `Extract.TrackPointsMembers` | tomtom2garmin.py:44-46 | a point is flattened into the record list exactly when it belongs to some segment of some track |
| `Extract.SegmentPointsMembers` | tomtom2garmin.py:45-46 | a point is in a track's flattened points exactly when it belongs to one of its segments |
| `Extract.JsonRecords` | tomtom2garmin.py:82-88 | exactly one record per `[offset, bpm]` pair, in order, with timestamp `(start + offset) * 1000`, heart rate `int(bpm)`, and no position or altitude |
| `Classify.ClassifyGpx` | tomtom2garmin.py:62-74 | GPX classification never supplies a sub-sport; an unrecognised name is refused with its own name |
| `Classify.GpxTableExact` | tomtom2garmin.py:62-72 | the GPX chain returns d exactly when a row of {cycling_: CYCLING/CYCLING, hiking_: RUNNING/HIKING, running_: RUNNING/RUNNING} matches the name with d; it fails exactly when no prefix matches |
| `Classify.ClassifyJson` | tomtom2garmin.py:90-105 | JSON classification always supplies a sub-sport; an unrecognised name is refused with its own name |
| `Classify.JsonTableExact` | tomtom2garmin.py:90-103 | the JSON chain returns d exactly when a row of {gym_: GENERIC/TRAINING/CARDIO_TRAINING, indoor_cycling_: CYCLING/CYCLING/INDOOR_CYCLING, treadmill_: RUNNING/RUNNING/TREADMILL} matches with d; it fails exactly when none matches |
| `Classify.TrackingDisjointFromJsonTable` | tomtom2garmin.py:78-80 | no `tracking_` name carries an activity prefix, so skipping tracking files first loses no activity |
| `Aggregator.Selected` | tomtom2garmin.py:142-144 | the truthiness filter keeps one value per record with a truthy reading and none for the others (its length is the number of truthy records), and its sum is the sum of the truthy readings |
| `Aggregator.SelectedMembers` | tomtom2garmin.py:143 | the selected values are exactly the set, non-zero readings of the records |
| `Aggregator.Min` | tomtom2garmin.py:142-144 | `min()` returns an element no larger than any other |
| `Aggregator.Max` | tomtom2garmin.py:145-147 | `max()` returns an element no smaller than any other |
| `Aggregator.StatsOf` | tomtom2garmin.py:142-150 | statistics exist exactly when some record has a truthy value; then min and max are the least and greatest truthy readings, min <= max, and avg is the sum of the truthy readings divided by the number of ALL records |
| `Aggregator.Aggregate` | tomtom2garmin.py:137-161 | fails only with one of the three errors: on no records, on no truthy heart rate, and on a geolocated activity with no truthy altitude, each exactly under its condition; otherwise start/end are the first/last timestamps, elapsed is (last - first) / 1000, heart-rate min/max are the least/greatest truthy readings and avg their sum over the number of all records, altitude stats exist exactly for geolocated activities (some truthy latitude) with min/max the least/greatest truthy altitudes and avg their sum over the number of all records |
| `Aggregator.AggregateStats` | tomtom2garmin.py:142-161 | the aggregated statistics are those of the heart-rate filter and, for geolocated activities only, of the altitude filter |
| `Aggregator.AverageAtMostMax` | tomtom2garmin.py:148-150 | when the maximum is non-negative, the all-records average never exceeds it |
| `Aggregator.AverageBetweenWhenAllSelected` | tomtom2garmin.py:148-150 | when every record has a truthy value, min <= avg <= max |
| `Aggregator.AverageBelowMinimumExample` | tomtom2garmin.py:142-150 | records with heart rates 100 and unset give min 100 and avg 50 |
| `Aggregator.AverageAboveMaximumExample` | tomtom2garmin.py:153-161 | a geolocated activity with altitudes -10 and unset gives altitude stats min = max = -10 and avg -5 |
| `Aggregator.SelectedAgree` | tomtom2garmin.py:143 | the filter depends only on which readings are truthy and on their values |
| `Aggregator.AggregateAgree` | tomtom2garmin.py:137-161 | changing one record without changing its timestamp, latitude or truthy readings leaves the aggregation unchanged |
| `Aggregator.ZeroHeartRateIsAbsent` | tomtom2garmin.py:143 | a heart rate of 0 aggregates exactly like an unset heart rate |
| `Aggregator.ZeroAltitudeIsAbsent` | tomtom2garmin.py:154 | an altitude of 0 aggregates exactly like an unset altitude |
| `Aggregator.WithinFirstAndLast` | tomtom2garmin.py:137-138 | for records in time order, every timestamp lies between the first and the last, inside the timer start/stop interval |
| `Aggregator.ElapsedNonNegative` | tomtom2garmin.py:139 | for records in time order the elapsed time is never negative |
| `Encoder.BuildLap` | tomtom2garmin.py:179-194 | lap stamped at the last record, started at the first, elapsed and timer time equal to the elapsed time, heart-rate stats; for a geolocated activity the first and last positions and altitude stats, otherwise those fields unset |
| `Encoder.BuildSession` | tomtom2garmin.py:196-213 | session index 1, the sport, the sub-sport exactly when one is supplied, stamped and started at the first record, elapsed and timer time, heart-rate stats; for a geolocated activity only the start position and altitude stats |
| `Encoder.MessageListLayout` | tomtom2garmin.py:222-231 | the list is n + 6 long with the file id first, timer start second, the records unchanged and in order, then timer stop, lap, session and activity; reading its records back returns the input records |
| `Encoder.BuildMessages` | tomtom2garmin.py:163-231 | given a summary, the list has the ValidStream layout: file id, timer start, the records unchanged, timer stop, the lap and session above, the activity; n + 6 messages whose records read back unchanged |
| `Encoder.CreateActivityFile` | tomtom2garmin.py:137-231 | fails exactly when the aggregation fails, with its error; otherwise file id (ACTIVITY, TOMTOM, "TomTom Adventurer", created at the first timestamp), timer start at the first and STOP_ALL at the last timestamp, the lap and session above, and an activity stamped at the first timestamp with timer time (last - first) / 1000, one session, the activity type and local timestamp first / 1000; the records read back unchanged |
| `Convert.GpxToFit` | tomtom2garmin.py:42-74 | an unrecognised prefix fails with UnclassifiedActivity whatever the points; otherwise the result is the message list of the flattened point records with the prefix's descriptor, or the aggregation's error |
| `Convert.JsonToFit` | tomtom2garmin.py:77-105 | the result is "skipped" exactly for `tracking_` names; other unrecognised names fail with UnclassifiedActivity; otherwise the message list of the heart-rate records with the prefix's descriptor, or the aggregation's error |
| `Convert.GymHeartRate` | tomtom2garmin.py:142-150 | heart rates 100, 110, 120 give min 100, max 120 and avg 330 / 3 = 110 |
| `Convert.GymExample` | tomtom2garmin.py:83-150 | heart rates 100, 110, 120 one second apart from second 1 aggregate to start 1000, end 3000, elapsed 2, heart rate 100/120/110, not geolocated; `gym_` classifies as GENERIC/TRAINING/CARDIO_TRAINING |

## Left out

- FIT serialisation (`FitFileBuilder`, `build`, `to_file`, tomtom2garmin.py:233-237): the byte layout, field scaling (degrees to semicircles, altitude and time scaling) and CRC belong to the fit_tool library, which is not part of this model. The model stops at the ordered message list.
- The integrity check `assert_fit_integrity` (tomtom2garmin.py:108-112): it calls the external garmin_fit_sdk decoder.
- Parsing: `gpxpy.parse`, `json.load`, `datetime.fromisoformat`, `point.time.timestamp()` and the TrackPointExtension lookup are taken as already done. Inputs are parsed points (position, optional elevation, time in seconds, optional heart rate) and the JSON start time in seconds with its `[offset, bpm]` pairs. Parse failures, a missing `time`, a missing `hr` element or a pair of the wrong length are not modelled.
- `main` (tomtom2garmin.py:115-127, 242): directory walk, dispatch on the `.gpx` / `.json_2` extension, renaming to `.fit`, creating the output directory, printing and `sys.argv`. These are I/O. The model classifies the `.fit` name the script builds.
- Floating-point rounding: every computation is exact. In particular `int(time * 1000)` truncates an exact product.
- `if subsport:` is modelled as "a sub-sport was supplied". Every sub-sport the script ever passes is a non-zero enum member, so this agrees with Python truthiness on all calls the script makes.
- The numeric codes of the FIT enumeration members are not modelled. Only their identity matters to the script.
