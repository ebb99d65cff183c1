# Garmin Connect → InfluxDB daily import, modelled in Dafny

`import.py` fetches one user's daily wellness data from Garmin Connect and
writes it to InfluxDB 2 as time-series points. It covers an inclusive date
range, one day at a time. For each day it runs six mapping functions in a
fixed order:

- `day_hrv`
- `day_hr`
- `day_steps`
- `day_stress`
- `day_sleep`
- `day_user`

Each one turns one Garmin JSON record into calls of a write callback `w`.
Each call passes either one `Point` or a list of them.

This project models that translation layer as pure functions. A function
takes a source record and returns the ordered sequence of writes handed to
`w`. The project then proves what the writes contain:

- which points appear, and in what order;
- which optional blocks are skipped when their key is absent;
- how many points each reading turns into;
- the midday anchor `e + 43200` at second precision, used by every daily
  aggregate;
- the termination and day count of the date loop.

Files and modules:

- `wrappers.dfy` (`Wrappers`): the `Option` type. Keys that may be absent or
  falsy use it.
- `points.dfy` (`Points`): the InfluxDB side.
  - JSON scalars `Value`.
  - Precision: `Default` means the client parses an ISO string; `Millis` and
    `Seconds` mark integer epochs.
  - `Point`, with ordered fields and ordered tags.
  - `Write`: `Single` or `Batch`.
  - Flattening writes into the stream of points.
- `records.dfy` (`Records`): the Garmin side. There is one datatype per JSON
  object the program reads, holding only the keys it reads. A key read by
  indexing is a plain field. A key tested with `in` is an `Option`. A key read
  with `.get` is a `Value` that may be `Null`. There are two exceptions:
  - `baseline` is read with `.get` but only tested against `None`, so it is an
    `Option<Baseline>`;
  - `heartRateValues` is read by indexing but tested for truthiness, so it is
    an `Option` whose `None` stands for null.
- `categories.dfy` (`Categories`): the six mapping functions, and the field
  and tag names of every non-series point.
- `readback.dfy` (`Readback`): one decoder per category, from writes back to
  records. The lemmas prove two things for each category:
  - decoding the writes gives back the record, up to what the mapping
    discards (the `...Normal` functions);
  - every write sequence the decoder accepts is exactly the mapping of what
    it decodes to.

  Together these pin down the written output completely.
- `driver.dfy` (`Driver`): `day` (`Day`) and its whole-day properties, plus
  the `while se <= ee` loop (`Run`) and its reference definition (`Epochs`).
  `Driver.Day` only concatenates the six categories. Its properties are
  stated by the lemmas `Driver.DayOrdered`, `Driver.DayPointCount`,
  `Driver.DayAnchors` and `Driver.DayWellFormed`.

## Model

| member | source | states |
|---|---|---|
| Categories.DayHrv | import.py:12-30 | A falsy HRV record gives no writes. Otherwise there are 2 writes, or 3 when the baseline is not null, and the last is a batch with one point per reading. |
| Readback.HrvRoundTrip | import.py:15-30 | Decoding the HRV writes gives back the exact record. Every summary, baseline and reading value and timestamp is written. |
| Readback.HrvReadExact | import.py:15-30 | A write sequence is accepted as HRV output only in this shape: a summary point (`weekly_avg`, `night_avg`) at `createTimeStamp`; optionally a baseline point with exactly the 4 baseline fields at the same timestamp; then one batch of `hrv` points in reading order. Nothing else is accepted. |
| Categories.HrvSummaryPoint | import.py:16-19 | The HRV summary point has the fields `weekly_avg` and `night_avg`, no tags, and the time `createTimeStamp` at default precision. |
| Categories.BaselinePoint | import.py:22-27 | The baseline point has the 4 baseline fields, no tags, and the same `createTimeStamp` time as the summary. |
| Categories.DayHr | import.py:33-44 | There are 2 writes when the sample list is truthy and 1 otherwise. The last write is always the `max`/`min`/`resting` point. |
| Categories.HrAggregatePoint | import.py:40-44 | The heart-rate aggregate has fields `max`, `min`, `resting` and no tags. It is timestamped at `e + 43200` with second precision. |
| Categories.HrExample | import.py:36-44 | One sample `[1704110400000, 60]` with max 80, min 55 and resting 58 gives exactly two writes. The first is a one-point `bpm` batch at millisecond precision. The second is the aggregate at `e + 43200` with second precision. |
| Readback.HrRoundTrip | import.py:36-44 | Decoding the heart-rate writes gives back the samples, the three aggregates and the day epoch. A null sample list and an empty one both read back as no samples. |
| Readback.HrReadExact | import.py:36-44 | A write sequence is accepted as heart-rate output only in this shape: an optional non-empty batch of `bpm` points at millisecond precision, one per `[ms, v]` pair in order; then the aggregate point at midday. |
| Readback.HrNormalSame | import.py:36-38 | A null sample list and an empty one produce the same writes. |
| Categories.DaySteps | import.py:47-52 | There is always exactly one write: a batch, possibly empty, with one point per step interval. |
| Categories.StepPoint | import.py:48-52 | A step point is measurement `steps` with the single field `count` and the tags `activity_level` and `activity_level_constant`. Its timestamp is `endGMT` with `Z` appended. |
| Readback.StepsRoundTrip | import.py:47-52 | Decoding the steps batch gives back every interval: the count, both tags, and `endGMT` with the `Z` stripped. |
| Readback.StepsReadExact | import.py:47-52 | A write sequence is accepted as steps output only when it is a single batch of step points, in interval order. |
| Categories.DayStress | import.py:55-69 | There are 3 writes when `bodyBatteryValuesArray` is present and 2 otherwise. The first is the stress batch, written even when empty, with one point per pair. The last is the `max`/`avg` point at midday. |
| Categories.StressAggregatePoint | import.py:66-69 | The stress aggregate has the fields `max` and `avg` and no tags. It is timestamped at `e + 43200` with second precision. |
| Readback.StressRoundTrip | import.py:57-69 | Decoding the stress writes gives back the stress pairs, the aggregates and the day epoch. For body battery it gives back element 0 (time) and element 2 (value) of each 4-tuple; elements 1 and 3 are not written. |
| Readback.StressReadExact | import.py:57-69 | A write sequence is accepted as stress output only in this shape: the stress batch of `value` points at millisecond precision; then, if present, the `body_battery` batch; then the aggregate at midday. |
| Readback.StressNormalSame | import.py:61-64 | Elements 1 and 3 of a body-battery tuple have no effect on the writes. |
| Categories.DaySleep | import.py:72-117 | The number of writes is 2 plus the number of optional blocks present. The movement batch is always first and the main sleep point always last. |
| Categories.MovementPoint | import.py:76-78 | A movement point is measurement `sleep` with the single field `activity_level`, no tags, and the time `endGMT` with `Z` appended. |
| Categories.ScorePoint | import.py:80-88 | The sleep-score point has the 4 score fields and the 2 feedback tags. It is timestamped at `sleepEndTimestampGMT` with millisecond precision. |
| Categories.SleepPoint | import.py:101-117 | The main sleep point has the 2 window tags and exactly 13 fields, whatever they hold; the six `.get` values may be null. It is timestamped at `sleepEndTimestampGMT` with millisecond precision. |
| Readback.SleepRoundTrip | import.py:76-117 | Decoding the sleep writes gives back the movement readings, the score block, sleep stress, respiration and the daily sleep summary, up to one collapse: an empty respiration list with no sleep-stress key reads back as an empty sleep-stress list. |
| Readback.SleepReadExact | import.py:76-117 | A write sequence is accepted as sleep output only in this order: the movement batch; the score point if present; the sleep-stress batch if present; the respiration batch if present; the main point. |
| Readback.SleepNormalSame | import.py:90-99 | A present but empty sleep-stress list and a present but empty respiration list give the same single empty batch. |
| Categories.UserPoint | import.py:120-157 | The daily-summary point is measurement `user` with exactly the 34 listed fields and no tags. It is timestamped at `e + 43200` with second precision. |
| Categories.DayUser | import.py:120-157 | There is always exactly one write: a single `user` point at `e + 43200` with second precision. |
| Readback.UserRoundTrip | import.py:120-157 | Decoding the single `user` write gives back all 34 summary values and the day epoch. |
| Readback.UserReadExact | import.py:120-157 | A write sequence is accepted as daily-summary output only when it is the one `user` point of that summary. |
| Readback.SeriesExact | import.py:29-30 | A batch decodes to readings `xs` if and only if it holds one single-field, tag-less point per reading, in order, at the reading's own time. |
| Driver.DayOrdered | import.py:160-168 | A day's points come grouped by category in the fixed order hrv, heart rate, steps, stress (with body battery), sleep, user. |
| Driver.DayPointCount | import.py:160-168 | A day writes one point per reading of every series, plus one per summary, baseline, score or aggregate point written. |
| Driver.DayAnchors | import.py:160-168 | Exactly three points of a day have second precision: the heart-rate, stress and user aggregates, in that order, all at `e + 43200`. No other point of the day has second precision. |
| Driver.DayWellFormed | import.py:160-168 | No point of a day repeats a field name or a tag name, so no value is overwritten inside a point. |
| Driver.Run | import.py:194-196 | The loop visits exactly the epochs of `Epochs(se, ee)` and writes the per-day writes of each, in order. It terminates: `ee - se` decreases. |
| Driver.EpochsSpec | import.py:194-196 | The visited epochs are `se, se + 86400, ...`. Each one is at most `ee`, the next one after them is past `ee`, and there are none exactly when `se > ee`. |
| Driver.EpochsCount | import.py:194-196 | The loop runs `(ee - se) / 86400 + 1` days when `se <= ee` and none otherwise. Start equal to end gives exactly `[se]`. |
| Driver.RunWrites | import.py:194-196 | A run whose start is after its end writes nothing. A run whose start equals its end writes exactly that one day's writes. |

## Left out

- Command-line parsing, the password prompt, the Garmin login and its `assert` (import.py:172-186): interactive I/O and a network client.
- The InfluxDB client, `write_api` and the write transport (import.py:189-190, 195). The sink is modelled only as the sequence of writes it receives.
- The Garmin getters (`get_hrv_data` and the rest): foreign network calls. Their results are inputs (`Records.DayData`). `Driver.Run` is generic in the per-day step, and the program's step is `e => Day(e, source(e))`.
- Date strings and epochs. `strptime`, `fromtimestamp` and `strftime` run in local time, and the epochs are Python floats. The model uses integer epochs with no timezone, so `int(e + 43200)` is just `e + 43200`.
- Daylight-saving effects on the fixed 86400-second step. When the range crosses the autumn transition, one day's date string can repeat. When it crosses the spring-forward transition, the 23-hour day pushes every later epoch to 01:00, so the last candidate is past `ee` and the end date is skipped. With integer epochs and no timezone, the model has neither effect.
- The date string `d` passed to the getters. `day` formats it from the global `se` instead of its parameter `e`, but the only call site passes `se` as `e`. So the model treats each day's records as a function of `e` alone.
- The progress output (`print`, import.py:162-169).
- Exceptions. A missing required key, or a null where a list is iterated, makes the program raise. Required keys are modelled as always-present fields, and a key tested with `in` as an `Option`. A key that is present but null is not modelled.
- How InfluxDB parses ISO timestamp strings, stringifies tag values and treats null field values: library behaviour outside the program.
- The sub-objects of `sleepScores`. Only their `value` entry is read, so each score is modelled as that value. `sleepScoreFeedback` and `sleepScoreInsight` are read only when `sleepScores` is present, so they are bundled into the same optional block (`Records.ScoreBlock`).
