/** The six per-category mappings of one day's records to the ordered writes
    handed to the database (`day_hrv` … `day_user` in import.py). Each
    function returns the sequence of arguments the program passes to its
    write callback, in call order. */
module Categories {
  import opened Wrappers
  import opened Points
  import opened Records

  // ---- Schemas: the field and tag names of the single (non-series) points ----

  const HrvSummaryFields: seq<string> := ["weekly_avg", "night_avg"]
  const BaselineFields: seq<string> :=
    ["baseline_low_upper", "baseline_low_balanced", "baseline_upper_balanced", "marker_value"]
  const HrAggregateFields: seq<string> := ["max", "min", "resting"]
  const StepTags: seq<string> := ["activity_level", "activity_level_constant"]
  const StressAggregateFields: seq<string> := ["max", "avg"]
  const ScoreTags: seq<string> := ["sleep_score_feedback", "sleep_score_insight"]
  const ScoreFields: seq<string> := ["sleep_score", "rem_percentage", "deep_percentage", "light_percentage"]
  const SleepTags: seq<string> := ["sleep_window_confirmed", "sleep_window_confirmation_type"]
  const SleepFields: seq<string> := [
    "sleep_seconds", "nap_seconds", "mean_sleep_stress", "awake_count",
    "mean_respiration", "min_respiration", "max_respiration", "restless_moments",
    "unmeasurable_seconds", "deep_seconds", "light_seconds", "rem_seconds", "awake_seconds"]
  const UserFields: seq<string> := [
    "total_kcal", "active_kcal", "bmr_kcal", "wellness_kcal",
    "total_steps", "total_meters", "step_goal",
    "highly_active_seconds", "active_seconds", "sedenary_seconds", "sleeping_seconds",
    "moderate_intensity_minutes", "vigorous_intensity_minutes",
    "floors_ascended_meters", "floors_descended_meters",
    "min_heart_rate", "max_heart_rate", "resting_heart_rate",
    "average_stress", "max_stress", "stress_seconds", "rest_stress_seconds",
    "activity_stress_seconds", "uncategorized_stress_seconds",
    "low_stress_seconds", "medium_stress_seconds", "high_stress_seconds",
    "measurable_awake_seconds", "measurable_sleep_seconds",
    "body_battery_charged", "body_battery_drained", "body_battery_max", "body_battery_min",
    "resting_kcal_from_activity"]

  /** `p` is a point of measurement `m` whose field and tag names are exactly
      `fields` and `tags`, in that order, timestamped at precision `prec`. */
  predicate Fits(p: Point, m: string, fields: seq<string>, tags: seq<string>, prec: Precision) {
    p.measurement == m && Names(p.fields) == fields && Names(p.tags) == tags && p.time.precision == prec
  }

  /** Python truthiness of a JSON list that may also be null. */
  predicate Truthy(xs: Option<seq<Sample>>) {
    xs.Some? && |xs.value| > 0
  }

  /** An ISO timestamp string with the UTC designator appended (`endGMT + 'Z'`). */
  function Utc(s: string): Value {
    Text(s + "Z")
  }

  // ---- Per-reading series ----

  /** One point per reading, in reading order: measurement `m`, the single
      field `f` holding the reading's value, no tags, the reading's own time. */
  function SamplePoint(m: string, f: string, prec: Precision, x: Sample): Point {
    Point(m, [(f, x.value)], [], Time(x.time, prec))
  }

  function Series(m: string, f: string, xs: seq<Sample>, prec: Precision): seq<Point> {
    seq(|xs|, i requires 0 <= i < |xs| => SamplePoint(m, f, prec, xs[i]))
  }

  // ---- HRV ----

  function HrvSummaryPoint(s: HrvSummary): (p: Point)
    ensures Fits(p, "hrv", HrvSummaryFields, [], Default) && p.time.at == s.createTimeStamp
  {
    Point("hrv", [("weekly_avg", s.weeklyAvg), ("night_avg", s.lastNightAvg)], [],
          Time(s.createTimeStamp, Default))
  }

  function BaselinePoint(s: HrvSummary, b: Baseline): (p: Point)
    ensures Fits(p, "hrv", BaselineFields, [], Default) && p.time.at == s.createTimeStamp
  {
    Point("hrv",
          [("baseline_low_upper", b.lowUpper),
           ("baseline_low_balanced", b.balancedLow),
           ("baseline_upper_balanced", b.balancedUpper),
           ("marker_value", b.markerValue)],
          [], Time(s.createTimeStamp, Default))
  }

  /** `day_hrv`: nothing for a falsy record; otherwise the summary point, the
      baseline point when the baseline is not null, then one batch of
      readings. */
  function DayHrv(hrv: Option<Hrv>): (r: seq<Write>)
    ensures hrv.None? <==> r == []
    ensures hrv.Some? ==> |r| == (if hrv.value.hrvSummary.baseline.Some? then 3 else 2)
    ensures hrv.Some? ==> r[|r| - 1].Batch? && |r[|r| - 1].points| == |hrv.value.hrvReadings|
  {
    match hrv
    case None => []
    case Some(h) =>
      var s := h.hrvSummary;
      [Single(HrvSummaryPoint(s))]
      + (match s.baseline
         case None => []
         case Some(b) => [Single(BaselinePoint(s, b))])
      + [Batch(Series("hrv", "hrv", h.hrvReadings, Default))]
  }

  // ---- Heart rate ----

  function HrAggregatePoint(hr: HeartRates, e: int): (p: Point)
    ensures Fits(p, "heart_rate", HrAggregateFields, [], Seconds) && p.time == Midday(e)
  {
    Point("heart_rate",
          [("max", hr.maxHeartRate), ("min", hr.minHeartRate), ("resting", hr.restingHeartRate)],
          [], Midday(e))
  }

  /** `day_hr`: the per-sample batch only when the sample list is truthy, then
      the aggregate point at midday. */
  function DayHr(hr: HeartRates, e: int): (r: seq<Write>)
    ensures |r| == (if Truthy(hr.heartRateValues) then 2 else 1)
    ensures r[|r| - 1] == Single(HrAggregatePoint(hr, e))
  {
    (if Truthy(hr.heartRateValues)
     then [Batch(Series("heart_rate", "bpm", hr.heartRateValues.value, Millis))]
     else [])
    + [Single(HrAggregatePoint(hr, e))]
  }

  /** One sample at 1704110400000 ms with 60 bpm, maximum 80, minimum 55,
      resting 58: exactly one one-point batch and the aggregate at midday. */
  lemma HrExample(e: int)
    ensures DayHr(HeartRates(Some([Sample(Int(1704110400000), Int(60))]), Int(80), Int(55), Int(58)), e)
         == [Batch([Point("heart_rate", [("bpm", Int(60))], [], Time(Int(1704110400000), Millis))]),
             Single(Point("heart_rate", [("max", Int(80)), ("min", Int(55)), ("resting", Int(58))], [],
                          Time(Int(e + 43200), Seconds)))]
  {
    var xs := [Sample(Int(1704110400000), Int(60))];
    assert Series("heart_rate", "bpm", xs, Millis)
        == [Point("heart_rate", [("bpm", Int(60))], [], Time(Int(1704110400000), Millis))];
  }

  // ---- Steps ----

  function StepPoint(s: StepInterval): (p: Point)
    ensures Fits(p, "steps", ["count"], StepTags, Default) && p.time.at == Utc(s.endGMT)
  {
    Point("steps", [("count", s.steps)],
          [("activity_level", s.primaryActivityLevel),
           ("activity_level_constant", s.activityLevelConstant)],
          Time(Utc(s.endGMT), Default))
  }

  function StepPoints(steps: seq<StepInterval>): (ps: seq<Point>)
    ensures |ps| == |steps|
  {
    seq(|steps|, i requires 0 <= i < |steps| => StepPoint(steps[i]))
  }

  /** `day_steps`: exactly one write, a batch with one point per interval. */
  function DaySteps(steps: seq<StepInterval>): (r: seq<Write>)
    ensures |r| == 1 && r[0].Batch? && |r[0].points| == |steps|
  {
    [Batch(StepPoints(steps))]
  }

  // ---- Stress and body battery ----

  /** The two elements of a body-battery 4-tuple the program keeps:
      element 0 as the time and element 2 as the value. */
  function Kept(rs: seq<BatteryReading>): (xs: seq<Sample>)
    ensures |xs| == |rs|
  {
    seq(|rs|, i requires 0 <= i < |rs| => Sample(rs[i].time, rs[i].level))
  }

  function StressAggregatePoint(s: Stress, e: int): (p: Point)
    ensures Fits(p, "stress", StressAggregateFields, [], Seconds) && p.time == Midday(e)
  {
    Point("stress", [("max", s.maxStressLevel), ("avg", s.avgStressLevel)], [], Midday(e))
  }

  /** `day_stress`: the stress batch (even when empty), the body-battery batch
      when its key is present, then the aggregate point at midday. */
  function DayStress(s: Stress, e: int): (r: seq<Write>)
    ensures |r| == (if s.bodyBatteryValuesArray.Some? then 3 else 2)
    ensures r[0].Batch? && |r[0].points| == |s.stressValuesArray|
    ensures r[|r| - 1] == Single(StressAggregatePoint(s, e))
  {
    [Batch(Series("stress", "value", s.stressValuesArray, Millis))]
    + (match s.bodyBatteryValuesArray
       case None => []
       case Some(rs) => [Batch(Series("body_battery", "value", Kept(rs), Millis))])
    + [Single(StressAggregatePoint(s, e))]
  }

  // ---- Sleep ----

  function MovementPoint(m: Movement): (p: Point)
    ensures Fits(p, "sleep", ["activity_level"], [], Default) && p.time.at == Utc(m.endGMT)
  {
    Point("sleep", [("activity_level", m.activityLevel)], [], Time(Utc(m.endGMT), Default))
  }

  function MovementPoints(ms: seq<Movement>): (ps: seq<Point>)
    ensures |ps| == |ms|
  {
    seq(|ms|, i requires 0 <= i < |ms| => MovementPoint(ms[i]))
  }

  function ScorePoint(sc: ScoreBlock, d: DailySleep): (p: Point)
    ensures Fits(p, "sleep", ScoreFields, ScoreTags, Millis) && p.time.at == d.sleepEndTimestampGMT
  {
    Point("sleep",
          [("sleep_score", sc.overall),
           ("rem_percentage", sc.remPercentage),
           ("deep_percentage", sc.deepPercentage),
           ("light_percentage", sc.lightPercentage)],
          [("sleep_score_feedback", sc.feedback), ("sleep_score_insight", sc.insight)],
          Time(d.sleepEndTimestampGMT, Millis))
  }

  /** The main sleep point; the six values read with `.get` may be `Null`,
      and the point has the same thirteen fields whatever they hold. */
  function SleepPoint(d: DailySleep): (p: Point)
    ensures Fits(p, "sleep", SleepFields, SleepTags, Millis) && p.time.at == d.sleepEndTimestampGMT
  {
    Point("sleep",
          [("sleep_seconds", d.sleepTimeSeconds),
           ("nap_seconds", d.napTimeSeconds),
           ("mean_sleep_stress", d.avgSleepStress),
           ("awake_count", d.awakeCount),
           ("mean_respiration", d.averageRespirationValue),
           ("min_respiration", d.minRespirationValue),
           ("max_respiration", d.maxRespirationValue),
           ("restless_moments", d.restlessMomentsCount),
           ("unmeasurable_seconds", d.unmeasurableSleepSeconds),
           ("deep_seconds", d.deepSleepSeconds),
           ("light_seconds", d.lightSleepSeconds),
           ("rem_seconds", d.remSleepSeconds),
           ("awake_seconds", d.awakeSleepSeconds)],
          [("sleep_window_confirmed", d.sleepWindowConfirmed),
           ("sleep_window_confirmation_type", d.sleepWindowConfirmationType)],
          Time(d.sleepEndTimestampGMT, Millis))
  }

  /** The number of optional blocks of a sleep record that are present. */
  function SleepOptionals(s: Sleep): nat {
    (if s.sleepScores.Some? then 1 else 0)
    + (if s.sleepStress.Some? then 1 else 0)
    + (if s.wellnessEpochRespirationDataDTOList.Some? then 1 else 0)
  }

  /** `day_sleep`: the movement batch, the score point, the sleep-stress
      batch and the respiration batch (each only when its key is present),
      then the main sleep point. */
  function DaySleep(s: Sleep): (r: seq<Write>)
    ensures |r| == 2 + SleepOptionals(s)
    ensures r[0] == Batch(MovementPoints(s.sleepMovement))
    ensures r[|r| - 1] == Single(SleepPoint(s.dailySleepDTO))
  {
    var d := s.dailySleepDTO;
    [Batch(MovementPoints(s.sleepMovement))]
    + (match s.sleepScores
       case None => []
       case Some(sc) => [Single(ScorePoint(sc, d))])
    + (match s.sleepStress
       case None => []
       case Some(xs) => [Batch(Series("sleep", "stress", xs, Millis))])
    + (match s.wellnessEpochRespirationDataDTOList
       case None => []
       case Some(xs) => [Batch(Series("sleep", "respiration", xs, Millis))])
    + [Single(SleepPoint(d))]
  }

  // ---- Daily summary ----

  /** The daily-summary values the program writes, position by position in
      the order of `UserFields`. */
  function UserValues(u: UserSummary): (vs: seq<Value>)
    ensures |vs| == |UserFields|
  {
    [u.totalKilocalories, u.activeKilocalories, u.bmrKilocalories, u.wellnessKilocalories,
     u.totalSteps, u.totalDistanceMeters, u.dailyStepGoal,
     u.highlyActiveSeconds, u.activeSeconds, u.sedentarySeconds, u.sleepingSeconds,
     u.moderateIntensityMinutes, u.vigorousIntensityMinutes,
     u.floorsAscendedInMeters, u.floorsDescendedInMeters,
     u.minHeartRate, u.maxHeartRate, u.restingHeartRate,
     u.averageStressLevel, u.maxStressLevel, u.stressDuration, u.restStressDuration,
     u.activityStressDuration, u.uncategorizedStressDuration,
     u.lowStressDuration, u.mediumStressDuration, u.highStressDuration,
     u.measurableAwakeDuration, u.measurableAsleepDuration,
     u.bodyBatteryChargedValue, u.bodyBatteryDrainedValue, u.bodyBatteryHighestValue, u.bodyBatteryLowestValue,
     u.restingCaloriesFromActivity]
  }

  function UserPoint(u: UserSummary, e: int): (p: Point)
    ensures Fits(p, "user", UserFields, [], Seconds) && p.time == Midday(e)
  {
    Point("user", Zip(UserFields, UserValues(u)), [], Midday(e))
  }

  /** `day_user`: exactly one point, at midday. */
  function DayUser(u: UserSummary, e: int): (r: seq<Write>)
    ensures |r| == 1 && r[0].Single?
    ensures r[0].point.measurement == "user" && r[0].point.time == Midday(e)
  {
    [Single(UserPoint(u, e))]
  }
}
