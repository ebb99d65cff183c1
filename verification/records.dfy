/** The per-day records returned by the fitness service's getters, one
    datatype per JSON object the program reads. Only the keys the program
    reads are modelled; a key the program indexes directly is a plain field
    (the program would raise on its absence), a key it tests with `in` is an
    `Option`, and a key it reads with `.get` is a `Value` that may be `Null`.
    Two keys are exceptions: `baseline` is read with `.get` but only compared
    with `None`, so it is an `Option`; `heartRateValues` is indexed but tested
    for truthiness, so it is an `Option` whose `None` stands for null. */
module Records {
  import opened Wrappers
  import opened Points

  /** A reading with its own timestamp. Used for
      HRV readings (`readingTimeGMT`, `hrvValue`),
      heart-rate pairs `[ms, v]`, stress pairs `[ms, v]`,
      sleep-stress entries (`startGMT`, `value`) and
      respiration entries (`startTimeGMT`, `respirationValue`). */
  datatype Sample = Sample(time: Value, value: Value)

  // ---- HRV (get_hrv_data) ----

  datatype Baseline = Baseline(lowUpper: Value, balancedLow: Value, balancedUpper: Value, markerValue: Value)

  datatype HrvSummary = HrvSummary(
    weeklyAvg: Value,
    lastNightAvg: Value,
    createTimeStamp: Value,
    baseline: Option<Baseline>)   // None: key absent or null

  datatype Hrv = Hrv(hrvSummary: HrvSummary, hrvReadings: seq<Sample>)

  // ---- Heart rate (get_heart_rates) ----

  datatype HeartRates = HeartRates(
    heartRateValues: Option<seq<Sample>>,   // None: null
    maxHeartRate: Value,
    minHeartRate: Value,
    restingHeartRate: Value)

  // ---- Steps (get_steps_data): a list of intervals ----

  datatype StepInterval = StepInterval(
    steps: Value,
    primaryActivityLevel: Value,
    activityLevelConstant: Value,
    endGMT: string)

  // ---- Stress (get_stress_data) ----

  /** A 4-tuple of `bodyBatteryValuesArray`: the program keeps elements 0 and 2. */
  datatype BatteryReading = BatteryReading(time: Value, status: Value, level: Value, version: Value)

  datatype Stress = Stress(
    stressValuesArray: seq<Sample>,
    bodyBatteryValuesArray: Option<seq<BatteryReading>>,   // None: key absent
    maxStressLevel: Value,
    avgStressLevel: Value)

  // ---- Sleep (get_sleep_data) ----

  datatype Movement = Movement(activityLevel: Value, endGMT: string)

  /** The `sleepScores` object (each score is the `value` of its sub-object),
      bundled with the top-level keys `sleepScoreFeedback` and
      `sleepScoreInsight`, which are read only when `sleepScores` is present. */
  datatype ScoreBlock = ScoreBlock(
    feedback: Value,
    insight: Value,
    overall: Value,
    remPercentage: Value,
    deepPercentage: Value,
    lightPercentage: Value)

  /** `dailySleepDTO`; the six keys read with `.get` are `Null` when absent. */
  datatype DailySleep = DailySleep(
    sleepWindowConfirmed: Value,
    sleepWindowConfirmationType: Value,
    sleepTimeSeconds: Value,
    napTimeSeconds: Value,
    avgSleepStress: Value,
    awakeCount: Value,
    averageRespirationValue: Value,
    minRespirationValue: Value,
    maxRespirationValue: Value,
    restlessMomentsCount: Value,
    unmeasurableSleepSeconds: Value,
    deepSleepSeconds: Value,
    lightSleepSeconds: Value,
    remSleepSeconds: Value,
    awakeSleepSeconds: Value,
    sleepEndTimestampGMT: Value)

  datatype Sleep = Sleep(
    dailySleepDTO: DailySleep,
    sleepMovement: seq<Movement>,
    sleepScores: Option<ScoreBlock>,                           // None: key absent
    sleepStress: Option<seq<Sample>>,                          // None: key absent
    wellnessEpochRespirationDataDTOList: Option<seq<Sample>>)  // None: key absent

  // ---- Daily summary (get_user_summary) ----

  datatype UserSummary = UserSummary(
    totalKilocalories: Value,
    activeKilocalories: Value,
    bmrKilocalories: Value,
    wellnessKilocalories: Value,
    totalSteps: Value,
    totalDistanceMeters: Value,
    dailyStepGoal: Value,
    highlyActiveSeconds: Value,
    activeSeconds: Value,
    sedentarySeconds: Value,
    sleepingSeconds: Value,
    moderateIntensityMinutes: Value,
    vigorousIntensityMinutes: Value,
    floorsAscendedInMeters: Value,
    floorsDescendedInMeters: Value,
    minHeartRate: Value,
    maxHeartRate: Value,
    restingHeartRate: Value,
    averageStressLevel: Value,
    maxStressLevel: Value,
    stressDuration: Value,
    restStressDuration: Value,
    activityStressDuration: Value,
    uncategorizedStressDuration: Value,
    lowStressDuration: Value,
    mediumStressDuration: Value,
    highStressDuration: Value,
    measurableAwakeDuration: Value,
    measurableAsleepDuration: Value,
    bodyBatteryChargedValue: Value,
    bodyBatteryDrainedValue: Value,
    bodyBatteryHighestValue: Value,
    bodyBatteryLowestValue: Value,
    restingCaloriesFromActivity: Value)

  /** What the six getters return for one day. `hrv` is `None` when the HRV
      response is falsy (null or an empty object). */
  datatype DayData = DayData(
    hrv: Option<Hrv>,
    hr: HeartRates,
    steps: seq<StepInterval>,
    stress: Stress,
    sleep: Sleep,
    user: UserSummary)
}
