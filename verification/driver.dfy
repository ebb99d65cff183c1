/** One day's upload (`day` in import.py) and the inclusive date-range loop
    that drives it. */
module Driver {
  import opened Wrappers
  import opened Points
  import opened Records
  import opened Categories

  /** `day`: the six categories in their fixed order. */
  function Day(e: int, x: DayData): seq<Write> {
    DayHrv(x.hrv) + DayHr(x.hr, e) + DaySteps(x.steps) + DayStress(x.stress, e) + DaySleep(x.sleep) + DayUser(x.user, e)
  }

  lemma FlattenSingle(w: Write)
    ensures Flatten([w]) == PointsOf(w)
  {
    assert [w][1..] == [];
  }

  /** The points a category writes, as the concatenation of what each of its
      writes carries. */
  function HrvPoints(hrv: Option<Hrv>): seq<Point> {
    match hrv
    case None => []
    case Some(h) =>
      [HrvSummaryPoint(h.hrvSummary)]
      + (match h.hrvSummary.baseline
         case None => []
         case Some(b) => [BaselinePoint(h.hrvSummary, b)])
      + Series("hrv", "hrv", h.hrvReadings, Default)
  }

  function HrSamplePoints(hr: HeartRates): seq<Point> {
    if Truthy(hr.heartRateValues) then Series("heart_rate", "bpm", hr.heartRateValues.value, Millis) else []
  }

  function BatteryPoints(s: Stress): seq<Point> {
    match s.bodyBatteryValuesArray
    case None => []
    case Some(rs) => Series("body_battery", "value", Kept(rs), Millis)
  }

  function SleepSeriesPoints(xs: Option<seq<Sample>>, f: string): seq<Point> {
    match xs
    case None => []
    case Some(v) => Series("sleep", f, v, Millis)
  }

  function ScorePoints(s: Sleep): seq<Point> {
    match s.sleepScores
    case None => []
    case Some(sc) => [ScorePoint(sc, s.dailySleepDTO)]
  }

  lemma FlattenHrv(hrv: Option<Hrv>)
    ensures Flatten(DayHrv(hrv)) == HrvPoints(hrv)
  {
    if hrv.Some? {
      var s := hrv.value.hrvSummary;
      var head := [Single(HrvSummaryPoint(s))];
      var mid := if s.baseline.Some? then [Single(BaselinePoint(s, s.baseline.value))] else [];
      var tail := [Batch(Series("hrv", "hrv", hrv.value.hrvReadings, Default))];
      assert DayHrv(hrv) == head + mid + tail;
      FlattenAppend(head + mid, tail);
      FlattenAppend(head, mid);
      FlattenSingle(head[0]);
      FlattenSingle(tail[0]);
      if mid != [] {
        FlattenSingle(mid[0]);
      }
    }
  }

  lemma FlattenHr(hr: HeartRates, e: int)
    ensures Flatten(DayHr(hr, e)) == HrSamplePoints(hr) + [HrAggregatePoint(hr, e)]
  {
    var ws := DayHr(hr, e);
    var last := [Single(HrAggregatePoint(hr, e))];
    FlattenSingle(last[0]);
    if Truthy(hr.heartRateValues) {
      var first := [Batch(HrSamplePoints(hr))];
      assert ws == first + last;
      FlattenAppend(first, last);
      FlattenSingle(first[0]);
    } else {
      assert ws == last;
    }
  }

  lemma FlattenSteps(steps: seq<StepInterval>)
    ensures Flatten(DaySteps(steps)) == StepPoints(steps)
  {
    FlattenSingle(Batch(StepPoints(steps)));
  }

  lemma FlattenStress(s: Stress, e: int)
    ensures Flatten(DayStress(s, e))
         == Series("stress", "value", s.stressValuesArray, Millis) + BatteryPoints(s) + [StressAggregatePoint(s, e)]
  {
    var head := [Batch(Series("stress", "value", s.stressValuesArray, Millis))];
    var mid := if s.bodyBatteryValuesArray.Some? then [Batch(BatteryPoints(s))] else [];
    var tail := [Single(StressAggregatePoint(s, e))];
    assert DayStress(s, e) == head + mid + tail;
    FlattenAppend(head + mid, tail);
    FlattenAppend(head, mid);
    FlattenSingle(head[0]);
    FlattenSingle(tail[0]);
    if mid != [] {
      FlattenSingle(mid[0]);
    }
  }

  lemma FlattenOptional(w: seq<Write>, ps: seq<Point>)
    requires w == [] || w == [Batch(ps)] || (|ps| == 1 && w == [Single(ps[0])])
    requires w == [] ==> ps == []
    ensures Flatten(w) == ps
  {
    if w != [] {
      FlattenSingle(w[0]);
    }
  }

  lemma FlattenSleep(s: Sleep)
    ensures Flatten(DaySleep(s))
         == MovementPoints(s.sleepMovement) + ScorePoints(s)
          + SleepSeriesPoints(s.sleepStress, "stress")
          + SleepSeriesPoints(s.wellnessEpochRespirationDataDTOList, "respiration")
          + [SleepPoint(s.dailySleepDTO)]
  {
    var d := s.dailySleepDTO;
    var w0 := [Batch(MovementPoints(s.sleepMovement))];
    var w1 := if s.sleepScores.Some? then [Single(ScorePoint(s.sleepScores.value, d))] else [];
    var w2 := if s.sleepStress.Some? then [Batch(SleepSeriesPoints(s.sleepStress, "stress"))] else [];
    var w3 := if s.wellnessEpochRespirationDataDTOList.Some?
              then [Batch(SleepSeriesPoints(s.wellnessEpochRespirationDataDTOList, "respiration"))] else [];
    var w4 := [Single(SleepPoint(d))];
    assert DaySleep(s) == w0 + w1 + w2 + w3 + w4;
    FlattenAppend(w0 + w1 + w2 + w3, w4);
    FlattenAppend(w0 + w1 + w2, w3);
    FlattenAppend(w0 + w1, w2);
    FlattenAppend(w0, w1);
    FlattenOptional(w0, MovementPoints(s.sleepMovement));
    FlattenOptional(w1, ScorePoints(s));
    FlattenOptional(w2, SleepSeriesPoints(s.sleepStress, "stress"));
    FlattenOptional(w3, SleepSeriesPoints(s.wellnessEpochRespirationDataDTOList, "respiration"));
    FlattenOptional(w4, [SleepPoint(d)]);
  }

  lemma FlattenUser(u: UserSummary, e: int)
    ensures Flatten(DayUser(u, e)) == [UserPoint(u, e)]
  {
    FlattenSingle(Single(UserPoint(u, e)));
  }

  /** The six mapping functions' points, concatenated in call order. */
  lemma DayFlatten(e: int, x: DayData)
    ensures Flatten(Day(e, x))
         == Flatten(DayHrv(x.hrv)) + Flatten(DayHr(x.hr, e)) + Flatten(DaySteps(x.steps))
          + Flatten(DayStress(x.stress, e)) + Flatten(DaySleep(x.sleep)) + Flatten(DayUser(x.user, e))
  {
    var a, b, c, d, s, u := DayHrv(x.hrv), DayHr(x.hr, e), DaySteps(x.steps),
                            DayStress(x.stress, e), DaySleep(x.sleep), DayUser(x.user, e);
    FlattenAppend(a + b + c + d + s, u);
    FlattenAppend(a + b + c + d, s);
    FlattenAppend(a + b + c, d);
    FlattenAppend(a + b, c);
    FlattenAppend(a, b);
  }

  // ---- Category order ----

  /** The position of a measurement's category in the day's fixed order. */
  function Rank(m: string): nat {
    if m == "hrv" then 0
    else if m == "heart_rate" then 1
    else if m == "steps" then 2
    else if m == "stress" || m == "body_battery" then 3
    else if m == "sleep" then 4
    else if m == "user" then 5
    else 6
  }

  predicate AllRank(ps: seq<Point>, k: nat) {
    forall i :: 0 <= i < |ps| ==> Rank(ps[i].measurement) == k
  }

  predicate RankAtLeast(ps: seq<Point>, k: nat) {
    forall i :: 0 <= i < |ps| ==> Rank(ps[i].measurement) >= k
  }

  /** The points appear grouped by category, categories in the day's order. */
  predicate Ordered(ps: seq<Point>) {
    forall i, j :: 0 <= i < j < |ps| ==> Rank(ps[i].measurement) <= Rank(ps[j].measurement)
  }

  lemma SeriesRank(m: string, f: string, xs: seq<Sample>, prec: Precision, k: nat)
    requires Rank(m) == k
    ensures AllRank(Series(m, f, xs, prec), k)
  {
  }

  lemma AllRankAppend(a: seq<Point>, b: seq<Point>, k: nat)
    requires AllRank(a, k) && AllRank(b, k)
    ensures AllRank(a + b, k)
  {
  }

  /** Each category writes only points of its own measurement(s). */
  lemma HrvRank(hrv: Option<Hrv>)
    ensures AllRank(Flatten(DayHrv(hrv)), 0)
  {
    FlattenHrv(hrv);
    if hrv.Some? {
      var h := hrv.value;
      SeriesRank("hrv", "hrv", h.hrvReadings, Default, 0);
    }
  }

  lemma HrRank(hr: HeartRates, e: int)
    ensures AllRank(Flatten(DayHr(hr, e)), 1)
  {
    FlattenHr(hr, e);
    if Truthy(hr.heartRateValues) {
      SeriesRank("heart_rate", "bpm", hr.heartRateValues.value, Millis, 1);
    }
    AllRankAppend(HrSamplePoints(hr), [HrAggregatePoint(hr, e)], 1);
  }

  lemma StepsRank(steps: seq<StepInterval>)
    ensures AllRank(Flatten(DaySteps(steps)), 2)
  {
    FlattenSteps(steps);
  }

  lemma StressRank(s: Stress, e: int)
    ensures AllRank(Flatten(DayStress(s, e)), 3)
  {
    FlattenStress(s, e);
    var a := Series("stress", "value", s.stressValuesArray, Millis);
    SeriesRank("stress", "value", s.stressValuesArray, Millis, 3);
    if s.bodyBatteryValuesArray.Some? {
      SeriesRank("body_battery", "value", Kept(s.bodyBatteryValuesArray.value), Millis, 3);
    }
    AllRankAppend(a, BatteryPoints(s), 3);
    AllRankAppend(a + BatteryPoints(s), [StressAggregatePoint(s, e)], 3);
  }

  lemma SleepRank(s: Sleep)
    ensures AllRank(Flatten(DaySleep(s)), 4)
  {
    FlattenSleep(s);
    var a := MovementPoints(s.sleepMovement);
    var b := ScorePoints(s);
    var c := SleepSeriesPoints(s.sleepStress, "stress");
    var d := SleepSeriesPoints(s.wellnessEpochRespirationDataDTOList, "respiration");
    if s.sleepStress.Some? {
      SeriesRank("sleep", "stress", s.sleepStress.value, Millis, 4);
    }
    if s.wellnessEpochRespirationDataDTOList.Some? {
      SeriesRank("sleep", "respiration", s.wellnessEpochRespirationDataDTOList.value, Millis, 4);
    }
    AllRankAppend(a, b, 4);
    AllRankAppend(a + b, c, 4);
    AllRankAppend(a + b + c, d, 4);
    AllRankAppend(a + b + c + d, [SleepPoint(s.dailySleepDTO)], 4);
  }

  lemma UserRank(u: UserSummary, e: int)
    ensures AllRank(Flatten(DayUser(u, e)), 5)
  {
    FlattenUser(u, e);
  }

  lemma OrderedPrepend(a: seq<Point>, b: seq<Point>, k: nat, j: nat)
    requires AllRank(a, k) && RankAtLeast(b, j) && k <= j && Ordered(b)
    ensures Ordered(a + b) && RankAtLeast(a + b, k)
  {
  }

  /** Six blocks of ranks 0 to 5, concatenated in rank order, are ordered. */
  lemma BlocksOrdered(a: seq<Point>, b: seq<Point>, c: seq<Point>, d: seq<Point>, s: seq<Point>, u: seq<Point>)
    requires AllRank(a, 0) && AllRank(b, 1) && AllRank(c, 2) && AllRank(d, 3) && AllRank(s, 4) && AllRank(u, 5)
    ensures Ordered(a + b + c + d + s + u)
  {
    OrderedPrepend(s, u, 4, 5);
    OrderedPrepend(d, s + u, 3, 4);
    OrderedPrepend(c, d + (s + u), 2, 3);
    OrderedPrepend(b, c + (d + (s + u)), 1, 2);
    OrderedPrepend(a, b + (c + (d + (s + u))), 0, 1);
    assert a + b + c + d + s + u == a + (b + (c + (d + (s + u))));
  }

  /** A day's points come category by category in the fixed order
      hrv, heart rate, steps, stress (with body battery), sleep, user. */
  lemma DayOrdered(e: int, x: DayData)
    ensures Ordered(Flatten(Day(e, x)))
  {
    HrvRank(x.hrv);
    HrRank(x.hr, e);
    StepsRank(x.steps);
    StressRank(x.stress, e);
    SleepRank(x.sleep);
    UserRank(x.user, e);
    DayFlatten(e, x);
    BlocksOrdered(Flatten(DayHrv(x.hrv)), Flatten(DayHr(x.hr, e)), Flatten(DaySteps(x.steps)),
                  Flatten(DayStress(x.stress, e)), Flatten(DaySleep(x.sleep)), Flatten(DayUser(x.user, e)));
  }

  // ---- Point counts ----

  function Len<T>(xs: Option<seq<T>>): nat {
    match xs
    case None => 0
    case Some(v) => |v|
  }

  /** How many points a day's records turn into, category by category. */
  function HrvCount(hrv: Option<Hrv>): nat {
    match hrv
    case None => 0
    case Some(h) => 1 + (if h.hrvSummary.baseline.Some? then 1 else 0) + |h.hrvReadings|
  }

  function HrCount(hr: HeartRates): nat {
    (if Truthy(hr.heartRateValues) then |hr.heartRateValues.value| else 0) + 1
  }

  function StressCount(s: Stress): nat {
    |s.stressValuesArray| + Len(s.bodyBatteryValuesArray) + 1
  }

  function SleepCount(s: Sleep): nat {
    |s.sleepMovement| + (if s.sleepScores.Some? then 1 else 0)
    + Len(s.sleepStress) + Len(s.wellnessEpochRespirationDataDTOList) + 1
  }

  /** One point per reading, plus one per summary, baseline, score or
      aggregate point that is written. */
  function PointCount(x: DayData): nat {
    HrvCount(x.hrv) + HrCount(x.hr) + |x.steps| + StressCount(x.stress) + SleepCount(x.sleep) + 1
  }

  lemma CategoryCounts(e: int, x: DayData)
    ensures |Flatten(DayHrv(x.hrv))| == HrvCount(x.hrv)
    ensures |Flatten(DayHr(x.hr, e))| == HrCount(x.hr)
    ensures |Flatten(DaySteps(x.steps))| == |x.steps|
    ensures |Flatten(DayStress(x.stress, e))| == StressCount(x.stress)
    ensures |Flatten(DaySleep(x.sleep))| == SleepCount(x.sleep)
    ensures |Flatten(DayUser(x.user, e))| == 1
  {
    FlattenHrv(x.hrv);
    FlattenHr(x.hr, e);
    FlattenSteps(x.steps);
    FlattenStress(x.stress, e);
    FlattenSleep(x.sleep);
    FlattenUser(x.user, e);
  }

  lemma DayPointCount(e: int, x: DayData)
    ensures |Flatten(Day(e, x))| == PointCount(x)
  {
    DayFlatten(e, x);
    CategoryCounts(e, x);
  }

  // ---- The midday anchor ----

  /** The points timestamped at second precision, in order. */
  function Anchored(ps: seq<Point>): seq<Point> {
    if ps == [] then [] else Anchor(ps[0]) + Anchored(ps[1..])
  }

  function Anchor(p: Point): seq<Point> {
    if p.time.precision == Seconds then [p] else []
  }

  lemma {:induction false} AnchoredAppend(a: seq<Point>, b: seq<Point>)
    ensures Anchored(a + b) == Anchored(a) + Anchored(b)
    decreases |a|
  {
    if a == [] {
      assert a + b == b;
    } else {
      assert (a + b)[1..] == a[1..] + b;
      AnchoredAppend(a[1..], b);
    }
  }

  lemma {:induction false} AnchoredNone(ps: seq<Point>)
    requires forall i :: 0 <= i < |ps| ==> ps[i].time.precision != Seconds
    ensures Anchored(ps) == []
    decreases |ps|
  {
    if ps != [] {
      AnchoredNone(ps[1..]);
    }
  }

  lemma AnchoredSingle(p: Point)
    ensures Anchored([p]) == if p.time.precision == Seconds then [p] else []
  {
    assert [p][1..] == [];
  }

  lemma SeriesUnanchored(m: string, f: string, xs: seq<Sample>, prec: Precision)
    requires prec != Seconds
    ensures Anchored(Series(m, f, xs, prec)) == []
  {
    AnchoredNone(Series(m, f, xs, prec));
  }

  lemma OptionalUnanchored(xs: Option<seq<Sample>>, f: string)
    ensures Anchored(SleepSeriesPoints(xs, f)) == []
  {
    if xs.Some? {
      SeriesUnanchored("sleep", f, xs.value, Millis);
    }
  }

  lemma HrvUnanchored(hrv: Option<Hrv>)
    ensures Anchored(Flatten(DayHrv(hrv))) == []
  {
    FlattenHrv(hrv);
    if hrv.Some? {
      var h := hrv.value;
      var top := HrvSummaryPoint(h.hrvSummary);
      var series := Series("hrv", "hrv", h.hrvReadings, Default);
      SeriesUnanchored("hrv", "hrv", h.hrvReadings, Default);
      AnchoredSingle(top);
      if h.hrvSummary.baseline.Some? {
        var base := BaselinePoint(h.hrvSummary, h.hrvSummary.baseline.value);
        AnchoredSingle(base);
        AnchoredAppend([top], [base]);
        AnchoredAppend([top] + [base], series);
        assert HrvPoints(hrv) == [top] + [base] + series;
      } else {
        AnchoredAppend([top], series);
        assert HrvPoints(hrv) == [top] + series;
      }
    }
  }

  lemma StepsUnanchored(steps: seq<StepInterval>)
    ensures Anchored(Flatten(DaySteps(steps))) == []
  {
    FlattenSteps(steps);
    AnchoredNone(StepPoints(steps));
  }

  lemma SleepUnanchored(s: Sleep)
    ensures Anchored(Flatten(DaySleep(s))) == []
  {
    FlattenSleep(s);
    var a, b := MovementPoints(s.sleepMovement), ScorePoints(s);
    var c, d := SleepSeriesPoints(s.sleepStress, "stress"), SleepSeriesPoints(s.wellnessEpochRespirationDataDTOList, "respiration");
    var main := [SleepPoint(s.dailySleepDTO)];
    AnchoredNone(a);
    if s.sleepScores.Some? {
      AnchoredSingle(ScorePoint(s.sleepScores.value, s.dailySleepDTO));
    }
    OptionalUnanchored(s.sleepStress, "stress");
    OptionalUnanchored(s.wellnessEpochRespirationDataDTOList, "respiration");
    AnchoredSingle(SleepPoint(s.dailySleepDTO));
    AnchoredAppend(a, b);
    AnchoredAppend(a + b, c);
    AnchoredAppend(a + b + c, d);
    AnchoredAppend(a + b + c + d, main);
  }

  /** No point of any category but the three aggregates has second
      precision. */
  lemma OwnTimes(e: int, x: DayData)
    ensures Anchored(Flatten(DayHrv(x.hrv))) == []
    ensures Anchored(HrSamplePoints(x.hr)) == []
    ensures Anchored(Flatten(DaySteps(x.steps))) == []
    ensures Anchored(Series("stress", "value", x.stress.stressValuesArray, Millis) + BatteryPoints(x.stress)) == []
    ensures Anchored(Flatten(DaySleep(x.sleep))) == []
  {
    HrvUnanchored(x.hrv);
    if Truthy(x.hr.heartRateValues) {
      SeriesUnanchored("heart_rate", "bpm", x.hr.heartRateValues.value, Millis);
    }
    StepsUnanchored(x.steps);
    SeriesUnanchored("stress", "value", x.stress.stressValuesArray, Millis);
    if x.stress.bodyBatteryValuesArray.Some? {
      SeriesUnanchored("body_battery", "value", Kept(x.stress.bodyBatteryValuesArray.value), Millis);
    }
    AnchoredAppend(Series("stress", "value", x.stress.stressValuesArray, Millis), BatteryPoints(x.stress));
    SleepUnanchored(x.sleep);
  }

  /** Each category with a daily aggregate has exactly that one point at
      second precision. */
  lemma AggregatesAnchored(e: int, x: DayData)
    ensures Anchored(Flatten(DayHr(x.hr, e))) == [HrAggregatePoint(x.hr, e)]
    ensures Anchored(Flatten(DayStress(x.stress, e))) == [StressAggregatePoint(x.stress, e)]
    ensures Anchored(Flatten(DayUser(x.user, e))) == [UserPoint(x.user, e)]
  {
    OwnTimes(e, x);
    FlattenHr(x.hr, e);
    FlattenStress(x.stress, e);
    FlattenUser(x.user, e);
    AnchoredAppend(HrSamplePoints(x.hr), [HrAggregatePoint(x.hr, e)]);
    AnchoredSingle(HrAggregatePoint(x.hr, e));
    AnchoredAppend(Series("stress", "value", x.stress.stressValuesArray, Millis) + BatteryPoints(x.stress),
                   [StressAggregatePoint(x.stress, e)]);
    AnchoredSingle(StressAggregatePoint(x.stress, e));
    AnchoredSingle(UserPoint(x.user, e));
  }

  /** Only the three daily aggregates (heart rate, stress, daily summary) are
      timestamped at second precision, and all three at the day's midday. */
  lemma DayAnchors(e: int, x: DayData)
    ensures Anchored(Flatten(Day(e, x)))
         == [HrAggregatePoint(x.hr, e), StressAggregatePoint(x.stress, e), UserPoint(x.user, e)]
    ensures forall p :: p in Anchored(Flatten(Day(e, x))) ==> p.time == Midday(e)
  {
    DayFlatten(e, x);
    HrvUnanchored(x.hrv);
    StepsUnanchored(x.steps);
    SleepUnanchored(x.sleep);
    AggregatesAnchored(e, x);
    AnchoredBlocks(Flatten(DayHrv(x.hrv)), Flatten(DayHr(x.hr, e)), Flatten(DaySteps(x.steps)),
                   Flatten(DayStress(x.stress, e)), Flatten(DaySleep(x.sleep)), Flatten(DayUser(x.user, e)),
                   HrAggregatePoint(x.hr, e), StressAggregatePoint(x.stress, e), UserPoint(x.user, e));
  }

  lemma AnchoredBlocks(a: seq<Point>, b: seq<Point>, c: seq<Point>, d: seq<Point>, s: seq<Point>, u: seq<Point>,
                       hb: Point, hd: Point, hu: Point)
    requires Anchored(a) == [] && Anchored(c) == [] && Anchored(s) == []
    requires Anchored(b) == [hb] && Anchored(d) == [hd] && Anchored(u) == [hu]
    ensures Anchored(a + b + c + d + s + u) == [hb, hd, hu]
  {
    AnchoredAppend(a, b);
    var ab := a + b;
    assert Anchored(ab) == [hb];
    AnchoredAppend(ab, c);
    var abc := ab + c;
    assert Anchored(abc) == [hb];
    AnchoredAppend(abc, d);
    var abcd := abc + d;
    assert Anchored(abcd) == [hb, hd];
    AnchoredAppend(abcd, s);
    var abcds := abcd + s;
    assert Anchored(abcds) == [hb, hd];
    AnchoredAppend(abcds, u);
  }

  // ---- Field and tag names ----

  predicate AllWellFormed(ps: seq<Point>) {
    forall i :: 0 <= i < |ps| ==> WellFormed(ps[i])
  }

  lemma FitsWellFormed(p: Point, m: string, fields: seq<string>, tags: seq<string>, prec: Precision)
    requires Fits(p, m, fields, tags, prec) && Distinct(fields) && Distinct(tags)
    ensures WellFormed(p)
  {
  }

  lemma SchemasDistinct()
    ensures Distinct(HrvSummaryFields) && Distinct(BaselineFields) && Distinct(HrAggregateFields)
    ensures Distinct(StepTags) && Distinct(StressAggregateFields)
    ensures Distinct(ScoreFields) && Distinct(ScoreTags) && Distinct(SleepFields) && Distinct(SleepTags)
  {
  }

  // The 34 daily-summary names are compared a few rows at a time.
  lemma UserFieldsApart0()
    ensures forall i, j :: 0 <= i < 4 && i < j < |UserFields| ==> UserFields[i] != UserFields[j]
  {
  }

  lemma UserFieldsApart1()
    ensures forall i, j :: 4 <= i < 9 && i < j < |UserFields| ==> UserFields[i] != UserFields[j]
  {
  }

  lemma UserFieldsApart2()
    ensures forall i, j :: 9 <= i < 14 && i < j < |UserFields| ==> UserFields[i] != UserFields[j]
  {
  }

  lemma UserFieldsApart3()
    ensures forall i, j :: 14 <= i < 20 && i < j < |UserFields| ==> UserFields[i] != UserFields[j]
  {
  }

  lemma UserFieldsApart4()
    ensures forall i, j :: 20 <= i < 26 && i < j < |UserFields| ==> UserFields[i] != UserFields[j]
  {
  }

  lemma UserFieldsApart5()
    ensures forall i, j :: 26 <= i < 34 && i < j < |UserFields| ==> UserFields[i] != UserFields[j]
  {
  }

  lemma UserFieldsDistinct()
    ensures Distinct(UserFields)
  {
    UserFieldsApart0();
    UserFieldsApart1();
    UserFieldsApart2();
    UserFieldsApart3();
    UserFieldsApart4();
    UserFieldsApart5();
  }

  lemma SeriesWellFormed(m: string, f: string, xs: seq<Sample>, prec: Precision)
    ensures AllWellFormed(Series(m, f, xs, prec))
  {
  }

  lemma AllWellFormedAppend(a: seq<Point>, b: seq<Point>)
    requires AllWellFormed(a) && AllWellFormed(b)
    ensures AllWellFormed(a + b)
  {
  }

  lemma HrvWellFormed(hrv: Option<Hrv>)
    ensures AllWellFormed(Flatten(DayHrv(hrv)))
  {
    FlattenHrv(hrv);
    if hrv.Some? {
      var s := hrv.value.hrvSummary;
      SchemasDistinct();
      FitsWellFormed(HrvSummaryPoint(s), "hrv", HrvSummaryFields, [], Default);
      var mid := if s.baseline.Some? then [BaselinePoint(s, s.baseline.value)] else [];
      if s.baseline.Some? {
        FitsWellFormed(BaselinePoint(s, s.baseline.value), "hrv", BaselineFields, [], Default);
      }
      SeriesWellFormed("hrv", "hrv", hrv.value.hrvReadings, Default);
      AllWellFormedAppend([HrvSummaryPoint(s)], mid);
      AllWellFormedAppend([HrvSummaryPoint(s)] + mid, Series("hrv", "hrv", hrv.value.hrvReadings, Default));
    }
  }

  lemma HrWellFormed(hr: HeartRates, e: int)
    ensures AllWellFormed(Flatten(DayHr(hr, e)))
  {
    FlattenHr(hr, e);
    SchemasDistinct();
    if Truthy(hr.heartRateValues) {
      SeriesWellFormed("heart_rate", "bpm", hr.heartRateValues.value, Millis);
    }
    FitsWellFormed(HrAggregatePoint(hr, e), "heart_rate", HrAggregateFields, [], Seconds);
    AllWellFormedAppend(HrSamplePoints(hr), [HrAggregatePoint(hr, e)]);
  }

  lemma StepsWellFormed(steps: seq<StepInterval>)
    ensures AllWellFormed(Flatten(DaySteps(steps)))
  {
    FlattenSteps(steps);
    SchemasDistinct();
    forall i | 0 <= i < |steps|
      ensures WellFormed(StepPoints(steps)[i])
    {
      FitsWellFormed(StepPoint(steps[i]), "steps", ["count"], StepTags, Default);
    }
  }

  lemma StressWellFormed(s: Stress, e: int)
    ensures AllWellFormed(Flatten(DayStress(s, e)))
  {
    FlattenStress(s, e);
    SchemasDistinct();
    var a := Series("stress", "value", s.stressValuesArray, Millis);
    SeriesWellFormed("stress", "value", s.stressValuesArray, Millis);
    if s.bodyBatteryValuesArray.Some? {
      SeriesWellFormed("body_battery", "value", Kept(s.bodyBatteryValuesArray.value), Millis);
    }
    FitsWellFormed(StressAggregatePoint(s, e), "stress", StressAggregateFields, [], Seconds);
    AllWellFormedAppend(a, BatteryPoints(s));
    AllWellFormedAppend(a + BatteryPoints(s), [StressAggregatePoint(s, e)]);
  }

  lemma SleepWellFormed(s: Sleep)
    ensures AllWellFormed(Flatten(DaySleep(s)))
  {
    FlattenSleep(s);
    SchemasDistinct();
    var a := MovementPoints(s.sleepMovement);
    var b := ScorePoints(s);
    var c := SleepSeriesPoints(s.sleepStress, "stress");
    var d := SleepSeriesPoints(s.wellnessEpochRespirationDataDTOList, "respiration");
    if s.sleepScores.Some? {
      FitsWellFormed(ScorePoint(s.sleepScores.value, s.dailySleepDTO), "sleep", ScoreFields, ScoreTags, Millis);
    }
    if s.sleepStress.Some? {
      SeriesWellFormed("sleep", "stress", s.sleepStress.value, Millis);
    }
    if s.wellnessEpochRespirationDataDTOList.Some? {
      SeriesWellFormed("sleep", "respiration", s.wellnessEpochRespirationDataDTOList.value, Millis);
    }
    FitsWellFormed(SleepPoint(s.dailySleepDTO), "sleep", SleepFields, SleepTags, Millis);
    AllWellFormedAppend(a, b);
    AllWellFormedAppend(a + b, c);
    AllWellFormedAppend(a + b + c, d);
    AllWellFormedAppend(a + b + c + d, [SleepPoint(s.dailySleepDTO)]);
  }

  lemma UserWellFormed(u: UserSummary, e: int)
    ensures AllWellFormed(Flatten(DayUser(u, e)))
  {
    FlattenUser(u, e);
    UserFieldsDistinct();
    FitsWellFormed(UserPoint(u, e), "user", UserFields, [], Seconds);
  }

  /** No point of a day repeats a field name or a tag name, so the client's
      dictionaries keep every value the program sets. */
  lemma DayWellFormed(e: int, x: DayData)
    ensures AllWellFormed(Flatten(Day(e, x)))
  {
    HrvWellFormed(x.hrv);
    HrWellFormed(x.hr, e);
    StepsWellFormed(x.steps);
    StressWellFormed(x.stress, e);
    SleepWellFormed(x.sleep);
    UserWellFormed(x.user, e);
    DayFlatten(e, x);
    var a, b, c, d, s, u := Flatten(DayHrv(x.hrv)), Flatten(DayHr(x.hr, e)), Flatten(DaySteps(x.steps)),
                            Flatten(DayStress(x.stress, e)), Flatten(DaySleep(x.sleep)), Flatten(DayUser(x.user, e));
    AllWellFormedAppend(a, b);
    AllWellFormedAppend(a + b, c);
    AllWellFormedAppend(a + b + c, d);
    AllWellFormedAppend(a + b + c + d, s);
    AllWellFormedAppend(a + b + c + d + s, u);
  }

  // ---- The date-range loop ----

  /** The day epochs the loop visits: `se`, `se + 86400`, ... while not past `ee`. */
  function Epochs(se: int, ee: int): seq<int>
    decreases ee - se
  {
    if se > ee then [] else [se] + Epochs(se + SecondsPerDay, ee)
  }

  /** The visited epochs are the arithmetic progression from `se` in steps of
      a day, every one of them at most `ee`, and the next one past `ee`. */
  lemma {:induction false} EpochsSpec(se: int, ee: int)
    ensures var es := Epochs(se, ee);
      && (|es| == 0 <==> se > ee)
      && (forall i :: 0 <= i < |es| ==> es[i] == se + SecondsPerDay * i && es[i] <= ee)
      && se + SecondsPerDay * |es| > ee
    decreases ee - se
  {
    if se <= ee {
      EpochsSpec(se + SecondsPerDay, ee);
      var es := Epochs(se, ee);
      var rest := Epochs(se + SecondsPerDay, ee);
      assert es == [se] + rest;
      forall i | 0 <= i < |es|
        ensures es[i] == se + SecondsPerDay * i && es[i] <= ee
      {
        if i > 0 {
          assert es[i] == rest[i - 1];
        }
      }
    }
  }

  /** An inclusive range of `n` days: `n` is one more than the whole days
      between the two dates, and zero when the start is after the end. */
  function DayCount(se: int, ee: int): nat {
    if se > ee then 0 else (ee - se) / SecondsPerDay + 1
  }

  lemma EpochsCount(se: int, ee: int)
    ensures |Epochs(se, ee)| == DayCount(se, ee)
    ensures se == ee ==> Epochs(se, ee) == [se]
  {
    EpochsSpec(se, ee);
    var n := |Epochs(se, ee)|;
    if se <= ee {
      var q := (ee - se) / SecondsPerDay;
      assert Epochs(se, ee)[n - 1] == se + SecondsPerDay * (n - 1);
      assert SecondsPerDay * q <= ee - se < SecondsPerDay * (q + 1);
    }
  }

  /** Every write of a run: the per-day writes of each visited epoch, in order. */
  function Days(es: seq<int>, day: int -> seq<Write>): seq<Write>
    decreases |es|
  {
    if es == [] then [] else Days(es[..|es| - 1], day) + day(es[|es| - 1])
  }

  lemma EpochsStep(visited: seq<int>, cur: int, ee: int)
    requires cur <= ee
    ensures visited + [cur] + Epochs(cur + SecondsPerDay, ee) == visited + Epochs(cur, ee)
  {
    assert Epochs(cur, ee) == [cur] + Epochs(cur + SecondsPerDay, ee);
  }

  lemma DaysSnoc(es: seq<int>, e: int, day: int -> seq<Write>)
    ensures Days(es + [e], day) == Days(es, day) + day(e)
  {
    assert (es + [e])[..|es|] == es;
  }

  /** The writes of a whole run: nothing when the start is after the end, and
      exactly one day's writes when start and end coincide. */
  lemma RunWrites(se: int, ee: int, day: int -> seq<Write>)
    ensures se > ee ==> Days(Epochs(se, ee), day) == []
    ensures se == ee ==> Days(Epochs(se, ee), day) == day(se)
  {
    if se == ee {
      EpochsCount(se, ee);
      DaysSnoc([], se, day);
    }
  }

  /** The upload loop `while se <= ee: day(se, ...); se += 86400`. The loop
      is generic in the per-day step `day`; the program's step is
      `e => Day(e, source(e))`, `source(e)` standing for what the six getters
      return for the date of epoch `e`. */
  method Run(se: int, ee: int, day: int -> seq<Write>) returns (ws: seq<Write>, visited: seq<int>)
    ensures visited == Epochs(se, ee)
    ensures ws == Days(visited, day)
  {
    var cur := se;
    ws := [];
    visited := [];
    while cur <= ee
      invariant visited + Epochs(cur, ee) == Epochs(se, ee)
      invariant ws == Days(visited, day)
      decreases ee - cur
    {
      EpochsStep(visited, cur, ee);
      DaysSnoc(visited, cur, day);
      ws := ws + day(cur);
      visited := visited + [cur];
      cur := cur + SecondsPerDay;
    }
    assert visited + [] == visited;
  }
}
