/** Decoders from written points back to the records they were built from.
    Each decoder accepts exactly the write sequences its category's mapping
    can produce; the lemmas prove that decoding undoes the mapping (up to the
    information the mapping discards, captured by a `...Normal` function)
    and that every accepted write sequence is the mapping of what it decodes
    to. Together they say the serialisation is exact: which points appear,
    in which order, with which fields, tags and timestamps. */
module Readback {
  import opened Wrappers
  import opened Points
  import opened Records
  import opened Categories

  // ---- Generic pieces ----

  /** A point fitting a schema is determined by the schema, its values and its time value. */
  lemma Rebuild(p: Point, m: string, fields: seq<string>, tags: seq<string>, prec: Precision)
    requires Fits(p, m, fields, tags, prec)
    ensures p == Point(m, Zip(fields, ValuesOf(p.fields)), Zip(tags, ValuesOf(p.tags)), Time(p.time.at, prec))
  {
    assert p.fields == Zip(fields, ValuesOf(p.fields));
    assert p.tags == Zip(tags, ValuesOf(p.tags));
  }

  function ReadSingle(w: Write, m: string, fields: seq<string>, tags: seq<string>, prec: Precision): Option<Point> {
    if w.Single? && Fits(w.point, m, fields, tags, prec) then Some(w.point) else None
  }

  function ReadBatch(w: Write): Option<seq<Point>> {
    if w.Batch? then Some(w.points) else None
  }

  /** The start-of-day epoch of a midday anchor. */
  function DayOfMidday(t: Time): (r: Option<int>)
    ensures r.Some? <==> t.at.Int? && t.precision == Seconds
    ensures r.Some? ==> Midday(r.value) == t
  {
    if t.at.Int? && t.precision == Seconds then Some(t.at.i - SecondsToMidday) else None
  }

  // ---- Series of readings ----

  function ReadSample(m: string, f: string, prec: Precision, p: Point): Option<Sample> {
    if Fits(p, m, [f], [], prec) then Some(Sample(p.time.at, p.fields[0].1)) else None
  }

  lemma SampleExact(m: string, f: string, prec: Precision, p: Point, x: Sample)
    ensures ReadSample(m, f, prec, p) == Some(x) <==> p == SamplePoint(m, f, prec, x)
  {
    if ReadSample(m, f, prec, p) == Some(x) {
      Rebuild(p, m, [f], [], prec);
      assert Zip([f], ValuesOf(p.fields)) == [(f, x.value)];
    }
  }

  function ReadSeries(m: string, f: string, prec: Precision, ps: seq<Point>): Option<seq<Sample>>
    decreases |ps|
  {
    if ps == [] then Some([])
    else
      var x :- ReadSample(m, f, prec, ps[0]);
      var xs :- ReadSeries(m, f, prec, ps[1..]);
      Some([x] + xs)
  }

  /** A batch decodes to the readings `xs` exactly when it is the series built from `xs`. */
  lemma {:induction false} SeriesExact(m: string, f: string, prec: Precision, ps: seq<Point>, xs: seq<Sample>)
    ensures ReadSeries(m, f, prec, ps) == Some(xs) <==> ps == Series(m, f, xs, prec)
    decreases |ps|
  {
    if ps == [] {
    } else if xs == [] {
    } else {
      var s := Series(m, f, xs, prec);
      assert s[0] == SamplePoint(m, f, prec, xs[0]);
      assert s[1..] == Series(m, f, xs[1..], prec);
      SampleExact(m, f, prec, ps[0], xs[0]);
      SeriesExact(m, f, prec, ps[1..], xs[1..]);
      if ReadSeries(m, f, prec, ps) == Some(xs) {
        assert [xs[0]] + xs[1..] == xs;
        assert ps == [ps[0]] + ps[1..];
      }
      if ps == s {
        assert xs == [xs[0]] + xs[1..];
      }
    }
  }

  // ---- HRV ----

  function ReadBaseline(w: Write, t: Time): Option<Option<Baseline>> {
    var q :- ReadSingle(w, "hrv", BaselineFields, [], Default);
    var g := ValuesOf(q.fields);
    if q.time == t then Some(Some(Baseline(g[0], g[1], g[2], g[3]))) else None
  }

  function ReadHrv(ws: seq<Write>): Option<Option<Hrv>> {
    if ws == [] then Some(None)
    else if |ws| != 2 && |ws| != 3 then None
    else
      var p :- ReadSingle(ws[0], "hrv", HrvSummaryFields, [], Default);
      var baseline :- if |ws| == 2 then Some(None) else ReadBaseline(ws[1], p.time);
      var ps :- ReadBatch(ws[|ws| - 1]);
      var readings :- ReadSeries("hrv", "hrv", Default, ps);
      var f := ValuesOf(p.fields);
      Some(Some(Hrv(HrvSummary(f[0], f[1], p.time.at, baseline), readings)))
  }

  /** The HRV writes of a day decode back to the very record they came from. */
  lemma HrvRoundTrip(hrv: Option<Hrv>)
    ensures ReadHrv(DayHrv(hrv)) == Some(hrv)
  {
    if hrv.Some? {
      var h := hrv.value;
      SeriesExact("hrv", "hrv", Default, Series("hrv", "hrv", h.hrvReadings, Default), h.hrvReadings);
    }
  }

  /** Every write sequence the HRV decoder accepts is the mapping of what it decodes to. */
  lemma HrvReadExact(ws: seq<Write>, hrv: Option<Hrv>)
    requires ReadHrv(ws) == Some(hrv)
    ensures DayHrv(hrv) == ws
  {
    if ws != [] {
      var h := hrv.value;
      var p := ws[0].point;
      Rebuild(p, "hrv", HrvSummaryFields, [], Default);
      assert ws[0] == Single(HrvSummaryPoint(h.hrvSummary));
      if |ws| == 3 {
        var q := ws[1].point;
        Rebuild(q, "hrv", BaselineFields, [], Default);
        assert ws[1] == Single(BaselinePoint(h.hrvSummary, h.hrvSummary.baseline.value));
      }
      SeriesExact("hrv", "hrv", Default, ws[|ws| - 1].points, h.hrvReadings);
      if |ws| == 2 {
        assert ws == [ws[0], ws[1]];
      } else {
        assert ws == [ws[0], ws[1], ws[2]];
      }
    }
  }

  // ---- Heart rate ----

  /** What the heart-rate writes retain: a null sample list and an empty one
      both produce no batch. */
  function HrNormal(hr: HeartRates): HeartRates {
    hr.(heartRateValues := if Truthy(hr.heartRateValues) then hr.heartRateValues else None)
  }

  function ReadHr(ws: seq<Write>): Option<(HeartRates, int)> {
    if |ws| != 1 && |ws| != 2 then None
    else
      var p :- ReadSingle(ws[|ws| - 1], "heart_rate", HrAggregateFields, [], Seconds);
      var e :- DayOfMidday(p.time);
      var samples :- if |ws| == 1 then Some(None) else ReadSamples(ws[0]);
      var f := ValuesOf(p.fields);
      Some((HeartRates(samples, f[0], f[1], f[2]), e))
  }

  /** A heart-rate batch, which the program only writes when it is non-empty. */
  function ReadSamples(w: Write): Option<Option<seq<Sample>>> {
    var ps :- ReadBatch(w);
    var xs :- ReadSeries("heart_rate", "bpm", Millis, ps);
    if xs == [] then None else Some(Some(xs))
  }

  lemma HrNormalSame(hr: HeartRates, e: int)
    ensures DayHr(HrNormal(hr), e) == DayHr(hr, e)
  {
  }

  lemma HrRoundTrip(hr: HeartRates, e: int)
    ensures ReadHr(DayHr(hr, e)) == Some((HrNormal(hr), e))
  {
    if Truthy(hr.heartRateValues) {
      var xs := hr.heartRateValues.value;
      SeriesExact("heart_rate", "bpm", Millis, Series("heart_rate", "bpm", xs, Millis), xs);
    }
  }

  lemma HrReadExact(ws: seq<Write>, hr: HeartRates, e: int)
    requires ReadHr(ws) == Some((hr, e))
    ensures DayHr(hr, e) == ws && HrNormal(hr) == hr
  {
    var p := ws[|ws| - 1].point;
    Rebuild(p, "heart_rate", HrAggregateFields, [], Seconds);
    assert ws[|ws| - 1] == Single(HrAggregatePoint(hr, e));
    if |ws| == 2 {
      SeriesExact("heart_rate", "bpm", Millis, ws[0].points, hr.heartRateValues.value);
      assert ws == [ws[0], ws[1]];
    } else {
      assert ws == [ws[0]];
    }
  }

  // ---- Steps ----

  /** The `endGMT` string a timestamp was made from, when it ends in `Z`. */
  function ReadUtc(t: Time): (r: Option<string>)
    ensures r.Some? ==> t.at == Utc(r.value)
  {
    if t.at.Text? && |t.at.s| > 0 && t.at.s[|t.at.s| - 1] == 'Z'
    then
      var s := t.at.s[..|t.at.s| - 1];
      assert s + "Z" == t.at.s;
      Some(s)
    else None
  }

  lemma ReadUtcOfUtc(s: string, prec: Precision)
    ensures ReadUtc(Time(Utc(s), prec)) == Some(s)
  {
    assert (s + "Z")[..|s|] == s;
  }

  function ReadStep(p: Point): Option<StepInterval> {
    if Fits(p, "steps", ["count"], StepTags, Default) then
      var s :- ReadUtc(p.time);
      Some(StepInterval(p.fields[0].1, p.tags[0].1, p.tags[1].1, s))
    else None
  }

  function ReadStepPoints(ps: seq<Point>): Option<seq<StepInterval>>
    decreases |ps|
  {
    if ps == [] then Some([])
    else
      var x :- ReadStep(ps[0]);
      var xs :- ReadStepPoints(ps[1..]);
      Some([x] + xs)
  }

  lemma StepExact(p: Point, x: StepInterval)
    ensures ReadStep(p) == Some(x) <==> p == StepPoint(x)
  {
    if ReadStep(p) == Some(x) {
      Rebuild(p, "steps", ["count"], StepTags, Default);
      assert Zip(["count"], ValuesOf(p.fields)) == [("count", x.steps)];
      assert Zip(StepTags, ValuesOf(p.tags))
          == [("activity_level", x.primaryActivityLevel),
              ("activity_level_constant", x.activityLevelConstant)];
    }
    if p == StepPoint(x) {
      ReadUtcOfUtc(x.endGMT, Default);
    }
  }

  lemma {:induction false} StepPointsExact(ps: seq<Point>, xs: seq<StepInterval>)
    ensures ReadStepPoints(ps) == Some(xs) <==> ps == StepPoints(xs)
  {
    if ReadStepPoints(ps) == Some(xs) {
      StepPointsRead(ps, xs);
    }
    if ps == StepPoints(xs) {
      StepPointsWritten(xs);
    }
  }

  lemma {:induction false} StepPointsRead(ps: seq<Point>, xs: seq<StepInterval>)
    requires ReadStepPoints(ps) == Some(xs)
    ensures ps == StepPoints(xs)
    decreases |ps|
  {
    if ps != [] {
      var x, rest := ReadStep(ps[0]).value, ReadStepPoints(ps[1..]).value;
      assert xs == [x] + rest;
      StepExact(ps[0], x);
      StepPointsRead(ps[1..], rest);
      assert StepPoints(xs)[1..] == StepPoints(rest);
      assert ps == [ps[0]] + ps[1..];
    }
  }

  lemma {:induction false} StepPointsWritten(xs: seq<StepInterval>)
    ensures ReadStepPoints(StepPoints(xs)) == Some(xs)
    decreases |xs|
  {
    if xs != [] {
      var ps := StepPoints(xs);
      assert ps[1..] == StepPoints(xs[1..]);
      StepExact(ps[0], xs[0]);
      StepPointsWritten(xs[1..]);
      assert xs == [xs[0]] + xs[1..];
    }
  }

  function ReadSteps(ws: seq<Write>): Option<seq<StepInterval>> {
    if |ws| != 1 then None
    else
      var ps :- ReadBatch(ws[0]);
      ReadStepPoints(ps)
  }

  lemma StepsRoundTrip(steps: seq<StepInterval>)
    ensures ReadSteps(DaySteps(steps)) == Some(steps)
  {
    StepPointsExact(StepPoints(steps), steps);
  }

  lemma StepsReadExact(ws: seq<Write>, steps: seq<StepInterval>)
    requires ReadSteps(ws) == Some(steps)
    ensures DaySteps(steps) == ws
  {
    StepPointsExact(ws[0].points, steps);
    assert ws == [ws[0]];
  }

  // ---- Stress and body battery ----

  /** A body-battery reading as the writes retain it: elements 1 and 3 of the
      4-tuple are not written. */
  function Blank(r: BatteryReading): BatteryReading {
    BatteryReading(r.time, Null, r.level, Null)
  }

  function Unkept(xs: seq<Sample>): (rs: seq<BatteryReading>)
    ensures |rs| == |xs|
  {
    seq(|xs|, i requires 0 <= i < |xs| => BatteryReading(xs[i].time, Null, xs[i].value, Null))
  }

  function StressNormal(s: Stress): Stress {
    s.(bodyBatteryValuesArray :=
         match s.bodyBatteryValuesArray
         case None => None
         case Some(rs) => Some(seq(|rs|, i requires 0 <= i < |rs| => Blank(rs[i]))))
  }

  function ReadBattery(w: Write): Option<Option<seq<BatteryReading>>> {
    var ps :- ReadBatch(w);
    var xs :- ReadSeries("body_battery", "value", Millis, ps);
    Some(Some(Unkept(xs)))
  }

  function ReadStress(ws: seq<Write>): Option<(Stress, int)> {
    if |ws| != 2 && |ws| != 3 then None
    else
      var ps :- ReadBatch(ws[0]);
      var values :- ReadSeries("stress", "value", Millis, ps);
      var battery :- if |ws| == 2 then Some(None) else ReadBattery(ws[1]);
      var p :- ReadSingle(ws[|ws| - 1], "stress", StressAggregateFields, [], Seconds);
      var e :- DayOfMidday(p.time);
      var f := ValuesOf(p.fields);
      Some((Stress(values, battery, f[0], f[1]), e))
  }

  lemma KeptBlank(rs: seq<BatteryReading>)
    ensures Kept(seq(|rs|, i requires 0 <= i < |rs| => Blank(rs[i]))) == Kept(rs)
    ensures Unkept(Kept(rs)) == seq(|rs|, i requires 0 <= i < |rs| => Blank(rs[i]))
  {
  }

  lemma StressNormalSame(s: Stress, e: int)
    ensures DayStress(StressNormal(s), e) == DayStress(s, e)
  {
    if s.bodyBatteryValuesArray.Some? {
      KeptBlank(s.bodyBatteryValuesArray.value);
    }
  }

  lemma StressRoundTrip(s: Stress, e: int)
    ensures ReadStress(DayStress(s, e)) == Some((StressNormal(s), e))
  {
    var ws := DayStress(s, e);
    SeriesExact("stress", "value", Millis, ws[0].points, s.stressValuesArray);
    if s.bodyBatteryValuesArray.Some? {
      var rs := s.bodyBatteryValuesArray.value;
      SeriesExact("body_battery", "value", Millis, ws[1].points, Kept(rs));
      KeptBlank(rs);
    }
  }

  lemma StressReadExact(ws: seq<Write>, s: Stress, e: int)
    requires ReadStress(ws) == Some((s, e))
    ensures DayStress(s, e) == ws && StressNormal(s) == s
  {
    var p := ws[|ws| - 1].point;
    Rebuild(p, "stress", StressAggregateFields, [], Seconds);
    assert ws[|ws| - 1] == Single(StressAggregatePoint(s, e));
    SeriesExact("stress", "value", Millis, ws[0].points, s.stressValuesArray);
    if |ws| == 3 {
      var xs :| ReadSeries("body_battery", "value", Millis, ws[1].points) == Some(xs)
                && s.bodyBatteryValuesArray == Some(Unkept(xs));
      SeriesExact("body_battery", "value", Millis, ws[1].points, xs);
      assert Kept(Unkept(xs)) == xs;
      var rs := Unkept(xs);
      assert seq(|rs|, i requires 0 <= i < |rs| => Blank(rs[i])) == rs;
      assert ws == [ws[0], ws[1], ws[2]];
    } else {
      assert ws == [ws[0], ws[1]];
    }
  }

  // ---- Sleep ----

  function ReadMovement(p: Point): Option<Movement> {
    if Fits(p, "sleep", ["activity_level"], [], Default) then
      var s :- ReadUtc(p.time);
      Some(Movement(p.fields[0].1, s))
    else None
  }

  function ReadMovementPoints(ps: seq<Point>): Option<seq<Movement>>
    decreases |ps|
  {
    if ps == [] then Some([])
    else
      var x :- ReadMovement(ps[0]);
      var xs :- ReadMovementPoints(ps[1..]);
      Some([x] + xs)
  }

  lemma MovementExact(p: Point, x: Movement)
    ensures ReadMovement(p) == Some(x) <==> p == MovementPoint(x)
  {
    if ReadMovement(p) == Some(x) {
      Rebuild(p, "sleep", ["activity_level"], [], Default);
      assert Zip(["activity_level"], ValuesOf(p.fields)) == [("activity_level", x.activityLevel)];
    }
    if p == MovementPoint(x) {
      ReadUtcOfUtc(x.endGMT, Default);
    }
  }

  lemma {:induction false} MovementPointsExact(ps: seq<Point>, xs: seq<Movement>)
    ensures ReadMovementPoints(ps) == Some(xs) <==> ps == MovementPoints(xs)
  {
    if ReadMovementPoints(ps) == Some(xs) {
      MovementPointsRead(ps, xs);
    }
    if ps == MovementPoints(xs) {
      MovementPointsWritten(xs);
    }
  }

  lemma {:induction false} MovementPointsRead(ps: seq<Point>, xs: seq<Movement>)
    requires ReadMovementPoints(ps) == Some(xs)
    ensures ps == MovementPoints(xs)
    decreases |ps|
  {
    if ps != [] {
      var x, rest := ReadMovement(ps[0]).value, ReadMovementPoints(ps[1..]).value;
      assert xs == [x] + rest;
      MovementExact(ps[0], x);
      MovementPointsRead(ps[1..], rest);
      assert MovementPoints(xs)[1..] == MovementPoints(rest);
      assert ps == [ps[0]] + ps[1..];
    }
  }

  lemma {:induction false} MovementPointsWritten(xs: seq<Movement>)
    ensures ReadMovementPoints(MovementPoints(xs)) == Some(xs)
    decreases |xs|
  {
    if xs != [] {
      var ps := MovementPoints(xs);
      assert ps[1..] == MovementPoints(xs[1..]);
      MovementExact(ps[0], xs[0]);
      MovementPointsWritten(xs[1..]);
      assert xs == [xs[0]] + xs[1..];
    }
  }

  /** What the sleep writes retain: a present but empty sleep-stress list and
      a present but empty respiration list both produce one empty batch, so
      the record with only an empty respiration list reads back as the one
      with only an empty sleep-stress list. */
  function SleepNormal(s: Sleep): Sleep {
    if s.sleepStress.None? && s.wellnessEpochRespirationDataDTOList == Some([])
    then s.(sleepStress := Some([]), wellnessEpochRespirationDataDTOList := None)
    else s
  }

  function ReadScore(w: Write, t: Time): Option<Option<ScoreBlock>> {
    var p :- ReadSingle(w, "sleep", ScoreFields, ScoreTags, Millis);
    var f := ValuesOf(p.fields);
    var g := ValuesOf(p.tags);
    if p.time == t then Some(Some(ScoreBlock(g[0], g[1], f[0], f[1], f[2], f[3]))) else None
  }

  /** The batches between the score point and the main point: sleep stress
      first, then respiration; a lone batch is sleep stress unless its points
      are respiration readings. */
  function ReadMiddle(ws: seq<Write>): Option<(Option<seq<Sample>>, Option<seq<Sample>>)> {
    if |ws| == 0 then Some((None, None))
    else if |ws| == 1 then
      var ps :- ReadBatch(ws[0]);
      match ReadSeries("sleep", "stress", Millis, ps)
      case Some(xs) => Some((Some(xs), None))
      case None =>
        var ys :- ReadSeries("sleep", "respiration", Millis, ps);
        Some((None, Some(ys)))
    else if |ws| == 2 then
      var ps :- ReadBatch(ws[0]);
      var xs :- ReadSeries("sleep", "stress", Millis, ps);
      var qs :- ReadBatch(ws[1]);
      var ys :- ReadSeries("sleep", "respiration", Millis, qs);
      Some((Some(xs), Some(ys)))
    else None
  }

  function ReadDailySleep(p: Point): DailySleep
    requires Fits(p, "sleep", SleepFields, SleepTags, Millis)
  {
    var f := ValuesOf(p.fields);
    var g := ValuesOf(p.tags);
    DailySleep(g[0], g[1], f[0], f[1], f[2], f[3], f[4], f[5], f[6], f[7], f[8], f[9], f[10], f[11], f[12],
               p.time.at)
  }

  function ReadSleep(ws: seq<Write>): Option<Sleep> {
    if |ws| < 2 || |ws| > 5 then None
    else
      var mps :- ReadBatch(ws[0]);
      var movement :- ReadMovementPoints(mps);
      var main :- ReadSingle(ws[|ws| - 1], "sleep", SleepFields, SleepTags, Millis);
      var hasScore := |ws| >= 3 && ws[1].Single?;
      var scores :- if hasScore then ReadScore(ws[1], main.time) else Some(None);
      var middle :- ReadMiddle(ws[(if hasScore then 2 else 1)..|ws| - 1]);
      Some(Sleep(ReadDailySleep(main), movement, scores, middle.0, middle.1))
  }

  lemma SleepNormalSame(s: Sleep)
    ensures DaySleep(SleepNormal(s)) == DaySleep(s)
  {
    if s.sleepStress.None? && s.wellnessEpochRespirationDataDTOList == Some([]) {
      assert Series("sleep", "stress", [], Millis) == Series("sleep", "respiration", [], Millis);
    }
  }

  /** The middle batches of the sleep writes, as `DaySleep` emits them. */
  function Middle(s: Sleep): seq<Write> {
    (match s.sleepStress
     case None => []
     case Some(xs) => [Batch(Series("sleep", "stress", xs, Millis))])
    + (match s.wellnessEpochRespirationDataDTOList
       case None => []
       case Some(xs) => [Batch(Series("sleep", "respiration", xs, Millis))])
  }

  lemma MiddleRoundTrip(s: Sleep)
    ensures ReadMiddle(Middle(s))
         == Some((SleepNormal(s).sleepStress, SleepNormal(s).wellnessEpochRespirationDataDTOList))
  {
    var ss := s.sleepStress;
    var rr := s.wellnessEpochRespirationDataDTOList;
    if ss.Some? {
      SeriesExact("sleep", "stress", Millis, Series("sleep", "stress", ss.value, Millis), ss.value);
    }
    if rr.Some? {
      var ys := rr.value;
      var qs := Series("sleep", "respiration", ys, Millis);
      SeriesExact("sleep", "respiration", Millis, qs, ys);
      if ss.None? && ys != [] {
        assert qs[0].fields[0].0 == "respiration";
        assert ReadSample("sleep", "stress", Millis, qs[0]) == None;
        assert ReadSeries("sleep", "stress", Millis, qs) == None;
      }
    }
  }

  lemma SleepRoundTrip(s: Sleep)
    ensures ReadSleep(DaySleep(s)) == Some(SleepNormal(s))
  {
    var ws := DaySleep(s);
    var d := s.dailySleepDTO;
    DaySleepShape(s);
    MovementPointsExact(MovementPoints(s.sleepMovement), s.sleepMovement);
    MiddleRoundTrip(s);
    DailySleepRoundTrip(d);
    if s.sleepScores.Some? {
      ScoreRoundTrip(s.sleepScores.value, d);
    }
  }

  /** Where each piece sits in the sleep writes. */
  lemma DaySleepShape(s: Sleep)
    ensures var ws := DaySleep(s);
      var k := if s.sleepScores.Some? then 2 else 1;
      && 2 <= |ws| <= 5
      && ws[0] == Batch(MovementPoints(s.sleepMovement))
      && ws[|ws| - 1] == Single(SleepPoint(s.dailySleepDTO))
      && (|ws| >= 3 && ws[1].Single? <==> s.sleepScores.Some?)
      && (s.sleepScores.Some? ==> ws[1] == Single(ScorePoint(s.sleepScores.value, s.dailySleepDTO)))
      && ws[k..|ws| - 1] == Middle(s)
  {
    DaySleepParts(s);
  }

  lemma DailySleepRoundTrip(d: DailySleep)
    ensures ReadDailySleep(SleepPoint(d)) == d
  {
  }

  lemma ScoreRoundTrip(sc: ScoreBlock, d: DailySleep)
    ensures ReadScore(Single(ScorePoint(sc, d)), SleepPoint(d).time) == Some(Some(sc))
  {
  }

  lemma MiddleReadExact(ws: seq<Write>, stress: Option<seq<Sample>>, resp: Option<seq<Sample>>, s: Sleep)
    requires ReadMiddle(ws) == Some((stress, resp))
    requires s.sleepStress == stress && s.wellnessEpochRespirationDataDTOList == resp
    ensures Middle(s) == ws && SleepNormal(s) == s
  {
    if |ws| == 1 {
      var ps := ws[0].points;
      if ReadSeries("sleep", "stress", Millis, ps).Some? {
        SeriesExact("sleep", "stress", Millis, ps, stress.value);
      } else {
        SeriesExact("sleep", "respiration", Millis, ps, resp.value);
        if resp.value == [] {
          SeriesExact("sleep", "stress", Millis, ps, []);
        }
      }
      assert ws == [ws[0]];
    } else if |ws| == 2 {
      SeriesExact("sleep", "stress", Millis, ws[0].points, stress.value);
      SeriesExact("sleep", "respiration", Millis, ws[1].points, resp.value);
      assert ws == [ws[0], ws[1]];
    }
  }

  lemma SleepPointOfRead(p: Point)
    requires Fits(p, "sleep", SleepFields, SleepTags, Millis)
    ensures SleepPoint(ReadDailySleep(p)) == p
  {
    Rebuild(p, "sleep", SleepFields, SleepTags, Millis);
  }

  lemma ScorePointOfRead(w: Write, t: Time, sc: ScoreBlock, d: DailySleep)
    requires ReadScore(w, t) == Some(Some(sc)) && t.at == d.sleepEndTimestampGMT
    ensures w == Single(ScorePoint(sc, d))
  {
    Rebuild(w.point, "sleep", ScoreFields, ScoreTags, Millis);
  }

  /** The pieces `ReadSleep` accepted, one fact per piece. */
  lemma SleepReadParts(ws: seq<Write>, s: Sleep)
    requires ReadSleep(ws) == Some(s)
    ensures 2 <= |ws| <= 5 && ws[0].Batch? && ws[|ws| - 1].Single?
    ensures ReadMovementPoints(ws[0].points) == Some(s.sleepMovement)
    ensures Fits(ws[|ws| - 1].point, "sleep", SleepFields, SleepTags, Millis)
    ensures s.dailySleepDTO == ReadDailySleep(ws[|ws| - 1].point)
    ensures |ws| >= 3 && ws[1].Single? ==> ReadScore(ws[1], ws[|ws| - 1].point.time) == Some(s.sleepScores)
    ensures !(|ws| >= 3 && ws[1].Single?) ==> s.sleepScores.None?
    ensures var k := if |ws| >= 3 && ws[1].Single? then 2 else 1;
      ReadMiddle(ws[k..|ws| - 1]) == Some((s.sleepStress, s.wellnessEpochRespirationDataDTOList))
  {
  }

  /** The optional score write of `DaySleep`. */
  function Scored(s: Sleep): seq<Write> {
    match s.sleepScores
    case None => []
    case Some(sc) => [Single(ScorePoint(sc, s.dailySleepDTO))]
  }

  lemma DaySleepParts(s: Sleep)
    ensures DaySleep(s)
         == [Batch(MovementPoints(s.sleepMovement))] + Scored(s) + Middle(s) + [Single(SleepPoint(s.dailySleepDTO))]
  {
  }

  lemma SleepFromParts(ws: seq<Write>, s: Sleep)
    requires 2 <= |ws| <= 5 && ws[0].Batch? && ws[|ws| - 1].Single?
    requires ReadMovementPoints(ws[0].points) == Some(s.sleepMovement)
    requires Fits(ws[|ws| - 1].point, "sleep", SleepFields, SleepTags, Millis)
    requires s.dailySleepDTO == ReadDailySleep(ws[|ws| - 1].point)
    requires |ws| >= 3 && ws[1].Single? ==> ReadScore(ws[1], ws[|ws| - 1].point.time) == Some(s.sleepScores)
    requires !(|ws| >= 3 && ws[1].Single?) ==> s.sleepScores.None?
    requires var k := if |ws| >= 3 && ws[1].Single? then 2 else 1;
      ReadMiddle(ws[k..|ws| - 1]) == Some((s.sleepStress, s.wellnessEpochRespirationDataDTOList))
    ensures DaySleep(s) == ws && SleepNormal(s) == s
  {
    var main := ws[|ws| - 1].point;
    var d := s.dailySleepDTO;
    var hasScore := |ws| >= 3 && ws[1].Single?;
    var k := if hasScore then 2 else 1;
    SleepPointOfRead(main);
    assert [ws[|ws| - 1]] == [Single(SleepPoint(d))];
    MovementPointsExact(ws[0].points, s.sleepMovement);
    assert [ws[0]] == [Batch(MovementPoints(s.sleepMovement))];
    if hasScore {
      ScorePointOfRead(ws[1], main.time, s.sleepScores.value, d);
      assert ws[1..k] == [ws[1]];
    }
    assert ws[1..k] == Scored(s);
    MiddleReadExact(ws[k..|ws| - 1], s.sleepStress, s.wellnessEpochRespirationDataDTOList, s);
    DaySleepParts(s);
    Split(ws, k);
  }

  lemma Split(ws: seq<Write>, k: int)
    requires 1 <= k <= |ws| - 1
    ensures ws == [ws[0]] + ws[1..k] + ws[k..|ws| - 1] + [ws[|ws| - 1]]
  {
    assert ws == ws[..1] + ws[1..k] + ws[k..|ws| - 1] + ws[|ws| - 1..];
  }

  lemma SleepReadExact(ws: seq<Write>, s: Sleep)
    requires ReadSleep(ws) == Some(s)
    ensures DaySleep(s) == ws && SleepNormal(s) == s
  {
    SleepReadParts(ws, s);
    SleepFromParts(ws, s);
  }

  // ---- Daily summary ----

  /** The summary whose values, in `UserFields` order, are `f`. */
  function UserOfValues(f: seq<Value>): UserSummary
    requires |f| == |UserFields|
  {
    UserSummary(f[0], f[1], f[2], f[3], f[4], f[5], f[6], f[7], f[8], f[9],
                f[10], f[11], f[12], f[13], f[14], f[15], f[16], f[17], f[18], f[19],
                f[20], f[21], f[22], f[23], f[24], f[25], f[26], f[27], f[28], f[29],
                f[30], f[31], f[32], f[33])
  }

  lemma UserValuesInverse(u: UserSummary)
    ensures UserOfValues(UserValues(u)) == u
  {
  }

  lemma UserValuesOnto(f: seq<Value>)
    requires |f| == |UserFields|
    ensures UserValues(UserOfValues(f)) == f
  {
  }

  function ReadUser(ws: seq<Write>): Option<(UserSummary, int)> {
    if |ws| != 1 then None
    else
      var p :- ReadSingle(ws[0], "user", UserFields, [], Seconds);
      var e :- DayOfMidday(p.time);
      Some((UserOfValues(ValuesOf(p.fields)), e))
  }

  lemma UserRoundTrip(u: UserSummary, e: int)
    ensures ReadUser(DayUser(u, e)) == Some((u, e))
  {
    UserValuesInverse(u);
  }

  lemma UserReadExact(ws: seq<Write>, u: UserSummary, e: int)
    requires ReadUser(ws) == Some((u, e))
    ensures DayUser(u, e) == ws
  {
    var p := ws[0].point;
    Rebuild(p, "user", UserFields, [], Seconds);
    UserValuesOnto(ValuesOf(p.fields));
    assert p == UserPoint(u, e);
    assert ws == [ws[0]];
  }
}
