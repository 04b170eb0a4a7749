/** Battery-drain prediction: a least-squares line through the last week of
    an entity's readings, the drain rate per day it implies, how many days
    remain until the 10% mark, and the list of predictions ordered from the
    most urgent. Arithmetic is exact (reals and integers). */
module BatteryPrediction {
  import opened Wrappers
  import opened Strings
  import opened Collections
  import opened Sorting
  import MonitoredEntities
  import Snapshots

  /** A reading: a time in milliseconds and a value. */
  datatype Point = Point(timestamp: int, value: real)

  datatype Fit = Fit(slope: real, intercept: real)

  const DayMs := 24 * 60 * 60 * 1000
  const WeekMs := 7 * DayMs

  /** The time of a point measured from `t0`. */
  function X(p: Point, t0: int): int {
    p.timestamp - t0
  }

  /** The four running sums of `linearRegression`, with the count. The times
      are whole milliseconds, so the count and the sums over times alone are
      integers. */
  datatype Sums = Sums(n: int, sumX: int, sumY: real, sumXY: real, sumX2: int)

  const NoSums := Sums(0, 0, 0.0, 0.0, 0)

  /** One pass of the summing loop. */
  function Add(s: Sums, x: int, y: real): Sums {
    Sums(s.n + 1, s.sumX + x, s.sumY + y, s.sumXY + x as real * y, s.sumX2 + x * x)
  }

  function SumsOf(points: seq<Point>, t0: int): (s: Sums)
    ensures s.n == |points|
    decreases |points|
  {
    if points == [] then NoSums
    else Add(SumsOf(points[..|points| - 1], t0), X(points[|points| - 1], t0), points[|points| - 1].value)
  }

  /** `n * sumX2 - sumX * sumX` */
  function Den(s: Sums): int {
    s.n * s.sumX2 - s.sumX * s.sumX
  }

  /** The fit the sums give, for at least one reading: a zero denominator
      gives slope 0 and the mean as intercept. */
  function FitOf(s: Sums): Fit
    requires s.n > 0
  {
    if Den(s) == 0 then Fit(0.0, s.sumY / s.n as real)
    else
      var slope := (s.n as real * s.sumXY - s.sumX as real * s.sumY) / Den(s) as real;
      Fit(slope, (s.sumY - slope * s.sumX as real) / s.n as real)
  }

  /** The least-squares line, times taken from the first point's time. */
  function Regression(points: seq<Point>): (f: Fit)
    ensures points == [] ==> f == Fit(0.0, 0.0)
  {
    if points == [] then Fit(0.0, 0.0)
    else FitOf(SumsOf(points, points[0].timestamp))
  }

  /** `linearRegression(points)` */
  method LinearRegression(points: seq<Point>) returns (f: Fit)
    ensures f == Regression(points)
  {
    var n := |points|;
    if n == 0 {
      return Fit(0.0, 0.0);
    }
    var sumX, sumY, sumXY, sumX2 := 0, 0.0, 0.0, 0;
    var t0 := points[0].timestamp;
    var i := 0;
    while i < n
      invariant 0 <= i <= n
      invariant Sums(i, sumX, sumY, sumXY, sumX2) == SumsOf(points[..i], t0)
    {
      var x := points[i].timestamp - t0;
      var y := points[i].value;
      assert points[..i + 1][..i] == points[..i];
      sumX := sumX + x;
      sumY := sumY + y;
      sumXY := sumXY + x as real * y;
      sumX2 := sumX2 + x * x;
      i := i + 1;
    }
    assert points[..n] == points;
    f := FitFromSums(n, sumX, sumY, sumXY, sumX2);
  }

  /** The closing lines of `linearRegression`: slope and intercept from the
      four sums. */
  method FitFromSums(n: int, sumX: int, sumY: real, sumXY: real, sumX2: int) returns (f: Fit)
    requires n > 0
    ensures f == FitOf(Sums(n, sumX, sumY, sumXY, sumX2))
  {
    var denominator := n * sumX2 - sumX * sumX;
    if denominator == 0 {
      return Fit(0.0, sumY / n as real);
    }
    var slope := (n as real * sumXY - sumX as real * sumY) / denominator as real;
    f := Fit(slope, (sumY - slope * sumX as real) / n as real);
  }

  /** The sum of squared differences between every earlier time and a later
      one. */
  function PairSpread(points: seq<Point>, t0: int): int
    decreases |points|
  {
    if points == [] then 0
    else PairSpread(points[..|points| - 1], t0) + SpreadTo(points[..|points| - 1], X(points[|points| - 1], t0), t0)
  }

  /** The sum of squared distances of the times from `z`. */
  function SpreadTo(points: seq<Point>, z: int, t0: int): int
    decreases |points|
  {
    if points == [] then 0
    else SpreadTo(points[..|points| - 1], z, t0) + (X(points[|points| - 1], t0) - z) * (X(points[|points| - 1], t0) - z)
  }

  /** A square is never negative, and zero only for zero. */
  lemma SquareFacts(d: int)
    ensures d * d >= 0
    ensures d * d == 0 <==> d == 0
  {
  }

  predicate Expanded(spread: int, s: Sums, z: int) {
    spread == s.sumX2 - 2 * z * s.sumX + s.n * z * z
  }

  lemma ExpandStep(spread: int, s: Sums, x: int, y: real, z: int)
    requires Expanded(spread, s, z)
    ensures Expanded(spread + (x - z) * (x - z), Add(s, x, y), z)
  {
  }

  lemma {:induction false} SpreadToExpands(points: seq<Point>, z: int, t0: int)
    ensures Expanded(SpreadTo(points, z, t0), SumsOf(points, t0), z)
    decreases |points|
  {
    if points != [] {
      var init, last := points[..|points| - 1], points[|points| - 1];
      SpreadToExpands(init, z, t0);
      ExpandStep(SpreadTo(init, z, t0), SumsOf(init, t0), X(last, t0), last.value, z);
    }
  }

  lemma LagrangeStep(s: Sums, spread: int, pairs: int, z: int, y: real)
    requires Den(s) == pairs && Expanded(spread, s, z)
    ensures Den(Add(s, z, y)) == pairs + spread
  {
  }

  /** Lagrange's identity: the denominator is the sum of squared pairwise
      differences of the times. */
  lemma {:induction false} DenominatorIsSpread(points: seq<Point>, t0: int)
    ensures Den(SumsOf(points, t0)) == PairSpread(points, t0)
    decreases |points|
  {
    if points != [] {
      var init, last := points[..|points| - 1], points[|points| - 1];
      var z := X(last, t0);
      DenominatorIsSpread(init, t0);
      SpreadToExpands(init, z, t0);
      LagrangeStep(SumsOf(init, t0), SpreadTo(init, z, t0), PairSpread(init, t0), z, last.value);
    }
  }

  lemma {:induction false} SpreadToZeroIff(points: seq<Point>, z: int, t0: int)
    ensures SpreadTo(points, z, t0) >= 0
    ensures SpreadTo(points, z, t0) == 0 <==> forall i :: 0 <= i < |points| ==> X(points[i], t0) == z
    decreases |points|
  {
    if points != [] {
      var init := points[..|points| - 1];
      SpreadToZeroIff(init, z, t0);
      assert forall i :: 0 <= i < |init| ==> init[i] == points[i];
      SquareFacts(X(points[|points| - 1], t0) - z);
    }
  }

  lemma {:induction false} PairSpreadZeroIff(points: seq<Point>, t0: int)
    ensures PairSpread(points, t0) >= 0
    ensures PairSpread(points, t0) == 0 <==> forall i, j :: 0 <= i < j < |points| ==> points[i].timestamp == points[j].timestamp
    decreases |points|
  {
    if points != [] {
      var init, last := points[..|points| - 1], points[|points| - 1];
      PairSpreadZeroIff(init, t0);
      SpreadToZeroIff(init, X(last, t0), t0);
      assert forall i :: 0 <= i < |init| ==> init[i] == points[i];
      if PairSpread(points, t0) == 0 {
        forall i, j | 0 <= i < j < |points| ensures points[i].timestamp == points[j].timestamp {
          if j < |points| - 1 {
            assert init[i] == points[i] && init[j] == points[j];
          } else {
            assert X(init[i], t0) == X(last, t0);
          }
        }
      }
    }
  }

  /** The zero-denominator guard fires exactly when all the readings share
      one time; otherwise the denominator is positive. */
  lemma {:induction false} DenominatorZeroIff(points: seq<Point>, t0: int)
    ensures Den(SumsOf(points, t0)) >= 0
    ensures Den(SumsOf(points, t0)) == 0 <==>
      forall i, j :: 0 <= i < j < |points| ==> points[i].timestamp == points[j].timestamp
  {
    DenominatorIsSpread(points, t0);
    PairSpreadZeroIff(points, t0);
  }

  function Mean(points: seq<Point>): real
    requires points != []
  {
    SumsOf(points, 0).sumY / |points| as real
  }

  lemma {:induction false} SumYAnyOrigin(points: seq<Point>, t0: int, t1: int)
    ensures SumsOf(points, t0).sumY == SumsOf(points, t1).sumY
    decreases |points|
  {
    if points != [] {
      SumYAnyOrigin(points[..|points| - 1], t0, t1);
    }
  }

  /** Readings that all share one time give slope 0 and their mean. */
  lemma {:induction false} SameTimeGivesMean(points: seq<Point>)
    requires points != []
    requires forall i :: 0 <= i < |points| ==> points[i].timestamp == points[0].timestamp
    ensures Regression(points) == Fit(0.0, Mean(points))
  {
    DenominatorZeroIff(points, points[0].timestamp);
    SumYAnyOrigin(points, points[0].timestamp, 0);
  }

  /** Readings that lie exactly on a line `a + b * (t - t0)`. */
  predicate OnLine(points: seq<Point>, a: real, b: real, t0: int) {
    forall i :: 0 <= i < |points| ==> points[i].value == a + b * X(points[i], t0) as real
  }

  /** What the sums of readings on a line satisfy. */
  predicate LineSummed(s: Sums, a: real, b: real) {
    s.sumY == s.n as real * a + b * s.sumX as real && s.sumXY == a * s.sumX as real + b * s.sumX2 as real
  }

  lemma CastProduct(p: int, q: int)
    ensures (p * q) as real == p as real * q as real
  {
  }

  lemma LineStep(s: Sums, x: int, y: real, a: real, b: real)
    requires LineSummed(s, a, b) && y == a + b * x as real
    ensures LineSummed(Add(s, x, y), a, b)
  {
    CastProduct(x, x);
  }

  lemma {:induction false} LineSums(points: seq<Point>, a: real, b: real, t0: int)
    requires OnLine(points, a, b, t0)
    ensures LineSummed(SumsOf(points, t0), a, b)
    decreases |points|
  {
    if points != [] {
      var init, last := points[..|points| - 1], points[|points| - 1];
      assert forall i :: 0 <= i < |init| ==> init[i] == points[i];
      LineSums(init, a, b, t0);
      LineStep(SumsOf(init, t0), X(last, t0), last.value, a, b);
    }
  }

  lemma LineCoefficients(n: real, sx: real, sx2: real, sy: real, sxy: real, den: real, a: real, b: real)
    requires n > 0.0 && den == n * sx2 - sx * sx && den != 0.0
    requires sy == n * a + b * sx && sxy == a * sx + b * sx2
    ensures (n * sxy - sx * sy) / den == b
    ensures (sy - b * sx) / n == a
  {
    assert n * sxy - sx * sy == b * den;
    assert sy - b * sx == n * a;
  }

  lemma FitOfLine(s: Sums, a: real, b: real)
    requires s.n > 0 && Den(s) != 0 && LineSummed(s, a, b)
    ensures FitOf(s) == Fit(b, a)
  {
    CastProduct(s.n, s.sumX2);
    CastProduct(s.sumX, s.sumX);
    LineCoefficients(s.n as real, s.sumX as real, s.sumX2 as real, s.sumY, s.sumXY, Den(s) as real, a, b);
  }

  /** Readings at two or more distinct times that lie on a line give back
      exactly that line's slope and its value at the first reading's time. */
  lemma {:induction false} RegressionRecoversLine(points: seq<Point>, a: real, b: real)
    requires points != []
    requires OnLine(points, a, b, points[0].timestamp)
    requires exists i :: 0 <= i < |points| && points[i].timestamp != points[0].timestamp
    ensures Regression(points) == Fit(b, a)
  {
    var t0 := points[0].timestamp;
    LineSums(points, a, b, t0);
    DenominatorZeroIff(points, t0);
    FitOfLine(SumsOf(points, t0), a, b);
  }

  function Shifted(points: seq<Point>, c: int): (r: seq<Point>)
    ensures |r| == |points|
    ensures forall i :: 0 <= i < |points| ==> r[i] == Point(points[i].timestamp + c, points[i].value)
  {
    seq(|points|, i requires 0 <= i < |points| => Point(points[i].timestamp + c, points[i].value))
  }

  lemma {:induction false} ShiftedSums(points: seq<Point>, c: int, t0: int)
    ensures SumsOf(Shifted(points, c), t0 + c) == SumsOf(points, t0)
    decreases |points|
  {
    if points != [] {
      var init := points[..|points| - 1];
      assert Shifted(points, c)[..|points| - 1] == Shifted(init, c);
      ShiftedSums(init, c, t0);
    }
  }

  /** Because times are measured from the first reading, moving every
      reading by the same amount of time leaves the fit unchanged. */
  lemma {:induction false} RegressionShiftInvariant(points: seq<Point>, c: int)
    ensures Regression(Shifted(points, c)) == Regression(points)
  {
    if points != [] {
      ShiftedSums(points, c, points[0].timestamp);
    }
  }

  /** One entry of `getBatteryPredictions()`. */
  datatype Prediction = Prediction(
    entityId: string,
    friendlyName: Option<string>,
    currentLevel: int,
    drainRatePerDay: real,
    daysRemaining: int,
    dataPoints: nat,
    needsAttention: bool)

  const Threshold := 10.0
  const AttentionDays := 30

  /** `-slope * (24 * 60 * 60 * 1000)`: percent per day. */
  function DrainPerDay(points: seq<Point>): real {
    -Regression(points).slope * DayMs as real
  }

  /** Days until the 10% mark; 0 at or below it. */
  function DaysRemaining(latest: real, drain: real): (d: int)
    requires drain > 0.0
    ensures d >= 0
    ensures latest <= Threshold ==> d == 0
  {
    if latest > Threshold then Round((latest - Threshold) / drain) else 0
  }

  /** The prediction for one entity's readings (oldest first), or nothing
      when it is skipped. */
  function Predict(entityId: string, friendlyName: Option<string>, points: seq<Point>): (r: Option<Prediction>)
    ensures r.Some? <==>
      |points| >= 2 && 0.0 <= points[|points| - 1].value <= 100.0 && DrainPerDay(points) > 0.01
    ensures r.Some? ==> r.value.daysRemaining >= 0 && r.value.dataPoints == |points|
    ensures r.Some? ==> (r.value.needsAttention <==> 0 < r.value.daysRemaining <= AttentionDays)
  {
    if |points| < 2 then None
    else
      var latest := points[|points| - 1].value;
      if latest < 0.0 || latest > 100.0 then None
      else
        var drain := DrainPerDay(points);
        if drain <= 0.01 then None
        else
          var days := DaysRemaining(latest, drain);
          Some(Prediction(entityId, friendlyName, Round(latest), Round(drain * 10.0) as real / 10.0, days,
                          |points|, days > 0 && days <= AttentionDays))
  }

  /** A battery at or below 10% gets 0 days remaining and is not flagged. */
  lemma {:induction false} LowBatteryNotFlagged(entityId: string, friendlyName: Option<string>, points: seq<Point>)
    requires Predict(entityId, friendlyName, points).Some?
    requires points[|points| - 1].value <= Threshold
    ensures Predict(entityId, friendlyName, points).value.daysRemaining == 0
    ensures !Predict(entityId, friendlyName, points).value.needsAttention
  {
  }

  /** A battery above 10% whose drain leaves at most 30 days is flagged. */
  lemma {:induction false} SoonEmptyFlagged(entityId: string, friendlyName: Option<string>, points: seq<Point>)
    requires Predict(entityId, friendlyName, points).Some?
    requires var latest := points[|points| - 1].value;
      latest > Threshold && (latest - Threshold) / DrainPerDay(points) < AttentionDays as real + 0.5
      && (latest - Threshold) / DrainPerDay(points) >= 0.5
    ensures Predict(entityId, friendlyName, points).value.needsAttention
  {
  }

  /** `entity_id LIKE '%battery%'`: SQLite's LIKE ignores ASCII case. */
  predicate LikeBattery(entityId: string) {
    Contains(Lower(entityId), "battery")
  }

  /** The candidate query: category `power` or a battery-like id, and a
      priority other than `ignore` (a NULL priority does not pass `!=`). */
  predicate IsCandidate(e: MonitoredEntities.EntityRow) {
    (e.category == Some("power") || LikeBattery(e.entityId)) && MonitoredEntities.IsMonitored(e)
  }

  function Candidates(entities: seq<MonitoredEntities.EntityRow>): (r: seq<MonitoredEntities.EntityRow>)
    ensures forall e :: e in r <==> e in entities && IsCandidate(e)
  {
    Filter(entities, IsCandidate)
  }

  /** The readings query: that entity, a number present, within the window. */
  predicate IsReading(s: Snapshots.SnapshotRow, entityId: string, from: int, now: int) {
    s.entityId == entityId && s.valueNum.Some? && from <= s.timestamp <= now
  }

  predicate OlderOrSame(a: Snapshots.SnapshotRow, b: Snapshots.SnapshotRow) {
    a.timestamp <= b.timestamp
  }

  lemma OlderOrSameIsPreorder()
    ensures TotalPreorder(OlderOrSame)
  {
  }

  function ToPoints(rows: seq<Snapshots.SnapshotRow>): (r: seq<Point>)
    requires forall i :: 0 <= i < |rows| ==> rows[i].valueNum.Some?
    ensures |r| == |rows|
    ensures forall i :: 0 <= i < |rows| ==> r[i] == Point(rows[i].timestamp, rows[i].valueNum.value)
  {
    seq(|rows|, i requires 0 <= i < |rows| => Point(rows[i].timestamp, rows[i].valueNum.value))
  }

  /** An entity's readings of the last seven days, oldest first: one point
      for each of its snapshots in the window that holds a number. */
  function ReadingsOf(snapshots: seq<Snapshots.SnapshotRow>, entityId: string, now: int): (r: seq<Point>)
    ensures forall i, j :: 0 <= i < j < |r| ==> r[i].timestamp <= r[j].timestamp
    ensures forall i :: 0 <= i < |r| ==> now - WeekMs <= r[i].timestamp <= now
    ensures |r| == |Filter(snapshots, (s: Snapshots.SnapshotRow) => IsReading(s, entityId, now - WeekMs, now))|
    ensures forall p :: p in r <==>
      exists s :: s in snapshots && IsReading(s, entityId, now - WeekMs, now) && p == Point(s.timestamp, s.valueNum.value)
  {
    OlderOrSameIsPreorder();
    var kept := Filter(snapshots, (s: Snapshots.SnapshotRow) => IsReading(s, entityId, now - WeekMs, now));
    var sorted := SortBy(kept, OlderOrSame);
    assert forall x :: x in sorted <==> x in snapshots && IsReading(x, entityId, now - WeekMs, now) by {
      forall x ensures x in sorted <==> x in kept {
        assert x in sorted <==> x in multiset(sorted);
        assert x in kept <==> x in multiset(kept);
      }
    }
    ReadingPoints(snapshots, entityId, now - WeekMs, now, sorted);
    ToPoints(sorted)
  }

  /** The points of rows that are exactly the readings of an entity in a
      window are the points of those readings. */
  lemma ReadingPoints(snapshots: seq<Snapshots.SnapshotRow>, entityId: string, from: int, now: int,
                      rows: seq<Snapshots.SnapshotRow>)
    requires forall x :: x in rows <==> x in snapshots && IsReading(x, entityId, from, now)
    ensures forall i :: 0 <= i < |rows| ==> IsReading(rows[i], entityId, from, now)
    ensures forall i :: 0 <= i < |rows| ==> rows[i].valueNum.Some?
    ensures forall p :: p in ToPoints(rows) <==>
      exists s :: s in snapshots && IsReading(s, entityId, from, now) && p == Point(s.timestamp, s.valueNum.value)
  {
    assert forall i :: 0 <= i < |rows| ==> rows[i] in rows;
    var r := ToPoints(rows);
    forall p | p in r
      ensures exists s :: s in snapshots && IsReading(s, entityId, from, now) && p == Point(s.timestamp, s.valueNum.value)
    {
      var i :| 0 <= i < |r| && r[i] == p;
      assert rows[i] in rows;
    }
    forall s | s in snapshots && IsReading(s, entityId, from, now)
      ensures Point(s.timestamp, s.valueNum.value) in r
    {
      var k :| 0 <= k < |rows| && rows[k] == s;
      assert r[k] == Point(s.timestamp, s.valueNum.value);
    }
  }

  /** The prediction for one candidate, if it is not skipped. */
  function PredictionFor(e: MonitoredEntities.EntityRow, snapshots: seq<Snapshots.SnapshotRow>, now: int)
    : Option<Prediction>
  {
    Predict(e.entityId, e.friendlyName, ReadingsOf(snapshots, e.entityId, now))
  }

  /** The predictions pushed for a list of candidates, in their order. */
  function Collected(candidates: seq<MonitoredEntities.EntityRow>, snapshots: seq<Snapshots.SnapshotRow>, now: int)
    : (r: seq<Prediction>)
    ensures forall p :: p in r ==> exists e :: e in candidates && PredictionFor(e, snapshots, now) == Some(p)
    ensures forall e :: e in candidates && PredictionFor(e, snapshots, now).Some? ==> PredictionFor(e, snapshots, now).value in r
  {
    Somes(candidates, (e: MonitoredEntities.EntityRow) => PredictionFor(e, snapshots, now))
  }

  /** One more candidate adds its prediction, if any, at the end. */
  lemma CollectedSnoc(candidates: seq<MonitoredEntities.EntityRow>, snapshots: seq<Snapshots.SnapshotRow>, now: int,
                      i: nat)
    requires i < |candidates|
    ensures var p := PredictionFor(candidates[i], snapshots, now);
      Collected(candidates[..i + 1], snapshots, now) ==
        Collected(candidates[..i], snapshots, now) + (if p.Some? then [p.value] else [])
  {
    assert candidates[..i + 1][..i] == candidates[..i];
  }

  /** `(a, b) => a.days_remaining - b.days_remaining` */
  predicate FewerDays(a: Prediction, b: Prediction) {
    a.daysRemaining <= b.daysRemaining
  }

  lemma FewerDaysIsPreorder()
    ensures TotalPreorder(FewerDays)
  {
  }

  /** `getBatteryPredictions()`: a prediction for every candidate that is not
      skipped, most urgent first. */
  method GetBatteryPredictions(entities: seq<MonitoredEntities.EntityRow>, snapshots: seq<Snapshots.SnapshotRow>,
                               now: int) returns (predictions: seq<Prediction>)
    ensures SortedBy(predictions, FewerDays)
    ensures multiset(predictions) == multiset(Collected(Candidates(entities), snapshots, now))
  {
    var candidates := Candidates(entities);
    predictions := [];
    var i := 0;
    while i < |candidates|
      invariant 0 <= i <= |candidates|
      invariant predictions == Collected(candidates[..i], snapshots, now)
    {
      CollectedSnoc(candidates, snapshots, now, i);
      var p := PredictionFor(candidates[i], snapshots, now);
      if p.Some? {
        predictions := predictions + [p.value];
      }
      i := i + 1;
    }
    assert candidates[..i] == candidates;
    FewerDaysIsPreorder();
    predictions := SortBy(predictions, FewerDays);
  }

  /** Every prediction returned belongs to a candidate, and every candidate
      that is not skipped has its prediction in the list. */
  lemma {:induction false} PredictionsExactly(entities: seq<MonitoredEntities.EntityRow>,
                                             snapshots: seq<Snapshots.SnapshotRow>, now: int, result: seq<Prediction>)
    requires multiset(result) == multiset(Collected(Candidates(entities), snapshots, now))
    ensures forall p :: p in result ==> exists e :: e in entities && IsCandidate(e) && PredictionFor(e, snapshots, now) == Some(p)
    ensures forall e :: e in entities && IsCandidate(e) && PredictionFor(e, snapshots, now).Some? ==>
      PredictionFor(e, snapshots, now).value in result
  {
    var c := Collected(Candidates(entities), snapshots, now);
    assert forall p :: p in result <==> p in c by {
      forall p ensures p in result <==> p in c {
        assert p in result <==> p in multiset(result);
        assert p in c <==> p in multiset(c);
      }
    }
  }
}
