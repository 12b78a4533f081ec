/** The ROC threshold sweep, the trapezoidal AUC and the choice of the
    operating threshold closest to the ideal corner. */
module Roc {
  import opened StableSort

  /** One scored test row, mirroring the fields of the library's prediction
      output class. The sweep reads only `score` (from which it recomputes the
      probability, as the source does) and `actual`; `prediction` and
      `probability` are carried but not read. */
  datatype HeartPrediction = HeartPrediction(prediction: bool, score: real, probability: real, actual: bool)

  datatype RocCurvePoint = RocCurvePoint(threshold: real, truePositiveRate: real, falsePositiveRate: real)

  /** True/false positive/negative counters. */
  datatype Tally = Tally(tp: nat, fp: nat, tn: nat, fn: nat)

  /** The grid step is 1/50: the thresholds are k/50. */
  const Steps: nat := 50

  /** How many thresholds the sweep visits. The loop adds 0.02 to a double
      while it is at most 1.0; after fifty additions the sum is
      1.0000000000000004, so the loop stops there and the thresholds are
      0/50, 1/50, ..., 49/50: the value 1.0 itself is never visited. */
  const SweepLength: nat := 50

  function Threshold(k: int): real {
    k as real / Steps as real
  }

  /** Adds one prediction to the counters: exactly one counter grows. */
  function Classify(t: Tally, actualPositive: bool, predictedPositive: bool): Tally {
    if actualPositive && predictedPositive then t.(tp := t.tp + 1)
    else if !actualPositive && predictedPositive then t.(fp := t.fp + 1)
    else if !actualPositive && !predictedPositive then t.(tn := t.tn + 1)
    else t.(fn := t.fn + 1)
  }

  /** A prediction is positive at `threshold` when its probability reaches it. */
  predicate PredictedPositive(p: HeartPrediction, sigmoid: real -> real, threshold: real) {
    sigmoid(p.score) >= threshold
  }

  /** The counters after classifying every prediction at `threshold`. */
  function TallyAt(predictions: seq<HeartPrediction>, sigmoid: real -> real, threshold: real): (r: Tally)
    ensures r.tp + r.fp + r.tn + r.fn == |predictions|
  {
    if predictions == [] then Tally(0, 0, 0, 0)
    else
      var last := predictions[|predictions| - 1];
      Classify(TallyAt(predictions[..|predictions| - 1], sigmoid, threshold),
               last.actual, PredictedPositive(last, sigmoid, threshold))
  }

  /** The number of actually positive predictions. */
  function Positives(predictions: seq<HeartPrediction>): (r: nat)
    ensures r <= |predictions|
  {
    if predictions == [] then 0
    else Positives(predictions[..|predictions| - 1]) + (if predictions[|predictions| - 1].actual then 1 else 0)
  }

  /** At every threshold the actual positives split into TP and FN, the actual
      negatives into FP and TN; and a higher threshold never predicts more
      positives of either kind. */
  lemma {:induction false} TallyMonotone(predictions: seq<HeartPrediction>, sigmoid: real -> real, t1: real, t2: real)
    requires t1 <= t2
    ensures TallyAt(predictions, sigmoid, t1).tp + TallyAt(predictions, sigmoid, t1).fn == Positives(predictions)
    ensures TallyAt(predictions, sigmoid, t1).fp + TallyAt(predictions, sigmoid, t1).tn == |predictions| - Positives(predictions)
    ensures TallyAt(predictions, sigmoid, t2).tp <= TallyAt(predictions, sigmoid, t1).tp
    ensures TallyAt(predictions, sigmoid, t2).fp <= TallyAt(predictions, sigmoid, t1).fp
  {
    if predictions != [] {
      TallyMonotone(predictions[..|predictions| - 1], sigmoid, t1, t2);
    }
  }

  /** `num / (num + other)`, or 0 when the denominator is 0. */
  function Rate(num: nat, other: nat): (r: real)
    ensures 0.0 <= r <= 1.0
    ensures num + other == 0 ==> r == 0.0
    ensures num + other > 0 ==> r * (num + other) as real == num as real
  {
    if num + other > 0 then num as real / (num + other) as real else 0.0
  }

  /** With a fixed denominator, a smaller numerator gives a smaller rate. */
  lemma RateMonotone(num1: nat, other1: nat, num2: nat, other2: nat)
    requires num1 + other1 == num2 + other2
    requires num1 <= num2
    ensures Rate(num1, other1) <= Rate(num2, other2)
  {
    if num1 + other1 > 0 {
      var d := (num1 + other1) as real;
      assert num1 as real / d <= num2 as real / d;
    }
  }

  function PointAt(predictions: seq<HeartPrediction>, sigmoid: real -> real, threshold: real): (p: RocCurvePoint)
    ensures p.threshold == threshold
    ensures 0.0 <= p.truePositiveRate <= 1.0 && 0.0 <= p.falsePositiveRate <= 1.0
  {
    var t := TallyAt(predictions, sigmoid, threshold);
    RocCurvePoint(threshold, Rate(t.tp, t.fn), Rate(t.fp, t.tn))
  }

  /** The unsorted sweep: one point per threshold 0/50, 1/50, ..., 49/50. */
  function SweepPoints(predictions: seq<HeartPrediction>, sigmoid: real -> real): (r: seq<RocCurvePoint>)
    ensures |r| == SweepLength
    ensures forall k :: 0 <= k < |r| ==> r[k] == PointAt(predictions, sigmoid, Threshold(k))
  {
    seq(SweepLength, k requires 0 <= k < SweepLength => PointAt(predictions, sigmoid, Threshold(k)))
  }

  /** The sweep starts at threshold 0, rises by 1/50 per point and stops at
      49/50: every threshold lies in [0, 0.98], so none reaches 1.0. */
  lemma SweepThresholds(predictions: seq<HeartPrediction>, sigmoid: real -> real)
    ensures SweepPoints(predictions, sigmoid)[0].threshold == 0.0
    ensures SweepPoints(predictions, sigmoid)[SweepLength - 1].threshold == 0.98
    ensures forall k :: 0 < k < SweepLength ==>
      SweepPoints(predictions, sigmoid)[k].threshold == SweepPoints(predictions, sigmoid)[k - 1].threshold + 0.02
    ensures forall k :: 0 <= k < SweepLength ==> 0.0 <= SweepPoints(predictions, sigmoid)[k].threshold <= 0.98 < 1.0
  {
  }

  /** Both rates fall as the threshold rises along the sweep. */
  lemma SweepMonotone(predictions: seq<HeartPrediction>, sigmoid: real -> real, k1: int, k2: int)
    requires 0 <= k1 <= k2 < SweepLength
    ensures SweepPoints(predictions, sigmoid)[k2].falsePositiveRate <= SweepPoints(predictions, sigmoid)[k1].falsePositiveRate
    ensures SweepPoints(predictions, sigmoid)[k2].truePositiveRate <= SweepPoints(predictions, sigmoid)[k1].truePositiveRate
  {
    var a := TallyAt(predictions, sigmoid, Threshold(k1));
    var b := TallyAt(predictions, sigmoid, Threshold(k2));
    TallyMonotone(predictions, sigmoid, Threshold(k1), Threshold(k2));
    TallyMonotone(predictions, sigmoid, Threshold(k2), Threshold(k2));
    RateMonotone(b.fp, b.tn, a.fp, a.tn);
    RateMonotone(b.tp, b.fn, a.tp, a.fn);
  }

  function FprKey(p: RocCurvePoint): real {
    p.falsePositiveRate
  }

  /** All rates of the points lie in [0, 1]. */
  predicate RatesInUnitRange(points: seq<RocCurvePoint>) {
    forall i :: 0 <= i < |points| ==>
      0.0 <= points[i].truePositiveRate <= 1.0 && 0.0 <= points[i].falsePositiveRate <= 1.0
  }

  /** The counting loop run at one threshold. */
  method CountOutcomes(predictions: seq<HeartPrediction>, sigmoid: real -> real, threshold: real)
    returns (tp: nat, fp: nat, tn: nat, fn: nat)
    ensures Tally(tp, fp, tn, fn) == TallyAt(predictions, sigmoid, threshold)
  {
    tp, fp, tn, fn := 0, 0, 0, 0;
    var i := 0;
    while i < |predictions|
      invariant 0 <= i <= |predictions|
      invariant Tally(tp, fp, tn, fn) == TallyAt(predictions[..i], sigmoid, threshold)
    {
      var actualPositive := predictions[i].actual;
      var probability := sigmoid(predictions[i].score);
      var predictedPositive := probability >= threshold;
      if actualPositive && predictedPositive {
        tp := tp + 1;
      } else if !actualPositive && predictedPositive {
        fp := fp + 1;
      } else if !actualPositive && !predictedPositive {
        tn := tn + 1;
      } else {
        // the remaining case: actually positive, predicted negative
        fn := fn + 1;
      }
      assert predictions[..i + 1][..i] == predictions[..i];
      i := i + 1;
    }
    assert predictions[..|predictions|] == predictions;
  }

  /** The sweep: counts at each threshold of the grid, then a stable sort by
      false positive rate. */
  method GenerateRocCurveData(predictions: seq<HeartPrediction>, sigmoid: real -> real)
    returns (points: seq<RocCurvePoint>)
    ensures points == SortBy(SweepPoints(predictions, sigmoid), FprKey)
    ensures |points| == SweepLength
    ensures SortedBy(points, FprKey)
    ensures RatesInUnitRange(points)
    ensures multiset(points) == multiset(SweepPoints(predictions, sigmoid))
  {
    var rocPoints: seq<RocCurvePoint> := [];
    var k := 0;
    while k < SweepLength
      invariant 0 <= k <= SweepLength
      invariant rocPoints == SweepPoints(predictions, sigmoid)[..k]
    {
      var threshold := Threshold(k);
      var tp, fp, tn, fn := CountOutcomes(predictions, sigmoid, threshold);
      var tpr := if tp + fn > 0 then tp as real / (tp + fn) as real else 0.0;
      var fpr := if fp + tn > 0 then fp as real / (fp + tn) as real else 0.0;
      assert RocCurvePoint(threshold, tpr, fpr) == PointAt(predictions, sigmoid, threshold);
      rocPoints := rocPoints + [RocCurvePoint(threshold, tpr, fpr)];
      k := k + 1;
    }
    assert rocPoints == SweepPoints(predictions, sigmoid);
    points := SortBy(rocPoints, FprKey);
    SortedSweepRates(predictions, sigmoid);
  }

  lemma SortedSweepRates(predictions: seq<HeartPrediction>, sigmoid: real -> real)
    ensures RatesInUnitRange(SortBy(SweepPoints(predictions, sigmoid), FprKey))
  {
    var s := SweepPoints(predictions, sigmoid);
    var points := SortBy(s, FprKey);
    forall i | 0 <= i < |points|
      ensures 0.0 <= points[i].truePositiveRate <= 1.0 && 0.0 <= points[i].falsePositiveRate <= 1.0
    {
      assert points[i] in multiset(s);
    }
  }

  /** The sort keeps points with equal false positive rate in threshold
      order: for each rate, the points carrying it are the same, in the same
      order, before and after sorting. */
  lemma SweepSortStable(predictions: seq<HeartPrediction>, sigmoid: real -> real, fpr: real)
    ensures KeyFilter(SortBy(SweepPoints(predictions, sigmoid), FprKey), FprKey, fpr)
            == KeyFilter(SweepPoints(predictions, sigmoid), FprKey, fpr)
  {
    SortByStable(SweepPoints(predictions, sigmoid), FprKey, fpr);
  }

  // ---------------------------------------------------------------------
  // Area under the curve and the operating threshold

  /** The area of the trapezoid between two consecutive points. */
  function Trapezoid(a: RocCurvePoint, b: RocCurvePoint): real {
    (b.falsePositiveRate - a.falsePositiveRate) * ((b.truePositiveRate + a.truePositiveRate) / 2.0)
  }

  /** The trapezoidal sum over consecutive points. */
  function TrapezoidalAuc(points: seq<RocCurvePoint>): real {
    if |points| <= 1 then 0.0
    else TrapezoidalAuc(points[..|points| - 1]) + Trapezoid(points[|points| - 2], points[|points| - 1])
  }

  /** Squared distance to the ideal corner (FPR 0, TPR 1): it orders points
      exactly as the distance itself does. */
  function SquaredDistance(p: RocCurvePoint): real {
    p.falsePositiveRate * p.falsePositiveRate + (1.0 - p.truePositiveRate) * (1.0 - p.truePositiveRate)
  }

  /** The position of the first point at minimal distance from the corner:
      what a stable `OrderBy` on the distance followed by `First()` selects. */
  function ClosestIndex(points: seq<RocCurvePoint>): (r: nat)
    requires |points| > 0
    ensures r < |points|
    ensures forall j :: 0 <= j < |points| ==> SquaredDistance(points[r]) <= SquaredDistance(points[j])
    ensures forall j :: 0 <= j < r ==> SquaredDistance(points[j]) > SquaredDistance(points[r])
  {
    if |points| == 1 then 0
    else
      var prefix := points[..|points| - 1];
      var j := ClosestIndex(prefix);
      assert forall i :: 0 <= i < |prefix| ==> prefix[i] == points[i];
      if SquaredDistance(points[|points| - 1]) < SquaredDistance(points[j]) then |points| - 1 else j
  }

  /** The AUC loop and the choice of operating threshold. */
  method CalculateOptimalThreshold(rocPoints: seq<RocCurvePoint>) returns (optimalThreshold: real, auc: real)
    requires |rocPoints| > 0
    ensures auc == TrapezoidalAuc(rocPoints)
    ensures optimalThreshold == rocPoints[ClosestIndex(rocPoints)].threshold
  {
    auc := 0.0;
    var i := 1;
    while i < |rocPoints|
      invariant 1 <= i <= |rocPoints|
      invariant auc == TrapezoidalAuc(rocPoints[..i])
    {
      var width := rocPoints[i].falsePositiveRate - rocPoints[i - 1].falsePositiveRate;
      var height := (rocPoints[i].truePositiveRate + rocPoints[i - 1].truePositiveRate) / 2.0;
      auc := auc + width * height;
      var prefix := rocPoints[..i + 1];
      assert prefix[..i] == rocPoints[..i] && prefix[i - 1] == rocPoints[i - 1] && prefix[i] == rocPoints[i];
      assert TrapezoidalAuc(prefix) == TrapezoidalAuc(rocPoints[..i]) + Trapezoid(rocPoints[i - 1], rocPoints[i]);
      i := i + 1;
    }
    assert rocPoints[..|rocPoints|] == rocPoints;
    optimalThreshold := rocPoints[ClosestIndex(rocPoints)].threshold;
  }

  lemma TrapezoidBounds(a: RocCurvePoint, b: RocCurvePoint)
    requires a.falsePositiveRate <= b.falsePositiveRate
    requires 0.0 <= a.truePositiveRate <= 1.0 && 0.0 <= b.truePositiveRate <= 1.0
    ensures 0.0 <= Trapezoid(a, b) <= b.falsePositiveRate - a.falsePositiveRate
  {
    var w := b.falsePositiveRate - a.falsePositiveRate;
    var h := (b.truePositiveRate + a.truePositiveRate) / 2.0;
    assert 0.0 <= h <= 1.0 && 0.0 <= w;
    assert 0.0 <= w * h;
    assert w * h <= w * 1.0;
    assert Trapezoid(a, b) == w * h;
  }

  /** Over points sorted by false positive rate with rates in [0, 1], the
      area lies between 0 and the width of the covered FPR range. */
  lemma {:induction false} AucWithinWidth(points: seq<RocCurvePoint>)
    requires |points| > 0
    requires SortedBy(points, FprKey)
    requires RatesInUnitRange(points)
    ensures 0.0 <= TrapezoidalAuc(points) <= points[|points| - 1].falsePositiveRate - points[0].falsePositiveRate
  {
    if |points| > 1 {
      var prefix := points[..|points| - 1];
      assert SortedBy(prefix, FprKey);
      AucWithinWidth(prefix);
      TrapezoidBounds(points[|points| - 2], points[|points| - 1]);
    }
  }

  /** The trapezoidal AUC of a sorted curve with rates in [0, 1] is in [0, 1];
      a single point has area 0. */
  lemma AucInUnitRange(points: seq<RocCurvePoint>)
    requires |points| > 0
    requires SortedBy(points, FprKey)
    requires RatesInUnitRange(points)
    ensures 0.0 <= TrapezoidalAuc(points) <= 1.0
    ensures |points| == 1 ==> TrapezoidalAuc(points) == 0.0
  {
    AucWithinWidth(points);
  }

  /** A curve on the diagonal (TPR = FPR everywhere) has area
      (last² - first²)/2, whatever the order of its points. */
  lemma {:induction false} DiagonalArea(points: seq<RocCurvePoint>)
    requires |points| > 0
    requires forall i :: 0 <= i < |points| ==> points[i].truePositiveRate == points[i].falsePositiveRate
    ensures TrapezoidalAuc(points) ==
      (points[|points| - 1].falsePositiveRate * points[|points| - 1].falsePositiveRate
       - points[0].falsePositiveRate * points[0].falsePositiveRate) / 2.0
  {
    if |points| > 1 {
      DiagonalArea(points[..|points| - 1]);
    }
  }

  /** A random classifier's diagonal from (0,0) to (1,1) has area 0.5. */
  lemma RandomClassifierArea(points: seq<RocCurvePoint>)
    requires |points| > 0
    requires forall i :: 0 <= i < |points| ==> points[i].truePositiveRate == points[i].falsePositiveRate
    requires points[0].falsePositiveRate == 0.0 && points[|points| - 1].falsePositiveRate == 1.0
    ensures TrapezoidalAuc(points) == 0.5
  {
    DiagonalArea(points);
  }

  /** A curve with TPR = 1 everywhere has area equal to its FPR width, so a
      perfect classifier spanning FPR 0 to 1 has area 1.0. */
  lemma {:induction false} PerfectClassifierArea(points: seq<RocCurvePoint>)
    requires |points| > 0
    requires forall i :: 0 <= i < |points| ==> points[i].truePositiveRate == 1.0
    ensures TrapezoidalAuc(points) == points[|points| - 1].falsePositiveRate - points[0].falsePositiveRate
  {
    if |points| > 1 {
      PerfectClassifierArea(points[..|points| - 1]);
    }
  }
}
