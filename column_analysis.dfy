/** The summary of one dataset column: finite values only, mean, median,
    extremes, population standard deviation, quartiles by truncated index,
    IQR fences and the count of values strictly outside them. */
module ColumnAnalysis {
  import opened Rows
  import opened StableSort
  import opened Averages

  datatype ColumnStatistics = ColumnStatistics(
    mean: real, median: real, min: real, max: real,
    dataType: string, standardDeviation: real, uniqueValues: int)

  /** The values of a column that are neither NaN nor infinite, in order. */
  function FiniteValues(column: seq<Float>): (r: seq<real>)
    ensures |r| <= |column|
    ensures (forall i :: 0 <= i < |column| ==> column[i].IsFinite()) ==> |r| == |column|
  {
    if column == [] then []
    else (if column[0].IsFinite() then [column[0].value] else []) + FiniteValues(column[1..])
  }

  /** Every kept value is a finite entry of the column. */
  lemma {:induction false} FiniteValuesFromColumn(column: seq<Float>)
    ensures forall j :: 0 <= j < |FiniteValues(column)| ==> Finite(FiniteValues(column)[j]) in column
  {
    if column != [] {
      FiniteValuesFromColumn(column[1..]);
      var head := if column[0].IsFinite() then [column[0].value] else [];
      forall j | 0 <= j < |FiniteValues(column)| ensures Finite(FiniteValues(column)[j]) in column {
        if j >= |head| {
          assert FiniteValues(column)[j] == FiniteValues(column[1..])[j - |head|];
        }
      }
    }
  }

  function Identity(x: real): real { x }

  /** Ascending order (`OrderBy(x => x)`). */
  function Ascending(values: seq<real>): (r: seq<real>)
    ensures |r| == |values|
    ensures multiset(r) == multiset(values)
    ensures forall i, j :: 0 <= i <= j < |r| ==> r[i] <= r[j]
  {
    var r := SortBy(values, Identity);
    assert forall i, j :: 0 <= i < j < |r| ==> Identity(r[i]) <= Identity(r[j]);
    r
  }

  /** `(int)(n * 0.25)`: the truncating cast of a non-negative product is
      integer division by four. */
  function FirstQuartileIndex(n: nat): (r: nat)
    ensures r == n / 4
  {
    var x := (n as real) * 0.25;
    assert x == (n / 4) as real + (n % 4) as real / 4.0;
    x.Floor
  }

  /** `(int)(n * 0.75)`, that is (3n) / 4. */
  function ThirdQuartileIndex(n: nat): (r: nat)
    ensures r == (3 * n) / 4
  {
    var x := (n as real) * 0.75;
    assert x == ((3 * n) / 4) as real + ((3 * n) % 4) as real / 4.0;
    x.Floor
  }

  lemma QuartileIndicesOrdered(n: nat)
    requires n > 0
    ensures 0 <= FirstQuartileIndex(n) <= n / 2 <= ThirdQuartileIndex(n) < n
  {
  }

  function FirstQuartile(values: seq<real>): real
    requires |values| > 0
  {
    QuartileIndicesOrdered(|values|);
    Ascending(values)[FirstQuartileIndex(|values|)]
  }

  function ThirdQuartile(values: seq<real>): real
    requires |values| > 0
  {
    QuartileIndicesOrdered(|values|);
    Ascending(values)[ThirdQuartileIndex(|values|)]
  }

  function LowerFence(values: seq<real>): real
    requires |values| > 0
  {
    FirstQuartile(values) - 1.5 * (ThirdQuartile(values) - FirstQuartile(values))
  }

  function UpperFence(values: seq<real>): real
    requires |values| > 0
  {
    ThirdQuartile(values) + 1.5 * (ThirdQuartile(values) - FirstQuartile(values))
  }

  /** How many values lie strictly below `lower` or strictly above `upper`. */
  function CountOutside(values: seq<real>, lower: real, upper: real): (r: nat)
    ensures r <= |values|
  {
    if values == [] then 0
    else (if values[0] < lower || values[0] > upper then 1 else 0) + CountOutside(values[1..], lower, upper)
  }

  function OutlierCount(values: seq<real>): nat
    requires |values| > 0
  {
    CountOutside(values, LowerFence(values), UpperFence(values))
  }

  function DistinctCount(values: seq<real>): nat {
    |set x | x in values|
  }

  /** The `ColumnStatistics` record of a non-empty list of finite values. */
  function Summarize(values: seq<real>, sqrt: real -> real): ColumnStatistics
    requires |values| > 0
  {
    var sortedValues := Ascending(values);
    var n := |sortedValues|;
    ColumnStatistics(
      Mean(values), sortedValues[n / 2], sortedValues[0], sortedValues[n - 1],
      "float", sqrt(PopulationVariance(values)), DistinctCount(values))
  }

  // ---------------------------------------------------------------------
  // Properties

  lemma {:induction false} DistinctCountBounds(values: seq<real>)
    ensures DistinctCount(values) <= |values|
    ensures |values| > 0 ==> DistinctCount(values) >= 1
  {
    if values != [] {
      DistinctCountBounds(values[1..]);
      assert (set x | x in values) == {values[0]} + (set x | x in values[1..]);
      assert values[0] in (set x | x in values);
    }
  }

  /** Widening the interval never counts more values outside it. */
  lemma {:induction false} CountOutsideAntitone(values: seq<real>, lo1: real, hi1: real, lo2: real, hi2: real)
    requires lo2 <= lo1 && hi1 <= hi2
    ensures CountOutside(values, lo2, hi2) <= CountOutside(values, lo1, hi1)
  {
    if values != [] {
      CountOutsideAntitone(values[1..], lo1, hi1, lo2, hi2);
    }
  }

  /** Nothing lies outside an interval holding every value. */
  lemma {:induction false} CountOutsideCovering(values: seq<real>, lower: real, upper: real)
    requires forall i :: 0 <= i < |values| ==> lower <= values[i] <= upper
    ensures CountOutside(values, lower, upper) == 0
  {
    if values != [] {
      CountOutsideCovering(values[1..], lower, upper);
    }
  }

  /** The order statistics of a column: min <= Q1 <= median <= Q3 <= max,
      the extremes bound every value and are values, the mean lies between
      them, and the fences lie outside the quartiles. */
  lemma SummaryOrdered(values: seq<real>, sqrt: real -> real)
    requires |values| > 0
    ensures Summarize(values, sqrt).min <= FirstQuartile(values) <= Summarize(values, sqrt).median
    ensures Summarize(values, sqrt).median <= ThirdQuartile(values) <= Summarize(values, sqrt).max
    ensures forall i :: 0 <= i < |values| ==>
      Summarize(values, sqrt).min <= values[i] <= Summarize(values, sqrt).max
    ensures Summarize(values, sqrt).min in values && Summarize(values, sqrt).max in values
    ensures Summarize(values, sqrt).median in values
    ensures Summarize(values, sqrt).min <= Summarize(values, sqrt).mean <= Summarize(values, sqrt).max
    ensures LowerFence(values) <= FirstQuartile(values) && ThirdQuartile(values) <= UpperFence(values)
  {
    QuartileIndicesOrdered(|values|);
    SortedExtremes(values);
    MeanBounds(values, Ascending(values)[0], Ascending(values)[|values| - 1]);
  }

  /** The first and last sorted values bound every value, and they and the
      middle one are values. */
  lemma SortedExtremes(values: seq<real>)
    requires |values| > 0
    ensures forall i :: 0 <= i < |values| ==> Ascending(values)[0] <= values[i] <= Ascending(values)[|values| - 1]
    ensures Ascending(values)[0] in values && Ascending(values)[|values| - 1] in values
    ensures Ascending(values)[|values| / 2] in values
  {
    var sorted := Ascending(values);
    var n := |values|;
    forall i | 0 <= i < n ensures sorted[0] <= values[i] <= sorted[n - 1] {
      assert values[i] in multiset(sorted);
      var k :| 0 <= k < n && sorted[k] == values[i];
    }
    assert sorted[0] in multiset(values) && sorted[n - 1] in multiset(values);
    assert sorted[n / 2] in multiset(values);
  }

  /** Counting: outliers, distinct values and spread of a non-empty column.
      Every outlier lies outside [Q1, Q3], a constant column has none, and
      the standard deviation is non-negative whenever `sqrt` is. */
  lemma SummaryCounts(values: seq<real>, sqrt: real -> real)
    requires |values| > 0
    ensures OutlierCount(values) <= CountOutside(values, FirstQuartile(values), ThirdQuartile(values))
    ensures (forall i :: 0 <= i < |values| ==> values[i] == values[0]) ==> OutlierCount(values) == 0
    ensures 1 <= Summarize(values, sqrt).uniqueValues <= |values|
    ensures NonNegativeRoot(sqrt) ==> Summarize(values, sqrt).standardDeviation >= 0.0
  {
    SummaryOrdered(values, sqrt);
    CountOutsideAntitone(values, FirstQuartile(values), ThirdQuartile(values), LowerFence(values), UpperFence(values));
    if forall i :: 0 <= i < |values| ==> values[i] == values[0] {
      var s := Summarize(values, sqrt);
      assert s.min == values[0] == s.max by {
        assert s.min in values && s.max in values;
      }
      CountOutsideCovering(values, s.min, s.max);
      CountOutsideAntitone(values, s.min, s.max, LowerFence(values), UpperFence(values));
    }
    DistinctCountBounds(values);
    PopulationVarianceNonNegative(values);
  }

  /** The column 1, 2, ..., 9, 100. */
  predicate WorkedValues(values: seq<real>) {
    |values| == 10 && values[9] == 100.0 && forall i :: 0 <= i < 9 ==> values[i] == (i + 1) as real
  }

  /** A worked column: for 1, 2, ..., 9, 100 the quartiles are 3 and 8, the
      fences -4.5 and 15.5, and only 100 is an outlier. */
  lemma WorkedColumn(values: seq<real>)
    requires WorkedValues(values)
    ensures FirstQuartile(values) == 3.0 && ThirdQuartile(values) == 8.0
    ensures LowerFence(values) == -4.5 && UpperFence(values) == 15.5
    ensures OutlierCount(values) == 1
  {
    WorkedSorted(values);
    QuartilesOfSorted(values);
    var q1, q3 := FirstQuartile(values), ThirdQuartile(values);
    assert q1 == values[2] == 3.0 && q3 == values[7] == 8.0;
    assert LowerFence(values) == q1 - 1.5 * (q3 - q1);
    assert UpperFence(values) == q3 + 1.5 * (q3 - q1);
    WorkedOutliers(values);
  }

  lemma QuartilesOfSorted(values: seq<real>)
    requires |values| > 0 && Ascending(values) == values
    ensures FirstQuartile(values) == values[|values| / 4]
    ensures ThirdQuartile(values) == values[(3 * |values|) / 4]
  {
  }

  lemma WorkedSorted(values: seq<real>)
    requires WorkedValues(values)
    ensures Ascending(values) == values
  {
    assert SortedBy(values, Identity);
    SortBySorted(values, Identity);
  }

  lemma WorkedOutliers(values: seq<real>)
    requires WorkedValues(values)
    ensures CountOutside(values, -4.5, 15.5) == 1
  {
    assert values[9..] == [100.0];
    assert CountOutside(values[9..][1..], -4.5, 15.5) == 0;
    CountOutsideCovering(values[..9], -4.5, 15.5);
    CountOutsideSplit(values[..9], values[9..], -4.5, 15.5);
    assert values[..9] + values[9..] == values;
  }

  lemma {:induction false} CountOutsideSplit(a: seq<real>, b: seq<real>, lower: real, upper: real)
    ensures CountOutside(a + b, lower, upper) == CountOutside(a, lower, upper) + CountOutside(b, lower, upper)
  {
    if a == [] {
      assert a + b == b;
    } else {
      assert (a + b)[0] == a[0];
      assert (a + b)[1..] == a[1..] + b;
      CountOutsideSplit(a[1..], b, lower, upper);
    }
  }
}
