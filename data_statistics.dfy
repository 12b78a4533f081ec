/** The dataset statistics object: row and column totals, and per-column
    dictionaries of summaries, missing-value counts and outlier counts, with
    their sums. */
module DataStatisticsModel {
  import opened Rows
  import opened ColumnAnalysis

  /** The sum of the values of a dictionary (`Values.Sum()`). */
  ghost function MapSum(m: map<string, int>): int
    decreases |m.Keys|
  {
    if m == map[] then 0
    else
      var k :| k in m.Keys;
      m[k] + MapSum(m - {k})
  }

  /** The sum does not depend on which key is taken out first. */
  lemma {:induction false} MapSumRemove(m: map<string, int>, k: string)
    requires k in m
    ensures MapSum(m) == m[k] + MapSum(m - {k})
    decreases |m.Keys|
  {
    var k0 :| k0 in m.Keys && MapSum(m) == m[k0] + MapSum(m - {k0});
    if k0 != k {
      MapSumRemove(m - {k0}, k);
      MapSumRemove(m - {k}, k0);
      assert m - {k0} - {k} == m - {k} - {k0};
    }
  }

  /** Setting one entry changes the sum by the difference. */
  lemma MapSumUpdate(m: map<string, int>, k: string, v: int)
    ensures MapSum(m[k := v]) == MapSum(m) - (if k in m then m[k] else 0) + v
  {
    MapSumRemove(m[k := v], k);
    assert m[k := v] - {k} == m - {k};
    if k in m {
      MapSumRemove(m, k);
    } else {
      assert m - {k} == m;
    }
  }

  /** A sum of entries in [0, hi] lies in [0, |keys| * hi]. */
  lemma {:induction false} MapSumBounds(m: map<string, int>, hi: int)
    requires forall k :: k in m ==> 0 <= m[k] <= hi
    ensures 0 <= MapSum(m) <= |m.Keys| * hi
    decreases |m.Keys|
  {
    if m != map[] {
      var k :| k in m.Keys && MapSum(m) == m[k] + MapSum(m - {k});
      var rest := m - {k};
      MapSumBounds(rest, hi);
      var n := |rest.Keys|;
      assert |m.Keys| == n + 1 by {
        assert rest.Keys == m.Keys - {k};
      }
      assert n * hi + hi == (n + 1) * hi;
    }
  }

  /** With no negative entry the sum is non-negative and at least any one
      entry. */
  lemma {:induction false} MapSumAtLeastEntry(m: map<string, int>, k: string)
    requires forall j :: j in m ==> m[j] >= 0
    ensures MapSum(m) >= 0
    ensures k in m ==> MapSum(m) >= m[k]
    decreases |m.Keys|
  {
    if m != map[] {
      var k0 :| k0 in m.Keys && MapSum(m) == m[k0] + MapSum(m - {k0});
      MapSumAtLeastEntry(m - {k0}, k);
      if k in m && k != k0 {
        assert k in m - {k0};
      }
    }
  }

  /** The three dictionaries, as one value. */
  datatype Tables = Tables(
    columnStats: map<string, ColumnStatistics>,
    missingValues: map<string, int>,
    outlierCounts: map<string, int>)

  class DataStatistics {
    var totalRows: int
    var totalColumns: int
    var columnStats: map<string, ColumnStatistics>
    var missingValues: map<string, int>
    var outlierCounts: map<string, int>

    constructor ()
      ensures totalRows == 0 && totalColumns == 0
      ensures columnStats == map[] && missingValues == map[] && outlierCounts == map[]
      ensures TotalMissingValues() == 0 && TotalOutliers() == 0
    {
      totalRows := 0;
      totalColumns := 0;
      columnStats := map[];
      missingValues := map[];
      outlierCounts := map[];
    }

    function Snapshot(): Tables
      reads this
    {
      Tables(columnStats, missingValues, outlierCounts)
    }

    ghost function TotalMissingValues(): int
      reads this
    {
      MapSum(missingValues)
    }

    ghost function TotalOutliers(): int
      reads this
    {
      MapSum(outlierCounts)
    }
  }

  /** What analysing column `f` does to the dictionaries: nothing when the
      column has no finite value, otherwise the column's summary, its count
      of non-finite rows and its outlier count are stored under its name. */
  function AnalyzedColumn(t: Tables, data: seq<HeartData>, f: Feature, sqrt: real -> real): Tables {
    var values := FiniteValues(Column(data, f));
    if |values| == 0 then t
    else
      var columnName := FeatureName(f);
      Tables(
        t.columnStats[columnName := Summarize(values, sqrt)],
        t.missingValues[columnName := |data| - |values|],
        t.outlierCounts[columnName := OutlierCount(values)])
  }

  method AnalyzeColumn(data: seq<HeartData>, f: Feature, stats: DataStatistics, sqrt: real -> real)
    modifies stats
    ensures stats.Snapshot() == AnalyzedColumn(old(stats.Snapshot()), data, f, sqrt)
    ensures stats.totalRows == old(stats.totalRows) && stats.totalColumns == old(stats.totalColumns)
  {
    var columnName := FeatureName(f);
    var values := FiniteValues(Column(data, f));
    if |values| == 0 {
      return;
    }
    var summary := Summarize(values, sqrt);
    var outliers := OutlierCount(values);
    stats.columnStats := stats.columnStats[columnName := summary];
    stats.missingValues := stats.missingValues[columnName := |data| - |values|];
    stats.outlierCounts := stats.outlierCounts[columnName := outliers];
  }

  /** The dictionaries after the first `n` columns, in column order. */
  function ColumnsUpTo(data: seq<HeartData>, sqrt: real -> real, n: nat): Tables
    requires n <= FeatureCount
  {
    if n == 0 then Tables(map[], map[], map[])
    else AnalyzedColumn(ColumnsUpTo(data, sqrt, n - 1), data, FeatureAt(n - 1), sqrt)
  }

  function AllColumns(data: seq<HeartData>, sqrt: real -> real): Tables {
    ColumnsUpTo(data, sqrt, FeatureCount)
  }

  /** Row count, 14 columns (13 features and the label), and the thirteen
      column analyses in column order. */
  method AnalyzeDataStatistics(data: seq<HeartData>, sqrt: real -> real) returns (dataStats: DataStatistics)
    ensures fresh(dataStats)
    ensures dataStats.totalRows == |data| && dataStats.totalColumns == 14
    ensures dataStats.Snapshot() == AllColumns(data, sqrt)
  {
    dataStats := new DataStatistics();
    dataStats.totalRows := |data|;
    dataStats.totalColumns := 14;
    var i := 0;
    while i < FeatureCount
      invariant 0 <= i <= FeatureCount
      invariant dataStats.totalRows == |data| && dataStats.totalColumns == 14
      invariant dataStats.Snapshot() == ColumnsUpTo(data, sqrt, i)
    {
      AnalyzeNextColumn(data, i, dataStats, sqrt);
      i := i + 1;
    }
  }

  /** The loop body of `AnalyzeDataStatistics`: analysing column `i` extends
      the analyses of the first `i` columns by one. */
  method AnalyzeNextColumn(data: seq<HeartData>, i: nat, stats: DataStatistics, sqrt: real -> real)
    requires i < FeatureCount
    requires stats.Snapshot() == ColumnsUpTo(data, sqrt, i)
    modifies stats
    ensures stats.Snapshot() == ColumnsUpTo(data, sqrt, i + 1)
    ensures stats.totalRows == old(stats.totalRows) && stats.totalColumns == old(stats.totalColumns)
  {
    AnalyzeColumn(data, FeatureAt(i), stats, sqrt);
  }

  /** The finite values of column `j`. */
  function ColumnValues(data: seq<HeartData>, j: int): seq<real>
    requires 0 <= j < FeatureCount
  {
    FiniteValues(Column(data, FeatureAt(j)))
  }

  /** Column `name` with finite values `values` is recorded in `t` as the
      analysis records it: it has entries exactly when it has a finite value,
      and then they are its summary, its count of non-finite rows and its
      outlier count. */
  predicate RecordedAs(t: Tables, name: string, values: seq<real>, rows: int, sqrt: real -> real) {
    && (name in t.columnStats <==> |values| > 0)
    && (name in t.columnStats ==>
          && name in t.missingValues && name in t.outlierCounts
          && |values| > 0
          && t.columnStats[name] == Summarize(values, sqrt)
          && t.missingValues[name] == rows - |values|
          && t.outlierCounts[name] == OutlierCount(values))
  }

  /** After the first `n` columns, column `j < n` is recorded as analysed. */
  lemma {:induction false} ColumnsUpToEntry(data: seq<HeartData>, sqrt: real -> real, n: nat, j: nat)
    requires j < n <= FeatureCount
    ensures RecordedAs(ColumnsUpTo(data, sqrt, n), FeatureNames[j], ColumnValues(data, j), |data|, sqrt)
  {
    var prev := ColumnsUpTo(data, sqrt, n - 1);
    var f := FeatureAt(n - 1);
    if j < n - 1 {
      ColumnsUpToEntry(data, sqrt, n - 1, j);
      FeatureNamesDistinct();
      assert FeatureName(f) != FeatureNames[j];
      RecordedAsKept(prev, data, f, sqrt, FeatureNames[j], ColumnValues(data, j));
    } else {
      assert j == n - 1 && FeatureAt(j) == f;
      ColumnsUpToKeys(data, sqrt, n - 1);
      FirstNamesIndex(n - 1, FeatureNames[j]);
      AnalyzedColumnOwn(prev, data, f, sqrt);
    }
  }

  /** Analysing a column keeps another column's record. */
  lemma RecordedAsKept(t: Tables, data: seq<HeartData>, f: Feature, sqrt: real -> real, name: string, values: seq<real>)
    requires name != FeatureName(f)
    requires RecordedAs(t, name, values, |data|, sqrt)
    ensures RecordedAs(AnalyzedColumn(t, data, f, sqrt), name, values, |data|, sqrt)
  {
    AnalyzedColumnOthers(t, data, f, sqrt, name);
  }

  predicate SharedKeys(t: Tables) {
    t.columnStats.Keys == t.missingValues.Keys && t.missingValues.Keys == t.outlierCounts.Keys
  }

  predicate CountsBounded(t: Tables, rows: int) {
    && (forall k :: k in t.missingValues ==> 0 <= t.missingValues[k] <= rows)
    && (forall k :: k in t.outlierCounts ==> 0 <= t.outlierCounts[k] <= rows)
  }

  /** One column analysis keeps the three dictionaries' keys shared. */
  lemma AnalyzedColumnKeys(t: Tables, data: seq<HeartData>, f: Feature, sqrt: real -> real)
    requires SharedKeys(t)
    ensures SharedKeys(AnalyzedColumn(t, data, f, sqrt))
    ensures AnalyzedColumn(t, data, f, sqrt).columnStats.Keys <= t.columnStats.Keys + {FeatureName(f)}
  {
  }

  /** One column analysis keeps every count between 0 and the row count. */
  lemma AnalyzedColumnCounts(t: Tables, data: seq<HeartData>, f: Feature, sqrt: real -> real)
    requires CountsBounded(t, |data|)
    ensures CountsBounded(AnalyzedColumn(t, data, f, sqrt), |data|)
  {
    var values := FiniteValues(Column(data, f));
    if |values| > 0 {
      var name := FeatureName(f);
      var r := AnalyzedColumn(t, data, f, sqrt);
      assert |values| <= |Column(data, f)| == |data|;
      assert OutlierCount(values) <= |values|;
      assert r.missingValues == t.missingValues[name := |data| - |values|];
      assert r.outlierCounts == t.outlierCounts[name := OutlierCount(values)];
      forall k | k in r.missingValues ensures 0 <= r.missingValues[k] <= |data| {
        if k != name {
          assert r.missingValues[k] == t.missingValues[k];
        }
      }
      forall k | k in r.outlierCounts ensures 0 <= r.outlierCounts[k] <= |data| {
        if k != name {
          assert r.outlierCounts[k] == t.outlierCounts[k];
        }
      }
    }
  }

  /** The names of the first `n` columns. */
  function FirstNames(n: nat): set<string>
    requires n <= FeatureCount
  {
    if n == 0 then {} else FirstNames(n - 1) + {FeatureNames[n - 1]}
  }

  /** A name among the first `n` columns is the name of one of them, and the
      name of a later column is not among them. */
  lemma {:induction false} FirstNamesIndex(n: nat, k: string)
    requires n <= FeatureCount
    ensures k in FirstNames(n) ==> exists j :: 0 <= j < n && FeatureNames[j] == k
    ensures forall j :: n <= j < FeatureCount ==> FeatureNames[j] !in FirstNames(n)
  {
    if n > 0 {
      FirstNamesIndex(n - 1, k);
      FeatureNamesDistinct();
    }
  }

  /** After the first `n` columns the three dictionaries share their keys,
      and those keys are names of the first `n` columns. */
  lemma {:induction false} ColumnsUpToKeys(data: seq<HeartData>, sqrt: real -> real, n: nat)
    requires n <= FeatureCount
    ensures SharedKeys(ColumnsUpTo(data, sqrt, n))
    ensures ColumnsUpTo(data, sqrt, n).columnStats.Keys <= FirstNames(n)
  {
    if n > 0 {
      ColumnsUpToKeys(data, sqrt, n - 1);
      var prev := ColumnsUpTo(data, sqrt, n - 1);
      var f := FeatureAt(n - 1);
      assert ColumnsUpTo(data, sqrt, n) == AnalyzedColumn(prev, data, f, sqrt);
      AnalyzedColumnKeys(prev, data, f, sqrt);
    }
  }

  /** After the first `n` columns every missing count and every outlier count
      lies between 0 and the row count. */
  lemma {:induction false} ColumnsUpToCounts(data: seq<HeartData>, sqrt: real -> real, n: nat)
    requires n <= FeatureCount
    ensures CountsBounded(ColumnsUpTo(data, sqrt, n), |data|)
  {
    if n > 0 {
      ColumnsUpToCounts(data, sqrt, n - 1);
      var prev := ColumnsUpTo(data, sqrt, n - 1);
      var f := FeatureAt(n - 1);
      assert ColumnsUpTo(data, sqrt, n) == AnalyzedColumn(prev, data, f, sqrt);
      AnalyzedColumnCounts(prev, data, f, sqrt);
    }
  }

  /** The totals: the missing-value total is at most one row count per
      analysed column, and so is the outlier total. */
  lemma TotalsBounded(data: seq<HeartData>, sqrt: real -> real)
    ensures 0 <= MapSum(AllColumns(data, sqrt).missingValues)
               <= |AllColumns(data, sqrt).missingValues.Keys| * |data|
    ensures 0 <= MapSum(AllColumns(data, sqrt).outlierCounts)
               <= |AllColumns(data, sqrt).outlierCounts.Keys| * |data|
  {
    ColumnsUpToCounts(data, sqrt, FeatureCount);
    MapSumBounds(AllColumns(data, sqrt).missingValues, |data|);
    MapSumBounds(AllColumns(data, sqrt).outlierCounts, |data|);
  }

  /** Analysing a column adds its missing count and its outlier count to the
      totals, replacing any count stored earlier under the same name. */
  lemma AnalyzedColumnTotal(t: Tables, data: seq<HeartData>, f: Feature, sqrt: real -> real)
    ensures |FiniteValues(Column(data, f))| == 0 ==> AnalyzedColumn(t, data, f, sqrt) == t
    ensures |FiniteValues(Column(data, f))| > 0 ==>
      MapSum(AnalyzedColumn(t, data, f, sqrt).missingValues) ==
        MapSum(t.missingValues)
        - (if FeatureName(f) in t.missingValues then t.missingValues[FeatureName(f)] else 0)
        + (|data| - |FiniteValues(Column(data, f))|)
    ensures |FiniteValues(Column(data, f))| > 0 ==>
      MapSum(AnalyzedColumn(t, data, f, sqrt).outlierCounts) ==
        MapSum(t.outlierCounts)
        - (if FeatureName(f) in t.outlierCounts then t.outlierCounts[FeatureName(f)] else 0)
        + OutlierCount(FiniteValues(Column(data, f)))
  {
    var values := FiniteValues(Column(data, f));
    if |values| > 0 {
      var name := FeatureName(f);
      var r := AnalyzedColumn(t, data, f, sqrt);
      assert r.missingValues == t.missingValues[name := |data| - |values|];
      assert r.outlierCounts == t.outlierCounts[name := OutlierCount(values)];
      MapSumUpdate(t.missingValues, name, |data| - |values|);
      MapSumUpdate(t.outlierCounts, name, OutlierCount(values));
    }
  }

  /** Analysing a column not yet in the dictionaries records it. */
  lemma AnalyzedColumnOwn(t: Tables, data: seq<HeartData>, f: Feature, sqrt: real -> real)
    requires FeatureName(f) !in t.columnStats
    ensures RecordedAs(AnalyzedColumn(t, data, f, sqrt), FeatureName(f), FiniteValues(Column(data, f)), |data|, sqrt)
  {
  }

  /** Analysing a column leaves the entries of every other column as they
      were. */
  lemma AnalyzedColumnOthers(t: Tables, data: seq<HeartData>, f: Feature, sqrt: real -> real, k: string)
    requires k != FeatureName(f)
    ensures k in t.missingValues ==>
      k in AnalyzedColumn(t, data, f, sqrt).missingValues &&
      AnalyzedColumn(t, data, f, sqrt).missingValues[k] == t.missingValues[k]
    ensures k in t.outlierCounts ==>
      k in AnalyzedColumn(t, data, f, sqrt).outlierCounts &&
      AnalyzedColumn(t, data, f, sqrt).outlierCounts[k] == t.outlierCounts[k]
    ensures k in AnalyzedColumn(t, data, f, sqrt).columnStats <==> k in t.columnStats
    ensures k in t.columnStats ==> AnalyzedColumn(t, data, f, sqrt).columnStats[k] == t.columnStats[k]
  {
  }

  /** A column of an all-finite dataset keeps every row. */
  lemma AllFiniteColumn(data: seq<HeartData>, j: int)
    requires 0 <= j < FeatureCount
    requires forall i, f :: 0 <= i < |data| ==> Get(data[i], f).IsFinite()
    ensures |ColumnValues(data, j)| == |data|
  {
    var column := Column(data, FeatureAt(j));
    forall i | 0 <= i < |column| ensures column[i].IsFinite() {
      assert column[i] == Get(data[i], FeatureAt(j));
    }
  }

  /** A dataset whose every value is finite has no missing values. */
  lemma NoMissingWhenAllFinite(data: seq<HeartData>, sqrt: real -> real)
    requires forall i, f :: 0 <= i < |data| ==> Get(data[i], f).IsFinite()
    ensures forall k :: k in AllColumns(data, sqrt).missingValues ==> AllColumns(data, sqrt).missingValues[k] == 0
  {
    var t := AllColumns(data, sqrt);
    ColumnsUpToKeys(data, sqrt, FeatureCount);
    forall k | k in t.missingValues ensures t.missingValues[k] == 0 {
      FirstNamesIndex(FeatureCount, k);
      var j :| 0 <= j < FeatureCount && FeatureNames[j] == k;
      ColumnsUpToEntry(data, sqrt, FeatureCount, j);
      AllFiniteColumn(data, j);
    }
  }
}
