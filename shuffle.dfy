/** Permuting one feature column of the test rows with a seeded
    Fisher-Yates shuffle, leaving every other column and the labels alone. */
module Shuffle {
  import opened Wrappers
  import opened Rows

  /** The generator's answers for a list of `n` values: `draws[k]` answers the
      k-th call `random.Next(i + 1)`, made for position `i = n - 1 - k`, and
      so lies in `[0, i]`. */
  predicate ValidDraws(draws: seq<int>, n: int) {
    |draws| >= n - 1 && forall k :: 0 <= k < n - 1 ==> 0 <= draws[k] <= n - 1 - k
  }

  function Swap<T>(s: seq<T>, i: int, j: int): (r: seq<T>)
    requires 0 <= i < |s| && 0 <= j < |s|
    ensures |r| == |s|
  {
    s[i := s[j]][j := s[i]]
  }

  lemma SwapPermutes<T>(s: seq<T>, i: int, j: int)
    requires 0 <= i < |s| && 0 <= j < |s|
    ensures multiset(Swap(s, i, j)) == multiset(s)
  {
  }

  /** The sequence after the Fisher-Yates steps for positions `i`, `i - 1`,
      ..., `1`. */
  function ShuffleFrom<T>(s: seq<T>, draws: seq<int>, i: int): seq<T>
    requires i < |s| && ValidDraws(draws, |s|)
    decreases i
  {
    if i <= 0 then s else ShuffleFrom(Swap(s, i, draws[|s| - 1 - i]), draws, i - 1)
  }

  /** The whole shuffle, from the last position down to position 1. */
  function Shuffled<T>(s: seq<T>, draws: seq<int>): seq<T>
    requires ValidDraws(draws, |s|)
  {
    ShuffleFrom(s, draws, |s| - 1)
  }

  lemma {:induction false} ShuffleFromPermutes<T>(s: seq<T>, draws: seq<int>, i: int)
    requires i < |s| && ValidDraws(draws, |s|)
    ensures |ShuffleFrom(s, draws, i)| == |s|
    ensures multiset(ShuffleFrom(s, draws, i)) == multiset(s)
    decreases i
  {
    if i > 0 {
      var s' := Swap(s, i, draws[|s| - 1 - i]);
      SwapPermutes(s, i, draws[|s| - 1 - i]);
      ShuffleFromPermutes(s', draws, i - 1);
    }
  }

  /** Fisher-Yates yields a permutation of its input. */
  lemma ShuffledPermutes<T>(s: seq<T>, draws: seq<int>)
    requires ValidDraws(draws, |s|)
    ensures |Shuffled(s, draws)| == |s|
    ensures multiset(Shuffled(s, draws)) == multiset(s)
  {
    ShuffleFromPermutes(s, draws, |s| - 1);
  }

  method SwapInPlace<T>(a: array<T>, i: int, j: int)
    requires 0 <= i < a.Length && 0 <= j < a.Length
    modifies a
    ensures a[..] == Swap(old(a[..]), i, j)
  {
    a[i], a[j] := a[j], a[i];
  }

  /** The in-place shuffle of the extracted column. */
  method FisherYates<T>(a: array<T>, draws: seq<int>)
    requires ValidDraws(draws, a.Length)
    modifies a
    ensures a[..] == Shuffled(old(a[..]), draws)
    ensures multiset(a[..]) == multiset(old(a[..]))
  {
    ghost var target := Shuffled(a[..], draws);
    var i := a.Length - 1;
    while i > 0
      invariant -1 <= i < a.Length
      invariant ShuffleFrom(a[..], draws, i) == target
    {
      var j := draws[a.Length - 1 - i];
      SwapInPlace(a, i, j);
      i := i - 1;
    }
    ShuffledPermutes(old(a[..]), draws);
  }

  /** The values of the named feature; an unknown name yields no values. */
  function ExtractFeatureValues(dataList: seq<HeartData>, featureName: string): (r: seq<Float>)
    ensures FeatureOfName(featureName).None? ==> r == []
    ensures FeatureOfName(featureName).Some? ==>
      |r| == |dataList| &&
      forall i :: 0 <= i < |dataList| ==> r[i] == Get(dataList[i], FeatureOfName(featureName).value)
  {
    match FeatureOfName(featureName)
    case None => []
    case Some(f) => Column(dataList, f)
  }

  /** The rows after writing `values` into the named feature; an unknown
      name changes nothing. */
  function Assigned(rows: seq<HeartData>, featureName: string, values: seq<Float>): (r: seq<HeartData>)
    ensures |r| == |rows|
    ensures forall i :: 0 <= i < |rows| ==> r[i].target == rows[i].target
    ensures FeatureOfName(featureName).None? ==> r == rows
    ensures FeatureOfName(featureName).Some? ==>
      var f := FeatureOfName(featureName).value;
      forall i :: 0 <= i < |rows| ==>
        Get(r[i], f) == (if i < |values| then values[i] else Get(rows[i], f)) &&
        forall g :: g != f ==> Get(r[i], g) == Get(rows[i], g)
  {
    match FeatureOfName(featureName)
    case None => rows
    case Some(f) =>
      WithColumn(rows, f, values)
  }

  /** The rows after writing `values` into column `f`, row by row, for as
      many rows as there are values. */
  function WithColumn(rows: seq<HeartData>, f: Feature, values: seq<Float>): (r: seq<HeartData>)
    ensures |r| == |rows|
  {
    seq(|rows|, i requires 0 <= i < |rows| =>
      if i < |values| then Set(rows[i], f, values[i]) else rows[i])
  }

  method AssignFeatureValues(dataList: array<HeartData>, featureName: string, values: seq<Float>)
    modifies dataList
    ensures dataList[..] == Assigned(old(dataList[..]), featureName, values)
  {
    var n := if dataList.Length < |values| then dataList.Length else |values|;
    var i := 0;
    while i < n
      invariant 0 <= i <= n
      invariant forall k :: 0 <= k < i ==>
        dataList[k] == Assigned(old(dataList[..]), featureName, values)[k]
      invariant forall k :: i <= k < dataList.Length ==> dataList[k] == old(dataList[k])
    {
      match FeatureOfName(featureName) {
        case Some(f) => dataList[i] := Set(dataList[i], f, values[i]);
        case None =>
      }
      i := i + 1;
    }
  }

  /** Extracting a column and assigning it back unchanged is the identity. */
  lemma ExtractAssignRoundTrip(rows: seq<HeartData>, featureName: string)
    ensures Assigned(rows, featureName, ExtractFeatureValues(rows, featureName)) == rows
  {
    var r := Assigned(rows, featureName, ExtractFeatureValues(rows, featureName));
    if FeatureOfName(featureName).Some? {
      forall i | 0 <= i < |rows| ensures r[i] == rows[i] {
        RowExtensionality(r[i], rows[i]);
      }
    }
  }

  /** Reading back a column just assigned in full yields the assigned values. */
  lemma AssignExtractRoundTrip(rows: seq<HeartData>, f: Feature, values: seq<Float>)
    requires |values| == |rows|
    ensures ExtractFeatureValues(Assigned(rows, FeatureName(f), values), FeatureName(f)) == values
  {
    FeatureNameRoundTrip(f);
  }

  /** The rows handed to the model for one permutation iteration: empty data,
      or a feature index outside the thirteen columns (the negative case makes
      the name lookup throw, which the shuffle catches), returns the data
      unchanged. */
  function ShuffledRows(data: seq<HeartData>, featureIndex: int, draws: seq<int>): seq<HeartData>
    requires ValidDraws(draws, |data|)
  {
    if |data| == 0 || featureIndex >= FeatureCount || featureIndex < 0 then data
    else
      var f := FeatureAt(featureIndex);
      WithColumn(data, f, Shuffled(Column(data, f), draws))
  }

  method ShuffleFeatureWithSeed(data: seq<HeartData>, featureIndex: int, draws: seq<int>)
    returns (result: seq<HeartData>)
    requires ValidDraws(draws, |data|)
    ensures result == ShuffledRows(data, featureIndex, draws)
  {
    if |data| == 0 { return data; }
    if featureIndex >= FeatureCount { return data; }
    if featureIndex < 0 { return data; }
    var featureName := FeatureNames[featureIndex];
    FeatureNameRoundTrip(FeatureAt(featureIndex));
    var dataList := new HeartData[|data|](i requires 0 <= i < |data| => data[i]);
    assert dataList[..] == data;
    var values := ExtractFeatureValues(dataList[..], featureName);
    var featureValues := new Float[|values|](i requires 0 <= i < |values| => values[i]);
    assert featureValues[..] == values;
    FisherYates(featureValues, draws);
    AssignFeatureValues(dataList, featureName, featureValues[..]);
    result := dataList[..];
  }

  /** The shuffle permutes the chosen column only: the labels and every other
      column are untouched, and out-of-range indices or empty data change
      nothing. */
  lemma ShuffleTouchesOnlyColumn(data: seq<HeartData>, featureIndex: int, draws: seq<int>)
    requires ValidDraws(draws, |data|)
    ensures |ShuffledRows(data, featureIndex, draws)| == |data|
    ensures forall i :: 0 <= i < |data| ==> ShuffledRows(data, featureIndex, draws)[i].target == data[i].target
    ensures !(0 <= featureIndex < FeatureCount) || |data| == 0 ==> ShuffledRows(data, featureIndex, draws) == data
    ensures 0 <= featureIndex < FeatureCount ==>
      var f := FeatureAt(featureIndex);
      var r := ShuffledRows(data, featureIndex, draws);
      multiset(Column(r, f)) == multiset(Column(data, f)) &&
      forall i, g :: 0 <= i < |data| && g != f ==> Get(r[i], g) == Get(data[i], g)
  {
    if 0 <= featureIndex < FeatureCount && |data| > 0 {
      var f := FeatureAt(featureIndex);
      FeatureNameRoundTrip(f);
      var values := ExtractFeatureValues(data, FeatureName(f));
      ShuffledPermutes(values, draws);
      var r := ShuffledRows(data, featureIndex, draws);
      assert Column(r, f) == Shuffled(values, draws);
      assert Column(data, f) == values;
    }
  }
}
