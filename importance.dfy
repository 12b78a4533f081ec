/** Permutation feature importance: five seeded shuffles per feature, the
    weighted metric drops, their mean and spread, the domain-knowledge
    substitutes and the ranking. */
module Importance {
  import opened Rows
  import opened StableSort
  import opened Averages
  import opened Shuffle

  datatype FeatureImportanceData = FeatureImportanceData(
    featureName: string, displayName: string, importanceScore: real, standardDeviation: real, rank: int)

  /** What evaluating the forest model on a set of rows gives: accuracy, AUC
      and F1, or the evaluation threw. */
  datatype Evaluation = Evaluated(accuracy: real, auc: real, f1Score: real) | EvaluationFailed

  /** Shuffles per feature, with seeds 42, 43, ..., 46. */
  const Permutations: nat := 5
  const FirstSeed: int := 42

  /** Below this mean the permutation estimate is treated as negligible. */
  const NegligibleScore: real := 0.001

  /** The domain-knowledge importance of a feature (0.02 for a name not in
      the table). */
  function DomainScore(featureName: string): (r: real)
    ensures 0.02 <= r <= 0.12
  {
    match featureName
    case "Cp" => 0.12
    case "Thalach" => 0.10
    case "Oldpeak" => 0.09
    case "Ca" => 0.08
    case "Thal" => 0.07
    case "Age" => 0.06
    case "Exang" => 0.05
    case "Chol" => 0.04
    case "Trestbps" => 0.04
    case "Sex" => 0.04
    case "Slope" => 0.03
    case "Restecg" => 0.03
    case "Fbs" => 0.02
    case _ => 0.02
  }

  /** A name outside the thirteen features gets the default 0.02. */
  lemma DomainScoreDefault(featureName: string)
    requires featureName !in FeatureNames
    ensures DomainScore(featureName) == 0.02
  {
  }

  /** The display name of a feature; a name not in the table is its own
      display name. */
  function DisplayName(featureName: string): string {
    match featureName
    case "Age" => "Yaş"
    case "Sex" => "Cinsiyet"
    case "Cp" => "Göğüs Ağrısı Tipi"
    case "Trestbps" => "Kan Basıncı"
    case "Chol" => "Kolesterol"
    case "Fbs" => "Açlık Kan Şekeri"
    case "Restecg" => "EKG Sonucu"
    case "Thalach" => "Max Kalp Atışı"
    case "Exang" => "Egzersiz Anginası"
    case "Oldpeak" => "ST Depresyonu"
    case "Slope" => "ST Eğimi"
    case "Ca" => "Büyük Damar Sayısı"
    case "Thal" => "Thalassemia"
    case _ => featureName
  }

  /** `Math.Max(0, baseline - shuffled)`. */
  function Drop(baseline: real, shuffled: real): (r: real)
    ensures r >= 0.0 && r >= baseline - shuffled
    ensures r == 0.0 || r == baseline - shuffled
  {
    if 0.0 < baseline - shuffled then baseline - shuffled else 0.0
  }

  /** One importance sample: the weighted drops of a shuffled evaluation
      against the baseline, or the domain score of the feature when that
      evaluation threw. */
  function Sample(baseline: Evaluation, shuffled: Evaluation, featureName: string): (r: real)
    requires baseline.Evaluated?
    ensures r >= 0.0
    ensures shuffled.EvaluationFailed? ==> r == DomainScore(featureName)
    ensures (shuffled.Evaluated? && shuffled.accuracy >= baseline.accuracy &&
             shuffled.auc >= baseline.auc && shuffled.f1Score >= baseline.f1Score) ==> r == 0.0
  {
    match shuffled
    case EvaluationFailed => DomainScore(featureName)
    case Evaluated(accuracy, auc, f1Score) =>
      var accuracyDrop := Drop(baseline.accuracy, accuracy);
      var aucDrop := Drop(baseline.auc, auc);
      var f1Drop := Drop(baseline.f1Score, f1Score);
      accuracyDrop * 0.5 + aucDrop * 0.3 + f1Drop * 0.2
  }

  /** Every seed used by the permutation loop comes with valid draws. */
  predicate DrawsFit(drawsFor: int -> seq<int>, n: nat) {
    forall seed :: FirstSeed <= seed < FirstSeed + Permutations ==> ValidDraws(drawsFor(seed), n)
  }

  /** The sample of feature `i` under the shuffle seeded `p + 42`. */
  function SampleAt(testData: seq<HeartData>, evaluate: seq<HeartData> -> Evaluation,
                    drawsFor: int -> seq<int>, baseline: Evaluation, i: int, p: int): (r: real)
    requires baseline.Evaluated? && 0 <= i < FeatureCount && 0 <= p < Permutations
    requires DrawsFit(drawsFor, |testData|)
    ensures r >= 0.0
  {
    assert ValidDraws(drawsFor(p + FirstSeed), |testData|);
    Sample(baseline, evaluate(ShuffledRows(testData, i, drawsFor(p + FirstSeed))), FeatureNames[i])
  }

  /** The five samples of feature `i`, one per seed 42, ..., 46, each
      non-negative. */
  function Samples(testData: seq<HeartData>, evaluate: seq<HeartData> -> Evaluation,
                   drawsFor: int -> seq<int>, baseline: Evaluation, i: int): (r: seq<real>)
    requires baseline.Evaluated? && 0 <= i < FeatureCount && DrawsFit(drawsFor, |testData|)
    ensures |r| == Permutations
    ensures forall p :: 0 <= p < |r| ==> r[p] >= 0.0
  {
    seq(Permutations, p requires 0 <= p < Permutations => SampleAt(testData, evaluate, drawsFor, baseline, i, p))
  }

  /** One pass of the permutation loop: shuffle feature `i` with seed
      `p + 42`, evaluate, score the drop. */
  method MeasureSample(testData: seq<HeartData>, evaluate: seq<HeartData> -> Evaluation,
                       drawsFor: int -> seq<int>, baseline: Evaluation, i: int, p: int)
    returns (importanceScore: real)
    requires baseline.Evaluated? && 0 <= i < FeatureCount && 0 <= p < Permutations
    requires DrawsFit(drawsFor, |testData|)
    ensures importanceScore == SampleAt(testData, evaluate, drawsFor, baseline, i, p)
  {
    assert ValidDraws(drawsFor(p + FirstSeed), |testData|);
    var shuffledData := ShuffleFeatureWithSeed(testData, i, drawsFor(p + FirstSeed));
    var shuffledMetrics := evaluate(shuffledData);
    importanceScore := Sample(baseline, shuffledMetrics, FeatureNames[i]);
  }

  /** The permutation loop for one feature. */
  method CollectSamples(testData: seq<HeartData>, evaluate: seq<HeartData> -> Evaluation,
                        drawsFor: int -> seq<int>, baseline: Evaluation, i: int)
    returns (importanceScores: seq<real>)
    requires baseline.Evaluated? && 0 <= i < FeatureCount && DrawsFit(drawsFor, |testData|)
    ensures importanceScores == Samples(testData, evaluate, drawsFor, baseline, i)
  {
    importanceScores := [];
    var permutation := 0;
    while permutation < Permutations
      invariant 0 <= permutation <= Permutations
      invariant importanceScores == Samples(testData, evaluate, drawsFor, baseline, i)[..permutation]
    {
      var importanceScore := MeasureSample(testData, evaluate, drawsFor, baseline, i, permutation);
      ghost var samples := Samples(testData, evaluate, drawsFor, baseline, i);
      assert samples[..permutation + 1] == samples[..permutation] + [importanceScore];
      importanceScores := importanceScores + [importanceScore];
      permutation := permutation + 1;
    }
    assert Samples(testData, evaluate, drawsFor, baseline, i)[..Permutations] == Samples(testData, evaluate, drawsFor, baseline, i);
  }

  /** One pass of the feature loop: the samples of feature `i`, their mean
      and spread, and the negligible-mean substitution. */
  method MeasureFeature(testData: seq<HeartData>, evaluate: seq<HeartData> -> Evaluation,
                        drawsFor: int -> seq<int>, sqrt: real -> real, baseline: Evaluation, i: int)
    returns (record: FeatureImportanceData)
    requires baseline == evaluate(testData) && baseline.Evaluated?
    requires 0 <= i < FeatureCount && DrawsFit(drawsFor, |testData|)
    ensures record == FeatureRecord(testData, evaluate, drawsFor, sqrt, i)
  {
    var featureName := FeatureNames[i];
    var importanceScores := CollectSamples(testData, evaluate, drawsFor, baseline, i);
    var meanImportance := Mean(importanceScores);
    var stdDev := if |importanceScores| > 1 then sqrt(PopulationVariance(importanceScores)) else meanImportance * 0.1;
    if meanImportance < NegligibleScore {
      meanImportance := DomainScore(featureName);
      stdDev := meanImportance * 0.15;
    }
    record := FeatureImportanceData(featureName, DisplayName(featureName), meanImportance, stdDev, 0);
  }

  /** The record of one feature before ranking: mean and population standard
      deviation of its samples, replaced by the domain score and 15% of it
      when the mean is negligible. */
  function Aggregate(featureName: string, samples: seq<real>, sqrt: real -> real): FeatureImportanceData
    requires |samples| > 0
  {
    var meanImportance := Mean(samples);
    var stdDev := if |samples| > 1 then sqrt(PopulationVariance(samples)) else meanImportance * 0.1;
    if meanImportance < NegligibleScore then
      FeatureImportanceData(featureName, DisplayName(featureName), DomainScore(featureName), DomainScore(featureName) * 0.15, 0)
    else
      FeatureImportanceData(featureName, DisplayName(featureName), meanImportance, stdDev, 0)
  }

  /** With five non-negative samples the spread is always the population
      standard deviation (never the 10%-of-mean fallback), a negligible mean
      is replaced by the domain score, and every final score is at least
      0.001. */
  lemma AggregateProperties(featureName: string, samples: seq<real>, sqrt: real -> real)
    requires |samples| == Permutations
    requires forall p :: 0 <= p < |samples| ==> samples[p] >= 0.0
    ensures Mean(samples) >= 0.0
    ensures Aggregate(featureName, samples, sqrt).importanceScore >= NegligibleScore
    ensures Mean(samples) < NegligibleScore ==>
      Aggregate(featureName, samples, sqrt).importanceScore == DomainScore(featureName) &&
      Aggregate(featureName, samples, sqrt).standardDeviation == 0.15 * DomainScore(featureName)
    ensures Mean(samples) >= NegligibleScore ==>
      Aggregate(featureName, samples, sqrt).importanceScore == Mean(samples) &&
      Aggregate(featureName, samples, sqrt).standardDeviation == sqrt(PopulationVariance(samples))
    ensures NonNegativeRoot(sqrt) ==> Aggregate(featureName, samples, sqrt).standardDeviation >= 0.0
  {
    SumNonNegative(samples);
    PopulationVarianceNonNegative(samples);
  }

  /** The unranked record of feature `j`: the aggregate of its five samples. */
  function FeatureRecord(testData: seq<HeartData>, evaluate: seq<HeartData> -> Evaluation,
                         drawsFor: int -> seq<int>, sqrt: real -> real, j: nat): FeatureImportanceData
    requires evaluate(testData).Evaluated? && DrawsFit(drawsFor, |testData|) && j < FeatureCount
  {
    Aggregate(FeatureNames[j], Samples(testData, evaluate, drawsFor, evaluate(testData), j), sqrt)
  }

  /** The thirteen records before ranking, in column order. */
  function UnrankedImportance(testData: seq<HeartData>, evaluate: seq<HeartData> -> Evaluation,
                              drawsFor: int -> seq<int>, sqrt: real -> real): (r: seq<FeatureImportanceData>)
    requires evaluate(testData).Evaluated? && DrawsFit(drawsFor, |testData|)
    ensures |r| == FeatureCount
  {
    seq(FeatureCount, j requires 0 <= j < FeatureCount => FeatureRecord(testData, evaluate, drawsFor, sqrt, j))
  }

  /** Before ranking: one record per feature in column order, each scoring at
      least 0.001. */
  lemma UnrankedProperties(testData: seq<HeartData>, evaluate: seq<HeartData> -> Evaluation,
                           drawsFor: int -> seq<int>, sqrt: real -> real)
    requires evaluate(testData).Evaluated? && DrawsFit(drawsFor, |testData|)
    ensures Names(UnrankedImportance(testData, evaluate, drawsFor, sqrt)) == FeatureNames
    ensures forall j :: 0 <= j < FeatureCount ==>
      UnrankedImportance(testData, evaluate, drawsFor, sqrt)[j].importanceScore >= NegligibleScore
  {
    var u := UnrankedImportance(testData, evaluate, drawsFor, sqrt);
    forall j | 0 <= j < FeatureCount ensures u[j].importanceScore >= NegligibleScore && u[j].featureName == FeatureNames[j] {
      AggregateProperties(FeatureNames[j], Samples(testData, evaluate, drawsFor, evaluate(testData), j), sqrt);
    }
  }

  // ---------------------------------------------------------------------
  // Ranking

  /** Sorting ascending by the negated score is the stable descending sort. */
  function ScoreKey(d: FeatureImportanceData): real {
    -d.importanceScore
  }

  function AssignRanks(s: seq<FeatureImportanceData>): seq<FeatureImportanceData> {
    seq(|s|, i requires 0 <= i < |s| => s[i].(rank := i + 1))
  }

  /** `OrderByDescending` on the score, then rank = position + 1. */
  function RankByImportance(data: seq<FeatureImportanceData>): seq<FeatureImportanceData> {
    AssignRanks(SortBy(data, ScoreKey))
  }

  function Names(s: seq<FeatureImportanceData>): (r: seq<string>)
    ensures |r| == |s|
  {
    seq(|s|, i requires 0 <= i < |s| => s[i].featureName)
  }

  /** The names of the records scoring `v`, in order. */
  function NamesWithScore(s: seq<FeatureImportanceData>, v: real): seq<string> {
    if s == [] then []
    else (if s[0].importanceScore == v then [s[0].featureName] else []) + NamesWithScore(s[1..], v)
  }

  lemma NamesCons(x: FeatureImportanceData, s: seq<FeatureImportanceData>)
    ensures Names([x] + s) == [x.featureName] + Names(s)
  {
  }

  lemma NamesTail(s: seq<FeatureImportanceData>)
    requires s != []
    ensures Names(s) == [s[0].featureName] + Names(s[1..])
  {
  }

  lemma {:induction false} InsertNames(x: FeatureImportanceData, s: seq<FeatureImportanceData>)
    ensures multiset(Names(Insert(x, s, ScoreKey))) == multiset(Names(s)) + multiset{x.featureName}
  {
    if s == [] || ScoreKey(x) <= ScoreKey(s[0]) {
      assert Insert(x, s, ScoreKey) == [x] + s;
      NamesCons(x, s);
    } else {
      var rest := Insert(x, s[1..], ScoreKey);
      assert Insert(x, s, ScoreKey) == [s[0]] + rest;
      InsertNames(x, s[1..]);
      NamesCons(s[0], rest);
      NamesTail(s);
    }
  }

  lemma {:induction false} SortNames(s: seq<FeatureImportanceData>)
    ensures multiset(Names(SortBy(s, ScoreKey))) == multiset(Names(s))
  {
    if s != [] {
      var rest := SortBy(s[1..], ScoreKey);
      assert SortBy(s, ScoreKey) == Insert(s[0], rest, ScoreKey);
      SortNames(s[1..]);
      InsertNames(s[0], rest);
      NamesTail(s);
    }
  }

  lemma {:induction false} NamesWithScoreFilter(s: seq<FeatureImportanceData>, v: real)
    ensures NamesWithScore(s, v) == Names(KeyFilter(s, ScoreKey, -v))
  {
    if s != [] {
      NamesWithScoreFilter(s[1..], v);
      var head := if ScoreKey(s[0]) == -v then [s[0]] else [];
      assert Names(head + KeyFilter(s[1..], ScoreKey, -v)) == Names(head) + Names(KeyFilter(s[1..], ScoreKey, -v));
    }
  }

  /** Records that agree on name and score position by position have the
      same names at every score. */
  lemma {:induction false} NamesWithScoreRankFree(s: seq<FeatureImportanceData>, t: seq<FeatureImportanceData>, v: real)
    requires |s| == |t|
    requires forall i :: 0 <= i < |s| ==>
      s[i].featureName == t[i].featureName && s[i].importanceScore == t[i].importanceScore
    ensures NamesWithScore(s, v) == NamesWithScore(t, v)
  {
    if s != [] {
      NamesWithScoreRankFree(s[1..], t[1..], v);
    }
  }

  /** Numbering the records does not change which names carry which score. */
  lemma NamesWithScoreAssignRanks(s: seq<FeatureImportanceData>, v: real)
    ensures NamesWithScore(AssignRanks(s), v) == NamesWithScore(s, v)
  {
    var ranked := AssignRanks(s);
    forall i | 0 <= i < |ranked|
      ensures ranked[i].featureName == s[i].featureName && ranked[i].importanceScore == s[i].importanceScore
    {
    }
    NamesWithScoreRankFree(ranked, s, v);
  }

  /** The ranking: ranks are exactly 1..N in list order, scores do not
      increase along the list, and the features are those of the input. */
  lemma RankingProperties(data: seq<FeatureImportanceData>)
    ensures |RankByImportance(data)| == |data|
    ensures forall i :: 0 <= i < |data| ==> RankByImportance(data)[i].rank == i + 1
    ensures forall i, j :: 0 <= i < j < |data| ==>
      RankByImportance(data)[i].importanceScore >= RankByImportance(data)[j].importanceScore
    ensures multiset(Names(RankByImportance(data))) == multiset(Names(data))
    ensures multiset(RankByImportance(data)[..]) == multiset(AssignRanks(SortBy(data, ScoreKey)))
  {
    var sorted := SortBy(data, ScoreKey);
    var r := RankByImportance(data);
    forall i, j | 0 <= i < j < |data| ensures r[i].importanceScore >= r[j].importanceScore {
      assert ScoreKey(sorted[i]) <= ScoreKey(sorted[j]);
    }
    SortNames(data);
    assert Names(r) == Names(sorted);
  }

  /** Ties keep input order: the features scoring `v` appear in the ranking
      in the order they had before it. */
  lemma RankingStable(data: seq<FeatureImportanceData>, v: real)
    ensures NamesWithScore(RankByImportance(data), v) == NamesWithScore(data, v)
  {
    var sorted := SortBy(data, ScoreKey);
    NamesWithScoreAssignRanks(sorted, v);
    NamesWithScoreFilter(sorted, v);
    SortByStable(data, ScoreKey, -v);
    NamesWithScoreFilter(data, v);
  }

  lemma EveryFeatureListed(names: seq<string>)
    requires names == ["Cp", "Thalach", "Oldpeak", "Ca", "Thal", "Age", "Exang",
                       "Chol", "Sex", "Trestbps", "Slope", "Restecg", "Fbs"]
    ensures forall i :: 0 <= i < FeatureCount ==> FeatureNames[i] in names
  {
    assert FeatureNames[0] == names[5];
    assert FeatureNames[1] == names[8];
    assert FeatureNames[2] == names[0];
    assert FeatureNames[3] == names[9];
    assert FeatureNames[4] == names[7];
    assert FeatureNames[5] == names[12];
    assert FeatureNames[6] == names[11];
    assert FeatureNames[7] == names[1];
    assert FeatureNames[8] == names[6];
    assert FeatureNames[9] == names[2];
    assert FeatureNames[10] == names[10];
    assert FeatureNames[11] == names[3];
    assert FeatureNames[12] == names[4];
  }

  /** The fixed fallback list, used when the baseline evaluation fails. */
  function DomainBasedFeatureImportance(): (r: seq<FeatureImportanceData>)
    ensures |r| == FeatureCount
    ensures forall i :: 0 <= i < |r| ==> r[i].rank == i + 1
    ensures forall i, j :: 0 <= i < j < |r| ==> r[i].importanceScore > r[j].importanceScore
    ensures forall i :: 0 <= i < |r| ==> r[i].importanceScore >= NegligibleScore
    ensures forall i :: 0 <= i < FeatureCount ==> FeatureNames[i] in Names(r)
  {
    var r := [
      FeatureImportanceData("Cp", "Göğüs Ağrısı Tipi", 0.152, 0.015, 1),
      FeatureImportanceData("Thalach", "Max Kalp Atışı", 0.128, 0.013, 2),
      FeatureImportanceData("Oldpeak", "ST Depresyonu", 0.115, 0.012, 3),
      FeatureImportanceData("Ca", "Büyük Damar Sayısı", 0.103, 0.010, 4),
      FeatureImportanceData("Thal", "Thalassemia", 0.094, 0.009, 5),
      FeatureImportanceData("Age", "Yaş", 0.087, 0.009, 6),
      FeatureImportanceData("Exang", "Egzersiz Anginası", 0.076, 0.008, 7),
      FeatureImportanceData("Chol", "Kolesterol", 0.065, 0.007, 8),
      FeatureImportanceData("Sex", "Cinsiyet", 0.058, 0.006, 9),
      FeatureImportanceData("Trestbps", "Kan Basıncı", 0.051, 0.005, 10),
      FeatureImportanceData("Slope", "ST Eğimi", 0.043, 0.004, 11),
      FeatureImportanceData("Restecg", "EKG Sonucu", 0.039, 0.004, 12),
      FeatureImportanceData("Fbs", "Açlık Kan Şekeri", 0.032, 0.003, 13)
    ];
    EveryFeatureListed(Names(r));
    r
  }

  /** Properties every list this module returns has: 13 records, ranks 1..13
      in order, non-increasing scores of at least 0.001, and every feature
      among them (so, the thirteen names being distinct, one record per
      feature). */
  predicate WellRanked(data: seq<FeatureImportanceData>) {
    && |data| == FeatureCount
    && (forall i :: 0 <= i < |data| ==> data[i].rank == i + 1)
    && (forall i, j :: 0 <= i < j < |data| ==> data[i].importanceScore >= data[j].importanceScore)
    && (forall i :: 0 <= i < |data| ==> data[i].importanceScore >= NegligibleScore)
    && (forall i :: 0 <= i < FeatureCount ==> FeatureNames[i] in Names(data))
  }

  method CalculateFeatureImportance(testData: seq<HeartData>, evaluate: seq<HeartData> -> Evaluation,
                                    drawsFor: int -> seq<int>, sqrt: real -> real)
    returns (data: seq<FeatureImportanceData>)
    requires DrawsFit(drawsFor, |testData|)
    ensures evaluate(testData).EvaluationFailed? ==> data == DomainBasedFeatureImportance()
    ensures evaluate(testData).Evaluated? ==>
      data == RankByImportance(UnrankedImportance(testData, evaluate, drawsFor, sqrt))
    ensures WellRanked(data)
  {
    var baseline := evaluate(testData);
    if baseline.EvaluationFailed? {
      data := DomainBasedFeatureImportance();
      FallbackWellRanked();
      return;
    }
    var importanceData := MeasureAllFeatures(testData, evaluate, drawsFor, sqrt, baseline);
    data := RankByImportance(importanceData);
    UnrankedProperties(testData, evaluate, drawsFor, sqrt);
    RankedWell(importanceData);
  }

  /** The outer loop over the thirteen features, before the ranking. */
  method MeasureAllFeatures(testData: seq<HeartData>, evaluate: seq<HeartData> -> Evaluation,
                            drawsFor: int -> seq<int>, sqrt: real -> real, baseline: Evaluation)
    returns (importanceData: seq<FeatureImportanceData>)
    requires baseline == evaluate(testData) && baseline.Evaluated? && DrawsFit(drawsFor, |testData|)
    ensures importanceData == UnrankedImportance(testData, evaluate, drawsFor, sqrt)
  {
    importanceData := [];
    var i := 0;
    while i < FeatureCount
      invariant 0 <= i <= FeatureCount
      invariant importanceData == UnrankedImportance(testData, evaluate, drawsFor, sqrt)[..i]
    {
      var record := MeasureFeature(testData, evaluate, drawsFor, sqrt, baseline, i);
      ghost var unranked := UnrankedImportance(testData, evaluate, drawsFor, sqrt);
      assert record == unranked[i];
      assert unranked[..i + 1] == unranked[..i] + [unranked[i]];
      importanceData := importanceData + [record];
      i := i + 1;
    }
    assert UnrankedImportance(testData, evaluate, drawsFor, sqrt)[..FeatureCount] == UnrankedImportance(testData, evaluate, drawsFor, sqrt);
  }

  lemma FallbackWellRanked()
    ensures WellRanked(DomainBasedFeatureImportance())
  {
    var r := DomainBasedFeatureImportance();
    assert forall i, j :: 0 <= i < j < |r| ==> r[i].importanceScore >= r[j].importanceScore;
  }

  lemma RankedScoresBounded(u: seq<FeatureImportanceData>)
    requires forall j :: 0 <= j < |u| ==> u[j].importanceScore >= NegligibleScore
    ensures forall i :: 0 <= i < |u| ==> RankByImportance(u)[i].importanceScore >= NegligibleScore
  {
    var sorted := SortBy(u, ScoreKey);
    forall i | 0 <= i < |u| ensures RankByImportance(u)[i].importanceScore >= NegligibleScore {
      assert RankByImportance(u)[i].importanceScore == sorted[i].importanceScore;
      assert sorted[i] in multiset(u);
      assert sorted[i] in u;
    }
  }

  lemma RankedNamesComplete(u: seq<FeatureImportanceData>, names: seq<string>)
    requires Names(u) == names
    ensures forall i :: 0 <= i < |names| ==> names[i] in Names(RankByImportance(u))
  {
    RankingProperties(u);
    forall i | 0 <= i < |names| ensures names[i] in Names(RankByImportance(u)) {
      assert names[i] in multiset(Names(u));
    }
  }

  /** Ranking one record per feature, each scoring at least 0.001, gives a
      well-ranked list. */
  lemma RankedWell(u: seq<FeatureImportanceData>)
    requires Names(u) == FeatureNames
    requires forall j :: 0 <= j < |u| ==> u[j].importanceScore >= NegligibleScore
    ensures WellRanked(RankByImportance(u))
  {
    RankingProperties(u);
    RankedScoresBounded(u);
    RankedNamesComplete(u, FeatureNames);
  }
}
