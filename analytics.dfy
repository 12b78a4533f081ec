/** The advanced-analytics page's orchestrator: existence checks, the split,
    feature importance, the ROC sweep, timing, dataset statistics and the
    operating point, with the error flag of the whole analysis. */
module Analytics {
  import opened Wrappers
  import opened Rows
  import opened StableSort
  import opened Roc
  import opened Importance
  import opened Timing
  import opened DataStatisticsModel

  datatype AdvancedAnalyticsViewModel = AdvancedAnalyticsViewModel(
    featureImportance: seq<FeatureImportanceData>,
    rocCurveData: seq<RocCurvePoint>,
    timingData: PerformanceTimingData,
    dataStats: DataStatistics,
    hasError: bool,
    errorMessage: string,
    optimalThreshold: real,
    aucValue: real)

  const DatasetMissingMessage: string := "Dataset dosyası bulunamadı."
  const ModelsMissingMessage: string := "Model dosyaları bulunamadı."
  const AnalysisErrorPrefix: string := "Gelişmiş analiz sırasında hata oluştu: "
  const RocFailurePrefix: string := "ROC curve generation failed: "
  const TimingFailurePrefix: string := "Performance timing measurement failed: "
  const StatisticsFailurePrefix: string := "Data statistics analysis failed: "

  /** The parts of a completed analysis computed from the test split: the
      importance ranking and the sorted 50-point sweep. */
  predicate TestSplitAnalysed(result: AdvancedAnalyticsViewModel, testData: seq<HeartData>,
                              evaluate: seq<HeartData> -> Evaluation, drawsFor: int -> seq<int>, sqrt: real -> real,
                              predictions: seq<HeartPrediction>, sigmoid: real -> real)
    requires DrawsFit(drawsFor, |testData|)
  {
    && WellRanked(result.featureImportance)
    && (evaluate(testData).EvaluationFailed? ==> result.featureImportance == DomainBasedFeatureImportance())
    && (evaluate(testData).Evaluated? ==>
          result.featureImportance == RankByImportance(UnrankedImportance(testData, evaluate, drawsFor, sqrt)))
    && result.rocCurveData == SortBy(SweepPoints(predictions, sigmoid), FprKey)
    && |result.rocCurveData| == SweepLength
    && SortedBy(result.rocCurveData, FprKey)
    && RatesInUnitRange(result.rocCurveData)
  }

  /** The rest of a completed analysis: no error, the sweep's area (within
      [0, 1]) and operating point, the timings, and the statistics of the
      full dataset. */
  predicate Finished(result: AdvancedAnalyticsViewModel, timingData: PerformanceTimingData,
                     fullData: seq<HeartData>, sqrt: real -> real)
    requires |result.rocCurveData| > 0
    reads result.dataStats
  {
    && !result.hasError
    && result.errorMessage == ""
    && result.aucValue == TrapezoidalAuc(result.rocCurveData)
    && 0.0 <= result.aucValue <= 1.0
    && result.optimalThreshold == result.rocCurveData[ClosestIndex(result.rocCurveData)].threshold
    && result.timingData == timingData
    && result.dataStats.totalRows == |fullData|
    && result.dataStats.totalColumns == 14
    && result.dataStats.Snapshot() == AllColumns(fullData, sqrt)
  }

  predicate Analysed(result: AdvancedAnalyticsViewModel, testData: seq<HeartData>,
                     evaluate: seq<HeartData> -> Evaluation, drawsFor: int -> seq<int>, sqrt: real -> real,
                     predictions: seq<HeartPrediction>, sigmoid: real -> real,
                     timingData: PerformanceTimingData, fullData: seq<HeartData>)
    requires DrawsFit(drawsFor, |testData|)
    reads result.dataStats
  {
    && TestSplitAnalysed(result, testData, evaluate, drawsFor, sqrt, predictions, sigmoid)
    && Finished(result, timingData, fullData, sqrt)
  }

  /** Timing, statistics and the operating point, after the sweep. */
  method FinishAnalysis(start: AdvancedAnalyticsViewModel, sqrt: real -> real,
                        timing: Attempt<PerformanceTimingData>, fullDataset: Attempt<seq<HeartData>>)
    returns (result: AdvancedAnalyticsViewModel)
    requires !start.hasError && start.errorMessage == ""
    requires |start.rocCurveData| > 0 && SortedBy(start.rocCurveData, FprKey) && RatesInUnitRange(start.rocCurveData)
    ensures result.featureImportance == start.featureImportance && result.rocCurveData == start.rocCurveData
    ensures result.hasError <==> timing.Threw? || fullDataset.Threw?
    ensures result.hasError ==> AnalysisErrorPrefix <= result.errorMessage
    ensures !result.hasError ==> Finished(result, timing.value, fullDataset.value, sqrt)
  {
    result := start;
    if timing.Threw? {
      result := result.(hasError := true, errorMessage := AnalysisErrorPrefix + TimingFailurePrefix + timing.message);
      return;
    }
    result := result.(timingData := timing.value);
    if fullDataset.Threw? {
      result := result.(hasError := true, errorMessage := AnalysisErrorPrefix + StatisticsFailurePrefix + fullDataset.message);
      return;
    }
    var dataStats := AnalyzeDataStatistics(fullDataset.value, sqrt);
    result := result.(dataStats := dataStats);
    var optimalThreshold, auc := CalculateOptimalThreshold(result.rocCurveData);
    AucInUnitRange(result.rocCurveData);
    result := result.(optimalThreshold := optimalThreshold, aucValue := auc);
  }

  /** The steps after the split, each of which may throw: importance (which
      never does), the ROC sweep, then the remaining steps. */
  method AnalyzeSplit(
    start: AdvancedAnalyticsViewModel, testData: seq<HeartData>,
    evaluate: seq<HeartData> -> Evaluation, drawsFor: int -> seq<int>, sqrt: real -> real,
    rocPredictions: Attempt<seq<HeartPrediction>>, sigmoid: real -> real,
    timing: Attempt<PerformanceTimingData>,
    fullDataset: Attempt<seq<HeartData>>)
    returns (result: AdvancedAnalyticsViewModel)
    requires !start.hasError && start.errorMessage == ""
    requires DrawsFit(drawsFor, |testData|)
    ensures result.hasError <==> rocPredictions.Threw? || timing.Threw? || fullDataset.Threw?
    ensures result.hasError ==> AnalysisErrorPrefix <= result.errorMessage
    ensures !result.hasError ==>
      Analysed(result, testData, evaluate, drawsFor, sqrt, rocPredictions.value, sigmoid, timing.value, fullDataset.value)
  {
    result := start;
    var featureImportance := CalculateFeatureImportance(testData, evaluate, drawsFor, sqrt);
    result := result.(featureImportance := featureImportance);
    if rocPredictions.Threw? {
      result := result.(hasError := true, errorMessage := AnalysisErrorPrefix + RocFailurePrefix + rocPredictions.message);
      return;
    }
    var rocCurveData := GenerateRocCurveData(rocPredictions.value, sigmoid);
    result := result.(rocCurveData := rocCurveData);
    assert TestSplitAnalysed(result, testData, evaluate, drawsFor, sqrt, rocPredictions.value, sigmoid);
    result := FinishAnalysis(result, sqrt, timing, fullDataset);
  }

  /** The inputs stand for what the steps read: the existence checks; the
      test split of the dataset, or the message it threw; the forest's
      evaluation and the per-seed draws used by feature importance; the
      logistic model's predictions on the test split for the ROC sweep; the
      four timings; the full dataset read again for the statistics. */
  method PerformAdvancedAnalysis(
    datasetExists: bool, forestModelExists: bool, logisticModelExists: bool,
    testSplit: Attempt<seq<HeartData>>,
    evaluate: seq<HeartData> -> Evaluation, drawsFor: int -> seq<int>, sqrt: real -> real,
    rocPredictions: Attempt<seq<HeartPrediction>>, sigmoid: real -> real,
    timing: Attempt<PerformanceTimingData>,
    fullDataset: Attempt<seq<HeartData>>)
    returns (result: AdvancedAnalyticsViewModel)
    requires testSplit.Done? ==> DrawsFit(drawsFor, |testSplit.value|)
    ensures !datasetExists ==>
      result.hasError && result.errorMessage == DatasetMissingMessage &&
      result.featureImportance == [] && result.rocCurveData == []
    ensures datasetExists && !(forestModelExists && logisticModelExists) ==>
      result.hasError && result.errorMessage == ModelsMissingMessage &&
      result.featureImportance == [] && result.rocCurveData == []
    ensures result.hasError <==>
      !datasetExists || !forestModelExists || !logisticModelExists ||
      testSplit.Threw? || rocPredictions.Threw? || timing.Threw? || fullDataset.Threw?
    ensures result.hasError ==> |result.errorMessage| > 0
    ensures result.hasError && datasetExists && forestModelExists && logisticModelExists ==>
      AnalysisErrorPrefix <= result.errorMessage
    ensures !result.hasError ==>
      Analysed(result, testSplit.value, evaluate, drawsFor, sqrt, rocPredictions.value, sigmoid, timing.value, fullDataset.value)
  {
    var emptyStats := new DataStatistics();
    result := AdvancedAnalyticsViewModel([], [], PerformanceTimingData(0, 0, 0, 0), emptyStats, false, "", 0.0, 0.0);
    if !datasetExists {
      result := result.(hasError := true, errorMessage := DatasetMissingMessage);
      return;
    }
    if !forestModelExists || !logisticModelExists {
      result := result.(hasError := true, errorMessage := ModelsMissingMessage);
      return;
    }
    if testSplit.Threw? {
      result := result.(hasError := true, errorMessage := AnalysisErrorPrefix + testSplit.message);
      return;
    }
    result := AnalyzeSplit(result, testSplit.value, evaluate, drawsFor, sqrt, rocPredictions, sigmoid, timing, fullDataset);
  }
}
