/** The model-evaluation page: reading the confusion matrix, wrapping each
    model's evaluation and the error flags of the orchestrator. */
module ModelEvaluation {
  import opened Wrappers
  import opened ConfusionMatrices

  /** C#'s `(int)` cast of a double: truncation toward zero. */
  function TruncateToInt(x: real): (r: int)
    ensures x >= 0.0 ==> r as real <= x < r as real + 1.0
    ensures x < 0.0 ==> r as real - 1.0 < x <= r as real
  {
    if x >= 0.0 then x.Floor else -((-x).Floor)
  }

  /** The message assumed for reading a cell the counts do not have (the
      counts are a read-only list of lists; the library's own exception text
      is not part of this model). */
  const IndexOutOfRange: string := "Index was outside the bounds of the array."

  predicate HasTwoByTwo(counts: seq<seq<real>>) {
    |counts| >= 2 && |counts[0]| >= 2 && |counts[1]| >= 2
  }

  /** Row 0 is the actual negatives (TN, FP), row 1 the actual positives (FN,
      TP); any smaller shape throws. */
  function ExtractConfusionMatrix(counts: seq<seq<real>>): (r: Result<ConfusionMatrixData, string>)
    ensures r.Success? <==> HasTwoByTwo(counts)
    ensures r.Failure? ==> r.error == IndexOutOfRange
    ensures r.Success? ==>
      r.value.trueNegative == TruncateToInt(counts[0][0]) &&
      r.value.falsePositive == TruncateToInt(counts[0][1]) &&
      r.value.falseNegative == TruncateToInt(counts[1][0]) &&
      r.value.truePositive == TruncateToInt(counts[1][1])
  {
    if !HasTwoByTwo(counts) then Failure(IndexOutOfRange)
    else Success(ConfusionMatrixData(
      truePositive := TruncateToInt(counts[1][1]),
      trueNegative := TruncateToInt(counts[0][0]),
      falsePositive := TruncateToInt(counts[0][1]),
      falseNegative := TruncateToInt(counts[1][0])))
  }

  predicate IsCount(x: real) {
    x >= 0.0 && x == x.Floor as real
  }

  /** For whole, non-negative cells the record's totals are the matrix sums:
      Total is the sum of the four cells, ActualNegative the sum of row 0 and
      ActualPositive the sum of row 1. */
  lemma ExtractedTotals(counts: seq<seq<real>>)
    requires HasTwoByTwo(counts)
    requires IsCount(counts[0][0]) && IsCount(counts[0][1]) && IsCount(counts[1][0]) && IsCount(counts[1][1])
    ensures ExtractConfusionMatrix(counts).value.NonNegative()
    ensures ExtractConfusionMatrix(counts).value.Total() as real ==
      counts[0][0] + counts[0][1] + counts[1][0] + counts[1][1]
    ensures ExtractConfusionMatrix(counts).value.ActualNegative() as real == counts[0][0] + counts[0][1]
    ensures ExtractConfusionMatrix(counts).value.ActualPositive() as real == counts[1][0] + counts[1][1]
  {
  }

  /** The metrics the evaluator reports for one model, before the confusion
      matrix is read. */
  datatype RawMetrics = RawMetrics(
    accuracy: real, positivePrecision: real, positiveRecall: real, f1Score: real,
    areaUnderRocCurve: real, confusionCounts: seq<seq<real>>)

  datatype ModelMetrics = ModelMetrics(
    accuracy: real, precision: real, recall: real, f1Score: real, auc: real,
    confusionMatrix: ConfusionMatrixData, modelName: string)

  const DefaultMetrics: ModelMetrics := ModelMetrics(0.0, 0.0, 0.0, 0.0, 0.0, ConfusionMatrixData(0, 0, 0, 0), "")

  const ForestFailurePrefix: string := "FastForest model evaluation failed: "
  const LogisticFailurePrefix: string := "Logistic Regression model evaluation failed: "

  /** One model's evaluation: the evaluator's metrics with the confusion
      matrix read out, or the thrown message under the model's prefix. */
  function EvaluateModel(evaluation: Attempt<RawMetrics>, failurePrefix: string): (r: Attempt<ModelMetrics>)
    ensures r.Done? <==> evaluation.Done? && HasTwoByTwo(evaluation.value.confusionCounts)
    ensures r.Done? ==>
      r.value.accuracy == evaluation.value.accuracy && r.value.precision == evaluation.value.positivePrecision &&
      r.value.recall == evaluation.value.positiveRecall && r.value.f1Score == evaluation.value.f1Score &&
      r.value.auc == evaluation.value.areaUnderRocCurve &&
      Success(r.value.confusionMatrix) == ExtractConfusionMatrix(evaluation.value.confusionCounts) &&
      r.value.modelName == ""
    ensures r.Threw? ==> failurePrefix <= r.message
  {
    match evaluation
    case Threw(message) => Threw(failurePrefix + message)
    case Done(raw) =>
      match ExtractConfusionMatrix(raw.confusionCounts)
      case Failure(error) => Threw(failurePrefix + error)
      case Success(matrix) =>
        Done(ModelMetrics(raw.accuracy, raw.positivePrecision, raw.positiveRecall, raw.f1Score,
                          raw.areaUnderRocCurve, matrix, ""))
  }

  datatype EvaluationResultViewModel = EvaluationResultViewModel(
    fastForestMetrics: ModelMetrics, logisticRegressionMetrics: ModelMetrics,
    hasError: bool, errorMessage: string, testDataSize: int)

  const DefaultResult: EvaluationResultViewModel := EvaluationResultViewModel(DefaultMetrics, DefaultMetrics, false, "", 0)

  const DatasetMissingMessage: string :=
    "Dataset dosyası bulunamadı. Lütfen heart.csv dosyasının wwwroot/Data klasöründe olduğundan emin olun."
  const ModelsMissingMessage: string :=
    "Model dosyaları bulunamadı. Lütfen önce modellerin eğitildiğinden emin olun."
  const EvaluationErrorPrefix: string := "Model değerlendirme sırasında hata oluştu: "

  const ForestModelName: string := "Random Forest (FastForest)"
  const LogisticModelName: string := "Logistic Regression"

  /** The row count reported for the test split: `(int)(count ?? 0)`. */
  function RowCountOrZero(rowCount: Option<int>): int {
    match rowCount
    case None => 0
    case Some(n) => n
  }

  /** The evaluation page's orchestrator. The existence checks are the three
      booleans; loading and splitting the dataset yields the test split's row
      count or throws; each model's evaluation yields its metrics or throws. */
  method EvaluateModels(datasetExists: bool, forestModelExists: bool, logisticModelExists: bool,
                        testRowCount: Attempt<Option<int>>,
                        forestEvaluation: Attempt<RawMetrics>, logisticEvaluation: Attempt<RawMetrics>)
    returns (result: EvaluationResultViewModel)
    ensures !datasetExists ==>
      result == DefaultResult.(hasError := true, errorMessage := DatasetMissingMessage)
    ensures datasetExists && !(forestModelExists && logisticModelExists) ==>
      result == DefaultResult.(hasError := true, errorMessage := ModelsMissingMessage)
    ensures result.hasError <==>
      !datasetExists || !forestModelExists || !logisticModelExists || testRowCount.Threw? ||
      EvaluateModel(forestEvaluation, ForestFailurePrefix).Threw? ||
      EvaluateModel(logisticEvaluation, LogisticFailurePrefix).Threw?
    ensures datasetExists && forestModelExists && logisticModelExists && testRowCount.Threw? ==>
      result == DefaultResult.(hasError := true, errorMessage := EvaluationErrorPrefix + testRowCount.message)
    ensures datasetExists && forestModelExists && logisticModelExists && testRowCount.Done? &&
            EvaluateModel(forestEvaluation, ForestFailurePrefix).Threw? ==>
      result == DefaultResult.(testDataSize := RowCountOrZero(testRowCount.value), hasError := true,
        errorMessage := EvaluationErrorPrefix + EvaluateModel(forestEvaluation, ForestFailurePrefix).message)
    ensures datasetExists && forestModelExists && logisticModelExists && testRowCount.Done? &&
            EvaluateModel(forestEvaluation, ForestFailurePrefix).Done? &&
            EvaluateModel(logisticEvaluation, LogisticFailurePrefix).Threw? ==>
      result == DefaultResult.(testDataSize := RowCountOrZero(testRowCount.value),
        fastForestMetrics := EvaluateModel(forestEvaluation, ForestFailurePrefix).value, hasError := true,
        errorMessage := EvaluationErrorPrefix + EvaluateModel(logisticEvaluation, LogisticFailurePrefix).message)
    ensures result.hasError ==> |result.errorMessage| > 0
    ensures result.hasError && datasetExists && forestModelExists && logisticModelExists ==>
      EvaluationErrorPrefix <= result.errorMessage
    ensures !result.hasError ==>
      result.errorMessage == "" &&
      result.testDataSize == RowCountOrZero(testRowCount.value) &&
      result.fastForestMetrics == EvaluateModel(forestEvaluation, ForestFailurePrefix).value.(modelName := ForestModelName) &&
      result.logisticRegressionMetrics == EvaluateModel(logisticEvaluation, LogisticFailurePrefix).value.(modelName := LogisticModelName)
  {
    result := DefaultResult;
    if !datasetExists {
      result := result.(hasError := true, errorMessage := DatasetMissingMessage);
      return;
    }
    if !forestModelExists || !logisticModelExists {
      result := result.(hasError := true, errorMessage := ModelsMissingMessage);
      return;
    }
    if testRowCount.Threw? {
      result := result.(hasError := true, errorMessage := EvaluationErrorPrefix + testRowCount.message);
      return;
    }
    result := result.(testDataSize := RowCountOrZero(testRowCount.value));
    var forestMetrics := EvaluateModel(forestEvaluation, ForestFailurePrefix);
    if forestMetrics.Threw? {
      result := result.(hasError := true, errorMessage := EvaluationErrorPrefix + forestMetrics.message);
      return;
    }
    result := result.(fastForestMetrics := forestMetrics.value);
    var logisticMetrics := EvaluateModel(logisticEvaluation, LogisticFailurePrefix);
    if logisticMetrics.Threw? {
      result := result.(hasError := true, errorMessage := EvaluationErrorPrefix + logisticMetrics.message);
      return;
    }
    result := result.(logisticRegressionMetrics := logisticMetrics.value);
    result := result.(fastForestMetrics := result.fastForestMetrics.(modelName := ForestModelName));
    result := result.(logisticRegressionMetrics := result.logisticRegressionMetrics.(modelName := LogisticModelName));
  }
}
