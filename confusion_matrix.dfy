/** The confusion-matrix record and its derived totals. */
module ConfusionMatrices {

  datatype ConfusionMatrixData = ConfusionMatrixData(
    truePositive: int, trueNegative: int, falsePositive: int, falseNegative: int)
  {
    function Total(): int { truePositive + trueNegative + falsePositive + falseNegative }
    function ActualPositive(): int { truePositive + falseNegative }
    function ActualNegative(): int { trueNegative + falsePositive }
    function PredictedPositive(): int { truePositive + falsePositive }
    function PredictedNegative(): int { trueNegative + falseNegative }

    predicate NonNegative() {
      truePositive >= 0 && trueNegative >= 0 && falsePositive >= 0 && falseNegative >= 0
    }
  }

  /** Both the actual and the predicted classes partition the total. */
  lemma Partitions(m: ConfusionMatrixData)
    ensures m.ActualPositive() + m.ActualNegative() == m.Total()
    ensures m.PredictedPositive() + m.PredictedNegative() == m.Total()
  {
  }

  /** With non-negative counts every derived total lies in [0, Total]. */
  lemma DerivedTotalsBounded(m: ConfusionMatrixData)
    requires m.NonNegative()
    ensures 0 <= m.ActualPositive() <= m.Total() && 0 <= m.ActualNegative() <= m.Total()
    ensures 0 <= m.PredictedPositive() <= m.Total() && 0 <= m.PredictedNegative() <= m.Total()
  {
  }
}
