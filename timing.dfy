/** The timing record and its two verdicts. */
module Timing {

  datatype PerformanceTimingData = PerformanceTimingData(
    fastForestTrainingTime: int, fastForestPredictionTime: int,
    logisticRegressionTrainingTime: int, logisticRegressionPredictionTime: int)

  /** The faster of two measured times; a tie goes to logistic regression. */
  function Faster(fastForestTime: int, logisticRegressionTime: int): (r: string)
    ensures r == "FastForest" <==> fastForestTime < logisticRegressionTime
    ensures r == "LogisticRegression" <==> fastForestTime >= logisticRegressionTime
  {
    if fastForestTime < logisticRegressionTime then "FastForest" else "LogisticRegression"
  }

  function FasterTrainingModel(t: PerformanceTimingData): string {
    Faster(t.fastForestTrainingTime, t.logisticRegressionTrainingTime)
  }

  function FasterPredictionModel(t: PerformanceTimingData): string {
    Faster(t.fastForestPredictionTime, t.logisticRegressionPredictionTime)
  }

  /** Each verdict is one of the two names, chosen by strict less-than on
      its own pair of times, with equal times going to logistic regression. */
  lemma VerdictRules(t: PerformanceTimingData)
    ensures FasterTrainingModel(t) == "FastForest" <==> t.fastForestTrainingTime < t.logisticRegressionTrainingTime
    ensures FasterPredictionModel(t) == "FastForest" <==> t.fastForestPredictionTime < t.logisticRegressionPredictionTime
    ensures FasterTrainingModel(t) in {"FastForest", "LogisticRegression"}
    ensures FasterPredictionModel(t) in {"FastForest", "LogisticRegression"}
    ensures t.fastForestTrainingTime == t.logisticRegressionTrainingTime ==> FasterTrainingModel(t) == "LogisticRegression"
    ensures t.fastForestPredictionTime == t.logisticRegressionPredictionTime ==> FasterPredictionModel(t) == "LogisticRegression"
  {
  }

  /** The training verdict ignores the prediction times and vice versa. */
  lemma VerdictsIndependent(t: PerformanceTimingData, u: PerformanceTimingData)
    ensures t.fastForestTrainingTime == u.fastForestTrainingTime &&
            t.logisticRegressionTrainingTime == u.logisticRegressionTrainingTime ==>
            FasterTrainingModel(t) == FasterTrainingModel(u)
    ensures t.fastForestPredictionTime == u.fastForestPredictionTime &&
            t.logisticRegressionPredictionTime == u.logisticRegressionPredictionTime ==>
            FasterPredictionModel(t) == FasterPredictionModel(u)
  {
  }
}
