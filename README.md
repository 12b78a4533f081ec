# HeartMVC analytics, modelled in Dafny

HeartMVC is an ASP.NET MVC application for predicting heart disease from thirteen clinical
features. It uses two ML.NET classifiers: a FastForest (random forest) that gives the class, and a
logistic regression that gives the probability. This project models the arithmetic and decision
logic that surrounds those models:

- **ROC sweep** (`Roc`): 50 thresholds (0, 0.02, …, 0.98). The loop adds 0.02 to a double
  while it is at most 1.0. After fifty additions the sum is 1.0000000000000004, so the threshold 1.0
  is never visited, and the model follows the loop. The comment above the area loop counts fifty
  trapezoids, which would need 51 points; as written, the area is a sum over 50 points with 49
  trapezoids. At each threshold the predictions are tallied into TP/FP/TN/FN. The true-positive and false-positive rates use the zero-denominator
  rule. The points are then stable-sorted by false-positive rate.
- **Area and operating point** (`Roc`): the trapezoidal area under the sorted points, and the
  first point closest to (FPR 0, TPR 1).
- **Column permutation** (`Shuffle`):
  - an in-place Fisher–Yates shuffle of one feature column, on an `array`;
  - the feature-keyed extract and assign;
  - the guards of `ShuffleFeatureWithSeed`.
- **Permutation feature importance** (`Importance`):
  - five seeded shuffles per feature;
  - the clamped, weighted drops, with a domain constant for a failed iteration;
  - mean and population deviation, with the `< 0.001` override;
  - the stable descending ranking;
  - the fixed fallback list.
- **Column statistics** (`ColumnAnalysis`, `DataStatisticsModel`):
  - finite-value filtering, mean, median, extremes and standard deviation;
  - quartiles by truncated index, strict 1.5·IQR outlier fences and distinct counts;
  - the `DataStatistics` object, a class whose dictionaries `AnalyzeColumn` updates in place;
  - its two totals.
- **Small records and rules**:
  - the confusion-matrix record and its derived totals (`ConfusionMatrices`);
  - confusion-matrix extraction and the evaluation page's error flags (`ModelEvaluation`);
  - the timing verdicts (`Timing`);
  - the risk tier of the prediction action (`HeartController`).
- **Advanced-analytics orchestrator** (`Analytics`): its early returns and error flag.

The models themselves are abstract inputs:
- Every ML.NET evaluation is a function `evaluate` from rows to accuracy/AUC/F1 or a failure.
- The random generator is a per-seed sequence of draws `drawsFor`.
- The sigmoid and the square root are function parameters.
- Every step that can throw is an `Attempt` (`Done(value)` or `Threw(message)`).
- A file-existence check is a boolean.

Doubles and floats are `real`. The non-finite single-precision values (NaN, ±∞) are explicit
constructors of `Rows.Float`.

Supporting modules:
- `Wrappers`: Option, Result and Attempt.
- `StableSort`: an insertion sort by a real key, with its stability property. It stands for LINQ
  `OrderBy`/`OrderByDescending`.
- `Averages`: sum, mean and population variance.
- `Rows`: the dataset row and its feature getter and setter.

## Model

| member | source | states |
|---|---|---|
| Roc.TallyAt | HeartMVC/Services/AdvancedAnalyticsService.cs:386-402 | every prediction lands in exactly one cell, so tp+fp+tn+fn equals the number of predictions |
| Roc.CountOutcomes | HeartMVC/Services/AdvancedAnalyticsService.cs:386-402 | the counting loop's four counters are the tally of the predictions at the threshold |
| Roc.TallyMonotone | HeartMVC/Services/AdvancedAnalyticsService.cs:396-401 | tp+fn is the number of actual positives and fp+tn the number of negatives at every threshold; raising the threshold never increases tp or fp |
| Roc.Rate | HeartMVC/Services/AdvancedAnalyticsService.cs:404-405 | a rate lies in [0,1], is 0 when its denominator is 0, and otherwise times the denominator equals the numerator |
| Roc.RateMonotone | HeartMVC/Services/AdvancedAnalyticsService.cs:404-405 | with the same denominator a larger numerator gives a rate at least as large |
| Roc.PointAt | HeartMVC/Services/AdvancedAnalyticsService.cs:404-412 | the point carries its threshold and both rates lie in [0,1] |
| Roc.SweepPoints | HeartMVC/Services/AdvancedAnalyticsService.cs:384-413 | the sweep emits exactly one point per threshold k/50, for k = 0..49, 50 in all |
| Roc.SweepThresholds | HeartMVC/Services/AdvancedAnalyticsService.cs:384 | the thresholds start at 0, rise by 0.02 per point and stop at 0.98, so none reaches 1.0 |
| Roc.SweepMonotone | HeartMVC/Services/AdvancedAnalyticsService.cs:384-405 | along the sweep both rates are non-increasing in the threshold |
| Roc.GenerateRocCurveData | HeartMVC/Services/AdvancedAnalyticsService.cs:370-421 | the result is the stable sort of the 50 sweep points by FPR: 50 points, ascending FPR, rates in [0,1], a permutation of the sweep |
| Roc.SortedSweepRates | HeartMVC/Services/AdvancedAnalyticsService.cs:404-415 | sorting keeps every rate in [0,1] |
| Roc.SweepSortStable | HeartMVC/Services/AdvancedAnalyticsService.cs:415 | points of equal FPR keep their threshold order after the sort |
| Roc.ClosestIndex | HeartMVC/Services/AdvancedAnalyticsService.cs:556-558 | the chosen index has minimal squared distance to (0,1) and every earlier point is strictly farther, so it is the first of the ties |
| Roc.CalculateOptimalThreshold | HeartMVC/Services/AdvancedAnalyticsService.cs:531-561 | the loop's area is the trapezoidal sum and the threshold is that of the first closest point |
| Roc.TrapezoidBounds | HeartMVC/Services/AdvancedAnalyticsService.cs:549-551 | one trapezoid with rates in [0,1] lies between 0 and its width |
| Roc.AucWithinWidth | HeartMVC/Services/AdvancedAnalyticsService.cs:546-552 | for sorted points with rates in [0,1] the area lies between 0 and the FPR span |
| Roc.AucInUnitRange | HeartMVC/Services/AdvancedAnalyticsService.cs:546-552 | for a non-empty FPR-sorted list with rates in [0,1] the area lies in [0,1], and it is 0 for a single point |
| Roc.DiagonalArea | HeartMVC/Services/AdvancedAnalyticsService.cs:546-552 | points on the diagonal TPR = FPR have area (last² − first²)/2 |
| Roc.RandomClassifierArea | HeartMVC/Services/AdvancedAnalyticsService.cs:546-552 | a diagonal curve from FPR 0 to FPR 1 has area 0.5 |
| Roc.PerfectClassifierArea | HeartMVC/Services/AdvancedAnalyticsService.cs:546-552 | with TPR 1 everywhere the area is the FPR span |
| StableSort.Insert | HeartMVC/Services/AdvancedAnalyticsService.cs:415 | insertion adds exactly one element to the multiset |
| StableSort.InsertSorted | HeartMVC/Services/AdvancedAnalyticsService.cs:415 | inserting into a sorted list keeps it sorted |
| StableSort.SortBy | HeartMVC/Services/AdvancedAnalyticsService.cs:415 | the sort is a permutation of its input, ascending by the key |
| StableSort.InsertKeyFilter | HeartMVC/Services/AdvancedAnalyticsService.cs:415 | insertion places a new element before the elements that share its key; this is why the sort, which inserts each head in front of the sorted tail, keeps input order |
| StableSort.SortByStable | HeartMVC/Services/AdvancedAnalyticsService.cs:415 | for every key value, the elements with that key appear in input order |
| StableSort.SortBySorted | HeartMVC/Services/AdvancedAnalyticsService.cs:502 | sorting a sorted list returns it unchanged |
| StableSort.KeyFilter | HeartMVC/Services/AdvancedAnalyticsService.cs:415 | the elements with one key value are no more than the list |
| Shuffle.Swap | HeartMVC/Services/AdvancedAnalyticsService.cs:285 | the tuple swap keeps the length |
| Shuffle.SwapPermutes | HeartMVC/Services/AdvancedAnalyticsService.cs:285 | a swap is a permutation |
| Shuffle.ShuffleFromPermutes | HeartMVC/Services/AdvancedAnalyticsService.cs:282-286 | every suffix of the Fisher–Yates steps is a permutation of its input |
| Shuffle.ShuffledPermutes | HeartMVC/Services/AdvancedAnalyticsService.cs:282-286 | the whole shuffle is a permutation of the column |
| Shuffle.SwapInPlace | HeartMVC/Services/AdvancedAnalyticsService.cs:285 | the array after the swap is the swapped sequence |
| Shuffle.FisherYates | HeartMVC/Services/AdvancedAnalyticsService.cs:282-286 | the in-place loop from the last index down to 1 leaves the array as the specified shuffle, a permutation of the old contents |
| Shuffle.ExtractFeatureValues | HeartMVC/Services/AdvancedAnalyticsService.cs:298-317 | a known name yields that feature of every row in order; an unknown name yields the empty list |
| Shuffle.Assigned | HeartMVC/Services/AdvancedAnalyticsService.cs:319-340 | row i gets values[i] in the named feature while i is below both lengths; all other fields, the labels and the rest of the rows are unchanged; an unknown name changes nothing |
| Shuffle.AssignFeatureValues | HeartMVC/Services/AdvancedAnalyticsService.cs:319-340 | the in-place row loop leaves the array equal to the assigned rows |
| Shuffle.ExtractAssignRoundTrip | HeartMVC/Services/AdvancedAnalyticsService.cs:298-340 | assigning back an extracted column leaves the rows identical |
| Shuffle.AssignExtractRoundTrip | HeartMVC/Services/AdvancedAnalyticsService.cs:298-340 | extracting a column just assigned in full gives back the assigned values |
| Shuffle.ShuffleFeatureWithSeed | HeartMVC/Services/AdvancedAnalyticsService.cs:259-296 | the result is the shuffled-rows specification, including the unchanged-data returns for empty data and out-of-range indices |
| Shuffle.ShuffleTouchesOnlyColumn | HeartMVC/Services/AdvancedAnalyticsService.cs:265-288 | the shuffle keeps the row count and the labels; the chosen column becomes a permutation of itself and every other feature is unchanged; empty data or an index outside 0..12 returns the data as it was |
| Rows.FeatureAt | HeartMVC/Services/AdvancedAnalyticsService.cs:91-95 | column i's feature carries the i-th name of the feature list |
| Rows.FeatureOfName | HeartMVC/Services/AdvancedAnalyticsService.cs:300-316 | a name selects a feature exactly when it is one of the thirteen names, and then that feature's name is the given name |
| Rows.FeatureNamesDistinct | HeartMVC/Services/AdvancedAnalyticsService.cs:91-95 | the thirteen feature names are pairwise distinct |
| Rows.FeatureNameRoundTrip | HeartMVC/Services/AdvancedAnalyticsService.cs:300-337 | every feature's name is listed and resolves back to that feature |
| Rows.Set | HeartMVC/Services/AdvancedAnalyticsService.cs:323-338 | setting a feature changes that feature only and keeps the label |
| Rows.SetGet | HeartMVC/Services/AdvancedAnalyticsService.cs:298-340 | writing back the value just read leaves the row unchanged |
| Rows.RowExtensionality | HeartMVC/Services/AdvancedAnalyticsService.cs:298-340 | rows agreeing on every feature and the label are equal |
| Rows.Column | HeartMVC/Services/AdvancedAnalyticsService.cs:302-314 | a column holds one value per row, that row's feature, in row order |
| Importance.DomainScore | HeartMVC/Services/AdvancedAnalyticsService.cs:203-209 | the domain constant lies in [0.02, 0.12] |
| Importance.DomainScoreDefault | HeartMVC/Services/AdvancedAnalyticsService.cs:209 | a name not among the thirteen features gets the default 0.02 |
| Importance.Drop | HeartMVC/Services/AdvancedAnalyticsService.cs:186-192 | a clamped drop is non-negative, at least the raw difference, and is either 0 or the difference |
| Importance.Sample | HeartMVC/Services/AdvancedAnalyticsService.cs:153-210 | one iteration's score is non-negative; a failed evaluation contributes the domain constant; no worse metric gives 0 |
| Importance.SampleAt | HeartMVC/Services/AdvancedAnalyticsService.cs:153-199 | the score of permutation p (seed 42+p) is non-negative |
| Importance.Samples | HeartMVC/Services/AdvancedAnalyticsService.cs:128-211 | a feature has five samples, one per seed 42..46, each non-negative |
| Importance.MeasureSample | HeartMVC/Services/AdvancedAnalyticsService.cs:132-210 | one try/catch iteration produces permutation p's score |
| Importance.CollectSamples | HeartMVC/Services/AdvancedAnalyticsService.cs:128-211 | the inner loop collects exactly the five specified samples |
| Importance.MeasureFeature | HeartMVC/Services/AdvancedAnalyticsService.cs:128-243 | one feature's record is the aggregate of its five samples |
| Importance.AggregateProperties | HeartMVC/Services/AdvancedAnalyticsService.cs:214-234 | for 5 non-negative samples: the mean is non-negative and the score is at least 0.001; a mean below 0.001 is replaced by the domain constant with deviation 0.15 times it; otherwise the score is the mean and the deviation the root of the population variance (the 0.1·mean branch is never taken); a non-negative root gives a non-negative deviation |
| Importance.MeasureAllFeatures | HeartMVC/Services/AdvancedAnalyticsService.cs:126-244 | the outer loop produces the thirteen unranked records in column order |
| Importance.UnrankedProperties | HeartMVC/Services/AdvancedAnalyticsService.cs:126-244 | the unranked list names the thirteen features in column order, each with score at least 0.001 |
| Importance.Names | HeartMVC/Services/AdvancedAnalyticsService.cs:237-243 | one name per record |
| Importance.NamesCons | HeartMVC/Services/AdvancedAnalyticsService.cs:237-243 | the names of a record followed by a list are its name followed by the list's names |
| Importance.NamesTail | HeartMVC/Services/AdvancedAnalyticsService.cs:237-243 | the names of a non-empty list are its first name followed by the names of the rest |
| Importance.InsertNames | HeartMVC/Services/AdvancedAnalyticsService.cs:246-247 | inserting a record adds its name to the multiset of names |
| Importance.SortNames | HeartMVC/Services/AdvancedAnalyticsService.cs:246-247 | sorting by descending score keeps the multiset of names |
| Importance.NamesWithScoreFilter | HeartMVC/Services/AdvancedAnalyticsService.cs:246-247 | the names with one score are the names of the records with that key |
| Importance.NamesWithScoreRankFree | HeartMVC/Services/AdvancedAnalyticsService.cs:248 | lists agreeing position by position on name and score have the same names at every score |
| Importance.NamesWithScoreAssignRanks | HeartMVC/Services/AdvancedAnalyticsService.cs:248 | assigning ranks does not change which names carry which score |
| Importance.RankingProperties | HeartMVC/Services/AdvancedAnalyticsService.cs:246-249 | the ranking keeps the length, gives ranks 1..N in order with non-increasing scores, and keeps the names |
| Importance.RankingStable | HeartMVC/Services/AdvancedAnalyticsService.cs:246-249 | records with equal scores keep their input order |
| Importance.EveryFeatureListed | HeartMVC/Services/AdvancedAnalyticsService.cs:348-360 | the fallback list's names cover all thirteen features |
| Importance.FallbackWellRanked | HeartMVC/Services/AdvancedAnalyticsService.cs:344-364 | the fallback list is well ranked: 13 records ranked 1..13 with non-increasing scores of at least 0.001 and every feature |
| Importance.DomainBasedFeatureImportance | HeartMVC/Services/AdvancedAnalyticsService.cs:344-364 | the fallback has 13 records, ranks 1..13, strictly decreasing scores of at least 0.001, and every feature |
| Importance.CalculateFeatureImportance | HeartMVC/Services/AdvancedAnalyticsService.cs:87-257 | a failed baseline (the outer catch) gives the fallback; otherwise the result is the ranking of the thirteen aggregates; either way 13 records ranked 1..13 with non-increasing scores of at least 0.001 and every feature present |
| Importance.RankedScoresBounded | HeartMVC/Services/AdvancedAnalyticsService.cs:224-249 | the score floor survives the ranking |
| Importance.RankedNamesComplete | HeartMVC/Services/AdvancedAnalyticsService.cs:237-249 | every name present before the ranking is present after it |
| Importance.RankedWell | HeartMVC/Services/AdvancedAnalyticsService.cs:237-249 | ranking the thirteen aggregates gives a well-ranked list |
| Averages.Square | HeartMVC/Services/AdvancedAnalyticsService.cs:220 | a square is non-negative |
| Averages.SquaredDeviations | HeartMVC/Services/AdvancedAnalyticsService.cs:507 | one non-negative squared deviation per value |
| Averages.SumBounds | HeartMVC/Services/AdvancedAnalyticsService.cs:503 | values in [lo, hi] sum to between n·lo and n·hi |
| Averages.MeanBounds | HeartMVC/Services/AdvancedAnalyticsService.cs:503 | the mean of values in [lo, hi] lies in [lo, hi] |
| Averages.SumNonNegative | HeartMVC/Services/AdvancedAnalyticsService.cs:214 | non-negative values have a non-negative sum |
| Averages.PopulationVarianceNonNegative | HeartMVC/Services/AdvancedAnalyticsService.cs:507 | the population variance is non-negative |
| ColumnAnalysis.FiniteValues | HeartMVC/Services/AdvancedAnalyticsService.cs:498 | filtering never lengthens the column and keeps everything of an all-finite column |
| ColumnAnalysis.FiniteValuesFromColumn | HeartMVC/Services/AdvancedAnalyticsService.cs:498 | every kept value is a finite entry of the column |
| ColumnAnalysis.Ascending | HeartMVC/Services/AdvancedAnalyticsService.cs:502 | the sorted values are a permutation of the values in ascending order |
| ColumnAnalysis.FirstQuartileIndex | HeartMVC/Services/AdvancedAnalyticsService.cs:509 | the truncated index of 0.25·n is n/4 |
| ColumnAnalysis.ThirdQuartileIndex | HeartMVC/Services/AdvancedAnalyticsService.cs:510 | the truncated index of 0.75·n is (3n)/4 |
| ColumnAnalysis.QuartileIndicesOrdered | HeartMVC/Services/AdvancedAnalyticsService.cs:504-510 | for n > 0, 0 ≤ q1 index ≤ n/2 ≤ q3 index < n, so every index is in bounds |
| ColumnAnalysis.CountOutside | HeartMVC/Services/AdvancedAnalyticsService.cs:514 | the outlier count is at most the number of values |
| ColumnAnalysis.DistinctCountBounds | HeartMVC/Services/AdvancedAnalyticsService.cs:524 | the distinct count is at most n, and at least 1 for a non-empty column |
| ColumnAnalysis.CountOutsideAntitone | HeartMVC/Services/AdvancedAnalyticsService.cs:511-514 | widening the interval never counts more values outside it |
| ColumnAnalysis.CountOutsideCovering | HeartMVC/Services/AdvancedAnalyticsService.cs:514 | nothing lies strictly outside an interval containing every value |
| ColumnAnalysis.CountOutsideSplit | HeartMVC/Services/AdvancedAnalyticsService.cs:514 | counting is additive over concatenation |
| ColumnAnalysis.SummaryOrdered | HeartMVC/Services/AdvancedAnalyticsService.cs:502-513 | min ≤ q1 ≤ median ≤ q3 ≤ max; min and max bound every value and, like the median, are values; the mean lies between them; the fences lie outside the quartiles |
| ColumnAnalysis.SummaryCounts | HeartMVC/Services/AdvancedAnalyticsService.cs:507-524 | outliers lie outside [q1, q3]; a constant column has none; 1 ≤ distinct ≤ n; a non-negative root gives a non-negative deviation |
| ColumnAnalysis.WorkedColumn | HeartMVC/Services/AdvancedAnalyticsService.cs:509-514 | for 1..9, 100 the quartiles are 3 and 8, the fences −4.5 and 15.5, and there is exactly one outlier |
| ColumnAnalysis.QuartilesOfSorted | HeartMVC/Services/AdvancedAnalyticsService.cs:509-510 | for an already ascending list the quartiles are read at n/4 and (3n)/4 |
| ColumnAnalysis.WorkedSorted | HeartMVC/Services/AdvancedAnalyticsService.cs:502 | the worked column is already ascending |
| ColumnAnalysis.WorkedOutliers | HeartMVC/Services/AdvancedAnalyticsService.cs:514 | only 100 lies outside [−4.5, 15.5] in the worked column |
| DataStatisticsModel.MapSumRemove | HeartMVC/Models/DataStatistics.cs:10-11 | the dictionary sum is independent of the order of the entries |
| DataStatisticsModel.MapSumUpdate | HeartMVC/Models/DataStatistics.cs:8-11 | overwriting one entry changes the sum by new − old (old = 0 for a new key) |
| DataStatisticsModel.MapSumBounds | HeartMVC/Models/DataStatistics.cs:10-11 | entries in [0, hi] sum to between 0 and keys·hi |
| DataStatisticsModel.MapSumAtLeastEntry | HeartMVC/Models/DataStatistics.cs:10-11 | with non-negative entries the sum is non-negative and at least any single entry |
| DataStatisticsModel.DataStatistics.constructor | HeartMVC/Models/DataStatistics.cs:3-11 | a fresh object has zero totals, empty dictionaries, and both sums 0 |
| DataStatisticsModel.AnalyzeColumn | HeartMVC/Services/AdvancedAnalyticsService.cs:495-529 | a column without a finite value leaves the object unchanged; otherwise its summary, rows − finite and its outlier count are stored under its name; the row and column totals are unchanged |
| DataStatisticsModel.AnalyzeNextColumn | HeartMVC/Services/AdvancedAnalyticsService.cs:473-485 | analysing column i after the first i columns gives the analysis of the first i+1; the row and column totals are unchanged |
| DataStatisticsModel.AnalyzeDataStatistics | HeartMVC/Services/AdvancedAnalyticsService.cs:458-493 | a fresh object with the row count, 14 columns and the thirteen column analyses in column order |
| DataStatisticsModel.ColumnsUpToEntry | HeartMVC/Services/AdvancedAnalyticsService.cs:498-528 | a column has entries exactly when it has a finite value; then they are its summary, missing = rows − finite, and its outlier count |
| DataStatisticsModel.AnalyzedColumnKeys | HeartMVC/Services/AdvancedAnalyticsService.cs:516-528 | one column analysis keeps the three dictionaries' keys equal and adds at most its own name |
| DataStatisticsModel.AnalyzedColumnCounts | HeartMVC/Services/AdvancedAnalyticsService.cs:514-528 | one column analysis keeps every missing and outlier count in [0, rows] |
| DataStatisticsModel.FirstNamesIndex | HeartMVC/Services/AdvancedAnalyticsService.cs:473-485 | a name among the first n columns is one of them, and no later column's name is |
| DataStatisticsModel.ColumnsUpToKeys | HeartMVC/Services/AdvancedAnalyticsService.cs:473-485 | the three dictionaries share their keys, which are names of analysed columns |
| DataStatisticsModel.ColumnsUpToCounts | HeartMVC/Services/AdvancedAnalyticsService.cs:473-528 | every stored count lies in [0, rows] |
| DataStatisticsModel.TotalsBounded | HeartMVC/Models/DataStatistics.cs:10-11 | both totals of the analysed dataset lie in [0, keys·rows] |
| DataStatisticsModel.AnalyzedColumnTotal | HeartMVC/Models/DataStatistics.cs:8-11 | an analysis with no finite values changes nothing; otherwise each total changes by new − old for its column |
| DataStatisticsModel.AnalyzedColumnOwn | HeartMVC/Services/AdvancedAnalyticsService.cs:495-529 | analysing a column not yet recorded stores its summary, rows − finite and its outlier count under its name, exactly when it has a finite value |
| DataStatisticsModel.AnalyzedColumnOthers | HeartMVC/Services/AdvancedAnalyticsService.cs:516-528 | analysing a column leaves every other column's entries, and whether it has a summary, as they were |
| DataStatisticsModel.RecordedAsKept | HeartMVC/Services/AdvancedAnalyticsService.cs:516-528 | what is recorded for another column survives the analysis of this one |
| DataStatisticsModel.AllFiniteColumn | HeartMVC/Services/AdvancedAnalyticsService.cs:498 | in an all-finite dataset the filter keeps every row of a column |
| DataStatisticsModel.NoMissingWhenAllFinite | HeartMVC/Services/AdvancedAnalyticsService.cs:527 | an all-finite dataset records 0 missing values for every column |
| ConfusionMatrices.Partitions | HeartMVC/Models/ConfusionMatrixData.cs:10-14 | ActualPositive + ActualNegative = Total = PredictedPositive + PredictedNegative |
| ConfusionMatrices.DerivedTotalsBounded | HeartMVC/Models/ConfusionMatrixData.cs:10-14 | with non-negative counts every derived total lies in [0, Total] |
| ModelEvaluation.TruncateToInt | HeartMVC/Services/ModelEvaluationService.cs:155-158 | the `(int)` cast truncates toward zero on both signs |
| ModelEvaluation.ExtractConfusionMatrix | HeartMVC/Services/ModelEvaluationService.cs:146-160 | extraction succeeds exactly when the counts have at least two rows and the first two rows have at least two cells each, the cells the code reads; otherwise it fails with the assumed index error; TN = [0][0], FP = [0][1], FN = [1][0], TP = [1][1] |
| ModelEvaluation.ExtractedTotals | HeartMVC/Services/ModelEvaluationService.cs:153-159 | for whole non-negative cells, Total is the sum of the four cells, ActualNegative the sum of row 0 and ActualPositive the sum of row 1 |
| ModelEvaluation.EvaluateModel | HeartMVC/Services/ModelEvaluationService.cs:72-144 | an evaluation is done exactly when the evaluator and the matrix read succeed, and then carries the evaluator's metrics and the extracted matrix; a failure carries the model's prefix |
| ModelEvaluation.EvaluateModels | HeartMVC/Services/ModelEvaluationService.cs:23-59 | a missing dataset or model returns at once with the flag and its message; each later failure sets the flag and the evaluation-error prefix, keeping what was already set; the flag is set exactly when something failed; success gives the size, both metrics and both fixed names |
| Timing.Faster | HeartMVC/Models/PerformanceTimingData.cs:10-11 | "FastForest" exactly under strict less-than, else "LogisticRegression" |
| Timing.VerdictRules | HeartMVC/Models/PerformanceTimingData.cs:10-11 | each verdict is one of the two names, FastForest exactly under strict less-than, ties going to LogisticRegression |
| Timing.VerdictsIndependent | HeartMVC/Models/PerformanceTimingData.cs:10-11 | each verdict depends only on its own pair of times |
| HeartController.Tier | HeartMVC/Controllers/HeartController.cs:57-74 | high exactly at ≥ 70, medium exactly in [40, 70), low exactly below 40 |
| HeartController.TierMonotone | HeartMVC/Controllers/HeartController.cs:57-74 | a higher percentage never gives a lower tier |
| HeartController.Predict | HeartMVC/Controllers/HeartController.cs:35-83 | an invalid model state returns the form without predicting; a throw returns the form with the prefixed message; otherwise the percentage is probability·100, the label is "Risk Var"/"Risk Yok", and level, colour and message follow the tier |
| HeartController.PercentageTiers | HeartMVC/Controllers/HeartController.cs:52-74 | a probability in [0,1] gives a percentage in [0,100], high exactly from 0.7 and low exactly below 0.4 |
| Analytics.FinishAnalysis | HeartMVC/Services/AdvancedAnalyticsService.cs:60-71 | after the sweep: a throw of timing or statistics sets the flag with the analysis prefix; otherwise timings, statistics, area in [0,1] and the operating point are set |
| Analytics.AnalyzeSplit | HeartMVC/Services/AdvancedAnalyticsService.cs:58-71 | the flag is set exactly when the sweep, timing or statistics threw, with the analysis prefix; otherwise the result is the complete analysis |
| Analytics.PerformAdvancedAnalysis | HeartMVC/Services/AdvancedAnalyticsService.cs:36-74 | a missing dataset or model returns at once with the flag, its message and empty lists; the flag is set exactly when a check failed or a step threw, with a non-empty, prefixed message; otherwise the importance, the sorted sweep, its area in [0,1], the operating point, the timings and the statistics are those specified |

## Left out

- ML.NET: loading and transforming a model, evaluation, the train/test split and CSV loading are
  inputs. An evaluation is the function `evaluate`; predictions, timings and datasets are
  `Attempt` values; neither their values nor their ML meaning are modelled.
- File checks: `File.Exists` is a boolean parameter. Reading the dataset is an `Attempt` of its rows.
- Concurrency: `async`/`await` and `Task.Run` are not modelled; the steps run in sequence.
- Clocks: `DateTime.Now` (`EvaluationDate`, `AnalysisDate`) is left out of the view-model records.
- Floating point:
  - doubles and floats are reals, so rounding is not modelled;
  - `Math.Exp` in the sigmoid and `Math.Sqrt` are function parameters;
  - the standard-deviation properties assume only that the root is non-negative;
  - the operating point compares squared distances, which orders the points as `Math.Sqrt(...)` does.
- Roc.SweepPoints: the source's accumulated thresholds differ from k/50 by a few units in the
  last place (the fiftieth is 0.9800000000000005). The model uses the exact values k/50 for
  k = 0..49, so a probability lying within that drift of a grid value may be classified at that
  threshold where the source would classify it the other way.
- Roc.CountOutcomes: the source's fourth `else if` is modelled as `else`, since the three earlier
  conditions leave only that case.
- Roc.CalculateOptimalThreshold: it requires a non-empty list, since `First()` throws on an empty
  one. Its only caller passes the 50 sorted sweep points.
- Randomness: the algorithm of `System.Random` is not modelled. Seed 42+p is the draw sequence
  `drawsFor(42+p)`, and only `0 ≤ j ≤ i` is assumed of each draw.
- Integer widths: the source's `int` and `long` (casts, counts, timings) are unbounded
  integers, so overflow is not modelled.
- Importance.DomainBasedFeatureImportance: the thirteen names are stated as "every feature
  is present" rather than as a multiset equality with the feature list. The names are distinct, so
  this means one record per feature.
- Importance.CalculateFeatureImportance: the only exception modelled on the outer path is baseline
  evaluation (a failure there reaches the outer catch and the fallback list). Inside an iteration,
  only a failed evaluation of the shuffled rows reaches the inner catch and the domain constant.
- Shuffle.ShuffleFeatureWithSeed: its own catch is not modelled. In the source a failure inside it
  (in reading the rows out of the data view or loading them back) returns the data unchanged, so
  the iteration evaluates the unshuffled rows and records their drop against the baseline. Those
  library calls are not part of this model, so the model has no such failure path.
- DataStatisticsModel.AnalyzeDataStatistics: the thirteen explicit `AnalyzeColumn` calls are a
  loop over the columns in the same order.
- DataStatisticsModel.DataStatistics.TotalMissingValues: it and `TotalOutliers` are ghost functions
  (a dictionary sum has no executable form here). Their properties are the `MapSum` lemmas.
- DataStatisticsModel.AnalyzeColumn: as in the source, a column with no finite value records no
  entry at all, not even a missing-value count equal to the row count.
- Timing: `MeasurePerformanceTiming`, the training helpers and the sample predictions are stopwatch
  and training plumbing. Their result is the `timing` input.
- Calibration: no code computes the calibration bins (`CalibrationCurvePoint`), so nothing is modelled.
- `Index` actions, `View`, `ViewBag`, `Program.cs` wiring and the `[Range]`/`[Required]`
  attributes of `HeartInputViewModel` are framework plumbing.
- Input data: the `InputData` field of the result view model is not kept.
- Wrappers: `LogisticRegressionService` and `FastForestClassificationService` (a cached model,
  loading and training) are not modelled. Their answers are the `prediction` input of `Predict`.
- Rows: the HeartData class is not part of this model. Its thirteen float fields and the label are
  taken from their uses in the services.
