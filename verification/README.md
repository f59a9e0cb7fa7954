# Retrieval ranking metrics and F-beta reduction, in Dafny

This project models two count-and-rank computations of torchmetrics and proves
properties of them. Scores are exact rationals (`real`) and are used only through
their order; there is no floating point anywhere.

**Retrieval metrics (Recall@K and mean reciprocal rank).** A batch arrives as three
columns: query index, score and target. The model:

- groups all rows by query, in order of first appearance;
- within each query drops the documents whose target equals the `exclude` sentinel
  (default -100), so a query whose rows are all excluded is still a query, with no
  relevant document;
- scores each query with its per-query metric;
  - Recall@K is the share of the relevant documents that rank in the top `k` by
    descending score. It is undefined (NaN) when the query has no relevant document.
  - The reciprocal rank is one over the 1-based position of the first relevant
    document.
- handles a query without a relevant document by the `empty_target_action` policy:
  - `skip` leaves the query out (and the result is 0.0 when every query is skipped);
  - `pos` counts the query as 1.0;
  - `neg` counts it as 0.0;
  - `error` fails;
- averages the per-query scores.

`RetrievalRecall` checks `k` when it is built: `k` must be absent or a positive
integer. Both metric objects buffer rows batch by batch and reduce the buffer on
`Compute`.

**F-beta.** Predictions and targets are in canonical form: one row per sample and one
boolean column per class. The model:

- counts true positives, false positives and false negatives;
- scores the counts as F-beta, the weighted harmonic mean of precision and recall. A
  zero denominator scores 0, not NaN;
- reduces the scores under the averaging method (`micro`, `macro`, `weighted`,
  `samples` or `none`);
  - The label set is every class less the ignored one.
  - Under `none`, a NaN is put back at the ignored class, so the result has one entry
    per class.
  - A single class is scored as binary F-beta.
- reduces multi-dimensional inputs:
  - `global` flattens every position of every sample into a sample of its own;
  - `samplewise` scores each sample and takes the elementwise mean of the results.
- picks the `k` highest-scored classes of each sample when top-k selection is used;
- validates the configuration before any data is seen. The model follows the order of
  the checks the tests imply. Each rejection names the offending parameter.

The retrieval test's reference `_recall_at_k` and the F-beta test's references
`_sk_fbeta_f1` / `_sk_fbeta_f1_multidim_multiclass` define what the metrics compute. The
model implements them. In particular, `macro` averages over every label in the label
set: a class that is neither predicted nor present scores 0 (sklearn with a fixed
`labels` list and `zero_division=0`) and still counts in the mean. The model proves
the asserted values:

- both documented retrieval examples give 0.75;
- the top-k cases give 2/3, 5/6, 0, 5/18 and 2/9;
- the zero-division case gives 0;
- the no-support case gives 0.

Construction validates its parameters in this order:

1. `average` must be a known method;
2. `mdmc_average` must be a known method;
3. `macro`, `weighted` and `none` need a positive `num_classes`, otherwise the error
   mentions "number of classes";
4. `ignore_index` must name one of the classes, and cannot be used when there is only
   one class.

Step 4 comes after step 3: `("macro", None, 1, 0)` passes step 3 and fails step 4
with the `ignore_index` error (tests/classification/test_f_beta.py:99).

Module layout:

| module | file |
|---|---|
| `Wrappers` (Option, Result, Outcome) | wrappers.dfy |
| `Averages` (sums, means, shares, weighted means) | averages.dfy |
| `Ranking`, `Recall`, `Reciprocal` | ranking.dfy, recall_at_k.dfy, reciprocal_rank.dfy |
| `RetrievalMetric`, `RetrievalRecall`, `RetrievalMRR`, `RetrievalExamples` | retrieval_*.dfy |
| `StatScores`, `Labels`, `TopK`, `FBetaScore`, `FBetaReduce`, `FBetaParams`, `FBetaMetric`, `FBetaMultidim` | stat_scores.dfy, labels.dfy, top_k.dfy, fbeta_*.dfy |
| `ExampleCounts`, `FBetaExamples` | example_counts.dfy, fbeta_examples.dfy |

## Model

| member | source | states |
|---|---|---|
| Ranking.SortDesc | tests/retrieval/test_recall.py:20 | the ranking is in descending score order, is a permutation of the documents (same multiset), and has as many relevant documents as the input |
| Ranking.Insert | tests/retrieval/test_recall.py:20 | inserting into a descending ranking keeps it descending, adds exactly that document to the multiset and adds its relevance to the count |
| Ranking.SortDescUnique | tests/retrieval/test_recall.py:20 | with distinct scores every descending arrangement of the documents is the ranking, so the ranking does not depend on tie-breaking |
| Ranking.DescendingUnique | tests/retrieval/test_recall.py:20 | two descending permutations of the same documents with distinct scores are equal |
| Ranking.PositivesPrefix | tests/retrieval/test_recall.py:21-22 | relevant documents in a shorter prefix are at most those in a longer prefix, which are at most those in the whole list |
| Ranking.PositivesExist | tests/retrieval/test_recall.py:19 | the relevant count is positive exactly when some document is relevant |
| Ranking.Keep | torchmetrics/retrieval/retrieval_recall.py:98-99 | a document survives the mask exactly when it is in the input and its target differs from `exclude` |
| Ranking.KeepAppend | torchmetrics/retrieval/retrieval_recall.py:98-99 | masking a concatenation masks each part, so kept documents stay in input order |
| Ranking.KeepIdempotent | torchmetrics/retrieval/mean_reciprocal_rank.py:72-73 | masking twice drops nothing more than masking once |
| Ranking.KeepAllExcluded | torchmetrics/retrieval/retrieval_recall.py:97-99 | a list whose targets all equal `exclude` masks to nothing |
| Ranking.KeepNothingExcluded | torchmetrics/retrieval/retrieval_recall.py:98-99 | a list without `exclude` targets is unchanged by the mask |
| Recall.TopOf | tests/retrieval/test_recall.py:21 | the cut-off keeps the first min(k, length) documents of the ranking |
| Recall.RecallAtK | tests/retrieval/test_recall.py:16-24 | the result is undefined exactly when no document is relevant, and otherwise lies in [0, 1] |
| Recall.RecallOfDescending | tests/retrieval/test_recall.py:19-22 | for any descending arrangement of the documents with distinct scores, Recall@K is the number of relevant documents among its first k over the number of all relevant ones, and undefined when none is relevant |
| Recall.RecallFullCutOff | tests/retrieval/test_recall.py:16-22 | a cut-off at or past the length gives recall exactly 1 |
| Recall.RecallDefaultCutOff | tests/retrieval/test_recall.py:16-17 | with `k` absent the cut-off is the whole list and recall is 1 |
| Recall.RecallMonotone | tests/retrieval/test_recall.py:20-22 | recall never decreases as `k` grows |
| Recall.RecallZeroCutOff | tests/retrieval/test_recall.py:21-22 | a cut-off of 0 retrieves nothing: recall 0 |
| Reciprocal.FirstRelevant | torchmetrics/retrieval/mean_reciprocal_rank.py:22-23 | the position found holds a relevant document and every earlier one is irrelevant; none is found exactly when nothing is relevant |
| Reciprocal.ReciprocalRank | torchmetrics/retrieval/mean_reciprocal_rank.py:22-23 | the reciprocal rank lies in [0, 1] and is 0 exactly when no document is relevant |
| Reciprocal.FirstRelevantAt | torchmetrics/retrieval/mean_reciprocal_rank.py:22-23 | a relevant position preceded only by irrelevant ones is the first relevant position |
| Reciprocal.ReciprocalRankPosition | torchmetrics/retrieval/mean_reciprocal_rank.py:22-23 | n irrelevant documents ahead of the first relevant one in the ranking give 1/(n+1) |
| Reciprocal.BestScoredRanksFirst | torchmetrics/retrieval/mean_reciprocal_rank.py:22-23 | a document scored strictly above all others heads the ranking |
| Reciprocal.TopRelevantRanksFirst | torchmetrics/retrieval/mean_reciprocal_rank.py:22-23 | a query whose strictly best-scored document is relevant has reciprocal rank 1 |
| RetrievalMetric.Rows | torchmetrics/retrieval/retrieval_recall.py:31-35 | the three columns pair up row by row exactly when their lengths agree; otherwise the batch is rejected |
| RetrievalMetric.QueryIds | torchmetrics/retrieval/retrieval_recall.py:36-37 | each query with a row is listed, exactly once, and no other |
| RetrievalMetric.QueryIdsOrder | torchmetrics/retrieval/retrieval_recall.py:36-37 | queries are listed in order of first appearance: a query listed before another has its first row before the other's first row |
| RetrievalMetric.Group | torchmetrics/retrieval/retrieval_recall.py:36-37 | the documents of query q are exactly those of the rows of q |
| RetrievalMetric.GroupAppend | torchmetrics/retrieval/retrieval_recall.py:36-37 | grouping a concatenation groups each part, keeping row order |
| RetrievalMetric.GroupsPartitionRows | torchmetrics/retrieval/retrieval_recall.py:36-37 | the query groups together hold every row exactly once |
| RetrievalMetric.NoGroupWithoutQuery | torchmetrics/retrieval/retrieval_recall.py:36-37 | every query that owns a document is one of the listed queries |
| RetrievalMetric.QueryScore | torchmetrics/retrieval/retrieval_recall.py:41-47 | a query that keeps a relevant document once `exclude` targets are masked contributes its metric; otherwise `skip` contributes nothing, `pos` 1.0, `neg` 0.0, and `error` fails |
| RetrievalMetric.ContributionsFail | torchmetrics/retrieval/mean_reciprocal_rank.py:40-45 | the per-query contributions fail exactly when the policy is `error` and some query is empty |
| RetrievalMetric.AggregateFails | torchmetrics/retrieval/retrieval_recall.py:36-47 | the metric fails exactly when the policy is `error` and some query of the batch, including one whose rows are all excluded, keeps no relevant document |
| RetrievalMetric.AllExcludedQuery | torchmetrics/retrieval/retrieval_recall.py:36-50 | a query all of whose rows carry the `exclude` target is still listed, keeps no document after masking, and makes the metric fail under `error` |
| RetrievalMetric.ContributionsAllScored | torchmetrics/retrieval/retrieval_recall.py:36-38 | without empty queries each query contributes its metric, in query order |
| RetrievalMetric.ContributionsWithin | torchmetrics/retrieval/retrieval_recall.py:41-47 | every contribution (metric or policy value) lies in [0, 1] when the metric does |
| RetrievalMetric.AggregateWithin | torchmetrics/retrieval/retrieval_recall.py:36-38 | the mean over queries lies in [0, 1] |
| RetrievalMetric.ContributionsAllSkipped | torchmetrics/retrieval/retrieval_recall.py:44 | under `skip`, queries without relevant documents contribute nothing |
| RetrievalMetric.AggregateAllSkipped | torchmetrics/retrieval/retrieval_recall.py:44 | when every query is skipped the result is 0.0 |
| RetrievalMetric.AggregateDefined | torchmetrics/retrieval/retrieval_recall.py:36-38 | a metric defined on every non-empty masked query makes the mean a number, never NaN |
| RetrievalMetric.ContributionsDefined | torchmetrics/retrieval/retrieval_recall.py:36-38 | the contributions are all numbers when the metric is defined on the queries it sees |
| RetrievalMetric.TwoQueries | torchmetrics/retrieval/retrieval_recall.py:36-38 | a batch of queries 0 and 1 averages query 0's contribution followed by query 1's, whatever the policy made of each |
| RetrievalMetric.TwoQueryAggregate | torchmetrics/retrieval/retrieval_recall.py:36-38 | two non-empty queries aggregate to the mean of their two scores |
| RetrievalRecall.ValidateK | torchmetrics/retrieval/retrieval_recall.py:93-95 | `k` is accepted exactly when absent or a positive integer and is kept as given; anything else (-1, 1.0) fails with the message "`k` has to be a positive integer or None" |
| RetrievalRecall.QueryRecall | torchmetrics/retrieval/retrieval_recall.py:97-99 | Recall@K of the masked query: undefined exactly when no kept document is relevant, otherwise in [0, 1] |
| RetrievalRecall.QueryRecallUnmasked | torchmetrics/retrieval/retrieval_recall.py:98-99 | on a query without excluded rows the mask changes nothing |
| RetrievalRecall.RetrievalRecall.Init | torchmetrics/retrieval/retrieval_recall.py:84-95 | the configuration is stored as given and the buffer starts empty |
| RetrievalRecall.RetrievalRecall.New | tests/retrieval/test_recall.py:53-56 | construction succeeds exactly when `k` validates, stores that `k` and the policy, and otherwise fails with the `k` message |
| RetrievalRecall.RetrievalRecall.Update | torchmetrics/retrieval/retrieval_recall.py:29-35 | a batch of equal-length columns is appended to the buffer row by row; mismatched columns buffer nothing and fail |
| RetrievalRecall.RetrievalRecall.Compute | torchmetrics/retrieval/retrieval_recall.py:36-47 | the mean Recall@K is a number in [0, 1]; it fails exactly under `error` when some query of the buffer, including one whose rows are all excluded, keeps no relevant document; it is 0.0 under `skip` when no query keeps one |
| RetrievalMRR.QueryReciprocalRank | torchmetrics/retrieval/mean_reciprocal_rank.py:71-73 | the reciprocal rank of the masked query is in [0, 1] and is 0 exactly when no kept document is relevant |
| RetrievalMRR.QueryReciprocalRankUnmasked | torchmetrics/retrieval/mean_reciprocal_rank.py:72-73 | on a query without excluded rows the mask changes nothing |
| RetrievalMRR.RetrievalMRR.Init | torchmetrics/retrieval/mean_reciprocal_rank.py:38-48 | the policy and sentinel are stored and the buffer starts empty |
| RetrievalMRR.RetrievalMRR.Update | torchmetrics/retrieval/mean_reciprocal_rank.py:27-34 | a batch of equal-length columns is appended row by row; mismatched columns buffer nothing and fail |
| RetrievalMRR.RetrievalMRR.Compute | torchmetrics/retrieval/mean_reciprocal_rank.py:33-45 | the mean reciprocal rank is a number in [0, 1]; it fails exactly under `error` when some query of the buffer, including one whose rows are all excluded, keeps no relevant document; it is 0.0 under `skip` when no query keeps one |
| RetrievalExamples.ColumnsPairUp | torchmetrics/retrieval/retrieval_recall.py:66-68 | the documented columns pair into two queries of three and four rows |
| RetrievalExamples.Recall0 | torchmetrics/retrieval/retrieval_recall.py:65-71 | Recall@2 of the first example query is 1 |
| RetrievalExamples.Recall1 | torchmetrics/retrieval/retrieval_recall.py:65-71 | Recall@2 of the second example query is 1/2 |
| RetrievalExamples.BatchRecall | torchmetrics/retrieval/retrieval_recall.py:65-71 | Recall@2 over the example batch is 0.75 |
| RetrievalExamples.Reciprocal0 | torchmetrics/retrieval/mean_reciprocal_rank.py:62-68 | the first example query has reciprocal rank 1 |
| RetrievalExamples.Reciprocal1 | torchmetrics/retrieval/mean_reciprocal_rank.py:62-68 | the second example query has reciprocal rank 1/2 |
| RetrievalExamples.BatchReciprocalRank | torchmetrics/retrieval/mean_reciprocal_rank.py:62-68 | the mean reciprocal rank of the example batch is 0.75 |
| RetrievalExamples.MaskedBatchNeg | torchmetrics/retrieval/mean_reciprocal_rank.py:35-48 | rows (query 0, score 0.5, relevant) and (query 1, score 0.3, target `exclude`) give 0.5 under `neg`: the fully excluded query still counts, as 0 |
| RetrievalExamples.MaskedBatchError | torchmetrics/retrieval/mean_reciprocal_rank.py:35-48 | the same rows fail under `error`, naming query 1 |
| RetrievalExamples.RecallSession | torchmetrics/retrieval/retrieval_recall.py:64-71 | constructing with k=2, updating with the example and computing returns 0.75 |
| RetrievalExamples.ReciprocalRankSession | torchmetrics/retrieval/mean_reciprocal_rank.py:61-68 | constructing with the defaults, updating with the example and computing returns 0.75 |
| Labels.Range | tests/classification/test_f_beta.py:45 | the classes 0 .. n-1 in order |
| Labels.RemoveFirstAt | tests/classification/test_f_beta.py:46-49 | removing the first occurrence found at j splices out position j; a missing value leaves the list unchanged |
| Labels.LabelSetIndex | tests/classification/test_f_beta.py:45-49 | the label set has one label fewer exactly when the ignored class is in range, and label j is class j before it and class j+1 from it on |
| Labels.LabelSetMembers | tests/classification/test_f_beta.py:45-49 | a class is a label exactly when it is in range and is not the ignored one |
| Labels.LabelSetIncreasing | tests/classification/test_f_beta.py:45-49 | labels are strictly increasing, so each class appears at most once |
| Labels.Labels | tests/classification/test_f_beta.py:45-49 | building the list and removing the ignored class in place gives exactly the label set |
| StatScores.ClassPredicted | tests/classification/test_f_beta.py:56 | a class's tp + fp is the number of samples predicting it |
| StatScores.ClassSupport | tests/classification/test_f_beta.py:56 | a class's tp + fn (its support) is the number of samples whose target has it |
| StatScores.SamplePredicted | tests/classification/test_f_beta.py:56 | a sample's tp + fp is its number of predicted labels |
| StatScores.SampleSupport | tests/classification/test_f_beta.py:56 | a sample's tp + fn is its number of target labels |
| StatScores.MicroPredicted | tests/classification/test_f_beta.py:56 | the summed tp + fp is the number of set prediction cells over the labels |
| StatScores.MicroSupport | tests/classification/test_f_beta.py:56 | the summed support is the number of set target cells over the labels |
| StatScores.ClassCountsAppend | tests/classification/test_f_beta.py:226-251 | counting a batch in two parts and adding gives the counts of the whole, so batch-wise accumulation is exact |
| StatScores.MicroCountsAppend | tests/classification/test_f_beta.py:226-251 | the summed counts add up over the two parts of a batch |
| StatScores.MicroOfOneLabel | tests/classification/test_f_beta.py:42-43 | micro counts over the single label c are the counts of class c |
| StatScores.SingleLabelCounts | tests/classification/test_f_beta.py:129-130 | on single-label data tp + fp and tp + fn both equal the number of samples |
| TopK.BestFree | tests/classification/test_f_beta.py:336 | the position found is free and scores at least as high as every other free position; none is found only when all are taken |
| TopK.SelectCount | tests/classification/test_f_beta.py:336 | top-k selection sets exactly min(k, number of classes) classes |
| TopK.SelectOrdered | tests/classification/test_f_beta.py:336 | every selected class scores at least as high as every class left out |
| TopK.SelectRows | tests/classification/test_f_beta.py:336-337 | each sample's row is the top-k selection of its scores |
| TopK.OneHot | tests/classification/test_f_beta.py:129-130 | the row of a label sets exactly that label's column |
| TopK.OneHotRows | tests/classification/test_f_beta.py:129-130 | each sample's row is the one-hot row of its label |
| FBetaScore.FBeta | tests/classification/test_f_beta.py:56 | F-beta lies in [0, 1] and is 0 exactly when there is no true positive, including a zero denominator (zero division gives 0) |
| FBetaScore.FBetaIs | tests/classification/test_f_beta.py:56 | F-beta is the value that multiplies the denominator back to (1 + beta^2) tp |
| FBetaScore.FBetaFromTotals | tests/classification/test_f_beta.py:315-318 | F-beta is fixed by tp, the predicted and the actual positives |
| FBetaScore.ZeroDenominator | tests/classification/test_f_beta.py:126-138 | for beta != 0 the denominator is 0 exactly when the class is neither predicted nor present |
| FBetaScore.HarmonicMean | tests/classification/test_f_beta.py:170 | with a true positive F-beta is (1 + beta^2) P R / (beta^2 P + R) |
| FBetaScore.HarmonicProduct | tests/classification/test_f_beta.py:170 | the harmonic-mean form multiplied out |
| FBetaScore.Balanced | tests/classification/test_f_beta.py:315 | when fp equals fn, F-beta no longer depends on beta and is tp over the support |
| FBetaParams.ParseAverage | tests/classification/test_f_beta.py:40-41 | both "none" and an absent value mean no averaging |
| FBetaParams.Validate | tests/classification/test_f_beta.py:96-109 | an unknown `average` fails first, then an unknown `mdmc_average`, then a per-class average without a positive `num_classes`; an accepted configuration is valid and stored as given |
| FBetaParams.ValidateIgnoreIndex | tests/classification/test_f_beta.py:99 | the ignored-class error occurs exactly when the earlier checks pass and the ignored class is out of range or there is one class |
| FBetaParams.ValidateAccepts | tests/classification/test_f_beta.py:102-109 | a configuration is accepted unchanged exactly when it is valid |
| FBetaParams.WrongAverage | tests/classification/test_f_beta.py:96 | an unknown average is rejected with a message mentioning "`average`" |
| FBetaParams.WrongMdmc | tests/classification/test_f_beta.py:97 | an unknown mdmc average is rejected with a message mentioning "`mdmc" |
| FBetaParams.MacroWithoutClasses | tests/classification/test_f_beta.py:98 | macro without `num_classes` is rejected with a message mentioning "number of classes" |
| FBetaParams.IgnoreWithOneClass | tests/classification/test_f_beta.py:99 | macro with one class and ignore_index 0 is rejected with a message mentioning "ignore_index" |
| FBetaReduce.LabelCounts | tests/classification/test_f_beta.py:56 | one set of counts per label, in label order |
| FBetaReduce.Scores | tests/classification/test_f_beta.py:56 | one F-beta per set of counts, each in [0, 1] |
| FBetaReduce.Macro | tests/classification/test_f_beta.py:56 | the macro score lies in [0, 1] |
| FBetaReduce.MacroAllPresent | tests/classification/test_f_beta.py:56 | when every label takes part, macro equals the mean over the labels taking part |
| FBetaReduce.MacroOverPresent | tests/classification/test_f_beta.py:45-56 | macro is the summed score of the labels taking part divided by the number of all labels in the label set (0 with no label): an absent class counts as a score of 0 |
| FBetaReduce.SumOverPresent | tests/classification/test_f_beta.py:56 | classes neither predicted nor present add nothing to the summed scores |
| FBetaReduce.Weighted | tests/classification/test_f_beta.py:150-153 | the weighted score lies in [0, 1] and is exactly 0 when no label has support |
| FBetaReduce.NoSupportWeights | tests/classification/test_f_beta.py:150-153 | labels without support give weights summing to 0 |
| FBetaReduce.WeightedOneSupported | tests/classification/test_f_beta.py:56 | when only one label has support, weighted is that label's score |
| FBetaReduce.Samples | tests/classification/test_f_beta.py:174 | the samples score lies in [0, 1] |
| FBetaReduce.SamplesOfOne | tests/classification/test_f_beta.py:174 | for a single sample, samples averaging agrees with micro |
| FBetaReduce.MicroIsAccuracy | tests/classification/test_f_beta.py:315 | on single-label data micro F-beta is the share of samples predicted right, for every beta |
| FBetaReduce.InsertNaN | tests/classification/test_f_beta.py:58-59 | NaN sits at the given position and every score keeps its order around it |
| FBetaReduce.ReinsertIndex | tests/classification/test_f_beta.py:58-59 | reinsertion puts NaN exactly at the ignored class, and every other class gets its own score |
| FBetaReduce.ClassScores | tests/classification/test_f_beta.py:56 | entry c is the F-beta of class c |
| FBetaReduce.PerClassScoresIndex | tests/classification/test_f_beta.py:45-59 | the per-class result has num_classes entries, NaN exactly at the ignored class, and the F-beta of class c elsewhere |
| FBetaReduce.ReferenceScore | tests/classification/test_f_beta.py:39-61 | the result is one number exactly when there is one class or an average; a number lies in [0, 1]; otherwise there is one entry per class |
| FBetaReduce.ReferencePerClass | tests/classification/test_f_beta.py:58-59 | with no averaging, entry c is NaN for the ignored class and the F-beta of class c otherwise |
| FBetaReduce.ReferenceBinary | tests/classification/test_f_beta.py:42-43 | one class is scored, whatever the average, exactly as micro averaging over that single label scores it |
| FBetaReduce.F1Harmonic | tests/classification/test_f_beta.py:122-124 | F1, i.e. beta = 1, is the plain harmonic mean 2PR/(P+R) |
| FBetaMetric.ClassesMatchWidth | tests/classification/test_f_beta.py:45 | on rows of one width, with `num_classes` equal to that width or absent, the classes scored are exactly the columns: the label set is 0 .. width - 1 |
| FBetaMetric.FBetaOf | tests/classification/test_f_beta.py:111-119 | the functional metric fails exactly when validation fails, with the same error |
| FBetaMetric.FBeta.Init | tests/classification/test_f_beta.py:104-109 | beta and the configuration are stored and the buffer starts empty |
| FBetaMetric.FBeta.New | tests/classification/test_f_beta.py:102-109 | construction fails exactly when validation fails, with the same error; otherwise the metric holds the validated configuration |
| FBetaMetric.FBeta.NewF1 | tests/classification/test_f_beta.py:122-124 | F1 is the metric built with beta = 1 |
| FBetaMetric.FBeta.Update | tests/classification/test_f_beta.py:337 | a batch is appended to the buffer row by row |
| FBetaMetric.FBeta.Compute | tests/classification/test_f_beta.py:344 | the computed result is a number in [0, 1] exactly when there is one class or an average, and otherwise has one entry per class |
| FBetaMetric.OneBatch | tests/classification/test_f_beta.py:132-138 | the class metric updated once computes what the functional metric returns, and both reject the same configurations |
| FBetaMultidim.Transpose | tests/classification/test_f_beta.py:72-73 | position x of the result is the row of classes of position x of the block |
| FBetaMultidim.FlattenLength | tests/classification/test_f_beta.py:72-73 | flattening gives samples times positions rows |
| FBetaMultidim.FlattenIndex | tests/classification/test_f_beta.py:72-73 | row i * extent + x of the flattened input is position x of sample i |
| FBetaMultidim.PerSample | tests/classification/test_f_beta.py:79-84 | entry i is the score of sample i |
| FBetaMultidim.Multidim | tests/classification/test_f_beta.py:71-86 | the loop collecting per-sample scores computes the global or samplewise reference score |
| FBetaMultidim.PerSampleUniform | tests/classification/test_f_beta.py:84-86 | per-sample results all share one shape, so they stack |
| FBetaMultidim.SamplewiseShape | tests/classification/test_f_beta.py:76-86 | samplewise fails only on no samples; it is a number in [0, 1] with an average or one class, else one entry per class |
| FBetaMultidim.ClassOverSamples | tests/classification/test_f_beta.py:79-82 | entry i is the F-beta of class c in sample i |
| FBetaMultidim.SamplewisePerClass | tests/classification/test_f_beta.py:76-86 | samplewise without averaging: entry c is the mean over samples of class c's F-beta, and NaN at the ignored class |
| FBetaExamples.MicroFromTotals | tests/classification/test_f_beta.py:315-318 | micro F-beta over three classes follows from the hit, predicted and support totals |
| FBetaExamples.MicroWithoutHits | tests/classification/test_f_beta.py:317 | no true positive gives micro F-beta 0 |
| FBetaExamples.MicroOfThree | tests/classification/test_f_beta.py:336-345 | the functional metric with micro and three classes is micro F-beta over labels 0, 1, 2 |
| FBetaExamples.TopKMulticlass1 | tests/classification/test_f_beta.py:315 | multiclass top-1 scores 2/3 for every beta |
| FBetaExamples.TopKMulticlass2 | tests/classification/test_f_beta.py:316 | multiclass top-2 scores 5/6 with beta = 2 |
| FBetaExamples.TopKMulticlass2F1 | tests/classification/test_f_beta.py:316 | multiclass top-2 scores 2/3 for F1 |
| FBetaExamples.TopKMultilabel1 | tests/classification/test_f_beta.py:317 | multilabel top-1 scores 0 for every beta |
| FBetaExamples.TopKMultilabel2 | tests/classification/test_f_beta.py:318 | multilabel top-2 scores 5/18 with beta = 2 |
| FBetaExamples.TopKMultilabel2F1 | tests/classification/test_f_beta.py:318 | multilabel top-2 scores 2/9 for F1 |
| FBetaExamples.UnpredictedScoresZero | tests/classification/test_f_beta.py:126-138 | with no averaging a class never predicted scores 0, not NaN |
| FBetaExamples.OnlyIgnoredSupported | tests/classification/test_f_beta.py:145-165 | weighted averaging when every target is the ignored class scores 0, not NaN |
| FBetaExamples.ZeroDivision | tests/classification/test_f_beta.py:129-138 | predictions 1, 2, 1, 1 against targets 2, 1, 2, 1 with no averaging give class 0 the score 0 |
| FBetaExamples.NoSupport | tests/classification/test_f_beta.py:156-165 | predictions 1, 1, 0, 0 against targets all 0, weighted, ignoring class 0, score 0 |
| Averages.MeanWithin | torchmetrics/retrieval/retrieval_recall.py:37-38 | a mean of values in [lo, hi] lies in [lo, hi] |
| Averages.MeanOrNaN | tests/classification/test_f_beta.py:86 | the mean is a number exactly when no entry is NaN |
| Averages.WeightedMean | tests/classification/test_f_beta.py:150-153 | a support-weighted mean of shares lies in [0, 1] and is 0 when the weights sum to 0 |
| Averages.Ratio | tests/retrieval/test_recall.py:22 | the share multiplies back to the count and lies in [0, 1] for a sub-count |
| Averages.RatioMonotone | tests/retrieval/test_recall.py:21-22 | a larger count is a larger share of the same total |

## Left out

- Distributed synchronisation (`dist_sync_on_step`, `process_group`, `dist_sync_fn`, the DDP parametrisation): concurrency and collectives are outside this model.
- Tensor plumbing: dtype and shape coercion and the input normaliser `_input_format_classification`. Inputs are given in canonical form. Of the normaliser, the model keeps top-k selection, one-hot encoding and a stand-in for its class-count inference (`FBetaMetric.Classes`, next line).
- FBetaMetric.Classes: when `num_classes` is absent or below 1, the number of classes scored is the width of the first canonical row. This stands in for the class count the normaliser infers from the data, which is not part of this model. The reference `_sk_fbeta_f1` always receives `num_classes` (tests/classification/test_f_beta.py:45), and every test passes one, so the inferred count is only reached under `micro` without `num_classes`.
- Probability thresholding against `THRESHOLD` and floating-point rounding (`torch.isclose`): scores are exact rationals, used only through their order.
- sklearn's `f1_score`/`fbeta_score` and the `MetricTester` harness: these are external oracles. Only the behaviour they are used to check is modelled, as the reference functions.
- `seed_all`, the random input fixtures and the `test_results` sweep over them. No random data is modelled.
- `_recall_at_k`'s shape assertions: a query is a sequence of (score, target) pairs, so predictions and targets cannot differ in length or be multi-dimensional. The length check survives as `RetrievalMetric.Rows` rejecting columns of different lengths.
- Ranking.SortDesc: equal scores keep their input order, while the source's argsort leaves their order unspecified. Properties that depend on the order of ties hold only through `Ranking.SortDescUnique`, which assumes distinct scores.
- FBetaMetric.FBeta.Update: takes canonical rows; `top_k` is applied by the caller through `TopK.SelectRows` rather than stored in the metric.
- Ranking.Relevant: a document is relevant when its target is positive. The reference `_recall_at_k` counts relevant documents by summing the targets (tests/retrieval/test_recall.py:19-22). The two differ only for targets other than 0 and 1, and the metric is documented for binary targets (torchmetrics/retrieval/retrieval_recall.py:27).
- TopK.BestFree: among equal scores the first column wins. `torch.topk` leaves the order of ties unspecified.
- FBetaReduce.Samples: an empty batch scores 0.0. The source never reduces an empty batch.
- FBetaMultidim.MultidimScore: only `global` and `samplewise` are modelled. Multi-dimensional data with no `mdmc_average` is rejected by the normaliser, which is not part of this model.
- Validation of `beta` and of `top_k` at construction: the code that performs them is not part of this model.
- The row-buffering retrieval base class is not part of this model, so the order of its steps is a modelling choice. The model groups over all buffered rows, since predictions are "first grouped by `indexes`" (torchmetrics/retrieval/retrieval_recall.py:36-38). It masks `exclude` targets inside each query, as `_metric` does (torchmetrics/retrieval/retrieval_recall.py:97-99, torchmetrics/retrieval/mean_reciprocal_rank.py:71-73). It applies `empty_target_action` to a query that keeps no relevant document, including one whose rows are all excluded.
