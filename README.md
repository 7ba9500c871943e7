# Active transfer learning: the selection layer

This project models the active-learning core of ActiveTransfer. ActiveTransfer is a
set of experiments on recognising the activities of the residents of a
smart home. Each resident's recordings form a data set of feature vectors,
each with a binary activity label. An active learner keeps every instance
of one resident either in a *labelled* or in an *unlabelled* set. In each
round it picks the unlabelled instance whose label it expects to be most
informative, moves that instance to the labelled set and trains the
classifier on it.

The model covers:

- **Partition state machines.** The two learners are classes whose methods
  update the sets in place:
  - the array-based `Active` learner (`Active.cs`), in module `ActiveArrays`;
  - the `ActiveLearner` family (`ActiveLearner.cs`, `Code/ActiveEvidence.cs`),
    in module `Learners`.

  The shared operations are `Transfer`, `UpdateModel`,
  `CalculateProbabilities` and `VOITest`.
- **Risk functional** (module `Risk`). This is the labelled risk `JL`, the
  unlabelled risk `JU`, their sum `JAll` and the mean `JMean`, defined
  once as functions of a risk matrix, labels, predictions and the two sets.
  The learners' loops are proved to compute them.
- **Selection** (module `Selection`). This covers the what-if risk
  `JAll_j`, the value of information `VOI`, the first-best argmax loop,
  the uncertainty distance `|0.5 - p|`, the random pick, and the
  evidence-ratio learner. The evidence learner builds a shortlist of the
  ten most uncertain instances, scores each by an evidence ratio, and
  returns the first of the lowest score under `OrderBy`.
- **Data sets** (module `Data`). This covers `DataSet`: its counts, the
  resident views `GetSubSet`, and `SplitTrainTest` with its `Ceiling`
  train counts.
- **Loading** (module `Loading`). This covers `DataLoader.GetDataSet`,
  which groups flat records into one row per subject. It keeps the
  selected feature columns, appends an optional bias column, and keeps
  the first `Convert.ToInt32(p * count)` records of each subject.
- **Metrics** (module `Scoring`). These are the accuracy, the Brier score
  and its alias the mean squared error, and the estimated labels, together
  with the null and empty cases of each.
- **Experiment loops** (module `Experiments`). `Experiment.RunOnline` and
  `Experiment.RunActive` are proved against recursive specifications of
  what each round records.

**Supporting modules**

- `Outcomes`: the failure kinds that stand for the exceptions the C# code
  throws.
- `Numerics`: reals, the `Double` values with infinities and NaN, and the
  rounding of `Math.Ceiling` and `Convert.ToInt32`.
- `Collections` and `Sorting`: sets, enumerations, LINQ `Take`/`Skip` and
  the stable `OrderBy`.
- `Classifier`: the Bayesian classifier as an oracle with `train`,
  `predict` and `evidence`.

**How the runtime is modelled**

- An exception in the source is a `Status`/`Result` failure in the model.
- A random order or draw is a parameter that ranges over every choice the
  runtime could make. One example is the enumeration order of a
  `HashSet`, which must list the set exactly once.
- The order in which `HashSet<int>` enumerates is not specified, so the
  model never depends on it.
- `Active.cs` keeps `L` and `U` in `HashSet<int>`s. `JL` and `JU` sum
  over a `SortedSet<int>` copy of the set, so in ascending order. Their
  loops are proved to compute the same sums as the order-independent
  specification.
- The rounds of `Active.VOITest` walk `U` in its `HashSet` enumeration
  order. Each round's order is a ghost output `order`, and the rounds'
  orders are the ghost output `orders`.

## Model

| member | source | states |
|---|---|---|
| ActiveArrays.Instances | Active.cs:133-135 | The training data of `UpdateModel(inds)`: one single-row resident per listed instance, holding that instance's features and label |
| ActiveArrays.WhatIfTotalClosedForm | Active.cs:218-271 | The what-if risk equals the risk of the other instances plus the candidate's two labelled terms weighted by `1 - p` and `p` |
| ActiveArrays.WhatIfTotalBranches | Active.cs:238-257 | The risk of each branch is the risk of the other instances plus the candidate's labelled term for that label, and the what-if risk weights the two branches by `1 - p` and `p` |
| ActiveArrays.LabelledAdd | Active.cs:161-178 | Labelling a new instance adds exactly its labelled term to `JL` |
| ActiveArrays.TotalRiskWithout | Active.cs:192-207 | `JAll` splits into the risk of the other instances and the candidate's unlabelled term |
| ActiveArrays.RiskDropClosedForm | Active.cs:277-282 | The drop from `JAll` to the what-if risk is the unlabelled term less the expected labelled term, which depends only on `p` and the matrix |
| ActiveArrays.ZeroOneVoi | Active.cs:273-282 | Under the zero-one matrix and equal costs, the value of information is `-(2p - 1)^2 - cost`, so the most uncertain instance scores highest |
| ActiveArrays.ActiveVoisAt | Active.cs:298-318 | Entry `i` of the candidates' values is the value of information of the `i`-th candidate |
| ActiveArrays.NoneOfClass | Active.cs:87-94 | A pass of `Transfer` that finds no instance of the class shows that none is left unlabelled |
| ActiveArrays.Predicted | Active.cs:104-114 | The predictions hold one entry per row, each the classifier's prediction under the current weights |
| ActiveArrays.LabelsAppend | Active.cs:329-336 | Recording one more pick with its true label keeps the record aligned with the picks |
| ActiveArrays.LabelledConcat | Active.cs:342-354 | The rounds' record followed by the remaining instances' record is a record of both |
| ActiveArrays.Active.Counts | Active.cs:45-55 | `N` (labelled) plus `M` (unlabelled) is the number of instances |
| ActiveArrays.Active.constructor | Active.cs:61-75 | Every instance is unlabelled, nothing is labelled, predictions are zero, and gains are 1/3 with unit costs |
| ActiveArrays.Active.UpdateModel | Active.cs:143-155 | Success exactly when training on the instance succeeds; the instance then moves from `U` to `L` and the weights are the trained ones; on failure nothing changes |
| ActiveArrays.Active.UpdateModelOn | Active.cs:129-141 | An empty list changes nothing; otherwise the weights are those trained on all listed instances at once, and the sets are left alone |
| ActiveArrays.Active.ProbOf | Active.cs:117-127 | The prediction for one instance under the current weights |
| ActiveArrays.Active.CalculateProbabilities | Active.cs:104-114 | The predictions become `Predicted` of the first resident's rows; sets, weights and labels are unchanged |
| ActiveArrays.Active.JL | Active.cs:171-178 | The ascending-order loop computes the labelled risk `LabelledRisk` |
| ActiveArrays.Active.JU | Active.cs:192-199 | The ascending-order loop computes the unlabelled risk `UnlabelledRisk` |
| ActiveArrays.Active.JAll | Active.cs:205-207 | The result is `TotalRisk` over the two sets |
| ActiveArrays.Active.JMean | Active.cs:209-211 | The result is `TotalRisk / (M + N)`, NaN for no instances |
| ActiveArrays.Active.JAllJ | Active.cs:218-271 | The result is the what-if risk of the candidate; labels and predictions are restored, and the candidate ends in `U` |
| ActiveArrays.Active.Branch | Active.cs:227-257 | One branch moves the candidate to `L` with the assumed label and returns the total risk under the unchanged weights and predictions; the retraining calls are commented out in the source |
| ActiveArrays.Active.Restore | Active.cs:260-263 | The candidate goes back to `U`, its true label and the saved predictions are restored |
| ActiveArrays.Active.VOI | Active.cs:277-282 | The result is `jall` minus the what-if risk minus the swapped query cost, with the state restored |
| ActiveArrays.Active.SelectMax | Active.cs:298-318 | The pick is the first candidate of largest value of information in the listing, or -1 for an empty listing; nothing else changes |
| ActiveArrays.Active.SelectStep | Active.cs:304-318 | One pass keeps the first best candidate seen so far |
| ActiveArrays.Active.Transfer | Active.cs:77-99 | `num == 0` changes nothing; otherwise each class loses `min(num, available)` instances from `U` to `L`, counted by `Moved` |
| ActiveArrays.Active.MoveClasses | Active.cs:83-96 | The class loop: the negative and then the positive class each lose `Moved` instances |
| ActiveArrays.Active.MoveClass | Active.cs:84-95 | `num` passes over one class move `min(num, available)` instances of it and none of the other class |
| ActiveArrays.Active.MoveOne | Active.cs:85-94 | One pass moves the first unlabelled instance of the class in the random order, or nothing if there is none |
| ActiveArrays.Active.MoveTo | Active.cs:89-90 | The instance moves from `U` to `L` and its class count drops by one |
| ActiveArrays.Active.FirstOfClass | Active.cs:87-94 | The first position in the listing whose label is the class, or the end of the listing when there is none |
| ActiveArrays.Active.Round | Active.cs:291-336 | The pick is the first candidate of largest value of information under the predictions of the starting weights, walking `U` in the order `order` (`SelectedRound`). It moves to `L`. The round succeeds exactly when training on the pick succeeds, and then the weights are the trained ones and the round records the pick's new prediction and its label |
| ActiveArrays.Active.Choose | Active.cs:291-318 | The predictions become `Predicted` under the current weights. The pick is the first candidate of largest value of information over `TotalRisk`, walking `U` in the enumeration order `order`. The sets and the weights are unchanged |
| ActiveArrays.Active.Commit | Active.cs:323-330 | The pick moves from `U` to `L`. Success comes exactly when training on it succeeds, and then the weights are the trained ones and the pick's new prediction and label are returned |
| ActiveArrays.SelectedIsBest | Active.cs:298-318 | No candidate has a larger value of information than the selected instance, and every candidate walked before it has a strictly smaller one |
| ActiveArrays.SelectedRoundsAppend | Active.cs:290-336 | Suppose a round selects its pick under the predictions of the weights trained on the earlier picks. Then the record of selected rounds extends by that round, and the weights take one training step on the pick |
| ActiveArrays.Active.Remaining | Active.cs:342-348 | The predictions and labels of the listed instances, in order |
| ActiveArrays.Active.VOITest | Active.cs:286-357 | Picks form a sequence of moves from `U` to `L`. Each pick is its round's value-of-information choice under the weights trained on the earlier picks, in the order `orders` records (`SelectedRounds`). On success there is one pick per round, and the weights are those trained on the picks in turn. The first `|picks|` entries of the result are the online estimates (`OnlineEstimates`): each is the prediction for its round's pick right after training on it. Asking for more rounds than there are unlabelled instances fails |
| ActiveArrays.Active.Rounds | Active.cs:290-340 | All the rounds. The moves are recorded in order, and each pick is its round's value-of-information choice (`SelectedRounds`). The rounds fail with `ImproperMessage` exactly when training on the picks in turn fails, and with `IndexOutOfRange` only once `U` is empty. On success each recorded estimate is its pick's prediction under the weights trained up to that pick (`OnlineEstimates`) |
| ActiveArrays.Active.RoundStep | Active.cs:290-336 | One round extends the picks by one move, `SelectedRounds` by its choice, and the trained weights by one step. On success the estimates grow by exactly the pick's prediction under the new weights, the labels by its label, and `OnlineEstimates` is kept |
| ActiveArrays.OnlineEstimatesAppend | Active.cs:326-329 | A round whose training succeeds with weights `w` extends the online record by its pick's prediction under `w` |
| ActiveArrays.Active.Conclude | Active.cs:342-354 | After the rounds, the remaining instances are appended in an enumeration of `U`; `NullReference` exactly when there were neither rounds nor remaining instances; the result starts with the rounds' estimates |
| ActiveArrays.Active.Finish | Active.cs:342-354 | Fresh predictions, and the remaining instances' predictions and labels appended to the metrics |
| ActiveArrays.Active.Record | Active.cs:332-336 | The metrics become the record so far |
| Risk.UnlabelledIsExpectedLabelled | ActiveLearner.cs:388-404 | The unlabelled term is the labelled term expected under the prediction `p` |
| Risk.TermsNonNegative | ActiveLearner.cs:388-404 | Both terms are non-negative for a non-negative matrix |
| Risk.UnlabelledTermPeak | ActiveLearner.cs:400-404 | The unlabelled term is zero on a certain prediction and largest, `(r10 + r01) / 4`, at `p = 0.5` |
| Risk.MeanRisk | ActiveLearner.cs:416-419 | `JMean` is NaN exactly when both sets are empty |
| Risk.TotalRiskNonNegative | ActiveLearner.cs:395-414 | `JAll` is non-negative for a non-negative matrix and probabilities |
| Risk.LabelledRiskIgnoresOtherLabels | ActiveLearner.cs:388-398 | Changing the label of an instance outside `L` leaves `JL` unchanged |
| Risk.MoveToLabelled | ActiveLearner.cs:395-414 | Moving an instance from `U` to `L` trades its unlabelled term for its labelled term |
| Risk.QueryCostsCompared | ActiveLearner.cs:496-499 | The `Active.cs` cost formula is this one at `1 - p`; the two agree for equal costs and differ otherwise, except at `p = 0.5` |
| Selection.Improve | ActiveLearner.cs:547-562 | One pass of the argmax loop keeps the first best candidate seen, maximising or, when reversed, minimising |
| Selection.ImproveDone | ActiveLearner.cs:537-563 | After all candidates, the loop's position is the first best, `FirstBest` |
| Selection.WhatIfPredictions | ActiveLearner.cs:438-454 | The what-if predictions hold one entry per row |
| Selection.RiskVoisAt | ActiveLearner.cs:537-541 | Entry `i` is the value of information of the `i`-th candidate |
| Selection.WhatIfRiskIgnoresOwnLabel | ActiveLearner.cs:428-489 | The what-if risk does not depend on the candidate's own true label |
| Selection.WhatIfRiskNonNegative | ActiveLearner.cs:421-494 | The what-if risk is non-negative for a non-negative matrix |
| Selection.WhatIfWithoutLearning | ActiveLearner.cs:442-451 | When training fails for both labels, the what-if risk equals `JAll`, and the value of information is minus the query cost |
| Selection.Distances | ActiveLearner.cs:297-299 | One non-negative distance `abs(0.5 - p)` per candidate |
| Selection.CloserIsStrictWeakOrder | Code/ActiveEvidence.cs:181 | Ordering by distance to 0.5 is a strict weak order, as `OrderBy` needs |
| Selection.ShortlistIsClosest | Code/ActiveEvidence.cs:179-183 | The shortlist has `min(10, |U|)` distinct unlabelled instances, ordered by distance with ties in shuffled order, and no instance left out is closer |
| Selection.Gather | Code/ActiveEvidence.cs:120 | The one-resident data set of the listed instances with their labels |
| Selection.Posterior | Code/ActiveEvidence.cs:106-118 | The priors for a reversed learner; otherwise the trained weights, or the priors when training fails |
| Selection.RatioScoreAtLeastOne | Code/ActiveEvidence.cs:165-169 | For evidence sums of the same sign the score is at least one |
| Selection.RatioScoreSymmetric | Code/ActiveEvidence.cs:165-169 | The score is the same with numerator and denominator swapped, for all sums, zero included |
| Selection.RatioScoreByZero | Code/ActiveEvidence.cs:165-169 | A zero denominator gives positive infinity, negative zero or NaN as the numerator is positive, negative or zero. A zero numerator gives negative zero over a negative sum and positive infinity over a positive one |
| Selection.EvidenceFallsBackToPriors | Code/ActiveEvidence.cs:106-143 | A reversed learner's score depends only on the evidence oracle; when training fails for both labels, the score equals the reversed learner's score, which uses the priors |
| Selection.ScoreBeforeIsStrictWeakOrder | Code/ActiveEvidence.cs:192 | Ordering entries by score, NaN first, is a strict weak order |
| Selection.EvidenceEntries | Code/ActiveEvidence.cs:185-190 | One entry per shortlisted candidate, in order, holding its evidence score |
| Selection.ShortlistScores | Code/ActiveEvidence.cs:179-190 | The dictionary has `min(10, |U|)` entries, all unlabelled |
| Selection.FirstByScore | Code/ActiveEvidence.cs:192-194 | The head of the stably sorted entries is the first entry of least score |
| Learners.Learner.constructor | Utils.cs:51-64 | A learner as `CreateLearners` makes it: reversed only when the kind allows, zero-one risk matrix, unit costs, gains of 1/3 |
| Learners.Learner.SetDataSet | ActiveLearner.cs:137-151 | A null data set empties both sets; otherwise nothing is labelled and every index below the longest resident's length is unlabelled, with the `Max()` failures |
| Learners.Learner.UpdateModel | ActiveLearner.cs:211-220 | No data set fails with `NullReference`; an already labelled index fails with `AlreadyLabelled` and changes nothing; otherwise the index moves to the labelled set |
| Learners.Learner.Transfer | ActiveLearner.cs:159-185 | `num == 0` changes nothing; otherwise each class moves `min(num, available)` instances, and the union of the two sets is kept |
| Learners.Learner.MoveOne | ActiveLearner.cs:172-182 | One pass moves the first unlabelled instance of the class in the random order, or nothing |
| Learners.Learner.FirstOfClass | ActiveLearner.cs:174-181 | The first position whose label is the class, or the end |
| Learners.Learner.CalculateProbabilities | ActiveLearner.cs:372-375 | The predictions become `Test` of the resident's rows under the priors |
| Learners.Learner.LearnAs | ActiveLearner.cs:438-454 | The candidate's label is set, and the predictions become the what-if predictions for that label |
| Learners.Learner.JAllJ | ActiveLearner.cs:421-494 | The result is `WhatIfRisk`; the labels are restored and the sets unchanged |
| Learners.Learner.Branch | ActiveLearner.cs:438-458 | One branch's risk is `WhatIfBranch` for the assumed label |
| Learners.Learner.VOI | ActiveLearner.cs:501-506 | The result is `jall` minus the what-if risk minus the query cost, with the labels restored |
| Learners.Learner.RiskArgMax | ActiveLearner.cs:525-567 | The first candidate of largest (smallest when reversed) value of information, with that value; -1 and minus (plus) infinity for no candidates |
| Learners.Learner.RiskLoop | ActiveLearner.cs:537-563 | The loop ends on `FirstBest` of the candidates' values |
| Learners.Learner.RiskStep | ActiveLearner.cs:539-562 | One pass keeps the first best candidate seen so far |
| Learners.Learner.UncertainArgMax | ActiveLearner.cs:290-320 | The first candidate closest to (farthest from, when reversed) 0.5, with its distance; -1 and an infinity for no candidates |
| Learners.Learner.RandomChoice | ActiveLearner.cs:256-260 | The drawn unlabelled instance with value 0; `IndexOutOfRange` exactly when nothing is unlabelled |
| Learners.Learner.GetArgMaxVOI | ActiveLearner.cs:202-205 | Any learner returns an unlabelled instance when there is one; with none, the random and evidence learners fail and the others return -1; the sets and labels are kept |
| Learners.Learner.VOITest | ActiveLearner.cs:570-628 | Any positive number of rounds fails with `AlreadyLabelled` in the first round, with the pick moved; with no rounds, the unlabelled instances' predictions and labels in enumeration order |
| Learners.Learner.EvidenceOf | Code/ActiveEvidence.cs:120-121 | The evidence of the listed instances with their labels |
| Learners.Learner.PosteriorOf | Code/ActiveEvidence.cs:106-118 | The weights after the what-if label: `Posterior` |
| Learners.Learner.EvidenceBranch | Code/ActiveEvidence.cs:104-121 | One half of the score: the evidence under the priors and under the posterior, with the candidate's label set |
| Learners.Learner.ExpectedEvidence | Code/ActiveEvidence.cs:89-170 | The score is `EvidenceScore`, and the labels are restored |
| Learners.Learner.EvidenceArgMax | Code/ActiveEvidence.cs:173-195 | Fresh predictions; `EmptySequence` exactly when nothing is unlabelled; otherwise the first shortlisted entry of least score |
| Learners.Learner.ScoreShortlist | Code/ActiveEvidence.cs:185-190 | The loop fills the dictionary with `EvidenceEntries` |
| Data.DataSet.Wrap | Code/DataLoader.cs:111-115 | A data set holding exactly the given arrays |
| Data.DataSet.NumberOfResidents | Code/DataSet.cs:53 | -1 exactly when there are no features, else the number of resident rows |
| Data.DataSet.NumberOfInstances | Code/DataSet.cs:59-65 | Null exactly when there are no features, else each resident's row length |
| Data.DataSet.NumberOfFeatures | Code/DataSet.cs:71 | -1 with no features; `IndexOutOfRange` exactly when there is no first resident or instance; else the first vector's length |
| Data.DataSet.NumberOfActivities | Code/DataSet.cs:77 | Two activities |
| Data.DataSet.GetResident | Code/DataSet.cs:84-87 | A view of one resident that shares its label array |
| Data.DataSet.GetSubSetList | Code/DataSet.cs:95-109 | A fresh one-resident data set of the listed instances, features and labels in order |
| Data.DataSet.GetSubSetAt | Code/DataSet.cs:95-98 | A fresh data set of the one instance |
| Data.DataSet.GetSubSetOf | Code/DataSet.cs:117-133 | `IndexOutOfRange` exactly when more than one resident and any index is asked for; otherwise the first resident's listed instances |
| Data.DataSet.SplitTrainTest | Code/DataSet.cs:135-146 | `ArgumentOutOfRange` exactly when the proportion is outside [0, 1]; otherwise two fresh data sets holding `Split` |
| Data.TrainCount | Code/DataSet.cs:142 | `ceil(p * len)` lies between 0 and `len` for `p` in [0, 1] |
| Data.Split | Code/DataSet.cs:135-146 | An `ArgumentOutOfRange` failure exactly for a proportion outside [0, 1] |
| Data.SplitPartitions | Code/DataSet.cs:142-145 | Each resident's train part is its first `ceil(p * len)` instances and train followed by test is the whole row |
| Data.SplitKeepsRowsAligned | Code/DataSet.cs:142-145 | Both parts keep feature and label rows of equal length |
| Data.SplitExtremes | Code/DataSet.cs:142-145 | Proportion 0 gives empty train parts, proportion 1 empty test parts |
| Loading.ChosenExactly | Code/DataLoader.cs:91-93 | The chosen columns are exactly the columns the filter keeps |
| Loading.ChosenAscending | Code/DataLoader.cs:91-93 | The chosen columns are in ascending order |
| Loading.ChosenAll | Code/DataLoader.cs:91-93 | Without a filter every column is chosen |
| Loading.ColumnsShape | Code/DataLoader.cs:89-96 | The vector is the chosen columns in order, then 1.0 when a bias is added |
| Loading.PositionIsLast | Code/DataLoader.cs:76-78 | A subject's row is its last position in the subject list |
| Loading.RecordsExactly | Code/DataLoader.cs:85-87 | A row's records are exactly those whose subject maps to the row |
| Loading.RecordsAscending | Code/DataLoader.cs:85-100 | A row's records keep the input order |
| Loading.KeepEverything | Code/DataLoader.cs:104 | A keep proportion of one keeps every record |
| Loading.RowAppend | Code/DataLoader.cs:98-99 | One more record appends its vector and its label to the row |
| Loading.GroupedRow | Code/DataLoader.cs:80-109 | Row `ss` is the first `round(p * count)` of the row's records' vectors and labels |
| Loading.GroupedShape | Code/DataLoader.cs:73-74 | One feature row and one label row per subject |
| Loading.GroupedRows | Code/DataLoader.cs:80-109 | Rows are aligned, hold at most (for `p = 1`, exactly) the row's records, each entry one record's vector and label |
| Loading.GroupedComplete | Code/DataLoader.cs:85-108 | With `p = 1` every record of the subject appears in its row |
| Loading.RepeatedSubjectRowEmpty | Code/DataLoader.cs:76-108 | A subject listed twice leaves its earlier row empty |
| Loading.DataLoader.N | Code/DataLoader.cs:45-51 | The number of records |
| Loading.DataLoader.NumSubjects | Code/DataLoader.cs:53-59 | The number of distinct subject ids: at most the record count, at least one when there are records |
| Loading.DataLoader.NumFeatures | Code/DataLoader.cs:61-67 | `EmptySequence` exactly when there are no records, else the first vector's length |
| Loading.DataLoader.GetDataSet | Code/DataLoader.cs:69-118 | A fresh data set holding `Grouped` |
| Loading.DataLoader.Rows | Code/DataLoader.cs:80-109 | The row loop computes `Grouped`'s rows, aligned |
| Loading.DataLoader.KeptRow | Code/DataLoader.cs:82-108 | One row: the kept features and labels |
| Loading.DataLoader.BuildIndex | Code/DataLoader.cs:76-78 | The dictionary loop computes `Positions` |
| Loading.DataLoader.Row | Code/DataLoader.cs:85-101 | The record loop collects the row's features and labels |
| Loading.DataLoader.Filter | Code/DataLoader.cs:89-96 | The column loop computes `Columns` |
| Scoring.Zip | Code/Metrics.cs:95 | Pairs by position up to the shorter length |
| Scoring.Predictions | Code/Metrics.cs:95 | `ArgumentNull` exactly when either array is null, else the zipped pairs |
| Scoring.BrierOf | Code/Metrics.cs:209 | In [0, 1]; 0 for an exact estimate; at most 1/4 when correct and at least 1/4 when wrong |
| Scoring.Average | Code/Metrics.cs:119 | NaN exactly for no predictions; otherwise the mean times the count is the total, and a mean of unit terms lies in [0, 1] |
| Scoring.AccuracyTotal | Code/Metrics.cs:203 | The accuracy total is the number of correct predictions |
| Scoring.AverageAccuracy | Code/Metrics.cs:119 | Null arrays fail; NaN exactly when either is empty; otherwise in [0, 1] |
| Scoring.AccuracyIsFraction | Code/Metrics.cs:119 | The accuracy is correct predictions over predictions |
| Scoring.BrierScore | Code/Metrics.cs:149 | Null arrays fail; NaN exactly when either is empty; otherwise in [0, 1] |
| Scoring.MeanSquaredError | Code/Metrics.cs:107 | Null arrays fail |
| Scoring.MeanSquaredErrorIsBrierScore | Code/Metrics.cs:107 | The mean squared error equals the Brier score |
| Scoring.EstimatedLabels | Code/Metrics.cs:101 | Null arrays fail; null exactly when either is empty; otherwise the estimates |
| Scoring.Metrics.constructor | Code/Metrics.cs:37-57 | No arrays and no cached values |
| Scoring.Metrics.SetTrueLabels | Code/Metrics.cs:63-73 | Sets the labels, clears both caches; the accuracy is then `AverageAccuracy` |
| Scoring.Metrics.SetEstimates | Code/Metrics.cs:79-89 | Sets the estimates, clears both caches; the accuracy is then `AverageAccuracy` |
| Experiments.RetrainedStep | Experiment.cs:239 | Training on one more pick continues from the weights of the earlier picks |
| Experiments.RetrainedFailureSticks | Experiment.cs:239 | Once a training step fails, no later step succeeds |
| Experiments.ActiveRecordStep | Experiment.cs:218-245 | One more round extends the record of `RunActive` by its move and its metrics |
| Experiments.MovesRounds | Experiment.cs:218-227 | The rounds make `min(n, |U|)` picks |
| Experiments.ActiveStepExtends | Experiment.cs:220-241 | Later picks leave the record of an earlier round unchanged |
| Experiments.OutcomesExtend | Experiment.cs:202-256 | One more resident's outcome extends the outcomes |
| Experiments.OnlineFailure | Experiment.cs:153 | A failed online training step leaves no final weights |
| Experiments.Experiment.constructor | Experiment.cs:43-58 | The models and learners given, nothing recorded |
| Experiments.Experiment.Record | Experiment.cs:241 | A fresh metrics object with the estimates and labels |
| Experiments.Experiment.RunOnline | Experiment.cs:116-173 | Failures are training, missing holdout rows or empty rows; no resident at all fails with `IndexOutOfRange`, as the holdout aggregation reads the first resident's metrics; on success each resident's predictions and weights follow `OnlineRecord` |
| Experiments.Experiment.OnlineResident | Experiment.cs:140-156 | Success exactly when retraining over all instances succeeds, and the record is `OnlineRecord` |
| Experiments.Experiment.OnlineVisit | Experiment.cs:142-155 | One instance: predict it and the holdout set, then train on it |
| Experiments.Experiment.RunActive | Experiment.cs:182-261 | No learners fail with `NoLearners`; with learners, no resident at all fails with `IndexOutOfRange` from the holdout aggregation; each other failure has its cause; on success every resident's rounds follow `ActiveOutcomes` |
| Experiments.Experiment.ActiveResidents | Experiment.cs:202-258 | The resident loop, with the failure causes of `RunActive`, including `IndexOutOfRange` when there is no resident |
| Experiments.Experiment.ActiveTurn | Experiment.cs:204-255 | One resident's turn changes only its own learner and records its outcome |
| Experiments.Experiment.ActiveRounds | Experiment.cs:218-248 | The rounds record nothing exactly when `n == 0` or nothing is unlabelled; otherwise they extend `ActiveOutcomes` |
| Experiments.Experiment.ActiveResident | Experiment.cs:218-245 | `min(n, |U|)` picks and a record that follows `ActiveRecord` |
| Experiments.Experiment.ActiveRound | Experiment.cs:220-244 | One round adds one pick and one metrics object and keeps `ActiveRecord` |
| Experiments.Choose | Experiment.cs:230-237 | The learner's pick is an unlabelled instance and moves to the labelled set |
| Classifier.TestRows | BinaryModel.cs:246-261 | One prediction per row, each the classifier's prediction for that row |
| Classifier.TrainOrPriors | ActiveLearner.cs:442-451 | The trained weights, or the priors when training throws |
| Collections.ClassOfRemove | ActiveLearner.cs:176-179 | Removing an instance of a class lowers that class's count by one and leaves the other |
| Collections.MovedAdd | ActiveLearner.cs:168-184 | `a` passes and then `b` passes move as many as `a + b` passes |
| Collections.FirstBestIsFirstBest | ActiveLearner.cs:557-561 | `FirstBest` is a best position with no equally good earlier one |
| Collections.Take | Code/DataSet.cs:144 | The first `n` elements, all when there are fewer |
| Collections.Skip | Code/DataSet.cs:145 | What `Take(n)` leaves, so the two concatenate to the whole |
| Sorting.SortBySorted | Code/ActiveEvidence.cs:192 | The result of `OrderBy` is sorted |
| Sorting.SortByStable | Code/ActiveEvidence.cs:179-183 | Take a sequence without repeats. In the result of `OrderBy`, two elements neither of which sorts before the other keep their input order |
| Sorting.InsertPermutes | Code/ActiveEvidence.cs:192 | The insertion step of `OrderBy` adds the new element and loses nothing |
| Sorting.InsertPosBetween | Code/ActiveEvidence.cs:192 | The insertion step puts the new element after every element it does not sort strictly before, and in front of the first one it does |
| Sorting.SortByHead | Code/ActiveEvidence.cs:192-194 | The head of the sorted sequence is the first least element |
| Numerics.Ceiling | Code/DataSet.cs:142 | The least integer at least `x` |
| Numerics.RoundHalfEven | Code/DataLoader.cs:104 | The integer within one half of `x`; a tie goes to the even neighbour |

## Left out

- Double arithmetic is modelled as exact reals. Only the evidence-ratio
  score and the metrics keep infinities and NaN, as a `Double` datatype.
- The Bayesian classifier's `Train`, `Test` and `ComputeEvidence`
  (`BinaryModel.cs`) are an oracle `Classifier` with `train`, `predict`
  and `evidence` functions. Infer.NET inference is not part of this
  model. A failed `Train` stands for the `ImproperMessageException` it
  throws.
- Random draws, shuffles and `HashSet` enumeration orders are parameters
  (`Environment`, `order` arguments) that range over every admissible
  choice. `Random` itself is not modelled.
- The ActiveEvidence.cs copy at the repository root behaves like
  `Code/ActiveEvidence.cs`. It differs only in layout and in an unused
  read of the candidate's prediction, which cannot fail for an
  unlabelled candidate. Only the latter is modelled.
- ActiveArrays.Active.constructor: requires at least one label row and a
  first resident with one feature row per label. The C# constructor
  checks no feature shape, so a mismatch would surface later as an
  `IndexOutOfRange`. It also throws `IndexOutOfRange` for an empty label
  array. The model covers neither case.
- Selection.RatioScore: the evidence sums are reals, so a sum that is
  itself a negative zero is read as zero.
- The DataLoader.cs copy at the repository root behaves like
  `Code/DataLoader.cs`, apart from an unused random order. Only the latter
  is modelled.
- Only label row 0 of the learners' data sets is modelled, because every
  learner reads only that row.
- `Active.cs` `asdf` and `asdfasdf`: debugging drivers that are never
  called from the experiments.
- `Metrics.SumLogProbOfTruth`: the log-probability needs `Math.Log`, which
  has no counterpart over the reals here.
- The cumulative metrics and `PrintSummary`: console output only.
- `Metrics.Name`: a label used only for printing.
- `MetricsCollection`, `HoldoutMetricsCollection`, `Metrics.Add`,
  `RecomputeAggregateMetrics`, the console averages and `CodeTimer`: the
  averages they compute are not modelled, because they are only printed;
  each round's metrics object is kept as a sequence instead. The one way
  the holdout aggregation ends an experiment is modelled: with no
  resident it reads the first resident's metrics and fails with
  `IndexOutOfRange`. The column averages themselves come from a library
  that is not part of this model.
- `HoldoutPosteriorActivities`: not modelled, because no modelled
  operation reads it back.
- `Experiment.RunBatch`: it trains once on all data, with no selection.
- Experiments.Experiment.RunActive: requires distinct learners whose data
  sets are ready (`Prepared`). The C# code can alias one learner for two
  residents, and that aliasing is not modelled.
- Loading.DataLoader.GetDataSet: requires the three record lists to be
  aligned (`Valid`); misaligned lists would throw in the C# code.
- Loading.DataLoader.GetDataSet: `Convert.ToInt32` overflow for a keep
  proportion beyond the 32-bit range is not modelled.
- ActiveArrays.Active.VOITest: when a round finds nothing unlabelled, the
  model fails with `IndexOutOfRange` without recording the -1 it selects
  in `L`. The C# code adds -1 to the `HashSet` `L` before it throws.
- Risk.UnlabelledTermPeak: states that the peak at `p = 0.5` is a
  maximum. That it is the only maximum when `r10 + r01 > 0` is not
  stated.
- Data.DataSet.GetResident: requires an in-range resident index. The C#
  code throws for an index out of range.
- Data.DataSet.GetSubSetList: requires in-range resident and instance
  indices; the C# code throws otherwise.
- Data.DataSet.GetSubSetAt: requires in-range resident and instance
  indices; the C# code throws otherwise.
- Active.cs `Cj` weights the costs the other way round from
  `ActiveLearner.cs`. Each learner is modelled with its own formula, and
  `Risk.QueryCostsCompared` relates the two.
- `CreateLearners` beyond a single learner: the loop over residents is the
  constructor applied to each resident's view.
