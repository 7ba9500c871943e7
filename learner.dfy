/** The active learners of ActiveLearner.cs and ActiveEvidence.cs.

    Every learner keeps a data set of one resident and splits that
    resident's instances into a labelled and an unlabelled set. The four
    subclasses of `ActiveLearnerBase` share that state and differ only in
    how `GetArgMaxVOI` picks the next instance to label, so they are one
    class here, told apart by `kind`:

    - `RandomPick` (`RandomLearner`) draws an unlabelled instance;
    - `Uncertain` (`UncertainActiveLearner`) takes the prediction closest
      to 0.5, or the farthest when reversed;
    - `ExpectedRisk` (`ActiveLearner`) maximises the value of information
      of the risk objective in `Risk`, or minimises it when reversed;
    - `EvidenceRatio` (`ActiveEvidence`) shortlists the ten predictions
      closest to 0.5 and takes the one whose evidence score is lowest.

    A `HashSet` is enumerated in an order the program does not fix, and
    the learners shuffle and draw with a random number generator; those
    orders and draws are parameters that only have to enumerate the right
    set. */
module Learners {
  import opened Numerics
  import opened Outcomes
  import opened Collections
  import opened Sorting
  import opened Classifier
  import opened Risk
  import opened Data
  import opened Selection

  /** The subclass of `ActiveLearnerBase` a learner is. */
  datatype Kind = RandomPick | Uncertain | ExpectedRisk | EvidenceRatio

  /** The choices the program leaves to the runtime and to its random
      number generators, for one call of `GetArgMaxVOI`: the order the
      unlabelled `HashSet` is enumerated in, the position `Random.Next`
      draws, the order of the evidence learner's shuffle, and the order
      `labelled.ToList()` lists the labelled set with candidate `k` added. */
  datatype Environment = Environment(order: seq<int>, draw: int, shuffled: seq<int>, orderOf: int -> seq<int>)

  class Learner {
    const kind: Kind
    /** `Reversed`: select the least informative instance instead. */
    var reversed: bool
    /** `DataSet`; the two index sets are null exactly when it is null,
        and are then kept empty here. */
    var dataSet: DataSet?
    var labelled: set<int>
    var unlabelled: set<int>
    /** `hypothesisActivityPosteriors`: the latest predictions, by instance. */
    var hypothesis: seq<real>
    /** `TrainModel`, `TestModel` and `EvidenceModel`. */
    var classifier: Classifier
    /** `RiskMatrix`, `Costs` and `Gains` of an `ActiveLearner`. */
    var risk: RiskMatrix
    var costs: seq<real>
    var gains: seq<real>

    /** The labelled and the unlabelled set never share an index. */
    predicate Valid()
      reads this
    {
      labelled !! unlabelled &&
      (dataSet == null ==> labelled == {} && unlabelled == {})
    }

    /** A learner with a data set whose first resident every index of
        either set refers to. */
    predicate Ready()
      reads this, dataSet
    {
      Valid() && dataSet != null && dataSet.Valid() && |dataSet.labels| > 0 &&
      (forall k :: k in labelled ==> 0 <= k < dataSet.labels[0].Length) &&
      (forall k :: k in unlabelled ==> 0 <= k < dataSet.labels[0].Length)
    }

    /** Everything but the two index sets and the predictions. */
    function Settings(): (Kind, bool, DataSet?, Classifier, RiskMatrix, seq<real>, seq<real>)
      reads this
    {
      (kind, reversed, dataSet, classifier, risk, costs, gains)
    }

    /** `DataSet.Features[0]`. */
    function Rows(): (rows: seq<Vector>)
      reads this, dataSet
      requires Ready()
      ensures |rows| == dataSet.labels[0].Length
    {
      dataSet.features.value[0]
    }

    /** `DataSet.Labels[0]`, as a value. */
    function Truths(): (truths: seq<bool>)
      reads this, dataSet, dataSet.labels
      requires Ready()
      ensures truths == dataSet.labels[0][..]
    {
      dataSet.labels[0][..]
    }

    /** A learner as `CreateLearners` makes it, before its data set is
        assigned: reversed only if the kind can be, with the risk matrix
        {{0, 1}, {1, 0}}, unit costs and gains of one third. */
    constructor (kind: Kind, reverse: bool, classifier: Classifier)
      ensures this.kind == kind && this.classifier == classifier
      ensures reversed == (reverse && kind != RandomPick)
      ensures dataSet == null && labelled == {} && unlabelled == {} && hypothesis == []
      ensures risk == ZeroOne && costs == [1.0, 1.0] && gains == [1.0 / 3.0, 1.0 / 3.0]
      ensures Valid()
    {
      this.kind := kind;
      this.classifier := classifier;
      reversed := reverse && kind != RandomPick;
      dataSet := null;
      labelled := {};
      unlabelled := {};
      hypothesis := [];
      risk := ZeroOne;
      costs := [1.0, 1.0];
      gains := [1.0 / 3.0, 1.0 / 3.0];
    }

    /** The `DataSet` setter. A null data set nulls both sets. Otherwise
        nothing is labelled and every instance index of the longest
        resident is unlabelled; `Max()` throws when there are no residents
        (after the labelled set was already reset) and when the feature
        array is null. */
    method SetDataSet(ds: DataSet?) returns (s: Status)
      modifies this
      ensures dataSet == ds
      ensures reversed == old(reversed) && classifier == old(classifier)
      ensures risk == old(risk) && costs == old(costs) && gains == old(gains) && hypothesis == old(hypothesis)
      ensures ds == null ==> s == Success && labelled == {} && unlabelled == {}
      ensures ds != null ==> labelled == {}
      ensures ds != null && ds.features.None? ==> s == Failed(ArgumentNull) && unlabelled == old(unlabelled)
      ensures ds != null && ds.features == Some([]) ==> s == Failed(EmptySequence) && unlabelled == old(unlabelled)
      ensures ds != null && ds.features.Some? && ds.features.value != [] ==>
        s == Success &&
        forall k :: k in unlabelled <==>
          exists r :: 0 <= r < |ds.features.value| && 0 <= k < |ds.features.value[r]|
    {
      dataSet := ds;
      if ds == null {
        labelled := {};
        unlabelled := {};
        return Success;
      }
      labelled := {};
      var counts := ds.NumberOfInstances();
      match counts
      case None =>
        return Failed(ArgumentNull);
      case Some(cs) =>
        if cs == [] {
          return Failed(EmptySequence);
        }
        var longest := MaxOf(cs);
        unlabelled := Range(longest);
        forall k | k in unlabelled
          ensures exists r :: 0 <= r < |ds.features.value| && 0 <= k < |ds.features.value[r]|
        {
          var r :| 0 <= r < |cs| && cs[r] == longest;
          assert 0 <= k < |ds.features.value[r]|;
        }
        return Success;
    }

    /** `UpdateModel(index)`: an index that is already labelled is
        refused; any other index becomes labelled and stops being
        unlabelled. With no data set the sets are null. */
    method UpdateModel(index: int) returns (s: Status)
      modifies this
      requires Valid()
      ensures Valid()
      ensures Settings() == old(Settings()) && hypothesis == old(hypothesis)
      ensures dataSet == null ==> s == Failed(NullReference) && labelled == old(labelled) && unlabelled == old(unlabelled)
      ensures dataSet != null && index in old(labelled) ==>
        s == Failed(AlreadyLabelled) && labelled == old(labelled) && unlabelled == old(unlabelled)
      ensures dataSet != null && index !in old(labelled) ==>
        s == Success && labelled == old(labelled) + {index} && unlabelled == old(unlabelled) - {index}
      ensures old(Ready()) && index in old(unlabelled) ==> Ready()
    {
      if dataSet == null {
        return Failed(NullReference);
      }
      if index in labelled {
        return Failed(AlreadyLabelled);
      }
      unlabelled := unlabelled - {index};
      labelled := labelled + {index};
      return Success;
    }

    /** `Transfer(resident, num)`: for the negative and then the positive
        class, `num` times, walks the unlabelled set in a random order and
        moves the first instance of that class it meets to the labelled
        set. Of each class it moves as many as there are, up to `num`.
        The resident argument is not used. */
    method Transfer(resident: int, num: int)
      modifies this
      requires Ready()
      ensures Ready()
      ensures Settings() == old(Settings()) && hypothesis == old(hypothesis)
      ensures Truths() == old(Truths())
      ensures num == 0 ==> labelled == old(labelled) && unlabelled == old(unlabelled)
      ensures labelled + unlabelled == old(labelled) + old(unlabelled)
      ensures old(labelled) <= labelled && unlabelled <= old(unlabelled)
      ensures |ClassOf(unlabelled, Truths(), false)| ==
        |ClassOf(old(unlabelled), Truths(), false)| - Moved(|ClassOf(old(unlabelled), Truths(), false)|, num)
      ensures |ClassOf(unlabelled, Truths(), true)| ==
        |ClassOf(old(unlabelled), Truths(), true)| - Moved(|ClassOf(old(unlabelled), Truths(), true)|, num)
    {
      if num == 0 {
        return;
      }
      ghost var truths := Truths();
      ghost var start := unlabelled;
      for tt := 0 to 2
        invariant Ready() && Settings() == old(Settings()) && hypothesis == old(hypothesis)
        invariant Truths() == truths
        invariant labelled + unlabelled == old(labelled) + old(unlabelled)
        invariant old(labelled) <= labelled && unlabelled <= start
        invariant tt == 0 ==> unlabelled == start
        invariant tt >= 1 ==> (|ClassOf(unlabelled, truths, false)| ==
          |ClassOf(start, truths, false)| - Moved(|ClassOf(start, truths, false)|, num))
        invariant tt <= 1 ==> ClassOf(unlabelled, truths, true) == ClassOf(start, truths, true)
        invariant tt == 2 ==> (|ClassOf(unlabelled, truths, true)| ==
          |ClassOf(start, truths, true)| - Moved(|ClassOf(start, truths, true)|, num))
      {
        var c := tt != 0;
        ghost var before := unlabelled;
        var nn := 0;
        while nn < num
          invariant 0 <= nn && (num >= 0 ==> nn <= num) && (num < 0 ==> nn == 0)
          invariant Ready() && Settings() == old(Settings()) && hypothesis == old(hypothesis)
          invariant Truths() == truths
          invariant labelled + unlabelled == old(labelled) + old(unlabelled)
          invariant old(labelled) <= labelled && unlabelled <= before
          invariant ClassOf(unlabelled, truths, !c) == ClassOf(before, truths, !c)
          invariant |ClassOf(unlabelled, truths, c)| ==
            |ClassOf(before, truths, c)| - Moved(|ClassOf(before, truths, c)|, nn)
        {
          MoveOne(c, truths);
          nn := nn + 1;
        }
      }
    }

    /** One pass of `Transfer`'s innermost loop: `foreach` over the
        unlabelled set in a random order, moving the first instance of
        class `c` and stopping there. */
    method MoveOne(c: bool, ghost truths: seq<bool>)
      modifies this
      requires Ready() && Truths() == truths
      ensures Ready() && Settings() == old(Settings()) && hypothesis == old(hypothesis)
      ensures Truths() == truths
      ensures labelled + unlabelled == old(labelled) + old(unlabelled)
      ensures old(labelled) <= labelled && unlabelled <= old(unlabelled)
      ensures ClassOf(unlabelled, truths, !c) == ClassOf(old(unlabelled), truths, !c)
      ensures |ClassOf(unlabelled, truths, c)| ==
        |ClassOf(old(unlabelled), truths, c)| - Moved(|ClassOf(old(unlabelled), truths, c)|, 1)
    {
      ghost var w := Ascending(unlabelled);
      var order: seq<int> :| IsEnumeration(order, unlabelled);
      var i := FirstOfClass(order, c);
      if i < |order| {
        var ind := order[i];
        ClassOfRemove(unlabelled, truths, c, ind);
        unlabelled := unlabelled - {ind};
        labelled := labelled + {ind};
      } else {
        forall x | x in unlabelled
          ensures truths[x] != c
        {
          var k :| 0 <= k < |order| && order[k] == x;
        }
        assert ClassOf(unlabelled, truths, c) == {};
      }
    }

    /** The position in `order` of the first instance labelled `c`, or
        `|order|` when there is none. */
    method FirstOfClass(order: seq<int>, c: bool) returns (i: int)
      requires Ready() && IsEnumeration(order, unlabelled)
      ensures 0 <= i <= |order|
      ensures i < |order| ==> Truths()[order[i]] == c
      ensures forall k :: 0 <= k < i ==> Truths()[order[k]] != c
    {
      i := 0;
      while i < |order|
        invariant 0 <= i <= |order|
        invariant forall k :: 0 <= k < i ==> Truths()[order[k]] != c
      {
        if dataSet.labels[0][order[i]] == c {
          return;
        }
        i := i + 1;
      }
    }

    /** `JAll()`: the total risk over the two sets under the current
        predictions. */
    function JAll(): real
      reads this, dataSet, dataSet.labels
      requires Ready()
    {
      TotalRisk(risk, Truths(), hypothesis, labelled, unlabelled)
    }

    /** `CalculateProbabilities(priors)`: the predictions for the
        resident's rows under `priors`. */
    method CalculateProbabilities(priors: Marginals)
      modifies this
      requires Ready()
      ensures Ready() && Settings() == old(Settings())
      ensures labelled == old(labelled) && unlabelled == old(unlabelled)
      ensures hypothesis == TestRows(classifier, Rows(), priors)
      ensures |hypothesis| == |Truths()|
    {
      hypothesis := TestRows(classifier, Rows(), priors);
    }

    /** One what-if branch of `JAll_j`: the candidate's label is set to
        `truth`, the classifier trained on `GetSubSet(0, index)`, and the
        predictions recomputed. */
    method LearnAs(index: int, truth: bool, priors: Marginals, ghost truths: seq<bool>)
      modifies this, dataSet.labels[0]
      requires Ready() && 0 <= index < dataSet.labels[0].Length && Truths() == truths
      ensures Ready() && Settings() == old(Settings())
      ensures labelled == old(labelled) && unlabelled == old(unlabelled)
      ensures Truths() == truths[index := truth]
      ensures hypothesis == WhatIfPredictions(classifier, Rows(), index, truth, priors)
    {
      dataSet.labels[0][index] := truth;
      var datum := dataSet.GetSubSetAt(0, index);
      assert datum.LabelRows() == [[truth]];
      var posteriors := TrainOrPriors(classifier, Table(datum.features.value, datum.LabelRows()), priors, 1);
      CalculateProbabilities(posteriors);
    }

    /** `JAll_j(index, activityPosteriors, priors)`: the what-if risk of
        the candidate. The label is written and put back; the two sets are
        only copied; the predictions are left as the negative branch
        computed them. */
    method JAllJ(index: int, activityPosteriors: seq<Prob>, priors: Marginals) returns (v: real)
      modifies this, dataSet.labels[0]
      requires Ready() && 0 <= index < dataSet.labels[0].Length
      ensures Ready() && Settings() == old(Settings())
      ensures labelled == old(labelled) && unlabelled == old(unlabelled)
      ensures Truths() == old(Truths())
      ensures v == WhatIfRisk(classifier, risk, Rows(), Truths(), labelled, unlabelled, index, priors)
      ensures hypothesis == WhatIfPredictions(classifier, Rows(), index, false, priors)
    {
      hypothesis := activityPosteriors;
      ghost var truths, rows := Truths(), Rows();
      ghost var c, R, lab, unl := classifier, risk, labelled, unlabelled;
      var trueLabel := dataSet.labels[0][index];
      var positive := Branch(index, true, priors, truths, rows, c, R, lab, unl);
      var negative := Branch(index, false, priors, truths, rows, c, R, lab, unl);
      dataSet.labels[0][index] := trueLabel;
      assert Truths() == truths;
      v := positive + negative;
    }

    /** One weighted branch of `JAll_j`: the risk after learning the
        candidate as `truth`, times the new probability of the other
        answer. The ghost parameters name the learner's values when
        `JAll_j` began; the candidate's own label may already have been
        overwritten. */
    method Branch(index: int, truth: bool, priors: Marginals, ghost truths: seq<bool>, ghost rows: seq<Vector>,
                  ghost c: Classifier, ghost R: RiskMatrix, ghost lab: set<int>, ghost unl: set<int>) returns (r: real)
      modifies this, dataSet.labels[0]
      requires Ready() && 0 <= index < dataSet.labels[0].Length && Rows() == rows && |truths| == |rows|
      requires Truths() == truths || Truths() == truths[index := true]
      requires classifier == c && risk == R && labelled == lab && unlabelled == unl
      ensures Ready() && Settings() == old(Settings()) && Rows() == rows
      ensures labelled == old(labelled) && unlabelled == old(unlabelled)
      ensures Truths() == truths[index := truth]
      ensures hypothesis == WhatIfPredictions(c, rows, index, truth, priors)
      ensures r == WhatIfBranch(c, R, rows, truths, lab, unl, index, truth, priors)
    {
      ghost var current := Truths();
      assert current[index := truth] == truths[index := truth];
      LearnAs(index, truth, priors, current);
      r := JAll() * (if truth then 1.0 - hypothesis[index] else hypothesis[index]);
    }

    /** `VOI(jall, index, ...)`: the expected drop from `jall` to the
        what-if risk, less the query cost at the passed-in prediction. */
    method VOI(jall: real, index: int, activityPosteriors: seq<Prob>, priors: Marginals) returns (v: real)
      modifies this, dataSet.labels[0]
      requires Ready() && 0 <= index < dataSet.labels[0].Length && index < |activityPosteriors| && |costs| >= 2
      ensures Ready() && Settings() == old(Settings())
      ensures labelled == old(labelled) && unlabelled == old(unlabelled)
      ensures Truths() == old(Truths())
      ensures v == Voi(jall, WhatIfRisk(classifier, risk, Rows(), Truths(), labelled, unlabelled, index, priors),
                       QueryCost(costs, activityPosteriors[index]))
      ensures hypothesis == WhatIfPredictions(classifier, Rows(), index, false, priors)
    {
      var prob := activityPosteriors[index];
      var jj := JAllJ(index, activityPosteriors, priors);
      v := (jall - jj) - QueryCost(costs, prob);
    }

    /** `ActiveLearner.GetArgMaxVOI`: the unlabelled instance of largest
        value of information (smallest when reversed), the first in
        enumeration order among equals; -1 and the starting bound when
        nothing is unlabelled. */
    method RiskArgMax(activityPosteriors: seq<Prob>, priors: Marginals, order: seq<int>) returns (argMax: int, maxVal: Double)
      modifies this, dataSet.labels[0]
      requires Ready() && |costs| >= 2 && IsEnumeration(order, unlabelled)
      requires forall k :: k in labelled ==> k < |activityPosteriors|
      requires forall k :: k in unlabelled ==> k < |activityPosteriors|
      ensures Ready() && Settings() == old(Settings())
      ensures labelled == old(labelled) && unlabelled == old(unlabelled)
      ensures Truths() == old(Truths())
      ensures order == [] ==> argMax == -1 && maxVal == (if reversed then PositiveInfinity else NegativeInfinity)
      ensures order == [] ==> hypothesis == activityPosteriors
      ensures order != [] ==>
        var vois := RiskVois(classifier, risk, costs, Rows(), Truths(), labelled, unlabelled, activityPosteriors, priors, order,
                             TotalRisk(risk, Truths(), activityPosteriors, labelled, unlabelled));
        var k := FirstBest(vois, reversed);
        IsFirstBest(vois, k, reversed) && argMax == order[k] && maxVal == Finite(vois[k]) && argMax in unlabelled
    {
      hypothesis := activityPosteriors;
      var jall := JAll();
      ghost var vois := RiskVois(classifier, risk, costs, Rows(), Truths(), labelled, unlabelled, activityPosteriors, priors, order, jall);
      ghost var best;
      argMax, maxVal, best := RiskLoop(jall, activityPosteriors, priors, order, vois);
      if order != [] {
        ImproveDone(vois, best, reversed);
      }
    }

    /** The loop of `ActiveLearner.GetArgMaxVOI` over the candidates
        `order`, whose values of information are `vois`. */
    method RiskLoop(jall: real, activityPosteriors: seq<Prob>, priors: Marginals, order: seq<int>, ghost vois: seq<real>)
      returns (argMax: int, maxVal: Double, ghost best: int)
      modifies this, dataSet.labels[0]
      requires Ready() && |costs| >= 2 && InRange(order, dataSet.labels[0].Length) && InRange(order, |activityPosteriors|)
      requires vois == RiskVois(classifier, risk, costs, Rows(), Truths(), labelled, unlabelled, activityPosteriors, priors, order, jall)
      ensures Ready() && Settings() == old(Settings())
      ensures labelled == old(labelled) && unlabelled == old(unlabelled)
      ensures Rows() == old(Rows()) && Truths() == old(Truths())
      ensures order == [] ==> argMax == -1 && maxVal == (if reversed then PositiveInfinity else NegativeInfinity)
      ensures order == [] ==> hypothesis == old(hypothesis)
      ensures order != [] ==> Leads(vois, order, |order|, best, reversed, argMax, maxVal)
    {
      argMax := -1;
      maxVal := if reversed then PositiveInfinity else NegativeInfinity;
      ghost var c, R, cs, rows, truths, lab, unl := classifier, risk, costs, Rows(), Truths(), labelled, unlabelled;
      var minimise := reversed;
      best := 0;
      for i := 0 to |order|
        invariant Ready() && Settings() == old(Settings()) && |vois| == |order|
        invariant classifier == c && risk == R && costs == cs && Rows() == rows && Truths() == truths
        invariant labelled == lab && unlabelled == unl
        invariant i == 0 ==> argMax == -1 && maxVal == (if reversed then PositiveInfinity else NegativeInfinity)
        invariant i == 0 ==> hypothesis == old(hypothesis)
        invariant minimise == reversed
        invariant i > 0 ==> Leads(vois, order, i, best, minimise, argMax, maxVal)
      {
        argMax, maxVal, best := RiskStep(jall, i, order, activityPosteriors, priors, vois, minimise, argMax, maxVal, best,
                                         c, R, cs, rows, truths, lab, unl);
      }
    }

    /** One pass of the loop of `GetArgMaxVOI`: the value of information
        of `order[i]`, kept when it beats the best so far. */
    method RiskStep(jall: real, i: int, order: seq<int>, activityPosteriors: seq<Prob>, priors: Marginals,
                    ghost vois: seq<real>, minimise: bool, argMax: int, maxVal: Double, ghost best: int,
                    ghost c: Classifier, ghost R: RiskMatrix, ghost cs: seq<real>, ghost rows: seq<Vector>, ghost truths: seq<bool>,
                    ghost lab: set<int>, ghost unl: set<int>)
      returns (argMax': int, maxVal': Double, ghost best': int)
      modifies this, dataSet.labels[0]
      requires Ready() && |cs| >= 2 && 0 <= i < |order| == |vois| && |rows| == |truths|
      requires classifier == c && risk == R && costs == cs && Rows() == rows && Truths() == truths
      requires labelled == lab && unlabelled == unl
      requires InRange(order, |rows|) && InRange(order, |activityPosteriors|)
      requires vois == RiskVois(c, R, cs, rows, truths, lab, unl, activityPosteriors, priors, order, jall)
      requires i == 0 ==> maxVal == (if minimise then PositiveInfinity else NegativeInfinity)
      requires i > 0 ==> Leads(vois, order, i, best, minimise, argMax, maxVal)
      ensures Ready() && Settings() == old(Settings())
      ensures classifier == c && risk == R && costs == cs && Rows() == rows && Truths() == truths
      ensures labelled == lab && unlabelled == unl
      ensures Leads(vois, order, i + 1, best', minimise, argMax', maxVal')
      ensures hypothesis == WhatIfPredictions(c, rows, order[i], false, priors)
    {
      var v := VOI(jall, order[i], activityPosteriors, priors);
      RiskVoisAt(c, R, cs, rows, truths, lab, unl, activityPosteriors, priors, order, jall, i);
      argMax', maxVal', best' := Improve(vois, order, i, v, i == 0, minimise, argMax, maxVal, best);
    }

    /** `UncertainActiveLearner.GetArgMaxVOI`: the unlabelled instance
        whose prediction is closest to 0.5 (farthest when reversed), the
        first in enumeration order among equals, with that distance; -1
        and the starting bound when nothing is unlabelled. */
    method UncertainArgMax(activityPosteriors: seq<Prob>, order: seq<int>) returns (argMax: int, maxVal: Double)
      requires Ready() && IsEnumeration(order, unlabelled)
      requires forall k :: k in unlabelled ==> k < |activityPosteriors|
      ensures order == [] ==> argMax == -1 && maxVal == (if reversed then NegativeInfinity else PositiveInfinity)
      ensures order != [] ==>
        var d := Distances(activityPosteriors, order);
        var k := FirstBest(d, !reversed);
        IsFirstBest(d, k, !reversed) && argMax == order[k] && maxVal == Finite(d[k]) && argMax in unlabelled
    {
      argMax := -1;
      var isSet := false;
      maxVal := if reversed then NegativeInfinity else PositiveInfinity;
      ghost var d := Distances(activityPosteriors, order);
      ghost var best := 0;
      for i := 0 to |order|
        invariant isSet <==> i > 0
        invariant i == 0 ==> argMax == -1 && maxVal == (if reversed then NegativeInfinity else PositiveInfinity)
        invariant i > 0 ==> Leads(d, order, i, best, !reversed, argMax, maxVal)
      {
        var index := order[i];
        var p: real := activityPosteriors[index];
        var diff := Abs(0.5 - p);
        argMax, maxVal, best := Improve(d, order, i, diff, !isSet, !reversed, argMax, maxVal, best);
        isSet := true;
      }
      if order != [] {
        ImproveDone(d, best, !reversed);
      }
    }

    /** `EvidenceModel.ComputeEvidence(DataSet.GetSubSet(0, order), m)`:
        the evidence of the listed instances under the weights `m`. */
    method EvidenceOf(order: seq<int>, m: Marginals) returns (e: Evidence)
      requires Ready() && InRange(order, dataSet.labels[0].Length)
      ensures e == classifier.evidence(Gather(Rows(), Truths(), order), m)
    {
      var data := dataSet.GetSubSetList(0, order);
      var table := Table(data.features.value, data.LabelRows());
      ghost var g := Gather(Rows(), Truths(), order);
      assert table.features[0] == g.features[0];
      assert table.labels[0] == g.labels[0];
      assert |table.features| == 1 && |table.labels| == 1;
      assert table.features == g.features && table.labels == g.labels;
      e := classifier.evidence(table, m);
    }

    /** One what-if branch of `ExpectedEvidence`: with the candidate's
        label already set, the priors when reversed, else one training
        iteration on `GetSubSet(0, index)`, falling back to the priors. */
    method PosteriorOf(index: int, priors: Marginals) returns (m: Marginals)
      requires Ready() && 0 <= index < dataSet.labels[0].Length
      ensures m == Posterior(classifier, reversed, Rows(), index, Truths()[index], priors)
    {
      m := priors;
      if !reversed {
        var datum := dataSet.GetSubSetAt(0, index);
        assert datum.LabelRows() == [[Truths()[index]]];
        m := TrainOrPriors(classifier, Table(datum.features.value, datum.LabelRows()), priors, 1);
      }
    }

    /** One half of `ExpectedEvidence`: the candidate's label is set to
        `truth`, and the evidence of the listed instances is taken under
        the priors and under that branch's posteriors. */
    method EvidenceBranch(index: int, truth: bool, priors: Marginals, order: seq<int>, ghost truths: seq<bool>,
                          ghost c: Classifier, ghost rev: bool, ghost rows: seq<Vector>)
      returns (prior: Evidence, posterior: Evidence)
      modifies dataSet.labels[0]
      requires Ready() && 0 <= index < dataSet.labels[0].Length
      requires classifier == c && reversed == rev && Rows() == rows && |truths| == |rows|
      requires Truths() == truths || Truths() == truths[index := true]
      requires InRange(order, dataSet.labels[0].Length)
      ensures Truths() == truths[index := truth]
      ensures prior == c.evidence(Gather(rows, truths[index := truth], order), priors)
      ensures posterior == c.evidence(Gather(rows, truths[index := truth], order), Posterior(c, rev, rows, index, truth, priors))
    {
      ghost var current := Truths();
      dataSet.labels[0][index] := truth;
      assert Truths() == current[index := truth] == truths[index := truth];
      var posteriors := PosteriorOf(index, priors);
      prior := EvidenceOf(order, priors);
      posterior := EvidenceOf(order, posteriors);
    }

    /** `ActiveEvidence.ExpectedEvidence(index, priors)`. The candidate's
        label is written twice and put back; the labelled set is only
        copied, with the candidate added, and `order` is the order that
        copy is listed in. Of the three ratios built, only the last one is
        returned, so the first two are not computed here. */
    method ExpectedEvidence(index: int, priors: Marginals, order: seq<int>) returns (score: Double)
      modifies dataSet.labels[0]
      requires Ready() && 0 <= index < dataSet.labels[0].Length
      requires IsEnumeration(order, labelled + {index})
      ensures Truths() == old(Truths())
      ensures score == EvidenceScore(classifier, reversed, Rows(), Truths(), index, order, priors)
    {
      ghost var truths, c, rev, rows := Truths(), classifier, reversed, Rows();
      assert InRange(order, dataSet.labels[0].Length);
      var trueLabel := dataSet.labels[0][index];
      var positivePrior, positivePosterior := EvidenceBranch(index, true, priors, order, truths, c, rev, rows);
      var negativePrior, negativePosterior := EvidenceBranch(index, false, priors, order, truths, c, rev, rows);
      dataSet.labels[0][index] := trueLabel;
      assert Truths() == truths;
      score := RatioScore(positivePrior.logOdds + positivePosterior.logProbTrue,
                          negativePrior.logOdds + negativePosterior.logProbTrue);
      assert score == EvidenceScore(c, rev, rows, truths, index, order, priors);
    }

    /** `ActiveEvidence.GetArgMaxVOI`: recomputes the predictions from
        the priors (the passed-in ones are not used), shortlists the ten
        unlabelled instances closest to 0.5 in the shuffled order
        `shuffled`, scores each, and returns the entry of lowest score, the
        earliest in the shortlist among equals. `orderOf(k)` is the order
        the labelled set with `k` added is listed in. `First()` on the
        empty dictionary throws when nothing is unlabelled. */
    method EvidenceArgMax(priors: Marginals, shuffled: seq<int>, orderOf: int -> seq<int>) returns (r: Result<(int, Double)>)
      modifies this, dataSet.labels[0]
      requires Ready() && IsEnumeration(shuffled, unlabelled)
      requires forall k :: k in unlabelled ==> IsEnumeration(orderOf(k), labelled + {k})
      ensures Ready() && Settings() == old(Settings())
      ensures labelled == old(labelled) && unlabelled == old(unlabelled)
      ensures Truths() == old(Truths())
      ensures hypothesis == TestRows(classifier, Rows(), priors)
      ensures r.Err? <==> unlabelled == {}
      ensures r.Err? ==> r.failure == EmptySequence
      ensures r.Ok? ==>
        var entries := ShortlistScores(classifier, reversed, Rows(), Truths(), labelled, unlabelled, hypothesis, shuffled, orderOf, priors);
        var k := FirstLeast(entries, ScoreBefore);
        IsFirstLeast(entries, k, ScoreBefore) && r.value == entries[k] && r.value.0 in unlabelled
    {
      CalculateProbabilities(priors);
      var shortlist := Shortlist(hypothesis, shuffled);
      ShortlistIsClosest(hypothesis, shuffled, unlabelled);
      EnumerationLength(shuffled, unlabelled);
      ghost var rows, truths := Rows(), Truths();
      OrdersInRange(shortlist, labelled, unlabelled, orderOf, |rows|);
      var entries := ScoreShortlist(shortlist, priors, orderOf, classifier, reversed, rows, truths);
      ghost var all := ShortlistScores(classifier, reversed, rows, truths, labelled, unlabelled, hypothesis, shuffled, orderOf, priors);
      assert entries == all;
      var ordered := SortBy(entries, ScoreBefore);
      if ordered == [] {
        return Err(EmptySequence);
      }
      FirstByScore(entries);
      r := Ok(ordered[0]);
    }

    /** The loop of `ActiveEvidence.GetArgMaxVOI` that fills the evidence
        dictionary: each shortlisted index with its expected evidence. */
    method ScoreShortlist(shortlist: seq<int>, priors: Marginals, orderOf: int -> seq<int>,
                          ghost c: Classifier, ghost rev: bool, ghost rows: seq<Vector>, ghost truths: seq<bool>)
      returns (entries: seq<(int, Double)>)
      modifies dataSet.labels[0]
      requires Ready() && classifier == c && reversed == rev && Rows() == rows && Truths() == truths
      requires forall i :: 0 <= i < |shortlist| ==> shortlist[i] in unlabelled
      requires forall i :: 0 <= i < |shortlist| ==> IsEnumeration(orderOf(shortlist[i]), labelled + {shortlist[i]})
      requires forall i :: 0 <= i < |shortlist| ==> InRange(orderOf(shortlist[i]), |rows|)
      ensures Truths() == truths
      ensures InRange(shortlist, |rows|)
      ensures entries == EvidenceEntries(c, rev, rows, truths, shortlist, orderOf, priors)
    {
      entries := [];
      for i := 0 to |shortlist|
        invariant Truths() == truths
        invariant |entries| == i
        invariant forall j :: 0 <= j < i ==>
          entries[j] == (shortlist[j], EvidenceScore(c, rev, rows, truths, shortlist[j], orderOf(shortlist[j]), priors))
      {
        var index := shortlist[i];
        var evidence := ExpectedEvidence(index, priors, orderOf(index));
        entries := entries + [(index, evidence)];
      }
    }

    /** The choices `env` are ones the runtime can make for this learner. */
    predicate Admissible(env: Environment)
      reads this
    {
      IsEnumeration(env.order, unlabelled) &&
      (if env.order == [] then env.draw == 0 else 0 <= env.draw < |env.order|) &&
      IsEnumeration(env.shuffled, unlabelled) &&
      forall k :: k in unlabelled ==> IsEnumeration(env.orderOf(k), labelled + {k})
    }

    /** `GetArgMaxVOI(activityPosteriors, priors, out argMax, out maxVal)`,
        dispatched on the kind of learner. Whatever the kind, a learner
        with an unlabelled instance returns one, and no learner changes
        the two sets or the labels. With nothing unlabelled the random and
        the evidence learner throw and the other two return -1. */
    method GetArgMaxVOI(activityPosteriors: seq<Prob>, priors: Marginals, env: Environment) returns (r: Result<(int, Double)>)
      modifies this, dataSet.labels[0]
      requires Ready() && Admissible(env)
      requires kind == ExpectedRisk ==> |costs| >= 2
      requires forall k :: k in labelled ==> k < |activityPosteriors|
      requires forall k :: k in unlabelled ==> k < |activityPosteriors|
      ensures Ready() && Settings() == old(Settings())
      ensures labelled == old(labelled) && unlabelled == old(unlabelled)
      ensures Truths() == old(Truths())
      ensures unlabelled != {} ==> r.Ok? && r.value.0 in unlabelled
      ensures unlabelled == {} && (kind == RandomPick || kind == EvidenceRatio) ==> r.Err?
      ensures unlabelled == {} && (kind == Uncertain || kind == ExpectedRisk) ==> r.Ok? && r.value.0 == -1
    {
      EnumerationLength(env.order, unlabelled);
      match kind
      case RandomPick =>
        r := RandomChoice(env.order, env.draw);
      case Uncertain =>
        var argMax, maxVal := UncertainArgMax(activityPosteriors, env.order);
        r := Ok((argMax, maxVal));
      case ExpectedRisk =>
        var argMax, maxVal := RiskArgMax(activityPosteriors, priors, env.order);
        r := Ok((argMax, maxVal));
      case EvidenceRatio =>
        r := EvidenceArgMax(priors, env.shuffled, env.orderOf);
    }

    /** `RandomLearner.GetArgMaxVOI`: the element at the drawn position of
        `Unlabelled.ToArray()`, with value 0. `Random.Next(0)` draws 0, so
        an empty set indexes past the end of the empty array. */
    function RandomChoice(order: seq<int>, draw: int): (r: Result<(int, Double)>)
      reads this
      requires IsEnumeration(order, unlabelled)
      requires if order == [] then draw == 0 else 0 <= draw < |order|
      ensures r.Err? <==> unlabelled == {}
      ensures r.Err? ==> r.failure == IndexOutOfRange
      ensures r.Ok? ==> r.value.0 in unlabelled && r.value.1 == Finite(0.0)
    {
      EnumerationLength(order, unlabelled);
      if draw < |order| then Ok((order[draw], Finite(0.0))) else Err(IndexOutOfRange)
    }

    /** `VOITest(numActivelySelected, priors)` of an `ActiveLearner`. A
        round moves its pick to the labelled set itself and then hands it
        to `UpdateModel`, which finds it labelled already and throws: any
        positive number of rounds fails in the first one, with the pick
        moved (-1 when nothing was unlabelled and the learner returns -1).
        With no round, the metrics it summarises are the predictions and
        the labels of the unlabelled instances, in the enumeration order
        `env.order`; none when nothing is unlabelled. */
    method VOITest(numActivelySelected: int, priors: Marginals, env: Environment)
      returns (s: Status, estimates: seq<real>, targets: seq<bool>, argMax: int)
      modifies this, dataSet.labels[0]
      requires Ready() && Admissible(env)
      requires kind == ExpectedRisk ==> |costs| >= 2
      ensures Valid() && Settings() == old(Settings())
      ensures dataSet.labels[0][..] == old(dataSet.labels[0][..])
      ensures numActivelySelected > 0 ==> s.Failed? && estimates == [] && targets == []
      ensures numActivelySelected > 0 && (old(unlabelled) != {} || kind == Uncertain || kind == ExpectedRisk) ==>
        s == Failed(AlreadyLabelled) && (if old(unlabelled) == {} then argMax == -1 else argMax in old(unlabelled)) &&
        labelled == old(labelled) + {argMax} && unlabelled == old(unlabelled) - {argMax}
      ensures numActivelySelected > 0 && old(unlabelled) == {} && (kind == RandomPick || kind == EvidenceRatio) ==>
        labelled == old(labelled) && unlabelled == {}
      ensures numActivelySelected <= 0 ==>
        s == Success && labelled == old(labelled) && unlabelled == old(unlabelled) &&
        |estimates| == |targets| == |env.order| &&
        (unlabelled != {} ==> hypothesis == TestRows(classifier, Rows(), priors)) &&
        forall i :: 0 <= i < |env.order| ==>
          estimates[i] == hypothesis[env.order[i]] && targets[i] == Truths()[env.order[i]]
    {
      estimates, targets, argMax := [], [], -1;
      EnumerationLength(env.order, unlabelled);
      if numActivelySelected > 0 {
        CalculateProbabilities(priors);
        var posteriors: seq<Prob> := hypothesis;
        var r := GetArgMaxVOI(posteriors, priors, env);
        if r.Err? {
          return Failed(r.failure), estimates, targets, argMax;
        }
        argMax := r.value.0;
        unlabelled := unlabelled - {argMax};
        labelled := labelled + {argMax};
        s := UpdateModel(argMax);
        return;
      }
      s := Success;
      if unlabelled != {} {
        CalculateProbabilities(priors);
        var i := 0;
        while i < |env.order|
          invariant 0 <= i <= |env.order|
          invariant |estimates| == |targets| == i
          invariant forall j :: 0 <= j < i ==>
            estimates[j] == hypothesis[env.order[j]] && targets[j] == Truths()[env.order[j]]
        {
          estimates := estimates + [hypothesis[env.order[i]]];
          targets := targets + [dataSet.labels[0][env.order[i]]];
          i := i + 1;
        }
      }
    }
  }
}
