/** The experiment driver: for every resident, the rounds of active
    learning (`RunActive`) and the online baseline that trains on every
    instance in turn (`RunOnline`), each recording one holdout `Metrics`
    object per step.

    The two data sets are read here as values (`Table`s). The learners
    write a label into their own view of the data while they evaluate a
    candidate, but they put it back before `GetArgMaxVOI` returns, so the
    values read here are the ones in the arrays whenever they are read.
    The training and the test model are the oracles of `Classifier`; the
    weights they pass along are opaque. */
module Experiments {
  import opened Numerics
  import opened Outcomes
  import opened Collections
  import opened Classifier
  import opened Data
  import opened Scoring
  import opened Learners
  import opened Risk

  /** The iterations of each retraining step of `RunActive`. */
  const ActiveIterations := 50
  /** The iterations of each retraining step of `RunOnline`. */
  const OnlineIterations := 10

  /** The weights reached from `priors` by training on the instances
      `picks`, one instance at a time and in that order, each time for
      `iterations` iterations; `None` once a training step fails. */
  function Retrained(c: Classifier, rows: seq<Vector>, truths: seq<bool>, picks: seq<int>,
                     priors: Marginals, iterations: int): (m: Option<Marginals>)
    requires forall k :: 0 <= k < |picks| ==> 0 <= picks[k] < |rows| && picks[k] < |truths|
    ensures picks == [] ==> m == Some(priors)
  {
    if picks == [] then Some(priors)
    else
      var last := picks[|picks| - 1];
      match Retrained(c, rows, truths, picks[..|picks| - 1], priors, iterations)
      case None => None
      case Some(w) => c.train(Single(rows[last], truths[last]), w, iterations)
  }

  /** One more training step: the weights after `picks + [pick]` are
      those after `picks`, trained on `pick` alone. */
  lemma RetrainedStep(c: Classifier, rows: seq<Vector>, truths: seq<bool>, picks: seq<int>,
                      priors: Marginals, iterations: int, pick: int)
    requires forall k :: 0 <= k < |picks| ==> 0 <= picks[k] < |rows| && picks[k] < |truths|
    requires 0 <= pick < |rows| && pick < |truths|
    requires Retrained(c, rows, truths, picks, priors, iterations).Some?
    ensures Retrained(c, rows, truths, picks + [pick], priors, iterations) ==
      c.train(Single(rows[pick], truths[pick]), Retrained(c, rows, truths, picks, priors, iterations).value, iterations)
  {
    assert (picks + [pick])[..|picks|] == picks;
  }

  /** A failed training step ends the chain: no later step brings the
      weights back. */
  lemma {:induction false} RetrainedFailureSticks(c: Classifier, rows: seq<Vector>, truths: seq<bool>,
                                                  picks: seq<int>, more: seq<int>, priors: Marginals, iterations: int)
    requires forall k :: 0 <= k < |picks| ==> 0 <= picks[k] < |rows| && picks[k] < |truths|
    requires forall k :: 0 <= k < |more| ==> 0 <= more[k] < |rows| && more[k] < |truths|
    requires Retrained(c, rows, truths, picks, priors, iterations).None?
    ensures Retrained(c, rows, truths, picks + more, priors, iterations).None?
    decreases |more|
  {
    if more != [] {
      var init := more[..|more| - 1];
      RetrainedFailureSticks(c, rows, truths, picks, init, priors, iterations);
      var all := picks + more;
      assert all[..|all| - 1] == picks + init;
      assert Retrained(c, rows, truths, all[..|all| - 1], priors, iterations).None?;
    } else {
      assert picks + more == picks;
    }
  }

  /** The first `n` instance positions, in order. */
  function Prefix(n: nat): (p: seq<int>)
    ensures |p| == n && forall k :: 0 <= k < n ==> p[k] == k
  {
    seq(n, k => k)
  }

  /** Everything `RunActive` needs of the learners: distinct objects, and
      for each resident that has one, a learner whose data set has that
      resident's instances as its first row, and the two costs an
      expected-risk learner reads. */
  predicate Prepared(learners: seq<Learner>, data: Table)
    reads set l | l in learners, set l | l in learners :: l.dataSet
  {
    Separate(learners) &&
    forall i :: 0 <= i < |learners| && i < |data.features| ==> Fits(learners[i], |data.features[i]|)
  }

  /** No learner serves two residents. */
  predicate Separate(learners: seq<Learner>)
  {
    forall a, b :: 0 <= a < b < |learners| ==> learners[a] != learners[b]
  }

  /** The labelled set of resident `a`'s learner, empty past the end. */
  function LabelledAt(learners: seq<Learner>, a: int): set<int>
    reads learners
  {
    if 0 <= a < |learners| then learners[a].labelled else {}
  }

  /** The unlabelled set of resident `a`'s learner, empty past the end. */
  function UnlabelledAt(learners: seq<Learner>, a: int): set<int>
    reads learners
  {
    if 0 <= a < |learners| then learners[a].unlabelled else {}
  }

  /** A learner ready to select among `count` instances. */
  predicate Fits(l: Learner, count: int)
    reads l, l.dataSet
  {
    l.Ready() && l.dataSet.labels[0].Length == count && (l.kind == ExpectedRisk ==> |l.costs| >= 2)
  }

  /** One more round on top of a record: the pick moves, its metrics were
      made with the weights so far, and the weights are trained on it. */
  lemma ActiveRecordStep(train: Classifier, test: Classifier, rows: seq<Vector>, truths: seq<bool>,
                         hrows: seq<Vector>, htruths: seq<bool>, priors: Marginals,
                         L0: set<int>, U0: set<int>, L: set<int>, U: set<int>,
                         picks: seq<int>, collection: seq<Metrics>, post: Marginals,
                         pick: int, m: Metrics, next: Marginals)
    requires ActiveRecord(train, test, rows, truths, hrows, htruths, priors, L0, U0, L, U, picks, collection, post)
    requires pick in U && 0 <= pick < |rows| && pick < |truths|
    requires ActiveStep(train, test, rows, truths, hrows, htruths, priors, picks, |picks|, m)
    requires Retrained(train, rows, truths, picks + [pick], priors, ActiveIterations) == Some(next)
    ensures ActiveRecord(train, test, rows, truths, hrows, htruths, priors, L0, U0, L + {pick}, U - {pick},
                         picks + [pick], collection + [m], next)
  {
    MovesAppend(picks, L0, U0, L, U, pick);
    ActiveStepExtends(train, test, rows, truths, hrows, htruths, priors, picks, pick, |picks|, m);
    forall k | 0 <= k < |picks|
      ensures ActiveStep(train, test, rows, truths, hrows, htruths, priors, picks + [pick], k, collection[k])
    {
      ActiveStepExtends(train, test, rows, truths, hrows, htruths, priors, picks, pick, k, collection[k]);
    }
  }

  /** Moves made one per round, for at most `n` rounds, stopping early
      only when nothing is left to move: there were as many as the rounds
      allowed or as many as there was to move, whichever is fewer. */
  lemma MovesRounds(picks: seq<int>, L0: set<int>, U0: set<int>, L: set<int>, U: set<int>, n: int)
    requires Moves(picks, L0, U0, L, U)
    requires |picks| <= n && (|picks| == n || U == {})
    ensures |picks| == Min(n, |U0|)
  {
    MovesCount(picks, L0, U0, L, U);
  }

  /** A learner that still fits `count` instances, with the settings and
      the labels it had when a resident's rounds began. */
  ghost predicate Keeps(l: Learner, count: int,
                        settings: (Kind, bool, DataSet?, Classifier, RiskMatrix, seq<real>, seq<real>),
                        truths: seq<bool>)
    reads l, l.dataSet, if l.dataSet != null then l.dataSet.labels else []
  {
    Fits(l, count) && l.Settings() == settings && l.Truths() == truths
  }

  /** Row `i` of a table, empty past its end. */
  function ResidentRows(t: Table, i: int): seq<Vector>
  {
    if 0 <= i < |t.features| then t.features[i] else []
  }

  function ResidentLabels(t: Table, i: int): seq<bool>
  {
    if 0 <= i < |t.labels| then t.labels[i] else []
  }

  /** Step `j` of `RunOnline` for one resident: `pred` is the prediction
      for instance `j`, and `m` the holdout metrics, made with the weights
      trained on the instances before `j` only. */
  ghost predicate OnlineStep(train: Classifier, test: Classifier, rows: seq<Vector>, truths: seq<bool>,
                             hrows: seq<Vector>, htruths: seq<bool>, priors: Marginals,
                             j: int, pred: Prob, m: Metrics)
    reads m
    requires |rows| == |truths| && 0 <= j < |rows|
  {
    var w := Retrained(train, rows, truths, Prefix(j), priors, OnlineIterations);
    w.Some? &&
    pred == test.predict(rows[j], w.value) &&
    m.estimates == Some(TestRows(test, hrows, w.value)) &&
    m.trueLabels == Some(htruths)
  }

  /** What `RunOnline` leaves for one resident: the weights trained on
      all its instances, and one step per instance. */
  ghost predicate OnlineRecord(train: Classifier, test: Classifier, rows: seq<Vector>, truths: seq<bool>,
                               hrows: seq<Vector>, htruths: seq<bool>, priors: Marginals,
                               preds: seq<Prob>, collection: seq<Metrics>, post: Marginals)
    reads set m | m in collection
    requires |rows| == |truths|
  {
    Retrained(train, rows, truths, Prefix(|rows|), priors, OnlineIterations) == Some(post) &&
    |preds| == |collection| == |rows| &&
    forall j :: 0 <= j < |rows| ==>
      OnlineStep(train, test, rows, truths, hrows, htruths, priors, j, preds[j], collection[j])
  }

  /** Round `k` of `RunActive` for one resident: the holdout metrics `m`
      were made with the weights trained on the instances picked in the
      rounds before it. */
  ghost predicate ActiveStep(train: Classifier, test: Classifier, rows: seq<Vector>, truths: seq<bool>,
                             hrows: seq<Vector>, htruths: seq<bool>, priors: Marginals,
                             picks: seq<int>, k: int, m: Metrics)
    reads m
    requires forall k :: 0 <= k < |picks| ==> 0 <= picks[k] < |rows| && picks[k] < |truths|
    requires 0 <= k <= |picks|
  {
    var w := Retrained(train, rows, truths, picks[..k], priors, ActiveIterations);
    w.Some? &&
    m.estimates == Some(TestRows(test, hrows, w.value)) &&
    m.trueLabels == Some(htruths)
  }

  /** Later rounds leave the record of an earlier round as it was. */
  lemma ActiveStepExtends(train: Classifier, test: Classifier, rows: seq<Vector>, truths: seq<bool>,
                          hrows: seq<Vector>, htruths: seq<bool>, priors: Marginals,
                          picks: seq<int>, pick: int, k: int, m: Metrics)
    requires forall k :: 0 <= k < |picks| ==> 0 <= picks[k] < |rows| && picks[k] < |truths|
    requires 0 <= pick < |rows| && pick < |truths|
    requires 0 <= k <= |picks|
    ensures ActiveStep(train, test, rows, truths, hrows, htruths, priors, picks + [pick], k, m) ==
            ActiveStep(train, test, rows, truths, hrows, htruths, priors, picks, k, m)
  {
    assert (picks + [pick])[..k] == picks[..k];
  }

  /** What `RunActive` leaves for one resident: the instances `picks`,
      one per round, moved from the unlabelled set `U0` (now `U`) to the
      labelled set `L0` (now `L`); the weights trained on them, one at a
      time; and one holdout metrics object per round. */
  ghost predicate ActiveRecord(train: Classifier, test: Classifier, rows: seq<Vector>, truths: seq<bool>,
                               hrows: seq<Vector>, htruths: seq<bool>, priors: Marginals,
                               L0: set<int>, U0: set<int>, L: set<int>, U: set<int>,
                               picks: seq<int>, collection: seq<Metrics>, post: Marginals)
    reads set m | m in collection
  {
    Moves(picks, L0, U0, L, U) &&
    (forall k :: 0 <= k < |picks| ==> 0 <= picks[k] < |rows| && picks[k] < |truths|) &&
    Retrained(train, rows, truths, picks, priors, ActiveIterations) == Some(post) &&
    |collection| == |picks| &&
    forall k :: 0 <= k < |picks| ==>
      ActiveStep(train, test, rows, truths, hrows, htruths, priors, picks, k, collection[k])
  }

  class Experiment {
    /** `TrainModel`. */
    const trainModel: Classifier
    /** `TestModel`. */
    const testModel: Classifier
    /** `ActiveLearners`: one per resident; `None` is a null list. */
    var activeLearners: Option<seq<Learner>>
    /** `HoldoutMetrics.Metrics`: per resident, one metrics object per
        round. */
    var holdoutMetrics: seq<seq<Metrics>>
    /** `IndividualPosteriors`: per resident, the weights reached. */
    var individualPosteriors: seq<Marginals>
    /** `PosteriorActivities` as `RunOnline` leaves it: per resident, the
        prediction for each instance. */
    var posteriorActivities: seq<seq<Prob>>

    constructor (trainModel: Classifier, testModel: Classifier, learners: Option<seq<Learner>>)
      ensures this.trainModel == trainModel && this.testModel == testModel
      ensures activeLearners == learners
      ensures holdoutMetrics == [] && individualPosteriors == [] && posteriorActivities == []
    {
      this.trainModel := trainModel;
      this.testModel := testModel;
      activeLearners := learners;
      holdoutMetrics := [];
      individualPosteriors := [];
      posteriorActivities := [];
    }

    /** `new Metrics { Estimates = estimates, TrueLabels = truths }`. */
    static method Record(estimates: seq<Prob>, truths: seq<bool>) returns (m: Metrics)
      ensures fresh(m)
      ensures m.estimates == Some(estimates) && m.trueLabels == Some(truths)
    {
      m := new Metrics();
      m.SetEstimates(Some(estimates));
      m.SetTrueLabels(Some(truths));
    }

    /** `RunOnline`. Each resident starts from the priors and visits its
        instances in order: it predicts the instance, and the holdout set,
        with the weights trained on the instances before it, and then
        trains on the instance. A failed training step is not caught, and
        with no resident at all the holdout aggregation that follows the
        loop fails when it reads the first resident's metrics. */
    method RunOnline(data: Table, holdout: Table, priors: Marginals) returns (s: Status)
      modifies this
      requires Aligned(data) && Aligned(holdout)
      ensures activeLearners == old(activeLearners)
      ensures s.Failed? ==> s.failure in {ImproperMessage, IndexOutOfRange, EmptySequence}
      ensures s.Failed? && s.failure == IndexOutOfRange ==> |holdout.features| < |data.features| || |data.features| == 0
      ensures s.Failed? && s.failure == EmptySequence ==> exists i :: 0 <= i < |data.features| && data.features[i] == []
      ensures |data.features| == 0 ==> s == Failed(IndexOutOfRange)
      ensures s.Success? ==>
        |data.features| > 0 &&
        |holdoutMetrics| == |individualPosteriors| == |posteriorActivities| == |data.features| &&
        forall i :: 0 <= i < |data.features| ==>
          data.features[i] != [] &&
          OnlineRecord(trainModel, testModel, data.features[i], data.labels[i],
                       ResidentRows(holdout, i), ResidentLabels(holdout, i), priors,
                       posteriorActivities[i], holdoutMetrics[i], individualPosteriors[i])
    {
      var residents := |data.features|;
      holdoutMetrics := seq(residents, _ => []);
      posteriorActivities := seq(residents, _ => []);
      individualPosteriors := seq(residents, _ => priors);
      for i := 0 to residents
        invariant activeLearners == old(activeLearners)
        invariant |holdoutMetrics| == |individualPosteriors| == |posteriorActivities| == residents
        invariant forall a :: 0 <= a < i ==>
          data.features[a] != [] &&
          OnlineRecord(trainModel, testModel, data.features[a], data.labels[a],
                       ResidentRows(holdout, a), ResidentLabels(holdout, a), priors,
                       posteriorActivities[a], holdoutMetrics[a], individualPosteriors[a])
      {
        var rows := data.features[i];
        if rows != [] && i >= |holdout.features| {
          return Failed(IndexOutOfRange);
        }
        var st, preds, collection, post :=
          OnlineResident(rows, data.labels[i], ResidentRows(holdout, i), ResidentLabels(holdout, i), priors);
        if st.Failed? {
          return st;
        }
        holdoutMetrics := holdoutMetrics[i := collection];
        posteriorActivities := posteriorActivities[i := preds];
        individualPosteriors := individualPosteriors[i := post];
        if collection == [] {
          return Failed(EmptySequence);
        }
      }
      s := if residents == 0 then Failed(IndexOutOfRange) else Success;
    }

    /** The instance loop of `RunOnline` for one resident. */
    method OnlineResident(rows: seq<Vector>, truths: seq<bool>, hrows: seq<Vector>, htruths: seq<bool>, priors: Marginals)
      returns (s: Status, preds: seq<Prob>, collection: seq<Metrics>, post: Marginals)
      requires |rows| == |truths|
      ensures s.Failed? ==> s.failure == ImproperMessage
      ensures s.Success? <==> Retrained(trainModel, rows, truths, Prefix(|rows|), priors, OnlineIterations).Some?
      ensures s.Success? ==> OnlineRecord(trainModel, testModel, rows, truths, hrows, htruths, priors, preds, collection, post)
      ensures forall k :: 0 <= k < |collection| ==> fresh(collection[k])
    {
      post := priors;
      preds, collection := [], [];
      for j := 0 to |rows|
        invariant Retrained(trainModel, rows, truths, Prefix(j), priors, OnlineIterations) == Some(post)
        invariant |preds| == |collection| == j
        invariant forall k :: 0 <= k < j ==>
          fresh(collection[k]) &&
          OnlineStep(trainModel, testModel, rows, truths, hrows, htruths, priors, k, preds[k], collection[k])
      {
        var pred, m, next := OnlineVisit(rows, truths, hrows, htruths, priors, j, post);
        if next.None? {
          OnlineFailure(trainModel, rows, truths, priors, j + 1);
          return Failed(ImproperMessage), preds, collection, post;
        }
        preds := preds + [pred];
        collection := collection + [m];
        post := next.value;
      }
      return Success, preds, collection, post;
    }

    /** `RunActive`. Each resident starts from the priors; in each round
        it predicts its own instances and the holdout set, stops when its
        learner has nothing left unlabelled, and otherwise has the learner
        pick an instance, labels it, trains on it alone and records the
        holdout metrics of the round. A failed training step is not
        caught, and neither is the average accuracy of a resident without
        a single round, which is computed for the summary line printed
        after each resident. With no resident at all the holdout
        aggregation after the loop fails when it reads the first
        resident's metrics. */
    method RunActive(data: Table, holdout: Table, numberOfSelections: int, priors: Marginals)
      returns (s: Status, ghost picked: seq<seq<int>>)
      modifies this
      modifies if activeLearners.Some? then set l | l in activeLearners.value else {}
      modifies if activeLearners.Some? then
        set l | l in activeLearners.value && l.dataSet != null && |l.dataSet.labels| > 0 :: l.dataSet.labels[0]
        else {}
      requires Aligned(data) && Aligned(holdout)
      requires activeLearners.Some? ==> Prepared(activeLearners.value, data)
      ensures activeLearners == old(activeLearners)
      ensures old(activeLearners).None? ==> s == Failed(NoLearners)
      ensures s == Failed(Overflow) ==> numberOfSelections < 0
      ensures s == Failed(IndexOutOfRange) ==> |holdout.features| < |data.features| || |data.features| == 0
      ensures old(activeLearners).Some? && |data.features| == 0 ==> s == Failed(IndexOutOfRange)
      ensures s == Failed(ArgumentOutOfRange) ==> |activeLearners.value| < |data.features| && numberOfSelections > 0
      ensures s == Failed(EmptySequence) ==>
        numberOfSelections == 0 ||
        exists i :: 0 <= i < |data.features| && old(UnlabelledAt(activeLearners.value, i)) == {}
      ensures s.Failed? ==>
        s.failure in {NoLearners, Overflow, IndexOutOfRange, ArgumentOutOfRange, EmptySequence, ImproperMessage}
      ensures s.Success? ==>
        activeLearners.Some? && |data.features| <= |holdout.features| && |data.features| <= |activeLearners.value| &&
        |data.features| > 0 && numberOfSelections > 0 &&
        |holdoutMetrics| == |individualPosteriors| == |picked| == |data.features| &&
        forall i :: 0 <= i < |data.features| ==>
          ActiveOutcome(trainModel, testModel, data, holdout, priors, numberOfSelections, activeLearners.value, i,
                        old(LabelledAt(activeLearners.value, i)), old(UnlabelledAt(activeLearners.value, i)),
                        picked[i], holdoutMetrics[i], individualPosteriors[i])
    {
      picked := [];
      if activeLearners.None? {
        return Failed(NoLearners), picked;
      }
      var learners := activeLearners.value;
      var residents := |data.features|;
      ghost var L0s := seq(residents, a reads learners => LabelledAt(learners, a));
      ghost var U0s := seq(residents, a reads learners => UnlabelledAt(learners, a));
      holdoutMetrics := seq(residents, _ => []);
      individualPosteriors := seq(residents, _ => priors);
      s, picked := ActiveResidents(data, holdout, numberOfSelections, priors, learners, L0s, U0s);
    }

    /** The residents of `RunActive` in turn, from the fresh metrics and
        posteriors, with the sets each resident's learner starts from. */
    method ActiveResidents(data: Table, holdout: Table, n: int, priors: Marginals, learners: seq<Learner>,
                           ghost L0s: seq<set<int>>, ghost U0s: seq<set<int>>)
      returns (s: Status, ghost picked: seq<seq<int>>)
      modifies this, set l | l in learners
      modifies set l | l in learners && l.dataSet != null && |l.dataSet.labels| > 0 :: l.dataSet.labels[0]
      requires Aligned(data) && Aligned(holdout) && Prepared(learners, data)
      requires |L0s| == |U0s| == |holdoutMetrics| == |individualPosteriors| == |data.features|
      requires forall b :: 0 <= b < |learners| && b < |data.features| ==>
        L0s[b] == learners[b].labelled && U0s[b] == learners[b].unlabelled
      ensures activeLearners == old(activeLearners)
      ensures s == Failed(Overflow) ==> n < 0
      ensures s == Failed(IndexOutOfRange) ==> |holdout.features| < |data.features| || |data.features| == 0
      ensures |data.features| == 0 ==> s == Failed(IndexOutOfRange)
      ensures s == Failed(ArgumentOutOfRange) ==> |learners| < |data.features| && n > 0
      ensures s == Failed(EmptySequence) ==> n == 0 || exists i :: 0 <= i < |data.features| && U0s[i] == {}
      ensures s.Failed? ==> s.failure in {Overflow, IndexOutOfRange, ArgumentOutOfRange, EmptySequence, ImproperMessage}
      ensures s.Success? ==>
        |data.features| <= |holdout.features| && |data.features| <= |learners| &&
        |data.features| > 0 && n > 0 &&
        |holdoutMetrics| == |individualPosteriors| == |picked| == |data.features| &&
        ActiveOutcomes(trainModel, testModel, data, holdout, priors, n, learners, L0s, U0s,
                       picked, holdoutMetrics, individualPosteriors)
    {
      picked := [];
      var residents := |data.features|;
      for i := 0 to residents
        invariant activeLearners == old(activeLearners)
        invariant |holdoutMetrics| == |individualPosteriors| == residents && |picked| == i
        invariant i <= |holdout.features| && i <= |learners| && Separate(learners)
        invariant i > 0 ==> n > 0
        invariant forall b :: i <= b < |learners| && b < residents ==>
          unchanged(learners[b]) && L0s[b] == learners[b].labelled && U0s[b] == learners[b].unlabelled
        invariant ActiveOutcomes(trainModel, testModel, data, holdout, priors, n, learners,
                                 L0s, U0s, picked, holdoutMetrics, individualPosteriors)
      {
        if n < 0 {
          return Failed(Overflow), picked;
        }
        if i >= |holdout.features| {
          return Failed(IndexOutOfRange), picked;
        }
        if i >= |learners| {
          if n > 0 {
            return Failed(ArgumentOutOfRange), picked;
          }
          return Failed(EmptySequence), picked;
        }
        assert learners[i] in learners;
        assert Fits(learners[i], |data.features[i]|);
        assert learners[i].dataSet.labels[0] in
          set l | l in learners && l.dataSet != null && |l.dataSet.labels| > 0 :: l.dataSet.labels[0];
        s, picked := ActiveTurn(data, holdout, n, priors, learners, i, L0s, U0s, picked);
        if s.Failed? {
          return;
        }
      }
      s := if residents == 0 then Failed(IndexOutOfRange) else Success;
    }

    /** The rounds of `RunActive` for resident `i`, which has a learner,
        after those of the residents before it, and the metrics and
        posteriors they leave: no round at all when none is asked for or
        the learner has nothing unlabelled to begin with, which the
        summary of the resident does not survive. */
    method ActiveTurn(data: Table, holdout: Table, n: int, priors: Marginals, learners: seq<Learner>, i: int,
                      ghost L0s: seq<set<int>>, ghost U0s: seq<set<int>>, ghost done: seq<seq<int>>)
      returns (s: Status, ghost picked: seq<seq<int>>)
      modifies this, learners[i], learners[i].dataSet.labels[0]
      requires Aligned(data) && Aligned(holdout) && n >= 0
      requires 0 <= i < |learners| && i < |data.features| && i < |holdout.features|
      requires Separate(learners) && Fits(learners[i], |data.features[i]|)
      requires |done| == i && |L0s| == |U0s| == |holdoutMetrics| == |individualPosteriors| == |data.features|
      requires L0s[i] == learners[i].labelled && U0s[i] == learners[i].unlabelled
      requires ActiveOutcomes(trainModel, testModel, data, holdout, priors, n, learners, L0s, U0s,
                              done, holdoutMetrics, individualPosteriors)
      ensures activeLearners == old(activeLearners)
      ensures forall b :: 0 <= b < |learners| && b != i ==> unchanged(learners[b])
      ensures |holdoutMetrics| == |individualPosteriors| == |data.features|
      ensures s.Failed? ==> s.failure in {ImproperMessage, EmptySequence}
      ensures s == Failed(EmptySequence) ==> n == 0 || U0s[i] == {}
      ensures s.Success? ==>
        n > 0 && |picked| == i + 1 &&
        ActiveOutcomes(trainModel, testModel, data, holdout, priors, n, learners, L0s, U0s,
                       picked, holdoutMetrics, individualPosteriors)
    {
      var collection, post;
      ghost var picks;
      s, collection, post, picks := ActiveRounds(data, holdout, n, priors, learners, i, L0s, U0s,
                                                 done, holdoutMetrics, individualPosteriors);
      picked := done;
      if s.Failed? {
        return;
      }
      label rounds:
      var metrics, posteriors := holdoutMetrics[i := collection], individualPosteriors[i := post];
      holdoutMetrics, individualPosteriors := metrics, posteriors;
      picked := done + [picks];
      if collection == [] {
        return Failed(EmptySequence), picked;
      }
      assert old@rounds(ActiveOutcomes(trainModel, testModel, data, holdout, priors, n, learners, L0s, U0s,
                                       picked, metrics, posteriors));
    }

    /** The rounds of resident `i` in `RunActive`, added to the outcomes of
        the residents before it. */
    method ActiveRounds(data: Table, holdout: Table, n: int, priors: Marginals, learners: seq<Learner>, i: int,
                        ghost L0s: seq<set<int>>, ghost U0s: seq<set<int>>,
                        ghost done: seq<seq<int>>, ghost metrics: seq<seq<Metrics>>, ghost posteriors: seq<Marginals>)
      returns (s: Status, collection: seq<Metrics>, post: Marginals, ghost picks: seq<int>)
      modifies learners[i], learners[i].dataSet.labels[0]
      requires Aligned(data) && Aligned(holdout) && n >= 0
      requires 0 <= i < |learners| && i < |data.features| && i < |holdout.features|
      requires Separate(learners) && Fits(learners[i], |data.features[i]|)
      requires |done| == i && |L0s| == |U0s| == |metrics| == |posteriors| == |data.features|
      requires L0s[i] == learners[i].labelled && U0s[i] == learners[i].unlabelled
      requires ActiveOutcomes(trainModel, testModel, data, holdout, priors, n, learners, L0s, U0s, done, metrics, posteriors)
      ensures forall b :: 0 <= b < |learners| && b != i ==> unchanged(learners[b])
      ensures s.Failed? ==> s.failure == ImproperMessage
      ensures s.Success? ==> (collection == [] <==> n == 0 || U0s[i] == {})
      ensures s.Success? && collection != [] ==>
        ActiveOutcomes(trainModel, testModel, data, holdout, priors, n, learners, L0s, U0s,
                       done + [picks], metrics[i := collection], posteriors[i := post])
    {
      label before:
      s, collection, post, picks := ActiveResident(learners[i], data.features[i], data.labels[i],
                                                   holdout.features[i], holdout.labels[i], n, priors);
      if s.Success? && collection != [] {
        assert forall a :: 0 <= a < i ==> learners[a] != learners[i];
        forall a | 0 <= a < i
          ensures ActiveOutcome(trainModel, testModel, data, holdout, priors, n, learners, a,
                                L0s[a], U0s[a], done[a], metrics[a], posteriors[a])
        {
          assert old@before(ActiveOutcome(trainModel, testModel, data, holdout, priors, n, learners, a,
                                          L0s[a], U0s[a], done[a], metrics[a], posteriors[a]));
        }
        OutcomesExtend(trainModel, testModel, data, holdout, priors, n, learners,
                       L0s, U0s, done, metrics, posteriors, picks, collection, post);
      }
    }

    /** The rounds of `RunActive` for one resident. */
    method ActiveResident(learner: Learner, rows: seq<Vector>, truths: seq<bool>, hrows: seq<Vector>, htruths: seq<bool>,
                          n: int, priors: Marginals)
      returns (s: Status, collection: seq<Metrics>, post: Marginals, ghost picks: seq<int>)
      modifies learner, learner.dataSet.labels[0]
      requires Fits(learner, |rows|) && |rows| == |truths| && n >= 0
      ensures Keeps(learner, |rows|, old(learner.Settings()), old(learner.Truths()))
      ensures s.Failed? ==> s.failure == ImproperMessage
      ensures s.Success? ==>
        |picks| == Min(n, |old(learner.unlabelled)|) &&
        ActiveRecord(trainModel, testModel, rows, truths, hrows, htruths, priors,
                     old(learner.labelled), old(learner.unlabelled), learner.labelled, learner.unlabelled,
                     picks, collection, post)
      ensures forall k :: 0 <= k < |collection| ==> fresh(collection[k])
    {
      ghost var L0, U0 := learner.labelled, learner.unlabelled;
      ghost var S0, T0 := learner.Settings(), learner.Truths();
      post := priors;
      collection, picks := [], [];
      var j := 0;
      while j < n
        invariant 0 <= j <= n && |picks| == j
        invariant Keeps(learner, |rows|, S0, T0)
        invariant ActiveRecord(trainModel, testModel, rows, truths, hrows, htruths, priors,
                               L0, U0, learner.labelled, learner.unlabelled, picks, collection, post)
        invariant forall k :: 0 <= k < |collection| ==> fresh(collection[k])
      {
        if learner.unlabelled == {} {
          break;
        }
        var m, next, picks' := ActiveRound(learner, rows, truths, hrows, htruths, priors,
                                           S0, T0, L0, U0, collection, post, picks);
        if next.None? {
          return Failed(ImproperMessage), collection, post, picks';
        }
        picks := picks';
        collection := collection + [m];
        post := next.value;
        j := j + 1;
      }
      MovesRounds(picks, L0, U0, learner.labelled, learner.unlabelled, n);
      return Success, collection, post, picks;
    }

    /** One round of `RunActive` on a learner with something unlabelled:
        the learner picks an unlabelled instance, which becomes labelled;
        the holdout metrics `m` are made with the weights from before the
        round; and the weights are trained on the pick. */
    method ActiveRound(learner: Learner, rows: seq<Vector>, truths: seq<bool>, hrows: seq<Vector>, htruths: seq<bool>,
                       priors: Marginals, ghost S0: (Kind, bool, DataSet?, Classifier, RiskMatrix, seq<real>, seq<real>),
                       ghost T0: seq<bool>, ghost L0: set<int>, ghost U0: set<int>,
                       ghost collection: seq<Metrics>, post: Marginals, ghost picks: seq<int>)
      returns (m: Metrics, next: Option<Marginals>, ghost picks': seq<int>)
      modifies learner, learner.dataSet.labels[0]
      requires |rows| == |truths| && learner.unlabelled != {}
      requires Keeps(learner, |rows|, S0, T0)
      requires ActiveRecord(trainModel, testModel, rows, truths, hrows, htruths, priors,
                            L0, U0, learner.labelled, learner.unlabelled, picks, collection, post)
      ensures Keeps(learner, |rows|, S0, T0)
      ensures fresh(m) && |picks'| == |picks| + 1
      ensures next.Some? ==>
        ActiveRecord(trainModel, testModel, rows, truths, hrows, htruths, priors,
                     L0, U0, learner.labelled, learner.unlabelled, picks', collection + [m], next.value)
    {
      ghost var L, U := learner.labelled, learner.unlabelled;
      var activity := TestRows(testModel, rows, post);
      var estimates := TestRows(testModel, hrows, post);
      var index := Choose(learner, activity, post, |rows|);
      next := trainModel.train(Single(rows[index], truths[index]), post, ActiveIterations);
      m := Record(estimates, htruths);
      picks' := picks + [index];
      RetrainedStep(trainModel, rows, truths, picks, priors, ActiveIterations, index);
      assert picks[..|picks|] == picks;
      if next.Some? {
        ActiveRecordStep(trainModel, testModel, rows, truths, hrows, htruths, priors,
                         L0, U0, L, U, picks, collection, post, index, m, next.value);
      }
    }

    /** One instance of `RunOnline`: predict it and the holdout set, then
        train on it. */
    method OnlineVisit(rows: seq<Vector>, truths: seq<bool>, hrows: seq<Vector>, htruths: seq<bool>,
                       priors: Marginals, j: int, post: Marginals)
      returns (pred: Prob, m: Metrics, next: Option<Marginals>)
      requires |rows| == |truths| && 0 <= j < |rows|
      requires Retrained(trainModel, rows, truths, Prefix(j), priors, OnlineIterations) == Some(post)
      ensures fresh(m)
      ensures OnlineStep(trainModel, testModel, rows, truths, hrows, htruths, priors, j, pred, m)
      ensures next == Retrained(trainModel, rows, truths, Prefix(j + 1), priors, OnlineIterations)
    {
      var datum := Single(rows[j], truths[j]);
      pred := testModel.predict(rows[j], post);
      m := Record(TestRows(testModel, hrows, post), htruths);
      next := trainModel.train(datum, post, OnlineIterations);
      assert Prefix(j + 1) == Prefix(j) + [j];
      RetrainedStep(trainModel, rows, truths, Prefix(j), priors, OnlineIterations, j);
    }
  }

  /** The selection step of a round of `RunActive`: the learner picks an
      unlabelled instance from its posteriors of activity and labels it.
      The order in which the learner's hash sets are enumerated, and its
      random draws, are left to the environment. */
  method Choose(learner: Learner, activity: seq<Prob>, post: Marginals, count: int) returns (index: int)
    modifies learner, learner.dataSet.labels[0]
    requires Fits(learner, count) && |activity| == count && learner.unlabelled != {}
    ensures Fits(learner, count) && learner.Settings() == old(learner.Settings())
    ensures learner.Truths() == old(learner.Truths())
    ensures index in old(learner.unlabelled) && 0 <= index < count
    ensures learner.labelled == old(learner.labelled) + {index}
    ensures learner.unlabelled == old(learner.unlabelled) - {index}
  {
    SomeEnvironment(learner);
    var env :| learner.Admissible(env);
    var r := learner.GetArgMaxVOI(activity, post, env);
    assert r.Ok?;
    index := r.value.0;
    var st := learner.UpdateModel(index);
  }

  /** What `RunActive` leaves for resident `a`, whose learner started with
      the sets `L0` and `U0`: at least one round, and a round for each
      selection asked for, or fewer when the learner runs out of
      unlabelled instances. */
  ghost predicate ActiveOutcome(train: Classifier, test: Classifier, data: Table, holdout: Table, priors: Marginals,
                                n: int, learners: seq<Learner>, a: int, L0: set<int>, U0: set<int>,
                                picks: seq<int>, collection: seq<Metrics>, post: Marginals)
    reads if 0 <= a < |learners| then {learners[a]} else {}
    reads set m | m in collection
    requires Aligned(data) && Aligned(holdout) && 0 <= a < |data.features| && a < |holdout.features|
  {
    a < |learners| && collection != [] && |picks| == Min(n, |U0|) &&
    ActiveRecord(train, test, data.features[a], data.labels[a], holdout.features[a], holdout.labels[a], priors,
                 L0, U0, learners[a].labelled, learners[a].unlabelled, picks, collection, post)
  }

  /** The outcomes of the first `|picked|` residents. */
  ghost predicate ActiveOutcomes(train: Classifier, test: Classifier, data: Table, holdout: Table, priors: Marginals,
                                 n: int, learners: seq<Learner>, L0s: seq<set<int>>, U0s: seq<set<int>>,
                                 picked: seq<seq<int>>, metrics: seq<seq<Metrics>>, posteriors: seq<Marginals>)
    reads learners, set a, m | 0 <= a < |metrics| && m in metrics[a] :: m
    requires Aligned(data) && Aligned(holdout) && |picked| <= |data.features| && |picked| <= |holdout.features|
    requires |picked| <= |L0s| && |picked| <= |U0s| && |picked| <= |metrics| && |picked| <= |posteriors|
  {
    forall a :: 0 <= a < |picked| ==>
      ActiveOutcome(train, test, data, holdout, priors, n, learners, a, L0s[a], U0s[a], picked[a], metrics[a], posteriors[a])
  }

  /** One more resident's outcome. */
  lemma OutcomesExtend(train: Classifier, test: Classifier, data: Table, holdout: Table, priors: Marginals,
                       n: int, learners: seq<Learner>, L0s: seq<set<int>>, U0s: seq<set<int>>,
                       picked: seq<seq<int>>, metrics: seq<seq<Metrics>>, posteriors: seq<Marginals>,
                       picks: seq<int>, collection: seq<Metrics>, post: Marginals)
    requires Aligned(data) && Aligned(holdout) && |picked| < |data.features| && |picked| < |holdout.features|
    requires |picked| < |L0s| && |picked| < |U0s| && |picked| < |metrics| && |picked| < |posteriors|
    requires ActiveOutcomes(train, test, data, holdout, priors, n, learners, L0s, U0s, picked, metrics, posteriors)
    requires ActiveOutcome(train, test, data, holdout, priors, n, learners, |picked|, L0s[|picked|], U0s[|picked|],
                           picks, collection, post)
    ensures ActiveOutcomes(train, test, data, holdout, priors, n, learners, L0s, U0s, picked + [picks],
                           metrics[|picked| := collection], posteriors[|picked| := post])
  {
    var i := |picked|;
    var picked', metrics', posteriors' := picked + [picks], metrics[i := collection], posteriors[i := post];
    forall a | 0 <= a <= i
      ensures ActiveOutcome(train, test, data, holdout, priors, n, learners, a, L0s[a], U0s[a],
                            picked'[a], metrics'[a], posteriors'[a])
    {
      if a < i {
        assert picked'[a] == picked[a] && metrics'[a] == metrics[a] && posteriors'[a] == posteriors[a];
      }
    }
  }

  /** Some environment is admissible for any learner: the sets in
      ascending order, and the first instance as the random draw. */
  lemma SomeEnvironment(learner: Learner)
    ensures exists env :: learner.Admissible(env)
  {
    var labelled := learner.labelled;
    var order := Ascending(learner.unlabelled);
    assert learner.Admissible(Environment(order, 0, order, k => Ascending(labelled + {k})));
  }

  /** A training step of `RunOnline` that fails leaves no weights for the
      whole resident. */
  lemma OnlineFailure(c: Classifier, rows: seq<Vector>, truths: seq<bool>, priors: Marginals, j: int)
    requires |rows| == |truths| && 0 <= j <= |rows|
    requires Retrained(c, rows, truths, Prefix(j), priors, OnlineIterations).None?
    ensures Retrained(c, rows, truths, Prefix(|rows|), priors, OnlineIterations).None?
  {
    var rest := Prefix(|rows|)[j..];
    RetrainedFailureSticks(c, rows, truths, Prefix(j), rest, priors, OnlineIterations);
    assert Prefix(j) + rest == Prefix(|rows|);
  }
}
