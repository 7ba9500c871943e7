/** What the selection rules of the learners compute, as functions of the
    data: the expected risk after a what-if label (`ActiveLearner`), the
    distance of a prediction from 0.5 (`UncertainActiveLearner`), and the
    shortlist and evidence score of `ActiveEvidence`. The methods of
    `Learners.Learner` are proved to compute these. */
module Selection {
  import opened Numerics
  import opened Collections
  import opened Sorting
  import opened Classifier
  import opened Risk

  /** Every position of `order` is an instance index below `n`. */
  predicate InRange(order: seq<int>, n: int)
  {
    forall j :: 0 <= j < |order| ==> 0 <= order[j] < n
  }

  /** After the first `i` candidates of `order` a selection loop holds the
      first best of them: its position `best`, its instance and its value. */
  predicate Leads(vals: seq<real>, order: seq<int>, i: int, best: int, minimise: bool, argMax: int, maxVal: Double)
  {
    0 < i <= |vals| && |vals| == |order| && IsFirstBest(vals[..i], best, minimise) &&
    argMax == order[best] && maxVal == Finite(vals[best])
  }

  /** The body of the selection loops of `GetArgMaxVOI`:
      `if (v < maxVal || unset)` when minimising (`>` when maximising),
      take candidate `i`. Starting from an infinite bound that every
      value beats, the loop keeps the first best position seen so far. */
  method Improve(ghost vals: seq<real>, order: seq<int>, i: int, v: real, unset: bool, minimise: bool,
                 argMax: int, maxVal: Double, ghost best: int)
    returns (argMax': int, maxVal': Double, ghost best': int)
    requires 0 <= i < |vals| == |order| && v == vals[i]
    requires unset <==> i == 0
    requires i == 0 ==> maxVal == (if minimise then PositiveInfinity else NegativeInfinity)
    requires i > 0 ==> Leads(vals, order, i, best, minimise, argMax, maxVal)
    ensures Leads(vals, order, i + 1, best', minimise, argMax', maxVal')
  {
    if i > 0 {
      FirstBestStep(vals, i, best, minimise);
    }
    if (if minimise then Less(Finite(v), maxVal) else Less(maxVal, Finite(v))) || unset {
      argMax', maxVal', best' := order[i], Finite(v), i;
    } else {
      argMax', maxVal', best' := argMax, maxVal, best;
    }
  }

  /** What such a loop ends with over all candidates: the position the
      reference definition `FirstBest` picks. */
  lemma ImproveDone(vals: seq<real>, best: int, minimise: bool)
    requires vals != [] && IsFirstBest(vals[..|vals|], best, minimise)
    ensures best == FirstBest(vals, minimise) && IsFirstBest(vals, best, minimise)
  {
    assert vals[..|vals|] == vals;
    FirstBestIsFirstBest(vals, minimise);
    FirstBestUnique(vals, best, FirstBest(vals, minimise), minimise);
  }

  // ---------------------------------------------------------------
  // Expected risk (ActiveLearner)
  // ---------------------------------------------------------------

  /** The predictions for every row after training one iteration on the
      single instance `index` labelled `truth`, starting from (and falling
      back to) `priors`. */
  function WhatIfPredictions(c: Classifier, rows: seq<Vector>, index: int, truth: bool, priors: Marginals): (probs: seq<Prob>)
    requires 0 <= index < |rows|
    ensures |probs| == |rows|
  {
    TestRows(c, rows, TrainOrPriors(c, Single(rows[index], truth), priors, 1))
  }

  /** One branch of `JAll_j(index)`: the total risk over the learner's
      own sets if the instance were labelled `truth`, weighted by the then
      predicted probability of the other answer. */
  function WhatIfBranch(c: Classifier, R: RiskMatrix, rows: seq<Vector>, truths: seq<bool>,
                        labelled: set<int>, unlabelled: set<int>, index: int, truth: bool, priors: Marginals): real
    requires 0 <= index < |rows| == |truths|
  {
    var h := WhatIfPredictions(c, rows, index, truth, priors);
    TotalRisk(R, truths[index := truth], h, labelled, unlabelled) * (if truth then 1.0 - h[index] else h[index])
  }

  /** `JAll_j(index)`: the positive branch plus the negative one. */
  function WhatIfRisk(c: Classifier, R: RiskMatrix, rows: seq<Vector>, truths: seq<bool>,
                      labelled: set<int>, unlabelled: set<int>, index: int, priors: Marginals): real
    requires 0 <= index < |rows| == |truths|
  {
    WhatIfBranch(c, R, rows, truths, labelled, unlabelled, index, true, priors) +
    WhatIfBranch(c, R, rows, truths, labelled, unlabelled, index, false, priors)
  }

  /** The value of information of candidate `index`, against the total
      risk `jall` under the predictions `probs`. */
  function CandidateVoi(c: Classifier, R: RiskMatrix, costs: seq<real>, rows: seq<Vector>, truths: seq<bool>,
                        labelled: set<int>, unlabelled: set<int>, probs: seq<real>, priors: Marginals,
                        jall: real, index: int): real
    requires |costs| >= 2 && 0 <= index < |rows| == |truths| && index < |probs|
  {
    Voi(jall, WhatIfRisk(c, R, rows, truths, labelled, unlabelled, index, priors), QueryCost(costs, probs[index]))
  }

  /** The value of information of every candidate in `order`, in order. */
  function RiskVois(c: Classifier, R: RiskMatrix, costs: seq<real>, rows: seq<Vector>, truths: seq<bool>,
                    labelled: set<int>, unlabelled: set<int>, probs: seq<real>, priors: Marginals,
                    order: seq<int>, jall: real): (vois: seq<real>)
    requires |costs| >= 2 && |rows| == |truths|
    requires InRange(order, |rows|) && InRange(order, |probs|)
    ensures |vois| == |order|
  {
    if order == [] then []
    else
      RiskVois(c, R, costs, rows, truths, labelled, unlabelled, probs, priors, order[..|order| - 1], jall) +
      [CandidateVoi(c, R, costs, rows, truths, labelled, unlabelled, probs, priors, jall, order[|order| - 1])]
  }

  lemma {:induction false} RiskVoisAt(c: Classifier, R: RiskMatrix, costs: seq<real>, rows: seq<Vector>, truths: seq<bool>,
                                      labelled: set<int>, unlabelled: set<int>, probs: seq<real>, priors: Marginals,
                                      order: seq<int>, jall: real, i: int)
    requires |costs| >= 2 && |rows| == |truths|
    requires InRange(order, |rows|) && InRange(order, |probs|) && 0 <= i < |order|
    ensures RiskVois(c, R, costs, rows, truths, labelled, unlabelled, probs, priors, order, jall)[i] ==
            CandidateVoi(c, R, costs, rows, truths, labelled, unlabelled, probs, priors, jall, order[i])
  {
    if i < |order| - 1 {
      RiskVoisAt(c, R, costs, rows, truths, labelled, unlabelled, probs, priors, order[..|order| - 1], jall, i);
    }
  }

  /** The what-if risk never looks at the candidate's own label: it is the
      same whatever label the candidate has. */
  lemma WhatIfRiskIgnoresOwnLabel(c: Classifier, R: RiskMatrix, rows: seq<Vector>, truths: seq<bool>,
                                  labelled: set<int>, unlabelled: set<int>, index: int, priors: Marginals, b: bool)
    requires 0 <= index < |rows| == |truths|
    ensures WhatIfRisk(c, R, rows, truths[index := b], labelled, unlabelled, index, priors) ==
            WhatIfRisk(c, R, rows, truths, labelled, unlabelled, index, priors)
  {
    assert truths[index := b][index := true] == truths[index := true];
    assert truths[index := b][index := false] == truths[index := false];
  }

  /** With a non-negative risk matrix the what-if risk is non-negative. */
  lemma WhatIfRiskNonNegative(c: Classifier, R: RiskMatrix, rows: seq<Vector>, truths: seq<bool>,
                              labelled: set<int>, unlabelled: set<int>, index: int, priors: Marginals)
    requires 0 <= index < |rows| == |truths| && R.NonNegative()
    ensures WhatIfRisk(c, R, rows, truths, labelled, unlabelled, index, priors) >= 0.0
  {
    var hp := WhatIfPredictions(c, rows, index, true, priors);
    var hn := WhatIfPredictions(c, rows, index, false, priors);
    TotalRiskNonNegative(R, truths[index := true], hp, labelled, unlabelled);
    TotalRiskNonNegative(R, truths[index := false], hn, labelled, unlabelled);
    MulSigns(TotalRisk(R, truths[index := true], hp, labelled, unlabelled), 1.0 - hp[index]);
    MulSigns(TotalRisk(R, truths[index := false], hn, labelled, unlabelled), hn[index]);
  }

  /** When training on the candidate fails for both labels, both what-if
      branches keep the priors' predictions, the two weights add up to
      one, and the what-if risk of an unlabelled candidate is the current
      total risk: its value of information is minus its query cost. */
  lemma WhatIfWithoutLearning(c: Classifier, R: RiskMatrix, costs: seq<real>, rows: seq<Vector>, truths: seq<bool>,
                              labelled: set<int>, unlabelled: set<int>, index: int, priors: Marginals)
    requires 0 <= index < |rows| == |truths| && index !in labelled && |costs| >= 2
    requires c.train(Single(rows[index], true), priors, 1).None?
    requires c.train(Single(rows[index], false), priors, 1).None?
    ensures WhatIfRisk(c, R, rows, truths, labelled, unlabelled, index, priors) ==
            TotalRisk(R, truths, TestRows(c, rows, priors), labelled, unlabelled)
    ensures var probs := TestRows(c, rows, priors);
      Voi(TotalRisk(R, truths, probs, labelled, unlabelled),
          WhatIfRisk(c, R, rows, truths, labelled, unlabelled, index, priors),
          QueryCost(costs, probs[index])) == -QueryCost(costs, probs[index])
  {
    var probs := TestRows(c, rows, priors);
    LabelledRiskIgnoresOtherLabels(R, truths, probs, labelled, index, true);
    LabelledRiskIgnoresOtherLabels(R, truths, probs, labelled, index, false);
    var total := TotalRisk(R, truths, probs, labelled, unlabelled);
    assert total * (1.0 - probs[index]) + total * probs[index] == total;
  }

  // ---------------------------------------------------------------
  // Uncertainty (UncertainActiveLearner)
  // ---------------------------------------------------------------

  /** `|0.5 - p|` for every candidate in `order`. */
  function Distances(probs: seq<real>, order: seq<int>): (d: seq<real>)
    requires InRange(order, |probs|)
    ensures |d| == |order|
    ensures forall i :: 0 <= i < |order| ==> d[i] == Abs(0.5 - probs[order[i]]) && 0.0 <= d[i]
  {
    seq(|order|, i requires 0 <= i < |order| => Abs(0.5 - probs[order[i]]))
  }

  // ---------------------------------------------------------------
  // Evidence (ActiveEvidence)
  // ---------------------------------------------------------------

  /** How far the prediction for `k` is from 0.5, the shortlist's key. */
  function Distance(h: seq<real>, k: int): real
  {
    if 0 <= k < |h| then Abs(h[k] - 0.5) else 0.0
  }

  /** The key comparison of the shortlist's `OrderBy`. */
  function Closer(h: seq<real>): (int, int) -> bool
  {
    (a: int, b: int) => Distance(h, a) < Distance(h, b)
  }

  lemma CloserIsStrictWeakOrder(h: seq<real>)
    ensures StrictWeakOrder(Closer(h))
  {
  }

  /** The shuffled unlabelled instances, stably sorted by their distance
      from 0.5, cut after ten. */
  function Shortlist(h: seq<real>, shuffled: seq<int>): (r: seq<int>)
  {
    Take(SortBy(shuffled, Closer(h)), 10)
  }

  /** The shortlist holds ten unlabelled instances, or all of them when
      there are fewer, each once, in non-decreasing distance from 0.5, with
      instances at the same distance in their shuffled order, and no
      unlabelled instance left out is strictly closer to 0.5 than one
      kept. */
  lemma ShortlistIsClosest(h: seq<real>, shuffled: seq<int>, unlabelled: set<int>)
    requires IsEnumeration(shuffled, unlabelled)
    ensures |Shortlist(h, shuffled)| == if |unlabelled| < 10 then |unlabelled| else 10
    ensures forall i :: 0 <= i < |Shortlist(h, shuffled)| ==> Shortlist(h, shuffled)[i] in unlabelled
    ensures Distinct(Shortlist(h, shuffled))
    ensures forall i, j :: 0 <= i < j < |Shortlist(h, shuffled)| ==>
      Distance(h, Shortlist(h, shuffled)[i]) <= Distance(h, Shortlist(h, shuffled)[j])
    ensures forall i, j ::
      (0 <= i < j < |Shortlist(h, shuffled)| &&
       Distance(h, Shortlist(h, shuffled)[i]) == Distance(h, Shortlist(h, shuffled)[j])) ==>
      IndexOf(shuffled, Shortlist(h, shuffled)[i]) < IndexOf(shuffled, Shortlist(h, shuffled)[j])
    ensures forall x, i :: x in unlabelled && x !in Shortlist(h, shuffled) && 0 <= i < |Shortlist(h, shuffled)| ==>
      Distance(h, Shortlist(h, shuffled)[i]) <= Distance(h, x)
  {
    var sorted := SortBy(shuffled, Closer(h));
    var r := Shortlist(h, shuffled);
    EnumerationLength(shuffled, unlabelled);
    CloserIsStrictWeakOrder(h);
    SortBySorted(shuffled, Closer(h));
    DistinctPermutation(shuffled, sorted);
    SortByStable(shuffled, Closer(h));
    forall i, j | 0 <= i < j < |r| && Distance(h, r[i]) == Distance(h, r[j])
      ensures IndexOf(shuffled, r[i]) < IndexOf(shuffled, r[j])
    {
      assert r[i] == sorted[i] && r[j] == sorted[j];
      assert !Closer(h)(sorted[i], sorted[j]);
    }
    forall i | 0 <= i < |r| ensures r[i] in unlabelled {
      assert r[i] == sorted[i];
      assert sorted[i] in multiset(sorted);
    }
    forall x, i | x in unlabelled && x !in r && 0 <= i < |r|
      ensures Distance(h, r[i]) <= Distance(h, x)
    {
      assert x in multiset(shuffled);
      assert x in multiset(sorted);
      var j :| 0 <= j < |sorted| && sorted[j] == x;
      assert j >= |r|;
      assert !Closer(h)(sorted[j], sorted[i]);
    }
  }

  /** The instances `labelled.ToList()` lists, gathered with their labels
      into a one-resident table, as `GetSubSet(0, list)` builds it. */
  function Gather(rows: seq<Vector>, truths: seq<bool>, order: seq<int>): (t: Table)
    requires |rows| == |truths| && InRange(order, |rows|)
    ensures |t.features| == |t.labels| == 1
    ensures |t.features[0]| == |t.labels[0]| == |order|
    ensures forall j :: 0 <= j < |order| ==>
      t.features[0][j] == rows[order[j]] && t.labels[0][j] == truths[order[j]]
  {
    Table([seq(|order|, j requires 0 <= j < |order| => rows[order[j]])],
          [seq(|order|, j requires 0 <= j < |order| => truths[order[j]])])
  }

  /** The weights after the what-if label `truth`: the priors when the
      learner is reversed (no training at all), else the result of one
      training iteration on the candidate, or the priors when that fails. */
  function Posterior(c: Classifier, reversed: bool, rows: seq<Vector>, index: int, truth: bool, priors: Marginals): (m: Marginals)
    requires 0 <= index < |rows|
    ensures reversed ==> m == priors
    ensures !reversed ==> m == TrainOrPriors(c, Single(rows[index], truth), priors, 1)
  {
    if reversed then priors else TrainOrPriors(c, Single(rows[index], truth), priors, 1)
  }

  /** `Math.Max(r, 1.0 / r)` for the ratio `a / b`. */
  function RatioScore(a: real, b: real): Double
  {
    Score(Divide(a, b))
  }

  /** For sums of the same sign the score is at least one. */
  lemma RatioScoreAtLeastOne(a: real, b: real)
    requires (a > 0.0 && b > 0.0) || (a < 0.0 && b < 0.0)
    ensures RatioScore(a, b).Finite? && RatioScore(a, b).value >= 1.0
  {
    var q := a / b;
    assert q * b == a;
    ScoreAtLeastOne(q);
  }

  /** The score does not change when the two sums trade places, that is
      when the roles of the positive and the negative label are swapped. */
  lemma RatioScoreSymmetric(a: real, b: real)
    ensures RatioScore(b, a) == RatioScore(a, b)
  {
    if a != 0.0 && b != 0.0 {
      DivFlip(a, b);
      DivFlip(b, a);
    }
  }

  /** A zero sum on either side: over a zero denominator the score is
      positive infinity, the negative zero or NaN as the numerator is
      positive, negative or zero, and a zero numerator over a negative sum
      scores the negative zero, over a positive one positive infinity. */
  lemma RatioScoreByZero(a: real)
    ensures a > 0.0 ==> RatioScore(a, 0.0) == PositiveInfinity
    ensures a < 0.0 ==> RatioScore(a, 0.0) == NegativeZero
    ensures a == 0.0 ==> RatioScore(a, 0.0).NaN?
    ensures a > 0.0 ==> RatioScore(0.0, a) == PositiveInfinity
    ensures a < 0.0 ==> RatioScore(0.0, a) == NegativeZero
  {
  }

  /** `ExpectedEvidence(index)`: the evidence of the labelled instances
      plus the candidate, under the priors and under the what-if
      posterior, with the candidate labelled positive and then negative;
      the score of the ratio of the two sums `prior log odds + posterior
      log probability of true`. */
  function EvidenceScore(c: Classifier, reversed: bool, rows: seq<Vector>, truths: seq<bool>,
                         index: int, order: seq<int>, priors: Marginals): Double
    requires 0 <= index < |rows| == |truths| && InRange(order, |rows|)
  {
    var tp := Gather(rows, truths[index := true], order);
    var tn := Gather(rows, truths[index := false], order);
    var positivePrior := c.evidence(tp, priors);
    var positivePosterior := c.evidence(tp, Posterior(c, reversed, rows, index, true, priors));
    var negativePrior := c.evidence(tn, priors);
    var negativePosterior := c.evidence(tn, Posterior(c, reversed, rows, index, false, priors));
    RatioScore(positivePrior.logOdds + positivePosterior.logProbTrue,
               negativePrior.logOdds + negativePosterior.logProbTrue)
  }

  /** A reversed learner never trains: its score depends on the evidence
      model only. A learner whose training fails for both labels scores a
      candidate as a reversed one does. */
  lemma EvidenceFallsBackToPriors(c: Classifier, c': Classifier, rows: seq<Vector>, truths: seq<bool>,
                                  index: int, order: seq<int>, priors: Marginals)
    requires 0 <= index < |rows| == |truths| && InRange(order, |rows|)
    ensures c.evidence == c'.evidence ==>
      EvidenceScore(c, true, rows, truths, index, order, priors) ==
      EvidenceScore(c', true, rows, truths, index, order, priors)
    ensures c.train(Single(rows[index], true), priors, 1).None? &&
            c.train(Single(rows[index], false), priors, 1).None? ==>
      EvidenceScore(c, false, rows, truths, index, order, priors) ==
      EvidenceScore(c, true, rows, truths, index, order, priors)
  {
  }

  /** Dictionary entries `(index, score)` are ordered by score in the
      order `Comparer<double>.Default` gives doubles. */
  predicate ScoreBefore(a: (int, Double), b: (int, Double))
  {
    Precedes(a.1, b.1)
  }

  lemma ScoreBeforeIsStrictWeakOrder()
    ensures StrictWeakOrder(ScoreBefore)
  {
  }

  /** The evidence dictionary of `GetArgMaxVOI`, in insertion order: each
      shortlisted index with its score. */
  function EvidenceEntries(c: Classifier, reversed: bool, rows: seq<Vector>, truths: seq<bool>,
                           shortlist: seq<int>, orderOf: int -> seq<int>, priors: Marginals): (entries: seq<(int, Double)>)
    requires |rows| == |truths| && InRange(shortlist, |rows|)
    requires forall i :: 0 <= i < |shortlist| ==> InRange(orderOf(shortlist[i]), |rows|)
    ensures |entries| == |shortlist|
    ensures forall i :: 0 <= i < |shortlist| ==>
      entries[i] == (shortlist[i], EvidenceScore(c, reversed, rows, truths, shortlist[i], orderOf(shortlist[i]), priors))
  {
    seq(|shortlist|, i requires 0 <= i < |shortlist| =>
      (shortlist[i], EvidenceScore(c, reversed, rows, truths, shortlist[i], orderOf(shortlist[i]), priors)))
  }

  /** Every candidate's listing of the labelled set with itself added
      holds instance indices below `n`. */
  lemma OrdersInRange(candidates: seq<int>, labelled: set<int>, unlabelled: set<int>, orderOf: int -> seq<int>, n: int)
    requires forall i :: 0 <= i < |candidates| ==> candidates[i] in unlabelled
    requires forall k :: k in labelled ==> 0 <= k < n
    requires forall k :: k in unlabelled ==> 0 <= k < n
    requires forall k :: k in unlabelled ==> IsEnumeration(orderOf(k), labelled + {k})
    ensures forall i :: 0 <= i < |candidates| ==> InRange(orderOf(candidates[i]), n)
  {
    forall i | 0 <= i < |candidates| ensures InRange(orderOf(candidates[i]), n) {
      var k := candidates[i];
      assert IsEnumeration(orderOf(k), labelled + {k});
    }
  }

  /** The evidence dictionary built from the shortlist of the unlabelled
      set shuffled into `shuffled`, under the predictions `h`: as many
      entries as the shortlist has, each keyed by an unlabelled instance. */
  function ShortlistScores(c: Classifier, reversed: bool, rows: seq<Vector>, truths: seq<bool>,
                           labelled: set<int>, unlabelled: set<int>, h: seq<real>, shuffled: seq<int>,
                           orderOf: int -> seq<int>, priors: Marginals): (entries: seq<(int, Double)>)
    requires |rows| == |truths| && IsEnumeration(shuffled, unlabelled)
    requires forall k :: k in labelled ==> 0 <= k < |rows|
    requires forall k :: k in unlabelled ==> 0 <= k < |rows|
    requires forall k :: k in unlabelled ==> IsEnumeration(orderOf(k), labelled + {k})
    ensures |entries| == if |unlabelled| < 10 then |unlabelled| else 10
    ensures forall i :: 0 <= i < |entries| ==> entries[i].0 in unlabelled
  {
    var shortlist := Shortlist(h, shuffled);
    ShortlistIsClosest(h, shuffled, unlabelled);
    OrdersInRange(shortlist, labelled, unlabelled, orderOf, |rows|);
    EvidenceEntries(c, reversed, rows, truths, shortlist, orderOf, priors)
  }

  /** `OrderBy(ee => ee.Value).First()`: the first entry no other entry
      sorts strictly before. */
  lemma FirstByScore(entries: seq<(int, Double)>)
    requires entries != []
    ensures IsFirstLeast(entries, FirstLeast(entries, ScoreBefore), ScoreBefore)
    ensures SortBy(entries, ScoreBefore)[0] == entries[FirstLeast(entries, ScoreBefore)]
  {
    ScoreBeforeIsStrictWeakOrder();
    FirstLeastIsFirstLeast(entries, ScoreBefore);
    SortByHead(entries, ScoreBefore);
  }
}
