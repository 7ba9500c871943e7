/** The risk objective both value-of-information learners minimise.

    For an instance with predicted probability `p` of the positive
    activity, a labelled instance costs what the risk matrix charges for
    the prediction given its label, and an unlabelled instance costs the
    same risk in expectation over a label drawn from `p`. The total risk
    sums these over the labelled and the unlabelled set; the value of
    querying a label is the drop in total risk it is expected to bring,
    less the cost of the query. */
module Risk {
  import opened Numerics
  import opened Collections

  /** The 2x2 risk matrix `R[i, j]`; the code reads `R[1, 0]` (a positive
      instance predicted negative) and `R[0, 1]` (a negative instance
      predicted positive). */
  datatype RiskMatrix = RiskMatrix(r00: real, r01: real, r10: real, r11: real)
  {
    /** Both read entries are non-negative. */
    predicate NonNegative()
    {
      r01 >= 0.0 && r10 >= 0.0
    }
  }

  /** The matrix every learner is created with: {{0, 1}, {1, 0}}. */
  const ZeroOne := RiskMatrix(0.0, 1.0, 1.0, 0.0)

  /** `JL_ii`: the risk of a labelled instance. */
  function LabelledTerm(R: RiskMatrix, isPositive: bool, p: real): real
  {
    if isPositive then R.r10 * (1.0 - p) else R.r01 * p
  }

  /** `JU_ii`: the risk of an unlabelled instance. */
  function UnlabelledTerm(R: RiskMatrix, p: real): real
  {
    (R.r10 + R.r01) * (1.0 - p) * p
  }

  /** The unlabelled risk is the labelled risk expected under the
      prediction itself: positive with probability `p`. */
  lemma UnlabelledIsExpectedLabelled(R: RiskMatrix, p: real)
    ensures UnlabelledTerm(R, p) == p * LabelledTerm(R, true, p) + (1.0 - p) * LabelledTerm(R, false, p)
  {
  }

  /** Both terms are non-negative for a non-negative matrix. */
  lemma TermsNonNegative(R: RiskMatrix, isPositive: bool, p: Prob)
    requires R.NonNegative()
    ensures LabelledTerm(R, isPositive, p) >= 0.0
    ensures UnlabelledTerm(R, p) >= 0.0
  {
    MulSigns(1.0 - p, p);
    MulSigns(R.r10 + R.r01, (1.0 - p) * p);
    MulSigns(R.r10, 1.0 - p);
    MulSigns(R.r01, p);
  }

  /** The unlabelled risk vanishes on a certain prediction and peaks at
      `p = 0.5`, with a quarter of `R[1,0] + R[0,1]`. */
  lemma UnlabelledTermPeak(R: RiskMatrix, p: real)
    requires R.NonNegative()
    ensures p == 0.0 || p == 1.0 ==> UnlabelledTerm(R, p) == 0.0
    ensures UnlabelledTerm(R, 0.5) == (R.r10 + R.r01) / 4.0
    ensures UnlabelledTerm(R, p) <= UnlabelledTerm(R, 0.5)
  {
    PeakForm(R.r10 + R.r01, p);
    ScaledSquare(R.r10 + R.r01, p - 0.5);
  }

  /** `s d^2` is non-negative for non-negative `s`. */
  lemma ScaledSquare(s: real, d: real)
    requires s >= 0.0
    ensures s * (d * d) >= 0.0
  {
    Square(d);
    assert s * (d * d) >= 0.0 * (d * d);
  }

  /** `s (1 - p) p` written around its vertex. */
  lemma PeakForm(s: real, p: real)
    ensures s * (1.0 - p) * p == s * 0.25 - s * ((p - 0.5) * (p - 0.5))
  {
    var d := p - 0.5;
    assert (1.0 - p) * p == 0.25 - d * d;
    assert s * (1.0 - p) * p == s * ((1.0 - p) * p);
  }

  /** Every index of the set has a label and a prediction. */
  predicate Indexed(s: set<int>, labels: seq<bool>, probs: seq<real>)
  {
    forall k :: k in s ==> 0 <= k < |labels| && k < |probs|
  }

  /** `JL_ii(index)` for every instance index (zero where the index has
      no label or prediction). */
  function LabelledTerms(R: RiskMatrix, labels: seq<bool>, probs: seq<real>): int -> real
  {
    k => if 0 <= k < |labels| && k < |probs| then LabelledTerm(R, labels[k], probs[k]) else 0.0
  }

  /** `JU_ii(index)` for every instance index. */
  function UnlabelledTerms(R: RiskMatrix, probs: seq<real>): int -> real
  {
    k => if 0 <= k < |probs| then UnlabelledTerm(R, probs[k]) else 0.0
  }

  /** `JL(labelled)`: the risk summed over a set of labelled instances. */
  function LabelledRisk(R: RiskMatrix, labels: seq<bool>, probs: seq<real>, labelled: set<int>): real
  {
    SetSum(labelled, LabelledTerms(R, labels, probs))
  }

  /** `JU(unlabelled)`: the risk summed over a set of unlabelled instances. */
  function UnlabelledRisk(R: RiskMatrix, probs: seq<real>, unlabelled: set<int>): real
  {
    SetSum(unlabelled, UnlabelledTerms(R, probs))
  }

  /** `JAll()`: unlabelled plus labelled risk. */
  function TotalRisk(R: RiskMatrix, labels: seq<bool>, probs: seq<real>, labelled: set<int>, unlabelled: set<int>): real
  {
    UnlabelledRisk(R, probs, unlabelled) + LabelledRisk(R, labels, probs, labelled)
  }

  /** `JMean()`: the total risk per instance, a double division that gives
      NaN when both sets are empty. */
  function MeanRisk(R: RiskMatrix, labels: seq<bool>, probs: seq<real>, labelled: set<int>, unlabelled: set<int>): (r: Double)
    ensures r.NaN? <==> labelled == {} && unlabelled == {}
  {
    Divide(TotalRisk(R, labels, probs, labelled, unlabelled), (|unlabelled| + |labelled|) as real)
  }

  /** The total risk is non-negative for a non-negative matrix and
      predictions that are probabilities. */
  lemma TotalRiskNonNegative(R: RiskMatrix, labels: seq<bool>, probs: seq<real>, labelled: set<int>, unlabelled: set<int>)
    requires R.NonNegative()
    requires forall i :: 0 <= i < |probs| ==> 0.0 <= probs[i] <= 1.0
    ensures TotalRisk(R, labels, probs, labelled, unlabelled) >= 0.0
  {
    var fl := LabelledTerms(R, labels, probs);
    var fu := UnlabelledTerms(R, probs);
    forall k | k in labelled ensures fl(k) >= 0.0 {
      if 0 <= k < |labels| && k < |probs| { TermsNonNegative(R, labels[k], probs[k]); }
    }
    forall k | k in unlabelled ensures fu(k) >= 0.0 {
      if 0 <= k < |probs| { TermsNonNegative(R, true, probs[k]); }
    }
    SetSumNonNegative(labelled, fl);
    SetSumNonNegative(unlabelled, fu);
  }

  /** The labelled risk reads only the labels of labelled instances:
      rewriting the label of any other instance leaves it unchanged. */
  lemma LabelledRiskIgnoresOtherLabels(R: RiskMatrix, labels: seq<bool>, probs: seq<real>, labelled: set<int>, k: int, b: bool)
    requires 0 <= k < |labels| && k !in labelled
    ensures LabelledRisk(R, labels[k := b], probs, labelled) == LabelledRisk(R, labels, probs, labelled)
  {
    var labels' := labels[k := b];
    SetSumCongruent(labelled, LabelledTerms(R, labels', probs), LabelledTerms(R, labels, probs));
  }

  /** Moving an unlabelled instance into the labelled set trades its
      unlabelled term for its labelled term. */
  lemma MoveToLabelled(R: RiskMatrix, labels: seq<bool>, probs: seq<real>, labelled: set<int>, unlabelled: set<int>, k: int)
    requires 0 <= k < |labels| && k < |probs|
    requires k in unlabelled && k !in labelled
    ensures TotalRisk(R, labels, probs, labelled + {k}, unlabelled - {k}) ==
      TotalRisk(R, labels, probs, labelled, unlabelled)
      - UnlabelledTerm(R, probs[k]) + LabelledTerm(R, labels[k], probs[k])
  {
    SetSumRemove(unlabelled, UnlabelledTerms(R, probs), k);
    SetSumAdd(labelled, LabelledTerms(R, labels, probs), k);
  }

  /** `Cj` in ActiveLearner.cs: `Costs[1] * p + Costs[0] * (1 - p)`. */
  function QueryCost(costs: seq<real>, p: real): real
    requires |costs| >= 2
  {
    costs[1] * p + costs[0] * (1.0 - p)
  }

  /** `Cj` in Active.cs, which reads the two costs the other way round:
      `C[0] * p + C[1] * (1 - p)`. */
  function SwappedQueryCost(costs: seq<real>, p: real): real
    requires |costs| >= 2
  {
    costs[0] * p + costs[1] * (1.0 - p)
  }

  /** The two cost formulas agree exactly when the probability is replaced
      by its complement, and for every probability when both costs are
      equal, as they are for every learner the program creates. */
  lemma QueryCostsCompared(costs: seq<real>, p: real)
    requires |costs| >= 2
    ensures SwappedQueryCost(costs, p) == QueryCost(costs, 1.0 - p)
    ensures costs[0] == costs[1] ==> SwappedQueryCost(costs, p) == QueryCost(costs, p) == costs[0]
    ensures costs[0] != costs[1] && p != 0.5 ==> SwappedQueryCost(costs, p) != QueryCost(costs, p)
  {
    var a := costs[1] - costs[0];
    var b := 2.0 * p - 1.0;
    assert QueryCost(costs, p) - SwappedQueryCost(costs, p) == a * b;
    MulSigns(a, b);
  }

  /** `VOI`: the expected drop in total risk, less the query cost. */
  function Voi(jall: real, expected: real, cost: real): real
  {
    (jall - expected) - cost
  }
}
