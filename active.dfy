/** The stand-alone learner of Active.cs (class `Active`).

    It keeps its own copy of the data (the feature rows and the label rows
    of the residents, of which it only ever reads the first), its own
    labelled and unlabelled sets `L` and `U`, and its own predictions
    `probs`. Its what-if risk `JAll_j` does not retrain (those calls are
    commented out in the source), so the value of information has a closed
    form, proved here.

    Its `Train` and `Test` calls use a signature the classifier of this
    repository does not offer, so the two are uninterpreted functions of
    their own here: `train` takes the instances, each as a resident of its
    own, and the current weights, and may fail; `predict` gives one
    instance's probability under the weights. */
module ActiveArrays {
  import opened Numerics
  import opened Outcomes
  import opened Collections
  import opened Classifier
  import opened Risk
  import opened Selection
  import opened Sorting

  /** The training data `UpdateModel(inds)` builds: each listed instance as
      a one-row resident with its label. */
  function Instances(rows: seq<Vector>, labels: seq<bool>, inds: seq<int>): (t: Table)
    requires InRange(inds, |rows|) && InRange(inds, |labels|)
    ensures |t.features| == |t.labels| == |inds|
    ensures forall j :: 0 <= j < |inds| ==> t.features[j] == [rows[inds[j]]] && t.labels[j] == [labels[inds[j]]]
  {
    Table(seq(|inds|, j requires 0 <= j < |inds| => [rows[inds[j]]]),
          seq(|inds|, j requires 0 <= j < |inds| => [labels[inds[j]]]))
  }

  /** `JAll_j(p, ind)`: the total risk with `ind` moved to the labelled
      set, labelled positive and weighted by the probability of a
      negative, plus the same labelled negative and weighted by the
      probability of a positive. The predictions are not recomputed. */
  function WhatIfTotal(R: RiskMatrix, labels: seq<bool>, probs: seq<real>, L: set<int>, U: set<int>, ind: int): real
    requires 0 <= ind < |labels| && ind < |probs|
  {
    var L' := L + {ind};
    var U' := U - {ind};
    (LabelledRisk(R, labels[ind := true], probs, L') + UnlabelledRisk(R, probs, U')) * (1.0 - probs[ind]) +
    (LabelledRisk(R, labels[ind := false], probs, L') + UnlabelledRisk(R, probs, U')) * probs[ind]
  }

  /** `WhatIfTotal` from the risks of its two branches. */
  lemma WhatIfTotalOf(R: RiskMatrix, labels: seq<bool>, probs: seq<real>, L: set<int>, U: set<int>, ind: int,
                      pos: real, neg: real, p: real)
    requires 0 <= ind < |labels| && ind < |probs|
    requires pos == LabelledRisk(R, labels[ind := true], probs, L + {ind}) + UnlabelledRisk(R, probs, U - {ind})
    requires neg == LabelledRisk(R, labels[ind := false], probs, L + {ind}) + UnlabelledRisk(R, probs, U - {ind})
    requires p == probs[ind]
    ensures WhatIfTotal(R, labels, probs, L, U, ind) == pos * (1.0 - p) + neg * p
  {
  }

  /** With `S` the risk of the other instances, the what-if risk of a
      candidate that is not labelled is `S` plus its labelled term as a
      positive, weighted by `1 - p`, plus its labelled term as a negative,
      weighted by `p`: `S + R[1,0] (1 - p)^2 + R[0,1] p^2`. */
  lemma WhatIfTotalClosedForm(R: RiskMatrix, labels: seq<bool>, probs: seq<real>, L: set<int>, U: set<int>, ind: int)
    requires 0 <= ind < |labels| && ind < |probs| && ind !in L
    ensures var p := probs[ind];
      WhatIfTotal(R, labels, probs, L, U, ind) ==
        LabelledRisk(R, labels, probs, L) + UnlabelledRisk(R, probs, U - {ind}) +
        (LabelledTerm(R, true, p) * (1.0 - p) + LabelledTerm(R, false, p) * p)
  {
    var p := probs[ind];
    WhatIfTotalBranches(R, labels, probs, L, U, ind);
    Weighting(LabelledRisk(R, labels, probs, L) + UnlabelledRisk(R, probs, U - {ind}),
              LabelledTerm(R, true, p), LabelledTerm(R, false, p), p);
  }

  /** The two branches of `WhatIfTotal` of a candidate that is not
      labelled: `S` plus the candidate's labelled term for that answer. */
  lemma WhatIfTotalBranches(R: RiskMatrix, labels: seq<bool>, probs: seq<real>, L: set<int>, U: set<int>, ind: int)
    requires 0 <= ind < |labels| && ind < |probs| && ind !in L
    ensures var p := probs[ind];
      var S := LabelledRisk(R, labels, probs, L) + UnlabelledRisk(R, probs, U - {ind});
      WhatIfTotal(R, labels, probs, L, U, ind) ==
        (S + LabelledTerm(R, true, p)) * (1.0 - p) + (S + LabelledTerm(R, false, p)) * p
  {
    LabelledAdd(R, labels, probs, L, ind, true);
    LabelledAdd(R, labels, probs, L, ind, false);
  }

  /** Weighting the two branches by `1 - p` and `p` keeps what they share. */
  lemma Weighting(S: real, t: real, f: real, p: real)
    ensures (S + t) * (1.0 - p) + (S + f) * p == S + (t * (1.0 - p) + f * p)
  {
  }

  /** Labelling a new instance `b` adds its labelled term to the
      labelled risk. */
  lemma LabelledAdd(R: RiskMatrix, labels: seq<bool>, probs: seq<real>, L: set<int>, ind: int, b: bool)
    requires 0 <= ind < |labels| && ind < |probs| && ind !in L
    ensures LabelledRisk(R, labels[ind := b], probs, L + {ind}) ==
            LabelledRisk(R, labels, probs, L) + LabelledTerm(R, b, probs[ind])
  {
    SetSumAdd(L, LabelledTerms(R, labels[ind := b], probs), ind);
    LabelledRiskIgnoresOtherLabels(R, labels, probs, L, ind, b);
  }

  /** The candidate's terms, multiplied out. */
  lemma TermsAlgebra(R: RiskMatrix, p: real)
    ensures UnlabelledTerm(R, p) - (LabelledTerm(R, true, p) * (1.0 - p) + LabelledTerm(R, false, p) * p) ==
      (R.r10 + R.r01) * (1.0 - p) * p - R.r10 * (1.0 - p) * (1.0 - p) - R.r01 * p * p
  {
  }

  /** The total risk is that of the other instances plus the unlabelled
      term of an unlabelled candidate. */
  lemma TotalRiskWithout(R: RiskMatrix, labels: seq<bool>, probs: seq<real>, L: set<int>, U: set<int>, ind: int)
    requires 0 <= ind < |probs| && ind in U
    ensures TotalRisk(R, labels, probs, L, U) ==
      LabelledRisk(R, labels, probs, L) + UnlabelledRisk(R, probs, U - {ind}) + UnlabelledTerm(R, probs[ind])
  {
    SetSumRemove(U, UnlabelledTerms(R, probs), ind);
    assert UnlabelledTerms(R, probs)(ind) == UnlabelledTerm(R, probs[ind]);
  }

  /** For an unlabelled candidate, the drop from the current total risk to
      the what-if risk is the candidate's unlabelled term less its two
      labelled terms, each weighted by the probability of its answer;
      with `TermsAlgebra`, `(R[1,0] + R[0,1]) (1 - p) p - R[1,0] (1 - p)^2 - R[0,1] p^2`. */
  lemma RiskDropClosedForm(R: RiskMatrix, labels: seq<bool>, probs: seq<real>, L: set<int>, U: set<int>, ind: int)
    requires 0 <= ind < |labels| && ind < |probs| && ind !in L && ind in U
    ensures var p := probs[ind];
      TotalRisk(R, labels, probs, L, U) - WhatIfTotal(R, labels, probs, L, U, ind) ==
        UnlabelledTerm(R, p) - (LabelledTerm(R, true, p) * (1.0 - p) + LabelledTerm(R, false, p) * p)
  {
    WhatIfTotalClosedForm(R, labels, probs, L, U, ind);
    TotalRiskWithout(R, labels, probs, L, U, ind);
  }

  /** Under the risk matrix every learner is built with and equal query
      costs, the value of information of an unlabelled candidate is
      `-(2p - 1)^2` less the cost: the highest value goes to the
      prediction closest to 0.5, so the selection is uncertainty
      sampling. */
  lemma ZeroOneVoi(labels: seq<bool>, probs: seq<real>, L: set<int>, U: set<int>, ind: int, costs: seq<real>)
    requires 0 <= ind < |labels| && ind < |probs| && ind !in L && ind in U
    requires |costs| >= 2 && costs[0] == costs[1]
    ensures var p := probs[ind];
      Voi(TotalRisk(ZeroOne, labels, probs, L, U), WhatIfTotal(ZeroOne, labels, probs, L, U, ind),
          SwappedQueryCost(costs, p)) == -((2.0 * p - 1.0) * (2.0 * p - 1.0)) - costs[0]
  {
    var p := probs[ind];
    RiskDropClosedForm(ZeroOne, labels, probs, L, U, ind);
    TermsAlgebra(ZeroOne, p);
    QueryCostsCompared(costs, p);
    assert 2.0 * (1.0 - p) * p - (1.0 - p) * (1.0 - p) - p * p == -((2.0 * p - 1.0) * (2.0 * p - 1.0));
  }

  /** The value of information of every candidate in `order`, in order. */
  function ActiveVois(R: RiskMatrix, costs: seq<real>, labels: seq<bool>, probs: seq<real>,
                      L: set<int>, U: set<int>, order: seq<int>, jall: real): (vois: seq<real>)
    requires |costs| >= 2 && InRange(order, |labels|) && InRange(order, |probs|)
    ensures |vois| == |order|
  {
    if order == [] then []
    else
      var ind := order[|order| - 1];
      ActiveVois(R, costs, labels, probs, L, U, order[..|order| - 1], jall) +
      [Voi(jall, WhatIfTotal(R, labels, probs, L, U, ind), SwappedQueryCost(costs, probs[ind]))]
  }

  lemma {:induction false} ActiveVoisAt(R: RiskMatrix, costs: seq<real>, labels: seq<bool>, probs: seq<real>,
                                        L: set<int>, U: set<int>, order: seq<int>, jall: real, i: int)
    requires |costs| >= 2 && InRange(order, |labels|) && InRange(order, |probs|) && 0 <= i < |order|
    ensures ActiveVois(R, costs, labels, probs, L, U, order, jall)[i] ==
      Voi(jall, WhatIfTotal(R, labels, probs, L, U, order[i]), SwappedQueryCost(costs, probs[order[i]]))
  {
    if i < |order| - 1 {
      ActiveVoisAt(R, costs, labels, probs, L, U, order[..|order| - 1], jall, i);
    }
  }

  /** After the first `i` candidates of `inds` the selection loop of
      `VOITest` holds the first largest value among them: its position
      `best`, its instance and its value. */
  predicate Ahead(vois: seq<real>, inds: seq<int>, i: int, best: int, maxind: int, maxval: real)
  {
    0 < i <= |vois| && |vois| == |inds| && IsFirstBest(vois[..i], best, false) &&
    maxind == inds[best] && maxval == vois[best]
  }

  /** A listing of `U` that holds no instance of class `c` shows that
      `U` holds none. */
  lemma NoneOfClass(uinds: seq<int>, U: set<int>, truths: seq<bool>, c: bool)
    requires IsEnumeration(uinds, U)
    requires forall k :: 0 <= k < |uinds| ==> 0 <= uinds[k] < |truths| && truths[uinds[k]] != c
    ensures ClassOf(U, truths, c) == {}
  {
    forall x | x in U
      ensures x !in ClassOf(U, truths, c)
    {
      var k :| 0 <= k < |uinds| && uinds[k] == x;
    }
  }

  /** The passes of `Transfer` over the positive class add up, and every
      pass moves in the direction of `num`. */
  lemma PassesAdd(num: int, tt: int)
    requires tt >= 1
    ensures (if tt <= 1 then 0 else num * (tt - 1)) + num == num * tt
    ensures var done := if tt <= 1 then 0 else num * (tt - 1);
      (done >= 0 && num >= 0) || (done <= 0 && num <= 0)
  {
    if tt > 1 {
      if num >= 0 { assert num * (tt - 1) >= 0 * (tt - 1); }
      else { assert num * (tt - 1) <= 0 * (tt - 1); }
    }
  }

  /** The predictions `Test` gives, row by row, under the weights `w`. */
  function Predicted(rows: seq<Vector>, predict: (Vector, Marginals) -> Prob, w: Marginals): (probs: seq<real>)
    ensures |probs| == |rows|
    ensures forall i :: 0 <= i < |rows| ==> probs[i] == predict(rows[i], w) as real
  {
    seq(|rows|, i requires 0 <= i < |rows| => predict(rows[i], w) as real)
  }

  /** From position `offset` on, `estimates` holds the predictions, for the
      rows `rows`, of the instances `rest`, one each and nothing after them. */
  predicate PredictedFrom(estimates: seq<real>, offset: nat, rest: seq<int>, rows: seq<Vector>,
                          predict: (Vector, Marginals) -> Prob, w: Marginals)
  {
    |estimates| == offset + |rest| &&
    forall k :: 0 <= k < |rest| ==>
      0 <= rest[k] < |rows| && estimates[offset + k] == predict(rows[rest[k]], w) as real
  }

  /** `targets` are the labels, in `truths`, of the instances `picks`. */
  predicate Labelled(picks: seq<int>, targets: seq<bool>, truths: seq<bool>)
  {
    |picks| == |targets| &&
    forall k :: 0 <= k < |picks| ==> 0 <= picks[k] < |truths| && targets[k] == truths[picks[k]]
  }

  /** Two records one after the other. */
  lemma LabelledConcat(a: seq<int>, b: seq<int>, ta: seq<bool>, tb: seq<bool>, truths: seq<bool>)
    requires Labelled(a, ta, truths) && Labelled(b, tb, truths)
    ensures Labelled(a + b, ta + tb, truths)
  {
    forall k | |a| <= k < |a| + |b|
      ensures (a + b)[k] == b[k - |a|] && (ta + tb)[k] == tb[k - |a|]
    {
    }
  }

  /** The value of information of the candidate `ind` under the
      predictions `probs`: the total risk less its what-if risk, less the
      query cost of its prediction. */
  function VoiOf(R: RiskMatrix, costs: seq<real>, labels: seq<bool>, probs: seq<real>,
                 L: set<int>, U: set<int>, ind: int): real
    requires |costs| >= 2 && 0 <= ind < |labels| && ind < |probs|
  {
    Voi(TotalRisk(R, labels, probs, L, U), WhatIfTotal(R, labels, probs, L, U, ind), SwappedQueryCost(costs, probs[ind]))
  }

  /** The instance a round of `VOITest` selects under the predictions
      `probs` when it walks the candidates in the order `order`: the first
      of largest value of information. */
  function Selected(R: RiskMatrix, costs: seq<real>, labels: seq<bool>, probs: seq<real>,
                    L: set<int>, U: set<int>, order: seq<int>): (pick: int)
    requires |costs| >= 2 && order != [] && InRange(order, |labels|) && InRange(order, |probs|)
    ensures pick in order
  {
    var vois := ActiveVois(R, costs, labels, probs, L, U, order, TotalRisk(R, labels, probs, L, U));
    order[FirstBest(vois, false)]
  }

  /** No candidate has a larger value of information than the selected
      one, and every candidate walked before it has a smaller one. */
  lemma SelectedIsBest(R: RiskMatrix, costs: seq<real>, labels: seq<bool>, probs: seq<real>,
                       L: set<int>, U: set<int>, order: seq<int>)
    requires |costs| >= 2 && order != [] && InRange(order, |labels|) && InRange(order, |probs|)
    ensures var pick := Selected(R, costs, labels, probs, L, U, order);
      0 <= pick < |labels| && pick < |probs| &&
      (forall k :: 0 <= k < |order| ==>
        VoiOf(R, costs, labels, probs, L, U, order[k]) <= VoiOf(R, costs, labels, probs, L, U, pick)) &&
      (forall k :: 0 <= k < IndexOf(order, pick) ==>
        VoiOf(R, costs, labels, probs, L, U, order[k]) < VoiOf(R, costs, labels, probs, L, U, pick))
  {
    var jall := TotalRisk(R, labels, probs, L, U);
    var vois := ActiveVois(R, costs, labels, probs, L, U, order, jall);
    var b := FirstBest(vois, false);
    FirstBestIsFirstBest(vois, false);
    var pick := order[b];
    assert Selected(R, costs, labels, probs, L, U, order) == pick;
    ActiveVoisAt(R, costs, labels, probs, L, U, order, jall, b);
    ghost var best := VoiOf(R, costs, labels, probs, L, U, pick);
    assert vois[b] == best;
    forall k | 0 <= k < |order|
      ensures VoiOf(R, costs, labels, probs, L, U, order[k]) <= best
    {
      ActiveVoisAt(R, costs, labels, probs, L, U, order, jall, k);
      assert !Better(vois[k], vois[b], false);
    }
    assert IndexOf(order, pick) <= b;
    forall k | 0 <= k < IndexOf(order, pick)
      ensures VoiOf(R, costs, labels, probs, L, U, order[k]) < best
    {
      ActiveVoisAt(R, costs, labels, probs, L, U, order, jall, k);
      assert Better(vois[b], vois[k], false);
    }
  }

  /** The weights after one training step on each of `picks` in turn,
      starting from `w`; none once a step fails. */
  function Trained(train: (Table, Marginals) -> Option<Marginals>, rows: seq<Vector>, labels: seq<bool>,
                   w: Marginals, picks: seq<int>): Option<Marginals>
    requires InRange(picks, |rows|) && InRange(picks, |labels|)
  {
    if picks == [] then Some(w)
    else
      var p := picks[|picks| - 1];
      var prev := Trained(train, rows, labels, w, picks[..|picks| - 1]);
      if prev.None? then None else train(Single(rows[p], labels[p]), prev.value)
  }

  /** `pick` is the instance a round selects from `U` when it walks the
      candidates in the order `order` under the predictions of the
      weights `w`. */
  ghost predicate SelectedRound(R: RiskMatrix, costs: seq<real>, rows: seq<Vector>, labels: seq<bool>,
                                predict: (Vector, Marginals) -> Prob, L: set<int>, U: set<int>, w: Marginals,
                                pick: int, order: seq<int>)
  {
    IsEnumeration(order, U) && order != [] && |costs| >= 2 && |rows| == |labels| && InRange(order, |labels|) &&
    pick == Selected(R, costs, labels, Predicted(rows, predict, w), L, U, order)
  }

  /** Round `n` of `picks` selected its instance: it walked the candidates
      still unlabelled in the order `orders[n]`, under the predictions of
      the weights trained on the earlier picks, starting from `L0`, `U0`
      and `w0`. */
  ghost predicate RoundAt(R: RiskMatrix, costs: seq<real>, rows: seq<Vector>, labels: seq<bool>,
                          train: (Table, Marginals) -> Option<Marginals>,
                          predict: (Vector, Marginals) -> Prob,
                          L0: set<int>, U0: set<int>, w0: Marginals, picks: seq<int>, orders: seq<seq<int>>, n: int)
  {
    0 <= n < |picks| && n < |orders| &&
    var prior := picks[..n];
    InRange(prior, |rows|) && InRange(prior, |labels|) &&
    Trained(train, rows, labels, w0, prior).Some? &&
    SelectedRound(R, costs, rows, labels, predict, L0 + Elements(prior), U0 - Elements(prior),
                  Trained(train, rows, labels, w0, prior).value, picks[n], orders[n])
  }

  /** Every round of `picks` selected its instance, in the order recorded
      in `orders`. */
  ghost predicate SelectedRounds(R: RiskMatrix, costs: seq<real>, rows: seq<Vector>, labels: seq<bool>,
                                 train: (Table, Marginals) -> Option<Marginals>,
                                 predict: (Vector, Marginals) -> Prob,
                                 L0: set<int>, U0: set<int>, w0: Marginals, picks: seq<int>, orders: seq<seq<int>>)
  {
    |orders| == |picks| &&
    forall n :: 0 <= n < |picks| ==> RoundAt(R, costs, rows, labels, train, predict, L0, U0, w0, picks, orders, n)
  }

  /** A round that selects `pick` in the order `order`, under the
      predictions of the weights trained on the earlier picks, extends the
      record of selected rounds by one; the weights then take one more
      training step on it. */
  lemma SelectedRoundsAppend(R: RiskMatrix, costs: seq<real>, rows: seq<Vector>, labels: seq<bool>,
                             train: (Table, Marginals) -> Option<Marginals>,
                             predict: (Vector, Marginals) -> Prob, L0: set<int>, U0: set<int>, w0: Marginals,
                             picks: seq<int>, orders: seq<seq<int>>, w: Marginals, pick: int, order: seq<int>)
    requires SelectedRounds(R, costs, rows, labels, train, predict, L0, U0, w0, picks, orders)
    requires |rows| == |labels| && InRange(picks, |rows|) && Trained(train, rows, labels, w0, picks) == Some(w)
    requires SelectedRound(R, costs, rows, labels, predict, L0 + Elements(picks), U0 - Elements(picks), w, pick, order)
    ensures 0 <= pick < |rows| && InRange(picks + [pick], |rows|)
    ensures SelectedRounds(R, costs, rows, labels, train, predict, L0, U0, w0, picks + [pick], orders + [order])
    ensures Trained(train, rows, labels, w0, picks + [pick]) == train(Single(rows[pick], labels[pick]), w)
  {
    assert pick in order;
    TrainedAppend(train, rows, labels, w0, picks, pick);
    var picks', orders' := picks + [pick], orders + [order];
    forall n | 0 <= n < |picks'|
      ensures RoundAt(R, costs, rows, labels, train, predict, L0, U0, w0, picks', orders', n)
    {
      assert picks'[..n] == picks[..n];
      if n < |picks| {
        assert RoundAt(R, costs, rows, labels, train, predict, L0, U0, w0, picks, orders, n);
      }
    }
  }

  /** One more training step. */
  lemma TrainedAppend(train: (Table, Marginals) -> Option<Marginals>, rows: seq<Vector>, labels: seq<bool>,
                      w0: Marginals, picks: seq<int>, pick: int)
    requires InRange(picks, |rows|) && InRange(picks, |labels|) && 0 <= pick < |rows| && pick < |labels|
    ensures InRange(picks + [pick], |rows|) && InRange(picks + [pick], |labels|)
    ensures Trained(train, rows, labels, w0, picks).Some? ==>
      Trained(train, rows, labels, w0, picks + [pick]) ==
      train(Single(rows[pick], labels[pick]), Trained(train, rows, labels, w0, picks).value)
  {
    assert (picks + [pick])[..|picks|] == picks;
  }

  /** Round `k` of `picks` recorded, as its online estimate, the
      prediction for its instance under the weights trained on that
      instance and every earlier pick, starting from `w0`. */
  ghost predicate EstimateAt(rows: seq<Vector>, labels: seq<bool>, train: (Table, Marginals) -> Option<Marginals>,
                             predict: (Vector, Marginals) -> Prob, w0: Marginals,
                             picks: seq<int>, estimates: seq<real>, k: int)
  {
    0 <= k < |picks| && k < |estimates| &&
    var upto := picks[..k + 1];
    InRange(upto, |rows|) && InRange(upto, |labels|) &&
    Trained(train, rows, labels, w0, upto).Some? &&
    estimates[k] == predict(rows[upto[k]], Trained(train, rows, labels, w0, upto).value) as real
  }

  /** The online record of the rounds of `picks`: one estimate per round,
      each the prediction for that round's instance right after training
      on it. */
  ghost predicate OnlineEstimates(rows: seq<Vector>, labels: seq<bool>, train: (Table, Marginals) -> Option<Marginals>,
                                  predict: (Vector, Marginals) -> Prob, w0: Marginals,
                                  picks: seq<int>, estimates: seq<real>)
  {
    |estimates| == |picks| &&
    forall k :: 0 <= k < |picks| ==> EstimateAt(rows, labels, train, predict, w0, picks, estimates, k)
  }

  /** A round whose training succeeds with weights `w` extends the online
      record by the prediction for its instance under `w`. */
  lemma {:induction false} OnlineEstimatesAppend(rows: seq<Vector>, labels: seq<bool>,
                                                 train: (Table, Marginals) -> Option<Marginals>,
                                                 predict: (Vector, Marginals) -> Prob, w0: Marginals,
                                                 picks: seq<int>, estimates: seq<real>, pick: int, w: Marginals)
    requires OnlineEstimates(rows, labels, train, predict, w0, picks, estimates)
    requires InRange(picks + [pick], |rows|) && InRange(picks + [pick], |labels|)
    requires Trained(train, rows, labels, w0, picks + [pick]) == Some(w)
    ensures 0 <= pick < |rows|
    ensures OnlineEstimates(rows, labels, train, predict, w0, picks + [pick], estimates + [predict(rows[pick], w) as real])
  {
    var picks', estimates' := picks + [pick], estimates + [predict(rows[pick], w) as real];
    assert picks'[|picks|] == pick;
    forall k | 0 <= k < |picks'|
      ensures EstimateAt(rows, labels, train, predict, w0, picks', estimates', k)
    {
      if k < |picks| {
        assert picks'[..k + 1] == picks[..k + 1];
        assert EstimateAt(rows, labels, train, predict, w0, picks, estimates, k);
      } else {
        assert picks'[..k + 1] == picks';
      }
    }
  }

  /** Recording one more instance with its label keeps the recorded
      labels those of the recorded instances. */
  lemma LabelsAppend(picks: seq<int>, targets: seq<bool>, truths: seq<bool>, pick: int, target: bool)
    requires Labelled(picks, targets, truths) && 0 <= pick < |truths| && target == truths[pick]
    ensures Labelled(picks + [pick], targets + [target], truths)
  {
  }

  class Active {
    var gain: seq<real>
    /** `C`, the two query costs. */
    var costs: seq<real>
    var R: RiskMatrix
    var nActivities: int
    var L: set<int>
    var U: set<int>
    var features: seq<seq<Vector>>
    /** `labels[0]`, the only label row the class reads or writes. */
    var labels: array<bool>
    var probs: seq<real>
    /** `trainModel.Train` and `testModel.Test` for one instance. */
    var train: (Table, Marginals) -> Option<Marginals>
    var predict: (Vector, Marginals) -> Prob
    /** `activePosteriorWeightMeans` and `activePosteriorWeightPrecisions`. */
    var weights: Marginals
    /** The estimates and true labels of the last `metrics` object
        `VOITest` built, if any. */
    var metrics: Option<(seq<real>, seq<bool>)>

    /** Every instance of the first resident is in exactly one of the two
        sets, and has a feature row and a prediction. */
    predicate Valid()
      reads this
    {
      |features| > 0 && |features[0]| == labels.Length && |probs| == labels.Length && |costs| >= 2 &&
      L !! U && L + U == Range(labels.Length)
    }

    /** Everything but the two sets, the predictions and the weights. */
    function Settings(): (seq<real>, seq<real>, RiskMatrix, int, seq<seq<Vector>>, array<bool>,
                          (Table, Marginals) -> Option<Marginals>, (Vector, Marginals) -> Prob)
      reads this
    {
      (gain, costs, R, nActivities, features, labels, train, predict)
    }

    /** `N`: the number of labelled instances. */
    function N(): int
      reads this
    {
      |L|
    }

    /** `M`: the number of unlabelled instances. */
    function M(): int
      reads this
    {
      |U|
    }

    /** The two counts add up to the number of instances. */
    lemma Counts()
      requires Valid()
      ensures N() + M() == labels.Length
    {
      RangeSize(labels.Length);
    }

    /** `new Active(NActivities, R, features, labels)`: everything
        unlabelled, zero predictions, unit costs and gains of one third.
        The two models and the starting weights are public fields the
        caller assigns; they are passed in here. */
    constructor (nActivities: int, R: RiskMatrix, features: seq<seq<Vector>>, labels: seq<array<bool>>,
                 train: (Table, Marginals) -> Option<Marginals>, predict: (Vector, Marginals) -> Prob, weights: Marginals)
      requires |labels| > 0 && |features| > 0 && |features[0]| == labels[0].Length
      ensures Valid()
      ensures this.nActivities == nActivities && this.R == R && this.features == features && this.labels == labels[0]
      ensures this.train == train && this.predict == predict && this.weights == weights
      ensures gain == [1.0 / 3.0, 1.0 / 3.0] && costs == [1.0, 1.0]
      ensures probs == seq(labels[0].Length, _ => 0.0)
      ensures U == Range(labels[0].Length) && L == {}
      ensures N() == 0 && M() == labels[0].Length && metrics == None
    {
      gain := [1.0 / 3.0, 1.0 / 3.0];
      costs := [1.0, 1.0];
      this.R := R;
      this.nActivities := nActivities;
      this.features := features;
      this.labels := labels[0];
      probs := seq(labels[0].Length, _ => 0.0);
      U := Range(labels[0].Length);
      L := {};
      this.train := train;
      this.predict := predict;
      this.weights := weights;
      metrics := None;
      RangeSize(labels[0].Length);
    }

    /** `UpdateModel(ind)`: one training step on the instance, which then
        joins the labelled set (whether or not it was already there). A
        training failure propagates before the sets change. */
    method UpdateModel(ind: int) returns (s: Status)
      modifies this
      requires Valid() && 0 <= ind < labels.Length
      ensures Valid() && Settings() == old(Settings()) && probs == old(probs) && metrics == old(metrics)
      ensures s == Success <==> train(Single(features[0][ind], labels[ind]), old(weights)).Some?
      ensures s.Failed? ==> s.failure == ImproperMessage && L == old(L) && U == old(U) && weights == old(weights)
      ensures s == Success ==> weights == train(Single(features[0][ind], labels[ind]), old(weights)).value
      ensures s == Success ==> L == old(L) + {ind} && U == old(U) - {ind}
    {
      match train(Single(features[0][ind], labels[ind]), weights)
      case None =>
        return Failed(ImproperMessage);
      case Some(m) =>
        weights := m;
        U := U - {ind};
        L := L + {ind};
        return Success;
    }

    /** `UpdateModel(inds)`: nothing for an empty list, else one training
        step on the listed instances. */
    method UpdateModelOn(inds: seq<int>) returns (s: Status)
      modifies this
      requires Valid() && InRange(inds, labels.Length)
      ensures Valid() && Settings() == old(Settings()) && probs == old(probs) && metrics == old(metrics)
      ensures L == old(L) && U == old(U)
      ensures inds == [] ==> s == Success && weights == old(weights)
      ensures inds != [] ==> var t := train(Instances(features[0], labels[..], inds), old(weights));
        (s == Success <==> t.Some?) &&
        (s == Success ==> weights == t.value) &&
        (s.Failed? ==> s.failure == ImproperMessage && weights == old(weights))
    {
      if |inds| == 0 {
        return Success;
      }
      match train(Instances(features[0], labels[..], inds), weights)
      case None =>
        return Failed(ImproperMessage);
      case Some(m) =>
        weights := m;
        return Success;
    }

    /** `probof(ind)`: the prediction for one instance under the current
        weights. */
    function ProbOf(ind: int): (p: Prob)
      reads this
      requires Valid() && 0 <= ind < labels.Length
      ensures p == predict(features[0][ind], weights)
    {
      predict(features[0][ind], weights)
    }

    /** `CalculateProbabilities()`: predictions for the first `M + N`
        instances, which are all of them. */
    method CalculateProbabilities()
      modifies this
      requires Valid()
      ensures Valid() && Settings() == old(Settings()) && metrics == old(metrics)
      ensures L == old(L) && U == old(U) && weights == old(weights)
      ensures probs == Predicted(features[0], predict, weights)
    {
      Counts();
      var rows, n, test, m := features[0], M() + N(), predict, weights;
      probs := seq(n, i requires 0 <= i < n => test(rows[i], m) as real);
    }

    /** `JL()`: the labelled risk, summed over `L` in ascending order. */
    method JL() returns (jj: real)
      requires Valid()
      ensures jj == LabelledRisk(R, labels[..], probs, L)
    {
      jj := 0.0;
      var rest := L;
      while rest != {}
        invariant rest <= L
        invariant jj + SetSum(rest, LabelledTerms(R, labels[..], probs)) == LabelledRisk(R, labels[..], probs, L)
        decreases |rest|
      {
        var ind := Least(rest);
        assert ind in Range(labels.Length);
        jj := jj + LabelledTerm(R, labels[ind], probs[ind]);
        rest := rest - {ind};
      }
    }

    /** `JU()`: the unlabelled risk, summed over `U` in ascending order. */
    method JU() returns (jj: real)
      requires Valid()
      ensures jj == UnlabelledRisk(R, probs, U)
    {
      jj := 0.0;
      var rest := U;
      while rest != {}
        invariant rest <= U
        invariant jj + SetSum(rest, UnlabelledTerms(R, probs)) == UnlabelledRisk(R, probs, U)
        decreases |rest|
      {
        var ind := Least(rest);
        assert ind in Range(labels.Length);
        jj := jj + UnlabelledTerm(R, probs[ind]);
        rest := rest - {ind};
      }
    }

    /** `JAll()`: unlabelled plus labelled risk. */
    method JAll() returns (j: real)
      requires Valid()
      ensures j == TotalRisk(R, labels[..], probs, L, U)
    {
      var u := JU();
      var l := JL();
      j := u + l;
    }

    /** `JMean()`: the total risk divided by `M + N`. */
    method JMean() returns (j: Double)
      requires Valid()
      ensures j == MeanRisk(R, labels[..], probs, L, U)
    {
      var all := JAll();
      j := Divide(all, (M() + N()) as real);
    }

    /** `JAll_j(p, ind)`: the instance is added to `L`, taken out of `U`
        and labelled positive, and the total risk weighted by
        `1 - probs[ind]`; then the same labelled negative, weighted by
        `probs[ind]`. Afterwards the instance is put (back) into `U` and
        taken out of `L`, and the label and predictions are restored. The
        argument `p` is not used. */
    method JAllJ(p: real, ind: int) returns (v: real)
      modifies this, labels
      requires Valid() && 0 <= ind < labels.Length
      ensures Valid() && Settings() == old(Settings()) && weights == old(weights) && metrics == old(metrics)
      ensures L == old(L) - {ind} && U == old(U) + {ind}
      ensures ind in old(U) ==> L == old(L) && U == old(U)
      ensures probs == old(probs) && labels[..] == old(labels[..])
      ensures v == WhatIfTotal(R, labels[..], probs, old(L), old(U), ind)
    {
      ghost var truths, L0, U0, R0 := labels[..], L, U, R;
      var trueLabel := labels[ind];
      var prevProbs := probs;
      var jjpos := Branch(ind, true, truths, L0, U0, R0, prevProbs);
      var jjneg := Branch(ind, false, truths, L0, U0, R0, prevProbs);
      Restore(ind, trueLabel, prevProbs, truths, L0, U0);
      var q := probs[ind];
      v := jjpos * (1.0 - q) + jjneg * q;
      WhatIfTotalOf(R0, truths, prevProbs, L0, U0, ind, jjpos, jjneg, q);
    }

    /** One what-if branch of `JAll_j`: the instance is added to `L`, taken
        out of `U` and labelled `b`, and the risk recomputed. */
    method Branch(ind: int, b: bool, ghost truths: seq<bool>, ghost L0: set<int>, ghost U0: set<int>,
                  ghost R0: RiskMatrix, ghost probs0: seq<real>) returns (j: real)
      modifies this, labels
      requires Valid() && 0 <= ind < labels.Length && |truths| == labels.Length && R == R0 && probs == probs0
      requires forall k :: 0 <= k < labels.Length && k != ind ==> labels[k] == truths[k]
      requires (L == L0 && U == U0) || (L == L0 + {ind} && U == U0 - {ind})
      ensures Valid() && Settings() == old(Settings()) && weights == old(weights) && metrics == old(metrics)
      ensures L == L0 + {ind} && U == U0 - {ind} && probs == probs0
      ensures labels[..] == truths[ind := b]
      ensures j == LabelledRisk(R0, truths[ind := b], probs0, L0 + {ind}) + UnlabelledRisk(R0, probs0, U0 - {ind})
    {
      L := L + {ind};
      U := U - {ind};
      labels[ind] := b;
      assert labels[..] == truths[ind := b];
      var l := JL();
      var u := JU();
      j := l + u;
    }

    /** The end of `JAll_j`: the instance goes (back) into `U` and out of
        `L`, and the label and the predictions are put back. */
    method Restore(ind: int, trueLabel: bool, prevProbs: seq<real>, ghost truths: seq<bool>, ghost L0: set<int>, ghost U0: set<int>)
      modifies this, labels
      requires Valid() && 0 <= ind < labels.Length && |truths| == labels.Length == |prevProbs| && truths[ind] == trueLabel
      requires forall k :: 0 <= k < labels.Length && k != ind ==> labels[k] == truths[k]
      requires L0 !! U0 && L0 + U0 == Range(labels.Length)
      requires L == L0 + {ind} && U == U0 - {ind}
      ensures Valid() && Settings() == old(Settings()) && weights == old(weights) && metrics == old(metrics)
      ensures L == L0 - {ind} && U == U0 + {ind}
      ensures ind in U0 ==> L == L0 && U == U0
      ensures probs == prevProbs && labels[..] == truths
    {
      U := U + {ind};
      L := L - {ind};
      probs := prevProbs;
      labels[ind] := trueLabel;
      assert labels[..] == truths;
    }

    /** `VOI(jall, ind)`: the drop from `jall` to the what-if risk, less
        the query cost `Cj` at the instance's prediction. */
    method VOI(jall: real, ind: int) returns (v: real)
      modifies this, labels
      requires Valid() && 0 <= ind < labels.Length
      ensures Valid() && Settings() == old(Settings()) && weights == old(weights) && metrics == old(metrics)
      ensures L == old(L) - {ind} && U == old(U) + {ind}
      ensures ind in old(U) ==> L == old(L) && U == old(U)
      ensures probs == old(probs) && labels[..] == old(labels[..])
      ensures v == Voi(jall, WhatIfTotal(R, labels[..], probs, old(L), old(U), ind), SwappedQueryCost(costs, probs[ind]))
    {
      var p := probs[ind];
      var voij := JAllJ(p, ind);
      v := (jall - voij) - SwappedQueryCost(costs, p);
    }

    /** The selection loop of `VOITest`: the candidate of largest value of
        information, the first in `inds` among equals; -1 and -1.0 when
        there is no candidate. */
    method SelectMax(jall: real, inds: seq<int>) returns (maxind: int, maxval: real)
      modifies this, labels
      requires Valid() && IsEnumeration(inds, U)
      ensures Valid() && Settings() == old(Settings()) && weights == old(weights) && metrics == old(metrics)
      ensures L == old(L) && U == old(U) && probs == old(probs) && labels[..] == old(labels[..])
      ensures inds == [] ==> maxind == -1 && maxval == -1.0
      ensures inds != [] ==>
        var vois := ActiveVois(R, costs, labels[..], probs, L, U, inds, jall);
        var k := FirstBest(vois, false);
        IsFirstBest(vois, k, false) && maxind == inds[k] && maxval == vois[k] && maxind in U
    {
      maxind := -1;
      maxval := -1.0;
      ghost var truths := labels[..];
      assert InRange(inds, labels.Length) by {
        forall j | 0 <= j < |inds| ensures 0 <= inds[j] < labels.Length {
          assert inds[j] in Range(labels.Length);
        }
      }
      ghost var vois := ActiveVois(R, costs, truths, probs, L, U, inds, jall);
      ghost var best := 0;
      for i := 0 to |inds|
        invariant Valid() && Settings() == old(Settings()) && weights == old(weights) && metrics == old(metrics)
        invariant L == old(L) && U == old(U) && probs == old(probs) && labels[..] == truths
        invariant i == 0 ==> maxind == -1 && maxval == -1.0
        invariant i > 0 ==> Ahead(vois, inds, i, best, maxind, maxval)
      {
        maxind, maxval, best := SelectStep(jall, i, inds, vois, maxind, maxval, best);
      }
      if inds != [] {
        ImproveDone(vois, best, false);
      }
    }

    /** One pass of that loop: `if (voi > maxval || maxind < 0)` take
        the candidate. */
    method SelectStep(jall: real, i: int, inds: seq<int>, ghost vois: seq<real>, maxind: int, maxval: real, ghost best: int)
      returns (maxind': int, maxval': real, ghost best': int)
      modifies this, labels
      requires Valid() && IsEnumeration(inds, U) && InRange(inds, labels.Length) && 0 <= i < |inds|
      requires vois == ActiveVois(R, costs, labels[..], probs, L, U, inds, jall)
      requires i == 0 ==> maxind == -1
      requires i > 0 ==> Ahead(vois, inds, i, best, maxind, maxval)
      ensures Valid() && Settings() == old(Settings()) && weights == old(weights) && metrics == old(metrics)
      ensures L == old(L) && U == old(U) && probs == old(probs) && labels[..] == old(labels[..])
      ensures Ahead(vois, inds, i + 1, best', maxind', maxval')
    {
      ghost var R0, costs0, truths, probs0, L0, U0 := R, costs, labels[..], probs, L, U;
      ActiveVoisAt(R0, costs0, truths, probs0, L0, U0, inds, jall, i);
      var voi := VOI(jall, inds[i]);
      assert R == R0 && costs == costs0 && labels[..] == truths && probs == probs0;
      assert voi == vois[i];
      if i > 0 {
        FirstBestStep(vois, i, best, false);
      }
      if voi > maxval || maxind < 0 {
        maxind', maxval', best' := inds[i], voi, i;
      } else {
        maxind', maxval', best' := maxind, maxval, best;
      }
    }

    /** `Transfer(num)`: nothing for `num == 0`; otherwise instances of
        each class are moved to `L` (see `MoveClasses`) and the model is
        trained on all of `L`, in an enumeration order of the set. */
    method Transfer(num: int) returns (s: Status, ghost inds: seq<int>)
      modifies this
      requires Valid()
      ensures Valid() && Settings() == old(Settings()) && probs == old(probs) && metrics == old(metrics)
      ensures num == 0 ==> s == Success && L == old(L) && U == old(U) && weights == old(weights)
      ensures old(L) <= L && U <= old(U)
      ensures var before := |ClassOf(old(U), labels[..], false)|;
        |ClassOf(U, labels[..], false)| == before - Moved(before, if nActivities <= 0 then 0 else num)
      ensures var before := |ClassOf(old(U), labels[..], true)|;
        |ClassOf(U, labels[..], true)| == before - Moved(before, if nActivities <= 1 then 0 else num * (nActivities - 1))
      ensures num != 0 ==> IsEnumeration(inds, L) && InRange(inds, labels.Length)
      ensures num != 0 && inds == [] ==> s == Success && weights == old(weights)
      ensures num != 0 && inds != [] ==>
        var t := train(Instances(features[0], labels[..], inds), old(weights));
        (s == Success <==> t.Some?) &&
        (s == Success ==> weights == t.value) &&
        (s.Failed? ==> s.failure == ImproperMessage && weights == old(weights))
    {
      if num == 0 {
        return Success, [];
      }
      MoveClasses(num);
      ghost var w := Ascending(L);
      var order: seq<int> :| IsEnumeration(order, L);
      assert IsEnumeration(order, L);
      assert InRange(order, labels.Length) by {
        forall j | 0 <= j < |order| ensures 0 <= order[j] < labels.Length {
          assert order[j] in L;
          assert order[j] in Range(labels.Length);
        }
      }
      s := UpdateModelOn(order);
      inds := order;
    }

    /** The two loops of `Transfer`: for each of the `NActivities` classes
        `tt` (negative for `tt == 0`, positive for every other), `num`
        times, the unlabelled set is walked in a random order and the first
        instance of that class met is moved to `L`. Of the negatives it
        moves as many as there are up to `num`; of the positives, up to
        `num * (NActivities - 1)`. */
    method MoveClasses(num: int)
      modifies this
      requires Valid()
      ensures Valid() && Settings() == old(Settings()) && probs == old(probs) && metrics == old(metrics)
      ensures weights == old(weights)
      ensures old(L) <= L && U <= old(U)
      ensures var before := |ClassOf(old(U), labels[..], false)|;
        |ClassOf(U, labels[..], false)| == before - Moved(before, if nActivities <= 0 then 0 else num)
      ensures var before := |ClassOf(old(U), labels[..], true)|;
        |ClassOf(U, labels[..], true)| == before - Moved(before, if nActivities <= 1 then 0 else num * (nActivities - 1))
    {
      ghost var truths := labels[..];
      ghost var start := U;
      ghost var negatives, positives := |ClassOf(start, truths, false)|, |ClassOf(start, truths, true)|;
      ghost var done := 0;
      var tt := 0;
      while tt < nActivities
        invariant 0 <= tt && (nActivities >= 0 ==> tt <= nActivities) && (nActivities <= 0 ==> tt == 0)
        invariant Valid() && Settings() == old(Settings()) && probs == old(probs) && metrics == old(metrics)
        invariant weights == old(weights) && labels[..] == truths
        invariant old(L) <= L && U <= start
        invariant done == if tt <= 1 then 0 else num * (tt - 1)
        invariant |ClassOf(U, truths, false)| == negatives - Moved(negatives, if tt == 0 then 0 else num)
        invariant |ClassOf(U, truths, true)| == positives - Moved(positives, done)
      {
        var c := tt != 0;
        MoveClass(c, num);
        if tt >= 1 {
          PassesAdd(num, tt);
          MovedAdd(positives, done, num);
          done := done + num;
        }
        tt := tt + 1;
      }
      assert tt == if nActivities <= 0 then 0 else nActivities;
      assert start == old(U) && truths == labels[..];
    }

    /** The `num` passes of `Transfer` for one class `c`. */
    method MoveClass(c: bool, num: int)
      modifies this
      requires Valid()
      ensures Valid() && Settings() == old(Settings()) && probs == old(probs) && metrics == old(metrics)
      ensures weights == old(weights)
      ensures old(L) <= L && U <= old(U)
      ensures ClassOf(U, labels[..], !c) == ClassOf(old(U), labels[..], !c)
      ensures var before := |ClassOf(old(U), labels[..], c)|;
        |ClassOf(U, labels[..], c)| == before - Moved(before, num)
    {
      ghost var truths := labels[..];
      ghost var start := U;
      var nn := 0;
      while nn < num
        invariant 0 <= nn && (num >= 0 ==> nn <= num) && (num < 0 ==> nn == 0)
        invariant Valid() && Settings() == old(Settings()) && probs == old(probs) && metrics == old(metrics)
        invariant weights == old(weights) && labels[..] == truths
        invariant old(L) <= L && U <= start
        invariant ClassOf(U, truths, !c) == ClassOf(start, truths, !c)
        invariant |ClassOf(U, truths, c)| == |ClassOf(start, truths, c)| - Moved(|ClassOf(start, truths, c)|, nn)
      {
        MoveOne(c);
        nn := nn + 1;
      }
    }

    /** One pass: `foreach` over `U` in a random order, moving the first
        instance of class `c` to `L` and stopping there. */
    method MoveOne(c: bool)
      modifies this
      requires Valid()
      ensures Valid() && Settings() == old(Settings()) && probs == old(probs) && metrics == old(metrics)
      ensures weights == old(weights)
      ensures old(L) <= L && U <= old(U)
      ensures ClassOf(U, labels[..], !c) == ClassOf(old(U), labels[..], !c)
      ensures |ClassOf(U, labels[..], c)| == |ClassOf(old(U), labels[..], c)| - Moved(|ClassOf(old(U), labels[..], c)|, 1)
    {
      ghost var w := Ascending(U);
      var uinds: seq<int> :| IsEnumeration(uinds, U);
      var i := FirstOfClass(uinds, c);
      if i < |uinds| {
        MoveTo(uinds[i], c);
      } else {
        NoneOfClass(uinds, U, labels[..], c);
      }
    }

    /** The move itself: `ind`, of class `c`, goes from `U` to `L`. */
    method MoveTo(ind: int, c: bool)
      modifies this
      requires Valid() && ind in U && 0 <= ind < labels.Length && labels[ind] == c
      ensures Valid() && Settings() == old(Settings()) && probs == old(probs) && metrics == old(metrics)
      ensures weights == old(weights)
      ensures L == old(L) + {ind} && U == old(U) - {ind}
      ensures ClassOf(U, labels[..], !c) == ClassOf(old(U), labels[..], !c)
      ensures |ClassOf(U, labels[..], c)| == |ClassOf(old(U), labels[..], c)| - 1
    {
      ClassOfRemove(U, labels[..], c, ind);
      U := U - {ind};
      L := L + {ind};
    }

    /** The position in `uinds` of the first instance labelled `c`, or
        `|uinds|` when there is none. */
    method FirstOfClass(uinds: seq<int>, c: bool) returns (i: int)
      requires Valid() && IsEnumeration(uinds, U)
      ensures 0 <= i <= |uinds|
      ensures i < |uinds| ==> 0 <= uinds[i] < labels.Length && labels[uinds[i]] == c
      ensures forall k :: 0 <= k < i ==> 0 <= uinds[k] < labels.Length && labels[uinds[k]] != c
    {
      i := 0;
      while i < |uinds|
        invariant 0 <= i <= |uinds|
        invariant forall k :: 0 <= k < i ==> 0 <= uinds[k] < labels.Length && labels[uinds[k]] != c
      {
        assert uinds[i] in Range(labels.Length);
        if labels[uinds[i]] == c {
          return;
        }
        i := i + 1;
      }
    }

    /** One round of `VOITest`: the choice of `Choose`, which is moved to
        `L` and trained on; then its prediction under the new weights and
        its label are recorded. A training failure ends the round after the
        move. */
    method Round() returns (s: Status, pick: int, estimate: real, target: bool, ghost order: seq<int>)
      modifies this, labels
      requires Valid() && U != {}
      ensures Valid() && Settings() == old(Settings()) && labels[..] == old(labels[..]) && metrics == old(metrics)
      ensures pick in old(U) && L == old(L) + {pick} && U == old(U) - {pick}
      ensures SelectedRound(R, costs, features[0], labels[..], predict, old(L), old(U), old(weights), pick, order)
      ensures s == Success <==> train(Single(features[0][pick], labels[pick]), old(weights)).Some?
      ensures s == Success ==> weights == train(Single(features[0][pick], labels[pick]), old(weights)).value
      ensures s == Success ==> estimate == predict(features[0][pick], weights) as real && target == labels[pick]
      ensures s.Failed? ==> s.failure == ImproperMessage
    {
      ghost var L0, U0, w0, truths := L, U, weights, labels[..];
      ghost var R0, costs0, rows, predict0 := R, costs, features[0], predict;
      pick, order := Choose();
      assert SelectedRound(R0, costs0, rows, truths, predict0, L0, U0, w0, pick, order);
      s, estimate, target := Commit(pick);
      assert R == R0 && costs == costs0 && features[0] == rows && predict == predict0 && labels[..] == truths;
    }

    /** The rest of a round of `VOITest`: the chosen instance moves to `L`
        and is trained on; on success its new prediction and its label are
        what the round records. */
    method Commit(pick: int) returns (s: Status, estimate: real, target: bool)
      modifies this
      requires Valid() && pick in U
      ensures Valid() && Settings() == old(Settings()) && metrics == old(metrics)
      ensures L == old(L) + {pick} && U == old(U) - {pick}
      ensures s == Success <==> train(Single(features[0][pick], labels[pick]), old(weights)).Some?
      ensures s == Success ==> weights == train(Single(features[0][pick], labels[pick]), old(weights)).value
      ensures s == Success ==> estimate == predict(features[0][pick], weights) as real && target == labels[pick]
      ensures s.Failed? ==> s.failure == ImproperMessage
    {
      assert pick in Range(labels.Length);
      U := U - {pick};
      L := L + {pick};
      s := UpdateModel(pick);
      estimate, target := 0.0, false;
      if s == Success {
        estimate := ProbOf(pick);
        target := labels[pick];
      }
    }

    /** The selection of a round of `VOITest`: fresh predictions, the
        total risk, and the first candidate of largest value of
        information among `U`, walked in some enumeration order `order`. */
    method Choose() returns (pick: int, ghost order: seq<int>)
      modifies this, labels
      requires Valid() && U != {}
      ensures Valid() && Settings() == old(Settings()) && labels[..] == old(labels[..]) && metrics == old(metrics)
      ensures L == old(L) && U == old(U) && weights == old(weights) && pick in U
      ensures probs == Predicted(features[0], predict, weights)
      ensures SelectedRound(R, costs, features[0], labels[..], predict, L, U, weights, pick, order)
    {
      CalculateProbabilities();
      var jall := JAll();
      ghost var w := Ascending(U);
      var inds: seq<int> :| IsEnumeration(inds, U);
      assert IsEnumeration(inds, U);
      order := inds;
      assert InRange(order, labels.Length) by {
        forall j | 0 <= j < |order| ensures 0 <= order[j] < labels.Length {
          assert order[j] in U;
          assert order[j] in Range(labels.Length);
        }
      }
      assert order != [] by {
        var x := Pick(U);
        assert x in order;
      }
      var maxval;
      pick, maxval := SelectMax(jall, inds);
    }

    /** The end of `VOITest`: the predictions and labels of the instances
        still unlabelled, in the enumeration order `order` of `U`. */
    method Remaining(order: seq<int>) returns (estimates: seq<real>, targets: seq<bool>)
      requires Valid() && IsEnumeration(order, U)
      ensures |estimates| == |order| && Labelled(order, targets, labels[..])
      ensures forall k :: 0 <= k < |order| ==> 0 <= order[k] < labels.Length && estimates[k] == probs[order[k]]
    {
      estimates, targets := [], [];
      for k := 0 to |order|
        invariant |estimates| == |targets| == k
        invariant forall j :: 0 <= j < k ==>
          0 <= order[j] < labels.Length && estimates[j] == probs[order[j]] && targets[j] == labels[order[j]]
      {
        assert order[k] in Range(labels.Length);
        estimates := estimates + [probs[order[k]]];
        targets := targets + [labels[order[k]]];
      }
    }

    /** `VOITest(numActivelySelected)`: that many rounds, each recording
        the chosen instance's new prediction and its label; then, if any
        instance is still unlabelled, fresh predictions and the labels of
        all of them. The result is the record the last `metrics` object
        holds, which is printed; with no rounds and nothing unlabelled no
        object is built and printing the previous one, when there is none,
        fails. A round with nothing left unlabelled selects -1 and fails
        when it reads that instance's features to train on it. */
    method VOITest(numActivelySelected: int)
      returns (r: Result<(seq<real>, seq<bool>)>, ghost picks: seq<int>, ghost rest: seq<int>, ghost orders: seq<seq<int>>)
      modifies this, labels
      requires Valid()
      ensures Valid() && Settings() == old(Settings()) && labels[..] == old(labels[..])
      ensures Moves(picks, old(L), old(U), L, U)
      ensures SelectedRounds(R, costs, features[0], labels[..], train, predict, old(L), old(U), old(weights), picks, orders)
      ensures r.Ok? ==> Trained(train, features[0], labels[..], old(weights), picks) == Some(weights)
      ensures r.Ok? ==> |picks| <= |r.value.0|
      ensures r.Ok? ==> OnlineEstimates(features[0], labels[..], train, predict, old(weights), picks, r.value.0[..|picks|])
      ensures r.Ok? ==> |picks| == (if numActivelySelected <= 0 then 0 else numActivelySelected) && metrics == Some(r.value)
      ensures numActivelySelected > |old(U)| ==> r.Err?
      ensures r.Err? ==> r.failure in {ImproperMessage, NullReference, IndexOutOfRange}
      ensures r == Err(IndexOutOfRange) ==> numActivelySelected > |old(U)|
      ensures r == Err(NullReference) <==> numActivelySelected <= 0 && old(U) == {} && old(metrics) == None
      ensures r.Ok? && (numActivelySelected > 0 || old(U) != {}) ==>
        IsEnumeration(rest, U) && Labelled(picks + rest, r.value.1, labels[..]) &&
        PredictedFrom(r.value.0, |picks|, rest, features[0], predict, weights)
    {
      var st, onlineEstimates, onlineTargets;
      st, picks, onlineEstimates, onlineTargets, orders := Rounds(numActivelySelected);
      if st.Failed? {
        r, rest := Err(st.failure), [];
      } else {
        r, rest := Conclude(picks, onlineEstimates, onlineTargets, labels[..]);
      }
    }

    /** After rounds that all succeeded: the instances still unlabelled
        are appended to the record (see `Finish`), and the metrics are the
        result; a `NullReference` when there is neither a round nor an
        unlabelled instance and no earlier metrics. */
    method Conclude(ghost picks: seq<int>, estimates: seq<real>, targets: seq<bool>, ghost truths: seq<bool>)
      returns (r: Result<(seq<real>, seq<bool>)>, ghost rest: seq<int>)
      modifies this
      requires Valid() && labels[..] == truths && |estimates| == |picks| && Labelled(picks, targets, truths)
      requires picks != [] ==> metrics == Some((estimates, targets))
      ensures Valid() && Settings() == old(Settings()) && L == old(L) && U == old(U) && weights == old(weights)
      ensures r.Ok? ==> metrics == Some(r.value) && |estimates| <= |r.value.0| && r.value.0[..|estimates|] == estimates
      ensures r.Err? <==> picks == [] && U == {} && old(metrics) == None
      ensures r.Err? ==> r.failure == NullReference
      ensures r.Ok? && (picks != [] || U != {}) ==>
        IsEnumeration(rest, U) && Labelled(picks + rest, r.value.1, truths) &&
        PredictedFrom(r.value.0, |picks|, rest, features[0], predict, weights)
    {
      rest := [];
      if |U| > 0 {
        var tail;
        tail, rest := Finish(estimates, targets);
        LabelledConcat(picks, rest, targets, tail, truths);
      }
      r := if metrics.None? then Err(NullReference) else Ok(metrics.value);
    }

    /** The end of `VOITest` when instances are still unlabelled: fresh
        predictions, and the predictions and labels of all of them, in an
        enumeration order `rest` of `U`, appended to the record, which
        becomes the metrics. */
    method Finish(estimates: seq<real>, targets: seq<bool>) returns (tail: seq<bool>, ghost rest: seq<int>)
      modifies this
      requires Valid() && U != {}
      ensures Valid() && Settings() == old(Settings()) && L == old(L) && U == old(U) && weights == old(weights)
      ensures IsEnumeration(rest, U) && Labelled(rest, tail, labels[..])
      ensures metrics.Some? && metrics.value.1 == targets + tail
      ensures PredictedFrom(metrics.value.0, |estimates|, rest, features[0], predict, weights)
      ensures metrics.value.0[..|estimates|] == estimates
    {
      CalculateProbabilities();
      ghost var w := Ascending(U);
      var order: seq<int> :| IsEnumeration(order, U);
      var predictions;
      predictions, tail := Remaining(order);
      metrics := Some((estimates + predictions, targets + tail));
      rest := order;
    }

    /** The rounds of `VOITest`. A failed training step ends the rounds,
        with the failing round's instance already moved to `L`; so does a
        round that finds nothing unlabelled. */
    method Rounds(numActivelySelected: int)
      returns (s: Status, ghost picks: seq<int>, estimates: seq<real>, targets: seq<bool>, ghost orders: seq<seq<int>>)
      modifies this, labels
      requires Valid()
      ensures Valid() && Settings() == old(Settings()) && labels[..] == old(labels[..])
      ensures Moves(picks, old(L), old(U), L, U)
      ensures SelectedRounds(R, costs, features[0], labels[..], train, predict, old(L), old(U), old(weights), picks, orders)
      ensures InRange(picks, labels.Length)
      ensures s != Failed(ImproperMessage) <==> Trained(train, features[0], labels[..], old(weights), picks).Some?
      ensures s != Failed(ImproperMessage) ==> Trained(train, features[0], labels[..], old(weights), picks) == Some(weights)
      ensures numActivelySelected <= 0 ==> s == Success
      ensures numActivelySelected > |old(U)| ==> s.Failed?
      ensures s.Failed? ==> s.failure == ImproperMessage || s.failure == IndexOutOfRange
      ensures s == Failed(IndexOutOfRange) ==> numActivelySelected > |old(U)| && U == {}
      ensures s == Success ==> |picks| == (if numActivelySelected <= 0 then 0 else numActivelySelected)
      ensures s == Success ==> |estimates| == |picks| && Labelled(picks, targets, labels[..])
      ensures s == Success ==> OnlineEstimates(features[0], labels[..], train, predict, old(weights), picks, estimates)
      ensures s == Success ==> metrics == if numActivelySelected <= 0 then old(metrics) else Some((estimates, targets))
    {
      s, estimates, targets := Success, [], [];
      picks, orders := [], [];
      ghost var truths, L0, U0, w0 := labels[..], L, U, weights;
      ghost var R0, costs0, rows, train0, predict0 := R, costs, features[0], train, predict;
      var jj := 0;
      while jj < numActivelySelected
        invariant 0 <= jj && (numActivelySelected >= 0 ==> jj <= numActivelySelected) && (numActivelySelected < 0 ==> jj == 0)
        invariant Valid() && Settings() == old(Settings()) && labels[..] == truths
        invariant Moves(picks, L0, U0, L, U)
        invariant |picks| == jj && |U| == |U0| - jj
        invariant |estimates| == jj && Labelled(picks, targets, truths)
        invariant jj == 0 ==> metrics == old(metrics)
        invariant jj > 0 ==> metrics == Some((estimates, targets))
        invariant R == R0 && costs == costs0 && features[0] == rows && train == train0 && predict == predict0
        invariant SelectedRounds(R0, costs0, rows, truths, train0, predict0, L0, U0, w0, picks, orders)
        invariant InRange(picks, labels.Length) && Trained(train0, rows, truths, w0, picks) == Some(weights)
        invariant OnlineEstimates(rows, truths, train0, predict0, w0, picks, estimates)
      {
        if U == {} {
          s := Failed(IndexOutOfRange);
          break;
        }
        var done;
        done, picks, estimates, targets, orders := RoundStep(picks, estimates, targets, truths, L0, U0, w0, orders);
        MovesCount(picks, L0, U0, L, U);
        if !done {
          s := Failed(ImproperMessage);
          break;
        }
        jj := jj + 1;
      }
    }

    /** One round and its record: the instance joins `picks`, and on
        success its estimate and label are appended and become the
        metrics. */
    method RoundStep(ghost picks: seq<int>, estimates: seq<real>, targets: seq<bool>, ghost truths: seq<bool>,
                     ghost L0: set<int>, ghost U0: set<int>, ghost w0: Marginals, ghost orders: seq<seq<int>>)
      returns (ok: bool, ghost picks': seq<int>, estimates': seq<real>, targets': seq<bool>, ghost orders': seq<seq<int>>)
      modifies this, labels
      requires Valid() && labels[..] == truths && Moves(picks, L0, U0, L, U)
      requires U != {} && |estimates| == |picks| && Labelled(picks, targets, truths)
      requires SelectedRounds(R, costs, features[0], truths, train, predict, L0, U0, w0, picks, orders)
      requires InRange(picks, labels.Length) && Trained(train, features[0], truths, w0, picks) == Some(weights)
      requires OnlineEstimates(features[0], truths, train, predict, w0, picks, estimates)
      ensures Valid() && Settings() == old(Settings()) && labels[..] == truths
      ensures Moves(picks', L0, U0, L, U)
      ensures |picks'| == |picks| + 1
      ensures SelectedRounds(R, costs, features[0], truths, train, predict, L0, U0, w0, picks', orders')
      ensures InRange(picks', labels.Length)
      ensures ok <==> Trained(train, features[0], truths, w0, picks').Some?
      ensures ok ==> Trained(train, features[0], truths, w0, picks') == Some(weights)
      ensures ok ==> |estimates'| == |picks'| && Labelled(picks', targets', truths) && metrics == Some((estimates', targets'))
      ensures ok ==> estimates' == estimates + [predict(features[0][picks'[|picks|]], weights) as real]
      ensures ok ==> OnlineEstimates(features[0], truths, train, predict, w0, picks', estimates')
    {
      ghost var L1, U1, w1 := L, U, weights;
      ghost var R0, costs0, rows, train0, predict0 := R, costs, features[0], train, predict;
      var s, pick, estimate, target, order := Round();
      assert R == R0 && costs == costs0 && features[0] == rows && train == train0 && predict == predict0;
      assert pick in Range(labels.Length);
      MovesAppend(picks, L0, U0, L1, U1, pick);
      picks' := picks + [pick];
      orders' := orders + [order];
      SelectedRoundsAppend(R0, costs0, rows, truths, train0, predict0, L0, U0, w0, picks, orders, w1, pick, order);
      assert labels[pick] == truths[pick];
      ghost var step := train0(Single(rows[pick], truths[pick]), w1);
      assert s == Success <==> step.Some?;
      assert s == Success ==> weights == step.value;
      estimates', targets' := estimates, targets;
      if s.Failed? {
        return false, picks', estimates', targets', orders';
      }
      LabelsAppend(picks, targets, truths, pick, target);
      OnlineEstimatesAppend(rows, truths, train0, predict0, w0, picks, estimates, pick, weights);
      estimates' := estimates + [estimate];
      targets' := targets + [target];
      Record(estimates', targets');
      ok := true;
    }

    /** The online record becomes the metrics. */
    method Record(estimates: seq<real>, targets: seq<bool>)
      modifies this
      requires Valid()
      ensures Valid() && Settings() == old(Settings()) && L == old(L) && U == old(U) && weights == old(weights)
      ensures metrics == Some((estimates, targets))
    {
      metrics := Some((estimates, targets));
    }
  }
}
