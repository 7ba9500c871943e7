/** The per-prediction metrics of a learner: a list of true labels paired
    with the probabilities the classifier gave to the positive class.

    A `Bernoulli` estimate is represented by its mean, the only thing the
    modelled metrics read from it. The two C# arrays are `Option`s because
    either can be null, and every metric applies a LINQ operator to them,
    which throws on null. */
module Scoring {
  import opened Numerics
  import opened Outcomes

  datatype Prediction = Prediction(truth: bool, estimate: Prob)

  /** `TrueLabels.Zip(Estimates, ...)`: pairs by position and stops at the
      end of the shorter array. */
  function Zip(truths: seq<bool>, estimates: seq<Prob>): (ps: seq<Prediction>)
    ensures |ps| == Min(|truths|, |estimates|)
    ensures forall k :: 0 <= k < |ps| ==> ps[k] == Prediction(truths[k], estimates[k])
  {
    if truths == [] || estimates == [] then []
    else [Prediction(truths[0], estimates[0])] + Zip(truths[1..], estimates[1..])
  }

  /** The `Predictions` property: the zipped pairs, or the exception `Zip`
      throws when either array is null. */
  function Predictions(truths: Option<seq<bool>>, estimates: Option<seq<Prob>>): (r: Result<seq<Prediction>>)
    ensures r.Err? <==> truths.None? || estimates.None?
    ensures r.Err? ==> r.failure == ArgumentNull
    ensures r.Ok? ==> |r.value| == Min(|truths.value|, |estimates.value|)
    ensures r.Ok? ==> forall k :: 0 <= k < |r.value| ==>
      r.value[k].truth == truths.value[k] && r.value[k].estimate == estimates.value[k]
  {
    if truths.None? || estimates.None? then Err(ArgumentNull)
    else Ok(Zip(truths.value, estimates.value))
  }

  /** `Prediction.Correct`: the estimate predicts the positive class exactly
      when it is above one half, so an estimate of one half predicts false. */
  predicate Correct(p: Prediction)
  {
    p.truth == (p.estimate > 0.5)
  }

  function Indicator(b: bool): real { if b then 1.0 else 0.0 }

  /** The summand of `AverageAccuracy`. */
  function AccuracyOf(p: Prediction): real { Indicator(Correct(p)) }

  /** `Prediction.BrierScore`: the squared distance between the truth, as
      0 or 1, and the estimate. */
  function BrierOf(p: Prediction): (b: real)
    ensures 0.0 <= b <= 1.0
    ensures p.estimate == Indicator(p.truth) ==> b == 0.0
    ensures Correct(p) ==> b <= 0.25
    ensures !Correct(p) ==> b >= 0.25
  {
    var d := Indicator(p.truth) - p.estimate;
    SquareOfSigned(d);
    d * d
  }

  /** The summand of `MeanSquaredError`, written as that property writes it
      (with `ConditionalDensity`, the estimate's mean). */
  function SquaredErrorOf(p: Prediction): real
  {
    var e := (if p.truth then 1.0 else 0.0) - p.estimate;
    e * e
  }

  /** How a square of a number in [0, 1] compares with 1/4 and with 1. */
  lemma SquareOfUnit(d: real)
    requires 0.0 <= d <= 1.0
    ensures 0.0 <= d * d <= 1.0
    ensures d <= 0.5 ==> d * d <= 0.25
    ensures d >= 0.5 ==> d * d >= 0.25
  {
    assert d * d <= 1.0 * d;
    MulSigns(d, d);
    if d <= 0.5 {
      assert d * d <= 0.5 * d;
    } else {
      assert d * d >= 0.5 * d;
    }
  }

  /** The same comparisons for a number in [-1, 1], by its magnitude. */
  lemma SquareOfSigned(d: real)
    requires -1.0 <= d <= 1.0
    ensures 0.0 <= d * d <= 1.0
    ensures -0.5 <= d <= 0.5 ==> d * d <= 0.25
    ensures (d <= -0.5 || d >= 0.5) ==> d * d >= 0.25
  {
    if d >= 0.0 {
      SquareOfUnit(d);
    } else {
      SquareOfUnit(-d);
      assert (-d) * (-d) == d * d;
    }
  }

  /** The sum of `f` over the predictions, in order. */
  function Total(ps: seq<Prediction>, f: Prediction -> real): real
  {
    if ps == [] then 0.0 else f(ps[0]) + Total(ps[1..], f)
  }

  /** A sum of terms in [0, 1] lies between 0 and the number of terms. */
  lemma {:induction false} TotalOfUnits(ps: seq<Prediction>, f: Prediction -> real)
    requires forall k :: 0 <= k < |ps| ==> 0.0 <= f(ps[k]) <= 1.0
    ensures 0.0 <= Total(ps, f) <= |ps| as real
  {
    if ps != [] {
      TotalOfUnits(ps[1..], f);
    }
  }

  /** Sums of two summands that agree on every prediction are equal. */
  lemma {:induction false} TotalCongruent(ps: seq<Prediction>, f: Prediction -> real, g: Prediction -> real)
    requires forall k :: 0 <= k < |ps| ==> f(ps[k]) == g(ps[k])
    ensures Total(ps, f) == Total(ps, g)
  {
    if ps != [] {
      TotalCongruent(ps[1..], f, g);
    }
  }

  /** `Enumerable.Average`, guarded as every metric guards it: NaN for no
      predictions, else the sum over the count. */
  function Average(ps: seq<Prediction>, f: Prediction -> real): (r: Double)
    ensures r.NaN? <==> ps == []
    ensures !r.NaN? ==> r.Finite? && r.value * |ps| as real == Total(ps, f)
    ensures r.Finite? && (forall k :: 0 <= k < |ps| ==> 0.0 <= f(ps[k]) <= 1.0) ==>
      0.0 <= r.value <= 1.0
  {
    if ps == [] then NaN
    else
      var n := |ps| as real;
      var s := Total(ps, f);
      var v := s / n;
      assert v * n == s;
      MeanOfUnits(ps, f);
      Finite(v)
  }

  /** A mean of terms in [0, 1] lies in [0, 1]. */
  lemma MeanOfUnits(ps: seq<Prediction>, f: Prediction -> real)
    requires ps != []
    ensures (forall k :: 0 <= k < |ps| ==> 0.0 <= f(ps[k]) <= 1.0) ==>
      0.0 <= Total(ps, f) / |ps| as real <= 1.0
  {
    if forall k :: 0 <= k < |ps| ==> 0.0 <= f(ps[k]) <= 1.0 {
      TotalOfUnits(ps, f);
      UnitQuotient(Total(ps, f), |ps| as real);
    }
  }

  /** A quotient `s / n` with `0 <= s <= n` lies in [0, 1]. */
  lemma UnitQuotient(s: real, n: real)
    requires n > 0.0 && 0.0 <= s <= n
    ensures 0.0 <= s / n <= 1.0
  {
    var v := s / n;
    assert v * n == s;
  }

  /** How many of the predictions are correct. */
  function CorrectCount(ps: seq<Prediction>): (n: nat)
    ensures n <= |ps|
  {
    if ps == [] then 0 else (if Correct(ps[0]) then 1 else 0) + CorrectCount(ps[1..])
  }

  lemma {:induction false} AccuracyTotal(ps: seq<Prediction>)
    ensures Total(ps, AccuracyOf) == CorrectCount(ps) as real
  {
    if ps != [] {
      AccuracyTotal(ps[1..]);
    }
  }

  /** `AverageAccuracy`. */
  function AverageAccuracy(truths: Option<seq<bool>>, estimates: Option<seq<Prob>>): (r: Result<Double>)
    ensures r.Err? <==> truths.None? || estimates.None?
    ensures r.Ok? ==> (r.value.NaN? <==> |truths.value| == 0 || |estimates.value| == 0)
    ensures r.Ok? && r.value.Finite? ==> 0.0 <= r.value.value <= 1.0
  {
    match Predictions(truths, estimates)
    case Err(e) => Err(e)
    case Ok(ps) => Ok(Average(ps, AccuracyOf))
  }

  /** The accuracy is the fraction of the predictions that are correct. */
  lemma AccuracyIsFraction(truths: seq<bool>, estimates: seq<Prob>)
    requires truths != [] && estimates != []
    ensures var ps := Zip(truths, estimates);
      AverageAccuracy(Some(truths), Some(estimates)) ==
        Ok(Finite(CorrectCount(ps) as real / |ps| as real))
  {
    var ps := Zip(truths, estimates);
    assert Predictions(Some(truths), Some(estimates)) == Ok(ps);
    assert Average(ps, AccuracyOf) == Finite(Total(ps, AccuracyOf) / |ps| as real);
    AccuracyTotal(ps);
  }

  /** `BrierScore`: the mean of the per-prediction Brier scores. */
  function BrierScore(truths: Option<seq<bool>>, estimates: Option<seq<Prob>>): (r: Result<Double>)
    ensures r.Err? <==> truths.None? || estimates.None?
    ensures r.Ok? ==> (r.value.NaN? <==> |truths.value| == 0 || |estimates.value| == 0)
    ensures r.Ok? && r.value.Finite? ==> 0.0 <= r.value.value <= 1.0
  {
    match Predictions(truths, estimates)
    case Err(e) => Err(e)
    case Ok(ps) => Ok(Average(ps, BrierOf))
  }

  /** `MeanSquaredError`. */
  function MeanSquaredError(truths: Option<seq<bool>>, estimates: Option<seq<Prob>>): (r: Result<Double>)
    ensures r.Err? <==> truths.None? || estimates.None?
  {
    match Predictions(truths, estimates)
    case Err(e) => Err(e)
    case Ok(ps) => Ok(Average(ps, SquaredErrorOf))
  }

  /** The mean squared error and the Brier score are the same quantity. */
  lemma MeanSquaredErrorIsBrierScore(truths: Option<seq<bool>>, estimates: Option<seq<Prob>>)
    ensures MeanSquaredError(truths, estimates) == BrierScore(truths, estimates)
  {
    if truths.Some? && estimates.Some? {
      TotalCongruent(Zip(truths.value, estimates.value), SquaredErrorOf, BrierOf);
    }
  }

  /** `EstimatedLabels`: null when there are no predictions, otherwise the
      means of all the estimates, including those beyond the last true
      label. */
  function EstimatedLabels(truths: Option<seq<bool>>, estimates: Option<seq<Prob>>): (r: Result<Option<seq<Prob>>>)
    ensures r.Err? <==> truths.None? || estimates.None?
    ensures r.Ok? ==> (r.value.None? <==> |truths.value| == 0 || |estimates.value| == 0)
    ensures r.Ok? && r.value.Some? ==> r.value.value == estimates.value
  {
    match Predictions(truths, estimates)
    case Err(e) => Err(e)
    case Ok(ps) => Ok(if ps == [] then None else Some(estimates.value))
  }

  /** The metrics object: the two arrays it is given and the two cached
      arrays that every assignment clears. */
  class Metrics {
    var trueLabels: Option<seq<bool>>
    var estimates: Option<seq<Prob>>
    var logProbOfTruth: Option<seq<real>>
    var accuracy: Option<seq<real>>

    constructor()
      ensures trueLabels == None && estimates == None
      ensures logProbOfTruth == None && accuracy == None
    {
      trueLabels := None;
      estimates := None;
      logProbOfTruth := None;
      accuracy := None;
    }

    /** The `TrueLabels` setter. */
    method SetTrueLabels(value: Option<seq<bool>>)
      modifies this
      ensures trueLabels == value && estimates == old(estimates)
      ensures logProbOfTruth == None && accuracy == None
      ensures Accuracy() == AverageAccuracy(value, old(estimates))
    {
      trueLabels := value;
      logProbOfTruth := None;
      accuracy := None;
    }

    /** The `Estimates` setter. */
    method SetEstimates(value: Option<seq<Prob>>)
      modifies this
      ensures estimates == value && trueLabels == old(trueLabels)
      ensures logProbOfTruth == None && accuracy == None
      ensures Accuracy() == AverageAccuracy(old(trueLabels), value)
    {
      estimates := value;
      logProbOfTruth := None;
      accuracy := None;
    }

    function Accuracy(): Result<Double>
      reads this
    {
      AverageAccuracy(trueLabels, estimates)
    }
  }
}
