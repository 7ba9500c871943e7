/** The Bayesian classifier (`BinaryModel`) as the rest of the program
    sees it. Its inference is not modelled: training, prediction and the
    model evidence are uninterpreted functions of the data they are
    given, and a training run may fail the way the message-passing engine
    fails, with an `ImproperMessageException`. */
module Classifier {
  import opened Numerics
  import opened Outcomes

  /** The weight posterior the classifier trains (`Marginals`); its
      content is never looked into. */
  type Marginals(==)

  /** One instance's feature values. */
  type Vector = seq<real>

  /** The content of a `DataSet`: per resident, the feature vectors and
      the labels of its instances. */
  datatype Table = Table(features: seq<seq<Vector>>, labels: seq<seq<bool>>)

  /** A Bernoulli message from `ComputeEvidence`, through the two numbers
      read from it. */
  datatype Evidence = Evidence(logOdds: real, logProbTrue: real)

  datatype Classifier = Classifier(
    /** `Train(dataSet, priors, numberOfIterations)`; `None` is an
        `ImproperMessageException`. */
    train: (Table, Marginals, int) -> Option<Marginals>,
    /** The mean of the Bernoulli `Test` returns for one instance. Test
        observes only features and weight priors, so an instance's
        prediction depends on nothing but its own features. */
    predict: (Vector, Marginals) -> Prob,
    /** `ComputeEvidence(dataSet, priors)`. */
    evidence: (Table, Marginals) -> Evidence
  )

  /** `Test(dataSet, m)[r]`: the predictions for one resident's rows. */
  function TestRows(c: Classifier, rows: seq<Vector>, m: Marginals): (probs: seq<Prob>)
    ensures |probs| == |rows|
    ensures forall i :: 0 <= i < |rows| ==> probs[i] == c.predict(rows[i], m)
  {
    var predict: Vector -> Prob := v => c.predict(v, m);
    seq(|rows|, i requires 0 <= i < |rows| => predict(rows[i]))
  }

  /** A data set of one resident with one instance, as
      `GetSubSet(0, index)` builds it. */
  function Single(x: Vector, truth: bool): (t: Table)
    ensures |t.features| == |t.labels| == 1
    ensures t.features[0] == [x] && t.labels[0] == [truth]
  {
    Table([[x]], [[truth]])
  }

  /** `try { post = Train(data, priors, n); } catch (ImproperMessageException) { }`
      starting from `post = priors`. */
  function TrainOrPriors(c: Classifier, data: Table, priors: Marginals, n: int): (post: Marginals)
    ensures c.train(data, priors, n).None? ==> post == priors
    ensures c.train(data, priors, n).Some? ==> post == c.train(data, priors, n).value
  {
    match c.train(data, priors, n)
    case None => priors
    case Some(m) => m
  }
}
