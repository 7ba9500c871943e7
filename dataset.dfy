/** `DataSet`: per resident, the feature vectors of its instances and their
    binary activity labels.

    The label rows are arrays, because the learners write a label and put
    it back while they evaluate a candidate, and because taking one
    resident's view shares that resident's row with the source (a write
    through the view shows in the source). Feature vectors are never
    written after loading, so they are kept as values. */
module Data {
  import opened Numerics
  import opened Outcomes
  import opened Collections
  import opened Classifier

  class DataSet {
    /** `Features[resident][instance]`; `None` stands for a null array. */
    var features: Option<seq<seq<Vector>>>
    /** `Labels[resident]`, one array per resident. */
    var labels: seq<array<bool>>

    /** Both arrays are present, with one label per feature vector. */
    predicate Valid()
      reads this
    {
      features.Some? && |features.value| == |labels| &&
      forall r :: 0 <= r < |labels| ==> labels[r].Length == |features.value[r]|
    }

    /** A data set holding the given rows, each label row in an array of
        its own. */
    constructor (rows: seq<seq<Vector>>, labelRows: seq<seq<bool>>)
      requires |rows| == |labelRows|
      requires forall r :: 0 <= r < |rows| ==> |rows[r]| == |labelRows[r]|
      ensures Valid()
      ensures features == Some(rows)
      ensures |labels| == |labelRows|
      ensures forall r :: 0 <= r < |labels| ==> fresh(labels[r]) && labels[r][..] == labelRows[r]
      ensures forall r, r' :: 0 <= r < r' < |labels| ==> labels[r] != labels[r']
    {
      var made: seq<array<bool>> := [];
      for r := 0 to |labelRows|
        invariant |made| == r
        invariant forall k :: 0 <= k < r ==> fresh(made[k]) && made[k][..] == labelRows[k]
        invariant forall k, k' :: 0 <= k < k' < r ==> made[k] != made[k']
      {
        var row := labelRows[r];
        var a := new bool[|row|](i requires 0 <= i < |row| => row[i]);
        made := made + [a];
      }
      features := Some(rows);
      labels := made;
    }

    /** `new DataSet { Features = features, Labels = labels }`: the arrays
        are taken as they are, not copied. */
    constructor Wrap(features: Option<seq<seq<Vector>>>, labels: seq<array<bool>>)
      ensures this.features == features && this.labels == labels
    {
      this.features := features;
      this.labels := labels;
    }

    /** The labels of every resident, as values. */
    function LabelRows(): (rows: seq<seq<bool>>)
      reads this, labels
      ensures |rows| == |labels|
      ensures forall r :: 0 <= r < |labels| ==> rows[r] == labels[r][..]
    {
      seq(|labels|, r reads this, labels requires 0 <= r < |labels| => labels[r][..])
    }

    /** `NumberOfResidents`: -1 when there are no feature rows. */
    function NumberOfResidents(): (n: int)
      reads this
      ensures features.None? <==> n == -1
      ensures features.Some? ==> n == |features.value|
    {
      match features
      case None => -1
      case Some(rows) => |rows|
    }

    /** `NumberOfInstances`: the length of every resident's feature row,
        null when there are no feature rows. */
    function NumberOfInstances(): (counts: Option<seq<int>>)
      reads this
      ensures features.None? <==> counts.None?
      ensures features.Some? ==>
        |counts.value| == |features.value| &&
        forall r :: 0 <= r < |features.value| ==> counts.value[r] == |features.value[r]|
    {
      match features
      case None => None
      case Some(rows) => Some(seq(|rows|, r requires 0 <= r < |rows| => |rows[r]|))
    }

    /** `NumberOfFeatures`: the length of the first feature vector; -1
        when there are no feature rows, and an index past the end when
        there is no first resident or it has no instance. */
    function NumberOfFeatures(): (r: Result<int>)
      reads this
      ensures features.None? ==> r == Ok(-1)
      ensures r.Err? <==> features.Some? && (|features.value| == 0 || |features.value[0]| == 0)
      ensures r.Err? ==> r.failure == IndexOutOfRange
      ensures features.Some? && r.Ok? ==> r.value == |features.value[0][0]| >= 0
    {
      match features
      case None => Ok(-1)
      case Some(rows) =>
        if |rows| == 0 || |rows[0]| == 0 then Err(IndexOutOfRange) else Ok(|rows[0][0]|)
    }

    /** `NumberOfActivities`: the labels are binary. */
    function NumberOfActivities(): (n: int)
      ensures n == 2
    {
      2
    }

    /** `GetSubSet(resident)`: a one-resident view that shares the
        resident's label array with this data set. */
    method GetResident(resident: int) returns (d: DataSet)
      requires features.Some? && 0 <= resident < |features.value| && resident < |labels|
      ensures fresh(d)
      ensures d.features == Some([features.value[resident]])
      ensures d.labels == [labels[resident]]
      ensures Valid() ==> d.Valid()
    {
      d := new DataSet.Wrap(Some([features.value[resident]]), [labels[resident]]);
    }

    /** `GetSubSet(residents, indices)`: copies the listed instances into
        freshly allocated rows. The result has room for one resident only,
        so a second resident with any index to copy indexes past its end.
        With no resident the new rows keep their initial values: false
        labels, and feature vectors that C# leaves null, empty here. */
    method GetSubSetOf(residents: seq<int>, indices: seq<int>) returns (r: Result<DataSet>)
      requires Valid()
      requires |residents| > 0 ==> 0 <= residents[0] < |labels|
      requires |residents| > 0 ==>
        forall j :: 0 <= j < |indices| ==> 0 <= indices[j] < labels[residents[0]].Length
      ensures r.Err? <==> |residents| > 1 && |indices| > 0
      ensures r.Err? ==> r.failure == IndexOutOfRange
      ensures r.Ok? ==> fresh(r.value) && |r.value.labels| == 1 && fresh(r.value.labels[0]) && r.value.Valid()
      ensures r.Ok? ==> r.value.features.value == [Gathered(residents, indices)]
      ensures r.Ok? ==> r.value.labels[0][..] == GatheredLabels(residents, indices)
    {
      var n := |indices|;
      var rows := new Vector[n](_ => []);
      var labs := new bool[n](_ => false);
      for i := 0 to |residents|
        invariant i <= 1 || n == 0
        invariant |residents| > 0 && i == 1 ==>
          rows[..] == Gathered(residents, indices) && labs[..] == GatheredLabels(residents, indices)
        invariant i == 0 ==> rows[..] == seq(n, _ => []) && labs[..] == seq(n, _ => false)
      {
        for j := 0 to n
          invariant i == 0 ==> forall k :: 0 <= k < j ==>
            rows[k] == features.value[residents[0]][indices[k]] && labs[k] == labels[residents[0]][indices[k]]
          invariant i == 0 ==> forall k :: j <= k < n ==> rows[k] == [] && !labs[k]
          invariant i > 0 ==> j == 0
        {
          if i != 0 {
            return Err(IndexOutOfRange);
          }
          var resident := residents[i];
          var index := indices[j];
          rows[j] := features.value[resident][index];
          labs[j] := labels[resident][index];
        }
      }
      var d := new DataSet.Wrap(Some([rows[..]]), [labs]);
      return Ok(d);
    }

    /** The feature vectors `GetSubSetOf` copies. */
    function Gathered(residents: seq<int>, indices: seq<int>): (rows: seq<Vector>)
      reads this
      requires Valid()
      requires |residents| > 0 ==> 0 <= residents[0] < |labels|
      requires |residents| > 0 ==>
        forall j :: 0 <= j < |indices| ==> 0 <= indices[j] < labels[residents[0]].Length
      ensures |rows| == |indices|
      ensures |residents| > 0 ==> forall j :: 0 <= j < |indices| ==>
        rows[j] == features.value[residents[0]][indices[j]]
      ensures |residents| == 0 ==> forall j :: 0 <= j < |indices| ==> rows[j] == []
    {
      if |residents| == 0 then seq(|indices|, _ => [])
      else
        var source := features.value[residents[0]];
        seq(|indices|, j requires 0 <= j < |indices| => source[indices[j]])
    }

    /** The labels `GetSubSetOf` copies. */
    function GatheredLabels(residents: seq<int>, indices: seq<int>): (labs: seq<bool>)
      reads this, labels
      requires Valid()
      requires |residents| > 0 ==> 0 <= residents[0] < |labels|
      requires |residents| > 0 ==>
        forall j :: 0 <= j < |indices| ==> 0 <= indices[j] < labels[residents[0]].Length
      ensures |labs| == |indices|
      ensures |residents| > 0 ==> forall j :: 0 <= j < |indices| ==>
        labs[j] == labels[residents[0]][indices[j]]
      ensures |residents| == 0 ==> forall j :: 0 <= j < |indices| ==> !labs[j]
    {
      if |residents| == 0 then seq(|indices|, _ => false)
      else
        var source := labels[residents[0]];
        seq(|indices|, j reads source requires 0 <= j < |indices| => source[indices[j]])
    }

    /** `GetSubSet(resident, indices)`: one resident, the listed instances,
        in a fresh label array. */
    method GetSubSetList(resident: int, indices: seq<int>) returns (d: DataSet)
      requires Valid() && 0 <= resident < |labels|
      requires forall j :: 0 <= j < |indices| ==> 0 <= indices[j] < labels[resident].Length
      ensures fresh(d) && |d.labels| == 1 && fresh(d.labels[0]) && d.Valid()
      ensures |d.features.value[0]| == |indices| && d.labels[0].Length == |indices|
      ensures forall j :: 0 <= j < |indices| ==>
        d.features.value[0][j] == features.value[resident][indices[j]] &&
        d.labels[0][j] == labels[resident][indices[j]]
    {
      var r := GetSubSetOf([resident], indices);
      match r
      case Ok(v) => d := v;
      case Err(_) => assert false;
    }

    /** `GetSubSet(resident, index)`: the one-instance case of
        `GetSubSetList`. */
    method GetSubSetAt(resident: int, index: int) returns (d: DataSet)
      requires Valid() && 0 <= resident < |labels| && 0 <= index < labels[resident].Length
      ensures fresh(d) && |d.labels| == 1 && fresh(d.labels[0]) && d.Valid()
      ensures d.features.value == [[features.value[resident][index]]]
      ensures d.labels[0][..] == [labels[resident][index]]
    {
      d := GetSubSetList(resident, [index]);
      assert d.features.value[0] == [features.value[resident][index]];
    }

    /** `SplitTrainTest(trainProportion, out trainSet, out testSet)`. */
    method SplitTrainTest(trainProportion: real) returns (r: Result<(DataSet, DataSet)>)
      requires Valid()
      ensures r.Err? <==> trainProportion < 0.0 || trainProportion > 1.0
      ensures r.Ok? ==> fresh(r.value.0) && fresh(r.value.1) && r.value.0.Valid() && r.value.1.Valid()
      ensures r.Ok? ==>
        Split(trainProportion, Table(features.value, LabelRows())) ==
          Ok((Table(r.value.0.features.value, r.value.0.LabelRows()),
              Table(r.value.1.features.value, r.value.1.LabelRows())))
    {
      var split := Split(trainProportion, Table(features.value, LabelRows()));
      match split
      case Err(e) =>
        return Err(e);
      case Ok(parts) =>
        SplitKeepsRowsAligned(trainProportion, Table(features.value, LabelRows()));
        var train := new DataSet(parts.0.features, parts.0.labels);
        var test := new DataSet(parts.1.features, parts.1.labels);
        assert train.LabelRows() == parts.0.labels;
        assert test.LabelRows() == parts.1.labels;
        return Ok((train, test));
    }
  }

  /** The rows of one table whose feature and label rows line up. */
  predicate Aligned(t: Table)
  {
    |t.features| == |t.labels| &&
    forall r :: 0 <= r < |t.features| ==> |t.features[r]| == |t.labels[r]|
  }

  /** The number of training instances of a resident with `len` labels:
      `(int)Math.Ceiling(trainProportion * len)`. For a proportion in
      [0, 1] it lies between 0 and `len`. */
  function TrainCount(p: real, len: nat): (n: int)
    ensures 0.0 <= p <= 1.0 ==> 0 <= n <= len
  {
    var x := p * (len as real);
    assert 0.0 <= p <= 1.0 ==> 0.0 <= x <= len as real by {
      if 0.0 <= p <= 1.0 {
        assert p * (len as real) <= 1.0 * (len as real);
      }
    }
    Ceiling(x)
  }

  function TrainCounts(p: real, t: Table): (counts: seq<int>)
    ensures |counts| == |t.labels|
    ensures forall r :: 0 <= r < |t.labels| ==> counts[r] == TrainCount(p, |t.labels[r]|)
  {
    seq(|t.labels|, r requires 0 <= r < |t.labels| => TrainCount(p, |t.labels[r]|))
  }

  /** The value `SplitTrainTest` computes: an `ArgumentOutOfRange` failure
      for a proportion outside [0, 1], else each resident's rows cut after
      its train count. */
  function Split(p: real, t: Table): (r: Result<(Table, Table)>)
    requires |t.features| == |t.labels|
    ensures r.Err? <==> p < 0.0 || p > 1.0
    ensures r.Err? ==> r.failure == ArgumentOutOfRange
  {
    if p < 0.0 || p > 1.0 then Err(ArgumentOutOfRange)
    else
      var counts := TrainCounts(p, t);
      var n := |t.features|;
      Ok((Table(seq(n, r requires 0 <= r < n => Take(t.features[r], counts[r])),
                seq(n, r requires 0 <= r < n => Take(t.labels[r], counts[r]))),
          Table(seq(n, r requires 0 <= r < n => Skip(t.features[r], counts[r])),
                seq(n, r requires 0 <= r < n => Skip(t.labels[r], counts[r])))))
  }

  /** For each resident the train part holds the first `ceil(p * len)`
      instances and the test part the rest, in their original order; the
      number of residents is kept. */
  lemma SplitPartitions(p: real, t: Table)
    requires |t.features| == |t.labels| && 0.0 <= p <= 1.0
    ensures Split(p, t).Ok?
    ensures var (train, test) := Split(p, t).value;
      |train.features| == |test.features| == |train.labels| == |test.labels| == |t.labels| &&
      forall r :: 0 <= r < |t.labels| ==>
        |train.labels[r]| == TrainCount(p, |t.labels[r]|) &&
        train.labels[r] + test.labels[r] == t.labels[r] &&
        train.features[r] + test.features[r] == t.features[r]
  {
  }

  /** Splitting keeps every resident's feature and label rows the same
      length. */
  lemma SplitKeepsRowsAligned(p: real, t: Table)
    requires Aligned(t) && 0.0 <= p <= 1.0
    ensures Split(p, t).Ok?
    ensures Aligned(Split(p, t).value.0) && Aligned(Split(p, t).value.1)
  {
    SplitPartitions(p, t);
  }

  /** A proportion of 0 leaves every train part empty, a proportion of 1
      every test part. */
  lemma SplitExtremes(t: Table)
    requires |t.features| == |t.labels|
    ensures forall r :: 0 <= r < |t.labels| ==>
      Split(0.0, t).value.0.labels[r] == [] && Split(0.0, t).value.0.features[r] == []
    ensures forall r :: 0 <= r < |t.labels| ==>
      Split(1.0, t).value.1.labels[r] == [] &&
      (|t.features[r]| <= |t.labels[r]| ==> Split(1.0, t).value.1.features[r] == [])
  {
    forall r | 0 <= r < |t.labels|
      ensures TrainCount(0.0, |t.labels[r]|) == 0
      ensures TrainCount(1.0, |t.labels[r]|) == |t.labels[r]|
    {
    }
  }
}
