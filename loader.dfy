/** The data loader: three parallel record lists (subject id, label and
    feature vector of every record) grouped into a `DataSet` with one row
    per requested subject.

    The two copies of the loader in the repository differ only in that
    one of them draws a random order which it never uses, so one model
    serves both. */
module Loading {
  import opened Numerics
  import opened Outcomes
  import opened Collections
  import opened Classifier
  import opened Data

  /** Column `f` passes the filter: there is no filter (null or empty),
      or the filter names the column. */
  predicate Keeps(selected: Option<set<int>>, f: int)
  {
    selected.None? || selected.value == {} || f in selected.value
  }

  /** The columns below `n` that pass the filter, in the order the column
      loop meets them. */
  function Chosen(selected: Option<set<int>>, n: nat): (cols: seq<int>)
    ensures |cols| <= n
    ensures forall j :: 0 <= j < |cols| ==> 0 <= cols[j] < n
  {
    if n == 0 then [] else Chosen(selected, n - 1) + (if Keeps(selected, n - 1) then [n - 1] else [])
  }

  /** The chosen columns are ascending. */
  lemma {:induction false} ChosenAscending(selected: Option<set<int>>, n: nat)
    ensures forall j, j' :: 0 <= j < j' < |Chosen(selected, n)| ==> Chosen(selected, n)[j] < Chosen(selected, n)[j']
  {
    if n > 0 {
      var cols, prev := Chosen(selected, n), Chosen(selected, n - 1);
      ChosenAscending(selected, n - 1);
      assert cols == prev + if Keeps(selected, n - 1) then [n - 1] else [];
      forall j, j' | 0 <= j < j' < |cols|
        ensures cols[j] < cols[j']
      {
        assert cols[j] == prev[j];
        if j' < |prev| {
          assert cols[j'] == prev[j'];
        } else {
          assert cols[j'] == n - 1;
        }
      }
    }
  }

  /** The chosen columns are exactly the columns below `n` that pass the
      filter. */
  lemma {:induction false} ChosenExactly(selected: Option<set<int>>, n: nat)
    ensures forall f :: f in Chosen(selected, n) <==> 0 <= f < n && Keeps(selected, f)
  {
    if n > 0 {
      var prev, last := Chosen(selected, n - 1), if Keeps(selected, n - 1) then [n - 1] else [];
      ChosenExactly(selected, n - 1);
      assert Chosen(selected, n) == prev + last;
      forall f
        ensures f in Chosen(selected, n) <==> 0 <= f < n && Keeps(selected, f)
      {
        assert f in prev + last <==> f in prev || f in last;
      }
    }
  }

  /** Without a filter every column is chosen. */
  lemma {:induction false} ChosenAll(selected: Option<set<int>>, n: nat)
    requires selected.None? || selected.value == {}
    ensures |Chosen(selected, n)| == n
    ensures forall j :: 0 <= j < n ==> Chosen(selected, n)[j] == j
  {
    if n > 0 {
      ChosenAll(selected, n - 1);
    }
  }

  /** The feature vector stored for a record: its chosen columns, then the
      bias `1.0` when one is asked for. */
  function Columns(record: Vector, selected: Option<set<int>>, addbias: bool): (v: Vector)
  {
    var cols := Chosen(selected, |record|);
    seq(|cols|, j requires 0 <= j < |cols| => record[cols[j]]) + (if addbias then [1.0] else [])
  }

  /** The vector holds the chosen columns in ascending order, followed by
      `1.0` exactly when a bias is asked for; without a filter it is the
      whole record. */
  lemma ColumnsShape(record: Vector, selected: Option<set<int>>, addbias: bool)
    ensures var v := Columns(record, selected, addbias);
      var cols := Chosen(selected, |record|);
      |v| == |cols| + (if addbias then 1 else 0) &&
      (forall j :: 0 <= j < |cols| ==> v[j] == record[cols[j]]) &&
      (addbias ==> v[|v| - 1] == 1.0)
    ensures selected.None? || selected.value == {} ==>
      Columns(record, selected, addbias) == record + (if addbias then [1.0] else [])
  {
    if selected.None? || selected.value == {} {
      ChosenAll(selected, |record|);
    }
  }

  /** The subject-to-row dictionary: `inds[subjects[ss]] = ss` for each
      position in turn, so a repeated subject keeps its last position. */
  function Positions(subjects: seq<int>): (inds: map<int, int>)
  {
    if subjects == [] then map[]
    else
      var last := |subjects| - 1;
      Positions(subjects[..last])[subjects[last] := last]
  }

  /** A subject is in the dictionary exactly when it is among the
      subjects, and then it maps to its last position. */
  lemma {:induction false} PositionIsLast(subjects: seq<int>, k: int)
    ensures k in Positions(subjects) <==> k in subjects
    ensures k in Positions(subjects) ==>
      var j := Positions(subjects)[k];
      0 <= j < |subjects| && subjects[j] == k &&
      forall j' :: j < j' < |subjects| ==> subjects[j'] != k
  {
    if subjects != [] {
      var last := |subjects| - 1;
      PositionIsLast(subjects[..last], k);
      assert forall x :: x in subjects[..last] || x == subjects[last] <==> x in subjects;
    }
  }

  /** Record `ii` belongs in row `ss`. */
  predicate MapsTo(inds: map<int, int>, subject: int, ss: int)
  {
    subject in inds && inds[subject] == ss
  }

  /** The records among the first `n` that belong in row `ss`, in input
      order. */
  function Records(s: seq<int>, inds: map<int, int>, ss: int, n: nat): (recs: seq<int>)
    requires n <= |s|
    ensures |recs| <= n
    ensures forall j :: 0 <= j < |recs| ==> 0 <= recs[j] < n
  {
    if n == 0 then []
    else Records(s, inds, ss, n - 1) + (if MapsTo(inds, s[n - 1], ss) then [n - 1] else [])
  }

  /** The records of a row are in input order. */
  lemma {:induction false} RecordsAscending(s: seq<int>, inds: map<int, int>, ss: int, n: nat)
    requires n <= |s|
    ensures forall j, j' :: 0 <= j < j' < |Records(s, inds, ss, n)| ==>
      Records(s, inds, ss, n)[j] < Records(s, inds, ss, n)[j']
  {
    if n > 0 {
      var recs, prev := Records(s, inds, ss, n), Records(s, inds, ss, n - 1);
      RecordsAscending(s, inds, ss, n - 1);
      assert recs == prev + if MapsTo(inds, s[n - 1], ss) then [n - 1] else [];
      forall j, j' | 0 <= j < j' < |recs|
        ensures recs[j] < recs[j']
      {
        assert recs[j] == prev[j];
        if j' < |prev| {
          assert recs[j'] == prev[j'];
        } else {
          assert recs[j'] == n - 1;
        }
      }
    }
  }

  /** The records of a row are exactly the records that belong in it. */
  lemma {:induction false} RecordsExactly(s: seq<int>, inds: map<int, int>, ss: int, n: nat)
    requires n <= |s|
    ensures forall ii :: ii in Records(s, inds, ss, n) <==> 0 <= ii < n && MapsTo(inds, s[ii], ss)
  {
    if n > 0 {
      var prev, last := Records(s, inds, ss, n - 1), if MapsTo(inds, s[n - 1], ss) then [n - 1] else [];
      RecordsExactly(s, inds, ss, n - 1);
      assert Records(s, inds, ss, n) == prev + last;
      forall ii
        ensures ii in Records(s, inds, ss, n) <==> 0 <= ii < n && MapsTo(inds, s[ii], ss)
      {
        assert ii in prev + last <==> ii in prev || ii in last;
      }
    }
  }

  /** `Convert.ToInt32(keepProportion * count)`: how many records of a row
      are kept. */
  function KeepCount(keepProportion: real, count: nat): int
  {
    RoundHalfEven(keepProportion * count as real)
  }

  /** A keep proportion of one keeps every record. */
  lemma KeepEverything(count: nat)
    ensures KeepCount(1.0, count) == count
  {
    assert 1.0 * count as real == count as real;
  }

  function RowFeatures(x: seq<Vector>, recs: seq<int>, selected: Option<set<int>>, addbias: bool): seq<Vector>
    requires forall j :: 0 <= j < |recs| ==> 0 <= recs[j] < |x|
  {
    seq(|recs|, k requires 0 <= k < |recs| => Columns(x[recs[k]], selected, addbias))
  }

  function RowLabels(y: seq<bool>, recs: seq<int>): seq<bool>
    requires forall j :: 0 <= j < |recs| ==> 0 <= recs[j] < |y|
  {
    seq(|recs|, k requires 0 <= k < |recs| => y[recs[k]])
  }

  /** One more record in a row adds its feature vector and its label at
      the end. */
  lemma RowAppend(x: seq<Vector>, y: seq<bool>, recs: seq<int>, ii: int, selected: Option<set<int>>, addbias: bool)
    requires forall j :: 0 <= j < |recs| ==> 0 <= recs[j] < |x| && recs[j] < |y|
    requires 0 <= ii < |x| && ii < |y|
    ensures RowFeatures(x, recs + [ii], selected, addbias) ==
      RowFeatures(x, recs, selected, addbias) + [Columns(x[ii], selected, addbias)]
    ensures RowLabels(y, recs + [ii]) == RowLabels(y, recs) + [y[ii]]
  {
    assert RowFeatures(x, recs + [ii], selected, addbias)[|recs|] == Columns(x[ii], selected, addbias);
  }

  /** The table `GetDataSet` builds from the record lists. */
  function Grouped(s: seq<int>, y: seq<bool>, x: seq<Vector>, subjects: seq<int>, addbias: bool,
                   selected: Option<set<int>>, keepProportion: real): (t: Table)
    requires |s| == |y| == |x|
  {
    var inds := Positions(subjects);
    var n := |subjects|;
    Table(seq(n, ss requires 0 <= ss < n => KeptFeatures(s, x, inds, ss, addbias, selected, keepProportion)),
          seq(n, ss requires 0 <= ss < n => KeptLabels(s, y, inds, ss, keepProportion)))
  }

  /** The feature vectors of row `ss`, truncated to the kept count. */
  function KeptFeatures(s: seq<int>, x: seq<Vector>, inds: map<int, int>, ss: int, addbias: bool,
                        selected: Option<set<int>>, keepProportion: real): seq<Vector>
    requires |s| == |x|
  {
    var recs := Records(s, inds, ss, |x|);
    Take(RowFeatures(x, recs, selected, addbias), KeepCount(keepProportion, |recs|))
  }

  /** The labels of row `ss`, truncated to the kept count. */
  function KeptLabels(s: seq<int>, y: seq<bool>, inds: map<int, int>, ss: int, keepProportion: real): seq<bool>
    requires |s| == |y|
  {
    var recs := Records(s, inds, ss, |y|);
    Take(RowLabels(y, recs), KeepCount(keepProportion, |recs|))
  }

  /** Row `ss` of the table: the records of the row, truncated to the
      kept count. */
  lemma GroupedRow(s: seq<int>, y: seq<bool>, x: seq<Vector>, subjects: seq<int>, addbias: bool,
                   selected: Option<set<int>>, keepProportion: real, ss: int)
    requires |s| == |y| == |x| && 0 <= ss < |subjects|
    ensures var t := Grouped(s, y, x, subjects, addbias, selected, keepProportion);
      var recs := Records(s, Positions(subjects), ss, |y|);
      |t.features| == |t.labels| == |subjects| &&
      t.features[ss] == Take(RowFeatures(x, recs, selected, addbias), KeepCount(keepProportion, |recs|)) &&
      t.labels[ss] == Take(RowLabels(y, recs), KeepCount(keepProportion, |recs|))
  {
    var t := Grouped(s, y, x, subjects, addbias, selected, keepProportion);
    assert t.features[ss] == KeptFeatures(s, x, Positions(subjects), ss, addbias, selected, keepProportion);
    assert t.labels[ss] == KeptLabels(s, y, Positions(subjects), ss, keepProportion);
  }

  /** One row of features and one of labels per subject. */
  lemma GroupedShape(s: seq<int>, y: seq<bool>, x: seq<Vector>, subjects: seq<int>, addbias: bool,
                     selected: Option<set<int>>, keepProportion: real)
    requires |s| == |y| == |x|
    ensures var t := Grouped(s, y, x, subjects, addbias, selected, keepProportion);
      |t.features| == |t.labels| == |subjects|
  {
  }

  /** One row per subject, with as many labels as feature vectors; entry
      `k` of row `ss` is, features and label alike, the `k`-th record (in
      input order) whose subject has its last position at `ss`. */
  lemma GroupedRows(s: seq<int>, y: seq<bool>, x: seq<Vector>, subjects: seq<int>, addbias: bool,
                    selected: Option<set<int>>, keepProportion: real, ss: int)
    requires |s| == |y| == |x| && 0 <= ss < |subjects|
    ensures var t := Grouped(s, y, x, subjects, addbias, selected, keepProportion);
      var recs := Records(s, Positions(subjects), ss, |y|);
      Aligned(t) && |t.features| == |subjects| &&
      |t.labels[ss]| <= |recs| &&
      (keepProportion == 1.0 ==> |t.labels[ss]| == |recs|) &&
      forall k :: 0 <= k < |t.labels[ss]| ==>
        var ii := recs[k];
        0 <= ii < |y| && subjects[ss] == s[ii] &&
        (forall j' :: ss < j' < |subjects| ==> subjects[j'] != s[ii]) &&
        t.features[ss][k] == Columns(x[ii], selected, addbias) &&
        t.labels[ss][k] == y[ii]
  {
    var t := Grouped(s, y, x, subjects, addbias, selected, keepProportion);
    var recs := Records(s, Positions(subjects), ss, |y|);
    GroupedRow(s, y, x, subjects, addbias, selected, keepProportion, ss);
    KeepEverything(|recs|);
    RecordsExactly(s, Positions(subjects), ss, |y|);
    forall k | 0 <= k < |t.labels[ss]|
      ensures subjects[ss] == s[recs[k]]
      ensures forall j' :: ss < j' < |subjects| ==> subjects[j'] != s[recs[k]]
    {
      PositionIsLast(subjects, s[recs[k]]);
    }
  }

  /** Every record whose subject has its last position at `ss` lands in
      row `ss` when nothing is truncated. */
  lemma GroupedComplete(s: seq<int>, y: seq<bool>, x: seq<Vector>, subjects: seq<int>, addbias: bool,
                        selected: Option<set<int>>, ii: int, ss: int)
    requires |s| == |y| == |x| && 0 <= ss < |subjects| && 0 <= ii < |y|
    requires subjects[ss] == s[ii] && forall j' :: ss < j' < |subjects| ==> subjects[j'] != s[ii]
    ensures var t := Grouped(s, y, x, subjects, addbias, selected, 1.0);
      exists k :: 0 <= k < |t.labels[ss]| &&
        t.features[ss][k] == Columns(x[ii], selected, addbias) && t.labels[ss][k] == y[ii]
  {
    var inds := Positions(subjects);
    var recs := Records(s, inds, ss, |y|);
    PositionIsLast(subjects, s[ii]);
    RecordsExactly(s, inds, ss, |y|);
    KeepEverything(|recs|);
    var k :| 0 <= k < |recs| && recs[k] == ii;
    var t := Grouped(s, y, x, subjects, addbias, selected, 1.0);
    assert t.labels[ss][k] == y[ii];
  }

  /** No record belongs to the earlier of two positions of a subject. */
  lemma RepeatedSubjectNoRecords(s: seq<int>, subjects: seq<int>, j: int, j': int)
    requires 0 <= j < j' < |subjects| && subjects[j] == subjects[j']
    ensures Records(s, Positions(subjects), j, |s|) == []
  {
    var inds := Positions(subjects);
    var recs := Records(s, inds, j, |s|);
    RecordsExactly(s, inds, j, |s|);
    if recs != [] {
      PositionIsLast(subjects, s[recs[0]]);
      assert false;
    }
  }

  /** A subject listed twice leaves its earlier row empty. */
  lemma RepeatedSubjectRowEmpty(s: seq<int>, y: seq<bool>, x: seq<Vector>, subjects: seq<int>, addbias: bool,
                                selected: Option<set<int>>, keepProportion: real, j: int, j': int)
    requires |s| == |y| == |x| && 0 <= j < j' < |subjects| && subjects[j] == subjects[j']
    ensures Grouped(s, y, x, subjects, addbias, selected, keepProportion).labels[j] == []
    ensures Grouped(s, y, x, subjects, addbias, selected, keepProportion).features[j] == []
  {
    RepeatedSubjectNoRecords(s, subjects, j, j');
    GroupedRow(s, y, x, subjects, addbias, selected, keepProportion, j);
  }

  /** The loader's three record lists. */
  class DataLoader {
    /** The subject id of each record. */
    var s: seq<int>
    /** The label of each record. */
    var y: seq<bool>
    /** The feature vector of each record. */
    var x: seq<Vector>

    /** One subject id and one feature vector per label. */
    predicate Valid()
      reads this
    {
      |s| == |y| == |x|
    }

    constructor (subjectIds: seq<int>, labels: seq<bool>, vectors: seq<Vector>)
      ensures s == subjectIds && y == labels && x == vectors
    {
      s := subjectIds;
      y := labels;
      x := vectors;
    }

    /** The number of records. */
    function N(): (n: nat)
      reads this
      ensures Valid() ==> n == |s| == |x|
    {
      |y|
    }

    /** The number of distinct subject ids: at most the number of records,
        at least one when there is a record, and equal to it exactly when
        no id repeats. */
    function NumSubjects(): (n: nat)
      reads this
      ensures n <= |s|
      ensures s != [] ==> n >= 1
      ensures Distinct(s) ==> n == |s|
    {
      var ids := Elements(s);
      ElementsSize(s);
      |ids|
    }

    /** The length of the first feature vector; `First()` throws when there
        is none. */
    function NumFeatures(): (r: Result<nat>)
      reads this
      ensures r.Err? <==> x == []
      ensures r.Err? ==> r.failure == EmptySequence
      ensures r.Ok? ==> r.value == |x[0]|
    {
      if x == [] then Err(EmptySequence) else Ok(|x[0]|)
    }

    /** `GetDataSet`. */
    method GetDataSet(subjects: seq<int>, addbias: bool, selected: Option<set<int>>, keepProportion: real)
      returns (ds: DataSet)
      requires Valid()
      ensures fresh(ds) && ds.Valid()
      ensures ds.features == Some(Grouped(s, y, x, subjects, addbias, selected, keepProportion).features)
      ensures ds.LabelRows() == Grouped(s, y, x, subjects, addbias, selected, keepProportion).labels
    {
      var inds := BuildIndex(subjects);
      var features, labels := Rows(subjects, inds, addbias, selected, keepProportion);
      ds := new DataSet(features, labels);
      assert ds.LabelRows() == labels;
    }

    /** The row loop of `GetDataSet`. */
    method Rows(subjects: seq<int>, inds: map<int, int>, addbias: bool, selected: Option<set<int>>,
                keepProportion: real)
      returns (features: seq<seq<Vector>>, labels: seq<seq<bool>>)
      requires Valid() && inds == Positions(subjects)
      ensures features == Grouped(s, y, x, subjects, addbias, selected, keepProportion).features
      ensures labels == Grouped(s, y, x, subjects, addbias, selected, keepProportion).labels
      ensures |features| == |labels| && forall r :: 0 <= r < |features| ==> |features[r]| == |labels[r]|
    {
      ghost var t := Grouped(s, y, x, subjects, addbias, selected, keepProportion);
      features, labels := [], [];
      for ss := 0 to |subjects|
        invariant |features| == |labels| == ss
        invariant forall r :: 0 <= r < ss ==>
          features[r] == KeptFeatures(s, x, inds, r, addbias, selected, keepProportion) &&
          labels[r] == KeptLabels(s, y, inds, r, keepProportion) && |features[r]| == |labels[r]|
      {
        var feats, labs := KeptRow(inds, ss, addbias, selected, keepProportion);
        features := features + [feats];
        labels := labels + [labs];
      }
      GroupedShape(s, y, x, subjects, addbias, selected, keepProportion);
      assert features == t.features && labels == t.labels;
    }

    /** Row `ss` of `GetDataSet`: the records of the subject, of which the
        first `nKeep` are kept. */
    method KeptRow(inds: map<int, int>, ss: int, addbias: bool, selected: Option<set<int>>, keepProportion: real)
      returns (feats: seq<Vector>, labs: seq<bool>)
      requires Valid()
      ensures feats == KeptFeatures(s, x, inds, ss, addbias, selected, keepProportion)
      ensures labs == KeptLabels(s, y, inds, ss, keepProportion)
      ensures |feats| == |labs|
    {
      feats, labs := Row(inds, ss, addbias, selected);
      var nKeep := KeepCount(keepProportion, |feats|);
      feats, labs := Take(feats, nKeep), Take(labs, nKeep);
    }

    /** The loop that fills the subject-to-row dictionary. */
    method BuildIndex(subjects: seq<int>) returns (inds: map<int, int>)
      ensures inds == Positions(subjects)
    {
      inds := map[];
      for ss := 0 to |subjects|
        invariant inds == Positions(subjects[..ss])
      {
        assert subjects[..ss + 1][..ss] == subjects[..ss];
        inds := inds[subjects[ss] := ss];
      }
      assert subjects[..|subjects|] == subjects;
    }

    /** The loop over all records that collects row `ss`. */
    method Row(inds: map<int, int>, ss: int, addbias: bool, selected: Option<set<int>>)
      returns (feats: seq<Vector>, labs: seq<bool>)
      requires Valid()
      ensures var recs := Records(s, inds, ss, |y|);
        feats == RowFeatures(x, recs, selected, addbias) && labs == RowLabels(y, recs)
    {
      feats, labs := [], [];
      for ii := 0 to |y|
        invariant var recs := Records(s, inds, ss, ii);
          feats == RowFeatures(x, recs, selected, addbias) && labs == RowLabels(y, recs)
      {
        if s[ii] in inds && inds[s[ii]] == ss {
          RowAppend(x, y, Records(s, inds, ss, ii), ii, selected, addbias);
          var thisfeat := Filter(x[ii], addbias, selected);
          feats := feats + [thisfeat];
          labs := labs + [y[ii]];
        }
      }
    }

    /** The column loop and the bias for one record. */
    method Filter(record: Vector, addbias: bool, selected: Option<set<int>>) returns (v: Vector)
      ensures v == Columns(record, selected, addbias)
    {
      v := [];
      for ff := 0 to |record|
        invariant var cols := Chosen(selected, ff);
          v == seq(|cols|, j requires 0 <= j < |cols| => record[cols[j]])
      {
        if selected.None? || selected.value == {} || ff in selected.value {
          v := v + [record[ff]];
        }
      }
      if addbias {
        v := v + [1.0];
      }
    }
  }

  /** A sequence has at most as many distinct elements as entries, at
      least one when it is not empty, and exactly as many when no element
      repeats. */
  lemma {:induction false} ElementsSize(s: seq<int>)
    ensures |Elements(s)| <= |s|
    ensures s != [] ==> |Elements(s)| >= 1
    ensures Distinct(s) ==> |Elements(s)| == |s|
  {
    if s != [] {
      var init, last := s[..|s| - 1], s[|s| - 1];
      assert s == init + [last];
      ElementsSize(init);
      assert Elements(s) == Elements(init) + {last};
      if Distinct(s) {
        assert Distinct(init);
        assert last !in Elements(init);
      }
    }
  }
}
