/** LINQ's `OrderBy`: a stable sort by a key comparison. `lt(a, b)` says
    that `a`'s key sorts strictly before `b`'s; elements neither of which
    sorts before the other keep the order they came in. */
module Sorting {

  /** What a key comparer has to be for `OrderBy` to sort: irreflexive,
      transitive, and such that incomparability is transitive too. */
  ghost predicate StrictWeakOrder<T(!new)>(lt: (T, T) -> bool)
  {
    (forall a :: !lt(a, a)) &&
    (forall a, b, c :: lt(a, b) && lt(b, c) ==> lt(a, c)) &&
    (forall a, b, c :: lt(a, b) ==> lt(a, c) || lt(c, b))
  }

  /** Inserts `x` before the first element it sorts strictly before, so
      after every element of the same key. */
  function Insert<T>(t: seq<T>, x: T, lt: (T, T) -> bool): seq<T>
  {
    if t == [] then [x]
    else if lt(x, t[0]) then [x] + t
    else [t[0]] + Insert(t[1..], x, lt)
  }

  /** Inserting adds `x` and loses nothing. */
  lemma {:induction false} InsertPermutes<T>(t: seq<T>, x: T, lt: (T, T) -> bool)
    ensures multiset(Insert(t, x, lt)) == multiset(t) + multiset{x}
  {
    if t != [] && !lt(x, t[0]) {
      InsertPermutes(t[1..], x, lt);
      assert t == [t[0]] + t[1..];
    }
  }

  /** `s.OrderBy(key)`: insertion sort, each element in turn inserted after
      the ones before it that it does not sort strictly before. */
  function SortBy<T>(s: seq<T>, lt: (T, T) -> bool): (r: seq<T>)
    ensures multiset(r) == multiset(s)
    ensures |r| == |s|
  {
    if s == [] then []
    else
      assert s == s[..|s| - 1] + [s[|s| - 1]];
      var r := Insert(SortBy(s[..|s| - 1], lt), s[|s| - 1], lt);
      InsertPermutes(SortBy(s[..|s| - 1], lt), s[|s| - 1], lt);
      assert |multiset(r)| == |multiset(s)|;
      r
  }

  predicate SortedBy<T>(r: seq<T>, lt: (T, T) -> bool)
  {
    forall i, j :: 0 <= i < j < |r| ==> !lt(r[j], r[i])
  }

  lemma {:induction false} InsertSorted<T(!new)>(t: seq<T>, x: T, lt: (T, T) -> bool)
    requires StrictWeakOrder(lt) && SortedBy(t, lt)
    ensures SortedBy(Insert(t, x, lt), lt)
  {
    if t != [] {
      if lt(x, t[0]) {
        var r := [x] + t;
        forall i, j | 0 <= i < j < |r| ensures !lt(r[j], r[i]) {
          if i == 0 {
            assert r[j] == t[j - 1];
          }
        }
      } else {
        InsertSorted(t[1..], x, lt);
        InsertPermutes(t[1..], x, lt);
        var rest := Insert(t[1..], x, lt);
        var r := [t[0]] + rest;
        forall i, j | 0 <= i < j < |r| ensures !lt(r[j], r[i]) {
          if i == 0 {
            var e := rest[j - 1];
            assert e in multiset(rest);
            assert e in multiset(t[1..]) || e == x;
            if e != x {
              var k :| 0 <= k < |t[1..]| && t[1..][k] == e;
              assert t[k + 1] == e;
            }
          }
        }
      }
    }
  }

  /** The result of `OrderBy` is sorted. */
  lemma {:induction false} SortBySorted<T(!new)>(s: seq<T>, lt: (T, T) -> bool)
    requires StrictWeakOrder(lt)
    ensures SortedBy(SortBy(s, lt), lt)
  {
    if s != [] {
      SortBySorted(s[..|s| - 1], lt);
      InsertSorted(SortBy(s[..|s| - 1], lt), s[|s| - 1], lt);
    }
  }

  /** The position of the first `x` in `s`, or `|s|` when there is none. */
  function IndexOf<T(==)>(s: seq<T>, x: T): (k: nat)
    ensures k <= |s| && (k < |s| ==> s[k] == x)
    ensures forall i :: 0 <= i < k ==> s[i] != x
  {
    if s == [] then 0 else if s[0] == x then 0 else 1 + IndexOf(s[1..], x)
  }

  predicate Unique<T(==)>(s: seq<T>)
  {
    forall i, j :: 0 <= i < j < |s| ==> s[i] != s[j]
  }

  /** Elements of `r` neither of which sorts strictly before the other
      appear in `r` in the order they have in `s`. */
  predicate StableFor<T(==)>(r: seq<T>, s: seq<T>, lt: (T, T) -> bool)
  {
    forall i, j :: 0 <= i < j < |r| && !lt(r[i], r[j]) ==> IndexOf(s, r[i]) < IndexOf(s, r[j])
  }

  /** Where `Insert` puts `x`: past the leading elements it does not sort
      strictly before. */
  function InsertPos<T>(t: seq<T>, x: T, lt: (T, T) -> bool): (k: nat)
    ensures k <= |t|
  {
    if t == [] || lt(x, t[0]) then 0 else InsertPos(t[1..], x, lt) + 1
  }

  /** `Insert` splits `t` at that position. */
  lemma {:induction false} InsertSplit<T>(t: seq<T>, x: T, lt: (T, T) -> bool)
    ensures Insert(t, x, lt) == t[..InsertPos(t, x, lt)] + [x] + t[InsertPos(t, x, lt)..]
  {
    if t != [] && !lt(x, t[0]) {
      var u := t[1..];
      InsertSplit(u, x, lt);
      ConsSplit(t[0], u, InsertPos(u, x, lt), x);
      assert [t[0]] + u == t;
    }
  }

  /** Putting `h` in front of a split sequence moves the split one along. */
  lemma ConsSplit<T>(h: T, u: seq<T>, k: nat, x: T)
    requires k <= |u|
    ensures [h] + (u[..k] + [x] + u[k..]) == ([h] + u)[..k + 1] + [x] + ([h] + u)[k + 1..]
  {
    assert ([h] + u)[..k + 1] == [h] + u[..k];
    assert ([h] + u)[k + 1..] == u[k..];
  }

  /** `x` goes after every element it does not sort strictly before, in
      front of the first one it does. */
  lemma {:induction false} InsertPosBetween<T>(t: seq<T>, x: T, lt: (T, T) -> bool)
    ensures forall m :: 0 <= m < InsertPos(t, x, lt) ==> !lt(x, t[m])
    ensures InsertPos(t, x, lt) < |t| ==> lt(x, t[InsertPos(t, x, lt)])
  {
    if t != [] && !lt(x, t[0]) {
      InsertPosBetween(t[1..], x, lt);
      forall m | 0 < m < InsertPos(t, x, lt)
        ensures !lt(x, t[m])
      {
        assert t[m] == t[1..][m - 1];
      }
    }
  }

  /** An element of a prefix is found first within the prefix. */
  lemma IndexOfPrefix<T>(s: seq<T>, n: nat, e: T)
    requires n <= |s| && e in s[..n]
    ensures IndexOf(s, e) == IndexOf(s[..n], e) < n
  {
    var m :| 0 <= m < n && s[..n][m] == e;
    assert IndexOf(s[..n], e) <= m;
  }

  /** Past a position whose element `x` sorts strictly before, `x` sorts
      strictly before every element of a sorted sequence. */
  lemma SortedAfter<T(!new)>(t: seq<T>, x: T, k: nat, lt: (T, T) -> bool)
    requires StrictWeakOrder(lt) && SortedBy(t, lt) && k < |t| && lt(x, t[k])
    ensures forall m :: k <= m < |t| ==> lt(x, t[m])
  {
    forall m | k < m < |t| ensures lt(x, t[m]) {
      assert !lt(t[m], t[k]);
    }
  }

  /** Inserting the last element of `s` into a stable sort of the rest
      gives a stable sort of `s`. */
  lemma InsertStable<T(!new)>(s: seq<T>, t: seq<T>, k: nat, lt: (T, T) -> bool)
    requires StrictWeakOrder(lt) && Unique(s) && s != [] && SortedBy(t, lt) && k <= |t|
    requires StableFor(t, s[..|s| - 1], lt) && forall m :: 0 <= m < |t| ==> t[m] in s[..|s| - 1]
    requires k < |t| ==> lt(s[|s| - 1], t[k])
    ensures StableFor(t[..k] + [s[|s| - 1]] + t[k..], s, lt)
  {
    var n := |s| - 1;
    var x := s[n];
    var r := t[..k] + [x] + t[k..];
    PrefixIndices(s, t, n);
    assert IndexOf(s, x) == n;
    SplitAt(t, k, x);
    if k < |t| {
      SortedAfter(t, x, k, lt);
    }
    forall i, j | 0 <= i < j < |r| && !lt(r[i], r[j])
      ensures IndexOf(s, r[i]) < IndexOf(s, r[j])
    {
      if j == k {
        assert r[i] == t[i];
      } else if i != k {
        var i' := if i < k then i else i - 1;
        var j' := if j < k then j else j - 1;
        assert r[i] == t[i'] && r[j] == t[j'] && i' < j';
      }
    }
  }

  /** The elements of `t` around `x` inserted at position `k`. */
  lemma SplitAt<T>(t: seq<T>, k: nat, x: T)
    requires k <= |t|
    ensures var r := t[..k] + [x] + t[k..];
      |r| == |t| + 1 && r[k] == x &&
      (forall m :: 0 <= m < k ==> r[m] == t[m]) && (forall m :: k < m < |r| ==> r[m] == t[m - 1])
  {
  }

  /** Elements of `t` all found in the first `n` of `s` are found there
      first. */
  lemma PrefixIndices<T>(s: seq<T>, t: seq<T>, n: nat)
    requires n <= |s| && forall m :: 0 <= m < |t| ==> t[m] in s[..n]
    ensures forall m :: 0 <= m < |t| ==> IndexOf(s, t[m]) == IndexOf(s[..n], t[m]) < n
  {
    forall m | 0 <= m < |t| ensures IndexOf(s, t[m]) == IndexOf(s[..n], t[m]) < n {
      IndexOfPrefix(s, n, t[m]);
    }
  }

  /** `OrderBy` is stable: of a sequence without repeats, elements of the
      same key keep their input order. */
  lemma {:induction false} SortByStable<T(!new)>(s: seq<T>, lt: (T, T) -> bool)
    requires StrictWeakOrder(lt) && Unique(s)
    ensures StableFor(SortBy(s, lt), s, lt)
  {
    if s != [] {
      var n := |s| - 1;
      var init := s[..n];
      var t := SortBy(init, lt);
      SortByStable(init, lt);
      SortBySorted(init, lt);
      var k := InsertPos(t, s[n], lt);
      InsertSplit(t, s[n], lt);
      InsertPosBetween(t, s[n], lt);
      forall m | 0 <= m < |t| ensures t[m] in init {
        assert t[m] in multiset(t);
      }
      InsertStable(s, t, k, lt);
    }
  }

  /** `k` is the position `OrderBy(...).First()` takes its element from:
      nothing sorts strictly before `s[k]`, and `s[k]` sorts strictly before
      everything in front of it. */
  predicate IsFirstLeast<T>(s: seq<T>, k: int, lt: (T, T) -> bool)
  {
    0 <= k < |s| &&
    (forall i :: 0 <= i < |s| ==> !lt(s[i], s[k])) &&
    (forall i :: 0 <= i < k ==> lt(s[k], s[i]))
  }

  /** A reference definition: scan left to right, keep the first strict
      improvement. */
  function FirstLeast<T>(s: seq<T>, lt: (T, T) -> bool): (k: nat)
    requires s != []
    ensures k < |s|
  {
    if |s| == 1 then 0
    else
      var k := FirstLeast(s[..|s| - 1], lt);
      if lt(s[|s| - 1], s[k]) then |s| - 1 else k
  }

  lemma {:induction false} FirstLeastIsFirstLeast<T(!new)>(s: seq<T>, lt: (T, T) -> bool)
    requires s != [] && StrictWeakOrder(lt)
    ensures IsFirstLeast(s, FirstLeast(s, lt), lt)
  {
    if |s| > 1 {
      var init := s[..|s| - 1];
      var last := s[|s| - 1];
      FirstLeastIsFirstLeast(init, lt);
      var k := FirstLeast(init, lt);
      if lt(last, s[k]) {
        forall i | 0 <= i < |s| - 1 ensures lt(last, s[i]) {
          assert s[i] == init[i];
        }
      } else {
        assert forall i :: 0 <= i < |s| - 1 ==> s[i] == init[i];
      }
    }
  }

  /** The first element of the sorted sequence is the first least element
      of the input: ties keep their input order. */
  lemma {:induction false} SortByHead<T>(s: seq<T>, lt: (T, T) -> bool)
    requires s != []
    ensures SortBy(s, lt)[0] == s[FirstLeast(s, lt)]
  {
    if |s| > 1 {
      var init := s[..|s| - 1];
      SortByHead(init, lt);
      assert init[FirstLeast(init, lt)] == s[FirstLeast(init, lt)];
    }
  }
}
