/** Sets of instance indices, the sums the risk terms are taken over, the
    enumeration orders a `HashSet<int>` can be walked in, and the
    "first best" rule every selection loop of the learners follows. */
module Collections {

  /** `Enumerable.Range(0, n)` as a set. */
  function Range(n: int): (r: set<int>)
    ensures forall k :: k in r <==> 0 <= k < n
  {
    if n <= 0 then {} else Range(n - 1) + {n - 1}
  }

  lemma {:induction false} RangeSize(n: nat)
    ensures |Range(n)| == n
  {
    if n > 0 {
      var r := Range(n - 1);
      RangeSize(n - 1);
      assert n - 1 !in r;
      assert Range(n) == r + {n - 1};
      assert |r + {n - 1}| == |r| + 1;
    }
  }

  /** The indices of `s` whose label in `truths` is `c`. */
  function ClassOf(s: set<int>, truths: seq<bool>, c: bool): (r: set<int>)
    ensures r <= s
    ensures forall k :: k in r <==> k in s && 0 <= k < |truths| && truths[k] == c
  {
    set k | k in s && 0 <= k < |truths| && truths[k] == c
  }

  /** Taking an index of class `c` out of a set takes one from its class
      and leaves the other class as it was. */
  lemma ClassOfRemove(s: set<int>, truths: seq<bool>, c: bool, x: int)
    requires x in s && 0 <= x < |truths| && truths[x] == c
    ensures |ClassOf(s - {x}, truths, c)| == |ClassOf(s, truths, c)| - 1
    ensures ClassOf(s - {x}, truths, !c) == ClassOf(s, truths, !c)
  {
    assert ClassOf(s - {x}, truths, c) == ClassOf(s, truths, c) - {x};
  }

  /** How many instances of one class `num` rounds of `Transfer` move
      when the unlabelled set holds `count` of them: one per round while
      any is left. */
  function Moved(count: nat, num: int): (n: nat)
    ensures n <= count
    ensures num > 0 && count > 0 ==> n > 0
  {
    if num <= 0 then 0 else if count <= num then count else num
  }

  /** Rounds of moves add up: `a` rounds and then `b` more move as many
      as `a + b` rounds at once. */
  lemma MovedAdd(count: nat, a: int, b: int)
    requires (a >= 0 && b >= 0) || (a <= 0 && b <= 0)
    ensures Moved(count, a) + Moved(count - Moved(count, a), b) == Moved(count, a + b)
  {
  }

  /** Some element of a non-empty set. */
  lemma Pick(s: set<int>) returns (x: int)
    requires s != {}
    ensures x in s
  {
    if forall y :: y !in s {
      assert false;
    }
    x :| x in s;
  }

  predicate IsLeast(m: int, s: set<int>)
  {
    m in s && forall y :: y in s ==> m <= y
  }

  lemma {:induction false} LeastExists(s: set<int>)
    requires s != {}
    ensures exists m :: IsLeast(m, s)
    decreases |s|
  {
    var x := Pick(s);
    if s == {x} {
      assert IsLeast(x, s);
    } else {
      LeastExists(s - {x});
      var m :| IsLeast(m, s - {x});
      if x < m {
        forall y | y in s ensures x <= y {
          if y != x { assert y in s - {x}; }
        }
        assert IsLeast(x, s);
      } else {
        forall y | y in s ensures m <= y {
          if y != x { assert y in s - {x}; }
        }
        assert IsLeast(m, s);
      }
    }
  }

  /** The smallest element; the first one a `SortedSet<int>` yields. */
  function Least(s: set<int>): (m: int)
    requires s != {}
    ensures IsLeast(m, s)
  {
    LeastExists(s);
    var m :| IsLeast(m, s);
    m
  }

  /** The sum of `f` over a set of indices, the value of
      `set.Sum(index => f(index))`. Real addition does not depend on the
      order the terms come in, so the set is walked in ascending order. */
  function SetSum(s: set<int>, f: int -> real): real
    decreases |s|
  {
    if s == {} then 0.0
    else
      var m := Least(s);
      f(m) + SetSum(s - {m}, f)
  }

  /** Any element can be taken out of the sum first. */
  lemma {:induction false} SetSumRemove(s: set<int>, f: int -> real, x: int)
    requires x in s
    ensures SetSum(s, f) == f(x) + SetSum(s - {x}, f)
    decreases |s|
  {
    var m := Least(s);
    if m != x {
      var rest := s - {m};
      SetSumRemove(rest, f, x);
      assert rest - {x} == (s - {x}) - {m};
      assert Least(s - {x}) == m by {
        assert IsLeast(m, s - {x});
      }
    }
  }

  /** Adding an index that is not yet in the set adds its term. */
  lemma SetSumAdd(s: set<int>, f: int -> real, x: int)
    requires x !in s
    ensures SetSum(s + {x}, f) == SetSum(s, f) + f(x)
  {
    SetSumRemove(s + {x}, f, x);
    assert (s + {x}) - {x} == s;
  }

  /** Two functions that agree on the set have the same sum over it. */
  lemma {:induction false} SetSumCongruent(s: set<int>, f: int -> real, g: int -> real)
    requires forall k :: k in s ==> f(k) == g(k)
    ensures SetSum(s, f) == SetSum(s, g)
    decreases |s|
  {
    if s != {} {
      SetSumCongruent(s - {Least(s)}, f, g);
    }
  }

  /** A sum of non-negative terms is non-negative. */
  lemma {:induction false} SetSumNonNegative(s: set<int>, f: int -> real)
    requires forall k :: k in s ==> f(k) >= 0.0
    ensures SetSum(s, f) >= 0.0
    decreases |s|
  {
    if s != {} {
      SetSumNonNegative(s - {Least(s)}, f);
    }
  }

  /** `order` lists the elements of `s`, each exactly once: one of the
      orders a `HashSet<int>` may be enumerated (or shuffled) in. */
  predicate IsEnumeration(order: seq<int>, s: set<int>)
  {
    Distinct(order) &&
    (forall i :: 0 <= i < |order| ==> order[i] in s) &&
    (forall x :: x in s ==> x in order)
  }

  /** The elements of a set in ascending order, as a `SortedSet<int>`
      enumerates them. */
  function Ascending(s: set<int>): (order: seq<int>)
    ensures IsEnumeration(order, s)
    ensures forall i, j :: 0 <= i < j < |order| ==> order[i] < order[j]
    decreases |s|
  {
    if s == {} then []
    else
      var m := Least(s);
      [m] + Ascending(s - {m})
  }

  lemma EnumerationLength(order: seq<int>, s: set<int>)
    requires IsEnumeration(order, s)
    ensures |order| == |s|
  {
    DistinctCardinality(order);
    assert forall x :: x in (set y | y in order) <==> x in s;
    assert (set x | x in order) == s;
  }

  /** The elements of a sequence, as a set. */
  function Elements(s: seq<int>): (r: set<int>)
    ensures forall x :: x in r <==> x in s
  {
    set x | x in s
  }

  /** Appending a new element keeps a sequence free of duplicates and
      adds it to its elements. */
  lemma Append(s: seq<int>, x: int)
    requires Distinct(s) && x !in s
    ensures Distinct(s + [x]) && Elements(s + [x]) == Elements(s) + {x}
  {
  }

  /** No element occurs twice. */
  predicate Distinct(order: seq<int>)
  {
    forall i, j :: 0 <= i < j < |order| ==> order[i] != order[j]
  }

  /** A sequence is free of duplicates exactly when no element has a
      count above one; so a permutation of a duplicate-free sequence is
      free of duplicates too. */
  lemma {:induction false} DistinctCounts(order: seq<int>)
    ensures Distinct(order) <==> forall x :: multiset(order)[x] <= 1
  {
    if order != [] {
      var last := order[|order| - 1];
      var init := order[..|order| - 1];
      DistinctCounts(init);
      assert order == init + [last];
      assert multiset(order) == multiset(init) + multiset{last};
      if Distinct(order) {
        assert Distinct(init);
      } else {
        var i, j :| 0 <= i < j < |order| && order[i] == order[j];
        if j < |order| - 1 {
          assert init[i] == init[j];
          assert !Distinct(init);
          var x :| multiset(init)[x] > 1;
          assert multiset(order)[x] > 1;
        } else {
          assert init[i] == last;
          assert multiset(order)[last] >= 2;
        }
      }
    }
  }

  lemma DistinctPermutation(a: seq<int>, b: seq<int>)
    requires multiset(a) == multiset(b) && Distinct(a)
    ensures Distinct(b)
  {
    DistinctCounts(a);
    DistinctCounts(b);
  }

  lemma {:induction false} DistinctCardinality(order: seq<int>)
    requires Distinct(order)
    ensures |set x | x in order| == |order|
  {
    if order != [] {
      var last := order[|order| - 1];
      var init := order[..|order| - 1];
      DistinctCardinality(init);
      assert (set x | x in order) == (set x | x in init) + {last};
      assert last !in (set x | x in init);
    }
  }

  /** The instances `picks`, distinct and all from `U0`, are those that
      have moved from `U0` (now `U`) to `L0` (now `L`). */
  predicate Moves(picks: seq<int>, L0: set<int>, U0: set<int>, L: set<int>, U: set<int>)
  {
    Distinct(picks) && (forall k :: 0 <= k < |picks| ==> picks[k] in U0) &&
    L == L0 + Elements(picks) && U == U0 - Elements(picks)
  }

  /** One more instance moved from `U` to `L`. */
  lemma MovesAppend(picks: seq<int>, L0: set<int>, U0: set<int>, L: set<int>, U: set<int>, pick: int)
    requires Moves(picks, L0, U0, L, U) && pick in U
    ensures Moves(picks + [pick], L0, U0, L + {pick}, U - {pick})
  {
    Append(picks, pick);
  }

  /** Each move takes one instance out of `U`. */
  lemma MovesCount(picks: seq<int>, L0: set<int>, U0: set<int>, L: set<int>, U: set<int>)
    requires Moves(picks, L0, U0, L, U)
    ensures |U| == |U0| - |picks|
  {
    DistinctCardinality(picks);
    assert Elements(picks) == set x | x in picks;
    assert U0 == U + Elements(picks);
  }

  /** `a` is strictly better than `b`: smaller when minimising, larger
      when maximising. */
  predicate Better(a: real, b: real, minimise: bool)
  {
    if minimise then a < b else a > b
  }

  /** `k` is what a loop `if (v[i] < best || !isSet) { best = v[i]; arg = i; }`
      (or its `>` twin) leaves behind: no value is strictly better than
      `vals[k]`, and every earlier value is strictly worse, so ties go to
      the first position holding the best value. */
  predicate IsFirstBest(vals: seq<real>, k: int, minimise: bool)
  {
    0 <= k < |vals| &&
    (forall i :: 0 <= i < |vals| ==> !Better(vals[i], vals[k], minimise)) &&
    (forall i :: 0 <= i < k ==> Better(vals[k], vals[i], minimise))
  }

  /** A reference definition of the first best position. */
  function FirstBest(vals: seq<real>, minimise: bool): (k: nat)
    requires vals != []
    ensures k < |vals|
  {
    if |vals| == 1 then 0
    else
      var k := FirstBest(vals[..|vals| - 1], minimise);
      if Better(vals[|vals| - 1], vals[k], minimise) then |vals| - 1 else k
  }

  lemma {:induction false} FirstBestIsFirstBest(vals: seq<real>, minimise: bool)
    requires vals != []
    ensures IsFirstBest(vals, FirstBest(vals, minimise), minimise)
  {
    if |vals| > 1 {
      FirstBestIsFirstBest(vals[..|vals| - 1], minimise);
    }
  }

  /** One step of such a loop: after looking at `vals[i]`, the first best
      position of the longer prefix is `i` if `vals[i]` is strictly better
      than the best so far, and the old one otherwise. */
  lemma FirstBestStep(vals: seq<real>, i: int, k: int, minimise: bool)
    requires 0 < i < |vals| && IsFirstBest(vals[..i], k, minimise)
    ensures Better(vals[i], vals[k], minimise) ==> IsFirstBest(vals[..i + 1], i, minimise)
    ensures !Better(vals[i], vals[k], minimise) ==> IsFirstBest(vals[..i + 1], k, minimise)
  {
    assert forall j :: 0 <= j < i ==> vals[..i][j] == vals[j];
  }

  /** The rule picks exactly one position. */
  lemma FirstBestUnique(vals: seq<real>, k: int, k': int, minimise: bool)
    requires IsFirstBest(vals, k, minimise) && IsFirstBest(vals, k', minimise)
    ensures k == k'
  {
    assert !Better(vals[k], vals[k'], minimise);
    assert !Better(vals[k'], vals[k], minimise);
  }

  /** LINQ `Take(n)`: the first `n` elements, all of them when there are
      fewer, none when `n` is not positive. */
  function Take<T>(s: seq<T>, n: int): (r: seq<T>)
    ensures |r| == if n <= 0 then 0 else if n < |s| then n else |s|
    ensures forall i :: 0 <= i < |r| ==> r[i] == s[i]
  {
    if n <= 0 then [] else if n < |s| then s[..n] else s
  }

  /** LINQ `Skip(n)`: what `Take(n)` leaves. */
  function Skip<T>(s: seq<T>, n: int): (r: seq<T>)
    ensures Take(s, n) + r == s
  {
    if n <= 0 then s else if n < |s| then s[n..] else []
  }

  /** `Max()` of a non-empty sequence of counts. */
  function MaxOf(xs: seq<int>): (m: int)
    requires xs != []
    ensures m in xs
    ensures forall i :: 0 <= i < |xs| ==> xs[i] <= m
  {
    if |xs| == 1 then xs[0]
    else
      var m := MaxOf(xs[1..]);
      assert forall i :: 1 <= i < |xs| ==> xs[i] == xs[1..][i - 1];
      if xs[0] >= m then xs[0] else m
  }
}
