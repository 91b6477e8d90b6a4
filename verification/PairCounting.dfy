/** Counting the index pairs of a sequence that stand in a relation.

    These are the reference definitions of Kendall's tau: a statistic over all
    pairs `i < j`, stated without any sorting.  The lemmas say how such counts
    behave under concatenation and, for a symmetric relation, under reordering. */
module PairCounting {

  /** How many elements `x` of `s` satisfy `r(x, a)`. */
  ghost function CountWith<T(!new)>(r: (T, T) -> bool, s: seq<T>, a: T): nat {
    if s == [] then 0
    else
      var n := |s| - 1;
      CountWith(r, s[..n], a) + (if r(s[n], a) then 1 else 0)
  }

  /** How many index pairs `i < j` satisfy `r(s[i], s[j])`. */
  ghost function CountPairs<T(!new)>(r: (T, T) -> bool, s: seq<T>): nat {
    if s == [] then 0
    else
      var n := |s| - 1;
      CountPairs(r, s[..n]) + CountWith(r, s[..n], s[n])
  }

  /** How many pairs `(x in u, y in v)` satisfy `r(x, y)`. */
  ghost function Cross<T(!new)>(r: (T, T) -> bool, u: seq<T>, v: seq<T>): nat {
    if v == [] then 0
    else
      var n := |v| - 1;
      Cross(r, u, v[..n]) + CountWith(r, u, v[n])
  }

  ghost predicate Symmetric<T(!new)>(r: (T, T) -> bool) {
    forall x, y :: r(x, y) == r(y, x)
  }

  /** The index pairs themselves. */
  ghost function PairSet<T(!new)>(r: (T, T) -> bool, s: seq<T>): set<(int, int)> {
    set i, j | 0 <= i < j < |s| && r(s[i], s[j]) :: (i, j)
  }

  /** The index pairs `(i, n)` whose element at `i` is related to `a`. */
  ghost function Column<T(!new)>(r: (T, T) -> bool, s: seq<T>, a: T, n: int): set<(int, int)> {
    set i | 0 <= i < |s| && r(s[i], a) :: (i, n)
  }

  lemma {:induction false} ColumnCardinality<T(!new)>(r: (T, T) -> bool, s: seq<T>, a: T, n: int)
    ensures CountWith(r, s, a) == |Column(r, s, a, n)|
  {
    if s == [] {
      assert Column(r, s, a, n) == {};
    } else {
      var m := |s| - 1;
      ColumnCardinality(r, s[..m], a, n);
      assert Column(r, s, a, n) == Column(r, s[..m], a, n) + (if r(s[m], a) then {(m, n)} else {});
    }
  }

  /** `CountPairs` is the cardinality of the set of related index pairs. */
  lemma {:induction false} CountPairsIsCardinality<T(!new)>(r: (T, T) -> bool, s: seq<T>)
    ensures CountPairs(r, s) == |PairSet(r, s)|
  {
    if s == [] {
      assert PairSet(r, s) == {};
    } else {
      var n := |s| - 1;
      CountPairsIsCardinality(r, s[..n]);
      ColumnCardinality(r, s[..n], s[n], n);
      assert PairSet(r, s) == PairSet(r, s[..n]) + Column(r, s[..n], s[n], n);
      assert PairSet(r, s[..n]) !! Column(r, s[..n], s[n], n);
    }
  }

  lemma {:induction false} CountWithConcat<T(!new)>(r: (T, T) -> bool, u: seq<T>, v: seq<T>, a: T)
    ensures CountWith(r, u + v, a) == CountWith(r, u, a) + CountWith(r, v, a)
  {
    if v == [] {
      assert u + v == u;
    } else {
      var n := |v| - 1;
      assert (u + v)[..|u| + n] == u + v[..n];
      CountWithConcat(r, u, v[..n], a);
    }
  }

  lemma {:induction false} CrossConcatLeft<T(!new)>(r: (T, T) -> bool, u: seq<T>, u': seq<T>, v: seq<T>)
    ensures Cross(r, u + u', v) == Cross(r, u, v) + Cross(r, u', v)
  {
    if v != [] {
      var n := |v| - 1;
      CrossConcatLeft(r, u, u', v[..n]);
      CountWithConcat(r, u, u', v[n]);
    }
  }

  lemma {:induction false} CrossConcatRight<T(!new)>(r: (T, T) -> bool, u: seq<T>, v: seq<T>, v': seq<T>)
    ensures Cross(r, u, v + v') == Cross(r, u, v) + Cross(r, u, v')
  {
    if v' == [] {
      assert v + v' == v;
    } else {
      var n := |v'| - 1;
      assert (v + v')[..|v| + n] == v + v'[..n];
      CrossConcatRight(r, u, v, v'[..n]);
    }
  }

  /** The pairs of a concatenation: those inside each half, and those across. */
  lemma {:induction false} PairsConcat<T(!new)>(r: (T, T) -> bool, u: seq<T>, v: seq<T>)
    ensures CountPairs(r, u + v) == CountPairs(r, u) + CountPairs(r, v) + Cross(r, u, v)
  {
    if v == [] {
      assert u + v == u;
    } else {
      var n := |v| - 1;
      assert (u + v)[..|u| + n] == u + v[..n];
      PairsConcat(r, u, v[..n]);
      CountWithConcat(r, u, v[..n], v[n]);
    }
  }

  lemma SplitAtOccurrence<T(!new)>(s: seq<T>, x: T) returns (left: seq<T>, right: seq<T>)
    requires x in multiset(s)
    ensures s == left + [x] + right
    ensures multiset(left + right) == multiset(s) - multiset{x}
  {
    var k :| 0 <= k < |s| && s[k] == x;
    left, right := s[..k], s[k + 1..];
    assert s == left + [x] + right;
  }

  lemma MultisetFront<T>(s: seq<T>)
    requires s != []
    ensures multiset(s) == multiset(s[..|s| - 1]) + multiset{s[|s| - 1]}
  {
    assert s == s[..|s| - 1] + [s[|s| - 1]];
  }

  /** Counting against `a` does not depend on the order of the sequence. */
  lemma {:induction false} CountWithPerm<T(!new)>(r: (T, T) -> bool, s: seq<T>, t: seq<T>, a: T)
    requires multiset(s) == multiset(t)
    ensures CountWith(r, s, a) == CountWith(r, t, a)
  {
    if s == [] {
      assert |multiset(t)| == 0;
    } else {
      var n := |s| - 1;
      MultisetFront(s);
      var left, right := SplitAtOccurrence(t, s[n]);
      CountWithPerm(r, s[..n], left + right, a);
      CountWithConcat(r, left, right, a);
      CountWithConcat(r, left + [s[n]], right, a);
      CountWithConcat(r, left, [s[n]], a);
      SingletonCount(r, s[n], a);
    }
  }

  lemma SingletonCount<T(!new)>(r: (T, T) -> bool, x: T, a: T)
    ensures CountWith(r, [x], a) == if r(x, a) then 1 else 0
  {
    assert [x][..0] == [];
  }

  /** For a symmetric relation, one element's related pairs can be counted from either side. */
  lemma {:induction false} CrossSingletonSymmetric<T(!new)>(r: (T, T) -> bool, x: T, v: seq<T>)
    requires Symmetric(r)
    ensures Cross(r, [x], v) == CountWith(r, v, x)
  {
    if v != [] {
      var n := |v| - 1;
      CrossSingletonSymmetric(r, x, v[..n]);
      SingletonCount(r, x, v[n]);
    }
  }

  /** Taking out one element takes out exactly its related pairs. */
  lemma PairsRemove<T(!new)>(r: (T, T) -> bool, left: seq<T>, x: T, right: seq<T>)
    requires Symmetric(r)
    ensures CountPairs(r, left + [x] + right) == CountPairs(r, left + right) + CountWith(r, left + right, x)
  {
    PairsConcat(r, left + [x], right);
    assert (left + [x])[..|left|] == left;
    CrossConcatLeft(r, left, [x], right);
    CrossSingletonSymmetric(r, x, right);
    PairsConcat(r, left, right);
    CountWithConcat(r, left, right, x);
  }

  /** A symmetric relation has the same number of pairs in every ordering. */
  lemma {:induction false} PairsPerm<T(!new)>(r: (T, T) -> bool, s: seq<T>, t: seq<T>)
    requires Symmetric(r)
    requires multiset(s) == multiset(t)
    ensures CountPairs(r, s) == CountPairs(r, t)
  {
    if s == [] {
      assert |multiset(t)| == 0;
    } else {
      var n := |s| - 1;
      MultisetFront(s);
      var left, right := SplitAtOccurrence(t, s[n]);
      PairsPerm(r, s[..n], left + right);
      CountWithPerm(r, s[..n], left + right, s[n]);
      PairsRemove(r, left, s[n], right);
    }
  }

  lemma {:induction false} CrossPerm<T(!new)>(r: (T, T) -> bool, u: seq<T>, u': seq<T>, v: seq<T>, v': seq<T>)
    requires multiset(u) == multiset(u') && multiset(v) == multiset(v')
    ensures Cross(r, u, v) == Cross(r, u', v')
  {
    if v == [] {
      assert |multiset(v')| == 0;
    } else {
      var n := |v| - 1;
      MultisetFront(v);
      var left, right := SplitAtOccurrence(v', v[n]);
      CrossPerm(r, u, u', v[..n], left + right);
      CountWithPerm(r, u, u', v[n]);
      CrossConcatRight(r, u', left + [v[n]], right);
      CrossConcatRight(r, u', left, [v[n]]);
      CrossConcatRight(r, u', left, right);
      assert Cross(r, u', [v[n]]) == CountWith(r, u', v[n]) by { assert [v[n]][..0] == []; }
    }
  }

  lemma {:induction false} CountWithBounds<T(!new)>(r: (T, T) -> bool, s: seq<T>, a: T)
    ensures CountWith(r, s, a) <= |s|
    ensures CountWith(r, s, a) == |s| <==> forall x :: x in s ==> r(x, a)
    ensures CountWith(r, s, a) == 0 <==> forall x :: x in s ==> !r(x, a)
  {
    if s != [] {
      var n := |s| - 1;
      CountWithBounds(r, s[..n], a);
      assert s == s[..n] + [s[n]];
    }
  }

  ghost predicate AllPairs<T(!new)>(r: (T, T) -> bool, s: seq<T>) {
    forall i, j :: 0 <= i < j < |s| ==> r(s[i], s[j])
  }

  /** The number of index pairs of a sequence of length `n`. */
  function Choose2(n: nat): nat {
    n * (n - 1) / 2
  }

  lemma Choose2Step(n: nat)
    ensures Choose2(n + 1) == Choose2(n) + n
  {
    assert (n + 1) * n == n * (n - 1) + 2 * n;
  }

  /** At most `n(n-1)/2` pairs are related, and that many exactly when all are. */
  lemma {:induction false} CountPairsBound<T(!new)>(r: (T, T) -> bool, s: seq<T>)
    ensures CountPairs(r, s) <= Choose2(|s|)
    ensures CountPairs(r, s) == Choose2(|s|) <==> AllPairs(r, s)
  {
    if s != [] {
      var n := |s| - 1;
      var front := s[..n];
      CountPairsBound(r, front);
      CountWithBounds(r, front, s[n]);
      Choose2Step(n);
      if AllPairs(r, s) {
        assert AllPairs(r, front);
      }
      if AllPairs(r, front) && (forall x :: x in front ==> r(x, s[n])) {
        forall i, j | 0 <= i < j < |s| ensures r(s[i], s[j]) {
          assert s[i] == front[i];
        }
      }
      if AllPairs(r, s) {
        forall x | x in front ensures r(x, s[n]) {
          var i :| 0 <= i < n && front[i] == x;
          assert r(s[i], s[n]);
        }
      }
    }
  }

  /** No related pair at all when the relation never holds in order. */
  lemma {:induction false} NoPairs<T(!new)>(r: (T, T) -> bool, s: seq<T>)
    requires forall i, j :: 0 <= i < j < |s| ==> !r(s[i], s[j])
    ensures CountPairs(r, s) == 0
  {
    if s != [] {
      var n := |s| - 1;
      NoPairs(r, s[..n]);
      CountWithBounds(r, s[..n], s[n]);
    }
  }

  /** Two relations that agree on every pair in order have equal counts. */
  lemma {:induction false} PairsAgree<T(!new), U(!new)>(r: (T, T) -> bool, s: seq<T>, q: (U, U) -> bool, t: seq<U>)
    requires |s| == |t|
    requires forall i, j :: 0 <= i < j < |s| ==> r(s[i], s[j]) == q(t[i], t[j])
    ensures CountPairs(r, s) == CountPairs(q, t)
  {
    if s != [] {
      var n := |s| - 1;
      PairsAgree(r, s[..n], q, t[..n]);
      CountsAgree(r, s[..n], s[n], q, t[..n], t[n]);
    }
  }

  lemma {:induction false} CountsAgree<T(!new), U(!new)>(r: (T, T) -> bool, s: seq<T>, a: T, q: (U, U) -> bool,
          t: seq<U>, b: U)
    requires |s| == |t|
    requires forall i :: 0 <= i < |s| ==> r(s[i], a) == q(t[i], b)
    ensures CountWith(r, s, a) == CountWith(q, t, b)
  {
    if s != [] {
      var n := |s| - 1;
      CountsAgree(r, s[..n], a, q, t[..n], b);
    }
  }
}
