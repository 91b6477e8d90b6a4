/** Kendall's tau-b by Knight's method (`src/vestigo/stats.py`).

    The program counts discordant pairs as the inversions a bottom-up merge sort
    removes, and corrects for ties with counts taken from a dictionary and from
    runs of equal neighbours.  Everything is tied here to `PairCounting`, where
    the statistic is a sum over all index pairs.  A `float` (no NaN) is a `real`. */
module KendallTau {
  import opened PairCounting

  // ----- The statistic, over all pairs -----

  datatype Point = Point(x: real, y: real)

  predicate Greater(a: real, b: real) { a > b }

  predicate Equal(a: real, b: real) { a == b }

  predicate SamePoint(p: Point, q: Point) { p == q }

  predicate TiedX(p: Point, q: Point) { p.x == q.x }

  predicate TiedY(p: Point, q: Point) { p.y == q.y }

  predicate Concordant(p: Point, q: Point) {
    (p.x < q.x && p.y < q.y) || (p.x > q.x && p.y > q.y)
  }

  predicate Discordant(p: Point, q: Point) {
    (p.x < q.x && p.y > q.y) || (p.x > q.x && p.y < q.y)
  }

  function Sign(d: real): int {
    if d > 0.0 then 1 else if d < 0.0 then -1 else 0
  }

  /** The sum of `Sign(xi - a.x) * Sign(yi - a.y)` over the points of `ps`. */
  ghost function SignSumWith(ps: seq<Point>, a: Point): int {
    if ps == [] then 0
    else
      var n := |ps| - 1;
      SignSumWith(ps[..n], a) + Sign(ps[n].x - a.x) * Sign(ps[n].y - a.y)
  }

  /** Kendall's S: the sum of `Sign(xi - xj) * Sign(yi - yj)` over all `i < j`. */
  ghost function SignSum(ps: seq<Point>): int {
    if ps == [] then 0
    else
      var n := |ps| - 1;
      SignSum(ps[..n]) + SignSumWith(ps[..n], ps[n])
  }

  lemma {:induction false} SignSumWithIsDifference(ps: seq<Point>, a: Point)
    ensures SignSumWith(ps, a) == CountWith(Concordant, ps, a) - CountWith(Discordant, ps, a)
  {
    if ps != [] {
      SignSumWithIsDifference(ps[..|ps| - 1], a);
    }
  }

  /** S counts the concordant pairs against the discordant ones. */
  lemma {:induction false} SignSumIsDifference(ps: seq<Point>)
    ensures SignSum(ps) == CountPairs(Concordant, ps) - CountPairs(Discordant, ps)
  {
    if ps != [] {
      SignSumIsDifference(ps[..|ps| - 1]);
      SignSumWithIsDifference(ps[..|ps| - 1], ps[|ps| - 1]);
    }
  }

  lemma {:induction false} OnePointPartition(ps: seq<Point>, a: Point)
    ensures |ps| == CountWith(Concordant, ps, a) + CountWith(Discordant, ps, a)
                    + CountWith(TiedX, ps, a) + CountWith(TiedY, ps, a) - CountWith(SamePoint, ps, a)
    ensures CountWith(SamePoint, ps, a) <= CountWith(TiedX, ps, a)
    ensures CountWith(SamePoint, ps, a) <= CountWith(TiedY, ps, a)
  {
    if ps != [] {
      OnePointPartition(ps[..|ps| - 1], a);
    }
  }

  /** Every pair is concordant, discordant or tied; joint ties are counted twice. */
  lemma {:induction false} PairPartition(ps: seq<Point>)
    ensures Choose2(|ps|) == CountPairs(Concordant, ps) + CountPairs(Discordant, ps)
                             + CountPairs(TiedX, ps) + CountPairs(TiedY, ps) - CountPairs(SamePoint, ps)
    ensures CountPairs(SamePoint, ps) <= CountPairs(TiedX, ps)
    ensures CountPairs(SamePoint, ps) <= CountPairs(TiedY, ps)
  {
    if ps != [] {
      var n := |ps| - 1;
      PairPartition(ps[..n]);
      OnePointPartition(ps[..n], ps[n]);
      Choose2Step(n);
    }
  }

  /** Knight's identity, for points in any order. */
  lemma KnightIdentity(ps: seq<Point>)
    ensures SignSum(ps) == Choose2(|ps|) - CountPairs(TiedX, ps) - CountPairs(TiedY, ps)
                           + CountPairs(SamePoint, ps) - 2 * CountPairs(Discordant, ps)
  {
    SignSumIsDifference(ps);
    PairPartition(ps);
  }

  /** S is bounded by the pairs untied in either coordinate. */
  lemma SignSumBounds(ps: seq<Point>)
    ensures -(Choose2(|ps|) - CountPairs(TiedX, ps)) <= SignSum(ps) <= Choose2(|ps|) - CountPairs(TiedX, ps)
    ensures -(Choose2(|ps|) - CountPairs(TiedY, ps)) <= SignSum(ps) <= Choose2(|ps|) - CountPairs(TiedY, ps)
  {
    SignSumIsDifference(ps);
    PairPartition(ps);
  }

  function Zip(xs: seq<real>, ys: seq<real>): (ps: seq<Point>)
    requires |xs| == |ys|
    ensures |ps| == |xs|
    ensures forall i :: 0 <= i < |ps| ==> ps[i].x == xs[i] && ps[i].y == ys[i]
  {
    seq(|xs|, i requires 0 <= i < |xs| => Point(xs[i], ys[i]))
  }

  lemma TiesOfZip(xs: seq<real>, ys: seq<real>)
    requires |xs| == |ys|
    ensures CountPairs(TiedX, Zip(xs, ys)) == CountPairs(Equal, xs)
    ensures CountPairs(TiedY, Zip(xs, ys)) == CountPairs(Equal, ys)
  {
    PairsAgree(TiedX, Zip(xs, ys), Equal, xs);
    PairsAgree(TiedY, Zip(xs, ys), Equal, ys);
  }

  // ----- Inversions by merge sort -----

  ghost predicate Sorted(s: seq<real>) {
    forall i, j :: 0 <= i < j < |s| ==> s[i] <= s[j]
  }

  ghost function Inversions(s: seq<real>): nat {
    CountPairs(Greater, s)
  }

  /** One merge step: ties are taken from the left. */
  ghost function Merge(a: seq<real>, b: seq<real>): seq<real> {
    if a == [] then b
    else if b == [] then a
    else if a[0] <= b[0] then [a[0]] + Merge(a[1..], b)
    else [b[0]] + Merge(a, b[1..])
  }

  lemma {:induction false} MergePermutes(a: seq<real>, b: seq<real>)
    ensures multiset(Merge(a, b)) == multiset(a) + multiset(b)
    ensures |Merge(a, b)| == |a| + |b|
  {
    if a == [] || b == [] {
    } else if a[0] <= b[0] {
      MergePermutes(a[1..], b);
      assert Merge(a, b) == [a[0]] + Merge(a[1..], b);
      assert a == [a[0]] + a[1..];
      hide Merge;
    } else {
      MergePermutes(a, b[1..]);
      assert Merge(a, b) == [b[0]] + Merge(a, b[1..]);
      assert b == [b[0]] + b[1..];
      hide Merge;
    }
  }

  lemma {:induction false} MergeSorts(a: seq<real>, b: seq<real>)
    requires Sorted(a) && Sorted(b)
    ensures Sorted(Merge(a, b))
  {
    if a == [] || b == [] {
    } else if a[0] <= b[0] {
      MergeSorts(a[1..], b);
      MergeBoundedBelow(a[1..], b, a[0]);
    } else {
      MergeSorts(a, b[1..]);
      MergeBoundedBelow(a, b[1..], b[0]);
    }
  }

  lemma MergeBoundedBelow(a: seq<real>, b: seq<real>, m: real)
    requires forall k :: 0 <= k < |a| ==> m <= a[k]
    requires forall k :: 0 <= k < |b| ==> m <= b[k]
    ensures forall k :: 0 <= k < |Merge(a, b)| ==> m <= Merge(a, b)[k]
  {
    MergePermutes(a, b);
    var c := Merge(a, b);
    forall k | 0 <= k < |c| ensures m <= c[k] {
      assert c[k] in multiset(c);
      assert c[k] in a || c[k] in b;
    }
  }

  /** An element taken from the right half inverts exactly what is left of the left half. */
  lemma TakeRight(a: seq<real>, b: seq<real>)
    requires Sorted(a) && a != [] && b != [] && a[0] > b[0]
    ensures Cross(Greater, a, b) == |a| + Cross(Greater, a, b[1..])
  {
    assert b == [b[0]] + b[1..];
    CrossConcatRight(Greater, a, [b[0]], b[1..]);
    assert [b[0]][..0] == [];
    assert Cross(Greater, a, [b[0]]) == CountWith(Greater, a, b[0]);
    CountWithBounds(Greater, a, b[0]);
  }

  /** An element taken from the left half inverts nothing on the right. */
  lemma TakeLeft(a: seq<real>, b: seq<real>)
    requires Sorted(b) && a != [] && b != [] && a[0] <= b[0]
    ensures Cross(Greater, a, b) == Cross(Greater, a[1..], b)
  {
    assert a == [a[0]] + a[1..];
    CrossConcatLeft(Greater, [a[0]], a[1..], b);
    NothingAbove(a[0], b);
  }

  lemma {:induction false} NothingAbove(x: real, b: seq<real>)
    requires forall k :: 0 <= k < |b| ==> x <= b[k]
    ensures Cross(Greater, [x], b) == 0
  {
    if b != [] {
      NothingAbove(x, b[..|b| - 1]);
      SingletonCount(Greater, x, b[|b| - 1]);
    }
  }

  /** Reordering a stretch of a row leaves every other inversion as it was. */
  lemma ReorderStretch(pre: seq<real>, u: seq<real>, m: seq<real>, post: seq<real>)
    requires multiset(u) == multiset(m)
    ensures Inversions(pre + u + post) - Inversions(u) == Inversions(pre + m + post) - Inversions(m)
  {
    PairsConcat(Greater, pre, u);
    PairsConcat(Greater, pre + u, post);
    PairsConcat(Greater, pre, m);
    PairsConcat(Greater, pre + m, post);
    CrossPerm(Greater, pre, pre, u, m);
    assert multiset(pre + u) == multiset(pre + m);
    CrossPerm(Greater, pre + u, pre + m, post, post);
  }

  /** Merging two sorted neighbours removes exactly the inversions between them. */
  lemma MergeRemovesCross(pre: seq<real>, a: seq<real>, b: seq<real>, post: seq<real>)
    requires Sorted(a) && Sorted(b)
    ensures Inversions(pre + (a + b) + post) == Inversions(pre + Merge(a, b) + post) + Cross(Greater, a, b)
  {
    MergePermutes(a, b);
    MergeSorts(a, b);
    NoPairs(Greater, a);
    NoPairs(Greater, b);
    NoPairs(Greater, Merge(a, b));
    PairsConcat(Greater, a, b);
    ReorderStretch(pre, a + b, Merge(a, b), post);
  }

  function Min(a: nat, b: nat): (m: nat)
    ensures m <= a && m <= b && (m == a || m == b)
  {
    if a <= b then a else b
  }

  /** `s` is a row of sorted blocks of length `width`, the last one possibly shorter. */
  ghost predicate SortedBlocks(s: seq<real>, width: nat)
    requires width > 0
    decreases |s|
  {
    s != [] ==>
      var cut := Min(width, |s|);
      Sorted(s[..cut]) && SortedBlocks(s[cut..], width)
  }

  /** One pass over the row: neighbouring blocks merged two by two. */
  ghost function Pass(s: seq<real>, width: nat): seq<real>
    requires width > 0
    decreases |s|
  {
    if s == [] then []
    else
      var mid, hi := Min(width, |s|), Min(2 * width, |s|);
      Merge(s[..mid], s[mid..hi]) + Pass(s[hi..], width)
  }

  lemma HeadBlocks(s: seq<real>, width: nat)
    requires width > 0 && s != [] && SortedBlocks(s, width)
    ensures var mid, hi := Min(width, |s|), Min(2 * width, |s|);
            Sorted(s[..mid]) && Sorted(s[mid..hi]) && SortedBlocks(s[hi..], width)
  {
    hide Sorted, SortedBlocks;
    var mid, hi := Min(width, |s|), Min(2 * width, |s|);
    var tail := s[mid..];
    FirstBlock(s, width);
    if tail == [] {
      assert s[hi..] == [] && s[mid..hi] == [];
      NoBlocks(width);
    } else {
      FirstBlock(tail, width);
      assert Min(width, |tail|) == hi - mid;
      assert tail[..hi - mid] == s[mid..hi];
      assert tail[hi - mid..] == s[hi..];
    }
  }

  lemma FirstBlock(s: seq<real>, width: nat)
    requires width > 0 && s != [] && SortedBlocks(s, width)
    ensures Sorted(s[..Min(width, |s|)]) && SortedBlocks(s[Min(width, |s|)..], width)
  {
    hide Sorted;
  }

  lemma NoBlocks(width: nat)
    requires width > 0
    ensures Sorted([]) && SortedBlocks([], width)
  {
  }

  /** A pass leaves sorted blocks of twice the width... */
  lemma {:induction false} PassDoublesBlocks(s: seq<real>, width: nat)
    requires width > 0 && SortedBlocks(s, width)
    ensures SortedBlocks(Pass(s, width), 2 * width)
    decreases |s|
  {
    if s != [] {
      var mid, hi := Min(width, |s|), Min(2 * width, |s|);
      HeadBlocks(s, width);
      PassDoublesBlocks(s[hi..], width);
      var head, rest := Merge(s[..mid], s[mid..hi]), Pass(s[hi..], width);
      MergePermutes(s[..mid], s[mid..hi]);
      MergeSorts(s[..mid], s[mid..hi]);
      PassPermutes(s[hi..], width);
      BlockInFront(head, rest, 2 * width);
    }
  }

  lemma BlockInFront(head: seq<real>, rest: seq<real>, width: nat)
    requires width > 0 && Sorted(head) && SortedBlocks(rest, width)
    requires 0 < |head| <= width && (rest != [] ==> |head| == width)
    ensures SortedBlocks(head + rest, width)
  {
    var p := head + rest;
    assert p[..|head|] == head && p[|head|..] == rest;
    assert Min(width, |p|) == |head|;
  }

  /** ...that hold the same elements. */
  lemma {:induction false} PassPermutes(s: seq<real>, width: nat)
    requires width > 0
    ensures multiset(Pass(s, width)) == multiset(s)
    ensures |Pass(s, width)| == |s|
    decreases |s|
  {
    if s != [] {
      hide *;
      var mid, hi := Min(width, |s|), Min(2 * width, |s|);
      PassUnfold(s, width);
      PassPermutes(s[hi..], width);
      MergePermutes(s[..mid], s[mid..hi]);
      ThreePieces(s, mid, hi);
    }
  }

  lemma ThreePieces(s: seq<real>, mid: nat, hi: nat)
    requires mid <= hi <= |s|
    ensures multiset(s) == multiset(s[..mid]) + multiset(s[mid..hi]) + multiset(s[hi..])
  {
    assert s == (s[..mid] + s[mid..hi]) + s[hi..];
  }

  lemma WideBlocksAreSorted(s: seq<real>, width: nat)
    requires width > 0 && |s| <= width && SortedBlocks(s, width)
    ensures Sorted(s)
  {
    if s != [] {
      assert s[..Min(width, |s|)] == s;
    }
  }

  lemma {:induction false} UnitBlocks(s: seq<real>)
    ensures SortedBlocks(s, 1)
  {
    if s != [] {
      UnitBlocks(s[1..]);
    }
  }

  /** Merging moves on by one element taken from the left... */
  lemma MergeLeft(done: seq<real>, a: seq<real>, b: seq<real>)
    requires a != [] && (b == [] || a[0] <= b[0])
    ensures done + Merge(a, b) == (done + [a[0]]) + Merge(a[1..], b)
  {
    if b == [] {
      assert Merge(a[1..], b) == a[1..];
      assert a == [a[0]] + a[1..];
    } else {
      assert Merge(a, b) == [a[0]] + Merge(a[1..], b);
    }
  }

  /** ...or from the right. */
  lemma MergeRight(done: seq<real>, a: seq<real>, b: seq<real>)
    requires b != [] && (a == [] || a[0] > b[0])
    ensures done + Merge(a, b) == (done + [b[0]]) + Merge(a, b[1..])
  {
    if a == [] {
      assert b == [b[0]] + b[1..];
    } else {
      assert Merge(a, b) == [b[0]] + Merge(a, b[1..]);
    }
  }

  /** `part` is what `s` holds from `start` on. */
  ghost predicate Holds(s: array<real>, start: nat, part: seq<real>)
    reads s
  {
    start + |part| <= s.Length && forall t :: 0 <= t < |part| ==> s[start + t] == part[t]
  }

  /** The first inner loop: merge until one side is used up. */
  method MergeHeads(work: array<real>, buffer: array<real>, lo: nat, mid: nat, hi: nat, ghost left: seq<real>,
          ghost right: seq<real>)
      returns (i: nat, j: nat, crossed: nat, ghost done: seq<real>, ghost a: seq<real>, ghost b: seq<real>)
    requires work != buffer && work.Length == buffer.Length
    requires lo <= mid <= hi <= work.Length
    requires |left| == mid - lo && Holds(work, lo, left) && Sorted(left)
    requires |right| == hi - mid && Holds(work, mid, right) && Sorted(right)
    modifies buffer
    ensures lo <= i <= mid <= j <= hi && (i == mid || j == hi)
    ensures |a| == mid - i && Holds(work, i, a) && |b| == hi - j && Holds(work, j, b)
    ensures |done| == i - lo + (j - mid) && Holds(buffer, lo, done)
    ensures done + Merge(a, b) == Merge(left, right)
    ensures forall t :: 0 <= t < lo ==> buffer[t] == old(buffer[t])
    ensures crossed == Cross(Greater, left, right)
  {
    hide Merge, Cross, Sorted, Greater;
    i, j, crossed := lo, mid, 0;
    a, b, done := left, right, [];
    var k := lo;
    while i < mid && j < hi
      invariant lo <= i <= mid <= j <= hi
      invariant k == i + (j - mid) && |done| == k - lo && Holds(buffer, lo, done)
      invariant |a| == mid - i && Holds(work, i, a) && Sorted(a)
      invariant |b| == hi - j && Holds(work, j, b) && Sorted(b)
      invariant done + Merge(a, b) == Merge(left, right)
      invariant forall t :: 0 <= t < lo ==> buffer[t] == old(buffer[t])
      invariant crossed + Cross(Greater, a, b) == Cross(Greater, left, right)
      decreases mid - i + hi - j
    {
      assert work[i] == a[0] && work[j] == b[0];
      if work[i] <= work[j] {
        MergeLeft(done, a, b);
        TakeLeft(a, b);
        SuffixSorted(a, 1);
        buffer[k] := work[i];
        i := i + 1;
        done, a := done + [a[0]], a[1..];
      } else {
        MergeRight(done, a, b);
        TakeRight(a, b);
        SuffixSorted(b, 1);
        buffer[k] := work[j];
        j := j + 1;
        crossed := crossed + (mid - i);
        done, b := done + [b[0]], b[1..];
      }
      k := k + 1;
    }
    EmptySides(a, b);
  }

  /** The two closing loops: what is left of one side goes to the buffer as it is. */
  method CopyRest(work: array<real>, buffer: array<real>, lo: nat, mid: nat, hi: nat, i0: nat, j0: nat,
          ghost done0: seq<real>, ghost a0: seq<real>, ghost b0: seq<real>)
    requires work != buffer && work.Length == buffer.Length
    requires lo <= i0 <= mid <= j0 <= hi <= work.Length && (i0 == mid || j0 == hi)
    requires |done0| == i0 - lo + (j0 - mid) && Holds(buffer, lo, done0)
    requires |a0| == mid - i0 && Holds(work, i0, a0) && |b0| == hi - j0 && Holds(work, j0, b0)
    modifies buffer
    ensures buffer[lo..hi] == done0 + Merge(a0, b0)
    ensures buffer[..lo] == old(buffer[..lo])
  {
    hide Merge;
    var i, j, k := i0, j0, i0 + (j0 - mid);
    ghost var done, a, b := done0, a0, b0;
    while i < mid
      invariant lo <= i <= mid <= j <= hi
      invariant i < mid ==> j == hi
      invariant k == i + (j - mid) && |done| == k - lo && Holds(buffer, lo, done)
      invariant |a| == mid - i && Holds(work, i, a) && |b| == hi - j && Holds(work, j, b)
      invariant done + Merge(a, b) == done0 + Merge(a0, b0)
      invariant forall t :: 0 <= t < lo ==> buffer[t] == old(buffer[t])
    {
      assert work[i] == a[0];
      MergeLeft(done, a, b);
      buffer[k] := work[i];
      i := i + 1;
      k := k + 1;
      done, a := done + [a[0]], a[1..];
    }
    while j < hi
      invariant mid == i && mid <= j <= hi && k == j
      invariant a == [] && |b| == hi - j && Holds(work, j, b)
      invariant |done| == k - lo && Holds(buffer, lo, done)
      invariant done + Merge(a, b) == done0 + Merge(a0, b0)
      invariant forall t :: 0 <= t < lo ==> buffer[t] == old(buffer[t])
    {
      assert work[j] == b[0];
      MergeRight(done, a, b);
      buffer[k] := work[j];
      j := j + 1;
      k := k + 1;
      done, b := done + [b[0]], b[1..];
    }
    EmptySides(a, b);
    assert done + [] == done;
    assert buffer[lo..hi] == done;
  }

  /** All three inner loops: merge `work[lo..mid]` and `work[mid..hi]` into `buffer[lo..hi]`. */
  method MergeBlocks(work: array<real>, buffer: array<real>, lo: nat, mid: nat, hi: nat, ghost left: seq<real>,
          ghost right: seq<real>)
      returns (crossed: nat)
    requires work != buffer && work.Length == buffer.Length
    requires lo <= mid <= hi <= work.Length
    requires left == work[lo..mid] && right == work[mid..hi]
    requires Sorted(left) && Sorted(right)
    modifies buffer
    ensures buffer[lo..hi] == Merge(left, right)
    ensures buffer[..lo] == old(buffer[..lo])
    ensures crossed == Cross(Greater, left, right)
  {
    hide Merge, Cross, Sorted, Greater;
    var i, j, inverted;
    ghost var done, a, b;
    i, j, inverted, done, a, b := MergeHeads(work, buffer, lo, mid, hi, left, right);
    crossed := inverted;
    CopyRest(work, buffer, lo, mid, hi, i, j, done, a, b);
  }

  lemma {:induction false} EmptySides(a: seq<real>, b: seq<real>)
    ensures Cross(Greater, [], b) == Cross(Greater, a, []) == 0
    ensures Merge([], b) == b
  {
    if b != [] {
      EmptySides(a, b[..|b| - 1]);
    }
  }

  lemma SuffixSorted(s: seq<real>, k: nat)
    requires Sorted(s) && k <= |s|
    ensures Sorted(s[k..])
  {
  }

  lemma PassUnfold(row: seq<real>, width: nat)
    requires width > 0
    ensures Pass([], width) == []
    ensures var mid, hi := Min(width, |row|), Min(2 * width, |row|);
            row != [] ==> Pass(row, width) == Merge(row[..mid], row[mid..hi]) + Pass(row[hi..], width)
  {
  }

  /** The next two blocks of a row, and what merging them does to the pass and to the inversions. */
  lemma NextBlocks(done: seq<real>, row: seq<real>, width: nat) returns (a: seq<real>, b: seq<real>, post: seq<real>)
    requires width > 0 && row != [] && SortedBlocks(row, width)
    ensures row == a + b + post
    ensures |a| == Min(width, |row|) && |a| + |b| == Min(2 * width, |row|)
    ensures Sorted(a) && Sorted(b) && SortedBlocks(post, width)
    ensures Pass(row, width) == Merge(a, b) + Pass(post, width)
    ensures Inversions(done + row) == Inversions((done + Merge(a, b)) + post) + Cross(Greater, a, b)
  {
    hide *;
    HeadBlocks(row, width);
    PassUnfold(row, width);
    a, b, post := row[..Min(width, |row|)], row[Min(width, |row|)..Min(2 * width, |row|)], row[Min(2 * width, |row|)..];
    MergeRemovesCross(done, a, b, post);
    ThreeWayConcat(done, a, b, post);
  }

  lemma ThreeWayConcat(done: seq<real>, a: seq<real>, b: seq<real>, post: seq<real>)
    ensures done + (a + b) + post == done + (a + b + post)
  {
  }

  /** The `for` loop: one pass from `work` into `buffer`. */
  method MergePass(work: array<real>, buffer: array<real>, width: nat, ghost whole: seq<real>)
      returns (crossed: nat, ghost done: seq<real>)
    requires work != buffer && work.Length == buffer.Length
    requires |whole| == work.Length && Holds(work, 0, whole)
    requires width > 0 && SortedBlocks(whole, width)
    modifies buffer
    ensures |done| == work.Length && Holds(buffer, 0, done)
    ensures done == Pass(whole, width)
    ensures crossed + Inversions(done) == Inversions(whole)
  {
    hide Pass, Merge, SortedBlocks, Sorted, Cross, Greater, Inversions;
    var n := work.Length;
    var lo := 0;
    crossed := 0;
    done := [];
    ghost var row := whole;
    assert done + row == whole && done + Pass(row, width) == Pass(whole, width);
    while lo < n
      invariant |done| + |row| == n && |done| == Min(lo, n)
      invariant Holds(buffer, 0, done) && Holds(work, |done|, row)
      invariant SortedBlocks(row, width)
      invariant done + Pass(row, width) == Pass(whole, width)
      invariant crossed + Inversions(done + row) == Inversions(whole)
      decreases n - lo
    {
      var mid, hi := Min(lo + width, n), Min(lo + 2 * width, n);
      ghost var a, b, post := NextBlocks(done, row, width);
      HoldsInPieces(work, lo, a, b, post);
      var inverted := MergeTwo(work, buffer, lo, mid, hi, done, a, b);
      crossed := crossed + inverted;
      lo := lo + 2 * width;
      ConcatAssociates(done, Merge(a, b), Pass(post, width));
      done, row := done + Merge(a, b), post;
    }
    PassUnfold([], width);
    assert row == [] && done + [] == done;
  }

  lemma HoldsInPieces(s: array<real>, start: nat, a: seq<real>, b: seq<real>, post: seq<real>)
    requires Holds(s, start, a + b + post)
    ensures Holds(s, start, a) && Holds(s, start + |a|, b) && Holds(s, start + |a| + |b|, post)
  {
    var row := a + b + post;
    assert forall t :: 0 <= t < |a| ==> row[t] == a[t];
    assert forall t :: 0 <= t < |b| ==> row[|a| + t] == b[t];
    assert forall t :: 0 <= t < |post| ==> row[|a| + |b| + t] == post[t];
    forall t | 0 <= t < |b| ensures s[start + |a| + t] == b[t] {
      assert s[start + (|a| + t)] == row[|a| + t];
    }
    forall t | 0 <= t < |post| ensures s[start + |a| + |b| + t] == post[t] {
      assert s[start + (|a| + |b| + t)] == row[|a| + |b| + t];
    }
  }

  lemma ConcatAssociates(u: seq<real>, v: seq<real>, w: seq<real>)
    ensures u + (v + w) == (u + v) + w
  {
  }

  /** `MergeBlocks`, seen from the whole buffer. */
  method MergeTwo(work: array<real>, buffer: array<real>, lo: nat, mid: nat, hi: nat,
                  ghost done: seq<real>, ghost a: seq<real>, ghost b: seq<real>)
      returns (crossed: nat)
    requires work != buffer && work.Length == buffer.Length
    requires lo <= mid <= hi <= work.Length
    requires |done| == lo && Holds(buffer, 0, done)
    requires |a| == mid - lo && Holds(work, lo, a) && |b| == hi - mid && Holds(work, mid, b)
    requires Sorted(a) && Sorted(b)
    modifies buffer
    ensures |done + Merge(a, b)| == hi && Holds(buffer, 0, done + Merge(a, b))
    ensures crossed == Cross(Greater, a, b)
  {
    hide Merge, Sorted, Cross, Greater;
    MergePermutes(a, b);
    assert work[lo..mid] == a && work[mid..hi] == b;
    crossed := MergeBlocks(work, buffer, lo, mid, hi, a, b);
    assert forall t :: 0 <= t < lo ==> buffer[t] == buffer[..lo][t];
    assert forall t :: lo <= t < hi ==> buffer[t] == buffer[lo..hi][t - lo];
  }

  /** The number of index pairs `i < j` with `values[i] > values[j]`. */
  method CountInversions(values: seq<real>) returns (inversions: nat)
    ensures inversions == |PairSet(Greater, values)|
    ensures inversions == Inversions(values)
  {
    hide Pass, SortedBlocks, Sorted, Inversions, CountPairs, PairSet;
    var n := |values|;
    var work := new real[n](i requires 0 <= i < n => values[i]);
    var buffer := new real[n](_ => 0.0);
    inversions := 0;
    var width := 1;
    ghost var row := values;
    UnitBlocks(values);
    while width < n
      invariant width > 0
      invariant work != buffer && fresh(work) && fresh(buffer)
      invariant work.Length == buffer.Length == n
      invariant |row| == n && Holds(work, 0, row)
      invariant SortedBlocks(row, width)
      invariant inversions + Inversions(row) == Inversions(values)
      decreases n - width
    {
      PassDoublesBlocks(row, width);
      var crossed;
      crossed, row := MergePass(work, buffer, width, row);
      inversions := inversions + crossed;
      work, buffer := buffer, work;
      width := width * 2;
    }
    SortedHasNoInversions(row, width);
    CountPairsIsCardinality(Greater, values);
    assert Inversions(values) == CountPairs(Greater, values) by { InversionsDef(values); }
  }

  lemma InversionsDef(s: seq<real>)
    ensures Inversions(s) == CountPairs(Greater, s)
  {
  }

  lemma SortedHasNoInversions(s: seq<real>, width: nat)
    requires width > 0 && |s| <= width && SortedBlocks(s, width)
    ensures Inversions(s) == 0
  {
    WideBlocksAreSorted(s, width);
    NoPairs(Greater, s);
  }

  // ----- Ties -----

  /** The distinct values, in the order they first occur: a dictionary's keys. */
  function FirstSeen(s: seq<real>): seq<real> {
    if s == [] then []
    else
      var n := |s| - 1;
      var keys := FirstSeen(s[..n]);
      if s[n] in keys then keys else keys + [s[n]]
  }

  ghost function OccurrencesOf(keys: seq<real>, s: seq<real>): seq<nat> {
    seq(|keys|, i requires 0 <= i < |keys| => multiset(s)[keys[i]])
  }

  function AboveOne(counts: seq<nat>): seq<nat> {
    if counts == [] then []
    else (if counts[0] > 1 then [counts[0]] else []) + AboveOne(counts[1..])
  }

  function SumChoose2(counts: seq<nat>): nat {
    if counts == [] then 0 else Choose2(counts[0]) + SumChoose2(counts[1..])
  }

  lemma {:induction false} FirstSeenKeys(s: seq<real>)
    ensures forall v :: v in FirstSeen(s) <==> v in s
    ensures forall i, j :: 0 <= i < j < |FirstSeen(s)| ==> FirstSeen(s)[i] != FirstSeen(s)[j]
  {
    if s != [] {
      var n := |s| - 1;
      FirstSeenKeys(s[..n]);
      assert s == s[..n] + [s[n]];
    }
  }

  /** The dictionary after reading all of `s`. */
  ghost predicate Tallies(counts: map<real, nat>, s: seq<real>) {
    forall v :: if v in counts then counts[v] == multiset(s)[v] else multiset(s)[v] == 0
  }

  /** `values`' multiplicities above one, keyed in order of first occurrence. */
  method TieCounts(values: seq<real>) returns (ties: seq<nat>)
    ensures ties == AboveOne(OccurrencesOf(FirstSeen(values), values))
  {
    var keys: seq<real> := [];
    var counts: map<real, nat> := map[];
    for k := 0 to |values|
      invariant keys == FirstSeen(values[..k])
      invariant forall v :: v in keys <==> v in counts
      invariant Tallies(counts, values[..k])
    {
      var v := values[k];
      ghost var front := values[..k];
      assert values[..k + 1][..k] == front;
      assert values[..k + 1] == front + [v];
      assert multiset(values[..k + 1]) == multiset(front) + multiset{v};
      if v !in counts {
        keys := keys + [v];
      }
      counts := counts[v := (if v in counts then counts[v] else 0) + 1];
    }
    assert values[..|values|] == values;
    forall k | 0 <= k < |keys| ensures keys[k] in counts {
      var v := keys[k];
      assert v in keys;
    }
    ties := ListTies(keys, counts, values);
  }

  lemma TiesStep(counts: seq<nat>, k: nat)
    requires k < |counts|
    ensures AboveOne(counts[k..]) == (if counts[k] > 1 then [counts[k]] else []) + AboveOne(counts[k + 1..])
  {
    assert counts[k..][0] == counts[k] && counts[k..][1..] == counts[k + 1..];
  }

  /** The closing comprehension: the counts above one. */
  method ListTies(keys: seq<real>, counts: map<real, nat>, ghost values: seq<real>) returns (ties: seq<nat>)
    requires Tallies(counts, values)
    requires forall k :: 0 <= k < |keys| ==> keys[k] in counts
    ensures ties == AboveOne(OccurrencesOf(keys, values))
  {
    ghost var all := OccurrencesOf(keys, values);
    forall k | 0 <= k < |keys| ensures all[k] == counts[keys[k]] {
      var key := keys[k];
      assert key in counts;
    }
    assert AboveOne([]) == [];
    hide AboveOne, OccurrencesOf, Tallies;
    ties := [];
    assert all[0..] == all;
    for k := 0 to |keys|
      invariant ties + AboveOne(all[k..]) == AboveOne(all)
    {
      var v := keys[k];
      var c := counts[v];
      TiesStep(all, k);
      if c > 1 {
        ties := ties + [c];
      }
    }
    assert all[|keys|..] == [];
  }

  lemma {:induction false} SumAboveOne(counts: seq<nat>)
    ensures SumChoose2(AboveOne(counts)) == SumChoose2(counts)
  {
    if counts != [] {
      SumAboveOne(counts[1..]);
      assert Choose2(0) == Choose2(1) == 0;
      if counts[0] > 1 {
        assert AboveOne(counts)[1..] == AboveOne(counts[1..]);
      } else {
        assert AboveOne(counts) == AboveOne(counts[1..]);
      }
    }
  }

  lemma {:induction false} CountEqual(s: seq<real>, a: real)
    ensures CountWith(Equal, s, a) == multiset(s)[a]
  {
    if s != [] {
      CountEqual(s[..|s| - 1], a);
      assert s == s[..|s| - 1] + [s[|s| - 1]];
    }
  }

  /** One more occurrence of `a` pairs up with each earlier one. */
  lemma {:induction false} SumGrows(keys: seq<real>, s: seq<real>, a: real)
    requires forall i, j :: 0 <= i < j < |keys| ==> keys[i] != keys[j]
    ensures SumChoose2(OccurrencesOf(keys, s + [a])) ==
            SumChoose2(OccurrencesOf(keys, s)) + if a in keys then multiset(s)[a] else 0
  {
    if keys != [] {
      SumGrows(keys[1..], s, a);
      assert OccurrencesOf(keys, s)[1..] == OccurrencesOf(keys[1..], s);
      assert OccurrencesOf(keys, s + [a])[1..] == OccurrencesOf(keys[1..], s + [a]);
      Choose2Step(multiset(s)[keys[0]]);
      assert keys == [keys[0]] + keys[1..];
    }
  }

  lemma {:induction false} SumChoose2Concat(u: seq<nat>, v: seq<nat>)
    ensures SumChoose2(u + v) == SumChoose2(u) + SumChoose2(v)
  {
    if u == [] {
      assert u + v == v;
    } else {
      assert (u + v)[1..] == u[1..] + v;
      SumChoose2Concat(u[1..], v);
    }
  }

  /** The dictionary's counts give exactly the tied pairs. */
  lemma {:induction false} TieSumIsTiedPairs(s: seq<real>)
    ensures SumChoose2(OccurrencesOf(FirstSeen(s), s)) == CountPairs(Equal, s)
  {
    if s != [] {
      var n := |s| - 1;
      var front, a := s[..n], s[n];
      var keys := FirstSeen(front);
      TieSumIsTiedPairs(front);
      FirstSeenKeys(front);
      SumGrows(keys, front, a);
      CountEqual(front, a);
      assert s == front + [a];
      if a !in keys {
        assert multiset(front)[a] == 0;
        assert OccurrencesOf(keys + [a], s) == OccurrencesOf(keys, s) + [1];
        SumChoose2Concat(OccurrencesOf(keys, s), [1]);
        assert SumChoose2([1]) == 0 by { assert Choose2(1) == 0 && [1][1..] == []; }
      }
    }
  }

  /** The number of index pairs whose values are equal. */
  method TiePairCount(values: seq<real>) returns (total: nat)
    ensures total == CountPairs(Equal, values)
  {
    var ties := TieCounts(values);
    total := 0;
    for k := 0 to |ties|
      invariant total + SumChoose2(ties[k..]) == SumChoose2(ties)
    {
      total := total + Choose2(ties[k]);
      assert ties[k..][1..] == ties[k + 1..];
    }
    assert ties[|ties|..] == [];
    SumAboveOne(OccurrencesOf(FirstSeen(values), values));
    TieSumIsTiedPairs(values);
  }

  predicate LexLess(p: Point, q: Point) {
    p.x < q.x || (p.x == q.x && p.y <= q.y)
  }

  ghost predicate LexSorted(ps: seq<Point>) {
    forall i, j :: 0 <= i < j < |ps| ==> LexLess(ps[i], ps[j])
  }

  /** How often the last of a sorted row occurs before it: the length of its run. */
  lemma {:induction false} RunCounts(ps: seq<Point>, run: nat, p: Point)
    requires run <= |ps|
    requires forall i :: |ps| - run <= i < |ps| ==> ps[i] == p
    requires forall i :: 0 <= i < |ps| - run ==> ps[i] != p
    ensures CountWith(SamePoint, ps, p) == run
  {
    if ps != [] {
      var n := |ps| - 1;
      RunCounts(ps[..n], if run > 0 then run - 1 else 0, p);
    }
  }

  /** The first `k` pairs are read, the last `run` of them equal, the closed runs counted. */
  ghost predicate RunsRead(pairs: seq<Point>, k: nat, run: nat, total: nat) {
    && 1 <= run <= k <= |pairs|
    && (forall i :: k - run <= i < k ==> pairs[i] == pairs[k - 1])
    && (forall i :: 0 <= i < k - run ==> pairs[i] != pairs[k - 1])
    && total + Choose2(run) == CountPairs(SamePoint, pairs[..k])
  }

  lemma RunGoesOn(pairs: seq<Point>, k: nat, run: nat, total: nat)
    requires RunsRead(pairs, k, run, total) && k < |pairs| && pairs[k] == pairs[k - 1]
    ensures RunsRead(pairs, k + 1, run + 1, total)
  {
    var front := pairs[..k];
    assert pairs[..k + 1][..k] == front;
    RunCounts(front, run, pairs[k]);
    Choose2Step(run);
  }

  lemma RunEnds(pairs: seq<Point>, k: nat, run: nat, total: nat)
    requires LexSorted(pairs) && RunsRead(pairs, k, run, total) && k < |pairs| && pairs[k] != pairs[k - 1]
    ensures RunsRead(pairs, k + 1, 1, total + Choose2(run))
  {
    var front := pairs[..k];
    assert pairs[..k + 1][..k] == front;
    forall i | 0 <= i < k ensures pairs[i] != pairs[k] {
      assert LexLess(pairs[k - 1], pairs[k]);
      assert i < k - 1 ==> LexLess(pairs[i], pairs[k - 1]);
    }
    RunCounts(front, 0, pairs[k]);
  }

  lemma FirstRun(pairs: seq<Point>)
    ensures pairs == [] ==> CountPairs(SamePoint, pairs) == 0
    ensures pairs != [] ==> RunsRead(pairs, 1, 1, 0)
  {
    if pairs != [] {
      assert pairs[..1][..0] == [];
    }
  }

  /** Pairs tied in both coordinates, by the lengths of the runs of a sorted row. */
  method JointTiePairCount(pairs: seq<Point>) returns (total: nat)
    requires LexSorted(pairs)
    ensures total == CountPairs(SamePoint, pairs)
  {
    hide RunsRead, LexSorted;
    FirstRun(pairs);
    total := 0;
    var run := 1;
    var k := 1;
    while k < |pairs|
      invariant pairs == [] ==> k == 1 && total == 0 && run == 1
      invariant pairs != [] ==> 1 <= k <= |pairs| && RunsRead(pairs, k, run, total)
    {
      if pairs[k] == pairs[k - 1] {
        RunGoesOn(pairs, k, run, total);
        run := run + 1;
      } else {
        RunEnds(pairs, k, run, total);
        total := total + Choose2(run);
        run := 1;
      }
      k := k + 1;
    }
    if pairs != [] {
      assert pairs[..k] == pairs;
      AllRead(pairs, run, total);
    }
    total := total + Choose2(run);
  }

  lemma AllRead(pairs: seq<Point>, run: nat, total: nat)
    requires RunsRead(pairs, |pairs|, run, total)
    ensures total + Choose2(run) == CountPairs(SamePoint, pairs)
  {
    assert pairs[..|pairs|] == pairs;
  }

  /** The points at the given indices, in that order. */
  function Gather(ps: seq<Point>, order: seq<nat>): (out: seq<Point>)
    requires forall k :: 0 <= k < |order| ==> order[k] < |ps|
    ensures |out| == |order|
  {
    seq(|order|, k requires 0 <= k < |order| => ps[order[k]])
  }

  /** Put index `n` where its key belongs. */
  function InsertIndex(ps: seq<Point>, order: seq<nat>, n: nat): (out: seq<nat>)
    requires n < |ps| && forall k :: 0 <= k < |order| ==> order[k] < |ps|
    ensures forall k :: 0 <= k < |out| ==> out[k] < |ps|
  {
    if order == [] || LexLess(ps[n], ps[order[0]]) then [n] + order
    else [order[0]] + InsertIndex(ps, order[1..], n)
  }

  /** `sorted(range(n), key=...)`: the indices `0..n`, ordered by (x, y). */
  function SortedOrder(ps: seq<Point>, n: nat): (order: seq<nat>)
    requires n <= |ps|
    ensures forall k :: 0 <= k < |order| ==> order[k] < |ps|
  {
    if n == 0 then [] else InsertIndex(ps, SortedOrder(ps, n - 1), n - 1)
  }

  lemma GatherSplits(ps: seq<Point>, order: seq<nat>)
    requires order != [] && forall k :: 0 <= k < |order| ==> order[k] < |ps|
    ensures Gather(ps, order) == [ps[order[0]]] + Gather(ps, order[1..])
  {
  }

  lemma {:induction false} InsertPermutes(ps: seq<Point>, order: seq<nat>, n: nat)
    requires n < |ps| && forall k :: 0 <= k < |order| ==> order[k] < |ps|
    ensures multiset(Gather(ps, InsertIndex(ps, order, n))) == multiset(Gather(ps, order)) + multiset{ps[n]}
  {
    var out := InsertIndex(ps, order, n);
    GatherSplits(ps, out);
    if order == [] || LexLess(ps[n], ps[order[0]]) {
      assert out[1..] == order;
      hide Gather, InsertIndex, LexLess;
    } else {
      GatherSplits(ps, order);
      InsertPermutes(ps, order[1..], n);
      assert out[1..] == InsertIndex(ps, order[1..], n) && out[0] == order[0];
      hide Gather, InsertIndex, LexLess;
    }
  }

  lemma {:induction false} InsertKeepsSorted(ps: seq<Point>, order: seq<nat>, n: nat)
    requires n < |ps| && forall k :: 0 <= k < |order| ==> order[k] < |ps|
    requires LexSorted(Gather(ps, order))
    ensures LexSorted(Gather(ps, InsertIndex(ps, order, n)))
  {
    var out := InsertIndex(ps, order, n);
    GatherSplits(ps, out);
    if order == [] || LexLess(ps[n], ps[order[0]]) {
      assert out[1..] == order && out[0] == n;
      if order != [] {
        GatherSplits(ps, order);
      }
      hide Gather, InsertIndex;
      SortedWithHead(ps[n], Gather(ps, order));
    } else {
      GatherSplits(ps, order);
      var rest := Gather(ps, order[1..]);
      assert Gather(ps, order)[1..] == rest;
      assert LexSorted(rest);
      InsertKeepsSorted(ps, order[1..], n);
      InsertPermutes(ps, order[1..], n);
      assert out[1..] == InsertIndex(ps, order[1..], n) && out[0] == order[0];
      var tail := Gather(ps, out[1..]);
      hide Gather, InsertIndex;
      HeadBelow(ps[order[0]], rest, tail, ps[n]);
      SortedWithHead(ps[order[0]], tail);
    }
  }

  lemma SortedWithHead(p: Point, tail: seq<Point>)
    requires LexSorted(tail) && (tail != [] ==> LexLess(p, tail[0]))
    ensures LexSorted([p] + tail)
  {
    var out := [p] + tail;
    forall i, j | 0 <= i < j < |out| ensures LexLess(out[i], out[j]) {
      if i == 0 && j > 1 {
        assert LexLess(tail[0], tail[j - 1]);
      }
    }
  }

  lemma HeadBelow(p: Point, rest: seq<Point>, tail: seq<Point>, q: Point)
    requires LexSorted([p] + rest) && LexLess(p, q)
    requires multiset(tail) == multiset(rest) + multiset{q}
    ensures tail != [] ==> LexLess(p, tail[0])
  {
    if tail != [] {
      assert tail[0] in multiset(tail);
      if tail[0] != q {
        assert tail[0] in rest;
        var k :| 0 <= k < |rest| && rest[k] == tail[0];
        var all := [p] + rest;
        assert all[k + 1] == tail[0] && LexLess(all[0], all[k + 1]);
      }
    }
  }

  lemma {:induction false} SortedOrderSorts(ps: seq<Point>, n: nat)
    requires n <= |ps|
    ensures LexSorted(Gather(ps, SortedOrder(ps, n)))
    ensures multiset(Gather(ps, SortedOrder(ps, n))) == multiset(ps[..n])
  {
    hide InsertIndex, LexSorted, Gather;
    if n == 0 {
      NothingGathered(ps);
      assert ps[..0] == [];
    } else {
      SortedOrderSorts(ps, n - 1);
      InsertKeepsSorted(ps, SortedOrder(ps, n - 1), n - 1);
      InsertPermutes(ps, SortedOrder(ps, n - 1), n - 1);
      assert ps[..n] == ps[..n - 1] + [ps[n - 1]];
    }
  }

  lemma NothingGathered(ps: seq<Point>)
    ensures Gather(ps, []) == [] && LexSorted([])
  {
  }

  /** In a row sorted by (x, y), a pair is discordant exactly when its y-values are inverted. */
  lemma SortedDiscordance(ps: seq<Point>, ys: seq<real>)
    requires LexSorted(ps)
    requires |ys| == |ps| && forall i :: 0 <= i < |ps| ==> ys[i] == ps[i].y
    ensures CountPairs(Discordant, ps) == Inversions(ys)
  {
    forall i, j | 0 <= i < j < |ps| ensures Discordant(ps[i], ps[j]) == Greater(ys[i], ys[j]) {
      assert LexLess(ps[i], ps[j]);
    }
    PairsAgree(Discordant, ps, Greater, ys);
  }

  /** S by sorting; `n0`, `n1` and `n2` come from the caller. */
  method KendallS(xs: seq<real>, ys: seq<real>, n0: nat, n1: nat, n2: nat) returns (s: int)
    requires |xs| == |ys|
    ensures s == n0 - n1 - n2 + CountPairs(SamePoint, Zip(xs, ys)) - 2 * CountPairs(Discordant, Zip(xs, ys))
    ensures n0 == Choose2(|xs|) && n1 == CountPairs(Equal, xs) && n2 == CountPairs(Equal, ys) ==>
        s == SignSum(Zip(xs, ys))
  {
    var ps := Zip(xs, ys);
    var order := SortedOrder(ps, |ps|);
    SortedOrderSorts(ps, |ps|);
    assert ps[..|ps|] == ps;
    var sorted := Gather(ps, order);
    var sortedY := seq(|sorted|, i requires 0 <= i < |sorted| => sorted[i].y);
    var jointTies := JointTiePairCount(sorted);
    var discordant := CountInversions(sortedY);
    SortedDiscordance(sorted, sortedY);
    PairsPerm(Discordant, sorted, ps);
    PairsPerm(SamePoint, sorted, ps);
    s := n0 - n1 - n2 + jointTies - 2 * discordant;
    KnightIdentity(ps);
    TiesOfZip(xs, ys);
  }

  /** `s / (sqrt(untiedX) * sqrt(untiedY))`, or the two `None`s of the source. */
  datatype Tau = Undefined | Defined(s: int, untiedX: nat, untiedY: nat)

  ghost predicate Constant(s: seq<real>) {
    forall i, j :: 0 <= i < j < |s| ==> s[i] == s[j]
  }

  lemma NoUntiedPairs(s: seq<real>)
    ensures CountPairs(Equal, s) <= Choose2(|s|)
    ensures CountPairs(Equal, s) == Choose2(|s|) <==> Constant(s)
  {
    CountPairsBound(Equal, s);
    assert AllPairs(Equal, s) <==> Constant(s);
  }

  method KendallTauB(xs: seq<real>, ys: seq<real>) returns (tau: Tau)
    ensures var n := Min(|xs|, |ys|);
            tau == Undefined <==> n < 3 || Constant(xs[..n]) || Constant(ys[..n])
    ensures tau.Defined? ==>
              var n := Min(|xs|, |ys|);
              var ps := Zip(xs[..n], ys[..n]);
              && tau.s == SignSum(ps)
              && tau.s == |PairSet(Concordant, ps)| - |PairSet(Discordant, ps)|
              && tau.untiedX == Choose2(n) - |PairSet(TiedX, ps)|
              && tau.untiedY == Choose2(n) - |PairSet(TiedY, ps)|
  {
    var n := Min(|xs|, |ys|);
    if n < 3 {
      return Undefined;
    }
    var us, vs := xs[..n], ys[..n];
    var n0 := n * (n - 1) / 2;
    var n1 := TiePairCount(us);
    var n2 := TiePairCount(vs);
    var s := KendallS(us, vs, n0, n1, n2);
    ghost var ps := Zip(us, vs);
    SignSumIsDifference(ps);
    TiesOfZip(us, vs);
    NoUntiedPairs(us);
    NoUntiedPairs(vs);
    CountPairsIsCardinality(Concordant, ps);
    CountPairsIsCardinality(Discordant, ps);
    CountPairsIsCardinality(TiedX, ps);
    CountPairsIsCardinality(TiedY, ps);
    // the denominator is a product of two square roots
    if n0 - n1 == 0 || n0 - n2 == 0 {
      return Undefined;
    }
    tau := Defined(s, n0 - n1, n0 - n2);
  }

  /** Tau lies in [-1, 1], whatever square roots are taken. */
  lemma TauInUnitInterval(ps: seq<Point>, rootX: real, rootY: real)
    requires rootX > 0.0 && rootX * rootX == (Choose2(|ps|) - CountPairs(TiedX, ps)) as real
    requires rootY > 0.0 && rootY * rootY == (Choose2(|ps|) - CountPairs(TiedY, ps)) as real
    ensures rootX * rootY > 0.0
    ensures -1.0 <= SignSum(ps) as real / (rootX * rootY) <= 1.0
  {
    hide *;
    SignSumBounds(ps);
    var s := SignSum(ps) as real;
    ProductDominates(if s < 0.0 then -s else s, rootX, rootY);
    QuotientInUnit(s, rootX * rootY);
  }

  /** A number below two squares is below the product of their roots. */
  lemma ProductDominates(m: real, p: real, q: real)
    requires p > 0.0 && q > 0.0
    requires 0.0 <= m <= p * p && m <= q * q
    ensures p * q > 0.0 && m <= p * q
  {
    if p <= q {
      assert p * (q - p) >= 0.0;
    } else {
      assert q * (p - q) >= 0.0;
    }
  }

  lemma QuotientInUnit(s: real, d: real)
    requires d > 0.0 && -d <= s <= d
    ensures -1.0 <= s / d <= 1.0
  {
  }
}
