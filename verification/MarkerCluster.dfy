/** Greedy clustering of plotted markers (`frontend/src/lib/markerCluster.ts`).

    Timestamps are compared only, so they are modelled as integers. */
module MarkerCluster {

  datatype Marker = Marker(pct: real, offscreen: bool, ts: int, title: string)

  /** What a cluster shows. */
  datatype Flag = Flag(pct: real, offscreen: bool, ts: int, labels: seq<string>, count: nat)

  const MAX_LABELS: nat := 5

  class Cluster {
    var pct: real
    var offscreen: bool
    var ts: int
    var labels: seq<string>
    var count: nat

    ghost function Value(): Flag
      reads this
    {
      Flag(pct, offscreen, ts, labels, count)
    }

    constructor (m: Marker)
      ensures Value() == Opened(m)
    {
      pct, offscreen, ts, labels, count := m.pct, m.offscreen, m.ts, [m.title], 1;
    }

    method Add(m: Marker)
      modifies this
      ensures Value() == Grown(old(Value()), m)
    {
      count := count + 1;
      if |labels| < MAX_LABELS {
        labels := labels + [m.title];
      }
      if m.ts < ts {
        ts := m.ts;
      }
    }
  }

  function Opened(m: Marker): Flag {
    Flag(m.pct, m.offscreen, m.ts, [m.title], 1)
  }

  function Grown(f: Flag, m: Marker): Flag {
    f.(count := f.count + 1,
       labels := if |f.labels| < MAX_LABELS then f.labels + [m.title] else f.labels,
       ts := if m.ts < f.ts then m.ts else f.ts)
  }

  // ----- One stream, grouped -----

  /** The groups of one stream: a marker joins the last group while it is within the
      threshold of that group's first member. */
  ghost function Groups(ms: seq<Marker>, threshold: real): (gs: seq<seq<Marker>>)
    ensures forall k :: 0 <= k < |gs| ==> gs[k] != []
  {
    if ms == [] then []
    else
      var n := |ms| - 1;
      var gs := Groups(ms[..n], threshold);
      if gs != [] && ms[n].pct - gs[|gs| - 1][0].pct <= threshold then
        gs[|gs| - 1 := gs[|gs| - 1] + [ms[n]]]
      else gs + [[ms[n]]]
  }

  /** The flag of a group. */
  ghost function Summary(g: seq<Marker>): Flag
    requires g != []
  {
    Flag(g[0].pct, g[0].offscreen, Earliest(g), Labels(g), |g|)
  }

  ghost function Earliest(g: seq<Marker>): int
    requires g != []
  {
    if |g| == 1 then g[0].ts
    else
      var rest := Earliest(g[..|g| - 1]);
      if g[|g| - 1].ts < rest then g[|g| - 1].ts else rest
  }

  /** The labels of the first few members. */
  ghost function Labels(g: seq<Marker>): seq<string> {
    seq(if |g| <= MAX_LABELS then |g| else MAX_LABELS, k requires 0 <= k && k < |g| => g[k].title)
  }

  lemma {:induction false} EarliestIsMinimum(g: seq<Marker>)
    requires g != []
    ensures forall k :: 0 <= k < |g| ==> Earliest(g) <= g[k].ts
    ensures exists k :: 0 <= k < |g| && g[k].ts == Earliest(g)
  {
    if |g| > 1 {
      var front := g[..|g| - 1];
      EarliestIsMinimum(front);
      var k :| 0 <= k < |front| && front[k].ts == Earliest(front);
      assert g[k].ts == Earliest(front) && g[|g| - 1] == g[|front|];
    } else {
      assert g[0].ts == Earliest(g);
    }
  }

  lemma SummaryGrows(g: seq<Marker>, m: Marker)
    requires g != []
    ensures Summary(g + [m]) == Grown(Summary(g), m)
    ensures Summary([m]) == Opened(m)
  {
    assert (g + [m])[..|g|] == g;
    assert Labels([m]) == [m.title];
    if |g| < MAX_LABELS {
      assert Labels(g + [m]) == Labels(g) + [m.title];
    } else {
      assert Labels(g + [m]) == Labels(g);
    }
  }

  ghost function Summaries(gs: seq<seq<Marker>>): seq<Flag>
    requires forall k :: 0 <= k < |gs| ==> gs[k] != []
  {
    seq(|gs|, k requires 0 <= k < |gs| => Summary(gs[k]))
  }

  // ----- The sweep -----

  /** The clusters so far, and the open one of each stream. */
  datatype Sweep = Sweep(flags: seq<Flag>, on: int, off: int)

  function OpenOf(s: Sweep, offscreen: bool): int {
    if offscreen then s.off else s.on
  }

  function SetOpen(s: Sweep, offscreen: bool, k: int): Sweep {
    if offscreen then s.(off := k) else s.(on := k)
  }

  function SweepStep(s: Sweep, m: Marker, threshold: real): Sweep {
    var k := OpenOf(s, m.offscreen);
    if 0 <= k < |s.flags| && m.pct - s.flags[k].pct <= threshold then
      s.(flags := s.flags[k := Grown(s.flags[k], m)])
    else
      SetOpen(s.(flags := s.flags + [Opened(m)]), m.offscreen, |s.flags|)
  }

  function SweepAll(ms: seq<Marker>, threshold: real): Sweep {
    if ms == [] then Sweep([], -1, -1)
    else SweepStep(SweepAll(ms[..|ms| - 1], threshold), ms[|ms| - 1], threshold)
  }

  predicate Ascending(ms: seq<Marker>) {
    forall i, j :: 0 <= i < j < |ms| ==> ms[i].pct <= ms[j].pct
  }

  /** `[...plotted].sort((a, b) => a.pct - b.pct)`, which is stable. */
  function SortByPct(ms: seq<Marker>): (out: seq<Marker>)
  {
    if ms == [] then [] else Insert(SortByPct(ms[..|ms| - 1]), ms[|ms| - 1])
  }

  function Insert(sorted: seq<Marker>, m: Marker): seq<Marker> {
    if sorted == [] || sorted[|sorted| - 1].pct <= m.pct then sorted + [m]
    else Insert(sorted[..|sorted| - 1], m) + [sorted[|sorted| - 1]]
  }

  lemma {:induction false} InsertPermutes(sorted: seq<Marker>, m: Marker)
    ensures multiset(Insert(sorted, m)) == multiset(sorted) + multiset{m}
  {
    if sorted != [] && sorted[|sorted| - 1].pct > m.pct {
      var n := |sorted| - 1;
      InsertPermutes(sorted[..n], m);
      assert sorted == sorted[..n] + [sorted[n]];
    }
  }

  lemma {:induction false} InsertSorts(sorted: seq<Marker>, m: Marker, top: real)
    requires Ascending(sorted) && m.pct <= top
    requires forall k :: 0 <= k < |sorted| ==> sorted[k].pct <= top
    ensures Ascending(Insert(sorted, m))
    ensures forall k :: 0 <= k < |Insert(sorted, m)| ==> Insert(sorted, m)[k].pct <= top
  {
    if sorted != [] && sorted[|sorted| - 1].pct > m.pct {
      var n := |sorted| - 1;
      InsertSorts(sorted[..n], m, sorted[n].pct);
    }
  }

  lemma InsertKeepsAscending(sorted: seq<Marker>, m: Marker)
    requires Ascending(sorted)
    ensures Ascending(Insert(sorted, m))
  {
    hide Insert;
    var last := if sorted == [] then m.pct else sorted[|sorted| - 1].pct;
    InsertSorts(sorted, m, if last <= m.pct then m.pct else last);
  }

  lemma {:induction false} SortByPctSorts(ms: seq<Marker>)
    ensures Ascending(SortByPct(ms))
    ensures multiset(SortByPct(ms)) == multiset(ms)
  {
    if ms != [] {
      var m, front := ms[|ms| - 1], ms[..|ms| - 1];
      var sorted := SortByPct(front);
      assert SortByPct(ms) == Insert(sorted, m);
      hide Insert, SortByPct, Ascending;
      SortByPctSorts(front);
      InsertKeepsAscending(sorted, m);
      InsertPermutes(sorted, m);
      assert ms == front + [m];
    }
  }

  /** The markers at one position, in order. */
  ghost function At(ms: seq<Marker>, pct: real): seq<Marker> {
    if ms == [] then [] else At(ms[..|ms| - 1], pct) + (if ms[|ms| - 1].pct == pct then [ms[|ms| - 1]] else [])
  }

  lemma AtSnoc(ms: seq<Marker>, m: Marker, pct: real)
    ensures At(ms + [m], pct) == At(ms, pct) + if m.pct == pct then [m] else []
  {
    assert (ms + [m])[..|ms|] == ms;
  }

  lemma {:induction false} InsertIsStable(sorted: seq<Marker>, m: Marker, pct: real)
    ensures At(Insert(sorted, m), pct) == At(sorted, pct) + if m.pct == pct then [m] else []
  {
    hide At;
    AtSnoc(sorted, m, pct);
    if sorted != [] && sorted[|sorted| - 1].pct > m.pct {
      var n := |sorted| - 1;
      InsertIsStable(sorted[..n], m, pct);
      assert sorted == sorted[..n] + [sorted[n]];
      AtSnoc(sorted[..n], sorted[n], pct);
      AtSnoc(Insert(sorted[..n], m), sorted[n], pct);
    }
  }

  /** Markers at one position keep the order they came in. */
  lemma {:induction false} SortByPctIsStable(ms: seq<Marker>, pct: real)
    ensures At(SortByPct(ms), pct) == At(ms, pct)
  {
    if ms != [] {
      var m, front := ms[|ms| - 1], ms[..|ms| - 1];
      SortByPctIsStable(front, pct);
      InsertIsStable(SortByPct(front), m, pct);
    }
  }

  ghost predicate SameAt(ms: seq<Marker>, ns: seq<Marker>) {
    forall pct: real :: At(ms, pct) == At(ns, pct)
  }

  /** Nothing else is in ascending order with the same markers in the same order at each position. */
  lemma {:induction false} StableOrderIsUnique(ms: seq<Marker>, ns: seq<Marker>)
    requires Ascending(ms) && Ascending(ns) && SameAt(ms, ns)
    ensures ms == ns
  {
    hide At;
    if ms != [] {
      LastAt(ms, ns);
      LastAt(ns, ms);
      var m, n := ms[|ms| - 1], ns[|ns| - 1];
      var front, back := ms[..|ms| - 1], ns[..|ns| - 1];
      assert ms == front + [m] && ns == back + [n];
      SameLast(front, m, back, n);
      StableOrderIsUnique(front, back);
    } else if ns != [] {
      LastAt(ns, ms);
    }
  }

  lemma SameLast(front: seq<Marker>, m: Marker, back: seq<Marker>, n: Marker)
    requires m.pct == n.pct && SameAt(front + [m], back + [n])
    ensures m == n && SameAt(front, back)
  {
    hide At;
    AtSnoc(front, m, m.pct);
    AtSnoc(back, n, m.pct);
    var a, b := At(front, m.pct), At(back, m.pct);
    assert a + [m] == b + [n] by { assert At(front + [m], m.pct) == At(back + [n], m.pct); }
    assert (a + [m])[|a|] == m && (b + [n])[|b|] == n;
    forall pct: real ensures At(front, pct) == At(back, pct) {
      AtSnoc(front, m, pct);
      AtSnoc(back, m, pct);
      assert At(front + [m], pct) == At(back + [n], pct);
      Uncons(At(front, pct), At(back, pct), if m.pct == pct then [m] else []);
    }
  }

  lemma Uncons(a: seq<Marker>, b: seq<Marker>, c: seq<Marker>)
    requires a + c == b + c
    ensures a == b
  {
    assert |a| == |b|;
    assert a == (a + c)[..|a|] && b == (b + c)[..|b|];
  }

  /** The last of a row is not after the last of the other. */
  lemma LastAt(ms: seq<Marker>, ns: seq<Marker>)
    requires ms != [] && Ascending(ns) && SameAt(ms, ns)
    ensures ns != [] && ms[|ms| - 1].pct <= ns[|ns| - 1].pct
  {
    var pct := ms[|ms| - 1].pct;
    assert At(ms, pct) == At(ns, pct);
    var i := SomeAt(ns, pct);
  }

  lemma {:induction false} SomeAt(ms: seq<Marker>, pct: real) returns (i: nat)
    requires At(ms, pct) != []
    ensures i < |ms| && ms[i].pct == pct
  {
    i := |ms| - 1;
    if ms[i].pct != pct {
      i := SomeAt(ms[..i], pct);
    }
  }

  /** What the cluster objects show. */
  ghost predicate Shows(clusters: seq<Cluster>, flags: seq<Flag>)
    reads clusters
  {
    |clusters| == |flags| && forall k :: 0 <= k < |clusters| ==> clusters[k].Value() == flags[k]
  }

  ghost predicate Distinct(clusters: seq<Cluster>) {
    forall j, k :: 0 <= j < k < |clusters| ==> clusters[j] != clusters[k]
  }

  lemma SweepOneMore(ms: seq<Marker>, threshold: real, i: nat)
    requires i < |ms|
    ensures SweepAll(ms[..i + 1], threshold) == SweepStep(SweepAll(ms[..i], threshold), ms[i], threshold)
  {
    assert ms[..i + 1][..i] == ms[..i];
  }

  /** A stream's reference and its index name the same cluster. */
  ghost predicate Points(clusters: seq<Cluster>, open: Cluster?, k: int) {
    if open == null then k == -1 else 0 <= k < |clusters| && clusters[k] == open
  }

  /** One sweep over the sorted markers.  The open clusters are the very objects in the
      list, so growing one changes the list. */
  method ClusterMarkers(plotted: seq<Marker>, threshold: real) returns (clusters: seq<Cluster>)
    ensures Shows(clusters, SweepAll(SortByPct(plotted), threshold).flags)
    ensures Distinct(clusters) && forall k :: 0 <= k < |clusters| ==> fresh(clusters[k])
  {
    hide SweepAll, SortByPct, Opened, Grown;
    var sorted := SortByPct(plotted);
    clusters := [];
    var openOn: Cluster?, openOff: Cluster? := null, null;
    ghost var s := Sweep([], -1, -1);
    SweepNone(sorted, threshold);
    for i := 0 to |sorted|
      invariant s == SweepAll(sorted[..i], threshold)
      invariant Distinct(clusters) && forall k :: 0 <= k < |clusters| ==> fresh(clusters[k])
      invariant Shows(clusters, s.flags)
      invariant Points(clusters, openOn, s.on) && Points(clusters, openOff, s.off)
    {
      var m := sorted[i];
      SweepOneMore(sorted, threshold, i);
      var cluster := if m.offscreen then openOff else openOn;
      ghost var k := OpenOf(s, m.offscreen);
      assert Points(clusters, cluster, k);
      assert cluster != null ==> cluster.Value() == s.flags[k];
      s := SweepStep(s, m, threshold);
      if cluster != null && m.pct - cluster.pct <= threshold {
        cluster.Add(m);
      } else {
        var next := new Cluster(m);
        clusters := clusters + [next];
        if m.offscreen {
          openOff := next;
        } else {
          openOn := next;
        }
      }
    }
    assert sorted[..|sorted|] == sorted;
  }

  lemma SweepNone(ms: seq<Marker>, threshold: real)
    ensures SweepAll(ms[..0], threshold) == Sweep([], -1, -1)
  {
  }

  // ----- Each stream on its own -----

  ghost function Stream(ms: seq<Marker>, offscreen: bool): seq<Marker> {
    if ms == [] then []
    else Stream(ms[..|ms| - 1], offscreen) + (if ms[|ms| - 1].offscreen == offscreen then [ms[|ms| - 1]] else [])
  }

  ghost function Of(flags: seq<Flag>, offscreen: bool): seq<Flag> {
    if flags == [] then []
    else
      Of(flags[..|flags| - 1], offscreen)
      + (if flags[|flags| - 1].offscreen == offscreen then [flags[|flags| - 1]] else [])
  }

  /** `k` is the last flag of its stream, or the stream has none. */
  ghost predicate IsLast(flags: seq<Flag>, offscreen: bool, k: int) {
    && -1 <= k < |flags|
    && (k >= 0 ==> flags[k].offscreen == offscreen)
    && forall j :: k < j < |flags| ==> flags[j].offscreen != offscreen
  }

  lemma {:induction false} OfLast(flags: seq<Flag>, offscreen: bool, k: int, f: Flag)
    requires IsLast(flags, offscreen, k) && f.offscreen == offscreen
    ensures k == -1 <==> Of(flags, offscreen) == []
    ensures k >= 0 ==>
              var of := Of(flags, offscreen);
              && of[|of| - 1] == flags[k]
              && Of(flags[k := f], offscreen) == of[|of| - 1 := f]
              && Of(flags[k := f], !offscreen) == Of(flags, !offscreen)
  {
    if flags != [] {
      var n := |flags| - 1;
      if k < n {
        OfLast(flags[..n], offscreen, k, f);
        if k >= 0 {
          assert flags[k := f][..n] == flags[..n][k := f];
        }
      } else {
        assert flags[k := f][..n] == flags[..n];
      }
    }
  }

  lemma OfAppend(flags: seq<Flag>, f: Flag, offscreen: bool)
    ensures Of(flags + [f], offscreen) == Of(flags, offscreen) + if f.offscreen == offscreen then [f] else []
  {
    assert (flags + [f])[..|flags|] == flags;
  }

  /** The open cluster of each stream is its last one, and every flag is its stream's. */
  ghost predicate Tracks(s: Sweep) {
    IsLast(s.flags, false, s.on) && IsLast(s.flags, true, s.off)
  }

  lemma {:induction false} SweepTracks(ms: seq<Marker>, threshold: real)
    ensures Tracks(SweepAll(ms, threshold))
  {
    if ms != [] {
      SweepTracks(ms[..|ms| - 1], threshold);
    }
  }

  /** The clusters of one stream are those of that stream swept alone: markers of the
      other stream never split them. */
  lemma {:induction false} StreamsAreIndependent(ms: seq<Marker>, threshold: real, offscreen: bool)
    ensures Of(SweepAll(ms, threshold).flags, offscreen) == Summaries(Groups(Stream(ms, offscreen), threshold))
  {
    if ms != [] {
      var n := |ms| - 1;
      var m := ms[n];
      var s := SweepAll(ms[..n], threshold);
      StreamsAreIndependent(ms[..n], threshold, offscreen);
      SweepTracks(ms[..n], threshold);
      StreamStep(s, m, threshold, Stream(ms[..n], offscreen), offscreen);
      assert Stream(ms, offscreen) == if m.offscreen == offscreen then Stream(ms[..n], offscreen) + [m]
          else Stream(ms[..n], offscreen);
    }
  }

  lemma StreamStep(s: Sweep, m: Marker, threshold: real, stream: seq<Marker>, offscreen: bool)
    requires Tracks(s)
    requires Of(s.flags, offscreen) == Summaries(Groups(stream, threshold))
    ensures Of(SweepStep(s, m, threshold).flags, offscreen) ==
            Summaries(Groups(if m.offscreen == offscreen then stream + [m] else stream, threshold))
  {
    hide Summary, Grown, Opened, Groups, Of;
    var k := OpenOf(s, m.offscreen);
    GrownKeepsStream(s, m);
    if k >= 0 {
      OfLast(s.flags, m.offscreen, k, Grown(s.flags[k], m));
    }
    OfAppend(s.flags, Opened(m), offscreen);
    if m.offscreen == offscreen {
      GroupStep(stream, m, threshold);
      var gs := Groups(stream, threshold);
      OfLast(s.flags, m.offscreen, k, Opened(m));
      SummaryGrows([m], m);
      if k >= 0 {
        var g := gs[|gs| - 1];
        SummaryGrows(g, m);
        SummaryHead(g);
        assert s.flags[k] == Summary(g);
        if m.pct - g[0].pct <= threshold {
          assert Summaries(gs[|gs| - 1 := g + [m]]) == Summaries(gs)[|gs| - 1 := Summary(g + [m])];
        }
      }
      assert Summaries(gs + [[m]]) == Summaries(gs) + [Summary([m])];
    }
  }

  lemma GrownKeepsStream(s: Sweep, m: Marker)
    ensures Opened(m).offscreen == m.offscreen
    ensures forall f :: Grown(f, m).offscreen == f.offscreen
  {
  }

  lemma SummaryHead(g: seq<Marker>)
    requires g != []
    ensures Summary(g).pct == g[0].pct
  {
  }

  lemma GroupStep(stream: seq<Marker>, m: Marker, threshold: real)
    ensures var gs := Groups(stream, threshold);
            Groups(stream + [m], threshold) ==
            if gs != [] && m.pct - gs[|gs| - 1][0].pct <= threshold then gs[|gs| - 1 := gs[|gs| - 1] + [m]]
                else gs + [[m]]
  {
    assert (stream + [m])[..|stream|] == stream;
  }

  // ----- What a group is -----

  ghost function Flatten(gs: seq<seq<Marker>>): seq<Marker> {
    if gs == [] then [] else Flatten(gs[..|gs| - 1]) + gs[|gs| - 1]
  }

  /** The groups cut the stream into consecutive pieces: no marker is lost or moved. */
  lemma {:induction false} GroupsCutTheStream(ms: seq<Marker>, threshold: real)
    ensures Flatten(Groups(ms, threshold)) == ms
  {
    if ms != [] {
      var front, m := ms[..|ms| - 1], ms[|ms| - 1];
      assert ms == front + [m];
      GroupsCutTheStream(front, threshold);
      GroupStep(front, m, threshold);
      hide Groups, Flatten;
      FlattenSnoc(Groups(front, threshold), m);
    }
  }

  lemma FlattenSnoc(gs: seq<seq<Marker>>, m: Marker)
    ensures Flatten(gs + [[m]]) == Flatten(gs) + [m]
    ensures gs != [] ==> Flatten(gs[|gs| - 1 := gs[|gs| - 1] + [m]]) == Flatten(gs) + [m]
  {
    assert (gs + [[m]])[..|gs|] == gs;
    if gs != [] {
      var n := |gs| - 1;
      assert gs[n := gs[n] + [m]][..n] == gs[..n];
    }
  }

  /** Every member is within the threshold of its group's first member. */
  ghost predicate Narrow(g: seq<Marker>, threshold: real)
    requires g != []
  {
    forall j :: 1 <= j < |g| ==> 0.0 <= g[j].pct - g[0].pct <= threshold
  }

  ghost predicate Has(ms: seq<Marker>, m: Marker) {
    exists i :: 0 <= i < |ms| && ms[i] == m
  }

  /** The first members of the groups. */
  ghost function Heads(gs: seq<seq<Marker>>): (heads: seq<Marker>)
    requires forall k :: 0 <= k < |gs| ==> gs[k] != []
    ensures |heads| == |gs|
  {
    seq(|gs|, k requires 0 <= k < |gs| => gs[k][0])
  }

  ghost predicate AllNarrow(gs: seq<seq<Marker>>, threshold: real)
    requires forall k :: 0 <= k < |gs| ==> gs[k] != []
  {
    forall k :: 0 <= k < |gs| ==> Narrow(gs[k], threshold)
  }

  /** Markers of the stream, in order, each more than the threshold after the one before. */
  ghost predicate Apart(heads: seq<Marker>, ms: seq<Marker>, threshold: real) {
    && (forall k :: 0 <= k < |heads| ==> Has(ms, heads[k]))
    && (forall k :: 0 < k < |heads| ==> heads[k].pct - heads[k - 1].pct > threshold)
    && Ascending(heads)
  }

  lemma HasMore(front: seq<Marker>, m: Marker, x: Marker)
    requires Has(front, x)
    ensures Has(front + [m], x)
  {
    var i :| 0 <= i < |front| && front[i] == x;
    assert (front + [m])[i] == x;
  }

  /** The groups are narrow and their first members more than the threshold apart. */
  lemma {:induction false} GroupsAreNarrowAndApart(ms: seq<Marker>, threshold: real)
    requires Ascending(ms)
    ensures AllNarrow(Groups(ms, threshold), threshold)
    ensures Apart(Heads(Groups(ms, threshold)), ms, threshold)
  {
    if ms != [] {
      var front, m := ms[..|ms| - 1], ms[|ms| - 1];
      assert ms == front + [m];
      GroupsAreNarrowAndApart(front, threshold);
      GroupStep(front, m, threshold);
      hide Groups, Apart, AllNarrow, Ascending;
      var gs: seq<seq<Marker>> := Groups(front, threshold);
      var heads := Heads(gs);
      ApartGrows(front, m, heads, threshold);
      if gs != [] && m.pct - gs[|gs| - 1][0].pct <= threshold {
        assert heads[|gs| - 1].pct <= m.pct;
        LastGrows(gs, m, threshold);
      } else {
        AppendNarrow(gs, m, threshold);
      }
    }
  }

  /** One more marker of the stream, which may become a first member itself. */
  lemma ApartGrows(front: seq<Marker>, m: Marker, heads: seq<Marker>, threshold: real)
    requires Ascending(front + [m]) && Apart(heads, front, threshold)
    ensures Apart(heads, front + [m], threshold)
    ensures forall k :: 0 <= k < |heads| ==> heads[k].pct <= m.pct
    ensures heads == [] || m.pct - heads[|heads| - 1].pct > threshold ==> Apart(heads + [m], front + [m], threshold)
  {
    var ms := front + [m];
    forall k | 0 <= k < |heads| ensures heads[k].pct <= m.pct && Has(ms, heads[k]) {
      HasMore(front, m, heads[k]);
      var i :| 0 <= i < |front| && front[i] == heads[k];
      assert ms[i] == heads[k] && ms[|front|] == m;
    }
    assert ms[|front|] == m;
    assert Has(ms, m);
  }

  lemma LastGrows(gs: seq<seq<Marker>>, m: Marker, threshold: real)
    requires (forall k :: 0 <= k < |gs| ==> gs[k] != []) && gs != []
    requires AllNarrow(gs, threshold) && 0.0 <= m.pct - gs[|gs| - 1][0].pct <= threshold
    ensures var hs := gs[|gs| - 1 := gs[|gs| - 1] + [m]];
            AllNarrow(hs, threshold) && Heads(hs) == Heads(gs)
  {
    var g := gs[|gs| - 1];
    assert Narrow(g, threshold);
    NarrowGrows(g, m, threshold);
    hide Narrow;
    var hs := gs[|gs| - 1 := g + [m]];
    forall k | 0 <= k < |hs| ensures Narrow(hs[k], threshold) && hs[k][0] == gs[k][0] {
      assert Narrow(gs[k], threshold);
    }
  }

  lemma AppendNarrow(gs: seq<seq<Marker>>, m: Marker, threshold: real)
    requires (forall k :: 0 <= k < |gs| ==> gs[k] != []) && AllNarrow(gs, threshold)
    ensures AllNarrow(gs + [[m]], threshold) && Heads(gs + [[m]]) == Heads(gs) + [m]
  {
    assert Narrow([m], threshold);
    hide Narrow;
  }

  lemma NarrowGrows(g: seq<Marker>, m: Marker, threshold: real)
    requires g != [] && g[0].pct <= m.pct
    ensures Narrow(g, threshold) && m.pct - g[0].pct <= threshold ==> Narrow(g + [m], threshold)
    ensures (g + [m])[0] == g[0]
  {
  }

  // ----- Optimality -----

  /** Some way of putting the markers into `groups` groups, none wider than the threshold. */
  ghost predicate Covering(ms: seq<Marker>, threshold: real, color: seq<nat>, groups: nat) {
    && |color| == |ms|
    && (forall i :: 0 <= i < |ms| ==> color[i] < groups)
    && forall i, j :: 0 <= i < j < |ms| && color[i] == color[j] ==> -threshold <= ms[j].pct - ms[i].pct <= threshold
  }

  /** An index of each of these markers. */
  lemma {:induction false} Leaders(ms: seq<Marker>, heads: seq<Marker>) returns (leaders: seq<nat>)
    requires forall k :: 0 <= k < |heads| ==> Has(ms, heads[k])
    ensures |leaders| == |heads|
    ensures forall k :: 0 <= k < |heads| ==> leaders[k] < |ms| && ms[leaders[k]] == heads[k]
  {
    if heads == [] {
      leaders := [];
    } else {
      var n := |heads| - 1;
      var front := Leaders(ms, heads[..n]);
      assert Has(ms, heads[n]);
      var i: nat :| i < |ms| && ms[i] == heads[n];
      leaders := front + [i];
    }
  }

  ghost function Below(n: nat): set<nat> {
    if n == 0 then {} else Below(n - 1) + {n - 1}
  }

  lemma {:induction false} BelowSize(n: nat)
    ensures |Below(n)| == n
    ensures forall k: nat :: k in Below(n) <==> k < n
  {
    if n > 0 {
      BelowSize(n - 1);
    }
  }

  /** Pigeonhole: distinct numbers below `n` are at most `n`. */
  lemma {:induction false} DistinctBelow(xs: seq<nat>, n: nat)
    requires forall i :: 0 <= i < |xs| ==> xs[i] < n
    requires forall i, j :: 0 <= i < j < |xs| ==> xs[i] != xs[j]
    ensures |xs| <= n
  {
    BelowSize(n);
    DistinctSize(xs);
    var image := set i | 0 <= i < |xs| :: xs[i];
    assert image <= Below(n);
    SubsetSize(image, Below(n));
  }

  lemma {:induction false} DistinctSize(xs: seq<nat>)
    requires forall i, j :: 0 <= i < j < |xs| ==> xs[i] != xs[j]
    ensures |set i | 0 <= i < |xs| :: xs[i]| == |xs|
  {
    if xs != [] {
      var n := |xs| - 1;
      DistinctSize(xs[..n]);
      assert (set i | 0 <= i < |xs| :: xs[i]) == (set i | 0 <= i < n :: xs[..n][i]) + {xs[n]};
    }
  }

  lemma {:induction false} SubsetSize(a: set<nat>, b: set<nat>)
    requires a <= b
    ensures |a| <= |b|
  {
    var c := b - a;
    assert b == a + c && a !! c;
    assert |a + c| == |a| + |c|;
  }

  /** Greedy is optimal: no grouping of a stream's markers that respects the threshold has
      fewer groups. */
  lemma GreedyIsOptimal(ms: seq<Marker>, threshold: real, color: seq<nat>, groups: nat)
    requires Ascending(ms) && Covering(ms, threshold, color, groups)
    ensures |Groups(ms, threshold)| <= groups
  {
    hide Groups;
    var heads := Heads(Groups(ms, threshold));
    GroupsAreNarrowAndApart(ms, threshold);
    if threshold < 0.0 {
      NoMoreGroupsThanMarkers(ms, threshold);
      DistinctBelow(color, groups);
      return;
    }
    var leaders := Leaders(ms, heads);
    var colors := seq(|heads|, k requires 0 <= k < |heads| => color[leaders[k]]);
    forall j, k | 0 <= j < k < |heads| ensures colors[j] != colors[k] {
      assert heads[k].pct - heads[k - 1].pct > threshold;
      assert heads[j].pct <= heads[k - 1].pct;
      FarApart(ms, threshold, color, groups, leaders[j], leaders[k]);
    }
    DistinctBelow(colors, groups);
  }

  lemma FarApart(ms: seq<Marker>, threshold: real, color: seq<nat>, groups: nat, u: nat, v: nat)
    requires Covering(ms, threshold, color, groups) && u < |ms| && v < |ms|
    requires ms[v].pct - ms[u].pct > threshold >= 0.0
    ensures color[u] != color[v]
  {
  }

  lemma {:induction false} NoMoreGroupsThanMarkers(ms: seq<Marker>, threshold: real)
    ensures |Groups(ms, threshold)| <= |ms|
  {
    if ms != [] {
      NoMoreGroupsThanMarkers(ms[..|ms| - 1], threshold);
    }
  }

  lemma {:induction false} StreamAscends(ms: seq<Marker>, offscreen: bool, top: real)
    requires Ascending(ms) && forall k :: 0 <= k < |ms| ==> ms[k].pct <= top
    ensures Ascending(Stream(ms, offscreen))
    ensures forall k :: 0 <= k < |Stream(ms, offscreen)| ==> Stream(ms, offscreen)[k].pct <= top
    decreases |ms|
  {
    if ms != [] {
      var n := |ms| - 1;
      StreamAscends(ms[..n], offscreen, ms[n].pct);
    }
  }

  // ----- What a cluster shows -----

  /** A cluster of these markers: the place and kind of the first, the earliest time, the labels of the
      first five, and how many there are. */
  ghost predicate Describes(f: Flag, g: seq<Marker>) {
    && g != []
    && f.pct == g[0].pct && f.offscreen == g[0].offscreen && f.count == |g|
    && (forall k :: 0 <= k < |g| ==> f.ts <= g[k].ts) && (exists k :: 0 <= k < |g| && f.ts == g[k].ts)
    && |f.labels| == (if |g| < 5 then |g| else 5)
    && forall k :: 0 <= k < |f.labels| ==> f.labels[k] == g[k].title
  }

  lemma SummaryDescribes(g: seq<Marker>)
    requires g != []
    ensures Describes(Summary(g), g)
  {
    EarliestIsMinimum(g);
  }

  /** The clusters of a stream show its markers in order of position, those at one position in the
      order they came in, cut into consecutive groups. */
  lemma ClustersShowTheStream(plotted: seq<Marker>, threshold: real, offscreen: bool) returns (gs: seq<seq<Marker>>)
    ensures var sorted := SortByPct(plotted);
            && Ascending(sorted) && SameAt(sorted, plotted)
            && Flatten(gs) == Stream(sorted, offscreen)
            && var flags := Of(SweepAll(sorted, threshold).flags, offscreen);
            |flags| == |gs| && forall k :: 0 <= k < |gs| ==> Describes(flags[k], gs[k])
  {
    var sorted := SortByPct(plotted);
    gs := Groups(Stream(sorted, offscreen), threshold);
    SortByPctSorts(plotted);
    forall pct: real ensures At(sorted, pct) == At(plotted, pct) {
      SortByPctIsStable(plotted, pct);
    }
    GroupsCutTheStream(Stream(sorted, offscreen), threshold);
    StreamsAreIndependent(sorted, threshold, offscreen);
    hide SweepAll, SortByPct, Of, Groups, Summary, Describes, At, Stream, Flatten;
    forall k | 0 <= k < |gs| ensures Describes(Of(SweepAll(sorted, threshold).flags, offscreen)[k], gs[k]) {
      SummaryDescribes(gs[k]);
    }
  }

  /** The clusters drawn for a stream are the fewest that respect the threshold. */
  lemma ClusteringIsOptimal(plotted: seq<Marker>, threshold: real, offscreen: bool, color: seq<nat>, groups: nat)
    requires Covering(Stream(SortByPct(plotted), offscreen), threshold, color, groups)
    ensures |Of(SweepAll(SortByPct(plotted), threshold).flags, offscreen)| <= groups
  {
    hide SweepAll, SortByPct, Of, Groups, Covering, Summary;
    var sorted := SortByPct(plotted);
    SortByPctSorts(plotted);
    StreamAscends(sorted, offscreen, if sorted == [] then 0.0 else sorted[|sorted| - 1].pct);
    StreamsAreIndependent(sorted, threshold, offscreen);
    GreedyIsOptimal(Stream(sorted, offscreen), threshold, color, groups);
  }
}
