/** What the context window keeps: a legal conversation, the turns that matter,
    and a running estimate close to the real one. */
module WindowProofs {
  import opened ContextWindow

  // ----- Only tool results change -----

  /** The same part, up to the content of a tool result. */
  ghost predicate SamePart(p: Part, q: Part) {
    || p == q
    || (p.ToolReturn? && q.ToolReturn? && p.callId == q.callId && p.frame == q.frame)
  }

  ghost predicate SameMessage(m: Message, n: Message) {
    && m.Request? == n.Request?
    && |m.parts| == |n.parts|
    && forall j :: 0 <= j < |m.parts| ==> SamePart(m.parts[j], n.parts[j])
  }

  ghost predicate SameShape(ms: seq<Message>, ns: seq<Message>) {
    |ms| == |ns| && forall i :: 0 <= i < |ms| ==> SameMessage(ms[i], ns[i])
  }

  lemma SameShapeTrans(ms: seq<Message>, ns: seq<Message>, os: seq<Message>)
    requires SameShape(ms, ns) && SameShape(ns, os)
    ensures SameShape(ms, os)
  {
    forall i | 0 <= i < |ms| ensures SameMessage(ms[i], os[i]) {
      assert SameMessage(ms[i], ns[i]) && SameMessage(ns[i], os[i]);
    }
  }

  /** The same part, or a tool result whose content is now the stub. */
  ghost predicate Stubbed(p: Part, q: Part) {
    q == p || (p.ToolReturn? && q == p.(content := STUB))
  }

  ghost predicate StubbedMessage(m: Message, n: Message) {
    && m.Request? == n.Request?
    && |m.parts| == |n.parts|
    && forall j :: 0 <= j < |m.parts| ==> Stubbed(m.parts[j], n.parts[j])
  }

  lemma {:induction false} StubPartsSame(est: Estimator, parts: seq<Part>, k: nat)
    ensures forall j :: 0 <= j < |parts| ==> Stubbed(parts[j], StubParts(est, parts, k)[j])
  {
    if parts != [] {
      if k > 0 && Eligible(est, parts[0]) {
        StubPartsSame(est, parts[1..], k - 1);
      } else {
        StubPartsSame(est, parts[1..], k);
      }
    }
  }

  /** Elision stubs results and changes nothing else, and leaves the protected message alone. */
  lemma {:induction false} StubMessagesSame(est: Estimator, ms: seq<Message>, protected: int, k: nat)
    ensures forall i :: 0 <= i < |ms| ==> StubbedMessage(ms[i], StubMessages(est, ms, protected, k)[i])
    ensures 0 <= protected < |ms| ==> StubMessages(est, ms, protected, k)[protected] == ms[protected]
    ensures SameShape(ms, StubMessages(est, ms, protected, k))
  {
    var out := StubMessages(est, ms, protected, k);
    if ms != [] {
      var k' := if Elidable(ms, protected) then k - Min(k, |PartSavings(est, ms[0].parts)|) else k;
      StubMessagesSame(est, ms[1..], protected - 1, k');
      if Elidable(ms, protected) {
        StubPartsSame(est, ms[0].parts, k - k');
      }
      assert out == [out[0]] + StubMessages(est, ms[1..], protected - 1, k');
      forall i | 0 <= i < |ms| ensures StubbedMessage(ms[i], out[i]) {
        if i > 0 {
          assert ms[i] == ms[1..][i - 1];
          assert StubbedMessage(ms[1..][i - 1], StubMessages(est, ms[1..], protected - 1, k')[i - 1]);
        }
      }
    }
    hide StubMessages;
    forall i | 0 <= i < |ms| ensures SameMessage(ms[i], out[i]) {
      assert StubbedMessage(ms[i], out[i]);
    }
  }

  /** A truncated result is a leading slice of the original, no shorter than the minimum. */
  ghost predicate CutFrom(p: Part, q: Part) {
    p.ToolReturn? &&
    exists n: nat ::
      MIN_KEEP_CHARS <= n < |p.content.text| && q == p.(content := Truncated(p.content.text[..n]))
  }

  lemma {:induction false} TruncatePartsSame(est: Estimator, parts: seq<Part>, budget: int, running: int)
    ensures var out := TruncateParts(est, parts, budget, running).parts;
            forall j :: 0 <= j < |parts| ==>
              SamePart(parts[j], out[j]) && (out[j] == parts[j] || CutFrom(parts[j], out[j]))
  {
    hide Truncated, Keep, Tokens, Cuttable, CutFrom;
    if parts != [] && running > budget {
      var out := TruncateParts(est, parts, budget, running).parts;
      if Cuttable(est, parts[0], budget, running) {
        TruncatePartsSame(est, parts[1..], budget, running - CutSaving(est, parts[0], budget, running));
        CutIsCut(est, parts[0], budget, running);
      } else {
        TruncatePartsSame(est, parts[1..], budget, running);
      }
      hide TruncateParts;
      assert forall j :: 1 <= j < |parts| ==> parts[j] == parts[1..][j - 1] && out[j] == out[1..][j - 1];
    }
  }

  lemma CutIsCut(est: Estimator, p: Part, budget: int, running: int)
    requires Cuttable(est, p, budget, running)
    ensures CutFrom(p, Cut(est, p, budget, running)) && SamePart(p, Cut(est, p, budget, running))
  {
    hide Truncated, Tokens;
    var n: nat := Keep(est, p.content.text, budget, running);
    assert MIN_KEEP_CHARS <= n < |p.content.text|;
  }

  /** Truncation touches the newest request only, and only cuts results there. */
  lemma TruncationSame(est: Estimator, ms: seq<Message>, budget: int, running: int)
    ensures var (out, truncated, _) := TruncateMessages(est, ms, budget, running);
            && SameShape(ms, out)
            && (truncated == 0 ==> out == ms)
            && (forall i :: 0 <= i < |ms| && i != LastRequest(ms) ==> out[i] == ms[i])
            && (0 <= LastRequest(ms) < |ms| ==> forall j :: 0 <= j < |ms[LastRequest(ms)].parts| ==>
                  var p, q := ms[LastRequest(ms)].parts[j], out[LastRequest(ms)].parts[j];
                  q == p || CutFrom(p, q))
  {
    LastRequestIs(ms);
    var index := LastRequest(ms);
    if index >= 0 {
      TruncatePartsSame(est, ms[index].parts, budget, running);
      NothingCut(est, ms[index].parts, budget, running);
      assert ms[index := Request(ms[index].parts)] == ms;
    }
  }

  // ----- A legal conversation -----

  ghost predicate Alternates(ms: seq<Message>) {
    forall i :: 0 <= i < |ms| - 1 ==> ms[i].Request? != ms[i + 1].Request?
  }

  ghost predicate Calls(m: Message, id: string) {
    m.Response? && exists j :: 0 <= j < |m.parts| && m.parts[j].ToolCall? && m.parts[j].callId == id
  }

  /** Message `h` calls tool `id`, earlier than `i` and in the same user turn. */
  ghost predicate CalledFrom(ms: seq<Message>, h: int, i: int, id: string) {
    && 0 <= h < i < |ms|
    && Calls(ms[h], id)
    && forall t :: h < t <= i ==> !IsBoundary(ms[t])
  }

  ghost predicate Returns(m: Message, id: string) {
    exists j :: 0 <= j < |m.parts| && m.parts[j].ToolReturn? && m.parts[j].callId == id
  }

  /** Every tool result answers a call made earlier in its own user turn. */
  ghost predicate Paired(ms: seq<Message>) {
    forall i, id :: 0 <= i < |ms| && Returns(ms[i], id) ==> exists h :: CalledFrom(ms, h, i, id)
  }

  ghost predicate Legal(ms: seq<Message>) {
    Alternates(ms) && Paired(ms)
  }

  lemma SameMessageReads(m: Message, n: Message, id: string)
    requires SameMessage(m, n)
    ensures IsBoundary(m) == IsBoundary(n)
    ensures Calls(m, id) == Calls(n, id)
    ensures Returns(m, id) == Returns(n, id)
  {
    if IsBoundary(m) {
      var j :| 0 <= j < |m.parts| && m.parts[j].UserPrompt?;
      assert SamePart(m.parts[j], n.parts[j]);
    }
    if IsBoundary(n) {
      var j :| 0 <= j < |n.parts| && n.parts[j].UserPrompt?;
      assert SamePart(m.parts[j], n.parts[j]);
    }
    if Calls(m, id) {
      var j :| 0 <= j < |m.parts| && m.parts[j].ToolCall? && m.parts[j].callId == id;
      assert SamePart(m.parts[j], n.parts[j]);
    }
    if Calls(n, id) {
      var j :| 0 <= j < |n.parts| && n.parts[j].ToolCall? && n.parts[j].callId == id;
      assert SamePart(m.parts[j], n.parts[j]);
    }
    if Returns(m, id) {
      var j :| 0 <= j < |m.parts| && m.parts[j].ToolReturn? && m.parts[j].callId == id;
      assert SamePart(m.parts[j], n.parts[j]);
    }
    if Returns(n, id) {
      var j :| 0 <= j < |n.parts| && n.parts[j].ToolReturn? && n.parts[j].callId == id;
      assert SamePart(m.parts[j], n.parts[j]);
    }
  }

  /** Legality depends on the shape only. */
  lemma ShapeKeepsLegal(ms: seq<Message>, ns: seq<Message>)
    requires SameShape(ms, ns) && Legal(ms)
    ensures Legal(ns)
  {
    forall i | 0 <= i < |ns| - 1 ensures ns[i].Request? != ns[i + 1].Request? {
      assert SameMessage(ms[i], ns[i]) && SameMessage(ms[i + 1], ns[i + 1]);
    }
    forall i, id | 0 <= i < |ns| && Returns(ns[i], id) ensures exists h :: CalledFrom(ns, h, i, id) {
      SameMessageReads(ms[i], ns[i], id);
      var h :| CalledFrom(ms, h, i, id);
      SameMessageReads(ms[h], ns[h], id);
      forall t | h < t <= i ensures !IsBoundary(ns[t]) {
        SameMessageReads(ms[t], ns[t], id);
      }
      assert CalledFrom(ns, h, i, id);
    }
  }

  /** The boundaries depend on the shape only. */
  lemma {:induction false} ShapeKeepsBoundaries(ms: seq<Message>, ns: seq<Message>, from: nat)
    requires SameShape(ms, ns) && from <= |ms|
    ensures BoundariesFrom(ms, from) == BoundariesFrom(ns, from)
    decreases |ms| - from
  {
    if from < |ms| {
      SameMessageReads(ms[from], ns[from], "");
      ShapeKeepsBoundaries(ms, ns, from + 1);
    }
  }

  /** A request and a response without calls or results. */
  ghost predicate IsMarker(marker: seq<Message>) {
    && |marker| == 2 && marker[0].Request? && marker[1].Response?
    && forall id :: !Returns(marker[0], id) && !Returns(marker[1], id) && !Calls(marker[1], id)
  }

  lemma MarkerIs(dropped: nat)
    ensures IsMarker(Marker(dropped))
  {
    hide MarkerPrompt;
  }

  /** Cutting whole turns out at user prompts, and putting the marker in, stays legal. */
  lemma SpliceLegal(ms: seq<Message>, marker: seq<Message>, lo: nat, hi: nat)
    requires Legal(ms)
    requires 0 < lo <= hi < |ms| && IsBoundary(ms[lo]) && IsBoundary(ms[hi])
    requires IsMarker(marker)
    ensures Legal(ms[..lo] + marker + ms[hi..])
  {
    var out := ms[..lo] + marker + ms[hi..];
    assert forall i :: 0 <= i < lo ==> out[i] == ms[i];
    assert out[lo] == marker[0] && out[lo + 1] == marker[1];
    assert forall i :: lo + 2 <= i < |out| ==> out[i] == ms[i - (lo + 2) + hi];
    assert ms[lo - 1].Request? != ms[lo - 1 + 1].Request?;
    forall i | 0 <= i < |out| - 1 ensures out[i].Request? != out[i + 1].Request? {
      if i >= lo + 2 {
        var k := i - (lo + 2) + hi;
        assert out[i] == ms[k] && out[i + 1] == ms[k + 1];
      } else if i < lo - 1 {
        assert out[i] == ms[i] && out[i + 1] == ms[i + 1];
      }
    }
    SplicePaired(ms, marker, lo, hi);
  }

  lemma SplicePaired(ms: seq<Message>, marker: seq<Message>, lo: nat, hi: nat)
    requires Paired(ms) && lo <= hi < |ms| && IsBoundary(ms[hi]) && IsMarker(marker)
    ensures Paired(ms[..lo] + marker + ms[hi..])
  {
    hide Returns, Calls, IsBoundary;
    var out := ms[..lo] + marker + ms[hi..];
    forall i, id | 0 <= i < |out| && Returns(out[i], id) ensures exists h :: CalledFrom(out, h, i, id) {
      if i < lo {
        assert out[i] == ms[i];
        var h :| CalledFrom(ms, h, i, id);
        EarlierStays(ms, marker, lo, hi, h, i, id);
      } else {
        assert out[lo] == marker[0] && out[lo + 1] == marker[1];
        var k := i - (lo + 2) + hi;
        assert out[i] == ms[k];
        var h :| CalledFrom(ms, h, k, id);
        LaterStays(ms, marker, lo, hi, h, k, id);
      }
    }
  }

  lemma EarlierStays(ms: seq<Message>, marker: seq<Message>, lo: nat, hi: nat, h: int, i: nat, id: string)
    requires i < lo <= hi <= |ms| && CalledFrom(ms, h, i, id)
    ensures CalledFrom(ms[..lo] + marker + ms[hi..], h, i, id)
  {
    hide Calls, IsBoundary;
    var out := ms[..lo] + marker + ms[hi..];
    assert forall t :: 0 <= t < lo ==> out[t] == ms[t];
  }

  lemma LaterStays(ms: seq<Message>, marker: seq<Message>, lo: nat, hi: nat, h: int, k: nat, id: string)
    requires lo <= hi <= k < |ms| && IsBoundary(ms[hi]) && |marker| == 2 && CalledFrom(ms, h, k, id)
    ensures CalledFrom(ms[..lo] + marker + ms[hi..], h - hi + lo + 2, k - hi + lo + 2, id)
  {
    hide Calls, IsBoundary;
    var out := ms[..lo] + marker + ms[hi..];
    assert h >= hi;
    assert forall t :: hi <= t < |ms| ==> out[t - hi + lo + 2] == ms[t];
    forall t | h - hi + lo + 2 < t <= k - hi + lo + 2 ensures !IsBoundary(out[t]) {
      assert out[t] == ms[t - (lo + 2) + hi];
    }
  }

  lemma DroppingLegal(est: Estimator, ms: seq<Message>, budget: int, running: int)
    requires Legal(ms)
    ensures Legal(Dropping(est, ms, budget, running).0)
  {
    hide Stop, Sum, Marker, Legal;
    BoundariesAreAscending(ms);
    var b := Boundaries(ms);
    var d := Stop(TurnCosts(est, ms, b), running, budget);
    if d > 0 {
      MarkerIs(d);
      assert b[0] < b[1];
      SpliceLegal(ms, Marker(d), b[1], b[d + 1]);
    }
  }

  /** The window turns a legal conversation into a legal conversation. */
  lemma WindowKeepsLegal(est: Estimator, ms: seq<Message>, budget: int)
    requires Legal(ms)
    ensures Legal(Window(est, ms, budget).messages)
  {
    hide Legal, StubMessages, MessageSavings, Stop, Sum, TruncateMessages, Dropping, EstimateTokens;
    var before := EstimateTokens(est, ms);
    if before > budget {
      var (m1, _, r1) := Elision(est, ms, budget, before);
      StubMessagesSame(est, ms, LastRequest(ms), Stop(MessageSavings(est, ms, LastRequest(ms)), before, budget));
      ShapeKeepsLegal(ms, m1);
      DroppingLegal(est, m1, budget, r1);
      var (m2, r2) := if r1 > budget then (Dropping(est, m1, budget, r1).0, Dropping(est, m1, budget, r1).2)
          else (m1, r1);
      TruncationSame(est, m2, budget, r2);
      ShapeKeepsLegal(m2, TruncateMessages(est, m2, budget, r2).0);
    }
  }

  // ----- What survives -----

  lemma SpliceShape(ms: seq<Message>, m1: seq<Message>, b: seq<nat>, d: nat)
    requires SameShape(ms, m1) && Ascending(b, |ms|) && (d > 0 ==> d + 1 < |b|)
    ensures SameShape(WithoutTurns(ms, b, d), WithoutTurns(m1, b, d))
  {
    hide Marker;
    if d > 0 {
      SelfShape(Marker(d));
    }
  }

  /** The output is the input with exactly the dropped turns replaced by the marker, up to the
      contents of tool results. */
  lemma ExactlyDroppedTurnsGo(est: Estimator, ms: seq<Message>, budget: int)
    ensures var b, w := Boundaries(ms), Window(est, ms, budget);
            && Ascending(b, |ms|)
            && (w.reduction.dropped > 0 ==> w.reduction.dropped + 1 < |b|)
            && SameShape(WithoutTurns(ms, b, w.reduction.dropped), w.messages)
  {
    hide StubMessages, MessageSavings, Sum, TruncateMessages, EstimateTokens, Boundaries, Marker, SameShape, Ascending;
    BoundariesAreAscending(ms);
    var b := Boundaries(ms);
    var before := EstimateTokens(est, ms);
    SelfShape(ms);
    if before > budget {
      var (m1, _, r1) := Elision(est, ms, budget, before);
      StubMessagesSame(est, ms, LastRequest(ms), Stop(MessageSavings(est, ms, LastRequest(ms)), before, budget));
      SameBoundaries(ms, m1);
      var (m2, d, r2) := if r1 > budget then Dropping(est, m1, budget, r1) else (m1, 0, r1);
      TruncationSame(est, m2, budget, r2);
      var m3 := TruncateMessages(est, m2, budget, r2).0;
      SelfShape(m2);
      SpliceShape(ms, m1, b, d);
      SameShapeTrans(WithoutTurns(ms, b, d), m2, m3);
    }
  }

  /** `out` starts with the first `lo` messages of `ms` and ends with those from `hi` on. */
  ghost predicate KeepsEnds(ms: seq<Message>, out: seq<Message>, lo: nat, hi: nat) {
    && lo <= |out| && lo <= |ms| && hi <= |ms| && |ms| - hi <= |out|
    && SameShape(ms[..lo], out[..lo])
    && SameShape(ms[hi..], out[|out| - (|ms| - hi)..])
  }

  /** The first user turn, with everything before it, and the last one are never dropped, nor
      any turn after the dropped ones; with fewer than three turns nothing is. */
  lemma FirstAndLastTurnsSurvive(est: Estimator, ms: seq<Message>, budget: int)
    ensures var b, w := Boundaries(ms), Window(est, ms, budget);
            var d := w.reduction.dropped;
            if |b| <= 2 then d == 0 && SameShape(ms, w.messages)
            else Ascending(b, |ms|) && d + 1 < |b| && KeepsEnds(ms, w.messages, b[1], b[d + 1])
  {
    hide Boundaries, Window, Marker, SameShape;
    ExactlyDroppedTurnsGo(est, ms, budget);
    var b, out := Boundaries(ms), Window(est, ms, budget).messages;
    if |b| > 2 {
      EndsOfSplice(ms, out, b, Window(est, ms, budget).reduction.dropped);
    }
  }

  lemma EndsOfSplice(ms: seq<Message>, out: seq<Message>, b: seq<nat>, d: nat)
    requires Ascending(b, |ms|) && d + 1 < |b| && SameShape(WithoutTurns(ms, b, d), out)
    ensures KeepsEnds(ms, out, b[1], b[d + 1])
  {
    hide Marker;
    var lo, hi, kept := b[1], b[d + 1], WithoutTurns(ms, b, d);
    assert d > 0 ==> b[1] < b[d + 1];
    assert kept[..lo] == ms[..lo] && kept[|kept| - (|ms| - hi)..] == ms[hi..];
    assert forall i :: 0 <= i < lo ==> SameMessage(kept[i], out[i]);
    assert forall i :: |kept| - (|ms| - hi) <= i < |kept| ==> SameMessage(kept[i], out[i]);
  }

  // ----- Answers -----

  /** Message `h` calls tool `id`, and the same turn holds the answer. */
  ghost predicate Answered(ms: seq<Message>, h: int, id: string) {
    exists i :: CalledFrom(ms, h, i, id) && Returns(ms[i], id)
  }

  /** Where a message of the output comes from; the marker comes from nowhere. */
  ghost function Origin(b: seq<nat>, d: nat, h: nat): int
    requires d > 0 ==> d + 1 < |b|
  {
    if d == 0 || h < b[1] then h else h - (b[1] + 2) + b[d + 1]
  }

  /** A call that was answered in its own turn, and is still there, is still answered. */
  lemma WindowKeepsAnswers(est: Estimator, ms: seq<Message>, budget: int, h: nat, id: string)
    requires var out := Window(est, ms, budget).messages; h < |out| && Calls(out[h], id)
    ensures var b, w := Boundaries(ms), Window(est, ms, budget);
            && (w.reduction.dropped > 0 ==> w.reduction.dropped + 1 < |b|)
            && var o := Origin(b, w.reduction.dropped, h);
            && 0 <= o < |ms| && Calls(ms[o], id)
            && (Answered(ms, o, id) ==> Answered(w.messages, h, id))
  {
    hide *;
    ExactlyDroppedTurnsGo(est, ms, budget);
    var b, w := Boundaries(ms), Window(est, ms, budget);
    var d := w.reduction.dropped;
    var kept := WithoutTurns(ms, b, d);
    ReadsAt(kept, w.messages, h, id);
    TurnsKeepAnswers(ms, b, d, h, id);
    if Answered(kept, h, id) {
      ShapeKeepsAnswers(kept, w.messages, h, id);
    }
  }

  lemma ReadsAt(ms: seq<Message>, ns: seq<Message>, h: nat, id: string)
    requires SameShape(ms, ns) && h < |ns| && Calls(ns[h], id)
    ensures h < |ms| && Calls(ms[h], id)
  {
    SameMessageReads(ms[h], ns[h], id);
  }

  lemma TurnsKeepAnswers(ms: seq<Message>, b: seq<nat>, d: nat, h: nat, id: string)
    requires b == Boundaries(ms) && Ascending(b, |ms|) && (d > 0 ==> d + 1 < |b|)
    requires h < |WithoutTurns(ms, b, d)| && Calls(WithoutTurns(ms, b, d)[h], id)
    ensures var o := Origin(b, d, h);
            && 0 <= o < |ms| && Calls(ms[o], id)
            && (Answered(ms, o, id) ==> Answered(WithoutTurns(ms, b, d), h, id))
  {
    hide Marker, Calls, Returns, IsBoundary, Boundaries, Answered, IsMarker;
    if d > 0 {
      MarkerIs(d);
      BoundaryAt(ms);
      assert b[1] < b[d + 1];
      SpliceKeepsAnswers(ms, Marker(d), b[1], b[d + 1], h, id);
    }
  }

  lemma BoundaryAt(ms: seq<Message>)
    ensures forall i :: 0 <= i < |Boundaries(ms)| ==> Boundaries(ms)[i] < |ms| && IsBoundary(ms[Boundaries(ms)[i]])
  {
    BoundariesAscend(ms, 0);
  }

  lemma ShapeKeepsAnswers(ms: seq<Message>, ns: seq<Message>, h: int, id: string)
    requires SameShape(ms, ns) && Answered(ms, h, id)
    ensures Answered(ns, h, id)
  {
    var i :| CalledFrom(ms, h, i, id) && Returns(ms[i], id);
    SameMessageReads(ms[h], ns[h], id);
    SameMessageReads(ms[i], ns[i], id);
    forall t | h < t <= i ensures !IsBoundary(ns[t]) {
      SameMessageReads(ms[t], ns[t], id);
    }
    assert CalledFrom(ns, h, i, id);
  }

  lemma SpliceKeepsAnswers(ms: seq<Message>, marker: seq<Message>, lo: nat, hi: nat, h: nat, id: string)
    requires lo < hi < |ms| && IsBoundary(ms[lo])
    requires IsMarker(marker)
    requires var kept := ms[..lo] + marker + ms[hi..]; h < |kept| && Calls(kept[h], id)
    ensures var o := if h < lo then h else h - (lo + 2) + hi;
            && 0 <= o < |ms| && Calls(ms[o], id)
            && (Answered(ms, o, id) ==> Answered(ms[..lo] + marker + ms[hi..], h, id))
  {
    var kept := ms[..lo] + marker + ms[hi..];
    assert kept[lo] == marker[0] && kept[lo + 1] == marker[1];
    var o := if h < lo then h else h - (lo + 2) + hi;
    hide IsBoundary, Calls, Returns;
    assert h != lo by { NoCalls(marker[0], id); }
    assert kept[h] == ms[o];
    if Answered(ms, o, id) {
      var i :| CalledFrom(ms, o, i, id) && Returns(ms[i], id);
      assert h < lo ==> i < lo;
      var i' := if h < lo then i else i - hi + lo + 2;
      assert kept[i'] == ms[i];
      forall t | h < t <= i' ensures !IsBoundary(kept[t]) {
        assert kept[t] == ms[if h < lo then t else t - (lo + 2) + hi];
      }
      assert CalledFrom(kept, h, i', id);
    }
  }

  lemma NoCalls(m: Message, id: string)
    requires m.Request?
    ensures !Calls(m, id)
  {
  }

  lemma SelfShape(ms: seq<Message>)
    ensures SameShape(ms, ms)
  {
  }

  lemma SameBoundaries(ms: seq<Message>, ns: seq<Message>)
    requires SameShape(ms, ns)
    ensures |ms| == |ns| && Boundaries(ms) == Boundaries(ns)
  {
    ShapeKeepsBoundaries(ms, ns, 0);
  }

  /** The last request, as the passes find it. */
  ghost function Newest(ms: seq<Message>): Message
    requires LastRequest(ms) >= 0
  {
    LastRequestIs(ms);
    ms[LastRequest(ms)]
  }

  /** Replacing messages before the last request does not move it from the end. */
  lemma NewestOfSuffix(ms: seq<Message>, out: seq<Message>, keep: nat)
    requires keep <= |ms| && keep <= |out|
    requires ms[|ms| - keep..] == out[|out| - keep..]
    requires LastRequest(ms) >= |ms| - keep
    ensures LastRequest(ms) >= 0 && LastRequest(out) >= 0 && Newest(out) == Newest(ms)
  {
    LastRequestIs(ms);
    LastRequestIs(out);
    var i := LastRequest(ms) - |ms| + |out|;
    assert out[i] == out[|out| - keep..][i - (|out| - keep)] == ms[|ms| - keep..][i - (|out| - keep)] ==
        ms[LastRequest(ms)];
    forall t | i < t < |out| ensures out[t].Response? {
      assert out[t] == out[|out| - keep..][t - (|out| - keep)] == ms[|ms| - keep..][t - (|out| - keep)] ==
          ms[t - |out| + |ms|];
    }
  }

  lemma ShapeKeepsLastRequest(ms: seq<Message>, ns: seq<Message>)
    requires SameShape(ms, ns)
    ensures LastRequest(ms) == LastRequest(ns)
  {
    LastRequestIs(ms);
    LastRequestIs(ns);
    if LastRequest(ms) >= 0 {
      assert SameMessage(ms[LastRequest(ms)], ns[LastRequest(ms)]);
    }
    if LastRequest(ns) >= 0 {
      assert SameMessage(ms[LastRequest(ns)], ns[LastRequest(ns)]);
    }
  }

  /** Dropping turns leaves the newest request as it is. */
  lemma DroppingKeepsNewest(est: Estimator, ms: seq<Message>, budget: int, running: int)
    requires LastRequest(ms) >= 0
    ensures var out := Dropping(est, ms, budget, running).0;
            LastRequest(out) >= 0 && Newest(out) == Newest(ms)
  {
    hide Stop, Sum, Marker, LastRequest, Newest;
    BoundariesAreAscending(ms);
    var b := Boundaries(ms);
    var d := Stop(TurnCosts(est, ms, b), running, budget);
    if d > 0 {
      var cut := b[d + 1];
      var out := ms[..b[1]] + Marker(d) + ms[cut..];
      assert LastRequest(ms) >= cut by { LastRequestIs(ms); }
      assert out[|out| - (|ms| - cut)..] == ms[cut..];
      NewestOfSuffix(ms, out, |ms| - cut);
    }
  }

  /** The newest request changes only in the truncation pass, and there only its results. */
  lemma NewestChangesOnlyByTruncation(est: Estimator, ms: seq<Message>, budget: int)
    requires LastRequest(ms) >= 0
    ensures var w := Window(est, ms, budget);
            && LastRequest(w.messages) >= 0
            && SameMessage(Newest(ms), Newest(w.messages))
            && (w.reduction.truncated == 0 ==> Newest(w.messages) == Newest(ms))
            && (forall j :: 0 <= j < |Newest(ms).parts| ==>
                  || Newest(w.messages).parts[j] == Newest(ms).parts[j]
                  || CutFrom(Newest(ms).parts[j], Newest(w.messages).parts[j]))
  {
    hide StubMessages, MessageSavings, Stop, Sum, EstimateTokens, Dropping, LastRequest, TruncateMessages;
    LastRequestIs(ms);
    var before := EstimateTokens(est, ms);
    if before > budget {
      var (m1, _, r1) := Elision(est, ms, budget, before);
      StubMessagesSame(est, ms, LastRequest(ms), Stop(MessageSavings(est, ms, LastRequest(ms)), before, budget));
      ShapeKeepsLastRequest(ms, m1);
      DroppingKeepsNewest(est, m1, budget, r1);
      var (m2, d, r2) := if r1 > budget then Dropping(est, m1, budget, r1) else (m1, 0, r1);
      TruncationSame(est, m2, budget, r2);
      LastRequestIs(m2);
      ShapeKeepsLastRequest(m2, TruncateMessages(est, m2, budget, r2).0);
    }
  }
}
