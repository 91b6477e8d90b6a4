/** The arithmetic of the context window: which results are elided, and how far the
    running estimate can drift from the real one under integer truncation. */
module WindowEstimates {
  import opened ContextWindow
  import opened WindowProofs

  // ----- Oldest first -----

  lemma {:induction false} StubbedParts(est: Estimator, parts: seq<Part>, k: nat, j: nat)
    requires j < |parts|
    ensures StubParts(est, parts, k)[j] ==
            if Eligible(est, parts[j]) && |PartSavings(est, parts[..j])| < k then parts[j].(content := STUB)
                else parts[j]
  {
    if j > 0 {
      assert parts[..j][0] == parts[0] && parts[..j][1..] == parts[1..][..j - 1];
      StubbedParts(est, parts[1..], if k > 0 && Eligible(est, parts[0]) then k - 1 else k, j - 1);
    } else {
      assert parts[..0] == [];
    }
  }

  /** How many eligible results come before part `j` of message `i`. */
  ghost function EligibleBefore(est: Estimator, ms: seq<Message>, protected: int, i: nat, j: nat): nat
    requires i < |ms| && j <= |ms[i].parts|
  {
    |MessageSavings(est, ms[..i], protected)| + |PartSavings(est, ms[i].parts[..j])|
  }

  lemma {:induction false} SavingsBound(est: Estimator, parts: seq<Part>, j: nat)
    requires j < |parts| && Eligible(est, parts[j])
    ensures |PartSavings(est, parts[..j])| < |PartSavings(est, parts)|
  {
    if j > 0 {
      assert parts[..j][0] == parts[0] && parts[..j][1..] == parts[1..][..j - 1];
      SavingsBound(est, parts[1..], j - 1);
    } else {
      assert parts[..0] == [];
    }
  }

  /** Exactly the `k` oldest eligible results are stubbed. */
  lemma {:induction false} OldestAreStubbed(est: Estimator, ms: seq<Message>, protected: int, k: nat, i: nat, j: nat)
    requires i < |ms| && j < |ms[i].parts|
    ensures |StubMessages(est, ms, protected, k)[i].parts| == |ms[i].parts|
    ensures StubMessages(est, ms, protected, k)[i].parts[j] ==
            if ms[i].Request? && i != protected && Eligible(est, ms[i].parts[j])
                && EligibleBefore(est, ms, protected, i, j) < k
            then ms[i].parts[j].(content := STUB) else ms[i].parts[j]
  {
    var out := StubMessages(est, ms, protected, k);
    var here := if Elidable(ms, protected) then Min(k, |PartSavings(est, ms[0].parts)|) else 0;
    if i == 0 {
      assert ms[..0] == [];
      if Elidable(ms, protected) {
        StubbedParts(est, ms[0].parts, here, j);
        if Eligible(est, ms[0].parts[j]) {
          SavingsBound(est, ms[0].parts, j);
        }
      }
    } else {
      OldestAreStubbed(est, ms[1..], protected - 1, k - here, i - 1, j);
      assert out[i] == StubMessages(est, ms[1..], protected - 1, k - here)[i - 1];
      assert ms[..i][0] == ms[0] && ms[..i][1..] == ms[1..][..i - 1];
      assert Elidable(ms[..i], protected) == Elidable(ms, protected);
    }
  }

  /** Elision stops at the first stub after which the running estimate fits, or when nothing
      eligible is left. */
  lemma ElisionStopsAtFirstFit(est: Estimator, ms: seq<Message>, budget: int, running: int, j: nat)
    ensures var savings := MessageSavings(est, ms, LastRequest(ms));
            var (_, k, left) := Elision(est, ms, budget, running);
            && k <= |savings|
            && (j < k ==> running - Sum(savings[..j]) > budget)
            && (k < |savings| ==> left <= budget)
  {
    hide MessageSavings, LastRequest, Sum, Stop, StubMessages;
    var savings := MessageSavings(est, ms, LastRequest(ms));
    if j <= |savings| {
      StopIsFirstFit(savings, running, budget, j);
    } else {
      StopIsFirstFit(savings, running, budget, 0);
    }
  }

  /** Turn dropping stops at the first turn after which it fits, the marker not counted, or with
      only the first and the last turn left. */
  lemma DroppingStopsAtFirstFit(est: Estimator, ms: seq<Message>, budget: int, running: int, j: nat)
    ensures Ascending(Boundaries(ms), |ms|)
    ensures var costs := TurnCosts(est, ms, Boundaries(ms));
            var d := Dropping(est, ms, budget, running).1;
            && d <= |costs|
            && (j < d ==> running - Sum(costs[..j]) > budget)
            && (d < |costs| ==> running - Sum(costs[..d]) <= budget)
  {
    hide TurnCosts, Boundaries, Sum, Stop, Ascending, EstimateTokens, Marker;
    BoundariesAreAscending(ms);
    var costs := TurnCosts(est, ms, Boundaries(ms));
    if j <= |costs| {
      StopIsFirstFit(costs, running, budget, j);
    } else {
      StopIsFirstFit(costs, running, budget, 0);
    }
  }

  // ----- Tokens against characters -----

  /** What `t` tokens stand for in characters. */
  ghost function Chars(est: Estimator, t: int): real {
    Times(est.charsPerToken, t as real)
  }

  /** Multiplication under a name of its own, for proofs that only need its laws. */
  ghost function Times(c: real, x: real): real {
    c * x
  }

  lemma CharsAdd(est: Estimator, t: int, t': int)
    ensures Chars(est, t + t') == Chars(est, t) + Chars(est, t')
    ensures Chars(est, -t) == -Chars(est, t)
    ensures Chars(est, 1) == est.charsPerToken
  {
  }

  lemma CharsOrder(est: Estimator, t: int, t': int)
    requires Usable(est)
    ensures t <= t' <==> Chars(est, t) <= Chars(est, t')
    ensures t <= t' <==> Chars(est, t) < Chars(est, t' + 1)
  {
    hide Times;
    ScaleOrder(est.charsPerToken, t as real, t' as real);
    ScaleOrder(est.charsPerToken, (t' + 1) as real, t as real);
  }

  /** Multiplying by a positive number keeps the order. */
  lemma ScaleOrder(c: real, x: real, y: real)
    requires c > 0.0
    ensures x <= y <==> Times(c, x) <= Times(c, y)
  {
    if x <= y {
      assert c * (y - x) >= 0.0;
      assert c * (y - x) == c * y - c * x;
    } else {
      assert c * (x - y) > 0.0;
      assert c * (x - y) == c * x - c * y;
    }
  }

  /** `tokens`, as characters, is within `slack` tokens of `chars`. */
  ghost predicate Near(est: Estimator, tokens: int, chars: int, slack: nat) {
    -Chars(est, slack) <= Chars(est, tokens) - chars as real <= Chars(est, slack)
  }

  lemma NearAdd(est: Estimator, t: int, n: int, s: nat, t': int, n': int, s': nat)
    requires Near(est, t, n, s) && Near(est, t', n', s')
    ensures Near(est, t + t', n + n', s + s')
  {
    hide Chars;
    CharsAdd(est, t, t');
    CharsAdd(est, s, s');
  }

  lemma NearNegate(est: Estimator, t: int, n: int, s: nat)
    requires Near(est, t, n, s)
    ensures Near(est, -t, -n, s)
  {
    hide Chars;
    CharsAdd(est, t, 0);
  }

  /** `int(n / c)` is below `n / c` by less than one. */
  lemma TokensFloor(est: Estimator, n: int)
    requires Usable(est)
    ensures Chars(est, Tokens(est, n)) <= n as real < Chars(est, Tokens(est, n) + 1)
  {
    hide Times;
    var c := est.charsPerToken;
    var q := n as real / c;
    QuotientTimes(n as real, c, q);
    var f := Tokens(est, n);
    var lo, hi := f as real, (f + 1) as real;
    assert lo <= q < hi;
    ScaleOrder(c, lo, q);
    ScaleOrder(c, hi, q);
  }

  lemma QuotientTimes(x: real, c: real, q: real)
    requires c > 0.0 && q == x / c
    ensures Times(c, q) == x
  {
  }

  /** An estimate is within one token of the real figure. */
  lemma NearTokens(est: Estimator, n: int)
    requires Usable(est)
    ensures Near(est, Tokens(est, n), n, 1)
    ensures Near(est, Tokens(est, n + 1), n, 1)
  {
    hide Chars, Tokens;
    TokensFloor(est, n);
    TokensFloor(est, n + 1);
    CharsAdd(est, Tokens(est, n), 1);
    CharsAdd(est, Tokens(est, n + 1), 1);
  }

  /** The difference of two estimates is within one token, not two. */
  lemma NearDifference(est: Estimator, n: int, m: int)
    requires Usable(est)
    ensures Near(est, Tokens(est, n) - Tokens(est, m), n - m, 1)
  {
    hide Chars, Tokens;
    TokensFloor(est, n);
    TokensFloor(est, m);
    CharsAdd(est, Tokens(est, n), 1);
    CharsAdd(est, Tokens(est, m), 1);
    CharsAdd(est, Tokens(est, n), -Tokens(est, m));
  }

  lemma TokensMonotone(est: Estimator, n: int, m: int)
    requires Usable(est) && n <= m
    ensures Tokens(est, n) <= Tokens(est, m)
  {
    hide Chars, Tokens;
    TokensFloor(est, n);
    TokensFloor(est, m);
    CharsOrder(est, Tokens(est, n), Tokens(est, m));
  }

  // ----- Sizes after each pass -----

  lemma {:induction false} StubPartsSize(est: Estimator, parts: seq<Part>, k: nat)
    requires Usable(est) && k <= |PartSavings(est, parts)|
    ensures PartsSize(est, StubParts(est, parts, k)) <= PartsSize(est, parts)
    ensures Near(est, Sum(PartSavings(est, parts)[..k]),
                 PartsSize(est, parts) - PartsSize(est, StubParts(est, parts, k)), k)
  {
    var savings := PartSavings(est, parts);
    if k == 0 {
      StubNoParts(est, parts);
      assert savings[..0] == [];
    } else if Eligible(est, parts[0]) {
      StubPartsSize(est, parts[1..], k - 1);
      assert savings[1..] == PartSavings(est, parts[1..]);
      assert savings[..k][1..] == PartSavings(est, parts[1..])[..k - 1];
      NearDifference(est, |parts[0].content.text|, |STUB_TEXT|);
      if |parts[0].content.text| < |STUB_TEXT| {
        TokensMonotone(est, |parts[0].content.text|, |STUB_TEXT|);
      }
      NearAdd(est, Saving(est, parts[0]), |parts[0].content.text| - |STUB_TEXT|, 1,
              Sum(PartSavings(est, parts[1..])[..k - 1]),
              PartsSize(est, parts[1..]) - PartsSize(est, StubParts(est, parts[1..], k - 1)), k - 1);
    } else {
      assert savings == PartSavings(est, parts[1..]);
      StubPartsSize(est, parts[1..], k);
    }
  }

  /** Elision never makes the messages larger, and saves what it counts up to a token per stub. */
  lemma {:induction false} StubMessagesSize(est: Estimator, ms: seq<Message>, protected: int, k: nat)
    requires Usable(est) && k <= |MessageSavings(est, ms, protected)|
    ensures MessagesSize(est, StubMessages(est, ms, protected, k)) <= MessagesSize(est, ms)
    ensures Near(est, Sum(MessageSavings(est, ms, protected)[..k]),
                 MessagesSize(est, ms) - MessagesSize(est, StubMessages(est, ms, protected, k)), k)
  {
    hide Near, PartsSize, PartSavings, StubParts, Sum;
    if ms == [] {
      assert MessageSavings(est, ms, protected)[..k] == [];
      NearZero(est);
      NoSize(est);
    } else {
      var tail := MessageSavings(est, ms[1..], protected - 1);
      if Elidable(ms, protected) {
        var savings := PartSavings(est, ms[0].parts);
        var here := Min(k, |savings|);
        assert MessageSavings(est, ms, protected) == savings + tail;
        assert (savings + tail)[..k] == savings[..here] + tail[..k - here];
        SumConcat(savings[..here], tail[..k - here]);
        StubPartsSize(est, ms[0].parts, here);
        StubMessagesSize(est, ms[1..], protected - 1, k - here);
        var stubbed, rest := StubParts(est, ms[0].parts, here), StubMessages(est, ms[1..], protected - 1, k - here);
        NearAdd(est, Sum(savings[..here]), PartsSize(est, ms[0].parts) - PartsSize(est, stubbed), here,
                Sum(tail[..k - here]), MessagesSize(est, ms[1..]) - MessagesSize(est, rest), k - here);
      } else {
        SkipStep(est, ms, protected, k);
        StubMessagesSize(est, ms[1..], protected - 1, k);
      }
    }
  }

  lemma {:induction false} SizeConcat(est: Estimator, a: seq<Message>, b: seq<Message>)
    ensures MessagesSize(est, a + b) == MessagesSize(est, a) + MessagesSize(est, b)
  {
    if a == [] {
      assert a + b == b;
    } else {
      assert (a + b)[1..] == a[1..] + b;
      SizeConcat(est, a[1..], b);
    }
  }

  /** The messages of `dropped` turns, from the second turn on. */
  ghost function DroppedSpan(ms: seq<Message>, b: seq<nat>, dropped: nat): seq<Message>
    requires Ascending(b, |ms|) && dropped + 1 < |b|
  {
    ms[b[1]..b[dropped + 1]]
  }

  /** Dropping trades the turns for the marker, to the character. */
  lemma DroppingSize(est: Estimator, ms: seq<Message>, b: seq<nat>, dropped: nat)
    requires Ascending(b, |ms|) && 0 < dropped && dropped + 1 < |b|
    ensures MessagesSize(est, WithoutTurns(ms, b, dropped)) ==
            MessagesSize(est, ms) - MessagesSize(est, DroppedSpan(ms, b, dropped)) + MessagesSize(est, Marker(dropped))
  {
    hide Marker, MessagesSize;
    var pre, span, post := ms[..b[1]], DroppedSpan(ms, b, dropped), ms[b[dropped + 1]..];
    assert ms == (pre + span) + post;
    SizeConcat(est, pre + span, post);
    SizeConcat(est, pre, span);
    SizeConcat(est, pre + Marker(dropped), post);
    SizeConcat(est, pre, Marker(dropped));
  }

  /** So dropping turns enlarges the history exactly when the marker outweighs them. */
  lemma DroppingGrowsExactlyWhen(est: Estimator, ms: seq<Message>, b: seq<nat>, dropped: nat)
    requires Ascending(b, |ms|) && 0 < dropped && dropped + 1 < |b|
    ensures DumpSize(est, WithoutTurns(ms, b, dropped)) > DumpSize(est, ms) <==>
            MessagesSize(est, Marker(dropped)) > MessagesSize(est, DroppedSpan(ms, b, dropped))
  {
    hide Marker, MessagesSize;
    DroppingSize(est, ms, b, dropped);
  }

  /** What the dropped turns were estimated to cost is near their real size. */
  lemma {:induction false} CostsNear(est: Estimator, ms: seq<Message>, b: seq<nat>, dropped: nat)
    requires Usable(est) && Ascending(b, |ms|) && dropped + 1 < |b|
    ensures Near(est, Sum(TurnCosts(est, ms, b)[..dropped]), MessagesSize(est, DroppedSpan(ms, b, dropped)), dropped)
  {
    hide Near, TurnCosts, Tokens, MessagesSize, Sum;
    var costs := TurnCosts(est, ms, b);
    if dropped == 0 {
      NearZero(est);
      NoSize(est);
      assert costs[..0] == [] && DroppedSpan(ms, b, 0) == [];
    } else {
      CostsNear(est, ms, b, dropped - 1);
      CostOf(est, ms, b, dropped);
      assert b[dropped] < b[dropped + 1];
      var turn := ms[b[dropped]..b[dropped + 1]];
      assert costs[..dropped] == costs[..dropped - 1] + [costs[dropped - 1]];
      SumSnoc(costs[..dropped - 1], costs[dropped - 1]);
      assert b[1] <= b[dropped];
      assert DroppedSpan(ms, b, dropped) == DroppedSpan(ms, b, dropped - 1) + turn;
      SizeConcat(est, DroppedSpan(ms, b, dropped - 1), turn);
      NearTokens(est, MessagesSize(est, turn));
      assert DumpSize(est, turn) == MessagesSize(est, turn) + 1;
      NearAdd(est, Sum(costs[..dropped - 1]), MessagesSize(est, DroppedSpan(ms, b, dropped - 1)), dropped - 1,
              EstimateTokens(est, turn), MessagesSize(est, turn), 1);
    }
  }

  lemma {:induction false} TruncatePartsSize(est: Estimator, parts: seq<Part>, budget: int, running: int)
    requires Usable(est)
    ensures var t := TruncateParts(est, parts, budget, running);
            && PartsSize(est, t.parts) <= PartsSize(est, parts)
            && Near(est, running - t.running, PartsSize(est, parts) - PartsSize(est, t.parts), t.count)
  {
    hide Near, Tokens, Truncated, Keep;
    NearZero(est);
    if parts != [] && running > budget {
      if Cuttable(est, parts[0], budget, running) {
        var saving := CutSaving(est, parts[0], budget, running);
        var cut := Cut(est, parts[0], budget, running);
        var t := TruncateParts(est, parts[1..], budget, running - saving);
        TruncatePartsSize(est, parts[1..], budget, running - saving);
        NearDifference(est, |parts[0].content.text|, |cut.content.text|);
        if |parts[0].content.text| < |cut.content.text| {
          TokensMonotone(est, |parts[0].content.text|, |cut.content.text|);
        }
        NearAdd(est, saving, |parts[0].content.text| - |cut.content.text|, 1,
                running - saving - t.running, PartsSize(est, parts[1..]) - PartsSize(est, t.parts), t.count);
      } else {
        TruncatePartsSize(est, parts[1..], budget, running);
      }
    }
  }

  lemma {:induction false} ReplaceSize(est: Estimator, ms: seq<Message>, i: nat, m: Message)
    requires i < |ms|
    ensures MessagesSize(est, ms[i := m]) == MessagesSize(est, ms) - MessageSize(est, ms[i]) + MessageSize(est, m)
  {
    assert ms == ms[..i] + ([ms[i]] + ms[i + 1..]);
    assert ms[i := m] == ms[..i] + ([m] + ms[i + 1..]);
    SizeConcat(est, ms[..i], [ms[i]] + ms[i + 1..]);
    SizeConcat(est, ms[..i], [m] + ms[i + 1..]);
    assert ([m] + ms[i + 1..])[1..] == ms[i + 1..] == ([ms[i]] + ms[i + 1..])[1..];
  }

  lemma TruncationSize(est: Estimator, ms: seq<Message>, budget: int, running: int)
    requires Usable(est)
    ensures var (out, truncated, left) := TruncateMessages(est, ms, budget, running);
            && |out| == |ms|
            && MessagesSize(est, out) <= MessagesSize(est, ms)
            && Near(est, running - left, MessagesSize(est, ms) - MessagesSize(est, out), truncated)
  {
    hide Near, TruncateParts, MessagesSize, LastRequest;
    NearZero(est);
    LastRequestIs(ms);
    var index := LastRequest(ms);
    if index >= 0 {
      TruncatePartsSize(est, ms[index].parts, budget, running);
      ReplaceSize(est, ms, index, Request(TruncateParts(est, ms[index].parts, budget, running).parts));
    }
  }

  /** The turns dropped and the marker put in, in tokens and in characters. */
  lemma TradeNear(est: Estimator, ms: seq<Message>, b: seq<nat>, d: nat)
    requires Usable(est) && Ascending(b, |ms|) && 0 < d && d + 1 < |b|
    ensures Near(est, Sum(TurnCosts(est, ms, b)[..d]) - EstimateTokens(est, Marker(d)),
                 MessagesSize(est, ms) - MessagesSize(est, WithoutTurns(ms, b, d)), d + 1)
  {
    hide *;
    var span := MessagesSize(est, DroppedSpan(ms, b, d));
    var marker: int := MessagesSize(est, Marker(d));
    var cost := EstimateTokens(est, Marker(d));
    CostsNear(est, ms, b, d);
    DroppingSize(est, ms, b, d);
    MarkerNear(est, d);
    NearNegate(est, cost, marker, 1);
    NearAdd(est, Sum(TurnCosts(est, ms, b)[..d]), span, d, -cost, -marker, 1);
  }

  lemma MarkerNear(est: Estimator, d: nat)
    requires Usable(est)
    ensures Near(est, EstimateTokens(est, Marker(d)), MessagesSize(est, Marker(d)), 1)
  {
    hide MessagesSize, Near, Tokens, MarkerPrompt;
    NearTokens(est, MessagesSize(est, Marker(d)));
  }

  lemma DroppingNear(est: Estimator, ms: seq<Message>, budget: int, running: int)
    requires Usable(est)
    ensures var (out, dropped, left) := Dropping(est, ms, budget, running);
            && (out == [] <==> ms == [])
            && Near(est, running - left, MessagesSize(est, ms) - MessagesSize(est, out), if dropped == 0 then 0
                else dropped + 1)
  {
    hide Sum, Stop, MessagesSize, Marker, Near, TurnCosts, EstimateTokens, Boundaries, Ascending, WithoutTurns;
    BoundariesAreAscending(ms);
    var b := Boundaries(ms);
    var d := Stop(TurnCosts(est, ms, b), running, budget);
    NonEmpty(ms, b, d);
    if d == 0 {
      NearZero(est);
      NoSize(est);
      assert TurnCosts(est, ms, b)[..0] == [];
    } else {
      TradeNear(est, ms, b, d);
    }
  }

  lemma NonEmpty(ms: seq<Message>, b: seq<nat>, d: nat)
    requires Ascending(b, |ms|) && (d > 0 ==> d + 1 < |b|)
    ensures WithoutTurns(ms, b, d) == [] <==> ms == []
    ensures d == 0 ==> WithoutTurns(ms, b, d) == ms
  {
    MarkerIs(d);
    hide Marker;
  }

  lemma NearZero(est: Estimator)
    ensures Near(est, 0, 0, 0)
  {
  }

  lemma NoSize(est: Estimator)
    ensures Sum([]) == 0 && MessagesSize(est, []) == 0
  {
  }

  /** `running` follows the size of the messages, to `slack` tokens. */
  lemma FollowStep(est: Estimator, r: int, n: int, s: nat, r': int, n': int, s': nat)
    requires Near(est, r, n, s) && Near(est, r - r', n - n', s')
    ensures Near(est, r', n', s + s')
  {
    NearNegate(est, r - r', n - n', s');
    NearAdd(est, r, n, s, r' - r, n' - n, s');
  }

  lemma ElisionNear(est: Estimator, ms: seq<Message>, budget: int, running: int)
    requires Usable(est)
    ensures var (out, elided, left) := Elision(est, ms, budget, running);
            && |out| == |ms|
            && MessagesSize(est, out) <= MessagesSize(est, ms)
            && Near(est, running - left, MessagesSize(est, ms) - MessagesSize(est, out), elided)
  {
    hide Near, MessageSavings, StubMessages, Stop, Sum, MessagesSize, LastRequest;
    var savings := MessageSavings(est, ms, LastRequest(ms));
    StubMessagesSize(est, ms, LastRequest(ms), Stop(savings, running, budget));
  }

  lemma DumpIsNear(est: Estimator, ms: seq<Message>)
    requires Usable(est)
    ensures ms != [] ==> Near(est, EstimateTokens(est, ms), MessagesSize(est, ms), 1)
  {
    NearTokens(est, MessagesSize(est, ms));
  }

  lemma NearSame(est: Estimator, t: int, t': int, n: int, s: nat, s': nat)
    requires Usable(est) && Near(est, t, n, s) && Near(est, t', n, s')
    ensures -(s + s') <= t - t' <= s + s'
  {
    hide Chars;
    NearNegate(est, t', n, s');
    NearAdd(est, t, n, s, -t', -n, s');
    CharsAdd(est, s + s', 0);
    CharsOrder(est, t - t', s + s');
    CharsOrder(est, -(s + s'), t - t');
  }

  /** The running estimate ends within one token per elision, truncation and dropped turn
      (and three more) of the estimate taken afresh. */
  lemma RunningEstimateIsClose(est: Estimator, ms: seq<Message>, budget: int)
    requires Usable(est) && ms != []
    ensures var w := Window(est, ms, budget);
            var drift := w.reduction.elided + w.reduction.truncated + w.reduction.dropped + 3;
            -drift <= w.running - w.reduction.after <= drift
  {
    hide Near, Elision, Dropping, TruncateMessages, MessagesSize, EstimateTokens;
    var before := EstimateTokens(est, ms);
    DumpIsNear(est, ms);
    if before > budget {
      var (m1, k, r1) := Elision(est, ms, budget, before);
      ElisionNear(est, ms, budget, before);
      FollowStep(est, before, MessagesSize(est, ms), 1, r1, MessagesSize(est, m1), k);
      DroppingNear(est, m1, budget, r1);
      var (m2, d, r2) := if r1 > budget then Dropping(est, m1, budget, r1) else (m1, 0, r1);
      var slack := if d == 0 then 0 else d + 1;
      NearZero(est);
      FollowStep(est, r1, MessagesSize(est, m1), 1 + k, r2, MessagesSize(est, m2), slack);
      TruncationSize(est, m2, budget, r2);
      var (m3, t, r3) := if r2 > budget then TruncateMessages(est, m2, budget, r2) else (m2, 0, r2);
      FollowStep(est, r2, MessagesSize(est, m2), 1 + k + slack, r3, MessagesSize(est, m3), t);
      DumpIsNear(est, m3);
      NearSame(est, r3, EstimateTokens(est, m3), MessagesSize(est, m3), 1 + k + slack + t, 1);
    }
  }

  /** Without dropped turns the history only gets smaller. */
  lemma ReductionShrinks(est: Estimator, ms: seq<Message>, budget: int)
    requires Usable(est)
    ensures var w := Window(est, ms, budget);
            w.reduction.dropped == 0 ==>
              DumpSize(est, w.messages) <= DumpSize(est, ms) && w.reduction.after <= w.reduction.before
  {
    hide Elision, Dropping, TruncateMessages, MessagesSize;
    var before := EstimateTokens(est, ms);
    if before > budget {
      var (m1, k, r1) := Elision(est, ms, budget, before);
      ElisionNear(est, ms, budget, before);
      var (m2, d, r2) := if r1 > budget then Dropping(est, m1, budget, r1) else (m1, 0, r1);
      if d == 0 {
        assert m2 == m1 by { NothingDropped(est, m1, budget, r1); }
        TruncationSize(est, m2, budget, r2);
        var m3 := if r2 > budget then TruncateMessages(est, m2, budget, r2).0 else m2;
        TokensMonotone(est, DumpSize(est, m3), DumpSize(est, ms));
      }
    }
  }

  lemma NothingDropped(est: Estimator, ms: seq<Message>, budget: int, running: int)
    ensures Dropping(est, ms, budget, running).1 == 0 ==> Dropping(est, ms, budget, running).0 == ms
  {
  }

  /** A history that fits goes out untouched, and no count means no change. */
  lemma NoCountsNoChange(est: Estimator, ms: seq<Message>, budget: int)
    ensures var w := Window(est, ms, budget);
            && (EstimateTokens(est, ms) <= budget ==> w.messages == ms)
            && (w.reduction.elided == w.reduction.truncated == w.reduction.dropped == 0 ==>
                  w.messages == ms && w.reduction.after == w.reduction.before)
  {
    hide Dropping, TruncateMessages, EstimateTokens, MessageSavings, Stop, Sum;
    var before := EstimateTokens(est, ms);
    if before > budget {
      StubNoMessages(est, ms, LastRequest(ms));
      var (m1, k, r1) := Elision(est, ms, budget, before);
      NothingDropped(est, m1, budget, r1);
      var (m2, d, r2) := if r1 > budget then Dropping(est, m1, budget, r1) else (m1, 0, r1);
      TruncationSame(est, m2, budget, r2);
    }
  }
}
