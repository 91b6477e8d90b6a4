/** Two things the context window does not promise, and when it does them all the same:
    to leave the last user turn alone, and to make the history smaller. */
module WindowPromises {
  import opened ContextWindow
  import opened WindowProofs
  import opened WindowEstimates

  // ----- Where elision stops short -----

  lemma {:induction false} SavingsSplit(est: Estimator, ms: seq<Message>, protected: int, cut: nat)
    requires cut <= |ms|
    ensures MessageSavings(est, ms, protected) ==
            MessageSavings(est, ms[..cut], protected) + MessageSavings(est, ms[cut..], protected - cut)
  {
    if cut == 0 {
      assert ms[..0] == [] && ms[0..] == ms;
    } else {
      SavingsSplit(est, ms[1..], protected - 1, cut - 1);
      assert ms[..cut][1..] == ms[1..][..cut - 1] && ms[1..][cut - 1..] == ms[cut..];
      hide PartSavings;
      assert Elidable(ms[..cut], protected) == Elidable(ms, protected);
    }
  }

  lemma {:induction false} StubsSplit(est: Estimator, ms: seq<Message>, protected: int, k: nat, cut: nat)
    requires cut <= |ms|
    ensures var before := Min(k, |MessageSavings(est, ms[..cut], protected)|);
            StubMessages(est, ms, protected, k) ==
            StubMessages(est, ms[..cut], protected, before) + StubMessages(est, ms[cut..], protected - cut, k - before)
  {
    hide PartSavings, StubParts, StubMessages, MessageSavings;
    if cut == 0 {
      assert ms[..0] == [] && ms[0..] == ms;
      NoMessages(est, protected);
    } else {
      var before := Min(k, |MessageSavings(est, ms[..cut], protected)|);
      assert ms[..cut][1..] == ms[1..][..cut - 1] && ms[1..][cut - 1..] == ms[cut..];
      assert Elidable(ms[..cut], protected) == Elidable(ms, protected);
      var here := if Elidable(ms, protected) then Min(k, |PartSavings(est, ms[0].parts)|) else 0;
      StubsSplit(est, ms[1..], protected - 1, k - here, cut - 1);
      StubsOfFirst(est, ms, protected, k);
      StubsOfFirst(est, ms[..cut], protected, before);
    }
  }

  lemma StubsOfFirst(est: Estimator, ms: seq<Message>, protected: int, k: nat)
    requires ms != []
    ensures var here := if Elidable(ms, protected) then Min(k, |PartSavings(est, ms[0].parts)|) else 0;
            && StubMessages(est, ms, protected, k) ==
               [if Elidable(ms, protected) then Request(StubParts(est, ms[0].parts, here)) else ms[0]]
               + StubMessages(est, ms[1..], protected - 1, k - here)
            && |MessageSavings(est, ms, protected)| ==
               (if Elidable(ms, protected) then |PartSavings(est, ms[0].parts)| else 0)
               + |MessageSavings(est, ms[1..], protected - 1)|
  {
  }

  /** One stub is enough to change a part list that holds something eligible. */
  lemma {:induction false} StubPartsChanges(est: Estimator, parts: seq<Part>, k: nat)
    requires k > 0 && PartSavings(est, parts) != []
    ensures StubParts(est, parts, k) != parts
  {
    var out := StubParts(est, parts, k);
    if Eligible(est, parts[0]) {
      assert out[0].content.elided && !parts[0].content.elided;
    } else {
      StubPartsChanges(est, parts[1..], k);
      assert out[1..] == StubParts(est, parts[1..], k);
    }
  }

  lemma {:induction false} StubMessagesChanges(est: Estimator, ms: seq<Message>, protected: int, k: nat)
    requires k > 0 && MessageSavings(est, ms, protected) != []
    ensures StubMessages(est, ms, protected, k) != ms
  {
    var out := StubMessages(est, ms, protected, k);
    if Elidable(ms, protected) && PartSavings(est, ms[0].parts) != [] {
      StubPartsChanges(est, ms[0].parts, Min(k, |PartSavings(est, ms[0].parts)|));
      assert out[0].parts != ms[0].parts;
    } else {
      hide PartSavings, StubParts;
      StubMessagesChanges(est, ms[1..], protected - 1, k);
      StubsOfFirst(est, ms, protected, k);
      assert out[1..] == StubMessages(est, ms[1..], protected - 1, k);
    }
  }

  lemma {:induction false} PartSavingsPositive(est: Estimator, parts: seq<Part>)
    ensures forall i :: 0 <= i < |PartSavings(est, parts)| ==> PartSavings(est, parts)[i] > 0
  {
    if parts != [] {
      PartSavingsPositive(est, parts[1..]);
    }
  }

  lemma {:induction false} SavingsPositive(est: Estimator, ms: seq<Message>, protected: int)
    ensures forall i :: 0 <= i < |MessageSavings(est, ms, protected)| ==> MessageSavings(est, ms, protected)[i] > 0
  {
    if ms != [] {
      PartSavingsPositive(est, ms[0].parts);
      hide PartSavings;
      SavingsPositive(est, ms[1..], protected - 1);
    }
  }

  lemma {:induction false} SumPositive(s: seq<int>)
    requires forall i :: 0 <= i < |s| ==> s[i] > 0
    ensures Sum(s) >= 0
  {
    if s != [] {
      SumPositive(s[1..]);
    }
  }

  /** The loop stops within the first list exactly when that is enough, or nothing follows. */
  lemma StopsWithin(a: seq<int>, b: seq<int>, running: int, budget: int)
    requires forall i :: 0 <= i < |a| ==> a[i] > 0
    ensures Stop(a + b, running, budget) <= |a| <==> b == [] || running - Sum(a) <= budget
  {
    var k := Stop(a, running, budget);
    StopConcat(a, b, running, budget);
    StopIsFirstFit(a, running, budget, k);
    assert a == a[..k] + a[k..];
    SumConcat(a[..k], a[k..]);
    SumPositive(a[k..]);
  }

  /** Elision leaves the messages from `cut` on as they are if and only if nothing in them is
      eligible, or stubbing everything eligible before them already fits. */
  lemma SuffixIsSparedExactlyWhen(est: Estimator, ms: seq<Message>, budget: int, running: int, cut: nat)
    requires cut <= |ms|
    ensures var protected := LastRequest(ms);
            Elision(est, ms, budget, running).0[cut..] == ms[cut..] <==>
            || MessageSavings(est, ms[cut..], protected - cut) == []
            || running - Sum(MessageSavings(est, ms[..cut], protected)) <= budget
  {
    hide MessageSavings, StubMessages, Stop, Sum, LastRequest;
    var protected := LastRequest(ms);
    var a, b := MessageSavings(est, ms[..cut], protected), MessageSavings(est, ms[cut..], protected - cut);
    var k := Stop(MessageSavings(est, ms, protected), running, budget);
    SavingsSplit(est, ms, protected, cut);
    StubsSplit(est, ms, protected, k, cut);
    SavingsPositive(est, ms[..cut], protected);
    StopsWithin(a, b, running, budget);
    var suffix := StubMessages(est, ms[cut..], protected - cut, k - Min(k, |a|));
    assert Elision(est, ms, budget, running).0[cut..] == suffix;
    if k <= |a| {
      StubNoMessages(est, ms[cut..], protected - cut);
    } else {
      StubMessagesChanges(est, ms[cut..], protected - cut, k - |a|);
    }
  }

  /** The first message of the last user turn, or the end of a history without one. */
  ghost function LastTurn(ms: seq<Message>): nat {
    var b := Boundaries(ms);
    if b == [] then |ms| else b[|b| - 1]
  }

  /** So elision leaves the last user turn alone if and only if it holds nothing eligible, or
      stubbing everything eligible before it already fits. */
  lemma LastTurnIsSparedExactlyWhen(est: Estimator, ms: seq<Message>, budget: int, running: int)
    ensures var cut, protected := LastTurn(ms), LastRequest(ms);
            && cut <= |ms|
            && (Elision(est, ms, budget, running).0[cut..] == ms[cut..] <==>
                || MessageSavings(est, ms[cut..], protected - cut) == []
                || running - Sum(MessageSavings(est, ms[..cut], protected)) <= budget)
  {
    hide Boundaries, Elision, MessageSavings, LastRequest, Sum;
    BoundariesAreAscending(ms);
    SuffixIsSparedExactlyWhen(est, ms, budget, running, LastTurn(ms));
  }

  /** A question and two tool exchanges: one user turn. */
  function TwoExchanges(first: Content, second: Content): seq<Message> {
    [ Request([UserPrompt("?")]),
      Response([ToolCall("a", 0)]), Request([ToolReturn("a", first, 0)]),
      Response([ToolCall("b", 0)]), Request([ToolReturn("b", second, 0)]) ]
  }

  /** The last turn is not exempt: over a tight budget, the first of its two results is stubbed. */
  lemma LastTurnIsElided(est: Estimator, first: Content, second: Content, budget: int, running: int)
    requires Eligible(est, ToolReturn("a", first, 0)) && running > budget
    ensures var ms := TwoExchanges(first, second);
            && LastTurn(ms) == 0
            && Elision(est, ms, budget, running).0 == TwoExchanges(STUB, second)
            && Elision(est, ms, budget, running).0 != ms
  {
    hide Eligible, Saving, StubMessages, MessageSavings, Stop, Sum;
    OneTurn(first, second);
    OnlyTheFirst(est, first, second);
    StillFull(est, first);
    var saving := Saving(est, ToolReturn("a", first, 0));
    OneStub(saving, running, budget);
    assert TwoExchanges(STUB, second)[2] != TwoExchanges(first, second)[2];
  }

  /** Nothing after elision restores it: what goes out holds the stub. */
  lemma LastTurnGoesOutElided(est: Estimator, first: Content, second: Content, budget: int)
    requires Eligible(est, ToolReturn("a", first, 0)) && EstimateTokens(est, TwoExchanges(first, second)) > budget
    ensures var out := Window(est, TwoExchanges(first, second), budget).messages;
            |out| == 5 && out[2] == Request([ToolReturn("a", STUB, 0)])
  {
    hide Eligible, Elision, Stop, Sum, TruncateMessages, EstimateTokens, Boundaries, LastRequest;
    var ms := TwoExchanges(first, second);
    var before := EstimateTokens(est, ms);
    LastTurnIsElided(est, first, second, budget, before);
    var (m1, _, r1) := Elision(est, ms, budget, before);
    OneTurn(STUB, second);
    assert Dropping(est, m1, budget, r1).0 == m1
        && Dropping(est, m1, budget, r1).1 == 0 by { NothingToDrop(est, m1, budget, r1); }
    var r2 := if r1 > budget then Dropping(est, m1, budget, r1).2 else r1;
    TruncationSame(est, m1, budget, r2);
    assert LastRequest(m1) == 4 by { LastOfFive(STUB, second); }
  }

  /** A result of a thousand characters is long enough, at three characters a token. */
  lemma LongResultIsEligible()
    ensures var est, text := Estimator(3.0, 0, 0, 0), seq(1000, _ => 'x');
            Eligible(est, ToolReturn("a", Content(text, false, false), 0))
  {
    assert |STUB_TEXT| < 900;
    var n, m := 1000 as real / 3.0, |STUB_TEXT| as real / 3.0;
    assert n.Floor > 300 && m.Floor <= 300;
  }

  /** So such a history exists: one user turn, a token over budget, that goes out stubbed. */
  lemma ElidedLastTurn(second: Content) returns (est: Estimator, first: Content, budget: int)
    ensures !first.elided && |first.text| == 1000
    ensures LastTurn(TwoExchanges(first, second)) == 0
    ensures EstimateTokens(est, TwoExchanges(first, second)) == budget + 1
    ensures var out := Window(est, TwoExchanges(first, second), budget).messages;
            |out| == 5 && out[2] == Request([ToolReturn("a", STUB, 0)])
  {
    hide Eligible, Window, EstimateTokens, Boundaries;
    est, first := Estimator(3.0, 0, 0, 0), Content(seq(1000, _ => 'x'), false, false);
    LongResultIsEligible();
    OneTurn(first, second);
    budget := EstimateTokens(est, TwoExchanges(first, second)) - 1;
    LastTurnGoesOutElided(est, first, second, budget);
  }

  lemma LastOfFive(first: Content, second: Content)
    ensures LastRequest(TwoExchanges(first, second)) == 4
  {
  }

  lemma NothingToDrop(est: Estimator, ms: seq<Message>, budget: int, running: int)
    requires |Boundaries(ms)| <= 2
    ensures Dropping(est, ms, budget, running).0 == ms && Dropping(est, ms, budget, running).1 == 0
  {
    BoundariesAreAscending(ms);
    assert TurnCosts(est, ms, Boundaries(ms)) == [];
  }

  lemma OneStub(saving: int, running: int, budget: int)
    requires running > budget
    ensures Stop([saving], running, budget) == 1
  {
    assert [saving][1..] == [];
  }

  /** The first result is the only eligible one: the second is in the newest request. */
  lemma OnlyTheFirst(est: Estimator, first: Content, second: Content)
    requires Eligible(est, ToolReturn("a", first, 0))
    ensures var ms := TwoExchanges(first, second);
            && LastRequest(ms) == 4
            && MessageSavings(est, ms, 4) == [Saving(est, ToolReturn("a", first, 0))]
            && StubMessages(est, ms, 4, 1) == TwoExchanges(STUB, second)
  {
    var ms := TwoExchanges(first, second);
    QuestionAndResult(est, first);
    LastOfFive(first, second);
    hide LastRequest, PartSavings, StubParts, StubMessages, MessageSavings, Eligible, Saving, TwoExchanges;
    FromTheResult(est, ms[2..], first);
    SkipStep(est, ms[1..], 3, 1);
    SavingsOfFirst(est, ms, 4);
    StubsOfFirst(est, ms, 4, 1);
    StubNoMessages(est, ms[3..], 1);
  }

  /** The first result and what follows it. */
  lemma FromTheResult(est: Estimator, rest: seq<Message>, first: Content)
    requires |rest| == 3 && rest[0] == Request([ToolReturn("a", first, 0)]) && rest[1].Response?
    requires var part := ToolReturn("a", first, 0);
             PartSavings(est, [part]) == [Saving(est, part)] && StubParts(est, [part], 1) == [ToolReturn("a", STUB, 0)]
    ensures MessageSavings(est, rest, 2) == [Saving(est, ToolReturn("a", first, 0))]
    ensures StubMessages(est, rest, 2, 1) == [Request([ToolReturn("a", STUB, 0)])] + rest[1..]
  {
    hide PartSavings, StubParts, StubMessages, MessageSavings, Saving;
    assert rest[1..][1..] == rest[2..] && rest[2..][1..] == [];
    NoMessages(est, -1);
    SkipStep(est, rest[2..], 0, 0);
    SkipStep(est, rest[1..], 1, 0);
    SavingsOfFirst(est, rest, 2);
    StubsOfFirst(est, rest, 2, 1);
    StubNoMessages(est, rest[1..], 1);
  }

  lemma SavingsOfFirst(est: Estimator, ms: seq<Message>, protected: int)
    requires ms != [] && Elidable(ms, protected)
    ensures MessageSavings(est, ms, protected) ==
        PartSavings(est, ms[0].parts) + MessageSavings(est, ms[1..], protected - 1)
  {
  }

  lemma QuestionAndResult(est: Estimator, first: Content)
    requires Eligible(est, ToolReturn("a", first, 0))
    ensures var part := ToolReturn("a", first, 0);
            && PartSavings(est, [part]) == [Saving(est, part)]
            && StubParts(est, [part], 1) == [ToolReturn("a", STUB, 0)]
            && PartSavings(est, [UserPrompt("?")]) == []
            && StubParts(est, [UserPrompt("?")], 0) == [UserPrompt("?")]
  {
    var part := ToolReturn("a", first, 0);
    assert [part][1..] == [] && [UserPrompt("?")][1..] == [];
  }

  lemma StillFull(est: Estimator, first: Content)
    requires Eligible(est, ToolReturn("a", first, 0))
    ensures !first.elided && first != STUB
  {
  }

  lemma OneTurn(first: Content, second: Content)
    ensures Boundaries(TwoExchanges(first, second)) == [0]
  {
    var ms := TwoExchanges(first, second);
    assert IsBoundary(ms[0]) by { assert ms[0].parts[0].UserPrompt?; }
    assert !IsBoundary(ms[1]) && !IsBoundary(ms[2]) && !IsBoundary(ms[3]) && !IsBoundary(ms[4]);
    assert BoundariesFrom(ms, 5) == [];
    assert BoundariesFrom(ms, 4) == [];
    assert BoundariesFrom(ms, 3) == [];
    assert BoundariesFrom(ms, 2) == [];
    assert BoundariesFrom(ms, 1) == [];
  }

  // ----- A history that grows -----

  /** Three turns of prose. */
  function SmallTalk(q: seq<string>, a: seq<string>): seq<Message>
    requires |q| == |a| == 3
  {
    [ Request([UserPrompt(q[0])]), Response([Text(a[0])]),
      Request([UserPrompt(q[1])]), Response([Text(a[1])]),
      Request([UserPrompt(q[2])]), Response([Text(a[2])]) ]
  }

  ghost predicate Prose(ms: seq<Message>) {
    forall i, j :: 0 <= i < |ms| && 0 <= j < |ms[i].parts| ==> !ms[i].parts[j].ToolReturn?
  }

  lemma {:induction false} ProsePartsUntouched(est: Estimator, parts: seq<Part>, budget: int, running: int)
    requires forall j :: 0 <= j < |parts| ==> !parts[j].ToolReturn?
    ensures PartSavings(est, parts) == []
    ensures TruncateParts(est, parts, budget, running) == Truncation(parts, 0, running)
  {
    if parts != [] {
      ProsePartsUntouched(est, parts[1..], budget, running);
    }
  }

  lemma {:induction false} ProseSavesNothing(est: Estimator, ms: seq<Message>, protected: int)
    requires Prose(ms)
    ensures MessageSavings(est, ms, protected) == []
  {
    if ms != [] {
      ProsePartsUntouched(est, ms[0].parts, 0, 0);
      hide PartSavings;
      assert forall i, j :: 0 <= i < |ms[1..]| && 0 <= j < |ms[1..][i].parts| ==>
          ms[1..][i].parts[j] == ms[i + 1].parts[j];
      ProseSavesNothing(est, ms[1..], protected - 1);
    }
  }

  lemma ProseIsNotElided(est: Estimator, ms: seq<Message>, budget: int, running: int)
    requires Prose(ms)
    ensures Elision(est, ms, budget, running) == (ms, 0, running)
  {
    hide LastRequest, StubMessages, MessageSavings;
    ProseSavesNothing(est, ms, LastRequest(ms));
    StubNoMessages(est, ms, LastRequest(ms));
    Ends(est, running, budget);
  }

  lemma ProseIsNotCut(est: Estimator, ms: seq<Message>, budget: int, running: int)
    requires Prose(ms)
    ensures TruncateMessages(est, ms, budget, running) == (ms, 0, running)
  {
    hide TruncateParts;
    LastRequestIs(ms);
    var index := LastRequest(ms);
    hide LastRequest;
    if index >= 0 {
      ProsePartsUntouched(est, ms[index].parts, budget, running);
      assert ms[index := Request(ms[index].parts)] == ms;
    }
  }

  lemma ProseStays(ms: seq<Message>, b: seq<nat>, d: nat)
    requires Prose(ms) && Ascending(b, |ms|) && (d > 0 ==> d + 1 < |b|)
    ensures Prose(WithoutTurns(ms, b, d))
  {
    hide MarkerPrompt;
    if d > 0 {
      var out := WithoutTurns(ms, b, d);
      forall i, j | 0 <= i < |out| && 0 <= j < |out[i].parts| ensures !out[i].parts[j].ToolReturn? {
        if i >= b[1] + 2 {
          assert out[i] == ms[i - (b[1] + 2) + b[d + 1]];
        }
      }
    }
  }

  /** A history of prose goes out larger than it came if and only if turns were dropped and the
      marker outweighs them. */
  lemma ProseGrowsExactlyWhen(est: Estimator, ms: seq<Message>, budget: int)
    requires Prose(ms)
    ensures var b, w := Boundaries(ms), Window(est, ms, budget);
            var d := w.reduction.dropped;
            && Ascending(b, |ms|) && (d > 0 ==> d + 1 < |b|)
            && (DumpSize(est, w.messages) > DumpSize(est, ms) <==>
                d > 0 && MessagesSize(est, Marker(d)) > MessagesSize(est, DroppedSpan(ms, b, d)))
  {
    hide EstimateTokens, Marker, Elision, TruncateMessages, MessagesSize, DumpSize, Boundaries, Prose, Stop, Sum;
    BoundariesAreAscending(ms);
    var b, before := Boundaries(ms), EstimateTokens(est, ms);
    if before > budget {
      ProseIsNotElided(est, ms, budget, before);
      var (m2, d, r2) := Dropping(est, ms, budget, before);
      assert m2 == WithoutTurns(ms, b, d);
      ProseStays(ms, b, d);
      ProseIsNotCut(est, m2, budget, r2);
      if d > 0 {
        DroppingGrowsExactlyWhen(est, ms, b, d);
      }
    }
  }

  lemma ThreeTurns(q: seq<string>, a: seq<string>)
    requires |q| == |a| == 3
    ensures Boundaries(SmallTalk(q, a)) == [0, 2, 4]
  {
    var ms := SmallTalk(q, a);
    assert ms[0].parts[0].UserPrompt? && ms[2].parts[0].UserPrompt? && ms[4].parts[0].UserPrompt?;
    assert BoundariesFrom(ms, 6) == [];
    assert BoundariesFrom(ms, 5) == [];
    assert BoundariesFrom(ms, 4) == [4];
    assert BoundariesFrom(ms, 3) == [4];
    assert BoundariesFrom(ms, 2) == [2, 4];
    assert BoundariesFrom(ms, 1) == [2, 4];
  }

  lemma MiddleTurnDrops(est: Estimator, q: seq<string>, a: seq<string>, running: int)
    requires |q| == |a| == 3
    ensures var ms := SmallTalk(q, a);
            && Ascending([0, 2, 4], |ms|)
            && Dropping(est, ms, running - 1, running).1 == 1
            && Dropping(est, ms, running - 1, running).0 == WithoutTurns(ms, [0, 2, 4], 1)
  {
    hide EstimateTokens, Marker, Boundaries;
    var ms := SmallTalk(q, a);
    ThreeTurns(q, a);
    var costs := TurnCosts(est, ms, [0, 2, 4]);
    assert |costs| == 1;
    OneStub(costs[0], running, running - 1);
    assert costs == [costs[0]];
  }

  /** The sizes of a question with its reply, the frames apart. */
  lemma TurnSize(est: Estimator, q: string, a: string)
    ensures MessagesSize(est, [Request([UserPrompt(q)]), Response([Text(a)])]) ==
            2 * est.messageFrame + est.promptFrame + est.textFrame + 4 + |q| + |a|
  {
    var ms := [Request([UserPrompt(q)]), Response([Text(a)])];
    assert ms[1..] == [Response([Text(a)])] && ms[1..][1..] == [];
    assert [UserPrompt(q)][1..] == [] && [Text(a)][1..] == [];
    assert PartsSize(est, [UserPrompt(q)]) == est.promptFrame + |q| + 1;
    assert PartsSize(est, [Text(a)]) == est.textFrame + |a| + 1;
    hide PartsSize;
    assert MessagesSize(est, [Response([Text(a)])]) == est.messageFrame + est.textFrame + |a| + 2;
  }

  /** Just over budget, the middle turn gives way to the marker, and the history grows by what
      the marker's two texts are longer than the turn's. */
  lemma SmallTalkGrowsBy(est: Estimator, q: seq<string>, a: seq<string>)
    requires |q| == |a| == 3
    ensures var ms := SmallTalk(q, a);
            var w := Window(est, ms, EstimateTokens(est, ms) - 1);
            && w.reduction.dropped == 1
            && DumpSize(est, w.messages) - DumpSize(est, ms) == |MarkerPrompt(1)| + |MARKER_REPLY| - |q[1]| - |a[1]|
  {
    hide EstimateTokens, MarkerPrompt, Elision, Dropping, TruncateMessages, MessagesSize;
    var ms := SmallTalk(q, a);
    var before := EstimateTokens(est, ms);
    ProseIsNotElided(est, ms, before - 1, before);
    MiddleTurnDrops(est, q, a, before);
    var m2, r2 := WithoutTurns(ms, [0, 2, 4], 1), Dropping(est, ms, before - 1, before).2;
    ProseIsNotCut(est, m2, before - 1, r2);
    DroppingSize(est, ms, [0, 2, 4], 1);
    assert DroppedSpan(ms, [0, 2, 4], 1) == [Request([UserPrompt(q[1])]), Response([Text(a[1])])];
    TurnSize(est, q[1], a[1]);
    TurnSize(est, MarkerPrompt(1), MARKER_REPLY);
  }

  /** So the window enlarges a three-turn chat with a short middle turn, whatever the divisor. */
  lemma ChatGrows(est: Estimator)
    ensures var ms := SmallTalk(["Hi", "ok?", "Bye"], ["Hi", "ok", "Bye"]);
            DumpSize(est, Window(est, ms, EstimateTokens(est, ms) - 1).messages) > DumpSize(est, ms)
  {
    var q, a := ["Hi", "ok?", "Bye"], ["Hi", "ok", "Bye"];
    hide Window, DumpSize, EstimateTokens, SmallTalk, MarkerPrompt;
    SmallTalkGrowsBy(est, q, a);
  }

}
