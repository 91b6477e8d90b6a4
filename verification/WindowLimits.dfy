/** What each pass of the context window is for: it runs only when the pass before it was not
    enough, stops as soon as the estimate fits, and gives up only when nothing is left to do. */
module WindowLimits {
  import opened ContextWindow
  import opened WindowProofs
  import opened WindowEstimates
  import opened WindowPromises

  // ----- Elision -----

  /** A result whose stub would cost less. */
  ghost predicate StubHelps(est: Estimator, p: Part) {
    p.ToolReturn? && !p.content.elided && Tokens(est, |p.content.text|) > Tokens(est, |STUB_TEXT|)
  }

  /** No request that another one follows holds such a result. */
  ghost predicate NothingToStub(est: Estimator, ms: seq<Message>) {
    forall i, h, j :: 0 <= i < h < |ms| && ms[i].Request? && ms[h].Request? && 0 <= j < |ms[i].parts| ==>
      !StubHelps(est, ms[i].parts[j])
  }

  /** An eligible result is among those counted. */
  lemma EligibleIsCounted(est: Estimator, ms: seq<Message>, protected: int, i: nat, j: nat)
    requires i < |ms| && ms[i].Request? && i != protected
    requires j < |ms[i].parts| && Eligible(est, ms[i].parts[j])
    ensures EligibleBefore(est, ms, protected, i, j) < |MessageSavings(est, ms, protected)|
  {
    hide PartSavings, Eligible;
    SavingsSplit(est, ms, protected, i);
    assert ms[i..][0] == ms[i];
    SavingsBound(est, ms[i].parts, j);
    assert |MessageSavings(est, ms[i..], protected - i)| >= |PartSavings(est, ms[i].parts)|;
  }

  /** Elision with the estimate still over budget has stubbed whatever it may. */
  lemma ElisionExhausts(est: Estimator, ms: seq<Message>, budget: int, running: int)
    requires Elision(est, ms, budget, running).2 > budget
    ensures NothingToStub(est, Elision(est, ms, budget, running).0)
  {
    var protected := LastRequest(ms);
    var (out, k, left) := Elision(est, ms, budget, running);
    ElisionStopsAtFirstFit(est, ms, budget, running, 0);
    StubMessagesSame(est, ms, protected, k);
    LastRequestIs(ms);
    hide MessageSavings, LastRequest, Stop, Sum, StubMessages, EligibleBefore, Elision, Tokens;
    forall i, h, j | 0 <= i < h < |out| && out[i].Request? && out[h].Request? && 0 <= j < |out[i].parts|
      ensures !StubHelps(est, out[i].parts[j])
    {
      assert StubbedMessage(ms[i], out[i]) && StubbedMessage(ms[h], out[h]);
      OldestAreStubbed(est, ms, protected, k, i, j);
      EligibleIs(est, ms[i].parts[j]);
      if Eligible(est, ms[i].parts[j]) {
        EligibleIsCounted(est, ms, protected, i, j);
      }
    }
  }

  // ----- Turns -----

  /** How many turns may go: all but the first and the last. */
  ghost function Droppable(ms: seq<Message>): nat {
    var b := Boundaries(ms);
    if |b| > 2 then |b| - 2 else 0
  }

  /** What the estimate comes to without the first `j` of them, the marker not counted. */
  ghost function Without(est: Estimator, ms: seq<Message>, running: int, j: nat): int
    requires j <= Droppable(ms)
  {
    BoundariesAreAscending(ms);
    running - Sum(TurnCosts(est, ms, Boundaries(ms))[..j])
  }

  /** Turns are dropped while the estimate is over budget, the marker not counted; then the
      marker is. */
  lemma DroppingIsExact(est: Estimator, ms: seq<Message>, budget: int, running: int)
    ensures var (_, d, left) := Dropping(est, ms, budget, running);
            && d <= Droppable(ms)
            && (forall j :: 0 <= j < d ==> Without(est, ms, running, j) > budget)
            && (d < Droppable(ms) ==> Without(est, ms, running, d) <= budget)
            && left == Without(est, ms, running, d) + (if d == 0 then 0 else EstimateTokens(est, Marker(d)))
  {
    hide TurnCosts, Boundaries, Sum, Stop, Ascending, EstimateTokens, Marker;
    BoundariesAreAscending(ms);
    var (_, d, left) := Dropping(est, ms, budget, running);
    DroppingStopsAtFirstFit(est, ms, budget, running, 0);
    forall j | 0 <= j < d ensures Without(est, ms, running, j) > budget {
      DroppingStopsAtFirstFit(est, ms, budget, running, j);
    }
  }

  /** Cutting messages out before a request, and putting a marker in, leaves nothing new to stub. */
  lemma SpliceKeepsStubbed(est: Estimator, ms: seq<Message>, marker: seq<Message>, lo: nat, hi: nat)
    requires NothingToStub(est, ms) && lo <= hi < |ms| && ms[hi].Request?
    requires |marker| == 2 && marker[1].Response?
    requires forall j :: 0 <= j < |marker[0].parts| ==> !StubHelps(est, marker[0].parts[j])
    ensures NothingToStub(est, ms[..lo] + marker + ms[hi..])
  {
    hide StubHelps;
    var out := ms[..lo] + marker + ms[hi..];
    assert out[lo] == marker[0] && out[lo + 1] == marker[1];
    assert forall i :: 0 <= i < lo ==> out[i] == ms[i];
    assert forall i :: lo + 2 <= i < |out| ==> out[i] == ms[i - (lo + 2) + hi];
    forall i, h, j | 0 <= i < h < |out| && out[i].Request? && out[h].Request? && 0 <= j < |out[i].parts|
      ensures !StubHelps(est, out[i].parts[j])
    {
      if i < lo {
        assert i < hi;
      } else if i >= lo + 2 {
        assert i - (lo + 2) + hi < h - (lo + 2) + hi < |ms|;
      }
    }
  }

  lemma DroppingKeepsStubbed(est: Estimator, ms: seq<Message>, budget: int, running: int)
    requires NothingToStub(est, ms)
    ensures NothingToStub(est, Dropping(est, ms, budget, running).0)
  {
    hide Boundaries, Stop, Sum, EstimateTokens, MarkerPrompt, NothingToStub, Tokens;
    BoundariesAreAscending(ms);
    var b, d := Boundaries(ms), Dropping(est, ms, budget, running).1;
    if d > 0 {
      BoundaryAt(ms);
      assert b[1] < b[d + 1];
      SpliceKeepsStubbed(est, ms, Marker(d), b[1], b[d + 1]);
    }
  }

  // ----- Cuts -----

  /** How many leading characters of a result survive when the estimate is `excess` too high. */
  ghost function HeadLength(est: Estimator, text: string, excess: int): int {
    var fitting := |text| - (excess as real * est.charsPerToken).Floor;
    if fitting < 500 then 500 else fitting
  }

  /** A full result that such a cut makes cheaper. */
  ghost predicate CutHelps(est: Estimator, p: Part, excess: int) {
    && p.ToolReturn? && !p.content.elided && !p.content.truncated
    && var keep := HeadLength(est, p.content.text, excess);
    && keep < |p.content.text|
    && Tokens(est, |Truncated(p.content.text[..keep]).text|) < Tokens(est, |p.content.text|)
  }

  /** What becomes of a part when the estimate is `excess` too high. */
  ghost function CutTo(est: Estimator, p: Part, excess: int): Part {
    if excess > 0 && CutHelps(est, p, excess) then
      p.(content := Truncated(p.content.text[..HeadLength(est, p.content.text, excess)]))
    else p
  }

  /** What cutting it saves. */
  ghost function CutSaves(est: Estimator, p: Part, q: Part): int {
    if p.ToolReturn? && q.ToolReturn? then Tokens(est, |p.content.text|) - Tokens(est, |q.content.text|) else 0
  }

  lemma CuttableIs(est: Estimator, p: Part, budget: int, running: int)
    ensures Cuttable(est, p, budget, running) <==> CutHelps(est, p, running - budget)
    ensures Cuttable(est, p, budget, running) ==>
              var q := Cut(est, p, budget, running);
              && (running > budget ==> q == CutTo(est, p, running - budget))
              && CutSaving(est, p, budget, running) == CutSaves(est, p, q) > 0
              && q.content.truncated
  {
    hide Tokens;
  }

  /** The first part. */
  lemma FirstCut(est: Estimator, parts: seq<Part>, budget: int, running: int)
    requires parts != []
    ensures var t := TruncateParts(est, parts, budget, running);
            var q := CutTo(est, parts[0], running - budget);
            && running - CutSaves(est, parts[0], q) <= running
            && t.parts == [q] + TruncateParts(est, parts[1..], budget, running - CutSaves(est, parts[0], q)).parts
            && t.running == TruncateParts(est, parts[1..], budget, running - CutSaves(est, parts[0], q)).running
  {
    hide CutHelps, Cuttable, Cut, CutSaving, HeadLength, CutSaves, CutTo, Truncated;
    TruncateStep(est, parts, budget, running);
    TruncateStep(est, parts[1..], budget, running);
    CuttableIs(est, parts[0], budget, running);
    NotCut(est, parts[0]);
  }

  /** The parts are gone through in order: one is cut exactly if the estimate is over budget when
      its turn comes and the cut helps, and it keeps the leading characters that excess leaves. */
  lemma {:induction false} CutsAreExact(est: Estimator, parts: seq<Part>, budget: int, running: int, j: nat)
    requires j < |parts|
    ensures var left := TruncateParts(est, parts[..j], budget, running).running;
            var p, q := parts[j], TruncateParts(est, parts, budget, running).parts[j];
            && q == CutTo(est, p, left - budget)
            && TruncateParts(est, parts[..j + 1], budget, running).running == left - CutSaves(est, p, q)
  {
    hide CutSaves, CutTo, TruncateParts, Cuttable;
    FirstCut(est, parts, budget, running);
    assert parts[..j + 1][1..] == parts[1..][..j];
    FirstCut(est, parts[..j + 1], budget, running);
    var q := CutTo(est, parts[0], running - budget);
    var left := running - CutSaves(est, parts[0], q);
    var t, rest := TruncateParts(est, parts, budget, running), TruncateParts(est, parts[1..], budget, left);
    assert t.parts == [q] + rest.parts;
    if j == 0 {
      assert parts[..0] == [] == parts[1..][..0];
      TruncateStep(est, [], budget, running);
      TruncateStep(est, [], budget, left);
    } else {
      assert parts[..j][1..] == parts[1..][..j - 1];
      FirstCut(est, parts[..j], budget, running);
      CutsAreExact(est, parts[1..], budget, left, j - 1);
      assert t.parts[j] == rest.parts[j - 1];
    }
  }

  /** What the first `j` parts have saved. */
  ghost function Saved(est: Estimator, ps: seq<Part>, qs: seq<Part>, j: nat): int
    requires j <= |ps| == |qs|
  {
    if j == 0 then 0 else Saved(est, ps, qs, j - 1) + CutSaves(est, ps[j - 1], qs[j - 1])
  }

  /** So the estimate, when the turn of part `j` comes, is lower by what the parts before saved. */
  lemma {:induction false} EstimateAtPart(est: Estimator, parts: seq<Part>, budget: int, running: int, j: nat)
    requires j <= |parts|
    ensures TruncateParts(est, parts[..j], budget, running).running ==
            running - Saved(est, parts, TruncateParts(est, parts, budget, running).parts, j)
  {
    hide CutSaves, CutHelps, Cuttable;
    if j == 0 {
      assert parts[..0] == [];
    } else {
      EstimateAtPart(est, parts, budget, running, j - 1);
      CutsAreExact(est, parts, budget, running, j - 1);
    }
  }

  lemma NotCut(est: Estimator, p: Part)
    ensures CutSaves(est, p, p) == 0
    ensures forall excess :: excess <= 0 || !CutHelps(est, p, excess) ==> CutTo(est, p, excess) == p
  {
    hide CutHelps;
  }

  /** The results of a request in order, each cut by what the estimate is still over budget. */
  ghost predicate CutInOrder(est: Estimator, ps: seq<Part>, qs: seq<Part>, start: int, budget: int) {
    && |ps| == |qs|
    && forall j :: 0 <= j < |ps| ==> qs[j] == CutTo(est, ps[j], start - Saved(est, ps, qs, j) - budget)
  }

  lemma {:induction false} EscapeGrows(s: string, n: nat)
    requires n <= |s|
    ensures |Escape(s[..n])| <= |Escape(s)|
  {
    if n > 0 {
      assert s[..n][1..] == s[1..][..n - 1];
      EscapeGrows(s[1..], n - 1);
    }
  }

  lemma LongerHeadCostsMore(est: Estimator, text: string, n: nat, n': nat)
    requires Usable(est) && n <= n' <= |text|
    ensures Tokens(est, |Truncated(text[..n]).text|) <= Tokens(est, |Truncated(text[..n']).text|)
  {
    assert text[..n'][..n] == text[..n];
    EscapeGrows(text[..n'], n);
    hide Tokens, Escape;
    TokensMonotone(est, |Truncated(text[..n]).text|, |Truncated(text[..n']).text|);
  }

  lemma SmallerExcessKeepsMore(est: Estimator, text: string, excess: int, excess': int)
    requires Usable(est) && excess' <= excess
    ensures HeadLength(est, text, excess) <= HeadLength(est, text, excess')
  {
    var c, d := est.charsPerToken, (excess - excess') as real;
    assert c * d >= 0.0;
    assert excess as real * c == excess' as real * c + c * d;
  }

  /** A cut that would not help does not help when less is to be saved. */
  lemma SmallerExcessHelpsLess(est: Estimator, p: Part, excess: int, excess': int)
    requires Usable(est) && excess' <= excess && CutHelps(est, p, excess')
    ensures CutHelps(est, p, excess)
  {
    hide Tokens, Truncated;
    var text := p.content.text;
    SmallerExcessKeepsMore(est, text, excess, excess');
    var n, n' := HeadLength(est, text, excess), HeadLength(est, text, excess');
    assert 500 <= n <= n';
    LongerHeadCostsMore(est, text, n, n');
  }

  lemma CutOrNot(est: Estimator, p: Part, excess: int)
    requires excess > 0 && CutHelps(est, CutTo(est, p, excess), excess)
    ensures false
  {
    hide Tokens, Escape, HeadLength;
  }

  /** A pass that ends over budget leaves no result that a cut would still make cheaper. */
  lemma {:induction false} CutsExhaust(est: Estimator, parts: seq<Part>, budget: int, running: int)
    requires Usable(est) && TruncateParts(est, parts, budget, running).running > budget
    ensures var t := TruncateParts(est, parts, budget, running);
            && t.running <= running
            && forall j :: 0 <= j < |parts| ==> !CutHelps(est, t.parts[j], t.running - budget)
  {
    hide CutSaves, CutTo, CutHelps, Usable, TruncateParts, Cuttable;
    var t := TruncateParts(est, parts, budget, running);
    TruncateStep(est, parts, budget, running);
    if parts != [] {
      FirstCut(est, parts, budget, running);
      var left := running - CutSaves(est, parts[0], CutTo(est, parts[0], running - budget));
      CutsExhaust(est, parts[1..], budget, left);
      if CutHelps(est, t.parts[0], t.running - budget) {
        SmallerExcessHelpsLess(est, t.parts[0], running - budget, t.running - budget);
        CutOrNot(est, parts[0], running - budget);
      }
      forall j | 0 < j < |parts| ensures !CutHelps(est, t.parts[j], t.running - budget) {
        assert t.parts[j] == TruncateParts(est, parts[1..], budget, left).parts[j - 1];
      }
    }
  }

  /** Cutting the newest request leaves nothing new to stub in the ones before it. */
  lemma TruncationKeepsStubbed(est: Estimator, ms: seq<Message>, budget: int, running: int)
    requires NothingToStub(est, ms)
    ensures NothingToStub(est, TruncateMessages(est, ms, budget, running).0)
  {
    hide StubHelps, LastRequest, TruncateMessages;
    LastRequestIs(ms);
    TruncationSame(est, ms, budget, running);
    var out := TruncateMessages(est, ms, budget, running).0;
    forall i, h, j | 0 <= i < h < |out| && out[i].Request? && out[h].Request? && 0 <= j < |out[i].parts|
      ensures !StubHelps(est, out[i].parts[j])
    {
      assert SameMessage(ms[i], out[i]) && SameMessage(ms[h], out[h]);
      assert i != LastRequest(ms) && out[i] == ms[i];
    }
  }

  lemma TruncationExhausts(est: Estimator, ms: seq<Message>, budget: int, running: int)
    requires Usable(est) && TruncateMessages(est, ms, budget, running).2 > budget
    ensures var (out, _, left) := TruncateMessages(est, ms, budget, running);
            LastRequest(out) >= 0 ==> NothingToCut(est, Newest(out), left - budget)
  {
    hide TruncateParts, CutHelps, LastRequest;
    LastRequestIs(ms);
    var out := TruncateMessages(est, ms, budget, running).0;
    TruncationSame(est, ms, budget, running);
    ShapeKeepsLastRequest(ms, out);
    if LastRequest(ms) >= 0 {
      CutsExhaust(est, ms[LastRequest(ms)].parts, budget, running);
    }
  }

  ghost predicate NothingToCut(est: Estimator, m: Message, excess: int) {
    forall j :: 0 <= j < |m.parts| ==> !CutHelps(est, m.parts[j], excess)
  }

  /** The slice kept can be read back: escaping loses nothing. */
  function Unescape(s: string): string {
    if s == "" then ""
    else if s[0] == '\\' && |s| > 1 then [s[1]] + Unescape(s[2..])
    else [s[0]] + Unescape(s[1..])
  }

  lemma {:induction false} EscapeIsReversible(s: string)
    ensures Unescape(Escape(s)) == s
  {
    if s != "" {
      EscapeIsReversible(s[1..]);
      var first := if s[0] == '"' || s[0] == '\\' then ['\\', s[0]] else [s[0]];
      assert Escape(s) == first + Escape(s[1..]);
      assert Escape(s)[|first|..] == Escape(s[1..]);
      assert [s[0]] + s[1..] == s;
    }
  }

  /** What is left of a cut result says so, and holds the slice. */
  lemma CutReadsBack(head: string)
    ensures var c := Truncated(head);
            && c.truncated && !c.elided
            && TRUNCATION_HEAD <= c.text && |c.text| >= |TRUNCATION_HEAD| + 2
            && c.text[|c.text| - 2..] == "\"}"
            && Unescape(c.text[|TRUNCATION_HEAD|..|c.text| - 2]) == head
  {
    EscapeIsReversible(head);
    var c := Truncated(head);
    assert c.text == TRUNCATION_HEAD + (Escape(head) + "\"}");
    assert c.text[|TRUNCATION_HEAD|..|c.text| - 2] == Escape(head);
  }

  predicate IsDigit(c: char) {
    '0' <= c <= '9'
  }

  /** The number a text of digits stands for. */
  function Value(s: string): int {
    if s == "" then 0 else 10 * Value(s[..|s| - 1]) + s[|s| - 1] as int - 48
  }

  ghost predicate Digits(s: string) {
    s != "" && forall k :: 0 <= k < |s| ==> IsDigit(s[k])
  }

  lemma DigitIs(d: nat)
    requires d < 10
    ensures IsDigit("0123456789"[d]) && "0123456789"[d] as int == 48 + d
  {
    assert d == 0 || d == 1 || d == 2 || d == 3 || d == 4 || d == 5 || d == 6 || d == 7 || d == 8 || d == 9;
  }

  lemma LastDigit(n: nat) returns (front: string, digit: char)
    ensures Decimal(n) == front + [digit] && front == if n < 10 then "" else Decimal(n / 10)
    ensures IsDigit(digit) && digit as int == 48 + n % 10
  {
    DigitIs(n % 10);
    front, digit := if n < 10 then "" else Decimal(n / 10), "0123456789"[n % 10];
  }

  lemma OneMoreDigit(s: string, digit: char)
    requires IsDigit(digit) && (s == "" || Digits(s))
    ensures Digits(s + [digit]) && Value(s + [digit]) == 10 * Value(s) + digit as int - 48
    ensures (s + [digit])[0] == if s == "" then digit else s[0]
  {
    assert (s + [digit])[..|s|] == s;
  }

  /** The count is printed in decimal, without leading zeros. */
  lemma {:induction false} DecimalIsRead(n: nat)
    ensures Digits(Decimal(n)) && Value(Decimal(n)) == n && (n > 0 ==> Decimal(n)[0] != '0')
  {
    var front, digit := LastDigit(n);
    assert Value("") == 0;
    hide Decimal, Digits, Value;
    if n >= 10 {
      DecimalIsRead(n / 10);
    }
    OneMoreDigit(front, digit);
  }

  /** The marker begins with its name and says how many turns it stands for. */
  lemma MarkerNamesTheCount(dropped: nat)
    ensures var text, at, n := MarkerPrompt(dropped), |TURN_DROP_MARKER| + 3, |Decimal(dropped)|;
            && at + n < |text| && TURN_DROP_MARKER <= text
            && text[at - 1] == ' ' && text[at + n] == ' '
            && Digits(text[at..at + n]) && Value(text[at..at + n]) == dropped
  {
    DecimalIsRead(dropped);
    hide Decimal, Digits, Value;
    var a, c, d := TURN_DROP_MARKER, Decimal(dropped), MARKER_TAIL;
    hide TURN_DROP_MARKER, MARKER_TAIL;
    Middle(a, " \U{2014} ", c, " ", d);
  }

  lemma Middle(a: string, b: string, c: string, d: string, e: string)
    requires b != "" && |d| == 1
    ensures var s, at := a + b + c + d + e, |a| + |b|;
            a <= s && s[at - 1] == b[|b| - 1] && s[at..at + |c|] == c && s[at + |c|] == d[0]
  {
  }

  // ----- The window -----

  /** What the window works with: the messages after pass 1, and the estimate of each pass. */
  ghost function Elided(est: Estimator, ms: seq<Message>, budget: int): (seq<Message>, nat, int) {
    Elision(est, ms, budget, EstimateTokens(est, ms))
  }

  lemma ElisionIsExact(est: Estimator, ms: seq<Message>, budget: int, running: int)
    ensures var savings := MessageSavings(est, ms, LastRequest(ms));
            var (_, k, left) := Elision(est, ms, budget, running);
            && k <= |savings| && left == running - Sum(savings[..k])
            && (forall j :: 0 <= j < k ==> running - Sum(savings[..j]) > budget)
  {
    hide MessageSavings, LastRequest, Sum, Stop, StubMessages;
    var savings := MessageSavings(est, ms, LastRequest(ms));
    forall j | 0 <= j < Elision(est, ms, budget, running).1 ensures running - Sum(savings[..j]) > budget {
      ElisionStopsAtFirstFit(est, ms, budget, running, j);
    }
  }

  lemma FitsAlready(est: Estimator, ms: seq<Message>, budget: int, running: int)
    requires running <= budget
    ensures Elision(est, ms, budget, running) == (ms, 0, running)
    ensures Sum(MessageSavings(est, ms, LastRequest(ms))[..0]) == 0
  {
    StubNoMessages(est, ms, LastRequest(ms));
  }

  lemma WithoutNone(est: Estimator, ms: seq<Message>, running: int)
    ensures Without(est, ms, running, 0) == running
  {
  }

  lemma SameDroppable(est: Estimator, ms: seq<Message>, budget: int, running: int)
    ensures Droppable(Elision(est, ms, budget, running).0) == Droppable(ms)
  {
    hide MessageSavings, LastRequest, StubMessages, SameShape, Boundaries, Stop;
    var protected := LastRequest(ms);
    var k := Stop(MessageSavings(est, ms, protected), running, budget);
    StubMessagesSame(est, ms, protected, k);
    SameBoundaries(ms, StubMessages(est, ms, protected, k));
  }

  /** The window does no more than it takes: it stubs only while the estimate is over budget, drops
      turns only if that was not enough and only while it is not, and cuts the newest request
      only after both. */
  lemma WindowIsFrugal(est: Estimator, ms: seq<Message>, budget: int)
    ensures var before, savings := EstimateTokens(est, ms), MessageSavings(est, ms, LastRequest(ms));
            var w := Window(est, ms, budget);
            var k, d := w.reduction.elided, w.reduction.dropped;
            var (m1, _, r1) := Elided(est, ms, budget);
            && k <= |savings| && d <= Droppable(m1)
            && r1 == before - Sum(savings[..k])
            && (forall j :: 0 <= j < k ==> before - Sum(savings[..j]) > budget)
            && (forall j :: 0 <= j < d ==> Without(est, m1, r1, j) > budget)
            && (w.reduction.truncated > 0 ==>
                  Without(est, m1, r1, d) + (if d == 0 then 0 else EstimateTokens(est, Marker(d))) > budget)
  {
    hide Elision, Dropping, TruncateMessages, EstimateTokens, MessageSavings, LastRequest, Sum, Without, Droppable,
        Marker;
    var before := EstimateTokens(est, ms);
    var (m1, k, r1) := Elided(est, ms, budget);
    ElisionIsExact(est, ms, budget, before);
    DroppingIsExact(est, m1, budget, r1);
    WithoutNone(est, m1, r1);
    if before <= budget {
      FitsAlready(est, ms, budget, before);
    }
  }


  /** The window gives up only when nothing is left to do: if its running estimate is still over
      budget, no result before the newest request is left to stub, every turn but the first and
      the last is gone unless the estimate fitted before the marker was counted, and no result
      of the newest request is left that a cut would make cheaper. */
  lemma WindowGivesUpOnlyWhen(est: Estimator, ms: seq<Message>, budget: int)
    requires Usable(est) && Window(est, ms, budget).running > budget
    ensures var w := Window(est, ms, budget);
            var (m1, _, r1) := Elided(est, ms, budget);
            && NothingToStub(est, w.messages)
            && w.reduction.dropped <= Droppable(ms) == Droppable(m1)
            && (w.reduction.dropped < Droppable(ms) <==>
                exists j :: 0 <= j < Droppable(m1) && Without(est, m1, r1, j) <= budget)
            && (LastRequest(w.messages) >= 0 ==> NothingToCut(est, Newest(w.messages), w.running - budget))
  {
    hide Elision, Dropping, TruncateMessages, EstimateTokens, NothingToStub, NothingToCut, Without, Droppable, Marker,
        LastRequest, Newest, Usable;
    var before := EstimateTokens(est, ms);
    var (m1, k, r1) := Elided(est, ms, budget);
    ElisionExhausts(est, ms, budget, before);
    SameDroppable(est, ms, budget, before);
    DroppingIsExact(est, m1, budget, r1);
    DroppingKeepsStubbed(est, m1, budget, r1);
    var (m2, d, r2) := Dropping(est, m1, budget, r1);
    TruncationKeepsStubbed(est, m2, budget, r2);
    TruncationExhausts(est, m2, budget, r2);
  }


  /** The estimate with which pass 3 would begin. */
  ghost function BeforeCuts(est: Estimator, ms: seq<Message>, budget: int): int
  {
    var d, (m1, _, r1) := Window(est, ms, budget).reduction.dropped, Elided(est, ms, budget);
    WindowIsFrugal(est, ms, budget);
    Without(est, m1, r1, d) + if d == 0 then 0 else EstimateTokens(est, Marker(d))
  }

  /** What goes out of the newest request: its results, in order, each cut exactly if the estimate is
      over budget when its turn comes and the cut helps, to the leading characters that excess
      leaves; the running estimate is what is left after that. */
  lemma NewestIsCutExactly(est: Estimator, ms: seq<Message>, budget: int)
    requires LastRequest(ms) >= 0
    ensures var w := Window(est, ms, budget);
            && LastRequest(w.messages) >= 0
            && var ps, qs := Newest(ms).parts, Newest(w.messages).parts;
            && CutInOrder(est, ps, qs, BeforeCuts(est, ms, budget), budget)
            && w.running == BeforeCuts(est, ms, budget) - Saved(est, ps, qs, |ps|)
  {
    hide Elision, Dropping, TruncateMessages, EstimateTokens, Without, Marker, LastRequest, CutInOrder, Saved;
    var before := EstimateTokens(est, ms);
    var (m1, k, r1) := Elided(est, ms, budget);
    if before <= budget {
      FitsAlready(est, ms, budget, before);
    }
    WithoutNone(est, m1, r1);
    ElisionKeepsNewest(est, ms, budget, before);
    DroppingKeepsNewest(est, m1, budget, r1);
    DroppingIsExact(est, m1, budget, r1);
    var (m2, r2) := if r1 > budget then (Dropping(est, m1, budget, r1).0, Dropping(est, m1, budget, r1).2)
        else (m1, r1);
    assert r2 == BeforeCuts(est, ms, budget);
    LastRequestIs(m2);
    NewestAfterCuts(est, m2, budget, r2);
    if r2 <= budget {
      NothingToCutOff(est, Newest(ms).parts, r2, budget);
    }
  }

  lemma ElisionKeepsNewest(est: Estimator, ms: seq<Message>, budget: int, running: int)
    requires LastRequest(ms) >= 0
    ensures var out := Elision(est, ms, budget, running).0;
            LastRequest(out) >= 0 && Newest(out) == Newest(ms)
  {
    hide MessageSavings, LastRequest, StubMessages, SameShape, Stop;
    var protected := LastRequest(ms);
    LastRequestIs(ms);
    var k := Stop(MessageSavings(est, ms, protected), running, budget);
    StubMessagesSame(est, ms, protected, k);
    ShapeKeepsLastRequest(ms, StubMessages(est, ms, protected, k));
  }

  lemma NothingToCutOff(est: Estimator, ps: seq<Part>, start: int, budget: int)
    requires start <= budget
    ensures CutInOrder(est, ps, ps, start, budget) && Saved(est, ps, ps, |ps|) == 0
  {
    hide CutTo;
    NothingSaved(est, ps, |ps|);
    forall j | 0 <= j < |ps| ensures ps[j] == CutTo(est, ps[j], start - Saved(est, ps, ps, j) - budget) {
      NothingSaved(est, ps, j);
      NotCut(est, ps[j]);
    }
  }

  lemma {:induction false} NothingSaved(est: Estimator, ps: seq<Part>, j: nat)
    requires j <= |ps|
    ensures Saved(est, ps, ps, j) == 0
  {
    if j > 0 {
      NothingSaved(est, ps, j - 1);
    }
  }

  lemma NewestAfterCuts(est: Estimator, ms: seq<Message>, budget: int, running: int)
    requires LastRequest(ms) >= 0
    ensures var (out, _, left) := TruncateMessages(est, ms, budget, running);
            && LastRequest(out) >= 0
            && var ps, qs := Newest(ms).parts, Newest(out).parts;
            && CutInOrder(est, ps, qs, running, budget)
            && left == running - Saved(est, ps, qs, |ps|)
  {
    hide TruncateParts, LastRequest, CutTo, CutSaves, Saved;
    LastRequestIs(ms);
    var (out, _, left) := TruncateMessages(est, ms, budget, running);
    TruncationSame(est, ms, budget, running);
    ShapeKeepsLastRequest(ms, out);
    var ps := Newest(ms).parts;
    var qs := TruncateParts(est, ps, budget, running).parts;
    assert Newest(out).parts == qs;
    EstimateAtPart(est, ps, budget, running, |ps|);
    assert ps[..|ps|] == ps;
    forall j | 0 <= j < |ps| ensures qs[j] == CutTo(est, ps[j], running - Saved(est, ps, qs, j) - budget) {
      EstimateAtPart(est, ps, budget, running, j);
      CutsAreExact(est, ps, budget, running, j);
    }
  }

  // ----- A turn too many -----

  /** One turn is enough without the marker and not with it: the window stops there, over budget,
      with turns left to drop. */
  lemma MarkerIsNotReckonedWith(est: Estimator, ms: seq<Message>)
    requires Prose(ms) && Droppable(ms) > 1
    requires Without(est, ms, 0, 1) < 0 < EstimateTokens(est, Marker(1))
    ensures var budget := Without(est, ms, EstimateTokens(est, ms), 1);
            var w := Window(est, ms, budget);
            && w.running == budget + EstimateTokens(est, Marker(1))
            && w.reduction.dropped == 1
  {
    hide EstimateTokens, Marker, Elision, Dropping, TruncateMessages, Boundaries, Prose;
    var before := EstimateTokens(est, ms);
    var budget := Without(est, ms, before, 1);
    ProseIsNotElided(est, ms, budget, before);
    DroppingIsExact(est, ms, budget, before);
    WithoutNone(est, ms, before);
    var (m2, d, r2) := Dropping(est, ms, budget, before);
    BoundariesAreAscending(ms);
    DroppedIs(est, ms, budget, before);
    ProseStays(ms, Boundaries(ms), d);
    ProseIsNotCut(est, m2, budget, r2);
  }

  lemma DroppedIs(est: Estimator, ms: seq<Message>, budget: int, running: int)
    requires Ascending(Boundaries(ms), |ms|)
    ensures var (out, d, _) := Dropping(est, ms, budget, running);
            (d > 0 ==> d + 1 < |Boundaries(ms)|) && out == WithoutTurns(ms, Boundaries(ms), d)
  {
    hide EstimateTokens, Marker, Boundaries, Sum, Stop;
  }

  function FourTurns(): seq<Message> {
    [ Request([UserPrompt("Hi")]), Response([Text("Hi")]),
      Request([UserPrompt("And?")]), Response([Text("ok")]),
      Request([UserPrompt("And?")]), Response([Text("ok")]),
      Request([UserPrompt("Bye")]), Response([Text("Bye")]) ]
  }

  /** Such a chat: two turns could go, one goes, and the window gives up over budget. */
  lemma ATurnTooMany()
    ensures Droppable(FourTurns()) == 2
    ensures var est := Estimator(3.0, 0, 0, 0);
            var budget := Without(est, FourTurns(), EstimateTokens(est, FourTurns()), 1);
            var w := Window(est, FourTurns(), budget);
            w.running > budget && w.reduction.dropped == 1
  {
    hide *;
    var est, ms := Estimator(3.0, 0, 0, 0), FourTurns();
    FourTurnsAre();
    SecondTurnCosts(est);
    MarkerCosts(est, 1);
    MarkerIsNotReckonedWith(est, ms);
    WithoutOne(est, ms, EstimateTokens(est, ms));
  }

  lemma FourTurnsAre()
    ensures Boundaries(FourTurns()) == [0, 2, 4, 6] && Droppable(FourTurns()) == 2 && Prose(FourTurns())
  {
    var ms := FourTurns();
    hide IsBoundary, Boundaries;
    PromptsAndTexts("Hi", "Hi");
    PromptsAndTexts("And?", "ok");
    PromptsAndTexts("Bye", "Bye");
    FourBoundaries(ms);
  }

  lemma PromptsAndTexts(prompt: string, text: string)
    ensures IsBoundary(Request([UserPrompt(prompt)])) && !IsBoundary(Response([Text(text)]))
  {
    assert Request([UserPrompt(prompt)]).parts[0].UserPrompt?;
  }

  lemma FourBoundaries(ms: seq<Message>)
    requires |ms| == 8
    requires forall i :: 0 <= i < 8 ==> (IsBoundary(ms[i]) <==> i % 2 == 0)
    ensures Boundaries(ms) == [0, 2, 4, 6]
  {
    hide IsBoundary;
    assert BoundariesFrom(ms, 8) == [];
    assert BoundariesFrom(ms, 7) == [];
    assert BoundariesFrom(ms, 6) == [6];
    assert BoundariesFrom(ms, 5) == [6];
    assert BoundariesFrom(ms, 4) == [4, 6];
    assert BoundariesFrom(ms, 3) == [4, 6];
    assert BoundariesFrom(ms, 2) == [2, 4, 6];
    assert BoundariesFrom(ms, 1) == [2, 4, 6];
  }

  lemma TokensPositive(est: Estimator, n: nat)
    requires est.charsPerToken == 3.0 && n >= 3
    ensures Tokens(est, n) > 0
  {
  }

  lemma SecondTurnCosts(est: Estimator)
    requires est.charsPerToken == 3.0
    ensures Droppable(FourTurns()) == 2 && Without(est, FourTurns(), 0, 1) < 0
  {
    hide MessagesSize, Tokens;
    FourTurnsAre();
    hide Boundaries;
    var ms := FourTurns();
    assert ms[2..4] == [Request([UserPrompt("And?")]), Response([Text("ok")])];
    TurnSize(est, "And?", "ok");
    TokensPositive(est, DumpSize(est, ms[2..4]));
    BoundariesAreAscending(ms);
    var costs := TurnCosts(est, ms, Boundaries(ms));
    assert costs[..1] == [EstimateTokens(est, ms[2..4])];
    SumSnoc([], costs[0]);
    assert [] + [costs[0]] == [costs[0]];
    NoSize(est);
  }

  lemma MarkerCosts(est: Estimator, d: nat)
    requires est.charsPerToken == 3.0
    ensures EstimateTokens(est, Marker(d)) > 0
  {
    hide MessagesSize, Tokens, MarkerPrompt;
    TurnSize(est, MarkerPrompt(d), MARKER_REPLY);
    assert Marker(d) == [Request([UserPrompt(MarkerPrompt(d))]), Response([Text(MARKER_REPLY)])];
    assert DumpSize(est, Marker(d)) >= 3;
    TokensPositive(est, DumpSize(est, Marker(d)));
  }

  lemma WithoutOne(est: Estimator, ms: seq<Message>, running: int)
    requires Droppable(ms) >= 1
    ensures Without(est, ms, running, 1) == running + Without(est, ms, 0, 1)
  {
    hide Boundaries, Sum, EstimateTokens;
    assert Without(est, ms, 0, 1) == 0 - (running - Without(est, ms, running, 1));
  }
}
