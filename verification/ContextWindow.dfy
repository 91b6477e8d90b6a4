/** The sliding context window (`src/vestigo/agent/window.py`): messages, their
    estimated size, and what each of the three reduction passes does to them. */
module ContextWindow {

  // ----- Messages -----

  /** A tool result: its `json.dumps` text, and what `_is_stub` and `_is_truncated` read from it. */
  datatype Content = Content(text: string, elided: bool, truncated: bool)

  /** `frame` is the JSON text of a part apart from its content. */
  datatype Part =
    | UserPrompt(prompt: string)
    | ToolReturn(callId: string, content: Content, frame: nat)
    | ToolCall(callId: string, frame: nat)
    | Text(text: string)
    | OtherPart(frame: nat)

  datatype Message = Request(parts: seq<Part>) | Response(parts: seq<Part>)

  // ----- Sizes -----

  const CHARS_PER_TOKEN_MIN := 1.5
  const MIN_KEEP_CHARS: nat := 500

  /** The divisor of the estimate, and the JSON text around prompts, prose and messages. */
  datatype Estimator = Estimator(charsPerToken: real, promptFrame: nat, textFrame: nat, messageFrame: nat)

  ghost predicate Usable(est: Estimator) {
    est.charsPerToken >= CHARS_PER_TOKEN_MIN
  }

  function PartSize(est: Estimator, p: Part): nat {
    match p
    case UserPrompt(prompt) => est.promptFrame + |prompt|
    case ToolReturn(_, content, frame) => frame + |content.text|
    case ToolCall(_, frame) => frame
    case Text(text) => est.textFrame + |text|
    case OtherPart(frame) => frame
  }

  function PartsSize(est: Estimator, parts: seq<Part>): nat {
    if parts == [] then 0 else PartSize(est, parts[0]) + 1 + PartsSize(est, parts[1..])
  }

  function MessageSize(est: Estimator, m: Message): nat {
    est.messageFrame + PartsSize(est, m.parts)
  }

  /** Each message with the comma or bracket that follows it. */
  function MessagesSize(est: Estimator, ms: seq<Message>): nat {
    if ms == [] then 0 else MessageSize(est, ms[0]) + 1 + MessagesSize(est, ms[1..])
  }

  /** The length of the JSON dump of a list. */
  function DumpSize(est: Estimator, ms: seq<Message>): nat {
    if ms == [] then 2 else 1 + MessagesSize(est, ms)
  }

  /** `int(chars / chars_per_token)` */
  function Tokens(est: Estimator, chars: int): int {
    if est.charsPerToken == 0.0 then 0 else (chars as real / est.charsPerToken).Floor
  }

  function EstimateTokens(est: Estimator, ms: seq<Message>): int {
    Tokens(est, DumpSize(est, ms))
  }

  // ----- Turns -----

  function IsBoundary(m: Message): bool {
    m.Request? && exists j :: 0 <= j < |m.parts| && m.parts[j].UserPrompt?
  }

  /** `_user_turn_boundaries`, counted from index `from`. */
  function BoundariesFrom(ms: seq<Message>, from: nat): seq<nat>
    requires from <= |ms|
    decreases |ms| - from
  {
    if from == |ms| then []
    else (if IsBoundary(ms[from]) then [from] else []) + BoundariesFrom(ms, from + 1)
  }

  function Boundaries(ms: seq<Message>): seq<nat> {
    BoundariesFrom(ms, 0)
  }

  /** `_last_request_index` */
  function LastRequest(ms: seq<Message>): int {
    if ms == [] then -1
    else if ms[|ms| - 1].Request? then |ms| - 1
    else LastRequest(ms[..|ms| - 1])
  }

  // ----- Where a pass stops -----

  function Sum(s: seq<int>): int {
    if s == [] then 0 else s[0] + Sum(s[1..])
  }

  /** How many of the savings are taken, in order, before the estimate fits. */
  function Stop(savings: seq<int>, running: int, budget: int): (k: nat)
    ensures k <= |savings|
  {
    if savings == [] || running <= budget then 0
    else 1 + Stop(savings[1..], running - savings[0], budget)
  }

  /** The stopping point is the first one at which the estimate fits, or the end. */
  lemma {:induction false} StopIsFirstFit(savings: seq<int>, running: int, budget: int, j: nat)
    requires j <= |savings|
    ensures var k := Stop(savings, running, budget);
            && (j < k ==> running - Sum(savings[..j]) > budget)
            && (k < |savings| ==> running - Sum(savings[..k]) <= budget)
  {
    var k := Stop(savings, running, budget);
    if savings != [] && running > budget {
      if j > 0 {
        StopIsFirstFit(savings[1..], running - savings[0], budget, j - 1);
        assert savings[..j][0] == savings[0] && savings[..j][1..] == savings[1..][..j - 1];
      } else {
        StopIsFirstFit(savings[1..], running - savings[0], budget, 0);
      }
      assert savings[..k][0] == savings[0] && savings[..k][1..] == savings[1..][..k - 1];
    }
  }

  lemma {:induction false} SumConcat(a: seq<int>, b: seq<int>)
    ensures Sum(a + b) == Sum(a) + Sum(b)
  {
    if a == [] {
      assert a + b == b;
    } else {
      assert (a + b)[1..] == a[1..] + b;
      SumConcat(a[1..], b);
    }
  }

  lemma {:induction false} StopConcat(a: seq<int>, b: seq<int>, running: int, budget: int)
    ensures var k := Stop(a, running, budget);
            Stop(a + b, running, budget) == if k < |a| then k else |a| + Stop(b, running - Sum(a), budget)
  {
    if a == [] {
      assert a + b == b;
    } else if running > budget {
      assert (a + b)[1..] == a[1..] + b;
      StopConcat(a[1..], b, running - a[0], budget);
    }
  }

  // ----- Pass 1: elision -----

  /** `json.dumps` of the stub. */
  const STUB_TEXT: string :=
    "{\"elided\": true, \"note\": \"Result elided to fit the context window \\u2014 re-run the tool with narrower filters or use get_event to recover specifics.\"}"

  const STUB := Content(STUB_TEXT, true, false)

  function Saving(est: Estimator, p: Part): int
    requires p.ToolReturn?
  {
    Tokens(est, |p.content.text|) - Tokens(est, |STUB_TEXT|)
  }

  predicate Eligible(est: Estimator, p: Part) {
    p.ToolReturn? && !p.content.elided && Saving(est, p) > 0
  }

  /** The savings of a request's eligible parts, in order. */
  function PartSavings(est: Estimator, parts: seq<Part>): seq<int> {
    if parts == [] then []
    else (if Eligible(est, parts[0]) then [Saving(est, parts[0])] else []) + PartSavings(est, parts[1..])
  }

  /** The first `k` eligible parts stubbed. */
  function StubParts(est: Estimator, parts: seq<Part>, k: nat): (out: seq<Part>)
    ensures |out| == |parts|
  {
    if parts == [] then []
    else if k > 0 && Eligible(est, parts[0]) then
      [parts[0].(content := STUB)] + StubParts(est, parts[1..], k - 1)
    else
      [parts[0]] + StubParts(est, parts[1..], k)
  }

  predicate Elidable(ms: seq<Message>, protected: int)
    requires ms != []
  {
    protected != 0 && ms[0].Request?
  }

  /** The savings of all eligible parts outside the protected message, oldest first. */
  function MessageSavings(est: Estimator, ms: seq<Message>, protected: int): seq<int> {
    if ms == [] then []
    else
      (if Elidable(ms, protected) then PartSavings(est, ms[0].parts) else [])
      + MessageSavings(est, ms[1..], protected - 1)
  }

  function Min(a: nat, b: nat): nat {
    if a <= b then a else b
  }

  /** The oldest `k` eligible parts stubbed. */
  function StubMessages(est: Estimator, ms: seq<Message>, protected: int, k: nat): (out: seq<Message>)
    ensures |out| == |ms|
  {
    if ms == [] then []
    else if Elidable(ms, protected) then
      var here := Min(k, |PartSavings(est, ms[0].parts)|);
      [Request(StubParts(est, ms[0].parts, here))] + StubMessages(est, ms[1..], protected - 1, k - here)
    else
      [ms[0]] + StubMessages(est, ms[1..], protected - 1, k)
  }

  lemma {:induction false} StubNoParts(est: Estimator, parts: seq<Part>)
    ensures StubParts(est, parts, 0) == parts
  {
    if parts != [] {
      StubNoParts(est, parts[1..]);
    }
  }

  lemma {:induction false} StubNoMessages(est: Estimator, ms: seq<Message>, protected: int)
    ensures StubMessages(est, ms, protected, 0) == ms
  {
    if ms != [] {
      StubNoMessages(est, ms[1..], protected - 1);
      StubNoParts(est, ms[0].parts);
    }
  }

  /** One part of the inner loop, with `k` stubs to go and the estimate over budget. */
  lemma PartStep(est: Estimator, rest: seq<Part>, left: int, budget: int)
    requires rest != [] && left > budget
    ensures var tail := rest[1..];
            var k := Stop(PartSavings(est, rest), left, budget);
            if Eligible(est, rest[0]) then
              var saving := Saving(est, rest[0]);
              && PartSavings(est, rest) == [saving] + PartSavings(est, tail)
              && k == 1 + Stop(PartSavings(est, tail), left - saving, budget)
              && StubParts(est, rest, k) == [rest[0].(content := STUB)] + StubParts(est, tail, k - 1)
            else
              && PartSavings(est, rest) == PartSavings(est, tail)
              && StubParts(est, rest, k) == [rest[0]] + StubParts(est, tail, k)
  {
    if Eligible(est, rest[0]) {
      assert PartSavings(est, rest)[1..] == PartSavings(est, rest[1..]);
    } else {
      assert PartSavings(est, rest) == PartSavings(est, rest[1..]);
    }
  }

  lemma Ends(est: Estimator, running: int, budget: int)
    ensures PartSavings(est, []) == [] && Stop([], running, budget) == 0 && StubParts(est, [], 0) == []
    ensures Sum([]) == 0
    ensures forall savings :: running <= budget ==> Stop(savings, running, budget) == 0
  {
  }

  lemma SumSnoc(s: seq<int>, x: int)
    ensures Sum(s + [x]) == Sum(s) + x
  {
    SumConcat(s, [x]);
    assert [x][1..] == [];
  }

  lemma EligibleIs(est: Estimator, p: Part)
    ensures Eligible(est, p) <==>
            p.ToolReturn? && !p.content.elided && Tokens(est, |p.content.text|) - Tokens(est, |STUB_TEXT|) > 0
    ensures Eligible(est, p) ==> Saving(est, p) == Tokens(est, |p.content.text|) - Tokens(est, |STUB_TEXT|)
  {
    hide Tokens;
  }

  /** The inner loop between two parts: `done` is what became of the parts passed, `taken` the
      savings made on them. */
  ghost predicate AmongParts(est: Estimator, parts: seq<Part>, budget: int, running: int,
      done: seq<Part>, rest: seq<Part>, taken: seq<int>, left: int)
  {
    var total := Stop(PartSavings(est, parts), running, budget);
    && |taken| + Stop(PartSavings(est, rest), left, budget) == total
    && done + StubParts(est, rest, total - |taken|) == StubParts(est, parts, total)
    && taken + PartSavings(est, rest) == PartSavings(est, parts)
    && left == running - Sum(taken)
  }

  lemma PartsBegin(est: Estimator, parts: seq<Part>, budget: int, running: int)
    ensures AmongParts(est, parts, budget, running, [], parts, [], running)
  {
    hide StubParts, PartSavings, Stop;
    var total := Stop(PartSavings(est, parts), running, budget);
    assert [] + PartSavings(est, parts) == PartSavings(est, parts);
    assert [] + StubParts(est, parts, total) == StubParts(est, parts, total);
  }

  lemma PartPasses(est: Estimator, parts: seq<Part>, budget: int, running: int,
      done: seq<Part>, rest: seq<Part>, taken: seq<int>, left: int)
    requires AmongParts(est, parts, budget, running, done, rest, taken, left) && rest != [] && left > budget
    ensures var part := rest[0];
            if Eligible(est, part) then
              AmongParts(est, parts, budget, running, done + [part.(content := STUB)], rest[1..],
                         taken + [Saving(est, part)], left - Saving(est, part))
            else
              AmongParts(est, parts, budget, running, done + [part], rest[1..], taken, left)
  {
    hide StubParts, PartSavings, Stop, Sum, Tokens, Eligible, Saving;
    PartStep(est, rest, left, budget);
    EligibleIs(est, rest[0]);
    if Eligible(est, rest[0]) {
      SumSnoc(taken, Saving(est, rest[0]));
    }
  }

  lemma PartsEnd(est: Estimator, parts: seq<Part>, budget: int, running: int,
      done: seq<Part>, rest: seq<Part>, taken: seq<int>, left: int)
    requires AmongParts(est, parts, budget, running, done, rest, taken, left) && (rest == [] || left <= budget)
    ensures var savings := PartSavings(est, parts);
            && |taken| == Stop(savings, running, budget)
            && done + rest == StubParts(est, parts, |taken|)
            && left == running - Sum(savings[..|taken|])
  {
    hide StubParts, PartSavings, Stop, Sum;
    Ends(est, left, budget);
    StubNoParts(est, rest);
    assert taken == PartSavings(est, parts)[..|taken|];
  }

  /** The inner loop: stub a request's parts while the estimate is over budget. */
  method ElideParts(est: Estimator, parts: seq<Part>, budget: int, running: int)
      returns (out: seq<Part>, elided: nat, left: int)
    ensures var savings := PartSavings(est, parts);
            && elided == Stop(savings, running, budget)
            && out == StubParts(est, parts, elided)
            && left == running - Sum(savings[..elided])
  {
    hide StubParts, PartSavings, Stop, Sum, Tokens, Eligible, Saving, AmongParts;
    ghost var taken: seq<int>, rest: seq<Part>, done: seq<Part> := [], parts, [];
    var stubCost := Tokens(est, |STUB_TEXT|);
    out, elided, left := parts, 0, running;
    var j := 0;
    PartsBegin(est, parts, budget, running);
    while j < |parts| && left > budget
      invariant 0 <= j <= |parts| && |done| == j && |done| + |rest| == |parts|
      invariant out == done + rest && |taken| == elided
      invariant AmongParts(est, parts, budget, running, done, rest, taken, left)
      decreases |parts| - j
    {
      PartPasses(est, parts, budget, running, done, rest, taken, left);
      var part := out[j];
      assert part == rest[0];
      EligibleIs(est, part);
      if part.ToolReturn? && !part.content.elided && Tokens(est, |part.content.text|) - stubCost > 0 {
        var saving := Tokens(est, |part.content.text|) - stubCost;
        out := out[j := part.(content := STUB)];
        elided := elided + 1;
        left := left - saving;
        taken, done := taken + [saving], done + [part.(content := STUB)];
      } else {
        done := done + [part];
      }
      rest := rest[1..];
      j := j + 1;
    }
    PartsEnd(est, parts, budget, running, done, rest, taken, left);
  }

  lemma NoMessages(est: Estimator, protected: int)
    ensures MessageSavings(est, [], protected) == [] && StubMessages(est, [], protected, 0) == []
  {
  }

  /** A message the pass skips. */
  lemma SkipStep(est: Estimator, rest: seq<Message>, protected: int, k: nat)
    requires rest != [] && !Elidable(rest, protected)
    ensures MessageSavings(est, rest, protected) == MessageSavings(est, rest[1..], protected - 1)
    ensures StubMessages(est, rest, protected, k) == [rest[0]] + StubMessages(est, rest[1..], protected - 1, k)
  {
    assert MessageSavings(est, rest, protected) == [] + MessageSavings(est, rest[1..], protected - 1);
  }

  /** A message the pass works on. */
  lemma MessageStep(est: Estimator, rest: seq<Message>, protected: int, left: int, budget: int, k: nat, k0: nat)
    requires rest != [] && Elidable(rest, protected)
    requires k == Stop(MessageSavings(est, rest, protected), left, budget)
    requires k0 == Stop(PartSavings(est, rest[0].parts), left, budget)
    ensures var savings, tail := PartSavings(est, rest[0].parts), MessageSavings(est, rest[1..], protected - 1);
            var left' := left - Sum(savings[..k0]);
            && MessageSavings(est, rest, protected) == savings + tail
            && (left' <= budget || k0 == |savings|)
            && k == k0 + Stop(tail, left', budget)
            && StubMessages(est, rest, protected, k) ==
               [Request(StubParts(est, rest[0].parts, k0))] + StubMessages(est, rest[1..], protected - 1, k - k0)
  {
    var savings, tail := PartSavings(est, rest[0].parts), MessageSavings(est, rest[1..], protected - 1);
    StopConcat(savings, tail, left, budget);
    StopIsFirstFit(savings, left, budget, k0);
    assert k0 == |savings| ==> savings[..k0] == savings;
    Ends(est, left - Sum(savings[..k0]), budget);
    assert Min(k, |savings|) == k0;
  }

  lemma TakeSavings(taken: seq<int>, savings: seq<int>, tail: seq<int>, here: nat)
    requires here <= |savings|
    ensures (taken + savings[..here]) + (savings[here..] + tail) == taken + (savings + tail)
    ensures Sum(taken + savings[..here]) == Sum(taken) + Sum(savings[..here])
    ensures here == |savings| ==> savings[here..] + tail == tail
  {
    SumConcat(taken, savings[..here]);
    assert savings == savings[..here] + savings[here..];
  }

  /** The messages after pass 1, the number of stubs and the running estimate. */
  function Elision(est: Estimator, ms: seq<Message>, budget: int, running: int): (seq<Message>, nat, int) {
    var savings := MessageSavings(est, ms, LastRequest(ms));
    var k := Stop(savings, running, budget);
    (StubMessages(est, ms, LastRequest(ms), k), k, running - Sum(savings[..k]))
  }

  /** Pass 1 between two messages: `done` is what became of the messages passed, `taken` the
      savings made on them, `open` those not made. */
  ghost predicate AmongMessages(est: Estimator, ms: seq<Message>, protected: int, budget: int, running: int,
      done: seq<Message>, rest: seq<Message>, taken: seq<int>, open: seq<int>, left: int)
  {
    var all, p := MessageSavings(est, ms, protected), protected - |done|;
    var total := Stop(all, running, budget);
    && |taken| + Stop(MessageSavings(est, rest, p), left, budget) == total
    && done + StubMessages(est, rest, p, total - |taken|) == StubMessages(est, ms, protected, total)
    && taken + open == all && left == running - Sum(taken)
    && (left <= budget || open == MessageSavings(est, rest, p))
  }

  lemma MessagesBegin(est: Estimator, ms: seq<Message>, protected: int, budget: int, running: int)
    ensures AmongMessages(est, ms, protected, budget, running, [], ms, [], MessageSavings(est, ms, protected), running)
  {
    hide StubMessages, MessageSavings, Stop;
    var all := MessageSavings(est, ms, protected);
    var total := Stop(all, running, budget);
    assert [] + all == all;
    assert [] + StubMessages(est, ms, protected, total) == StubMessages(est, ms, protected, total);
  }

  lemma MessageSkipped(est: Estimator, ms: seq<Message>, protected: int, budget: int, running: int,
      done: seq<Message>, rest: seq<Message>, taken: seq<int>, open: seq<int>, left: int)
    requires AmongMessages(est, ms, protected, budget, running, done, rest, taken, open, left)
    requires rest != [] && !Elidable(rest, protected - |done|)
    ensures AmongMessages(est, ms, protected, budget, running, done + [rest[0]], rest[1..], taken, open, left)
  {
    hide StubMessages, MessageSavings, Stop, Sum;
    SkipStep(est, rest, protected - |done|, Stop(MessageSavings(est, ms, protected), running, budget) - |taken|);
  }

  lemma MessagePasses(est: Estimator, ms: seq<Message>, protected: int, budget: int, running: int,
      done: seq<Message>, rest: seq<Message>, taken: seq<int>, open: seq<int>, left: int, here: nat)
    requires AmongMessages(est, ms, protected, budget, running, done, rest, taken, open, left)
    requires rest != [] && left > budget && Elidable(rest, protected - |done|)
    requires here == Stop(PartSavings(est, rest[0].parts), left, budget)
    ensures var savings := PartSavings(est, rest[0].parts);
            AmongMessages(est, ms, protected, budget, running,
                          done + [Request(StubParts(est, rest[0].parts, here))], rest[1..], taken + savings[..here],
                          savings[here..] + MessageSavings(est, rest[1..], protected - |done| - 1),
                          left - Sum(savings[..here]))
  {
    hide StubParts, StubMessages, PartSavings, MessageSavings, Stop, Sum;
    var p, savings := protected - |done|, PartSavings(est, rest[0].parts);
    var total := Stop(MessageSavings(est, ms, protected), running, budget);
    MessageStep(est, rest, p, left, budget, total - |taken|, here);
    TakeSavings(taken, savings, MessageSavings(est, rest[1..], p - 1), here);
  }

  lemma MessagesEnd(est: Estimator, ms: seq<Message>, protected: int, budget: int, running: int,
      done: seq<Message>, rest: seq<Message>, taken: seq<int>, open: seq<int>, left: int)
    requires AmongMessages(est, ms, protected, budget, running, done, rest, taken, open, left)
    requires rest == [] || left <= budget
    ensures var savings := MessageSavings(est, ms, protected);
            && |taken| == Stop(savings, running, budget)
            && done + rest == StubMessages(est, ms, protected, |taken|)
            && left == running - Sum(savings[..|taken|])
  {
    hide StubMessages, MessageSavings, Stop, Sum;
    var p := protected - |done|;
    StopsHere(est, rest, p, left, budget);
    StubNoMessages(est, rest, p);
  }

  lemma StopsHere(est: Estimator, rest: seq<Message>, p: int, left: int, budget: int)
    requires rest == [] || left <= budget
    ensures Stop(MessageSavings(est, rest, p), left, budget) == 0
  {
  }

  /** Pass 1.  The eligible results are stubbed oldest first, and only as many as it takes. */
  method Elide(est: Estimator, messages: seq<Message>, budget: int, running: int)
      returns (out: seq<Message>, elided: nat, left: int)
    ensures (out, elided, left) == Elision(est, messages, budget, running)
  {
    hide StubParts, StubMessages, PartSavings, MessageSavings, Stop, Sum, Tokens, LastRequest, AmongMessages;
    var protected := LastRequest(messages);
    ghost var taken: seq<int>, open: seq<int> := [], MessageSavings(est, messages, protected);
    ghost var done: seq<Message>, rest: seq<Message> := [], messages;
    out, elided, left := messages, 0, running;
    MessagesBegin(est, messages, protected, budget, running);
    var i := 0;
    while i < |messages| && left > budget
      invariant 0 <= i <= |messages| && |done| == i && |done| + |rest| == |messages|
      invariant out == done + rest && |taken| == elided
      invariant AmongMessages(est, messages, protected, budget, running, done, rest, taken, open, left)
      decreases |messages| - i
    {
      var message := out[i];
      assert message == rest[0];
      if i == protected || !message.Request? {
        MessageSkipped(est, messages, protected, budget, running, done, rest, taken, open, left);
        done := done + [message];
      } else {
        ghost var savings := PartSavings(est, message.parts);
        var parts, here, after := ElideParts(est, message.parts, budget, left);
        MessagePasses(est, messages, protected, budget, running, done, rest, taken, open, left, here);
        open := savings[here..] + MessageSavings(est, rest[1..], protected - i - 1);
        taken := taken + savings[..here];
        if here > 0 {
          out := out[i := Request(parts)];
        } else {
          StubNoParts(est, message.parts);
        }
        done := done + [Request(parts)];
        elided := elided + here;
        left := after;
      }
      rest := rest[1..];
      i := i + 1;
    }
    MessagesEnd(est, messages, protected, budget, running, done, rest, taken, open, left);
  }

  // ----- Pass 2: whole turns -----

  const TURN_DROP_MARKER := "[Older turns dropped to fit the context window]"

  /** A number in decimal, as an f-string prints it. */
  function Decimal(n: nat): string {
    (if n < 10 then "" else Decimal(n / 10)) + ["0123456789"[n % 10]]
  }

  const MARKER_TAIL :=
    "earlier turn(s) removed. Earlier findings persist as annotations and proposals; use list_annotations or re-ask if something is missing."

  function MarkerPrompt(dropped: nat): string {
    TURN_DROP_MARKER + " \U{2014} " + Decimal(dropped) + " " + MARKER_TAIL
  }

  const MARKER_REPLY := "Understood. Continuing with the remaining context."

  /** The pair that stands for `dropped` turns. */
  function Marker(dropped: nat): seq<Message> {
    [ Request([UserPrompt(MarkerPrompt(dropped))]),
      Response([Text(MARKER_REPLY)]) ]
  }

  ghost predicate Ascending(b: seq<nat>, n: nat) {
    && (forall i, j :: 0 <= i < j < |b| ==> b[i] < b[j])
    && (forall i :: 0 <= i < |b| ==> b[i] < n)
  }

  /** The estimated cost of each turn but the first and the last: what dropping it saves. */
  function TurnCosts(est: Estimator, ms: seq<Message>, b: seq<nat>): (costs: seq<int>)
    requires Ascending(b, |ms|)
    ensures |costs| == if |b| > 2 then |b| - 2 else 0
  {
    seq(if |b| > 2 then |b| - 2 else 0, k requires 0 <= k && k < |b| - 2 => EstimateTokens(est, ms[b[k + 1]..b[k + 2]]))
  }

  /** Turns 1 to `dropped` replaced by the marker. */
  function WithoutTurns(ms: seq<Message>, b: seq<nat>, dropped: nat): seq<Message>
    requires Ascending(b, |ms|)
    requires dropped > 0 ==> dropped + 1 < |b|
  {
    if dropped == 0 then ms
    else ms[..b[1]] + Marker(dropped) + ms[b[dropped + 1]..]
  }

  lemma {:induction false} BoundariesAscend(ms: seq<Message>, from: nat)
    requires from <= |ms|
    ensures Ascending(BoundariesFrom(ms, from), |ms|)
    ensures forall i :: 0 <= i < |BoundariesFrom(ms, from)| ==>
              from <= BoundariesFrom(ms, from)[i] && IsBoundary(ms[BoundariesFrom(ms, from)[i]])
    decreases |ms| - from
  {
    if from < |ms| {
      BoundariesAscend(ms, from + 1);
    }
  }

  /** Every request with a user prompt is listed. */
  lemma {:induction false} BoundariesComplete(ms: seq<Message>, from: nat, i: nat)
    requires from <= i < |ms| && IsBoundary(ms[i])
    ensures exists k :: 0 <= k < |BoundariesFrom(ms, from)| && BoundariesFrom(ms, from)[k] == i
    decreases |ms| - from
  {
    var b := BoundariesFrom(ms, from);
    if i == from {
      assert b[0] == i;
    } else {
      BoundariesComplete(ms, from + 1, i);
      var rest := BoundariesFrom(ms, from + 1);
      var k :| 0 <= k < |rest| && rest[k] == i;
      var k' := if IsBoundary(ms[from]) then k + 1 else k;
      assert b[k'] == i;
    }
  }

  /** The messages after pass 2, the number of turns dropped and the running estimate. */
  function Dropping(est: Estimator, ms: seq<Message>, budget: int, running: int): (seq<Message>, nat, int) {
    var b := Boundaries(ms);
    BoundariesAreAscending(ms);
    var costs := TurnCosts(est, ms, b);
    var d := Stop(costs, running, budget);
    (WithoutTurns(ms, b, d), d, running - Sum(costs[..d]) + if d == 0 then 0 else EstimateTokens(est, Marker(d)))
  }

  lemma CostOf(est: Estimator, ms: seq<Message>, b: seq<nat>, k: nat)
    requires Ascending(b, |ms|) && 1 <= k < |b| - 1
    ensures b[k] <= b[k + 1] <= |ms|
    ensures |TurnCosts(est, ms, b)| == |b| - 2
    ensures TurnCosts(est, ms, b)[k - 1] == EstimateTokens(est, ms[b[k]..b[k + 1]])
  {
    hide EstimateTokens;
  }

  /** The loop of pass 2: count turns until the estimate fits. */
  method CountTurns(est: Estimator, messages: seq<Message>, b: seq<nat>, budget: int, running: int)
      returns (dropped: nat, left: int)
    requires Ascending(b, |messages|)
    ensures var costs := TurnCosts(est, messages, b);
            && dropped == Stop(costs, running, budget)
            && left == running - Sum(costs[..dropped])
  {
    hide *;
    ghost var costs := TurnCosts(est, messages, b);
    dropped, left := 0, running;
    Ends(est, running, budget);
    assert costs[..0] == [] && costs[0..] == costs;
    var k := 1;
    while k < |b| - 1
      invariant dropped == k - 1 <= |costs|
      invariant dropped + Stop(costs[dropped..], left, budget) == Stop(costs, running, budget)
      invariant left == running - Sum(costs[..dropped])
      decreases |b| - k
    {
      Ends(est, left, budget);
      if left <= budget {
        break;
      }
      CostOf(est, messages, b, k);
      var cost := EstimateTokens(est, messages[b[k]..b[k + 1]]);
      assert costs[dropped] == cost;
      ghost var rest := costs[dropped..];
      assert rest[0] == cost && rest[1..] == costs[dropped + 1..];
      StopStep(rest, left, budget);
      SumSnoc(costs[..dropped], cost);
      assert costs[..dropped] + [cost] == costs[..dropped + 1];
      left := left - cost;
      dropped := dropped + 1;
      k := k + 1;
    }
    Ends(est, left, budget);
    assert |costs| == dropped ==> costs[dropped..] == [];
  }

  /** Pass 2.  The oldest turns after the first are dropped, and only as many as it takes. */
  method DropTurns(est: Estimator, messages: seq<Message>, budget: int, running: int)
      returns (out: seq<Message>, dropped: nat, left: int)
    ensures (out, dropped, left) == Dropping(est, messages, budget, running)
  {
    hide Stop, Sum, EstimateTokens, Marker, Boundaries;
    var b := Boundaries(messages);
    assert Ascending(b, |messages|) by { BoundariesAreAscending(messages); }
    dropped, left := CountTurns(est, messages, b, budget, running);
    if dropped == 0 {
      return messages, 0, left;
    }
    var marker := Marker(dropped);
    out := messages[..b[1]] + marker + messages[b[dropped + 1]..];
    left := left + EstimateTokens(est, marker);
  }

  lemma BoundariesAreAscending(ms: seq<Message>)
    ensures Ascending(Boundaries(ms), |ms|)
    ensures forall i :: 0 <= i < |Boundaries(ms)| ==> IsBoundary(ms[Boundaries(ms)[i]])
  {
    BoundariesAscend(ms, 0);
  }

  lemma StopStep(savings: seq<int>, running: int, budget: int)
    requires savings != [] && running > budget
    ensures Stop(savings, running, budget) == 1 + Stop(savings[1..], running - savings[0], budget)
  {
  }

  // ----- Pass 3: the newest request -----

  const TRUNCATION_HEAD: string :=
    "{\"truncated\": true, \"note\": \"Result truncated to fit the context window \\u2014 only the beginning is shown; re-run the tool with narrower filters or use get_event for full records.\", \"head\": \""

  /** JSON escaping of text that `json.dumps` has already made printable ASCII. */
  function Escape(s: string): string {
    if s == "" then ""
    else (if s[0] == '"' || s[0] == '\\' then ['\\', s[0]] else [s[0]]) + Escape(s[1..])
  }

  function Truncated(head: string): Content {
    Content(TRUNCATION_HEAD + Escape(head) + "\"}", false, true)
  }

  function Max(a: int, b: int): int {
    if a <= b then b else a
  }

  /** How many leading characters of a result are kept. */
  function Keep(est: Estimator, text: string, budget: int, running: int): (keep: int)
    ensures keep >= MIN_KEEP_CHARS
  {
    Max(MIN_KEEP_CHARS, |text| - ((running - budget) as real * est.charsPerToken).Floor)
  }

  /** The part is a full result that a cut makes smaller. */
  predicate Cuttable(est: Estimator, p: Part, budget: int, running: int) {
    && p.ToolReturn? && !p.content.elided && !p.content.truncated
    && var keep := Keep(est, p.content.text, budget, running);
    && keep < |p.content.text|
    && Tokens(est, |p.content.text|) - Tokens(est, |Truncated(p.content.text[..keep]).text|) > 0
  }

  function Cut(est: Estimator, p: Part, budget: int, running: int): Part
    requires Cuttable(est, p, budget, running)
  {
    p.(content := Truncated(p.content.text[..Keep(est, p.content.text, budget, running)]))
  }

  function CutSaving(est: Estimator, p: Part, budget: int, running: int): int
    requires Cuttable(est, p, budget, running)
  {
    Tokens(est, |p.content.text|) - Tokens(est, |Cut(est, p, budget, running).content.text|)
  }

  datatype Truncation = Truncation(parts: seq<Part>, count: nat, running: int)

  /** Results cut in order, each by what the estimate is still over budget. */
  function TruncateParts(est: Estimator, parts: seq<Part>, budget: int, running: int): (t: Truncation)
    ensures |t.parts| == |parts|
  {
    if parts == [] || running <= budget then Truncation(parts, 0, running)
    else if Cuttable(est, parts[0], budget, running) then
      var rest := TruncateParts(est, parts[1..], budget, running - CutSaving(est, parts[0], budget, running));
      Truncation([Cut(est, parts[0], budget, running)] + rest.parts, rest.count + 1, rest.running)
    else
      var rest := TruncateParts(est, parts[1..], budget, running);
      Truncation([parts[0]] + rest.parts, rest.count, rest.running)
  }

  function TruncateMessages(est: Estimator, ms: seq<Message>, budget: int, running: int): (seq<Message>, nat, int) {
    var index := LastRequest(ms);
    if 0 <= index < |ms| then
      var t := TruncateParts(est, ms[index].parts, budget, running);
      (ms[index := Request(t.parts)], t.count, t.running)
    else
      (ms, 0, running)
  }

  lemma {:induction false} LastRequestIs(ms: seq<Message>)
    ensures -1 <= LastRequest(ms) < |ms|
    ensures LastRequest(ms) >= 0 ==> ms[LastRequest(ms)].Request?
    ensures forall i :: LastRequest(ms) < i < |ms| ==> ms[i].Response?
  {
    if ms != [] && !ms[|ms| - 1].Request? {
      LastRequestIs(ms[..|ms| - 1]);
    }
  }

  lemma {:induction false} NothingCut(est: Estimator, parts: seq<Part>, budget: int, running: int)
    ensures TruncateParts(est, parts, budget, running).count == 0 ==>
              TruncateParts(est, parts, budget, running).parts == parts
  {
    if parts != [] && running > budget && !Cuttable(est, parts[0], budget, running) {
      NothingCut(est, parts[1..], budget, running);
    }
  }

  lemma TruncateStep(est: Estimator, rest: seq<Part>, budget: int, running: int)
    ensures rest == [] || running <= budget ==>
              TruncateParts(est, rest, budget, running) == Truncation(rest, 0, running)
    ensures rest != [] && running > budget && Cuttable(est, rest[0], budget, running) ==>
              var t := TruncateParts(est, rest[1..], budget, running - CutSaving(est, rest[0], budget, running));
              TruncateParts(est, rest, budget, running) ==
              Truncation([Cut(est, rest[0], budget, running)] + t.parts, t.count + 1, t.running)
    ensures rest != [] && running > budget && !Cuttable(est, rest[0], budget, running) ==>
              var t := TruncateParts(est, rest[1..], budget, running);
              TruncateParts(est, rest, budget, running) == Truncation([rest[0]] + t.parts, t.count, t.running)
  {
  }

  /** Pass 3.  The newest request's results are cut to a leading slice, as far as it takes. */
  method TruncateNewest(est: Estimator, messages: seq<Message>, budget: int, running: int)
      returns (out: seq<Message>, truncated: nat, left: int)
    ensures (out, truncated, left) == TruncateMessages(est, messages, budget, running)
  {
    hide TruncateParts, LastRequest, Truncated, Keep, Tokens;
    var index := LastRequest(messages);
    assert -1 <= index < |messages| && (index >= 0 ==> messages[index].Request?) by { LastRequestIs(messages); }
    if index < 0 {
      return messages, 0, running;
    }
    var message := messages[index];
    ghost var total := TruncateParts(est, message.parts, budget, running);
    ghost var done: seq<Part>, rest: seq<Part> := [], message.parts;
    var parts := message.parts;
    truncated, left := 0, running;
    var j := 0;
    while j < |parts|
      invariant 0 <= j <= |parts| == |message.parts| && |done| == j
      invariant parts == done + rest
      invariant var t := TruncateParts(est, rest, budget, left);
                total == Truncation(done + t.parts, truncated + t.count, t.running)
      decreases |parts| - j
    {
      TruncateStep(est, rest, budget, left);
      if left <= budget {
        break;
      }
      var part := parts[j];
      assert part == rest[0];
      if Cuttable(est, part, budget, left) {
        var keep := Keep(est, part.content.text, budget, left);
        var content := Truncated(part.content.text[..keep]);
        var saving := Tokens(est, |part.content.text|) - Tokens(est, |content.text|);
        parts := parts[j := part.(content := content)];
        truncated := truncated + 1;
        left := left - saving;
        done := done + [part.(content := content)];
      } else {
        done := done + [part];
      }
      rest := rest[1..];
      j := j + 1;
    }
    TruncateStep(est, rest, budget, left);
    if truncated > 0 {
      out := messages[index := Request(parts)];
    } else {
      NothingCut(est, message.parts, budget, running);
      assert messages[index := Request(message.parts)] == messages;
      out := messages;
    }
  }

  // ----- The window -----

  /** What one request's reduction records. */
  datatype Reduction = Reduction(elided: nat, truncated: nat, dropped: nat, before: int, after: int)

  /** The outcome of the three passes, with the running estimate they ended on. */
  datatype Windowed = Windowed(messages: seq<Message>, reduction: Reduction, running: int)

  /** The three passes in order, each only while the running estimate is over budget. */
  function Window(est: Estimator, ms: seq<Message>, budget: int): Windowed {
    var before := EstimateTokens(est, ms);
    if before <= budget then Windowed(ms, Reduction(0, 0, 0, before, before), before)
    else
      var (m1, elided, r1) := Elision(est, ms, budget, before);
      var (m2, dropped, r2) := if r1 > budget then Dropping(est, m1, budget, r1) else (m1, 0, r1);
      var (m3, truncated, r3) := if r2 > budget then TruncateMessages(est, m2, budget, r2) else (m2, 0, r2);
      Windowed(m3, Reduction(elided, truncated, dropped, before, EstimateTokens(est, m3)), r3)
  }

  /** `apply_window` */
  method ApplyWindow(est: Estimator, messages: seq<Message>, budget: int)
      returns (out: seq<Message>, reduction: Reduction)
    ensures out == Window(est, messages, budget).messages
    ensures reduction == Window(est, messages, budget).reduction
  {
    hide Elision, Dropping, TruncateMessages, EstimateTokens;
    var before := EstimateTokens(est, messages);
    if before <= budget {
      return messages, Reduction(0, 0, 0, before, before);
    }
    var elided, running;
    var dropped, truncated := 0, 0;
    out, elided, running := Elide(est, messages, budget, before);
    if running > budget {
      out, dropped, running := DropTurns(est, out, budget, running);
    }
    if running > budget {
      out, truncated, running := TruncateNewest(est, out, budget, running);
    }
    reduction := Reduction(elided, truncated, dropped, before, EstimateTokens(est, out));
  }
}
