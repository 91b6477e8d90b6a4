/** The per-request tool guard (`_RequestGuardToolset`, `src/vestigo/agent/runtime.py`).

    Between two `await`s the event loop runs a call without interruption, so each
    such stretch is one atomic step.  `GuardState` is the guard's memory, the
    functions below are its atomic stretches, and the class is the object that
    performs them.  Futures live in a growing table; an index is a reference. */
module RequestGuard {
  import opened Options

  /** `(name, json.dumps(tool_args, sort_keys=True))` */
  datatype Key = Key(name: string, args: string)

  /** The future a call plants: `Resolved(false)` once the tool produced a result. */
  datatype Future = Pending | Resolved(raised: bool)

  datatype Claim = Claim(callId: string, future: nat)

  datatype GuardState = GuardState(
    step: Option<int>,
    seen: map<Key, Claim>,
    bytes: nat,
    futures: seq<Future>,
    duplicateCalls: nat,
    resultsCapped: nat)

  /** What the loop head decides: run the tool, or wait for an earlier call. */
  datatype Entry = Execute(future: nat) | Await(claim: Claim)

  /** What `call_tool` gives back once the tool has answered. */
  datatype Reply = Whole | Capped

  /** A missing or empty id is replaced by a phrase. */
  function CallId(toolCallId: string): string {
    if toolCallId == "" then "an earlier identical call" else toolCallId
  }

  function Reset(g: GuardState, step: int): GuardState {
    if g.step == Some(step) then g
    else g.(step := Some(step), seen := map[], bytes := 0)
  }

  /** The loop head: claim the slot with a fresh future, or find it taken. */
  function Enter(g: GuardState, key: Key, callId: string): (GuardState, Entry) {
    if key in g.seen then
      (g, Await(g.seen[key]))
    else
      var f := |g.futures|;
      (g.(seen := g.seen[key := Claim(callId, f)], futures := g.futures + [Pending]), Execute(f))
  }

  /** The wrapped call raised: forget the claim if it is still ours, and tell the waiters. */
  function Fail(g: GuardState, key: Key, done: nat): GuardState
    requires done < |g.futures|
  {
    var mine := key in g.seen && g.seen[key].future == done;
    g.(seen := (if mine then g.seen - {key} else g.seen),
       futures := g.futures[done := Resolved(true)])
  }

  predicate OverCeiling(g: GuardState, ceiling: nat, size: nat) {
    ceiling != 0 && g.bytes > 0 && g.bytes + size > ceiling
  }

  /** The wrapped call returned a result whose JSON text has `size` characters. */
  function Succeed(g: GuardState, ceiling: nat, done: nat, size: nat): (GuardState, Reply)
    requires done < |g.futures|
  {
    var told := g.(futures := g.futures[done := Resolved(false)]);
    if OverCeiling(g, ceiling, size) then
      (told.(resultsCapped := g.resultsCapped + 1), Capped)
    else
      (told.(bytes := g.bytes + size), Whole)
  }

  function CountDuplicate(g: GuardState): GuardState {
    g.(duplicateCalls := g.duplicateCalls + 1)
  }

  class Guard {
    const byteCeiling: nat
    var step: Option<int>
    var seen: map<Key, Claim>
    var bytes: nat
    var futures: seq<Future>
    var duplicateCalls: nat
    var resultsCapped: nat

    ghost function Snapshot(): GuardState
      reads this
    {
      GuardState(step, seen, bytes, futures, duplicateCalls, resultsCapped)
    }

    constructor (byteCeiling: nat)
      ensures this.byteCeiling == byteCeiling
      ensures Snapshot() == GuardState(None, map[], 0, [], 0, 0)
    {
      this.byteCeiling := byteCeiling;
      step, seen, bytes, futures := None, map[], 0, [];
      duplicateCalls, resultsCapped := 0, 0;
    }

    method ResetForStep(runStep: int)
      modifies this
      ensures Snapshot() == Reset(old(Snapshot()), runStep)
    {
      if step != Some(runStep) {
        step := Some(runStep);
        seen := map[];
        bytes := 0;
      }
    }

    /** One turn of the retry loop, up to its first `await`. */
    method LoopHead(key: Key, callId: string) returns (entry: Entry)
      modifies this
      ensures (Snapshot(), entry) == Enter(old(Snapshot()), key, callId)
    {
      if key !in seen {
        var done := |futures|;
        futures := futures + [Pending];
        seen := seen[key := Claim(callId, done)];
        return Execute(done);
      }
      return Await(seen[key]);
    }

    /** From the call's first line to its first `await`. */
    method Begin(runStep: int, key: Key, toolCallId: string) returns (entry: Entry)
      modifies this
      ensures (Snapshot(), entry) == Enter(Reset(old(Snapshot()), runStep), key, CallId(toolCallId))
    {
      ResetForStep(runStep);
      entry := LoopHead(key, CallId(toolCallId));
    }

    /** After a resolved wait: answer with a back-reference, or try to claim the slot again. */
    method Resume(key: Key, toolCallId: string, first: Claim)
        returns (duplicateOf: Option<string>, entry: Option<Entry>)
      requires first.future < |futures| && futures[first.future].Resolved?
      modifies this
      ensures var before := old(Snapshot());
              if before.futures[first.future].raised then
                && duplicateOf == None && entry.Some?
                && (Snapshot(), entry.value) == Enter(before, key, CallId(toolCallId))
              else
                && duplicateOf == Some(first.callId) && entry == None
                && Snapshot() == CountDuplicate(before)
    {
      if !futures[first.future].raised {
        duplicateCalls := duplicateCalls + 1;
        return Some(first.callId), None;
      }
      var again := LoopHead(key, CallId(toolCallId));
      return None, Some(again);
    }

    method ToolRaised(key: Key, done: nat)
      requires done < |futures|
      modifies this
      ensures Snapshot() == Fail(old(Snapshot()), key, done)
    {
      if key in seen && seen[key].future == done {
        seen := seen - {key};
      }
      futures := futures[done := Resolved(true)];
    }

    method ToolReturned(done: nat, size: nat) returns (reply: Reply)
      requires done < |futures|
      modifies this
      ensures (Snapshot(), reply) == Succeed(old(Snapshot()), byteCeiling, done, size)
    {
      futures := futures[done := Resolved(false)];
      if byteCeiling != 0 && bytes > 0 && bytes + size > byteCeiling {
        resultsCapped := resultsCapped + 1;
        return Capped;
      }
      bytes := bytes + size;
      return Whole;
    }
  }
}
