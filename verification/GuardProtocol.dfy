/** Every interleaving of parallel tool calls through the request guard.

    A `System` is a set of calls, where each one stands, and the guard.  An
    `Event` lets one call run to its next `await`; a run is any sequence of
    enabled events.  Calls of different steps may overlap: only the results in
    the last section assume that they do not. */
module GuardProtocol {
  import opened Options
  import opened RequestGuard

  datatype Call = Call(step: int, key: Key, toolCallId: string)

  /** How a call ended.  A call that ran the tool remembers the future it planted,
      an emitted result also the number of resets before it. */
  datatype Outcome =
    | Emitted(size: nat, epoch: nat, future: nat)
    | Withheld(size: nat, future: nat)
    | Raised(future: nat)
    | Duplicate(first: Claim)

  datatype Phase =
    | Start
    | Waiting(first: Claim)
    | Executing(future: nat)
    | Finished(outcome: Outcome)

  /** `owner[f]` is the call that planted future `f`, `claimed[f]` the epoch it
      did so in, `epoch` the number of resets so far and `opener` the size of the
      first result emitted since the last one: history, which no step reads. */
  datatype System = System(
    calls: seq<Call>,
    phases: seq<Phase>,
    guard: GuardState,
    ceiling: nat,
    owner: seq<nat>,
    claimed: seq<nat>,
    epoch: nat,
    opener: nat)

  datatype Event =
    | Begin(call: nat)
    | Resume(call: nat)
    | Return(call: nat, size: nat)
    | Raise(call: nat)

  function Initial(calls: seq<Call>, ceiling: nat): System {
    System(calls, seq(|calls|, _ => Start), GuardState(None, map[], 0, [], 0, 0), ceiling, [], [], 0, 0)
  }

  predicate Enabled(s: System, e: Event) {
    && e.call < |s.calls| == |s.phases|
    && match e
       case Begin(c) => s.phases[c].Start?
       case Resume(c) =>
         && s.phases[c].Waiting?
         && s.phases[c].first.future < |s.guard.futures|
         && s.guard.futures[s.phases[c].first.future].Resolved?
       case Return(c, size) => s.phases[c].Executing? && s.phases[c].future < |s.guard.futures|
       case Raise(c) => s.phases[c].Executing? && s.phases[c].future < |s.guard.futures|
  }

  /** Where a call stands after the loop head. */
  function Entered(s: System, c: nat, before: GuardState): System
    requires c < |s.calls| == |s.phases|
  {
    var (g, entry) := Enter(before, s.calls[c].key, CallId(s.calls[c].toolCallId));
    match entry
    case Await(first) => s.(guard := g, phases := s.phases[c := Waiting(first)])
    case Execute(f) =>
      s.(guard := g, phases := s.phases[c := Executing(f)], owner := s.owner + [c], claimed := s.claimed + [s.epoch])
  }

  function AfterReset(s: System, step: int): System {
    var opens := s.guard.step != Some(step);
    s.(guard := Reset(s.guard, step),
       epoch := if opens then s.epoch + 1 else s.epoch,
       opener := if opens then 0 else s.opener)
  }

  function Apply(s: System, e: Event): System
    requires Enabled(s, e)
  {
    match e
    case Begin(c) =>
      var r := AfterReset(s, s.calls[c].step);
      Entered(r, c, r.guard)
    case Resume(c) =>
      var first := s.phases[c].first;
      if s.guard.futures[first.future].raised then
        Entered(s, c, s.guard)
      else
        s.(guard := CountDuplicate(s.guard), phases := s.phases[c := Finished(Duplicate(first))])
    case Return(c, size) =>
      var (g, reply) := Succeed(s.guard, s.ceiling, s.phases[c].future, size);
      if reply.Whole? then
        s.(guard := g, phases := s.phases[c := Finished(Emitted(size, s.epoch, s.phases[c].future))],
           opener := if s.guard.bytes == 0 then size else s.opener)
      else
        s.(guard := g, phases := s.phases[c := Finished(Withheld(size, s.phases[c].future))])
    case Raise(c) =>
      s.(guard := Fail(s.guard, s.calls[c].key, s.phases[c].future),
          phases := s.phases[c := Finished(Raised(s.phases[c].future))])
  }

  /** `t` is reached from `s` by the events `es`, in order. */
  ghost predicate Run(s: System, es: seq<Event>, t: System)
    decreases |es|
  {
    if es == [] then s == t
    else Enabled(s, es[0]) && Run(Apply(s, es[0]), es[1..], t)
  }

  // ----- The invariant -----

  /** The tool ran and produced a result. */
  ghost predicate Completed(p: Phase) {
    p.Finished? && (p.outcome.Emitted? || p.outcome.Withheld?)
  }

  /** The call planted future `f`. */
  ghost predicate Planted(p: Phase, f: nat) {
    || p == Executing(f)
    || (p.Finished? && !p.outcome.Duplicate? && p.outcome.future == f)
  }

  /** What the state of the future a call planted says about that call. */
  ghost predicate Agrees(p: Phase, future: Future) {
    match future
    case Pending => p.Executing?
    case Resolved(false) => Completed(p)
    case Resolved(true) => p.Finished? && p.outcome.Raised?
  }

  ghost predicate Shape(s: System) {
    && |s.phases| == |s.calls|
    && |s.owner| == |s.claimed| == |s.guard.futures|
    && (forall f :: 0 <= f < |s.owner| ==> s.owner[f] < |s.calls|)
  }

  ghost predicate OwnerOk(s: System, f: nat)
    requires Shape(s) && f < |s.owner|
  {
    Planted(s.phases[s.owner[f]], f) && Agrees(s.phases[s.owner[f]], s.guard.futures[f])
  }

  ghost predicate PlanterOk(s: System, c: nat)
    requires Shape(s) && c < |s.calls|
  {
    forall f: nat :: Planted(s.phases[c], f) ==> f < |s.owner| && s.owner[f] == c
  }

  /** `first` is the claim of a call with this key. */
  ghost predicate Names(s: System, key: Key, first: Claim)
    requires Shape(s)
  {
    && first.future < |s.owner|
    && s.calls[s.owner[first.future]].key == key
    && first.callId == CallId(s.calls[s.owner[first.future]].toolCallId)
  }

  /** Waiters and back-references name a call with their own key; the latter a completed one. */
  ghost predicate ReferenceOk(s: System, c: nat)
    requires Shape(s) && c < |s.calls|
  {
    match s.phases[c]
    case Waiting(first) => Names(s, s.calls[c].key, first)
    case Finished(Duplicate(first)) => Names(s, s.calls[c].key, first)
        && s.guard.futures[first.future] == Resolved(false)
    case _ => true
  }

  /** A claim that has not failed. */
  ghost predicate Live(s: System, f: nat)
    requires Shape(s) && f < |s.owner|
  {
    s.guard.futures[f] != Resolved(true)
  }

  ghost predicate SeenOk(s: System, k: Key)
    requires Shape(s) && k in s.guard.seen
  {
    && Names(s, k, s.guard.seen[k])
    && Live(s, s.guard.seen[k].future)
    && s.claimed[s.guard.seen[k].future] == s.epoch
  }

  /** A live claim of the current epoch is the one `seen` holds for its key. */
  ghost predicate Registered(s: System, f: nat)
    requires Shape(s) && f < |s.owner|
  {
    && s.claimed[f] <= s.epoch
    && (Live(s, f) && s.claimed[f] == s.epoch ==>
          var k := s.calls[s.owner[f]].key;
          k in s.guard.seen && s.guard.seen[k].future == f)
  }

  /** Single flight: two claims made in the same epoch for the same key are not both live. */
  ghost predicate Exclusive(s: System, f: nat, f': nat)
    requires Shape(s) && f < |s.owner| && f' < |s.owner|
  {
    f != f' && Live(s, f) && Live(s, f') && s.claimed[f] == s.claimed[f'] ==>
      s.calls[s.owner[f]].key != s.calls[s.owner[f']].key
  }

  ghost predicate Inv(s: System) {
    && Shape(s)
    && (forall f :: 0 <= f < |s.owner| ==> OwnerOk(s, f))
    && (forall c :: 0 <= c < |s.calls| ==> PlanterOk(s, c))
    && (forall c :: 0 <= c < |s.calls| ==> ReferenceOk(s, c))
    && (forall k :: k in s.guard.seen ==> SeenOk(s, k))
    && (forall f :: 0 <= f < |s.owner| ==> Registered(s, f))
    && (forall f, f' :: 0 <= f < |s.owner| && 0 <= f' < |s.owner| ==> Exclusive(s, f, f'))
  }

  lemma InitialInv(calls: seq<Call>, ceiling: nat)
    ensures Inv(Initial(calls, ceiling))
  {
  }

  lemma ResetInv(s: System, step: int)
    requires Inv(s)
    ensures Inv(AfterReset(s, step))
  {
    var t := AfterReset(s, step);
    forall f | 0 <= f < |t.owner| ensures OwnerOk(t, f) && Registered(t, f) {
      assert OwnerOk(s, f) && Registered(s, f);
    }
    forall c | 0 <= c < |t.calls| ensures PlanterOk(t, c) && ReferenceOk(t, c) {
      assert PlanterOk(s, c) && ReferenceOk(s, c);
    }
    forall f, f' | 0 <= f < |t.owner| && 0 <= f' < |t.owner| ensures Exclusive(t, f, f') {
      assert Exclusive(s, f, f');
    }
  }

  /** A call that has planted nothing owns nothing. */
  lemma NotAnOwner(s: System, c: nat)
    requires Inv(s) && c < |s.calls|
    requires s.phases[c].Start? || s.phases[c].Waiting?
    ensures forall f :: 0 <= f < |s.owner| ==> s.owner[f] != c
  {
    forall f | 0 <= f < |s.owner| ensures s.owner[f] != c {
      assert OwnerOk(s, f);
    }
  }

  /** Moving one call that owns nothing to a phase that plants nothing. */
  lemma BystanderInv(s: System, t: System, c: nat, p: Phase)
    requires Inv(s) && c < |s.calls|
    requires s.phases[c].Start? || s.phases[c].Waiting?
    requires forall f: nat :: !Planted(p, f)
    requires t == s.(phases := s.phases[c := p], guard := t.guard)
    requires t.guard.futures == s.guard.futures && t.guard.seen == s.guard.seen
    requires Shape(t) && ReferenceOk(t, c)
    ensures Inv(t)
  {
    NotAnOwner(s, c);
    forall f | 0 <= f < |t.owner| ensures OwnerOk(t, f) && Registered(t, f) {
      assert OwnerOk(s, f) && Registered(s, f);
    }
    forall d | 0 <= d < |t.calls| ensures PlanterOk(t, d) && ReferenceOk(t, d) {
      assert PlanterOk(s, d) && ReferenceOk(s, d);
    }
    forall k | k in t.guard.seen ensures SeenOk(t, k) {
      assert SeenOk(s, k);
    }
    forall f, f' | 0 <= f < |t.owner| && 0 <= f' < |t.owner| ensures Exclusive(t, f, f') {
      assert Exclusive(s, f, f');
    }
  }

  /** Claiming a free slot with a fresh future. */
  lemma ClaimInv(s: System, c: nat)
    requires Inv(s) && c < |s.calls|
    requires s.phases[c].Start? || s.phases[c].Waiting?
    requires s.calls[c].key !in s.guard.seen
    ensures Inv(Entered(s, c, s.guard))
  {
    var t := Entered(s, c, s.guard);
    var n := |s.owner|;
    var key := s.calls[c].key;
    NotAnOwner(s, c);
    assert t.owner[n] == c && t.claimed[n] == s.epoch && t.guard.futures[n] == Pending;
    assert t.guard.futures == s.guard.futures + [Pending] && t.phases == s.phases[c := Executing(n)];
    assert t.guard.seen == s.guard.seen[key := Claim(CallId(s.calls[c].toolCallId), n)];
    assert t.calls == s.calls && t.epoch == s.epoch;
    forall f | 0 <= f < n ensures t.owner[f] == s.owner[f] != c && t.claimed[f] == s.claimed[f] {
    }
    assert Shape(t);
    hide Entered;
    forall f | 0 <= f < |t.owner| ensures OwnerOk(t, f) {
      assert f < n ==> OwnerOk(s, f);
    }
    forall f | 0 <= f < |t.owner| ensures Registered(t, f) {
      assert f < n ==> Registered(s, f);
    }
    forall d | 0 <= d < |t.calls| ensures PlanterOk(t, d) {
      assert PlanterOk(s, d);
    }
    forall d | 0 <= d < |t.calls| ensures ReferenceOk(t, d) {
      assert ReferenceOk(s, d);
    }
    forall k | k in t.guard.seen ensures SeenOk(t, k) {
      assert k != key ==> SeenOk(s, k);
    }
    forall f, f' | 0 <= f < |t.owner| && 0 <= f' < |t.owner| ensures Exclusive(t, f, f') {
      if f < n && f' < n {
        assert Exclusive(s, f, f');
      } else if f < n {
        assert Registered(s, f);
      } else if f' < n {
        assert Registered(s, f');
      }
    }
  }

  /** The loop head keeps the invariant, for a call that has planted nothing yet. */
  lemma EnteredInv(s: System, c: nat)
    requires Inv(s) && c < |s.calls|
    requires s.phases[c].Start? || s.phases[c].Waiting?
    ensures Inv(Entered(s, c, s.guard))
  {
    var key := s.calls[c].key;
    if key in s.guard.seen {
      assert SeenOk(s, key);
      BystanderInv(s, Entered(s, c, s.guard), c, Waiting(s.guard.seen[key]));
    } else {
      ClaimInv(s, c);
    }
  }

  /** Resolving the future of an executing call, with or without dropping its claim. */
  lemma ResolveInv(s: System, t: System, c: nat, p: Phase, raised: bool)
    requires Inv(s) && c < |s.calls| && s.phases[c].Executing?
    requires var f := s.phases[c].future;
             && f < |s.owner|
             && Planted(p, f) && Agrees(p, Resolved(raised))
             && t.guard.futures == s.guard.futures[f := Resolved(raised)]
             && t.guard.seen == if raised then Fail(s.guard, s.calls[c].key, f).seen else s.guard.seen
    requires t == s.(phases := s.phases[c := p], guard := t.guard, opener := t.opener)
    ensures Inv(t)
  {
    var g := s.phases[c].future;
    assert PlanterOk(s, c);
    assert Shape(t);
    forall f | 0 <= f < |t.owner| ensures OwnerOk(t, f) && Registered(t, f) {
      assert OwnerOk(s, f) && Registered(s, f);
      assert f != g ==> s.owner[f] != c;
    }
    forall d | 0 <= d < |t.calls| ensures PlanterOk(t, d) {
      assert PlanterOk(s, d);
    }
    forall d | 0 <= d < |t.calls| ensures ReferenceOk(t, d) {
      ReferenceStays(s, t, c, d, g);
    }
    forall k | k in t.guard.seen ensures SeenOk(t, k) {
      assert SeenOk(s, k);
    }
    forall f, f' | 0 <= f < |t.owner| && 0 <= f' < |t.owner| ensures Exclusive(t, f, f') {
      assert Exclusive(s, f, f');
    }
  }

  /** A reference to a resolved claim is not to the one now being resolved. */
  lemma ReferenceStays(s: System, t: System, c: nat, d: nat, g: nat)
    requires Shape(s) && Shape(t) && c < |s.calls| && d < |s.calls| && g < |s.owner|
    requires ReferenceOk(s, d) && OwnerOk(s, g) && s.owner[g] == c && s.phases[c].Executing?
    requires t.calls == s.calls && t.owner == s.owner
    requires t.phases[c].Finished? && !t.phases[c].outcome.Duplicate?
    requires d != c ==> t.phases[d] == s.phases[d]
    requires forall f :: 0 <= f < |s.guard.futures| && f != g ==> t.guard.futures[f] == s.guard.futures[f]
    ensures ReferenceOk(t, d)
  {
    if d != c {
      match s.phases[d]
      case Finished(Duplicate(first)) =>
        assert first.future != g;
      case _ =>
    }
  }

  /** Every step of every call keeps the invariant, whatever else is in flight. */
  lemma StepInv(s: System, e: Event)
    requires Inv(s) && Enabled(s, e)
    ensures Inv(Apply(s, e))
    ensures Apply(s, e).calls == s.calls && Apply(s, e).ceiling == s.ceiling
  {
    hide Inv, Entered;
    assert Shape(s) by { InvShape(s); }
    EnteredKeeps(s, e.call, s.guard);
    var t := Apply(s, e);
    match e
    case Begin(c) =>
      var r := AfterReset(s, s.calls[c].step);
      ResetInv(s, s.calls[c].step);
      EnteredKeeps(r, c, r.guard);
      EnteredInv(r, c);
    case Resume(c) =>
      var first := s.phases[c].first;
      if s.guard.futures[first.future].raised {
        EnteredInv(s, c);
      } else {
        assert ReferenceOk(s, c) by { InvReference(s, c); }
        BystanderInv(s, t, c, Finished(Duplicate(first)));
      }
    case Return(c, size) =>
      ResolveInv(s, t, c, t.phases[c], false);
    case Raise(c) =>
      ResolveInv(s, t, c, t.phases[c], true);
  }

  lemma InvShape(s: System)
    requires Inv(s)
    ensures Shape(s)
  {
  }

  lemma InvReference(s: System, c: nat)
    requires Inv(s) && c < |s.calls|
    ensures ReferenceOk(s, c)
  {
  }

  lemma EnteredKeeps(s: System, c: nat, before: GuardState)
    requires c < |s.calls| == |s.phases|
    ensures var t := Entered(s, c, before);
            && t.calls == s.calls && t.ceiling == s.ceiling && t.epoch == s.epoch && t.opener == s.opener
            && t.guard.bytes == before.bytes && t.guard.step == before.step
            && t.guard.duplicateCalls == before.duplicateCalls && t.guard.resultsCapped == before.resultsCapped
            && |t.phases| == |s.phases| && t.phases == s.phases[c := t.phases[c]]
            && (t.phases[c].Waiting? || t.phases[c].Executing?)
  {
  }

  lemma {:induction false} RunInv(s: System, es: seq<Event>, t: System)
    requires Inv(s) && Run(s, es, t)
    ensures Inv(t)
    ensures t.calls == s.calls && t.ceiling == s.ceiling
    decreases |es|
  {
    hide Inv;
    if es != [] {
      StepInv(s, es[0]);
      RunInv(Apply(s, es[0]), es[1..], t);
    }
  }
}
