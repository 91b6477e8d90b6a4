/** What the request guard promises, over all runs. */
module GuardResults {
  import opened Options
  import opened RequestGuard
  import opened GuardProtocol

  /** The call is running the tool, or the tool has answered it. */
  ghost predicate HoldsSlot(p: Phase) {
    p.Executing? || Completed(p)
  }

  ghost function FutureOf(p: Phase): nat
    requires HoldsSlot(p)
  {
    if p.Executing? then p.future else p.outcome.future
  }

  /** The epoch in which a call claimed its slot. */
  ghost function EpochOf(s: System, c: nat): nat
    requires Inv(s) && c < |s.calls| && HoldsSlot(s.phases[c])
  {
    assert PlanterOk(s, c);
    assert Planted(s.phases[c], FutureOf(s.phases[c]));
    s.claimed[FutureOf(s.phases[c])]
  }

  lemma ReachableInv(calls: seq<Call>, ceiling: nat, es: seq<Event>, t: System)
    requires Run(Initial(calls, ceiling), es, t)
    ensures Inv(t) && t.calls == calls && t.ceiling == ceiling
  {
    InitialInv(calls, ceiling);
    RunInv(Initial(calls, ceiling), es, t);
  }

  /** At most one call per key and epoch runs the tool or was answered by it. */
  lemma SingleFlight(calls: seq<Call>, ceiling: nat, es: seq<Event>, t: System, c: nat, d: nat)
    requires Run(Initial(calls, ceiling), es, t)
    requires c < |calls| && d < |calls| && calls[c].key == calls[d].key
    ensures Inv(t) && t.calls == calls
    ensures HoldsSlot(t.phases[c]) && HoldsSlot(t.phases[d]) && EpochOf(t, c) == EpochOf(t, d) ==> c == d
  {
    ReachableInv(calls, ceiling, es, t);
    if HoldsSlot(t.phases[c]) && HoldsSlot(t.phases[d]) && EpochOf(t, c) == EpochOf(t, d) {
      var f, g := FutureOf(t.phases[c]), FutureOf(t.phases[d]);
      assert Planted(t.phases[c], f) && Planted(t.phases[d], g);
      assert PlanterOk(t, c) && PlanterOk(t, d);
      assert OwnerOk(t, f) && OwnerOk(t, g);
      assert Exclusive(t, f, g);
    }
  }

  /** A back-reference names another call with the same key whose tool run was answered. */
  lemma DuplicateNamesCompleted(calls: seq<Call>, ceiling: nat, es: seq<Event>, t: System, c: nat) returns (d: nat)
    requires Run(Initial(calls, ceiling), es, t)
    requires c < |calls| && |t.phases| == |calls|
    requires t.phases[c].Finished? && t.phases[c].outcome.Duplicate?
    ensures d < |calls| && d != c && calls[d].key == calls[c].key
    ensures t.phases[c].outcome.first.callId ==
            if calls[d].toolCallId == "" then "an earlier identical call" else calls[d].toolCallId
    ensures Completed(t.phases[d])
  {
    ReachableInv(calls, ceiling, es, t);
    assert ReferenceOk(t, c);
    var f := t.phases[c].outcome.first.future;
    assert OwnerOk(t, f);
    d := t.owner[f];
  }

  /** A waiting call waits for another call with its key: one that still runs, or one
      that has ended, and then the waiter can go on. */
  lemma WaiterHasOwner(calls: seq<Call>, ceiling: nat, es: seq<Event>, t: System, c: nat) returns (d: nat)
    requires Run(Initial(calls, ceiling), es, t)
    requires c < |calls| && |t.phases| == |calls| && t.phases[c].Waiting?
    ensures d < |calls| && d != c && calls[d].key == calls[c].key
    ensures t.phases[d] == Executing(t.phases[c].first.future) || Enabled(t, Resume(c))
  {
    ReachableInv(calls, ceiling, es, t);
    assert ReferenceOk(t, c);
    var f := t.phases[c].first.future;
    assert OwnerOk(t, f);
    d := t.owner[f];
  }

  /** No deadlock: while a call is unfinished, some call can step. */
  lemma Progress(calls: seq<Call>, ceiling: nat, es: seq<Event>, t: System, c: nat) returns (e: Event)
    requires Run(Initial(calls, ceiling), es, t)
    requires c < |calls| && |t.phases| == |calls| && !t.phases[c].Finished?
    ensures Enabled(t, e)
  {
    ReachableInv(calls, ceiling, es, t);
    match t.phases[c]
    case Start => e := Event.Begin(c);
    case Executing(f) =>
      assert PlanterOk(t, c) && Planted(t.phases[c], f);
      e := Event.Raise(c);
    case Waiting(first) =>
      var d := WaiterHasOwner(calls, ceiling, es, t, c);
      if Enabled(t, Event.Resume(c)) {
        e := Event.Resume(c);
      } else {
        assert PlanterOk(t, d) && Planted(t.phases[d], first.future);
        e := Event.Raise(d);
      }
  }

  // ----- Every run ends -----

  /** How much a call still has to do at most, in units of `n` = calls + 1. */
  ghost function Weight(p: Phase, futures: seq<Future>, n: nat): nat {
    match p
    case Start => n + 2
    case Executing(_) => n
    case Waiting(first) =>
      if first.future < |futures| && futures[first.future] == Resolved(true) then n + 2 else n + 1
    case Finished(_) => 0
  }

  ghost function Rank(ps: seq<Phase>, futures: seq<Future>, n: nat): nat {
    if ps == [] then 0 else Rank(ps[..|ps| - 1], futures, n) + Weight(ps[|ps| - 1], futures, n)
  }

  /** One call loses weight and the others keep theirs. */
  lemma {:induction false} RankDrops(ps: seq<Phase>, futures: seq<Future>, qs: seq<Phase>, futures': seq<Future>,
          n: nat, c: nat)
    requires |ps| == |qs| && c < |ps|
    requires forall d :: 0 <= d < |ps| && d != c ==> Weight(qs[d], futures', n) == Weight(ps[d], futures, n)
    requires Weight(qs[c], futures', n) < Weight(ps[c], futures, n)
    ensures Rank(qs, futures', n) < Rank(ps, futures, n)
  {
    var m := |ps| - 1;
    if c < m {
      RankDrops(ps[..m], futures, qs[..m], futures', n, c);
    } else {
      RankRises(ps[..m], futures, qs[..m], futures', n, 0);
    }
  }

  /** No call gains more than `step`. */
  lemma {:induction false} RankRises(ps: seq<Phase>, futures: seq<Future>, qs: seq<Phase>, futures': seq<Future>,
          n: nat, step: nat)
    requires |ps| == |qs|
    requires forall d :: 0 <= d < |ps| ==> Weight(qs[d], futures', n) <= Weight(ps[d], futures, n) + step
    ensures Rank(qs, futures', n) <= Rank(ps, futures, n) + step * |ps|
  {
    if ps != [] {
      var m := |ps| - 1;
      RankRises(ps[..m], futures, qs[..m], futures', n, step);
      assert step * |ps| == step * m + step;
    }
  }

  /** One call finishes, dropping `n`; the others gain at most one each. */
  lemma {:induction false} RankPaysForWaiters(ps: seq<Phase>, futures: seq<Future>, qs: seq<Phase>,
          futures': seq<Future>, n: nat, c: nat)
    requires |ps| == |qs| && c < |ps|
    requires forall d :: 0 <= d < |ps| && d != c ==> Weight(qs[d], futures', n) <= Weight(ps[d], futures, n) + 1
    requires Weight(qs[c], futures', n) + n <= Weight(ps[c], futures, n)
    ensures Rank(qs, futures', n) + n <= Rank(ps, futures, n) + |ps| - 1
  {
    var m := |ps| - 1;
    if c < m {
      RankPaysForWaiters(ps[..m], futures, qs[..m], futures', n, c);
    } else {
      RankRises(ps[..m], futures, qs[..m], futures', n, 1);
    }
  }

  ghost function RankOf(s: System): nat {
    Rank(s.phases, s.guard.futures, |s.calls| + 1)
  }

  /** Going through the loop head makes progress: a new wait is on a claim that has not failed. */
  lemma EnteredRank(s: System, c: nat)
    requires Inv(s) && c < |s.calls|
    requires s.phases[c].Start? ||
             (s.phases[c].Waiting? && s.phases[c].first.future < |s.guard.futures|
              && s.guard.futures[s.phases[c].first.future] == Resolved(true))
    ensures RankOf(Entered(s, c, s.guard)) < RankOf(s)
  {
    var t := Entered(s, c, s.guard);
    var n := |s.calls| + 1;
    var key := s.calls[c].key;
    if key in s.guard.seen {
      assert SeenOk(s, key);
    }
    forall d | 0 <= d < |s.phases| && d != c
      ensures Weight(t.phases[d], t.guard.futures, n) == Weight(s.phases[d], s.guard.futures, n)
    {
      assert ReferenceOk(s, d);
    }
    RankDrops(s.phases, s.guard.futures, t.phases, t.guard.futures, n, c);
  }

  /** Every step of every run brings the end closer. */
  lemma StepRank(s: System, e: Event)
    requires Inv(s) && Enabled(s, e)
    ensures RankOf(Apply(s, e)) < RankOf(s)
  {
    hide Rank;
    var n := |s.calls| + 1;
    var t := Apply(s, e);
    match e
    case Begin(c) =>
      var r := AfterReset(s, s.calls[c].step);
      ResetInv(s, s.calls[c].step);
      EnteredRank(r, c);
    case Resume(c) =>
      if s.guard.futures[s.phases[c].first.future].raised {
        EnteredRank(s, c);
      } else {
        RankDrops(s.phases, s.guard.futures, t.phases, t.guard.futures, n, c);
      }
    case Return(c, size) =>
      var f := s.phases[c].future;
      assert PlanterOk(s, c) && Planted(s.phases[c], f) && OwnerOk(s, f);
      RankDrops(s.phases, s.guard.futures, t.phases, t.guard.futures, n, c);
    case Raise(c) =>
      RankPaysForWaiters(s.phases, s.guard.futures, t.phases, t.guard.futures, n, c);
  }

  lemma {:induction false} RunIsBoundedFrom(s: System, es: seq<Event>, t: System)
    requires Inv(s) && Run(s, es, t)
    ensures |es| <= RankOf(s)
    decreases |es|
  {
    if es != [] {
      StepRank(s, es[0]);
      StepInv(s, es[0]);
      RunIsBoundedFrom(Apply(s, es[0]), es[1..], t);
    }
  }

  lemma {:induction false} InitialRank(m: nat, futures: seq<Future>, n: nat)
    ensures Rank(seq(m, _ => Start), futures, n) == m * (n + 2)
  {
    if m > 0 {
      InitialRank(m - 1, futures, n);
      assert seq(m, _ => Start)[..m - 1] == seq(m - 1, _ => Start);
      assert m * (n + 2) == (m - 1) * (n + 2) + (n + 2);
    }
  }

  /** A run of `n` calls has at most `n (n + 3)` steps: with `Progress`, every schedule
      that keeps going finishes every call, so no call waits forever. */
  lemma RunIsBounded(calls: seq<Call>, ceiling: nat, es: seq<Event>, t: System)
    requires Run(Initial(calls, ceiling), es, t)
    ensures |es| <= |calls| * (|calls| + 3)
  {
    InitialInv(calls, ceiling);
    RunIsBoundedFrom(Initial(calls, ceiling), es, t);
    InitialRank(|calls|, [], |calls| + 1);
  }

  // ----- Conservation: bytes and counters -----

  ghost function Total(w: (Phase, int) -> nat, ps: seq<Phase>, k: int): nat {
    if ps == [] then 0 else Total(w, ps[..|ps| - 1], k) + w(ps[|ps| - 1], k)
  }

  ghost function DuplicateUnit(p: Phase, k: int): nat {
    if p.Finished? && p.outcome.Duplicate? then 1 else 0
  }

  ghost function WithheldUnit(p: Phase, k: int): nat {
    if p.Finished? && p.outcome.Withheld? then 1 else 0
  }

  ghost function EmittedUnit(p: Phase, k: int): nat {
    if p.Finished? && p.outcome.Emitted? then 1 else 0
  }

  ghost function RaisedUnit(p: Phase, k: int): nat {
    if p.Finished? && p.outcome.Raised? then 1 else 0
  }

  ghost function FinishedUnit(p: Phase, k: int): nat {
    if p.Finished? then 1 else 0
  }

  /** The size of a result emitted in epoch `k`. */
  ghost function EmittedSize(p: Phase, k: int): nat {
    if p.Finished? && p.outcome.Emitted? && p.outcome.epoch == k then p.outcome.size else 0
  }

  lemma {:induction false} TotalUpdate(w: (Phase, int) -> nat, ps: seq<Phase>, k: int, c: nat, p: Phase)
    requires c < |ps|
    ensures Total(w, ps[c := p], k) + w(ps[c], k) == Total(w, ps, k) + w(p, k)
  {
    var m := |ps| - 1;
    if c < m {
      TotalUpdate(w, ps[..m], k, c, p);
      assert ps[c := p][..m] == ps[..m][c := p];
    } else {
      assert ps[c := p][..m] == ps[..m];
    }
  }

  lemma {:induction false} TotalZero(w: (Phase, int) -> nat, ps: seq<Phase>, k: int)
    requires forall c :: 0 <= c < |ps| ==> w(ps[c], k) == 0
    ensures Total(w, ps, k) == 0
  {
    if ps != [] {
      TotalZero(w, ps[..|ps| - 1], k);
    }
  }

  ghost function Max(a: nat, b: nat): nat {
    if a <= b then b else a
  }

  ghost predicate Accounts(s: System) {
    && |s.phases| == |s.calls|
    && s.guard.duplicateCalls == Total(DuplicateUnit, s.phases, 0)
    && s.guard.resultsCapped == Total(WithheldUnit, s.phases, 0)
    && s.guard.bytes == Total(EmittedSize, s.phases, s.epoch)
    && (forall c :: 0 <= c < |s.phases| ==> EmittedBy(s.phases[c], s.epoch))
    && (s.guard.bytes == 0 <==> s.opener == 0)
    && (s.guard.bytes > 0 ==> exists c :: 0 <= c < |s.phases| && Opened(s.phases[c], s.opener, s.epoch))
    && (s.ceiling != 0 ==> s.guard.bytes <= Max(s.ceiling, s.opener))
  }

  /** The call's result of this size was emitted in this epoch. */
  ghost predicate Opened(p: Phase, size: nat, epoch: nat) {
    p.Finished? && p.outcome.Emitted? && p.outcome.size == size && p.outcome.epoch == epoch
  }

  /** A finished call stays as it is, and so does the opener. */
  lemma OpenerStays(s: System, t: System, c: nat)
    requires c < |s.phases| && !s.phases[c].Finished?
    requires |t.phases| == |s.phases| && t.phases == s.phases[c := t.phases[c]]
    requires t.opener == s.opener && t.epoch == s.epoch
    requires exists d :: 0 <= d < |s.phases| && Opened(s.phases[d], s.opener, s.epoch)
    ensures exists d :: 0 <= d < |t.phases| && Opened(t.phases[d], t.opener, t.epoch)
  {
    var d :| 0 <= d < |s.phases| && Opened(s.phases[d], s.opener, s.epoch);
    assert Opened(t.phases[d], t.opener, t.epoch);
  }

  ghost predicate EmittedBy(p: Phase, epoch: nat) {
    p.Finished? && p.outcome.Emitted? ==> p.outcome.epoch <= epoch
  }

  lemma ResetAccounts(s: System, step: int)
    requires Accounts(s)
    ensures Accounts(AfterReset(s, step))
  {
    if s.guard.step != Some(step) {
      forall c | 0 <= c < |s.phases| ensures EmittedSize(s.phases[c], s.epoch + 1) == 0 {
        assert EmittedBy(s.phases[c], s.epoch);
      }
      TotalZero(EmittedSize, s.phases, s.epoch + 1);
    }
  }

  /** One call moves on, and the accounts move with it. */
  lemma MoveAccounts(s: System, t: System, c: nat)
    requires Accounts(s) && c < |s.phases| && !s.phases[c].Finished?
    requires |t.phases| == |s.phases| && t.phases == s.phases[c := t.phases[c]]
    requires t.calls == s.calls && t.ceiling == s.ceiling && t.epoch == s.epoch
    requires t.guard.duplicateCalls == s.guard.duplicateCalls + DuplicateUnit(t.phases[c], 0)
    requires t.guard.resultsCapped == s.guard.resultsCapped + WithheldUnit(t.phases[c], 0)
    requires t.guard.bytes == s.guard.bytes + EmittedSize(t.phases[c], s.epoch)
    requires t.opener == if s.guard.bytes == 0 then EmittedSize(t.phases[c], s.epoch) else s.opener
    requires t.phases[c].Finished? && t.phases[c].outcome.Emitted? ==>
        Opened(t.phases[c], t.phases[c].outcome.size, s.epoch)
    requires s.ceiling != 0 && s.guard.bytes > 0 && EmittedSize(t.phases[c], s.epoch) > 0 ==> t.guard.bytes <= s.ceiling
    ensures Accounts(t)
  {
    TotalUpdate(DuplicateUnit, s.phases, 0, c, t.phases[c]);
    TotalUpdate(WithheldUnit, s.phases, 0, c, t.phases[c]);
    TotalUpdate(EmittedSize, s.phases, s.epoch, c, t.phases[c]);
    hide Total;
    if s.guard.bytes > 0 {
      OpenerStays(s, t, c);
    } else if t.guard.bytes > 0 {
      assert Opened(t.phases[c], t.opener, t.epoch);
    }
  }

  lemma StepAccounts(s: System, e: Event)
    requires Accounts(s) && Enabled(s, e)
    ensures Accounts(Apply(s, e))
  {
    var t := Apply(s, e);
    var c := e.call;
    assert s.guard.bytes == 0 <==> s.opener == 0;
    match e
    case Begin(_) =>
      var r := AfterReset(s, s.calls[c].step);
      ResetAccounts(s, s.calls[c].step);
      assert r.guard.bytes == 0 <==> r.opener == 0;
      EnteredKeeps(r, c, r.guard);
      hide Total, Accounts, Entered;
      MoveAccounts(r, t, c);
    case Resume(_) =>
      EnteredKeeps(s, c, s.guard);
      hide Total, Accounts, Entered;
      MoveAccounts(s, t, c);
    case Return(_, size) =>
      hide Total, Accounts;
      MoveAccounts(s, t, c);
    case Raise(_) =>
      hide Total, Accounts;
      MoveAccounts(s, t, c);
  }

  lemma {:induction false} RunAccountsFrom(s: System, es: seq<Event>, t: System)
    requires Accounts(s) && Run(s, es, t)
    ensures Accounts(t)
    decreases |es|
  {
    if es != [] {
      StepAccounts(s, es[0]);
      RunAccountsFrom(Apply(s, es[0]), es[1..], t);
    }
  }

  /** The byte counter is the total size of the results emitted since the last reset, and
      stays below the ceiling or the first of them, which is some call's; the two counters
      count exactly the back-references and the withheld results. */
  lemma RunAccounts(calls: seq<Call>, ceiling: nat, es: seq<Event>, t: System)
    requires Run(Initial(calls, ceiling), es, t)
    ensures t.guard.bytes == Total(EmittedSize, t.phases, t.epoch)
    ensures ceiling != 0 ==> t.guard.bytes <= Max(ceiling, t.opener)
    ensures t.guard.bytes > 0 ==> exists c :: 0 <= c < |t.phases| && Opened(t.phases[c], t.opener, t.epoch)
    ensures t.guard.duplicateCalls == Total(DuplicateUnit, t.phases, 0)
    ensures t.guard.resultsCapped == Total(WithheldUnit, t.phases, 0)
  {
    var s := Initial(calls, ceiling);
    TotalZero(DuplicateUnit, s.phases, 0);
    TotalZero(WithheldUnit, s.phases, 0);
    TotalZero(EmittedSize, s.phases, 0);
    RunAccountsFrom(s, es, t);
    ReachableInv(calls, ceiling, es, t);
  }

  /** Finished calls split into emitted, withheld, duplicate and raised ones. */
  lemma {:induction false} FinishedSplit(ps: seq<Phase>)
    ensures Total(FinishedUnit, ps, 0) ==
            Total(EmittedUnit, ps, 0) + Total(WithheldUnit, ps, 0)
            + Total(DuplicateUnit, ps, 0) + Total(RaisedUnit, ps, 0)
  {
    if ps != [] {
      FinishedSplit(ps[..|ps| - 1]);
    }
  }

  /** The first result of a request is always emitted whole, later ones exactly while they fit. */
  lemma WithheldExactlyOverCeiling(s: System, c: nat, size: nat)
    requires Accounts(s) && Enabled(s, Return(c, size))
    ensures Apply(s, Return(c, size)).phases[c].outcome.Withheld? <==>
            s.ceiling != 0 && s.opener != 0 && Total(EmittedSize, s.phases, s.epoch) + size > s.ceiling
  {
  }

  // ----- Steps that do not overlap -----

  ghost predicate InFlight(p: Phase) {
    p.Waiting? || p.Executing?
  }

  /** A new step begins only when nothing is in flight, and steps go up. */
  ghost predicate InOrder(s: System, e: Event) {
    e.Begin? && e.call < |s.calls| && s.guard.step != Some(s.calls[e.call].step) ==>
      && (forall c :: 0 <= c < |s.phases| ==> !InFlight(s.phases[c]))
      && (s.guard.step.Some? ==> s.guard.step.value < s.calls[e.call].step)
  }

  ghost predicate OrderedRun(s: System, es: seq<Event>, t: System)
    decreases |es|
  {
    if es == [] then s == t
    else Enabled(s, es[0]) && InOrder(s, es[0]) && OrderedRun(Apply(s, es[0]), es[1..], t)
  }

  ghost predicate StartedBy(s: System, c: nat)
    requires |s.phases| == |s.calls| && c < |s.calls|
  {
    s.phases[c].Start? ||
    (s.guard.step.Some? && s.calls[c].step <= s.guard.step.value
     && (InFlight(s.phases[c]) ==> s.calls[c].step == s.guard.step.value))
  }

  /** Epochs and steps are the same thing. */
  ghost predicate EpochIsStep(s: System, f: nat, f': nat)
    requires Shape(s) && f < |s.owner| && f' < |s.owner|
  {
    s.claimed[f] == s.claimed[f'] <==> s.calls[s.owner[f]].step == s.calls[s.owner[f']].step
  }

  ghost predicate CurrentEpoch(s: System, f: nat)
    requires Shape(s) && f < |s.owner|
  {
    s.claimed[f] == s.epoch <==> s.guard.step == Some(s.calls[s.owner[f]].step)
  }

  ghost predicate EmissionEpoch(s: System, c: nat)
    requires Shape(s) && c < |s.calls|
  {
    s.phases[c].Finished? && s.phases[c].outcome.Emitted? ==>
      s.phases[c].outcome.future < |s.owner| && s.phases[c].outcome.epoch == s.claimed[s.phases[c].outcome.future]
  }

  /** Waiters and back-references name a call of their own step. */
  ghost predicate ReferenceStep(s: System, c: nat)
    requires Shape(s) && c < |s.calls|
  {
    match s.phases[c]
    case Waiting(first) => OfStep(s, first, s.calls[c].step)
    case Finished(Duplicate(first)) => OfStep(s, first, s.calls[c].step)
    case _ => true
  }

  ghost predicate OfStep(s: System, first: Claim, step: int)
    requires Shape(s)
  {
    first.future < |s.owner| && s.calls[s.owner[first.future]].step == step
  }

  ghost predicate Ordered(s: System) {
    && Inv(s)
    && (forall c :: 0 <= c < |s.calls| ==> ReferenceStep(s, c))
    && (forall c :: 0 <= c < |s.calls| ==> StartedBy(s, c))
    && (forall c :: 0 <= c < |s.calls| ==> EmissionEpoch(s, c))
    && (forall f :: 0 <= f < |s.owner| ==> CurrentEpoch(s, f))
    && (forall f, f' :: 0 <= f < |s.owner| && 0 <= f' < |s.owner| ==> EpochIsStep(s, f, f'))
  }

  /** Opening a step when nothing is in flight. */
  lemma ResetOrdered(s: System, step: int)
    requires Ordered(s)
    requires s.guard.step != Some(step) ==>
               && (forall c :: 0 <= c < |s.phases| ==> !InFlight(s.phases[c]))
               && (s.guard.step.Some? ==> s.guard.step.value < step)
    ensures Ordered(AfterReset(s, step))
  {
    var t := AfterReset(s, step);
    ResetInv(s, step);
    forall c | 0 <= c < |t.calls| ensures StartedBy(t, c) && EmissionEpoch(t, c) && ReferenceStep(t, c) {
      assert StartedBy(s, c) && EmissionEpoch(s, c) && ReferenceStep(s, c);
    }
    forall f | 0 <= f < |t.owner| ensures CurrentEpoch(t, f) {
      assert CurrentEpoch(s, f) && Registered(s, f) && OwnerOk(s, f);
      assert StartedBy(s, s.owner[f]);
    }
    forall f, f' | 0 <= f < |t.owner| && 0 <= f' < |t.owner| ensures EpochIsStep(t, f, f') {
      assert EpochIsStep(s, f, f');
    }
  }

  /** The loop head, for a call of the open step. */
  lemma EnteredOrdered(s: System, c: nat)
    requires Ordered(s) && c < |s.calls|
    requires s.phases[c].Start? || s.phases[c].Waiting?
    requires s.guard.step == Some(s.calls[c].step)
    ensures Ordered(Entered(s, c, s.guard))
  {
    var t := Entered(s, c, s.guard);
    var n := |s.owner|;
    EnteredInv(s, c);
    forall d | 0 <= d < |t.calls| ensures StartedBy(t, d) && EmissionEpoch(t, d) {
      assert StartedBy(s, d) && EmissionEpoch(s, d);
    }
    forall d | 0 <= d < |t.calls| ensures ReferenceStep(t, d) {
      assert ReferenceStep(s, d);
      if d == c && t.phases[c].Waiting? {
        assert SeenOk(s, s.calls[c].key);
        assert CurrentEpoch(s, s.guard.seen[s.calls[c].key].future);
      }
    }
    forall f | 0 <= f < |t.owner| ensures CurrentEpoch(t, f) {
      assert f < n ==> CurrentEpoch(s, f);
    }
    forall f, f' | 0 <= f < |t.owner| && 0 <= f' < |t.owner| ensures EpochIsStep(t, f, f') {
      if f < n && f' < n {
        assert EpochIsStep(s, f, f');
      } else {
        assert f < n ==> CurrentEpoch(s, f);
        assert f' < n ==> CurrentEpoch(s, f');
      }
    }
  }

  /** Finishing a call leaves epochs and steps alone. */
  lemma FinishOrdered(s: System, t: System, c: nat)
    requires Ordered(s) && Inv(t) && c < |s.calls| && InFlight(s.phases[c])
    requires t.calls == s.calls && t.owner == s.owner && t.claimed == s.claimed && t.epoch == s.epoch
    requires t.guard.step == s.guard.step
    requires |t.phases| == |s.phases| && t.phases == s.phases[c := t.phases[c]] && t.phases[c].Finished?
    requires t.phases[c].outcome.Emitted? ==>
               s.phases[c].Executing? && t.phases[c].outcome.epoch == s.epoch
                   && t.phases[c].outcome.future == s.phases[c].future
    requires t.phases[c].outcome.Duplicate? ==> s.phases[c] == Waiting(t.phases[c].outcome.first)
    ensures Ordered(t)
  {
    forall d | 0 <= d < |t.calls| ensures ReferenceStep(t, d) {
      assert ReferenceStep(s, d);
    }
    forall d | 0 <= d < |t.calls| ensures StartedBy(t, d) && EmissionEpoch(t, d) {
      assert StartedBy(s, d) && EmissionEpoch(s, d);
      if d == c && t.phases[c].outcome.Emitted? {
        assert PlanterOk(s, c) && Planted(s.phases[c], s.phases[c].future);
        assert CurrentEpoch(s, s.phases[c].future);
      }
    }
    forall f | 0 <= f < |t.owner| ensures CurrentEpoch(t, f) {
      assert CurrentEpoch(s, f);
    }
    forall f, f' | 0 <= f < |t.owner| && 0 <= f' < |t.owner| ensures EpochIsStep(t, f, f') {
      assert EpochIsStep(s, f, f');
    }
  }

  lemma StepOrdered(s: System, e: Event)
    requires Ordered(s) && Enabled(s, e) && InOrder(s, e)
    ensures Ordered(Apply(s, e))
  {
    StepInv(s, e);
    var c := e.call;
    assert StartedBy(s, c);
    match e
    case Begin(_) =>
      ResetOrdered(s, s.calls[c].step);
      EnteredOrdered(AfterReset(s, s.calls[c].step), c);
    case Resume(_) =>
      if s.guard.futures[s.phases[c].first.future].raised {
        EnteredOrdered(s, c);
      } else {
        FinishOrdered(s, Apply(s, e), c);
      }
    case Return(_, size) => FinishOrdered(s, Apply(s, e), c);
    case Raise(_) => FinishOrdered(s, Apply(s, e), c);
  }

  lemma {:induction false} OrderedRunFrom(s: System, es: seq<Event>, t: System)
    requires Ordered(s) && OrderedRun(s, es, t)
    ensures Ordered(t) && t.calls == s.calls && Run(s, es, t)
    decreases |es|
  {
    if es != [] {
      StepOrdered(s, es[0]);
      StepInv(s, es[0]);
      OrderedRunFrom(Apply(s, es[0]), es[1..], t);
    }
  }

  /** When steps do not overlap, one call per step and key runs the tool or was answered by it. */
  lemma SingleFlightPerStep(calls: seq<Call>, ceiling: nat, es: seq<Event>, t: System, c: nat, d: nat)
    requires OrderedRun(Initial(calls, ceiling), es, t)
    requires c < |calls| && d < |calls|
    requires calls[c].step == calls[d].step && calls[c].key == calls[d].key
    ensures |t.phases| == |calls|
    ensures HoldsSlot(t.phases[c]) && HoldsSlot(t.phases[d]) ==> c == d
  {
    InitialInv(calls, ceiling);
    OrderedRunFrom(Initial(calls, ceiling), es, t);
    SingleFlight(calls, ceiling, es, t, c, d);
    if HoldsSlot(t.phases[c]) && HoldsSlot(t.phases[d]) {
      var f, g := FutureOf(t.phases[c]), FutureOf(t.phases[d]);
      assert Planted(t.phases[c], f) && Planted(t.phases[d], g);
      assert PlanterOk(t, c) && PlanterOk(t, d);
      assert EpochIsStep(t, f, g);
    }
  }

  /** When steps do not overlap, a back-reference names a call of its own step. */
  lemma DuplicateNamesOwnStep(calls: seq<Call>, ceiling: nat, es: seq<Event>, t: System, c: nat) returns (d: nat)
    requires OrderedRun(Initial(calls, ceiling), es, t)
    requires c < |calls| && |t.phases| == |calls|
    requires t.phases[c].Finished? && t.phases[c].outcome.Duplicate?
    ensures d < |calls| && d != c && calls[d].key == calls[c].key && calls[d].step == calls[c].step
    ensures t.phases[c].outcome.first.callId ==
            if calls[d].toolCallId == "" then "an earlier identical call" else calls[d].toolCallId
    ensures Completed(t.phases[d])
  {
    InitialInv(calls, ceiling);
    OrderedRunFrom(Initial(calls, ceiling), es, t);
    assert ReferenceOk(t, c) && ReferenceStep(t, c);
    var f := t.phases[c].outcome.first.future;
    assert OwnerOk(t, f);
    d := t.owner[f];
  }

  /** When steps do not overlap, the results the byte counter sums are those of the open step. */
  lemma BytesArePerStep(calls: seq<Call>, ceiling: nat, es: seq<Event>, t: System, c: nat)
    requires OrderedRun(Initial(calls, ceiling), es, t)
    requires c < |calls| && |t.phases| == |calls|
    requires t.phases[c].Finished? && t.phases[c].outcome.Emitted?
    ensures t.phases[c].outcome.epoch == t.epoch <==> t.guard.step == Some(calls[c].step)
  {
    InitialInv(calls, ceiling);
    OrderedRunFrom(Initial(calls, ceiling), es, t);
    var f := t.phases[c].outcome.future;
    assert PlanterOk(t, c) && Planted(t.phases[c], f);
    assert EmissionEpoch(t, c) && CurrentEpoch(t, f);
  }

  // ----- Steps that may overlap -----

  /** Nothing has begun, or step `k` is open. */
  ghost predicate OnlyStep(s: System, k: int) {
    && |s.phases| == |s.calls|
    && (forall c :: 0 <= c < |s.calls| ==> s.calls[c].step == k)
    && (s.guard.step == Some(k) || (s.guard.step == None && forall c :: 0 <= c < |s.phases| ==> s.phases[c].Start?))
  }

  /** With calls of one step only, every run is one without overlap. */
  lemma {:induction false} OneStepIsOrdered(s: System, es: seq<Event>, t: System, k: int)
    requires OnlyStep(s, k) && Run(s, es, t)
    ensures OrderedRun(s, es, t)
    decreases |es|
  {
    if es != [] {
      EnteredKeeps(s, es[0].call, s.guard);
      if es[0].Begin? {
        var r := AfterReset(s, k);
        EnteredKeeps(r, es[0].call, r.guard);
      }
      OneStepIsOrdered(Apply(s, es[0]), es[1..], t, k);
    }
  }

  /** A late call of an older step reopens that step, and runs the tool beside the call
      already running it. */
  lemma OverlapRun(calls: seq<Call>, ceiling: nat, c: nat, e: nat, d: nat) returns (es: seq<Event>, t: System)
    requires c < |calls| && d < |calls| && e < |calls| && c != d
    requires calls[c].step == calls[d].step != calls[e].step && calls[c].key == calls[d].key
    ensures Run(Initial(calls, ceiling), es, t)
    ensures |t.phases| == |calls| && t.phases[c].Executing? && t.phases[d].Executing?
  {
    var s0 := Initial(calls, ceiling);
    var s1 := Apply(s0, Event.Begin(c));
    var s2 := Apply(s1, Event.Begin(e));
    t := Apply(s2, Event.Begin(d));
    es := [Event.Begin(c), Event.Begin(e), Event.Begin(d)];
    assert es[1..] == [Event.Begin(e), Event.Begin(d)];
    assert es[1..][1..] == [Event.Begin(d)];
    assert es[1..][1..][1..] == [];
    assert Run(t, [], t);
    assert Run(s2, [Event.Begin(d)], t);
    assert Run(s1, [Event.Begin(e), Event.Begin(d)], t);
  }

  /** A run at whose end both calls run the tool or were answered by it. */
  ghost predicate BothHold(calls: seq<Call>, ceiling: nat, es: seq<Event>, t: System, c: nat, d: nat) {
    && Run(Initial(calls, ceiling), es, t)
    && |t.phases| == |calls| && c < |calls| && d < |calls|
    && HoldsSlot(t.phases[c]) && HoldsSlot(t.phases[d])
  }

  /** Some run lets two calls of one step and key both hold the slot if and only if some call
      belongs to another step. */
  lemma SingleFlightPerStepFailsExactlyWhen(calls: seq<Call>, ceiling: nat, c: nat, d: nat)
    requires c < |calls| && d < |calls| && c != d
    requires calls[c].step == calls[d].step && calls[c].key == calls[d].key
    ensures (exists es, t :: BothHold(calls, ceiling, es, t, c, d)) <==>
            exists e :: 0 <= e < |calls| && calls[e].step != calls[c].step
  {
    if e :| 0 <= e < |calls| && calls[e].step != calls[c].step {
      var es, t := OverlapRun(calls, ceiling, c, e, d);
      assert BothHold(calls, ceiling, es, t, c, d);
    } else {
      forall es, t ensures !BothHold(calls, ceiling, es, t, c, d) {
        if BothHold(calls, ceiling, es, t, c, d) {
          OneStepIsOrdered(Initial(calls, ceiling), es, t, calls[c].step);
          SingleFlightPerStep(calls, ceiling, es, t, c, d);
        }
      }
    }
  }

  /** A call that fails late drops no marker but its own, even across a reset. */
  lemma LateFailureKeepsMarkers(s: System, c: nat, k: Key)
    requires Inv(s) && Enabled(s, Raise(c))
    ensures var after := Apply(s, Raise(c)).guard.seen;
            if k in s.guard.seen && s.guard.seen[k].future == s.phases[c].future then k !in after
            else k in after <==> k in s.guard.seen
    ensures k in Apply(s, Raise(c)).guard.seen ==>
              k in s.guard.seen && Apply(s, Raise(c)).guard.seen[k] == s.guard.seen[k]
  {
    if k in s.guard.seen {
      assert SeenOk(s, k);
      assert PlanterOk(s, c) && Planted(s.phases[c], s.phases[c].future);
    }
  }
}
