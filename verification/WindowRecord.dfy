/** The row kept for one turn (`make_window_processor`, `src/vestigo/agent/window.py`):
    the figures of its largest reduction, whatever requests and guard actions occur. */
module WindowRecord {
  import opened ContextWindow
  import opened WindowEstimates

  datatype Stats = Stats(
    budget: int,
    reduction: Reduction,
    charsPerToken: real,
    maxRequestChars: nat,
    duplicateCalls: nat,
    resultsCapped: nat)
  {
    predicate Reduced() {
      || reduction.elided > 0
      || reduction.truncated > 0
      || reduction.dropped > 0
      || duplicateCalls > 0
      || resultsCapped > 0
    }

    function Saved(): int {
      reduction.before - reduction.after
    }
  }

  const CHARS_PER_TOKEN_DEFAULT := 3.0
  const NO_REDUCTION := Reduction(0, 0, 0, 0, 0)
  const FRESH := Stats(0, NO_REDUCTION, CHARS_PER_TOKEN_DEFAULT, 0, 0, 0)

  /** The statistics `apply_window` returns for one request. */
  function RequestStats(est: Estimator, budget: int, ms: seq<Message>): Stats {
    Stats(budget, Window(est, ms, budget).reduction, est.charsPerToken, 0, 0, 0)
  }

  function SentChars(est: Estimator, budget: int, ms: seq<Message>): nat {
    DumpSize(est, Window(est, ms, budget).messages)
  }

  /** The row after one more request. */
  function Recorded(est: Estimator, budget: int, s: Stats, ms: seq<Message>): Stats {
    var request := RequestStats(est, budget, ms);
    var kept := if !s.Reduced() || request.Saved() > s.Saved() then request else s;
    var sent := SentChars(est, budget, ms);
    Stats(budget, kept.reduction, est.charsPerToken,
          if sent > s.maxRequestChars then sent else s.maxRequestChars,
          s.duplicateCalls, s.resultsCapped)
  }

  /** The mutable `WindowStats` the processor and the request guard share. */
  class TurnStats {
    var budget: int
    var reduction: Reduction
    var charsPerToken: real
    var maxRequestChars: nat
    var duplicateCalls: nat
    var resultsCapped: nat

    ghost function Snapshot(): Stats
      reads this
    {
      Stats(budget, reduction, charsPerToken, maxRequestChars, duplicateCalls, resultsCapped)
    }

    constructor ()
      ensures Snapshot() == FRESH == Stats(0, Reduction(0, 0, 0, 0, 0), 3.0, 0, 0, 0)
    {
      budget, reduction, charsPerToken := 0, NO_REDUCTION, CHARS_PER_TOKEN_DEFAULT;
      maxRequestChars, duplicateCalls, resultsCapped := 0, 0, 0;
    }

    /** `process`: reduce one request and keep its figures if it saved the most. */
    method Process(est: Estimator, windowBudget: int, messages: seq<Message>) returns (out: seq<Message>)
      modifies this
      ensures out == Window(est, messages, windowBudget).messages
      ensures Snapshot() == Recorded(est, windowBudget, old(Snapshot()), messages)
    {
      hide Window, DumpSize;
      var request;
      out, request := ApplyWindow(est, messages, windowBudget);
      var sentChars := DumpSize(est, out);
      var highWater := if sentChars > maxRequestChars then sentChars else maxRequestChars;
      var duplicates, capped := duplicateCalls, resultsCapped;
      var reduced := reduction.elided > 0 || reduction.truncated > 0 || reduction.dropped > 0
                     || duplicates > 0 || capped > 0;
      if !reduced || request.before - request.after > reduction.before - reduction.after {
        reduction := request;
        maxRequestChars, duplicateCalls, resultsCapped := 0, 0, 0;
      }
      budget := windowBudget;
      charsPerToken := est.charsPerToken;
      maxRequestChars := highWater;
      duplicateCalls, resultsCapped := duplicates, capped;
    }
  }

  /** What can happen to the row during a turn. */
  datatype Event = Send(messages: seq<Message>) | DuplicateCall | CappedResult

  function Step(est: Estimator, budget: int, s: Stats, e: Event): Stats {
    match e
    case Send(ms) => Recorded(est, budget, s, ms)
    case DuplicateCall => s.(duplicateCalls := s.duplicateCalls + 1)
    case CappedResult => s.(resultsCapped := s.resultsCapped + 1)
  }

  function AfterTurn(est: Estimator, budget: int, es: seq<Event>): Stats {
    if es == [] then FRESH
    else Step(est, budget, AfterTurn(est, budget, es[..|es| - 1]), es[|es| - 1])
  }

  ghost function Occurrences(es: seq<Event>, e: Event): nat {
    multiset(es)[e]
  }

  /** A request that saves something has a positive count. */
  lemma SavingMeansReduced(est: Estimator, budget: int, ms: seq<Message>)
    ensures RequestStats(est, budget, ms).Saved() > 0 ==> RequestStats(est, budget, ms).Reduced()
  {
    hide Window;
    NoCountsNoChange(est, ms, budget);
  }

  /** The reduction kept is that of request `i`. */
  ghost predicate IsRequest(est: Estimator, budget: int, es: seq<Event>, s: Stats, i: nat) {
    i < |es| && es[i].Send? && s.reduction == RequestStats(est, budget, es[i].messages).reduction
  }

  /** A request's reduction is kept whole or not at all, and the first one is kept. */
  lemma KeptWhole(est: Estimator, budget: int, s: Stats, ms: seq<Message>)
    ensures var t, request := Recorded(est, budget, s, ms), RequestStats(est, budget, ms);
            && (t.reduction == s.reduction || t.reduction == request.reduction)
            && (s == FRESH ==> t.reduction == request.reduction)
  {
    hide Window, SentChars;
  }

  /** A request's reduction replaces the one kept exactly when nothing was reduced or guarded
      before, or when it saves strictly more. */
  lemma ReplacedExactlyWhen(est: Estimator, budget: int, s: Stats, ms: seq<Message>)
    ensures var kept, request := s.reduction, Window(est, ms, budget).reduction;
            var quiet := kept.elided == kept.truncated == kept.dropped == s.duplicateCalls == s.resultsCapped == 0;
            Recorded(est, budget, s, ms).reduction ==
            if quiet || request.before - request.after > kept.before - kept.after then request else kept
  {
    hide Window, SentChars;
  }

  /** The reduction kept at the end of a turn is that of one single request... */
  lemma {:induction false} OneRequestIsRecorded(est: Estimator, budget: int, es: seq<Event>)
    ensures var s := AfterTurn(est, budget, es);
            s.reduction == NO_REDUCTION || exists i :: IsRequest(est, budget, es, s, i)
    ensures es != [] && es[0].Send? ==> exists i :: IsRequest(est, budget, es, AfterTurn(est, budget, es), i)
  {
    hide Recorded, RequestStats;
    if es != [] {
      var n := |es| - 1;
      var front := es[..n];
      OneRequestIsRecorded(est, budget, front);
      var s0, s := AfterTurn(est, budget, front), AfterTurn(est, budget, es);
      assert forall i :: 0 <= i < n ==> front[i] == es[i];
      if es[n].Send? {
        KeptWhole(est, budget, s0, es[n].messages);
      }
      hide AfterTurn;
      if es[n].Send? && s.reduction == RequestStats(est, budget, es[n].messages).reduction {
        assert IsRequest(est, budget, es, s, n);
      } else if i :| IsRequest(est, budget, front, s0, i) {
        assert IsRequest(est, budget, es, s, i);
      }
    }
  }

  /** One more request never replaces a larger saving by a smaller one. */
  lemma RecordedKeepsLargest(est: Estimator, budget: int, s: Stats, ms: seq<Message>)
    requires s.Saved() > 0 ==> s.Reduced()
    ensures var t, request := Recorded(est, budget, s, ms), RequestStats(est, budget, ms);
            && (t.Saved() > 0 ==> t.Reduced())
            && (request.Saved() > 0 ==> t.Saved() >= request.Saved())
            && (s.Saved() > 0 ==> t.Saved() >= s.Saved())
  {
    hide Window, SentChars;
    SavingMeansReduced(est, budget, ms);
  }

  /** ...the one with the largest saving, whenever any request saved something. */
  lemma {:induction false} LargestSavingIsRecorded(est: Estimator, budget: int, es: seq<Event>)
    ensures AfterTurn(est, budget, es).Saved() > 0 ==> AfterTurn(est, budget, es).Reduced()
    ensures forall i :: 0 <= i < |es| && es[i].Send? && RequestStats(est, budget, es[i].messages).Saved() > 0 ==>
              AfterTurn(est, budget, es).Saved() >= RequestStats(est, budget, es[i].messages).Saved()
  {
    hide Recorded, RequestStats;
    if es != [] {
      var n := |es| - 1;
      LargestSavingIsRecorded(est, budget, es[..n]);
      if es[n].Send? {
        RecordedKeepsLargest(est, budget, AfterTurn(est, budget, es[..n]), es[n].messages);
      }
    }
  }

  /** The character high-water mark is the true maximum over the requests sent. */
  lemma {:induction false} HighWaterMark(est: Estimator, budget: int, es: seq<Event>)
    ensures var s := AfterTurn(est, budget, es);
            && (forall i :: 0 <= i < |es| && es[i].Send? ==>
                  SentChars(est, budget, es[i].messages) <= s.maxRequestChars)
            && (s.maxRequestChars == 0 ||
                exists i :: 0 <= i < |es| && es[i].Send? && SentChars(est, budget, es[i].messages) == s.maxRequestChars)
  {
    hide SentChars, RequestStats;
    if es != [] {
      var n := |es| - 1;
      var front := es[..n];
      HighWaterMark(est, budget, front);
      var s0, s := AfterTurn(est, budget, front), AfterTurn(est, budget, es);
      if s.maxRequestChars == s0.maxRequestChars {
        if i :| 0 <= i < |front| && front[i].Send? && SentChars(est, budget, front[i].messages) == s0.maxRequestChars {
          assert es[i] == front[i];
        }
      } else {
        assert es[n].Send? && SentChars(est, budget, es[n].messages) == s.maxRequestChars;
      }
    }
  }

  /** The guard's counters survive every overwrite. */
  lemma {:induction false} GuardCountersSurvive(est: Estimator, budget: int, es: seq<Event>)
    ensures AfterTurn(est, budget, es).duplicateCalls == Occurrences(es, DuplicateCall)
    ensures AfterTurn(est, budget, es).resultsCapped == Occurrences(es, CappedResult)
  {
    hide SentChars, RequestStats;
    if es != [] {
      var n := |es| - 1;
      GuardCountersSurvive(est, budget, es[..n]);
      assert es == es[..n] + [es[n]];
    }
  }
}
