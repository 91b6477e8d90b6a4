/** The in-memory store of background jobs (`src/vestigo/core/jobs.py`). */
module Jobs {
  import opened Options

  type Fields = map<string, string>

  /** The sixteen hex digits of a job id. */
  datatype JobId = JobId(hex: string)

  datatype Job = Job(id: JobId, kind: string, status: string, progress: Fields, result: Option<Fields>,
                     error: Option<string>, createdBy: Option<string>, caseId: Option<string>)

  predicate Terminal(status: string) {
    status == "completed" || status == "failed"
  }

  function NewJob(id: JobId, kind: string, progress: Option<Fields>, createdBy: Option<string>,
                  caseId: Option<string>): Job
  {
    Job(id, kind, "queued", if progress.Some? then progress.value else map[], None, None, createdBy, caseId)
  }

  /** The keyword arguments of `update`; what is `None` stays as it is. */
  datatype Change = Change(status: Option<string>, progress: Option<Fields>, result: Option<Fields>,
      error: Option<string>)

  function Changed(job: Job, c: Change): Job {
    job.(status := if c.status.Some? then c.status.value else job.status,
         progress := if c.progress.Some? then job.progress + c.progress.value else job.progress,
         result := if c.result.Some? then c.result else job.result,
         error := if c.error.Some? then c.error else job.error)
  }

  /** Whether the change ends a job that had not ended. */
  predicate Ends(job: Job, c: Change) {
    c.status.Some? && Terminal(c.status.value) && !Terminal(job.status)
  }

  datatype Store = Store(jobs: map<JobId, Job>, order: seq<JobId>)

  /** The last `n` entries. */
  function Last(ids: seq<JobId>, n: nat): (r: seq<JobId>)
    ensures |r| == if |ids| <= n then |ids| else n
  {
    if |ids| <= n then ids else ids[|ids| - n..]
  }

  function Members(ids: seq<JobId>): set<JobId> {
    set id | id in ids
  }

  /** What comes before that. */
  function Cut(ids: seq<JobId>, n: nat): seq<JobId> {
    ids[..|ids| - |Last(ids, n)|]
  }

  /** The store once the finish order is cut back to its last `maxTerminal` entries. */
  function Evicted(s: Store, maxTerminal: nat): Store {
    Store(s.jobs - Members(Cut(s.order, maxTerminal)), Last(s.order, maxTerminal))
  }

  function AfterUpdate(s: Store, maxTerminal: nat, id: JobId, c: Change): Store {
    if id !in s.jobs then s
    else
      var jobs := s.jobs[id := Changed(s.jobs[id], c)];
      if Ends(s.jobs[id], c) then Evicted(Store(jobs, s.order + [id]), maxTerminal)
      else Store(jobs, s.order)
  }

  class JobStore {
    const maxTerminal: nat
    var jobs: map<JobId, Job>
    var terminalOrder: seq<JobId>

    ghost function Snapshot(): Store
      reads this
    {
      Store(jobs, terminalOrder)
    }

    constructor (maxTerminal: nat)
      ensures Snapshot() == Store(map[], []) && this.maxTerminal == maxTerminal
    {
      this.maxTerminal := maxTerminal;
      jobs, terminalOrder := map[], [];
    }

    /** `id` stands for the random id. */
    method Create(id: JobId, kind: string, progress: Option<Fields>, createdBy: Option<string>, caseId: Option<string>)
      returns (job: Job)
      modifies this
      ensures job.id == id && job.kind == kind && job.status == "queued" && job.result == None && job.error == None
      ensures job.progress == match progress { case Some(p) => p case None => map[] }
      ensures job.createdBy == createdBy && job.caseId == caseId
      ensures Snapshot() == old(Snapshot()).(jobs := old(jobs)[id := job])
    {
      job := Job(id, kind, "queued", match progress { case Some(p) => p case None => map[] }, None, None,
                 createdBy, caseId);
      jobs := jobs[id := job];
    }

    method Get(id: JobId) returns (job: Option<Job>)
      ensures job == if id in jobs then Some(jobs[id]) else None
    {
      if id !in jobs {
        return None;
      }
      return Some(jobs[id]);
    }

    method Update(id: JobId, c: Change) returns (updated: Option<Job>)
      modifies this
      ensures Snapshot() == AfterUpdate(old(Snapshot()), maxTerminal, id, c)
      ensures updated == if id in old(jobs) then Some(Changed(old(jobs)[id], c)) else None
    {
      if id !in jobs {
        return None;
      }
      var job := jobs[id];
      ghost var was := Snapshot();
      if c.status.Some? {
        var wasTerminal := Terminal(job.status);
        job := job.(status := c.status.value);
        jobs := jobs[id := job];
        if Terminal(c.status.value) && !wasTerminal {
          RewriteAfterEviction(was.jobs, id, job, Changed(was.jobs[id], c), was.order + [id], maxTerminal);
          terminalOrder := terminalOrder + [id];
          EvictLocked();
        }
      }
      if c.progress.Some? {
        job := job.(progress := job.progress + c.progress.value);
      }
      if c.result.Some? {
        job := job.(result := c.result);
      }
      if c.error.Some? {
        job := job.(error := c.error);
      }
      // the stored job and the returned one are one object
      if id in jobs {
        jobs := jobs[id := job];
      }
      return Some(job);
    }

    method EvictLocked()
      modifies this
      ensures Snapshot() == Evicted(old(Snapshot()), maxTerminal)
    {
      ghost var n := 0;
      while |terminalOrder| > maxTerminal
        invariant n <= |old(terminalOrder)| && terminalOrder == old(terminalOrder)[n..]
        invariant n > 0 ==> maxTerminal <= |terminalOrder|
        invariant jobs == old(jobs) - Members(old(terminalOrder)[..n])
      {
        var oldId := terminalOrder[0];
        terminalOrder := terminalOrder[1..];
        jobs := jobs - {oldId};
        assert old(terminalOrder)[..n + 1] == old(terminalOrder)[..n] + [oldId];
        n := n + 1;
      }
    }
  }

  /** It is all the same whether a job is written before the eviction or, if it is still there, after. */
  lemma RewriteAfterEviction(jobs: map<JobId, Job>, id: JobId, first: Job, last: Job, order: seq<JobId>,
      maxTerminal: nat)
    ensures var s := Evicted(Store(jobs[id := first], order), maxTerminal);
            Evicted(Store(jobs[id := last], order), maxTerminal) ==
              if id in s.jobs then s.(jobs := s.jobs[id := last]) else s
  {
  }

  /** An update sets the fields it is given, merges the progress key by key, and leaves the rest; a
      job ends, and joins the finish order, exactly when an unfinished one becomes completed or failed. */
  lemma UpdateSets(s: Store, maxTerminal: nat, id: JobId, c: Change)
    requires id in s.jobs
    ensures var job, t := s.jobs[id], AfterUpdate(s, maxTerminal, id, c);
            && t.jobs.Keys <= s.jobs.Keys
            && (id in t.jobs ==>
                  var now := t.jobs[id];
                  && now.id == job.id && now.kind == job.kind
                  && now.createdBy == job.createdBy && now.caseId == job.caseId
                  && (if c.status.Some? then c.status == Some(now.status) else now.status == job.status)
                  && now.result == (if c.result.Some? then c.result else job.result)
                  && now.error == (if c.error.Some? then c.error else job.error)
                  && MergedProgress(job.progress, c.progress, now.progress))
            && (forall other :: other in t.jobs && other != id ==> t.jobs[other] == s.jobs[other])
            && t.order ==
               if (c.status == Some("completed") || c.status == Some("failed"))
                  && job.status != "completed" && job.status != "failed"
               then Last(s.order + [id], maxTerminal) else s.order
  {
    hide Last, Cut, Members;
  }

  ghost predicate MergedProgress(before: Fields, given: Option<Fields>, after: Fields) {
    if given.None? then after == before
    else
      && after.Keys == before.Keys + given.value.Keys
      && forall k :: k in after ==> after[k] == if k in given.value then given.value[k] else before[k]
  }

  // ----- Runs -----

  datatype Event = Create(job: Job) | Update(id: JobId, change: Change)

  function Apply(s: Store, maxTerminal: nat, e: Event): Store {
    match e
    case Create(job) => s.(jobs := s.jobs[job.id := job])
    case Update(id, c) => AfterUpdate(s, maxTerminal, id, c)
  }

  function Run(es: seq<Event>, maxTerminal: nat): Store {
    if es == [] then Store(map[], []) else Apply(Run(es[..|es| - 1], maxTerminal), maxTerminal, es[|es| - 1])
  }

  /** What every job created so far was left with: an update of an evicted job has no effect. */
  ghost function Ledger(es: seq<Event>, maxTerminal: nat): map<JobId, Job> {
    if es == [] then map[]
    else
      var before, e := es[..|es| - 1], es[|es| - 1];
      Recorded(Run(before, maxTerminal), Ledger(before, maxTerminal), e)
  }

  ghost function Recorded(s: Store, ledger: map<JobId, Job>, e: Event): map<JobId, Job> {
    match e
    case Create(job) => ledger[job.id := job]
    case Update(id, c) => if id in s.jobs then ledger[id := Changed(s.jobs[id], c)] else ledger
  }

  /** The event ends a job of the store. */
  ghost predicate Ending(s: Store, e: Event) {
    e.Update? && e.id in s.jobs && Ends(s.jobs[e.id], e.change)
  }

  /** The event sends a finished job of the store back to work. */
  ghost predicate Reopening(s: Store, e: Event) {
    && e.Update? && e.id in s.jobs && Terminal(s.jobs[e.id].status)
    && e.change.status.Some? && !Terminal(e.change.status.value)
  }

  /** An id for every time a job ended, in order. */
  ghost function Endings(es: seq<Event>, maxTerminal: nat): seq<JobId> {
    if es == [] then []
    else
      var before, e := es[..|es| - 1], es[|es| - 1];
      Endings(before, maxTerminal) + if Ending(Run(before, maxTerminal), e) then [e.id] else []
  }

  /** The job was sent back to work after it ended, and has not ended since. */
  ghost predicate Reopened(es: seq<Event>, maxTerminal: nat, id: JobId) {
    es != [] && (
      var before, e := es[..|es| - 1], es[|es| - 1];
      var s := Run(before, maxTerminal);
      if e.Update? && e.id == id && Reopening(s, e) then true
      else if e.Update? && e.id == id && Ending(s, e) then false
      else Reopened(before, maxTerminal, id)
    )
  }

  /** Every job is created queued, under an id of its own. */
  ghost predicate Fresh(es: seq<Event>, maxTerminal: nat) {
    es == [] || (
      var before, e := es[..|es| - 1], es[|es| - 1];
      && Fresh(before, maxTerminal)
      && (e.Create? ==> e.job.id !in Ledger(before, maxTerminal) && e.job.status == "queued")
    )
  }

  /** No finished job is sent back to work. */
  ghost predicate NoReopening(es: seq<Event>, maxTerminal: nat) {
    es == [] || (
      var before, e := es[..|es| - 1], es[|es| - 1];
      NoReopening(before, maxTerminal) && !Reopening(Run(before, maxTerminal), e)
    )
  }

  ghost predicate Distinct(ids: seq<JobId>) {
    forall i, j :: 0 <= i < j < |ids| ==> ids[i] != ids[j]
  }

  /** What the store holds, given every job created and the order in which jobs ended. */
  ghost predicate Exact(s: Store, maxTerminal: nat, ledger: map<JobId, Job>, endings: seq<JobId>) {
    && Members(endings) <= ledger.Keys
    && s.order == Last(endings, maxTerminal)
    && s.jobs.Keys == ledger.Keys - Members(Cut(endings, maxTerminal))
    && (forall id :: id in s.jobs ==> s.jobs[id] == ledger[id])
    && (forall id :: id in ledger && Terminal(ledger[id].status) ==> id in Members(endings))
  }

  lemma CutInTwoSteps(endings: seq<JobId>, id: JobId, n: nat)
    ensures var order := Last(endings, n) + [id];
            && Last(order, n) == Last(endings + [id], n)
            && Cut(endings, n) + Cut(order, n) == Cut(endings + [id], n)
  {
    var more := endings + [id];
    if |endings| < n {
      assert Cut(endings, n) == [] && Cut(more, n) == [];
    } else {
      var k := |endings| - n;
      var order := endings[k..] + [id];
      assert more[k..] == order;
      assert Last(order, n) == order[1..] == more[k + 1..] == Last(more, n);
      assert endings[..k] + order[..1] == more[..k + 1];
    }
  }

  lemma MembersOf(a: seq<JobId>, b: seq<JobId>)
    ensures Members(a + b) == Members(a) + Members(b)
  {
  }

  lemma CutIsPart(ids: seq<JobId>, n: nat)
    ensures Members(Cut(ids, n)) <= Members(ids)
  {
  }

  /** A job ends. */
  lemma ExactEnding(s: Store, maxTerminal: nat, ledger: map<JobId, Job>, endings: seq<JobId>, id: JobId, c: Change)
    requires Exact(s, maxTerminal, ledger, endings)
    requires id in s.jobs && Ends(s.jobs[id], c)
    ensures Exact(AfterUpdate(s, maxTerminal, id, c), maxTerminal, ledger[id := Changed(s.jobs[id], c)], endings + [id])
  {
    var order, changed := Last(endings, maxTerminal) + [id], Changed(s.jobs[id], c);
    var jobs, more := s.jobs[id := changed], ledger[id := changed];
    CutInTwoSteps(endings, id, maxTerminal);
    MembersOf(Cut(endings, maxTerminal), Cut(order, maxTerminal));
    MembersOf(endings, [id]);
    var t := AfterUpdate(s, maxTerminal, id, c);
    assert t == Store(jobs - Members(Cut(order, maxTerminal)), Last(order, maxTerminal));
    assert id in Members(endings + [id]) by { assert Members([id]) == {id}; }
    assert jobs.Keys == s.jobs.Keys && more.Keys == ledger.Keys;
    hide Members, Last, Cut, Changed, Ends, AfterUpdate;
    assert t.jobs.Keys == more.Keys - Members(Cut(endings + [id], maxTerminal));
    forall x | x in t.jobs ensures t.jobs[x] == more[x] {
      assert x in jobs;
    }
  }

  /** In every run the store holds every job ever created, as it was last left, save those cut
      from the order in which jobs ended; and it holds that order's last `maxTerminal` entries. */
  lemma {:induction false} RetentionIsExact(es: seq<Event>, maxTerminal: nat)
    requires Fresh(es, maxTerminal)
    ensures Exact(Run(es, maxTerminal), maxTerminal, Ledger(es, maxTerminal), Endings(es, maxTerminal))
  {
    if es != [] {
      var before, e := es[..|es| - 1], es[|es| - 1];
      RetentionIsExact(before, maxTerminal);
      var s, ledger, endings := Run(before, maxTerminal), Ledger(before, maxTerminal), Endings(before, maxTerminal);
      if Ending(s, e) {
        hide Exact, Changed, Evicted, Members;
        ExactEnding(s, maxTerminal, ledger, endings, e.id, e.change);
      } else {
        assert endings + [] == endings;
        hide Exact, Changed, Evicted, Members, AfterUpdate;
      }
    }
  }

  /** A created job is gone exactly when one of its endings has been cut. */
  lemma JobIsGoneExactlyWhen(es: seq<Event>, maxTerminal: nat, id: JobId)
    requires Fresh(es, maxTerminal) && id in Ledger(es, maxTerminal)
    ensures id !in Run(es, maxTerminal).jobs <==> id in Members(Cut(Endings(es, maxTerminal), maxTerminal))
  {
    RetentionIsExact(es, maxTerminal);
    hide Run, Ledger, Endings, Members, Cut;
  }

  /** A job that has ended is at work again exactly when it was reopened. */
  lemma {:induction false} AtWorkAgain(es: seq<Event>, maxTerminal: nat, id: JobId)
    requires Fresh(es, maxTerminal)
    ensures Reopened(es, maxTerminal, id) <==>
            && id in Ledger(es, maxTerminal) && !Terminal(Ledger(es, maxTerminal)[id].status)
            && id in Members(Endings(es, maxTerminal))
  {
    if es != [] {
      var before, e := es[..|es| - 1], es[|es| - 1];
      AtWorkAgain(before, maxTerminal, id);
      RetentionIsExact(before, maxTerminal);
      var s, ledger, endings := Run(before, maxTerminal), Ledger(before, maxTerminal), Endings(before, maxTerminal);
      MembersOf(endings, if Ending(s, e) then [e.id] else []);
    }
  }

  /** A queued or running job is gone exactly when it was reopened after an ending that has
      since been cut: the promise fails for those jobs and no others. */
  lemma UnfinishedIsGoneExactlyWhen(es: seq<Event>, maxTerminal: nat, id: JobId)
    requires Fresh(es, maxTerminal)
    ensures (id in Ledger(es, maxTerminal) && !Terminal(Ledger(es, maxTerminal)[id].status)
        && id !in Run(es, maxTerminal).jobs)
            <==> Reopened(es, maxTerminal, id) && id in Members(Cut(Endings(es, maxTerminal), maxTerminal))
  {
    AtWorkAgain(es, maxTerminal, id);
    if id in Ledger(es, maxTerminal) {
      JobIsGoneExactlyWhen(es, maxTerminal, id);
    }
    CutIsPart(Endings(es, maxTerminal), maxTerminal);
  }

  /** Without reopening no job ends twice, and the ended ones are those with a terminal status. */
  lemma {:induction false} EndsOnce(es: seq<Event>, maxTerminal: nat)
    requires Fresh(es, maxTerminal) && NoReopening(es, maxTerminal)
    ensures Distinct(Endings(es, maxTerminal))
    ensures forall id :: id in Ledger(es, maxTerminal) ==>
              (Terminal(Ledger(es, maxTerminal)[id].status) <==> id in Members(Endings(es, maxTerminal)))
  {
    forall id | id in Ledger(es, maxTerminal)
      ensures Terminal(Ledger(es, maxTerminal)[id].status) <==> id in Members(Endings(es, maxTerminal))
    {
      AtWorkAgain(es, maxTerminal, id);
      NeverReopened(es, maxTerminal, id);
      RetentionIsExact(es, maxTerminal);
    }
    if es != [] {
      var before, e := es[..|es| - 1], es[|es| - 1];
      EndsOnce(before, maxTerminal);
      RetentionIsExact(before, maxTerminal);
      if Ending(Run(before, maxTerminal), e) {
      } else {
        assert Endings(es, maxTerminal) == Endings(before, maxTerminal);
      }
    }
  }

  lemma {:induction false} NeverReopened(es: seq<Event>, maxTerminal: nat, id: JobId)
    requires NoReopening(es, maxTerminal)
    ensures !Reopened(es, maxTerminal, id)
  {
    if es != [] {
      NeverReopened(es[..|es| - 1], maxTerminal, id);
    }
  }

  /** Without reopening, jobs end once each; a created job is kept for as long as it is queued or
      running, and a finished one exactly while it is among the last `maxTerminal` to have ended. */
  lemma PromiseWithoutReopening(es: seq<Event>, maxTerminal: nat, id: JobId)
    requires Fresh(es, maxTerminal) && NoReopening(es, maxTerminal) && id in Ledger(es, maxTerminal)
    ensures var endings, status := Endings(es, maxTerminal), Ledger(es, maxTerminal)[id].status;
            && Distinct(endings)
            && (Terminal(status) <==> id in Members(endings))
            && (id in Run(es, maxTerminal).jobs <==> (Terminal(status) ==> id in Members(Last(endings, maxTerminal))))
  {
    EndsOnce(es, maxTerminal);
    JobIsGoneExactlyWhen(es, maxTerminal, id);
    var endings := Endings(es, maxTerminal);
    if id in Members(endings) {
    }
    CutIsPart(endings, maxTerminal);
  }

  // ----- A finished job that runs again -----

  const DONE := Change(Some("completed"), None, None, None)
  const AGAIN := Change(Some("running"), None, None, None)

  /** Each of the jobs is created and completed, one after the other. */
  function CreateAndComplete(s: Store, maxTerminal: nat, ids: seq<JobId>): Store {
    if ids == [] then s
    else
      var before, id := CreateAndComplete(s, maxTerminal, ids[..|ids| - 1]), ids[|ids| - 1];
      AfterUpdate(before.(jobs := before.jobs[id := NewJob(id, "", None, None, None)]), maxTerminal, id, DONE)
  }

  /** Whatever is cut from the finish order leaves the store, ended or not. */
  lemma {:induction false} CompletionsPush(s: Store, maxTerminal: nat, ids: seq<JobId>)
    requires |s.order| <= maxTerminal && Distinct(ids) && Members(ids) !! Members(s.order)
    ensures var t := CreateAndComplete(s, maxTerminal, ids);
            && t.order == Last(s.order + ids, maxTerminal)
            && t.jobs.Keys !! Members(Cut(s.order + ids, maxTerminal))
  {
    if ids == [] {
      assert s.order + ids == s.order;
      assert Members(Cut(s.order, maxTerminal)) == {};
    } else {
      var n := |ids| - 1;
      var id, before := ids[n], CreateAndComplete(s, maxTerminal, ids[..n]);
      assert ids == ids[..n] + [id];
      MembersOf(ids[..n], [id]);
      CompletionsPush(s, maxTerminal, ids[..n]);
      MembersOf(s.order, ids[..n]);
      assert id !in Members(ids[..n]) && id in Members(ids);
      assert s.order + ids == (s.order + ids[..n]) + [id];
      OnePush(before, maxTerminal, s.order + ids[..n], id);
    }
  }

  lemma OnePush(s: Store, maxTerminal: nat, all: seq<JobId>, id: JobId)
    requires s.order == Last(all, maxTerminal) && id !in Members(all)
    requires s.jobs.Keys !! Members(Cut(all, maxTerminal))
    ensures var t := AfterUpdate(s.(jobs := s.jobs[id := NewJob(id, "", None, None, None)]), maxTerminal, id, DONE);
            && t.order == Last(all + [id], maxTerminal)
            && t.jobs.Keys !! Members(Cut(all + [id], maxTerminal))
  {
    CutInTwoSteps(all, id, maxTerminal);
    MembersOf(Cut(all, maxTerminal), Cut(s.order + [id], maxTerminal));
    CutIsPart(all, maxTerminal);
    hide Last, Cut, Members;
  }

  /** A job in the finish order is lost once enough others have finished after it, running or not:
      what keeps an unfinished job is only that it is not in the finish order. */
  lemma ReopenedJobIsEvicted(s: Store, maxTerminal: nat, p: nat, ids: seq<JobId>)
    requires p < |s.order| <= maxTerminal && Distinct(ids) && Members(ids) !! Members(s.order)
    requires |s.order| + |ids| > maxTerminal + p
    ensures s.order[p] !in CreateAndComplete(s, maxTerminal, ids).jobs
  {
    CompletionsPush(s, maxTerminal, ids);
    assert Cut(s.order + ids, maxTerminal)[p] == s.order[p];
  }

  /** With room for one finished job: `a` ends and runs again, `b` ends, and the running `a` is gone. */
  lemma ReopeningLosesARunningJob()
    ensures var a, b := NewJob(JobId("a"), "", None, None, None), NewJob(JobId("b"), "", None, None, None);
            var s0 := Apply(Apply(Store(map[], []), 1, Create(a)), 1, Create(b));
            var s1 := Apply(Apply(s0, 1, Update(a.id, DONE)), 1, Update(a.id, AGAIN));
            var s2 := Apply(s1, 1, Update(b.id, DONE));
            && s1.jobs.Keys == {a.id, b.id} && s1.jobs[a.id].status == "running"
            && s2.jobs.Keys == {b.id}
  {
    var a, b := NewJob(JobId("a"), "", None, None, None), NewJob(JobId("b"), "", None, None, None);
    var s0 := Apply(Apply(Store(map[], []), 1, Create(a)), 1, Create(b));
    assert "a"[0] != "b"[0];
    assert s0 == Store(map[a.id := a, b.id := b], []);
    EndsFirst(s0, a.id);
    var s1 := Apply(Apply(s0, 1, Update(a.id, DONE)), 1, Update(a.id, AGAIN));
    assert s1.order == [a.id] && s1.jobs[b.id] == b;
    assert s1.order + [b.id] == [a.id, b.id];
    assert Last([a.id, b.id], 1) == [b.id];
    assert [a.id, b.id][..1] == [a.id] && Members([a.id]) == {a.id};
  }

  lemma EndsFirst(s: Store, id: JobId)
    requires s.order == [] && id in s.jobs && !Terminal(s.jobs[id].status)
    ensures AfterUpdate(s, 1, id, DONE) == Store(s.jobs[id := Changed(s.jobs[id], DONE)], [id])
  {
    assert s.order + [id] == [id];
    assert Last([id], 1) == [id];
    assert Members([id][..0]) == {};
  }
}
