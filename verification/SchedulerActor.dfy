/** The event loop of the maintenance scheduler (`run` in
    internal/engine/maintenance_scheduler.go): every event keeps the lease invariant, and
    outside shutdown also what progress rests on. */
module SchedulerActor {
  import opened RecordLog
  import opened Scheduler
  import opened SchedulerBook

  /** Keys of `byKey`; None for an explicit segment request, which never coalesces. */
  function KeyOf(r: Request): Option<nat> {
    if r.kind == CheckpointJob then Some(1)
    else if r.kind == MappingGC then Some(2)
    else if r.kind == Survey then Some(3)
    else if r.background then Some(4) else None
  }

  datatype Loop = Loop(jobs: Jobs, pending: seq<JobID>, active: set<JobID>, leased: set<Resource>,
                       byKey: map<nat, JobID>, next: JobID, sequence: nat, closing: bool, book: Book)

  predicate Registered(jobs: Jobs, byKey: map<nat, JobID>, next: JobID) {
    && (forall k <- byKey :: byKey[k] in jobs && KeyOf(jobs[byKey[k]].request) == Some(k))
    && (forall j <- jobs :: j < next)
  }

  predicate Little(jobs: Jobs) { forall j <- jobs :: HoldsLittle(jobs[j]) }

  predicate Lively(jobs: Jobs, pending: seq<JobID>, active: set<JobID>) {
    Somewhere(jobs, pending, active) && Wakeable(jobs)
  }

  /** Held in every state of the loop, also while it shuts down. */
  predicate Safe(jobs: Jobs, pending: seq<JobID>, active: set<JobID>, leased: set<Resource>, byKey: map<nat, JobID>,
                 next: JobID) {
    && Exclusive(jobs, active, leased) && Queued(jobs, pending, active) && Registered(jobs, byKey, next)
    && Placed(jobs, pending, active) && Little(jobs)
  }

  predicate Ok(a: Loop) {
    && Safe(a.jobs, a.pending, a.active, a.leased, a.byKey, a.next)
    && (!a.closing ==> Lively(a.jobs, a.pending, a.active))
  }

  /** The lease and progress invariants, and the order of waits and runs. */
  predicate Good(a: Loop) { Ok(a) && Timely(a.jobs, a.active, a.book, {}) }

  // -------------------------------------------------------------------- queueing

  lemma QueuedMore(jobs: Jobs, pending: seq<JobID>, active: set<JobID>, id: JobID)
    requires Queued(jobs, pending, active) && id in jobs && id !in active && id !in pending
    ensures Queued(jobs, pending + [id], active)
  {
  }

  function Without(pending: seq<JobID>, id: JobID): seq<JobID> {
    if pending == [] then [] else if pending[0] == id then pending[1..] else [pending[0]] + Without(pending[1..], id)
  }

  lemma DistinctPrepend(x: JobID, s: seq<JobID>)
    requires Distinct(s) && x !in s
    ensures Distinct([x] + s)
  {
  }

  lemma {:induction false} WithoutKeeps(pending: seq<JobID>, id: JobID)
    requires Distinct(pending)
    ensures Distinct(Without(pending, id))
    ensures forall x :: x in Without(pending, id) <==> x in pending && x != id
  {
    if pending != [] {
      var rest := pending[1..];
      assert pending == [pending[0]] + rest;
      WithoutKeeps(rest, id);
      forall x <- rest ensures x != pending[0] {
        var k :| 0 <= k < |rest| && rest[k] == x;
        assert pending[k + 1] == x;
      }
      if pending[0] != id { DistinctPrepend(pending[0], Without(rest, id)); }
    }
  }

  // -------------------------------------------------------------------- dispatch

  predicate Better(a: Job, b: Job) {
    Priority(a.request.kind) > Priority(b.request.kind)
    || (Priority(a.request.kind) == Priority(b.request.kind) && a.sequence < b.sequence)
  }

  /** Checkpoints go first, then segment maintenance, then the rest; in turn within a class. */
  predicate GoesFirst(a: Job, b: Job) {
    && (b.request.kind == CheckpointJob ==> a.request.kind == CheckpointJob)
    && (IsSegment(b.request.kind) ==> a.request.kind == CheckpointJob || IsSegment(a.request.kind))
    && (SameClass(a.request.kind, b.request.kind) ==> a.sequence <= b.sequence)
  }

  predicate SameClass(a: Kind, b: Kind) {
    (a == CheckpointJob <==> b == CheckpointJob) && (IsSegment(a) <==> IsSegment(b))
  }

  /** A queued job that can start, and goes before every other that can. */
  predicate FirstInLine(jobs: Jobs, pending: seq<JobID>, leased: set<Resource>, id: JobID) {
    && id in pending && id in jobs && Need(jobs[id]) !! leased
    && forall p <- pending :: p in jobs && Need(jobs[p]) !! leased ==> GoesFirst(jobs[id], jobs[p])
  }

  /** The startable job with the highest priority, oldest first. */
  method PickBest(jobs: Jobs, pending: seq<JobID>, leased: set<Resource>) returns (best: Option<JobID>)
    requires forall p <- pending :: p in jobs
    ensures best.None? <==> Dispatched(jobs, pending, leased)
    ensures best.Some? ==> best.value in pending && Need(jobs[best.value]) !! leased
    ensures best.Some? ==> forall p <- pending :: Need(jobs[p]) !! leased ==> !Better(jobs[p], jobs[best.value])
    ensures best.Some? ==> FirstInLine(jobs, pending, leased, best.value)
  {
    best := None;
    for i := 0 to |pending|
      invariant best.None? ==> Dispatched(jobs, pending[..i], leased)
      invariant best.Some? ==> best.value in pending[..i] && Need(jobs[best.value]) !! leased
      invariant best.Some? ==> forall p <- pending[..i] :: Need(jobs[p]) !! leased ==>
                !Better(jobs[p], jobs[best.value])
    {
      var p := pending[i];
      assert pending[..i + 1] == pending[..i] + [p];
      if Need(jobs[p]) !! leased && (best.None? || Better(jobs[p], jobs[best.value])) { best := Some(p); }
    }
    assert pending[..|pending|] == pending;
  }

  function Started(a: Loop, id: JobID): Loop
    requires id in a.jobs
  {
    a.(jobs := a.jobs[id := a.jobs[id].(running := Need(a.jobs[id]))], leased := a.leased + Need(a.jobs[id]),
       active := a.active + {id}, pending := Without(a.pending, id), book := Launched(a.book, id))
  }

  lemma StartedOk(a: Loop, id: JobID)
    requires Ok(a) && id in a.pending && Need(a.jobs[id]) !! a.leased
    ensures Ok(Started(a, id))
  {
    StartedExclusive(a.jobs, a.active, a.leased, id);
    WithoutKeeps(a.pending, id);
    StartedPlaced(a.jobs, a.pending, a.active, id);
    if !a.closing { StartedLively(a.jobs, a.pending, a.active, id); }
  }

  lemma StartedExclusive(jobs: Jobs, active: set<JobID>, leased: set<Resource>, id: JobID)
    requires Exclusive(jobs, active, leased) && id in jobs && id !in active && Need(jobs[id]) !! leased
    ensures Exclusive(jobs[id := jobs[id].(running := Need(jobs[id]))], active + {id}, leased + Need(jobs[id]))
  {
    var job := jobs[id].(running := Need(jobs[id]));
    assert RunsWithin(jobs[id], false);
    Reassigned(jobs, leased, id, job);
    assert leased - Owned(jobs[id]) + Owned(job) == leased + Need(jobs[id]) by { assert Owned(jobs[id]) <= leased; }
    StartedRunning(jobs, active, id);
  }

  lemma StartedRunning(jobs: Jobs, active: set<JobID>, id: JobID)
    requires RunningIs(jobs, active) && id in jobs && id !in active
    ensures RunningIs(jobs[id := jobs[id].(running := Need(jobs[id]))], active + {id})
  {
    var jobs2 := jobs[id := jobs[id].(running := Need(jobs[id]))];
    forall j <- jobs2 ensures RunsWithin(jobs2[j], j in active + {id}) { assert RunsWithin(jobs[j], j in active); }
  }

  lemma StartedPlaced(jobs: Jobs, pending: seq<JobID>, active: set<JobID>, id: JobID)
    requires Placed(jobs, pending, active) && Little(jobs) && Queued(jobs, pending, active) && id in pending
    ensures var jobs2 := jobs[id := jobs[id].(running := Need(jobs[id]))];
            Placed(jobs2, Without(pending, id), active + {id}) && Little(jobs2)
  {
    var jobs2 := jobs[id := jobs[id].(running := Need(jobs[id]))];
    WithoutKeeps(pending, id);
    forall j <- jobs2 ensures HoldsLittle(jobs2[j]) && Place(jobs2[j], j in active + {id}) {
      assert HoldsLittle(jobs[j]) && Place(jobs[j], j in active);
    }
  }

  lemma StartedLively(jobs: Jobs, pending: seq<JobID>, active: set<JobID>, id: JobID)
    requires Lively(jobs, pending, active) && Queued(jobs, pending, active) && id in pending
    ensures Lively(jobs[id := jobs[id].(running := Need(jobs[id]))], Without(pending, id), active + {id})
  {
    WithoutKeeps(pending, id);
    SameWakeable(jobs, id, jobs[id].(running := Need(jobs[id])));
  }

  /** A job that keeps its kind, its waiting flag and its dependents changes nothing about wake-ups. */
  lemma SameWakeable(jobs: Jobs, id: JobID, job: Job)
    requires Wakeable(jobs) && id in jobs && (job.waiting ==> jobs[id].waiting)
    requires job.request.kind == jobs[id].request.kind && jobs[id].dependents <= job.dependents
    requires jobs[id].nextDependents <= job.nextDependents && (jobs[id].runAgain ==> job.runAgain)
    ensures Wakeable(jobs[id := job])
  {
    var jobs2 := jobs[id := job];
    forall j <- jobs2 | jobs2[j].waiting ensures exists d <- jobs2 :: Awaits(jobs2, d, j) {
      var d :| d in jobs && Awaits(jobs, d, j);
      assert Awaits(jobs2, d, j);
    }
  }

  /** A job of b is the job of a, started or not. */
  predicate SameOrStarted(a: Job, b: Job) { b == a || b == a.(running := Need(a)) }

  /** From a to b some queued jobs were started, and nothing else happened. */
  predicate OnlyStarted(a: Loop, b: Loop) {
    && b.byKey == a.byKey && b.next == a.next && b.sequence == a.sequence && b.closing == a.closing
    && a.active <= b.active && JobsStarted(a.jobs, b.jobs, a.active) && CallsStarted(a.book, b.book)
  }

  predicate JobsStarted(jobs: Jobs, after: Jobs, active: set<JobID>) {
    && after.Keys == jobs.Keys && (forall j <- jobs :: SameOrStarted(jobs[j], after[j]))
    && (forall j <- active :: j in jobs ==> after[j] == jobs[j])
  }

  predicate CallsStarted(a: Book, b: Book) {
    && b.succeeded == a.succeeded && b.clock >= a.clock && b.calls.Keys == a.calls.Keys
    && (forall j <- a.calls :: SameButStart(a.calls[j], b.calls[j]))
  }

  predicate SameButStart(a: Call, b: Call) { b == a.(started := b.started) }

  lemma StartedMore(a0: Loop, a: Loop, id: JobID)
    requires OnlyStarted(a0, a) && id in a.jobs && id !in a.active && a.jobs[id].running == {} && id in a.book.calls
    ensures OnlyStarted(a0, Started(a, id))
  {
    JobsStartedMore(a0.jobs, a.jobs, a0.active, id, a.jobs[id].(running := Need(a.jobs[id])));
    CallsStartedMore(a0.book, a.book, id);
  }

  lemma JobsStartedMore(jobs0: Jobs, jobs: Jobs, active: set<JobID>, id: JobID, job: Job)
    requires JobsStarted(jobs0, jobs, active) && id in jobs && id !in active && jobs[id].running == {}
    requires job == jobs[id].(running := Need(jobs[id]))
    ensures JobsStarted(jobs0, jobs[id := job], active)
  {
    assert jobs[id := job].Keys == jobs.Keys;
  }

  lemma CallsStartedMore(book0: Book, book: Book, id: JobID)
    requires CallsStarted(book0, book) && id in book.calls
    ensures CallsStarted(book0, Launched(book, id))
  {
    assert Launched(book, id).calls.Keys == book.calls.Keys;
    assert SameButStart(book0.calls[id], book.calls[id]);
  }

  lemma StartedFollows(a: Loop, b: Loop)
    requires OnlyStarted(a, b)
    ensures Follows(a.book, b.book, {})
  {
    forall j <- b.book.calls ensures CallFollows(a.book, b.book.calls[j], j) {
      assert SameButStart(a.book.calls[j], b.book.calls[j]);
    }
  }

  /** The first in line is started again and again until nothing can start. */
  ghost predicate InTurn(a: Loop, b: Loop)
    decreases |a.pending|
  {
    if Dispatched(a.jobs, a.pending, a.leased) then b == a
    else exists id :: FirstInLine(a.jobs, a.pending, a.leased, id)
                      && |Without(a.pending, id)| < |a.pending| && InTurn(Started(a, id), b)
  }

  method Dispatch(a0: Loop) returns (a: Loop)
    requires Good(a0)
    ensures Good(a) && Dispatched(a.jobs, a.pending, a.leased) && OnlyStarted(a0, a) && InTurn(a0, a)
  {
    a := a0;
    StartedNothing(a0);
    var more := true;
    while more
      invariant Good(a) && OnlyStarted(a0, a) && (!more ==> Dispatched(a.jobs, a.pending, a.leased))
      invariant forall b :: InTurn(a, b) ==> InTurn(a0, b)
      decreases |a.pending|, more
    {
      a, more := DispatchOne(a, a0);
    }
  }

  lemma StartedNothing(a: Loop)
    ensures OnlyStarted(a, a)
  {
  }

  method DispatchOne(a: Loop, ghost a0: Loop) returns (b: Loop, more: bool)
    requires Good(a) && OnlyStarted(a0, a)
    ensures Good(b) && OnlyStarted(a0, b)
    ensures if more then |b.pending| < |a.pending| else b == a && Dispatched(a.jobs, a.pending, a.leased)
    ensures forall c :: InTurn(b, c) ==> InTurn(a, c)
  {
    var best := PickBest(a.jobs, a.pending, a.leased);
    if best.None? { return a, false; }
    StartedGood(a, best.value);
    StartedMore(a0, a, best.value);
    Shorter(a.pending, best.value);
    return Started(a, best.value), true;
  }

  lemma StartedGood(a: Loop, id: JobID)
    requires Good(a) && id in a.pending && Need(a.jobs[id]) !! a.leased
    ensures Good(Started(a, id)) && id in a.jobs && id !in a.active && a.jobs[id].running == {} && id in a.book.calls
  {
    StartedOk(a, id);
    QueuedIsIdle(a, id);
    StartedTimely(a, id, a.jobs[id].(running := Need(a.jobs[id])));
  }

  lemma StartedTimely(a: Loop, id: JobID, job: Job)
    requires Timely(a.jobs, a.active, a.book, {}) && id in a.jobs
    requires id !in a.active && job == a.jobs[id].(running := job.running)
    ensures id in a.book.calls && Timely(a.jobs[id := job], a.active + {id}, Launched(a.book, id), {})
  {
    LaunchedTimely(a.jobs, a.active, a.book, id, job);
  }

  lemma QueuedIsIdle(a: Loop, id: JobID)
    requires Ok(a) && id in a.pending
    ensures id in a.jobs && id !in a.active && a.jobs[id].running == {}
  {
    assert RunsWithin(a.jobs[id], false);
  }

  lemma {:induction false} Shorter(pending: seq<JobID>, id: JobID)
    requires id in pending
    ensures |Without(pending, id)| < |pending|
  {
    if pending[0] != id { Shorter(pending[1..], id); }
  }

  // -------------------------------------------------------------------- requests

  function Merged(a: Request, b: Request): Request {
    Request(a.kind, a.automatic || b.automatic, a.background || b.background, a.force || b.force)
  }

  function NewJob(r: Request, sequence: nat): Job {
    Job(r, sequence, Start, {}, {}, false, false, {}, {}, false)
  }

  function SetOf(dependent: Option<JobID>): set<JobID> { if dependent.Some? then {dependent.value} else {} }

  /** What `enqueue` does to a job that already exists under the request's key. */
  function Joined(job: Job, r: Request, dependent: Option<JobID>, running: bool): Job {
    if running && r.kind == CheckpointJob
    then job.(runAgain := true, nextDependents := job.nextDependents + SetOf(dependent))
    else job.(request := if running then job.request else Merged(job.request, r),
         dependents := job.dependents + SetOf(dependent))
  }

  function Enqueued(a: Loop, r: Request, dependent: Option<JobID>): Loop
    requires Registered(a.jobs, a.byKey, a.next)
  {
    var key := KeyOf(r);
    if key.Some? && key.value in a.byKey then
      var id := a.byKey[key.value];
      a.(jobs := a.jobs[id := Joined(a.jobs[id], r, dependent, id in a.active)],
         book := WithCall(a.book, id, JoinedCall(CallOf(a.book, id), r, id in a.active)))
    else
      WithJob(a, NewJob(r, a.sequence + 1).(dependents := SetOf(dependent)))
  }

  /** All is well, except that these waiting jobs may not be registered anywhere yet. */
  predicate OkBut(a: Loop, lost: set<JobID>) {
    && Safe(a.jobs, a.pending, a.active, a.leased, a.byKey, a.next)
    && (!a.closing ==> Somewhere(a.jobs, a.pending, a.active) && WakeableBut(a.jobs, lost))
  }

  predicate WakeableBut(jobs: Jobs, lost: set<JobID>) {
    forall j <- jobs | jobs[j].waiting && j !in lost :: exists d <- jobs :: Awaits(jobs, d, j)
  }

  lemma JoinedExclusive(jobs: Jobs, active: set<JobID>, leased: set<Resource>, id: JobID, job: Job)
    requires Exclusive(jobs, active, leased) && id in jobs
    requires job.held == jobs[id].held && job.running == jobs[id].running
    requires id in active ==> job.request == jobs[id].request && job.phase == jobs[id].phase
    ensures Exclusive(jobs[id := job], active, leased)
  {
    Reassigned(jobs, leased, id, job);
    assert leased - Owned(jobs[id]) + Owned(job) == leased by { assert Owned(jobs[id]) <= leased; }
    var jobs2 := jobs[id := job];
    forall j <- jobs2 ensures RunsWithin(jobs2[j], j in active) { assert RunsWithin(jobs[j], j in active); }
  }

  lemma JoinedWakeable(jobs: Jobs, active: set<JobID>, id: JobID, r: Request, dependent: Option<JobID>)
    requires id in jobs && WakeableBut(jobs, SetOf(dependent))
    requires dependent.Some? ==> r.kind == CheckpointJob && jobs[id].request.kind == CheckpointJob
    ensures Wakeable(jobs[id := Joined(jobs[id], r, dependent, id in active)])
  {
    var jobs2 := jobs[id := Joined(jobs[id], r, dependent, id in active)];
    forall j <- jobs2 | jobs2[j].waiting ensures exists d <- jobs2 :: Awaits(jobs2, d, j) {
      if dependent == Some(j) {
        assert Awaits(jobs2, id, j);
      } else {
        var d :| d in jobs && Awaits(jobs, d, j);
        assert Awaits(jobs2, d, j);
      }
    }
  }

  lemma EnqueuedOk(a: Loop, r: Request, dependent: Option<JobID>)
    requires OkBut(a, SetOf(dependent)) && (dependent.Some? ==> r.kind == CheckpointJob)
    ensures Ok(Enqueued(a, r, dependent))
  {
    var key, b := KeyOf(r), Enqueued(a, r, dependent);
    if key.Some? && key.value in a.byKey {
      var id := a.byKey[key.value];
      assert b == a.(jobs := a.jobs[id := Joined(a.jobs[id], r, dependent, id in a.active)], book := b.book);
      JoinedOk(a, r, dependent, id, b.book);
    } else {
      var job := NewJob(r, a.sequence + 1).(dependents := SetOf(dependent));
      assert b == WithJob(a, job);
      AddedOk(a, job, dependent);
    }
  }

  function WithJob(a: Loop, job: Job): Loop {
    var key := KeyOf(job.request);
    a.(jobs := a.jobs[a.next := job], pending := a.pending + [a.next], next := a.next + 1, sequence := a.sequence + 1,
       byKey := if key.Some? then a.byKey[key.value := a.next] else a.byKey,
       book := WithCall(a.book, a.next, NewCall(job.request)))
  }

  lemma AddedOk(a: Loop, job: Job, dependent: Option<JobID>)
    requires OkBut(a, SetOf(dependent)) && job.held == {} && job.running == {} && !job.waiting && !job.retrying
    requires dependent.Some? ==> job.request.kind == CheckpointJob && dependent.value in job.dependents
    ensures Ok(WithJob(a, job))
  {
    AddedSafe(a, job, dependent);
    AddedPlaced(a, job, dependent);
    if !a.closing { AddedLively(a, job, dependent); }
    AddedRegistered(a, job);
  }

  lemma AddedPlaced(a: Loop, job: Job, dependent: Option<JobID>)
    requires OkBut(a, SetOf(dependent)) && job.held == {} && !job.waiting && !job.retrying
    ensures Placed(a.jobs[a.next := job], a.pending + [a.next], a.active) && Little(a.jobs[a.next := job])
  {
    var jobs := a.jobs[a.next := job];
    forall j <- jobs ensures HoldsLittle(jobs[j]) && Place(jobs[j], j in a.active) {
      if j != a.next { assert HoldsLittle(a.jobs[j]) && Place(a.jobs[j], j in a.active); }
    }
  }

  lemma AddedRegistered(a: Loop, job: Job)
    requires Registered(a.jobs, a.byKey, a.next)
    ensures var b := WithJob(a, job); Registered(b.jobs, b.byKey, b.next)
  {
  }

  lemma JoinedOk(a: Loop, r: Request, dependent: Option<JobID>, id: JobID, book: Book)
    requires OkBut(a, SetOf(dependent)) && (dependent.Some? ==> r.kind == CheckpointJob)
    requires KeyOf(r).Some? && KeyOf(r).value in a.byKey && id == a.byKey[KeyOf(r).value]
    ensures Ok(a.(jobs := a.jobs[id := Joined(a.jobs[id], r, dependent, id in a.active)], book := book))
  {
    JoinedSafe(a, r, dependent, id);
    if !a.closing { JoinedLively(a, r, dependent, id); }
    Assembled(a, a.jobs[id := Joined(a.jobs[id], r, dependent, id in a.active)], book);
  }

  lemma Assembled(a: Loop, jobs: Jobs, book: Book)
    requires Safe(jobs, a.pending, a.active, a.leased, a.byKey, a.next)
    requires !a.closing ==> Lively(jobs, a.pending, a.active)
    ensures Ok(a.(jobs := jobs, book := book))
  {
  }

  lemma JoinedSafe(a: Loop, r: Request, dependent: Option<JobID>, id: JobID)
    requires OkBut(a, SetOf(dependent)) && KeyOf(r).Some? && KeyOf(r).value in a.byKey && id == a.byKey[KeyOf(r).value]
    ensures Safe(a.jobs[id := Joined(a.jobs[id], r, dependent, id in a.active)],
            a.pending, a.active, a.leased, a.byKey, a.next)
  {
    var job := Joined(a.jobs[id], r, dependent, id in a.active);
    JoinedSame(a.jobs, a.byKey, a.next, r, dependent, id, id in a.active);
    Replaced(a.jobs, a.pending, a.active, a.leased, a.byKey, a.next, id, job);
  }

  lemma JoinedSame(jobs: Jobs, byKey: map<nat, JobID>, next: JobID, r: Request, dependent: Option<JobID>, id: JobID,
                   running: bool)
    requires Registered(jobs, byKey, next) && KeyOf(r).Some? && KeyOf(r).value in byKey && id == byKey[KeyOf(r).value]
    ensures id in jobs && KeyOf(Joined(jobs[id], r, dependent, running).request) == KeyOf(jobs[id].request)
    ensures Joined(jobs[id], r, dependent, running).request.kind == jobs[id].request.kind
  {
  }

  lemma Replaced(jobs: Jobs, pending: seq<JobID>, active: set<JobID>, leased: set<Resource>, byKey: map<nat, JobID>,
                 next: JobID,
                 id: JobID, job: Job)
    requires Safe(jobs, pending, active, leased, byKey, next) && id in jobs
    requires job.held == jobs[id].held && job.running == jobs[id].running
    requires job.waiting == jobs[id].waiting && job.retrying == jobs[id].retrying
    requires job.request.kind == jobs[id].request.kind && KeyOf(job.request) == KeyOf(jobs[id].request)
    requires id in active ==> job.request == jobs[id].request && job.phase == jobs[id].phase
    ensures Safe(jobs[id := job], pending, active, leased, byKey, next)
  {
    JoinedExclusive(jobs, active, leased, id, job);
    JoinedRegistered(jobs, byKey, next, id, job);
    JoinedPlaced(jobs, pending, active, id, job);
  }

  lemma JoinedLively(a: Loop, r: Request, dependent: Option<JobID>, id: JobID)
    requires OkBut(a, SetOf(dependent)) && (dependent.Some? ==> r.kind == CheckpointJob) && !a.closing
    requires KeyOf(r).Some? && KeyOf(r).value in a.byKey && id == a.byKey[KeyOf(r).value]
    ensures Lively(a.jobs[id := Joined(a.jobs[id], r, dependent, id in a.active)], a.pending, a.active)
  {
    JoinedWakeable(a.jobs, a.active, id, r, dependent);
  }

  lemma JoinedRegistered(jobs: Jobs, byKey: map<nat, JobID>, next: JobID, id: JobID, job: Job)
    requires Registered(jobs, byKey, next) && id in jobs && KeyOf(job.request) == KeyOf(jobs[id].request)
    ensures Registered(jobs[id := job], byKey, next)
  {
  }

  lemma JoinedPlaced(jobs: Jobs, pending: seq<JobID>, active: set<JobID>, id: JobID, job: Job)
    requires Placed(jobs, pending, active) && Little(jobs) && id in jobs
    requires job.waiting == jobs[id].waiting && job.retrying == jobs[id].retrying && job.held == jobs[id].held
    requires job.request.kind == jobs[id].request.kind
    ensures Placed(jobs[id := job], pending, active) && Little(jobs[id := job])
  {
    var jobs2 := jobs[id := job];
    forall j <- jobs2 ensures HoldsLittle(jobs2[j]) && Place(jobs2[j], j in active) {
      assert HoldsLittle(jobs[j]) && Place(jobs[j], j in active);
    }
  }

  lemma AddedSafe(a: Loop, job: Job, dependent: Option<JobID>)
    requires OkBut(a, SetOf(dependent)) && job.held == {} && job.running == {}
    ensures var jobs := a.jobs[a.next := job];
            Exclusive(jobs, a.active, a.leased) && Queued(jobs, a.pending + [a.next], a.active)
  {
    var jobs := a.jobs[a.next := job];
    Added(a.jobs, a.leased, a.next, job);
    forall j <- jobs ensures RunsWithin(jobs[j], j in a.active) {
      if j != a.next { assert RunsWithin(a.jobs[j], j in a.active); }
    }
    QueuedMore(jobs, a.pending, a.active, a.next);
  }

  lemma AddedLively(a: Loop, job: Job, dependent: Option<JobID>)
    requires OkBut(a, SetOf(dependent)) && job.held == {} && !job.waiting && !job.retrying && !a.closing
    requires dependent.Some? ==> job.request.kind == CheckpointJob && dependent.value in job.dependents
    ensures Lively(a.jobs[a.next := job], a.pending + [a.next], a.active)
  {
    var jobs := a.jobs[a.next := job];
    forall j <- jobs | jobs[j].waiting ensures exists d <- jobs :: Awaits(jobs, d, j) {
      if dependent == Some(j) {
        assert Awaits(jobs, a.next, j);
      } else {
        var d :| d in a.jobs && Awaits(a.jobs, d, j);
        assert Awaits(jobs, d, j);
      }
    }
  }

  /** Whoever is to depend on the requested job waits already, and nobody has it on record. */
  predicate MayDepend(jobs: Jobs, r: Request, dependent: Option<JobID>) {
    dependent.Some? ==>
      r.kind == CheckpointJob && r.force && dependent.value in jobs && jobs[dependent.value].waiting
        && Unrecorded(jobs, dependent.value)
  }

  lemma EnqueuedTimely(a: Loop, r: Request, dependent: Option<JobID>)
    requires Registered(a.jobs, a.byKey, a.next) && Timely(a.jobs, a.active, a.book, {}) && a.active <= a.jobs.Keys
    requires MayDepend(a.jobs, r, dependent)
    ensures var b := Enqueued(a, r, dependent); Timely(b.jobs, b.active, b.book, {})
  {
    var key := KeyOf(r);
    if key.Some? && key.value in a.byKey {
      EnqueuedJoins(a, r, dependent, a.byKey[key.value]);
    } else {
      EnqueuedAdds(a, r, dependent, NewJob(r, a.sequence + 1).(dependents := SetOf(dependent)));
    }
  }

  lemma EnqueuedJoins(a: Loop, r: Request, dependent: Option<JobID>, id: JobID)
    requires Registered(a.jobs, a.byKey, a.next) && Timely(a.jobs, a.active, a.book, {})
    requires MayDepend(a.jobs, r, dependent) && KeyOf(r).Some?
    requires KeyOf(r).value in a.byKey && id == a.byKey[KeyOf(r).value]
    ensures var b := Enqueued(a, r, dependent); Timely(b.jobs, b.active, b.book, {})
  {
    JoinTimely(a.jobs, a.active, a.book, r, dependent, id);
    assert Enqueued(a, r, dependent).jobs == a.jobs[id := Joined(a.jobs[id], r, dependent, id in a.active)];
  }

  lemma EnqueuedAdds(a: Loop, r: Request, dependent: Option<JobID>, job: Job)
    requires Registered(a.jobs, a.byKey, a.next) && Timely(a.jobs, a.active, a.book, {}) && a.active <= a.jobs.Keys
    requires MayDepend(a.jobs, r, dependent) && !(KeyOf(r).Some? && KeyOf(r).value in a.byKey)
    requires job == NewJob(r, a.sequence + 1).(dependents := SetOf(dependent))
    ensures var b := Enqueued(a, r, dependent); Timely(b.jobs, b.active, b.book, {})
  {
    assert a.next !in a.jobs;
    AddTimely(a.jobs, a.active, a.book, r, dependent, a.next, job);
    assert Enqueued(a, r, dependent) == WithJob(a, job);
  }

  lemma JoinTimely(jobs: Jobs, active: set<JobID>, book: Book, r: Request, dependent: Option<JobID>, id: JobID)
    requires Timely(jobs, active, book, {}) && id in jobs && KeyOf(r).Some? && KeyOf(jobs[id].request) == KeyOf(r)
    requires MayDepend(jobs, r, dependent)
    ensures Timely(jobs[id := Joined(jobs[id], r, dependent, id in active)], active,
                   WithCall(book, id, JoinedCall(CallOf(book, id), r, id in active)), {})
  {
    var job := Joined(jobs[id], r, dependent, id in active);
    JoinsAs(jobs[id], r, dependent, id in active);
    JoinedTimely(jobs, active, book, id, job, r, SetOf(dependent));
  }

  lemma JoinsAs(job: Job, r: Request, dependent: Option<JobID>, running: bool)
    requires KeyOf(r).Some? && KeyOf(job.request) == KeyOf(r)
    ensures JoinsWith(Joined(job, r, dependent, running), job, SetOf(dependent), running && r.kind == CheckpointJob)
    ensures job.request.kind == CheckpointJob <==> r.kind == CheckpointJob
  {
  }

  lemma AddTimely(jobs: Jobs, active: set<JobID>, book: Book, r: Request, dependent: Option<JobID>, id: JobID, job: Job)
    requires Timely(jobs, active, book, {}) && id !in jobs && id !in active && MayDepend(jobs, r, dependent)
    requires job.request == r && !job.waiting && job.dependents == SetOf(dependent) && job.nextDependents == {}
    ensures Timely(jobs[id := job], active, WithCall(book, id, NewCall(r)), {})
  {
    AddedTimely(jobs, active, book, id, job, SetOf(dependent), r, NewCall(r));
  }

  lemma EnqueuedGood(a: Loop, r: Request)
    requires Good(a)
    ensures Good(Enqueued(a, r, None))
  {
    EnqueuedOk(a, r, None);
    EnqueuedTimely(a, r, None);
  }

  /** The job a request ends up with. */
  function JobFor(a: Loop, r: Request): JobID {
    var key := KeyOf(r);
    if key.Some? && key.value in a.byKey then a.byKey[key.value] else a.next
  }

  /** The submission, with its waiter: a running checkpoint that will run again answers it then. */
  function Submitted(a: Loop, r: Request, waiter: Option<nat>): Loop
    requires Registered(a.jobs, a.byKey, a.next)
  {
    var b, id := Enqueued(a, r, None), JobFor(a, r);
    if waiter.None? then b
    else b.(book := WithWaiter(b.book, id, waiter.value, r.force,
                               id in b.active && id in b.jobs && b.jobs[id].runAgain))
  }

  lemma SubmittedGood(a: Loop, r: Request, waiter: Option<nat>)
    requires Good(a)
    ensures Good(Submitted(a, r, waiter))
  {
    EnqueuedGood(a, r);
    var b, id := Enqueued(a, r, None), JobFor(a, r);
    JoinsLater(a, r);
    assert b.book.calls.Keys == b.jobs.Keys;
    if waiter.Some? {
      WaiterTimely(b.jobs, b.active, b.book, id, waiter.value, r.force, id in b.active && b.jobs[id].runAgain);
    }
  }

  lemma JoinsLater(a: Loop, r: Request)
    requires Registered(a.jobs, a.byKey, a.next) && a.active <= a.jobs.Keys
    ensures var b, id := Enqueued(a, r, None), JobFor(a, r);
            && id in b.jobs && (id in b.active && b.jobs[id].request.kind == CheckpointJob ==> b.jobs[id].runAgain)
            && (r.force && b.jobs[id].request.kind == CheckpointJob ==>
                  if id in b.active then CallOf(b.book, id).nextForce else CallOf(b.book, id).force)
  {
    var key := KeyOf(r);
    if key.Some? && key.value in a.byKey {
      assert KeyOf(a.jobs[a.byKey[key.value]].request) == Some(key.value);
    } else {
      assert a.next !in a.jobs;
    }
  }

  lemma EnqueuedFollows(a: Loop, r: Request, dependent: Option<JobID>)
    requires Registered(a.jobs, a.byKey, a.next) && a.book.calls.Keys == a.jobs.Keys
    ensures Follows(a.book, Enqueued(a, r, dependent).book, {})
  {
    FollowsOne(a.book, Enqueued(a, r, dependent).book, JobFor(a, r));
  }

  lemma SubmittedFollows(a: Loop, r: Request, waiter: Option<nat>)
    requires Registered(a.jobs, a.byKey, a.next) && a.book.calls.Keys == a.jobs.Keys
    ensures Follows(a.book, Submitted(a, r, waiter).book, {})
  {
    var b, c := Enqueued(a, r, None), Submitted(a, r, waiter);
    EnqueuedFollows(a, r, None);
    if waiter.Some? {
      FollowsOne(b.book, c.book, JobFor(a, r));
      FollowsOn(a.book, b.book, c.book, {}, {});
    }
  }

  /** A submission, or a timer tick of the automatic policy. */
  method Submit(a0: Loop, r: Request, waiter: Option<nat>) returns (a: Loop)
    requires Good(a0)
    ensures Good(a) && a.closing == a0.closing
    ensures if a0.closing then a == a0
            else OnlyStarted(Submitted(a0, r, waiter), a) && Dispatched(a.jobs, a.pending, a.leased)
    ensures !a0.closing ==> Follows(a0.book, a.book, {})
  {
    if a0.closing { return a0; }
    SubmittedGood(a0, r, waiter);
    SubmittedFollows(a0, r, waiter);
    a := Dispatch(Submitted(a0, r, waiter));
    StartedFollows(Submitted(a0, r, waiter), a);
    FollowsOn(a0.book, Submitted(a0, r, waiter).book, a.book, {}, {});
  }
}
