/** The events of the maintenance scheduler: a phase returns, a timer fires, a request is
    cancelled, the store closes (internal/engine/maintenance_scheduler.go). */
module SchedulerEvents {
  import opened RecordLog
  import opened Scheduler
  import opened SchedulerBook
  import opened SchedulerActor

  // ------------------------------------------------------------- a job that goes on

  /** The job leaves the running set: to the queue, to a timer, or to wait for another job. */
  function Settled(a: Loop, id: JobID, job: Job): Loop
    requires id in a.jobs
  {
    a.(jobs := a.jobs[id := job], active := a.active - {id}, leased := a.leased - Owned(a.jobs[id]) + job.held,
       pending := if job.waiting || job.retrying then a.pending else a.pending + [id], sequence := a.sequence + 1)
  }

  predicate Continues(job: Job, before: Job) {
    && job.running == {} && job.held <= Owned(before) && job.held <= {RecoveryProtocol}
    && !(job.waiting && job.retrying) && (job.retrying ==> job.held == {}) && job.request == before.request
    && (job.request.kind == CheckpointJob ==> job.held == {} && !job.waiting)
  }

  lemma SettledSafe(a: Loop, id: JobID, job: Job)
    requires Ok(a) && id in a.active && id in a.jobs && Continues(job, a.jobs[id])
    ensures var b := Settled(a, id, job); Safe(b.jobs, b.pending, b.active, b.leased, b.byKey, b.next)
  {
    SettledExclusive(a.jobs, a.active, a.leased, id, job);
    SettledQueued(a.jobs, a.pending, a.active, id, job);
    SettledPlaced(a.jobs, a.pending, a.active, id, job);
    JoinedRegistered(a.jobs, a.byKey, a.next, id, job);
  }

  lemma SettledExclusive(jobs: Jobs, active: set<JobID>, leased: set<Resource>, id: JobID, job: Job)
    requires Exclusive(jobs, active, leased) && id in jobs && job.running == {} && job.held <= Owned(jobs[id])
    ensures Exclusive(jobs[id := job], active - {id}, leased - Owned(jobs[id]) + job.held)
  {
    Reassigned(jobs, leased, id, job);
    assert leased - Owned(jobs[id]) + Owned(job) == leased - Owned(jobs[id]) + job.held;
    SettledRunning(jobs, active, id, job);
  }

  lemma SettledRunning(jobs: Jobs, active: set<JobID>, id: JobID, job: Job)
    requires RunningIs(jobs, active) && id in jobs && job.running == {}
    ensures RunningIs(jobs[id := job], active - {id})
  {
    var jobs2 := jobs[id := job];
    forall j <- jobs2 ensures RunsWithin(jobs2[j], j in active - {id}) { assert RunsWithin(jobs[j], j in active); }
  }

  lemma SettledQueued(jobs: Jobs, pending: seq<JobID>, active: set<JobID>, id: JobID, job: Job)
    requires Queued(jobs, pending, active) && id in active && id in jobs
    ensures Queued(jobs[id := job], pending, active - {id}) && Queued(jobs[id := job], pending + [id], active - {id})
  {
    QueuedMore(jobs[id := job], pending, active - {id}, id);
  }

  lemma SettledPlaced(jobs: Jobs, pending: seq<JobID>, active: set<JobID>, id: JobID, job: Job)
    requires Placed(jobs, pending, active) && Little(jobs)
    requires Queued(jobs, pending, active) && id in active && id in jobs
    requires Continues(job, jobs[id])
    ensures Placed(jobs[id := job], if job.waiting || job.retrying then pending else pending + [id], active - {id})
    ensures Little(jobs[id := job])
  {
    var jobs2 := jobs[id := job];
    forall j <- jobs2 ensures HoldsLittle(jobs2[j]) && Place(jobs2[j], j in active - {id}) {
      assert HoldsLittle(jobs[j]) && Place(jobs[j], j in active);
    }
  }

  lemma SettledSomewhere(a: Loop, id: JobID, job: Job)
    requires id in a.jobs && Somewhere(a.jobs, a.pending, a.active)
    ensures var b := Settled(a, id, job); Somewhere(b.jobs, b.pending, b.active)
  {
  }

  /** Dependents and the rerun request survive a phase. */
  predicate KeepsDependents(job: Job, before: Job) {
    job.dependents == before.dependents && job.nextDependents == before.nextDependents
      && job.runAgain == before.runAgain
  }

  lemma SettledWakeable(jobs: Jobs, id: JobID, job: Job)
    requires Wakeable(jobs) && id in jobs && job.request == jobs[id].request && KeepsDependents(job, jobs[id])
    ensures WakeableBut(jobs[id := job], {id})
  {
    var jobs2 := jobs[id := job];
    forall j <- jobs2 | jobs2[j].waiting && j !in {id} ensures exists d <- jobs2 :: Awaits(jobs2, d, j) {
      var d :| d in jobs && Awaits(jobs, d, j);
      assert Awaits(jobs2, d, j);
    }
  }

  lemma SettledOkBut(a: Loop, id: JobID, job: Job)
    requires Ok(a) && id in a.active && id in a.jobs && Continues(job, a.jobs[id]) && KeepsDependents(job, a.jobs[id])
    ensures OkBut(Settled(a, id, job), {id})
  {
    SettledSafe(a, id, job);
    if !a.closing {
      SettledSomewhere(a, id, job);
      SettledWakeable(a.jobs, id, job);
    }
  }

  lemma SettledOk(a: Loop, id: JobID, job: Job)
    requires Ok(a) && id in a.active && id in a.jobs && Continues(job, a.jobs[id])
    requires KeepsDependents(job, a.jobs[id]) && !job.waiting
    ensures Ok(Settled(a, id, job))
  {
    SettledSafe(a, id, job);
    if !a.closing {
      SettledSomewhere(a, id, job);
      SameWakeable(a.jobs, id, job);
    }
  }

  /** Leases and progress do not depend on the book. */
  lemma BookIsFree(a: Loop, book: Book)
    ensures Ok(a) ==> Ok(a.(book := book))
    ensures forall lost :: OkBut(a, lost) ==> OkBut(a.(book := book), lost)
  {
  }

  // --------------------------------------------------- a waiting job is queued again

  function Again(job: Job, sequence: nat): Job { job.(waiting := false, retrying := false, sequence := sequence) }

  function Requeued(a: Loop, id: JobID, job: Job): Loop {
    a.(jobs := a.jobs[id := job], pending := a.pending + [id], sequence := a.sequence + 1)
  }

  lemma RequeuedOk(a: Loop, id: JobID, job: Job)
    requires Ok(a) && id in a.jobs && (a.jobs[id].waiting || a.jobs[id].retrying)
    requires job == Again(a.jobs[id], a.sequence + 1)
    ensures Ok(Requeued(a, id, job))
  {
    RequeuedSafe(a.jobs, a.pending, a.active, a.leased, a.byKey, a.next, id, job);
    if !a.closing {
      RequeuedSomewhere(a.jobs, a.pending, a.active, id, job);
      SameWakeable(a.jobs, id, job);
    }
  }

  lemma RequeuedSafe(jobs: Jobs, pending: seq<JobID>, active: set<JobID>, leased: set<Resource>, byKey: map<nat, JobID>,
                     next: JobID,
                     id: JobID, job: Job)
    requires Safe(jobs, pending, active, leased, byKey, next) && id in jobs && (jobs[id].waiting || jobs[id].retrying)
    requires !job.waiting && !job.retrying && job.held == jobs[id].held
    requires job.running == jobs[id].running && job.request == jobs[id].request
    ensures Safe(jobs[id := job], pending + [id], active, leased, byKey, next)
  {
    assert Place(jobs[id], id in active);
    JoinedExclusive(jobs, active, leased, id, job);
    JoinedRegistered(jobs, byKey, next, id, job);
    QueuedMore(jobs[id := job], pending, active, id);
    RequeuedPlaced(jobs, pending, active, id, job);
  }

  lemma RequeuedSomewhere(jobs: Jobs, pending: seq<JobID>, active: set<JobID>, id: JobID, job: Job)
    requires Somewhere(jobs, pending, active) && id in jobs
    ensures Somewhere(jobs[id := job], pending + [id], active)
  {
  }

  lemma RequeuedPlaced(jobs: Jobs, pending: seq<JobID>, active: set<JobID>, id: JobID, job: Job)
    requires Placed(jobs, pending, active) && Little(jobs) && id in jobs && !job.waiting && !job.retrying
    requires job.held == jobs[id].held && job.request == jobs[id].request
    ensures Placed(jobs[id := job], pending + [id], active) && Little(jobs[id := job])
  {
    var jobs2 := jobs[id := job];
    forall j <- jobs2 ensures HoldsLittle(jobs2[j]) && Place(jobs2[j], j in active) {
      assert HoldsLittle(jobs[j]) && Place(jobs[j], j in active);
    }
  }

  /** A job is as it was, or it waited for this one and was queued again. */
  predicate SameOrWoken(before: Job, after: Job, dependent: bool) {
    after == before || (before.waiting && dependent && after == Again(before, after.sequence))
  }

  predicate OthersSame(a: Loop, b: Loop, id: JobID)
    requires id in a.jobs && b.jobs.Keys == a.jobs.Keys
  {
    forall j <- a.jobs :: SameOrWoken(a.jobs[j], b.jobs[j], j in a.jobs[id].dependents)
  }

  /** Some of the jobs were queued again, nothing else changed. */
  predicate Woke(a: Loop, b: Loop, id: JobID) {
    && b.active == a.active && b.leased == a.leased && b.closing == a.closing && b.jobs.Keys == a.jobs.Keys
    && id in a.jobs && id in b.jobs && b.jobs[id] == a.jobs[id] && OthersSame(a, b, id)
  }

  /** A woken job's call names the run that woke it, or that it failed. */
  predicate CallsWoken(a: Loop, b: Loop, id: JobID, ok: bool) {
    && b.book == a.book.(calls := b.book.calls) && b.book.calls.Keys == a.book.calls.Keys && id in a.book.calls
    && b.book.calls[id] == a.book.calls[id]
    && (forall j <- a.jobs | j in b.jobs && j in a.book.calls && a.jobs[j].waiting && !b.jobs[j].waiting ::
          b.book.calls[j] == WokenCall(a.book.calls[j], a.book.calls[id].started, ok))
    && (forall j <- a.jobs | j in b.jobs && j in a.book.calls && a.jobs[j].waiting == b.jobs[j].waiting ::
          b.book.calls[j] == a.book.calls[j])
  }

  /** Those of the job's dependents outside `left` no longer wait. */
  predicate Awake(jobs: Jobs, id: JobID, left: set<JobID>) {
    id in jobs && forall j <- jobs[id].dependents :: j in left || (j in jobs ==> !jobs[j].waiting)
  }

  function WithWoken(a: Loop, id: JobID, j: JobID, job: Job, ok: bool): Loop {
    Requeued(a, j, job).(book := WithCall(a.book, j, WokenCall(CallOf(a.book, j), CallOf(a.book, id).started, ok)))
  }

  lemma WokeMore(a0: Loop, a: Loop, id: JobID, left: set<JobID>, j: JobID, job: Job, ok: bool)
    requires Woke(a0, a, id) && Awake(a.jobs, id, left) && j in a.jobs
    requires a.jobs[j].waiting && job == Again(a.jobs[j], job.sequence)
    requires !a.jobs[id].waiting && j in a.jobs[id].dependents
    ensures Woke(a0, WithWoken(a, id, j, job, ok), id) && Awake(WithWoken(a, id, j, job, ok).jobs, id, left - {j})
  {
    assert Requeued(a, j, job).jobs.Keys == a.jobs.Keys;
  }

  lemma CallsMore(a0: Loop, a: Loop, id: JobID, j: JobID, job: Job, ok: bool)
    requires CallsWoken(a0, a, id, ok) && a.jobs.Keys == a0.jobs.Keys && a.book.calls.Keys == a.jobs.Keys
    requires j in a.jobs && a.jobs[j].waiting && a0.jobs[j].waiting && !job.waiting && j != id
    ensures CallsWoken(a0, WithWoken(a, id, j, job, ok), id, ok)
  {
    var b := WithWoken(a, id, j, job, ok);
    assert b.book.calls.Keys == a.book.calls.Keys;
    assert a.book.calls[j] == a0.book.calls[j];
  }

  lemma WokenGood(a: Loop, id: JobID, j: JobID, job: Job, ok: bool)
    requires Ok(a) && Timely(a.jobs, a.active, a.book, {id}) && id in a.jobs && id in a.active
    requires j in a.jobs[id].dependents && j in a.jobs && a.jobs[j].waiting && job == Again(a.jobs[j], a.sequence + 1)
    requires ok ==> CallOf(a.book, id).started in a.book.succeeded
    requires !a.jobs[id].waiting
    ensures var b := WithWoken(a, id, j, job, ok); Ok(b) && Timely(b.jobs, b.active, b.book, {id})
  {
    RequeuedOk(a, j, job);
    BookIsFree(Requeued(a, j, job), WithWoken(a, id, j, job, ok).book);
    assert Recorded(a.jobs, id, {id});
    WokenTimely(a.jobs, a.active, a.book, id, j, job, ok);
  }

  /** Half-way through `complete`: only those in `left` are still to be woken. */
  predicate Waking(a0: Loop, a: Loop, id: JobID, ok: bool, left: set<JobID>) {
    && Ok(a) && Timely(a.jobs, a.active, a.book, {id}) && Woke(a0, a, id) && Awake(a.jobs, id, left)
    && CallsWoken(a0, a, id, ok)
    && id in a.active && !a.jobs[id].waiting && left <= a.jobs[id].dependents
    && (ok ==> CallOf(a.book, id).started in a.book.succeeded)
  }

  lemma WakingFollows(a0: Loop, a: Loop, id: JobID, ok: bool)
    requires CallsWoken(a0, a, id, ok) && Woke(a0, a, id) && a0.book.calls.Keys == a0.jobs.Keys
    ensures Follows(a0.book, a.book, {})
  {
    forall j <- a.book.calls ensures CallFollows(a0.book, a.book.calls[j], j) {
      assert j == id || SameOrWoken(a0.jobs[j], a.jobs[j], j in a0.jobs[id].dependents);
    }
  }

  lemma WakingStarts(a: Loop, id: JobID, ok: bool)
    requires Ok(a) && Timely(a.jobs, a.active, a.book, {id}) && id in a.active && id in a.jobs
    requires ok ==> CallOf(a.book, id).started in a.book.succeeded
    ensures Waking(a, a, id, ok, a.jobs[id].dependents)
  {
    assert Place(a.jobs[id], id in a.active);
  }

  lemma WakingSkips(a0: Loop, a: Loop, id: JobID, ok: bool, left: set<JobID>, j: JobID)
    requires Waking(a0, a, id, ok, left) && !(j in a.jobs && a.jobs[j].waiting)
    ensures Waking(a0, a, id, ok, left - {j})
  {
    assert Awake(a.jobs, id, left - {j});
  }

  /** `complete`: every job waiting for this one goes back to the queue. */
  method Complete(a0: Loop, id: JobID, ok: bool) returns (a: Loop)
    requires Ok(a0) && Timely(a0.jobs, a0.active, a0.book, {id}) && id in a0.active && id in a0.jobs
    requires ok ==> CallOf(a0.book, id).started in a0.book.succeeded
    ensures Waking(a0, a, id, ok, {})
  {
    a := a0;
    WakingStarts(a0, id, ok);
    var left := a.jobs[id].dependents;
    while left != {}
      invariant Waking(a0, a, id, ok, left)
      decreases left
    {
      var j: JobID :| j in left;
      if j in a.jobs && a.jobs[j].waiting {
        a := WakeOne(a, a0, id, left, j, ok);
      } else {
        WakingSkips(a0, a, id, ok, left, j);
      }
      left := left - {j};
    }
  }

  method WakeOne(a: Loop, ghost a0: Loop, id: JobID, ghost left: set<JobID>, j: JobID, ok: bool) returns (b: Loop)
    requires Waking(a0, a, id, ok, left) && j in left && j in a.jobs && a.jobs[j].waiting
    ensures Waking(a0, b, id, ok, left - {j})
  {
    var job := Again(a.jobs[j], a.sequence + 1);
    WokenGood(a, id, j, job, ok);
    WokeMore(a0, a, id, left, j, job, ok);
    assert SameOrWoken(a0.jobs[j], a.jobs[j], j in a0.jobs[id].dependents);
    CallsMore(a0, a, id, j, job, ok);
    b := WithWoken(a, id, j, job, ok);
  }

  // ----------------------------------------------------------------- a job that ends

  /** `removeJob`, after the job left the queue and the running set. */
  function Dropped(a: Loop, id: JobID): Loop
    requires id in a.jobs
  {
    var key := KeyOf(a.jobs[id].request);
    a.(jobs := a.jobs - {id}, active := a.active - {id}, pending := Without(a.pending, id),
       leased := a.leased - Owned(a.jobs[id]),
       byKey := if key.Some? && key.value in a.byKey && a.byKey[key.value] == id then a.byKey - {key.value}
                else a.byKey,
       book := a.book.(calls := a.book.calls - {id}))
  }

  lemma DroppedOk(a: Loop, id: JobID)
    requires Ok(a) && id in a.jobs
    requires !a.closing ==> forall j <- a.jobs | a.jobs[j].waiting :: !Awaits(a.jobs, id, j)
    ensures Ok(Dropped(a, id))
  {
    Removed(a.jobs, a.leased, id);
    WithoutKeeps(a.pending, id);
    DroppedRunning(a.jobs, a.active, id);
    DroppedPlaced(a.jobs, a.pending, a.active, id);
    DroppedRegistered(a, id);
    if !a.closing { DroppedWakeable(a.jobs, id); }
  }

  lemma DroppedRunning(jobs: Jobs, active: set<JobID>, id: JobID)
    requires RunningIs(jobs, active) && id in jobs
    ensures RunningIs(jobs - {id}, active - {id})
  {
    var jobs2 := jobs - {id};
    forall j <- jobs2 ensures RunsWithin(jobs2[j], j in active - {id}) { assert RunsWithin(jobs[j], j in active); }
  }

  lemma DroppedPlaced(jobs: Jobs, pending: seq<JobID>, active: set<JobID>, id: JobID)
    requires Placed(jobs, pending, active) && Little(jobs) && Distinct(pending)
    ensures Placed(jobs - {id}, Without(pending, id), active - {id}) && Little(jobs - {id})
  {
    WithoutKeeps(pending, id);
    var jobs2 := jobs - {id};
    forall j <- jobs2 ensures HoldsLittle(jobs2[j]) && Place(jobs2[j], j in active - {id}) {
      assert HoldsLittle(jobs[j]) && Place(jobs[j], j in active);
    }
  }

  lemma DroppedRegistered(a: Loop, id: JobID)
    requires Registered(a.jobs, a.byKey, a.next) && id in a.jobs
    ensures var b := Dropped(a, id); Registered(b.jobs, b.byKey, b.next)
  {
  }

  lemma DroppedWakeable(jobs: Jobs, id: JobID)
    requires Wakeable(jobs) && forall j <- jobs | jobs[j].waiting :: !Awaits(jobs, id, j)
    ensures Wakeable(jobs - {id})
  {
    var jobs2 := jobs - {id};
    forall j <- jobs2 | jobs2[j].waiting ensures exists d <- jobs2 :: Awaits(jobs2, d, j) {
      var d :| d in jobs && Awaits(jobs, d, j);
      assert Awaits(jobs2, d, j);
    }
  }

  /** A checkpoint asked for again while it ran starts over, for those who asked meanwhile. */
  function Renewed(job: Job, sequence: nat): Job {
    job.(phase := Start, held := {}, running := {}, dependents := job.nextDependents, nextDependents := {},
         runAgain := false, sequence := sequence, waiting := false, retrying := false)
  }

  lemma RenewedOk(a: Loop, id: JobID)
    requires Ok(a) && id in a.active && id in a.jobs && a.jobs[id].runAgain
    requires Awake(a.jobs, id, {})
    ensures Ok(Settled(a, id, Renewed(a.jobs[id], a.sequence + 1)))
  {
    var job := Renewed(a.jobs[id], a.sequence + 1);
    SettledSafe(a, id, job);
    if !a.closing {
      SettledSomewhere(a, id, job);
      RenewedWakeable(a.jobs, id, job);
    }
  }

  lemma RenewedWakeable(jobs: Jobs, id: JobID, job: Job)
    requires Wakeable(jobs) && id in jobs && job == Renewed(jobs[id], job.sequence) && jobs[id].runAgain
    requires Awake(jobs, id, {})
    ensures Wakeable(jobs[id := job])
  {
    var jobs2 := jobs[id := job];
    forall j <- jobs2 | jobs2[j].waiting ensures exists d <- jobs2 :: Awaits(jobs2, d, j) {
      var d :| d in jobs && Awaits(jobs, d, j);
      assert Awaits(jobs2, d, j);
    }
  }

  lemma NobodyAwaits(jobs: Jobs, id: JobID)
    requires id in jobs && !jobs[id].runAgain
    requires Awake(jobs, id, {})
    ensures forall j <- jobs | jobs[j].waiting :: !Awaits(jobs, id, j)
  {
  }

  /** How the end of a job shows: its leases are free, its dependents no longer wait, and it is
      gone, unless it was asked for again. */
  predicate Ended(a: Loop, b: Loop, id: JobID) {
    && id in a.jobs && b.closing == a.closing && b.active == a.active - {id} && b.leased == a.leased - Owned(a.jobs[id])
    && (if a.jobs[id].runAgain && !a.closing
        then b.jobs.Keys == a.jobs.Keys && b.jobs[id] == Renewed(a.jobs[id], b.sequence)
        else b.jobs.Keys == a.jobs.Keys - {id})
    && (forall j <- a.jobs[id].dependents :: j in b.jobs ==> !b.jobs[j].waiting)
    && forall j <- a.jobs :: j == id || (j in b.jobs && SameOrWoken(a.jobs[j], b.jobs[j], j in a.jobs[id].dependents))
  }

  lemma RenewedEnds(a0: Loop, a: Loop, id: JobID, job: Job)
    requires Woke(a0, a, id) && Awake(a.jobs, id, {}) && a.jobs[id].runAgain && !a.closing
    requires job == Renewed(a.jobs[id], a.sequence + 1)
    ensures Ended(a0, Settled(a, id, job), id)
  {
    var b := Settled(a, id, job);
    assert b.jobs.Keys == a.jobs.Keys;
    assert b.leased == a.leased - Owned(a.jobs[id]);
  }

  lemma DroppedEnds(a0: Loop, a: Loop, id: JobID)
    requires Woke(a0, a, id) && Awake(a.jobs, id, {}) && !(a.jobs[id].runAgain && !a.closing)
    ensures Ended(a0, Dropped(a, id), id)
  {
  }

  /** A checkpoint ran and was not merely found unnecessary. */
  predicate Succeeds(a: Loop, id: JobID, ok: bool) {
    ok && id in a.jobs && a.jobs[id].request.kind == CheckpointJob && CallOf(a.book, id).force
  }

  /** This dependent began to wait before the run started that now wakes it. */
  predicate WokenInTime(a: Loop, b: Loop, id: JobID, ok: bool, j: JobID) {
    && id in a.jobs && a.jobs[id].request.kind == CheckpointJob && id in a.book.calls && j in a.book.calls
    && j in b.book.calls
    && a.book.calls[j].since < a.book.calls[id].started
    && b.book.calls[j] == WokenCall(a.book.calls[j], a.book.calls[id].started, ok)
  }

  /** Nobody stops waiting but those whom the run served. */
  predicate Serves(a: Loop, b: Loop, id: JobID, ok: bool) {
    forall j <- a.jobs | j in b.jobs && a.jobs[j].waiting && !b.jobs[j].waiting :: WokenInTime(a, b, id, ok, j)
  }

  /** The waiters of a finished checkpoint, too, had been there when its run started. */
  predicate WaitersInTime(a: Loop, id: JobID) {
    id in a.jobs && id in a.book.calls && a.jobs[id].request.kind == CheckpointJob ==>
      forall w <- a.book.calls[id].waiters :: w.since < a.book.calls[id].started && (w.force ==> a.book.calls[id].force)
  }

  lemma WaitersWereThere(a: Loop, id: JobID)
    requires Timely(a.jobs, a.active, a.book, {}) && id in a.active
    ensures WaitersInTime(a, id)
  {
    if id in a.jobs && a.jobs[id].request.kind == CheckpointJob {
      assert InTime(a.jobs, a.book.calls, id) && JobOk(a.jobs[id], a.book.calls[id], a.book);
    }
  }

  method Finished(a0: Loop, id: JobID, ok: bool) returns (a: Loop)
    requires Good(a0) && id in a0.active && id in a0.jobs
    ensures Good(a) && Ended(a0, a, id) && Serves(a0, a, id, ok) && WaitersInTime(a0, id)
    ensures Follows(a0.book, a.book, Completes(a0, id, ok)) && AskedAnew(a0.book, a.book, id)
  {
    WaitersWereThere(a0, id);
    ghost var noted := a0.(book := Ending(a0.book, id, Succeeds(a0, id, ok)));
    EndingTimely(a0.jobs, a0.active, a0.book, id, Succeeds(a0, id, ok));
    BookIsFree(a0, noted.book);
    a := Complete(a0.(book := Ending(a0.book, id, Succeeds(a0, id, ok))), id, Succeeds(a0, id, ok));
    ServesAll(a0, noted, a, id, ok);
    CompletedFollows(a0, noted, a, id, ok);
    if a.jobs[id].runAgain && !a.closing {
      a := Renewing(a, id, a0, noted, ok);
    } else {
      a := Leaving(a, id, a0, noted, ok);
    }
  }

  /** The start of the run, if it counts as a checkpoint. */
  function Completes(a: Loop, id: JobID, ok: bool): set<nat> {
    if Succeeds(a, id, ok) then {CallOf(a.book, id).started} else {}
  }

  lemma CompletedFollows(a0: Loop, noted: Loop, a: Loop, id: JobID, ok: bool)
    requires noted == a0.(book := Ending(a0.book, id, Succeeds(a0, id, ok))) && a0.book.calls.Keys == a0.jobs.Keys
    requires Woke(noted, a, id) && CallsWoken(noted, a, id, Succeeds(a0, id, ok))
    ensures Follows(a0.book, a.book, Completes(a0, id, ok))
  {
    WakingFollows(noted, a, id, Succeeds(a0, id, ok));
    forall j <- a.book.calls ensures CallFollows(a0.book, a.book.calls[j], j) {
      assert CallFollows(noted.book, a.book.calls[j], j);
      assert WaitersOf(noted.book, j) == WaitersOf(a0.book, j);
    }
  }

  method Renewing(a: Loop, id: JobID, ghost a0: Loop, ghost noted: Loop, ghost ok: bool) returns (b: Loop)
    requires noted == a0.(book := noted.book) && Waking(noted, a, id, Succeeds(a0, id, ok), {}) && Serves(a0, a, id, ok)
    requires Follows(a0.book, a.book, Completes(a0, id, ok))
    requires a.jobs[id].runAgain && !a.closing
    ensures Good(b) && Ended(a0, b, id) && Serves(a0, b, id, ok)
    ensures Follows(a0.book, b.book, Completes(a0, id, ok)) && AskedAnew(a0.book, b.book, id)
  {
    var job := Renewed(a.jobs[id], a.sequence + 1);
    b := Settled(a, id, job).(book := WithCall(a.book, id, RenewedCall(CallOf(a.book, id))));
    RenewedGood(a, id, job, b);
    RenewedEnded(a0, noted, a, id, job, b);
    RenewedServes(a0, a, id, job, b, ok);
    RenewedFollows(a0, a, id, b, ok);
  }

  lemma RenewedEnded(a0: Loop, noted: Loop, a: Loop, id: JobID, job: Job, b: Loop)
    requires noted == a0.(book := noted.book) && Woke(noted, a, id) && Awake(a.jobs, id, {})
    requires a.jobs[id].runAgain && !a.closing && job == Renewed(a.jobs[id], a.sequence + 1)
    requires b == Settled(a, id, job).(book := b.book)
    ensures Ended(a0, b, id)
  {
    RenewedEnds(noted, a, id, job);
    EndedSame(a0, noted, Settled(a, id, job), id, b.book);
  }

  lemma RenewedServes(a0: Loop, a: Loop, id: JobID, job: Job, b: Loop, ok: bool)
    requires Serves(a0, a, id, ok) && id in a.jobs && id in a0.jobs && !a0.jobs[id].waiting
    requires b.jobs == a.jobs[id := job] && b.book == WithCall(a.book, id, RenewedCall(CallOf(a.book, id)))
    ensures Serves(a0, b, id, ok)
  {
    forall j <- b.jobs | j != id ensures SameJobCall(a, b, j) { }
    ServesRest(a0, a, b, id, ok);
  }

  lemma RenewedGood(a: Loop, id: JobID, job: Job, b: Loop)
    requires Ok(a) && Timely(a.jobs, a.active, a.book, {id}) && id in a.active && id in a.jobs && Awake(a.jobs, id, {})
    requires a.jobs[id].runAgain && !a.jobs[id].waiting && job == Renewed(a.jobs[id], a.sequence + 1)
    requires b == Settled(a, id, job).(book := WithCall(a.book, id, RenewedCall(CallOf(a.book, id))))
    ensures Good(b)
  {
    RenewedOk(a, id);
    BookIsFree(Settled(a, id, job), b.book);
    RenewedTimely(a.jobs, a.active, a.book, id, job);
  }

  method Leaving(a: Loop, id: JobID, ghost a0: Loop, ghost noted: Loop, ghost ok: bool) returns (b: Loop)
    requires noted == a0.(book := noted.book) && Waking(noted, a, id, Succeeds(a0, id, ok), {}) && Serves(a0, a, id, ok)
    requires Follows(a0.book, a.book, Completes(a0, id, ok))
    requires !(a.jobs[id].runAgain && !a.closing)
    ensures Good(b) && Ended(a0, b, id) && Serves(a0, b, id, ok)
    ensures Follows(a0.book, b.book, Completes(a0, id, ok)) && AskedAnew(a0.book, b.book, id)
  {
    if !a.closing { NobodyAwaits(a.jobs, id); }
    DroppedOk(a, id);
    DroppedEnds(noted, a, id);
    DroppedTimely(a.jobs, a.active, a.book, id);
    b := Dropped(a, id);
    EndedSame(a0, noted, b, id, b.book);
    ServesRest(a0, a, b, id, ok);
    LeftFollows(a0, a, id, b, ok);
  }

  lemma RenewedFollows(a0: Loop, a: Loop, id: JobID, b: Loop, ok: bool)
    requires Follows(a0.book, a.book, Completes(a0, id, ok)) && id in a.book.calls
    requires b.book == WithCall(a.book, id, RenewedCall(CallOf(a.book, id)))
    ensures Follows(a0.book, b.book, Completes(a0, id, ok))
  {
    FollowsOne(a.book, b.book, id);
    FollowsOn(a0.book, a.book, b.book, Completes(a0, id, ok), {});
  }

  lemma LeftFollows(a0: Loop, a: Loop, id: JobID, b: Loop, ok: bool)
    requires Follows(a0.book, a.book, Completes(a0, id, ok)) && b.book == a.book.(calls := a.book.calls - {id})
    ensures Follows(a0.book, b.book, Completes(a0, id, ok))
  {
    FollowsOne(a.book, b.book, id);
    FollowsOn(a0.book, a.book, b.book, Completes(a0, id, ok), {});
  }

  lemma EndedSame(a0: Loop, noted: Loop, b: Loop, id: JobID, book: Book)
    requires noted == a0.(book := noted.book) && Ended(noted, b, id)
    ensures Ended(a0, b.(book := book), id)
  {
  }

  lemma ServesRest(a0: Loop, a: Loop, b: Loop, id: JobID, ok: bool)
    requires Serves(a0, a, id, ok) && id in a0.jobs && !a0.jobs[id].waiting
    requires forall j <- b.jobs | j != id :: SameJobCall(a, b, j)
    ensures Serves(a0, b, id, ok)
  {
    forall j <- a0.jobs | j in b.jobs && a0.jobs[j].waiting && !b.jobs[j].waiting
      ensures WokenInTime(a0, b, id, ok, j)
    {
      assert SameJobCall(a, b, j);
      assert WokenInTime(a0, a, id, ok, j);
    }
  }

  predicate SameJobCall(a: Loop, b: Loop, j: JobID) {
    && j in a.jobs && j in b.jobs && b.jobs[j] == a.jobs[j]
    && (j in a.book.calls ==> j in b.book.calls && b.book.calls[j] == a.book.calls[j])
  }

  lemma ServesAll(a0: Loop, noted: Loop, a: Loop, id: JobID, ok: bool)
    requires Timely(a0.jobs, a0.active, a0.book, {}) && id in a0.active && id in a0.jobs
    requires noted == a0.(book := Ending(a0.book, id, Succeeds(a0, id, ok)))
    requires Woke(noted, a, id) && CallsWoken(noted, a, id, Succeeds(a0, id, ok))
    ensures Serves(a0, a, id, ok)
  {
    forall j <- a0.jobs | j in a.jobs && a0.jobs[j].waiting && !a.jobs[j].waiting
      ensures WokenInTime(a0, a, id, ok, j)
    {
      assert SameOrWoken(a0.jobs[j], a.jobs[j], j in a0.jobs[id].dependents);
      ServedBy(a0.jobs, a0.active, a0.book, id, j);
    }
  }

  lemma ServedBy(jobs: Jobs, active: set<JobID>, book: Book, id: JobID, j: JobID)
    requires Timely(jobs, active, book, {}) && id in active && id in jobs
    requires j in jobs && j in jobs[id].dependents && jobs[j].waiting
    ensures jobs[id].request.kind == CheckpointJob && id in book.calls
    ensures j in book.calls && book.calls[j].since < book.calls[id].started
  {
    assert Recorded(jobs, id, {}) && j in Everybody(jobs[id]);
    assert InTime(jobs, book.calls, id);
  }

  // ------------------------------------------------------------------------- events

  function Moved(job: Job, t: Transition, sequence: nat): Job
    requires !t.Finish?
  {
    if t.Depend? then job.(phase := t.next, held := t.retain, running := {}, waiting := true, retrying := false)
    else job.(phase := t.next, held := t.retain, running := {}, waiting := false,
         retrying := t.RetryLater?, sequence := sequence)
  }

  lemma MovedContinues(a: Loop, id: JobID, t: Transition)
    requires Ok(a) && id in a.active && id in a.jobs && !t.Finish? && Answers(a.jobs[id].request, a.jobs[id].phase, t)
    ensures Continues(Moved(a.jobs[id], t, a.sequence + 1), a.jobs[id])
    ensures KeepsDependents(Moved(a.jobs[id], t, a.sequence + 1), a.jobs[id])
    ensures !a.jobs[id].waiting && (t.Depend? ==> t.request == CHECKPOINT)
  {
    WorkersRetainWhatTheyOwn(a.jobs[id].request, a.jobs[id].phase, t);
    assert RunsWithin(a.jobs[id], true) && Place(a.jobs[id], id in a.active);
  }

  /** Only mapping collection and the survey may be preempted; they start over. */
  predicate Preemptible(k: Kind) { k == MappingGC || k == Survey }

  function Restarted(job: Job, sequence: nat): Job {
    job.(phase := Start, held := {}, running := {}, waiting := false, retrying := false, sequence := sequence)
  }

  /** The job goes on after its phase, with the same worker or, restarted, with a new one. */
  function Continued(a: Loop, id: JobID, job: Job, restart: bool): Loop
    requires id in a.jobs
  {
    var c := SettledCall(CallOf(a.book, id), a.book.clock, job.waiting, restart);
    Settled(a, id, job).(book := WithCall(a.book, id, c))
  }

  lemma ContinuedTimely(a: Loop, id: JobID, job: Job, restart: bool)
    requires Timely(a.jobs, a.active, a.book, {}) && id in a.jobs
    requires !a.jobs[id].waiting && job.request == a.jobs[id].request
    requires KeepsDependents(job, a.jobs[id]) && (restart ==> !job.waiting)
    ensures var b := Continued(a, id, job, restart); Timely(b.jobs, b.active, b.book, {}) && Unrecorded(b.jobs, id)
  {
    SettledTimely(a.jobs, a.active, a.book, id, job, job.waiting, restart);
  }

  /** What the loop makes of an answer, before it dispatches. */
  predicate Answered(a: Loop, b: Loop, id: JobID, t: Transition, preempted: bool)
    requires id in a.jobs && Registered(a.jobs, a.byKey, a.next)
  {
    if t.Finish? then FinishAnswered(a, b, id, t.ok, preempted) else MoveAnswered(a, b, id, t)
  }

  /** A preempted job starts over; any other is finished, and those it served are woken. */
  predicate FinishAnswered(a: Loop, b: Loop, id: JobID, ok: bool, preempted: bool)
    requires id in a.jobs
  {
    if preempted && !a.closing then b == Continued(a, id, Restarted(a.jobs[id], a.sequence + 1), true)
    else Ended(a, b, id) && Serves(a, b, id, ok)
  }

  /** The job goes on, behind a checkpoint if it asked for one. */
  predicate MoveAnswered(a: Loop, b: Loop, id: JobID, t: Transition)
    requires id in a.jobs && !t.Finish?
  {
    var c := Continued(a, id, Moved(a.jobs[id], t, a.sequence + 1), false);
    if t.Depend? then Registered(c.jobs, c.byKey, c.next) && b == Enqueued(c, t.request, Some(id)) else b == c
  }

  method PhaseDone(a0: Loop, id: JobID, t: Transition, preempted: bool) returns (a: Loop)
    requires Good(a0) && id in a0.active && id in a0.jobs && Answers(a0.jobs[id].request, a0.jobs[id].phase, t)
    requires preempted ==> t.Finish? && Preemptible(a0.jobs[id].request.kind)
    ensures Good(a) && a.closing == a0.closing && Answered(a0, a, id, t, preempted)
    ensures Follows(a0.book, a.book, Done(a0, Returned(id, t, preempted))) && AskedAnew(a0.book, a.book, id)
  {
    if t.Finish? {
      a := Finishing(a0, id, t.ok, preempted);
    } else {
      a := Moving(a0, id, t);
    }
  }

  method Finishing(a0: Loop, id: JobID, ok: bool, preempted: bool) returns (a: Loop)
    requires Good(a0) && id in a0.active && id in a0.jobs
    ensures Good(a) && a.closing == a0.closing && FinishAnswered(a0, a, id, ok, preempted)
    ensures Follows(a0.book, a.book, if preempted && !a0.closing then {} else Completes(a0, id, ok))
    ensures AskedAnew(a0.book, a.book, id)
  {
    if preempted && !a0.closing { a := Restarting(a0, id); } else { a := Finished(a0, id, ok); }
  }

  method Restarting(a0: Loop, id: JobID) returns (a: Loop)
    requires Good(a0) && id in a0.active && id in a0.jobs
    ensures Good(a) && a == Continued(a0, id, Restarted(a0.jobs[id], a0.sequence + 1), true)
    ensures Follows(a0.book, a.book, {}) && AskedAnew(a0.book, a.book, id)
  {
    var job := Restarted(a0.jobs[id], a0.sequence + 1);
    assert !a0.jobs[id].waiting by { assert Place(a0.jobs[id], id in a0.active); }
    SettledOk(a0, id, job);
    a := Continued(a0, id, job, true);
    BookIsFree(Settled(a0, id, job), a.book);
    ContinuedTimely(a0, id, job, true);
    ContinuedFollows(a0, id, job, true);
  }

  method Moving(a0: Loop, id: JobID, t: Transition) returns (a: Loop)
    requires Good(a0) && id in a0.active && id in a0.jobs && !t.Finish?
    requires Answers(a0.jobs[id].request, a0.jobs[id].phase, t)
    ensures Good(a) && a.closing == a0.closing && MoveAnswered(a0, a, id, t)
    ensures Follows(a0.book, a.book, {}) && AskedAnew(a0.book, a.book, id)
  {
    var job := Moved(a0.jobs[id], t, a0.sequence + 1);
    MovedContinues(a0, id, t);
    if t.Depend? { a := Depending(a0, id, job); } else { a := GoingOn(a0, id, job); }
  }

  /** The job waits for a checkpoint. */
  method Depending(a0: Loop, id: JobID, job: Job) returns (a: Loop)
    requires Good(a0) && id in a0.active && id in a0.jobs && !a0.jobs[id].waiting && job.request == a0.jobs[id].request
    requires Continues(job, a0.jobs[id]) && KeepsDependents(job, a0.jobs[id]) && job.waiting
    ensures Good(a) && a.closing == a0.closing
    ensures var c := Continued(a0, id, job, false);
            Registered(c.jobs, c.byKey, c.next) && a == Enqueued(c, CHECKPOINT, Some(id))
    ensures Follows(a0.book, a.book, {}) && AskedAnew(a0.book, a.book, id)
  {
    ContinuedTimely(a0, id, job, false);
    ContinuedFollows(a0, id, job, false);
    AskingOk(a0, id, job);
    a := Asking(Continued(a0, id, job, false), CHECKPOINT, id, a0);
  }

  /** The job is queued again, or waits for its timer. */
  method GoingOn(a0: Loop, id: JobID, job: Job) returns (a: Loop)
    requires Good(a0) && id in a0.active && id in a0.jobs && !a0.jobs[id].waiting && job.request == a0.jobs[id].request
    requires Continues(job, a0.jobs[id]) && KeepsDependents(job, a0.jobs[id]) && !job.waiting
    ensures Good(a) && a == Continued(a0, id, job, false) && a.closing == a0.closing
    ensures Follows(a0.book, a.book, {}) && AskedAnew(a0.book, a.book, id)
  {
    ContinuedTimely(a0, id, job, false);
    ContinuedFollows(a0, id, job, false);
    SettledOk(a0, id, job);
    a := Continued(a0, id, job, false);
    BookIsFree(Settled(a0, id, job), a.book);
  }

  lemma AskingOk(a: Loop, id: JobID, job: Job)
    requires Ok(a) && id in a.active && id in a.jobs && Continues(job, a.jobs[id])
    requires KeepsDependents(job, a.jobs[id]) && job.waiting
    ensures OkBut(Continued(a, id, job, false), {id})
  {
    SettledOkBut(a, id, job);
  }

  lemma ContinuedFollows(a: Loop, id: JobID, job: Job, restart: bool)
    requires id in a.jobs && id in a.book.calls
    ensures Follows(a.book, Continued(a, id, job, restart).book, {})
  {
    FollowsOne(a.book, Continued(a, id, job, restart).book, id);
  }

  method Asking(a: Loop, r: Request, id: JobID, ghost a0: Loop) returns (b: Loop)
    requires OkBut(a, {id}) && r == CHECKPOINT && Timely(a.jobs, a.active, a.book, {}) && Follows(a0.book, a.book, {})
    requires id in a.jobs && a.jobs[id].waiting && Unrecorded(a.jobs, id) && AskedAnew(a0.book, a.book, id)
    ensures Good(b) && b == Enqueued(a, r, Some(id)) && Follows(a0.book, b.book, {}) && AskedAnew(a0.book, b.book, id)
  {
    EnqueuedOk(a, r, Some(id));
    EnqueuedTimely(a, r, Some(id));
    EnqueuedFollows(a, r, Some(id));
    b := Enqueued(a, r, Some(id));
    FollowsOn(a0.book, a.book, b.book, {}, {});
  }

  /** A retry timer fired. The job may have been cancelled meanwhile. */
  method RetryFired(a0: Loop, id: JobID) returns (a: Loop)
    requires Good(a0) && (id in a0.jobs ==> a0.jobs[id].retrying)
    ensures Good(a) && a.closing == a0.closing
    ensures if id !in a0.jobs then a == a0
            else Dispatched(a.jobs, a.pending, a.leased)
                 && OnlyStarted(Requeued(a0, id, Again(a0.jobs[id], a0.sequence + 1)), a)
    ensures id in a0.jobs ==> Follows(a0.book, a.book, {})
  {
    if id !in a0.jobs { return a0; }
    var job := Again(a0.jobs[id], a0.sequence + 1);
    RequeuedOk(a0, id, job);
    assert !a0.jobs[id].waiting by { assert Place(a0.jobs[id], id in a0.active); }
    RequeuedTimely(a0, id, job);
    a := Dispatch(Requeued(a0, id, job));
    StartedFollows(Requeued(a0, id, job), a);
  }

  lemma RequeuedTimely(a: Loop, id: JobID, job: Job)
    requires Timely(a.jobs, a.active, a.book, {}) && id in a.jobs
    requires !a.jobs[id].waiting && job == Again(a.jobs[id], job.sequence)
    ensures Timely(Requeued(a, id, job).jobs, a.active, a.book, {})
  {
    assert JobOk(a.jobs[id], a.book.calls[id], a.book) && a.book.calls[id := a.book.calls[id]] == a.book.calls;
    ServedStill(a.jobs, a.book, id, job, a.book.calls[id], a.book);
    if id in a.active && job.request.kind == CheckpointJob { assert InTime(a.jobs, a.book.calls, id); }
    AnswerStill(a.jobs, a.active, a.book.calls, id, job, a.book.calls[id]);
    SameRecords(a.jobs, {}, id, job);
  }

  // -------------------------------------------------------------------- cancellation

  function OthersThan(ws: set<Waiter>, waiter: nat): set<Waiter> { set w <- ws | w.id != waiter }

  /** The waiter withdraws. */
  function Withdrawn(a: Loop, id: JobID, waiter: nat): Loop {
    if id !in a.jobs then a
    else
      var c := CallOf(a.book, id);
      a.(book := WithCall(a.book, id,
        c.(waiters := OthersThan(c.waiters, waiter), nextWaiters := OthersThan(c.nextWaiters, waiter))))
  }

  lemma WithdrawnGood(a: Loop, id: JobID, waiter: nat)
    requires Good(a)
    ensures Good(Withdrawn(a, id, waiter))
  {
    if id in a.jobs {
      assert JobOk(a.jobs[id], a.book.calls[id], a.book);
      CallTimely(a.jobs, a.active, a.book, id, Withdrawn(a, id, waiter).book.calls[id]);
      BookIsFree(a, Withdrawn(a, id, waiter).book);
    }
  }

  /** Nobody waits for the job or depends on it, no policy asked for it, and it neither runs nor waits. */
  predicate Abandoned(a: Loop, id: JobID) {
    && id in a.jobs && a.jobs[id].dependents == {} && a.jobs[id].nextDependents == {} && id !in a.active
    && !a.jobs[id].waiting
    && var c := CallOf(a.book, id); c.waiters == {} && c.nextWaiters == {} && !c.background && !c.nextBackground
  }

  /** A waiter withdrew. Only a queued job, or one behind a timer, is removed; a running one is
      told to stop and ends through its phase. Nothing is dispatched. */
  method Cancelled(a0: Loop, id: JobID, waiter: nat) returns (a: Loop)
    requires Good(a0)
    ensures Good(a) && a.closing == a0.closing && a.active == a0.active
    ensures !a0.closing && Busy(a0) ==> Busy(a)
    ensures var b := Withdrawn(a0, id, waiter); a == if Abandoned(b, id) then Dropped(b, id) else b
    ensures Follows(a0.book, a.book, {})
  {
    a := Withdrawing(a0, id, waiter);
    CancelFollows(a0, id, waiter);
    if Abandoned(a, id) { a := Removing(a, id); }
  }

  lemma CancelFollows(a: Loop, id: JobID, waiter: nat)
    requires a.book.calls.Keys == a.jobs.Keys
    ensures var b := Withdrawn(a, id, waiter);
            Follows(a.book, b.book, {}) && (id in b.jobs ==> Follows(a.book, Dropped(b, id).book, {}))
  {
    var b := Withdrawn(a, id, waiter);
    FollowsOne(a.book, b.book, id);
    if id in b.jobs { FollowsOne(a.book, Dropped(b, id).book, id); }
  }

  method Withdrawing(a0: Loop, id: JobID, waiter: nat) returns (a: Loop)
    requires Good(a0)
    ensures Good(a) && a == Withdrawn(a0, id, waiter) && a.closing == a0.closing
    ensures a.active == a0.active && (Busy(a0) ==> Busy(a))
  {
    WithdrawnGood(a0, id, waiter);
    a := Withdrawn(a0, id, waiter);
  }

  method Removing(a0: Loop, id: JobID) returns (a: Loop)
    requires Good(a0) && Abandoned(a0, id)
    ensures Good(a) && a == Dropped(a0, id) && a.active == a0.active && (!a0.closing && Busy(a0) ==> Busy(a))
  {
    RemovedGood(a0, id);
    a := Dropped(a0, id);
    assert a.active == a0.active;
    if !a0.closing && a0.active == {} && Dispatched(a0.jobs, a0.pending, a0.leased) { CancelFreesNothing(a0, id); }
  }

  lemma RemovedGood(a: Loop, id: JobID)
    requires Good(a) && Abandoned(a, id)
    ensures Good(Dropped(a, id))
  {
    DroppedOk(a, id);
    WeakerRecords(a.jobs, id);
    DroppedTimely(a.jobs, a.active, a.book, id);
  }

  lemma WeakerRecords(jobs: Jobs, id: JobID)
    requires RecordedWait(jobs, {})
    ensures RecordedWait(jobs, {id})
  {
    forall d <- jobs ensures Recorded(jobs, d, {id}) { assert Recorded(jobs, d, {}); }
  }

  /** Either a phase runs, whose end will dispatch, or nothing queued could start. */
  predicate Busy(a: Loop) { a.active != {} || Dispatched(a.jobs, a.pending, a.leased) }

  /** With nothing running, a job that was left queued holds no resource: one that held the
      recovery protocol would find everything else free and would have been started. */
  lemma CancelFreesNothing(a: Loop, id: JobID)
    requires Ok(a) && a.active == {} && Dispatched(a.jobs, a.pending, a.leased)
    requires id in a.jobs && !a.jobs[id].waiting && !a.closing
    ensures Dispatched(Dropped(a, id).jobs, Dropped(a, id).pending, Dropped(a, id).leased)
  {
    OnlyRecoveryLeased(a.jobs, a.active, a.leased);
    assert RunsWithin(a.jobs[id], false);
    WithoutKeeps(a.pending, id);
    if id in a.pending {
      assert !(Need(a.jobs[id]) !! a.leased);
      assert RecoveryProtocol !in a.jobs[id].held;
    }
    assert HoldsLittle(a.jobs[id]);
    assert Owned(a.jobs[id]) == {};
  }

  // ----------------------------------------------------------------------- every event

  /** `Close`: waiters are told, the queue is discarded, and what runs is only awaited. */
  function ShutDown(a: Loop): Loop { a.(closing := true, pending := [], book := Dismissed(a.book)) }

  method Closed(a0: Loop) returns (a: Loop)
    requires Good(a0)
    ensures a == ShutDown(a0) && Good(a) && Follows(a0.book, a.book, {})
  {
    a := ShutDown(a0);
    DismissedTimely(a0.jobs, a0.active, a0.book);
    DismissedFollows(a0.book);
  }

  datatype Event =
    | Submission(request: Request, waiter: Option<nat>)
    | Returned(id: JobID, transition: Transition, preempted: bool)
    | TimerFired(id: JobID)
    | Cancellation(id: JobID, who: nat)
    | Closing

  /** What the workers and timers can produce in this state. A worker wrapped after a failed
      dependency only reports the failure. */
  predicate Possible(a: Loop, e: Event) {
    match e
    case Returned(id, t, preempted) =>
      && id in a.active && id in a.jobs && Answers(a.jobs[id].request, a.jobs[id].phase, t)
      && (preempted ==> t.Finish? && Preemptible(a.jobs[id].request.kind))
      && (CallOf(a.book, id).failed ==> t == Finish(false))
    case TimerFired(id) => id in a.jobs ==> a.jobs[id].retrying
    case _ => true
  }

  /** The checkpoint run that this event reports as successful, by its start. */
  function Done(a: Loop, e: Event): set<nat> {
    if e.Returned? && e.transition.Finish? && !(e.preempted && !a.closing)
    then Completes(a, e.id, e.transition.ok)
    else {}
  }

  const EMPTY := Loop(map[], [], {}, {}, map[], 1, 0, false, Book(map[], 0, {}))

  /** No two running phases share a resource. */
  predicate RunsExclusively(a: Loop) {
    forall x <- a.active, y <- a.active :: x in a.jobs && y in a.jobs && x != y ==>
      Resources(a.jobs[x].request, a.jobs[x].phase) !! Resources(a.jobs[y].request, a.jobs[y].phase)
  }

  /** No checkpoint runs beside another or beside the publication of a mapping generation, and
      neither two phases that leave recovery artifacts nor two that read in bulk run together. */
  predicate NeverTogether(a: Loop) {
    forall x <- a.active, y <- a.active :: x in a.jobs && y in a.jobs && x != y ==>
      !Clash(a.jobs[x].request, a.jobs[x].phase, a.jobs[y].request, a.jobs[y].phase)
  }

  /** A worker that asked for a checkpoint and goes on was served by a successful run of it that
      started after the worker began to wait. */
  predicate ServedInTime(a: Loop) {
    forall j <- a.jobs :: j in a.book.calls && Served(a.book.calls[j], a.jobs[j].waiting, a.book.succeeded)
  }

  /** The loop, on any sequence of events: leases stay exclusive in every state, whoever waits is
      served by a later run, and whenever no phase runs and no timer is pending, there is no job left. */
  method Run(events: seq<Event>) returns (a: Loop)
    ensures Good(a) && RunsExclusively(a) && NeverTogether(a) && ServedInTime(a)
    ensures !a.closing && a.active == {} && (forall j <- a.jobs :: !a.jobs[j].retrying) ==> a.jobs.Keys == {}
  {
    a := EMPTY;
    for i := 0 to |events|
      invariant Good(a) && (!a.closing ==> Busy(a))
    {
      if Possible(a, events[i]) { a := Handle(a, events[i]); }
    }
    RunIsExclusive(a);
    RunServes(a);
    if !a.closing && a.active == {} && (forall j <- a.jobs :: !a.jobs[j].retrying) {
      Progress(a.jobs, a.pending, a.active, a.leased);
    }
  }

  lemma RunServes(a: Loop)
    requires Timely(a.jobs, a.active, a.book, {})
    ensures ServedInTime(a)
  {
    forall j <- a.jobs ensures j in a.book.calls && Served(a.book.calls[j], a.jobs[j].waiting, a.book.succeeded) {
      assert JobOk(a.jobs[j], a.book.calls[j], a.book);
    }
  }

  lemma RunIsExclusive(a: Loop)
    requires Ok(a)
    ensures RunsExclusively(a) && NeverTogether(a)
  {
    forall x <- a.active, y <- a.active | x in a.jobs && y in a.jobs && x != y
      ensures Resources(a.jobs[x].request, a.jobs[x].phase) !! Resources(a.jobs[y].request, a.jobs[y].phase)
      ensures !Clash(a.jobs[x].request, a.jobs[x].phase, a.jobs[y].request, a.jobs[y].phase)
    {
      Exclusion(a.jobs, a.active, a.leased, x, y);
      LeasesKeepApart(a.jobs[x].request, a.jobs[x].phase, a.jobs[y].request, a.jobs[y].phase);
    }
  }

  /** What every event of the loop respects: the invariants, and the order of waits and runs. */
  predicate Moves(a: Loop, e: Event, b: Loop) {
    Good(b) && Follows(a.book, b.book, Done(a, e)) && (e.Returned? ==> AskedAnew(a.book, b.book, e.id))
  }

  method Handle(a0: Loop, e: Event) returns (a: Loop)
    requires Good(a0) && (!a0.closing ==> Busy(a0)) && Possible(a0, e)
    ensures Moves(a0, e, a) && (!a.closing ==> Busy(a))
  {
    FollowsOne(a0.book, a0.book, 0);
    match e
    case Submission(r, waiter) => a := Submit(a0, r, waiter);
    case Returned(id, t, preempted) => a := Answering(a0, id, t, preempted);
    case TimerFired(id) => a := RetryFired(a0, id);
    case Cancellation(id, who) => a := Cancelled(a0, id, who);
    case Closing => a := Closed(a0);
  }

  method Answering(a0: Loop, id: JobID, t: Transition, preempted: bool) returns (a: Loop)
    requires Good(a0) && Possible(a0, Returned(id, t, preempted))
    ensures Moves(a0, Returned(id, t, preempted), a) && Busy(a)
  {
    var b := PhaseDone(a0, id, t, preempted);
    a := Dispatch(b);
    StartedFollows(b, a);
    FollowsOn(a0.book, b.book, a.book, Done(a0, Returned(id, t, preempted)), {});
  }
}
