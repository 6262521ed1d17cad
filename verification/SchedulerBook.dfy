/** Who waits for which run: the waiters and dependents of a job and when its phases started
    (internal/engine/maintenance_scheduler.go). A stamp counts the phases started so far; it is
    bookkeeping of the model. */
module SchedulerBook {
  import opened Scheduler

  datatype Waiter = Waiter(id: nat, since: nat, force: bool)

  /** `asked` says that the worker entered, or will enter, its phase through a checkpoint it asked
      for at `since`; `served` is the start of the run that ended the wait, and `failed` marks a
      worker wrapped after a failed one.
      `force` and `nextForce` are those of the merged requests. */
  datatype Call = Call(
    started: nat, asked: bool, since: nat, served: nat, failed: bool,
    waiters: set<Waiter>, nextWaiters: set<Waiter>, background: bool, nextBackground: bool,
    force: bool, nextForce: bool)
  type Calls = map<JobID, Call>

  /** `succeeded` holds the starts of the forced checkpoint runs that succeeded. */
  datatype Book = Book(calls: Calls, clock: nat, succeeded: set<nat>)

  predicate Stamped(c: Call, clock: nat) {
    && c.started <= clock && c.since <= clock && c.served <= clock
    && (forall w <- c.waiters :: w.since <= clock) && (forall w <- c.nextWaiters :: w.since <= clock)
  }

  /** A worker that waited resumes only after a successful run that started after it began to wait. */
  predicate Served(c: Call, waiting: bool, succeeded: set<nat>) {
    c.asked && !waiting && !c.failed ==> c.since < c.served && c.served in succeeded
  }

  predicate AllServed(jobs: Jobs, book: Book) {
    forall j <- jobs :: j in book.calls && JobOk(jobs[j], book.calls[j], book)
  }

  predicate CallOk(c: Call, waiting: bool, book: Book) { Stamped(c, book.clock) && Served(c, waiting, book.succeeded) }

  /** A checkpoint on which a job depends, or that a caller wants in any case, is forced. */
  predicate Forced(job: Job, c: Call) {
    job.request.kind == CheckpointJob ==>
      && (job.dependents != {} ==> c.force) && (job.nextDependents != {} ==> c.nextForce)
      && (forall w <- c.waiters :: w.force ==> c.force) && (forall w <- c.nextWaiters :: w.force ==> c.nextForce)
  }

  predicate JobOk(job: Job, c: Call, book: Book) { CallOk(c, job.waiting, book) && Forced(job, c) }

  /** Whoever a running checkpoint will answer began to wait before the run started. */
  predicate InTime(jobs: Jobs, calls: Calls, d: JobID)
    requires d in jobs && d in calls
  {
    && (forall w <- calls[d].waiters :: w.since < calls[d].started)
    && forall j <- jobs[d].dependents :: j in jobs && j in calls && jobs[j].waiting ==>
       calls[j].since < calls[d].started
  }

  predicate RunsAnswer(jobs: Jobs, active: set<JobID>, calls: Calls) {
    forall d <- active | d in jobs && d in calls && jobs[d].request.kind == CheckpointJob :: InTime(jobs, calls, d)
  }

  function Everybody(job: Job): set<JobID> { job.dependents + job.nextDependents }

  /** Whom a job will wake still waits; `but` is a job that is just being completed. */
  predicate Recorded(jobs: Jobs, d: JobID, but: set<JobID>)
    requires d in jobs
  {
    && jobs[d].dependents !! jobs[d].nextDependents
    && (jobs[d].request.kind != CheckpointJob ==> Everybody(jobs[d]) == {})
    && (forall j <- jobs[d].dependents :: j in jobs && (d !in but ==> jobs[j].waiting))
    && (forall j <- jobs[d].nextDependents :: j in jobs && jobs[j].waiting)
  }

  predicate RecordedOnce(jobs: Jobs) {
    forall d <- jobs, e <- jobs :: d != e ==> Everybody(jobs[d]) !! Everybody(jobs[e])
  }

  predicate RecordedWait(jobs: Jobs, but: set<JobID>) {
    (forall d <- jobs :: Recorded(jobs, d, but)) && RecordedOnce(jobs)
  }

  /** Nobody is served by a run that was already on its way. */
  predicate Timely(jobs: Jobs, active: set<JobID>, book: Book, but: set<JobID>) {
    && book.calls.Keys == jobs.Keys && AllServed(jobs, book) && RunsAnswer(jobs, active, book.calls)
    && RecordedWait(jobs, but)
  }

  predicate Unrecorded(jobs: Jobs, j: JobID) { forall d <- jobs :: j !in Everybody(jobs[d]) }

  // -------------------------------------------------------------- one job changes

  function WithCall(book: Book, id: JobID, c: Call): Book { book.(calls := book.calls[id := c]) }

  function NewCall(r: Request): Call { Call(0, false, 0, 0, false, {}, {}, r.background, false, r.force, false) }

  function CallOf(book: Book, id: JobID): Call { if id in book.calls then book.calls[id] else NewCall(CHECKPOINT) }

  lemma ServedStill(jobs: Jobs, book: Book, id: JobID, job: Job, c: Call, book2: Book)
    requires AllServed(jobs, book) && JobOk(job, c, book2)
    requires book2.calls == book.calls[id := c] && book2.clock >= book.clock && book.succeeded <= book2.succeeded
    ensures AllServed(jobs[id := job], book2)
  {
    var jobs2 := jobs[id := job];
    forall j <- jobs2 ensures j in book2.calls && JobOk(jobs2[j], book2.calls[j], book2) {
      if j != id { assert JobOk(jobs[j], book.calls[j], book); }
    }
  }

  /** The others still answer in time if the job does not begin to wait, or nobody records it. */
  lemma AnswerStill(jobs: Jobs, active: set<JobID>, calls: Calls, id: JobID, job: Job, c: Call)
    requires RunsAnswer(jobs, active, calls) && id in jobs && id in calls && calls.Keys == jobs.Keys
    requires job.request.kind == jobs[id].request.kind
    requires (job.waiting ==> jobs[id].waiting && c.since == calls[id].since) || Unrecorded(jobs, id)
    requires id in active && job.request.kind == CheckpointJob ==> InTime(jobs[id := job], calls[id := c], id)
    ensures RunsAnswer(jobs[id := job], active, calls[id := c])
  {
    var jobs2, calls2 := jobs[id := job], calls[id := c];
    forall d <- active | d in jobs2 && d in calls2 && jobs2[d].request.kind == CheckpointJob
      ensures InTime(jobs2, calls2, d)
    {
      if d != id {
        assert InTime(jobs, calls, d);
        assert Unrecorded(jobs, id) ==> id !in Everybody(jobs[d]);
      }
    }
  }

  lemma FewerAnswer(jobs: Jobs, active: set<JobID>, calls: Calls, fewer: set<JobID>)
    requires RunsAnswer(jobs, active, calls) && fewer <= active
    ensures RunsAnswer(jobs, fewer, calls)
  {
    forall d <- fewer | d in jobs && d in calls && jobs[d].request.kind == CheckpointJob
      ensures InTime(jobs, calls, d)
    {
      assert d in active;
    }
  }

  /** A job that keeps its records and, if it waited, its wait. */
  lemma SameRecords(jobs: Jobs, but: set<JobID>, id: JobID, job: Job)
    requires RecordedWait(jobs, but) && id in jobs && (jobs[id].waiting ==> job.waiting)
    requires job.dependents == jobs[id].dependents && job.nextDependents == jobs[id].nextDependents
    requires job.request.kind == jobs[id].request.kind
    ensures RecordedWait(jobs[id := job], but)
  {
    var jobs2 := jobs[id := job];
    forall d <- jobs2 ensures Recorded(jobs2, d, but) { assert Recorded(jobs, d, but); }
    forall d <- jobs2, e <- jobs2 | d != e ensures Everybody(jobs2[d]) !! Everybody(jobs2[e]) {
      assert Everybody(jobs[d]) !! Everybody(jobs[e]);
    }
  }

  // ------------------------------------------------------------------ a phase starts

  function Launched(book: Book, id: JobID): Book {
    WithCall(book, id, CallOf(book, id).(started := book.clock + 1)).(clock := book.clock + 1)
  }

  lemma LaunchedTimely(jobs: Jobs, active: set<JobID>, book: Book, id: JobID, job: Job)
    requires Timely(jobs, active, book, {}) && id in jobs && id !in active && id in book.calls
    requires job == jobs[id].(running := job.running)
    ensures Timely(jobs[id := job], active + {id}, Launched(book, id), {})
  {
    var c := book.calls[id].(started := book.clock + 1);
    assert JobOk(jobs[id], book.calls[id], book);
    ServedStill(jobs, book, id, job, c, Launched(book, id));
    AnswerStill(jobs, active, book.calls, id, job, c);
    LaunchedAnswers(jobs, active, book, id, job, c);
    SameRecords(jobs, {}, id, job);
  }

  lemma LaunchedAnswers(jobs: Jobs, active: set<JobID>, book: Book, id: JobID, job: Job, c: Call)
    requires AllServed(jobs, book) && id in jobs && book.calls.Keys == jobs.Keys
    requires c == book.calls[id].(started := book.clock + 1)
    requires job == jobs[id].(running := job.running) && RunsAnswer(jobs[id := job], active, book.calls[id := c])
    ensures RunsAnswer(jobs[id := job], active + {id}, book.calls[id := c])
  {
    var jobs2, calls2 := jobs[id := job], book.calls[id := c];
    assert JobOk(jobs[id], book.calls[id], book);
    forall j <- jobs2[id].dependents | j in jobs2 ensures calls2[j].since < calls2[id].started {
      assert JobOk(jobs[j], book.calls[j], book);
    }
    assert InTime(jobs2, calls2, id);
  }

  // ------------------------------------------------------------------------ requests

  lemma AddedTimely(jobs: Jobs, active: set<JobID>, book: Book, id: JobID, job: Job, extra: set<JobID>, r: Request,
                    c: Call)
    requires Timely(jobs, active, book, {}) && id !in jobs && id !in active && !job.waiting && c == NewCall(r)
    requires job.dependents == extra && job.nextDependents == {}
    requires extra != {} ==> job.request.kind == CheckpointJob && r.force
    requires forall x <- extra :: x in jobs && jobs[x].waiting && Unrecorded(jobs, x)
    ensures Timely(jobs[id := job], active, WithCall(book, id, c), {})
  {
    var jobs2, book2 := jobs[id := job], WithCall(book, id, c);
    ServedStill(jobs, book, id, job, c, book2);
    forall d <- active | d in jobs2 && d in book2.calls && jobs2[d].request.kind == CheckpointJob
      ensures InTime(jobs2, book2.calls, d)
    {
      assert InTime(jobs, book.calls, d) && Recorded(jobs, d, {});
    }
    AddedRecords(jobs, id, job, extra);
  }

  lemma AddedRecords(jobs: Jobs, id: JobID, job: Job, extra: set<JobID>)
    requires RecordedWait(jobs, {}) && id !in jobs && job.dependents == extra && job.nextDependents == {}
    requires extra != {} ==> job.request.kind == CheckpointJob
    requires forall x <- extra :: x in jobs && jobs[x].waiting && Unrecorded(jobs, x)
    ensures RecordedWait(jobs[id := job], {})
  {
    var jobs2 := jobs[id := job];
    forall d <- jobs2 ensures Recorded(jobs2, d, {}) { if d != id { assert Recorded(jobs, d, {}); } }
    forall d <- jobs2, e <- jobs2 | d != e ensures Everybody(jobs2[d]) !! Everybody(jobs2[e]) {
      if d != id && e != id { assert Everybody(jobs[d]) !! Everybody(jobs[e]); }
      assert Everybody(job) == extra;
    }
  }

  /** Joining a running checkpoint is for its next run; joining an idle job replaces its worker. */
  function JoinedCall(c: Call, r: Request, running: bool): Call {
    if running && r.kind == CheckpointJob
    then c.(nextBackground := c.nextBackground || r.background, nextForce := c.nextForce || r.force)
    else if running then c.(background := c.background || r.background)
    else c.(background := c.background || r.background, force := c.force || r.force, asked := false, failed := false)
  }

  /** The job as joined: who else depends on it goes to the next run if a checkpoint is running. */
  predicate JoinsWith(job: Job, before: Job, extra: set<JobID>, later: bool) {
    && job.waiting == before.waiting && job.request.kind == before.request.kind
    && job.dependents == (if later then before.dependents else before.dependents + extra)
    && job.nextDependents == (if later then before.nextDependents + extra else before.nextDependents)
  }

  lemma JoinedTimely(jobs: Jobs, active: set<JobID>, book: Book, id: JobID, job: Job, r: Request, extra: set<JobID>)
    requires Timely(jobs, active, book, {}) && id in jobs && id in book.calls
    requires jobs[id].request.kind == CheckpointJob <==> r.kind == CheckpointJob
    requires JoinsWith(job, jobs[id], extra, id in active && r.kind == CheckpointJob)
    requires extra != {} ==> r.kind == CheckpointJob && r.force
    requires forall x <- extra :: x in jobs && jobs[x].waiting && Unrecorded(jobs, x)
    ensures Timely(jobs[id := job], active, WithCall(book, id, JoinedCall(book.calls[id], r, id in active)), {})
  {
    var c := JoinedCall(book.calls[id], r, id in active);
    JoinedServed(jobs, book, id, job, r, extra, id in active, c);
    JoinedAnswers(jobs, active, book, id, job, r, extra, c);
    JoinedRecords(jobs, id, job, extra, id in active && r.kind == CheckpointJob);
  }

  lemma JoinedServed(jobs: Jobs, book: Book, id: JobID, job: Job, r: Request, extra: set<JobID>, running: bool, c: Call)
    requires AllServed(jobs, book) && id in jobs && id in book.calls && c == JoinedCall(book.calls[id], r, running)
    requires jobs[id].request.kind == CheckpointJob <==> r.kind == CheckpointJob
    requires JoinsWith(job, jobs[id], extra, running && r.kind == CheckpointJob)
    requires extra != {} ==> r.kind == CheckpointJob && r.force
    ensures AllServed(jobs[id := job], WithCall(book, id, c))
  {
    assert JobOk(jobs[id], book.calls[id], book);
    ServedStill(jobs, book, id, job, c, WithCall(book, id, c));
  }

  lemma JoinedAnswers(jobs: Jobs, active: set<JobID>, book: Book, id: JobID, job: Job, r: Request, extra: set<JobID>,
                      c: Call)
    requires RunsAnswer(jobs, active, book.calls) && book.calls.Keys == jobs.Keys && id in jobs
    requires c == JoinedCall(book.calls[id], r, id in active)
    requires jobs[id].request.kind == CheckpointJob <==> r.kind == CheckpointJob
    requires JoinsWith(job, jobs[id], extra, id in active && r.kind == CheckpointJob)
    ensures RunsAnswer(jobs[id := job], active, book.calls[id := c])
  {
    if id in active && r.kind == CheckpointJob { assert InTime(jobs, book.calls, id); }
    AnswerStill(jobs, active, book.calls, id, job, c);
  }

  lemma JoinedRecords(jobs: Jobs, id: JobID, job: Job, extra: set<JobID>, later: bool)
    requires RecordedWait(jobs, {}) && id in jobs && JoinsWith(job, jobs[id], extra, later)
    requires extra != {} ==> job.request.kind == CheckpointJob
    requires forall x <- extra :: x in jobs && jobs[x].waiting && Unrecorded(jobs, x)
    ensures RecordedWait(jobs[id := job], {})
  {
    JoinedRecorded(jobs, id, job, extra, later, jobs[id := job]);
    JoinedOnce(jobs, id, job, extra, later);
  }

  lemma JoinedRecorded(jobs: Jobs, id: JobID, job: Job, extra: set<JobID>, later: bool, jobs2: Jobs)
    requires RecordedWait(jobs, {}) && id in jobs && JoinsWith(job, jobs[id], extra, later)
    requires extra != {} ==> job.request.kind == CheckpointJob
    requires forall x <- extra :: x in jobs && jobs[x].waiting && Unrecorded(jobs, x)
    requires jobs2 == jobs[id := job]
    ensures forall d <- jobs2 :: Recorded(jobs2, d, {})
  {
    forall d <- jobs2 ensures Recorded(jobs2, d, {}) { assert Recorded(jobs, d, {}); }
  }

  lemma JoinedOnce(jobs: Jobs, id: JobID, job: Job, extra: set<JobID>, later: bool)
    requires RecordedOnce(jobs) && id in jobs && JoinsWith(job, jobs[id], extra, later)
    requires forall x <- extra :: Unrecorded(jobs, x)
    ensures RecordedOnce(jobs[id := job])
  {
    var jobs2 := jobs[id := job];
    assert Everybody(job) == Everybody(jobs[id]) + extra;
    forall d <- jobs2, e <- jobs2 | d != e ensures Everybody(jobs2[d]) !! Everybody(jobs2[e]) {
      assert Everybody(jobs[d]) !! Everybody(jobs[e]);
    }
  }

  /** The waiter of a submission, with the run that will answer it. */
  function WithWaiter(book: Book, id: JobID, waiter: nat, force: bool, later: bool): Book {
    var c, w := CallOf(book, id), Waiter(waiter, book.clock, force);
    WithCall(book, id, if later then c.(nextWaiters := c.nextWaiters + {w}) else c.(waiters := c.waiters + {w}))
  }

  lemma WaiterTimely(jobs: Jobs, active: set<JobID>, book: Book, id: JobID, waiter: nat, force: bool, later: bool)
    requires Timely(jobs, active, book, {}) && id in jobs && id in book.calls
    requires force && jobs[id].request.kind == CheckpointJob ==>
      if later then book.calls[id].nextForce else book.calls[id].force
    requires id in active && jobs[id].request.kind == CheckpointJob ==> later
    ensures Timely(jobs, active, WithWaiter(book, id, waiter, force, later), {})
  {
    var c := WithWaiter(book, id, waiter, force, later).calls[id];
    assert JobOk(jobs[id], book.calls[id], book);
    CallTimely(jobs, active, book, id, c);
  }

  /** Only the call changes, and a running checkpoint keeps those it answers. */
  lemma CallTimely(jobs: Jobs, active: set<JobID>, book: Book, id: JobID, c: Call)
    requires Timely(jobs, active, book, {}) && id in jobs && JobOk(jobs[id], c, book) && c.since == book.calls[id].since
    requires id in active && jobs[id].request.kind == CheckpointJob ==>
               c.started == book.calls[id].started && c.waiters <= book.calls[id].waiters
    ensures Timely(jobs, active, WithCall(book, id, c), {})
  {
    assert jobs[id := jobs[id]] == jobs;
    ServedStill(jobs, book, id, jobs[id], c, WithCall(book, id, c));
    CallAnswers(jobs, active, book.calls, id, c);
  }

  lemma CallAnswers(jobs: Jobs, active: set<JobID>, calls: Calls, id: JobID, c: Call)
    requires RunsAnswer(jobs, active, calls) && id in jobs && id in calls && c.since == calls[id].since
    requires id in active && jobs[id].request.kind == CheckpointJob ==>
               c.started == calls[id].started && c.waiters <= calls[id].waiters
    ensures RunsAnswer(jobs, active, calls[id := c])
  {
    var calls2 := calls[id := c];
    forall d <- active | d in jobs && d in calls2 && jobs[d].request.kind == CheckpointJob
      ensures InTime(jobs, calls2, d)
    {
      assert InTime(jobs, calls, d);
    }
  }

  // --------------------------------------------------------------------- phases end

  /** A running job does not wait, so nobody has it on record. */
  lemma IdleIsUnrecorded(jobs: Jobs, j: JobID)
    requires RecordedWait(jobs, {}) && j in jobs && !jobs[j].waiting
    ensures Unrecorded(jobs, j)
  {
    forall d <- jobs ensures j !in Everybody(jobs[d]) { assert Recorded(jobs, d, {}); }
  }

  /** The phase returned and the job goes on: with its worker, or with a new one. */
  function SettledCall(c: Call, clock: nat, asks: bool, restart: bool): Call {
    if restart then c.(asked := false, failed := false)
    else if asks then c.(asked := true, since := clock) else c.(asked := false)
  }

  lemma SettledTimely(jobs: Jobs, active: set<JobID>, book: Book, id: JobID, job: Job, asks: bool, restart: bool)
    requires Timely(jobs, active, book, {}) && id in jobs && id in book.calls && !jobs[id].waiting
    requires job.request == jobs[id].request && job.waiting == (asks && !restart)
    requires job.dependents == jobs[id].dependents && job.nextDependents == jobs[id].nextDependents
    ensures Timely(jobs[id := job], active - {id},
            WithCall(book, id, SettledCall(book.calls[id], book.clock, asks, restart)), {})
    ensures Unrecorded(jobs[id := job], id)
  {
    var c := SettledCall(book.calls[id], book.clock, asks, restart);
    IdleIsUnrecorded(jobs, id);
    assert JobOk(jobs[id], book.calls[id], book);
    ServedStill(jobs, book, id, job, c, WithCall(book, id, c));
    FewerAnswer(jobs, active, book.calls, active - {id});
    AnswerStill(jobs, active - {id}, book.calls, id, job, c);
    SameRecords(jobs, {}, id, job);
  }

  /** A dependent is woken by the run that just ended. */
  function WokenCall(c: Call, started: nat, ok: bool): Call { if ok then c.(served := started) else c.(failed := true) }

  lemma WokenTimely(jobs: Jobs, active: set<JobID>, book: Book, id: JobID, j: JobID, job: Job, ok: bool)
    requires Timely(jobs, active, book, {id}) && id in jobs && id in active && jobs[id].request.kind == CheckpointJob
    requires j in jobs[id].dependents && j in jobs && j != id && jobs[j].waiting && j in book.calls && id in book.calls
    requires ok ==> book.calls[id].started in book.succeeded
    requires !job.waiting && job.request.kind == jobs[j].request.kind
    requires job.dependents == jobs[j].dependents && job.nextDependents == jobs[j].nextDependents
    ensures book.calls[j].since < book.calls[id].started
    ensures Timely(jobs[j := job], active, WithCall(book, j, WokenCall(book.calls[j], book.calls[id].started, ok)),
            {id})
  {
    var c := WokenCall(book.calls[j], book.calls[id].started, ok);
    assert InTime(jobs, book.calls, id);
    assert JobOk(jobs[j], book.calls[j], book) && JobOk(jobs[id], book.calls[id], book);
    ServedStill(jobs, book, j, job, c, WithCall(book, j, c));
    if j in active && job.request.kind == CheckpointJob { assert InTime(jobs, book.calls, j); }
    AnswerStill(jobs, active, book.calls, j, job, c);
    WokenRecords(jobs, id, j, job);
  }

  lemma WokenRecords(jobs: Jobs, id: JobID, j: JobID, job: Job)
    requires RecordedWait(jobs, {id}) && id in jobs && j in jobs && j in jobs[id].dependents
    requires job.request.kind == jobs[j].request.kind
    requires job.dependents == jobs[j].dependents && job.nextDependents == jobs[j].nextDependents
    ensures RecordedWait(jobs[j := job], {id})
  {
    var jobs2 := jobs[j := job];
    forall d <- jobs2 ensures Recorded(jobs2, d, {id}) {
      assert Recorded(jobs, d, {id}) && Recorded(jobs, id, {id});
      assert d != id ==> Everybody(jobs[d]) !! Everybody(jobs[id]);
      assert j in Everybody(jobs[id]);
    }
    forall d <- jobs2, e <- jobs2 | d != e ensures Everybody(jobs2[d]) !! Everybody(jobs2[e]) {
      assert Everybody(jobs[d]) !! Everybody(jobs[e]);
    }
  }

  /** The run of a checkpoint is over; its start is remembered if it succeeded. */
  function Ending(book: Book, id: JobID, ok: bool): Book {
    if ok then book.(succeeded := book.succeeded + {CallOf(book, id).started}) else book
  }

  lemma EndingTimely(jobs: Jobs, active: set<JobID>, book: Book, id: JobID, ok: bool)
    requires Timely(jobs, active, book, {}) && id in book.calls
    ensures Timely(jobs, active, Ending(book, id, ok), {id})
  {
    var book2 := Ending(book, id, ok);
    forall j <- jobs ensures j in book2.calls && JobOk(jobs[j], book2.calls[j], book2) {
      assert JobOk(jobs[j], book.calls[j], book);
    }
    forall d <- jobs ensures Recorded(jobs, d, {id}) { assert Recorded(jobs, d, {}); }
  }

  /** It starts over for those who came while it ran. */
  function RenewedCall(c: Call): Call {
    c.(asked := false, failed := false, waiters := c.nextWaiters, nextWaiters := {},
       background := c.nextBackground, nextBackground := false, force := c.force || c.nextForce, nextForce := false)
  }

  lemma RenewedTimely(jobs: Jobs, active: set<JobID>, book: Book, id: JobID, job: Job)
    requires Timely(jobs, active, book, {id}) && id in jobs && id in book.calls && !jobs[id].waiting && !job.waiting
    requires job.request == jobs[id].request && job.dependents == jobs[id].nextDependents && job.nextDependents == {}
    ensures Timely(jobs[id := job], active - {id}, WithCall(book, id, RenewedCall(book.calls[id])), {})
  {
    var c := RenewedCall(book.calls[id]);
    assert JobOk(jobs[id], book.calls[id], book);
    ServedStill(jobs, book, id, job, c, WithCall(book, id, c));
    FewerAnswer(jobs, active, book.calls, active - {id});
    AnswerStill(jobs, active - {id}, book.calls, id, job, c);
    RenewedRecords(jobs, id, job);
  }

  lemma RenewedRecords(jobs: Jobs, id: JobID, job: Job)
    requires RecordedWait(jobs, {id}) && id in jobs && !jobs[id].waiting && job.request == jobs[id].request
    requires job.dependents == jobs[id].nextDependents && job.nextDependents == {}
    ensures RecordedWait(jobs[id := job], {})
  {
    var jobs2 := jobs[id := job];
    forall d <- jobs2 ensures Recorded(jobs2, d, {}) { assert Recorded(jobs, d, {id}); }
    forall d <- jobs2, e <- jobs2 | d != e ensures Everybody(jobs2[d]) !! Everybody(jobs2[e]) {
      assert Everybody(jobs[d]) !! Everybody(jobs[e]);
      assert Everybody(job) <= Everybody(jobs[id]);
    }
  }

  lemma DroppedTimely(jobs: Jobs, active: set<JobID>, book: Book, id: JobID)
    requires Timely(jobs, active, book, {id}) && id in jobs && !jobs[id].waiting
    ensures Timely(jobs - {id}, active - {id}, book.(calls := book.calls - {id}), {})
  {
    var jobs2, book2 := jobs - {id}, book.(calls := book.calls - {id});
    forall j <- jobs2 ensures j in book2.calls && JobOk(jobs2[j], book2.calls[j], book2) {
      assert JobOk(jobs[j], book.calls[j], book);
    }
    DroppedAnswers(jobs, active, book.calls, id);
    DroppedRecords(jobs, id);
  }

  lemma DroppedAnswers(jobs: Jobs, active: set<JobID>, calls: Calls, id: JobID)
    requires RunsAnswer(jobs, active, calls) && calls.Keys == jobs.Keys
    ensures RunsAnswer(jobs - {id}, active - {id}, calls - {id})
  {
    var jobs2, calls2, active2 := jobs - {id}, calls - {id}, active - {id};
    forall d <- active2 | d in jobs2 && d in calls2 && jobs2[d].request.kind == CheckpointJob
      ensures InTime(jobs2, calls2, d)
    {
      assert d in active && InTime(jobs, calls, d);
    }
  }

  lemma DroppedRecords(jobs: Jobs, id: JobID)
    requires RecordedWait(jobs, {id}) && id in jobs && !jobs[id].waiting
    ensures RecordedWait(jobs - {id}, {})
  {
    var jobs2 := jobs - {id};
    forall d <- jobs2 ensures Recorded(jobs2, d, {}) { assert Recorded(jobs, d, {id}); }
    forall d <- jobs2, e <- jobs2 | d != e ensures Everybody(jobs2[d]) !! Everybody(jobs2[e]) {
      assert Everybody(jobs[d]) !! Everybody(jobs[e]);
    }
  }

  // ------------------------------------------------------------ what no event undoes

  function WaitersOf(book: Book, j: JobID): set<Waiter> {
    if j in book.calls then book.calls[j].waiters + book.calls[j].nextWaiters else {}
  }

  /** Who waits now waited before, or began to after everything that had started by then. */
  predicate CallFollows(before: Book, c: Call, j: JobID) {
    && (c.asked ==>
       before.clock <= c.since || (j in before.calls && before.calls[j].asked && c.since == before.calls[j].since))
    && (forall w <- c.waiters + c.nextWaiters :: before.clock <= w.since || w in WaitersOf(before, j))
  }

  predicate Follows(before: Book, after: Book, done: set<nat>) {
    && before.clock <= after.clock && after.succeeded == before.succeeded + done
    && forall j <- after.calls :: CallFollows(before, after.calls[j], j)
  }

  /** A phase that ended has not asked for a checkpoint, or asks from now on. */
  predicate AskedAnew(before: Book, after: Book, id: JobID) {
    id in after.calls && after.calls[id].asked ==> before.clock <= after.calls[id].since
  }

  lemma FollowsOn(a: Book, b: Book, c: Book, done: set<nat>, more: set<nat>)
    requires Follows(a, b, done) && Follows(b, c, more)
    ensures Follows(a, c, done + more)
  {
    forall j <- c.calls ensures CallFollows(a, c.calls[j], j) {
      assert CallFollows(b, c.calls[j], j);
      if j in b.calls { assert CallFollows(a, b.calls[j], j); }
    }
  }

  /** Only one call changes. */
  lemma FollowsOne(a: Book, b: Book, id: JobID)
    requires a.clock <= b.clock && b.succeeded == a.succeeded && b.calls.Keys <= a.calls.Keys + {id}
    requires forall j <- b.calls | j != id :: b.calls[j] == a.calls[j]
    requires id in b.calls ==> CallFollows(a, b.calls[id], id)
    ensures Follows(a, b, {})
  {
    forall j <- b.calls ensures CallFollows(a, b.calls[j], j) {
      if j != id { assert WaitersOf(a, j) == b.calls[j].waiters + b.calls[j].nextWaiters; }
    }
  }

  /** The scheduler shuts down: its waiters are told so. */
  function Dismissed(book: Book): Book {
    book.(calls := map j | j in book.calls :: book.calls[j].(waiters := {}, nextWaiters := {}))
  }

  lemma DismissedTimely(jobs: Jobs, active: set<JobID>, book: Book)
    requires Timely(jobs, active, book, {})
    ensures Timely(jobs, active, Dismissed(book), {})
  {
    DismissedServed(jobs, book);
    DismissedAnswers(jobs, active, book);
    assert Dismissed(book).calls.Keys == book.calls.Keys;
  }

  lemma DismissedServed(jobs: Jobs, book: Book)
    requires AllServed(jobs, book)
    ensures AllServed(jobs, Dismissed(book))
  {
    var book2 := Dismissed(book);
    forall j <- jobs ensures j in book2.calls && JobOk(jobs[j], book2.calls[j], book2) {
      assert JobOk(jobs[j], book.calls[j], book);
    }
  }

  lemma DismissedAnswers(jobs: Jobs, active: set<JobID>, book: Book)
    requires RunsAnswer(jobs, active, book.calls)
    ensures RunsAnswer(jobs, active, Dismissed(book).calls)
  {
    var calls := Dismissed(book).calls;
    forall d <- active | d in jobs && d in calls && jobs[d].request.kind == CheckpointJob
      ensures InTime(jobs, calls, d)
    {
      assert InTime(jobs, book.calls, d);
    }
  }

  lemma DismissedFollows(book: Book)
    ensures Follows(book, Dismissed(book), {})
  {
    forall j <- Dismissed(book).calls ensures CallFollows(book, Dismissed(book).calls[j], j) { }
  }
}
