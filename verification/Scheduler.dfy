/** The maintenance scheduler: an actor that leases resources to worker phases
    (internal/engine/maintenance_scheduler.go, internal/engine/maintenance_workers.go). */
module Scheduler {
  datatype Resource = HeavyIO | MappingWriter | RecoveryProtocol
  datatype Kind = CheckpointJob | Relocate | Prepare | Compact | NextSegment | MappingGC | Survey
  datatype Phase = Start | Copy | Prove | Retire | Publish | Cleanup
  /** `force` asks a checkpoint to run even if nothing changed. */
  datatype Request = Request(kind: Kind, automatic: bool, background: bool, force: bool)
  type JobID = nat

  predicate IsSegment(k: Kind) { k == Relocate || k == Prepare || k == Compact || k == NextSegment }

  // ------------------------------------------------------------- the worker tables

  function Resources(r: Request, phase: Phase): set<Resource> {
    match r.kind
    case CheckpointJob => {MappingWriter}
    case Survey => {HeavyIO}
    case MappingGC =>
      if phase == Start && r.automatic then {HeavyIO}
      else if phase == Start || phase == Cleanup then {RecoveryProtocol}
      else if phase == Publish then {MappingWriter, RecoveryProtocol}
      else {HeavyIO, RecoveryProtocol}
    case _ =>
      if phase == Start || phase == Copy || phase == Publish || phase == Retire then {HeavyIO, RecoveryProtocol}
      else {RecoveryProtocol}
  }

  /** What a worker may answer. Dependencies are always checkpoint requests. */
  datatype Transition =
    | Finish(ok: bool)
    | Advance(next: Phase, retain: set<Resource>)
    | Depend(next: Phase, retain: set<Resource>, request: Request)
    | RetryLater(next: Phase, retain: set<Resource>)

  const CHECKPOINT := Request(CheckpointJob, false, false, true)

  /** The transitions the workers make (`Run` of every worker). */
  predicate Answers(r: Request, phase: Phase, t: Transition) {
    t.Finish? ||
    match r.kind
    case CheckpointJob => t == RetryLater(Start, {})
    case Relocate => t == Depend(Start, {RecoveryProtocol}, CHECKPOINT)
    case Prepare =>
      || (phase == Start
         && (t == Depend(Start, {RecoveryProtocol}, CHECKPOINT) || t == Depend(Prove, {RecoveryProtocol}, CHECKPOINT)))
      || (phase == Prove && t == Depend(Prove, {RecoveryProtocol}, CHECKPOINT))
    case Compact => CompactAnswers(phase, t)
    case NextSegment =>
      (phase == Start && t == Depend(Start, {RecoveryProtocol}, CHECKPOINT)) || CompactAnswers(phase, t)
    case MappingGC =>
      || (phase == Start && t == Depend(Copy, if r.automatic then {} else {RecoveryProtocol}, CHECKPOINT))
      || (phase == Copy && t == Advance(Publish, {RecoveryProtocol}))
      || (phase == Publish && t == Advance(Cleanup, {RecoveryProtocol}))
    case Survey => false
  }

  predicate CompactAnswers(phase: Phase, t: Transition) {
    || (phase == Start && t == Advance(Publish, {RecoveryProtocol}))
    || (phase == Publish
       && (t == Depend(Publish, {RecoveryProtocol}, CHECKPOINT) || t == Depend(Prove, {RecoveryProtocol}, CHECKPOINT)))
    || (phase == Prove
       && (t == Depend(Prove, {RecoveryProtocol}, CHECKPOINT) || t == Advance(Retire, {RecoveryProtocol})))
  }

  function Retained(t: Transition): set<Resource> { if t.Finish? then {} else t.retain }

  /** `validateMaintenanceTransition`: retaining what is not owned ends the job. */
  function Validated(t: Transition, owned: set<Resource>): Transition {
    if Retained(t) <= owned then t else Finish(false)
  }

  /** No worker keeps anything but the recovery protocol, and it keeps only what it owns; so
      validation never rejects a production worker. */
  lemma WorkersRetainWhatTheyOwn(r: Request, phase: Phase, t: Transition)
    requires Answers(r, phase, t)
    ensures Retained(t) <= {RecoveryProtocol} && Retained(t) <= Resources(r, phase)
    ensures Validated(t, Resources(r, phase)) == t
    ensures t.Depend? ==> t.request == CHECKPOINT && r.kind != CheckpointJob
    ensures t.RetryLater? ==> t.retain == {}
  {
  }

  // ------------------------------------------------------------------------- jobs

  datatype Job = Job(
    request: Request, sequence: nat, phase: Phase,
    held: set<Resource>, running: set<Resource>,
    waiting: bool, retrying: bool,
    dependents: set<JobID>, nextDependents: set<JobID>, runAgain: bool)
  type Jobs = map<JobID, Job>

  function Priority(k: Kind): nat { if k == CheckpointJob then 3 else if IsSegment(k) then 2 else 1 }

  function Owned(j: Job): set<Resource> { j.held + j.running }

  function Need(j: Job): set<Resource> { Resources(j.request, j.phase) - j.held }

  // ------------------------------------------------------------ exclusion invariant

  predicate Disjoint(jobs: Jobs) { forall a <- jobs, b <- jobs :: a != b ==> Owned(jobs[a]) !! Owned(jobs[b]) }

  /** The leased mask is exactly what the jobs own. */
  predicate LeasedIs(jobs: Jobs, leased: set<Resource>) {
    && (forall j <- jobs :: Owned(jobs[j]) <= leased)
    && (forall r <- leased :: exists j <- jobs :: r in Owned(jobs[j]))
  }

  predicate RunsWithin(j: Job, active: bool) {
    if active then Resources(j.request, j.phase) <= Owned(j) else j.running == {}
  }

  predicate RunningIs(jobs: Jobs, active: set<JobID>) {
    active <= jobs.Keys && forall j <- jobs :: RunsWithin(jobs[j], j in active)
  }

  predicate Exclusive(jobs: Jobs, active: set<JobID>, leased: set<Resource>) {
    Disjoint(jobs) && LeasedIs(jobs, leased) && RunningIs(jobs, active)
  }

  /** No two running phases share a resource. */
  lemma Exclusion(jobs: Jobs, active: set<JobID>, leased: set<Resource>, a: JobID, b: JobID)
    requires Exclusive(jobs, active, leased) && a in active && b in active && a != b
    ensures Resources(jobs[a].request, jobs[a].phase) !! Resources(jobs[b].request, jobs[b].phase)
  {
    assert RunsWithin(jobs[a], true) && RunsWithin(jobs[b], true);
  }

  // ------------------------------------------------ what must not run at the same time

  /** A checkpoint, or the publication of a mapping generation. */
  predicate ReplacesRoot(r: Request, phase: Phase) {
    r.kind == CheckpointJob || (r.kind == MappingGC && phase == Publish)
  }

  /** Whatever leaves recovery artifacts behind: segment maintenance, and mapping collection but
      for the survey that an automatic one starts with. */
  predicate LeavesArtifacts(r: Request, phase: Phase) {
    IsSegment(r.kind) || (r.kind == MappingGC && !(phase == Start && r.automatic))
  }

  /** Whatever reads whole segments or the whole tree. */
  predicate ReadsInBulk(r: Request, phase: Phase) {
    || r.kind == Survey
    || (r.kind == MappingGC && if phase == Start then r.automatic else phase != Publish && phase != Cleanup)
    || (IsSegment(r.kind) && phase != Prove && phase != Cleanup)
  }

  /** The phases that must not run at the same time. */
  predicate Clash(r: Request, phase: Phase, q: Request, other: Phase) {
    || (ReplacesRoot(r, phase) && ReplacesRoot(q, other))
    || (LeavesArtifacts(r, phase) && LeavesArtifacts(q, other))
    || (ReadsInBulk(r, phase) && ReadsInBulk(q, other))
  }

  /** The leases keep apart exactly these. */
  lemma LeasesKeepApart(r: Request, phase: Phase, q: Request, other: Phase)
    ensures Resources(r, phase) !! Resources(q, other) <==> !Clash(r, phase, q, other)
  {
    LeasesAre(r, phase);
    LeasesAre(q, other);
    if !Clash(r, phase, q, other) {
      forall x <- Resources(r, phase) ensures x !in Resources(q, other) {
        assert x == MappingWriter || x == RecoveryProtocol || x == HeavyIO;
      }
    }
  }

  lemma LeasesAre(r: Request, phase: Phase)
    ensures MappingWriter in Resources(r, phase) <==> ReplacesRoot(r, phase)
    ensures RecoveryProtocol in Resources(r, phase) <==> LeavesArtifacts(r, phase)
    ensures HeavyIO in Resources(r, phase) <==> ReadsInBulk(r, phase)
  {
  }

  /** A job gives up what it owned and takes what is free. */
  lemma Reassigned(jobs: Jobs, leased: set<Resource>, id: JobID, job: Job)
    requires Disjoint(jobs) && LeasedIs(jobs, leased) && id in jobs
    requires (Owned(job) - Owned(jobs[id])) !! leased
    ensures Disjoint(jobs[id := job]) && LeasedIs(jobs[id := job], leased - Owned(jobs[id]) + Owned(job))
  {
    ReassignedDisjoint(jobs, leased, id, job);
    ReassignedLeased(jobs, leased, id, job);
  }

  lemma ReassignedDisjoint(jobs: Jobs, leased: set<Resource>, id: JobID, job: Job)
    requires Disjoint(jobs) && LeasedIs(jobs, leased) && id in jobs && (Owned(job) - Owned(jobs[id])) !! leased
    ensures Disjoint(jobs[id := job])
  {
    var after := jobs[id := job];
    forall a <- after, b <- after | a != b ensures Owned(after[a]) !! Owned(after[b]) {
      assert a != id ==> Owned(jobs[a]) <= leased;
      assert b != id ==> Owned(jobs[b]) <= leased;
    }
  }

  lemma ReassignedLeased(jobs: Jobs, leased: set<Resource>, id: JobID, job: Job)
    requires Disjoint(jobs) && LeasedIs(jobs, leased) && id in jobs
    ensures LeasedIs(jobs[id := job], leased - Owned(jobs[id]) + Owned(job))
  {
    var after, leased2 := jobs[id := job], leased - Owned(jobs[id]) + Owned(job);
    forall a <- after ensures Owned(after[a]) <= leased2 {
      assert a != id ==> Owned(jobs[a]) <= leased && Owned(jobs[a]) !! Owned(jobs[id]);
    }
    forall r <- leased2 ensures exists j <- after :: r in Owned(after[j]) {
      if r in Owned(job) {
        assert id in after;
      } else {
        var j :| j in jobs && r in Owned(jobs[j]);
        assert j in after && after[j] == jobs[j];
      }
    }
  }

  lemma Removed(jobs: Jobs, leased: set<Resource>, id: JobID)
    requires Disjoint(jobs) && LeasedIs(jobs, leased) && id in jobs
    ensures Disjoint(jobs - {id}) && LeasedIs(jobs - {id}, leased - Owned(jobs[id]))
  {
    var after := jobs - {id};
    forall r <- leased - Owned(jobs[id]) ensures exists j <- after :: r in Owned(after[j]) {
      var j :| j in jobs && r in Owned(jobs[j]);
      assert j in after;
    }
  }

  lemma Added(jobs: Jobs, leased: set<Resource>, id: JobID, job: Job)
    requires Disjoint(jobs) && LeasedIs(jobs, leased) && id !in jobs && Owned(job) == {}
    ensures Disjoint(jobs[id := job]) && LeasedIs(jobs[id := job], leased)
  {
    var after := jobs[id := job];
    forall r <- leased ensures exists j <- after :: r in Owned(after[j]) {
      var j :| j in jobs && r in Owned(jobs[j]);
      assert j in after;
    }
  }

  // ------------------------------------------------------------- progress invariant

  /** Every job runs, is queued, waits for another job, or waits for a timer. */
  predicate Somewhere(jobs: Jobs, pending: seq<JobID>, active: set<JobID>) {
    forall j <- jobs :: j in active || j in pending || jobs[j].waiting || jobs[j].retrying
  }

  /** And does only one of these. */
  predicate Placed(jobs: Jobs, pending: seq<JobID>, active: set<JobID>) {
    && (forall p <- pending :: p in jobs ==> !jobs[p].waiting && !jobs[p].retrying)
    && (forall j <- jobs :: Place(jobs[j], j in active))
  }

  predicate Place(j: Job, running: bool) { !(j.waiting && (running || j.retrying)) && !(j.retrying && running) }

  predicate Distinct(pending: seq<JobID>) { forall i, k | 0 <= i < k < |pending| :: pending[i] != pending[k] }

  /** The queue holds jobs, each once, and none that is running. */
  predicate Queued(jobs: Jobs, pending: seq<JobID>, active: set<JobID>) {
    Distinct(pending) && forall p <- pending :: p in jobs && p !in active
  }

  /** Held across phases: at most the recovery protocol, and never by a checkpoint or behind a timer. */
  predicate HoldsLittle(j: Job) {
    && j.held <= {RecoveryProtocol} && (j.retrying ==> j.held == {})
    && (j.request.kind == CheckpointJob ==> j.held == {} && !j.waiting)
  }

  /** A waiting job is registered with a checkpoint that will wake it. */
  predicate Awaits(jobs: Jobs, d: JobID, j: JobID) {
    && d in jobs && jobs[d].request.kind == CheckpointJob
    && (j in jobs[d].dependents || (j in jobs[d].nextDependents && jobs[d].runAgain))
  }

  predicate Wakeable(jobs: Jobs) {
    forall j <- jobs | jobs[j].waiting :: exists d <- jobs :: Awaits(jobs, d, j)
  }

  /** Nothing that is queued could be started. */
  predicate Dispatched(jobs: Jobs, pending: seq<JobID>, leased: set<Resource>) {
    forall p <- pending :: p in jobs ==> !(Need(jobs[p]) !! leased)
  }

  /** Idle with work left: some queued job finds everything it needs free. Either a checkpoint
      is queued, or whoever holds the recovery protocol is, or nothing is leased at all. */
  lemma Startable(jobs: Jobs, pending: seq<JobID>, active: set<JobID>, leased: set<Resource>) returns (p: JobID)
    requires Exclusive(jobs, active, leased) && Somewhere(jobs, pending, active) && Wakeable(jobs)
    requires forall j <- jobs :: HoldsLittle(jobs[j]) && !jobs[j].retrying
    requires active == {} && jobs.Keys != {}
    ensures p in pending && p in jobs && Need(jobs[p]) !! leased
  {
    OnlyRecoveryLeased(jobs, active, leased);
    if d :| d in jobs && jobs[d].request.kind == CheckpointJob {
      assert HoldsLittle(jobs[d]) && Need(jobs[d]) <= {MappingWriter};
      return d;
    }
    forall j <- jobs ensures j in pending {
      assert jobs[j].waiting ==> exists d <- jobs :: Awaits(jobs, d, j);
    }
    if h :| h in jobs && RecoveryProtocol in jobs[h].held {
      return h;
    }
    forall j <- jobs ensures Owned(jobs[j]) == {} { assert RunsWithin(jobs[j], false) && HoldsLittle(jobs[j]); }
    assert leased == {};
    p :| p in jobs.Keys;
  }

  /** With no worker running and no retry timer outstanding, dispatch leaves nothing queued and
      nothing waiting: the actor is idle only when there is no job at all. */
  lemma Progress(jobs: Jobs, pending: seq<JobID>, active: set<JobID>, leased: set<Resource>)
    requires Exclusive(jobs, active, leased) && Somewhere(jobs, pending, active) && Wakeable(jobs)
    requires (forall j <- jobs :: HoldsLittle(jobs[j])) && Dispatched(jobs, pending, leased)
    requires active == {} && forall j <- jobs :: !jobs[j].retrying
    ensures jobs.Keys == {}
  {
    if jobs.Keys != {} { var p := Startable(jobs, pending, active, leased); }
  }

  lemma OnlyRecoveryLeased(jobs: Jobs, active: set<JobID>, leased: set<Resource>)
    requires Exclusive(jobs, active, leased) && active == {} && forall j <- jobs :: HoldsLittle(jobs[j])
    ensures leased <= {RecoveryProtocol}
  {
    forall r <- leased ensures r == RecoveryProtocol {
      var j :| j in jobs && r in Owned(jobs[j]);
      assert RunsWithin(jobs[j], false) && HoldsLittle(jobs[j]);
    }
  }
}
