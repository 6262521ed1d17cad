/** The maintenance scheduler and the store together: what a compaction that waits for a
    checkpoint may rely on (internal/engine/maintenance_workers.go, internal/engine/relocation.go,
    internal/engine/compaction_recovery.go). The store's machine lets a compaction prove its
    inputs dead only after a checkpoint run that started after its relocations were done. Here
    that condition is not checked by anyone: it follows from the order in which the scheduler
    wakes dependents and answers waiters. */
module Maintenance {
  import opened RecordLog
  import opened StoreState
  import opened StoreAccounts
  import opened StoreTheorems
  import S = Scheduler
  import B = SchedulerBook
  import A = SchedulerActor
  import E = SchedulerEvents

  /** Who finished the relocations and will prove the inputs dead: a worker of the scheduler,
      `moved on` once the phase has ended in which it did so, or a caller resuming the compaction
      after a crash, which waits for a checkpoint under a ticket. */
  datatype Owner = Nobody | Worker(job: S.JobID, movedOn: bool) | Caller(ticket: Option<nat>)

  /** `answers` holds the waiters told that their forced checkpoint succeeded, with the start of
      its run. */
  datatype System = System(loop: A.Loop, store: State, owner: Owner, answers: map<nat, nat>)

  datatype Move =
    | Schedule(event: E.Event)
    | Act(action: Action)
    | BeginRun(id: S.JobID)
    | PublishByWorker(job: S.JobID)
    | PublishByCaller
    | Ask(ticket: nat)
    | ProveInputs
    | Restart(lost: set<VAddr>)

  predicate IsCheckpoint(a: A.Loop, id: S.JobID) {
    id in a.active && id in a.jobs && id in a.book.calls && a.jobs[id].request.kind == S.CheckpointJob
  }

  // ------------------------------------------------------------------------- moves

  /** A forced checkpoint reports success only after its own run installed a checkpoint. */
  predicate Honest(x: System, e: E.Event) { forall n <- E.Done(x.loop, e) :: n == x.store.runs.served }

  function Tickets(a: A.Loop, id: S.JobID): set<nat> {
    set w | w in B.CallOf(a.book, id).waiters && w.force :: w.id
  }

  /** The waiters that learn of a success. */
  function Answers(x: System, e: E.Event): map<nat, nat> {
    if E.Done(x.loop, e) == {} || !e.Returned? then x.answers
    else x.answers + map w | w in Tickets(x.loop, e.id) :: B.CallOf(x.loop.book, e.id).started
  }

  function OwnerAfter(owner: Owner, e: E.Event): Owner {
    if e.Returned? && owner.Worker? && owner.job == e.id then Worker(owner.job, true) else owner
  }

  ghost predicate Schedules(x: System, e: E.Event, y: System) {
    && E.Possible(x.loop, e) && Honest(x, e) && E.Moves(x.loop, e, y.loop)
    && y == System(y.loop, x.store, OwnerAfter(x.owner, e), Answers(x, e))
  }

  /** Steps of the store that involve neither the scheduler nor the end of a compaction. */
  predicate Free(a: Action) {
    !a.Crash? && !(a.Checkpoint? && a.checkpoint.StartRun?)
      && !(a.Finish? && (a.finish.FinishPublish? || a.finish.Prove?))
  }

  /** What `proveCompactionRetirement` itself checks. */
  ghost predicate InputsLookDead(s: State) {
    && InPhase(s.gc, Awaiting) && NoBatchReferences(s, s.gc.work.inputs)
    && forall i <- s.gc.work.inputs ::
       StatsKnown(s.replay, i) && LiveStats.Current(s.books.rootLive, i) == LiveStats.Stat(0, 0)
  }

  /** The prover has waited: a worker in a phase that it entered through a checkpoint and whose
      dependency did not fail, or a caller whose ticket has been answered. */
  predicate HasWaited(x: System) {
    match x.owner
    case Nobody => false
    case Worker(j, movedOn) =>
      && movedOn && j in x.loop.active && j in x.loop.jobs && j in x.loop.book.calls
      && x.loop.book.calls[j].asked && !x.loop.book.calls[j].failed
    case Caller(ticket) => ticket.Some? && ticket.value in x.answers
  }

  predicate FreshTicket(x: System, ticket: nat) {
    ticket !in x.answers && forall j <- x.loop.book.calls :: forall w <- B.WaitersOf(x.loop.book, j) :: w.id != ticket
  }

  ghost predicate Next(x: System, m: Move, y: System) {
    match m
    case Schedule(e) => Schedules(x, e, y)
    case Act(a) => Free(a) && Enabled(x.store, a) && y == x.(store := After(x.store, a))
    case BeginRun(id) =>
      && IsCheckpoint(x.loop, id) && CheckpointEnabled(x.store, StartRun(x.loop.book.calls[id].started))
      && y == x.(store := CheckpointAfter(x.store, StartRun(x.loop.book.calls[id].started)))
    case PublishByWorker(j) =>
      && j in x.loop.active && RetireEnabled(x.store, FinishPublish)
      && y == x.(store := RetireAfter(x.store, FinishPublish), owner := Worker(j, false))
    case PublishByCaller =>
      && RetireEnabled(x.store, FinishPublish)
      && y == x.(store := RetireAfter(x.store, FinishPublish), owner := Caller(None))
    case Ask(ticket) =>
      && x.owner.Caller? && FreshTicket(x, ticket)
      && E.Moves(x.loop, E.Submission(S.CHECKPOINT, Some(ticket)), y.loop)
      && y == x.(loop := y.loop, owner := Caller(Some(ticket)))
    case ProveInputs =>
      && HasWaited(x) && InputsLookDead(x.store)
      && y == x.(store := x.store.(gc := x.store.gc.(phase := Proved, generation := x.store.generation)))
    case Restart(lost) =>
      && CrashEnabled(x.store, lost)
      && y == System(Reopened(x.loop.book.clock), CrashAfter(x.store, lost), Nobody, map[])
  }

  /** A new scheduler; the stamps go on. */
  function Reopened(clock: nat): A.Loop { E.EMPTY.(book := B.Book(map[], clock, {})) }

  ghost predicate Begins(x: System) {
    Initial(x.store) && x == System(Reopened(0), x.store, Nobody, map[])
  }

  // --------------------------------------------------------------------- invariant

  /** Whoever will prove the inputs dead began to wait after the relocations were done. */
  ghost predicate Linked(x: System) {
    InPhase(x.store.gc, Awaiting) ==>
      match x.owner
      case Nobody => true
      case Worker(j, movedOn) => movedOn ==> WorkerLinked(x.loop.book, j, x.store.gc.since)
      case Caller(ticket) => ticket.Some? ==> TicketLinked(x.loop.book, x.answers, ticket.value, x.store.gc.since)
  }

  predicate WorkerLinked(book: B.Book, j: S.JobID, since: nat) {
    j in book.calls && book.calls[j].asked ==> since <= book.calls[j].since
  }

  predicate TicketLinked(book: B.Book, answers: map<nat, nat>, ticket: nat, since: nat) {
    && (forall j <- book.calls :: forall w <- B.WaitersOf(book, j) :: w.id == ticket ==> since <= w.since)
    && (ticket in answers ==> since < answers[ticket] && answers[ticket] in book.succeeded)
  }

  /** Runs of the store are runs of the scheduler, and what it calls a success was installed. */
  predicate Clocked(book: B.Book, runs: Runs) {
    runs.run <= book.clock && forall n <- book.succeeded :: n <= runs.served
  }

  ghost predicate SystemInv(x: System) {
    A.Good(x.loop) && Sound(x.store) && Clocked(x.loop.book, x.store.runs) && Linked(x)
  }

  /** The freshness condition of the store machine, from the scheduler's invariants. */
  lemma WaitedIsFresh(x: System)
    requires A.Good(x.loop) && Clocked(x.loop.book, x.store.runs) && Linked(x)
    requires HasWaited(x) && InPhase(x.store.gc, Awaiting)
    ensures x.store.gc.since < x.store.runs.served
  {
    if x.owner.Worker? {
      var j := x.owner.job;
      ActiveIsAwake(x.loop, j);
      E.RunServes(x.loop);
      assert B.Served(x.loop.book.calls[j], x.loop.jobs[j].waiting, x.loop.book.succeeded);
    }
  }

  lemma ActiveIsAwake(a: A.Loop, j: S.JobID)
    requires A.Ok(a) && j in a.active && j in a.jobs
    ensures !a.jobs[j].waiting
  {
    assert S.Place(a.jobs[j], j in a.active);
  }

  // ------------------------------------------------------------------- every move keeps

  lemma ScheduleKeepsLink(x: System, e: E.Event, y: System)
    requires A.Good(x.loop) && Clocked(x.loop.book, x.store.runs) && Linked(x) && Schedules(x, e, y)
    requires InPhase(x.store.gc, Awaiting) ==> x.store.gc.since <= x.store.runs.run
    ensures Linked(y)
  {
    if InPhase(x.store.gc, Awaiting) {
      var since := x.store.gc.since;
      if y.owner.Worker? && y.owner.movedOn {
        WorkerFollows(x.loop, e, y.loop, y.owner.job, x.owner.Worker? && x.owner.movedOn, since);
      }
      if y.owner.Caller? && y.owner.ticket.Some? { TicketFollows(x, e, y, y.owner.ticket.value, since); }
    }
  }

  lemma WorkerFollows(a: A.Loop, e: E.Event, b: A.Loop, j: S.JobID, already: bool, since: nat)
    requires E.Moves(a, e, b) && since <= a.book.clock && (already ==> WorkerLinked(a.book, j, since))
    requires !already ==> e.Returned? && e.id == j
    ensures WorkerLinked(b.book, j, since)
  {
    if j in b.book.calls { assert B.CallFollows(a.book, b.book.calls[j], j); }
  }

  lemma TicketFollows(x: System, e: E.Event, y: System, ticket: nat, since: nat)
    requires A.Good(x.loop) && Schedules(x, e, y) && since <= x.loop.book.clock
    requires TicketLinked(x.loop.book, x.answers, ticket, since)
    ensures TicketLinked(y.loop.book, y.answers, ticket, since)
  {
    WaitersFollow(x.loop.book, y.loop.book, E.Done(x.loop, e), ticket, since);
    if ticket in y.answers { AnswersFollow(x, e, y.loop, ticket, since); }
  }

  lemma AnswersFollow(x: System, e: E.Event, b: A.Loop, ticket: nat, since: nat)
    requires A.Good(x.loop) && E.Possible(x.loop, e) && b.book.succeeded == x.loop.book.succeeded + E.Done(x.loop, e)
    requires TicketLinked(x.loop.book, x.answers, ticket, since) && ticket in Answers(x, e)
    ensures since < Answers(x, e)[ticket] && Answers(x, e)[ticket] in b.book.succeeded
  {
    if E.Done(x.loop, e) != {} && e.Returned? && ticket in Tickets(x.loop, e.id) {
      AnsweredInTime(x.loop, e, ticket, since);
    }
  }

  lemma WaitersFollow(before: B.Book, after: B.Book, done: set<nat>, ticket: nat, since: nat)
    requires B.Follows(before, after, done) && since <= before.clock
    requires forall j <- before.calls :: forall w <- B.WaitersOf(before, j) :: w.id == ticket ==> since <= w.since
    ensures forall j <- after.calls :: forall w <- B.WaitersOf(after, j) :: w.id == ticket ==> since <= w.since
  {
    forall j <- after.calls, w <- B.WaitersOf(after, j) | w.id == ticket ensures since <= w.since {
      assert B.CallFollows(before, after.calls[j], j);
    }
  }

  /** A waiter that is told of a success had been there when the run started. */
  lemma AnsweredInTime(a: A.Loop, e: E.Event, ticket: nat, since: nat)
    requires A.Good(a) && E.Possible(a, e) && e.Returned? && E.Done(a, e) != {} && ticket in Tickets(a, e.id)
    requires forall j <- a.book.calls :: forall w <- B.WaitersOf(a.book, j) :: w.id == ticket ==> since <= w.since
    ensures since < B.CallOf(a.book, e.id).started && E.Done(a, e) == {B.CallOf(a.book, e.id).started}
  {
    E.WaitersWereThere(a, e.id);
    var w :| w in B.CallOf(a.book, e.id).waiters && w.id == ticket && w.force;
    assert e.id in a.book.calls && w in B.WaitersOf(a.book, e.id);
  }

  lemma ScheduleKeeps(x: System, e: E.Event, y: System)
    requires A.Good(x.loop) && Fresh(x.store) && Clocked(x.loop.book, x.store.runs) && Linked(x) && Schedules(x, e, y)
    ensures A.Good(y.loop) && Clocked(y.loop.book, y.store.runs) && Linked(y)
  {
    ScheduleKeepsLink(x, e, y);
    ClockKept(x.loop.book, y.loop.book, E.Done(x.loop, e), x.store.runs);
  }

  lemma ClockKept(before: B.Book, after: B.Book, done: set<nat>, runs: Runs)
    requires Clocked(before, runs) && B.Follows(before, after, done) && forall n <- done :: n == runs.served
    ensures Clocked(after, runs)
  {
  }

  /** The step starts no checkpoint run and finishes no relocations. */
  ghost predicate SameWait(s: State, t: State) {
    && t.runs.run == s.runs.run && s.runs.served <= t.runs.served
    && (InPhase(t.gc, Awaiting) ==> InPhase(s.gc, Awaiting) && t.gc.since == s.gc.since)
  }

  lemma FreeKeepsWait(s: State, a: Action)
    requires Fresh(s) && Free(a) && Enabled(s, a)
    ensures SameWait(s, After(s, a))
  {
    match a
    case Client(c) => ClientWait(s, c);
    case Submit(u) => SubmitWait(s, u);
    case Coordinate(o) => CoordinatorWait(s, o);
    case Checkpoint(k) => CheckpointWait(s, k);
    case Copy(c) => CopyWait(s, c);
    case Finish(f) => RetireWait(s, f);
  }

  lemma ClientWait(s: State, a: ClientOp)
    requires ClientEnabled(s, a)
    ensures SameWait(s, ClientAfter(s, a))
  {
  }

  lemma SubmitWait(s: State, a: SubmitOp)
    requires SubmitEnabled(s, a)
    ensures SameWait(s, SubmitAfter(s, a))
  {
  }

  lemma CoordinatorWait(s: State, a: CoordinatorOp)
    requires CoordinatorEnabled(s, a)
    ensures SameWait(s, CoordinatorAfter(s, a))
  {
  }

  lemma CheckpointWait(s: State, a: CheckpointOp)
    requires Fresh(s) && CheckpointEnabled(s, a) && !a.StartRun?
    ensures SameWait(s, CheckpointAfter(s, a))
  {
  }

  lemma CopyWait(s: State, a: CopyOp)
    requires CopyEnabled(s, a)
    ensures SameWait(s, CopyAfter(s, a))
  {
    if a.CopyRecord? { assert SameWait(s, Copied(s, a.addr, a.to)); }
    if a.InstallOutputs? { assert SameWait(s, OutputsInstalled(s)); }
  }

  lemma RetireWait(s: State, a: RetireOp)
    requires RetireEnabled(s, a) && !a.FinishPublish? && !a.Prove?
    ensures SameWait(s, RetireAfter(s, a))
  {
  }

  /** The step of the store, if any, that a move makes. */
  ghost function Projected(x: System, m: Move): Option<Action> {
    match m
    case Schedule(_) => None
    case Act(a) => Some(a)
    case BeginRun(id) => Some(Checkpoint(StartRun(B.CallOf(x.loop.book, id).started)))
    case PublishByWorker(_) => Some(Finish(FinishPublish))
    case PublishByCaller => Some(Finish(FinishPublish))
    case Ask(_) => None
    case ProveInputs => Some(Finish(Prove))
    case Restart(lost) => Some(Crash(lost))
  }

  ghost predicate Steps(s: State, a: Option<Action>, t: State) {
    match a
    case None => t == s
    case Some(step) => Enabled(s, step) && t == After(s, step)
  }

  /** Every move is a step of the store machine or leaves the store alone: a compaction that has
      waited never needs the freshness condition to be checked. */
  lemma MoveIsStoreStep(x: System, m: Move, y: System)
    requires A.Good(x.loop) && Clocked(x.loop.book, x.store.runs) && Linked(x) && Next(x, m, y)
    ensures Steps(x.store, Projected(x, m), y.store)
  {
    if m.ProveInputs? {
      WaitedIsFresh(x);
      ProveSteps(x.store, y.store);
    } else {
      OtherStep(x, m, y);
    }
  }

  lemma ProveSteps(s: State, t: State)
    requires InputsLookDead(s) && s.gc.since < s.runs.served
    requires t == s.(gc := s.gc.(phase := Proved, generation := s.generation))
    ensures Steps(s, Some(Finish(Prove)), t)
  {
  }

  lemma OtherStep(x: System, m: Move, y: System)
    requires Next(x, m, y) && !m.ProveInputs?
    ensures Steps(x.store, Projected(x, m), y.store)
  {
  }

  lemma LinkKept(x: System, m: Move, y: System)
    requires A.Good(x.loop) && Fresh(x.store) && Clocked(x.loop.book, x.store.runs) && Linked(x) && Next(x, m, y)
    ensures A.Good(y.loop) && Clocked(y.loop.book, y.store.runs) && Linked(y)
  {
    match m
    case Schedule(e) => ScheduleKeeps(x, e, y);
    case Act(a) =>
      FreeKeepsWait(x.store, a);
      WaitKeepsLink(x, y);
    case BeginRun(id) => RunBegins(x, id);
    case Ask(ticket) => AskLinks(x, ticket, y);
    case Restart(lost) => RestartLinks(x, lost);
    case _ => StoreLinks(x, m, y);
  }

  lemma WaitKeepsLink(x: System, y: System)
    requires Clocked(x.loop.book, x.store.runs) && Linked(x) && y == x.(store := y.store) && SameWait(x.store, y.store)
    ensures Clocked(y.loop.book, y.store.runs) && Linked(y)
  {
  }

  lemma StoreLinks(x: System, m: Move, y: System)
    requires Clocked(x.loop.book, x.store.runs) && Next(x, m, y)
    requires m.PublishByWorker? || m.PublishByCaller? || m.ProveInputs?
    ensures y.loop == x.loop && Clocked(y.loop.book, y.store.runs) && Linked(y)
  {
  }

  lemma RestartLinks(x: System, lost: set<VAddr>)
    requires Clocked(x.loop.book, x.store.runs)
    ensures A.Good(Reopened(x.loop.book.clock))
    ensures Clocked(Reopened(x.loop.book.clock).book, CrashAfter(x.store, lost).runs)
  {
    ReopenedGood(x.loop.book.clock);
  }

  lemma RunBegins(x: System, id: S.JobID)
    requires A.Good(x.loop) && IsCheckpoint(x.loop, id) && Clocked(x.loop.book, x.store.runs) && Linked(x)
    ensures var y := x.(store := x.store.(runs := Runs(x.loop.book.calls[id].started, true, x.store.runs.served)));
            Clocked(y.loop.book, y.store.runs) && Linked(y)
  {
    assert B.JobOk(x.loop.jobs[id], x.loop.book.calls[id], x.loop.book);
  }

  lemma AskLinks(x: System, ticket: nat, y: System)
    requires Clocked(x.loop.book, x.store.runs) && Next(x, Ask(ticket), y)
    requires InPhase(x.store.gc, Awaiting) ==> x.store.gc.since <= x.store.runs.run
    ensures A.Good(y.loop) && Clocked(y.loop.book, y.store.runs) && Linked(y)
  {
    WaitersFollow(x.loop.book, y.loop.book, {}, ticket, x.loop.book.clock);
  }

  lemma ReopenedGood(clock: nat)
    ensures A.Good(Reopened(clock))
  {
  }

  lemma MoveKeeps(x: System, m: Move, y: System)
    requires SystemInv(x) && Next(x, m, y)
    ensures SystemInv(y)
  {
    LinkKept(x, m, y);
    MoveIsStoreStep(x, m, y);
    var a := Projected(x, m);
    if a.Some? { StepSound(x.store, a.value, y.store); }
  }

  // -------------------------------------------------------------------------- runs

  ghost predicate SystemRun(xs: seq<System>, ms: seq<Move>) {
    && |xs| == |ms| + 1 && Begins(xs[0])
    && forall i | 0 <= i < |ms| :: MoveAt(xs, ms, i)
  }

  ghost predicate MoveAt(xs: seq<System>, ms: seq<Move>, i: nat)
    requires |xs| == |ms| + 1 && i < |ms|
  {
    Next(xs[i], ms[i], xs[i + 1])
  }

  lemma BeginsInv(x: System)
    requires Begins(x)
    ensures SystemInv(x)
  {
    InitialInv(x.store);
    ReopenedGood(0);
  }

  lemma {:induction false} EverySystemInv(xs: seq<System>, ms: seq<Move>, i: nat)
    requires SystemRun(xs, ms) && i < |xs|
    ensures SystemInv(xs[i])
  {
    if i == 0 {
      BeginsInv(xs[0]);
    } else {
      EverySystemInv(xs, ms, i - 1);
      assert MoveAt(xs, ms, i - 1);
      MoveKeeps(xs[i - 1], ms[i - 1], xs[i]);
    }
  }

  /** On every run of scheduler and store, a compaction that goes on to prove its inputs dead does
      so at a checkpoint that covers all its relocations. */
  lemma ProofsAreFresh(xs: seq<System>, ms: seq<Move>, i: nat)
    requires SystemRun(xs, ms) && i < |ms| && ms[i] == ProveInputs
    ensures var s := xs[i].store;
            && RetireEnabled(s, Prove) && xs[i + 1].store == RetireAfter(s, Prove)
            && s.gc.mark <= s.replay.index
  {
    EverySystemInv(xs, ms, i);
    assert MoveAt(xs, ms, i);
    MoveIsStoreStep(xs[i], ms[i], xs[i + 1]);
    FreshCovers(xs[i].store);
  }

  lemma FreshCovers(s: State)
    requires Fresh(s) && RetireEnabled(s, Prove)
    ensures s.gc.mark <= s.replay.index
  {
  }

  /** So every run of scheduler and store is a run of the store machine, and all that holds on its
      runs holds here. */
  lemma {:induction false} SystemRefinesStore(xs: seq<System>, ms: seq<Move>)
    returns (states: seq<State>, actions: seq<Action>)
    requires SystemRun(xs, ms)
    ensures Run(states, actions) && states[|states| - 1] == xs[|xs| - 1].store
    decreases |ms|
  {
    if |ms| == 0 {
      states, actions := [xs[0].store], [];
    } else {
      var n := |ms| - 1;
      PrefixRun(xs, ms, n);
      states, actions := SystemRefinesStore(xs[..n + 1], ms[..n]);
      EverySystemInv(xs, ms, n);
      assert MoveAt(xs, ms, n);
      MoveIsStoreStep(xs[n], ms[n], xs[n + 1]);
      var a := Projected(xs[n], ms[n]);
      if a.Some? {
        RunGrows(states, actions, a.value, xs[n + 1].store);
        states, actions := states + [xs[n + 1].store], actions + [a.value];
      }
    }
  }

  lemma PrefixRun(xs: seq<System>, ms: seq<Move>, n: nat)
    requires SystemRun(xs, ms) && n <= |ms|
    ensures SystemRun(xs[..n + 1], ms[..n])
  {
    var first, moves := xs[..n + 1], ms[..n];
    forall i | 0 <= i < |moves| ensures MoveAt(first, moves, i) { assert MoveAt(xs, ms, i); }
  }

  lemma RunGrows(states: seq<State>, actions: seq<Action>, a: Action, t: State)
    requires Run(states, actions) && Enabled(states[|states| - 1], a) && t == After(states[|states| - 1], a)
    ensures Run(states + [t], actions + [a])
  {
    var states2, actions2 := states + [t], actions + [a];
    forall i | 0 <= i < |actions2| ensures StepAt(states2, actions2, i) {
      if i < |actions| { assert StepAt(states, actions, i); }
    }
  }
}
