/** Relocating the copies, proving zero liveness and retiring the inputs; crashes. */
module StoreRetire {
  import opened RecordLog
  import opened Mapping
  import opened LiveStats
  import opened StoreState
  import opened StoreInvariant
  import opened StoreReplay
  import opened StoreFrame
  import opened StoreClient
  import opened StoreJob
  import opened StoreAccounts

  // ----------------------------------------------------- proposing relocations

  /** Every relocation proposed from the outputs pairs an ID with a copy whose payload equals the
      payload at the address it replaces, whatever other versions the inputs hold. */
  lemma ProposalIsSound(s: State, addr: VAddr)
    requires InPhase(s.gc, Publishing) && addr in s.gc.scan && addr in s.records && Proposes(s, addr)
    requires InvJob(s.gc, s.sealed, s.nextOutput, s.redirects) && InvCopies(s.gc, s.records)
    requires InvVersions(s.gc, s.records, s.table) && GoodTable(s.records, Homes(s.sealed, s.active), s.table)
    ensures var id := s.records[addr].id;
            GoodMove(s.gc.work, s.records, Homes(s.sealed, s.active),
                     AsChange(id, Step(s.table[id].addr, RefAt(s.records, addr))))
  {
    var id, work := s.records[addr].id, s.gc.work;
    var current := s.table[id].addr;
    assert Good(s.records, Homes(s.sealed, s.active), id, s.table[id]);
    if !s.gc.verify {
      assert GoodCopy(work, s.records, addr);
      if addr !in work.origins {
        NotPending(work, s.records, current);
        assert SameVersion(work, s.records, s.table, work.copies[addr]);
      }
    }
  }

  lemma NotPending(work: Work, records: Records, current: VAddr)
    requires InvLinks(work, records) && (forall a <- work.refs :: a in work.redirects)
    requires current !in work.origins.Values
    ensures current !in work.refs
  {
    forall a <- work.refs ensures a in work.origins.Values {
      assert GoodRedirect(work, records, a);
      assert work.origins[work.redirects[a].addr] in work.origins.Values;
    }
  }

  function Scanned(s: State, addr: VAddr): Gc
    requires s.gc.Job? && addr in s.records
  {
    var gc := s.gc.(scan := s.gc.scan - {addr});
    var id := s.records[addr].id;
    if Proposes(s, addr) then gc.(moves := gc.moves[id := Step(s.table[id].addr, RefAt(s.records, addr))]) else gc
  }

  lemma ScanKeeps(s: State, addr: VAddr)
    requires Inv(s) && InPhase(s.gc, Publishing) && s.gc.transfer == NoMove && addr in s.gc.scan && addr in s.records
    ensures Inv(s.(gc := Scanned(s, addr)))
  {
    if Proposes(s, addr) { ProposalIsSound(s, addr); }
    ScanMoves(s, addr);
    PublishingStep(s, Scanned(s, addr));
  }

  lemma ScanMoves(s: State, addr: VAddr)
    requires InvMoves(s.gc, s.records, Homes(s.sealed, s.active), s.delta) && s.gc.Job? && addr in s.records
    requires Proposes(s, addr) ==>
      var id := s.records[addr].id;
      GoodMove(s.gc.work, s.records, Homes(s.sealed, s.active),
        AsChange(id, Step(s.table[id].addr, RefAt(s.records, addr))))
    ensures InvMoves(Scanned(s, addr), s.records, Homes(s.sealed, s.active), s.delta)
  {
  }

  lemma StageKeeps(s: State, body: Proposal, held: Ticket)
    requires Inv(s) && InPhase(s.gc, Publishing) && s.gc.transfer == NoMove
    requires s.lock == Free && FromMoves(body, s.gc.moves) && held.ids == ChangeIDs(body) && Holding(held, s.delta)
    ensures Inv(s.(gc := s.gc.(transfer := Staged(body, held), moves := s.gc.moves - ChangeIDs(body))))
  {
    var gc := s.gc.(transfer := Staged(body, held), moves := s.gc.moves - ChangeIDs(body));
    StageMoves(s.gc, s.records, Homes(s.sealed, s.active), s.delta, body, held);
    PublishingStep(s, gc);
  }

  lemma StageMoves(gc: Gc, records: Records, homes: set<SegmentID>, delta: set<ID>, body: Proposal, held: Ticket)
    requires InvMoves(gc, records, homes, delta) && gc.Job? && FromMoves(body, gc.moves)
    requires held.ids == ChangeIDs(body) && Holding(held, delta)
    ensures InvMoves(gc.(transfer := Staged(body, held), moves := gc.moves - ChangeIDs(body)), records, homes, delta)
  {
    forall c <- body.changes ensures GoodMove(gc.work, records, homes, c) {
      assert ValidChange(Relocation, c);
      assert c == AsChange(c.id, gc.moves[c.id]);
    }
  }

  lemma MoveEnqueued(s: State)
    requires Inv(s) && InPhase(s.gc, Publishing) && s.gc.transfer.Staged?
    ensures Inv(s.(queue := s.queue + [Move(s.gc.transfer.body, s.gc.transfer.held)],
            gc := s.gc.(transfer := Waiting)))
  {
    var gc, r := s.gc.(transfer := Waiting), Move(s.gc.transfer.body, s.gc.transfer.held);
    JobIsQuiet(s);
    JobSwap(s, gc);
    StorageIgnoresJob(s, gc);
    PublishingCompaction(s, gc);
    MoveJoins(s.(gc := gc), r);
  }

  lemma MoveJoins(s: State, r: Request)
    requires Inv(s) && Quiet(s.queue) && s.lock == Free && r.Move?
    requires MoveBacked(s.gc, s.records, Homes(s.sealed, s.active), s.delta, r.body, r.held)
    ensures Inv(s.(queue := s.queue + [r]))
  {
    QueueGrows(s.queue, r, s.inflight, s.redirects, s.table, s.log);
    forall q <- s.queue ensures InOrder(Inputs(s.gc), q, r) { assert ControlBacked(q, s.lock, s.gc); }
    OrderGrows(s.queue, r, Inputs(s.gc));
    MoveInQueue(s, r);
  }

  lemma MoveInQueue(s: State, r: Request)
    requires InvProtocol(s) && InvQueueBoundary(s.gc, s.queue) && r.Move?
    requires MoveBacked(s.gc, s.records, Homes(s.sealed, s.active), s.delta, r.body, r.held)
    ensures InvQueuedMoves(s.queue + [r], s.gc, s.records, Homes(s.sealed, s.active), s.delta)
    ensures InvCommits(s.queue + [r], s.batches, s.delta) && InvControls(s.queue + [r], s.lock, s.gc)
    ensures InvQueueBoundary(s.gc, s.queue + [r])
  {
  }

  // ------------------------------------------------------------- proof, retirement

  lemma FinishKeeps(s: State)
    requires Inv(s) && InPhase(s.gc, Publishing) && s.gc.transfer == NoMove && s.gc.moves == map[]
    ensures Inv(s.(gc := s.gc.(phase := Awaiting, mark := |s.log|, since := s.runs.run)))
  {
    var gc := s.gc.(phase := Awaiting, mark := |s.log|, since := s.runs.run);
    JobIsQuiet(s);
    JobSwap(s, gc);
    StorageIgnoresJob(s, gc);
    AwaitingJob(s.gc, gc, s.sealed, s.nextOutput, s.redirects);
    PublishingBoundary(s.gc, gc, s.batches);
  }

  lemma AwaitingJob(gc: Gc, gc2: Gc, sealed: set<SegmentID>, nextOutput: nat, redirects: Redirects)
    requires InvJob(gc, sealed, nextOutput, redirects) && gc.Job?
    requires gc2.Job? && Boundary(gc.phase) && Boundary(gc2.phase)
    requires gc2 == gc.(phase := gc2.phase, mark := gc2.mark, since := gc2.since, generation := gc2.generation)
    requires gc.transfer == NoMove && gc.moves == map[]
    ensures InvJob(gc2, sealed, nextOutput, redirects)
  {
  }

  /** A segment with no live records in the accounting is named by no table entry. */
  lemma {:induction false} ZeroLive(t: Table, segment: SegmentID)
    ensures Sum(t, segment, Records) == 0 <==> forall id <- t :: SegmentOf(t[id].addr) != segment
  {
    if t != map[] {
      var id :| id in t;
      SumRemove(t, id, segment, Records);
      ZeroLive(t - {id}, segment);
      assert forall other <- t :: other == id || other in t - {id};
    }
  }

  lemma ProveKeeps(s: State)
    requires Inv(s) && Accounted(s) && Fresh(s) && RetireEnabled(s, Prove)
    ensures Inv(s.(gc := s.gc.(phase := Proved, generation := s.generation)))
  {
    var gc := s.gc.(phase := Proved, generation := s.generation);
    RootClean(s);
    ProvedCompaction(s);
    JobIsQuiet(s);
    JobSwap(s, gc);
    StorageIgnoresJob(s, gc);
  }

  lemma ProvedCompaction(s: State)
    requires InvCompaction(s) && InPhase(s.gc, Awaiting) && s.gc.mark <= s.replay.index
    requires CleanTable(s.root, s.gc.work.inputs)
    requires forall b <- s.batches :: CleanPuts(s.batches[b].puts, s.gc.work.inputs)
    ensures InvCompaction(s.(gc := s.gc.(phase := Proved, generation := s.generation)))
  {
    var gc := s.gc.(phase := Proved, generation := s.generation);
    AwaitingJob(s.gc, gc, s.sealed, s.nextOutput, s.redirects);
    ProvedBoundary(s.gc, gc, s.batches);
  }

  lemma RootClean(s: State)
    requires Accounted(s) && RetireEnabled(s, Prove)
    ensures CleanTable(s.root, s.gc.work.inputs)
    ensures forall b <- s.batches :: CleanPuts(s.batches[b].puts, s.gc.work.inputs)
  {
    forall id <- s.root ensures SegmentOf(s.root[id].addr) !in s.gc.work.inputs {
      var segment := SegmentOf(s.root[id].addr);
      ZeroLive(s.root, segment);
      assert ExactAt(s.books.rootLive, s.root, segment);
    }
    forall b <- s.batches ensures CleanPuts(s.batches[b].puts, s.gc.work.inputs) {
      forall id <- s.batches[b].puts ensures s.batches[b].puts[id] in s.batches[b].puts.Values { }
    }
  }

  lemma ProvedBoundary(gc: Gc, gc2: Gc, batches: Batches)
    requires InvBoundary(gc, batches) && InPhase(gc, Awaiting) && InPhase(gc2, Proved) && gc2.work == gc.work
    requires forall b <- batches :: CleanPuts(batches[b].puts, gc.work.inputs)
    ensures InvBoundary(gc2, batches)
  {
    forall b <- batches ensures CleanBatch(gc2, b, batches[b]) { assert CleanBatch(gc, b, batches[b]); }
  }

  /** Retirement safety: when the inputs leave the manifest nothing names an address inside
      them: not the mapping, the installed root, a checkpoint being built or any batch, and no
      commit record at or after ReplayStart. */
  lemma RetirementIsSafe(s: State)
    requires Inv(s) && InPhase(s.gc, Proved) && s.generation == s.gc.generation
    ensures CleanTable(s.table, s.gc.work.inputs) && CleanTable(s.root, s.gc.work.inputs)
    ensures s.frozen.Some? ==> CleanTable(s.frozen.value.table, s.gc.work.inputs)
    ensures forall b <- s.batches :: CleanPuts(s.batches[b].puts, s.gc.work.inputs)
    ensures forall r <- s.queue :: r.Commit? ==> CleanBody(r.body, s.gc.work.inputs)
    ensures forall i :: s.replay.index <= i < |s.log| ==> CleanEntry(s.log[i], s.gc.work.inputs)
  {
    CleanAt(s.log, s.replay.index, Published(s.log, s.inflight), s.gc.work.inputs);
    if s.frozen.Some? { CleanAt(s.log, s.replay.index, s.frozen.value.cut.index, s.gc.work.inputs); }
    forall b <- s.batches ensures CleanPuts(s.batches[b].puts, s.gc.work.inputs) {
      assert CleanBatch(s.gc, b, s.batches[b]);
    }
  }

  lemma CleanAt(log: seq<Entry>, from: nat, to: nat, segments: set<SegmentID>)
    requires from <= to <= |log| && CleanTable(Replay(map[], log[..from]), segments)
    requires forall i :: from <= i < |log| ==> CleanEntry(log[i], segments)
    ensures CleanTable(Replay(map[], log[..to]), segments)
  {
    ReplayFrom(log, from, to);
    var tail := log[from..to];
    forall e <- tail ensures CleanEntry(e, segments) {
      var i :| 0 <= i < |tail| && tail[i] == e;
      assert e == log[from + i];
    }
    ReplayClean(Replay(map[], log[..from]), tail, segments);
  }

  function Retired(s: State): State
    requires s.gc.Job?
  {
    s.(generation := s.generation + 1, sealed := s.sealed - s.gc.work.inputs,
       records := WithoutSegments(s.records, s.gc.work.inputs), gc := Idle)
  }

  lemma RetireKeeps(s: State)
    requires Inv(s) && InPhase(s.gc, Proved) && s.generation == s.gc.generation
    ensures Inv(Retired(s))
  {
    RetirementIsSafe(s);
    RetiredStorage(s);
    JobIsQuiet(s);
    RetiredProtocol(s);
  }

  lemma InputsGone(s: State)
    requires InvSegments(s.active, s.sealed, s.nextOutput)
    requires InvJob(s.gc, s.sealed, s.nextOutput, s.redirects) && s.gc.Job?
    ensures Survives(s.records, Homes(s.sealed, s.active), Retired(s).records,
            Homes(Retired(s).sealed, s.active), s.gc.work.inputs)
  {
  }

  lemma RetiredStorage(s: State)
    requires InvStorage(s) && InvJob(s.gc, s.sealed, s.nextOutput, s.redirects) && s.gc.Job?
    requires CleanTable(s.table, s.gc.work.inputs) && CleanTable(s.root, s.gc.work.inputs)
    requires s.frozen.Some? ==> CleanTable(s.frozen.value.table, s.gc.work.inputs)
    requires forall i :: s.replay.index <= i < |s.log| ==> CleanEntry(s.log[i], s.gc.work.inputs)
    ensures InvStorage(Retired(s))
  {
    InputsGone(s);
    StorageSurvives(s, Retired(s).records, Homes(Retired(s).sealed, s.active), s.gc.work.inputs);
  }

  lemma RetiredProtocol(s: State)
    requires InvStorage(s) && InvProtocol(s)
    requires InvJob(s.gc, s.sealed, s.nextOutput, s.redirects) && Quiet(s.queue) && s.gc.Job?
    requires forall b <- s.batches :: CleanPuts(s.batches[b].puts, s.gc.work.inputs)
    ensures InvProtocol(Retired(s))
  {
    JobSwap(s, Idle);
    InputsGone(s);
    var r2, homes2 := Retired(s).records, Homes(Retired(s).sealed, s.active);
    forall b <- s.batches ensures BatchOk(r2, homes2, s.delta, s.batches[b]) {
      assert BatchOk(s.records, Homes(s.sealed, s.active), s.delta, s.batches[b]);
      if IsPending(s.batches[b].state) {
        PutsSurvive(s.batches[b].puts, s.records, Homes(s.sealed, s.active), r2, homes2, s.gc.work.inputs);
      }
    }
  }

  lemma RetireKeepsAll(s: State, a: RetireOp)
    requires Inv(s) && Accounted(s) && Fresh(s) && RetireEnabled(s, a)
    ensures Inv(RetireAfter(s, a))
  {
    match a
    case ScanOutput(addr) => ScanKeeps(s, addr);
    case StageMove(body) => StageKeeps(s, body, Prepaid(s, Reserving(ChangeIDs(body), s.delta), body));
    case EnqueueMove => MoveEnqueued(s);
    case RestartPublish =>
      PublishingStep(s, s.gc.(scan := InSegments(s.records, s.gc.work.outputs), moves := map[]));
    case FinishPublish => FinishKeeps(s);
    case Prove => ProveKeeps(s);
    case Retire => RetireKeeps(s);
  }
}
