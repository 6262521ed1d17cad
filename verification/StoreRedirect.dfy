/** Publishing the outputs and moving every unpublished reference over the redirect boundary. */
module StoreRedirect {
  import opened RecordLog
  import opened StoreState
  import opened StoreInvariant
  import opened StoreFrame
  import opened StoreClient
  import opened StoreCheckpoint
  import opened StoreGroup
  import opened StoreJob

  // ------------------------------------------------------------ install outputs

  lemma OutputsKeep(s: State)
    requires Inv(s) && InPhase(s.gc, Copying) && s.gc.scan == {}
    ensures Inv(OutputsInstalled(s))
  {
    assert Homes(s.sealed, s.active) <= Homes(s.sealed + s.gc.work.outputs, s.active);
    HomesGrow(s, s.sealed + s.gc.work.outputs, s.active);
    OutputsSegments(s);
    OutputsStorage(s);
    OutputsCompaction(s);
    JobIsQuiet(s);
    OutputsProtocol(s);
  }

  lemma OutputsStorage(s: State)
    requires InvStorage(s) && InPhase(s.gc, Copying)
    requires InvSegments(s.active, s.sealed + s.gc.work.outputs, s.nextOutput)
    requires var homes := Homes(s.sealed + s.gc.work.outputs, s.active);
             InvTables(s.records, homes, s.table, s.root, s.frozen)
               && InvEntries(s.records, homes, s.log, s.replay.index)
    ensures InvStorage(OutputsInstalled(s))
  {
    QueueGrows(s.queue, Install(s.gc.work.redirects), s.inflight, s.redirects, s.table, s.log);
  }

  lemma OutputsSegments(s: State)
    requires InvSegments(s.active, s.sealed, s.nextOutput) && InvJob(s.gc, s.sealed, s.nextOutput, s.redirects)
    requires InPhase(s.gc, Copying)
    ensures InvSegments(s.active, s.sealed + s.gc.work.outputs, s.nextOutput)
    ensures InvJob(OutputsGc(s), s.sealed + s.gc.work.outputs, s.nextOutput, s.redirects)
  {
  }

  lemma OutputsCompaction(s: State)
    requires InvCompaction(s) && InPhase(s.gc, Copying) && s.gc.scan == {}
    requires InvCommits(s.queue, s.batches, s.delta)
    requires InvJob(OutputsGc(s), s.sealed + s.gc.work.outputs, s.nextOutput, s.redirects)
    requires InvMoves(s.gc, s.records, Homes(s.sealed + s.gc.work.outputs, s.active), s.delta)
    ensures InvCompaction(OutputsInstalled(s))
  {
    OutputsCopies(s);
    OutputsBoundary(s.gc, OutputsGc(s), s.batches);
    OutputsQueue(s);
    OutputsRest(s);
  }

  lemma OutputsRest(s: State)
    requires InPhase(s.gc, Copying) && InvVersions(s.gc, s.records, s.table)
    requires InvMoves(s.gc, s.records, Homes(s.sealed + s.gc.work.outputs, s.active), s.delta)
    ensures InvVersions(OutputsGc(s), s.records, s.table)
    ensures InvMoves(OutputsGc(s), s.records, Homes(s.sealed + s.gc.work.outputs, s.active), s.delta)
    ensures InvMark(OutputsGc(s), s.log, s.generation + 1, s.replay.index, s.root)
  {
  }

  /** The scan has copied every unpublished Put: the redirect table is never short. */
  lemma OutputsCopies(s: State)
    requires InvCopies(s.gc, s.records) && InPhase(s.gc, Copying) && s.gc.scan == {}
    ensures InvCopies(OutputsGc(s), s.records)
    ensures s.gc.work.redirects.Keys == s.gc.work.refs.Keys
  {
    forall a <- s.gc.work.redirects ensures a in s.gc.work.refs { assert GoodRedirect(s.gc.work, s.records, a); }
  }

  lemma OutputsBoundary(gc: Gc, gc2: Gc, batches: Batches)
    requires InvBoundary(gc, batches) && InPhase(gc, Copying) && gc2.Job?
    requires gc2 == gc.(phase := gc2.phase, scan := gc2.scan)
    requires gc2.phase == Installing || (gc2.phase == Publishing && gc.work.refs == map[])
    ensures InvBoundary(gc2, batches)
  {
    forall b <- batches ensures CleanBatch(gc2, b, batches[b]) { assert CleanBatch(gc, b, batches[b]); }
  }

  lemma OutputsQueue(s: State)
    requires InvBoundary(s.gc, s.batches) && InvCommits(s.queue, s.batches, s.delta) && InPhase(s.gc, Copying)
    requires s.gc.work.redirects == map[] ==> s.gc.work.refs == map[]
    ensures InvQueueBoundary(OutputsGc(s), s.queue)
  {
    if s.gc.work.refs == map[] {
      forall r <- s.queue | r.Commit? ensures CleanBody(r.body, s.gc.work.inputs) {
        assert CommitBacked(s.batches, s.delta, r.batch, r.body, r.held);
        assert CleanBatch(s.gc, r.batch, s.batches[r.batch]);
      }
    }
  }

  lemma OutputsProtocol(s: State)
    requires InvProtocol(s) && Quiet(s.queue) && InPhase(s.gc, Copying) && s.gc.transfer == NoMove
    requires InvBatches(s.records, Homes(s.sealed + s.gc.work.outputs, s.active), s.delta, s.batches)
    ensures InvProtocol(OutputsInstalled(s))
  {
    var t := s.(gc := OutputsGc(s), sealed := s.sealed + s.gc.work.outputs, generation := s.generation + 1);
    JobSwap(s, OutputsGc(s));
    assert InvProtocol(t);
    if s.gc.work.redirects != map[] { InstallJoins(t); }
  }

  lemma InstallJoins(s: State)
    requires InvProtocol(s) && InPhase(s.gc, Installing) && Quiet(s.queue)
    ensures InvProtocol(s.(queue := s.queue + [Install(s.gc.work.redirects)]))
  {
    var r := Install(s.gc.work.redirects);
    forall q <- s.queue ensures InOrder(Inputs(s.gc), q, r) { }
    OrderGrows(s.queue, r, Inputs(s.gc));
    InstallBacked(s, r);
  }

  lemma InstallBacked(s: State, r: Request)
    requires InvProtocol(s) && InPhase(s.gc, Installing) && r == Install(s.gc.work.redirects)
    ensures InvControls(s.queue + [r], s.lock, s.gc) && InvCommits(s.queue + [r], s.batches, s.delta)
    ensures InvQueuedMoves(s.queue + [r], s.gc, s.records, Homes(s.sealed, s.active), s.delta)
  {
  }

  // -------------------------------------------------------------------- rewrite

  /** After `RewritePutRefs` the batch references copies only. */
  lemma RewriteFits(s: State, b: BatchID)
    requires InvJob(s.gc, s.sealed, s.nextOutput, s.redirects) && InvCopies(s.gc, s.records)
    requires InvBatches(s.records, Homes(s.sealed, s.active), s.delta, s.batches) && InvBoundary(s.gc, s.batches)
    requires s.lock.Fence? ==> NoSubmitter(s.batches, s.gc)
    requires InPhase(s.gc, Rewriting) && b in s.batches && IsOpen(s.batches[b].state)
    ensures BatchFits(s, b, Rewritten(s.batches[b], s.gc.work.redirects))
    ensures CleanPuts(Rewritten(s.batches[b], s.gc.work.redirects).puts, s.gc.work.inputs)
  {
    var batch, now := s.batches[b], Rewritten(s.batches[b], s.gc.work.redirects);
    assert BatchOk(s.records, Homes(s.sealed, s.active), s.delta, batch);
    assert CleanBatch(s.gc, b, batch);
    forall id <- now.puts | now.puts[id].Some?
      ensures Good(s.records, Homes(s.sealed, s.active), id, now.puts[id].value)
      ensures SegmentOf(now.puts[id].value.addr) !in s.gc.work.inputs
    {
      if batch.puts[id].value.addr in s.redirects { RedirectGood(s, batch.puts[id].value.addr); }
    }
    assert now.puts.Keys == batch.puts.Keys;
  }

  lemma RewriteKeeps(s: State, b: BatchID)
    requires Inv(s) && InPhase(s.gc, Rewriting) && b in s.batches && IsOpen(s.batches[b].state)
    ensures Inv(WithBatch(s, b, Rewritten(s.batches[b], s.gc.work.redirects)).(gc := s.gc.(todo := s.gc.todo - {b})))
  {
    var now := Rewritten(s.batches[b], s.gc.work.redirects);
    RewriteFits(s, b);
    BatchStep(s, b, now);
    RewriteDone(WithBatch(s, b, now), b);
  }

  lemma RewriteDone(s: State, b: BatchID)
    requires Inv(s) && InPhase(s.gc, Rewriting)
    requires b in s.batches && IsOpen(s.batches[b].state) ==> CleanPuts(s.batches[b].puts, s.gc.work.inputs)
    ensures Inv(s.(gc := s.gc.(todo := s.gc.todo - {b})))
  {
    var gc := s.gc.(todo := s.gc.todo - {b});
    JobIsQuiet(s);
    JobSwap(s, gc);
    RewrittenBoundary(s.gc, s.batches, b);
    CompactionAdvances(s, gc);
    StorageIgnoresJob(s, gc);
  }

  lemma RewrittenBoundary(gc: Gc, batches: Batches, b: BatchID)
    requires InvBoundary(gc, batches) && InPhase(gc, Rewriting)
    requires b in batches && IsOpen(batches[b].state) ==> CleanPuts(batches[b].puts, gc.work.inputs)
    ensures InvBoundary(gc.(todo := gc.todo - {b}), batches)
  {
    var gc2 := gc.(todo := gc.todo - {b});
    forall x <- batches ensures CleanBatch(gc2, x, batches[x]) { assert CleanBatch(gc, x, batches[x]); }
  }

  // -------------------------------------------------------------------- release

  lemma EnqueueReleaseKeeps(s: State)
    requires Inv(s) && InPhase(s.gc, Rewriting) && s.gc.todo == {} && s.lock == Free && NoSubmitter(s.batches, s.gc)
    ensures Inv(s.(queue := s.queue + [Release], gc := s.gc.(phase := Releasing)))
  {
    JobIsQuiet(s);
    ReleaseProtocol(s);
    ReleaseCompaction(s);
    QueueGrows(s.queue, Release, s.inflight, s.redirects, s.table, s.log);
  }

  lemma ReleaseProtocol(s: State)
    requires InvProtocol(s) && InPhase(s.gc, Rewriting) && Quiet(s.queue)
    requires s.lock == Free && NoSubmitter(s.batches, s.gc)
    ensures InvProtocol(s.(queue := s.queue + [Release], gc := s.gc.(phase := Releasing)))
  {
    JobSwap(s, s.gc.(phase := Releasing));
    ReleaseJoins(s.(gc := s.gc.(phase := Releasing)));
  }

  lemma ReleaseCompaction(s: State)
    requires InvCompaction(s) && InPhase(s.gc, Rewriting) && s.gc.todo == {} && NoSubmitter(s.batches, s.gc)
    ensures InvCompaction(s.(queue := s.queue + [Release], gc := s.gc.(phase := Releasing)))
  {
    ReleasingBoundary(s.gc, s.batches);
    CompactionAdvances(s, s.gc.(phase := Releasing));
  }

  /** With admission held exclusively no prepared proposal is outside the queue. */
  lemma ReleasingBoundary(gc: Gc, batches: Batches)
    requires InvBoundary(gc, batches) && InPhase(gc, Rewriting) && gc.todo == {} && NoSubmitter(batches, gc)
    ensures InvBoundary(gc.(phase := Releasing), batches)
  {
    var gc2 := gc.(phase := Releasing);
    forall b <- batches ensures CleanBatch(gc2, b, batches[b]) { assert CleanBatch(gc, b, batches[b]); }
  }

  lemma ReleaseJoins(s: State)
    requires InvProtocol(s) && InPhase(s.gc, Releasing) && Quiet(s.queue) && s.lock == Free
    ensures InvProtocol(s.(queue := s.queue + [Release]))
  {
    forall q <- s.queue ensures InOrder(Inputs(s.gc), q, Release) { }
    OrderGrows(s.queue, Release, Inputs(s.gc));
    ReleaseBacked(s);
  }

  lemma ReleaseBacked(s: State)
    requires InvProtocol(s) && InPhase(s.gc, Releasing)
    ensures InvControls(s.queue + [Release], s.lock, s.gc) && InvCommits(s.queue + [Release], s.batches, s.delta)
    ensures InvQueuedMoves(s.queue + [Release], s.gc, s.records, Homes(s.sealed, s.active), s.delta)
  {
  }

  // ------------------------------------------------------------------- all steps

  lemma CopyKeepsAll(s: State, a: CopyOp)
    requires Inv(s) && CopyEnabled(s, a)
    ensures Inv(CopyAfter(s, a))
  {
    if a.InstallOutputs? {
      OutputsStep(s);
    } else if a.RewriteBatch? {
      RewriteStep(s, a.b);
    } else if a.EnqueueRelease? {
      ReleaseStep(s);
    } else {
      CopyingKeeps(s, a);
    }
  }

  lemma CopyingKeeps(s: State, a: CopyOp)
    requires Inv(s) && CopyEnabled(s, a) && !a.InstallOutputs? && !a.RewriteBatch? && !a.EnqueueRelease?
    ensures Inv(CopyAfter(s, a))
  {
    match a
    case StartJob(inputs, outputs) => StartKeeps(s, inputs, outputs);
    case SnapshotBatch(b) => SnapshotKeeps(s, b);
    case BeginCopy => BeginCopyKeeps(s);
    case CopyRecord(addr, to) => CopyKeeps(s, addr, to);
    case Rollback => RollbackKeeps(s);
  }

  lemma OutputsStep(s: State)
    requires Inv(s) && CopyEnabled(s, InstallOutputs)
    ensures Inv(CopyAfter(s, InstallOutputs))
  {
    OutputsKeep(s);
  }

  lemma ReleaseStep(s: State)
    requires Inv(s) && CopyEnabled(s, EnqueueRelease)
    ensures Inv(CopyAfter(s, EnqueueRelease))
  {
    EnqueueReleaseKeeps(s);
  }

  lemma RewriteStep(s: State, b: BatchID)
    requires Inv(s) && CopyEnabled(s, RewriteBatch(b))
    ensures Inv(CopyAfter(s, RewriteBatch(b)))
  {
    if b in s.batches && IsOpen(s.batches[b].state) {
      RewriteKeeps(s, b);
    } else {
      RewriteDone(s, b);
      RewriteSkips(s, b);
    }
  }

  /** A batch that is gone or no longer open is left alone. */
  lemma RewriteSkips(s: State, b: BatchID)
    requires CopyEnabled(s, RewriteBatch(b)) && (b in s.batches ==> !IsOpen(s.batches[b].state))
    ensures CopyAfter(s, RewriteBatch(b)) == s.(gc := s.gc.(todo := s.gc.todo - {b}))
  {
    if b in s.batches { assert s.batches[b := s.batches[b]] == s.batches; }
  }
}
