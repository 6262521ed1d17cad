/** The steps of a compaction up to the redirect boundary keep the store invariant. */
module StoreJob {
  import opened RecordLog
  import opened Mapping
  import opened StoreState
  import opened StoreInvariant
  import opened StoreFrame
  import opened StoreClient

  // ----------------------------------------------------------- changing the job

  /** No request of the job itself is in the queue. */
  ghost predicate Quiet(queue: seq<Request>) { forall r <- queue :: r.Commit? || r.Barrier? }

  lemma JobIsQuiet(s: State)
    requires InvProtocol(s)
    requires s.gc.Job? ==> s.gc.phase != Installing && s.gc.phase != Releasing && s.gc.transfer != Waiting
    ensures Quiet(s.queue)
  {
    forall r <- s.queue ensures r.Commit? || r.Barrier? {
      assert ControlBacked(r, s.lock, s.gc);
    }
  }

  lemma JobSwap(s: State, gc: Gc)
    requires InvProtocol(s) && Quiet(s.queue)
    requires s.lock.Fence? && gc.Job? ==> !gc.transfer.Staged?
    ensures InvProtocol(s.(gc := gc))
  {
    forall r <- s.queue ensures ControlBacked(r, s.lock, gc) { assert ControlBacked(r, s.lock, s.gc); }
    OrderSwap(s.queue, Inputs(s.gc), Inputs(gc));
  }

  lemma OrderSwap(queue: seq<Request>, inputs: set<SegmentID>, inputs2: set<SegmentID>)
    requires InvOrder(queue, inputs) && Quiet(queue)
    ensures InvOrder(queue, inputs2)
  {
    forall i, j | 0 <= i < j < |queue| ensures InOrder(inputs2, queue[i], queue[j]) {
      assert InOrder(inputs, queue[i], queue[j]);
      assert queue[i] in queue;
    }
  }

  /** A step of the publishing phase that changes only the scan and the moves. */
  lemma PublishingStep(s: State, gc: Gc)
    requires Inv(s) && InPhase(s.gc, Publishing) && s.gc.transfer == NoMove && gc.Job?
    requires gc == s.gc.(scan := gc.scan, moves := gc.moves, transfer := gc.transfer)
    requires gc.scan <= InSegments(s.records, s.gc.work.outputs)
    requires s.lock == Free || !gc.transfer.Staged?
    requires InvMoves(gc, s.records, Homes(s.sealed, s.active), s.delta)
    ensures Inv(s.(gc := gc))
  {
    JobIsQuiet(s);
    JobSwap(s, gc);
    StorageIgnoresJob(s, gc);
    PublishingCompaction(s, gc);
  }

  lemma PublishingCompaction(s: State, gc: Gc)
    requires InvCompaction(s) && InPhase(s.gc, Publishing) && gc.Job?
    requires gc == s.gc.(scan := gc.scan, moves := gc.moves, transfer := gc.transfer)
    requires gc.scan <= InSegments(s.records, s.gc.work.outputs)
    requires InvMoves(gc, s.records, Homes(s.sealed, s.active), s.delta)
    ensures InvCompaction(s.(gc := gc))
  {
    PublishingJob(s.gc, gc, s.sealed, s.nextOutput, s.redirects);
    PublishingBoundary(s.gc, gc, s.batches);
  }

  lemma PublishingJob(gc: Gc, gc2: Gc, sealed: set<SegmentID>, nextOutput: nat, redirects: Redirects)
    requires InvJob(gc, sealed, nextOutput, redirects) && InPhase(gc, Publishing) && gc2.Job?
    requires gc2 == gc.(scan := gc2.scan, moves := gc2.moves, transfer := gc2.transfer)
    ensures InvJob(gc2, sealed, nextOutput, redirects)
  {
  }

  lemma PublishingBoundary(gc: Gc, gc2: Gc, batches: Batches)
    requires InvBoundary(gc, batches) && gc.Job? && gc2.Job?
    requires Boundary(gc.phase) && Boundary(gc2.phase) && gc2.phase != Proved
    requires gc2.work == gc.work
    ensures InvBoundary(gc2, batches)
  {
    forall b <- batches ensures CleanBatch(gc2, b, batches[b]) { assert CleanBatch(gc, b, batches[b]); }
  }

  // -------------------------------------------------------------- start, snapshot

  lemma StartKeeps(s: State, inputs: set<SegmentID>, outputs: set<SegmentID>)
    requires Inv(s) && CopyEnabled(s, StartJob(inputs, outputs))
    ensures Inv(CopyAfter(s, StartJob(inputs, outputs)))
  {
    var gc := Started(inputs, outputs, s.batches.Keys);
    JobIsQuiet(s);
    JobSwap(s, gc);
    NewOutputs(s, inputs, outputs);
  }

  lemma NewOutputs(s: State, inputs: set<SegmentID>, outputs: set<SegmentID>)
    requires InvSegments(s.active, s.sealed, s.nextOutput) && InvAddresses(s.records, s.nextOutput)
    requires inputs <= s.sealed && forall o <- outputs :: s.nextOutput <= o
    ensures var gc, next := Started(inputs, outputs, s.batches.Keys), MaxOf(outputs, s.nextOutput);
            && InvSegments(s.active, s.sealed, next) && InvAddresses(s.records, next)
            && InvJob(gc, s.sealed, next, map[]) && InvCopies(gc, s.records)
            && InvBoundary(gc, s.batches)
  {
  }

  lemma SnapshotKeeps(s: State, b: BatchID)
    requires Inv(s) && CopyEnabled(s, SnapshotBatch(b))
    ensures Inv(CopyAfter(s, SnapshotBatch(b)))
  {
    var gc := CopyAfter(s, SnapshotBatch(b)).gc;
    JobIsQuiet(s);
    JobSwap(s, gc);
    SnapshotSources(s, b);
    SnapshotBoundary(s, b);
    SnapshotJob(s.gc, gc, s.sealed, s.nextOutput, s.redirects);
  }

  lemma SnapshotJob(gc: Gc, gc2: Gc, sealed: set<SegmentID>, nextOutput: nat, redirects: Redirects)
    requires InvJob(gc, sealed, nextOutput, redirects) && InPhase(gc, Snapshot) && gc2.Job?
    requires gc2 == gc.(todo := gc2.todo, holders := gc2.holders, work := gc.work.(refs := gc2.work.refs))
    ensures InvJob(gc2, sealed, nextOutput, redirects)
  {
  }

  lemma SnapshotSources(s: State, b: BatchID)
    requires InvCopies(s.gc, s.records) && CopyEnabled(s, SnapshotBatch(b))
    requires s.gc.work.copies == map[] && s.gc.work.redirects == map[]
    ensures InvCopies(CopyAfter(s, SnapshotBatch(b)).gc, s.records)
  {
    var work := CopyAfter(s, SnapshotBatch(b)).gc.work;
    forall a <- work.refs ensures GoodSource(work, s.records, a) {
      if a in s.gc.work.refs { assert GoodSource(s.gc.work, s.records, a); }
    }
  }

  lemma SnapshotBoundary(s: State, b: BatchID)
    requires InvBoundary(s.gc, s.batches) && CopyEnabled(s, SnapshotBatch(b))
    requires InvBatches(s.records, Homes(s.sealed, s.active), s.delta, s.batches)
    ensures InvBoundary(CopyAfter(s, SnapshotBatch(b)).gc, s.batches)
  {
    var gc := CopyAfter(s, SnapshotBatch(b)).gc;
    forall x <- s.batches ensures CleanBatch(gc, x, s.batches[x]) {
      assert CleanBatch(s.gc, x, s.batches[x]);
      assert BatchOk(s.records, Homes(s.sealed, s.active), s.delta, s.batches[x]);
      if x == b {
        SnapshotComplete(s.records, Homes(s.sealed, s.active), s.batches[b], s.gc.work.inputs);
      } else {
        OtherBatch(s.gc, gc, b, x, s.batches[x]);
      }
    }
  }

  lemma OtherBatch(gc: Gc, gc2: Gc, b: BatchID, x: BatchID, batch: Batch)
    requires InPhase(gc, Snapshot) && InPhase(gc2, Snapshot) && CleanBatch(gc, x, batch) && x != b
    requires gc2.work.inputs == gc.work.inputs && gc.work.refs.Keys <= gc2.work.refs.Keys
    requires gc2.todo == gc.todo - {b} && gc.holders <= gc2.holders <= gc.holders + {b}
    ensures CleanBatch(gc2, x, batch)
  {
  }

  /** `PendingPutRefs` misses no reference into the inputs. */
  lemma SnapshotComplete(records: Records, homes: set<SegmentID>, batch: Batch, inputs: set<SegmentID>)
    requires IsPending(batch.state) ==> GoodPuts(records, homes, batch.puts)
    ensures IsPending(batch.state) ==> Contained(batch.puts, inputs, PendingIn(records, batch, inputs))
    ensures IsPending(batch.state) && PendingIn(records, batch, inputs) == map[] ==> CleanPuts(batch.puts, inputs)
  {
    var found := PendingIn(records, batch, inputs);
    if IsPending(batch.state) {
      forall id <- batch.puts | batch.puts[id].Some? && SegmentOf(batch.puts[id].value.addr) in inputs
        ensures batch.puts[id].value.addr in found
      {
        assert Good(records, homes, id, batch.puts[id].value);
        assert batch.puts[id] in batch.puts.Values;
      }
    }
  }

  lemma BeginCopyKeeps(s: State)
    requires Inv(s) && InPhase(s.gc, Snapshot) && s.gc.todo == {}
    ensures Inv(s.(gc := s.gc.(phase := Copying, scan := InSegments(s.records, s.gc.work.inputs))))
  {
    var gc := s.gc.(phase := Copying, scan := InSegments(s.records, s.gc.work.inputs));
    JobIsQuiet(s);
    JobSwap(s, gc);
    BeginCopyLinks(s.gc, s.records);
    BeginCopyBoundary(s.gc, gc, s.batches);
    CompactionAdvances(s, gc);
    StorageIgnoresJob(s, gc);
  }

  lemma BeginCopyLinks(gc: Gc, records: Records)
    requires InvCopies(gc, records) && InPhase(gc, Snapshot)
    ensures InvCopies(gc.(phase := Copying, scan := InSegments(records, gc.work.inputs)), records)
  {
    forall a <- gc.work.refs
      ensures a in InSegments(records, gc.work.inputs)
    {
      assert GoodSource(gc.work, records, a);
    }
  }

  lemma BeginCopyBoundary(gc: Gc, gc2: Gc, batches: Batches)
    requires InvBoundary(gc, batches) && InPhase(gc, Snapshot) && gc.todo == {}
    requires gc2.Job? && gc2 == gc.(phase := Copying, scan := gc2.scan)
    ensures InvBoundary(gc2, batches)
  {
    forall b <- batches ensures CleanBatch(gc2, b, batches[b]) { assert CleanBatch(gc, b, batches[b]); }
  }

  // ----------------------------------------------------------------------- copy

  lemma CopyKeeps(s: State, addr: VAddr, to: VAddr)
    requires Inv(s) && CopyEnabled(s, CopyRecord(addr, to))
    ensures Inv(CopyAfter(s, CopyRecord(addr, to)))
  {
    JobIsQuiet(s);
    if !Live(s, addr) && addr !in s.gc.work.refs {
      SkipKeeps(s, addr);
    } else {
      CopyMade(s, addr, to);
    }
  }

  lemma SkipKeeps(s: State, addr: VAddr)
    requires Inv(s) && Quiet(s.queue) && InPhase(s.gc, Copying) && addr !in s.gc.work.refs
    ensures Inv(s.(gc := Visited(s.gc, addr)))
  {
    var gc := Visited(s.gc, addr);
    JobSwap(s, gc);
    CopyBoundary(s.gc, gc, s.batches);
    SkipCoverage(s.gc, s.records, addr);
    CompactionAdvances(s, gc);
    StorageIgnoresJob(s, gc);
  }

  lemma SkipCoverage(gc: Gc, records: Records, addr: VAddr)
    requires InPhase(gc, Copying) && InvCoverage(gc, records) && addr !in gc.work.refs
    ensures InvCoverage(Visited(gc, addr), records)
  {
  }

  function AfterCopy(s: State, addr: VAddr, to: VAddr): State
    requires s.gc.Job? && addr in s.records
  {
    s.(records := s.records[to := s.records[addr]],
       gc := Visited(s.gc, addr).(work := WithCopy(s.gc.work, addr, RecordRef(to, s.records[addr].size))))
  }

  lemma CopyMade(s: State, addr: VAddr, to: VAddr)
    requires Inv(s) && Quiet(s.queue) && CopyEnabled(s, CopyRecord(addr, to))
    requires (Live(s, addr) || addr in s.gc.work.refs)
    ensures Inv(AfterCopy(s, addr, to))
  {
    assert SegmentOf(to) < s.nextOutput;
    RecordsGrow(s, to, s.records[addr]);
    JobSwap(s.(records := s.records[to := s.records[addr]]), AfterCopy(s, addr, to).gc);
    CopyMadeCompaction(s, addr, to);
  }

  lemma CopyMadeCompaction(s: State, addr: VAddr, to: VAddr)
    requires InvCompaction(s) && CopyEnabled(s, CopyRecord(addr, to)) && (Live(s, addr) || addr in s.gc.work.refs)
    requires InvMoves(s.gc, s.records[to := s.records[addr]], Homes(s.sealed, s.active), s.delta)
    ensures InvCompaction(AfterCopy(s, addr, to))
  {
    var gc := AfterCopy(s, addr, to).gc;
    CopyBoundary(s.gc, gc, s.batches);
    LinksAdded(s.gc.work, s.records, addr, to);
    CoverageAdded(s.gc, s.records, addr, to);
    CopyVersions(s.gc.work, s.records, s.table, addr, to);
    CopyJob(s.gc, gc, s.sealed, s.nextOutput, s.redirects);
  }

  lemma CopyJob(gc: Gc, gc2: Gc, sealed: set<SegmentID>, nextOutput: nat, redirects: Redirects)
    requires InvJob(gc, sealed, nextOutput, redirects) && InPhase(gc, Copying) && gc2.Job?
    requires gc2 == gc.(scan := gc2.scan, work := gc2.work)
    requires gc2.work.inputs == gc.work.inputs && gc2.work.outputs == gc.work.outputs && gc2.work.refs == gc.work.refs
    ensures InvJob(gc2, sealed, nextOutput, redirects)
  {
  }

  lemma LinksAdded(work: Work, records: Records, addr: VAddr, to: VAddr)
    requires InvLinks(work, records) && addr in records && SegmentOf(addr) in work.inputs
    requires to !in records && SegmentOf(to) in work.outputs
    ensures InvLinks(WithCopy(work, addr, RecordRef(to, records[addr].size)), records[to := records[addr]])
  {
    var work2, r2 := WithCopy(work, addr, RecordRef(to, records[addr].size)), records[to := records[addr]];
    forall a <- work2.refs ensures GoodSource(work2, r2, a) { assert GoodSource(work, records, a); }
    CopyCopies(work, records, addr, to);
    CopyRedirects(work, records, addr, to);
  }

  lemma CopyCopies(work: Work, records: Records, addr: VAddr, to: VAddr)
    requires InvLinks(work, records) && addr in records && SegmentOf(addr) in work.inputs
    requires to !in records && SegmentOf(to) in work.outputs
    ensures var work2 := WithCopy(work, addr, RecordRef(to, records[addr].size));
            forall n <- work2.copies :: GoodCopy(work2, records[to := records[addr]], n)
  {
    var work2, r2 := WithCopy(work, addr, RecordRef(to, records[addr].size)), records[to := records[addr]];
    assert to !in work.copies by { assert to in work.copies ==> GoodCopy(work, records, to); }
    forall n <- work2.copies ensures GoodCopy(work2, r2, n) {
      if n != to { assert GoodCopy(work, records, n); }
    }
  }

  lemma CopyRedirects(work: Work, records: Records, addr: VAddr, to: VAddr)
    requires InvLinks(work, records) && addr in records && to !in records
    ensures var work2 := WithCopy(work, addr, RecordRef(to, records[addr].size));
            forall a <- work2.redirects :: GoodRedirect(work2, records[to := records[addr]], a)
  {
    var work2, r2 := WithCopy(work, addr, RecordRef(to, records[addr].size)), records[to := records[addr]];
    forall a <- work2.redirects ensures GoodRedirect(work2, r2, a) {
      if a in work.redirects && (a != addr || addr !in work.refs) { assert GoodRedirect(work, records, a); }
    }
  }

  lemma CoverageAdded(gc: Gc, records: Records, addr: VAddr, to: VAddr)
    requires gc.Job? && InvCoverage(gc, records) && InPhase(gc, Copying) && addr in records
    ensures InvCoverage(gc.(scan := gc.scan - {addr},
                            work := WithCopy(gc.work, addr, RecordRef(to, records[addr].size))),
                        records[to := records[addr]])
  {
  }

  /** The copy of a record that is current and not pending is of the current version. */
  lemma CopyVersions(work: Work, records: Records, table: Table, addr: VAddr, to: VAddr)
    requires InvLinks(work, records) && Versions(work, records, table) && addr in records && to !in records
    requires addr in work.refs || (records[addr].id in table && table[records[addr].id].addr == addr)
    ensures Versions(WithCopy(work, addr, RecordRef(to, records[addr].size)), records[to := records[addr]], table)
  {
    var work2, r2 := WithCopy(work, addr, RecordRef(to, records[addr].size)), records[to := records[addr]];
    forall n <- work2.copies | work2.copies[n] !in work2.refs ensures SameVersion(work2, r2, table, work2.copies[n]) {
      if n != to {
        assert GoodCopy(work, records, n);
        assert SameVersion(work, records, table, work.copies[n]);
      }
    }
  }

  lemma CopyBoundary(gc: Gc, gc2: Gc, batches: Batches)
    requires InPhase(gc, Copying) && InPhase(gc2, Copying) && InvBoundary(gc, batches)
    requires gc2.work.inputs == gc.work.inputs && gc2.work.refs == gc.work.refs && gc2.holders == gc.holders
    ensures InvBoundary(gc2, batches)
  {
    forall b <- batches ensures CleanBatch(gc2, b, batches[b]) { assert CleanBatch(gc, b, batches[b]); }
  }

  // ------------------------------------------------------------------- rollback

  lemma RollbackKeeps(s: State)
    requires Inv(s) && CopyEnabled(s, Rollback)
    ensures Inv(CopyAfter(s, Rollback))
  {
    var homes, r2 := Homes(s.sealed, s.active), WithoutSegments(s.records, s.gc.work.outputs);
    JobIsQuiet(s);
    JobSwap(s, Idle);
    OutputsUnpublished(s);
    StorageSurvives(s, r2, homes, {});
    BatchesSurvive(s.batches, s.delta, s.records, homes, r2, homes);
  }

  lemma OutputsUnpublished(s: State)
    requires InvSegments(s.active, s.sealed, s.nextOutput) && InvJob(s.gc, s.sealed, s.nextOutput, s.redirects)
    requires s.gc.Job? && Unpublished(s.gc.phase)
    ensures var homes := Homes(s.sealed, s.active);
            Survives(s.records, homes, WithoutSegments(s.records, s.gc.work.outputs), homes, {})
  {
    assert Homes(s.sealed, s.active) !! s.gc.work.outputs;
  }
}
