/** Frame lemmas: parts of the store invariant under one changed component. */
module StoreFrame {
  import opened RecordLog
  import opened Mapping
  import opened StoreState
  import opened StoreInvariant

  // ---------------------------------------------------------- one batch changed

  lemma CommitsKeep(queue: seq<Request>, batches: Batches, delta: set<ID>, b: BatchID, batch: Batch)
    requires InvCommits(queue, batches, delta)
    requires b in batches ==> !batches[b].state.Queued?
    ensures InvCommits(queue, batches[b := batch], delta)
  {
    forall r <- queue | r.Commit? ensures CommitBacked(batches[b := batch], delta, r.batch, r.body, r.held) {
      assert CommitBacked(batches, delta, r.batch, r.body, r.held);
    }
  }

  /** What a changed batch has to satisfy. */
  ghost predicate BatchFits(s: State, b: BatchID, batch: Batch) {
    && (b in s.batches ==> !s.batches[b].state.Queued?)
    && BatchOk(s.records, Homes(s.sealed, s.active), s.delta, batch)
    && !batch.state.Committed?
    && (s.lock.Fence? ==> !batch.state.Reserved? && !batch.state.Prepared?)
    && (s.gc.Job? ==> CleanBatch(s.gc, b, batch))
  }

  /** One batch changed; nothing that names another batch notices. */
  lemma BatchStep(s: State, b: BatchID, batch: Batch)
    requires Inv(s) && BatchFits(s, b, batch)
    ensures Inv(WithBatch(s, b, batch))
  {
    BatchProtocol(s, b, batch);
    BoundaryKeeps(s.gc, s.batches, b, batch);
    BatchElsewhere(s, b, batch);
  }

  lemma BatchElsewhere(s: State, b: BatchID, batch: Batch)
    requires InvStorage(s) && InvCompaction(s) && InvBoundary(s.gc, s.batches[b := batch])
    ensures InvStorage(WithBatch(s, b, batch)) && InvCompaction(WithBatch(s, b, batch))
  {
  }

  lemma BatchProtocol(s: State, b: BatchID, batch: Batch)
    requires InvProtocol(s) && BatchFits(s, b, batch)
    ensures InvProtocol(WithBatch(s, b, batch))
  {
    BatchesKeep(s.records, Homes(s.sealed, s.active), s.delta, s.batches, b, batch);
    CommitsKeep(s.queue, s.batches, s.delta, b, batch);
    LockKeeps(s.lock, s.batches, s.gc, s.queue, s.inflight, |s.log|, b, batch);
    AcknowledgedKeeps(s.log, s.batches, b, batch);
  }

  lemma BatchesKeep(records: Records, homes: set<SegmentID>, delta: set<ID>, batches: Batches, b: BatchID, batch: Batch)
    requires InvBatches(records, homes, delta, batches)
    requires BatchOk(records, homes, delta, batch)
    ensures InvBatches(records, homes, delta, batches[b := batch])
  {
  }

  lemma BoundaryKeeps(gc: Gc, batches: Batches, b: BatchID, batch: Batch)
    requires InvBoundary(gc, batches)
    requires gc.Job? ==> CleanBatch(gc, b, batch)
    ensures InvBoundary(gc, batches[b := batch])
  {
  }

  lemma LockKeeps(lock: Lock, batches: Batches, gc: Gc, queue: seq<Request>, inflight: nat, records: nat, b: BatchID,
                  batch: Batch)
    requires InvLock(lock, batches, gc, queue, inflight, records)
    requires lock.Fence? ==> !batch.state.Reserved? && !batch.state.Prepared?
    ensures InvLock(lock, batches[b := batch], gc, queue, inflight, records)
  {
  }

  lemma AcknowledgedKeeps(log: seq<Entry>, batches: Batches, b: BatchID, batch: Batch)
    requires InvAcknowledged(log, batches) && !batch.state.Committed?
    ensures InvAcknowledged(log, batches[b := batch])
  {
  }

  // --------------------------------------------------- records or homes changed

  /** Every record outside these segments is where it was. */
  ghost predicate Survives(r: Records, homes: set<SegmentID>, r2: Records, homes2: set<SegmentID>,
                           gone: set<SegmentID>) {
    forall a <- r | SegmentOf(a) !in gone && SegmentOf(a) in homes :: a in r2 && r2[a] == r[a] && SegmentOf(a) in homes2
  }

  lemma TableSurvives(t: Table, r: Records, homes: set<SegmentID>, r2: Records, homes2: set<SegmentID>,
                      gone: set<SegmentID>)
    requires Survives(r, homes, r2, homes2, gone) && GoodTable(r, homes, t) && CleanTable(t, gone)
    ensures GoodTable(r2, homes2, t)
  {
    forall id <- t ensures Good(r2, homes2, id, t[id]) {
      assert Good(r, homes, id, t[id]);
    }
  }

  lemma EntrySurvives(e: Entry, r: Records, homes: set<SegmentID>, r2: Records, homes2: set<SegmentID>,
                      gone: set<SegmentID>)
    requires Survives(r, homes, r2, homes2, gone) && GoodEntry(r, homes, e) && CleanEntry(e, gone)
    ensures GoodEntry(r2, homes2, e)
  {
    if e.Group? {
      forall p <- e.bodies, c <- p.changes ensures GoodChange(r2, homes2, c) {
        assert GoodChange(r, homes, c);
        if c.op != Delete { assert c.newRef.addr in Names(e); }
        if c.op == Relocate { assert c.expectedOld in Names(e); }
      }
    }
  }

  lemma StorageSurvives(s: State, r2: Records, homes2: set<SegmentID>, gone: set<SegmentID>)
    requires Survives(s.records, Homes(s.sealed, s.active), r2, homes2, gone)
    requires InvTables(s.records, Homes(s.sealed, s.active), s.table, s.root, s.frozen)
    requires InvEntries(s.records, Homes(s.sealed, s.active), s.log, s.replay.index)
    requires CleanTable(s.table, gone) && CleanTable(s.root, gone)
    requires s.frozen.Some? ==> CleanTable(s.frozen.value.table, gone)
    requires forall i :: s.replay.index <= i < |s.log| ==> CleanEntry(s.log[i], gone)
    ensures InvTables(r2, homes2, s.table, s.root, s.frozen)
    ensures InvEntries(r2, homes2, s.log, s.replay.index)
  {
    var homes := Homes(s.sealed, s.active);
    TableSurvives(s.table, s.records, homes, r2, homes2, gone);
    TableSurvives(s.root, s.records, homes, r2, homes2, gone);
    if s.frozen.Some? { TableSurvives(s.frozen.value.table, s.records, homes, r2, homes2, gone); }
    forall i | s.replay.index <= i < |s.log| ensures GoodEntry(r2, homes2, s.log[i]) {
      assert CleanEntry(s.log[i], gone);
      EntrySurvives(s.log[i], s.records, homes, r2, homes2, gone);
    }
  }

  lemma PutsSurvive(puts: map<ID, Option<RecordRef>>, r: Records, homes: set<SegmentID>, r2: Records,
                    homes2: set<SegmentID>, gone: set<SegmentID>)
    requires Survives(r, homes, r2, homes2, gone) && GoodPuts(r, homes, puts) && CleanPuts(puts, gone)
    ensures GoodPuts(r2, homes2, puts)
  {
    forall id <- puts | puts[id].Some? ensures Good(r2, homes2, id, puts[id].value) {
      assert Good(r, homes, id, puts[id].value);
    }
  }

  lemma MoveSurvives(work: Work, r: Records, homes: set<SegmentID>, r2: Records, homes2: set<SegmentID>, c: Change)
    requires Survives(r, homes, r2, homes2, {}) && work.inputs <= homes && GoodMove(work, r, homes, c)
    ensures GoodMove(work, r2, homes2, c)
  {
  }

  lemma MovesSurvive(work: Work, r: Records, homes: set<SegmentID>, r2: Records, homes2: set<SegmentID>, body: Proposal)
    requires Survives(r, homes, r2, homes2, {}) && work.inputs <= homes && GoodMoves(work, r, homes, body)
    ensures GoodMoves(work, r2, homes2, body)
  {
    forall c <- body.changes ensures GoodMove(work, r2, homes2, c) { MoveSurvives(work, r, homes, r2, homes2, c); }
  }

  lemma AllMovesSurvive(gc: Gc, delta: set<ID>, queue: seq<Request>, r: Records, homes: set<SegmentID>, r2: Records,
                        homes2: set<SegmentID>)
    requires Survives(r, homes, r2, homes2, {}) && Inputs(gc) <= homes
    requires InvMoves(gc, r, homes, delta) && InvQueuedMoves(queue, gc, r, homes, delta)
    ensures InvMoves(gc, r2, homes2, delta) && InvQueuedMoves(queue, gc, r2, homes2, delta)
  {
    forall q <- queue | q.Move? ensures MoveBacked(gc, r2, homes2, delta, q.body, q.held) {
      assert MoveBacked(gc, r, homes, delta, q.body, q.held);
      MovesSurvive(gc.work, r, homes, r2, homes2, q.body);
    }
    if gc.Job? {
      forall id <- gc.moves ensures GoodMove(gc.work, r2, homes2, AsChange(id, gc.moves[id])) {
        MoveSurvives(gc.work, r, homes, r2, homes2, AsChange(id, gc.moves[id]));
      }
      if gc.transfer.Staged? { MovesSurvive(gc.work, r, homes, r2, homes2, gc.transfer.body); }
    }
  }

  lemma BatchesSurvive(batches: Batches, delta: set<ID>, r: Records, homes: set<SegmentID>, r2: Records,
                       homes2: set<SegmentID>)
    requires Survives(r, homes, r2, homes2, {}) && InvBatches(r, homes, delta, batches)
    ensures InvBatches(r2, homes2, delta, batches)
  {
    forall b <- batches ensures BatchOk(r2, homes2, delta, batches[b]) {
      assert BatchOk(r, homes, delta, batches[b]);
      if IsPending(batches[b].state) { PutsSurvive(batches[b].puts, r, homes, r2, homes2, {}); }
    }
  }

  lemma VersionsSurvive(gc: Gc, table: Table, r: Records, r2: Records)
    requires InvVersions(gc, r, table) && InvCopies(gc, r)
    requires forall a <- r :: a in r2 && r2[a] == r[a]
    ensures InvVersions(gc, r2, table)
  {
    if gc.Job? {
      forall n <- gc.work.copies | gc.work.copies[n] !in gc.work.refs
        ensures SameVersion(gc.work, r2, table, gc.work.copies[n])
      {
        assert GoodCopy(gc.work, r, n);
        assert SameVersion(gc.work, r, table, gc.work.copies[n]);
      }
    }
  }

  lemma LinksSurvive(work: Work, r: Records, r2: Records)
    requires InvLinks(work, r)
    requires forall a <- r :: a in r2 && r2[a] == r[a]
    ensures InvLinks(work, r2)
  {
    forall a <- work.refs ensures GoodSource(work, r2, a) { assert GoodSource(work, r, a); }
    forall n <- work.copies ensures GoodCopy(work, r2, n) { assert GoodCopy(work, r, n); }
    forall a <- work.redirects ensures GoodRedirect(work, r2, a) { assert GoodRedirect(work, r, a); }
  }

  /** New records outside the outputs of the compaction. */
  lemma CopiesSurvive(gc: Gc, r: Records, r2: Records)
    requires InvCopies(gc, r)
    requires forall a <- r :: a in r2 && r2[a] == r[a]
    requires gc.Job? ==> InSegments(r2, gc.work.outputs) == InSegments(r, gc.work.outputs)
    ensures InvCopies(gc, r2)
  {
    if gc.Job? { LinksSurvive(gc.work, r, r2); }
  }

  // ---------------------------------------------------------- the job moves along

  /** Steps of a compaction that neither publish nor redirect. */
  predicate Advances(gc: Gc, gc2: Gc) {
    && gc.Job? && gc2.Job?
    && gc2 == gc.(phase := gc2.phase, todo := gc2.todo, holders := gc2.holders, scan := gc2.scan)
    && (gc2.phase == gc.phase || (gc.phase == Snapshot && gc2.phase == Copying)
       || (gc.phase == Rewriting && gc2.phase == Releasing))
  }

  lemma JobAdvances(gc: Gc, gc2: Gc, sealed: set<SegmentID>, nextOutput: nat, redirects: Redirects)
    requires InvJob(gc, sealed, nextOutput, redirects) && Advances(gc, gc2)
    ensures InvJob(gc2, sealed, nextOutput, redirects)
  {
  }

  /** What such a step has to show. */
  lemma CompactionAdvances(s: State, gc: Gc)
    requires InvCompaction(s) && Advances(s.gc, gc) && !Boundary(gc.phase)
    requires InvCoverage(gc, s.records) && InvBoundary(gc, s.batches)
    ensures InvCompaction(s.(gc := gc))
  {
    JobAdvances(s.gc, gc, s.sealed, s.nextOutput, s.redirects);
  }

  lemma StorageIgnoresJob(s: State, gc: Gc)
    requires InvStorage(s)
    ensures InvStorage(s.(gc := gc))
  {
  }
}
