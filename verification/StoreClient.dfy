/** Client and submission steps keep the store invariant. */
module StoreClient {
  import opened RecordLog
  import opened Mapping
  import opened StoreState
  import opened StoreInvariant
  import opened StoreFrame

  lemma RecordWritten(s: State, addr: VAddr, payload: Payload)
    requires Inv(s) && addr !in s.records && SegmentOf(addr) < s.nextOutput
    requires s.gc.Job? ==> SegmentOf(addr) !in s.gc.work.outputs
    ensures Inv(s.(records := s.records[addr := payload]))
  {
    var r2 := s.records[addr := payload];
    RecordsGrow(s, addr, payload);
    VersionsSurvive(s.gc, s.table, s.records, r2);
    if s.gc.Job? { assert InSegments(r2, s.gc.work.outputs) == InSegments(s.records, s.gc.work.outputs); }
    CopiesSurvive(s.gc, s.records, r2);
  }

  lemma RecordsGrow(s: State, addr: VAddr, payload: Payload)
    requires Inv(s) && addr !in s.records && SegmentOf(addr) < s.nextOutput
    ensures InvStorage(s.(records := s.records[addr := payload]))
    ensures InvProtocol(s.(records := s.records[addr := payload]))
    ensures InvMoves(s.gc, s.records[addr := payload], Homes(s.sealed, s.active), s.delta)
  {
    var homes, r2 := Homes(s.sealed, s.active), s.records[addr := payload];
    assert Survives(s.records, homes, r2, homes, {});
    StorageSurvives(s, r2, homes, {});
    BatchesSurvive(s.batches, s.delta, s.records, homes, r2, homes);
    InputsAreHomes(s);
    AllMovesSurvive(s.gc, s.delta, s.queue, s.records, homes, r2, homes);
  }

  lemma InputsAreHomes(s: State)
    requires InvJob(s.gc, s.sealed, s.nextOutput, s.redirects)
    ensures Inputs(s.gc) <= Homes(s.sealed, s.active)
  {
  }

  /** The active segment is neither input nor output of a compaction. */
  lemma ActiveIsOutside(s: State)
    requires InvSegments(s.active, s.sealed, s.nextOutput) && InvJob(s.gc, s.sealed, s.nextOutput, s.redirects)
    ensures s.active < s.nextOutput
    ensures s.gc.Job? ==> s.active !in s.gc.work.inputs && s.active !in s.gc.work.outputs
  {
  }

  /** The batch a client step leaves behind. */
  function BatchAfter(s: State, a: ClientOp): Batch
    requires !a.PutRecord? && !a.Forget? && (a.Begin? || a.b in s.batches)
  {
    match a
    case Begin(b) => Batch(Open, map[], map[])
    case DeleteID(b, id) => s.batches[b].(puts := s.batches[b].puts[id := None])
    case Expect(b, id, expected) => s.batches[b].(conditions := s.batches[b].conditions[id := expected])
    case Fail(b) => s.batches[b].(state := Failed)
    case Abort(b) => Batch(Aborted, map[], map[])
  }

  /** No Put reference that the batch did not have before. */
  predicate SubPuts(now: map<ID, Option<RecordRef>>, before: map<ID, Option<RecordRef>>) {
    forall id <- now :: now[id].Some? ==> id in before && before[id] == now[id]
  }

  lemma CleanNarrows(gc: Gc, b: BatchID, before: Batch, now: Batch)
    requires gc.Job? && CleanBatch(gc, b, before) && SubPuts(now.puts, before.puts)
    requires IsPending(now.state) ==> IsPending(before.state)
    requires IsOpen(now.state) || now.state.Prepared? ==> IsOpen(before.state)
    ensures CleanBatch(gc, b, now)
  {
  }

  lemma GoodNarrows(records: Records, homes: set<SegmentID>, before: map<ID, Option<RecordRef>>,
                    now: map<ID, Option<RecordRef>>)
    requires GoodPuts(records, homes, before) && SubPuts(now, before)
    ensures GoodPuts(records, homes, now)
  {
  }

  /** A step that adds no Put reference and reserves nothing. */
  lemma NarrowFits(s: State, b: BatchID, now: Batch)
    requires InvBatches(s.records, Homes(s.sealed, s.active), s.delta, s.batches) && InvBoundary(s.gc, s.batches)
    requires b in s.batches && !s.batches[b].state.Queued? && SubPuts(now.puts, s.batches[b].puts)
    requires IsPending(now.state) ==> IsPending(s.batches[b].state)
    requires IsOpen(now.state) || now.state.Prepared? ==> IsOpen(s.batches[b].state)
    requires s.lock.Fence? ==> !now.state.Reserved? && !now.state.Prepared?
    requires !now.state.Committed?
    requires now.state.Reserved? ==> Holding(now.state.held, s.delta)
    requires now.state.Prepared? ==> BodyOf(now.state.body, now.puts) && Holding(now.state.held, s.delta)
    ensures BatchFits(s, b, now)
  {
    assert BatchOk(s.records, Homes(s.sealed, s.active), s.delta, s.batches[b]);
    if IsPending(now.state) { GoodNarrows(s.records, Homes(s.sealed, s.active), s.batches[b].puts, now.puts); }
    if s.gc.Job? { CleanNarrows(s.gc, b, s.batches[b], now); }
  }

  lemma ClientFits(s: State, a: ClientOp)
    requires InvBatches(s.records, Homes(s.sealed, s.active), s.delta, s.batches) && InvBoundary(s.gc, s.batches)
    requires s.lock.Fence? ==> NoSubmitter(s.batches, s.gc)
    requires !a.PutRecord? && !a.Forget? && ClientEnabled(s, a)
    ensures BatchFits(s, a.b, BatchAfter(s, a))
  {
    if !a.Begin? {
      assert BatchOk(s.records, Homes(s.sealed, s.active), s.delta, s.batches[a.b]);
      NarrowFits(s, a.b, BatchAfter(s, a));
    }
  }

  lemma ClientKeeps(s: State, a: ClientOp)
    requires Inv(s) && ClientEnabled(s, a)
    ensures Inv(ClientAfter(s, a))
  {
    if a.PutRecord? {
      PutKeeps(s, a);
    } else if a.Forget? {
      BatchForgotten(s, a.b);
    } else {
      ClientFits(s, a);
      BatchStep(s, a.b, BatchAfter(s, a));
    }
  }

  function WithPut(batch: Batch, addr: VAddr, payload: Payload): Batch {
    batch.(puts := batch.puts[payload.id := Some(RecordRef(addr, payload.size))])
  }

  lemma PutKeeps(s: State, a: ClientOp)
    requires Inv(s) && a.PutRecord? && ClientEnabled(s, a)
    ensures Inv(ClientAfter(s, a))
  {
    var s1 := s.(records := s.records[a.addr := a.payload]);
    ActiveIsOutside(s);
    RecordWritten(s, a.addr, a.payload);
    PutFits(s1, a.b, a.addr);
    BatchStep(s1, a.b, WithPut(s.batches[a.b], a.addr, a.payload));
  }

  lemma PutClean(gc: Gc, b: BatchID, batch: Batch, addr: VAddr, payload: Payload)
    requires gc.Job? && CleanBatch(gc, b, batch) && SegmentOf(addr) !in gc.work.inputs
    ensures CleanBatch(gc, b, WithPut(batch, addr, payload))
  {
  }

  lemma PutGood(records: Records, homes: set<SegmentID>, batch: Batch, addr: VAddr)
    requires GoodPuts(records, homes, batch.puts) && addr in records && SegmentOf(addr) in homes
    ensures GoodPuts(records, homes, WithPut(batch, addr, records[addr]).puts)
  {
  }

  lemma PutFits(s: State, b: BatchID, addr: VAddr)
    requires InvBatches(s.records, Homes(s.sealed, s.active), s.delta, s.batches) && InvBoundary(s.gc, s.batches)
    requires s.gc.Job? ==> s.active !in s.gc.work.inputs
    requires IsOpenBatch(s.batches, b) && addr in s.records && SegmentOf(addr) == s.active
    requires s.lock.Fence? ==> NoSubmitter(s.batches, s.gc)
    ensures BatchFits(s, b, WithPut(s.batches[b], addr, s.records[addr]))
  {
    assert BatchOk(s.records, Homes(s.sealed, s.active), s.delta, s.batches[b]);
    PutGood(s.records, Homes(s.sealed, s.active), s.batches[b], addr);
    if s.gc.Job? { PutClean(s.gc, b, s.batches[b], addr, s.records[addr]); }
  }

  lemma BatchForgotten(s: State, b: BatchID)
    requires Inv(s) && (HasBatch(s.batches, b, Committed) || HasBatch(s.batches, b, Aborted))
    ensures Inv(s.(batches := s.batches - {b}))
  {
    CommitsForget(s.queue, s.batches, s.delta, b);
  }

  lemma CommitsForget(queue: seq<Request>, batches: Batches, delta: set<ID>, b: BatchID)
    requires InvCommits(queue, batches, delta) && b in batches && !batches[b].state.Queued?
    ensures InvCommits(queue, batches - {b}, delta)
  {
    forall r <- queue | r.Commit? ensures CommitBacked(batches - {b}, delta, r.batch, r.body, r.held) {
      assert CommitBacked(batches, delta, r.batch, r.body, r.held);
    }
  }

  // ------------------------------------------------------------------ submission

  lemma CardinalityGrows<T>(a: set<T>, b: set<T>)
    requires a <= b
    ensures |a| <= |b|
  {
    assert b == a + (b - a);
  }

  function SubmittedBatch(s: State, a: SubmitOp): Batch
    requires a.b in s.batches
    requires a.Prepare? ==> s.batches[a.b].state.Reserved?
  {
    var batch := s.batches[a.b];
    match a
    case Reserve(b) => batch.(state := Reserved(Reserving(batch.puts.Keys, s.delta)))
    case Prepare(b, body) => batch.(state := Prepared(body, Prepaid(s, batch.state.held, body)))
    case Withdraw(b) => if batch.state.Reserved? then batch.(state := Open) else Batch(Aborted, map[], map[])
    case Enqueue(b) => batch.(state := Queued)
  }

  lemma SubmitFits(s: State, a: SubmitOp)
    requires InvBatches(s.records, Homes(s.sealed, s.active), s.delta, s.batches) && InvBoundary(s.gc, s.batches)
    requires InvLock(s.lock, s.batches, s.gc, s.queue, s.inflight, |s.log|)
    requires SubmitEnabled(s, a)
    ensures BatchFits(s, a.b, SubmittedBatch(s, a))
  {
    if a.Prepare? {
      PrepareFits(s, a.b, a.body);
    } else if a.Enqueue? {
      QueuedFits(s, a.b);
    } else {
      NarrowFits(s, a.b, SubmittedBatch(s, a));
    }
  }

  lemma PrepareFits(s: State, b: BatchID, body: Proposal)
    requires InvBatches(s.records, Homes(s.sealed, s.active), s.delta, s.batches) && InvBoundary(s.gc, s.batches)
    requires s.lock.Fence? ==> NoSubmitter(s.batches, s.gc)
    requires b in s.batches && s.batches[b].state.Reserved? && Carries(s.batches[b], body)
    ensures BatchFits(s, b, s.batches[b].(state := Prepared(body, Prepaid(s, s.batches[b].state.held, body))))
  {
    assert BatchOk(s.records, Homes(s.sealed, s.active), s.delta, s.batches[b]);
    PreparedFits(s.batches[b], body);
    NarrowFits(s, b, s.batches[b].(state := Prepared(body, Prepaid(s, s.batches[b].state.held, body))));
  }

  lemma QueuedFits(s: State, b: BatchID)
    requires InvBatches(s.records, Homes(s.sealed, s.active), s.delta, s.batches) && InvBoundary(s.gc, s.batches)
    requires b in s.batches && s.batches[b].state.Prepared?
    ensures BatchFits(s, b, s.batches[b].(state := Queued))
  {
    assert BatchOk(s.records, Homes(s.sealed, s.active), s.delta, s.batches[b]);
    if s.gc.Job? { assert CleanBatch(s.gc, b, s.batches[b]); }
  }

  lemma PreparedFits(batch: Batch, body: Proposal)
    requires Carries(batch, body)
    ensures BodyOf(body, batch.puts)
  {
    forall c <- body.changes ensures c.op != Relocate { assert ValidChange(UserCommit, c); }
  }

  lemma SubmitKeeps(s: State, a: SubmitOp)
    requires Inv(s) && SubmitEnabled(s, a)
    ensures Inv(SubmitAfter(s, a))
  {
    SubmitFits(s, a);
    BatchStep(s, a.b, SubmittedBatch(s, a));
    if a.Enqueue? { EnqueueKeeps(s, a.b); }
  }

  lemma EnqueueKeeps(s: State, b: BatchID)
    requires Inv(s) && SubmitEnabled(s, Enqueue(b))
    requires Inv(WithBatch(s, b, s.batches[b].(state := Queued)))
    ensures Inv(SubmitAfter(s, Enqueue(b)))
  {
    NewCommitInOrder(s, b);
    CommitBehindBoundary(s, b);
    PreparedIsBacked(s, b);
    CommitJoins(WithBatch(s, b, s.batches[b].(state := Queued)),
                Commit(b, s.batches[b].state.body, s.batches[b].state.held));
  }

  lemma PreparedIsBacked(s: State, b: BatchID)
    requires InvProtocol(s) && b in s.batches && s.batches[b].state.Prepared?
    ensures s.lock == Free
    ensures CommitBacked(s.batches[b := s.batches[b].(state := Queued)], s.delta, b,
                         s.batches[b].state.body, s.batches[b].state.held)
  {
    assert BatchOk(s.records, Homes(s.sealed, s.active), s.delta, s.batches[b]);
  }

  /** A commit joins the queue behind the group in flight. */
  lemma CommitJoins(s: State, r: Request)
    requires Inv(s) && r.Commit? && s.lock == Free && CommitBacked(s.batches, s.delta, r.batch, r.body, r.held)
    requires forall q <- s.queue :: InOrder(Inputs(s.gc), q, r)
    requires InvQueueBoundary(s.gc, s.queue + [r])
    ensures Inv(s.(queue := s.queue + [r]))
  {
    QueueGrows(s.queue, r, s.inflight, s.redirects, s.table, s.log);
    OrderGrows(s.queue, r, Inputs(s.gc));
  }

  lemma QueueGrows(queue: seq<Request>, r: Request, inflight: nat, redirects: Redirects, table: Table, log: seq<Entry>)
    requires InvInflight(queue, inflight, redirects, table, log)
    ensures InvInflight(queue + [r], inflight, redirects, table, log)
  {
    if inflight > 0 { assert (queue + [r])[..inflight] == queue[..inflight]; }
  }

  lemma OrderGrows(queue: seq<Request>, r: Request, inputs: set<SegmentID>)
    requires InvOrder(queue, inputs) && forall q <- queue :: InOrder(inputs, q, r)
    ensures InvOrder(queue + [r], inputs)
  {
  }

  lemma NewCommitInOrder(s: State, b: BatchID)
    requires InvProtocol(s) && InvBoundary(s.gc, s.batches) && b in s.batches && s.batches[b].state.Prepared?
    ensures forall q <- s.queue ::
            InOrder(Inputs(s.gc), q, Commit(b, s.batches[b].state.body, s.batches[b].state.held))
  {
    var r := Commit(b, s.batches[b].state.body, s.batches[b].state.held);
    forall q <- s.queue ensures InOrder(Inputs(s.gc), q, r) {
      assert q.Commit? ==> CommitBacked(s.batches, s.delta, q.batch, q.body, q.held);
      assert ControlBacked(q, s.lock, s.gc);
      if q.Release? { PreparedIsClean(s, b); }
    }
  }

  lemma PreparedIsClean(s: State, b: BatchID)
    requires InvBatches(s.records, Homes(s.sealed, s.active), s.delta, s.batches) && InvBoundary(s.gc, s.batches)
    requires b in s.batches && s.batches[b].state.Prepared?
    requires s.gc.Job? && (s.gc.phase == Releasing || Boundary(s.gc.phase))
    ensures CleanBody(s.batches[b].state.body, s.gc.work.inputs)
  {
    assert BatchOk(s.records, Homes(s.sealed, s.active), s.delta, s.batches[b]);
    assert CleanBatch(s.gc, b, s.batches[b]);
  }

  lemma CommitBehindBoundary(s: State, b: BatchID)
    requires InvProtocol(s) && InvBoundary(s.gc, s.batches) && InvQueueBoundary(s.gc, s.queue)
    requires b in s.batches && s.batches[b].state.Prepared?
    ensures InvQueueBoundary(s.gc, s.queue + [Commit(b, s.batches[b].state.body, s.batches[b].state.held)])
  {
    if s.gc.Job? && Boundary(s.gc.phase) { PreparedIsClean(s, b); }
  }
}
