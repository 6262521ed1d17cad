/** Coordinator steps keep the store invariant. */
module StoreCoordinator {
  import opened RecordLog
  import opened Mapping
  import opened StoreState
  import opened StoreInvariant
  import opened StoreReplay
  import opened StoreClient
  import opened StoreGroup
  import opened StoreJob

  lemma CoordinatorKeeps(s: State, a: CoordinatorOp)
    requires Inv(s) && CoordinatorEnabled(s, a)
    ensures Inv(CoordinatorAfter(s, a))
  {
    match a
    case AppendGroup(n, at) => AppendKeeps(s, n, at);
    case DropRequest(k) => DropKeeps(s, k);
    case RejectGroup(n) => RejectKeeps(s, n);
    case PublishGroup => PublishKeeps(s);
    case ProcessBarrier(end) => BarrierKeeps(s, end);
    case ProcessInstall => InstallRedirectsKeeps(s);
    case ProcessRelease => ReleaseRedirectsKeeps(s);
  }

  // --------------------------------------------------------------------- append

  lemma NewEntry(s: State, n: nat)
    requires Inv(s) && GroupAt(s.queue, n)
    ensures var e := EntryOf(s.queue, n, s.redirects, s.table);
            && GoodEntry(s.records, Homes(s.sealed, s.active), e)
            && (s.gc.Job? && (s.gc.phase == Awaiting || s.gc.phase == Proved) ==> CleanEntry(e, s.gc.work.inputs))
  {
    var e, homes := EntryOf(s.queue, n, s.redirects, s.table), Homes(s.sealed, s.active);
    forall d <- e.bodies, c <- d.changes
      ensures GoodChange(s.records, homes, c)
      ensures s.gc.Job? && (s.gc.phase == Awaiting || s.gc.phase == Proved) ==>
        c.op != Relocate && (c.op == Put ==> SegmentOf(c.newRef.addr) !in s.gc.work.inputs)
    {
      DurableFrom(Bodies(s.queue, n, s.redirects), Plan(s.queue, n, s.redirects, s.table), d);
      var p :| p in Bodies(s.queue, n, s.redirects) && d == p.(conditions := []);
      GroupChange(s, n, p, c);
    }
  }

  lemma AppendKeeps(s: State, n: nat, at: u32)
    requires Inv(s) && CoordinatorEnabled(s, AppendGroup(n, at))
    ensures Inv(CoordinatorAfter(s, AppendGroup(n, at)))
  {
    var e := EntryOf(s.queue, n, s.redirects, s.table);
    NewEntry(s, n);
    LogGrows(s.log, |s.log|, s.table, s.root, s.replay, s.frozen, e);
    AcknowledgedGrows(s.log, s.batches, e);
    MarkGrows(s.gc, s.log, s.generation, s.replay.index, s.root, e);
    NotFenced(s, n);
  }

  lemma LogGrows(log: seq<Entry>, published: nat, table: Table, root: Table, replay: Cut, frozen: Option<Frozen>,
                 e: Entry)
    requires InvLog(log, published, table, root, replay, frozen)
    ensures InvLog(log + [e], published, table, root, replay, frozen)
  {
    assert (log + [e])[..published] == log[..published];
    assert (log + [e])[..replay.index] == log[..replay.index];
    if frozen.Some? { assert (log + [e])[..frozen.value.cut.index] == log[..frozen.value.cut.index]; }
  }

  lemma AcknowledgedGrows(log: seq<Entry>, batches: Batches, e: Entry)
    requires InvAcknowledged(log, batches)
    ensures InvAcknowledged(log + [e], batches)
  {
    forall b <- batches | batches[b].state.Committed? ensures Logged(log + [e], b) {
      assert Logged(log, b);
      var f :| f in log && f.Group? && b in f.owners;
      assert f in log + [e];
    }
  }

  lemma MarkGrows(gc: Gc, log: seq<Entry>, generation: nat, replay: nat, root: Table, e: Entry)
    requires InvMark(gc, log, generation, replay, root)
    requires gc.Job? && (gc.phase == Awaiting || gc.phase == Proved) ==> CleanEntry(e, gc.work.inputs)
    ensures InvMark(gc, log + [e], generation, replay, root)
  {
  }

  lemma NotFenced(s: State, n: nat)
    requires InvLock(s.lock, s.batches, s.gc, s.queue, s.inflight, |s.log|) && GroupAt(s.queue, n)
    ensures !(s.lock.Fence? && s.lock.cut.Some?)
  {
    assert s.queue[..n][0] in s.queue[..n] && s.queue[0] in s.queue;
  }

  // -------------------------------------------------------- a group is answered

  lemma OwnersOf(queue: seq<Request>, n: nat)
    requires GroupAt(queue, n)
    ensures Owners(Members(queue, n)) == Owners(queue[..n])
  {
    OnlyKeeps(queue[..n], true);
    OnlyKeeps(queue[..n], false);
  }

  /** The requests behind the group keep their batches. */
  lemma Remaining(queue: seq<Request>, n: nat, inputs: set<SegmentID>, batches: Batches, delta: set<ID>,
                  accepted: set<BatchID>)
    requires GroupAt(queue, n) && InvOrder(queue, inputs) && InvCommits(queue, batches, delta)
    requires accepted <= Owners(queue[..n])
    ensures InvCommits(queue[n..], Completed(batches, Owners(queue[..n]), accepted), delta)
    ensures InvOrder(queue[n..], inputs)
  {
    var after := Completed(batches, Owners(queue[..n]), accepted);
    forall r <- queue[n..] | r.Commit? ensures CommitBacked(after, delta, r.batch, r.body, r.held) {
      var j :| 0 <= j < |queue[n..]| && queue[n..][j] == r;
      assert queue[n + j] == r;
      assert CommitBacked(batches, delta, r.batch, r.body, r.held);
      forall q <- queue[..n] | q.Commit? ensures q.batch != r.batch {
        var i :| 0 <= i < n && queue[..n][i] == q;
        assert InOrder(inputs, queue[i], queue[n + j]);
      }
    }
  }

  lemma CompletedBatches(s: State, owners: set<BatchID>, accepted: set<BatchID>)
    requires InvBatches(s.records, Homes(s.sealed, s.active), s.delta, s.batches) && InvBoundary(s.gc, s.batches)
    requires s.lock.Fence? ==> NoSubmitter(s.batches, s.gc)
    ensures var after := Completed(s.batches, owners, accepted);
            && InvBatches(s.records, Homes(s.sealed, s.active), s.delta, after) && InvBoundary(s.gc, after)
            && (s.lock.Fence? ==> NoSubmitter(after, s.gc))
  {
    CompletedOk(s.records, Homes(s.sealed, s.active), s.delta, s.batches, owners, accepted);
    CompletedBoundary(s.gc, s.batches, owners, accepted);
  }

  lemma CompletedOk(records: Records, homes: set<SegmentID>, delta: set<ID>, batches: Batches, owners: set<BatchID>,
                    accepted: set<BatchID>)
    requires InvBatches(records, homes, delta, batches)
    ensures InvBatches(records, homes, delta, Completed(batches, owners, accepted))
  {
    var after := Completed(batches, owners, accepted);
    forall b <- after ensures BatchOk(records, homes, delta, after[b]) {
      assert BatchOk(records, homes, delta, batches[b]);
    }
  }

  lemma CompletedBoundary(gc: Gc, batches: Batches, owners: set<BatchID>, accepted: set<BatchID>)
    requires InvBoundary(gc, batches)
    ensures InvBoundary(gc, Completed(batches, owners, accepted))
  {
    if gc.Job? {
      forall b <- Completed(batches, owners, accepted)
        ensures CleanBatch(gc, b, Completed(batches, owners, accepted)[b])
      {
        assert CleanBatch(gc, b, batches[b]);
      }
    }
  }

  lemma AnsweredMoves(s: State, n: nat, delta: set<ID>)
    requires GroupAt(s.queue, n) && InvOrder(s.queue, Inputs(s.gc))
    requires InvQueuedMoves(s.queue, s.gc, s.records, Homes(s.sealed, s.active), delta)
    requires InvMoves(s.gc, s.records, Homes(s.sealed, s.active), delta)
    ensures InvQueuedMoves(s.queue[n..], Answered(s.gc, s.queue[..n]), s.records, Homes(s.sealed, s.active), delta)
    ensures InvMoves(Answered(s.gc, s.queue[..n]), s.records, Homes(s.sealed, s.active), delta)
  {
    var gc := Answered(s.gc, s.queue[..n]);
    forall r <- s.queue[n..] | r.Move?
      ensures MoveBacked(gc, s.records, Homes(s.sealed, s.active), delta, r.body, r.held)
    {
      var j :| 0 <= j < |s.queue[n..]| && s.queue[n..][j] == r;
      assert s.queue[n + j] == r;
      assert MoveBacked(s.gc, s.records, Homes(s.sealed, s.active), delta, r.body, r.held);
      forall q <- s.queue[..n] ensures !q.Move? {
        var i :| 0 <= i < n && s.queue[..n][i] == q;
        assert InOrder(Inputs(s.gc), s.queue[i], s.queue[n + j]);
      }
    }
    MovesAnswered(s.gc, gc, s.records, Homes(s.sealed, s.active), delta);
  }

  lemma MovesAnswered(gc: Gc, gc2: Gc, records: Records, homes: set<SegmentID>, delta: set<ID>)
    requires InvMoves(gc, records, homes, delta) && (gc2 == gc || (gc.Job? && gc2 == gc.(transfer := NoMove)))
    ensures InvMoves(gc2, records, homes, delta)
  {
  }

  /** Only the transfer of the job changes, which most of the invariant does not read. */
  lemma AnsweredElsewhere(s: State, n: nat)
    requires InvCompaction(s) && n <= |s.queue| && InvControls(s.queue, s.lock, s.gc)
    ensures var gc := Answered(s.gc, s.queue[..n]);
            && InvJob(gc, s.sealed, s.nextOutput, s.redirects) && InvCopies(gc, s.records)
            && InvBoundary(gc, s.batches) && InvQueueBoundary(gc, s.queue[n..])
            && InvVersions(gc, s.records, s.table) && Inputs(gc) == Inputs(s.gc)
            && InvMark(gc, s.log, s.generation, s.replay.index, s.root)
            && InvControls(s.queue[n..], s.lock, gc)
  {
    var gc := Answered(s.gc, s.queue[..n]);
    if gc.Job? {
      TransferUnread(s.gc, gc, s.batches, s.records);
      forall r <- s.queue[n..] ensures ControlBacked(r, s.lock, gc) {
        assert r in s.queue;
        assert ControlBacked(r, s.lock, s.gc);
      }
    }
  }

  lemma TransferUnread(gc: Gc, gc2: Gc, batches: Batches, records: Records)
    requires gc.Job? && gc2.Job? && gc2 == gc.(transfer := gc2.transfer)
    requires InvCopies(gc, records) && InvBoundary(gc, batches)
    ensures InvCopies(gc2, records) && InvBoundary(gc2, batches)
  {
    forall b <- batches ensures CleanBatch(gc2, b, batches[b]) { assert CleanBatch(gc, b, batches[b]); }
  }

  /** The part of answering a group that rejection and publication share. */
  lemma AnswerKeeps(s: State, n: nat, accepted: set<BatchID>)
    requires Inv(s) && GroupAt(s.queue, n) && accepted <= Owners(s.queue[..n])
    requires forall b <- accepted :: Logged(s.log, b)
    ensures var t := s.(queue := s.queue[n..], batches := Completed(s.batches, Owners(s.queue[..n]), accepted),
                        gc := Answered(s.gc, s.queue[..n]), inflight := 0);
            InvProtocol(t) && InvCompaction(t)
  {
    Remaining(s.queue, n, Inputs(s.gc), s.batches, s.delta, accepted);
    CompletedBatches(s, Owners(s.queue[..n]), accepted);
    AnsweredMoves(s, n, s.delta);
    var s1 := s.(batches := Completed(s.batches, Owners(s.queue[..n]), accepted));
    AnsweredElsewhere(s1, n);
    NotFenced(s, n);
  }

  lemma RejectKeeps(s: State, n: nat)
    requires Inv(s) && CoordinatorEnabled(s, RejectGroup(n))
    ensures Inv(CoordinatorAfter(s, RejectGroup(n)))
  {
    OwnersOf(s.queue, n);
    AnswerKeeps(s, n, {});
  }

  // ----------------------------------------------------------- a request is dropped

  function ToFront(queue: seq<Request>, k: nat): seq<Request>
    requires k < |queue|
  {
    [queue[k]] + Without(queue, k)
  }

  /** Among commits and relocations the order does not matter to the invariant. */
  lemma FrontInOrder(queue: seq<Request>, k: nat, inputs: set<SegmentID>)
    requires InvOrder(queue, inputs) && k < |queue| && Groups(queue[..k + 1])
    ensures InvOrder(ToFront(queue, k), inputs)
  {
    var front := ToFront(queue, k);
    forall i, j | 0 <= i < j < |front| ensures InOrder(inputs, front[i], front[j]) {
      FrontAt(queue, k, i);
      FrontAt(queue, k, j);
      FrontPair(queue, k, inputs, Behind(k, i), Behind(k, j));
    }
  }

  function Behind(k: nat, i: nat): nat { if i == 0 then k else if i <= k then i - 1 else i }

  lemma FrontAt(queue: seq<Request>, k: nat, i: nat)
    requires k < |queue| && i < |ToFront(queue, k)|
    ensures Behind(k, i) < |queue| && ToFront(queue, k)[i] == queue[Behind(k, i)]
  {
  }

  lemma FrontPair(queue: seq<Request>, k: nat, inputs: set<SegmentID>, i: nat, j: nat)
    requires InvOrder(queue, inputs) && k < |queue| && Groups(queue[..k + 1])
    requires i < |queue| && j < |queue| && (i < j || (i == k && j < k))
    ensures InOrder(inputs, queue[i], queue[j])
  {
    if i == k && j < k {
      assert queue[..k + 1][i] in queue[..k + 1] && queue[..k + 1][j] in queue[..k + 1];
      assert InOrder(inputs, queue[j], queue[i]);
    }
  }

  lemma FrontMembers(queue: seq<Request>, k: nat)
    requires k < |queue|
    ensures forall r :: r in ToFront(queue, k) <==> r in queue
  {
    assert queue == queue[..k] + [queue[k]] + queue[k + 1..];
  }

  lemma FrontKeeps(s: State, k: nat)
    requires Inv(s) && CoordinatorEnabled(s, DropRequest(k))
    ensures Inv(s.(queue := ToFront(s.queue, k)))
  {
    FrontMembers(s.queue, k);
    assert s.queue[..k + 1] == s.queue[..k] + [s.queue[k]];
    FrontInOrder(s.queue, k, Inputs(s.gc));
  }

  lemma DropKeeps(s: State, k: nat)
    requires Inv(s) && CoordinatorEnabled(s, DropRequest(k))
    ensures Inv(CoordinatorAfter(s, DropRequest(k)))
  {
    if s.queue[k].Move? { DropMoveKeeps(s, k, s.gc.(transfer := NoMove)); } else { DropCommitKeeps(s, k); }
  }

  lemma DropCommitKeeps(s: State, k: nat)
    requires Inv(s) && CoordinatorEnabled(s, DropRequest(k)) && s.queue[k].Commit?
    ensures Inv(CoordinatorAfter(s, DropRequest(k)))
  {
    assert Answered(s.gc, [s.queue[k]]) == s.gc;
    DroppedKeeps(s, k, CoordinatorAfter(s, DropRequest(k)));
  }

  lemma DropMoveKeeps(s: State, k: nat, gc: Gc)
    requires Inv(s) && CoordinatorEnabled(s, DropRequest(k)) && s.queue[k].Move?
    requires s.gc.Job? ==> gc == s.gc.(transfer := NoMove)
    ensures Inv(CoordinatorAfter(s, DropRequest(k)))
  {
    RelocationQueued(s, k);
    AnsweredMove(s.gc, s.queue[k]);
    var t := s.(queue := Without(s.queue, k), batches := Completed(s.batches, Owners([s.queue[k]]), {}), gc := gc);
    DroppedKeeps(s, k, t);
    RefusedKeeps(t, s.gc.(transfer := Refused));
  }

  lemma AnsweredMove(gc: Gc, r: Request)
    requires gc.Job? && r.Move?
    ensures Answered(gc, [r]) == gc.(transfer := NoMove)
  {
    assert r in [r];
  }

  /** The request is gone, as if it had been a group of its own at the front. */
  lemma DroppedKeeps(s: State, k: nat, t: State)
    requires Inv(s) && CoordinatorEnabled(s, DropRequest(k))
    requires t == s.(queue := Without(s.queue, k), batches := Completed(s.batches, Owners([s.queue[k]]), {}),
                     gc := Answered(s.gc, [s.queue[k]]))
    ensures Inv(t)
  {
    FrontKeeps(s, k);
    var front := s.(queue := ToFront(s.queue, k));
    assert front.queue[..1] == [s.queue[k]] && front.queue[1..] == Without(s.queue, k);
    AnswerKeeps(front, 1, {});
  }

  lemma RelocationQueued(s: State, k: nat)
    requires InvQueuedMoves(s.queue, s.gc, s.records, Homes(s.sealed, s.active), s.delta)
    requires InvJob(s.gc, s.sealed, s.nextOutput, s.redirects) && k < |s.queue| && s.queue[k].Move?
    ensures InPhase(s.gc, Publishing)
  {
    assert s.queue[k] in s.queue;
    assert MoveBacked(s.gc, s.records, Homes(s.sealed, s.active), s.delta, s.queue[k].body, s.queue[k].held);
  }

  /** A relocation that was turned down leaves none behind. */
  lemma RefusedKeeps(s: State, gc: Gc)
    requires Inv(s) && InPhase(s.gc, Publishing) && s.gc.transfer == NoMove && gc == s.gc.(transfer := Refused)
    ensures Inv(s.(gc := gc))
  {
    RefusedMoves(s.gc, gc, s.records, Homes(s.sealed, s.active), s.delta);
    PublishingStep(s, gc);
  }

  lemma RefusedMoves(gc: Gc, gc2: Gc, records: Records, homes: set<SegmentID>, delta: set<ID>)
    requires InvMoves(gc, records, homes, delta) && gc.Job? && gc2 == gc.(transfer := Refused)
    ensures InvMoves(gc2, records, homes, delta)
  {
  }

  // -------------------------------------------------------------------- publish

  lemma HoldingGrows(held: Ticket, before: set<ID>, delta: set<ID>)
    requires Holding(held, before) && before <= delta
    ensures Holding(held, delta)
  {
    CardinalityGrows(held.ids - delta, held.ids - before);
  }

  /** Reservations stay sufficient while the active layer only grows. */
  lemma DeltaGrows(s: State, delta: set<ID>)
    requires InvProtocol(s) && s.delta <= delta
    ensures InvProtocol(s.(delta := delta))
  {
    forall b <- s.batches ensures BatchOk(s.records, Homes(s.sealed, s.active), delta, s.batches[b]) {
      var batch := s.batches[b];
      assert BatchOk(s.records, Homes(s.sealed, s.active), s.delta, batch);
      if batch.state.Reserved? || batch.state.Prepared? { HoldingGrows(batch.state.held, s.delta, delta); }
    }
    forall r <- s.queue | r.Commit? ensures CommitBacked(s.batches, delta, r.batch, r.body, r.held) {
      assert CommitBacked(s.batches, s.delta, r.batch, r.body, r.held);
      HoldingGrows(r.held, s.delta, delta);
    }
    forall r <- s.queue | r.Move?
      ensures MoveBacked(s.gc, s.records, Homes(s.sealed, s.active), delta, r.body, r.held)
    {
      assert MoveBacked(s.gc, s.records, Homes(s.sealed, s.active), s.delta, r.body, r.held);
      HoldingGrows(r.held, s.delta, delta);
    }
  }

  lemma MovesDeltaGrows(gc: Gc, records: Records, homes: set<SegmentID>, before: set<ID>, delta: set<ID>)
    requires InvMoves(gc, records, homes, before) && before <= delta
    ensures InvMoves(gc, records, homes, delta)
  {
    if gc.Job? && gc.transfer.Staged? {
      HoldingGrows(gc.transfer.held, before, delta);
    }
  }

  lemma PublishedTable(s: State)
    requires Inv(s) && s.inflight > 0
    ensures var table := PublishAll(s.table, Plan(s.queue, s.inflight, s.redirects, s.table));
            && table == Replay(map[], s.log)
            && GoodTable(s.records, Homes(s.sealed, s.active), table)
            && InvVersions(s.gc, s.records, table)
  {
    var n := s.inflight;
    var log0 := s.log[..|s.log| - 1];
    EntryPublishes(s.queue, n, s.redirects, s.table);
    var bodies := Bodies(s.queue, n, s.redirects);
    var table := PublishAll(s.table, ResolveAll(s.table, bodies));
    GoodAfter(s, n);
    VersionsAfter(s, n);
  }

  lemma GoodAfter(s: State, n: nat)
    requires Inv(s) && GroupAt(s.queue, n)
    ensures GoodTable(s.records, Homes(s.sealed, s.active), PublishAll(s.table, Plan(s.queue, n, s.redirects, s.table)))
  {
    var records, homes, bodies := s.records, Homes(s.sealed, s.active), Bodies(s.queue, n, s.redirects);
    var ok := iset p: (ID, RecordRef) | Good(records, homes, p.0, p.1);
    forall p <- bodies, c <- p.changes ensures ChangeWithin(c, ok) { GroupChange(s, n, p, c); }
    PublishWithin(s.table, bodies, ok);
    var table := PublishAll(s.table, ResolveAll(s.table, bodies));
    forall id <- table ensures Good(records, homes, id, table[id]) { assert (id, table[id]) in ok; }
  }

  /** What a group newly installs inside the inputs was in the snapshot. */
  ghost function Installable(work: Work, t: Table): iset<(ID, RecordRef)> {
    iset p: (ID, RecordRef) |
      (p.0 in t && t[p.0] == p.1) || SegmentOf(p.1.addr) !in work.inputs || p.1.addr in work.refs
  }

  lemma VersionsAfter(s: State, n: nat)
    requires Inv(s) && GroupAt(s.queue, n)
    ensures InvVersions(s.gc, s.records, PublishAll(s.table, Plan(s.queue, n, s.redirects, s.table)))
  {
    if s.gc.Job? && s.gc.phase != Snapshot {
      var ok, bodies := Installable(s.gc.work, s.table), Bodies(s.queue, n, s.redirects);
      forall p <- bodies, c <- p.changes ensures ChangeWithin(c, ok) {
        GroupChange(s, n, p, c);
        OutputsOutside(s);
      }
      PublishWithin(s.table, bodies, ok);
      VersionsWithin(s.gc.work, s.records, s.table, PublishAll(s.table, ResolveAll(s.table, bodies)));
    }
  }

  lemma OutputsOutside(s: State)
    requires InvJob(s.gc, s.sealed, s.nextOutput, s.redirects) && s.gc.Job?
    ensures s.gc.work.inputs !! s.gc.work.outputs
  {
  }

  lemma VersionsWithin(work: Work, records: Records, table: Table, after: Table)
    requires Versions(work, records, table) && Within(after, Installable(work, table))
    ensures Versions(work, records, after)
  {
    forall n <- work.copies | work.copies[n] !in work.refs ensures SameVersion(work, records, after, work.copies[n]) {
      var source := work.copies[n];
      assert SameVersion(work, records, table, source);
      if source in records && records[source].id in after {
        var id := records[source].id;
        assert (id, after[id]) in Installable(work, table);
      }
    }
  }

  lemma PublishKeeps(s: State)
    requires Inv(s) && CoordinatorEnabled(s, PublishGroup)
    ensures Inv(CoordinatorAfter(s, PublishGroup))
  {
    var n, plan := s.inflight, Plan(s.queue, s.inflight, s.redirects, s.table);
    OwnersOf(s.queue, n);
    AcceptedLogged(s);
    AnswerKeeps(s, n, AcceptedOwners(Members(s.queue, n), plan));
    PublishedTable(s);
    var t := s.(queue := s.queue[n..],
                batches := Completed(s.batches, Owners(s.queue[..n]), AcceptedOwners(Members(s.queue, n), plan)),
                gc := Answered(s.gc, s.queue[..n]), inflight := 0);
    TableReplaced(s, t, PublishAll(s.table, plan), s.delta + Applied(plan));
  }

  lemma AcceptedLogged(s: State)
    requires InvInflight(s.queue, s.inflight, s.redirects, s.table, s.log) && s.inflight > 0
    ensures var accepted := AcceptedOwners(Members(s.queue, s.inflight),
            Plan(s.queue, s.inflight, s.redirects, s.table));
            accepted <= Owners(s.queue[..s.inflight]) && forall b <- accepted :: Logged(s.log, b)
  {
    OwnersOf(s.queue, s.inflight);
    assert s.log[|s.log| - 1] in s.log;
  }

  lemma TableReplaced(s: State, t: State, table: Table, delta: set<ID>)
    requires InvStorage(s) && InvProtocol(t) && InvCompaction(t) && t.inflight == 0
    requires t == s.(queue := t.queue, batches := t.batches, gc := t.gc, inflight := 0)
    requires table == Replay(map[], s.log) && GoodTable(s.records, Homes(s.sealed, s.active), table)
    requires InvVersions(s.gc, s.records, table) && (t.gc == s.gc || (s.gc.Job? && t.gc == s.gc.(transfer := NoMove)))
    requires s.delta <= delta
    ensures Inv(t.(table := table, delta := delta))
  {
    DeltaGrows(t, delta);
    MovesDeltaGrows(t.gc, t.records, Homes(t.sealed, t.active), t.delta, delta);
    assert s.log[..|s.log|] == s.log;
    assert InvStorage(t.(table := table, delta := delta));
  }

  // ------------------------------------------------------------ control requests

  lemma BarrierKeeps(s: State, end: u32)
    requires Inv(s) && CoordinatorEnabled(s, ProcessBarrier(end))
    ensures Inv(CoordinatorAfter(s, ProcessBarrier(end)))
  {
    LogGrows(s.log, |s.log|, s.table, s.root, s.replay, s.frozen, Marker);
    MarkerCovers(s.log, s.table, s.root, s.replay, s.frozen);
    AcknowledgedGrows(s.log, s.batches, Marker);
    MarkGrows(s.gc, s.log, s.generation, s.replay.index, s.root, Marker);
    BarrierControls(s.queue, s.lock, s.gc);
  }

  lemma MarkerCovers(log: seq<Entry>, table: Table, root: Table, replay: Cut, frozen: Option<Frozen>)
    requires InvLog(log + [Marker], |log|, table, root, replay, frozen)
    ensures InvLog(log + [Marker], |log| + 1, table, root, replay, frozen)
  {
    assert (log + [Marker])[..|log| + 1] == log + [Marker];
    assert (log + [Marker])[..|log|] == log;
  }

  lemma BarrierControls(queue: seq<Request>, lock: Lock, gc: Gc)
    requires InvControls(queue, lock, gc) && InvOrder(queue, Inputs(gc)) && |queue| > 0 && queue[0].Barrier?
    ensures lock == Fence(None)
    ensures forall cut :: InvControls(queue[1..], Fence(Some(cut)), gc)
    ensures forall r <- queue[1..] :: !IsGroup(r)
  {
    assert ControlBacked(queue[0], lock, gc);
    forall r <- queue[1..] ensures !IsGroup(r) && !r.Barrier? && ControlBacked(r, lock, gc) {
      var j :| 0 <= j < |queue[1..]| && queue[1..][j] == r;
      assert InOrder(Inputs(gc), queue[0], queue[j + 1]);
    }
  }

  lemma InstallRedirectsKeeps(s: State)
    requires Inv(s) && CoordinatorEnabled(s, ProcessInstall)
    ensures Inv(CoordinatorAfter(s, ProcessInstall))
  {
    var gc := s.gc.(phase := Rewriting, todo := s.gc.holders);
    ControlTaken(s.queue, s.lock, s.gc);
    InstallControls(s.queue, s.lock, s.gc, gc);
    PhaseChange(s, gc);
    Dequeued(s, gc);
  }

  lemma ControlTaken(queue: seq<Request>, lock: Lock, gc: Gc)
    requires InvControls(queue, lock, gc) && |queue| > 0
    ensures queue[0].Install? ==> InPhase(gc, Installing) && queue[0].redirects == gc.work.redirects
    ensures queue[0].Release? ==> InPhase(gc, Releasing)
  {
    assert ControlBacked(queue[0], lock, gc);
  }

  lemma InstallControls(queue: seq<Request>, lock: Lock, gc: Gc, gc2: Gc)
    requires InvControls(queue, lock, gc) && InvOrder(queue, Inputs(gc)) && |queue| > 0
    requires (queue[0].Install? && InPhase(gc, Installing)) || (queue[0].Release? && InPhase(gc, Releasing))
    ensures InvControls(queue[1..], lock, gc2)
  {
    forall r <- queue[1..] ensures ControlBacked(r, lock, gc2) {
      var j :| 0 <= j < |queue[1..]| && queue[1..][j] == r;
      assert InOrder(Inputs(gc), queue[0], queue[j + 1]);
      assert ControlBacked(r, lock, gc);
    }
  }

  /** Entering Rewriting after the redirects are installed, or Publishing after their release. */
  ghost predicate NextPhase(gc: Gc, gc2: Gc, records: Records) {
    && gc.Job? && gc2.Job?
    && ((gc.phase == Installing && gc2 == gc.(phase := Rewriting, todo := gc.holders))
        || (gc.phase == Releasing && gc2 == gc.(phase := Publishing, scan := InSegments(records, gc.work.outputs))))
  }

  lemma PhaseChange(s: State, gc: Gc)
    requires InvCompaction(s) && NextPhase(s.gc, gc, s.records)
    ensures InvJob(gc, s.sealed, s.nextOutput, if gc.phase == Rewriting then gc.work.redirects else map[])
    ensures InvCopies(gc, s.records) && InvBoundary(gc, s.batches) && InvVersions(gc, s.records, s.table)
    ensures InvMoves(gc, s.records, Homes(s.sealed, s.active), s.delta)
    ensures InvMark(gc, s.log, s.generation, s.replay.index, s.root)
  {
    CopiesPhase(s.gc, gc, s.records);
    BoundaryPhase(s.gc, gc, s.batches, s.records);
    JobPhase(s.gc, gc, s.records, s.sealed, s.nextOutput, s.redirects);
  }

  lemma JobPhase(gc: Gc, gc2: Gc, records: Records, sealed: set<SegmentID>, nextOutput: nat, redirects: Redirects)
    requires InvJob(gc, sealed, nextOutput, redirects) && NextPhase(gc, gc2, records)
    ensures InvJob(gc2, sealed, nextOutput, if gc2.phase == Rewriting then gc2.work.redirects else map[])
  {
  }

  lemma BoundaryPhase(gc: Gc, gc2: Gc, batches: Batches, records: Records)
    requires InvBoundary(gc, batches) && NextPhase(gc, gc2, records)
    ensures InvBoundary(gc2, batches)
  {
    forall b <- batches ensures CleanBatch(gc2, b, batches[b]) { assert CleanBatch(gc, b, batches[b]); }
  }

  lemma CopiesPhase(gc: Gc, gc2: Gc, records: Records)
    requires InvCopies(gc, records) && NextPhase(gc, gc2, records)
    ensures InvCopies(gc2, records)
  {
  }

  /** The head of the queue, not a group, is gone. */
  lemma Dequeued(s: State, gc: Gc)
    requires InvProtocol(s) && |s.queue| > 0 && s.inflight == 0 && s.gc.Job? && gc.Job?
    requires s.queue[0].Install? || s.queue[0].Release?
    requires gc.work.inputs == s.gc.work.inputs && gc.work.outputs == s.gc.work.outputs
    requires gc.transfer == s.gc.transfer && s.gc.phase != Publishing
    requires InvControls(s.queue[1..], s.lock, gc)
    ensures InvProtocol(s.(queue := s.queue[1..], gc := gc))
  {
    forall r <- s.queue[1..] ensures r in s.queue { }
    assert InvCommits(s.queue[1..], s.batches, s.delta);
    NoMoves(s);
    assert InvOrder(s.queue[1..], Inputs(gc));
  }

  lemma NoMoves(s: State)
    requires InvQueuedMoves(s.queue, s.gc, s.records, Homes(s.sealed, s.active), s.delta) && !InPhase(s.gc, Publishing)
    ensures forall r <- s.queue :: !r.Move?
  {
  }

  lemma ReleaseRedirectsKeeps(s: State)
    requires Inv(s) && CoordinatorEnabled(s, ProcessRelease)
    ensures Inv(CoordinatorAfter(s, ProcessRelease))
  {
    var gc := s.gc.(phase := Publishing, scan := InSegments(s.records, s.gc.work.outputs));
    ControlTaken(s.queue, s.lock, s.gc);
    InstallControls(s.queue, s.lock, s.gc, gc);
    PhaseChange(s, gc);
    Dequeued(s, gc);
    BoundaryReached(s.queue, s.gc, gc);
  }

  /** The redirect boundary: behind the Release everything has been rewritten. */
  lemma BoundaryReached(queue: seq<Request>, gc: Gc, gc2: Gc)
    requires InvOrder(queue, Inputs(gc)) && |queue| > 0 && queue[0].Release?
    requires gc.Job? && gc2.Job? && gc2.work.inputs == gc.work.inputs
    ensures InvQueueBoundary(gc2, queue[1..])
  {
    forall r <- queue[1..] | r.Commit? ensures CleanBody(r.body, gc2.work.inputs) {
      var j :| 0 <= j < |queue[1..]| && queue[1..][j] == r;
      assert InOrder(Inputs(gc), queue[0], queue[j + 1]);
    }
  }
}
