/** Live statistics and covered sequences, the order of checkpoint runs, and the owners of commit
    records: what else holds in every reachable state of the store. */
module StoreAccounts {
  import opened RecordLog
  import opened Mapping
  import opened LiveStats
  import opened StoreState
  import opened StoreInvariant
  import opened StoreCoordinator

  // ------------------------------------------------------------------- live statistics

  /** The live tables are exact for the mapping, the root and the checkpoint being built, and the
      covered sequences count the commits of their log prefixes. */
  ghost predicate Accounted(s: State) {
    AccountsOf(s.books, s.table, s.root, s.replay.index, s.frozen, s.log, Published(s.log, s.inflight))
  }

  ghost predicate AccountsOf(books: Books, table: Table, root: Table, replay: nat, frozen: Option<Frozen>,
                             log: seq<Entry>, published: nat) {
    && Exact(books.live, table) && Exact(books.rootLive, root)
    && published <= |log| && books.covered == Commits(log[..published])
    && replay <= |log| && books.rootCovered == Commits(log[..replay])
    && (frozen.Some? ==> FrozenAccounts(frozen.value, log))
  }

  ghost predicate FrozenAccounts(frozen: Frozen, log: seq<Entry>) {
    Exact(frozen.live, frozen.table) && frozen.cut.index <= |log| && frozen.covered == Commits(log[..frozen.cut.index])
  }

  lemma {:induction false} CommitsConcat(a: seq<Entry>, b: seq<Entry>)
    ensures Commits(a + b) == Commits(a) + Commits(b)
    decreases |b|
  {
    if b == [] {
      assert a + b == a;
    } else {
      var last := |a + b| - 1;
      assert (a + b)[..last] == a + b[..|b| - 1];
      CommitsConcat(a, b[..|b| - 1]);
    }
  }

  lemma CommitsFrom(log: seq<Entry>, from: nat, to: nat)
    requires from <= to <= |log|
    ensures Commits(log[..to]) == Commits(log[..from]) + Commits(log[from..to])
  {
    assert log[..to] == log[..from] + log[from..to];
    CommitsConcat(log[..from], log[from..to]);
  }

  /** Accounting for a resolved group keeps the live table exact. */
  lemma GroupAccounted(live: Live, t: Table, ps: seq<Proposal>)
    requires Exact(live, t)
    ensures Exact(AccountAll(live, Flat(ResolveAll(t, ps))), PublishAll(t, ResolveAll(t, ps)))
  {
    PlanResolvedFrom(t, ps);
    AccountAllExact(live, t, Flat(ResolveAll(t, ps)));
  }

  lemma {:induction false} ReplayAccounted(t: Table, live: Live, log: seq<Entry>)
    requires Exact(live, t)
    ensures Exact(ReplayLive(t, live, log), Replay(t, log))
    decreases |log|
  {
    if log != [] {
      var before, e := log[..|log| - 1], log[|log| - 1];
      ReplayAccounted(t, live, before);
      if e.Group? { GroupAccounted(ReplayLive(t, live, before), Replay(t, before), e.bodies); }
    }
  }

  lemma AccountsGrow(books: Books, table: Table, root: Table, replay: nat, frozen: Option<Frozen>,
                     log: seq<Entry>, published: nat, e: Entry)
    requires AccountsOf(books, table, root, replay, frozen, log, published)
    ensures AccountsOf(books, table, root, replay, frozen, log + [e], published)
    ensures e.Marker? && published == |log| ==> AccountsOf(books, table, root, replay, frozen, log + [e], |log| + 1)
  {
    var more := log + [e];
    assert more[..published] == log[..published] && more[..replay] == log[..replay];
    if frozen.Some? { assert more[..frozen.value.cut.index] == log[..frozen.value.cut.index]; }
    if e.Marker? && published == |log| {
      assert more[..|log| + 1] == more && more[..|more| - 1] == log && log[..|log|] == log;
    }
  }

  lemma PublishAccounted(s: State)
    requires Inv(s) && Accounted(s) && s.inflight > 0
    ensures var plan := Plan(s.queue, s.inflight, s.redirects, s.table);
            AccountsOf(Booked(s.books, plan), PublishAll(s.table, plan), s.root,
              s.replay.index, s.frozen, s.log, |s.log|)
  {
    var bodies := Bodies(s.queue, s.inflight, s.redirects);
    GroupAccounted(s.books.live, s.table, bodies);
    DurableCounts(bodies, ResolveAll(s.table, bodies));
    assert s.log[..|s.log|] == s.log;
  }

  lemma AppendAccounted(s: State, n: nat, at: u32)
    requires Accounted(s) && CoordinatorEnabled(s, AppendGroup(n, at))
    ensures Accounted(CoordinatorAfter(s, AppendGroup(n, at)))
  {
    AccountsGrow(s.books, s.table, s.root, s.replay.index, s.frozen, s.log, |s.log|,
      EntryOf(s.queue, n, s.redirects, s.table));
  }

  lemma BarrierAccounted(s: State, end: u32)
    requires Accounted(s) && CoordinatorEnabled(s, ProcessBarrier(end))
    ensures Accounted(CoordinatorAfter(s, ProcessBarrier(end)))
  {
    AccountsGrow(s.books, s.table, s.root, s.replay.index, s.frozen, s.log, |s.log|, Marker);
  }

  /** Nothing that the accounts speak about changes. */
  predicate SameAccounts(s: State, t: State) {
    && t.books == s.books && t.table == s.table && t.root == s.root && t.replay == s.replay && t.frozen == s.frozen
    && t.log == s.log && t.inflight == s.inflight
  }

  lemma CoordinatorAccounted(s: State, a: CoordinatorOp)
    requires Inv(s) && Accounted(s) && CoordinatorEnabled(s, a)
    ensures Accounted(CoordinatorAfter(s, a))
  {
    match a
    case AppendGroup(n, at) => AppendAccounted(s, n, at);
    case PublishGroup => PublishAccounted(s);
    case ProcessBarrier(end) => BarrierAccounted(s, end);
    case _ => assert SameAccounts(s, CoordinatorAfter(s, a));
  }

  /** At the cut the log is the one the mapping reflects. */
  lemma FreezeAccounted(s: State)
    requires Inv(s) && Accounted(s) && CheckpointEnabled(s, Freeze)
    ensures Accounted(CheckpointAfter(s, Freeze))
  {
    assert s.lock.cut.value.index == |s.log| && s.inflight == 0;
  }

  lemma CheckpointAccounted(s: State, a: CheckpointOp)
    requires Inv(s) && Accounted(s) && CheckpointEnabled(s, a)
    ensures Accounted(CheckpointAfter(s, a))
  {
    if a.Freeze? { FreezeAccounted(s); }
  }

  lemma CrashAccounted(s: State, lost: set<VAddr>)
    requires Inv(s) && Accounted(s)
    ensures Accounted(CrashAfter(s, lost))
  {
    var tail := Tail(s.log, s.replay.index);
    ReplayAccounted(s.root, s.books.rootLive, tail);
    CommitsFrom(s.log, s.replay.index, |s.log|);
    assert s.log[..|s.log|] == s.log && s.log[s.replay.index..|s.log|] == tail;
  }

  // ---------------------------------------------------------------- checkpoint runs

  /** Once the relocations are done, whatever a later run cuts, freezes and installs covers them. */
  ghost predicate Fresh(s: State) { FreshRuns(s.gc, s.runs, s.lock, s.frozen, s.replay) }

  /** The position lies behind the relocations, and the inputs end before it. */
  predicate Past(gc: Gc, cut: Cut)
    requires gc.Job?
  {
    gc.mark <= cut.index && forall g <- gc.work.inputs :: StatsKnown(cut, g)
  }

  predicate FreshRuns(gc: Gc, runs: Runs, lock: Lock, frozen: Option<Frozen>, replay: Cut) {
    && runs.served <= runs.run && (!runs.running ==> lock == Free && frozen.None?)
    && (gc.Job? && (gc.phase == Awaiting || gc.phase == Proved) ==>
          && gc.since <= runs.run && (gc.since < runs.served ==> Past(gc, replay))
          && (gc.since < runs.run ==>
                && (lock.Fence? && lock.cut.Some? ==> Past(gc, lock.cut.value))
                && (frozen.Some? ==> Past(gc, frozen.value.cut))))
  }

  predicate SameRuns(s: State, t: State) {
    t.gc == s.gc && t.runs == s.runs && t.lock == s.lock && t.frozen == s.frozen && t.replay == s.replay
  }

  lemma CoordinatorFresh(s: State, a: CoordinatorOp)
    requires Inv(s) && Fresh(s) && CoordinatorEnabled(s, a)
    ensures Fresh(CoordinatorAfter(s, a))
  {
    if a.ProcessBarrier? { assert ControlBacked(s.queue[0], s.lock, s.gc); }
  }

  lemma CheckpointFresh(s: State, a: CheckpointOp)
    requires Fresh(s) && CheckpointEnabled(s, a)
    ensures Fresh(CheckpointAfter(s, a))
  {
  }

  lemma CopyFresh(s: State, a: CopyOp)
    requires Fresh(s) && CopyEnabled(s, a)
    ensures Fresh(CopyAfter(s, a))
  {
    if a.InstallOutputs? { OutputsFresh(s); }
    if a.CopyRecord? { assert Fresh(Copied(s, a.addr, a.to)); }
  }

  lemma OutputsFresh(s: State)
    requires Fresh(s) && s.gc.Job?
    ensures Fresh(OutputsInstalled(s))
  {
  }

  lemma RetireFresh(s: State, a: RetireOp)
    requires Fresh(s) && RetireEnabled(s, a)
    ensures Fresh(RetireAfter(s, a))
  {
  }

  // --------------------------------------------------------------- owners of records

  predicate OwnedAt(log: seq<Entry>, b: BatchID, k: nat) { k < |log| && log[k].Group? && b in log[k].owners }

  /** The batches of the group in flight are in the log but not yet answered. */
  function InFlight(log: seq<Entry>, inflight: nat): set<BatchID> {
    if inflight > 0 && |log| > 0 && log[|log| - 1].Group? then log[|log| - 1].owners else {}
  }

  /** A batch owns at most one record, and only if it is committed or in flight. */
  ghost predicate OwnersOnce(s: State) { LogOwners(s.log, s.batches, s.issued, InFlight(s.log, s.inflight)) }

  ghost predicate LogOwners(log: seq<Entry>, batches: Batches, issued: BatchID, flying: set<BatchID>) {
    Issued(batches, issued) && OthersUnlogged(log, batches, flying) && SingleOwners(log, issued)
  }

  predicate Issued(batches: Batches, issued: BatchID) { forall b <- batches :: b < issued }

  ghost predicate OthersUnlogged(log: seq<Entry>, batches: Batches, flying: set<BatchID>) {
    forall b <- batches | !batches[b].state.Committed? && b !in flying :: !Logged(log, b)
  }

  ghost predicate SingleOwners(log: seq<Entry>, issued: BatchID) {
    && (forall k: nat, b: BatchID :: OwnedAt(log, b, k) ==> b < issued)
    && (forall k: nat, m: nat, b: BatchID :: OwnedAt(log, b, k) && OwnedAt(log, b, m) ==> k == m)
  }

  /** What was answered Committed stays so, and whatever else appears is new. */
  predicate Narrows(batches: Batches, after: Batches, issued: BatchID) {
    forall b <- after :: if b in batches then batches[b].state.Committed? ==> after[b].state.Committed? else issued <= b
  }

  lemma LoggedMore(log: seq<Entry>, e: Entry, b: BatchID)
    ensures Logged(log + [e], b) <==> Logged(log, b) || (e.Group? && b in e.owners)
  {
    assert forall f :: f in log + [e] <==> f in log || f == e;
  }

  lemma LoggedIsOwned(log: seq<Entry>, b: BatchID)
    ensures Logged(log, b) <==> exists k: nat :: OwnedAt(log, b, k)
  {
    if k: nat :| OwnedAt(log, b, k) { assert log[k] in log; }
    if Logged(log, b) {
      var e :| e in log && e.Group? && b in e.owners;
      var k: nat :| k < |log| && log[k] == e;
      assert OwnedAt(log, b, k);
    }
  }

  lemma NarrowOwners(log: seq<Entry>, batches: Batches, after: Batches, issued: BatchID, issued2: BatchID,
                     flying: set<BatchID>)
    requires LogOwners(log, batches, issued, flying) && Narrows(batches, after, issued)
    requires issued <= issued2 && Issued(after, issued2)
    ensures LogOwners(log, after, issued2, flying)
  {
    forall b <- after | !after[b].state.Committed? && b !in flying ensures !Logged(log, b) {
      LoggedIsOwned(log, b);
    }
  }

  lemma MarkerOwners(log: seq<Entry>, batches: Batches, issued: BatchID)
    requires LogOwners(log, batches, issued, {})
    ensures LogOwners(log + [Marker], batches, issued, {})
  {
    assert forall k: nat, b: BatchID :: OwnedAt(log + [Marker], b, k) ==> OwnedAt(log, b, k);
    forall b <- batches | !batches[b].state.Committed? ensures !Logged(log + [Marker], b) {
      LoggedMore(log, Marker, b);
    }
  }

  lemma GroupOwners(log: seq<Entry>, batches: Batches, issued: BatchID, e: Entry)
    requires LogOwners(log, batches, issued, {}) && e.Group?
    requires forall b <- e.owners :: b in batches && !batches[b].state.Committed?
    ensures LogOwners(log + [e], batches, issued, e.owners)
  {
    GroupSingle(log, issued, e);
    forall b <- batches | !batches[b].state.Committed? && b !in e.owners
      ensures !Logged(log + [e], b)
    {
      LoggedMore(log, e, b);
    }
  }

  lemma GroupSingle(log: seq<Entry>, issued: BatchID, e: Entry)
    requires SingleOwners(log, issued) && e.Group? && forall b <- e.owners :: b < issued && !Logged(log, b)
    ensures SingleOwners(log + [e], issued)
  {
    forall b <- e.owners, k: nat ensures !OwnedAt(log, b, k) { LoggedIsOwned(log, b); }
    assert forall k: nat, b: BatchID ::
           OwnedAt(log + [e], b, k) <==> OwnedAt(log, b, k) || (k == |log| && b in e.owners);
  }

  lemma AcceptedPending(s: State, n: nat)
    requires InvCommits(s.queue, s.batches, s.delta) && GroupAt(s.queue, n)
    ensures forall b <- EntryOf(s.queue, n, s.redirects, s.table).owners ::
            b in s.batches && IsPending(s.batches[b].state)
  {
    OwnersOf(s.queue, n);
    forall b <- EntryOf(s.queue, n, s.redirects, s.table).owners
      ensures b in s.batches && IsPending(s.batches[b].state)
    {
      assert b in Owners(s.queue[..n]);
      var r :| r in s.queue[..n] && r.Commit? && r.batch == b;
      assert CommitBacked(s.batches, s.delta, r.batch, r.body, r.held);
    }
  }

  lemma AppendOwners(s: State, n: nat, at: u32)
    requires InvCommits(s.queue, s.batches, s.delta) && OwnersOnce(s) && CoordinatorEnabled(s, AppendGroup(n, at))
    ensures OwnersOnce(CoordinatorAfter(s, AppendGroup(n, at)))
  {
    AcceptedPending(s, n);
    GroupOwners(s.log, s.batches, s.issued, EntryOf(s.queue, n, s.redirects, s.table));
  }

  /** Publishing answers everyone in flight. */
  lemma PublishOwners(s: State)
    requires InvInflight(s.queue, s.inflight, s.redirects, s.table, s.log) && OwnersOnce(s)
    requires InvCommits(s.queue, s.batches, s.delta) && CoordinatorEnabled(s, PublishGroup)
    ensures OwnersOnce(CoordinatorAfter(s, PublishGroup))
  {
    var accepted := AcceptedOwners(Members(s.queue, s.inflight), Plan(s.queue, s.inflight, s.redirects, s.table));
    OwnersOf(s.queue, s.inflight);
    OwnersQueued(s, s.queue[..s.inflight]);
    CompletedOwners(s.log, s.batches, s.issued, Owners(Members(s.queue, s.inflight)), accepted);
  }

  lemma OwnersQueued(s: State, rs: seq<Request>)
    requires InvCommits(s.queue, s.batches, s.delta) && forall r <- rs :: r in s.queue
    ensures forall b <- Owners(rs) :: HasBatch(s.batches, b, Queued)
  {
    forall b <- Owners(rs) ensures HasBatch(s.batches, b, Queued) {
      var r :| r in rs && r.Commit? && r.batch == b;
      assert CommitBacked(s.batches, s.delta, r.batch, r.body, r.held);
    }
  }

  lemma CompletedOwners(log: seq<Entry>, batches: Batches, issued: BatchID, owners: set<BatchID>,
                        accepted: set<BatchID>)
    requires LogOwners(log, batches, issued, accepted) && forall b <- owners :: HasBatch(batches, b, Queued)
    ensures LogOwners(log, Completed(batches, owners, accepted), issued, {})
  {
    var after := Completed(batches, owners, accepted);
    assert Issued(after, issued);
    forall b <- after | !after[b].state.Committed? ensures !Logged(log, b) { assert b in batches && b !in accepted; }
  }

  /** Nothing that the owners depend on changes, except that batches may be settled or begun. */
  predicate SameOwners(s: State, t: State) {
    && t.log == s.log && t.inflight == s.inflight && s.issued <= t.issued
    && Issued(t.batches, t.issued) && Narrows(s.batches, t.batches, s.issued)
  }

  lemma OwnersKept(s: State, t: State)
    requires OwnersOnce(s) && SameOwners(s, t)
    ensures OwnersOnce(t)
  {
    NarrowOwners(s.log, s.batches, t.batches, s.issued, t.issued, InFlight(s.log, s.inflight));
  }

  lemma BarrierOwners(s: State, end: u32)
    requires OwnersOnce(s) && CoordinatorEnabled(s, ProcessBarrier(end))
    ensures OwnersOnce(CoordinatorAfter(s, ProcessBarrier(end)))
  {
    MarkerOwners(s.log, s.batches, s.issued);
  }

  lemma CoordinatorFrame(s: State, a: CoordinatorOp)
    requires Issued(s.batches, s.issued) && InvCommits(s.queue, s.batches, s.delta) && CoordinatorEnabled(s, a)
    requires !a.AppendGroup? && !a.PublishGroup? && !a.ProcessBarrier?
    ensures SameOwners(s, CoordinatorAfter(s, a))
  {
    if a.RejectGroup? {
      OwnersOf(s.queue, a.n);
      OwnersQueued(s, s.queue[..a.n]);
    }
    if a.DropRequest? { OwnersQueued(s, [s.queue[a.k]]); }
  }

  lemma CoordinatorOwners(s: State, a: CoordinatorOp)
    requires Inv(s) && OwnersOnce(s) && CoordinatorEnabled(s, a)
    ensures OwnersOnce(CoordinatorAfter(s, a))
  {
    match a
    case AppendGroup(n, at) => AppendOwners(s, n, at);
    case PublishGroup => PublishOwners(s);
    case ProcessBarrier(end) => BarrierOwners(s, end);
    case _ =>
      CoordinatorFrame(s, a);
      OwnersKept(s, CoordinatorAfter(s, a));
  }

  lemma ClientFrame(s: State, a: ClientOp)
    requires Issued(s.batches, s.issued) && ClientEnabled(s, a)
    ensures SameAccounts(s, ClientAfter(s, a)) && SameRuns(s, ClientAfter(s, a)) && SameOwners(s, ClientAfter(s, a))
  {
  }

  lemma SubmitFrame(s: State, a: SubmitOp)
    requires Issued(s.batches, s.issued) && SubmitEnabled(s, a)
    ensures SameAccounts(s, SubmitAfter(s, a)) && SameRuns(s, SubmitAfter(s, a)) && SameOwners(s, SubmitAfter(s, a))
  {
  }

  lemma CopyFrame(s: State, a: CopyOp)
    requires Issued(s.batches, s.issued) && CopyEnabled(s, a)
    ensures SameAccounts(s, CopyAfter(s, a)) && SameOwners(s, CopyAfter(s, a))
  {
    if a.RewriteBatch? {
      assert SameAccounts(s, CopyAfter(s, a));
    } else {
      CopyQuiet(s, a);
      assert Narrows(s.batches, s.batches, s.issued);
    }
  }

  predicate Untouched(s: State, t: State) { SameAccounts(s, t) && t.batches == s.batches && t.issued == s.issued }

  lemma CopyQuiet(s: State, a: CopyOp)
    requires CopyEnabled(s, a) && !a.RewriteBatch?
    ensures Untouched(s, CopyAfter(s, a))
  {
    if a.CopyRecord? {
      assert Untouched(s, Copied(s, a.addr, a.to));
    } else if a.InstallOutputs? {
      OutputsQuiet(s);
    } else {
      SnapshotQuiet(s, a);
    }
  }

  lemma OutputsQuiet(s: State)
    requires s.gc.Job?
    ensures Untouched(s, OutputsInstalled(s))
  {
  }

  lemma SnapshotQuiet(s: State, a: CopyOp)
    requires CopyEnabled(s, a) && (a.StartJob? || a.SnapshotBatch? || a.BeginCopy? || a.Rollback? || a.EnqueueRelease?)
    ensures Untouched(s, CopyAfter(s, a))
  {
  }

  lemma RetireFrame(s: State, a: RetireOp)
    requires Issued(s.batches, s.issued) && RetireEnabled(s, a)
    ensures SameAccounts(s, RetireAfter(s, a)) && SameOwners(s, RetireAfter(s, a))
  {
  }

  lemma CheckpointFrame(s: State, a: CheckpointOp)
    requires Issued(s.batches, s.issued) && CheckpointEnabled(s, a)
    ensures SameOwners(s, CheckpointAfter(s, a))
  {
  }

  // ---------------------------------------------------------------------- every step

  ghost predicate Balanced(s: State) { Accounted(s) && Fresh(s) && OwnersOnce(s) }

  lemma FrameKept(s: State, t: State)
    requires Balanced(s) && SameAccounts(s, t) && SameOwners(s, t) && Fresh(t)
    ensures Balanced(t)
  {
    OwnersKept(s, t);
  }

  lemma CoordinatorKept(s: State, a: CoordinatorOp)
    requires Inv(s) && Balanced(s) && CoordinatorEnabled(s, a)
    ensures Balanced(CoordinatorAfter(s, a))
  {
    CoordinatorAccounted(s, a);
    CoordinatorFresh(s, a);
    CoordinatorOwners(s, a);
  }

  lemma CheckpointKept(s: State, a: CheckpointOp)
    requires Inv(s) && Balanced(s) && CheckpointEnabled(s, a)
    ensures Balanced(CheckpointAfter(s, a))
  {
    CheckpointAccounted(s, a);
    CheckpointFresh(s, a);
    CheckpointFrame(s, a);
    OwnersKept(s, CheckpointAfter(s, a));
  }

  lemma CrashKept(s: State, lost: set<VAddr>)
    requires Inv(s) && Balanced(s)
    ensures Balanced(CrashAfter(s, lost))
  {
    CrashAccounted(s, lost);
  }

  lemma StepKeepsAccounts(s: State, a: Action)
    requires Inv(s) && Balanced(s) && Enabled(s, a)
    ensures Balanced(After(s, a))
  {
    match a
    case Client(c) => ClientFrame(s, c); FrameKept(s, ClientAfter(s, c));
    case Submit(u) => SubmitFrame(s, u); FrameKept(s, SubmitAfter(s, u));
    case Coordinate(o) => CoordinatorKept(s, o);
    case Checkpoint(k) => CheckpointKept(s, k);
    case Copy(c) => CopyFresh(s, c); CopyFrame(s, c); FrameKept(s, CopyAfter(s, c));
    case Finish(f) => RetireFresh(s, f); RetireFrame(s, f); FrameKept(s, RetireAfter(s, f));
    case Crash(lost) => CrashKept(s, lost);
  }

  lemma InitialBalanced(s: State)
    requires Initial(s)
    ensures Balanced(s)
  {
  }
}
