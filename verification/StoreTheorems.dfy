/** The guarantees of the store over whole runs. */
module StoreTheorems {
  import opened RecordLog
  import opened Mapping
  import opened LiveStats
  import opened StoreState
  import opened StoreInvariant
  import opened StoreReplay
  import opened StoreClient
  import opened StoreCheckpoint
  import opened StoreCoordinator
  import opened StoreRedirect
  import opened StoreRetire
  import opened StoreAccounts
  import opened CheckpointStats
  import opened StoreCrash
  import opened StoreValues

  // ------------------------------------------------------------------ every step

  lemma StepKeeps(s: State, a: Action)
    requires Inv(s) && Balanced(s) && Enabled(s, a)
    ensures Inv(After(s, a))
  {
    match a
    case Client(c) => ClientKeeps(s, c);
    case Submit(u) => SubmitKeeps(s, u);
    case Coordinate(o) => CoordinatorKeeps(s, o);
    case Checkpoint(k) => CheckpointKeeps(s, k);
    case Copy(c) => CopyKeepsAll(s, c);
    case Finish(f) => RetireKeepsAll(s, f);
    case Crash(lost) => CrashKeeps(s, lost);
  }

  lemma InitialInv(s: State)
    requires Initial(s)
    ensures Inv(s) && Balanced(s)
  {
    InitialBalanced(s);
  }

  /** What clients see after a step: only publishing a group (or replaying the group in flight
      after a crash) changes a value, and then by exactly the writes of its accepted batches.
      Checkpoints, rotation, compaction, relocation and retirement change nothing. */
  ghost function ViewAfter(s: State, a: Action): View
    requires Inv(s)
  {
    if (a == Coordinate(PublishGroup) || a.Crash?) && s.inflight > 0
    then WriteAll(Values(s.records, s.table), s.records, Members(s.queue, s.inflight),
                  Plan(s.queue, s.inflight, s.redirects, s.table))
    else Values(s.records, s.table)
  }

  /** The mapping is the same and no surviving record has changed. */
  ghost predicate Silent(s: State, t: State) {
    t.table == s.table && Agree(s.records, t.records)
  }

  ghost predicate Agree(r: Records, r2: Records) { forall x <- r :: x in r2 ==> r2[x] == r[x] }

  lemma ClientSilent(s: State, a: ClientOp)
    requires ClientEnabled(s, a)
    ensures Silent(s, ClientAfter(s, a)) && ClientAfter(s, a).log == s.log
  {
  }

  lemma SubmitSilent(s: State, a: SubmitOp)
    requires SubmitEnabled(s, a)
    ensures Silent(s, SubmitAfter(s, a)) && SubmitAfter(s, a).log == s.log
  {
  }

  lemma CheckpointSilent(s: State, a: CheckpointOp)
    requires CheckpointEnabled(s, a)
    ensures Silent(s, CheckpointAfter(s, a)) && CheckpointAfter(s, a).log == s.log
  {
  }

  lemma CoordinatorSilent(s: State, a: CoordinatorOp)
    requires CoordinatorEnabled(s, a) && !a.PublishGroup?
    ensures Silent(s, CoordinatorAfter(s, a))
  {
  }

  lemma CopySilent(s: State, a: CopyOp)
    requires CopyEnabled(s, a)
    ensures Silent(s, CopyAfter(s, a)) && CopyAfter(s, a).log == s.log
  {
    match a
    case CopyRecord(addr, to) => assert Silent(s, Copied(s, addr, to));
    case InstallOutputs => InstallSilent(s);
    case Rollback => assert Agree(s.records, WithoutSegments(s.records, s.gc.work.outputs));
    case _ => assert CopyAfter(s, a).records == s.records;
  }

  lemma InstallSilent(s: State)
    requires s.gc.Job?
    ensures var t := OutputsInstalled(s); t.records == s.records && t.table == s.table && t.log == s.log
    ensures SamePlan(s, OutputsInstalled(s))
  {
  }

  lemma RetireSilent(s: State, a: RetireOp)
    requires RetireEnabled(s, a)
    ensures Silent(s, RetireAfter(s, a)) && RetireAfter(s, a).log == s.log
  {
  }

  lemma StepSilent(s: State, a: Action)
    requires Enabled(s, a) && a != Coordinate(PublishGroup) && !a.Crash?
    ensures Silent(s, After(s, a))
  {
    match a
    case Client(c) => ClientSilent(s, c);
    case Submit(u) => SubmitSilent(s, u);
    case Coordinate(o) => CoordinatorSilent(s, o);
    case Checkpoint(k) => CheckpointSilent(s, k);
    case Copy(c) => CopySilent(s, c);
    case Finish(f) => RetireSilent(s, f);
  }

  lemma SameView(r: Records, r2: Records, homes: set<SegmentID>, homes2: set<SegmentID>, t: Table)
    requires GoodTable(r, homes, t) && GoodTable(r2, homes2, t) && Agree(r, r2)
    ensures Values(r2, t) == Values(r, t)
  {
    forall id <- t ensures t[id].addr in r && t[id].addr in r2 {
      assert Good(r, homes, id, t[id]) && Good(r2, homes2, id, t[id]);
    }
  }

  lemma ViewKept(s: State, t: State)
    requires Inv(s) && Inv(t) && GoodTable(s.records, Homes(s.sealed, s.active), t.table) && Agree(s.records, t.records)
    ensures Values(t.records, t.table) == Values(s.records, t.table)
  {
    SameView(s.records, t.records, Homes(s.sealed, s.active), Homes(t.sealed, t.active), t.table);
  }

  lemma StepRefinesMap(s: State, a: Action)
    requires Inv(s) && Balanced(s) && Enabled(s, a)
    ensures Values(After(s, a).records, After(s, a).table) == ViewAfter(s, a)
  {
    if a == Coordinate(PublishGroup) {
      PublishWrites(s);
    } else {
      StepKeeps(s, a);
      if a.Crash? {
        CrashRefinesMap(s, a);
      } else {
        StepSilent(s, a);
        ViewKept(s, After(s, a));
      }
    }
  }

  lemma CrashRefinesMap(s: State, a: Action)
    requires Inv(s) && a.Crash? && Enabled(s, a) && Inv(After(s, a))
    ensures Values(After(s, a).records, After(s, a).table) == ViewAfter(s, a)
  {
    CrashTable(s, a.lost);
    if s.inflight > 0 { PublishWrites(s); }
    ViewKept(s, After(s, a));
  }

  // ----------------------------------------------------------------- whole runs

  /** A run: any enabled actions, in any order, from an empty store. */
  ghost predicate Run(states: seq<State>, actions: seq<Action>) {
    && |states| == |actions| + 1 && Initial(states[0])
    && forall i :: 0 <= i < |actions| ==> StepAt(states, actions, i)
  }

  ghost predicate StepAt(states: seq<State>, actions: seq<Action>, i: nat)
    requires |states| == |actions| + 1 && i < |actions|
  {
    Enabled(states[i], actions[i]) && states[i + 1] == After(states[i], actions[i])
  }

  ghost predicate Sound(s: State) { Inv(s) && Balanced(s) }

  lemma StepSound(s: State, a: Action, t: State)
    requires Sound(s) && Next(s, a, t)
    ensures Sound(t)
  {
    StepKeeps(s, a);
    StepKeepsAccounts(s, a);
  }

  lemma {:induction false} EveryStateInv(states: seq<State>, actions: seq<Action>, i: nat)
    requires Run(states, actions) && i < |states|
    ensures Sound(states[i])
  {
    if i == 0 {
      InitialInv(states[0]);
    } else {
      EveryStateInv(states, actions, i - 1);
      assert StepAt(states, actions, i - 1);
      StepSound(states[i - 1], actions[i - 1], states[i]);
    }
  }

  lemma LogOnlyGrows(s: State, a: Action)
    requires Enabled(s, a)
    ensures s.log <= After(s, a).log
  {
    match a
    case Client(c) => ClientSilent(s, c);
    case Submit(u) => SubmitSilent(s, u);
    case Coordinate(o) => CoordinatorLog(s, o);
    case Checkpoint(k) => CheckpointSilent(s, k);
    case Copy(c) => CopySilent(s, c);
    case Finish(f) => RetireSilent(s, f);
    case Crash(lost) =>
  }

  lemma CoordinatorLog(s: State, a: CoordinatorOp)
    requires CoordinatorEnabled(s, a)
    ensures s.log <= CoordinatorAfter(s, a).log
  {
  }

  lemma {:induction false} LogPrefix(states: seq<State>, actions: seq<Action>, i: nat, j: nat)
    requires Run(states, actions) && i <= j < |states|
    ensures states[i].log <= states[j].log
    decreases j - i
  {
    if i < j {
      LogPrefix(states, actions, i, j - 1);
      assert StepAt(states, actions, j - 1);
      LogOnlyGrows(states[j - 1], actions[j - 1]);
    }
  }

  /** Replay refines the runtime: take the checkpoint installed at any time `i`, the log of any
      time `j` (before or after any number of crashes), and any time `m` up to `j` whose mapping
      lies at or after the checkpoint. Replaying the checkpoint's root over the log up to what
      was published at `m` gives exactly the mapping the runtime had at `m`. */
  lemma ReplayRefinesRuntime(states: seq<State>, actions: seq<Action>, i: nat, m: nat, j: nat)
    requires Run(states, actions) && i <= j < |states| && m <= j
    requires states[i].replay.index <= Published(states[m].log, states[m].inflight)
    ensures var prefix := Published(states[m].log, states[m].inflight);
            && prefix <= |states[j].log|
            && Replay(states[i].root, states[j].log[states[i].replay.index..prefix]) == states[m].table
  {
    var from, to := states[i].replay.index, Published(states[m].log, states[m].inflight);
    RootIsReplay(states, actions, i);
    TableIsReplay(states, actions, m);
    LogPrefix(states, actions, i, j);
    LogPrefix(states, actions, m, j);
    assert states[i].log[..from] == states[j].log[..from];
    assert states[m].log[..to] == states[j].log[..to];
    ReplayFrom(states[j].log, from, to);
  }

  /** Replay also ends with the runtime's statistics: accounting for every replayed change on top
      of the checkpoint's live table gives the live bytes and records that the runtime kept,
      segment by segment, and counting the replayed proposals gives its covered sequence. */
  lemma ReplayRefinesLiveStats(states: seq<State>, actions: seq<Action>, i: nat, m: nat, j: nat)
    requires Run(states, actions) && i <= j < |states| && m <= j
    requires states[i].replay.index <= Published(states[m].log, states[m].inflight)
    ensures var from, to := states[i].replay.index, Published(states[m].log, states[m].inflight);
            && to <= |states[j].log|
            && ReplayLive(states[i].root, states[i].books.rootLive, states[j].log[from..to]) == states[m].books.live
            && states[i].books.rootCovered + Commits(states[j].log[from..to]) == states[m].books.covered
  {
    var from, to := states[i].replay.index, Published(states[m].log, states[m].inflight);
    ReplayRefinesRuntime(states, actions, i, m, j);
    EveryStateInv(states, actions, i);
    EveryStateInv(states, actions, m);
    LogPrefix(states, actions, i, j);
    LogPrefix(states, actions, m, j);
    var tail := states[j].log[from..to];
    ReplayAccounted(states[i].root, states[i].books.rootLive, tail);
    LiveIsDetermined(ReplayLive(states[i].root, states[i].books.rootLive, tail), states[m].books.live, states[m].table);
    assert states[i].log[..from] == states[j].log[..from] && states[m].log[..to] == states[j].log[..to];
    CommitsFrom(states[j].log, from, to);
  }

  /** What a crash recovers: the live table and the covered sequence of the mapping with the
      group in flight published. */
  lemma CrashRecoversStats(states: seq<State>, actions: seq<Action>, i: nat)
    requires Run(states, actions) && i < |actions| && actions[i].Crash?
    ensures InvInflight(states[i].queue, states[i].inflight, states[i].redirects, states[i].table, states[i].log)
    ensures states[i + 1].books == SettledBooks(states[i])
  {
    assert StepAt(states, actions, i);
    EveryStateInv(states, actions, i);
    CrashBooks(states[i], actions[i].lost);
  }

  /** The books once the group in flight is published. */
  ghost function SettledBooks(s: State): Books
    requires InvInflight(s.queue, s.inflight, s.redirects, s.table, s.log)
  {
    if s.inflight == 0 then s.books else Booked(s.books, Plan(s.queue, s.inflight, s.redirects, s.table))
  }

  lemma CrashBooks(s: State, lost: set<VAddr>)
    requires Inv(s) && Accounted(s)
    ensures CrashAfter(s, lost).books == SettledBooks(s)
  {
    CrashAccounted(s, lost);
    SettledAccounts(s, lost);
    SameBooks(CrashAfter(s, lost), SettledBooks(s));
  }

  lemma SettledAccounts(s: State, lost: set<VAddr>)
    requires Inv(s) && Accounted(s)
    ensures Exact(SettledBooks(s).live, CrashAfter(s, lost).table) && SettledBooks(s).covered == Commits(s.log)
  {
    CrashTable(s, lost);
    assert s.log[..|s.log|] == s.log;
    if s.inflight > 0 { PublishAccounted(s); }
  }

  lemma SameBooks(t: State, books: Books)
    requires Accounted(t) && t.inflight == 0 && Exact(books.live, t.table) && books.covered == Commits(t.log)
    requires books.rootLive == t.books.rootLive && books.rootCovered == t.books.rootCovered
    ensures t.books == books
  {
    LiveIsDetermined(t.books.live, books.live, t.table);
    assert t.log[..|t.log|] == t.log;
  }

  /** The statistics stored with a checkpoint count its entries: the comparison the catalog makes
      of the summed live records with the mapping's entry count succeeds in every state. */
  lemma CheckpointCountsEntries(states: seq<State>, actions: seq<Action>, i: nat, stats: seq<SegmentStats>)
    requires Run(states, actions) && i < |states| && Lists(stats, states[i].books.rootLive)
    ensures TotalRecords(stats) == |states[i].root|
  {
    EveryStateInv(states, actions, i);
    LiveRecordsAreEntries(stats, states[i].books.rootLive, states[i].root);
  }

  /** A compaction that may prove its inputs dead finds its relocations covered: by the
      checkpoint's log position and by its commit sequence, so the check that would report a
      corrupt store never fires. */
  lemma CheckpointCoversRelocations(states: seq<State>, actions: seq<Action>, i: nat)
    requires Run(states, actions) && i < |states| && InPhase(states[i].gc, Awaiting)
    requires states[i].gc.since < states[i].runs.served
    ensures var s := states[i];
            && s.gc.mark <= s.replay.index <= |s.log|
            && Commits(s.log[..s.gc.mark]) <= s.books.rootCovered
  {
    EveryStateInv(states, actions, i);
    CommitsFrom(states[i].log, states[i].gc.mark, states[i].replay.index);
  }

  // -------------------------------------------------------- between append and publish

  /** While a durable group waits to be published nothing that its plan was resolved and charged
      against changes: the plan is still the current one when it is applied. */
  lemma PlanStaysCurrent(states: seq<State>, actions: seq<Action>, i: nat)
    requires Run(states, actions) && i < |actions| && states[i].inflight > 0
    requires actions[i] != Coordinate(PublishGroup) && !actions[i].Crash?
    ensures var s, t := states[i], states[i + 1];
            && t.inflight == s.inflight && t.table == s.table && t.delta == s.delta && t.redirects == s.redirects
            && GroupAt(s.queue, s.inflight) && GroupAt(t.queue, s.inflight)
            && Plan(t.queue, t.inflight, t.redirects, t.table) == Plan(s.queue, s.inflight, s.redirects, s.table)
            && WithCharges(t.delta, Plan(t.queue, t.inflight, t.redirects, t.table))
               == WithCharges(s.delta, Plan(s.queue, s.inflight, s.redirects, s.table))
  {
    assert StepAt(states, actions, i);
    EveryStateInv(states, actions, i);
    InflightStable(states[i], actions[i]);
    SamePlanned(states[i], states[i + 1]);
  }

  lemma SamePlanned(s: State, t: State)
    requires GroupAt(s.queue, s.inflight) && SamePlan(s, t)
    ensures GroupAt(t.queue, t.inflight)
    ensures Plan(t.queue, t.inflight, t.redirects, t.table) == Plan(s.queue, s.inflight, s.redirects, s.table)
  {
    assert t.queue[..s.inflight] == s.queue[..s.inflight];
  }

  /** What the plan in flight depends on. */
  predicate SamePlan(s: State, t: State) {
    && t.inflight == s.inflight && t.table == s.table && t.delta == s.delta && t.redirects == s.redirects
    && s.queue <= t.queue
  }

  lemma InflightStable(s: State, a: Action)
    requires Inv(s) && Enabled(s, a) && s.inflight > 0 && a != Coordinate(PublishGroup) && !a.Crash?
    ensures SamePlan(s, After(s, a))
  {
    match a
    case Client(c) => ClientPlan(s, c);
    case Submit(u) => SubmitPlan(s, u);
    case Checkpoint(k) => CheckpointPlan(s, k);
    case Copy(c) => CopyPlan(s, c);
    case Finish(f) => RetirePlan(s, f);
    case Coordinate(o) =>
  }

  lemma ClientPlan(s: State, a: ClientOp)
    requires ClientEnabled(s, a)
    ensures SamePlan(s, ClientAfter(s, a))
  {
  }

  lemma SubmitPlan(s: State, a: SubmitOp)
    requires SubmitEnabled(s, a)
    ensures SamePlan(s, SubmitAfter(s, a))
  {
  }

  /** The mapping is frozen only when nothing is in flight. */
  lemma CheckpointPlan(s: State, a: CheckpointOp)
    requires Inv(s) && CheckpointEnabled(s, a) && s.inflight > 0
    ensures SamePlan(s, CheckpointAfter(s, a))
  {
  }

  lemma CopyPlan(s: State, a: CopyOp)
    requires CopyEnabled(s, a)
    ensures SamePlan(s, CopyAfter(s, a))
  {
    if a.CopyRecord? { assert SamePlan(s, Copied(s, a.addr, a.to)); }
    if a.InstallOutputs? { InstallSilent(s); }
  }

  lemma RetirePlan(s: State, a: RetireOp)
    requires RetireEnabled(s, a)
    ensures SamePlan(s, RetireAfter(s, a))
  {
  }

  lemma RootIsReplay(states: seq<State>, actions: seq<Action>, i: nat)
    requires Run(states, actions) && i < |states|
    ensures states[i].replay.index <= |states[i].log|
    ensures states[i].root == Replay(map[], states[i].log[..states[i].replay.index])
  {
    EveryStateInv(states, actions, i);
  }

  lemma TableIsReplay(states: seq<State>, actions: seq<Action>, i: nat)
    requires Run(states, actions) && i < |states|
    ensures Published(states[i].log, states[i].inflight) <= |states[i].log|
    ensures states[i].table == Replay(map[], states[i].log[..Published(states[i].log, states[i].inflight)])
  {
    EveryStateInv(states, actions, i);
  }

  /** A commit acknowledged at any time owns exactly one record of the durable log, which was
      written by then and which every later log holds at the same place. */
  lemma AcknowledgedIsDurable(states: seq<State>, actions: seq<Action>, i: nat, j: nat, b: BatchID) returns (k: nat)
    requires Run(states, actions) && i <= j < |states| && HasBatch(states[i].batches, b, Committed)
    ensures OwnedAt(states[i].log, b, k) && OwnedAt(states[j].log, b, k) && states[j].log[k] == states[i].log[k]
    ensures forall m: nat :: OwnedAt(states[j].log, b, m) ==> m == k
  {
    EveryStateInv(states, actions, i);
    EveryStateInv(states, actions, j);
    LogPrefix(states, actions, i, j);
    LoggedIsOwned(states[i].log, b);
    k :| OwnedAt(states[i].log, b, k);
    assert OwnedAt(states[j].log, b, k);
  }

  /** A batch that is not acknowledged and not in flight has left nothing in the log. */
  lemma PendingIsUnlogged(states: seq<State>, actions: seq<Action>, i: nat, b: BatchID)
    requires Run(states, actions) && i < |states| && states[i].inflight == 0
    requires b in states[i].batches && IsPending(states[i].batches[b].state)
    ensures !Logged(states[i].log, b)
  {
    EveryStateInv(states, actions, i);
  }

  /** The answer a batch gets is the truth: it is Committed if and only if it owns a commit record
      that has been published; so none that was aborted or failed owns one. */
  lemma CommittedExactlyIfPublished(states: seq<State>, actions: seq<Action>, i: nat, b: BatchID)
    requires Run(states, actions) && i < |states| && b in states[i].batches
    ensures var s := states[i];
            s.batches[b].state.Committed? <==> Logged(s.log[..Published(s.log, s.inflight)], b)
    ensures states[i].batches[b].state.Aborted? || states[i].batches[b].state.Failed? ==> !Logged(states[i].log, b)
  {
    EveryStateInv(states, actions, i);
    AnsweredTruly(states[i], b);
  }

  lemma AnsweredTruly(s: State, b: BatchID)
    requires Inv(s) && OwnersOnce(s) && b in s.batches
    ensures s.batches[b].state.Committed? <==> Logged(s.log[..Published(s.log, s.inflight)], b)
    ensures s.batches[b].state.Aborted? || s.batches[b].state.Failed? ==> !Logged(s.log, b)
  {
    if s.inflight == 0 {
      assert s.log[..|s.log|] == s.log;
    } else {
      var n := |s.log| - 1;
      AcceptedPending(s, s.inflight);
      assert s.log == s.log[..n] + [s.log[n]];
      LoggedMore(s.log[..n], s.log[n], b);
      if b in s.log[n].owners { OwnedOnceOnly(s.log, s.issued, b, n); }
    }
  }

  lemma OwnedOnceOnly(log: seq<Entry>, issued: BatchID, b: BatchID, n: nat)
    requires SingleOwners(log, issued) && OwnedAt(log, b, n)
    ensures !Logged(log[..n], b)
  {
    LoggedIsOwned(log[..n], b);
    if k: nat :| OwnedAt(log[..n], b, k) { assert OwnedAt(log, b, k); }
  }

  /** Retirement safety on every run: whenever a step retires segments, the state it leaves from
      names nothing inside them. */
  lemma RunRetiresSafely(states: seq<State>, actions: seq<Action>, i: nat)
    requires Run(states, actions) && i < |actions| && actions[i] == Finish(Retire)
    ensures var s := states[i];
            && s.gc.Job? && states[i + 1].sealed == s.sealed - s.gc.work.inputs
            && CleanTable(s.table, s.gc.work.inputs) && CleanTable(s.root, s.gc.work.inputs)
            && (s.frozen.Some? ==> CleanTable(s.frozen.value.table, s.gc.work.inputs))
            && (forall b <- s.batches :: CleanPuts(s.batches[b].puts, s.gc.work.inputs))
            && (forall r <- s.queue :: r.Commit? ==> CleanBody(r.body, s.gc.work.inputs))
            && (forall k :: s.replay.index <= k < |s.log| ==> CleanEntry(s.log[k], s.gc.work.inputs))
  {
    assert StepAt(states, actions, i);
    EveryStateInv(states, actions, i);
    RetirementIsSafe(states[i]);
  }

  /** On every run the store refines a map from IDs to values. */
  lemma RunRefinesMap(states: seq<State>, actions: seq<Action>, i: nat)
    requires Run(states, actions) && i < |actions|
    ensures Inv(states[i])
    ensures Values(states[i + 1].records, states[i + 1].table) == ViewAfter(states[i], actions[i])
  {
    assert StepAt(states, actions, i);
    EveryStateInv(states, actions, i);
    StepRefinesMap(states[i], actions[i]);
  }

  // ------------------------------------------------------- the redirect boundary

  /** Once the removal command has been processed, no queued commit and no batch that can still
      commit carries a Put address in the redirect table's domain. */
  lemma RedirectBoundary(states: seq<State>, actions: seq<Action>, i: nat)
    requires Run(states, actions) && i < |states| && states[i].gc.Job? && Boundary(states[i].gc.phase)
    ensures var s := states[i];
            && (forall b <- s.batches :: IsOpen(s.batches[b].state) || s.batches[b].state.Prepared? ==>
                  AvoidsPuts(s.batches[b].puts, s.gc.work.redirects))
            && (forall r <- s.queue :: r.Commit? ==> AvoidsBody(r.body, s.gc.work.redirects))
  {
    EveryStateInv(states, actions, i);
    BoundaryHolds(states[i]);
  }

  predicate AvoidsPuts(puts: map<ID, Option<RecordRef>>, redirects: Redirects) {
    forall id <- puts :: puts[id].Some? ==> puts[id].value.addr !in redirects
  }

  predicate AvoidsBody(body: Proposal, redirects: Redirects) {
    forall c <- body.changes :: c.op == Put ==> c.newRef.addr !in redirects
  }

  lemma BoundaryHolds(s: State)
    requires InvCompaction(s) && s.gc.Job? && Boundary(s.gc.phase)
    ensures forall b <- s.batches :: IsOpen(s.batches[b].state) || s.batches[b].state.Prepared? ==>
              AvoidsPuts(s.batches[b].puts, s.gc.work.redirects)
    ensures forall r <- s.queue :: r.Commit? ==> AvoidsBody(r.body, s.gc.work.redirects)
  {
    forall a <- s.gc.work.redirects ensures SegmentOf(a) in s.gc.work.inputs {
      assert GoodRedirect(s.gc.work, s.records, a);
      assert GoodSource(s.gc.work, s.records, a);
    }
    forall b <- s.batches | IsOpen(s.batches[b].state) || s.batches[b].state.Prepared?
      ensures AvoidsPuts(s.batches[b].puts, s.gc.work.redirects)
    {
      assert CleanBatch(s.gc, b, s.batches[b]);
    }
    forall r <- s.queue | r.Commit? ensures AvoidsBody(r.body, s.gc.work.redirects) {
      assert CleanBody(r.body, s.gc.work.inputs);
    }
  }

  // ------------------------------------------------------------------ fence safety

  /** When the mapping is frozen nothing is reserved or queued, and the cut is exact. */
  lemma FenceIsSafe(states: seq<State>, actions: seq<Action>, i: nat)
    requires Run(states, actions) && i < |actions| && actions[i] == Checkpoint(Freeze)
    ensures var s := states[i];
            && NoSubmitter(s.batches, s.gc) && s.inflight == 0 && (forall r <- s.queue :: !IsGroup(r))
            && s.lock.Fence? && s.lock.cut.Some? && s.lock.cut.value.index == |s.log|
            && s.table == Replay(map[], s.log)
  {
    assert StepAt(states, actions, i);
    EveryStateInv(states, actions, i);
    FrozenExactly(states[i]);
  }

  lemma FrozenExactly(s: State)
    requires InvStorage(s) && InvProtocol(s) && CheckpointEnabled(s, Freeze)
    ensures NoSubmitter(s.batches, s.gc) && s.inflight == 0 && (forall r <- s.queue :: !IsGroup(r))
    ensures s.lock.cut.value.index == |s.log| && s.table == Replay(map[], s.log)
  {
    assert s.log[..|s.log|] == s.log;
  }

  /** The IDs in the active layer when the k-th proposal of a plan is published. */
  function ActiveAt(active: set<ID>, rs: seq<ResolvedProposal>, k: nat): (r: set<ID>)
    requires k < |rs|
    ensures active <= r
    decreases k
  {
    if k == 0 then active else ActiveAt(active + Touched(rs[0]), rs[1..], k - 1)
  }

  function Touched(r: ResolvedProposal): set<ID> { if r.accepted then AppliedIDs(r.changes) else {} }

  /** When a durable group is published every accepted request still holds a reservation large
      enough for the entries its proposal adds to the active layer, if it was not given further
      IDs after the reservation was made. */
  lemma ReservationsSuffice(states: seq<State>, actions: seq<Action>, i: nat, k: nat)
    requires Run(states, actions) && i < |states| && states[i].inflight > 0
    requires GroupAt(states[i].queue, states[i].inflight) && k < |Members(states[i].queue, states[i].inflight)|
    ensures var s := states[i];
            var r := Members(s.queue, s.inflight)[k];
            (r.Commit? ==> ChangeIDs(r.body) <= r.held.ids + s.delta) ==>
              Handed(s.queue, s.inflight, s.redirects, s.table, s.delta)[k].deltaEntries <= Granted(r)
  {
    EveryStateInv(states, actions, i);
    Sufficient(states[i], k);
  }

  /** The exact condition: a durable group can be published if and only if no accepted proposal
      brings more IDs into the active layer than were reserved for it. A commit brings in all of
      its IDs that are not there by then. */
  lemma PublishedExactlyIfReserved(s: State)
    requires InvProtocol(s) && s.inflight > 0 && GroupAt(s.queue, s.inflight)
    ensures var rs, plan := Members(s.queue, s.inflight), Plan(s.queue, s.inflight, s.redirects, s.table);
            CoordinatorEnabled(s, PublishGroup) <==> forall k | 0 <= k < |plan| && plan[k].accepted ::
              |Brought(rs[k], plan[k]) - ActiveAt(s.delta, plan, k)| <= Granted(rs[k])
  {
    var rs, plan := Members(s.queue, s.inflight), Plan(s.queue, s.inflight, s.redirects, s.table);
    var handed := Handed(s.queue, s.inflight, s.redirects, s.table, s.delta);
    forall k | 0 <= k < |plan|
      ensures handed[k].accepted == plan[k].accepted
      ensures plan[k].accepted ==> handed[k].deltaEntries == |Brought(rs[k], plan[k]) - ActiveAt(s.delta, plan, k)|
    {
      ChargeAt(s.delta, plan, k);
      MemberQueued(s.queue, s.inflight, k);
      if rs[k].Commit? {
        assert CommitBacked(s.batches, s.delta, rs[k].batch, rs[k].body, rs[k].held);
        CommitTouches(s.table, rs, s.redirects, k);
      }
    }
  }

  lemma MemberQueued(queue: seq<Request>, n: nat, k: nat)
    requires GroupAt(queue, n) && k < |Members(queue, n)|
    ensures Members(queue, n)[k] in queue && IsGroup(Members(queue, n)[k])
  {
    OnlyKeeps(queue[..n], true);
    OnlyKeeps(queue[..n], false);
    assert Members(queue, n)[k] in Members(queue, n);
  }

  /** The IDs of a commit; of a relocation, those that are still where it expects them. */
  function Brought(r: Request, planned: ResolvedProposal): set<ID> {
    if r.Commit? then ChangeIDs(r.body) else Touched(planned)
  }

  lemma CommitTouches(t: Table, rs: seq<Request>, redirects: Redirects, k: nat)
    requires Groups(rs) && k < |rs| && rs[k].Commit? && rs[k].body.kind == UserCommit
    ensures var r := ResolveAll(t, Sent(rs, redirects))[k]; r.accepted ==> Touched(r) == ChangeIDs(rs[k].body)
  {
    PlannedIDs(t, Sent(rs, redirects), k);
    SentIDs(rs[k], redirects);
  }

  lemma Sufficient(s: State, k: nat)
    requires InvProtocol(s) && GroupAt(s.queue, s.inflight) && k < |Members(s.queue, s.inflight)|
    ensures var r := Members(s.queue, s.inflight)[k];
            (r.Commit? ==> ChangeIDs(r.body) <= r.held.ids + s.delta) ==>
              Handed(s.queue, s.inflight, s.redirects, s.table, s.delta)[k].deltaEntries <= Granted(r)
  {
    var rs := Members(s.queue, s.inflight);
    MemberQueued(s.queue, s.inflight, k);
    var r := rs[k];
    if r.Commit? {
      assert CommitBacked(s.batches, s.delta, r.batch, r.body, r.held);
    } else {
      assert MoveBacked(s.gc, s.records, Homes(s.sealed, s.active), s.delta, r.body, r.held);
    }
    ChargeBound(s.table, s.delta, Sent(rs, s.redirects), k);
    SentIDs(r, s.redirects);
    if ChangeIDs(r.body) <= r.held.ids + s.delta {
      CardinalityGrows(ChangeIDs(r.body) - s.delta, r.held.ids - s.delta);
    }
  }

  lemma SentIDs(r: Request, redirects: Redirects)
    requires IsGroup(r)
    ensures ChangeIDs(SentBody(r, redirects)) == ChangeIDs(r.body)
  {
    var sent := SentBody(r, redirects).changes;
    forall c <- sent ensures c.id in ChangeIDs(r.body) {
      var i :| 0 <= i < |sent| && sent[i] == c;
      assert r.body.changes[i] in r.body.changes;
    }
    forall c <- r.body.changes ensures c.id in ChangeIDs(SentBody(r, redirects)) {
      var i :| 0 <= i < |r.body.changes| && r.body.changes[i] == c;
      assert sent[i] in sent;
    }
  }

  lemma ChargeBound(t: Table, active: set<ID>, ps: seq<Proposal>, k: nat)
    requires k < |ps|
    ensures WithCharges(active, ResolveAll(t, ps))[k].deltaEntries <= |ChangeIDs(ps[k]) - active|
  {
    var plan := ResolveAll(t, ps);
    ChargeAt(active, plan, k);
    PlannedIDs(t, ps, k);
    SmallerDifference(Touched(plan[k]), ChangeIDs(ps[k]), ActiveAt(active, plan, k), active);
  }

  /** A proposal pays for what neither the active layer nor an earlier proposal holds. */
  lemma {:induction false} ChargeAt(active: set<ID>, rs: seq<ResolvedProposal>, k: nat)
    requires k < |rs|
    ensures WithCharges(active, rs)[k] == rs[k].(deltaEntries := |Touched(rs[k]) - ActiveAt(active, rs, k)|)
    decreases k
  {
    var first := rs[0].(deltaEntries := |Touched(rs[0]) - active|);
    var rest := WithCharges(active + Touched(rs[0]), rs[1..]);
    assert WithCharges(active, rs) == [first] + rest;
    if k > 0 {
      ChargeAt(active + Touched(rs[0]), rs[1..], k - 1);
      assert ([first] + rest)[k] == rest[k - 1];
    }
  }

  lemma SmallerDifference(a: set<ID>, b: set<ID>, from: set<ID>, less: set<ID>)
    requires a <= b && less <= from
    ensures |a - from| <= |b - less|
  {
    CardinalityGrows(a - from, b - less);
  }

  lemma {:induction false} PlannedIDs(t: Table, ps: seq<Proposal>, k: nat)
    requires k < |ps|
    ensures Touched(ResolveAll(t, ps)[k]) <= ChangeIDs(ps[k])
    ensures ps[k].kind == UserCommit && ResolveAll(t, ps)[k].accepted ==>
              Touched(ResolveAll(t, ps)[k]) == ChangeIDs(ps[k])
    decreases |ps|
  {
    if k == 0 {
      AppliedAreChanged(ps[0].kind, t, ps[0].changes);
    } else {
      PlannedIDs(Publish(t, Resolve(t, ps[0])), ps[1..], k - 1);
    }
  }

  lemma {:induction false} AppliedAreChanged(kind: Kind, t: Table, cs: seq<Change>)
    ensures AppliedIDs(ResolveChanges(kind, t, cs)) <= set c | c in cs :: c.id
    ensures kind == UserCommit ==> AppliedIDs(ResolveChanges(kind, t, cs)) == set c | c in cs :: c.id
    decreases |cs|
  {
    if cs != [] {
      var r := ResolveChange(kind, t, cs[0]);
      var rest := ResolveChanges(kind, Effect(t, r), cs[1..]);
      assert ResolveChanges(kind, t, cs) == [r] + rest && ([r] + rest)[1..] == rest;
      AppliedAreChanged(kind, Effect(t, r), cs[1..]);
      assert cs == [cs[0]] + cs[1..];
    }
  }
}
