/** From the store machine to the production mapping: when a durable group is published, its plan
    is valid, current and funded, so `PublishGroup` of internal/mapping/persistent.go takes it. */
module StorePlan {
  import opened RecordLog
  import opened Mapping
  import opened StoreState
  import opened StoreInvariant
  import opened StoreTheorems
  import opened StoreLayout
  import L = LiveStats
  import P = Persistent
  import N = PlanCounts
  import Budget

  // --------------------------------------------------------------- well-formed proposals

  predicate WellRedirects(redirects: Redirects) { forall a <- redirects :: ValidRef(redirects[a]) }

  predicate WellRequest(r: Request) {
    (IsGroup(r) ==> ValidProposal(r.body)) && (r.Install? ==> WellRedirects(r.redirects))
  }

  predicate WellQueue(queue: seq<Request>) { forall r <- queue :: WellRequest(r) }

  predicate WellBatch(batch: Batch) { batch.state.Prepared? ==> ValidProposal(batch.state.body) }

  predicate WellBatches(batches: Batches) { forall b <- batches :: WellBatch(batches[b]) }

  predicate WellJob(gc: Gc) {
    gc.Job? ==> (gc.transfer.Staged? ==> ValidProposal(gc.transfer.body)) && WellRedirects(gc.work.redirects)
  }

  /** Everything on its way to the mapping passes the mapping's own validation. */
  predicate WellFormed(s: State) {
    WellBatches(s.batches) && WellQueue(s.queue) && WellJob(s.gc) && WellRedirects(s.redirects)
  }

  lemma ClientWell(s: State, a: ClientOp)
    requires WellFormed(s) && ClientEnabled(s, a)
    ensures WellFormed(ClientAfter(s, a))
  {
  }

  lemma SubmitWell(s: State, a: SubmitOp)
    requires WellFormed(s) && SubmitEnabled(s, a)
    ensures WellFormed(SubmitAfter(s, a))
  {
    match a
    case Enqueue(b) => EnqueueWell(s, b);
    case _ =>
  }

  lemma EnqueueWell(s: State, b: BatchID)
    requires WellFormed(s) && SubmitEnabled(s, Enqueue(b))
    ensures WellFormed(SubmitAfter(s, Enqueue(b)))
  {
    assert WellBatch(s.batches[b]);
    JoinsWell(s.queue, Commit(b, s.batches[b].state.body, s.batches[b].state.held));
  }

  lemma JoinsWell(queue: seq<Request>, r: Request)
    requires WellQueue(queue) && WellRequest(r)
    ensures WellQueue(queue + [r])
  {
  }

  lemma CoordinatorWell(s: State, a: CoordinatorOp)
    requires WellFormed(s) && CoordinatorEnabled(s, a)
    ensures WellFormed(CoordinatorAfter(s, a))
  {
    match a
    case DropRequest(k) => CompletedWell(s.batches, Owners([s.queue[k]]), {});
    case RejectGroup(n) => CompletedWell(s.batches, Owners(Members(s.queue, n)), {});
    case PublishGroup =>
      CompletedWell(s.batches, Owners(Members(s.queue, s.inflight)),
                    AcceptedOwners(Members(s.queue, s.inflight), Plan(s.queue, s.inflight, s.redirects, s.table)));
    case ProcessInstall => assert WellRequest(s.queue[0]);
    case _ =>
  }

  lemma CompletedWell(batches: Batches, owners: set<BatchID>, accepted: set<BatchID>)
    requires WellBatches(batches)
    ensures WellBatches(Completed(batches, owners, accepted))
  {
    var after := Completed(batches, owners, accepted);
    forall b <- after ensures WellBatch(after[b]) { assert WellBatch(batches[b]); }
  }

  lemma CheckpointWell(s: State, a: CheckpointOp)
    requires WellFormed(s) && CheckpointEnabled(s, a)
    ensures WellFormed(CheckpointAfter(s, a))
  {
  }

  lemma CopyWell(s: State, a: CopyOp)
    requires WellFormed(s) && CopyEnabled(s, a)
    ensures WellFormed(CopyAfter(s, a))
  {
    match a
    case CopyRecord(addr, to) => CopiedWell(s, addr, to);
    case InstallOutputs => OutputsWell(s);
    case RewriteBatch(b) => RewrittenWell(s, b);
    case _ => QuietCopyWell(s, a);
  }

  lemma CopiedWell(s: State, addr: VAddr, to: VAddr)
    requires WellFormed(s) && CopyEnabled(s, CopyRecord(addr, to))
    ensures WellFormed(Copied(s, addr, to))
  {
  }

  lemma OutputsWell(s: State)
    requires WellFormed(s) && s.gc.Job?
    ensures WellFormed(OutputsInstalled(s))
  {
  }

  lemma RewrittenWell(s: State, b: BatchID)
    requires WellFormed(s) && CopyEnabled(s, RewriteBatch(b))
    ensures WellFormed(CopyAfter(s, RewriteBatch(b)))
  {
    if b in s.batches { assert WellBatch(s.batches[b]); }
  }

  lemma QuietCopyWell(s: State, a: CopyOp)
    requires WellFormed(s) && CopyEnabled(s, a) && !a.CopyRecord? && !a.InstallOutputs? && !a.RewriteBatch?
    ensures WellFormed(CopyAfter(s, a))
  {
  }

  lemma RetireWell(s: State, a: RetireOp)
    requires WellFormed(s) && RetireEnabled(s, a)
    ensures WellFormed(RetireAfter(s, a))
  {
  }

  lemma StepWell(s: State, a: Action)
    requires WellFormed(s) && Enabled(s, a)
    ensures WellFormed(After(s, a))
  {
    match a
    case Client(c) => ClientWell(s, c);
    case Submit(u) => SubmitWell(s, u);
    case Coordinate(o) => CoordinatorWell(s, o);
    case Checkpoint(k) => CheckpointWell(s, k);
    case Copy(c) => CopyWell(s, c);
    case Finish(f) => RetireWell(s, f);
    case Crash(lost) =>
  }

  // ----------------------------------------------------------------- something is accepted

  ghost predicate SomeAccepted(s: State) {
    s.inflight > 0 ==>
      GroupAt(s.queue, s.inflight) && exists r <- Plan(s.queue, s.inflight, s.redirects, s.table) :: r.accepted
  }

  lemma PlanCarried(s: State, t: State)
    requires SomeAccepted(s) && s.inflight > 0 && SamePlan(s, t)
    ensures SomeAccepted(t)
  {
    assert t.queue[..s.inflight] == s.queue[..s.inflight];
  }

  /** A group is appended only if one of its proposals is accepted. */
  lemma OnlyAppendStarts(s: State, a: Action)
    requires Inv(s) && Enabled(s, a) && s.inflight == 0
    ensures After(s, a).inflight > 0 ==> a.Coordinate? && a.coordinate.AppendGroup?
    ensures SomeAccepted(After(s, a))
  {
    match a
    case Client(c) => ClientPlan(s, c);
    case Submit(u) => SubmitPlan(s, u);
    case Coordinate(o) => CoordinatorStarts(s, o);
    case Checkpoint(k) => assert CheckpointAfter(s, k).inflight == 0;
    case Copy(c) => CopyPlan(s, c);
    case Finish(f) => RetirePlan(s, f);
    case Crash(lost) =>
  }

  lemma CoordinatorStarts(s: State, a: CoordinatorOp)
    requires CoordinatorEnabled(s, a) && s.inflight == 0
    ensures CoordinatorAfter(s, a).inflight > 0 ==> a.AppendGroup?
    ensures SomeAccepted(CoordinatorAfter(s, a))
  {
  }

  lemma StepAccepted(s: State, a: Action, t: State)
    requires Inv(s) && SomeAccepted(s) && Next(s, a, t)
    ensures SomeAccepted(t)
  {
    if s.inflight == 0 { OnlyAppendStarts(s, a); } else { StillAccepted(s, a, t); }
  }

  lemma StillAccepted(s: State, a: Action, t: State)
    requires Inv(s) && SomeAccepted(s) && s.inflight > 0 && Next(s, a, t)
    ensures SomeAccepted(t)
  {
    if a == Coordinate(PublishGroup) {
      assert CoordinatorAfter(s, PublishGroup).inflight == 0;
    } else if a.Crash? {
      assert CrashAfter(s, a.lost).inflight == 0;
    } else {
      InflightStable(s, a);
      PlanCarried(s, t);
    }
  }

  lemma {:induction false} EveryPlanWell(states: seq<State>, actions: seq<Action>, i: nat)
    requires Run(states, actions) && i < |states|
    ensures WellFormed(states[i]) && SomeAccepted(states[i])
  {
    if i > 0 {
      EveryPlanWell(states, actions, i - 1);
      WellStep(states, actions, i - 1);
      AcceptedStep(states, actions, i - 1);
    }
  }

  lemma WellStep(states: seq<State>, actions: seq<Action>, i: nat)
    requires Run(states, actions) && i < |actions| && WellFormed(states[i])
    ensures WellFormed(states[i + 1])
  {
    assert StepAt(states, actions, i);
    StepWell(states[i], actions[i]);
  }

  lemma AcceptedStep(states: seq<State>, actions: seq<Action>, i: nat)
    requires Run(states, actions) && i < |actions| && SomeAccepted(states[i])
    ensures SomeAccepted(states[i + 1])
  {
    EveryStateInv(states, actions, i);
    assert StepAt(states, actions, i);
    StepAccepted(states[i], actions[i], states[i + 1]);
  }

  // ------------------------------------------------------------------------- the plan

  lemma SentWell(r: Request, redirects: Redirects)
    requires IsGroup(r) && WellRequest(r) && WellRedirects(redirects)
    ensures ValidProposal(SentBody(r, redirects))
  {
    if r.Commit? {
      var sent := SentBody(r, redirects);
      forall i | 0 <= i < |sent.changes| ensures ValidChange(sent.kind, sent.changes[i]) {
        assert ValidChange(r.body.kind, r.body.changes[i]);
      }
    }
  }

  lemma BodiesWell(queue: seq<Request>, n: nat, redirects: Redirects)
    requires GroupAt(queue, n) && WellQueue(queue) && WellRedirects(redirects)
    ensures forall p <- Bodies(queue, n, redirects) :: ValidProposal(p)
  {
    forall p <- Bodies(queue, n, redirects) ensures ValidProposal(p) {
      var r := StoreReplay.BodyFrom(queue, n, redirects, p);
      SentWell(r, redirects);
    }
  }

  lemma {:induction false} ResolvedKeepChanges(kind: Kind, t: Table, cs: seq<Change>)
    ensures P.Requested(ResolveChanges(kind, t, cs)) == cs
    decreases |cs|
  {
    if cs != [] {
      var r := ResolveChange(kind, t, cs[0]);
      ResolvedKeepChanges(kind, Effect(t, r), cs[1..]);
      assert P.Requested([r] + ResolveChanges(kind, Effect(t, r), cs[1..])) == [cs[0]] + cs[1..];
    }
  }

  /** What a valid proposal finds and leaves in a table of valid references. */
  lemma {:induction false} ChangesWell(kind: Kind, t: Table, cs: seq<Change>)
    requires L.ValidTable(t) && forall c <- cs :: ValidChange(kind, c)
    ensures forall r <- ResolveChanges(kind, t, cs) :: P.ResolvedWell(kind, r)
    ensures L.ValidTable(EffectAll(t, ResolveChanges(kind, t, cs)))
    decreases |cs|
  {
    if cs != [] {
      assert ValidChange(kind, cs[0]);
      ChangesWell(kind, Effect(t, ResolveChange(kind, t, cs[0])), cs[1..]);
    }
  }

  lemma ProposalWell(t: Table, p: Proposal)
    requires L.ValidTable(t) && ValidProposal(p)
    ensures P.ProposalResolved(Resolve(t, p)) && L.ValidTable(Publish(t, Resolve(t, p)))
  {
    if AllHold(t, p.conditions) {
      ResolvedKeepChanges(p.kind, t, p.changes);
      ChangesWell(p.kind, t, p.changes);
    } else {
      assert p.conditions != [];
    }
  }

  lemma {:induction false} PlanWell(t: Table, ps: seq<Proposal>)
    requires L.ValidTable(t) && forall p <- ps :: ValidProposal(p)
    ensures P.PlanValid(ResolveAll(t, ps))
    decreases |ps|
  {
    if ps != [] {
      ProposalWell(t, ps[0]);
      PlanWell(Publish(t, Resolve(t, ps[0])), ps[1..]);
    }
  }

  /** Charging changes only the charges. */
  predicate SameButCharges(rs: seq<ResolvedProposal>, out: seq<ResolvedProposal>) {
    |out| == |rs| && forall i | 0 <= i < |rs| :: out[i] == rs[i].(deltaEntries := out[i].deltaEntries)
  }

  lemma {:induction false} ChargesOnly(active: set<ID>, rs: seq<ResolvedProposal>)
    ensures SameButCharges(rs, WithCharges(active, rs))
    decreases |rs|
  {
    if rs != [] {
      var ids := if rs[0].accepted then AppliedIDs(rs[0].changes) else {};
      ChargesOnly(active + ids, rs[1..]);
    }
  }

  lemma {:induction false} ChargedTwice(active: set<ID>, rs: seq<ResolvedProposal>, out: seq<ResolvedProposal>)
    requires SameButCharges(rs, out)
    ensures WithCharges(active, out) == WithCharges(active, rs)
    decreases |rs|
  {
    if rs != [] {
      var ids := if rs[0].accepted then AppliedIDs(rs[0].changes) else {};
      ChargedTwice(active + ids, rs[1..], out[1..]);
    }
  }

  lemma {:induction false} SameFlat(rs: seq<ResolvedProposal>, out: seq<ResolvedProposal>)
    requires SameButCharges(rs, out)
    ensures L.Flat(out) == L.Flat(rs) && P.CountAccepted(out) == |Accepted(rs)|
  {
    if rs != [] { SameFlat(rs[1..], out[1..]); }
  }

  lemma {:induction false} AcceptedCounts(rs: seq<ResolvedProposal>)
    requires exists r <- rs :: r.accepted
    ensures |Accepted(rs)| > 0
  {
    if !rs[0].accepted {
      assert exists r <- rs[1..] :: r.accepted by {
        var r :| r in rs && r.accepted;
        assert r in rs[1..];
      }
      AcceptedCounts(rs[1..]);
    }
  }

  // ------------------------------------------------------------------------- the result

  /** The mapping object shows what the machine says: the table, the active layer and the covered
      sequence. */
  ghost predicate Shows(c: P.Core, s: State) {
    P.MappedBy(c) == s.table && c.active.values.Keys == s.delta && c.covered == s.books.covered
  }

  /** Every request of the group holds its own reservation. */
  predicate Funded(open: map<Budget.Handle, nat>, handles: seq<Budget.Handle>, rs: seq<Request>) {
    && |handles| == |rs| && (forall i, j | 0 <= i < j < |handles| :: handles[i] != handles[j])
    && forall k | 0 <= k < |rs| :: handles[k] in open && open[handles[k]] == Budget.ENTRY_CHARGE * Granted(rs[k])
  }

  /** `PublishGroup` never reports a stale or invalid plan: on every run, whenever a durable group
      is to be published, the plan meets every condition under which the mapping that shows the
      machine's state publishes it, until the sequence numbers run out; and the reservations are
      enough if and only if the machine can publish. */
  lemma PublicationIsCurrent(states: seq<State>, actions: seq<Action>, i: nat, c: P.Core,
                             open: map<Budget.Handle, nat>, handles: seq<Budget.Handle>)
    requires Run(states, actions) && i < |states| && states[i].inflight > 0 && Shows(c, states[i])
    ensures GroupAt(states[i].queue, states[i].inflight)
    ensures var s := states[i];
            var plan := Handed(s.queue, s.inflight, s.redirects, s.table, s.delta);
            && P.CountAccepted(plan) > 0
            && (s.books.covered + P.CountAccepted(plan) <= MAX64 ==>
               P.Current(c, s.books.covered + 1, s.books.covered, plan))
            && (Funded(open, handles, Members(s.queue, s.inflight)) ==>
               (CoordinatorEnabled(s, PublishGroup) <==> P.Fundable(open, plan, handles)))
            && (P.AccountedBy(c) ==> P.ResolvedHere(c, plan))
  {
    EveryPlanWell(states, actions, i);
    EveryStateInv(states, actions, i);
    EveryStateLaidOut(states, actions, i);
    CurrentHere(states[i], c);
    if Funded(open, handles, Members(states[i].queue, states[i].inflight)) { FundedHere(states[i], open, handles); }
  }

  // ---------------------------------------------------------- the mapping keeps showing it

  /** What publishing a plan makes of the mapping (`PersistentMapping.PublishGroup`). */
  ghost predicate Publishes(c: P.Core, plan: seq<ResolvedProposal>, next: P.Core) {
    && P.MappedBy(next) == PublishAll(P.MappedBy(c), plan) && next.covered == c.covered + P.CountAccepted(plan)
    && next.active.values.Keys == c.active.values.Keys + P.TouchedAll(plan)
  }

  lemma {:induction false} TouchedIsApplied(plan: seq<ResolvedProposal>)
    ensures P.TouchedAll(plan) == Applied(plan)
  {
    if plan != [] {
      var rest := plan[1..];
      TouchedIsApplied(rest);
      forall id <- Applied(plan) ensures id in P.TouchedAll(plan) {
        var i :| 0 <= i < |plan| && plan[i].accepted && id in AppliedIDs(plan[i].changes);
        if i > 0 { assert rest[i - 1] == plan[i]; }
      }
      forall id <- P.TouchedAll(plan) ensures id in Applied(plan) {
        if id in P.TouchedAll(rest) {
          var i :| 0 <= i < |rest| && rest[i].accepted && id in AppliedIDs(rest[i].changes);
          assert plan[i + 1] == rest[i];
        } else {
          assert plan[0].accepted;
        }
      }
    }
  }

  /** Charges make no difference to the effect. */
  lemma ChargesHaveNoEffect(t: Table, active: set<ID>, rs: seq<ResolvedProposal>)
    ensures var plan := WithCharges(active, rs);
            && PublishAll(t, plan) == PublishAll(t, rs) && P.TouchedAll(plan) == Applied(rs)
            && P.CountAccepted(plan) == |Accepted(rs)|
  {
    var plan := WithCharges(active, rs);
    ChargesOnly(active, rs);
    SameFlat(rs, plan);
    L.FlatEffect(t, plan);
    L.FlatEffect(t, rs);
    TouchedIsApplied(plan);
    assert Applied(plan) == Applied(rs);
  }

  /** A mapping that shows the machine's state and publishes the plan it is handed shows the state
      after it. */
  lemma PublishFollows(s: State, c: P.Core, next: P.Core)
    requires Shows(c, s) && CoordinatorEnabled(s, PublishGroup)
    requires Publishes(c, Handed(s.queue, s.inflight, s.redirects, s.table, s.delta), next)
    ensures Shows(next, CoordinatorAfter(s, PublishGroup))
  {
    ChargesHaveNoEffect(s.table, s.delta, Plan(s.queue, s.inflight, s.redirects, s.table));
  }

  /** So does one that is frozen. */
  lemma FreezeFollows(s: State, c: P.Core, next: P.Core)
    requires Shows(c, s) && CheckpointEnabled(s, Freeze)
    requires P.MappedBy(next) == P.MappedBy(c) && next.covered == c.covered && next.active.values == map[]
    ensures Shows(next, CheckpointAfter(s, Freeze))
  {
  }

  /** The mapping after replaying some log records onto a checkpoint. */
  ghost predicate ShowsReplay(c: P.Core, root: Table, covered: nat, log: seq<Entry>) {
    && P.MappedBy(c) == Replay(root, log) && c.active.values.Keys == ReplayDelta(root, log)
    && c.covered == covered + Commits(log)
  }

  /** Publishing one record after the other leads to the state that the machine recovers. */
  lemma ReplayFollows(c: P.Core, root: Table, covered: nat, log: seq<Entry>, e: Entry, next: P.Core)
    requires ShowsReplay(c, root, covered, log) && e.Group? && forall p <- e.bodies :: p.conditions == []
    requires Publishes(c, WithCharges(c.active.values.Keys, ResolveAll(P.MappedBy(c), e.bodies)), next)
    ensures ShowsReplay(next, root, covered, log + [e])
  {
    var rs := ResolveAll(Replay(root, log), e.bodies);
    assert (log + [e])[..|log|] == log;
    ChargesHaveNoEffect(Replay(root, log), c.active.values.Keys, rs);
    AllAccepted(Replay(root, log), e.bodies);
  }

  lemma {:induction false} AllAccepted(t: Table, ps: seq<Proposal>)
    requires forall p <- ps :: p.conditions == []
    ensures |Accepted(ResolveAll(t, ps))| == |ps|
    decreases |ps|
  {
    if ps != [] {
      assert ps[0] in ps && forall p <- ps[1..] :: p in ps;
      AllAccepted(Publish(t, Resolve(t, ps[0])), ps[1..]);
    }
  }

  lemma RecoveryShows(s: State, lost: set<VAddr>, c: P.Core)
    requires Inv(s) && ShowsReplay(c, s.root, s.books.rootCovered, Tail(s.log, s.replay.index))
    ensures Shows(c, CrashAfter(s, lost))
  {
  }

  const UINT32 := 0x1_0000_0000

  /** The coordinator's comparison after publication: the reported numbers are 32 bits wide. */
  predicate Complains(r: P.PublishOutcome, descriptors: nat, applied: nat, skipped: nat)
    requires r.Published?
  {
    r.committed % UINT32 != descriptors % UINT32 || r.applied % UINT32 != applied || r.skipped % UINT32 != skipped
  }

  /** On every run the numbers that the mapping reports for a durable group agree with the
      descriptors of its record and with the coordinator's own count, up to 32 bits. */
  lemma CoordinatorComplainsOnlyBeyond32Bits(states: seq<State>, actions: seq<Action>, i: nat, r: P.PublishOutcome)
    requires Run(states, actions) && i < |states| && states[i].inflight > 0
    requires GroupAt(states[i].queue, states[i].inflight) && r.Published?
    requires var s := states[i]; P.Reports(r, Handed(s.queue, s.inflight, s.redirects, s.table, s.delta))
    ensures var s := states[i];
            var plan := Handed(s.queue, s.inflight, s.redirects, s.table, s.delta);
            var applied, skipped := |N.ChangesAt(plan, true)|, |N.ChangesAt(plan, false)|;
            && |s.log| > 0 && s.log[|s.log| - 1].Group?
            && r.committed == |s.log[|s.log| - 1].bodies|
            && (Complains(r, |s.log[|s.log| - 1].bodies|, applied, skipped) <==> applied >= UINT32 || skipped >= UINT32)
  {
    EveryStateInv(states, actions, i);
    LastRecord(states[i]);
    CountsMatch(states[i]);
  }

  lemma LastRecord(s: State)
    requires Inv(s) && s.inflight > 0
    ensures GroupAt(s.queue, s.inflight) && |s.log| > 0
    ensures s.log[|s.log| - 1] == EntryOf(s.queue, s.inflight, s.redirects, s.table)
  {
  }

  lemma CountsMatch(s: State)
    requires GroupAt(s.queue, s.inflight)
    ensures |N.AcceptedAt(Handed(s.queue, s.inflight, s.redirects, s.table, s.delta))|
            == |EntryOf(s.queue, s.inflight, s.redirects, s.table).bodies|
  {
    var rs := Plan(s.queue, s.inflight, s.redirects, s.table);
    var plan := Handed(s.queue, s.inflight, s.redirects, s.table, s.delta);
    var ps := Bodies(s.queue, s.inflight, s.redirects);
    ChargesOnly(s.delta, rs);
    forall k: nat ensures k in N.AcceptedAt(plan) <==> k in N.AcceptedAt(rs) {}
    assert N.AcceptedAt(plan) == N.AcceptedAt(rs);
    N.AcceptedAreDurable(ps, rs, |rs|);
    assert ps[..|rs|] == ps && rs[..|rs|] == rs;
  }

  lemma FundedHere(s: State, open: map<Budget.Handle, nat>, handles: seq<Budget.Handle>)
    requires s.inflight > 0 && GroupAt(s.queue, s.inflight) && Funded(open, handles, Members(s.queue, s.inflight))
    ensures CoordinatorEnabled(s, PublishGroup) <==>
            P.Fundable(open, Handed(s.queue, s.inflight, s.redirects, s.table, s.delta), handles)
  {
    var rs, plan := Members(s.queue, s.inflight), Handed(s.queue, s.inflight, s.redirects, s.table, s.delta);
    forall k | 0 <= k < |plan|
      ensures plan[k].deltaEntries <= Granted(rs[k]) <==>
              Budget.ENTRY_CHARGE * plan[k].deltaEntries <= open[handles[k]]
    {
    }
  }

  lemma CurrentHere(s: State, c: P.Core)
    requires Inv(s) && Placed(s.records, s.active) && WellFormed(s) && SomeAccepted(s) && s.inflight > 0 && Shows(c, s)
    ensures var plan := Handed(s.queue, s.inflight, s.redirects, s.table, s.delta);
            && P.CountAccepted(plan) > 0
            && (s.books.covered + P.CountAccepted(plan) <= MAX64 ==>
               P.Current(c, s.books.covered + 1, s.books.covered, plan))
            && L.ResolvedFrom(s.table, L.Flat(plan))
  {
    var rs := Plan(s.queue, s.inflight, s.redirects, s.table);
    var plan := Handed(s.queue, s.inflight, s.redirects, s.table, s.delta);
    ChargesOnly(s.delta, rs);
    ChargedTwice(s.delta, rs, plan);
    SameFlat(rs, plan);
    AcceptedCounts(rs);
    BodiesWell(s.queue, s.inflight, s.redirects);
    TableValid(s, s.table);
    PlanWell(s.table, Bodies(s.queue, s.inflight, s.redirects));
    SameValid(rs, plan);
    L.PlanResolvedFrom(s.table, Bodies(s.queue, s.inflight, s.redirects));
  }

  lemma SameValid(rs: seq<ResolvedProposal>, out: seq<ResolvedProposal>)
    requires SameButCharges(rs, out) && P.PlanValid(rs)
    ensures P.PlanValid(out)
  {
    forall r <- out ensures P.ProposalResolved(r) {
      var i :| 0 <= i < |out| && out[i] == r;
      assert P.ProposalResolved(rs[i]);
    }
  }
}
