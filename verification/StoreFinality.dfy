/** What stays: an aborted batch never commits, an address that was published once never names
    another record, and an update that was superseded never comes back. So of all commits of a run
    that expect the same address of an ID, at most one that writes the ID succeeds. */
module StoreFinality {
  import opened RecordLog
  import opened Mapping
  import opened StoreState
  import opened StoreInvariant
  import opened StoreAccounts
  import opened StoreTheorems
  import opened StoreHistory
  import opened StoreOutcome
  import opened StoreOrigins
  import StoreCrash
  import StoreGroup
  import StoreReplay
  import Recovery = StoreRecovery
  import T = StoreTags

  // --------------------------------------------------------------------- ended batches

  /** The batch was aborted or has failed, and may have been forgotten since. */
  ghost predicate Ended(s: State, b: BatchID) {
    && b < s.issued && !Logged(s.log, b)
    && (b in s.batches ==> s.batches[b].state.Aborted? || s.batches[b].state.Failed?)
  }

  lemma EndedUnlogged(s: State, a: Action, t: State, b: BatchID)
    requires Inv(s) && Next(s, a, t) && Ended(s, b)
    ensures !Logged(t.log, b)
  {
    Recovery.LogAfter(s, a);
    if a.Coordinate? && a.coordinate.AppendGroup? {
      AcceptedPending(s, a.coordinate.n);
      LoggedMore(s.log, EntryOf(s.queue, a.coordinate.n, s.redirects, s.table), b);
    } else {
      LoggedMore(s.log, Marker, b);
    }
  }

  lemma NotRevived(s: State, a: Action, t: State, b: BatchID)
    requires Next(s, a, t) && b < s.issued
    requires b in s.batches ==> s.batches[b].state.Aborted? || s.batches[b].state.Failed?
    ensures b in t.batches ==> !IsPending(t.batches[b].state)
  {
    if a.Client? {
      ClientRevivesNone(s, a.client, b);
    } else if a.Submit? {
      SubmitRevivesNone(s, a.submit, b);
    } else if a.Copy? && a.copy.RewriteBatch? {
      RewriteRevivesNone(s, a.copy.b, t, b);
    } else {
      RestContinues(s, a, t);
    }
  }

  lemma ClientRevivesNone(s: State, c: ClientOp, b: BatchID)
    requires ClientEnabled(s, c) && b < s.issued && (b in s.batches ==> !IsPending(s.batches[b].state))
    ensures b in ClientAfter(s, c).batches ==> !IsPending(ClientAfter(s, c).batches[b].state)
  {
  }

  lemma SubmitRevivesNone(s: State, u: SubmitOp, b: BatchID)
    requires SubmitEnabled(s, u) && (b in s.batches ==> !IsPending(s.batches[b].state))
    ensures b in SubmitAfter(s, u).batches ==> !IsPending(SubmitAfter(s, u).batches[b].state)
  {
  }

  lemma RewriteRevivesNone(s: State, x: BatchID, t: State, b: BatchID)
    requires s.gc.Job? && t == BatchRewritten(s, x) && (b in s.batches ==> !IsPending(s.batches[b].state))
    ensures b in t.batches ==> !IsPending(t.batches[b].state)
  {
  }

  lemma StepEnded(s: State, a: Action, t: State, b: BatchID)
    requires Inv(s) && Inv(t) && Next(s, a, t) && Ended(s, b) && s.issued <= t.issued
    ensures Ended(t, b)
  {
    EndedUnlogged(s, a, t, b);
    NotRevived(s, a, t, b);
    assert b in t.batches && t.batches[b].state.Committed? ==> Logged(t.log, b);
  }

  lemma IssuedGrows(s: State, a: Action, t: State)
    requires Next(s, a, t)
    ensures s.issued <= t.issued
  {
    match a
    case Client(c) => ClientIssues(s, c);
    case Submit(u) =>
    case Copy(c) =>
      if c.RewriteBatch? { assert t == BatchRewritten(s, c.b); } else { RestContinues(s, a, t); }
    case _ => RestContinues(s, a, t);
  }

  lemma ClientIssues(s: State, c: ClientOp)
    requires ClientEnabled(s, c)
    ensures s.issued <= ClientAfter(s, c).issued
  {
  }

  lemma {:induction false} EndedForGood(states: seq<State>, actions: seq<Action>, m: nat, i: nat, b: BatchID)
    requires Run(states, actions) && m <= i < |states| && Ended(states[m], b)
    ensures Ended(states[i], b)
    decreases i - m
  {
    if m < i {
      EndedForGood(states, actions, m, i - 1, b);
      NextEnded(states, actions, i - 1, b);
    }
  }

  lemma NextEnded(states: seq<State>, actions: seq<Action>, i: nat, b: BatchID)
    requires Run(states, actions) && i < |actions| && Ended(states[i], b)
    ensures Ended(states[i + 1], b)
  {
    ReadyToStep(states, actions, i);
    IssuedGrows(states[i], actions[i], states[i + 1]);
    StepEnded(states[i], actions[i], states[i + 1], b);
  }

  /** On every run a batch that its client aborted, or that failed, never gets a commit record. */
  lemma AbortIsFinal(states: seq<State>, actions: seq<Action>, m: nat, i: nat, b: BatchID)
    requires Run(states, actions) && m < i < |states|
    requires actions[m] == Client(Abort(b)) || actions[m] == Client(Fail(b))
    ensures !Logged(states[i].log, b)
  {
    EndsHere(states, actions, m, b);
    NowEnded(states, actions, m + 1, b);
    EndedForGood(states, actions, m + 1, i, b);
  }

  lemma EndsHere(states: seq<State>, actions: seq<Action>, m: nat, b: BatchID)
    requires Run(states, actions) && m < |actions|
    requires actions[m] == Client(Abort(b)) || actions[m] == Client(Fail(b))
    ensures var after := states[m + 1].batches; b in after && (after[b].state.Aborted? || after[b].state.Failed?)
  {
    assert StepAt(states, actions, m);
    AbortEnds(states[m], actions[m].client, states[m + 1]);
  }

  lemma AbortEnds(s: State, c: ClientOp, t: State)
    requires ClientStep(s, c, t) && (c.Abort? || c.Fail?)
    ensures c.b in t.batches && (t.batches[c.b].state.Aborted? || t.batches[c.b].state.Failed?)
  {
  }

  lemma NowEnded(states: seq<State>, actions: seq<Action>, m: nat, b: BatchID)
    requires Run(states, actions) && m < |states| && b in states[m].batches
    requires states[m].batches[b].state.Aborted? || states[m].batches[b].state.Failed?
    ensures Ended(states[m], b)
  {
    EveryStateInv(states, actions, m);
    CommittedExactlyIfPublished(states, actions, m, b);
  }

  // ---------------------------------------------------------------- published addresses

  predicate Named(log: seq<Entry>, a: VAddr) { exists e <- log :: a in Names(e) }

  /** The address lies where nothing will be written again. */
  predicate Settled(gc: Gc, nextOutput: nat, log: seq<Entry>, a: VAddr) {
    && SegmentOf(a) < nextOutput && Named(log, a)
    && (gc.Job? && Unpublished(gc.phase) ==> SegmentOf(a) !in gc.work.outputs)
  }

  predicate Holds(records: Records, active: SegmentID, a: VAddr, r: Payload) {
    if a in records then records[a] == r else IsCompactionSegment(SegmentOf(a)) || SegmentOf(a) < active
  }

  /** The address names this record, or nothing any more. */
  predicate Final(s: State, a: VAddr, r: Payload) {
    Settled(s.gc, s.nextOutput, s.log, a) && Holds(s.records, s.active, a, r)
  }

  lemma NamedGrows(log: seq<Entry>, more: seq<Entry>, a: VAddr)
    requires Named(log, a) && log <= more
    ensures Named(more, a)
  {
    var e :| e in log && a in Names(e);
    assert e in more;
  }

  lemma ClientFinal(s: State, c: ClientOp, a: VAddr, r: Payload)
    requires Inv(s) && ClientEnabled(s, c) && Final(s, a, r)
    ensures Final(ClientAfter(s, c), a, r)
  {
  }

  lemma SubmitFinal(s: State, u: SubmitOp, a: VAddr, r: Payload)
    requires SubmitEnabled(s, u) && Final(s, a, r)
    ensures Final(SubmitAfter(s, u), a, r)
  {
  }

  lemma CheckpointFinal(s: State, k: CheckpointOp, a: VAddr, r: Payload)
    requires CheckpointEnabled(s, k) && Final(s, a, r)
    ensures Final(CheckpointAfter(s, k), a, r)
  {
  }

  lemma CoordinatorFinal(s: State, o: CoordinatorOp, t: State, a: VAddr, r: Payload)
    requires CoordinatorStep(s, o, t) && Final(s, a, r)
    ensures Final(t, a, r)
  {
    NamedGrows(s.log, t.log, a);
  }

  lemma CopyFinal(s: State, c: CopyOp, t: State, a: VAddr, r: Payload)
    requires CopyStep(s, c, t) && Final(s, a, r)
    ensures Final(t, a, r)
  {
    match c
    case CopyRecord(addr, to) => CopiedFinal(s, addr, to, t, a, r);
    case InstallOutputs => assert t == OutputsInstalled(s);
    case _ =>
  }

  lemma CopiedFinal(s: State, addr: VAddr, to: VAddr, t: State, a: VAddr, r: Payload)
    requires CopyEnabled(s, CopyRecord(addr, to)) && t == Copied(s, addr, to) && Final(s, a, r)
    ensures Final(t, a, r)
  {
  }

  lemma RetireFinal(s: State, f: RetireOp, t: State, a: VAddr, r: Payload)
    requires InvSegments(s.active, s.sealed, s.nextOutput) && InvJob(s.gc, s.sealed, s.nextOutput, s.redirects)
    requires RetireStep(s, f, t) && Final(s, a, r)
    ensures Final(t, a, r)
  {
  }

  lemma CrashFinal(s: State, lost: set<VAddr>, t: State, a: VAddr, r: Payload)
    requires CrashStep(s, lost, t) && Final(s, a, r)
    ensures Final(t, a, r)
  {
  }

  lemma StepFinal(s: State, x: Action, t: State, a: VAddr, r: Payload)
    requires Inv(s) && Next(s, x, t) && Final(s, a, r)
    ensures Final(t, a, r)
  {
    match x
    case Client(c) => ClientFinal(s, c, a, r);
    case Submit(u) => SubmitFinal(s, u, a, r);
    case Coordinate(o) => CoordinatorFinal(s, o, t, a, r);
    case Checkpoint(k) => CheckpointFinal(s, k, a, r);
    case Copy(c) => CopyFinal(s, c, t, a, r);
    case Finish(f) => RetireFinal(s, f, t, a, r);
    case Crash(lost) => CrashFinal(s, lost, t, a, r);
  }

  lemma {:induction false} FinalForGood(states: seq<State>, actions: seq<Action>, m: nat, i: nat, a: VAddr, r: Payload)
    requires Run(states, actions) && m <= i < |states| && Final(states[m], a, r)
    ensures Final(states[i], a, r)
    decreases i - m
  {
    if m < i {
      FinalForGood(states, actions, m, i - 1, a, r);
      NextFinal(states, actions, i - 1, a, r);
    }
  }

  lemma NextFinal(states: seq<State>, actions: seq<Action>, i: nat, a: VAddr, r: Payload)
    requires Run(states, actions) && i < |actions| && Final(states[i], a, r)
    ensures Final(states[i + 1], a, r)
  {
    ReadyToStep(states, actions, i);
    StepFinal(states[i], actions[i], states[i + 1], a, r);
  }

  // ------------------------------------------------------------- where an entry comes from

  predicate Brings(p: Proposal, ref: RecordRef) { exists c <- p.changes :: c.op != Delete && c.newRef == ref }

  /** An entry after the first k proposals was there before, or an accepted one brought it. */
  lemma {:induction false} EntryFrom(t: Table, ps: seq<Proposal>, k: nat, id: ID)
    requires k <= |ps| && id in TableAt(t, ps, k)
    ensures (id in t && t[id] == TableAt(t, ps, k)[id])
            || exists m: nat :: m < k && ResolveAll(t, ps)[m].accepted && Brings(ps[m], TableAt(t, ps, k)[id])
    decreases k
  {
    if k > 0 {
      var before, ref := TableAt(t, ps, k - 1), TableAt(t, ps, k)[id];
      NextTable(t, ps, k - 1);
      ResolvedThere(t, ps, k - 1);
      if id in before && before[id] == ref {
        EntryFrom(t, ps, k - 1, id);
      } else {
        ChangeBrings(before, ps[k - 1], id);
      }
    }
  }

  lemma ChangeBrings(t: Table, p: Proposal, id: ID)
    requires var t2 := Publish(t, Resolve(t, p)); id in t2 && !(id in t && t[id] == t2[id])
    ensures Resolve(t, p).accepted && Brings(p, Publish(t, Resolve(t, p))[id])
  {
    var ok := iset x: (ID, RecordRef) | (x.0 in t && t[x.0] == x.1) || Brings(p, x.1);
    StoreReplay.ChangesWithin(p.kind, t, p.changes, ok);
    assert (id, Publish(t, Resolve(t, p))[id]) in ok;
  }

  lemma {:induction false} DurableHas(ps: seq<Proposal>, rs: seq<ResolvedProposal>, m: nat)
    requires |ps| == |rs| && m < |ps| && rs[m].accepted
    ensures ps[m].(conditions := []) in Durable(ps, rs)
    decreases m
  {
    if m > 0 { DurableHas(ps[1..], rs[1..], m - 1); }
  }

  /** Whatever a group finds in the mapping is there for good. */
  lemma FinalThere(s: State, k: nat, id: ID)
    requires Inv(s) && s.inflight > 0 && k <= |Members(s.queue, s.inflight)| && id in Before(s, s.inflight, k)
    ensures var a := Before(s, s.inflight, k)[id].addr; a in s.records && Final(s, a, s.records[a])
  {
    var ps, ref := Bodies(s.queue, s.inflight, s.redirects), Before(s, s.inflight, k)[id];
    EntryFrom(s.table, ps, k, id);
    if id in s.table && s.table[id] == ref {
      EntryIsNamed(s, id);
      HomeIsSettled(s, ref.addr);
    } else {
      var m: nat :| m < k && ResolveAll(s.table, ps)[m].accepted && Brings(ps[m], ref);
      BroughtIsNamed(s, m, ref);
      HomeIsSettled(s, ref.addr);
    }
  }

  lemma EntryIsNamed(s: State, id: ID)
    requires InvStorage(s) && id in s.table
    ensures Named(s.log, s.table[id].addr) && s.table[id].addr in s.records
    ensures SegmentOf(s.table[id].addr) in Homes(s.sealed, s.active)
  {
    var published := s.log[..Published(s.log, s.inflight)];
    assert Good(s.records, Homes(s.sealed, s.active), id, s.table[id]);
    StoreReplay.ReplayNamed(published, id);
    NamedGrows(published, s.log, s.table[id].addr);
  }

  lemma BroughtIsNamed(s: State, m: nat, ref: RecordRef)
    requires Inv(s) && s.inflight > 0 && m < |Bodies(s.queue, s.inflight, s.redirects)|
    requires Plan(s.queue, s.inflight, s.redirects, s.table)[m].accepted
    requires Brings(Bodies(s.queue, s.inflight, s.redirects)[m], ref)
    ensures Named(s.log, ref.addr) && ref.addr in s.records && SegmentOf(ref.addr) in Homes(s.sealed, s.active)
  {
    var ps := Bodies(s.queue, s.inflight, s.redirects);
    var c :| c in ps[m].changes && c.op != Delete && c.newRef == ref;
    StoreGroup.GroupChange(s, s.inflight, ps[m], c);
    DurableHas(ps, Plan(s.queue, s.inflight, s.redirects, s.table), m);
    var e := s.log[|s.log| - 1];
    assert ps[m].(conditions := []) in e.bodies && ref.addr in Names(e);
  }

  lemma HomeIsSettled(s: State, a: VAddr)
    requires InvSegments(s.active, s.sealed, s.nextOutput) && InvAddresses(s.records, s.nextOutput)
    requires InvJob(s.gc, s.sealed, s.nextOutput, s.redirects)
    requires a in s.records && SegmentOf(a) in Homes(s.sealed, s.active) && Named(s.log, a)
    ensures Final(s, a, s.records[a])
  {
  }

  // ------------------------------------------------------------------ superseded updates

  /** The batch's record of the ID was published and is no longer the current one. */
  ghost predicate Superseded(s: State, id: ID, b: BatchID) {
    Logged(Prefix(s), b) && !From(s.records, s.table, id, b)
  }

  lemma GroupKeepsAway(s: State, k: nat, id: ID, b: BatchID)
    requires Inv(s) && T.Tagged(s) && OwnersOnce(s) && s.inflight > 0 && k <= |Members(s.queue, s.inflight)|
    requires Superseded(s, id, b)
    ensures !From(s.records, Before(s, s.inflight, k), id, b)
  {
    var rs := Members(s.queue, s.inflight);
    MembersHonest(s, s.inflight);
    forall m: nat | m < |rs| && rs[m].Commit? ensures rs[m].batch != b { MemberUnlogged(s, m); }
    OthersBring(s.records, s.redirects, s.table, rs, k, id, b);
  }

  lemma OthersBring(records: Records, redirects: Redirects, t: Table, rs: seq<Request>, k: nat, id: ID, b: BatchID)
    requires Honest(records, redirects, t, rs) && k <= |rs| && !From(records, t, id, b)
    requires forall m: nat | m < |rs| && rs[m].Commit? :: rs[m].batch != b
    ensures !From(records, TableAt(t, Sent(rs, redirects), k), id, b)
  {
    if From(records, TableAt(t, Sent(rs, redirects), k), id, b) { OriginThere(records, redirects, t, rs, k, id); }
  }

  lemma SettledTable(s: State)
    requires s.inflight > 0 && GroupAt(s.queue, s.inflight)
    ensures Before(s, s.inflight, |Members(s.queue, s.inflight)|)
            == PublishAll(s.table, Plan(s.queue, s.inflight, s.redirects, s.table))
  {
    AtTheEnd(s.table, Bodies(s.queue, s.inflight, s.redirects));
  }

  lemma StepSuperseded(s: State, x: Action, t: State, id: ID, b: BatchID)
    requires Inv(s) && T.Tagged(s) && OwnersOnce(s) && Next(s, x, t)
    requires Agree(s.records, t.records) && Superseded(s, id, b)
    ensures Superseded(t, id, b)
  {
    TableReadable(s.records, Homes(s.sealed, s.active), s.table);
    if x == Coordinate(PublishGroup) {
      PublishSuperseded(s, t, id, b);
    } else if x.Crash? {
      CrashSuperseded(s, x.lost, t, id, b);
    } else {
      StepSilent(s, x);
      PrefixGrows(s, x, t);
      LoggedGrows(Prefix(s), Prefix(t), b);
    }
  }

  lemma PublishSuperseded(s: State, t: State, id: ID, b: BatchID)
    requires Inv(s) && T.Tagged(s) && OwnersOnce(s) && Superseded(s, id, b)
    requires CoordinatorStep(s, PublishGroup, t)
    ensures Superseded(t, id, b)
  {
    GroupKeepsAway(s, |Members(s.queue, s.inflight)|, id, b);
    SettledTable(s);
    LoggedGrows(Prefix(s), Prefix(t), b);
  }

  lemma CrashSuperseded(s: State, lost: set<VAddr>, t: State, id: ID, b: BatchID)
    requires Inv(s) && T.Tagged(s) && OwnersOnce(s) && Superseded(s, id, b) && Agree(s.records, t.records)
    requires CrashStep(s, lost, t)
    ensures Superseded(t, id, b)
  {
    StoreCrash.CrashTable(s, lost);
    TableReadable(s.records, Homes(s.sealed, s.active), t.table);
    if s.inflight > 0 {
      GroupKeepsAway(s, |Members(s.queue, s.inflight)|, id, b);
      SettledTable(s);
    }
    LoggedGrows(Prefix(s), Prefix(t), b);
  }

  lemma NextSuperseded(states: seq<State>, actions: seq<Action>, i: nat, id: ID, b: BatchID)
    requires Run(states, actions) && i < |actions| && Superseded(states[i], id, b)
    ensures Superseded(states[i + 1], id, b)
  {
    ReadyToStep(states, actions, i);
    T.EveryStateTagged(states, actions, i);
    EveryStateInv(states, actions, i);
    StepSuperseded(states[i], actions[i], states[i + 1], id, b);
  }

  lemma {:induction false} SupersededForGood(states: seq<State>, actions: seq<Action>, m: nat, i: nat, id: ID,
                                             b: BatchID)
    requires Run(states, actions) && m <= i < |states| && Superseded(states[m], id, b)
    ensures Superseded(states[i], id, b)
    decreases i - m
  {
    if m < i {
      SupersededForGood(states, actions, m, i - 1, id, b);
      NextSuperseded(states, actions, i - 1, id, b);
    }
  }

  // --------------------------------------------------------------------- compare and set

  /** A commit that wrote an ID supersedes whatever it found there. */
  lemma FoundIsSuperseded(s: State, t: State, k: nat, id: ID, b: BatchID)
    requires Inv(s) && T.Tagged(s) && OwnersOnce(s) && OriginsLogged(s.records, s.table, Prefix(s))
    requires CoordinatorStep(s, PublishGroup, t)
    requires k < |Members(s.queue, s.inflight)| && From(s.records, Before(s, s.inflight, k), id, b)
    requires var r := Members(s.queue, s.inflight)[k];
             r.Commit? && Plan(s.queue, s.inflight, s.redirects, s.table)[k].accepted && id in ChangeIDs(r.body)
    ensures Superseded(t, id, b)
  {
    var rs := Members(s.queue, s.inflight);
    MembersHonest(s, s.inflight);
    GroupIsNew(s);
    FoundIsOlder(s.records, s.redirects, s.table, rs, k, id, b);
    SettledTable(s);
    FoundIsLogged(s, k, id, b);
    assert t.log[..|t.log|] == t.log;
  }

  lemma FoundIsOlder(records: Records, redirects: Redirects, t: Table, rs: seq<Request>, k: nat, id: ID, b: BatchID)
    requires Honest(records, redirects, t, rs) && Newcomers(records, t, rs) && k < |rs| && rs[k].Commit?
    requires ResolveAll(t, Sent(rs, redirects))[k].accepted && id in ChangeIDs(rs[k].body)
    requires From(records, TableAt(t, Sent(rs, redirects), k), id, b)
    ensures !From(records, TableAt(t, Sent(rs, redirects), |rs|), id, b)
  {
    var ps := Sent(rs, redirects);
    OriginThere(records, redirects, t, rs, k, id);
    if From(records, TableAt(t, ps, |rs|), id, b) {
      OriginSince(records, redirects, t, rs, k, |rs|, id);
      var m: nat :| k <= m < |rs| && rs[m].Commit? && From(records, TableAt(t, ps, |rs|), id, rs[m].batch);
      assert SameOrigin(records, t, TableAt(t, ps, k), id) ==> From(records, t, id, rs[m].batch);
    }
  }

  lemma FoundIsLogged(s: State, k: nat, id: ID, b: BatchID)
    requires Inv(s) && T.Tagged(s) && s.inflight > 0 && OriginsLogged(s.records, s.table, Prefix(s))
    requires k <= |Members(s.queue, s.inflight)| && From(s.records, Before(s, s.inflight, k), id, b)
    ensures Logged(s.log, b)
  {
    var rs := Members(s.queue, s.inflight);
    MembersHonest(s, s.inflight);
    OriginThere(s.records, s.redirects, s.table, rs, k, id);
    if SameOrigin(s.records, s.table, Before(s, s.inflight, k), id) {
      LoggedGrows(Prefix(s), s.log, b);
    } else {
      var m: nat :| m < k && rs[m].Commit? && Plan(s.queue, s.inflight, s.redirects, s.table)[m].accepted
                    && From(s.records, Before(s, s.inflight, k), id, rs[m].batch);
      assert rs[m].batch in s.log[|s.log| - 1].owners && s.log[|s.log| - 1] in s.log;
    }
  }

  /** A commit that was told to expect an ID at an address. */
  ghost predicate Compares(states: seq<State>, actions: seq<Action>, j: nat, k: nat, id: ID, a: VAddr) {
    && PublishesAt(states, actions, j) && HasCommit(states[j], k)
    && Expected(actions[..j], BatchAt(states[j], k), id, a) && a != 0
  }

  /** It is published. */
  ghost predicate Succeeds(states: seq<State>, j: nat, k: nat) {
    j + 1 < |states| && HasCommit(states[j], k) && HasBatch(states[j + 1].batches, BatchAt(states[j], k), Committed)
  }

  /** What a successful one that writes the ID finds and leaves. */
  lemma FirstSucceeds(states: seq<State>, actions: seq<Action>, j: nat, k: nat, id: ID, a: VAddr) returns (r: Payload)
    requires Compares(states, actions, j, k, id, a) && Succeeds(states, j, k)
    requires id in Wrote(actions[..j], BatchAt(states[j], k))
    ensures Final(states[j], a, r) && Superseded(states[j + 1], id, r.origin)
  {
    AcceptedExactlyAsExpected(states, actions, j, k);
    OnlyCommittedIsVisible(states, actions, j);
    EveryStateFollowed(states, actions, j);
    T.EveryStateTagged(states, actions, j);
    ReadyToStep(states, actions, j);
    EveryStateInv(states, actions, j);
    var s := states[j];
    FinalThere(s, k, id);
    r := s.records[a];
    MemberQueued(s.queue, s.inflight, k);
    BodyTells(s, actions[..j], Members(s.queue, s.inflight)[k]);
    FoundIsSuperseded(s, states[j + 1], k, id, r.origin);
  }

  /** No lost update: of all commits of a run that were told to expect the same address of an ID,
      none succeeds in a later group than one that wrote the ID. */
  lemma OnlyOneEverSucceeds(states: seq<State>, actions: seq<Action>, j1: nat, k1: nat, j2: nat, k2: nat, id: ID,
                            a: VAddr)
    requires Compares(states, actions, j1, k1, id, a) && Compares(states, actions, j2, k2, id, a) && j1 < j2
    requires Succeeds(states, j1, k1) && id in Wrote(actions[..j1], BatchAt(states[j1], k1))
    ensures !Succeeds(states, j2, k2)
  {
    var r := FirstSucceeds(states, actions, j1, k1, id, a);
    FinalForGood(states, actions, j1, j2, a, r);
    SupersededForGood(states, actions, j1 + 1, j2, id, r.origin);
    SecondFails(states, actions, j2, k2, id, a, r);
  }

  lemma SecondFails(states: seq<State>, actions: seq<Action>, j: nat, k: nat, id: ID, a: VAddr, r: Payload)
    requires Compares(states, actions, j, k, id, a)
    requires Final(states[j], a, r) && Superseded(states[j], id, r.origin)
    ensures !Succeeds(states, j, k)
  {
    AcceptedExactlyAsExpected(states, actions, j, k);
    T.EveryStateTagged(states, actions, j);
    ReadyToStep(states, actions, j);
    EveryStateInv(states, actions, j);
    NotFoundAgain(states[j], k, id, a, r);
  }

  /** Nor does one that stands behind it in the same group. */
  lemma OnlyOneSucceeds(states: seq<State>, actions: seq<Action>, j: nat, k1: nat, k2: nat, id: ID, a: VAddr)
    requires Compares(states, actions, j, k1, id, a) && Compares(states, actions, j, k2, id, a) && k1 < k2
    requires Succeeds(states, j, k1) && id in Wrote(actions[..j], BatchAt(states[j], k1))
    ensures !Succeeds(states, j, k2)
  {
    AcceptedExactlyAsExpected(states, actions, j, k1);
    AcceptedExactlyAsExpected(states, actions, j, k2);
    OnlyCommittedIsVisible(states, actions, j);
    EveryStateFollowed(states, actions, j);
    T.EveryStateTagged(states, actions, j);
    EveryStateInv(states, actions, j);
    NotTwice(states[j], actions[..j], k1, k2, id, a);
  }

  lemma NotTwice(s: State, actions: seq<Action>, k1: nat, k2: nat, id: ID, a: VAddr)
    requires Sound(s) && T.Tagged(s) && Followed(s, actions) && OriginsLogged(s.records, s.table, Prefix(s))
    requires s.inflight > 0 && k1 < k2 && HasCommit(s, k1) && HasCommit(s, k2) && a != 0
    requires Plan(s.queue, s.inflight, s.redirects, s.table)[k1].accepted && id in Wrote(actions, BatchAt(s, k1))
    requires Matches(Before(s, s.inflight, k1), id, a)
    ensures !Matches(Before(s, s.inflight, k2), id, a)
  {
    MemberQueued(s.queue, s.inflight, k1);
    BodyTells(s, actions, Members(s.queue, s.inflight)[k1]);
    MembersHonest(s, s.inflight);
    GroupIsNew(s);
    NeverBack(s.records, s.redirects, s.table, Members(s.queue, s.inflight), k1, k2, id, a);
  }

  lemma NotFoundAgain(s: State, k: nat, id: ID, a: VAddr, r: Payload)
    requires Inv(s) && T.Tagged(s) && OwnersOnce(s) && s.inflight > 0 && k <= |Members(s.queue, s.inflight)|
    requires Final(s, a, r) && Superseded(s, id, r.origin) && a != 0
    ensures !Matches(Before(s, s.inflight, k), id, a)
  {
    if Matches(Before(s, s.inflight, k), id, a) {
      FinalThere(s, k, id);
      GroupKeepsAway(s, k, id, r.origin);
    }
  }
}
