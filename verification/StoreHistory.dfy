/** What clients said in a run, and that on every run a batch that can still commit holds exactly
    that (internal/transaction/batch.go). */
module StoreHistory {
  import opened RecordLog
  import opened Mapping
  import opened StoreState
  import opened StoreInvariant
  import opened StoreGroup
  import opened StoreTheorems
  import T = StoreTags

  type Told = map<ID, Option<seq<u8>>>

  // ------------------------------------------------------------- what a batch was told

  /** Per ID the last value put, or None for the last call being a deletion. */
  function Hears(told: Told, a: Action, b: BatchID): Told {
    match a
    case Client(PutRecord(x, _, payload)) => if x == b then told[payload.id := Some(payload.value)] else told
    case Client(DeleteID(x, id)) => if x == b then told[id := None] else told
    case _ => told
  }

  function Wrote(actions: seq<Action>, b: BatchID): Told
    decreases |actions|
  {
    if actions == [] then map[] else Hears(Wrote(actions[..|actions| - 1], b), actions[|actions| - 1], b)
  }

  /** The batch was told to expect an ID at an address, or nowhere if the address is zero. */
  predicate Expected(actions: seq<Action>, b: BatchID, id: ID, a: VAddr) { Client(Expect(b, id, a)) in actions }

  predicate Matches(t: Table, id: ID, a: VAddr) { if a == 0 then id !in t else id in t && t[id].addr == a }

  // --------------------------------------------------------- what a batch holds of it

  function PutValues(records: Records, puts: map<ID, Option<RecordRef>>): Told {
    map id | id in puts ::
      if puts[id].Some? && puts[id].value.addr in records then Some(records[puts[id].value.addr].value) else None
  }

  ghost predicate Expecting(conditions: map<ID, VAddr>, actions: seq<Action>, b: BatchID) {
    && (forall id <- conditions :: Expected(actions, b, id, conditions[id]))
    && (forall id: ID, a: VAddr | Expected(actions, b, id, a) :: id in conditions && conditions[id] == a)
  }

  ghost predicate Knows(records: Records, batch: Batch, actions: seq<Action>, b: BatchID) {
    PutValues(records, batch.puts) == Wrote(actions, b) && Expecting(batch.conditions, actions, b)
  }

  ghost predicate Unheard(actions: seq<Action>, b: BatchID) {
    Wrote(actions, b) == map[] && forall id: ID, a: VAddr :: !Expected(actions, b, id, a)
  }

  ghost predicate AllKnow(s: State, actions: seq<Action>) {
    && (forall b <- s.batches :: IsPending(s.batches[b].state) ==> Knows(s.records, s.batches[b], actions, b))
    && (forall b: BatchID :: s.issued <= b ==> Unheard(actions, b))
  }

  /** Prepared and queued proposals carry exactly what their batches hold. */
  ghost predicate AllCarried(batches: Batches, queue: seq<Request>) {
    && (forall b <- batches :: batches[b].state.Prepared? ==> Carries(batches[b], batches[b].state.body))
    && (forall r <- queue :: r.Commit? ==> r.batch in batches && Carries(batches[r.batch], r.body))
  }

  ghost predicate Followed(s: State, actions: seq<Action>) { AllKnow(s, actions) && AllCarried(s.batches, s.queue) }

  // ------------------------------------------------------------------- one more action

  lemma OneMore(actions: seq<Action>, a: Action, b: BatchID)
    ensures Wrote(actions + [a], b) == Hears(Wrote(actions, b), a, b)
    ensures forall id: ID, x: VAddr ::
              Expected(actions + [a], b, id, x) <==> Expected(actions, b, id, x) || a == Client(Expect(b, id, x))
  {
    assert (actions + [a])[..|actions|] == actions;
  }

  /** The action says nothing to the batch. */
  predicate Silent(a: Action, b: BatchID) {
    a.Client? ==> !(a.client.PutRecord? || a.client.DeleteID? || a.client.Expect?) || a.client.b != b
  }

  lemma NothingHeard(actions: seq<Action>, a: Action, b: BatchID)
    requires Silent(a, b)
    ensures Wrote(actions + [a], b) == Wrote(actions, b)
    ensures forall id: ID, x: VAddr :: Expected(actions + [a], b, id, x) <==> Expected(actions, b, id, x)
  {
    OneMore(actions, a, b);
  }

  lemma KnowsStill(records: Records, batch: Batch, records2: Records, batch2: Batch, actions: seq<Action>, a: Action,
                   b: BatchID)
    requires Knows(records, batch, actions, b) && Silent(a, b)
    requires batch2.conditions == batch.conditions && PutValues(records2, batch2.puts) == PutValues(records, batch.puts)
    ensures Knows(records2, batch2, actions + [a], b)
  {
    NothingHeard(actions, a, b);
  }

  lemma ValuesStay(r: Records, homes: set<SegmentID>, r2: Records, homes2: set<SegmentID>,
                   puts: map<ID, Option<RecordRef>>)
    requires GoodPuts(r, homes, puts) && GoodPuts(r2, homes2, puts) && Agree(r, r2)
    ensures PutValues(r2, puts) == PutValues(r, puts)
  {
    forall id <- puts ensures PutValues(r2, puts)[id] == PutValues(r, puts)[id] {
      if puts[id].Some? { assert Good(r, homes, id, puts[id].value) && Good(r2, homes2, id, puts[id].value); }
    }
  }

  /** Pending batches are as they were, and no commit was queued. */
  ghost predicate Continues(s: State, t: State) {
    && t.issued == s.issued
    && (forall b <- t.batches :: IsPending(t.batches[b].state) ==> b in s.batches && s.batches[b] == t.batches[b])
    && (forall r <- t.queue :: r.Commit? ==> r in s.queue)
  }

  lemma KnowsOn(s: State, t: State, actions: seq<Action>, a: Action)
    requires InvBatches(s.records, Homes(s.sealed, s.active), s.delta, s.batches)
    requires InvBatches(t.records, Homes(t.sealed, t.active), t.delta, t.batches)
    requires Agree(s.records, t.records) && Continues(s, t) && AllKnow(s, actions) && !a.Client?
    ensures AllKnow(t, actions + [a])
  {
    forall b <- t.batches | IsPending(t.batches[b].state) ensures Knows(t.records, t.batches[b], actions + [a], b) {
      assert BatchOk(s.records, Homes(s.sealed, s.active), s.delta, s.batches[b]);
      assert BatchOk(t.records, Homes(t.sealed, t.active), t.delta, t.batches[b]);
      ValuesStay(s.records, Homes(s.sealed, s.active), t.records, Homes(t.sealed, t.active), t.batches[b].puts);
      KnowsStill(s.records, s.batches[b], t.records, t.batches[b], actions, a, b);
    }
    NewStayUnheard(s.issued, actions, a);
  }

  lemma NewStayUnheard(issued: BatchID, actions: seq<Action>, a: Action)
    requires forall b: BatchID :: issued <= b ==> Unheard(actions, b)
    requires forall b: BatchID :: issued <= b ==> Silent(a, b)
    ensures forall b: BatchID :: issued <= b ==> Unheard(actions + [a], b)
  {
    forall b: BatchID | issued <= b ensures Unheard(actions + [a], b) {
      assert Unheard(actions, b);
      NothingHeard(actions, a, b);
    }
  }

  lemma CarriedOn(s: State, t: State)
    requires InvCommits(t.queue, t.batches, t.delta) && Continues(s, t) && AllCarried(s.batches, s.queue)
    ensures AllCarried(t.batches, t.queue)
  {
    forall r <- t.queue | r.Commit? ensures r.batch in t.batches && Carries(t.batches[r.batch], r.body) {
      assert CommitBacked(t.batches, t.delta, r.batch, r.body, r.held);
    }
  }

  /** Prepared batches and the owners of queued commits are as they were. */
  predicate LeftAlone(batches: Batches, after: Batches, queue: seq<Request>) {
    && (forall b <- after :: after[b].state.Prepared? ==> b in batches && after[b] == batches[b])
    && (forall r <- queue :: r.Commit? ==> r.batch in batches && r.batch in after && after[r.batch] == batches[r.batch])
  }

  lemma CarriedFrame(batches: Batches, queue: seq<Request>, after: Batches, queue2: seq<Request>)
    requires AllCarried(batches, queue) && LeftAlone(batches, after, queue2)
    requires forall r <- queue2 :: r.Commit? ==> r in queue
    ensures AllCarried(after, queue2)
  {
  }

  // ------------------------------------------------------------------ steps of the rest

  /** Answering some batches leaves the pending ones alone. */
  lemma CompletedContinue(batches: Batches, owners: set<BatchID>, accepted: set<BatchID>)
    ensures forall b <- Completed(batches, owners, accepted) ::
              IsPending(Completed(batches, owners, accepted)[b].state) ==>
                b in batches && batches[b] == Completed(batches, owners, accepted)[b]
  {
  }

  lemma AnswersContinue(s: State, a: CoordinatorOp, t: State)
    requires CoordinatorStep(s, a, t)
    requires a.DropRequest? || a.RejectGroup? || a.PublishGroup?
    ensures Continues(s, t)
  {
    match a
    case DropRequest(k) => CompletedContinue(s.batches, Owners([s.queue[k]]), {});
    case RejectGroup(n) => CompletedContinue(s.batches, Owners(Members(s.queue, n)), {});
    case PublishGroup =>
      CompletedContinue(s.batches, Owners(Members(s.queue, s.inflight)),
                        AcceptedOwners(Members(s.queue, s.inflight),
                                       Plan(s.queue, s.inflight, s.redirects, s.table)));
  }

  lemma ControlsContinue(s: State, a: CoordinatorOp, t: State)
    requires CoordinatorStep(s, a, t)
    requires !a.DropRequest? && !a.RejectGroup? && !a.PublishGroup?
    ensures Continues(s, t)
  {
  }

  lemma CoordinatorContinues(s: State, a: CoordinatorOp, t: State)
    requires CoordinatorStep(s, a, t)
    ensures Continues(s, t)
  {
    if a.DropRequest? || a.RejectGroup? || a.PublishGroup? {
      AnswersContinue(s, a, t);
    } else {
      ControlsContinue(s, a, t);
    }
  }

  lemma CheckpointContinues(s: State, a: CheckpointOp)
    requires CheckpointEnabled(s, a)
    ensures Continues(s, CheckpointAfter(s, a))
  {
  }

  lemma RetireContinues(s: State, a: RetireOp)
    requires RetireEnabled(s, a)
    ensures Continues(s, RetireAfter(s, a))
  {
  }

  lemma CopyContinues(s: State, a: CopyOp)
    requires CopyEnabled(s, a) && !a.RewriteBatch?
    ensures Continues(s, CopyAfter(s, a))
  {
    match a
    case CopyRecord(addr, to) => assert Continues(s, Copied(s, addr, to));
    case InstallOutputs => assert Continues(s, OutputsInstalled(s));
    case _ =>
  }

  lemma RestContinues(s: State, a: Action, t: State)
    requires Next(s, a, t) && !a.Client? && !a.Submit? && !(a.Copy? && a.copy.RewriteBatch?)
    ensures Continues(s, t)
  {
    match a
    case Coordinate(o) => CoordinatorContinues(s, o, t);
    case Checkpoint(k) => CheckpointContinues(s, k);
    case Copy(c) => CopyContinues(s, c);
    case Finish(f) => RetireContinues(s, f);
    case Crash(lost) =>
  }

  // ------------------------------------------------------------- one batch is concerned

  /** One batch is changed, and perhaps queued. */
  lemma OneBatch(s: State, t: State, b: BatchID, actions: seq<Action>, a: Action)
    requires AllKnow(s, actions) && t.records == s.records && t.issued == s.issued && Silent(a, b) && !a.Client?
    requires b in s.batches && b in t.batches && t.batches == s.batches[b := t.batches[b]]
    requires IsPending(t.batches[b].state) ==>
      && IsPending(s.batches[b].state) && t.batches[b].conditions == s.batches[b].conditions
      && PutValues(t.records, t.batches[b].puts) == PutValues(s.records, s.batches[b].puts)
    ensures AllKnow(t, actions + [a])
  {
    forall x <- t.batches | IsPending(t.batches[x].state) ensures Knows(t.records, t.batches[x], actions + [a], x) {
      assert x != b ==> t.batches[x] == s.batches[x];
      KnowsStill(s.records, s.batches[x], t.records, t.batches[x], actions, a, x);
    }
    NewStayUnheard(s.issued, actions, a);
  }

  lemma SubmitKnows(s: State, u: SubmitOp, t: State, actions: seq<Action>)
    requires AllKnow(s, actions) && SubmitStep(s, u, t)
    ensures AllKnow(t, actions + [Submit(u)])
  {
    OneBatch(s, t, u.b, actions, Submit(u));
  }

  lemma SubmitCarried(s: State, u: SubmitOp, t: State)
    requires InvCommits(s.queue, s.batches, s.delta) && AllCarried(s.batches, s.queue)
    requires SubmitStep(s, u, t)
    ensures AllCarried(t.batches, t.queue)
  {
    forall r <- s.queue | r.Commit? ensures r.batch in s.batches && r.batch != u.b {
      assert CommitBacked(s.batches, s.delta, r.batch, r.body, r.held);
    }
    var batch := s.batches[u.b];
    match u
    case Prepare(b, body) =>
      OneCarried(s.batches, s.queue, b, batch.(state := Prepared(body, Prepaid(s, batch.state.held, body))));
    case Enqueue(b) =>
      OneCarried(s.batches, s.queue, b, batch.(state := Queued));
      assert Carries(batch.(state := Queued), batch.state.body);
    case _ => OneCarried(s.batches, s.queue, u.b, t.batches[u.b]);
  }

  lemma OneCarried(batches: Batches, queue: seq<Request>, b: BatchID, batch: Batch)
    requires AllCarried(batches, queue) && forall r <- queue :: r.Commit? ==> r.batch in batches && r.batch != b
    requires batch.state.Prepared? ==> Carries(batch, batch.state.body)
    ensures AllCarried(batches[b := batch], queue)
  {
  }

  lemma RewrittenValues(s: State, b: BatchID)
    requires InvJob(s.gc, s.sealed, s.nextOutput, s.redirects) && InvCopies(s.gc, s.records)
    requires InPhase(s.gc, Rewriting) && b in s.batches && IsPending(s.batches[b].state)
    requires InvBatches(s.records, Homes(s.sealed, s.active), s.delta, s.batches)
    ensures PutValues(s.records, Rewritten(s.batches[b], s.gc.work.redirects).puts)
            == PutValues(s.records, s.batches[b].puts)
  {
    var puts := s.batches[b].puts;
    assert BatchOk(s.records, Homes(s.sealed, s.active), s.delta, s.batches[b]);
    forall id <- puts | puts[id].Some? && puts[id].value.addr in s.redirects
      ensures s.redirects[puts[id].value.addr].addr in s.records && puts[id].value.addr in s.records
      ensures s.records[s.redirects[puts[id].value.addr].addr] == s.records[puts[id].value.addr]
    {
      RedirectGood(s, puts[id].value.addr);
    }
  }

  lemma RewriteFollowed(s: State, b: BatchID, t: State, actions: seq<Action>)
    requires Inv(s) && Followed(s, actions) && CopyStep(s, RewriteBatch(b), t)
    ensures Followed(t, actions + [Copy(RewriteBatch(b))])
  {
    var a := Copy(RewriteBatch(b));
    if b in s.batches {
      if IsPending(s.batches[b].state) { RewrittenValues(s, b); }
      OneBatch(s, t, b, actions, a);
      RewriteCarried(s, b, t);
    } else {
      forall x <- t.batches | IsPending(t.batches[x].state) ensures Knows(t.records, t.batches[x], actions + [a], x) {
        KnowsStill(s.records, s.batches[x], t.records, t.batches[x], actions, a, x);
      }
      NewStayUnheard(s.issued, actions, a);
    }
  }

  lemma RewriteCarried(s: State, b: BatchID, t: State)
    requires InvCommits(s.queue, s.batches, s.delta) && AllCarried(s.batches, s.queue)
    requires b in s.batches && CopyStep(s, RewriteBatch(b), t)
    ensures AllCarried(t.batches, t.queue)
  {
    forall r <- t.queue | r.Commit? ensures r.batch in t.batches && t.batches[r.batch] == s.batches[r.batch] {
      assert CommitBacked(s.batches, s.delta, r.batch, r.body, r.held);
    }
    CarriedFrame(s.batches, s.queue, t.batches, t.queue);
  }

  // -------------------------------------------------------------------- calls of clients

  /** The batch that a call is about, unless the batch begins or is gone. */
  lemma CalledKnows(s: State, c: ClientOp, t: State, actions: seq<Action>)
    requires InvBatches(s.records, Homes(s.sealed, s.active), s.delta, s.batches) && AllKnow(s, actions)
    requires ClientStep(s, c, t) && c.b in t.batches && IsPending(t.batches[c.b].state)
    ensures Knows(t.records, t.batches[c.b], actions + [Client(c)], c.b)
  {
    OneMore(actions, Client(c), c.b);
    if c.b in s.batches {
      assert BatchOk(s.records, Homes(s.sealed, s.active), s.delta, s.batches[c.b]);
      assert Knows(s.records, s.batches[c.b], actions, c.b);
    }
    match c
    case Begin(b) => assert Unheard(actions, b);
    case PutRecord(b, addr, payload) => PutKnown(s, b, addr, payload);
    case DeleteID(b, id) => DeleteKnown(s.records, s.batches[b].puts, id);
    case _ =>
  }

  lemma DeleteKnown(records: Records, puts: map<ID, Option<RecordRef>>, id: ID)
    ensures PutValues(records, puts[id := None]) == PutValues(records, puts)[id := None]
  {
  }

  lemma PutKnown(s: State, b: BatchID, addr: VAddr, payload: Payload)
    requires b in s.batches && GoodPuts(s.records, Homes(s.sealed, s.active), s.batches[b].puts) && addr !in s.records
    ensures PutValues(s.records[addr := payload],
                      s.batches[b].puts[payload.id := Some(RecordRef(addr, payload.size))])
            == PutValues(s.records, s.batches[b].puts)[payload.id := Some(payload.value)]
  {
    var puts := s.batches[b].puts;
    forall id <- puts ensures puts[id].Some? ==> puts[id].value.addr in s.records {
      if puts[id].Some? { assert Good(s.records, Homes(s.sealed, s.active), id, puts[id].value); }
    }
  }

  lemma OthersKnow(s: State, c: ClientOp, t: State, actions: seq<Action>, b: BatchID)
    requires InvBatches(s.records, Homes(s.sealed, s.active), s.delta, s.batches) && AllKnow(s, actions)
    requires ClientStep(s, c, t) && b != c.b
    requires b in t.batches && IsPending(t.batches[b].state)
    ensures Knows(t.records, t.batches[b], actions + [Client(c)], b)
  {
    assert BatchOk(s.records, Homes(s.sealed, s.active), s.delta, s.batches[b]);
    if c.PutRecord? { OtherValues(s, c.addr, c.payload, s.batches[b].puts); }
    KnowsStill(s.records, s.batches[b], t.records, t.batches[b], actions, Client(c), b);
  }

  lemma OtherValues(s: State, addr: VAddr, payload: Payload, puts: map<ID, Option<RecordRef>>)
    requires GoodPuts(s.records, Homes(s.sealed, s.active), puts) && addr !in s.records
    ensures PutValues(s.records[addr := payload], puts) == PutValues(s.records, puts)
  {
    forall id <- puts ensures puts[id].Some? ==> puts[id].value.addr in s.records {
      if puts[id].Some? { assert Good(s.records, Homes(s.sealed, s.active), id, puts[id].value); }
    }
  }

  lemma ClientKnows(s: State, c: ClientOp, t: State, actions: seq<Action>)
    requires InvBatches(s.records, Homes(s.sealed, s.active), s.delta, s.batches) && AllKnow(s, actions)
    requires forall b <- s.batches :: b < s.issued
    requires ClientStep(s, c, t)
    ensures AllKnow(t, actions + [Client(c)])
  {
    forall b <- t.batches | IsPending(t.batches[b].state)
      ensures Knows(t.records, t.batches[b], actions + [Client(c)], b)
    {
      if b == c.b { CalledKnows(s, c, t, actions); } else { OthersKnow(s, c, t, actions, b); }
    }
    NewStayUnheard(t.issued, actions, Client(c));
  }

  lemma ClientCarried(s: State, c: ClientOp, t: State)
    requires InvCommits(s.queue, s.batches, s.delta) && AllCarried(s.batches, s.queue)
    requires ClientStep(s, c, t)
    ensures AllCarried(t.batches, t.queue)
  {
    ClientLeaves(s, c, t);
    CarriedFrame(s.batches, s.queue, t.batches, t.queue);
  }

  lemma ClientLeaves(s: State, c: ClientOp, t: State)
    requires InvCommits(s.queue, s.batches, s.delta) && ClientStep(s, c, t)
    ensures LeftAlone(s.batches, t.batches, t.queue) && t.queue == s.queue
  {
    forall r <- t.queue | r.Commit? ensures r.batch in t.batches && t.batches[r.batch] == s.batches[r.batch] {
      assert CommitBacked(s.batches, s.delta, r.batch, r.body, r.held);
    }
  }

  // --------------------------------------------------------------------------- every run

  lemma StepFollowed(s: State, a: Action, t: State, actions: seq<Action>)
    requires Inv(s) && Inv(t) && Next(s, a, t) && Agree(s.records, t.records)
    requires Followed(s, actions) && forall b <- s.batches :: b < s.issued
    ensures Followed(t, actions + [a])
  {
    if a.Client? {
      ClientKnows(s, a.client, t, actions);
      ClientCarried(s, a.client, t);
    } else if a.Submit? {
      SubmitKnows(s, a.submit, t, actions);
      SubmitCarried(s, a.submit, t);
    } else if a.Copy? && a.copy.RewriteBatch? {
      RewriteFollowed(s, a.copy.b, t, actions);
    } else {
      RestContinues(s, a, t);
      KnowsOn(s, t, actions, a);
      CarriedOn(s, t);
    }
  }

  lemma NextFollowed(states: seq<State>, actions: seq<Action>, i: nat)
    requires Run(states, actions) && i < |actions| && Followed(states[i], actions[..i])
    ensures Followed(states[i + 1], actions[..i + 1])
  {
    ReadyToStep(states, actions, i);
    StepFollowed(states[i], actions[i], states[i + 1], actions[..i]);
    assert actions[..i + 1] == actions[..i] + [actions[i]];
  }

  lemma ReadyToStep(states: seq<State>, actions: seq<Action>, i: nat)
    requires Run(states, actions) && i < |actions|
    ensures Inv(states[i]) && Inv(states[i + 1]) && Enabled(states[i], actions[i])
    ensures states[i + 1] == After(states[i], actions[i]) && Agree(states[i].records, states[i + 1].records)
    ensures forall b <- states[i].batches :: b < states[i].issued
  {
    EveryStateInv(states, actions, i);
    T.InvAt(states, actions, i + 1);
    assert StepAt(states, actions, i);
    T.RecordsAgree(states[i], actions[i]);
  }

  /** On every run every pending batch holds exactly what its client told it, and every prepared or
      queued commit carries it. */
  lemma {:induction false} EveryStateFollowed(states: seq<State>, actions: seq<Action>, i: nat)
    requires Run(states, actions) && i < |states|
    ensures Followed(states[i], actions[..i])
  {
    if i > 0 {
      EveryStateFollowed(states, actions, i - 1);
      NextFollowed(states, actions, i - 1);
    } else {
      assert actions[..0] == [];
    }
  }
}
