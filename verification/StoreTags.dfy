/** What descriptors say of their proposals (internal/transaction/batch.go,
    internal/coordinator/coordinator.go): the batch that wrote the Puts and the bytes of their
    values stay right through redirection, compaction and recovery. */
module StoreTags {
  import opened RecordLog
  import opened Mapping
  import opened StoreState
  import opened StoreInvariant
  import opened StoreGroup
  import opened StoreTheorems
  import V = StoreValues

  /** The Puts of a batch are its own. */
  predicate Own(records: Records, b: BatchID, puts: map<ID, Option<RecordRef>>) {
    forall id <- puts :: puts[id].Some? ==> OwnAt(records, b, puts[id].value.addr)
  }

  predicate OwnAt(records: Records, b: BatchID, a: VAddr) { a in records ==> records[a].origin == b }

  predicate Costs(records: Records, body: Proposal, held: Ticket) {
    held.bytes == PayloadBytes(records, body.changes)
  }

  predicate TrueBatch(records: Records, b: BatchID, batch: Batch) {
    && (IsPending(batch.state) ==> Own(records, b, batch.puts))
    && (batch.state.Prepared? ==> Costs(records, batch.state.body, batch.state.held))
  }

  predicate TrueBatches(records: Records, batches: Batches) { forall b <- batches :: TrueBatch(records, b, batches[b]) }

  predicate TrueRequest(records: Records, r: Request) { IsGroup(r) ==> Costs(records, r.body, r.held) }

  predicate TrueQueue(records: Records, queue: seq<Request>) { forall r <- queue :: TrueRequest(records, r) }

  predicate TrueJob(records: Records, gc: Gc) {
    gc.Job? && gc.transfer.Staged? ==> Costs(records, gc.transfer.body, gc.transfer.held)
  }

  /** What replay compares: the origin of every Put with the batch, the values with the sum. */
  predicate TrueTag(records: Records, p: Proposal, tag: Tag) {
    && tag.bytes == PayloadBytes(records, p.changes)
    && forall c <- p.changes :: c.op == Put && c.newRef.addr in records ==>
         tag.owner == Some(records[c.newRef.addr].origin)
  }

  predicate TrueNote(records: Records, e: Entry, note: Note) {
    e.Group? ==>
      |note.tags| == |e.bodies| && forall j :: 0 <= j < |e.bodies| ==> TrueTag(records, e.bodies[j], note.tags[j])
  }

  ghost predicate TrueLog(records: Records, log: seq<Entry>, notes: seq<Note>, from: nat) {
    |notes| == |log| && forall k :: from <= k < |log| ==> TrueNote(records, log[k], notes[k])
  }

  ghost predicate Tagged(s: State) {
    && TrueBatches(s.records, s.batches) && TrueQueue(s.records, s.queue) && TrueJob(s.records, s.gc)
    && TrueLog(s.records, s.log, s.notes, s.replay.index)
  }

  // --------------------------------------------------------------- records come and go

  /** What the changes name is there before and after, unchanged. */
  predicate Kept(r: Records, r2: Records, cs: seq<Change>) {
    forall c <- cs :: c.op != Delete ==> KeptAt(r, r2, c.newRef.addr)
  }

  predicate KeptAt(r: Records, r2: Records, a: VAddr) { a in r && a in r2 && r2[a] == r[a] }

  lemma {:induction false} BytesKept(r: Records, r2: Records, cs: seq<Change>)
    requires Kept(r, r2, cs)
    ensures PayloadBytes(r2, cs) == PayloadBytes(r, cs)
  {
    if cs != [] {
      assert cs[0] in cs && forall c <- cs[1..] :: c in cs;
      BytesKept(r, r2, cs[1..]);
    }
  }

  lemma OwnKept(r: Records, homes: set<SegmentID>, r2: Records, b: BatchID, puts: map<ID, Option<RecordRef>>)
    requires GoodPuts(r, homes, puts) && Agree(r, r2) && Own(r, b, puts)
    ensures Own(r2, b, puts)
  {
    forall id <- puts | puts[id].Some? ensures OwnAt(r2, b, puts[id].value.addr) {
      assert Good(r, homes, id, puts[id].value) && OwnAt(r, b, puts[id].value.addr);
    }
  }

  lemma BodyKept(r: Records, homes: set<SegmentID>, r2: Records, homes2: set<SegmentID>, body: Proposal,
                 puts: map<ID, Option<RecordRef>>)
    requires GoodPuts(r, homes, puts) && GoodPuts(r2, homes2, puts) && Agree(r, r2) && BodyOf(body, puts)
    ensures Kept(r, r2, body.changes)
  {
    forall c <- body.changes | c.op != Delete ensures KeptAt(r, r2, c.newRef.addr) {
      assert Good(r, homes, c.id, c.newRef) && Good(r2, homes2, c.id, c.newRef);
    }
  }

  lemma BatchKept(s: State, t: State, b: BatchID, batch: Batch)
    requires BatchOk(s.records, Homes(s.sealed, s.active), s.delta, batch)
    requires BatchOk(t.records, Homes(t.sealed, t.active), t.delta, batch)
    requires Agree(s.records, t.records) && TrueBatch(s.records, b, batch)
    ensures TrueBatch(t.records, b, batch)
  {
    var homes := Homes(s.sealed, s.active);
    if IsPending(batch.state) { OwnKept(s.records, homes, t.records, b, batch.puts); }
    if batch.state.Prepared? {
      BodyKept(s.records, homes, t.records, Homes(t.sealed, t.active), batch.state.body, batch.puts);
      BytesKept(s.records, t.records, batch.state.body.changes);
    }
  }

  lemma MovesKept(s: State, t: State, body: Proposal)
    requires s.gc.Job? && t.gc.Job? && Agree(s.records, t.records)
    requires GoodMoves(s.gc.work, s.records, Homes(s.sealed, s.active), body)
    requires GoodMoves(t.gc.work, t.records, Homes(t.sealed, t.active), body)
    ensures PayloadBytes(t.records, body.changes) == PayloadBytes(s.records, body.changes)
  {
    forall c <- body.changes ensures KeptAt(s.records, t.records, c.newRef.addr) {
      assert GoodMove(s.gc.work, s.records, Homes(s.sealed, s.active), c);
      assert GoodMove(t.gc.work, t.records, Homes(t.sealed, t.active), c);
    }
    BytesKept(s.records, t.records, body.changes);
  }

  lemma RequestKept(s: State, t: State, r: Request)
    requires InvProtocol(s) && InvProtocol(t) && Agree(s.records, t.records) && r in s.queue && r in t.queue
    requires TrueRequest(s.records, r)
    ensures TrueRequest(t.records, r)
  {
    if r.Commit? {
      assert CommitBacked(s.batches, s.delta, r.batch, r.body, r.held);
      assert CommitBacked(t.batches, t.delta, r.batch, r.body, r.held);
      CommitKept(s, t, r);
    } else if r.Move? {
      assert MoveBacked(s.gc, s.records, Homes(s.sealed, s.active), s.delta, r.body, r.held);
      assert MoveBacked(t.gc, t.records, Homes(t.sealed, t.active), t.delta, r.body, r.held);
      MovesKept(s, t, r.body);
    }
  }

  lemma CommitKept(s: State, t: State, r: Request)
    requires InvBatches(s.records, Homes(s.sealed, s.active), s.delta, s.batches)
    requires InvBatches(t.records, Homes(t.sealed, t.active), t.delta, t.batches)
    requires Agree(s.records, t.records) && r.Commit?
    requires HasBatch(s.batches, r.batch, Queued) && BodyOf(r.body, s.batches[r.batch].puts)
    requires HasBatch(t.batches, r.batch, Queued) && BodyOf(r.body, t.batches[r.batch].puts)
    ensures PayloadBytes(t.records, r.body.changes) == PayloadBytes(s.records, r.body.changes)
  {
    assert BatchOk(s.records, Homes(s.sealed, s.active), s.delta, s.batches[r.batch]);
    assert BatchOk(t.records, Homes(t.sealed, t.active), t.delta, t.batches[r.batch]);
    forall c <- r.body.changes | c.op != Delete ensures KeptAt(s.records, t.records, c.newRef.addr) {
      assert Good(s.records, Homes(s.sealed, s.active), c.id, c.newRef);
      assert Good(t.records, Homes(t.sealed, t.active), c.id, c.newRef);
    }
    BytesKept(s.records, t.records, r.body.changes);
  }

  lemma TagKept(r: Records, homes: set<SegmentID>, r2: Records, homes2: set<SegmentID>, p: Proposal, tag: Tag)
    requires (forall c <- p.changes :: GoodChange(r, homes, c)) && (forall c <- p.changes :: GoodChange(r2, homes2, c))
    requires Agree(r, r2) && TrueTag(r, p, tag)
    ensures TrueTag(r2, p, tag)
  {
    forall c <- p.changes | c.op != Delete ensures KeptAt(r, r2, c.newRef.addr) {
      assert GoodChange(r, homes, c) && GoodChange(r2, homes2, c);
    }
    BytesKept(r, r2, p.changes);
  }

  lemma NoteKept(r: Records, homes: set<SegmentID>, r2: Records, homes2: set<SegmentID>, e: Entry, note: Note)
    requires GoodEntry(r, homes, e) && GoodEntry(r2, homes2, e) && Agree(r, r2) && TrueNote(r, e, note)
    ensures TrueNote(r2, e, note)
  {
    if e.Group? {
      forall j | 0 <= j < |e.bodies| ensures TrueTag(r2, e.bodies[j], note.tags[j]) {
        assert e.bodies[j] in e.bodies;
        TagKept(r, homes, r2, homes2, e.bodies[j], note.tags[j]);
      }
    }
  }

  // ------------------------------------------------------------------------ every step

  /** A batch is as it was, or its tags are right. */
  predicate BatchGoesOn(records: Records, before: Batches, b: BatchID, batch: Batch) {
    (b in before && before[b] == batch) || TrueBatch(records, b, batch)
  }

  predicate BatchesGoOn(records: Records, before: Batches, batches: Batches) {
    forall b <- batches :: BatchGoesOn(records, before, b, batches[b])
  }

  predicate QueueGoesOn(records: Records, before: seq<Request>, queue: seq<Request>) {
    forall r <- queue :: r in before || TrueRequest(records, r)
  }

  predicate JobGoesOn(records: Records, before: Gc, gc: Gc) {
    gc.Job? && gc.transfer.Staged? ==> (before.Job? && before.transfer == gc.transfer) || TrueJob(records, gc)
  }

  /** Log records are only added, with the right notes. */
  ghost predicate LogGoesOn(s: State, t: State) {
    && s.log <= t.log && s.notes <= t.notes && |t.notes| == |t.log| && s.replay.index <= t.replay.index
    && forall k :: |s.log| <= k < |t.log| ==> TrueNote(t.records, t.log[k], t.notes[k])
  }

  ghost predicate GoesOn(s: State, t: State) {
    && BatchesGoOn(t.records, s.batches, t.batches) && QueueGoesOn(t.records, s.queue, t.queue)
    && JobGoesOn(t.records, s.gc, t.gc) && LogGoesOn(s, t)
  }

  lemma BatchesKept(s: State, t: State)
    requires InvBatches(s.records, Homes(s.sealed, s.active), s.delta, s.batches)
    requires InvBatches(t.records, Homes(t.sealed, t.active), t.delta, t.batches)
    requires Agree(s.records, t.records) && TrueBatches(s.records, s.batches)
    requires BatchesGoOn(t.records, s.batches, t.batches)
    ensures TrueBatches(t.records, t.batches)
  {
    forall b <- t.batches ensures TrueBatch(t.records, b, t.batches[b]) {
      assert BatchGoesOn(t.records, s.batches, b, t.batches[b]);
      assert BatchOk(t.records, Homes(t.sealed, t.active), t.delta, t.batches[b]);
      if b in s.batches && s.batches[b] == t.batches[b] {
        assert BatchOk(s.records, Homes(s.sealed, s.active), s.delta, s.batches[b]);
        assert TrueBatch(s.records, b, s.batches[b]);
        BatchKept(s, t, b, t.batches[b]);
      }
    }
  }

  lemma QueueKept(s: State, t: State)
    requires InvProtocol(s) && InvProtocol(t) && Agree(s.records, t.records) && TrueQueue(s.records, s.queue)
    requires QueueGoesOn(t.records, s.queue, t.queue)
    ensures TrueQueue(t.records, t.queue)
  {
    forall r <- t.queue ensures TrueRequest(t.records, r) {
      if r in s.queue {
        assert TrueRequest(s.records, r);
        RequestKept(s, t, r);
      }
    }
  }

  lemma JobKept(s: State, t: State)
    requires InvMoves(s.gc, s.records, Homes(s.sealed, s.active), s.delta)
    requires InvMoves(t.gc, t.records, Homes(t.sealed, t.active), t.delta)
    requires Agree(s.records, t.records) && TrueJob(s.records, s.gc) && JobGoesOn(t.records, s.gc, t.gc)
    ensures TrueJob(t.records, t.gc)
  {
    if t.gc.Job? && t.gc.transfer.Staged? && s.gc.Job? && s.gc.transfer == t.gc.transfer {
      MovesKept(s, t, t.gc.transfer.body);
    }
  }

  lemma LogStays(s: State, t: State)
    requires InvEntries(s.records, Homes(s.sealed, s.active), s.log, s.replay.index)
    requires InvEntries(t.records, Homes(t.sealed, t.active), t.log, t.replay.index)
    requires Agree(s.records, t.records) && TrueLog(s.records, s.log, s.notes, s.replay.index) && LogGoesOn(s, t)
    ensures TrueLog(t.records, t.log, t.notes, t.replay.index)
  {
    forall k | t.replay.index <= k < |t.log| ensures TrueNote(t.records, t.log[k], t.notes[k]) {
      if k < |s.log| {
        assert t.log[k] == s.log[k] && t.notes[k] == s.notes[k];
        NoteKept(s.records, Homes(s.sealed, s.active), t.records, Homes(t.sealed, t.active), s.log[k], s.notes[k]);
      }
    }
  }

  lemma TagsKept(s: State, t: State)
    requires Inv(s) && Inv(t) && Tagged(s) && Agree(s.records, t.records) && GoesOn(s, t)
    ensures Tagged(t)
  {
    BatchesKept(s, t);
    QueueKept(s, t);
    JobKept(s, t);
    LogStays(s, t);
  }

  // ---------------------------------------------------------------- clients and Submit

  lemma PutOwn(s: State, b: BatchID, addr: VAddr, payload: Payload)
    requires b in s.batches && Own(s.records, b, s.batches[b].puts) && addr !in s.records && payload.origin == b
    requires GoodPuts(s.records, Homes(s.sealed, s.active), s.batches[b].puts)
    ensures Own(s.records[addr := payload], b, s.batches[b].puts[payload.id := Some(RecordRef(addr, payload.size))])
  {
    OwnKept(s.records, Homes(s.sealed, s.active), s.records[addr := payload], b, s.batches[b].puts);
  }

  lemma ClientGoesOn(s: State, a: ClientOp)
    requires Tagged(s) && InvBatches(s.records, Homes(s.sealed, s.active), s.delta, s.batches) && ClientEnabled(s, a)
    ensures GoesOn(s, ClientAfter(s, a))
  {
    if a.b in s.batches {
      assert TrueBatch(s.records, a.b, s.batches[a.b]);
      assert BatchOk(s.records, Homes(s.sealed, s.active), s.delta, s.batches[a.b]);
    }
    if a.PutRecord? { PutOwn(s, a.b, a.addr, a.payload); }
  }

  lemma SubmitGoesOn(s: State, a: SubmitOp)
    requires Tagged(s) && SubmitEnabled(s, a)
    ensures GoesOn(s, SubmitAfter(s, a))
  {
    assert TrueBatch(s.records, a.b, s.batches[a.b]);
    if a.Enqueue? { EnqueueGoesOn(s, a.b, SubmitAfter(s, a)); } else { BatchTagged(s, a, SubmitAfter(s, a)); }
  }

  lemma EnqueueGoesOn(s: State, b: BatchID, t: State)
    requires |s.notes| == |s.log| && SubmitEnabled(s, Enqueue(b)) && TrueBatch(s.records, b, s.batches[b])
    requires t == SubmitAfter(s, Enqueue(b))
    ensures GoesOn(s, t)
  {
  }

  lemma BatchTagged(s: State, a: SubmitOp, t: State)
    requires |s.notes| == |s.log| && SubmitEnabled(s, a) && !a.Enqueue? && TrueBatch(s.records, a.b, s.batches[a.b])
    requires t == SubmitAfter(s, a)
    ensures GoesOn(s, t)
  {
  }

  // ------------------------------------------------------------------- the coordinator

  lemma CompletedGoOn(records: Records, batches: Batches, owners: set<BatchID>, accepted: set<BatchID>)
    ensures BatchesGoOn(records, batches, Completed(batches, owners, accepted))
  {
  }

  /** The notes and the proposals of a commit record run in step. */
  lemma {:induction false} DurableTagged(ps: seq<Proposal>, rs: seq<Request>, plan: seq<ResolvedProposal>, j: nat)
    returns (i: nat)
    requires |ps| == |rs| == |plan|
    ensures |Tags(rs, plan)| == |Durable(ps, plan)|
    ensures j < |Durable(ps, plan)| ==>
      i < |ps| && Durable(ps, plan)[j] == ps[i].(conditions := []) && Tags(rs, plan)[j] == TagOfRequest(rs[i])
    decreases |ps|
  {
    i := 0;
    if ps != [] {
      var skip := if plan[0].accepted then 1 else 0;
      if j >= skip {
        var k := DurableTagged(ps[1..], rs[1..], plan[1..], j - skip);
        i := k + 1;
      } else {
        var k := DurableTagged(ps[1..], rs[1..], plan[1..], 0);
      }
    }
  }

  lemma {:induction false} RedirectedBytes(records: Records, redirects: Redirects, cs: seq<Change>)
    requires forall c <- cs :: V.FaithfulPut(records, redirects, c)
    ensures PayloadBytes(records, RedirectedChanges(cs, redirects)) == PayloadBytes(records, cs)
  {
    if cs != [] {
      assert V.FaithfulPut(records, redirects, cs[0]) && forall c <- cs[1..] :: c in cs;
      RedirectedBytes(records, redirects, cs[1..]);
      assert RedirectedChanges(cs, redirects)[1..] == RedirectedChanges(cs[1..], redirects);
    }
  }

  lemma CommitTag(s: State, r: Request)
    requires InvProtocol(s) && InvJob(s.gc, s.sealed, s.nextOutput, s.redirects) && InvCopies(s.gc, s.records)
    requires TrueBatches(s.records, s.batches) && r in s.queue && r.Commit? && Costs(s.records, r.body, r.held)
    ensures TrueTag(s.records, SentBody(r, s.redirects), TagOfRequest(r))
  {
    V.CommitFaithful(s, r);
    RedirectedBytes(s.records, s.redirects, r.body.changes);
    forall c <- SentBody(r, s.redirects).changes | c.op == Put && c.newRef.addr in s.records
      ensures s.records[c.newRef.addr].origin == r.batch
    {
      var c0 := Original(s, r, c);
      assert TrueBatch(s.records, r.batch, s.batches[r.batch]) && V.FaithfulPut(s.records, s.redirects, c0);
      assert OwnAt(s.records, r.batch, c0.newRef.addr);
    }
  }

  lemma MoveTag(s: State, r: Request)
    requires InvProtocol(s) && InvJob(s.gc, s.sealed, s.nextOutput, s.redirects)
    requires r in s.queue && r.Move? && Costs(s.records, r.body, r.held)
    ensures TrueTag(s.records, SentBody(r, s.redirects), TagOfRequest(r))
  {
    V.MoveFaithful(s, r);
    forall c <- r.body.changes ensures c.op == Relocate { assert V.FaithfulMove(s.records, c); }
  }

  lemma NewNote(s: State, n: nat, at: u32)
    requires Inv(s) && Tagged(s) && GroupAt(s.queue, n)
    ensures TrueNote(s.records, EntryOf(s.queue, n, s.redirects, s.table),
                     NoteOf(s.queue, n, s.redirects, s.table, s.active, at))
  {
    var rs, ps := Members(s.queue, n), Bodies(s.queue, n, s.redirects);
    var plan := Plan(s.queue, n, s.redirects, s.table);
    var none := DurableTagged(ps, rs, plan, 0);
    forall j | 0 <= j < |Durable(ps, plan)| ensures TrueTag(s.records, Durable(ps, plan)[j], Tags(rs, plan)[j]) {
      var i := DurableTagged(ps, rs, plan, j);
      MemberQueued(s.queue, n, i);
      assert TrueRequest(s.records, rs[i]);
      if rs[i].Commit? { CommitTag(s, rs[i]); } else { MoveTag(s, rs[i]); }
    }
  }

  lemma AppendGoesOn(s: State, n: nat, at: u32, t: State)
    requires Inv(s) && Tagged(s) && CoordinatorStep(s, AppendGroup(n, at), t)
    ensures GoesOn(s, t)
  {
    NewNote(s, n, at);
  }

  /** Requests are answered. */
  lemma AnswersGoOn(s: State, t: State)
    requires |s.notes| == |s.log| && BatchesGoOn(t.records, s.batches, t.batches)
    requires t.log == s.log && t.notes == s.notes && t.replay == s.replay
    requires (forall r <- t.queue :: r in s.queue) && (t.gc == s.gc || (t.gc.Job? && !t.gc.transfer.Staged?))
    ensures GoesOn(s, t)
  {
  }

  lemma RejectGoesOn(s: State, n: nat, t: State)
    requires |s.notes| == |s.log| && CoordinatorStep(s, RejectGroup(n), t)
    ensures GoesOn(s, t)
  {
    CompletedGoOn(s.records, s.batches, Owners(Members(s.queue, n)), {});
    AnswersGoOn(s, t);
  }

  lemma DropGoesOn(s: State, k: nat, t: State)
    requires |s.notes| == |s.log| && CoordinatorStep(s, DropRequest(k), t)
    ensures GoesOn(s, t)
  {
    CompletedGoOn(s.records, s.batches, Owners([s.queue[k]]), {});
    AnswersGoOn(s, t);
  }

  lemma PublishGoesOn(s: State, t: State)
    requires |s.notes| == |s.log| && CoordinatorStep(s, PublishGroup, t)
    ensures GoesOn(s, t)
  {
    CompletedGoOn(s.records, s.batches, Owners(Members(s.queue, s.inflight)),
                  AcceptedOwners(Members(s.queue, s.inflight), Plan(s.queue, s.inflight, s.redirects, s.table)));
    AnswersGoOn(s, t);
  }

  lemma ControlGoesOn(s: State, a: CoordinatorOp, t: State)
    requires |s.notes| == |s.log| && CoordinatorStep(s, a, t)
    requires a.ProcessBarrier? || a.ProcessInstall? || a.ProcessRelease?
    ensures GoesOn(s, t)
  {
  }

  lemma CoordinatorGoesOn(s: State, a: CoordinatorOp, t: State)
    requires Inv(s) && Tagged(s) && CoordinatorStep(s, a, t)
    ensures GoesOn(s, t)
  {
    match a
    case AppendGroup(n, at) => AppendGoesOn(s, n, at, t);
    case DropRequest(k) => DropGoesOn(s, k, t);
    case RejectGroup(n) => RejectGoesOn(s, n, t);
    case PublishGroup => PublishGoesOn(s, t);
    case _ => ControlGoesOn(s, a, t);
  }

  // -------------------------------------------------------- checkpoints and compaction

  lemma CheckpointGoesOn(s: State, a: CheckpointOp)
    requires Inv(s) && Tagged(s) && CheckpointEnabled(s, a)
    ensures GoesOn(s, CheckpointAfter(s, a))
  {
  }

  lemma RewrittenOwn(s: State, b: BatchID)
    requires InvJob(s.gc, s.sealed, s.nextOutput, s.redirects) && InvCopies(s.gc, s.records)
    requires InPhase(s.gc, Rewriting) && b in s.batches && TrueBatch(s.records, b, s.batches[b])
    requires InvBatches(s.records, Homes(s.sealed, s.active), s.delta, s.batches)
    ensures TrueBatch(s.records, b, Rewritten(s.batches[b], s.gc.work.redirects))
  {
    var batch := s.batches[b];
    assert BatchOk(s.records, Homes(s.sealed, s.active), s.delta, batch);
    if IsOpen(batch.state) {
      forall id <- batch.puts | batch.puts[id].Some?
        ensures OwnAt(s.records, b, RedirectedPut(batch.puts[id], s.gc.work.redirects).value.addr)
      {
        var a := batch.puts[id].value.addr;
        assert OwnAt(s.records, b, a) && Good(s.records, Homes(s.sealed, s.active), id, batch.puts[id].value);
        if a in s.redirects { RedirectGood(s, a); }
      }
    }
  }

  /** Batches, requests, relocations in hand and the log are the same. */
  predicate SameTags(s: State, t: State) {
    && t.batches == s.batches && t.log == s.log && t.notes == s.notes && s.replay == t.replay
    && (forall r <- t.queue :: IsGroup(r) ==> r in s.queue)
    && (t.gc.Job? && t.gc.transfer.Staged? ==> s.gc.Job? && s.gc.transfer == t.gc.transfer)
  }

  lemma SameGoesOn(s: State, t: State)
    requires SameTags(s, t) && |s.notes| == |s.log|
    ensures GoesOn(s, t)
  {
  }

  lemma CopyGoesOn(s: State, a: CopyOp)
    requires Inv(s) && Tagged(s) && CopyEnabled(s, a)
    ensures GoesOn(s, CopyAfter(s, a))
  {
    match a
    case CopyRecord(addr, to) => CopiedGoesOn(s, addr, to);
    case InstallOutputs => OutputsGoOn(s);
    case RewriteBatch(b) =>
      if b in s.batches { RewrittenOwn(s, b); }
      RewriteGoesOn(s, b, CopyAfter(s, a));
    case _ => QuietGoesOn(s, a, CopyAfter(s, a));
  }

  lemma CopiedGoesOn(s: State, addr: VAddr, to: VAddr)
    requires |s.notes| == |s.log| && s.gc.Job? && addr in s.records
    ensures GoesOn(s, Copied(s, addr, to))
  {
    SameGoesOn(s, Copied(s, addr, to));
  }

  lemma OutputsGoOn(s: State)
    requires |s.notes| == |s.log| && s.gc.Job?
    ensures GoesOn(s, OutputsInstalled(s))
  {
    SameGoesOn(s, OutputsInstalled(s));
  }

  lemma RewriteGoesOn(s: State, b: BatchID, t: State)
    requires |s.notes| == |s.log| && CopyStep(s, RewriteBatch(b), t)
    requires b in s.batches ==> TrueBatch(s.records, b, Rewritten(s.batches[b], s.gc.work.redirects))
    ensures GoesOn(s, t)
  {
  }

  lemma QuietGoesOn(s: State, a: CopyOp, t: State)
    requires |s.notes| == |s.log| && CopyStep(s, a, t)
    requires !a.CopyRecord? && !a.InstallOutputs? && !a.RewriteBatch?
    ensures GoesOn(s, t)
  {
    assert SameTags(s, t);
    SameGoesOn(s, t);
  }

  lemma RetireGoesOn(s: State, a: RetireOp)
    requires Tagged(s) && RetireEnabled(s, a)
    ensures GoesOn(s, RetireAfter(s, a))
  {
  }

  lemma CrashGoesOn(s: State, lost: set<VAddr>)
    requires Tagged(s)
    ensures GoesOn(s, CrashAfter(s, lost)) && Agree(s.records, CrashAfter(s, lost).records)
  {
  }

  lemma RecordsAgree(s: State, a: Action)
    requires Enabled(s, a)
    ensures Agree(s.records, After(s, a).records)
  {
    if a == Coordinate(PublishGroup) {
      assert CoordinatorAfter(s, PublishGroup).records == s.records;
    } else if a.Crash? {
      CrashAgrees(s, a.lost);
    } else {
      StepSilent(s, a);
    }
  }

  lemma CrashAgrees(s: State, lost: set<VAddr>)
    ensures Agree(s.records, CrashAfter(s, lost).records)
  {
  }

  lemma StepGoesOn(s: State, a: Action, t: State)
    requires Inv(s) && Tagged(s) && Next(s, a, t)
    ensures GoesOn(s, t)
  {
    match a
    case Client(c) => ClientGoesOn(s, c);
    case Submit(u) => SubmitGoesOn(s, u);
    case Coordinate(o) => CoordinatorGoesOn(s, o, t);
    case Checkpoint(k) => CheckpointGoesOn(s, k);
    case Copy(c) => CopyGoesOn(s, c);
    case Finish(f) => RetireGoesOn(s, f);
    case Crash(lost) => CrashGoesOn(s, lost);
  }

  lemma NextTagged(states: seq<State>, actions: seq<Action>, i: nat)
    requires Run(states, actions) && i < |actions| && Tagged(states[i])
    ensures GoesOn(states[i], states[i + 1]) && Agree(states[i].records, states[i + 1].records)
  {
    EveryStateInv(states, actions, i);
    assert StepAt(states, actions, i);
    StepGoesOn(states[i], actions[i], states[i + 1]);
    RecordsAgree(states[i], actions[i]);
  }

  lemma {:induction false} EveryStateTagged(states: seq<State>, actions: seq<Action>, i: nat)
    requires Run(states, actions) && i < |states|
    ensures Tagged(states[i])
  {
    if i > 0 {
      EveryStateTagged(states, actions, i - 1);
      StaysTagged(states, actions, i - 1);
    }
  }

  lemma StaysTagged(states: seq<State>, actions: seq<Action>, i: nat)
    requires Run(states, actions) && i < |actions| && Tagged(states[i])
    ensures Tagged(states[i + 1])
  {
    NextTagged(states, actions, i);
    InvAt(states, actions, i);
    InvAt(states, actions, i + 1);
    TagsKept(states[i], states[i + 1]);
  }

  lemma InvAt(states: seq<State>, actions: seq<Action>, i: nat)
    requires Run(states, actions) && i < |states|
    ensures Inv(states[i])
  {
    EveryStateInv(states, actions, i);
  }
}
