/** What the proposals of one commit group carry, after redirection. */
module StoreGroup {
  import opened RecordLog
  import opened Mapping
  import opened StoreState
  import opened StoreInvariant
  import opened StoreReplay

  /** The redirect target of an unpublished Put is a record with the same payload. */
  lemma RedirectGood(s: State, a: VAddr)
    requires InvJob(s.gc, s.sealed, s.nextOutput, s.redirects) && InvCopies(s.gc, s.records) && a in s.redirects
    ensures s.gc.Job? && a in s.records && s.redirects[a].addr in s.records
    ensures s.records[s.redirects[a].addr] == s.records[a] && s.redirects[a].size == s.records[a].size
    ensures SegmentOf(s.redirects[a].addr) in s.sealed && SegmentOf(s.redirects[a].addr) !in s.gc.work.inputs
  {
    assert GoodRedirect(s.gc.work, s.records, a);
    assert GoodCopy(s.gc.work, s.records, s.redirects[a].addr);
  }

  /** A queued commit still carries existing records, redirected or not. */
  lemma SentCommitGood(s: State, r: Request, c: Change)
    requires InvBatches(s.records, Homes(s.sealed, s.active), s.delta, s.batches)
    requires InvCommits(s.queue, s.batches, s.delta)
    requires InvJob(s.gc, s.sealed, s.nextOutput, s.redirects) && InvCopies(s.gc, s.records)
    requires r in s.queue && r.Commit? && c in SentBody(r, s.redirects).changes
    ensures c.op != Relocate && GoodChange(s.records, Homes(s.sealed, s.active), c)
  {
    var c0 := Original(s, r, c);
    if c.op == Put && c0.newRef.addr in s.redirects { RedirectGood(s, c0.newRef.addr); }
  }

  lemma Original(s: State, r: Request, c: Change) returns (c0: Change)
    requires InvBatches(s.records, Homes(s.sealed, s.active), s.delta, s.batches)
    requires InvCommits(s.queue, s.batches, s.delta)
    requires r in s.queue && r.Commit? && c in SentBody(r, s.redirects).changes
    ensures c0 in r.body.changes && c == RedirectedChange(c0, s.redirects) && c0.op != Relocate
    ensures c0.op == Put ==>
      && Good(s.records, Homes(s.sealed, s.active), c0.id, c0.newRef)
      && HasBatch(s.batches, r.batch, Queued)
      && c0.id in s.batches[r.batch].puts && s.batches[r.batch].puts[c0.id] == Some(c0.newRef)
  {
    var changes := SentBody(r, s.redirects).changes;
    var i :| 0 <= i < |changes| && changes[i] == c;
    c0 := r.body.changes[i];
    assert CommitBacked(s.batches, s.delta, r.batch, r.body, r.held);
    assert BatchOk(s.records, Homes(s.sealed, s.active), s.delta, s.batches[r.batch]);
  }

  /** The Put addresses inside the inputs that a commit can still publish are in the snapshot,
      and once the redirects are in force there are none. */
  lemma SentCommitInputs(s: State, r: Request, c: Change)
    requires InvBatches(s.records, Homes(s.sealed, s.active), s.delta, s.batches)
    requires InvCommits(s.queue, s.batches, s.delta)
    requires InvCompaction(s) && s.gc.Job?
    requires r in s.queue && r.Commit? && c in SentBody(r, s.redirects).changes
    requires c.op == Put && SegmentOf(c.newRef.addr) in s.gc.work.inputs
    ensures s.gc.phase == Snapshot
            || ((s.gc.phase == Copying || s.gc.phase == Installing) && c.newRef.addr in s.gc.work.refs)
  {
    var c0 := Original(s, r, c);
    if c0.newRef.addr in s.redirects {
      RedirectGood(s, c0.newRef.addr);
    } else {
      StaleCommit(s, r, c0);
    }
  }

  lemma StaleCommit(s: State, r: Request, c: Change)
    requires InvCompaction(s) && s.gc.Job? && r in s.queue && r.Commit? && c in r.body.changes && c.op == Put
    requires HasBatch(s.batches, r.batch, Queued)
    requires c.id in s.batches[r.batch].puts && s.batches[r.batch].puts[c.id] == Some(c.newRef)
    requires SegmentOf(c.newRef.addr) in s.gc.work.inputs && c.newRef.addr !in s.redirects
    ensures s.gc.phase == Snapshot
            || ((s.gc.phase == Copying || s.gc.phase == Installing) && c.newRef.addr in s.gc.work.refs)
  {
    assert CleanBatch(s.gc, r.batch, s.batches[r.batch]);
  }

  /** Every change of the group, with what is known of it. */
  lemma GroupChange(s: State, n: nat, p: Proposal, c: Change)
    requires Inv(s) && GroupAt(s.queue, n) && p in Bodies(s.queue, n, s.redirects) && c in p.changes
    ensures GoodChange(s.records, Homes(s.sealed, s.active), c)
    ensures p.kind == UserCommit
            || (s.gc.Job? && s.gc.phase == Publishing && GoodMove(s.gc.work, s.records, Homes(s.sealed, s.active), c))
    ensures p.kind == UserCommit ==> c.op != Relocate
    ensures s.gc.Job? && c.op == Put && SegmentOf(c.newRef.addr) in s.gc.work.inputs ==>
      s.gc.phase == Snapshot || ((s.gc.phase == Copying || s.gc.phase == Installing) && c.newRef.addr in s.gc.work.refs)
  {
    var r := BodyFrom(s.queue, n, s.redirects, p);
    if r.Commit? {
      SentCommitGood(s, r, c);
      assert CommitBacked(s.batches, s.delta, r.batch, r.body, r.held);
      if s.gc.Job? && c.op == Put && SegmentOf(c.newRef.addr) in s.gc.work.inputs { SentCommitInputs(s, r, c); }
    } else {
      MoveChange(s, r, c);
    }
  }

  lemma MoveChange(s: State, r: Request, c: Change)
    requires InvQueuedMoves(s.queue, s.gc, s.records, Homes(s.sealed, s.active), s.delta)
    requires InvJob(s.gc, s.sealed, s.nextOutput, s.redirects)
    requires r in s.queue && r.Move? && c in r.body.changes
    ensures r.body.kind == Relocation && InPhase(s.gc, Publishing)
    ensures GoodMove(s.gc.work, s.records, Homes(s.sealed, s.active), c)
    ensures GoodChange(s.records, Homes(s.sealed, s.active), c)
  {
    assert MoveBacked(s.gc, s.records, Homes(s.sealed, s.active), s.delta, r.body, r.held);
  }
}
