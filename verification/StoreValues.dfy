/** What a client sees: the store refines a map from IDs to values that only commits change. */
module StoreValues {
  import opened RecordLog
  import opened Mapping
  import opened StoreState
  import opened StoreInvariant
  import opened StoreGroup

  type View = map<ID, seq<u8>>

  /** The value behind every mapping entry. */
  function Values(records: Records, t: Table): View {
    map id | id in t && t[id].addr in records :: records[t[id].addr].value
  }

  predicate Readable(records: Records, t: Table) { forall id <- t :: t[id].addr in records }

  // ------------------------------------------------ the specification of a commit

  function WriteOne(v: View, records: Records, c: Change): View {
    if c.op == Delete then v - {c.id}
    else if c.newRef.addr in records then v[c.id := records[c.newRef.addr].value] else v
  }

  function Write(v: View, records: Records, cs: seq<Change>): View
    decreases |cs|
  {
    if cs == [] then v else Write(WriteOne(v, records, cs[0]), records, cs[1..])
  }

  /** The accepted batches write, in order, the values their Puts were given; relocations and
      rejected batches write nothing. */
  function WriteAll(v: View, records: Records, rs: seq<Request>, plan: seq<ResolvedProposal>): View
    requires |rs| == |plan|
    decreases |rs|
  {
    if rs == [] then v else
      WriteAll(if rs[0].Commit? && plan[0].accepted then Write(v, records, rs[0].body.changes) else v,
               records, rs[1..], plan[1..])
  }

  // ------------------------------------------------------------ one change, one body

  predicate FaithfulPut(records: Records, redirects: Redirects, c: Change) {
    && c.op != Relocate
    && (c.op == Put ==>
          && c.newRef.addr in records
          && (c.newRef.addr in redirects ==>
                redirects[c.newRef.addr].addr in records
                  && records[redirects[c.newRef.addr].addr] == records[c.newRef.addr]))
  }

  predicate FaithfulMove(records: Records, c: Change) {
    && c.op == Relocate && c.newRef.addr in records && c.expectedOld in records
    && records[c.newRef.addr] == records[c.expectedOld]
  }

  predicate Faithful(records: Records, redirects: Redirects, r: Request)
    requires IsGroup(r)
  {
    if r.Commit? then r.body.kind == UserCommit && forall c <- r.body.changes :: FaithfulPut(records, redirects, c)
    else r.body.kind == Relocation && forall c <- r.body.changes :: FaithfulMove(records, c)
  }

  /** A redirected commit writes the value its original Put was given. */
  lemma {:induction false} CommitWrites(records: Records, redirects: Redirects, t: Table, cs: seq<Change>)
    requires Readable(records, t) && forall c <- cs :: FaithfulPut(records, redirects, c)
    ensures var after := EffectAll(t, ResolveChanges(UserCommit, t, RedirectedChanges(cs, redirects)));
            Readable(records, after) && Values(records, after) == Write(Values(records, t), records, cs)
    decreases |cs|
  {
    if cs != [] {
      var next := Effect(t, ResolveChange(UserCommit, t, RedirectedChange(cs[0], redirects)));
      UnfoldSent(redirects, t, cs);
      assert FaithfulPut(records, redirects, cs[0]);
      ChangeWrites(records, redirects, t, cs[0]);
      CommitWrites(records, redirects, next, cs[1..]);
    }
  }

  lemma UnfoldSent(redirects: Redirects, t: Table, cs: seq<Change>)
    requires cs != []
    ensures var next := Effect(t, ResolveChange(UserCommit, t, RedirectedChange(cs[0], redirects)));
            EffectAll(t, ResolveChanges(UserCommit, t, RedirectedChanges(cs, redirects)))
            == EffectAll(next, ResolveChanges(UserCommit, next, RedirectedChanges(cs[1..], redirects)))
  {
    var sent := RedirectedChanges(cs, redirects);
    assert sent[1..] == RedirectedChanges(cs[1..], redirects);
    Unfold(UserCommit, t, sent);
  }

  lemma ChangeWrites(records: Records, redirects: Redirects, t: Table, c: Change)
    requires Readable(records, t) && FaithfulPut(records, redirects, c)
    ensures var after := Effect(t, ResolveChange(UserCommit, t, RedirectedChange(c, redirects)));
            Readable(records, after) && Values(records, after) == WriteOne(Values(records, t), records, c)
  {
  }

  /** An applied relocation leaves every value as it was. */
  lemma {:induction false} MoveWritesNothing(records: Records, t: Table, cs: seq<Change>)
    requires Readable(records, t) && forall c <- cs :: FaithfulMove(records, c)
    ensures var after := EffectAll(t, ResolveChanges(Relocation, t, cs));
            Readable(records, after) && Values(records, after) == Values(records, t)
    decreases |cs|
  {
    if cs != [] {
      Unfold(Relocation, t, cs);
      assert FaithfulMove(records, cs[0]);
      var next := Effect(t, ResolveChange(Relocation, t, cs[0]));
      assert Values(records, next) == Values(records, t);
      MoveWritesNothing(records, next, cs[1..]);
    }
  }

  lemma {:induction false} GroupWrites(records: Records, redirects: Redirects, t: Table, rs: seq<Request>)
    requires Readable(records, t) && Groups(rs) && forall r <- rs :: Faithful(records, redirects, r)
    ensures var plan := ResolveAll(t, Sent(rs, redirects));
            && Readable(records, PublishAll(t, plan))
            && Values(records, PublishAll(t, plan)) == WriteAll(Values(records, t), records, rs, plan)
    decreases |rs|
  {
    if rs != [] {
      assert rs[0] in rs;
      HeadWrites(records, redirects, t, rs[0]);
      GroupRest(records, redirects, t, rs, Resolve(t, SentBody(rs[0], redirects)));
    }
  }

  lemma HeadWrites(records: Records, redirects: Redirects, t: Table, q: Request)
    requires Readable(records, t) && IsGroup(q) && Faithful(records, redirects, q)
    ensures var r := Resolve(t, SentBody(q, redirects));
            && Readable(records, Publish(t, r))
            && Values(records, Publish(t, r)) ==
               if q.Commit? && r.accepted then Write(Values(records, t), records, q.body.changes)
               else Values(records, t)
  {
    if q.Commit? {
      CommitWrites(records, redirects, t, q.body.changes);
    } else {
      MoveWritesNothing(records, t, q.body.changes);
    }
  }

  lemma GroupRest(records: Records, redirects: Redirects, t: Table, rs: seq<Request>, r: ResolvedProposal)
    requires rs != [] && Groups(rs) && (forall q <- rs :: Faithful(records, redirects, q)) && IsGroup(rs[0])
    requires r == Resolve(t, SentBody(rs[0], redirects)) && Readable(records, Publish(t, r))
    requires Values(records, Publish(t, r)) ==
      if rs[0].Commit? && r.accepted then Write(Values(records, t), records, rs[0].body.changes) else Values(records, t)
    ensures var plan := ResolveAll(t, Sent(rs, redirects));
            && Readable(records, PublishAll(t, plan))
            && Values(records, PublishAll(t, plan)) == WriteAll(Values(records, t), records, rs, plan)
    decreases |rs|, 0
  {
    var ps := Sent(rs, redirects);
    assert ps[1..] == Sent(rs[1..], redirects);
    assert ResolveAll(t, ps)[1..] == ResolveAll(Publish(t, r), ps[1..]);
    if |rs| > 1 {
      GroupWrites(records, redirects, Publish(t, r), rs[1..]);
    } else {
      assert rs[1..] == [];
    }
  }

  // ---------------------------------------------------------------- in the store

  lemma MembersFaithful(s: State, n: nat)
    requires Inv(s) && GroupAt(s.queue, n)
    ensures forall r <- Members(s.queue, n) :: Faithful(s.records, s.redirects, r)
    ensures Readable(s.records, s.table)
  {
    OnlyKeeps(s.queue[..n], true);
    OnlyKeeps(s.queue[..n], false);
    forall r <- Members(s.queue, n) ensures Faithful(s.records, s.redirects, r) {
      assert r in s.queue;
      if r.Commit? { CommitFaithful(s, r); } else { MoveFaithful(s, r); }
    }
    forall id <- s.table ensures s.table[id].addr in s.records {
      assert Good(s.records, Homes(s.sealed, s.active), id, s.table[id]);
    }
  }

  lemma CommitFaithful(s: State, r: Request)
    requires InvProtocol(s) && InvJob(s.gc, s.sealed, s.nextOutput, s.redirects) && InvCopies(s.gc, s.records)
    requires r in s.queue && r.Commit?
    ensures Faithful(s.records, s.redirects, r)
  {
    assert CommitBacked(s.batches, s.delta, r.batch, r.body, r.held);
    forall c <- r.body.changes ensures FaithfulPut(s.records, s.redirects, c) {
      if c.op == Put {
        assert BatchOk(s.records, Homes(s.sealed, s.active), s.delta, s.batches[r.batch]);
        if c.newRef.addr in s.redirects { RedirectGood(s, c.newRef.addr); }
      }
    }
  }

  lemma MoveFaithful(s: State, r: Request)
    requires InvProtocol(s) && InvJob(s.gc, s.sealed, s.nextOutput, s.redirects) && r in s.queue && r.Move?
    ensures Faithful(s.records, s.redirects, r)
  {
    assert MoveBacked(s.gc, s.records, Homes(s.sealed, s.active), s.delta, r.body, r.held);
    forall c <- r.body.changes ensures FaithfulMove(s.records, c) { MoveChange(s, r, c); }
  }

  lemma PublishWrites(s: State)
    requires Inv(s) && s.inflight > 0
    ensures var plan := Plan(s.queue, s.inflight, s.redirects, s.table);
            Values(s.records, PublishAll(s.table, plan))
            == WriteAll(Values(s.records, s.table), s.records, Members(s.queue, s.inflight), plan)
  {
    MembersFaithful(s, s.inflight);
    GroupWrites(s.records, s.redirects, s.table, Members(s.queue, s.inflight));
  }
}
