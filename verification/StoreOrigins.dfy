/** Who wrote what readers find: every mapping entry names a record of a batch whose commit record
    has been published, and an address that a group replaces does not come back within it. */
module StoreOrigins {
  import opened RecordLog
  import opened Mapping
  import opened StoreState
  import opened StoreInvariant
  import opened StoreAccounts
  import opened StoreTheorems
  import opened StoreHistory
  import opened StoreOutcome
  import StoreCrash
  import V = StoreValues
  import T = StoreTags

  // ------------------------------------------------------------------------ one member

  predicate From(records: Records, t: Table, id: ID, b: BatchID) {
    id in t && t[id].addr in records && records[t[id].addr].origin == b
  }

  /** The entry of an ID names the same record or a copy of it. */
  predicate SameOrigin(records: Records, t: Table, t2: Table, id: ID) {
    id in t2 ==> id in t && t[id].addr in records && t2[id].addr in records
                 && records[t2[id].addr].origin == records[t[id].addr].origin
  }

  /** A commit's Puts are its own records, redirected or not. */
  predicate OwnPuts(records: Records, redirects: Redirects, r: Request)
    requires r.Commit?
  {
    && V.Faithful(records, redirects, r)
    && forall c <- r.body.changes ::
         c.op == Put ==> c.newRef.addr in records && records[c.newRef.addr].origin == r.batch
  }

  /** Changing IDs: those changed carry the batch, the others are untouched. */
  lemma {:induction false} ChangesFrom(records: Records, redirects: Redirects, t: Table, cs: seq<Change>, b: BatchID,
                                       id: ID)
    requires forall c <- cs :: V.FaithfulPut(records, redirects, c)
    requires forall c <- cs :: c.op == Put ==> c.newRef.addr in records && records[c.newRef.addr].origin == b
    ensures var t2 := EffectAll(t, ResolveChanges(UserCommit, t, RedirectedChanges(cs, redirects)));
            if exists c <- cs :: c.id == id then id in t2 ==> From(records, t2, id, b)
            else (id in t2 <==> id in t) && (id in t ==> t2[id] == t[id])
    decreases |cs|
  {
    if cs != [] {
      var next := Effect(t, ResolveChange(UserCommit, t, RedirectedChange(cs[0], redirects)));
      V.UnfoldSent(redirects, t, cs);
      assert V.FaithfulPut(records, redirects, cs[0]) && cs[0] in cs;
      assert forall c <- cs[1..] :: c in cs;
      ChangesFrom(records, redirects, next, cs[1..], b, id);
      assert (exists c <- cs :: c.id == id) <==> cs[0].id == id || exists c <- cs[1..] :: c.id == id by {
        if c :| c in cs && c.id == id { assert c == cs[0] || c in cs[1..]; }
      }
    }
  }

  lemma {:induction false} MovesFrom(records: Records, t: Table, cs: seq<Change>, id: ID)
    requires V.Readable(records, t) && forall c <- cs :: V.FaithfulMove(records, c)
    ensures var t2 := EffectAll(t, ResolveChanges(Relocation, t, cs));
            V.Readable(records, t2) && SameOrigin(records, t, t2, id)
    decreases |cs|
  {
    if cs != [] {
      Unfold(Relocation, t, cs);
      assert V.FaithfulMove(records, cs[0]) && forall c <- cs[1..] :: c in cs;
      MovesFrom(records, Effect(t, ResolveChange(Relocation, t, cs[0])), cs[1..], id);
    }
  }

  /** After one member an ID is the member's own, or where it came from before. */
  lemma MemberFrom(records: Records, redirects: Redirects, t: Table, r: Request, id: ID)
    requires IsGroup(r) && V.Readable(records, t) && V.Faithful(records, redirects, r)
    requires r.Commit? ==> OwnPuts(records, redirects, r)
    ensures var p := Resolve(t, SentBody(r, redirects));
            var t2 := Publish(t, p);
            if r.Commit? && p.accepted && id in ChangeIDs(r.body) then id in t2 ==> From(records, t2, id, r.batch)
            else SameOrigin(records, t, t2, id)
  {
    if r.Commit? {
      ChangesFrom(records, redirects, t, r.body.changes, r.batch, id);
      assert id in ChangeIDs(r.body) <==> exists c <- r.body.changes :: c.id == id;
    } else {
      MovesFrom(records, t, r.body.changes, id);
    }
  }

  // ------------------------------------------------------------------------- the group

  /** All members bring their own records, and the mapping names records. */
  ghost predicate Honest(records: Records, redirects: Redirects, t: Table, rs: seq<Request>) {
    && Groups(rs) && V.Readable(records, t)
    && (forall r <- rs :: V.Faithful(records, redirects, r) && (r.Commit? ==> OwnPuts(records, redirects, r)))
  }

  lemma {:induction false} ReadableThere(records: Records, redirects: Redirects, t: Table, rs: seq<Request>, k: nat)
    requires Honest(records, redirects, t, rs) && k <= |rs|
    ensures V.Readable(records, TableAt(t, Sent(rs, redirects), k))
    decreases k
  {
    if k > 0 {
      ReadableThere(records, redirects, t, rs, k - 1);
      NextTable(t, Sent(rs, redirects), k - 1);
      V.HeadWrites(records, redirects, TableAt(t, Sent(rs, redirects), k - 1), rs[k - 1]);
    }
  }

  lemma MemberThere(records: Records, redirects: Redirects, t: Table, rs: seq<Request>, k: nat, id: ID)
    requires Honest(records, redirects, t, rs) && k < |rs|
    ensures var ps := Sent(rs, redirects);
            var t1, t2 := TableAt(t, ps, k), TableAt(t, ps, k + 1);
            if rs[k].Commit? && ResolveAll(t, ps)[k].accepted && id in ChangeIDs(rs[k].body)
            then id in t2 ==> From(records, t2, id, rs[k].batch) else SameOrigin(records, t1, t2, id)
  {
    var ps := Sent(rs, redirects);
    ReadableThere(records, redirects, t, rs, k);
    NextTable(t, ps, k);
    ResolvedThere(t, ps, k);
    MemberFrom(records, redirects, TableAt(t, ps, k), rs[k], id);
  }

  /** After the first k members an ID comes from the mapping before, or from an accepted one. */
  lemma {:induction false} OriginThere(records: Records, redirects: Redirects, t: Table, rs: seq<Request>, k: nat,
                                       id: ID)
    requires Honest(records, redirects, t, rs) && k <= |rs| && id in TableAt(t, Sent(rs, redirects), k)
    ensures var ps := Sent(rs, redirects);
            || SameOrigin(records, t, TableAt(t, ps, k), id)
            || exists m: nat :: m < k && rs[m].Commit? && ResolveAll(t, ps)[m].accepted
                                && From(records, TableAt(t, ps, k), id, rs[m].batch)
    decreases k
  {
    var ps := Sent(rs, redirects);
    if k == 0 {
      assert V.Readable(records, t);
    } else {
      MemberThere(records, redirects, t, rs, k - 1, id);
      if !(rs[k - 1].Commit? && ResolveAll(t, ps)[k - 1].accepted && id in ChangeIDs(rs[k - 1].body)) {
        OriginThere(records, redirects, t, rs, k - 1, id);
      }
    }
  }

  /** Once a member has changed an ID, it comes from that member or a later one. */
  lemma {:induction false} OriginSince(records: Records, redirects: Redirects, t: Table, rs: seq<Request>, from: nat,
                                       k: nat, id: ID)
    requires Honest(records, redirects, t, rs) && from < k <= |rs| && id in TableAt(t, Sent(rs, redirects), k)
    requires rs[from].Commit? && ResolveAll(t, Sent(rs, redirects))[from].accepted && id in ChangeIDs(rs[from].body)
    ensures exists m: nat :: from <= m < k && rs[m].Commit?
                             && From(records, TableAt(t, Sent(rs, redirects), k), id, rs[m].batch)
    decreases k
  {
    var ps := Sent(rs, redirects);
    MemberThere(records, redirects, t, rs, k - 1, id);
    if !(rs[k - 1].Commit? && ResolveAll(t, ps)[k - 1].accepted && id in ChangeIDs(rs[k - 1].body)) {
      OriginSince(records, redirects, t, rs, from, k - 1, id);
    }
  }

  // ------------------------------------------------------------------- in the store

  lemma MembersHonest(s: State, n: nat)
    requires Inv(s) && T.Tagged(s) && GroupAt(s.queue, n)
    ensures Honest(s.records, s.redirects, s.table, Members(s.queue, n))
  {
    V.MembersFaithful(s, n);
    forall r <- Members(s.queue, n) | r.Commit? ensures OwnPuts(s.records, s.redirects, r) {
      var k :| 0 <= k < |Members(s.queue, n)| && Members(s.queue, n)[k] == r;
      MemberQueued(s.queue, n, k);
      CommitOwns(s, r);
    }
  }

  lemma CommitOwns(s: State, r: Request)
    requires InvProtocol(s) && T.TrueBatches(s.records, s.batches) && r in s.queue && r.Commit?
    requires V.Faithful(s.records, s.redirects, r)
    ensures OwnPuts(s.records, s.redirects, r)
  {
    assert CommitBacked(s.batches, s.delta, r.batch, r.body, r.held);
    assert T.TrueBatch(s.records, r.batch, s.batches[r.batch]);
    forall c <- r.body.changes | c.op == Put
      ensures c.newRef.addr in s.records && s.records[c.newRef.addr].origin == r.batch
    {
      assert V.FaithfulPut(s.records, s.redirects, c);
      assert T.OwnAt(s.records, r.batch, s.batches[r.batch].puts[c.id].value.addr);
    }
  }

  /** Every entry of the mapping was written by a batch with a commit record. */
  ghost predicate OriginsLogged(records: Records, t: Table, log: seq<Entry>) {
    forall id <- t :: t[id].addr in records ==> Logged(log, records[t[id].addr].origin)
  }

  lemma LoggedGrows(log: seq<Entry>, more: seq<Entry>, b: BatchID)
    requires Logged(log, b) && log <= more
    ensures Logged(more, b)
  {
    var e :| e in log && e.Group? && b in e.owners;
    assert e in more;
  }

  lemma OriginsGrow(records: Records, t: Table, log: seq<Entry>, records2: Records, more: seq<Entry>)
    requires OriginsLogged(records, t, log) && V.Readable(records, t) && Agree(records, records2) && log <= more
    ensures OriginsLogged(records2, t, more)
  {
    forall id <- t | t[id].addr in records2 ensures Logged(more, records2[t[id].addr].origin) {
      LoggedGrows(log, more, records[t[id].addr].origin);
    }
  }

  /** The group in flight brings in its own owners. */
  lemma PublishedOrigins(s: State)
    requires Inv(s) && T.Tagged(s) && s.inflight > 0
    requires OriginsLogged(s.records, s.table, s.log[..|s.log| - 1])
    ensures OriginsLogged(s.records, PublishAll(s.table, Plan(s.queue, s.inflight, s.redirects, s.table)), s.log)
  {
    var rs, ps := Members(s.queue, s.inflight), Bodies(s.queue, s.inflight, s.redirects);
    var plan, last := Plan(s.queue, s.inflight, s.redirects, s.table), s.log[|s.log| - 1];
    MembersHonest(s, s.inflight);
    AtTheEnd(s.table, ps);
    var after := PublishAll(s.table, plan);
    forall id <- after | after[id].addr in s.records ensures Logged(s.log, s.records[after[id].addr].origin) {
      OriginThere(s.records, s.redirects, s.table, rs, |rs|, id);
      if SameOrigin(s.records, s.table, after, id) {
        LoggedGrows(s.log[..|s.log| - 1], s.log, s.records[after[id].addr].origin);
      } else {
        var m: nat :| m < |rs| && rs[m].Commit? && plan[m].accepted && From(s.records, after, id, rs[m].batch);
        assert rs[m].batch in last.owners && last in s.log;
      }
    }
  }

  function Prefix(s: State): seq<Entry> { s.log[..Published(s.log, s.inflight)] }

  lemma TableReadable(records: Records, homes: set<SegmentID>, t: Table)
    requires GoodTable(records, homes, t)
    ensures V.Readable(records, t)
  {
    forall id <- t ensures t[id].addr in records { assert Good(records, homes, id, t[id]); }
  }

  lemma PrefixGrows(s: State, a: Action, t: State)
    requires Inv(s) && Issued(s.batches, s.issued) && Next(s, a, t)
    requires a != Coordinate(PublishGroup) && !a.Crash?
    ensures Prefix(s) <= Prefix(t)
  {
    match a
    case Client(c) => ClientFrame(s, c);
    case Submit(u) => SubmitFrame(s, u);
    case Coordinate(o) => CoordinatorPrefix(s, o, t);
    case Checkpoint(k) => CheckpointFrame(s, k);
    case Copy(c) => CopyFrame(s, c);
    case Finish(f) => RetireFrame(s, f);
  }

  lemma CoordinatorPrefix(s: State, a: CoordinatorOp, t: State)
    requires CoordinatorStep(s, a, t) && !a.PublishGroup?
    ensures Prefix(s) <= Prefix(t)
  {
  }

  lemma StepOrigins(s: State, a: Action, t: State)
    requires Inv(s) && T.Tagged(s) && Next(s, a, t) && Agree(s.records, t.records)
    requires OriginsLogged(s.records, s.table, Prefix(s)) && Issued(s.batches, s.issued)
    ensures OriginsLogged(t.records, t.table, Prefix(t))
  {
    TableReadable(s.records, Homes(s.sealed, s.active), s.table);
    if a == Coordinate(PublishGroup) {
      PublishOrigins(s, t);
    } else if a.Crash? {
      CrashOrigins(s, a.lost, t);
    } else {
      QuietOrigins(s, a, t);
    }
  }

  lemma PublishOrigins(s: State, t: State)
    requires Inv(s) && T.Tagged(s) && CoordinatorStep(s, PublishGroup, t)
    requires OriginsLogged(s.records, s.table, Prefix(s))
    ensures OriginsLogged(t.records, t.table, Prefix(t))
  {
    PublishedOrigins(s);
    assert t.log[..|t.log|] == t.log;
  }

  lemma QuietOrigins(s: State, a: Action, t: State)
    requires Inv(s) && Next(s, a, t) && a != Coordinate(PublishGroup) && !a.Crash?
    requires Agree(s.records, t.records) && Issued(s.batches, s.issued) && V.Readable(s.records, s.table)
    requires OriginsLogged(s.records, s.table, Prefix(s))
    ensures OriginsLogged(t.records, t.table, Prefix(t))
  {
    StepSilent(s, a);
    PrefixGrows(s, a, t);
    OriginsGrow(s.records, s.table, Prefix(s), t.records, Prefix(t));
  }

  lemma CrashOrigins(s: State, lost: set<VAddr>, t: State)
    requires Inv(s) && T.Tagged(s) && CrashStep(s, lost, t) && Agree(s.records, t.records)
    requires OriginsLogged(s.records, s.table, Prefix(s)) && V.Readable(s.records, s.table)
    ensures OriginsLogged(t.records, t.table, Prefix(t))
  {
    StoreCrash.CrashTable(s, lost);
    assert t.log[..|t.log|] == t.log && s.log[..|s.log|] == s.log;
    if s.inflight > 0 { PublishedOrigins(s); }
    TableReadable(s.records, Homes(s.sealed, s.active), t.table);
    OriginsGrow(s.records, t.table, s.log, t.records, s.log);
  }

  lemma NextOrigins(states: seq<State>, actions: seq<Action>, i: nat)
    requires Run(states, actions) && i < |actions|
    requires OriginsLogged(states[i].records, states[i].table, Prefix(states[i]))
    ensures OriginsLogged(states[i + 1].records, states[i + 1].table, Prefix(states[i + 1]))
  {
    ReadyToStep(states, actions, i);
    T.EveryStateTagged(states, actions, i);
    StepOrigins(states[i], actions[i], states[i + 1]);
  }

  /** Nothing uncommitted is ever visible: on every run each mapping entry names a record that was
      written by a batch whose commit record is in the published part of the log. */
  lemma {:induction false} OnlyCommittedIsVisible(states: seq<State>, actions: seq<Action>, i: nat)
    requires Run(states, actions) && i < |states|
    ensures OriginsLogged(states[i].records, states[i].table, Prefix(states[i]))
  {
    if i > 0 {
      OnlyCommittedIsVisible(states, actions, i - 1);
      NextOrigins(states, actions, i - 1);
    }
  }

  // --------------------------------------------------------------------- compare and set

  /** The commits of a group have batches of their own, which the mapping does not know yet. */
  ghost predicate Newcomers(records: Records, t: Table, rs: seq<Request>) {
    && (forall m: nat, n: nat | m < n < |rs| && rs[m].Commit? && rs[n].Commit? :: rs[m].batch != rs[n].batch)
    && (forall id <- t, m: nat | m < |rs| && rs[m].Commit? :: !From(records, t, id, rs[m].batch))
  }

  /** The address that the first one replaced does not come back. */
  lemma NeverBack(records: Records, redirects: Redirects, t: Table, rs: seq<Request>, k1: nat, k2: nat, id: ID,
                  a: VAddr)
    requires Honest(records, redirects, t, rs) && Newcomers(records, t, rs) && k1 < k2 < |rs| && rs[k1].Commit?
    requires ResolveAll(t, Sent(rs, redirects))[k1].accepted && id in ChangeIDs(rs[k1].body) && a != 0
    requires Matches(TableAt(t, Sent(rs, redirects), k1), id, a)
    ensures !Matches(TableAt(t, Sent(rs, redirects), k2), id, a)
  {
    var ps := Sent(rs, redirects);
    OriginThere(records, redirects, t, rs, k1, id);
    if Matches(TableAt(t, ps, k2), id, a) {
      OriginSince(records, redirects, t, rs, k1, k2, id);
      var m: nat :| k1 <= m < k2 && rs[m].Commit? && From(records, TableAt(t, ps, k2), id, rs[m].batch);
      assert SameOrigin(records, t, TableAt(t, ps, k1), id) ==> From(records, t, id, rs[m].batch);
    }
  }

  lemma GroupIsNew(s: State)
    requires Inv(s) && OwnersOnce(s) && s.inflight > 0 && OriginsLogged(s.records, s.table, Prefix(s))
    ensures Newcomers(s.records, s.table, Members(s.queue, s.inflight))
  {
    var rs := Members(s.queue, s.inflight);
    forall m: nat, n: nat | m < n < |rs| && rs[m].Commit? && rs[n].Commit? ensures rs[m].batch != rs[n].batch {
      if rs[m].batch == rs[n].batch { OwnPlace(s.queue, s.inflight, Inputs(s.gc), m, n); }
    }
    forall id <- s.table, m: nat | m < |rs| && rs[m].Commit? ensures !From(s.records, s.table, id, rs[m].batch) {
      MemberUnlogged(s, m);
    }
  }

  /** A member of the group in flight owns no earlier record. */
  lemma MemberUnlogged(s: State, m: nat)
    requires Inv(s) && OwnersOnce(s) && s.inflight > 0 && m < |Members(s.queue, s.inflight)|
    requires Members(s.queue, s.inflight)[m].Commit?
    ensures !Logged(Prefix(s), Members(s.queue, s.inflight)[m].batch)
  {
    var r := Members(s.queue, s.inflight)[m];
    MemberQueued(s.queue, s.inflight, m);
    assert CommitBacked(s.batches, s.delta, r.batch, r.body, r.held);
    AnsweredTruly(s, r.batch);
  }
}
