/** What becomes of a commit, in terms of the calls its clients made: whether it is accepted, what
    it is answered, and which values readers find afterwards. */
module StoreOutcome {
  import opened RecordLog
  import opened Mapping
  import opened StoreState
  import opened StoreInvariant
  import opened StoreTheorems
  import opened StoreOrder
  import opened StoreHistory
  import V = StoreValues

  // ------------------------------------------------------- the mapping before a member

  /** The mapping after the first k proposals of a group. */
  function TableAt(t: Table, ps: seq<Proposal>, k: nat): Table
    requires k <= |ps|
    decreases k
  {
    if k == 0 then t else TableAt(Publish(t, Resolve(t, ps[0])), ps[1..], k - 1)
  }

  lemma {:induction false} ResolvedThere(t: Table, ps: seq<Proposal>, k: nat)
    requires k < |ps|
    ensures ResolveAll(t, ps)[k] == Resolve(TableAt(t, ps, k), ps[k])
    decreases k
  {
    if k > 0 { ResolvedThere(Publish(t, Resolve(t, ps[0])), ps[1..], k - 1); }
  }

  lemma {:induction false} AtTheEnd(t: Table, ps: seq<Proposal>)
    ensures TableAt(t, ps, |ps|) == PublishAll(t, ResolveAll(t, ps))
    decreases |ps|
  {
    if ps != [] { AtTheEnd(Publish(t, Resolve(t, ps[0])), ps[1..]); }
  }

  lemma {:induction false} NextTable(t: Table, ps: seq<Proposal>, k: nat)
    requires k < |ps|
    ensures TableAt(t, ps, k + 1) == Publish(TableAt(t, ps, k), Resolve(TableAt(t, ps, k), ps[k]))
    decreases k
  {
    if k > 0 { NextTable(Publish(t, Resolve(t, ps[0])), ps[1..], k - 1); }
  }

  /** A proposal is accepted exactly if every ID of its conditions is where it is expected. */
  lemma AcceptedExactly(t: Table, ps: seq<Proposal>, k: nat)
    requires k < |ps|
    ensures ResolveAll(t, ps)[k].accepted <==>
            forall c <- ps[k].conditions :: Matches(TableAt(t, ps, k), c.id, c.expected)
  {
    ResolvedThere(t, ps, k);
    var now := TableAt(t, ps, k);
    if AllHold(now, ps[k].conditions) {
      forall c <- ps[k].conditions ensures Matches(now, c.id, c.expected) { assert Holds(now, c); }
    } else {
      var c :| c in ps[k].conditions && !Holds(now, c);
      assert !Matches(now, c.id, c.expected);
    }
  }

  // ------------------------------------------------------------ accepted, and answered

  ghost predicate PublishesAt(states: seq<State>, actions: seq<Action>, j: nat) {
    Run(states, actions) && j < |actions| && actions[j] == Coordinate(PublishGroup)
  }

  /** The k-th member of the group in flight is a commit. */
  predicate HasCommit(s: State, k: nat) {
    && GroupAt(s.queue, s.inflight) && k < |Members(s.queue, s.inflight)|
    && Members(s.queue, s.inflight)[k].Commit?
  }

  function BatchAt(s: State, k: nat): BatchID
    requires HasCommit(s, k)
  {
    Members(s.queue, s.inflight)[k].batch
  }

  /** The mapping just before the k-th member of a group takes effect. */
  function Before(s: State, n: nat, k: nat): Table
    requires GroupAt(s.queue, n) && k <= |Members(s.queue, n)|
  {
    TableAt(s.table, Bodies(s.queue, n, s.redirects), k)
  }

  /** Everything the batch was told to expect is so. */
  ghost predicate AsExpected(t: Table, actions: seq<Action>, b: BatchID) {
    forall id: ID, a: VAddr | Expected(actions, b, id, a) :: Matches(t, id, a)
  }

  /** Compare-and-set on every run: when a group is published, a commit takes effect and is answered
      Committed if and only if the mapping just before it is as its client said to expect: every
      expected address is the current one, and what is to be absent is absent. Otherwise it is
      answered Aborted. */
  lemma AcceptedExactlyAsExpected(states: seq<State>, actions: seq<Action>, j: nat, k: nat)
    requires PublishesAt(states, actions, j) && HasCommit(states[j], k)
    ensures var s, t, b := states[j], states[j + 1], BatchAt(states[j], k);
            var ok := AsExpected(Before(s, s.inflight, k), actions[..j], b);
            && (Plan(s.queue, s.inflight, s.redirects, s.table)[k].accepted <==> ok)
            && HasBatch(t.batches, b, if ok then Committed else Aborted)
  {
    EveryStateFollowed(states, actions, j);
    ReadyToStep(states, actions, j);
    AcceptedHere(states[j], actions[..j], states[j].inflight, k);
    AnsweredHere(states[j], states[j + 1], k);
  }

  /** A group is turned away as a whole only if every commit in it was told to expect something
      that is not so. */
  lemma RejectedForCause(states: seq<State>, actions: seq<Action>, j: nat, n: nat, k: nat)
    requires Run(states, actions) && j < |actions| && actions[j] == Coordinate(RejectGroup(n))
    requires GroupAt(states[j].queue, n) && k < |Members(states[j].queue, n)|
    ensures var r := Members(states[j].queue, n)[k];
            r.Commit? && !AsExpected(Before(states[j], n, k), actions[..j], r.batch)
  {
    EveryStateFollowed(states, actions, j);
    ReadyToStep(states, actions, j);
    var s := states[j];
    var r := Members(s.queue, n)[k];
    assert CoordinatorEnabled(s, RejectGroup(n)) && !Plan(s.queue, n, s.redirects, s.table)[k].accepted;
    MemberQueued(s.queue, n, k);
    if r.Commit? { AcceptedHere(s, actions[..j], n, k); } else { MovesAreAccepted(s, n, k); }
  }

  /** A relocation has no conditions. */
  lemma MovesAreAccepted(s: State, n: nat, k: nat)
    requires InvProtocol(s) && GroupAt(s.queue, n) && k < |Members(s.queue, n)| && Members(s.queue, n)[k].Move?
    ensures Plan(s.queue, n, s.redirects, s.table)[k].accepted
  {
    var r := Members(s.queue, n)[k];
    MemberQueued(s.queue, n, k);
    assert MoveBacked(s.gc, s.records, Homes(s.sealed, s.active), s.delta, r.body, r.held);
    AcceptedExactly(s.table, Bodies(s.queue, n, s.redirects), k);
  }

  lemma AcceptedHere(s: State, actions: seq<Action>, n: nat, k: nat)
    requires InvProtocol(s) && Followed(s, actions) && GroupAt(s.queue, n)
    requires k < |Members(s.queue, n)| && Members(s.queue, n)[k].Commit?
    ensures Plan(s.queue, n, s.redirects, s.table)[k].accepted <==>
            AsExpected(Before(s, n, k), actions, Members(s.queue, n)[k].batch)
  {
    var r := Members(s.queue, n)[k];
    MemberQueued(s.queue, n, k);
    assert CommitBacked(s.batches, s.delta, r.batch, r.body, r.held);
    assert Knows(s.records, s.batches[r.batch], actions, r.batch);
    AcceptedExactly(s.table, Bodies(s.queue, n, s.redirects), k);
    ConditionsAre(s.batches[r.batch], r.body, Before(s, n, k), actions, r.batch);
  }

  lemma ConditionsAre(batch: Batch, body: Proposal, t: Table, actions: seq<Action>, b: BatchID)
    requires Carries(batch, body) && Expecting(batch.conditions, actions, b)
    ensures (forall c <- body.conditions :: Matches(t, c.id, c.expected)) <==> AsExpected(t, actions, b)
  {
    if forall c <- body.conditions :: Matches(t, c.id, c.expected) {
      forall id: ID, a: VAddr | Expected(actions, b, id, a) ensures Matches(t, id, a) {
        assert id in batch.conditions;
        var c :| c in body.conditions && c.id == id;
      }
    } else {
      var c :| c in body.conditions && !Matches(t, c.id, c.expected);
      assert Expected(actions, b, c.id, batch.conditions[c.id]);
    }
  }

  lemma AnsweredHere(s: State, t: State, k: nat)
    requires Inv(s) && CoordinatorStep(s, PublishGroup, t)
    requires k < |Members(s.queue, s.inflight)| && Members(s.queue, s.inflight)[k].Commit?
    ensures HasBatch(t.batches, Members(s.queue, s.inflight)[k].batch,
                     if Plan(s.queue, s.inflight, s.redirects, s.table)[k].accepted then Committed else Aborted)
  {
    var rs, plan := Members(s.queue, s.inflight), Plan(s.queue, s.inflight, s.redirects, s.table);
    var b := rs[k].batch;
    MemberQueued(s.queue, s.inflight, k);
    assert CommitBacked(s.batches, s.delta, b, rs[k].body, rs[k].held);
    assert b in Owners(rs);
    if !plan[k].accepted && b in AcceptedOwners(rs, plan) {
      var m :| 0 <= m < |rs| && rs[m].Commit? && plan[m].accepted && rs[m].batch == b;
      OwnPlace(s.queue, s.inflight, Inputs(s.gc), k, m);
      assert false;
    }
  }

  /** No two members of a group are commits of one batch. */
  lemma OwnPlace(queue: seq<Request>, n: nat, inputs: set<SegmentID>, k: nat, m: nat)
    requires InvOrder(queue, inputs) && GroupAt(queue, n) && k < |Members(queue, n)| && m < |Members(queue, n)|
    requires Members(queue, n)[k].Commit? && Members(queue, n)[m].Commit?
    requires Members(queue, n)[k].batch == Members(queue, n)[m].batch
    ensures k == m
  {
    var i := PlaceTaken(queue, n, k);
    var j := PlaceTaken(queue, n, m);
    GroupOrder(queue, n, i);
    GroupOrder(queue, n, j);
    assert i == j;
  }

  // ------------------------------------------------------------------ values afterwards

  /** The commit at this place of the queue was published and wrote the ID. */
  ghost predicate Wins(s: State, t: State, actions: seq<Action>, i: nat, id: ID)
    requires i < |s.queue|
  {
    s.queue[i].Commit? && HasBatch(t.batches, s.queue[i].batch, Committed) && id in Wrote(actions, s.queue[i].batch)
  }

  /** What a reader finds of an ID. */
  function Found(s: State, id: ID): Option<seq<u8>> {
    var v := V.Values(s.records, s.table); if id in v then Some(v[id]) else None
  }

  /** The group in flight is published. */
  ghost predicate Publication(s: State, t: State, actions: seq<Action>) {
    Inv(s) && Followed(s, actions) && CoordinatorStep(s, PublishGroup, t)
  }

  /** The ID is found as the commit queued last left it, or as before. */
  ghost predicate Decided(s: State, t: State, actions: seq<Action>, id: ID)
    requires s.inflight <= |s.queue|
  {
    && (forall i | 0 <= i < s.inflight && Wins(s, t, actions, i, id) && NoneLater(s, t, actions, i, id) ::
          Found(t, id) == Wrote(actions, s.queue[i].batch)[id])
    && (NobodyWins(s, t, actions, id) ==> Found(t, id) == Found(s, id))
  }

  ghost predicate NobodyWins(s: State, t: State, actions: seq<Action>, id: ID)
    requires s.inflight <= |s.queue|
  {
    forall i | 0 <= i < s.inflight :: !Wins(s, t, actions, i, id)
  }

  ghost predicate NoneLater(s: State, t: State, actions: seq<Action>, i: nat, id: ID)
    requires s.inflight <= |s.queue|
  {
    forall m | i < m < s.inflight :: !Wins(s, t, actions, m, id)
  }

  /** Of several commits in one group the one queued last decides: afterwards a reader finds what
      its client put last, or nothing if that was a deletion; and an ID that no committed batch of
      the group wrote is found as before. */
  lemma LastQueuedDecides(states: seq<State>, actions: seq<Action>, j: nat, id: ID)
    requires PublishesAt(states, actions, j)
    ensures states[j].inflight <= |states[j].queue| && Decided(states[j], states[j + 1], actions[..j], id)
  {
    EveryStateFollowed(states, actions, j);
    ReadyToStep(states, actions, j);
    DecidedHere(states[j], states[j + 1], actions[..j], id);
  }

  lemma DecidedHere(s: State, t: State, actions: seq<Action>, id: ID)
    requires Publication(s, t, actions)
    ensures s.inflight <= |s.queue| && Decided(s, t, actions, id)
  {
    if NobodyWins(s, t, actions, id) { NobodyDecides(s, t, actions, id); }
    LastDecides(s, t, actions, id);
  }

  lemma LastDecides(s: State, t: State, actions: seq<Action>, id: ID)
    requires Publication(s, t, actions)
    ensures forall i | 0 <= i < s.inflight && Wins(s, t, actions, i, id) && NoneLater(s, t, actions, i, id) ::
              Found(t, id) == Wrote(actions, s.queue[i].batch)[id]
  {
    forall i | 0 <= i < s.inflight && Wins(s, t, actions, i, id) && NoneLater(s, t, actions, i, id)
      ensures Found(t, id) == Wrote(actions, s.queue[i].batch)[id]
    {
      DecidesHere(s, t, actions, i, id);
    }
  }

  /** Wrote, as the queued proposal says it. */
  lemma BodyTells(s: State, actions: seq<Action>, r: Request)
    requires InvProtocol(s) && Followed(s, actions) && r in s.queue && r.Commit?
    ensures ValidProposal(r.body) && ChangeIDs(r.body) == Wrote(actions, r.batch).Keys
    ensures forall c <- r.body.changes ::
              && (c.op != Delete ==> c.newRef.addr in s.records)
              && Wrote(actions, r.batch)[c.id]
                 == if c.op == Delete then None else Some(s.records[c.newRef.addr].value)
  {
    assert CommitBacked(s.batches, s.delta, r.batch, r.body, r.held);
    var batch := s.batches[r.batch];
    assert Knows(s.records, batch, actions, r.batch);
    assert BatchOk(s.records, Homes(s.sealed, s.active), s.delta, batch);
    CarriedIDs(batch, r.body);
    forall c <- r.body.changes
      ensures (c.op != Delete ==> c.newRef.addr in s.records)
      ensures Wrote(actions, r.batch)[c.id] == if c.op == Delete then None else Some(s.records[c.newRef.addr].value)
    {
      if c.op != Delete { assert Good(s.records, Homes(s.sealed, s.active), c.id, batch.puts[c.id].value); }
    }
  }

  lemma CarriedIDs(batch: Batch, body: Proposal)
    requires Carries(batch, body)
    ensures ValidProposal(body) && ChangeIDs(body) == batch.puts.Keys
  {
    forall id <- batch.puts ensures id in ChangeIDs(body) { var c :| c in body.changes && c.id == id; }
  }

  /** Writes of a member, and of the request at its place in the queue. */
  lemma WinsThere(s: State, t: State, actions: seq<Action>, i: nat, id: ID)
    requires Publication(s, t, actions)
    requires i < s.inflight
    ensures PlaceOf(s.queue, s.inflight, i) < |Members(s.queue, s.inflight)|
    ensures Wins(s, t, actions, i, id) <==>
            Writes(Members(s.queue, s.inflight), Plan(s.queue, s.inflight, s.redirects, s.table),
                   PlaceOf(s.queue, s.inflight, i), id)
  {
    var k := PlaceOf(s.queue, s.inflight, i);
    GroupOrder(s.queue, s.inflight, i);
    if s.queue[i].Commit? {
      assert s.queue[i] in s.queue;
      BodyTells(s, actions, s.queue[i]);
      AnsweredHere(s, t, k);
    }
  }

  lemma ValuesAfter(s: State, t: State)
    requires Inv(s) && CoordinatorStep(s, PublishGroup, t)
    ensures V.Values(t.records, t.table)
            == V.WriteAll(V.Values(s.records, s.table), s.records, Members(s.queue, s.inflight),
                          Plan(s.queue, s.inflight, s.redirects, s.table))
  {
    V.PublishWrites(s);
  }

  lemma NobodyDecides(s: State, t: State, actions: seq<Action>, id: ID)
    requires Publication(s, t, actions)
    requires NobodyWins(s, t, actions, id)
    ensures Found(t, id) == Found(s, id)
  {
    var rs, plan := Members(s.queue, s.inflight), Plan(s.queue, s.inflight, s.redirects, s.table);
    forall k | 0 <= k < |rs| ensures !Writes(rs, plan, k, id) {
      var i := PlaceTaken(s.queue, s.inflight, k);
      WinsThere(s, t, actions, i, id);
    }
    NobodyWrites(V.Values(s.records, s.table), s.records, rs, plan, id);
    ValuesAfter(s, t);
  }

  lemma DecidesHere(s: State, t: State, actions: seq<Action>, i: nat, id: ID)
    requires Publication(s, t, actions)
    requires i < s.inflight && Wins(s, t, actions, i, id) && NoneLater(s, t, actions, i, id)
    ensures Found(t, id) == Wrote(actions, s.queue[i].batch)[id]
  {
    var rs, plan := Members(s.queue, s.inflight), Plan(s.queue, s.inflight, s.redirects, s.table);
    var k, r := PlaceOf(s.queue, s.inflight, i), s.queue[i];
    WinsThere(s, t, actions, i, id);
    GroupOrder(s.queue, s.inflight, i);
    assert r in s.queue;
    BodyTells(s, actions, r);
    var c :| c in r.body.changes && c.id == id;
    forall m | k < m < |rs| ensures !Writes(rs, plan, m, id) { LaterLoses(s, t, actions, i, m, id); }
    LastWrites(V.Values(s.records, s.table), s.records, rs, plan, k, c);
    ValuesAfter(s, t);
  }

  lemma LaterLoses(s: State, t: State, actions: seq<Action>, i: nat, m: nat, id: ID)
    requires Publication(s, t, actions)
    requires i < s.inflight && s.queue[i].Commit? && NoneLater(s, t, actions, i, id)
    requires PlaceOf(s.queue, s.inflight, i) < m < |Members(s.queue, s.inflight)|
    ensures !Writes(Members(s.queue, s.inflight), Plan(s.queue, s.inflight, s.redirects, s.table), m, id)
  {
    var x := LaterPlace(s.queue, s.inflight, i, m);
    WinsThere(s, t, actions, x, id);
  }

  /** What stands behind a commit is a relocation or was queued later. */
  lemma LaterPlace(queue: seq<Request>, n: nat, i: nat, m: nat) returns (x: nat)
    requires GroupAt(queue, n) && i < n && queue[i].Commit? && PlaceOf(queue, n, i) < m < |Members(queue, n)|
    ensures x < n && PlaceOf(queue, n, x) == m && (queue[x].Commit? ==> i < x)
  {
    x := PlaceTaken(queue, n, m);
    GroupOrder(queue, n, x);
  }
}
