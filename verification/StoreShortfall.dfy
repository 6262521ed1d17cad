/** What the admission of a batch does not rule out: a run in which a batch is given another ID
    between the reservation of its delta entries and its preparation. */
module StoreShortfall {
  import opened RecordLog
  import opened Mapping
  import opened StoreState
  import opened StoreTheorems

  const REMOVE_ONE := Change(1, ZERO_REF, 0, Delete)
  const REMOVE_TWO := Change(2, ZERO_REF, 0, Delete)
  const BODY := Proposal(UserCommit, [], [REMOVE_ONE, REMOVE_TWO])
  const HELD := Ticket({1}, 1, 0)
  const BOTH: map<ID, Option<RecordRef>> := map[1 := None, 2 := None]

  /** A new store with one batch handed out. */
  function With(batch: Batch, queue: seq<Request>, inflight: nat, log: seq<Entry>, notes: seq<Note>): State {
    State(map[], 1, {}, COMPACTION_SEGMENT_BASE, 1, map[], Cut(0, 1, SEGMENT_HEADER_SIZE),
          map[0 := batch], Free, queue, inflight, map[], map[], {}, None, log, Idle,
          Books(map[], 0, map[], 0), Runs(0, false, 0), 1, notes)
  }

  const OPEN := With(Batch(Open, map[], map[]), [], 0, [], [])
  const NEW := OPEN.(batches := map[], issued := 0)
  const ONE := With(Batch(Open, map[1 := None], map[]), [], 0, [], [])
  const RESERVED := With(Batch(Reserved(HELD), map[1 := None], map[]), [], 0, [], [])
  const TWO := With(Batch(Reserved(HELD), BOTH, map[]), [], 0, [], [])
  const PREPARED := With(Batch(Prepared(BODY, HELD), BOTH, map[]), [], 0, [], [])
  const QUEUE := [Commit(0, BODY, HELD)]
  const QUEUED := With(Batch(Queued, BOTH, map[]), QUEUE, 0, [], [])
  const APPENDED := With(Batch(Queued, BOTH, map[]), QUEUE, 1, [Group([BODY], {0})],
                         [Note(1, SEGMENT_HEADER_SIZE, [Tag(Some(0), 0)])])

  lemma First()
    ensures Initial(NEW)
    ensures ClientStep(NEW, Begin(0), OPEN)
    ensures ClientStep(OPEN, DeleteID(0, 1), ONE)
  {
  }

  lemma ReservedThenChanged()
    ensures SubmitStep(ONE, Reserve(0), RESERVED)
    ensures ClientStep(RESERVED, DeleteID(0, 2), TWO)
  {
    assert ONE.batches[0].puts.Keys - ONE.delta == {1};
  }

  lemma ThenPrepared()
    ensures SubmitStep(TWO, Prepare(0, BODY), PREPARED)
    ensures SubmitStep(PREPARED, Enqueue(0), QUEUED)
  {
    assert BODY.changes[0] == REMOVE_ONE && BODY.changes[1] == REMOVE_TWO;
    assert Carries(TWO.batches[0], BODY);
    assert BODY.changes[1..] == [REMOVE_TWO] && [REMOVE_TWO][1..] == [];
    assert PayloadBytes(TWO.records, [REMOVE_TWO]) == 0;
  }

  lemma TheGroup()
    ensures GroupAt(QUEUE, 1) && Members(QUEUE, 1) == QUEUE && Bodies(QUEUE, 1, map[]) == [BODY]
  {
    assert QUEUE[..1] == QUEUE && QUEUE[1..] == [];
    assert Only(QUEUE, true) == QUEUE && Only(QUEUE, false) == [];
    assert RedirectedChanges(BODY.changes, map[]) == BODY.changes;
  }

  const REMOVED_ONE := ResolvedChange(REMOVE_ONE, true, None)
  const REMOVED_TWO := ResolvedChange(REMOVE_TWO, true, None)

  lemma TheChanges()
    ensures ResolveChanges(UserCommit, map[], BODY.changes) == [REMOVED_ONE, REMOVED_TWO]
    ensures AppliedIDs([REMOVED_ONE, REMOVED_TWO]) == {1, 2}
  {
    var none: Table := map[];
    assert BODY.changes[1..] == [REMOVE_TWO] && [REMOVE_TWO][1..] == [];
    assert Effect(none, REMOVED_ONE) == none;
    assert ResolveChanges(UserCommit, none, [REMOVE_TWO]) == [REMOVED_TWO];
    assert [REMOVED_ONE, REMOVED_TWO][1..] == [REMOVED_TWO] && [REMOVED_TWO][1..] == [];
    assert AppliedIDs([REMOVED_TWO]) == {2};
  }

  /** The only request of the group is accepted, and would be charged two entries. */
  lemma ThePlan()
    ensures GroupAt(QUEUE, 1) && Plan(QUEUE, 1, map[], map[])[0].accepted
    ensures EntryOf(QUEUE, 1, map[], map[]) == Group([BODY], {0})
    ensures NoteOf(QUEUE, 1, map[], map[], 1, SEGMENT_HEADER_SIZE) == Note(1, SEGMENT_HEADER_SIZE, [Tag(Some(0), 0)])
    ensures !Paid(Members(QUEUE, 1), Handed(QUEUE, 1, map[], map[], {}))
  {
    TheGroup();
    TheChanges();
    var plan := [ResolvedProposal(UserCommit, true, 0, [REMOVED_ONE, REMOVED_TWO])];
    assert [BODY][1..] == [] && plan[1..] == [];
    assert Plan(QUEUE, 1, map[], map[]) == plan;
    assert {1, 2} - {} == {1, 2};
    assert WithCharges({}, plan)[0].deltaEntries == 2;
    assert Durable([BODY], plan) == [BODY];
    assert AcceptedOwners(QUEUE, plan) == {0};
    assert QUEUE[1..] == [] && Tags(QUEUE, plan) == [Tag(Some(0), 0)];
  }

  lemma ThenAppended()
    ensures CoordinatorEnabled(QUEUED, AppendGroup(1, SEGMENT_HEADER_SIZE))
    ensures APPENDED == CoordinatorAfter(QUEUED, AppendGroup(1, SEGMENT_HEADER_SIZE))
    ensures !CoordinatorEnabled(APPENDED, PublishGroup)
  {
    ThePlan();
  }

  /** A run goes on with an enabled action. */
  lemma Extended(states: seq<State>, actions: seq<Action>, a: Action, t: State)
    requires Run(states, actions) && Enabled(states[|actions|], a) && t == After(states[|actions|], a)
    ensures Run(states + [t], actions + [a])
  {
    forall i | 0 <= i < |actions + [a]| ensures StepAt(states + [t], actions + [a], i) {
      if i < |actions| { assert StepAt(states, actions, i); }
    }
  }

  lemma ByClient(states: seq<State>, actions: seq<Action>, s: State, c: ClientOp, t: State)
    requires Run(states, actions) && states[|actions|] == s && ClientStep(s, c, t)
    ensures Run(states + [t], actions + [Client(c)])
  {
    Extended(states, actions, Client(c), t);
  }

  lemma BySubmit(states: seq<State>, actions: seq<Action>, s: State, u: SubmitOp, t: State)
    requires Run(states, actions) && states[|actions|] == s && SubmitStep(s, u, t)
    ensures Run(states + [t], actions + [Submit(u)])
  {
    Extended(states, actions, Submit(u), t);
  }

  lemma ByCoordinator(states: seq<State>, actions: seq<Action>, s: State, o: CoordinatorOp, t: State)
    requires Run(states, actions) && states[|actions|] == s && CoordinatorStep(s, o, t)
    ensures Run(states + [t], actions + [Coordinate(o)])
  {
    Extended(states, actions, Coordinate(o), t);
  }

  lemma UntilChanged() returns (states: seq<State>, actions: seq<Action>)
    ensures Run(states, actions) && states[|actions|] == TWO
  {
    First();
    ReservedThenChanged();
    states, actions := [NEW], [];
    ByClient(states, actions, NEW, Begin(0), OPEN);
    states, actions := states + [OPEN], actions + [Client(Begin(0))];
    ByClient(states, actions, OPEN, DeleteID(0, 1), ONE);
    states, actions := states + [ONE], actions + [Client(DeleteID(0, 1))];
    BySubmit(states, actions, ONE, Reserve(0), RESERVED);
    states, actions := states + [RESERVED], actions + [Submit(Reserve(0))];
    ByClient(states, actions, RESERVED, DeleteID(0, 2), TWO);
    states, actions := states + [TWO], actions + [Client(DeleteID(0, 2))];
  }

  /** The second ID was not there when the reservation was made. The group is durable, but the
      mapping cannot publish it: the store stops until it is opened again. */
  lemma ReservationFallsShort() returns (states: seq<State>, actions: seq<Action>)
    ensures Run(states, actions) && states[|actions|] == APPENDED
    ensures APPENDED.inflight > 0 && !CoordinatorEnabled(APPENDED, PublishGroup)
  {
    states, actions := UntilChanged();
    ThenPrepared();
    BySubmit(states, actions, TWO, Prepare(0, BODY), PREPARED);
    states, actions := states + [PREPARED], actions + [Submit(Prepare(0, BODY))];
    BySubmit(states, actions, PREPARED, Enqueue(0), QUEUED);
    states, actions := states + [QUEUED], actions + [Submit(Enqueue(0))];
    ThenAppended();
    ByCoordinator(states, actions, QUEUED, AppendGroup(1, SEGMENT_HEADER_SIZE), APPENDED);
    states, actions := states + [APPENDED], actions + [Coordinate(AppendGroup(1, SEGMENT_HEADER_SIZE))];
  }
}
