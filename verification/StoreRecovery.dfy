/** What replay verifies of every commit record it reads (internal/replay/replay.go), and that it
    never finds fault with one. */
module StoreRecovery {
  import opened RecordLog
  import opened Mapping
  import opened StoreState
  import opened StoreInvariant
  import opened StoreReplay
  import opened StoreGroup
  import opened StoreAccounts
  import opened StoreTheorems
  import opened StoreLayout
  import opened StoreTags

  /** `descriptorProposal`: a Put or a relocation names a readable record of its ID and size, and
      the record that a relocation replaces is still there and has the same payload. */
  predicate Readable(records: Records, c: Change) {
    && (c.op != Delete ==>
       c.newRef.addr in records && records[c.newRef.addr].id == c.id && records[c.newRef.addr].size == c.newRef.size)
    && (c.op == Relocate ==>
          c.expectedOld in records && c.newRef.addr in records && records[c.expectedOld] == records[c.newRef.addr])
  }

  ghost predicate EntryReadable(records: Records, e: Entry) {
    e.Group? ==> forall p <- e.bodies :: forall c <- p.changes :: Readable(records, c)
  }

  /** No proposal of the record is rejected when it is resolved again. */
  ghost predicate Accepts(log: seq<Entry>, k: nat)
    requires k < |log|
  {
    log[k].Group? ==> forall r <- ResolveAll(Replay(map[], log[..k]), log[k].bodies) :: r.accepted
  }

  ghost predicate Recoverable(records: Records, log: seq<Entry>, from: nat) {
    (forall k | from <= k < |log| :: EntryReadable(records, log[k])) && (forall k | 0 <= k < |log| :: Accepts(log, k))
  }

  // ------------------------------------------------------------------------ every step

  /** A record that survives keeps its payload, so what was readable and is still there stays so. */
  lemma StaysReadable(r: Records, r2: Records, homes: set<SegmentID>, e: Entry)
    requires EntryReadable(r, e) && GoodEntry(r2, homes, e) && Agree(r, r2)
    ensures EntryReadable(r2, e)
  {
    if e.Group? {
      forall p <- e.bodies, c <- p.changes ensures Readable(r2, c) {
        assert Readable(r, c) && GoodChange(r2, homes, c);
      }
    }
  }

  /** The log grows by at most one record, which is in order. */
  ghost predicate OneMore(log: seq<Entry>, more: seq<Entry>, records: Records) {
    && log <= more && |more| <= |log| + 1
    && (|more| == |log| + 1 ==> EntryReadable(records, more[|log|]) && Accepts(more, |log|))
  }

  lemma StaysRecoverable(r: Records, log: seq<Entry>, from: nat, r2: Records, more: seq<Entry>, from2: nat,
                         homes: set<SegmentID>)
    requires Recoverable(r, log, from) && InvEntries(r2, homes, more, from2)
    requires from <= from2 && Agree(r, r2) && OneMore(log, more, r2)
    ensures Recoverable(r2, more, from2)
  {
    forall k | from2 <= k < |more| ensures EntryReadable(r2, more[k]) {
      if k < |log| { StaysReadable(r, r2, homes, log[k]); }
    }
    forall k | 0 <= k < |more| ensures Accepts(more, k) {
      if k < |log| { assert Accepts(log, k) && log[..k] == more[..k]; }
    }
  }

  /** The record of a new group: relocations carry the payload they replace, and replay accepts
      what was accepted. */
  lemma NewRecordReadable(s: State, n: nat)
    requires Inv(s) && GroupAt(s.queue, n)
    ensures EntryReadable(s.records, EntryOf(s.queue, n, s.redirects, s.table))
  {
    var e := EntryOf(s.queue, n, s.redirects, s.table);
    forall d <- e.bodies, c <- d.changes ensures Readable(s.records, c) {
      DurableFrom(Bodies(s.queue, n, s.redirects), Plan(s.queue, n, s.redirects, s.table), d);
      var p :| p in Bodies(s.queue, n, s.redirects) && d == p.(conditions := []);
      GroupChange(s, n, p, c);
    }
  }

  lemma NewRecordAccepted(s: State, n: nat)
    requires InvLog(s.log, |s.log|, s.table, s.root, s.replay, s.frozen) && GroupAt(s.queue, n)
    ensures Accepts(s.log + [EntryOf(s.queue, n, s.redirects, s.table)], |s.log|)
  {
    var log := s.log + [EntryOf(s.queue, n, s.redirects, s.table)];
    assert log[..|s.log|] == s.log && s.log[..|s.log|] == s.log;
    ReplayReachesSamePlan(s.table, Bodies(s.queue, n, s.redirects));
  }

  lemma ReplayAdvances(s: State, a: Action)
    requires Inv(s) && Enabled(s, a)
    ensures s.replay.index <= After(s, a).replay.index
  {
    match a
    case Client(c) => ClientReplay(s, c);
    case Submit(u) => SubmitReplay(s, u);
    case Coordinate(o) => CoordinatorReplay(s, o);
    case Checkpoint(k) => CheckpointAdvances(s, k);
    case Copy(c) => CopyReplay(s, c);
    case Finish(f) => RetireReplay(s, f);
    case Crash(lost) =>
  }

  lemma ClientReplay(s: State, a: ClientOp)
    requires ClientEnabled(s, a)
    ensures ClientAfter(s, a).replay == s.replay
  {
  }

  lemma SubmitReplay(s: State, a: SubmitOp)
    requires SubmitEnabled(s, a)
    ensures SubmitAfter(s, a).replay == s.replay
  {
  }

  lemma CoordinatorReplay(s: State, a: CoordinatorOp)
    requires CoordinatorEnabled(s, a)
    ensures CoordinatorAfter(s, a).replay == s.replay
  {
  }

  lemma RetireReplay(s: State, a: RetireOp)
    requires RetireEnabled(s, a)
    ensures RetireAfter(s, a).replay == s.replay
  {
  }

  lemma CheckpointAdvances(s: State, a: CheckpointOp)
    requires Inv(s) && CheckpointEnabled(s, a)
    ensures s.replay.index <= CheckpointAfter(s, a).replay.index
  {
  }

  lemma CopyReplay(s: State, a: CopyOp)
    requires CopyEnabled(s, a)
    ensures CopyAfter(s, a).replay == s.replay
  {
    if a.CopyRecord? { assert Copied(s, a.addr, a.to).replay == s.replay; }
  }

  /** What a step adds to the log. */
  lemma LogAfter(s: State, a: Action)
    requires Enabled(s, a)
    ensures var t := After(s, a);
            t.log == if a.Coordinate? && a.coordinate.AppendGroup?
                     then s.log + [EntryOf(s.queue, a.coordinate.n, s.redirects, s.table)]
                     else if a.Coordinate? && a.coordinate.ProcessBarrier? then s.log + [Marker] else s.log
  {
    match a
    case Client(c) => ClientSilent(s, c);
    case Submit(u) => SubmitSilent(s, u);
    case Coordinate(o) =>
    case Checkpoint(k) => CheckpointSilent(s, k);
    case Copy(c) => CopySilent(s, c);
    case Finish(f) => RetireSilent(s, f);
    case Crash(lost) =>
  }

  lemma AppendRecoverable(s: State, n: nat, at: u32, t: State)
    requires Inv(s) && CoordinatorStep(s, AppendGroup(n, at), t)
    ensures EntryReadable(t.records, t.log[|s.log|]) && Accepts(t.log, |s.log|)
  {
    NewRecordReadable(s, n);
    NewRecordAccepted(s, n);
  }

  lemma LogGrowsBy(s: State, a: Action, t: State)
    requires Inv(s) && Next(s, a, t)
    ensures OneMore(s.log, t.log, t.records)
  {
    LogAfter(s, a);
    if a.Coordinate? && a.coordinate.AppendGroup? { AppendRecoverable(s, a.coordinate.n, a.coordinate.at, t); }
  }

  lemma StepGrows(s: State, a: Action, t: State)
    requires Inv(s) && Next(s, a, t)
    ensures OneMore(s.log, t.log, t.records) && s.replay.index <= t.replay.index && Agree(s.records, t.records)
  {
    LogGrowsBy(s, a, t);
    ReplayAdvances(s, a);
    RecordsAgree(s, a);
  }

  lemma EntriesHold(s: State)
    requires Sound(s)
    ensures Inv(s) && InvEntries(s.records, Homes(s.sealed, s.active), s.log, s.replay.index)
  {
  }

  lemma {:induction false} EveryStateRecoverable(states: seq<State>, actions: seq<Action>, i: nat)
    requires Run(states, actions) && i < |states|
    ensures Recoverable(states[i].records, states[i].log, states[i].replay.index)
  {
    if i > 0 {
      EveryStateRecoverable(states, actions, i - 1);
      StepOfRun(states, actions, i - 1);
      var s, t := states[i - 1], states[i];
      StaysRecoverable(s.records, s.log, s.replay.index, t.records, t.log, t.replay.index, Homes(t.sealed, t.active));
    }
  }

  lemma StepOfRun(states: seq<State>, actions: seq<Action>, i: nat)
    requires Run(states, actions) && i < |actions|
    ensures var s, t := states[i], states[i + 1];
            && InvEntries(t.records, Homes(t.sealed, t.active), t.log, t.replay.index)
            && OneMore(s.log, t.log, t.records) && s.replay.index <= t.replay.index && Agree(s.records, t.records)
  {
    EveryStateInv(states, actions, i);
    EveryStateInv(states, actions, i + 1);
    EntriesHold(states[i + 1]);
    assert StepAt(states, actions, i);
    StepGrows(states[i], actions[i], states[i + 1]);
  }

  // ------------------------------------------------------------------------- the result

  /** Replay finds fault with nothing: in every state of every run, each commit record at or after
      ReplayStart names only records that were written before it and are there with the right ID
      and size, Puts come from the batch that commits and the values add up to what the
      descriptor says, relocations have the payload that they replace, no batch of it owns
      another record, and when the record's turn comes every one of its proposals is accepted. */
  lemma ReplayNeverFails(states: seq<State>, actions: seq<Action>, i: nat, k: nat)
    requires Run(states, actions) && i < |states| && states[i].replay.index <= k < |states[i].log|
    ensures var s := states[i];
            && EntryReadable(s.records, s.log[k]) && Accepts(s.log, k)
            && |s.notes| == |s.log| && NoteOk(s.log[k], s.notes[k]) && TrueNote(s.records, s.log[k], s.notes[k])
            && (s.log[k].Group? ==> forall b <- s.log[k].owners, m: nat :: OwnedAt(s.log, b, m) ==> m == k)
            && Commits(s.log[..k]) == s.books.rootCovered + Commits(s.log[s.replay.index..k])
  {
    EveryStateRecoverable(states, actions, i);
    EveryStateLaidOut(states, actions, i);
    EveryStateTagged(states, actions, i);
    EveryStateInv(states, actions, i);
    CommitsFrom(states[i].log, states[i].replay.index, k);
    OwnersAreUnique(states[i], k);
  }

  lemma OwnersAreUnique(s: State, k: nat)
    requires OwnersOnce(s) && k < |s.log|
    ensures s.log[k].Group? ==> forall b <- s.log[k].owners, m: nat :: OwnedAt(s.log, b, m) ==> m == k
  {
    if s.log[k].Group? {
      forall b <- s.log[k].owners, m: nat | OwnedAt(s.log, b, m) ensures m == k { assert OwnedAt(s.log, b, k); }
    }
  }
}
