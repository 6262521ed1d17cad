/** Where records lie: every step of the store appends behind what is there, so the references of
    a checkpoint fit into the files that the catalog describes (internal/engine/store.go,
    internal/storecatalog/codec.go) and a commit record comes after everything it names
    (internal/replay/replay.go). */
module StoreLayout {
  import opened RecordLog
  import opened Mapping
  import opened StoreState
  import opened StoreInvariant
  import opened StoreReplay
  import opened StoreGroup
  import opened StoreTheorems
  import L = LiveStats
  import C = CheckpointStats

  // -------------------------------------------------------------------- records in place

  predicate PlacedAt(records: Records, active: SegmentID, a: VAddr)
    requires a in records
  {
    ValidRef(RefAt(records, a)) && (IsCompactionSegment(SegmentOf(a)) || SegmentOf(a) <= active)
  }

  predicate Placed(records: Records, active: SegmentID) { forall a <- records :: PlacedAt(records, active, a) }

  predicate Separate(records: Records, a: VAddr, b: VAddr)
    requires a in records && b in records
  {
    a != b && SegmentOf(a) == SegmentOf(b) ==> EndOf(records, a) <= OffsetOf(b) || EndOf(records, b) <= OffsetOf(a)
  }

  predicate Apart(records: Records) { forall a <- records, b <- records :: Separate(records, a, b) }

  lemma AppendedApart(records: Records, addr: VAddr, payload: Payload)
    requires Apart(records) && addr !in records && EndsBefore(records, SegmentOf(addr), OffsetOf(addr))
    ensures Apart(records[addr := payload])
  {
    var more := records[addr := payload];
    forall a <- more, b <- more ensures Separate(more, a, b) {
      if a != addr && b != addr { assert Separate(records, a, b); }
    }
  }

  predicate Within(less: Records, records: Records) { forall a <- less :: a in records && less[a] == records[a] }

  lemma FewerPlaced(less: Records, records: Records, active: SegmentID)
    requires Within(less, records) && Placed(records, active) && Apart(records)
    ensures Placed(less, active) && Apart(less)
  {
    forall a <- less ensures PlacedAt(less, active, a) { assert PlacedAt(records, active, a); }
    forall a <- less, b <- less ensures Separate(less, a, b) { assert Separate(records, a, b); }
  }

  // --------------------------------------------------------------------- replay positions

  predicate RefAhead(ref: RecordRef, cut: Cut) {
    || IsCompactionSegment(SegmentOf(ref.addr)) || SegmentOf(ref.addr) < cut.segment
    || (SegmentOf(ref.addr) == cut.segment && OffsetOf(ref.addr) + ref.size <= cut.offset)
  }

  /** What the table names in the user log ends before the position. */
  predicate CutOk(t: Table, cut: Cut, active: SegmentID) {
    && ValidPos(LogPos(cut.segment, cut.offset)) && cut.segment <= active
    && forall id <- t :: RefAhead(t[id], cut)
  }

  predicate Cuts(root: Table, replay: Cut, table: Table, lock: Lock, frozen: Option<Frozen>, active: SegmentID) {
    && CutOk(root, replay, active)
    && (lock.Fence? && lock.cut.Some? ==> CutOk(table, lock.cut.value, active))
    && (frozen.Some? ==> CutOk(frozen.value.table, frozen.value.cut, active))
  }

  // -------------------------------------------------------------------------- log records

  /** `availableBeforeCommit`. */
  predicate Available(a: VAddr, note: Note) {
    || IsCompactionSegment(SegmentOf(a)) || SegmentOf(a) < note.segment
    || (SegmentOf(a) == note.segment && OffsetOf(a) < note.offset)
  }

  predicate NoteOk(e: Entry, note: Note) { forall a <- Names(e) :: Available(a, note) }

  predicate Notes(log: seq<Entry>, notes: seq<Note>) {
    |notes| == |log| && forall k :: 0 <= k < |log| ==> NoteOk(log[k], notes[k])
  }

  ghost predicate LaidOut(s: State) {
    && Placed(s.records, s.active) && Apart(s.records)
    && Cuts(s.root, s.replay, s.table, s.lock, s.frozen, s.active) && Notes(s.log, s.notes)
  }

  // --------------------------------------------------------------------------- every step

  /** Nothing is written, and no position is taken. */
  predicate SameLayout(s: State, t: State) {
    && t.records == s.records && t.active == s.active && t.root == s.root && t.replay == s.replay
    && t.table == s.table && t.lock == s.lock && t.frozen == s.frozen && t.log == s.log && t.notes == s.notes
  }

  lemma ClientLaidOut(s: State, a: ClientOp)
    requires LaidOut(s) && ClientEnabled(s, a)
    ensures LaidOut(ClientAfter(s, a))
  {
    if a.PutRecord? {
      AppendedApart(s.records, a.addr, a.payload);
      WrittenPlaced(s.records, s.active, a.addr, a.payload);
    } else {
      assert SameLayout(s, ClientAfter(s, a));
    }
  }

  lemma WrittenPlaced(records: Records, active: SegmentID, addr: VAddr, payload: Payload)
    requires Placed(records, active) && ValidRef(RecordRef(addr, payload.size))
    requires IsCompactionSegment(SegmentOf(addr)) || SegmentOf(addr) <= active
    ensures Placed(records[addr := payload], active)
  {
    var more := records[addr := payload];
    forall a <- more ensures PlacedAt(more, active, a) { if a != addr { assert PlacedAt(records, active, a); } }
  }

  lemma SubmitLaidOut(s: State, a: SubmitOp)
    requires LaidOut(s) && SubmitEnabled(s, a)
    ensures LaidOut(SubmitAfter(s, a))
  {
    assert SameLayout(s, SubmitAfter(s, a));
  }

  lemma CoordinatorLaidOut(s: State, a: CoordinatorOp)
    requires Inv(s) && LaidOut(s) && CoordinatorEnabled(s, a)
    ensures LaidOut(CoordinatorAfter(s, a))
  {
    match a
    case AppendGroup(n, at) => AppendLaidOut(s, n, at);
    case ProcessBarrier(end) => BarrierLaidOut(s, end);
    case PublishGroup => PublishLaidOut(s);
    case _ => assert SameLayout(s, CoordinatorAfter(s, a));
  }

  lemma PublishLaidOut(s: State)
    requires Inv(s) && LaidOut(s) && CoordinatorEnabled(s, PublishGroup)
    ensures LaidOut(CoordinatorAfter(s, PublishGroup))
  {
  }

  lemma AppendLaidOut(s: State, n: nat, at: u32)
    requires Inv(s) && LaidOut(s) && CoordinatorEnabled(s, AppendGroup(n, at))
    ensures LaidOut(CoordinatorAfter(s, AppendGroup(n, at)))
  {
    var e, note := EntryOf(s.queue, n, s.redirects, s.table),
                   NoteOf(s.queue, n, s.redirects, s.table, s.active, at);
    forall a <- Names(e) ensures Available(a, note) {
      NamedRecord(s, n, a);
      assert PlacedAt(s.records, s.active, a);
    }
  }

  /** What a new commit record names is there. */
  lemma NamedRecord(s: State, n: nat, a: VAddr)
    requires Inv(s) && GroupAt(s.queue, n) && a in Names(EntryOf(s.queue, n, s.redirects, s.table))
    ensures a in s.records
  {
    var e := EntryOf(s.queue, n, s.redirects, s.table);
    var d, c :| d in e.bodies && c in d.changes
      && ((c.op != Delete && a == c.newRef.addr) || (c.op == Relocate && a == c.expectedOld));
    DurableFrom(Bodies(s.queue, n, s.redirects), Plan(s.queue, n, s.redirects, s.table), d);
    var p :| p in Bodies(s.queue, n, s.redirects) && d == p.(conditions := []);
    GroupChange(s, n, p, c);
  }

  lemma BarrierLaidOut(s: State, end: u32)
    requires Inv(s) && LaidOut(s) && CoordinatorEnabled(s, ProcessBarrier(end))
    ensures LaidOut(CoordinatorAfter(s, ProcessBarrier(end)))
  {
    TableAhead(s, end);
    assert Names(Marker) == {};
  }

  lemma TableAhead(s: State, end: u32)
    requires InvTables(s.records, Homes(s.sealed, s.active), s.table, s.root, s.frozen) && Placed(s.records, s.active)
    requires EndsBefore(s.records, s.active, end) && ValidPos(LogPos(s.active, end))
    ensures CutOk(s.table, Cut(|s.log| + 1, s.active, end), s.active)
  {
    forall id <- s.table ensures RefAhead(s.table[id], Cut(|s.log| + 1, s.active, end)) {
      assert Good(s.records, Homes(s.sealed, s.active), id, s.table[id]);
      assert PlacedAt(s.records, s.active, s.table[id].addr);
    }
  }

  lemma CheckpointLaidOut(s: State, a: CheckpointOp)
    requires LaidOut(s) && CheckpointEnabled(s, a)
    ensures LaidOut(CheckpointAfter(s, a))
  {
    if a.Rotate? {
      forall x <- s.records ensures PlacedAt(s.records, s.active + 1, x) { assert PlacedAt(s.records, s.active, x); }
    }
  }

  lemma CopyLaidOut(s: State, a: CopyOp)
    requires InvJob(s.gc, s.sealed, s.nextOutput, s.redirects) && LaidOut(s) && CopyEnabled(s, a)
    ensures LaidOut(CopyAfter(s, a))
  {
    match a
    case CopyRecord(addr, to) => CopiedLaidOut(s, addr, to);
    case InstallOutputs => assert SameLayout(s, OutputsInstalled(s));
    case Rollback => FewerPlaced(WithoutSegments(s.records, s.gc.work.outputs), s.records, s.active);
    case _ => QuietLaidOut(s, a, CopyAfter(s, a));
  }

  lemma QuietLaidOut(s: State, a: CopyOp, t: State)
    requires CopyStep(s, a, t) && !a.CopyRecord? && !a.InstallOutputs? && !a.Rollback?
    ensures SameLayout(s, t)
  {
  }

  lemma CopiedLaidOut(s: State, addr: VAddr, to: VAddr)
    requires LaidOut(s) && s.gc.Job? && addr in s.records && to !in s.records && IsCompactionSegment(SegmentOf(to))
    requires ValidRef(RecordRef(to, s.records[addr].size)) && EndsBefore(s.records, SegmentOf(to), OffsetOf(to))
    ensures LaidOut(Copied(s, addr, to))
  {
    AppendedApart(s.records, to, s.records[addr]);
    WrittenPlaced(s.records, s.active, to, s.records[addr]);
    RecordsLaidOut(s, Copied(s, addr, to));
  }

  /** Only records are written or go away. */
  lemma RecordsLaidOut(s: State, t: State)
    requires LaidOut(s) && SameLayout(s.(records := t.records), t) && Placed(t.records, t.active) && Apart(t.records)
    ensures LaidOut(t)
  {
  }

  lemma RetireLaidOut(s: State, a: RetireOp)
    requires LaidOut(s) && RetireEnabled(s, a)
    ensures LaidOut(RetireAfter(s, a))
  {
    if a.Retire? {
      FewerPlaced(WithoutSegments(s.records, s.gc.work.inputs), s.records, s.active);
    } else {
      assert SameLayout(s, RetireAfter(s, a));
    }
  }

  lemma CrashLaidOut(s: State, lost: set<VAddr>)
    requires LaidOut(s)
    ensures LaidOut(CrashAfter(s, lost))
  {
    FewerPlaced(CrashAfter(s, lost).records, s.records, s.active);
  }

  lemma StepLaidOut(s: State, a: Action)
    requires Inv(s) && LaidOut(s) && Enabled(s, a)
    ensures LaidOut(After(s, a))
  {
    match a
    case Client(c) => ClientLaidOut(s, c);
    case Submit(u) => SubmitLaidOut(s, u);
    case Coordinate(o) => CoordinatorLaidOut(s, o);
    case Checkpoint(k) => CheckpointLaidOut(s, k);
    case Copy(c) => CopyLaidOut(s, c);
    case Finish(f) => RetireLaidOut(s, f);
    case Crash(lost) => CrashLaidOut(s, lost);
  }

  lemma {:induction false} EveryStateLaidOut(states: seq<State>, actions: seq<Action>, i: nat)
    requires Run(states, actions) && i < |states|
    ensures LaidOut(states[i])
  {
    if i > 0 {
      EveryStateLaidOut(states, actions, i - 1);
      NextLaidOut(states, actions, i - 1);
    }
  }

  lemma NextLaidOut(states: seq<State>, actions: seq<Action>, i: nat)
    requires Run(states, actions) && i < |actions| && LaidOut(states[i])
    ensures LaidOut(states[i + 1])
  {
    EveryStateInv(states, actions, i);
    assert StepAt(states, actions, i);
    StepLaidOut(states[i], actions[i]);
  }

  // --------------------------------------------------------- what fits into a segment

  /** Different IDs have different records. */
  predicate Spaced(t: Table, i: ID, j: ID)
    requires i in t && j in t
  {
    i != j && SegmentOf(t[i].addr) == SegmentOf(t[j].addr) ==>
      OffsetOf(t[i].addr) + t[i].size <= OffsetOf(t[j].addr) || OffsetOf(t[j].addr) + t[j].size <= OffsetOf(t[i].addr)
  }

  predicate AllSpaced(t: Table) { forall i <- t, j <- t :: Spaced(t, i, j) }

  lemma TableSpaced(records: Records, homes: set<SegmentID>, t: Table)
    requires GoodTable(records, homes, t) && Apart(records)
    ensures AllSpaced(t)
  {
    forall i <- t, j <- t ensures Spaced(t, i, j) {
      assert Good(records, homes, i, t[i]) && Good(records, homes, j, t[j]);
      assert Separate(records, t[i].addr, t[j].addr);
    }
  }

  predicate EndsBy(ref: RecordRef, segment: SegmentID, end: nat) {
    SegmentOf(ref.addr) == segment ==> OffsetOf(ref.addr) + ref.size <= end
  }

  lemma {:induction false} NoneThere(t: Table, segment: SegmentID, unit: L.Unit)
    requires forall id <- t :: SegmentOf(t[id].addr) != segment
    ensures L.Sum(t, segment, unit) == 0
    decreases |t|
  {
    if t.Keys != {} {
      var id :| id in t.Keys;
      L.SumRemove(t, id, segment, unit);
      NoneThere(t - {id}, segment, unit);
    } else {
      assert t == map[];
    }
  }

  /** The reference that lies furthest back in a segment. */
  lemma Furthest(t: Table, ids: set<ID>) returns (id: ID)
    requires ids != {} && ids <= t.Keys
    ensures id in ids && forall i <- ids :: OffsetOf(t[i].addr) <= OffsetOf(t[id].addr)
  {
    id :| id in ids;
    var rest := ids - {id};
    assert ids == rest + {id};
    if rest != {} {
      var other := Furthest(t, rest);
      if OffsetOf(t[id].addr) < OffsetOf(t[other].addr) { id := other; }
    }
  }

  /** Records that do not overlap take no more than the room they lie in. */
  lemma {:induction false} BytesFit(t: Table, segment: SegmentID, end: nat)
    requires L.ValidTable(t) && AllSpaced(t) && forall id <- t :: EndsBy(t[id], segment, end)
    ensures L.Sum(t, segment, L.Bytes) == 0 || L.Sum(t, segment, L.Bytes) + SEGMENT_HEADER_SIZE <= end
    decreases |t|
  {
    var there := set id | id in t && SegmentOf(t[id].addr) == segment;
    if there == {} {
      forall id <- t ensures SegmentOf(t[id].addr) != segment { assert id !in there; }
      NoneThere(t, segment, L.Bytes);
    } else {
      var id := Furthest(t, there);
      var rest := t - {id};
      L.SumRemove(t, id, segment, L.Bytes);
      forall i <- rest ensures EndsBy(rest[i], segment, OffsetOf(t[id].addr)) {
        assert Spaced(t, i, id) && ValidRef(t[id]) && ValidRef(t[i]);
      }
      forall i <- rest, j <- rest ensures Spaced(rest, i, j) { assert Spaced(t, i, j); }
      BytesFit(rest, segment, OffsetOf(t[id].addr));
      assert EndsBy(t[id], segment, end);
    }
  }

  lemma {:induction false} RecordsFit(t: Table, segment: SegmentID, addrs: set<VAddr>)
    requires forall id <- t | SegmentOf(t[id].addr) == segment :: t[id].addr in addrs
    requires forall i <- t, j <- t | i != j :: t[i].addr != t[j].addr
    ensures L.Sum(t, segment, L.Records) <= |addrs|
    decreases |t|
  {
    if t.Keys == {} {
      assert t == map[];
    } else {
      var id :| id in t.Keys;
      L.SumRemove(t, id, segment, L.Records);
      var rest := t - {id};
      if SegmentOf(t[id].addr) == segment {
        assert addrs == (addrs - {t[id].addr}) + {t[id].addr};
        RecordsFit(rest, segment, addrs - {t[id].addr});
      } else {
        RecordsFit(rest, segment, addrs);
      }
    }
  }

  // ------------------------------------------------------------- the statistics fit

  /** The manifest and the footers say of the sealed segments what is true: a footer's end lies
      behind every record, and it counts at least the Puts. */
  ghost predicate Describes(l: C.Layout, s: State, cut: Cut) {
    && l.active == s.active && l.replay == LogPos(cut.segment, cut.offset) && l.sealed.Keys == s.sealed
    && forall g <- s.sealed :: Footer(l.sealed[g], s.records, g)
  }

  predicate Footer(f: C.Summary, records: Records, g: SegmentID) {
    f.validEnd >= SEGMENT_HEADER_SIZE && EndsBefore(records, g, f.validEnd) && |InSegments(records, {g})| <= f.records
  }

  lemma RowFits(s: State, t: Table, cut: Cut, l: C.Layout, g: SegmentID)
    requires InvSegments(s.active, s.sealed, s.nextOutput) && GoodTable(s.records, Homes(s.sealed, s.active), t)
    requires Placed(s.records, s.active) && Apart(s.records) && CutOk(t, cut, s.active) && Describes(l, s, cut)
    requires L.Sum(t, g, L.Records) > 0
    ensures C.Collectable(g, L.LiveIn(t, g), l)
  {
    var homes := Homes(s.sealed, s.active);
    TableValid(s, t);
    TableSpaced(s.records, homes, t);
    C.HeadersFit(t, g);
    SegmentNamed(s.records, homes, t, g);
    var id :| id in t && SegmentOf(t[id].addr) == g;
    assert RefAhead(t[id], cut) && Good(s.records, homes, id, t[id]);
    if g == s.active {
      forall i <- t ensures EndsBy(t[i], g, cut.offset) { assert RefAhead(t[i], cut); }
      BytesFit(t, g, cut.offset);
    } else {
      SealedFits(s.records, homes, t, g, l.sealed[g]);
    }
  }

  lemma SealedFits(records: Records, homes: set<SegmentID>, t: Table, g: SegmentID, f: C.Summary)
    requires GoodTable(records, homes, t) && L.ValidTable(t) && AllSpaced(t) && Footer(f, records, g)
    ensures L.Sum(t, g, L.Bytes) <= f.validEnd - SEGMENT_HEADER_SIZE && L.Sum(t, g, L.Records) <= f.records
  {
    forall i <- t ensures EndsBy(t[i], g, f.validEnd) { assert Good(records, homes, i, t[i]); }
    BytesFit(t, g, f.validEnd);
    forall i <- t, j <- t | i != j ensures t[i].addr != t[j].addr {
      assert Good(records, homes, i, t[i]) && Good(records, homes, j, t[j]);
    }
    forall i <- t | SegmentOf(t[i].addr) == g ensures t[i].addr in InSegments(records, {g}) {
      assert Good(records, homes, i, t[i]);
    }
    RecordsFit(t, g, InSegments(records, {g}));
  }

  lemma TableValid(s: State, t: Table)
    requires GoodTable(s.records, Homes(s.sealed, s.active), t) && Placed(s.records, s.active)
    ensures L.ValidTable(t)
  {
    forall id <- t ensures ValidRef(t[id]) {
      assert Good(s.records, Homes(s.sealed, s.active), id, t[id]);
      assert PlacedAt(s.records, s.active, t[id].addr);
    }
  }

  lemma SegmentNamed(records: Records, homes: set<SegmentID>, t: Table, g: SegmentID)
    requires GoodTable(records, homes, t) && L.Sum(t, g, L.Records) > 0
    ensures g in homes && exists id <- t :: SegmentOf(t[id].addr) == g
  {
    if forall id <- t :: SegmentOf(t[id].addr) != g { NoneThere(t, g, L.Records); }
    var id :| id in t && SegmentOf(t[id].addr) == g;
    assert Good(records, homes, id, t[id]);
  }

  /** The statistics of a checkpoint always pass: whenever a checkpoint is about to be installed,
      whatever was rotated, published or retired since it was frozen, the rows that the engine
      collects fit the files, and the catalog accepts them with the entry count of the mapping. */
  lemma CheckpointIsAcceptable(states: seq<State>, actions: seq<Action>, i: nat, l: C.Layout,
                               stats: seq<C.SegmentStats>)
    requires Run(states, actions) && i < |states| && states[i].frozen.Some?
    requires Describes(l, states[i], states[i].frozen.value.cut) && C.Lists(stats, states[i].frozen.value.live)
    ensures var f := states[i].frozen.value;
            && ValidPos(l.replay) && C.AllCollectable(f.live, l)
            && (|f.table| <= MAX64 ==> C.Acceptable(stats, |f.table|, l))
  {
    EveryStateInv(states, actions, i);
    EveryStateLaidOut(states, actions, i);
    RowsFit(states[i], l, stats);
  }

  lemma RowsFit(s: State, l: C.Layout, stats: seq<C.SegmentStats>)
    requires Sound(s) && LaidOut(s) && s.frozen.Some? && Describes(l, s, s.frozen.value.cut)
    requires C.Lists(stats, s.frozen.value.live)
    ensures var f := s.frozen.value;
            && ValidPos(l.replay) && C.AllCollectable(f.live, l)
            && (|f.table| <= MAX64 ==> C.Acceptable(stats, |f.table|, l))
  {
    var f := s.frozen.value;
    FrozenIsExact(s);
    forall g <- f.live ensures C.Collectable(g, f.live[g], l) {
      assert L.ExactAt(f.live, f.table, g);
      RowFits(s, f.table, f.cut, l, g);
    }
    TableValid(s, f.table);
    if |f.table| <= MAX64 { C.CollectedIsAcceptable(stats, f.live, f.table, l); }
  }

  lemma FrozenIsExact(s: State)
    requires Sound(s) && s.frozen.Some?
    ensures L.Exact(s.frozen.value.live, s.frozen.value.table)
    ensures GoodTable(s.records, Homes(s.sealed, s.active), s.frozen.value.table)
    ensures InvSegments(s.active, s.sealed, s.nextOutput)
  {
  }
}
