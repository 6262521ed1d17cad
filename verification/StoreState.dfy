/** The running store as one step machine: batches and their submission
    (internal/transaction/batch.go), the coordinator's queue, admission lock and redirect table
    (internal/coordinator/coordinator.go), the durable log, checkpoints
    (internal/engine/store.go), phased data compaction (internal/engine/relocation.go,
    internal/engine/compaction_recovery.go) and crashes. Every action is one critical section
    of the source, and any enabled action may come next. */
module StoreState {
  import opened RecordLog
  import opened Mapping
  import opened LiveStats

  type BatchID = nat

  /** A Put record as it lies in the log: the batch that wrote it, and its physical size. */
  datatype Payload = Payload(id: ID, origin: BatchID, value: seq<u8>, size: u32)
  type Records = map<VAddr, Payload>
  type Redirects = map<VAddr, RecordRef>

  function RefAt(records: Records, a: VAddr): RecordRef
    requires a in records
  {
    RecordRef(a, records[a].size)
  }

  // ------------------------------------------------------------------ batches

  /** What accompanies a proposal. Submit reserves entries of the active layer for the IDs that the
      batch then has, of which the source keeps no record; Prepare adds up the bytes of the Puts. */
  datatype Ticket = Ticket(ids: set<ID>, entries: nat, bytes: nat)

  /** `Reserved` and `Prepared` are the two points at which Submit holds the shared admission
      lock: after ReserveDelta (the batch is still open) and after Prepare (it is committing). */
  datatype BatchState =
    | Open
    | Reserved(held: Ticket)
    | Prepared(body: Proposal, held: Ticket)
    | Queued
    | Committed
    | Aborted
    | Failed

  /** A mutation is a Put of a written record or, as None, a Delete. */
  datatype Batch = Batch(state: BatchState, puts: map<ID, Option<RecordRef>>, conditions: map<ID, VAddr>)
  type Batches = map<BatchID, Batch>

  predicate IsOpen(st: BatchState) { st.Open? || st.Reserved? }

  /** The states whose Put references `PendingPutRefs` reports. */
  predicate IsPending(st: BatchState) { IsOpen(st) || st.Prepared? || st.Queued? }

  /** `Prepare`: the frozen, ID-ordered proposal of a batch. */
  ghost predicate Carries(batch: Batch, body: Proposal) {
    && body.kind == UserCommit && ValidProposal(body)
    && (forall c <- body.changes ::
          c.id in batch.puts && batch.puts[c.id] == if c.op == Delete then None else Some(c.newRef))
    && (forall id <- batch.puts :: exists c <- body.changes :: c.id == id)
    && (forall c <- body.conditions :: c.id in batch.conditions && batch.conditions[c.id] == c.expected)
    && (forall id <- batch.conditions :: exists c <- body.conditions :: c.id == id)
  }

  function RedirectedPut(m: Option<RecordRef>, redirects: Redirects): Option<RecordRef> {
    if m.Some? && m.value.addr in redirects then Some(redirects[m.value.addr]) else m
  }

  /** `RewritePutRefs` on one batch; only open batches are touched. */
  function Rewritten(batch: Batch, redirects: Redirects): Batch {
    if !IsOpen(batch.state) then batch else
      batch.(puts := map id | id in batch.puts :: RedirectedPut(batch.puts[id], redirects))
  }

  function ChangeIDs(body: Proposal): set<ID> { set c | c in body.changes :: c.id }

  // ------------------------------------------------------- queue and admission

  datatype Request =
    | Commit(batch: BatchID, body: Proposal, held: Ticket)
    | Move(body: Proposal, held: Ticket)
    | Barrier
    | Install(redirects: Redirects)
    | Release

  predicate IsGroup(r: Request) { r.Commit? || r.Move? }

  /** The exclusive side of the admission lock, held across the checkpoint fence. */
  datatype Lock = Free | Fence(cut: Option<Cut>)

  /** A replay position: how many log records precede it, and where it lies. */
  datatype Cut = Cut(index: nat, segment: SegmentID, offset: u32)

  function RedirectedChange(c: Change, redirects: Redirects): Change {
    if c.op == Put && c.newRef.addr in redirects then c.(newRef := redirects[c.newRef.addr]) else c
  }

  function RedirectedChanges(cs: seq<Change>, redirects: Redirects): seq<Change> {
    seq(|cs|, i requires 0 <= i < |cs| => RedirectedChange(cs[i], redirects))
  }

  function Redirected(body: Proposal, redirects: Redirects): Proposal {
    body.(changes := RedirectedChanges(body.changes, redirects))
  }

  function Only(rs: seq<Request>, commits: bool): seq<Request> {
    if rs == [] then [] else (if rs[0].Commit? == commits then [rs[0]] else []) + Only(rs[1..], commits)
  }

  /** `orderUserBeforeRelocation`: both classes keep their order. */
  function Ordered(rs: seq<Request>): seq<Request> { Only(rs, true) + Only(rs, false) }

  function SentBody(r: Request, redirects: Redirects): Proposal
    requires IsGroup(r)
  {
    if r.Commit? then Redirected(r.body, redirects) else r.body
  }

  /** The proposals actually resolved: redirects apply to user commits only. */
  function Sent(rs: seq<Request>, redirects: Redirects): (ps: seq<Proposal>)
    requires forall r <- rs :: IsGroup(r)
    ensures |ps| == |rs|
  {
    seq(|rs|, i requires 0 <= i < |rs| => SentBody(rs[i], redirects))
  }

  // --------------------------------------------------------------- durable log

  /** A commit-group record holds the accepted proposals without their conditions. */
  datatype Entry = Group(bodies: seq<Proposal>, owners: set<BatchID>) | Marker

  /** What a descriptor says besides its changes: the batch that commits, and the value bytes. */
  datatype Tag = Tag(owner: Option<BatchID>, bytes: nat)

  /** Where a log record lies, and the tags of its proposals. */
  datatype Note = Note(segment: SegmentID, offset: u32, tags: seq<Tag>)

  function ApplyEntry(t: Table, e: Entry): Table {
    if e.Group? then PublishAll(t, ResolveAll(t, e.bodies)) else t
  }

  /** What replay computes from a table and the log records after it. */
  function Replay(t: Table, log: seq<Entry>): Table
    decreases |log|
  {
    if log == [] then t else ApplyEntry(Replay(t, log[..|log| - 1]), log[|log| - 1])
  }

  /** What replay makes of the live table on the way. */
  function ReplayLive(t: Table, live: Live, log: seq<Entry>): Live
    decreases |log|
  {
    if log == [] then live else
      var before := log[..|log| - 1];
      var e := log[|log| - 1];
      if e.Group? then AccountAll(ReplayLive(t, live, before), Flat(ResolveAll(Replay(t, before), e.bodies)))
      else ReplayLive(t, live, before)
  }

  /** The IDs that replay puts into the active layer on the way. */
  function ReplayDelta(t: Table, log: seq<Entry>): set<ID>
    decreases |log|
  {
    if log == [] then {} else
      var before := log[..|log| - 1];
      var e := log[|log| - 1];
      ReplayDelta(t, before) + if e.Group? then Applied(ResolveAll(Replay(t, before), e.bodies)) else {}
  }

  /** How far the log records advance the covered commit sequence. */
  function Commits(log: seq<Entry>): nat
    decreases |log|
  {
    if log == [] then 0 else Commits(log[..|log| - 1]) + (if log[|log| - 1].Group? then |log[|log| - 1].bodies| else 0)
  }

  // ---------------------------------------------------------------- compaction

  datatype Phase = Snapshot | Copying | Installing | Rewriting | Releasing | Publishing | Awaiting | Proved
  datatype Step = Step(from: VAddr, to: RecordRef)
  /** The relocation being published: holding the admission lock, or awaiting its result. If it
      is refused the compaction rests until the store is opened again. */
  datatype Transfer = NoMove | Staged(body: Proposal, held: Ticket) | Waiting | Refused

  /** What a compaction has found and written. `copies` maps every output record to its source;
      it is bookkeeping of the model: the source knows `origins`, for copies of unpublished Puts. */
  datatype Work = Work(
    inputs: set<SegmentID>, outputs: set<SegmentID>,
    refs: Redirects,      // unpublished Puts inside the inputs, by address
    copies: map<VAddr, VAddr>, redirects: Redirects, origins: map<VAddr, VAddr>)

  datatype Gc = Idle | Job(
    phase: Phase, work: Work,
    todo: set<BatchID>,   // batches still to snapshot, later still to rewrite
    holders: set<BatchID>,
    scan: set<VAddr>,     // records still to visit
    verify: bool,         // resumed after a crash: compare payloads instead of origins
    moves: map<ID, Step>, transfer: Transfer,
    mark: nat, since: nat, // the log and the last checkpoint run started when the relocations were done
    generation: nat)

  datatype Frozen = Frozen(table: Table, cut: Cut, live: Live, covered: nat)

  /** Live bytes and records by segment and the covered commit sequence: of the mapping, and of
      the installed checkpoint. */
  datatype Books = Books(live: Live, covered: nat, rootLive: Live, rootCovered: nat)

  /** Runs of the checkpoint worker, numbered as they start: the last one, whether it is still
      on its way, and the last one that installed a checkpoint. Bookkeeping of the model. */
  datatype Runs = Runs(run: nat, running: bool, served: nat)

  datatype State = State(
    records: Records,
    // the manifest
    active: SegmentID, sealed: set<SegmentID>, nextOutput: nat, generation: nat, root: Table, replay: Cut,
    // the coordinator
    batches: Batches, lock: Lock, queue: seq<Request>, inflight: nat, redirects: Redirects,
    // the mapping: its contents, and the IDs of the active delta layer
    table: Table, delta: set<ID>, frozen: Option<Frozen>,
    log: seq<Entry>,
    gc: Gc,
    books: Books, runs: Runs,
    issued: BatchID, // batch numbers below it have been handed out
    notes: seq<Note>) // of every log record, where it lies and what it says of its proposals

  ghost predicate Initial(s: State) {
    s == State(map[], 1, {}, COMPACTION_SEGMENT_BASE, 1, map[], Cut(0, 1, SEGMENT_HEADER_SIZE),
               map[], Free, [], 0, map[], map[], {}, None, [], Idle,
               Books(map[], 0, map[], 0), Runs(0, false, 0), 0, [])
  }

  function Homes(sealed: set<SegmentID>, active: SegmentID): set<SegmentID> { sealed + {active} }

  function InSegments(records: Records, segments: set<SegmentID>): set<VAddr> {
    set a | a in records && SegmentOf(a) in segments
  }

  // ------------------------------------------------------------- group commits

  predicate Groups(rs: seq<Request>) { forall r <- rs :: IsGroup(r) }

  predicate GroupAt(queue: seq<Request>, n: nat) { 0 < n <= |queue| && Groups(queue[..n]) }

  lemma OrderedGroups(rs: seq<Request>)
    requires Groups(rs)
    ensures Groups(Ordered(rs))
  {
    OnlyKeeps(rs, true);
    OnlyKeeps(rs, false);
  }

  lemma {:induction false} OnlyKeeps(rs: seq<Request>, commits: bool)
    ensures forall r :: r in Only(rs, commits) <==> r in rs && r.Commit? == commits
  {
    if rs != [] {
      OnlyKeeps(rs[1..], commits);
      assert rs == [rs[0]] + rs[1..];
    }
  }

  function Members(queue: seq<Request>, n: nat): (rs: seq<Request>)
    requires GroupAt(queue, n)
    ensures Groups(rs)
  {
    OrderedGroups(queue[..n]);
    Ordered(queue[..n])
  }

  function Bodies(queue: seq<Request>, n: nat, redirects: Redirects): seq<Proposal>
    requires GroupAt(queue, n)
  {
    Sent(Members(queue, n), redirects)
  }

  function Plan(queue: seq<Request>, n: nat, redirects: Redirects, table: Table): (plan: seq<ResolvedProposal>)
    requires GroupAt(queue, n)
    ensures |plan| == |Members(queue, n)|
  {
    ResolveAll(table, Bodies(queue, n, redirects))
  }

  function Owners(rs: seq<Request>): set<BatchID> { set r | r in rs && r.Commit? :: r.batch }

  function AcceptedOwners(rs: seq<Request>, plan: seq<ResolvedProposal>): set<BatchID>
    requires |rs| == |plan|
  {
    set i | 0 <= i < |rs| && rs[i].Commit? && plan[i].accepted :: rs[i].batch
  }

  function Completed(batches: Batches, owners: set<BatchID>, accepted: set<BatchID>): Batches {
    map b | b in batches ::
      if b in accepted then Batch(Committed, map[], map[])
      else if b in owners then Batch(Aborted, map[], map[])
      else batches[b]
  }

  function EntryOf(queue: seq<Request>, n: nat, redirects: Redirects, table: Table): Entry
    requires GroupAt(queue, n)
  {
    var plan := Plan(queue, n, redirects, table);
    Group(Durable(Bodies(queue, n, redirects), plan), AcceptedOwners(Members(queue, n), plan))
  }

  function TagOfRequest(r: Request): Tag {
    match r
    case Commit(b, _, held) => Tag(Some(b), held.bytes)
    case Move(_, held) => Tag(None, held.bytes)
    case _ => Tag(None, 0)
  }

  /** The tags of the accepted requests, in order. */
  function Tags(rs: seq<Request>, plan: seq<ResolvedProposal>): seq<Tag>
    requires |rs| == |plan|
  {
    if rs == [] then []
    else (if plan[0].accepted then [TagOfRequest(rs[0])] else []) + Tags(rs[1..], plan[1..])
  }

  function NoteOf(queue: seq<Request>, n: nat, redirects: Redirects, table: Table, segment: SegmentID, at: u32): Note
    requires GroupAt(queue, n)
  {
    Note(segment, at, Tags(Members(queue, n), Plan(queue, n, redirects, table)))
  }

  function Applied(plan: seq<ResolvedProposal>): set<ID> {
    set i, id | 0 <= i < |plan| && plan[i].accepted && id in AppliedIDs(plan[i].changes) :: id
  }

  // -------------------------------------------------------------------- actions

  datatype ClientOp =
    | Begin(b: BatchID)
    | PutRecord(b: BatchID, addr: VAddr, payload: Payload)
    | DeleteID(b: BatchID, id: ID)
    | Expect(b: BatchID, id: ID, expected: VAddr)
    | Fail(b: BatchID)
    | Abort(b: BatchID)
    | Forget(b: BatchID)

  /** The critical sections of Submit. */
  datatype SubmitOp =
    | Reserve(b: BatchID)
    | Prepare(b: BatchID, body: Proposal)
    | Withdraw(b: BatchID)
    | Enqueue(b: BatchID)

  datatype CoordinatorOp =
    | DropRequest(k: nat)
    | AppendGroup(n: nat, at: u32)
    | RejectGroup(n: nat)
    | PublishGroup
    | ProcessBarrier(end: u32)
    | ProcessInstall
    | ProcessRelease

  datatype CheckpointOp =
    | StartRun(run: nat)
    | EndRun
    | AcquireFence
    | Freeze
    | ReleaseFence
    | InstallCheckpoint
    | AbortCheckpoint
    | Rotate

  /** A compaction from the choice of inputs to the redirect boundary. */
  datatype CopyOp =
    | StartJob(inputs: set<SegmentID>, outputs: set<SegmentID>)
    | SnapshotBatch(b: BatchID)
    | BeginCopy
    | CopyRecord(addr: VAddr, to: VAddr)
    | Rollback
    | InstallOutputs
    | RewriteBatch(b: BatchID)
    | EnqueueRelease

  /** A compaction from the relocation of its copies to the retirement of its inputs. */
  datatype RetireOp =
    | ScanOutput(addr: VAddr)
    | StageMove(body: Proposal)
    | EnqueueMove
    | RestartPublish
    | FinishPublish
    | Prove
    | Retire

  datatype Action =
    | Client(client: ClientOp)
    | Submit(submit: SubmitOp)
    | Coordinate(coordinate: CoordinatorOp)
    | Checkpoint(checkpoint: CheckpointOp)
    | Copy(copy: CopyOp)
    | Finish(finish: RetireOp)
    | Crash(lost: set<VAddr>)

  predicate IsOpenBatch(batches: Batches, b: BatchID) { b in batches && IsOpen(batches[b].state) }

  predicate HasBatch(batches: Batches, b: BatchID, st: BatchState) { b in batches && batches[b].state == st }

  function WithBatch(s: State, b: BatchID, batch: Batch): State { s.(batches := s.batches[b := batch]) }

  /** The log is appended to: what lies in the segment ends no later than the offset. */
  predicate EndsBefore(records: Records, segment: SegmentID, offset: u32) {
    forall a <- records :: SegmentOf(a) == segment ==> EndOf(records, a) <= offset
  }

  function EndOf(records: Records, a: VAddr): nat
    requires a in records
  {
    OffsetOf(a) + records[a].size
  }

  predicate NotesBefore(notes: seq<Note>, segment: SegmentID, offset: u32) {
    forall n <- notes :: n.segment == segment ==> n.offset <= offset
  }

  /** The value bytes of what a proposal puts or moves. */
  function PayloadBytes(records: Records, cs: seq<Change>): nat {
    if cs == [] then 0 else ValueBytes(records, cs[0]) + PayloadBytes(records, cs[1..])
  }

  function ValueBytes(records: Records, c: Change): nat {
    if c.op != Delete && c.newRef.addr in records then |records[c.newRef.addr].value| else 0
  }

  /** `ReserveDelta`. */
  function Reserving(ids: set<ID>, delta: set<ID>): Ticket { Ticket(ids, |ids - delta|, 0) }

  /** A batch that is being submitted may still be changed until it is prepared. A second, different
      expectation of an ID fails the batch: that is Fail. */
  ghost predicate ClientEnabled(s: State, a: ClientOp) {
    match a
    case Begin(b) => b !in s.batches && s.issued <= b
    case PutRecord(b, addr, payload) =>
      && IsOpenBatch(s.batches, b) && payload.id != 0 && payload.origin == b
      && addr !in s.records && SegmentOf(addr) == s.active && ValidRef(RecordRef(addr, payload.size))
      && EndsBefore(s.records, s.active, OffsetOf(addr)) && NotesBefore(s.notes, s.active, OffsetOf(addr))
    case DeleteID(b, id) => IsOpenBatch(s.batches, b) && id != 0
    case Expect(b, id, expected) =>
      && IsOpenBatch(s.batches, b) && id != 0 && (expected != 0 ==> ValidAddr(expected))
      && (id in s.batches[b].conditions ==> s.batches[b].conditions[id] == expected)
    case Fail(b) => IsOpenBatch(s.batches, b)
    case Abort(b) => IsOpenBatch(s.batches, b) || HasBatch(s.batches, b, Failed)
    case Forget(b) => HasBatch(s.batches, b, Committed) || HasBatch(s.batches, b, Aborted)
  }

  ghost function ClientAfter(s: State, a: ClientOp): State
    requires ClientEnabled(s, a)
  {
    match a
    case Begin(b) => WithBatch(s, b, Batch(Open, map[], map[])).(issued := b + 1)
    case PutRecord(b, addr, payload) =>
      var batch := s.batches[b];
      WithBatch(s, b, batch.(puts := batch.puts[payload.id := Some(RecordRef(addr, payload.size))]))
        .(records := s.records[addr := payload])
    case DeleteID(b, id) => WithBatch(s, b, s.batches[b].(puts := s.batches[b].puts[id := None]))
    case Expect(b, id, expected) =>
      WithBatch(s, b, s.batches[b].(conditions := s.batches[b].conditions[id := expected]))
    case Fail(b) => WithBatch(s, b, s.batches[b].(state := Failed))
    case Abort(b) => WithBatch(s, b, Batch(Aborted, map[], map[]))
    case Forget(b) => s.(batches := s.batches - {b})
  }

  ghost predicate SubmitEnabled(s: State, a: SubmitOp) {
    match a
    case Reserve(b) => s.lock == Free && HasBatch(s.batches, b, Open)
    case Prepare(b, body) => b in s.batches && s.batches[b].state.Reserved? && Carries(s.batches[b], body)
    case Withdraw(b) => b in s.batches && (s.batches[b].state.Reserved? || s.batches[b].state.Prepared?)
    case Enqueue(b) => b in s.batches && s.batches[b].state.Prepared?
  }

  function Prepaid(s: State, held: Ticket, body: Proposal): Ticket {
    held.(bytes := PayloadBytes(s.records, body.changes))
  }

  /** Withdraw is every failure between ReserveDelta and the queue: before Prepare the batch
      stays open, afterwards it is aborted. */
  ghost function SubmitAfter(s: State, a: SubmitOp): State
    requires SubmitEnabled(s, a)
  {
    match a
    case Reserve(b) => WithBatch(s, b, s.batches[b].(state := Reserved(Reserving(s.batches[b].puts.Keys, s.delta))))
    case Prepare(b, body) =>
      WithBatch(s, b, s.batches[b].(state := Prepared(body, Prepaid(s, s.batches[b].state.held, body))))
    case Withdraw(b) =>
      WithBatch(s, b,
        if s.batches[b].state.Reserved? then s.batches[b].(state := Open) else Batch(Aborted, map[], map[]))
    case Enqueue(b) =>
      WithBatch(s, b, s.batches[b].(state := Queued))
        .(queue := s.queue + [Commit(b, s.batches[b].state.body, s.batches[b].state.held)])
  }

  function Without(queue: seq<Request>, k: nat): seq<Request>
    requires k < |queue|
  {
    queue[..k] + queue[k + 1..]
  }

  /** The plan that the coordinator hands to the mapping: every accepted proposal is charged the
      IDs it brings into the active layer. */
  function Handed(queue: seq<Request>, n: nat, redirects: Redirects, table: Table, delta: set<ID>)
    : (plan: seq<ResolvedProposal>)
    requires GroupAt(queue, n)
    ensures |plan| == |Members(queue, n)|
  {
    WithCharges(delta, Plan(queue, n, redirects, table))
  }

  /** The entries of the active layer reserved for a request. */
  function Granted(r: Request): nat { if IsGroup(r) then r.held.entries else 0 }

  /** Every accepted proposal is charged no more than was reserved for it. */
  predicate Paid(members: seq<Request>, plan: seq<ResolvedProposal>)
    requires |plan| == |members|
  {
    forall k :: 0 <= k < |plan| && plan[k].accepted ==> plan[k].deltaEntries <= Granted(members[k])
  }

  /** DropRequest is a request whose descriptor is larger than a group may be; which ones are is
      left open. A durable group that is not paid for stays unpublished until the store is
      opened again. */
  ghost predicate CoordinatorEnabled(s: State, a: CoordinatorOp) {
    match a
    case DropRequest(k) => s.inflight == 0 && k < |s.queue| && Groups(s.queue[..k]) && IsGroup(s.queue[k])
    case AppendGroup(n, at) =>
      && s.inflight == 0 && GroupAt(s.queue, n) && (exists r <- Plan(s.queue, n, s.redirects, s.table) :: r.accepted)
      && EndsBefore(s.records, s.active, at) && NotesBefore(s.notes, s.active, at)
    case RejectGroup(n) =>
      s.inflight == 0 && GroupAt(s.queue, n) && forall r <- Plan(s.queue, n, s.redirects, s.table) :: !r.accepted
    case PublishGroup =>
      && s.inflight > 0 && GroupAt(s.queue, s.inflight)
      && Paid(Members(s.queue, s.inflight), Handed(s.queue, s.inflight, s.redirects, s.table, s.delta))
    case ProcessBarrier(end) =>
      && s.inflight == 0 && |s.queue| > 0 && s.queue[0].Barrier? && ValidPos(LogPos(s.active, end))
      && EndsBefore(s.records, s.active, end) && NotesBefore(s.notes, s.active, end)
    case ProcessInstall =>
      s.inflight == 0 && |s.queue| > 0 && s.queue[0].Install? && s.redirects == map[] && s.gc.Job?
    case ProcessRelease =>
      s.inflight == 0 && |s.queue| > 0 && s.queue[0].Release? && s.redirects != map[] && s.gc.Job?
  }

  function Answered(gc: Gc, rs: seq<Request>): Gc {
    if gc.Job? && exists r <- rs :: r.Move? then gc.(transfer := NoMove) else gc
  }

  function TurnedDown(gc: Gc, r: Request): Gc { if gc.Job? && r.Move? then gc.(transfer := Refused) else gc }

  function Booked(books: Books, plan: seq<ResolvedProposal>): Books {
    books.(live := AccountAll(books.live, Flat(plan)), covered := books.covered + |Accepted(plan)|)
  }

  ghost function CoordinatorAfter(s: State, a: CoordinatorOp): State
    requires CoordinatorEnabled(s, a)
  {
    match a
    case DropRequest(k) =>
      s.(queue := Without(s.queue, k), batches := Completed(s.batches, Owners([s.queue[k]]), {}),
         gc := TurnedDown(s.gc, s.queue[k]))
    case AppendGroup(n, at) =>
      s.(inflight := n, log := s.log + [EntryOf(s.queue, n, s.redirects, s.table)],
         notes := s.notes + [NoteOf(s.queue, n, s.redirects, s.table, s.active, at)])
    case RejectGroup(n) =>
      s.(queue := s.queue[n..], batches := Completed(s.batches, Owners(Members(s.queue, n)), {}),
         gc := Answered(s.gc, s.queue[..n]))
    case PublishGroup =>
      var n, plan := s.inflight, Plan(s.queue, s.inflight, s.redirects, s.table);
      s.(queue := s.queue[n..], inflight := 0,
         table := PublishAll(s.table, plan), delta := s.delta + Applied(plan), books := Booked(s.books, plan),
         batches := Completed(s.batches, Owners(Members(s.queue, n)), AcceptedOwners(Members(s.queue, n), plan)),
         gc := Answered(s.gc, s.queue[..n]))
    case ProcessBarrier(end) =>
      s.(queue := s.queue[1..], log := s.log + [Marker], lock := Fence(Some(Cut(|s.log| + 1, s.active, end))),
         notes := s.notes + [Note(s.active, end, [])])
    case ProcessInstall =>
      s.(queue := s.queue[1..], redirects := s.queue[0].redirects,
         gc := s.gc.(phase := Rewriting, todo := s.gc.holders))
    case ProcessRelease =>
      s.(queue := s.queue[1..], redirects := map[],
         gc := s.gc.(phase := Publishing, scan := InSegments(s.records, s.gc.work.outputs)))
  }

  /** No Submit or Relocate holds the shared admission lock. */
  predicate NoSubmitter(batches: Batches, gc: Gc) {
    && (forall b <- batches :: !batches[b].state.Reserved? && !batches[b].state.Prepared?)
    && (gc.Job? ==> !gc.transfer.Staged?)
  }

  ghost predicate CheckpointEnabled(s: State, a: CheckpointOp) {
    match a
    case StartRun(n) => !s.runs.running && s.runs.run < n
    case EndRun => s.runs.running && s.lock == Free && s.frozen.None?
    case AcquireFence => s.runs.running && s.lock == Free && NoSubmitter(s.batches, s.gc) && s.frozen.None?
    case Freeze => s.lock.Fence? && s.lock.cut.Some? && s.frozen.None?
    case ReleaseFence => s.lock.Fence? && s.lock.cut.Some?
    case InstallCheckpoint => s.frozen.Some?
    case AbortCheckpoint => s.frozen.Some?
    case Rotate => s.active + 1 < COMPACTION_SEGMENT_BASE
  }

  ghost function CheckpointAfter(s: State, a: CheckpointOp): State
    requires CheckpointEnabled(s, a)
  {
    match a
    case StartRun(n) => s.(runs := Runs(n, true, s.runs.served))
    case EndRun => s.(runs := s.runs.(running := false))
    case AcquireFence => s.(lock := Fence(None), queue := s.queue + [Barrier])
    case Freeze => s.(frozen := Some(Frozen(s.table, s.lock.cut.value, s.books.live, s.books.covered)), delta := {})
    case ReleaseFence => s.(lock := Free)
    case InstallCheckpoint =>
      s.(generation := s.generation + 1, root := s.frozen.value.table, replay := s.frozen.value.cut, frozen := None,
         books := s.books.(rootLive := s.frozen.value.live, rootCovered := s.frozen.value.covered),
         runs := s.runs.(served := s.runs.run))
    case AbortCheckpoint => s.(frozen := None)
    case Rotate => s.(generation := s.generation + 1, sealed := s.sealed + {s.active}, active := s.active + 1)
  }

  // -------------------------------------------------------- compaction actions

  predicate InPhase(gc: Gc, phase: Phase) { gc.Job? && gc.phase == phase }

  /** The addresses of a batch's unpublished Puts inside the inputs (`PendingPutRefs`). */
  function PendingIn(records: Records, batch: Batch, inputs: set<SegmentID>): Redirects {
    if !IsPending(batch.state) then map[] else
      map a | a in InSegments(records, inputs) && Some(RefAt(records, a)) in batch.puts.Values :: RefAt(records, a)
  }

  predicate Live(s: State, addr: VAddr)
    requires addr in s.records
  {
    s.records[addr].id in s.table && s.table[s.records[addr].id].addr == addr
  }

  /** `publishCompactionOutputs`: whether the output record at `addr` proposes a relocation. */
  predicate Proposes(s: State, addr: VAddr)
    requires s.gc.Job? && addr in s.records
  {
    var id := s.records[addr].id;
    && id in s.table
    && SegmentOf(s.table[id].addr) in s.gc.work.inputs
    && (if addr in s.gc.work.origins then s.table[id].addr == s.gc.work.origins[addr]
        else s.table[id].addr !in s.gc.work.origins.Values)
    && (s.gc.verify ==> s.table[id].addr in s.records && s.records[s.table[id].addr] == s.records[addr])
    && id !in s.gc.moves
  }

  ghost predicate FromMoves(body: Proposal, moves: map<ID, Step>) {
    && body.kind == Relocation && ValidProposal(body)
    && forall c <- body.changes :: c.id in moves && moves[c.id] == Step(c.expectedOld, c.newRef)
  }

  /** `StatsKnownForSegment`; a sealed segment ends before ReplayStart iff its number is smaller. */
  predicate StatsKnown(replay: Cut, segment: SegmentID) { IsCompactionSegment(segment) || segment < replay.segment }

  predicate NoBatchReferences(s: State, inputs: set<SegmentID>) {
    forall b <- s.batches :: forall m <- s.batches[b].puts.Values :: m.Some? ==> SegmentOf(m.value.addr) !in inputs
  }

  ghost predicate CopyEnabled(s: State, a: CopyOp) {
    match a
    case StartJob(inputs, outputs) =>
      && s.gc.Idle? && inputs != {} && inputs <= s.sealed
      && (forall o <- outputs :: s.nextOutput <= o)
    case SnapshotBatch(b) => InPhase(s.gc, Snapshot) && b in s.gc.todo
    case BeginCopy => InPhase(s.gc, Snapshot) && s.gc.todo == {}
    case CopyRecord(addr, to) =>
      && InPhase(s.gc, Copying) && addr in s.gc.scan && addr in s.records
      && to !in s.records && SegmentOf(to) in s.gc.work.outputs && ValidRef(RecordRef(to, s.records[addr].size))
      && EndsBefore(s.records, SegmentOf(to), OffsetOf(to))
    case Rollback => InPhase(s.gc, Snapshot) || InPhase(s.gc, Copying)
    case InstallOutputs => InPhase(s.gc, Copying) && s.gc.scan == {}
    case RewriteBatch(b) => InPhase(s.gc, Rewriting) && b in s.gc.todo
    case EnqueueRelease => InPhase(s.gc, Rewriting) && s.gc.todo == {} && s.lock == Free && NoSubmitter(s.batches, s.gc)
  }

  ghost predicate RetireEnabled(s: State, a: RetireOp) {
    match a
    case ScanOutput(addr) =>
      InPhase(s.gc, Publishing) && s.gc.transfer == NoMove && addr in s.gc.scan && addr in s.records
    case StageMove(body) =>
      InPhase(s.gc, Publishing) && s.gc.transfer == NoMove && s.lock == Free && FromMoves(body, s.gc.moves)
    case EnqueueMove => InPhase(s.gc, Publishing) && s.gc.transfer.Staged?
    case RestartPublish => InPhase(s.gc, Publishing) && s.gc.transfer == NoMove
    case FinishPublish => InPhase(s.gc, Publishing) && s.gc.transfer == NoMove && s.gc.scan == {} && s.gc.moves == map[]
    case Prove =>
      && InPhase(s.gc, Awaiting) && s.gc.since < s.runs.served && NoBatchReferences(s, s.gc.work.inputs)
      && (forall i <- s.gc.work.inputs :: StatsKnown(s.replay, i) && Current(s.books.rootLive, i) == Stat(0, 0))
    case Retire => InPhase(s.gc, Proved) && s.generation == s.gc.generation
  }

  function Started(inputs: set<SegmentID>, outputs: set<SegmentID>, todo: set<BatchID>): Gc {
    Job(Snapshot, Work(inputs, outputs, map[], map[], map[], map[]), todo, {}, {}, false, map[], NoMove, 0, 0, 0)
  }

  /** A compaction interrupted after its outputs were published starts over from them. */
  function Resumed(gc: Gc, records: Records): Gc
    requires gc.Job?
  {
    Job(Publishing, Work(gc.work.inputs, gc.work.outputs, map[], map[], map[], map[]), {}, {},
        InSegments(records, gc.work.outputs), true, map[], NoMove, 0, 0, 0)
  }

  function Visited(gc: Gc, addr: VAddr): Gc
    requires gc.Job?
  {
    gc.(scan := gc.scan - {addr})
  }

  /** The record at `addr` has been copied to `to`; if it is an unpublished Put, commits of it
      are to be redirected. */
  function WithCopy(work: Work, addr: VAddr, to: RecordRef): Work {
    if addr in work.refs
    then work.(copies := work.copies[to.addr := addr], redirects := work.redirects[addr := to],
         origins := work.origins[to.addr := addr])
    else work.(copies := work.copies[to.addr := addr])
  }

  function Copied(s: State, addr: VAddr, to: VAddr): State
    requires s.gc.Job? && addr in s.records
  {
    if !Live(s, addr) && addr !in s.gc.work.refs then s.(gc := Visited(s.gc, addr)) else
      s.(records := s.records[to := s.records[addr]],
         gc := Visited(s.gc, addr).(work := WithCopy(s.gc.work, addr, RecordRef(to, s.records[addr].size))))
  }

  function WithoutSegments(records: Records, segments: set<SegmentID>): Records {
    map a | a in records && SegmentOf(a) !in segments :: records[a]
  }

  ghost function MaxOf(outputs: set<SegmentID>, least: nat): (m: nat)
    ensures m >= least && forall o <- outputs :: o < m
  {
    if outputs == {} then least else
      var o :| o in outputs;
      var rest := MaxOf(outputs - {o}, least);
      assert outputs == {o} + (outputs - {o});
      if o < rest then rest else o + 1
  }

  function OutputsGc(s: State): Gc
    requires s.gc.Job?
  {
    if s.gc.work.redirects == map[] then s.gc.(phase := Publishing, scan := InSegments(s.records, s.gc.work.outputs))
    else s.gc.(phase := Installing)
  }

  /** The outputs enter the manifest; redirects, if there are any, are installed through the queue. */
  function OutputsInstalled(s: State): State
    requires s.gc.Job?
  {
    s.(gc := OutputsGc(s), sealed := s.sealed + s.gc.work.outputs, generation := s.generation + 1,
       queue := if s.gc.work.redirects == map[] then s.queue else s.queue + [Install(s.gc.work.redirects)])
  }

  function BatchRewritten(s: State, b: BatchID): State
    requires s.gc.Job?
  {
    s.(gc := s.gc.(todo := s.gc.todo - {b}),
       batches := if b in s.batches then s.batches[b := Rewritten(s.batches[b], s.gc.work.redirects)] else s.batches)
  }

  ghost function CopyAfter(s: State, a: CopyOp): State
    requires CopyEnabled(s, a)
  {
    match a
    case StartJob(inputs, outputs) =>
      s.(generation := s.generation + 1, nextOutput := MaxOf(outputs, s.nextOutput),
         gc := Started(inputs, outputs, s.batches.Keys))
    case SnapshotBatch(b) =>
      var found := if b in s.batches then PendingIn(s.records, s.batches[b], s.gc.work.inputs) else map[];
      s.(gc := s.gc.(todo := s.gc.todo - {b}, work := s.gc.work.(refs := s.gc.work.refs + found),
                     holders := if found == map[] then s.gc.holders else s.gc.holders + {b}))
    case BeginCopy => s.(gc := s.gc.(phase := Copying, scan := InSegments(s.records, s.gc.work.inputs)))
    case CopyRecord(addr, to) => Copied(s, addr, to)
    case Rollback => s.(records := WithoutSegments(s.records, s.gc.work.outputs), gc := Idle)
    case InstallOutputs => OutputsInstalled(s)
    case RewriteBatch(b) => BatchRewritten(s, b)
    case EnqueueRelease => s.(queue := s.queue + [Release], gc := s.gc.(phase := Releasing))
  }

  ghost function RetireAfter(s: State, a: RetireOp): State
    requires RetireEnabled(s, a)
  {
    match a
    case ScanOutput(addr) =>
      var gc := s.gc.(scan := s.gc.scan - {addr});
      var id := s.records[addr].id;
      s.(gc := if Proposes(s, addr) then gc.(moves := gc.moves[id := Step(s.table[id].addr, RefAt(s.records, addr))])
               else gc)
    case StageMove(body) =>
      s.(gc := s.gc.(transfer := Staged(body, Prepaid(s, Reserving(ChangeIDs(body), s.delta), body)),
                     moves := s.gc.moves - ChangeIDs(body)))
    case EnqueueMove =>
      s.(queue := s.queue + [Move(s.gc.transfer.body, s.gc.transfer.held)], gc := s.gc.(transfer := Waiting))
    case RestartPublish => s.(gc := s.gc.(scan := InSegments(s.records, s.gc.work.outputs), moves := map[]))
    case FinishPublish => s.(gc := s.gc.(phase := Awaiting, mark := |s.log|, since := s.runs.run))
    case Prove => s.(gc := s.gc.(phase := Proved, generation := s.generation))
    case Retire =>
      s.(generation := s.generation + 1, sealed := s.sealed - s.gc.work.inputs,
         records := WithoutSegments(s.records, s.gc.work.inputs), gc := Idle)
  }

  // ------------------------------------------------------------ crash, recovery

  /** The addresses a commit record names: new references and compare-and-swap sources. */
  function Names(e: Entry): set<VAddr> {
    if e.Marker? then {} else
      (set p, c | p in e.bodies && c in p.changes && c.op != Delete :: c.newRef.addr)
      + (set p, c | p in e.bodies && c in p.changes && c.op == Relocate :: c.expectedOld)
  }

  /** A commit record is synced after everything before it, so a crash can lose only records of
      the active segment that no commit record names. */
  ghost predicate CrashEnabled(s: State, lost: set<VAddr>) {
    forall a <- lost :: SegmentOf(a) == s.active && forall e <- s.log :: a !in Names(e)
  }

  /** The log records that replay reads. */
  function Tail(log: seq<Entry>, from: nat): seq<Entry> { if from <= |log| then log[from..] else [] }

  ghost function CrashAfter(s: State, lost: set<VAddr>): State {
    var unpublished := s.gc.Job? && (s.gc.phase == Snapshot || s.gc.phase == Copying);
    var kept := if unpublished then WithoutSegments(s.records, s.gc.work.outputs) else s.records;
    var records, tail := kept - lost, Tail(s.log, s.replay.index);
    State(records, s.active, s.sealed, s.nextOutput, s.generation, s.root, s.replay,
          map[], Free, [], 0, map[],
          Replay(s.root, tail), ReplayDelta(s.root, tail), None,
          s.log,
          if s.gc.Idle? || unpublished then Idle else Resumed(s.gc, records),
          Recovered(s.root, s.books, tail), s.runs.(running := false), s.issued, s.notes)
  }

  /** Open starts from the statistics of the checkpoint and replays onto them. */
  function Recovered(root: Table, books: Books, tail: seq<Entry>): Books {
    books.(live := ReplayLive(root, books.rootLive, tail), covered := books.rootCovered + Commits(tail))
  }

  // --------------------------------------------------------------------- steps

  ghost predicate Enabled(s: State, a: Action) {
    match a
    case Client(c) => ClientEnabled(s, c)
    case Submit(u) => SubmitEnabled(s, u)
    case Coordinate(o) => CoordinatorEnabled(s, o)
    case Checkpoint(k) => CheckpointEnabled(s, k)
    case Copy(c) => CopyEnabled(s, c)
    case Finish(f) => RetireEnabled(s, f)
    case Crash(lost) => CrashEnabled(s, lost)
  }

  ghost function After(s: State, a: Action): State
    requires Enabled(s, a)
  {
    match a
    case Client(c) => ClientAfter(s, c)
    case Submit(u) => SubmitAfter(s, u)
    case Coordinate(o) => CoordinatorAfter(s, o)
    case Checkpoint(k) => CheckpointAfter(s, k)
    case Copy(c) => CopyAfter(s, c)
    case Finish(f) => RetireAfter(s, f)
    case Crash(lost) => CrashAfter(s, lost)
  }

  // Single steps as relations.

  ghost predicate ClientStep(s: State, a: ClientOp, t: State) { ClientEnabled(s, a) && t == ClientAfter(s, a) }

  ghost predicate SubmitStep(s: State, a: SubmitOp, t: State) { SubmitEnabled(s, a) && t == SubmitAfter(s, a) }

  ghost predicate CoordinatorStep(s: State, a: CoordinatorOp, t: State) {
    CoordinatorEnabled(s, a) && t == CoordinatorAfter(s, a)
  }

  ghost predicate CheckpointStep(s: State, a: CheckpointOp, t: State) {
    CheckpointEnabled(s, a) && t == CheckpointAfter(s, a)
  }

  ghost predicate CopyStep(s: State, a: CopyOp, t: State) { CopyEnabled(s, a) && t == CopyAfter(s, a) }

  ghost predicate RetireStep(s: State, a: RetireOp, t: State) { RetireEnabled(s, a) && t == RetireAfter(s, a) }

  ghost predicate CrashStep(s: State, lost: set<VAddr>, t: State) { CrashEnabled(s, lost) && t == CrashAfter(s, lost) }

  ghost predicate Next(s: State, a: Action, t: State) { Enabled(s, a) && t == After(s, a) }
}
