/** What every reachable state of the store machine satisfies. */
module StoreInvariant {
  import opened RecordLog
  import opened Mapping
  import opened StoreState

  // ---------------------------------------------------------- references

  /** The reference names a record of that ID which still exists. */
  predicate Good(records: Records, homes: set<SegmentID>, id: ID, ref: RecordRef) {
    && ref.addr in records && SegmentOf(ref.addr) in homes
    && records[ref.addr].id == id && records[ref.addr].size == ref.size
  }

  predicate GoodTable(records: Records, homes: set<SegmentID>, t: Table) {
    forall id <- t :: Good(records, homes, id, t[id])
  }

  predicate GoodPuts(records: Records, homes: set<SegmentID>, puts: map<ID, Option<RecordRef>>) {
    forall id <- puts :: puts[id].Some? ==> Good(records, homes, id, puts[id].value)
  }

  predicate GoodChange(records: Records, homes: set<SegmentID>, c: Change) {
    && (c.op != Delete ==> Good(records, homes, c.id, c.newRef))
    && (c.op == Relocate ==> c.expectedOld in records && SegmentOf(c.expectedOld) in homes)
  }

  predicate GoodEntry(records: Records, homes: set<SegmentID>, e: Entry) {
    e.Group? ==> forall p <- e.bodies :: forall c <- p.changes :: GoodChange(records, homes, c)
  }

  /** Nothing in these segments is referenced. */
  predicate CleanTable(t: Table, segments: set<SegmentID>) { forall id <- t :: SegmentOf(t[id].addr) !in segments }

  predicate CleanPuts(puts: map<ID, Option<RecordRef>>, segments: set<SegmentID>) {
    forall id <- puts :: puts[id].Some? ==> SegmentOf(puts[id].value.addr) !in segments
  }

  predicate CleanBody(body: Proposal, segments: set<SegmentID>) {
    forall c <- body.changes :: c.op == Put ==> SegmentOf(c.newRef.addr) !in segments
  }

  predicate CleanEntry(e: Entry, segments: set<SegmentID>) { forall a <- Names(e) :: SegmentOf(a) !in segments }

  // ------------------------------------------------------------- batches, queue

  /** The proposal publishes only Puts that the batch holds. */
  predicate BodyOf(body: Proposal, puts: map<ID, Option<RecordRef>>) {
    && body.kind == UserCommit
    && forall c <- body.changes ::
         c.op != Relocate && c.id in puts && (c.op == Put ==> puts[c.id] == Some(c.newRef))
  }

  /** Enough is reserved for the IDs the reservation was made for. */
  predicate Holding(held: Ticket, delta: set<ID>) { |held.ids - delta| <= held.entries }

  predicate BatchOk(records: Records, homes: set<SegmentID>, delta: set<ID>, batch: Batch) {
    && (IsPending(batch.state) ==> GoodPuts(records, homes, batch.puts))
    && (batch.state.Reserved? ==> Holding(batch.state.held, delta))
    && (batch.state.Prepared? ==> BodyOf(batch.state.body, batch.puts) && Holding(batch.state.held, delta))
  }

  ghost predicate InvBatches(records: Records, homes: set<SegmentID>, delta: set<ID>, batches: Batches) {
    forall b <- batches :: BatchOk(records, homes, delta, batches[b])
  }

  predicate Logged(log: seq<Entry>, b: BatchID) { exists e <- log :: e.Group? && b in e.owners }

  /** A committed batch has its commit record in the log. */
  ghost predicate InvAcknowledged(log: seq<Entry>, batches: Batches) {
    forall b <- batches :: batches[b].state.Committed? ==> Logged(log, b)
  }

  ghost predicate CommitBacked(batches: Batches, delta: set<ID>, b: BatchID, body: Proposal,
                               held: Ticket) {
    HasBatch(batches, b, Queued) && BodyOf(body, batches[b].puts) && Holding(held, delta)
  }

  /** What stands behind a queued commit. */
  ghost predicate InvCommits(queue: seq<Request>, batches: Batches, delta: set<ID>) {
    forall r <- queue :: r.Commit? ==> CommitBacked(batches, delta, r.batch, r.body, r.held)
  }

  /** One relocation: the copy carries the payload of the record it replaces. */
  predicate GoodMove(work: Work, records: Records, homes: set<SegmentID>, c: Change)
  {
    && c.op == Relocate
    && Good(records, homes, c.id, c.newRef) && SegmentOf(c.newRef.addr) in work.outputs
    && c.expectedOld in records && SegmentOf(c.expectedOld) in work.inputs
    && records[c.expectedOld] == records[c.newRef.addr]
  }

  predicate GoodMoves(work: Work, records: Records, homes: set<SegmentID>, body: Proposal)
  {
    body.kind == Relocation && body.conditions == [] && forall c <- body.changes :: GoodMove(work, records, homes, c)
  }

  ghost predicate MoveBacked(gc: Gc, records: Records, homes: set<SegmentID>, delta: set<ID>, body: Proposal,
                             held: Ticket) {
    && InPhase(gc, Publishing) && gc.transfer == Waiting
    && GoodMoves(gc.work, records, homes, body) && held.ids == ChangeIDs(body) && Holding(held, delta)
  }

  ghost predicate InvQueuedMoves(queue: seq<Request>, gc: Gc, records: Records, homes: set<SegmentID>, delta: set<ID>) {
    forall r <- queue :: r.Move? ==> MoveBacked(gc, records, homes, delta, r.body, r.held)
  }

  predicate ControlBacked(r: Request, lock: Lock, gc: Gc) {
    match r
    case Commit(_, _, _) => true
    case Move(_, _) => true
    case Barrier => lock == Fence(None)
    case Install(redirects) => InPhase(gc, Installing) && redirects == gc.work.redirects
    case Release => InPhase(gc, Releasing)
  }

  ghost predicate InvControls(queue: seq<Request>, lock: Lock, gc: Gc) {
    forall r <- queue :: ControlBacked(r, lock, gc)
  }

  function Inputs(gc: Gc): set<SegmentID> { if gc.Job? then gc.work.inputs else {} }

  /** One request per batch and one of every other kind; nothing is admitted behind a barrier;
      what is admitted behind a Release has been rewritten. */
  predicate InOrder(inputs: set<SegmentID>, a: Request, b: Request) {
    && (a.Commit? && b.Commit? ==> a.batch != b.batch)
    && !(a.Move? && b.Move?) && !(a.Barrier? && b.Barrier?) && !(a.Install? && b.Install?)
    && !(a.Release? && b.Release?)
    && (a.Barrier? ==> !IsGroup(b))
    && (a.Release? && b.Commit? ==> CleanBody(b.body, inputs))
  }

  ghost predicate InvOrder(queue: seq<Request>, inputs: set<SegmentID>) {
    forall i, j :: 0 <= i < j < |queue| ==> InOrder(inputs, queue[i], queue[j])
  }

  ghost predicate InvLock(lock: Lock, batches: Batches, gc: Gc, queue: seq<Request>, inflight: nat, records: nat) {
    && (lock.Fence? ==> NoSubmitter(batches, gc))
    && (lock.Fence? && lock.cut.Some? ==>
          inflight == 0 && (forall r <- queue :: !IsGroup(r)) && lock.cut.value.index == records)
  }

  // ----------------------------------------------------------------- log, table

  /** How many log records the mapping reflects: all but the one in flight. */
  function Published(log: seq<Entry>, inflight: nat): nat { if inflight > 0 && |log| > 0 then |log| - 1 else |log| }

  ghost predicate InvInflight(queue: seq<Request>, inflight: nat, redirects: Redirects, table: Table, log: seq<Entry>) {
    inflight > 0 ==>
      && GroupAt(queue, inflight) && |log| > 0
      && log[|log| - 1] == EntryOf(queue, inflight, redirects, table)
  }

  /** The mapping, the checkpoint being built and the installed root are what replaying the log
      from an empty store gives at their respective positions. */
  ghost predicate InvLog(log: seq<Entry>, published: nat, table: Table, root: Table, replay: Cut,
                         frozen: Option<Frozen>) {
    && replay.index <= published <= |log|
    && table == Replay(map[], log[..published])
    && root == Replay(map[], log[..replay.index])
    && (frozen.Some? ==>
          && replay.index <= frozen.value.cut.index <= published
          && frozen.value.table == Replay(map[], log[..frozen.value.cut.index]))
  }

  ghost predicate InvTables(records: Records, homes: set<SegmentID>, table: Table, root: Table,
                            frozen: Option<Frozen>) {
    && GoodTable(records, homes, table)
    && GoodTable(records, homes, root)
    && (frozen.Some? ==> GoodTable(records, homes, frozen.value.table))
  }

  /** Replay finds every record that a commit record at or after ReplayStart names. */
  ghost predicate InvEntries(records: Records, homes: set<SegmentID>, log: seq<Entry>, from: nat) {
    forall i :: from <= i < |log| ==> GoodEntry(records, homes, log[i])
  }

  ghost predicate InvSegments(active: SegmentID, sealed: set<SegmentID>, nextOutput: nat) {
    && active < COMPACTION_SEGMENT_BASE <= nextOutput
    && (forall g <- sealed :: if IsCompactionSegment(g) then g < nextOutput else g < active)
  }

  /** Compaction segments are numbered afresh. */
  ghost predicate InvAddresses(records: Records, nextOutput: nat) {
    forall a <- records :: SegmentOf(a) < nextOutput
  }

  // ----------------------------------------------------------------- compaction

  predicate Unpublished(phase: Phase) { phase == Snapshot || phase == Copying }
  predicate Redirecting(phase: Phase) { phase == Rewriting || phase == Releasing }
  predicate Boundary(phase: Phase) { phase == Publishing || phase == Awaiting || phase == Proved }

  ghost predicate InvJob(gc: Gc, sealed: set<SegmentID>, nextOutput: nat, redirects: Redirects) {
    && redirects == (if gc.Job? && Redirecting(gc.phase) then gc.work.redirects else map[])
    && (gc.Job? ==>
          && gc.work.inputs <= sealed
          && (forall o <- gc.work.outputs :: COMPACTION_SEGMENT_BASE <= o < nextOutput)
          && (if Unpublished(gc.phase) then gc.work.outputs !! sealed else gc.work.outputs <= sealed)
          && gc.work.inputs !! gc.work.outputs
          && (gc.phase == Installing || Redirecting(gc.phase) ==> gc.work.redirects != map[])
          && (gc.phase != Publishing ==> gc.transfer == NoMove && gc.moves == map[])
          && (gc.phase == Snapshot ==>
             gc.work.copies == map[] && gc.work.redirects == map[] && gc.work.origins == map[])
          && (gc.verify ==>
             Boundary(gc.phase) && gc.work.refs == map[] && gc.work.copies == map[] && gc.work.origins == map[]))
  }

  predicate GoodSource(work: Work, records: Records, a: VAddr)
    requires a in work.refs
  {
    a in records && SegmentOf(a) in work.inputs && work.refs[a] == RefAt(records, a)
  }

  predicate GoodCopy(work: Work, records: Records, n: VAddr)
    requires n in work.copies
  {
    && n in records && SegmentOf(n) in work.outputs
    && work.copies[n] in records && SegmentOf(work.copies[n]) in work.inputs
    && records[n] == records[work.copies[n]]
    && (if n in work.origins then work.origins[n] == work.copies[n] && work.copies[n] in work.refs
        else work.copies[n] !in work.refs)
  }

  predicate GoodRedirect(work: Work, records: Records, a: VAddr)
    requires a in work.redirects
  {
    var n := work.redirects[a].addr;
    a in work.refs && n in work.copies && n in work.origins && work.origins[n] == a
      && n in records && work.redirects[a] == RefAt(records, n)
  }

  /** Copies are payload-equal, and the copy of an unpublished Put is known by its origin. */
  ghost predicate InvLinks(work: Work, records: Records) {
    && (forall a <- work.refs :: GoodSource(work, records, a))
    && (forall n <- work.copies :: GoodCopy(work, records, n))
    && (forall n <- work.origins :: n in work.copies)
    && (forall a <- work.redirects :: GoodRedirect(work, records, a))
  }

  /** Every unpublished Put is copied by the end of the scan, and outputs hold copies only. */
  ghost predicate InvCoverage(gc: Gc, records: Records)
    requires gc.Job?
  {
      match gc.phase
      case Snapshot => InSegments(records, gc.work.outputs) == {}
      case Copying =>
        && (forall a <- gc.work.refs :: a in gc.work.redirects || a in gc.scan)
        && InSegments(records, gc.work.outputs) <= gc.work.copies.Keys && gc.scan <= InSegments(records, gc.work.inputs)
      case _ =>
        && (forall a <- gc.work.refs :: a in gc.work.redirects)
        && (!gc.verify ==> InSegments(records, gc.work.outputs) <= gc.work.copies.Keys)
        && (gc.phase == Publishing ==> gc.scan <= InSegments(records, gc.work.outputs))
  }

  ghost predicate InvCopies(gc: Gc, records: Records) {
    gc.Job? ==> InvLinks(gc.work, records) && InvCoverage(gc, records)
  }

  /** The snapshot holds every reference into the inputs that a commit may still publish. */
  predicate Contained(puts: map<ID, Option<RecordRef>>, inputs: set<SegmentID>, refs: Redirects) {
    forall id <- puts :: puts[id].Some? && SegmentOf(puts[id].value.addr) in inputs ==> puts[id].value.addr in refs
  }

  /** Batches whose references into the inputs have not been dealt with yet. */
  function Suspects(gc: Gc): set<BatchID>
    requires gc.Job?
  {
    if gc.phase == Snapshot then gc.todo + gc.holders
    else if gc.phase == Copying || gc.phase == Installing then gc.holders
    else if gc.phase == Rewriting then gc.todo
    else {}
  }

  predicate CleanBatch(gc: Gc, b: BatchID, batch: Batch)
    requires gc.Job?
  {
    && (IsPending(batch.state) && !Boundary(gc.phase) && !(gc.phase == Snapshot && b in gc.todo) ==>
          Contained(batch.puts, gc.work.inputs, gc.work.refs))
    && (IsOpen(batch.state) && b !in Suspects(gc) ==> CleanPuts(batch.puts, gc.work.inputs))
    && (batch.state.Prepared? && (gc.phase == Releasing || Boundary(gc.phase)) ==>
          CleanPuts(batch.puts, gc.work.inputs))
    && (gc.phase == Proved ==> CleanPuts(batch.puts, gc.work.inputs))
  }

  ghost predicate InvBoundary(gc: Gc, batches: Batches) {
    gc.Job? ==> forall b <- batches :: CleanBatch(gc, b, batches[b])
  }

  ghost predicate InvQueueBoundary(gc: Gc, queue: seq<Request>) {
    gc.Job? && Boundary(gc.phase) ==> forall r <- queue :: r.Commit? ==> CleanBody(r.body, gc.work.inputs)
  }

  /** Of the versions of one ID inside the inputs, a copy that is not of an unpublished Put can
      only come from the version that has been current ever since the snapshot. */
  predicate SameVersion(work: Work, records: Records, table: Table, source: VAddr)
  {
    source in records && records[source].id in table ==>
      var current := table[records[source].id].addr;
      SegmentOf(current) in work.inputs && current !in work.refs ==> current == source
  }

  ghost predicate Versions(work: Work, records: Records, table: Table) {
    forall n <- work.copies :: work.copies[n] !in work.refs ==> SameVersion(work, records, table, work.copies[n])
  }

  ghost predicate InvVersions(gc: Gc, records: Records, table: Table) {
    gc.Job? ==> Versions(gc.work, records, table)
  }

  function AsChange(id: ID, step: Step): Change { Change(id, step.to, step.from, Relocate) }

  ghost predicate InvMoves(gc: Gc, records: Records, homes: set<SegmentID>, delta: set<ID>) {
    gc.Job? ==>
      && (forall id <- gc.moves :: GoodMove(gc.work, records, homes, AsChange(id, gc.moves[id])))
      && (gc.transfer.Staged? ==>
            && GoodMoves(gc.work, records, homes, gc.transfer.body)
            && gc.transfer.held.ids == ChangeIDs(gc.transfer.body) && Holding(gc.transfer.held, delta))
  }

  ghost predicate InvMark(gc: Gc, log: seq<Entry>, generation: nat, replay: nat, root: Table) {
    gc.Job? && (gc.phase == Awaiting || gc.phase == Proved) ==>
      && gc.mark <= |log|
      && (forall i :: gc.mark <= i < |log| ==> CleanEntry(log[i], gc.work.inputs))
      && (gc.phase == Proved ==>
            && gc.generation <= generation
            && (generation == gc.generation ==> gc.mark <= replay && CleanTable(root, gc.work.inputs)))
  }

  ghost predicate InvStorage(s: State) {
    var homes := Homes(s.sealed, s.active);
    && InvSegments(s.active, s.sealed, s.nextOutput)
    && InvAddresses(s.records, s.nextOutput)
    && InvLog(s.log, Published(s.log, s.inflight), s.table, s.root, s.replay, s.frozen)
    && InvInflight(s.queue, s.inflight, s.redirects, s.table, s.log)
    && InvTables(s.records, homes, s.table, s.root, s.frozen)
    && InvEntries(s.records, homes, s.log, s.replay.index)
  }

  ghost predicate InvProtocol(s: State) {
    var homes := Homes(s.sealed, s.active);
    && InvBatches(s.records, homes, s.delta, s.batches)
    && InvAcknowledged(s.log, s.batches)
    && InvCommits(s.queue, s.batches, s.delta)
    && InvQueuedMoves(s.queue, s.gc, s.records, homes, s.delta)
    && InvControls(s.queue, s.lock, s.gc)
    && InvOrder(s.queue, Inputs(s.gc))
    && InvLock(s.lock, s.batches, s.gc, s.queue, s.inflight, |s.log|)
  }

  ghost predicate InvCompaction(s: State) {
    && InvJob(s.gc, s.sealed, s.nextOutput, s.redirects)
    && InvCopies(s.gc, s.records)
    && InvBoundary(s.gc, s.batches)
    && InvQueueBoundary(s.gc, s.queue)
    && InvVersions(s.gc, s.records, s.table)
    && InvMoves(s.gc, s.records, Homes(s.sealed, s.active), s.delta)
    && InvMark(s.gc, s.log, s.generation, s.replay.index, s.root)
  }

  ghost predicate Inv(s: State) { InvStorage(s) && InvProtocol(s) && InvCompaction(s) }
}
