/** Compaction leaves nothing behind: every current record of an input is copied, every copy that
    is still needed is proposed, and when the relocations are done the mapping names nothing in the
    inputs (`compactSegmentsCopy` and `publishCompactionOutputs` of internal/engine/relocation.go). */
module StoreCoverage {
  import opened RecordLog
  import opened Mapping
  import opened StoreState
  import opened StoreInvariant
  import opened StoreReplay
  import opened StoreGroup
  import opened StoreTheorems
  import opened StoreOrder
  import opened StoreOutcome
  import H = StoreHistory
  import L = LiveStats
  import StoreLayout
  import StoreClient
  import StoreCoordinator
  import StoreCrash

  // --------------------------------------------------------------- what has been copied

  predicate HasCopy(work: Work, a: VAddr) { exists n <- work.copies :: work.copies[n] == a }

  predicate Duplicated(work: Work, records: Records, a: VAddr) {
    a in records && exists n <- records :: SegmentOf(n) in work.outputs && records[n] == records[a]
  }

  /** A record that has its copy, or will be visited. A job that was resumed no longer knows which
      record a copy was made from. */
  predicate Copies(gc: Gc, records: Records, a: VAddr)
    requires gc.Job?
  {
    if gc.verify then Duplicated(gc.work, records, a)
    else HasCopy(gc.work, a) || (gc.phase == Copying && a in gc.scan)
  }

  /** All current records of the inputs are copied. */
  predicate Covers(gc: Gc, records: Records, table: Table)
    requires gc.Job?
  {
    forall id <- table :: SegmentOf(table[id].addr) in gc.work.inputs ==> Copies(gc, records, table[id].addr)
  }

  // ------------------------------------------------------------- what is being relocated

  /** The output record is a copy of the ID's record at that address. */
  predicate Suits(gc: Gc, records: Records, n: VAddr, id: ID, a: VAddr)
    requires gc.Job?
  {
    && n in records && records[n].id == id && SegmentOf(n) in gc.work.outputs
    && if gc.verify then a in records && records[n] == records[a] else n in gc.work.copies && gc.work.copies[n] == a
  }

  predicate Relocates(body: Proposal, id: ID, a: VAddr) { exists c <- body.changes :: c.id == id && c.expectedOld == a }

  /** The relocation of an ID away from an address is still to come. */
  predicate Handled(gc: Gc, queue: seq<Request>, records: Records, id: ID, a: VAddr)
    requires gc.Job?
  {
    || (exists n <- gc.scan :: Suits(gc, records, n, id, a))
    || (id in gc.moves && gc.moves[id].from == a)
    || (gc.transfer.Staged? && Relocates(gc.transfer.body, id, a))
    || (exists r <- queue :: r.Move? && Relocates(r.body, id, a))
  }

  predicate AllHandled(gc: Gc, queue: seq<Request>, records: Records, table: Table)
    requires gc.Job?
  {
    forall id <- table ::
      SegmentOf(table[id].addr) in gc.work.inputs ==> Handled(gc, queue, records, id, table[id].addr)
  }

  predicate MovesCurrent(gc: Gc, table: Table)
    requires gc.Job?
  {
    forall id <- gc.moves :: id in table && SegmentOf(table[id].addr) in gc.work.inputs ==>
      gc.moves[id].from == table[id].addr
  }

  predicate InPass(gc: Gc, queue: seq<Request>, records: Records, table: Table)
    requires gc.Job?
  {
    gc.transfer != Refused ==> AllHandled(gc, queue, records, table) && MovesCurrent(gc, table)
  }

  /** When the relocations were done the mapping named nothing in the inputs. */
  ghost predicate MarkClean(gc: Gc, log: seq<Entry>)
    requires gc.Job?
  {
    gc.mark <= |log| && CleanTable(Replay(map[], log[..gc.mark]), gc.work.inputs)
  }

  ghost predicate OnTrack(gc: Gc, queue: seq<Request>, records: Records, table: Table, log: seq<Entry>) {
    gc.Job? ==>
      match gc.phase
      case Snapshot => true
      case Publishing => Covers(gc, records, table) && InPass(gc, queue, records, table)
      case Awaiting => MarkClean(gc, log)
      case Proved => MarkClean(gc, log)
      case _ => Covers(gc, records, table)
  }

  ghost predicate Tracked(s: State) { OnTrack(s.gc, s.queue, s.records, s.table, s.log) }

  // ----------------------------------------------------------------------- frame steps

  predicate Grows(records: Records, more: Records) { forall a <- records :: a in more && more[a] == records[a] }

  predicate KeepsMoves(queue: seq<Request>, after: seq<Request>) { forall r <- queue :: r.Move? ==> r in after }

  lemma CoversGrow(gc: Gc, records: Records, more: Records, table: Table)
    requires gc.Job? && Covers(gc, records, table) && Grows(records, more)
    ensures Covers(gc, more, table)
  {
    forall id <- table | SegmentOf(table[id].addr) in gc.work.inputs ensures Copies(gc, more, table[id].addr) {
      var a := table[id].addr;
      assert Copies(gc, records, a);
      if gc.verify {
        var n :| n in records && SegmentOf(n) in gc.work.outputs && records[n] == records[a];
        assert n in more && more[n] == more[a];
      }
    }
  }

  lemma HandledGrows(gc: Gc, queue: seq<Request>, records: Records, after: seq<Request>, more: Records, id: ID,
                     a: VAddr)
    requires gc.Job? && Handled(gc, queue, records, id, a) && Grows(records, more) && KeepsMoves(queue, after)
    ensures Handled(gc, after, more, id, a)
  {
    if n :| n in gc.scan && Suits(gc, records, n, id, a) { assert Suits(gc, more, n, id, a); }
  }

  lemma TrackGrows(gc: Gc, queue: seq<Request>, records: Records, table: Table, log: seq<Entry>, after: seq<Request>,
                   more: Records, log2: seq<Entry>)
    requires OnTrack(gc, queue, records, table, log) && Grows(records, more) && KeepsMoves(queue, after) && log <= log2
    ensures OnTrack(gc, after, more, table, log2)
  {
    if gc.Job? {
      if gc.phase == Awaiting || gc.phase == Proved {
        assert log2[..gc.mark] == log[..gc.mark];
      } else if gc.phase != Snapshot {
        CoversGrow(gc, records, more, table);
        if gc.phase == Publishing && gc.transfer != Refused {
          forall id <- table | SegmentOf(table[id].addr) in gc.work.inputs
            ensures Handled(gc, after, more, id, table[id].addr)
          {
            HandledGrows(gc, queue, records, after, more, id, table[id].addr);
          }
        }
      }
    }
  }

  /** Neither the job nor the mapping changes. */
  ghost predicate Aside(s: State, t: State) {
    t.gc == s.gc && t.table == s.table && Grows(s.records, t.records) && KeepsMoves(s.queue, t.queue) && s.log <= t.log
  }

  lemma AsideTracked(s: State, t: State)
    requires Tracked(s) && Aside(s, t)
    ensures Tracked(t)
  {
    TrackGrows(s.gc, s.queue, s.records, s.table, s.log, t.queue, t.records, t.log);
  }

  // ------------------------------------------------------------------------ a new pass

  lemma PassBegins(gc: Gc, queue: seq<Request>, records: Records, homes: set<SegmentID>, table: Table)
    requires gc.Job? && gc.phase == Publishing && gc.moves == map[] && gc.scan == InSegments(records, gc.work.outputs)
    requires Covers(gc, records, table) && InvLinks(gc.work, records) && GoodTable(records, homes, table)
    ensures InPass(gc, queue, records, table)
  {
    forall id <- table | SegmentOf(table[id].addr) in gc.work.inputs
      ensures Handled(gc, queue, records, id, table[id].addr)
    {
      var a := table[id].addr;
      assert Copies(gc, records, a) && Good(records, homes, id, table[id]);
      var n := CopyOf(gc, records, a);
      assert Suits(gc, records, n, id, a);
    }
  }

  lemma CopyOf(gc: Gc, records: Records, a: VAddr) returns (n: VAddr)
    requires gc.Job? && gc.phase != Copying && Copies(gc, records, a) && InvLinks(gc.work, records) && a in records
    ensures n in records && SegmentOf(n) in gc.work.outputs && records[n] == records[a]
    ensures !gc.verify ==> n in gc.work.copies && gc.work.copies[n] == a
  {
    if gc.verify {
      n :| n in records && SegmentOf(n) in gc.work.outputs && records[n] == records[a];
    } else {
      n :| n in gc.work.copies && gc.work.copies[n] == a;
      assert GoodCopy(gc.work, records, n);
    }
  }

  // ------------------------------------------------------------------ groups take effect

  /** What a group may bring into the inputs: only Puts of the snapshot, before the redirects. */
  ghost function Allowed(gc: Gc, t: Table): iset<(ID, RecordRef)>
    requires gc.Job?
  {
    iset p: (ID, RecordRef) |
      || (p.0 in t && t[p.0] == p.1) || SegmentOf(p.1.addr) !in gc.work.inputs
      || ((gc.phase == Copying || gc.phase == Installing) && p.1.addr in gc.work.refs)
  }

  ghost predicate BringsAllowed(gc: Gc, t: Table, after: Table)
    requires gc.Job?
  {
    forall id <- after :: (id, after[id]) in Allowed(gc, t)
  }

  lemma GroupBrings(s: State, n: nat)
    requires Inv(s) && GroupAt(s.queue, n) && s.gc.Job? && s.gc.phase != Snapshot
    ensures BringsAllowed(s.gc, s.table, PublishAll(s.table, Plan(s.queue, n, s.redirects, s.table)))
  {
    var ok, bodies := Allowed(s.gc, s.table), Bodies(s.queue, n, s.redirects);
    forall p <- bodies, c <- p.changes ensures ChangeWithin(c, ok) {
      GroupChange(s, n, p, c);
      StoreCoordinator.OutputsOutside(s);
    }
    PublishWithin(s.table, bodies, ok);
  }

  lemma CoversAfter(gc: Gc, records: Records, table: Table, after: Table)
    requires gc.Job? && gc.phase != Snapshot && Covers(gc, records, table) && BringsAllowed(gc, table, after)
    requires InvLinks(gc.work, records) && InvCoverage(gc, records) && (gc.verify ==> Boundary(gc.phase))
    ensures Covers(gc, records, after)
  {
    forall id <- after | SegmentOf(after[id].addr) in gc.work.inputs ensures Copies(gc, records, after[id].addr) {
      var a := after[id].addr;
      assert (id, after[id]) in Allowed(gc, table);
      if !(id in table && table[id] == after[id]) && a in gc.work.redirects {
        assert GoodRedirect(gc.work, records, a) && GoodCopy(gc.work, records, gc.work.redirects[a].addr);
      }
    }
  }

  /** After a relocation away from an address the ID is elsewhere, wherever it was before. */
  lemma {:induction false} MoveLeaves(t: Table, cs: seq<Change>, id: ID, a: VAddr, inputs: set<SegmentID>)
    requires SegmentOf(a) in inputs && forall c <- cs :: c.op == Relocate && SegmentOf(c.newRef.addr) !in inputs
    requires (id in t ==> t[id].addr != a) || exists c <- cs :: c.id == id && c.expectedOld == a
    ensures var t2 := EffectAll(t, ResolveChanges(Relocation, t, cs)); id in t2 ==> t2[id].addr != a
    decreases |cs|
  {
    if cs != [] {
      Unfold(Relocation, t, cs);
      var next := Effect(t, ResolveChange(Relocation, t, cs[0]));
      assert cs[0] in cs && forall c <- cs[1..] :: c in cs;
      if !(id in next ==> next[id].addr != a) {
        var c :| c in cs && c.id == id && c.expectedOld == a;
        assert c != cs[0] && c in cs[1..];
      }
      MoveLeaves(next, cs[1..], id, a, inputs);
    }
  }

  /** The only relocation of a group is its last member. */
  lemma MoveIsLast(queue: seq<Request>, n: nat, inputs: set<SegmentID>, i: nat)
    requires InvOrder(queue, inputs) && GroupAt(queue, n) && i < n && queue[i].Move?
    ensures PlaceOf(queue, n, i) + 1 == |Members(queue, n)| && Members(queue, n)[PlaceOf(queue, n, i)] == queue[i]
  {
    GroupOrder(queue, n, i);
    var last := |Members(queue, n)| - 1;
    var x := PlaceTaken(queue, n, last);
    GroupOrder(queue, n, x);
    assert queue[..n][x] in queue[..n] && queue[..n][i] in queue[..n];
    assert x == i;
  }

  lemma MovedAway(s: State, i: nat, id: ID, a: VAddr)
    requires Inv(s) && s.gc.Job? && GroupAt(s.queue, s.inflight) && i < s.inflight && s.queue[i].Move?
    requires Relocates(s.queue[i].body, id, a) && SegmentOf(a) in s.gc.work.inputs
    ensures var after := PublishAll(s.table, Plan(s.queue, s.inflight, s.redirects, s.table));
            id in after ==> after[id].addr != a
  {
    var ps, k, r := Bodies(s.queue, s.inflight, s.redirects), PlaceOf(s.queue, s.inflight, i), s.queue[i];
    MoveIsLast(s.queue, s.inflight, Inputs(s.gc), i);
    assert r in s.queue;
    assert MoveBacked(s.gc, s.records, Homes(s.sealed, s.active), s.delta, r.body, r.held);
    forall c <- r.body.changes ensures c.op == Relocate && SegmentOf(c.newRef.addr) !in s.gc.work.inputs {
      MoveChange(s, r, c);
      StoreCoordinator.OutputsOutside(s);
    }
    var t := TableAt(s.table, ps, k);
    MoveLeaves(t, r.body.changes, id, a, s.gc.work.inputs);
    LastTable(s.table, ps, k);
  }

  lemma LastTable(t: Table, ps: seq<Proposal>, k: nat)
    requires k + 1 == |ps| && ps[k].kind == Relocation && ps[k].conditions == []
    ensures PublishAll(t, ResolveAll(t, ps))
            == EffectAll(TableAt(t, ps, k), ResolveChanges(Relocation, TableAt(t, ps, k), ps[k].changes))
  {
    AtTheEnd(t, ps);
    NextTable(t, ps, k);
  }

  /** The group is answered; none of its relocations was this one. */
  lemma HandledStill(gc: Gc, gc2: Gc, queue: seq<Request>, n: nat, records: Records, id: ID, a: VAddr)
    requires gc.Job? && gc2.Job? && gc2 == gc.(transfer := gc2.transfer) && (gc.transfer.Staged? ==> gc2 == gc)
    requires n <= |queue| && forall i | 0 <= i < n && queue[i].Move? :: !Relocates(queue[i].body, id, a)
    requires Handled(gc, queue, records, id, a)
    ensures Handled(gc2, queue[n..], records, id, a)
  {
    if m :| m in gc.scan && Suits(gc, records, m, id, a) {
      assert Suits(gc2, records, m, id, a);
    } else if r :| r in queue && r.Move? && Relocates(r.body, id, a) {
      var i :| 0 <= i < |queue| && queue[i] == r;
      assert r == queue[n..][i - n];
    }
  }

  lemma HandledAfter(s: State, after: Table, id: ID, a: VAddr)
    requires Inv(s) && s.inflight > 0 && InPhase(s.gc, Publishing) && SegmentOf(a) in s.gc.work.inputs
    requires after == PublishAll(s.table, Plan(s.queue, s.inflight, s.redirects, s.table))
    requires Handled(s.gc, s.queue, s.records, id, a) && id in after && after[id].addr == a
    ensures Handled(Answered(s.gc, s.queue[..s.inflight]), s.queue[s.inflight..], s.records, id, a)
  {
    var gc2 := Answered(s.gc, s.queue[..s.inflight]);
    if s.gc.transfer.Staged? { NothingQueued(s); }
    forall i | 0 <= i < s.inflight && s.queue[i].Move? ensures !Relocates(s.queue[i].body, id, a) {
      if Relocates(s.queue[i].body, id, a) { MovedAway(s, i, id, a); }
    }
    HandledStill(s.gc, gc2, s.queue, s.inflight, s.records, id, a);
  }

  lemma NothingQueued(s: State)
    requires InvQueuedMoves(s.queue, s.gc, s.records, Homes(s.sealed, s.active), s.delta) && s.gc.Job?
    requires s.gc.transfer != Waiting
    ensures forall r <- s.queue :: !r.Move?
  {
    forall r <- s.queue ensures !r.Move? {}
  }

  lemma PublishTracked(s: State, t: State)
    requires Inv(s) && Tracked(s) && CoordinatorStep(s, PublishGroup, t)
    ensures Tracked(t)
  {
    if s.gc.Job? {
      if s.gc.phase == Snapshot || s.gc.phase == Awaiting || s.gc.phase == Proved {
        AnsweredTrack(s.gc, t.gc, s.queue, s.records, s.table, s.log, t.queue, t.table);
      } else {
        PublishOnTrack(s, t.table, t.gc);
      }
    }
  }

  lemma PublishOnTrack(s: State, after: Table, gc2: Gc)
    requires Inv(s) && Tracked(s) && s.inflight > 0 && s.gc.Job?
    requires s.gc.phase != Snapshot && s.gc.phase != Awaiting && s.gc.phase != Proved
    requires after == PublishAll(s.table, Plan(s.queue, s.inflight, s.redirects, s.table))
    requires gc2 == Answered(s.gc, s.queue[..s.inflight])
    ensures OnTrack(gc2, s.queue[s.inflight..], s.records, after, s.log)
  {
    PublishCovers(s, after);
    SameCovers(s.gc, gc2, s.records, after);
    if s.gc.phase == Publishing { PublishPass(s, after, gc2); }
    CoveredTrack(gc2, s.queue[s.inflight..], s.records, after, s.log);
  }

  /** In these phases the mapping is not looked at. */
  lemma AnsweredTrack(gc: Gc, gc2: Gc, queue: seq<Request>, records: Records, table: Table, log: seq<Entry>,
                      after: seq<Request>, table2: Table)
    requires gc.Job? && gc2.Job? && gc2 == gc.(transfer := gc2.transfer) && OnTrack(gc, queue, records, table, log)
    requires gc.phase == Snapshot || gc.phase == Awaiting || gc.phase == Proved
    ensures OnTrack(gc2, after, records, table2, log)
  {
  }

  lemma CoveredTrack(gc: Gc, queue: seq<Request>, records: Records, table: Table, log: seq<Entry>)
    requires gc.Job? && gc.phase != Awaiting && gc.phase != Proved && Covers(gc, records, table)
    requires gc.phase == Publishing ==> InPass(gc, queue, records, table)
    ensures OnTrack(gc, queue, records, table, log)
  {
  }

  lemma PublishCovers(s: State, after: Table)
    requires Inv(s) && s.inflight > 0 && s.gc.Job? && s.gc.phase != Snapshot && Covers(s.gc, s.records, s.table)
    requires after == PublishAll(s.table, Plan(s.queue, s.inflight, s.redirects, s.table))
    ensures Covers(s.gc, s.records, after) && BringsAllowed(s.gc, s.table, after)
  {
    GroupBrings(s, s.inflight);
    CoversAfter(s.gc, s.records, s.table, after);
  }

  /** The transfer is not looked at. */
  lemma SameCovers(gc: Gc, gc2: Gc, records: Records, table: Table)
    requires gc.Job? && gc2.Job? && gc2 == gc.(transfer := gc2.transfer) && Covers(gc, records, table)
    ensures Covers(gc2, records, table)
  {
    forall id <- table | SegmentOf(table[id].addr) in gc.work.inputs ensures Copies(gc2, records, table[id].addr) {
      assert Copies(gc, records, table[id].addr);
    }
  }

  lemma PublishPass(s: State, after: Table, gc2: Gc)
    requires Inv(s) && s.inflight > 0 && InPhase(s.gc, Publishing) && InPass(s.gc, s.queue, s.records, s.table)
    requires after == PublishAll(s.table, Plan(s.queue, s.inflight, s.redirects, s.table))
    requires BringsAllowed(s.gc, s.table, after) && gc2 == Answered(s.gc, s.queue[..s.inflight])
    ensures InPass(gc2, s.queue[s.inflight..], s.records, after)
  {
    AnsweredIn(s);
    if gc2.transfer != Refused {
      forall id <- after | SegmentOf(after[id].addr) in gc2.work.inputs
        ensures Handled(gc2, s.queue[s.inflight..], s.records, id, after[id].addr)
      {
        assert (id, after[id]) in Allowed(s.gc, s.table);
        HandledAfter(s, after, id, after[id].addr);
      }
      MovesStill(s.gc, s.table, after);
    }
  }

  lemma MovesStill(gc: Gc, table: Table, after: Table)
    requires gc.Job? && gc.phase == Publishing && MovesCurrent(gc, table) && BringsAllowed(gc, table, after)
    ensures MovesCurrent(gc, after)
  {
    forall id <- gc.moves | id in after && SegmentOf(after[id].addr) in gc.work.inputs
      ensures gc.moves[id].from == after[id].addr
    {
      assert (id, after[id]) in Allowed(gc, table);
    }
  }

  /** A refused relocation stays refused. */
  lemma AnsweredIn(s: State)
    requires InvQueuedMoves(s.queue, s.gc, s.records, Homes(s.sealed, s.active), s.delta) && s.gc.Job?
    requires s.inflight <= |s.queue|
    ensures Answered(s.gc, s.queue[..s.inflight]).transfer != Refused ==> s.gc.transfer != Refused
  {
    if s.gc.transfer == Refused { NothingQueued(s); }
  }

  // --------------------------------------------------------------------- the coordinator

  lemma RejectAside(s: State, n: nat, t: State)
    requires Inv(s) && CoordinatorStep(s, RejectGroup(n), t)
    ensures Aside(s, t)
  {
    forall r <- s.queue[..n] ensures !r.Move? { NoMoveRejected(s, n, r); }
    TailKeepsMoves(s.queue, n);
    NoMoveAnswered(s.gc, s.queue[..n]);
  }

  lemma NoMoveAnswered(gc: Gc, rs: seq<Request>)
    requires forall r <- rs :: !r.Move?
    ensures Answered(gc, rs) == gc
  {
  }

  lemma TailKeepsMoves(queue: seq<Request>, n: nat)
    requires n <= |queue| && forall r <- queue[..n] :: !r.Move?
    ensures KeepsMoves(queue, queue[n..])
  {
    assert queue == queue[..n] + queue[n..];
  }

  lemma NoMoveRejected(s: State, n: nat, r: Request)
    requires Inv(s) && CoordinatorEnabled(s, RejectGroup(n)) && r in s.queue[..n]
    ensures !r.Move?
  {
    if r.Move? {
      var i :| 0 <= i < n && s.queue[..n][i] == r;
      GroupOrder(s.queue, n, i);
      MovesAreAccepted(s, n, PlaceOf(s.queue, n, i));
    }
  }

  lemma DropTracked(s: State, k: nat, t: State)
    requires Inv(s) && Tracked(s) && CoordinatorStep(s, DropRequest(k), t)
    ensures Tracked(t)
  {
    if s.queue[k].Move? {
      StoreCoordinator.RelocationQueued(s, k);
      RefusedTracked(s.gc, t.gc, s.queue, t.queue, s.records, s.table, s.log);
    } else {
      DroppedKeepsMoves(s.queue, k);
      AsideTracked(s, t);
    }
  }

  lemma RefusedTracked(gc: Gc, gc2: Gc, queue: seq<Request>, after: seq<Request>, records: Records, table: Table,
                       log: seq<Entry>)
    requires InPhase(gc, Publishing) && gc2 == gc.(transfer := Refused) && OnTrack(gc, queue, records, table, log)
    ensures OnTrack(gc2, after, records, table, log)
  {
    SameCovers(gc, gc2, records, table);
  }

  lemma DroppedKeepsMoves(queue: seq<Request>, k: nat)
    requires k < |queue| && !queue[k].Move?
    ensures KeepsMoves(queue, Without(queue, k))
  {
    assert queue == queue[..k] + [queue[k]] + queue[k + 1..];
  }

  lemma InstallTracked(s: State, t: State)
    requires Inv(s) && Tracked(s) && CoordinatorStep(s, ProcessInstall, t)
    ensures Tracked(t)
  {
    assert ControlBacked(s.queue[0], s.lock, s.gc);
    PhaseCovers(s.gc, t.gc, s.records, s.table);
  }

  /** Once the scan is done only the copies and the outputs matter. */
  lemma PhaseCovers(gc: Gc, gc2: Gc, records: Records, table: Table)
    requires gc.Job? && gc2.Job? && gc2.work == gc.work && gc2.verify == gc.verify && Covers(gc, records, table)
    requires gc.phase == Copying ==> gc.scan == {}
    ensures Covers(gc2, records, table)
  {
    forall id <- table | SegmentOf(table[id].addr) in gc.work.inputs ensures Copies(gc2, records, table[id].addr) {
      assert Copies(gc, records, table[id].addr);
    }
  }

  lemma ReleaseTracked(s: State, t: State)
    requires Inv(s) && Tracked(s) && CoordinatorStep(s, ProcessRelease, t)
    ensures Tracked(t)
  {
    assert ControlBacked(s.queue[0], s.lock, s.gc);
    PhaseCovers(s.gc, t.gc, s.records, s.table);
    PassBegins(t.gc, t.queue, s.records, Homes(s.sealed, s.active), s.table);
  }

  lemma AppendAside(s: State, a: CoordinatorOp, t: State)
    requires CoordinatorStep(s, a, t) && (a.AppendGroup? || a.ProcessBarrier?)
    ensures Aside(s, t)
  {
    if a.ProcessBarrier? {
      forall r <- s.queue | r.Move? ensures r in t.queue { assert s.queue == [s.queue[0]] + s.queue[1..]; }
    }
  }

  lemma CoordinatorTracked(s: State, a: CoordinatorOp, t: State)
    requires Inv(s) && Tracked(s) && CoordinatorStep(s, a, t)
    ensures Tracked(t)
  {
    match a
    case DropRequest(k) => DropTracked(s, k, t);
    case RejectGroup(n) =>
      RejectAside(s, n, t);
      AsideTracked(s, t);
    case PublishGroup => PublishTracked(s, t);
    case ProcessInstall => InstallTracked(s, t);
    case ProcessRelease => ReleaseTracked(s, t);
    case _ =>
      AppendAside(s, a, t);
      AsideTracked(s, t);
  }

  // ------------------------------------------------------------ clients and checkpoints

  lemma ClientAside(s: State, a: ClientOp)
    requires ClientEnabled(s, a)
    ensures Aside(s, ClientAfter(s, a))
  {
  }

  lemma SubmitAside(s: State, a: SubmitOp)
    requires SubmitEnabled(s, a)
    ensures Aside(s, SubmitAfter(s, a))
  {
  }

  lemma CheckpointAside(s: State, a: CheckpointOp)
    requires CheckpointEnabled(s, a)
    ensures Aside(s, CheckpointAfter(s, a))
  {
  }

  // ------------------------------------------------------------------------ the copying

  lemma BeginTracked(s: State, t: State)
    requires Inv(s) && CopyStep(s, BeginCopy, t)
    ensures Tracked(t)
  {
    forall id <- s.table | SegmentOf(s.table[id].addr) in s.gc.work.inputs
      ensures Copies(t.gc, s.records, s.table[id].addr)
    {
      assert Good(s.records, Homes(s.sealed, s.active), id, s.table[id]);
    }
  }

  /** A visited record is copied if it is current. */
  lemma CopyCovers(gc: Gc, gc2: Gc, records: Records, more: Records, table: Table, addr: VAddr, to: VAddr)
    requires gc.Job? && gc2.Job? && gc.phase == gc2.phase == Copying && !gc.verify && !gc2.verify
    requires Covers(gc, records, table) && gc2.scan == gc.scan - {addr} && gc2.work.inputs == gc.work.inputs
    requires gc2.work.copies == gc.work.copies
             || (to !in gc.work.copies && gc2.work.copies == gc.work.copies[to := addr])
    requires gc2.work.copies == gc.work.copies ==> forall id <- table :: table[id].addr != addr
    ensures Covers(gc2, more, table)
  {
    forall id <- table | SegmentOf(table[id].addr) in gc.work.inputs ensures Copies(gc2, more, table[id].addr) {
      var a := table[id].addr;
      assert Copies(gc, records, a);
      if n :| n in gc.work.copies && gc.work.copies[n] == a {
        assert gc2.work.copies[n] == a;
      } else if a == addr {
        assert gc2.work.copies[to] == a;
      }
    }
  }

  lemma CopiedTracked(s: State, addr: VAddr, to: VAddr, t: State)
    requires Inv(s) && Tracked(s) && CopyEnabled(s, CopyRecord(addr, to)) && t == Copied(s, addr, to)
    ensures Tracked(t)
  {
    NewCopy(s.gc.work, s.records, to);
    if !Live(s, addr) { NotCurrent(s, addr); }
    CopiedJob(s, addr, to, t);
    CopyCovers(s.gc, t.gc, s.records, t.records, s.table, addr, to);
  }

  lemma NewCopy(work: Work, records: Records, to: VAddr)
    requires InvLinks(work, records) && to !in records
    ensures to !in work.copies
  {
  }

  /** What copying does to the job. */
  lemma CopiedJob(s: State, addr: VAddr, to: VAddr, t: State)
    requires InPhase(s.gc, Copying) && addr in s.records && t == Copied(s, addr, to)
    ensures t.gc.Job? && t.gc.phase == Copying && t.gc.verify == s.gc.verify && t.table == s.table
    ensures t.gc.scan == s.gc.scan - {addr} && t.gc.work.inputs == s.gc.work.inputs
    ensures if Live(s, addr) || addr in s.gc.work.refs then t.gc.work.copies == s.gc.work.copies[to := addr]
            else t.gc.work.copies == s.gc.work.copies
  {
  }

  lemma NotCurrent(s: State, addr: VAddr)
    requires GoodTable(s.records, Homes(s.sealed, s.active), s.table) && addr in s.records && !Live(s, addr)
    ensures forall id <- s.table :: s.table[id].addr != addr
  {
    forall id <- s.table ensures s.table[id].addr != addr {
      assert Good(s.records, Homes(s.sealed, s.active), id, s.table[id]);
    }
  }

  lemma InstallOutputsTracked(s: State, t: State)
    requires Inv(s) && Tracked(s) && CopyEnabled(s, InstallOutputs) && t == OutputsInstalled(s)
    ensures Tracked(t)
  {
    PhaseCovers(s.gc, t.gc, s.records, s.table);
    if t.gc.phase == Publishing { PassBegins(t.gc, t.queue, s.records, Homes(s.sealed, s.active), s.table); }
  }

  lemma EarlyTracked(s: State, a: CopyOp, t: State)
    requires Tracked(s) && CopyStep(s, a, t)
    requires a.StartJob? || a.SnapshotBatch? || a.Rollback?
    ensures Tracked(t)
  {
  }

  lemma BoundaryTracked(s: State, a: CopyOp, t: State)
    requires Tracked(s) && CopyStep(s, a, t) && (a.RewriteBatch? || a.EnqueueRelease?)
    ensures Tracked(t)
  {
    BoundaryJob(s, a, t);
    PhaseCovers(s.gc, t.gc, s.records, s.table);
  }

  lemma BoundaryJob(s: State, a: CopyOp, t: State)
    requires CopyStep(s, a, t) && (a.RewriteBatch? || a.EnqueueRelease?)
    ensures s.gc.Job? && t.gc.Job? && t.gc.work == s.gc.work && t.gc.verify == s.gc.verify
    ensures s.gc.phase == Rewriting && (t.gc.phase == Rewriting || t.gc.phase == Releasing)
    ensures t.records == s.records && t.table == s.table
  {
  }

  lemma CopyTracked(s: State, a: CopyOp, t: State)
    requires Inv(s) && Tracked(s) && CopyStep(s, a, t)
    ensures Tracked(t)
  {
    match a
    case BeginCopy => BeginTracked(s, t);
    case CopyRecord(addr, to) => CopiedTracked(s, addr, to, t);
    case InstallOutputs => InstallOutputsTracked(s, t);
    case RewriteBatch(b) => BoundaryTracked(s, a, t);
    case EnqueueRelease => BoundaryTracked(s, a, t);
    case _ => EarlyTracked(s, a, t);
  }

  // ------------------------------------------------------------------------ the relocations

  /** Visiting a copy of the current record of an ID proposes to move it there, unless that has
      been proposed already. */
  lemma ScanProposes(s: State, n: VAddr, id: ID)
    requires Inv(s) && InPhase(s.gc, Publishing) && n in s.records && id !in s.gc.moves
    requires id in s.table && SegmentOf(s.table[id].addr) in s.gc.work.inputs
    requires Suits(s.gc, s.records, n, id, s.table[id].addr)
    ensures Proposes(s, n)
  {
    var a, work := s.table[id].addr, s.gc.work;
    assert Good(s.records, Homes(s.sealed, s.active), id, s.table[id]);
    if !s.gc.verify {
      assert GoodCopy(work, s.records, n);
      if n !in work.origins && a in work.origins.Values { PendingOrigin(work, s.records, a); }
    }
  }

  lemma PendingOrigin(work: Work, records: Records, a: VAddr)
    requires InvLinks(work, records) && a in work.origins.Values
    ensures a in work.refs
  {
    var n :| n in work.origins && work.origins[n] == a;
    assert GoodCopy(work, records, n);
  }

  lemma ScanTracked(s: State, n: VAddr, t: State)
    requires Inv(s) && Tracked(s) && RetireStep(s, ScanOutput(n), t)
    ensures Tracked(t)
  {
    ScanJob(s, n, t);
    PhaseCovers(s.gc, t.gc, s.records, s.table);
    ScanPass(s, n, t.gc);
    CoveredTrack(t.gc, t.queue, t.records, t.table, t.log);
  }

  lemma ScanPass(s: State, n: VAddr, gc: Gc)
    requires Inv(s) && InPhase(s.gc, Publishing) && s.gc.transfer == NoMove && Scanned(s, n, gc)
    requires InPass(s.gc, s.queue, s.records, s.table)
    ensures InPass(gc, s.queue, s.records, s.table)
  {
    forall id <- s.table | SegmentOf(s.table[id].addr) in s.gc.work.inputs
      ensures Handled(gc, s.queue, s.records, id, s.table[id].addr)
    {
      ScanHandles(s, n, gc, id);
    }
  }

  /** What a visit does to the job. */
  lemma ScanJob(s: State, n: VAddr, t: State)
    requires RetireStep(s, ScanOutput(n), t)
    ensures Scanned(s, n, t.gc) && t.queue == s.queue && t.records == s.records && t.table == s.table && t.log == s.log
  {
  }

  predicate Scanned(s: State, n: VAddr, gc: Gc) {
    && s.gc.Job? && n in s.records && gc.Job? && gc == s.gc.(scan := s.gc.scan - {n}, moves := gc.moves)
    && gc.moves == if Proposes(s, n)
                   then s.gc.moves[s.records[n].id := Step(s.table[s.records[n].id].addr, RefAt(s.records, n))]
                   else s.gc.moves
  }

  lemma ScanHandles(s: State, n: VAddr, gc: Gc, id: ID)
    requires Inv(s) && InPhase(s.gc, Publishing) && s.gc.transfer == NoMove && Scanned(s, n, gc)
    requires id in s.table && SegmentOf(s.table[id].addr) in s.gc.work.inputs && MovesCurrent(s.gc, s.table)
    requires Handled(s.gc, s.queue, s.records, id, s.table[id].addr)
    ensures Handled(gc, s.queue, s.records, id, s.table[id].addr)
  {
    VisitLeaves(s.gc, gc, s.queue, s.records, n, id, s.table[id].addr);
    if !Handled(gc, s.queue, s.records, id, s.table[id].addr) { ScanProposes(s, n, id); }
  }

  lemma VisitLeaves(gc: Gc, gc2: Gc, queue: seq<Request>, records: Records, n: VAddr, id: ID, a: VAddr)
    requires gc.Job? && gc2.Job? && gc2 == gc.(scan := gc.scan - {n}, moves := gc2.moves)
    requires Handled(gc, queue, records, id, a) && (id in gc.moves ==> gc.moves[id].from == a)
    requires id in gc.moves ==> id in gc2.moves && gc2.moves[id].from == a
    ensures Handled(gc2, queue, records, id, a) || (Suits(gc, records, n, id, a) && id !in gc.moves)
  {
    if m :| m in gc.scan && Suits(gc, records, m, id, a) { assert m != n ==> Suits(gc2, records, m, id, a); }
  }

  /** What staging a relocation does to the job. */
  lemma StageTracked(s: State, body: Proposal, t: State)
    requires Tracked(s) && RetireStep(s, StageMove(body), t)
    ensures Tracked(t)
  {
    PhaseCovers(s.gc, t.gc, s.records, s.table);
    StageHandles(s.gc, t.gc, s.queue, s.records, s.table, body);
  }

  lemma StageHandles(gc: Gc, gc2: Gc, queue: seq<Request>, records: Records, table: Table, body: Proposal)
    requires gc.Job? && gc2.Job? && gc.transfer == NoMove && FromMoves(body, gc.moves)
    requires gc2 == gc.(transfer := gc2.transfer, moves := gc.moves - ChangeIDs(body))
    requires gc2.transfer.Staged? && gc2.transfer.body == body && InPass(gc, queue, records, table)
    ensures InPass(gc2, queue, records, table)
  {
    forall id <- table | SegmentOf(table[id].addr) in gc.work.inputs
      ensures Handled(gc2, queue, records, id, table[id].addr)
    {
      var a := table[id].addr;
      assert Handled(gc, queue, records, id, a);
      if n :| n in gc.scan && Suits(gc, records, n, id, a) {
        assert Suits(gc2, records, n, id, a);
      } else if id in gc.moves && id in ChangeIDs(body) {
        var c :| c in body.changes && c.id == id;
        assert gc.moves[c.id] == Step(c.expectedOld, c.newRef);
      }
    }
  }

  lemma EnqueueTracked(s: State, t: State)
    requires Tracked(s) && RetireStep(s, EnqueueMove, t)
    ensures Tracked(t)
  {
    PhaseCovers(s.gc, t.gc, s.records, s.table);
    EnqueueHandles(s.gc, t.gc, s.queue, Move(s.gc.transfer.body, s.gc.transfer.held), s.records, s.table);
  }

  lemma EnqueueHandles(gc: Gc, gc2: Gc, queue: seq<Request>, r: Request, records: Records, table: Table)
    requires gc.Job? && gc2 == gc.(transfer := Waiting) && gc.transfer.Staged? && r.Move? && r.body == gc.transfer.body
    requires InPass(gc, queue, records, table)
    ensures InPass(gc2, queue + [r], records, table)
  {
    forall id <- table | SegmentOf(table[id].addr) in gc.work.inputs
      ensures Handled(gc2, queue + [r], records, id, table[id].addr)
    {
      var a := table[id].addr;
      assert Handled(gc, queue, records, id, a);
      if n :| n in gc.scan && Suits(gc, records, n, id, a) {
        assert Suits(gc2, records, n, id, a);
      } else if Relocates(gc.transfer.body, id, a) {
        assert r in queue + [r];
      } else if q :| q in queue && q.Move? && Relocates(q.body, id, a) {
        assert q in queue + [r];
      }
    }
  }

  lemma RestartTracked(s: State, t: State)
    requires Inv(s) && Tracked(s) && RetireStep(s, RestartPublish, t)
    ensures Tracked(t)
  {
    PhaseCovers(s.gc, t.gc, s.records, s.table);
    PassBegins(t.gc, t.queue, s.records, Homes(s.sealed, s.active), s.table);
  }

  /** With nothing left to visit, to stage or to publish, nothing is left in the inputs. */
  lemma NothingLeft(s: State)
    requires Inv(s) && Tracked(s) && RetireEnabled(s, FinishPublish)
    ensures CleanTable(s.table, s.gc.work.inputs)
  {
    NothingQueued(s);
    NothingHandled(s.gc, s.queue, s.records, s.table);
  }

  lemma NothingHandled(gc: Gc, queue: seq<Request>, records: Records, table: Table)
    requires gc.Job? && gc.scan == {} && gc.moves == map[] && gc.transfer == NoMove && forall r <- queue :: !r.Move?
    requires InPass(gc, queue, records, table)
    ensures CleanTable(table, gc.work.inputs)
  {
    forall id <- table ensures SegmentOf(table[id].addr) !in gc.work.inputs {
      assert !Handled(gc, queue, records, id, table[id].addr);
    }
  }

  lemma LogClean(s: State)
    requires Inv(s) && s.gc.Job? && s.gc.phase == Publishing && CleanTable(s.table, s.gc.work.inputs)
    ensures CleanTable(Replay(map[], s.log), s.gc.work.inputs)
  {
    if s.inflight > 0 {
      var after := PublishAll(s.table, Plan(s.queue, s.inflight, s.redirects, s.table));
      StoreCoordinator.PublishedTable(s);
      GroupBrings(s, s.inflight);
      forall id <- after ensures SegmentOf(after[id].addr) !in s.gc.work.inputs {
        assert (id, after[id]) in Allowed(s.gc, s.table);
      }
    } else {
      assert s.log[..|s.log|] == s.log;
    }
  }

  lemma FinishTracked(s: State, t: State)
    requires Inv(s) && Tracked(s) && RetireStep(s, FinishPublish, t)
    ensures Tracked(t)
  {
    NothingLeft(s);
    LogClean(s);
    assert t.log[..t.gc.mark] == s.log;
  }

  lemma RetireTracked(s: State, a: RetireOp, t: State)
    requires Inv(s) && Tracked(s) && RetireStep(s, a, t)
    ensures Tracked(t)
  {
    match a
    case ScanOutput(n) => ScanTracked(s, n, t);
    case StageMove(body) => StageTracked(s, body, t);
    case EnqueueMove => EnqueueTracked(s, t);
    case RestartPublish => RestartTracked(s, t);
    case FinishPublish => FinishTracked(s, t);
    case Prove => ProveTracked(s, t);
    case Retire =>
  }

  lemma ProveTracked(s: State, t: State)
    requires Tracked(s) && RetireStep(s, Prove, t)
    ensures Tracked(t)
  {
  }

  // ------------------------------------------------------------------------------ crashes

  /** What recovery finds in the inputs has its copy in an output. */
  lemma SettledCovers(s: State, after: Table)
    requires Inv(s) && Tracked(s) && s.gc.Job? && !Unpublished(s.gc.phase)
    requires after == Replay(map[], s.log)
    requires after == if s.inflight > 0 then PublishAll(s.table, Plan(s.queue, s.inflight, s.redirects, s.table))
                      else s.table
    ensures Covers(s.gc, s.records, after)
  {
    if s.gc.phase == Awaiting || s.gc.phase == Proved {
      MarkedClean(s, |s.log|);
      assert s.log[..|s.log|] == s.log;
    } else if s.inflight > 0 {
      PublishCovers(s, after);
    }
  }

  /** From the mark on every replay gives a mapping clear of the inputs. */
  lemma MarkedClean(s: State, k: nat)
    requires Inv(s) && s.gc.Job? && (s.gc.phase == Awaiting || s.gc.phase == Proved) && MarkClean(s.gc, s.log)
    requires s.gc.mark <= k <= |s.log|
    ensures CleanTable(Replay(map[], s.log[..k]), s.gc.work.inputs)
  {
    ReplayFrom(s.log, s.gc.mark, k);
    forall e <- s.log[s.gc.mark..k] ensures CleanEntry(e, s.gc.work.inputs) {
      var i :| 0 <= i < k - s.gc.mark && s.log[s.gc.mark..k][i] == e;
      assert CleanEntry(s.log[s.gc.mark + i], s.gc.work.inputs);
    }
    ReplayClean(Replay(map[], s.log[..s.gc.mark]), s.log[s.gc.mark..k], s.gc.work.inputs);
  }

  lemma ResumedCovers(gc: Gc, gc2: Gc, records: Records, homes: set<SegmentID>, left: Records, table: Table,
                      active: SegmentID)
    requires gc.Job? && gc2.Job? && gc2.verify && gc.phase != Copying && InvLinks(gc.work, records)
    requires gc2.work.inputs == gc.work.inputs && gc2.work.outputs == gc.work.outputs
    requires Covers(gc, records, table) && GoodTable(records, homes, table)
    requires active !in gc.work.inputs && active !in gc.work.outputs
    requires forall a <- records | SegmentOf(a) != active :: a in left && left[a] == records[a]
    ensures Covers(gc2, left, table)
  {
    forall id <- table | SegmentOf(table[id].addr) in gc.work.inputs ensures Copies(gc2, left, table[id].addr) {
      var a := table[id].addr;
      assert Copies(gc, records, a) && Good(records, homes, id, table[id]);
      var n := CopyOf(gc, records, a);
      assert left[n] == left[a];
    }
  }

  lemma CrashTracked(s: State, lost: set<VAddr>, t: State)
    requires Inv(s) && Inv(t) && Tracked(s) && CrashStep(s, lost, t)
    ensures Tracked(t)
  {
    if t.gc.Job? {
      StoreCrash.CrashTable(s, lost);
      SettledCovers(s, t.table);
      StoreClient.ActiveIsOutside(s);
      ResumedCovers(s.gc, t.gc, s.records, Homes(s.sealed, s.active), t.records, t.table, s.active);
      PassBegins(t.gc, t.queue, t.records, Homes(t.sealed, t.active), t.table);
    }
  }

  // --------------------------------------------------------------------------- every run

  lemma StepTracked(s: State, a: Action, t: State)
    requires Inv(s) && Inv(t) && Tracked(s) && Next(s, a, t)
    ensures Tracked(t)
  {
    match a
    case Client(c) =>
      ClientAside(s, c);
      AsideTracked(s, t);
    case Submit(u) =>
      SubmitAside(s, u);
      AsideTracked(s, t);
    case Coordinate(o) => CoordinatorTracked(s, o, t);
    case Checkpoint(k) =>
      CheckpointAside(s, k);
      AsideTracked(s, t);
    case Copy(c) => CopyTracked(s, c, t);
    case Finish(f) => RetireTracked(s, f, t);
    case Crash(lost) => CrashTracked(s, lost, t);
  }

  lemma NextTracked(states: seq<State>, actions: seq<Action>, i: nat)
    requires Run(states, actions) && i < |actions| && Tracked(states[i])
    ensures Tracked(states[i + 1])
  {
    H.ReadyToStep(states, actions, i);
    StepTracked(states[i], actions[i], states[i + 1]);
  }

  lemma {:induction false} EveryStateTracked(states: seq<State>, actions: seq<Action>, i: nat)
    requires Run(states, actions) && i < |states|
    ensures Tracked(states[i])
  {
    if i > 0 {
      EveryStateTracked(states, actions, i - 1);
      NextTracked(states, actions, i - 1);
    }
  }

  /** On every run, when the outputs of a compaction are installed, every mapping entry inside the
      inputs has a copy in the outputs. */
  lemma EverythingLiveIsCopied(states: seq<State>, actions: seq<Action>, i: nat, id: ID) returns (n: VAddr)
    requires Run(states, actions) && i < |actions| && actions[i] == Copy(InstallOutputs)
    requires states[i].gc.Job? && id in states[i].table
    requires SegmentOf(states[i].table[id].addr) in states[i].gc.work.inputs
    ensures var s := states[i];
            && n in s.gc.work.copies && s.gc.work.copies[n] == s.table[id].addr
            && n in s.records && SegmentOf(n) in s.gc.work.outputs && s.table[id].addr in s.records
            && s.records[n] == s.records[s.table[id].addr]
  {
    EveryStateTracked(states, actions, i);
    H.ReadyToStep(states, actions, i);
    n := CopyFound(states[i], id);
  }

  lemma CopyFound(s: State, id: ID) returns (n: VAddr)
    requires Inv(s) && Tracked(s) && CopyEnabled(s, InstallOutputs)
    requires id in s.table && SegmentOf(s.table[id].addr) in s.gc.work.inputs
    ensures n in s.gc.work.copies && s.gc.work.copies[n] == s.table[id].addr
    ensures n in s.records && SegmentOf(n) in s.gc.work.outputs && s.table[id].addr in s.records
    ensures s.records[n] == s.records[s.table[id].addr]
  {
    assert Copies(s.gc, s.records, s.table[id].addr);
    n :| n in s.gc.work.copies && s.gc.work.copies[n] == s.table[id].addr;
    assert GoodCopy(s.gc.work, s.records, n);
  }

  /** On every run, when a compaction has published its relocations, the mapping names nothing in
      the inputs, whatever was committed in between and however often it was interrupted. */
  lemma FinishLeavesNothing(states: seq<State>, actions: seq<Action>, i: nat)
    requires Run(states, actions) && i < |actions| && actions[i] == Finish(FinishPublish)
    ensures states[i].gc.Job? && CleanTable(states[i].table, states[i].gc.work.inputs)
  {
    EveryStateTracked(states, actions, i);
    H.ReadyToStep(states, actions, i);
    NothingLeft(states[i]);
  }

  /** So the proof needs no second attempt: on every run, once a checkpoint run that started after
      the relocations has been installed, the stored statistics of every input are complete and
      zero, and the inputs are proved dead if and only if no batch holds a reference into them. */
  lemma ProofNeedsNoRetry(states: seq<State>, actions: seq<Action>, i: nat)
    requires Run(states, actions) && i < |states| && InPhase(states[i].gc, Awaiting)
    requires states[i].gc.since < states[i].runs.served
    ensures RetireEnabled(states[i], Prove) <==> NoBatchReferences(states[i], states[i].gc.work.inputs)
  {
    EveryStateTracked(states, actions, i);
    EveryStateInv(states, actions, i);
    forall g <- states[i].gc.work.inputs ensures L.Current(states[i].books.rootLive, g) == L.Stat(0, 0) {
      RootIsDead(states[i], g);
    }
  }

  lemma RootIsDead(s: State, g: SegmentID)
    requires Sound(s) && Tracked(s) && InPhase(s.gc, Awaiting) && s.gc.since < s.runs.served && g in s.gc.work.inputs
    ensures L.Current(s.books.rootLive, g) == L.Stat(0, 0)
  {
    MarkedClean(s, s.replay.index);
    assert L.ExactAt(s.books.rootLive, s.root, g);
    StoreLayout.NoneThere(s.root, g, L.Records);
  }
}
