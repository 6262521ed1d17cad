/** Any operations on the production mapping, in any order and with stale handles among them
    (internal/mapping/persistent.go, internal/engine/mapping_gc.go). */
module PersistentRun {
  import opened RecordLog
  import opened Mapping
  import opened Budget
  import opened Radix
  import opened RadixBuild
  import opened RadixWalk
  import opened RadixRebuild
  import opened Layers
  import opened Persistent
  import L = LiveStats

  /** Handles are chosen among all that were ever handed out. */
  datatype Op =
    | Reserve(ids: seq<ID>)
    | Publish(first: CommitSeq, base: CommitSeq, plan: seq<ResolvedProposal>, handles: seq<Handle>)
    | FreezeAt(expected: CommitSeq)
    | Build(capture: nat)
    | Install(candidate: nat)
    | Abort(capture: nat)
    | Rebuild(store: Nodes)
    | Replace

  /** A rebuilt copy of the root that was current when it was made. */
  datatype Copy = Copy(view: MapAddr, store: Nodes, from: MapAddr, at: CommitSeq)

  datatype Held = Held(captures: seq<Capture>, candidates: seq<Candidate>, copy: Option<Copy>)

  ghost predicate CaptureOk(c: Core, x: Capture) {
    x.id <= c.checkpointID && (c.inCheckpoint && x.id == c.checkpointID ==> x == c.captured)
  }

  ghost predicate CandidateOk(c: Core, x: Candidate) {
    CaptureOk(c, x.capture) && (c.inCheckpoint && x.capture.id == c.checkpointID ==> Installable(c, x))
  }

  ghost predicate Installable(c: Core, x: Candidate) {
    && x.covered == c.captured.covered && Proper(Stored(c.nodes, x.root))
    && RootTable(c.nodes, x.root) == Stack(RootTable(c.nodes, c.root), ValuesOf(c.frozen))
  }

  ghost predicate CopyOk(c: Core, x: Copy) {
    && Proper(Stored(x.store, x.from))
    && (x.view == c.root ==> RootTable(x.store, x.from) == RootTable(c.nodes, c.root))
  }

  ghost predicate HeldOk(c: Core, h: Held) {
    && (forall x <- h.captures :: CaptureOk(c, x)) && (forall x <- h.candidates :: CandidateOk(c, x))
    && (h.copy.Some? ==> CopyOk(c, h.copy.value))
  }

  // ------------------------------------------------------------------ what keeps handles

  /** Nothing changes that a handle depends on. */
  ghost predicate SameHandles(c: Core, d: Core) {
    && d.checkpointID == c.checkpointID && d.captured == c.captured && (d.inCheckpoint ==> c.inCheckpoint)
    && d.nodes == c.nodes && d.root == c.root && d.frozen == c.frozen
  }

  lemma HandlesKept(c: Core, d: Core, h: Held)
    requires HeldOk(c, h) && SameHandles(c, d)
    ensures HeldOk(d, h)
  {
    forall x <- h.candidates ensures CandidateOk(d, x) { assert CandidateOk(c, x); }
    forall x <- h.captures ensures CaptureOk(d, x) { assert CaptureOk(c, x); }
  }

  /** A new Freeze makes every older handle stale. */
  lemma HandlesStale(c: Core, d: Core, h: Held)
    requires HeldOk(c, h) && d.checkpointID == c.checkpointID + 1 && d.nodes == c.nodes && d.root == c.root
    requires d.captured.id == d.checkpointID
    ensures HeldOk(d, h.(captures := h.captures + [d.captured]))
  {
    forall x <- h.candidates ensures CandidateOk(d, x) { assert CandidateOk(c, x); }
    forall x <- h.captures + [d.captured] ensures CaptureOk(d, x) { assert x in h.captures ==> CaptureOk(c, x); }
  }

  /** Appending nodes changes no stored tree. */
  lemma HandlesGrow(c: Core, d: Core, h: Held)
    requires HeldOk(c, h) && d == c.(nodes := d.nodes) && Grown(c.nodes, d.nodes)
    requires RootTable(d.nodes, d.root) == RootTable(c.nodes, c.root)
    ensures HeldOk(d, h)
  {
    forall x <- h.candidates ensures CandidateOk(d, x) {
      assert CandidateOk(c, x);
      if d.inCheckpoint && x.capture.id == d.checkpointID {
        OldRootAnswers(c.nodes, x.root, d.nodes);
        RadixBuilder.BaseStored(c.nodes, x.root, d.nodes);
      }
    }
    forall x <- h.captures ensures CaptureOk(d, x) { assert CaptureOk(c, x); }
  }

  /** Once a checkpoint is installed its handles are spent. */
  lemma HandlesSpent(c: Core, d: Core, h: Held)
    requires HeldOk(c, h) && !d.inCheckpoint && d.checkpointID == c.checkpointID
    ensures HeldOk(d, h.(copy := None))
  {
    forall x <- h.candidates ensures CandidateOk(d, x) { assert CandidateOk(c, x); }
    forall x <- h.captures ensures CaptureOk(d, x) { assert CaptureOk(c, x); }
  }

  // --------------------------------------------------------------------- one operation

  method DoReserve(m: PersistentMapping, ids: seq<ID>, h: Held)
    requires m.Valid() && HeldOk(m.State(), h)
    modifies m.budget
    ensures m.Valid()
  {
    var r := m.ReserveDelta(ids);
  }

  method DoFreeze(m: PersistentMapping, expected: CommitSeq, h0: Held) returns (h: Held)
    requires m.Valid() && HeldOk(m.State(), h0)
    modifies m
    ensures m.Valid() && HeldOk(m.State(), h)
    ensures m.Mapped() == old(m.Mapped()) && m.covered == old(m.covered) && (old(m.Accounted()) ==> m.Accounted())
  {
    h := h0;
    var c := m.Freeze(expected);
    if c.Some? {
      HandlesStale(old(m.State()), m.State(), h0);
      h := h0.(captures := h0.captures + [c.value]);
    }
  }

  method DoAbort(m: PersistentMapping, c: Capture, h: Held)
    requires m.Valid() && HeldOk(m.State(), h)
    modifies m`inCheckpoint
    ensures m.Valid() && HeldOk(m.State(), h)
    ensures m.Mapped() == old(m.Mapped()) && (old(m.Accounted()) ==> m.Accounted())
  {
    var ok := m.AbortCheckpoint(c);
    HandlesKept(old(m.State()), m.State(), h);
  }

  method DoBuild(m: PersistentMapping, c: Capture, h0: Held) returns (h: Held)
    requires m.Valid() && HeldOk(m.State(), h0) && c in h0.captures
    modifies m`nodes
    ensures m.Valid() && HeldOk(m.State(), h)
    ensures m.Mapped() == old(m.Mapped()) && (old(m.Accounted()) ==> m.Accounted())
  {
    h := h0;
    assert CaptureOk(m.State(), c);
    var r := m.BuildCheckpoint(c);
    HandlesGrow(old(m.State()), m.State(), h0);
    if r.Ready? {
      CandidateJoins(m.State(), h0, r.candidate);
      h := h0.(candidates := h0.candidates + [r.candidate]);
    }
  }

  lemma CandidateJoins(c: Core, h: Held, x: Candidate)
    requires HeldOk(c, h) && CaptureOk(c, x.capture) && c.inCheckpoint && x.capture.id == c.checkpointID
    requires Installable(c, x)
    ensures HeldOk(c, h.(candidates := h.candidates + [x]))
  {
    forall y <- h.candidates + [x] ensures CandidateOk(c, y) { assert y in h.candidates ==> CandidateOk(c, y); }
  }

  method DoInstall(m: PersistentMapping, x: Candidate, h0: Held) returns (h: Held)
    requires m.Valid() && HeldOk(m.State(), h0) && x in h0.candidates
    modifies m, m.budget
    ensures m.Valid() && HeldOk(m.State(), h)
    ensures m.Mapped() == old(m.Mapped()) && m.covered == old(m.covered) && (old(m.Accounted()) ==> m.Accounted())
  {
    h := h0;
    assert CandidateOk(m.State(), x);
    var ok := m.InstallCheckpoint(x);
    if ok {
      HandlesSpent(old(m.State()), m.State(), h0);
      h := h0.(copy := None);
    }
  }

  /** The survey and copy of a mapping collection: the root is rebuilt elsewhere. */
  method DoRebuild(m: PersistentMapping, store: Nodes, h0: Held) returns (h: Held)
    requires m.Valid() && HeldOk(m.State(), h0)
    ensures HeldOk(m.State(), h)
  {
    h := h0;
    if 0 in store { return; }
    var r := RebuildFromWalk(m.nodes, m.root, m.rootCovered, store, Walk(m.nodes, m.root, TOP, 0));
    if r.Built? { h := h0.(copy := Some(Copy(m.root, r.nodes, r.root, m.rootCovered))); }
  }

  method DoReplace(m: PersistentMapping, h0: Held) returns (h: Held)
    requires m.Valid() && HeldOk(m.State(), h0)
    modifies m`nodes, m`root
    ensures m.Valid() && HeldOk(m.State(), h)
    ensures m.Mapped() == old(m.Mapped()) && (old(m.Accounted()) ==> m.Accounted())
  {
    h := h0;
    if h0.copy.None? { return; }
    var x := h0.copy.value;
    var ok := m.ReplaceCheckpointRoot(x.view, x.store, x.from, x.at);
    if ok {
      HandlesSpent(old(m.State()), m.State(), h0);
      h := h0.(copy := None);
    }
  }

  // ----------------------------------------------------------------------- any run

  /** The table after these plans, and nothing else. */
  function PublishEach(t: Table, plans: seq<seq<ResolvedProposal>>): Table
    decreases |plans|
  {
    if plans == [] then t else PublishAll(PublishEach(t, plans[..|plans| - 1]), plans[|plans| - 1])
  }

  function AcceptedEach(plans: seq<seq<ResolvedProposal>>): nat
    decreases |plans|
  {
    if plans == [] then 0 else AcceptedEach(plans[..|plans| - 1]) + CountAccepted(plans[|plans| - 1])
  }

  /** Every plan was resolved from the table that it was published on. */
  ghost predicate ResolvedEach(t: Table, plans: seq<seq<ResolvedProposal>>)
    decreases |plans|
  {
    plans == [] || (&& ResolvedEach(t, plans[..|plans| - 1])
                    && L.ResolvedFrom(PublishEach(t, plans[..|plans| - 1]), L.Flat(plans[|plans| - 1])))
  }

  ghost predicate Explained(c: Core, t: Table, covered: nat, accounted: bool, plans: seq<seq<ResolvedProposal>>) {
    && MappedBy(c) == PublishEach(t, plans) && c.covered == covered + AcceptedEach(plans)
    && (accounted && ResolvedEach(t, plans) ==> AccountedBy(c))
  }

  lemma OneMore(t: Table, plans: seq<seq<ResolvedProposal>>, plan: seq<ResolvedProposal>)
    ensures PublishEach(t, plans + [plan]) == PublishAll(PublishEach(t, plans), plan)
    ensures AcceptedEach(plans + [plan]) == AcceptedEach(plans) + CountAccepted(plan)
    ensures ResolvedEach(t, plans + [plan]) ==>
      ResolvedEach(t, plans) && L.ResolvedFrom(PublishEach(t, plans), L.Flat(plan))
  {
    assert (plans + [plan])[..|plans|] == plans;
  }

  method DoPublish(m: PersistentMapping, op: Op, h: Held, plans0: seq<seq<ResolvedProposal>>,
                   ghost t: Table, ghost covered: nat, ghost accounted: bool)
    returns (plans: seq<seq<ResolvedProposal>>, corrupt: bool)
    requires m.Valid() && HeldOk(m.State(), h) && op.Publish? && Explained(m.State(), t, covered, accounted, plans0)
    modifies m, m.budget
    ensures m.Mapped() == PublishEach(t, plans) && m.covered == covered + AcceptedEach(plans)
    ensures !corrupt ==> m.Valid() && HeldOk(m.State(), h) && Explained(m.State(), t, covered, accounted, plans)
  {
    var r := m.PublishGroup(op.first, op.base, op.plan, op.handles);
    plans, corrupt := plans0, r.CorruptPlan?;
    HandlesKept(old(m.State()), m.State(), h);
    if r.Published? {
      OneMore(t, plans0, op.plan);
      plans := plans0 + [op.plan];
    }
  }

  /** One operation that publishes nothing; a handle that was never issued is ignored. */
  method DoOther(m: PersistentMapping, op: Op, h0: Held) returns (h: Held)
    requires m.Valid() && HeldOk(m.State(), h0) && !op.Publish?
    modifies m, m.budget
    ensures m.Valid() && HeldOk(m.State(), h)
    ensures m.Mapped() == old(m.Mapped()) && m.covered == old(m.covered) && (old(m.Accounted()) ==> m.Accounted())
  {
    h := h0;
    match op
    case Reserve(ids) => DoReserve(m, ids, h0);
    case FreezeAt(expected) => h := DoFreeze(m, expected, h0);
    case Rebuild(store) => h := DoRebuild(m, store, h0);
    case Replace => h := DoReplace(m, h0);
    case Build(_) => h := DoCheckpoint(m, op, h0);
    case Install(_) => h := DoCheckpoint(m, op, h0);
    case Abort(_) => h := DoCheckpoint(m, op, h0);
  }

  method DoCheckpoint(m: PersistentMapping, op: Op, h0: Held) returns (h: Held)
    requires m.Valid() && HeldOk(m.State(), h0) && (op.Build? || op.Install? || op.Abort?)
    modifies m, m.budget
    ensures m.Valid() && HeldOk(m.State(), h)
    ensures m.Mapped() == old(m.Mapped()) && m.covered == old(m.covered) && (old(m.Accounted()) ==> m.Accounted())
  {
    h := h0;
    match op
    case Build(k) => if k < |h0.captures| { h := DoBuild(m, h0.captures[k], h0); }
    case Install(k) => if k < |h0.candidates| { h := DoInstall(m, h0.candidates[k], h0); }
    case Abort(k) => if k < |h0.captures| { DoAbort(m, h0.captures[k], h0); }
  }

  /** Whatever is reserved, frozen, built, installed, aborted and frozen again, rebuilt and
      replaced, in any order: readers see exactly what the published plans did, the covered
      sequence counts their accepted proposals, and the live statistics stay exact. */
  method Run(m: PersistentMapping, ops: seq<Op>) returns (plans: seq<seq<ResolvedProposal>>, corrupt: bool)
    requires m.Valid()
    modifies m, m.budget
    ensures m.Mapped() == PublishEach(old(m.Mapped()), plans) && m.covered == old(m.covered) + AcceptedEach(plans)
    ensures !corrupt ==> m.Valid()
    ensures !corrupt && old(m.Accounted()) && ResolvedEach(old(m.Mapped()), plans) ==> m.Accounted()
  {
    plans, corrupt := [], false;
    var h := Held([], [], None);
    for i := 0 to |ops|
      invariant m.Valid() && HeldOk(m.State(), h) && !corrupt
      invariant Explained(m.State(), old(m.Mapped()), old(m.covered), old(m.Accounted()), plans)
    {
      if ops[i].Publish? {
        plans, corrupt := DoPublish(m, ops[i], h, plans, old(m.Mapped()), old(m.covered), old(m.Accounted()));
        if corrupt { return; }
      } else {
        h := DoOther(m, ops[i], h);
      }
    }
  }
}
