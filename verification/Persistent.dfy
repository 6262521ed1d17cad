/** The production mapping: an active delta, frozen deltas and a checkpoint root that together
    behave like one table (internal/mapping/persistent.go). */
module Persistent {
  import opened RecordLog
  import opened Mapping
  import opened Budget
  import opened Radix
  import opened RadixBuilder
  import opened RadixBuild
  import opened RadixWalk
  import opened Layers
  import L = LiveStats
  import C = CheckpointStats
  import N = PlanCounts

  const MUTATION_BYTES: nat := 24

  datatype Layer = Layer(values: Values, charge: nat)
  datatype Capture = Capture(
    id: nat, base: MapAddr, baseCovered: CommitSeq, covered: CommitSeq, layers: seq<Layer>, live: L.Live)
  datatype Candidate = Candidate(capture: Capture, root: MapAddr, covered: CommitSeq, delta: EntryDelta)
  datatype BuildOutcome = Stale | OverSortBudget | BuildFailed | Ready(candidate: Candidate)

  function ValuesOf(layers: seq<Layer>): (r: seq<Values>)
    ensures |r| == |layers|
  {
    seq(|layers|, i requires 0 <= i < |layers| => layers[i].values)
  }

  predicate LayerOk(l: Layer) { l.charge == ENTRY_CHARGE * |l.values| && ValidValues(l.values) }

  predicate LayersOk(layers: seq<Layer>) { forall i | 0 <= i < |layers| :: LayerOk(layers[i]) }

  function Charges(layers: seq<Layer>): nat
    decreases |layers|
  {
    if layers == [] then 0 else Charges(layers[..|layers| - 1]) + layers[|layers| - 1].charge
  }

  lemma {:induction false} ChargesAreSizes(layers: seq<Layer>)
    requires LayersOk(layers)
    ensures Charges(layers) == ENTRY_CHARGE * Sizes(ValuesOf(layers))
    decreases |layers|
  {
    if layers != [] {
      var front := layers[..|layers| - 1];
      ChargesAreSizes(front);
      assert ValuesOf(layers)[..|layers| - 1] == ValuesOf(front);
    }
  }

  lemma NoZeroInLayers(layers: seq<Layer>)
    requires LayersOk(layers)
    ensures NoZeroLayers(ValuesOf(layers))
  {
    forall i | 0 <= i < |layers| ensures NoZeroLayer(layers[i].values) { assert LayerOk(layers[i]); }
  }

  ghost function RootTable(nodes: Nodes, root: MapAddr): Table { Contents(Stored(nodes, root)) }

  lemma RootTableNoZero(nodes: Nodes, root: MapAddr)
    ensures NoZero(RootTable(nodes, root))
  {
    ContentsHeld(Stored(nodes, root));
  }

  lemma EmptyStack(t: Table)
    ensures Stack(t, ValuesOf([]) + [map[]]) == t
  {
    StackSnoc(t, ValuesOf([]), map[]);
    OverlayEmpty(t);
  }

  /** The fields of the mapping, and what the latest Freeze handed out. */
  datatype Core = Core(
    nodes: Nodes, root: MapAddr, rootCovered: CommitSeq, covered: CommitSeq, active: Layer, frozen: seq<Layer>,
    checkpointID: nat, inCheckpoint: bool, captured: Capture, live: L.Live)

  /** The table that readers see. */
  ghost function MappedBy(c: Core): Table {
    Stack(RootTable(c.nodes, c.root), ValuesOf(c.frozen) + [c.active.values])
  }

  ghost predicate LayersFit(c: Core, charged: nat) {
    && LayersOk(c.frozen) && LayerOk(c.active)
    && charged == Charges(c.frozen) + c.active.charge
    && c.rootCovered <= c.covered
    && (charged > 0 ==> c.rootCovered < c.covered)
    && (c.inCheckpoint ==>
          && c.captured.id == c.checkpointID && c.captured.layers == c.frozen
          && c.captured.base == c.root && c.captured.baseCovered == c.rootCovered
          && c.rootCovered <= c.captured.covered <= c.covered
          && (Charges(c.frozen) > 0 ==> c.rootCovered < c.captured.covered)
          && (c.active.charge > 0 ==> c.captured.covered < c.covered))
  }

  lemma FrozenFits(c: Core, charged: nat)
    requires LayersFit(c, charged) && !c.inCheckpoint
    ensures var frozen := c.frozen + [c.active];
            var next := c.(active := Layer(map[], 0), frozen := frozen,
                           checkpointID := c.checkpointID + 1, inCheckpoint := true,
                           captured := Capture(c.checkpointID + 1, c.root, c.rootCovered, c.covered, frozen, c.live));
            LayersFit(next, charged) && MappedBy(next) == MappedBy(c)
  {
    FrozenSame(c.frozen, c.active, RootTable(c.nodes, c.root));
  }

  lemma FrozenAccounted(c: Core, next: Core)
    requires AccountedBy(c) && MappedBy(next) == MappedBy(c) && next.live == c.live && next.captured.live == c.live
    requires next.nodes == c.nodes && next.root == c.root && next.frozen == c.frozen + [c.active]
    ensures AccountedBy(next)
  {
    assert ValuesOf(c.frozen + [c.active]) == ValuesOf(c.frozen) + [c.active.values];
  }

  /** The live statistics are those of what readers see, and the captured ones those of what the
      checkpoint will hold. */
  ghost predicate AccountedBy(c: Core) {
    && L.Exact(c.live, MappedBy(c))
    && (c.inCheckpoint ==> L.Exact(c.captured.live, Stack(RootTable(c.nodes, c.root), ValuesOf(c.frozen))))
  }

  /** Every reference of the table is valid, and no ID is zero. */
  ghost predicate Clean(t: Table) { forall id <- t :: id != 0 && ValidRef(t[id]) }

  lemma {:induction false} StackClean(t: Table, layers: seq<Layer>)
    requires Clean(t) && LayersOk(layers)
    ensures Clean(Stack(t, ValuesOf(layers)))
    decreases |layers|
  {
    if layers != [] {
      var front := layers[..|layers| - 1];
      StackClean(t, front);
      assert ValuesOf(layers)[..|layers| - 1] == ValuesOf(front);
      assert LayerOk(layers[|layers| - 1]);
    }
  }

  class PersistentMapping {
    const budget: DeltaBudget
    const sortBytes: nat
    var nodes: Nodes
    var root: MapAddr
    var rootCovered: CommitSeq
    var covered: CommitSeq
    var active: Layer
    var frozen: seq<Layer>
    var checkpointID: nat
    var inCheckpoint: bool
    var live: L.Live
    ghost var captured: Capture

    ghost function State(): Core
      reads this
    {
      Core(nodes, root, rootCovered, covered, active, frozen, checkpointID, inCheckpoint, captured, live)
    }

    ghost function Mapped(): Table
      reads this
    {
      MappedBy(State())
    }

    ghost predicate Valid()
      reads this, budget
    {
      && budget.Valid() && Proper(Stored(nodes, root)) && LayersFit(State(), budget.charged)
      && budget.hard / ENTRY_CHARGE <= sortBytes / MUTATION_BYTES && Clean(RootTable(nodes, root))
    }

    ghost predicate Accounted()
      reads this
    {
      AccountedBy(State())
    }

    /** `OpenPersistent` under a validated configuration, with the statistics of the checkpoint. */
    constructor (store: Nodes, from: MapAddr, at: CommitSeq, soft: nat, hard: nat, sort: nat, stats: L.Live)
      requires Proper(Stored(store, from)) && hard <= MAX64 && hard / ENTRY_CHARGE <= sort / MUTATION_BYTES
      requires Clean(RootTable(store, from))
      ensures Valid() && fresh(budget) && Mapped() == RootTable(store, from) && covered == at && live == stats
      ensures L.Exact(stats, RootTable(store, from)) ==> Accounted()
    {
      budget := new DeltaBudget(soft, hard);
      sortBytes, nodes, root, rootCovered, covered := sort, store, from, at, at;
      active, frozen, checkpointID, inCheckpoint, live := Layer(map[], 0), [], 0, false, stats;
      new;
      EmptyStack(RootTable(store, from));
    }

    /** `LookupRef` answers from the newest layer that knows the ID, else from the root. */
    method LookupRef(id: ID) returns (r: Found)
      requires Valid()
      ensures r == if id == 0 then BadID else if id in Mapped() then Present(Mapped()[id]) else Absent
    {
      if id == 0 { return BadID; }
      var v := LookupLayers(active.values, ValuesOf(frozen), id);
      assert Get(Mapped(), id) == if v.Some? then v.value else Get(RootTable(nodes, root), id);
      if v.Some? { return if v.value.Some? then Present(v.value.value) else Absent; }
      r := RadixWalk.LookupRef(nodes, root, id);
    }

    /** `Freeze`: the active layer joins the frozen ones and the statistics are captured with
        it. Readers notice nothing. */
    method Freeze(expected: CommitSeq) returns (c: Option<Capture>)
      requires Valid()
      modifies this
      ensures Valid() && Mapped() == old(Mapped()) && covered == old(covered)
      ensures nodes == old(nodes) && root == old(root)
      ensures live == old(live) && rootCovered == old(rootCovered) && (old(Accounted()) ==> Accounted())
      ensures c.Some? <==> !old(inCheckpoint) && expected == covered && old(checkpointID) < MAX64
      ensures c.Some? ==>
        inCheckpoint && c.value == captured && active.values == map[] && checkpointID == old(checkpointID) + 1
      ensures c.Some? ==> c.value.covered == covered && c.value.live == live && frozen == old(frozen) + [old(active)]
      ensures c.None? ==> State() == old(State())
    {
      if inCheckpoint || expected != covered || checkpointID >= MAX64 { return None; }
      FrozenFits(State(), budget.charged);
      c := Some(Capture(checkpointID + 1, root, rootCovered, covered, frozen + [active], live));
      SetFrozen(c.value);
      if old(Accounted()) { FrozenAccounted(old(State()), State()); }
    }

    /** The fields after a Freeze. */
    method SetFrozen(c: Capture)
      modifies this
      ensures State() == old(State()).(active := Layer(map[], 0), frozen := old(frozen + [active]),
                                       checkpointID := old(checkpointID) + 1, inCheckpoint := true, captured := c)
    {
      frozen := frozen + [active];
      active := Layer(map[], 0);
      checkpointID, inCheckpoint := checkpointID + 1, true;
      captured := c;
    }

    /** `AbortCheckpoint`: the frozen layers stay, for the next Freeze to fold. */
    method AbortCheckpoint(c: Capture) returns (ok: bool)
      requires Valid()
      modifies this`inCheckpoint
      ensures Valid() && Mapped() == old(Mapped()) && (old(Accounted()) ==> Accounted())
      ensures ok <==> old(inCheckpoint) && c.id == checkpointID
      ensures inCheckpoint == (old(inCheckpoint) && !ok)
    {
      if !inCheckpoint || c.id != checkpointID { return false; }
      inCheckpoint := false;
      return true;
    }

    /** The handle was issued by the latest Freeze, if its number is the current one. */
    ghost predicate Genuine(c: Capture)
      reads this
    {
      inCheckpoint && c.id == checkpointID ==> c == captured
    }

    /** `BuildCheckpoint`: collect the frozen layers, sort stably, keep the newest entry of each
        ID and build. Under a valid configuration neither the sort budget nor the build fails. */
    method BuildCheckpoint(c: Capture) returns (r: BuildOutcome)
      requires Valid() && Genuine(c)
      modifies this`nodes
      ensures Valid() && Mapped() == old(Mapped()) && Grown(old(nodes), nodes) && (old(Accounted()) ==> Accounted())
      ensures RootTable(nodes, root) == RootTable(old(nodes), root)
      ensures r == Stale <==> !(inCheckpoint && c.id == checkpointID)
      ensures !r.OverSortBudget? && !r.BuildFailed?
      ensures r.Ready? ==>
        && r.candidate.capture == c && r.candidate.covered == c.covered && Proper(Stored(nodes, r.candidate.root))
        && RootTable(nodes, r.candidate.root) == Stack(RootTable(nodes, root), ValuesOf(frozen))
        && Counts(r.candidate, old(nodes), root, nodes)
    {
      if !inCheckpoint || c.id != checkpointID || |frozen| < |c.layers| || frozen[..|c.layers|] != c.layers {
        assert frozen[..|frozen|] == frozen;
        return Stale;
      }
      ChargesAreSizes(frozen);
      SortFits(Sizes(ValuesOf(frozen)), budget.charged, budget.hard, sortBytes);
      if Sizes(ValuesOf(c.layers)) > sortBytes / MUTATION_BYTES {
        assert false;
        return OverSortBudget;
      }
      r := BuildFrom(c);
    }

    method BuildFrom(c: Capture) returns (r: BuildOutcome)
      requires Valid() && inCheckpoint && c == captured
      modifies this`nodes
      ensures Valid() && Mapped() == old(Mapped()) && Grown(old(nodes), nodes)
      ensures r.Ready? && (old(Accounted()) ==> Accounted())
      ensures RootTable(nodes, root) == RootTable(old(nodes), root)
      ensures r.candidate.capture == c && r.candidate.covered == c.covered && Proper(Stored(nodes, r.candidate.root))
      ensures RootTable(nodes, r.candidate.root) == Stack(RootTable(nodes, root), ValuesOf(frozen))
      ensures Counts(r.candidate, old(nodes), root, nodes)
    {
      var built := BuildRoot(nodes, root, rootCovered, c.covered, frozen);
      StoreGrown(State(), built.nodes, budget.charged);
      nodes := built.nodes;
      assert State() == old(State()).(nodes := built.nodes);
      r := Ready(Candidate(c, built.root, c.covered, built.delta));
    }

    /** `InstallCheckpoint`: the candidate replaces the root and the layers folded into it, and
        their charge is given back. Readers notice nothing. */
    method InstallCheckpoint(cand: Candidate) returns (ok: bool)
      requires Valid() && Genuine(cand.capture)
      requires inCheckpoint && cand.capture.id == checkpointID ==>
        && cand.covered == captured.covered && Proper(Stored(nodes, cand.root))
        && RootTable(nodes, cand.root) == Stack(RootTable(nodes, root), ValuesOf(frozen))
      modifies this, budget
      ensures Valid() && Mapped() == old(Mapped()) && covered == old(covered) && nodes == old(nodes)
      ensures live == old(live) && active == old(active) && (old(Accounted()) ==> Accounted())
      ensures ok <==> old(inCheckpoint) && cand.capture.id == old(checkpointID)
      ensures !ok ==> State() == old(State())
      ensures ok ==> checkpointID == old(checkpointID) && root == cand.root
      ensures ok ==> rootCovered == cand.covered && frozen == [] && !inCheckpoint
      ensures budget.charged == old(budget.charged) - if ok then Charges(old(frozen)) else 0
      ensures budget.open == old(budget.open)
    {
      var c := cand.capture;
      if !inCheckpoint || c.id != checkpointID || cand.covered != c.covered { return false; }
      assert frozen[..|c.layers|] == c.layers && frozen[|c.layers|..] == [];
      InstalledFits(State(), cand.root, budget.charged);
      StackClean(RootTable(nodes, root), frozen);
      var released := budget.Discharge(Charges(c.layers));
      SetInstalled(cand.root, cand.covered, |c.layers|);
      return true;
    }

    /** The fields after a checkpoint of the first n frozen layers was installed. */
    method SetInstalled(at: MapAddr, upTo: CommitSeq, n: nat)
      requires n <= |frozen|
      modifies this
      ensures State() == old(State()).(root := at, rootCovered := upTo,
              frozen := old(frozen[n..]), inCheckpoint := false)
    {
      root, rootCovered, frozen, inCheckpoint := at, upTo, frozen[n..], false;
    }

    /** `ReplaceCheckpointRoot`: another store holding the same table may take over. */
    method ReplaceCheckpointRoot(view: MapAddr, store: Nodes, from: MapAddr, at: CommitSeq) returns (ok: bool)
      requires Valid() && Proper(Stored(store, from))
      requires view == root ==> RootTable(store, from) == RootTable(nodes, root)
      modifies this`nodes, this`root
      ensures Valid() && Mapped() == old(Mapped()) && (old(Accounted()) ==> Accounted())
      ensures !ok ==> nodes == old(nodes) && root == old(root)
      ensures ok <==> !inCheckpoint && frozen == [] && old(root) == view && at == rootCovered
      ensures ok ==> nodes == store && root == from
    {
      if inCheckpoint || |frozen| != 0 || root != view || at != rootCovered { return false; }
      StoreReplaced(State(), store, from, budget.charged);
      nodes, root := store, from;
      assert State() == old(State()).(nodes := store, root := from);
      return true;
    }

    /** `ReserveDelta`: room for the IDs that the active layer does not hold yet. Under pressure
        the caller learns which checkpoint will empty the layer. */
    method ReserveDelta(ids: seq<ID>) returns (r: ReserveOutcome)
      requires Valid()
      modifies budget
      ensures Valid() && budget.charged == old(budget.charged)
      ensures r == ZeroID <==> 0 in ids
      ensures var need := |IDSet(ids) - active.values.Keys| * ENTRY_CHARGE;
              var total := old(budget.charged + budget.reserved) + need;
              && (r.Granted? <==> 0 !in ids && total <= budget.hard && (total < budget.soft || checkpointID < MAX64))
              && (r.Granted? ==> r.handle !in old(budget.open) && budget.open == old(budget.open)[r.handle := need])
              && (r.Granted? ==> r.generation == if total < budget.soft then 0 else checkpointID + 1)
              && (r.Full? ==> need <= budget.hard && r.generation == checkpointID + 1)
      ensures !r.Granted? ==> budget.open == old(budget.open)
    {
      var entries := CountNew(active.values.Keys, ids);
      if entries.None? { return ZeroID; }
      r := ReserveEntries(entries.value);
    }

    method ReserveEntries(entries: nat) returns (r: ReserveOutcome)
      requires Valid()
      modifies budget
      ensures Valid() && budget.charged == old(budget.charged) && r != ZeroID
      ensures var need := entries * ENTRY_CHARGE;
              var total := old(budget.charged + budget.reserved) + need;
              && (r.Granted? <==> total <= budget.hard && (total < budget.soft || checkpointID < MAX64))
              && (r.Granted? ==> r.handle !in old(budget.open) && budget.open == old(budget.open)[r.handle := need])
              && (r.Granted? ==> r.generation == if total < budget.soft then 0 else checkpointID + 1)
              && (r.Full? ==> need <= budget.hard && r.generation == checkpointID + 1)
      ensures !r.Granted? ==> budget.open == old(budget.open)
    {
      var got := budget.Reserve(entries);
      match got
      case TooLarge => r := NeverFits;
      case OverBudget => r := if checkpointID >= MAX64 then Exhausted else Full(checkpointID + 1);
      case Reserved(h, pressure) =>
        if pressure && checkpointID >= MAX64 {
          budget.Release(h);
          assert old(budget.open)[h := entries * ENTRY_CHARGE] - {h} == old(budget.open);
          r := Exhausted;
        } else {
          r := Granted(h, if pressure then checkpointID + 1 else 0);
        }
    }

    /** `PublishGroup`: with a fundable, current plan the group takes effect as a whole, and the
        live statistics follow it if the plan was resolved from what readers see. */
    method PublishGroup(first: CommitSeq, base: CommitSeq, plan: seq<ResolvedProposal>, handles: seq<Handle>)
      returns (r: PublishOutcome)
      requires Valid()
      modifies this, budget
      ensures !r.CorruptPlan? ==> Valid()
      ensures !r.Published? ==> Mapped() == old(Mapped()) && covered == old(covered)
      ensures !r.Published? && !r.CorruptPlan? ==> State() == old(State())
      ensures r.Published? ==>
        Mapped() == PublishAll(old(Mapped()), plan) && covered == old(covered) + CountAccepted(plan)
      ensures r.Published? ==> Reports(r, plan) && budget.open == old(budget.open) - set h | h in handles
      ensures r.Published? ==> active.values.Keys == old(active.values.Keys) + TouchedAll(plan)
      ensures r.Published? && ResolvedHere(old(State()), plan) ==>
        Accounted() && live == L.AccountAll(old(live), L.Flat(plan))
      ensures (&& Current(old(State()), first, base, plan) && Fundable(old(budget.open), plan, handles)
               && ResolvedHere(old(State()), plan) && L.Fits(old(Mapped()), L.Flat(plan))) ==> r.Published?
      ensures nodes == old(nodes) && root == old(root) && rootCovered == old(rootCovered) && frozen == old(frozen)
      ensures inCheckpoint == old(inCheckpoint) && checkpointID == old(checkpointID) && captured == old(captured)
    {
      var refusal := Examine(first, base, plan, |handles|);
      if refusal.Some? { return refusal.value; }
      r := PublishCurrent(plan, handles);
    }

    /** The checks before anything is consumed. */
    method Examine(first: CommitSeq, base: CommitSeq, plan: seq<ResolvedProposal>, handles: nat)
      returns (refusal: Option<PublishOutcome>)
      ensures refusal.None? <==> handles == |plan| && Current(State(), first, base, plan)
      ensures refusal.Some? ==> refusal.value.InvalidPlan? || refusal.value.StalePlan?
    {
      if first == 0 || |plan| == 0 || !PlanValid(plan) || handles != |plan| { return Some(InvalidPlan); }
      if base != covered || plan != WithCharges(active.values.Keys, plan) { return Some(StalePlan); }
      var accepted := CountAccepted(plan);
      if accepted == 0 || first != covered + 1 || accepted - 1 > MAX64 - first { return Some(InvalidPlan); }
      return None;
    }

    /** The plan is current; the reservations are consumed before anything visible changes. */
    method PublishCurrent(plan: seq<ResolvedProposal>, handles: seq<Handle>) returns (r: PublishOutcome)
      requires Valid() && |handles| == |plan| && PlanValid(plan) && plan == WithCharges(active.values.Keys, plan)
      requires CountAccepted(plan) > 0 && covered + CountAccepted(plan) <= MAX64
      modifies this`active, this`covered, this`live, budget
      ensures r.CorruptPlan? || r.Published?
      ensures r.CorruptPlan? ==> Mapped() == old(Mapped()) && covered == old(covered)
      ensures r.Published? ==>
        Valid() && Mapped() == PublishAll(old(Mapped()), plan) && covered == old(covered) + CountAccepted(plan)
      ensures r.Published? ==> Reports(r, plan) && budget.open == old(budget.open) - set h | h in handles
      ensures r.Published? ==> active.values.Keys == old(active.values.Keys) + TouchedAll(plan)
      ensures r.Published? && ResolvedHere(old(State()), plan) ==>
        Accounted() && live == L.AccountAll(old(live), L.Flat(plan))
      ensures (&& Fundable(old(budget.open), plan, handles)
               && ResolvedHere(old(State()), plan) && L.Fits(old(Mapped()), L.Flat(plan))) ==> r.Published?
    {
      ghost var core := State();
      var ok := ConsumeAll(budget, plan, handles);
      assert State() == core;
      if !ok { return CorruptPlan; }
      r := PublishPaid(plan, budget.charged - ENTRY_CHARGE * TotalEntries(plan));
    }

    /** The reservations are consumed; the statistics may still refuse the plan. */
    method PublishPaid(plan: seq<ResolvedProposal>, ghost charged: nat) returns (r: PublishOutcome)
      requires budget.Valid() && Proper(Stored(nodes, root)) && budget.hard / ENTRY_CHARGE <= sortBytes / MUTATION_BYTES
      requires Clean(RootTable(nodes, root))
      requires LayersFit(State(), charged) && budget.charged == charged + ENTRY_CHARGE * TotalEntries(plan)
      requires PlanValid(plan) && plan == WithCharges(active.values.Keys, plan)
      requires CountAccepted(plan) > 0 && covered + CountAccepted(plan) <= MAX64
      modifies this`active, this`covered, this`live
      ensures r.CorruptPlan? || r.Published?
      ensures r.CorruptPlan? ==> State() == old(State())
      ensures r.Published? ==> Reports(r, plan) && active.values.Keys == old(active.values.Keys) + TouchedAll(plan)
      ensures r.Published? ==>
        Valid() && Mapped() == PublishAll(old(Mapped()), plan) && covered == old(covered) + CountAccepted(plan)
      ensures r.Published? && ResolvedHere(old(State()), plan) ==>
        Accounted() && live == L.AccountAll(old(live), L.Flat(plan))
      ensures ResolvedHere(old(State()), plan) && L.Fits(old(Mapped()), L.Flat(plan)) ==> r.Published?
    {
      PlanRefsValid(plan);
      var updated := L.ApplyPlan(live, plan, Mapped());
      if updated.None? { return CorruptPlan; }
      r := PublishFunded(plan, updated.value, charged);
    }

    method PublishFunded(plan: seq<ResolvedProposal>, updated: L.Live, ghost charged: nat) returns (r: PublishOutcome)
      requires budget.Valid() && Proper(Stored(nodes, root)) && budget.hard / ENTRY_CHARGE <= sortBytes / MUTATION_BYTES
      requires Clean(RootTable(nodes, root))
      requires LayersFit(State(), charged) && budget.charged == charged + ENTRY_CHARGE * TotalEntries(plan)
      requires PlanValid(plan) && plan == WithCharges(active.values.Keys, plan)
      requires CountAccepted(plan) > 0 && covered + CountAccepted(plan) <= MAX64
      modifies this`active, this`covered, this`live
      ensures Valid() && r.Published? && Reports(r, plan) && Mapped() == PublishAll(old(Mapped()), plan)
      ensures active.values.Keys == old(active.values.Keys) + TouchedAll(plan)
      ensures covered == old(covered) + CountAccepted(plan)
      ensures live == updated
      ensures L.Exact(updated, EffectAll(old(Mapped()), L.Flat(plan))) && old(Accounted()) ==> Accounted()
    {
      ghost var below := Stack(RootTable(nodes, root), ValuesOf(frozen));
      var v, applied, skipped := ApplyPlan(active.values, plan, below);
      PublishedFits(State(), v, plan, charged, TotalEntries(plan), CountAccepted(plan));
      ghost var before := State();
      SetPublished(Layer(v, active.charge + ENTRY_CHARGE * TotalEntries(plan)), CountAccepted(plan), updated);
      StatsAreFree(before.(active := active, covered := covered), State(), budget.charged);
      FundedAccounted(before, State(), plan);
      r := Published(CountAccepted(plan), applied, skipped);
      Reported(r, plan);
    }

    /** The fields after a group was published. */
    method SetPublished(layer: Layer, accepted: nat, updated: L.Live)
      requires covered + accepted <= MAX64
      modifies this`active, this`covered, this`live
      ensures State() == old(State()).(active := layer, covered := old(covered) + accepted, live := updated)
    {
      active, covered, live := layer, covered + accepted, updated;
    }
  }

  /** The statistics are right and the plan was resolved from what readers see. */
  ghost predicate ResolvedHere(c: Core, plan: seq<ResolvedProposal>) {
    AccountedBy(c) && L.ResolvedFrom(MappedBy(c), L.Flat(plan))
  }

  datatype ReserveOutcome =
    | ZeroID
    | NeverFits
    | Exhausted
    | Full(generation: nat)
    | Granted(handle: Handle, generation: nat)

  lemma {:induction false} PlanRefsValid(plan: seq<ResolvedProposal>)
    requires PlanValid(plan)
    ensures L.ValidRefs(L.Flat(plan))
  {
    if plan != [] {
      PlanRefsValid(plan[1..]);
      if plan[0].accepted {
        forall r <- plan[0].changes ensures L.ValidRefsOf(r) {
          var k :| 0 <= k < |plan[0].changes| && plan[0].changes[k] == r;
          ChangeValid(plan[0], k);
        }
      }
    }
  }

  // --------------------------------------------------------------- what a candidate counts

  /** The four counters of a candidate are exact. */
  ghost predicate Counts(cand: Candidate, nodes: Nodes, root: MapAddr, after: Nodes) {
    && Carried(|RootTable(after, root)|, cand.delta.removed, cand.delta.added, |RootTable(after, cand.root)|)
    && cand.delta.removed <= |RootTable(after, root)|
    && Carried(Reachable(nodes, root, TOP), cand.delta.bytesRemoved, cand.delta.bytesAdded,
       Reachable(after, cand.root, TOP))
    && cand.delta.bytesRemoved <= Reachable(nodes, root, TOP)
  }

  predicate Carried(base: nat, removed: nat, added: nat, now: nat) { now + removed == base + added }

  /** `EntryCount` and `ReachableBytes`: a counter of the base root, carried over. */
  function CarriedOver(base: nat, removed: nat, added: nat): Option<nat> {
    if removed > base || added > MAX64 - (base - removed) then None else Some(base - removed + added)
  }

  lemma CarriedOverExactly(base: nat, removed: nat, added: nat, now: nat)
    requires Carried(base, removed, added, now)
    ensures CarriedOver(base, removed, added) == if removed <= base && now <= MAX64 then Some(now) else None
  {
  }

  /** The entry count that goes into the manifest with the captured statistics is the sum of
      their live records, and the byte count is what the new root reaches. */
  lemma CandidateCountsAgree(cand: Candidate, nodes: Nodes, root: MapAddr, after: Nodes, stats: seq<C.SegmentStats>)
    requires Counts(cand, nodes, root, after) && L.Exact(cand.capture.live, RootTable(after, cand.root))
    requires C.Lists(stats, cand.capture.live)
    ensures CarriedOver(|RootTable(after, root)|, cand.delta.removed, cand.delta.added)
            == if C.TotalRecords(stats) <= MAX64 then Some(C.TotalRecords(stats)) else None
    ensures var bytes := CarriedOver(Reachable(nodes, root, TOP), cand.delta.bytesRemoved, cand.delta.bytesAdded);
            bytes == if Reachable(after, cand.root, TOP) <= MAX64 then Some(Reachable(after, cand.root, TOP)) else None
  {
    C.LiveRecordsAreEntries(stats, cand.capture.live, RootTable(after, cand.root));
    CarriedOverExactly(|RootTable(after, root)|, cand.delta.removed, cand.delta.added, |RootTable(after, cand.root)|);
    CarriedOverExactly(Reachable(nodes, root, TOP), cand.delta.bytesRemoved,
      cand.delta.bytesAdded, Reachable(after, cand.root, TOP));
  }

  /** The plan was resolved against this very state. */
  predicate Current(c: Core, first: CommitSeq, base: CommitSeq, plan: seq<ResolvedProposal>) {
    && plan == WithCharges(c.active.values.Keys, plan) && PlanValid(plan)
    && base == c.covered && first == c.covered + 1 && CountAccepted(plan) > 0
    && c.covered + CountAccepted(plan) <= MAX64
  }

  function IDSet(ids: seq<ID>): set<ID> { set id | id in ids }

  // ------------------------------------------------------ how the state may change

  lemma StoreGrown(c: Core, nodes: Nodes, charged: nat)
    requires LayersFit(c, charged) && RootTable(nodes, c.root) == RootTable(c.nodes, c.root)
    ensures LayersFit(c.(nodes := nodes), charged) && MappedBy(c.(nodes := nodes)) == MappedBy(c)
    ensures AccountedBy(c) ==> AccountedBy(c.(nodes := nodes))
  {
  }

  lemma StoreReplaced(c: Core, store: Nodes, from: MapAddr, charged: nat)
    requires LayersFit(c, charged) && !c.inCheckpoint && RootTable(store, from) == RootTable(c.nodes, c.root)
    ensures LayersFit(c.(nodes := store, root := from), charged)
    ensures MappedBy(c.(nodes := store, root := from)) == MappedBy(c)
    ensures AccountedBy(c) ==> AccountedBy(c.(nodes := store, root := from))
  {
  }

  lemma PublishedFits(c: Core, v: Values, plan: seq<ResolvedProposal>, charged: nat, entries: nat, accepted: nat)
    requires LayersFit(c, charged) && ValidValues(v) && v.Keys == c.active.values.Keys + TouchedAll(plan)
    requires plan == WithCharges(c.active.values.Keys, plan) && entries == TotalEntries(plan)
    requires accepted > 0 && c.covered + accepted <= MAX64
    requires Overlay(Stack(RootTable(c.nodes, c.root), ValuesOf(c.frozen)), v)
             == PublishAll(Overlay(Stack(RootTable(c.nodes, c.root), ValuesOf(c.frozen)), c.active.values), plan)
    ensures var next := c.(active := Layer(v, c.active.charge + ENTRY_CHARGE * entries),
            covered := c.covered + accepted);
            LayersFit(next, charged + ENTRY_CHARGE * entries) && MappedBy(next) == PublishAll(MappedBy(c), plan)
  {
    ChargedOnce(c.active.values.Keys, plan);
    KeysCount(v);
    KeysCount(c.active.values);
    StackSnoc(RootTable(c.nodes, c.root), ValuesOf(c.frozen), v);
    StackSnoc(RootTable(c.nodes, c.root), ValuesOf(c.frozen), c.active.values);
  }

  /** Publishing with the statistics that account for the plan. */
  lemma FundedAccounted(c: Core, next: Core, plan: seq<ResolvedProposal>)
    requires next == c.(active := next.active, covered := next.covered, live := next.live)
    requires MappedBy(next) == PublishAll(MappedBy(c), plan)
    ensures L.Exact(next.live, EffectAll(MappedBy(c), L.Flat(plan))) && AccountedBy(c) ==> AccountedBy(next)
  {
    L.FlatEffect(MappedBy(c), plan);
  }

  lemma StatsAreFree(c: Core, next: Core, charged: nat)
    requires LayersFit(c, charged) && next == c.(live := next.live)
    ensures LayersFit(next, charged) && MappedBy(next) == MappedBy(c)
  {
  }

  lemma KeysCount(v: Values)
    ensures |v| == |v.Keys|
  {
  }

  /** What the accepted proposals are charged is exactly what the active layer grows by. */
  lemma ChargedOnce(active: set<ID>, plan: seq<ResolvedProposal>)
    requires plan == WithCharges(active, plan)
    ensures |active + TouchedAll(plan)| == |active| + TotalEntries(plan)
  {
    ChargedFrom(active, plan);
    TotalsAgree(plan);
  }

  function TotalFrom(plan: seq<ResolvedProposal>): nat {
    if plan == [] then 0 else (if plan[0].accepted then plan[0].deltaEntries else 0) + TotalFrom(plan[1..])
  }

  lemma {:induction false} ChargedFrom(active: set<ID>, rs: seq<ResolvedProposal>)
    ensures |active + TouchedAll(rs)| == |active| + TotalFrom(WithCharges(active, rs))
    decreases |rs|
  {
    if rs == [] {
      assert active + {} == active;
    } else {
      var ids := if rs[0].accepted then AppliedIDs(rs[0].changes) else {};
      ChargedFrom(active + ids, rs[1..]);
      GrownBy(active, ids);
      assert active + TouchedAll(rs) == (active + ids) + TouchedAll(rs[1..]);
      ChargesUnfold(active, rs, ids);
    }
  }

  lemma ChargesUnfold(active: set<ID>, rs: seq<ResolvedProposal>, ids: set<ID>)
    requires rs != [] && ids == if rs[0].accepted then AppliedIDs(rs[0].changes) else {}
    ensures TotalFrom(WithCharges(active, rs)) == |ids - active| + TotalFrom(WithCharges(active + ids, rs[1..]))
  {
    var rest := WithCharges(active + ids, rs[1..]);
    assert WithCharges(active, rs) == [rs[0].(deltaEntries := |ids - active|)] + rest;
    assert ([rs[0].(deltaEntries := |ids - active|)] + rest)[1..] == rest;
  }

  lemma GrownBy(active: set<ID>, ids: set<ID>)
    ensures |active + ids| == |active| + |ids - active|
  {
    assert active + ids == active + (ids - active);
  }

  lemma {:induction false} TotalsAgree(plan: seq<ResolvedProposal>)
    ensures TotalEntries(plan) == TotalFrom(plan)
    decreases |plan|
  {
    if |plan| > 1 {
      TotalsAgree(plan[1..]);
      TotalsAgree(plan[..|plan| - 1]);
      TotalsAgree(plan[1..|plan| - 1]);
      assert plan[1..][..|plan| - 2] == plan[1..|plan| - 1] == plan[..|plan| - 1][1..];
    }
  }

  method CountNew(have: set<ID>, ids: seq<ID>) returns (r: Option<nat>)
    ensures r == if 0 in ids then None else Some(|IDSet(ids) - have|)
  {
    var entries := 0;
    var seen: set<ID> := {};
    for i := 0 to |ids|
      invariant seen == IDSet(ids[..i]) && entries == |seen - have| && 0 !in ids[..i]
    {
      if ids[i] == 0 { return None; }
      assert ids[..i + 1] == ids[..i] + [ids[i]];
      assert IDSet(ids[..i + 1]) == IDSet(ids[..i]) + {ids[i]};
      CountOne(have, ids[i], seen);
      if ids[i] !in seen {
        seen := seen + {ids[i]};
        if ids[i] !in have { entries := entries + 1; }
      } else {
        assert seen + {ids[i]} == seen;
      }
    }
    assert ids[..|ids|] == ids;
    return Some(entries);
  }

  lemma CountOne(have: set<ID>, id: ID, seen: set<ID>)
    ensures id !in seen && id !in have ==> |seen + {id} - have| == |seen - have| + 1
    ensures id in have ==> seen + {id} - have == seen - have
  {
    if id !in seen && id !in have { assert seen + {id} - have == (seen - have) + {id}; }
  }

  lemma InstalledFits(c: Core, root: MapAddr, charged: nat)
    requires LayersFit(c, charged) && c.inCheckpoint
    requires RootTable(c.nodes, root) == Stack(RootTable(c.nodes, c.root), ValuesOf(c.frozen))
    ensures Charges(c.frozen) <= charged
    ensures var next := c.(root := root, rootCovered := c.captured.covered, frozen := [], inCheckpoint := false);
            MappedBy(next) == MappedBy(c) && LayersFit(next, charged - Charges(c.frozen))
  {
    StackConcat(RootTable(c.nodes, c.root), ValuesOf(c.frozen), [c.active.values]);
    assert ValuesOf([]) + [c.active.values] == [c.active.values];
  }

  // --------------------------------------------------------------------- publish

  datatype PublishOutcome =
    | InvalidPlan
    | StalePlan
    | CorruptPlan
    | Published(committed: nat, applied: nat, skipped: nat)

  function Requested(rs: seq<ResolvedChange>): seq<Change> {
    seq(|rs|, k requires 0 <= k < |rs| => rs[k].change)
  }

  /** A reference that was there is a valid one, and a user's change always applies. */
  predicate ResolvedWell(kind: Kind, r: ResolvedChange) {
    (r.prior.Some? ==> ValidRef(r.prior.value)) && (kind == UserCommit ==> r.apply)
  }

  predicate ProposalResolved(r: ResolvedProposal) {
    if !r.accepted then r.kind == UserCommit && r.changes == []
    else ValidProposal(Proposal(r.kind, [], Requested(r.changes))) && forall c <- r.changes :: ResolvedWell(r.kind, c)
  }

  /** `validateResolvedPlan`. */
  predicate PlanValid(plan: seq<ResolvedProposal>) { forall r <- plan :: ProposalResolved(r) }

  lemma ChangeValid(r: ResolvedProposal, k: nat)
    requires ProposalResolved(r) && k < |r.changes|
    ensures ValidChange(r.kind, r.changes[k].change)
  {
    assert Requested(r.changes)[k] == r.changes[k].change;
  }

  function CountAccepted(plan: seq<ResolvedProposal>): nat {
    if plan == [] then 0 else (if plan[0].accepted then 1 else 0) + CountAccepted(plan[1..])
  }

  lemma {:induction false} CountAppends(plan: seq<ResolvedProposal>, r: ResolvedProposal)
    ensures CountAccepted(plan + [r]) == CountAccepted(plan) + if r.accepted then 1 else 0
  {
    if plan != [] {
      assert (plan + [r])[1..] == plan[1..] + [r];
      CountAppends(plan[1..], r);
    }
  }

  lemma {:induction false} AcceptedCounted(plan: seq<ResolvedProposal>, n: nat)
    requires n <= |plan|
    ensures CountAccepted(plan[..n]) == |N.AcceptedAt(plan[..n])|
  {
    if n > 0 {
      AcceptedCounted(plan, n - 1);
      N.OneAcceptedMore(plan, n - 1);
      assert plan[..n] == plan[..n - 1] + [plan[n - 1]];
      CountAppends(plan[..n - 1], plan[n - 1]);
    }
  }

  /** The numbers of proposals accepted and of their changes that applied and that did not. */
  predicate Reports(r: PublishOutcome, plan: seq<ResolvedProposal>)
    requires r.Published?
  {
    && r.committed == |N.AcceptedAt(plan)|
    && r.applied == |N.ChangesAt(plan, true)| && r.skipped == |N.ChangesAt(plan, false)|
  }

  lemma Reported(r: PublishOutcome, plan: seq<ResolvedProposal>)
    requires r == Published(CountAccepted(plan), N.TallyAll(plan, true), N.TallyAll(plan, false))
    ensures Reports(r, plan)
  {
    AcceptedCounted(plan, |plan|);
    assert plan[..|plan|] == plan;
    N.Tallied(plan);
  }

  function TotalEntries(plan: seq<ResolvedProposal>): nat
    decreases |plan|
  {
    if plan == [] then 0
    else TotalEntries(plan[..|plan| - 1]) + if plan[|plan| - 1].accepted then plan[|plan| - 1].deltaEntries else 0
  }

  /** Every accepted proposal has its own open reservation, large enough for what it adds. */
  predicate Fundable(open: map<Handle, nat>, plan: seq<ResolvedProposal>, handles: seq<Handle>) {
    && |handles| == |plan|
    && (forall i, j | 0 <= i < j < |handles| :: handles[i] != handles[j])
    && (forall i | 0 <= i < |plan| :: plan[i].accepted ==>
       handles[i] in open && ENTRY_CHARGE * plan[i].deltaEntries <= open[handles[i]])
  }

  method ConsumeAll(budget: DeltaBudget, plan: seq<ResolvedProposal>, handles: seq<Handle>) returns (ok: bool)
    requires budget.Valid() && |handles| == |plan|
    modifies budget
    ensures budget.Valid()
    ensures Fundable(old(budget.open), plan, handles) ==> ok
    ensures ok ==> budget.charged == old(budget.charged) + ENTRY_CHARGE * TotalEntries(plan)
    ensures ok ==> budget.open == old(budget.open) - set h | h in handles
    ensures forall h <- old(budget.open) :: h !in handles ==> h in budget.open && budget.open[h] == old(budget.open)[h]
  {
    for i := 0 to |plan|
      invariant budget.Valid()
      invariant budget.charged == old(budget.charged) + ENTRY_CHARGE * TotalEntries(plan[..i])
      invariant budget.open == old(budget.open) - set h | h in handles[..i]
    {
      assert handles[..i + 1] == handles[..i] + [handles[i]];
      assert plan[..i + 1][..i] == plan[..i];
      if plan[i].accepted {
        var actual := budget.Consume(handles[i], plan[i].deltaEntries);
        if actual.None? { return false; }
      } else {
        budget.Release(handles[i]);
      }
    }
    assert plan[..|plan|] == plan && handles[..|plan|] == handles;
    return true;
  }

  /** The visible part of PublishGroup on the active layer. */
  method ApplyPlan(v0: Values, plan: seq<ResolvedProposal>, ghost t: Table)
    returns (v: Values, applied: nat, skipped: nat)
    requires ValidValues(v0) && PlanValid(plan)
    ensures Overlay(t, v) == PublishAll(Overlay(t, v0), plan) && ValidValues(v)
    ensures v.Keys == v0.Keys + TouchedAll(plan)
    ensures applied == N.TallyAll(plan, true) && skipped == N.TallyAll(plan, false)
  {
    v, applied, skipped := v0, 0, 0;
    for i := 0 to |plan|
      invariant ValidValues(v) && v.Keys + TouchedAll(plan[i..]) == v0.Keys + TouchedAll(plan)
      invariant PublishAll(Overlay(t, v), plan[i..]) == PublishAll(Overlay(t, v0), plan)
      invariant applied == N.TallyAll(plan[..i], true) && skipped == N.TallyAll(plan[..i], false)
    {
      assert plan[i..][0] == plan[i] && plan[i..][1..] == plan[i + 1..];
      N.TallyAllNext(plan, i, true);
      N.TallyAllNext(plan, i, false);
      var a, s;
      v, a, s := ApplyProposal(v, plan[i], t);
      applied, skipped := applied + a, skipped + s;
    }
    assert plan[|plan|..] == [] && plan[..|plan|] == plan;
  }

  /** One proposal of the plan. */
  method ApplyProposal(v0: Values, p: ResolvedProposal, ghost t: Table) returns (v: Values, applied: nat, skipped: nat)
    requires ValidValues(v0) && ProposalResolved(p)
    ensures Overlay(t, v) == Publish(Overlay(t, v0), p) && ValidValues(v)
    ensures v.Keys == v0.Keys + if p.accepted then AppliedIDs(p.changes) else {}
    ensures applied == N.TallyOf(p, true) && skipped == N.TallyOf(p, false)
  {
    if !p.accepted { return v0, 0, 0; }
    forall k | 0 <= k < |p.changes| ensures ValidChange(p.kind, p.changes[k].change) { ChangeValid(p, k); }
    v, applied, skipped := ApplyChanges(v0, p, t);
  }

  function TouchedAll(plan: seq<ResolvedProposal>): set<ID> {
    if plan == [] then {} else (if plan[0].accepted then AppliedIDs(plan[0].changes) else {}) + TouchedAll(plan[1..])
  }

  method ApplyChanges(v0: Values, p: ResolvedProposal, ghost t: Table) returns (v: Values, applied: nat, skipped: nat)
    requires ValidValues(v0) && forall k | 0 <= k < |p.changes| :: ValidChange(p.kind, p.changes[k].change)
    ensures Overlay(t, v) == EffectAll(Overlay(t, v0), p.changes) && ValidValues(v)
    ensures v.Keys == v0.Keys + AppliedIDs(p.changes)
    ensures applied == N.Tally(p.changes, true) && skipped == N.Tally(p.changes, false)
  {
    v, applied, skipped := v0, 0, 0;
    for k := 0 to |p.changes|
      invariant ValidValues(v) && v.Keys + AppliedIDs(p.changes[k..]) == v0.Keys + AppliedIDs(p.changes)
      invariant EffectAll(Overlay(t, v), p.changes[k..]) == EffectAll(Overlay(t, v0), p.changes)
      invariant applied == N.Tally(p.changes[..k], true) && skipped == N.Tally(p.changes[..k], false)
    {
      var c := p.changes[k];
      N.TallyNext(p.changes, k, true);
      N.TallyNext(p.changes, k, false);
      assert p.changes[k..][0] == c && p.changes[k..][1..] == p.changes[k + 1..];
      ghost var before := v;
      if !c.apply {
        skipped := skipped + 1;
      } else {
        v := v[c.change.id := if c.change.op == Delete then None else Some(c.change.newRef)];
        applied := applied + 1;
      }
      ApplyOne(t, before, c, v);
    }
    assert p.changes[|p.changes|..] == [] && p.changes[..|p.changes|] == p.changes;
  }

  lemma ApplyOne(t: Table, v: Values, c: ResolvedChange, after: Values)
    requires after == if c.apply then v[c.change.id := if c.change.op == Delete then None else Some(c.change.newRef)]
             else v
    ensures Overlay(t, after) == Effect(Overlay(t, v), c)
  {
  }

  /** The candidate root denotes the base root under the frozen layers. */
  method BuildRoot(nodes: Nodes, root: MapAddr, rootCovered: CommitSeq, covered: CommitSeq, layers: seq<Layer>)
    returns (b: BuildResult)
    requires Proper(Stored(nodes, root)) && LayersOk(layers)
    requires rootCovered <= covered && (Charges(layers) > 0 ==> rootCovered < covered)
    ensures b.Built? && Grown(nodes, b.nodes) && Proper(Stored(b.nodes, root)) && Proper(Stored(b.nodes, b.root))
    ensures RootTable(b.nodes, root) == RootTable(nodes, root)
    ensures RootTable(b.nodes, b.root) == Stack(RootTable(nodes, root), ValuesOf(layers))
    ensures Carried(|RootTable(nodes, root)|, b.delta.removed, b.delta.added, |RootTable(b.nodes, b.root)|)
    ensures b.delta.removed <= |RootTable(nodes, root)|
    ensures Carried(Reachable(nodes, root, TOP), b.delta.bytesRemoved, b.delta.bytesAdded,
                    Reachable(b.nodes, b.root, TOP))
    ensures b.delta.bytesRemoved <= Reachable(nodes, root, TOP)
  {
    RootTableNoZero(nodes, root);
    ChargesAreSizes(layers);
    var ms := FoldLayers(layers, RootTable(nodes, root));
    b := BuildSorted(nodes, root, rootCovered, covered, ms);
    GoneAtMost(RootTable(nodes, root), RootTable(b.nodes, b.root));
    OldRootAnswers(nodes, root, b.nodes);
    BaseStored(nodes, root, b.nodes);
  }

  lemma GoneAtMost(t0: Table, t: Table)
    ensures Gone(t0, t) <= |t0|
  {
    CardinalityGrows(t0.Keys - t.Keys, t0.Keys);
    assert |t0.Keys| == |t0|;
  }

  lemma CardinalityGrows(a: set<ID>, b: set<ID>)
    requires a <= b
    ensures |a| <= |b|
  {
    assert b == a + (b - a);
  }

  lemma SortFits(entries: nat, charged: nat, hard: nat, sort: nat)
    requires ENTRY_CHARGE * entries <= charged <= hard && hard / ENTRY_CHARGE <= sort / MUTATION_BYTES
    ensures entries <= sort / MUTATION_BYTES
  {
  }

  /** Frozen layers as one strictly increasing list of mutations with the same meaning. */
  method FoldLayers(layers: seq<Layer>, ghost t: Table) returns (ms: seq<Mutation>)
    requires LayersOk(layers) && NoZero(t)
    ensures ValidMutations(ms) && ApplyAll(t, ms) == Stack(t, ValuesOf(layers))
    ensures ms != [] ==> Sizes(ValuesOf(layers)) > 0
  {
    NoZeroInLayers(layers);
    var all := ListLayers(ValuesOf(layers));
    forall i | 0 <= i < |layers| ensures ValidValues(ValuesOf(layers)[i]) { assert LayerOk(layers[i]); }
    FoldedMeansSame(t, all);
    ms := FoldSorted(all);
  }

  method FoldSorted(all: seq<Mutation>) returns (ms: seq<Mutation>)
    ensures ms == Folded(StableSort(all)) && (ms != [] ==> all != [])
  {
    var sorted := StableSort(all);
    var a := new Mutation[|sorted|](i requires 0 <= i < |sorted| => sorted[i]);
    assert a[..] == sorted;
    var unique := FoldRuns(a);
    ms := a[..unique];
  }

  lemma FrozenSame(frozen: seq<Layer>, active: Layer, t: Table)
    requires LayersOk(frozen) && LayerOk(active)
    ensures LayersOk(frozen + [active]) && Charges(frozen + [active]) == Charges(frozen) + active.charge
    ensures Stack(t, ValuesOf(frozen + [active]) + [map[]]) == Stack(t, ValuesOf(frozen) + [active.values])
  {
    assert (frozen + [active])[..|frozen|] == frozen;
    assert ValuesOf(frozen + [active]) == ValuesOf(frozen) + [active.values];
    StackSnoc(t, ValuesOf(frozen) + [active.values], map[]);
    OverlayEmpty(Stack(t, ValuesOf(frozen) + [active.values]));
  }
}
