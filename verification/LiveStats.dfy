/** Incremental per-segment live accounting (internal/mapping/mapping.go, `applyPlanLiveStats`)
    against the definition it maintains: sums over the current table. */
module LiveStats {
  import opened RecordLog
  import opened Mapping

  datatype Stat = Stat(bytes: nat, records: nat)
  type Live = map<SegmentID, Stat>
  datatype Unit = Bytes | Records

  function Weight(ref: RecordRef, segment: SegmentID, unit: Unit): nat {
    if SegmentOf(ref.addr) != segment then 0 else if unit == Bytes then ref.size else 1
  }

  /** Live bytes or records of one segment, by definition. */
  ghost function Sum(t: Table, segment: SegmentID, unit: Unit): nat {
    if t == map[] then 0 else
      var id :| id in t;
      Weight(t[id], segment, unit) + Sum(t - {id}, segment, unit)
  }

  lemma SumRemove(t: Table, id: ID, segment: SegmentID, unit: Unit)
    requires id in t
    ensures Sum(t, segment, unit) == Weight(t[id], segment, unit) + Sum(t - {id}, segment, unit)
  {
    var pick :| pick in t && Sum(t, segment, unit) == Weight(t[pick], segment, unit) + Sum(t - {pick}, segment, unit);
    if pick != id {
      SumRemove(t - {pick}, id, segment, unit);
      SumRemove(t - {id}, pick, segment, unit);
      assert t - {pick} - {id} == t - {id} - {pick};
    }
  }

  /** The sparse table of a state: a segment is present exactly when something lives in it. */
  ghost predicate Exact(live: Live, t: Table) {
    forall segment: SegmentID :: ExactAt(live, t, segment)
  }

  ghost predicate ExactAt(live: Live, t: Table, segment: SegmentID) {
    && (segment in live <==> Sum(t, segment, Records) > 0)
    && (segment in live ==> live[segment] == LiveIn(t, segment))
  }

  ghost function LiveIn(t: Table, segment: SegmentID): Stat {
    Stat(Sum(t, segment, Bytes), Sum(t, segment, Records))
  }

  ghost predicate ValidTable(t: Table) { forall id :: id in t ==> ValidRef(t[id]) }

  /** A table has one exact live table, however it was computed. */
  lemma LiveIsDetermined(a: Live, b: Live, t: Table)
    requires Exact(a, t) && Exact(b, t)
    ensures a == b
  {
    forall s: SegmentID ensures (s in a <==> s in b) && (s in a ==> a[s] == b[s]) {
      assert ExactAt(a, t, s) && ExactAt(b, t, s);
    }
  }

  // ------------------------------------------------------------ totals of a plan

  function Flat(plan: seq<ResolvedProposal>): seq<ResolvedChange> {
    if plan == [] then [] else (if plan[0].accepted then plan[0].changes else []) + Flat(plan[1..])
  }

  function Removed(r: ResolvedChange, segment: SegmentID, unit: Unit): nat {
    if r.apply && r.prior.Some? then Weight(r.prior.value, segment, unit) else 0
  }

  function Added(r: ResolvedChange, segment: SegmentID, unit: Unit): nat {
    if r.apply && r.change.op != Delete then Weight(r.change.newRef, segment, unit) else 0
  }

  function TotalRemoved(rs: seq<ResolvedChange>, segment: SegmentID, unit: Unit): nat {
    if rs == [] then 0 else Removed(rs[0], segment, unit) + TotalRemoved(rs[1..], segment, unit)
  }

  function TotalAdded(rs: seq<ResolvedChange>, segment: SegmentID, unit: Unit): nat {
    if rs == [] then 0 else Added(rs[0], segment, unit) + TotalAdded(rs[1..], segment, unit)
  }

  /** Every change saw the entry that was current when its turn came. */
  ghost predicate ResolvedFrom(t: Table, rs: seq<ResolvedChange>)
    decreases |rs|
  {
    rs == [] || (rs[0].prior == Get(t, rs[0].change.id) && ResolvedFrom(Effect(t, rs[0]), rs[1..]))
  }

  predicate ValidRefsOf(r: ResolvedChange) {
    r.apply ==> (r.prior.Some? ==> ValidRef(r.prior.value)) && (r.change.op != Delete ==> ValidRef(r.change.newRef))
  }

  ghost predicate ValidRefs(rs: seq<ResolvedChange>) { forall r <- rs :: ValidRefsOf(r) }

  /** Conservation: what lives afterwards plus what was removed is what lived plus what came. */
  lemma {:induction false} SumAfter(t: Table, rs: seq<ResolvedChange>, segment: SegmentID, unit: Unit)
    requires ResolvedFrom(t, rs)
    ensures Sum(EffectAll(t, rs), segment, unit) + TotalRemoved(rs, segment, unit)
         == Sum(t, segment, unit) + TotalAdded(rs, segment, unit)
    decreases |rs|
  {
    if rs != [] {
      var r := rs[0];
      var id := r.change.id;
      if id in t { SumRemove(t, id, segment, unit); }
      var u := Effect(t, r);
      if r.apply && id in u {
        SumRemove(u, id, segment, unit);
        assert u - {id} == t - {id};
      }
      assert id !in t ==> t - {id} == t;
      SumAfter(u, rs[1..], segment, unit);
    }
  }

  lemma {:induction false} ChangesResolvedFrom(kind: Kind, t: Table, cs: seq<Change>, rest: seq<ResolvedChange>)
    requires ResolvedFrom(EffectAll(t, ResolveChanges(kind, t, cs)), rest)
    ensures ResolvedFrom(t, ResolveChanges(kind, t, cs) + rest)
    ensures EffectAll(t, ResolveChanges(kind, t, cs) + rest)
         == EffectAll(EffectAll(t, ResolveChanges(kind, t, cs)), rest)
    decreases |cs|
  {
    if cs == [] {
      assert [] + rest == rest;
    } else {
      Unfold(kind, t, cs);
      var r := ResolveChange(kind, t, cs[0]);
      var tail := ResolveChanges(kind, Effect(t, r), cs[1..]);
      ChangesResolvedFrom(kind, Effect(t, r), cs[1..], rest);
      assert ([r] + tail + rest)[1..] == tail + rest;
    }
  }

  /** A resolved group is a run of changes, each resolved where the earlier ones left the table. */
  lemma {:induction false} PlanResolvedFrom(t: Table, ps: seq<Proposal>)
    ensures ResolvedFrom(t, Flat(ResolveAll(t, ps)))
    ensures PublishAll(t, ResolveAll(t, ps)) == EffectAll(t, Flat(ResolveAll(t, ps)))
    decreases |ps|
  {
    if ps != [] {
      var p, r := ps[0], Resolve(t, ps[0]);
      var rest := ResolveAll(Publish(t, r), ps[1..]);
      PlanResolvedFrom(Publish(t, r), ps[1..]);
      assert ([r] + rest)[1..] == rest;
      if r.accepted {
        ChangesResolvedFrom(p.kind, t, p.changes, Flat(rest));
      } else {
        assert [] + Flat(rest) == Flat(rest);
      }
    }
  }

  lemma {:induction false} EffectConcat(t: Table, a: seq<ResolvedChange>, b: seq<ResolvedChange>)
    ensures EffectAll(t, a + b) == EffectAll(EffectAll(t, a), b)
    decreases |a|
  {
    if a == [] {
      assert a + b == b;
    } else {
      assert (a + b)[1..] == a[1..] + b;
      EffectConcat(Effect(t, a[0]), a[1..], b);
    }
  }

  /** Publishing a plan is applying its accepted changes one after the other. */
  lemma {:induction false} FlatEffect(t: Table, plan: seq<ResolvedProposal>)
    ensures PublishAll(t, plan) == EffectAll(t, Flat(plan))
    decreases |plan|
  {
    if plan != [] {
      FlatEffect(Publish(t, plan[0]), plan[1..]);
      EffectConcat(t, if plan[0].accepted then plan[0].changes else [], Flat(plan[1..]));
    }
  }

  /** No total of the group, and no resulting count, leaves the 64-bit range. */
  ghost predicate Fits(t: Table, rs: seq<ResolvedChange>) {
    forall segment: SegmentID, unit: Unit :: FitsAt(t, rs, segment, unit)
  }

  ghost predicate FitsAt(t: Table, rs: seq<ResolvedChange>, segment: SegmentID, unit: Unit) {
    && TotalRemoved(rs, segment, unit) <= MAX64
    && TotalAdded(rs, segment, unit) <= MAX64
    && Sum(EffectAll(t, rs), segment, unit) <= MAX64
  }

  // ------------------------------------------------------ the same, change by change

  function Current(live: Live, segment: SegmentID): Stat {
    if segment in live then live[segment] else Stat(0, 0)
  }

  /** The reference leaves its segment; the last one takes the segment's entry with it. */
  function Taken(live: Live, ref: RecordRef): Live {
    var segment := SegmentOf(ref.addr);
    var stat := Current(live, segment);
    if stat.records <= 1 then live - {segment}
    else live[segment := Stat(if stat.bytes < ref.size then 0 else stat.bytes - ref.size, stat.records - 1)]
  }

  function Given(live: Live, ref: RecordRef): Live {
    var segment := SegmentOf(ref.addr);
    var stat := Current(live, segment);
    live[segment := Stat(stat.bytes + ref.size, stat.records + 1)]
  }

  function Account(live: Live, r: ResolvedChange): Live {
    if !r.apply then live else
      var left := if r.prior.Some? then Taken(live, r.prior.value) else live;
      if r.change.op == Delete then left else Given(left, r.change.newRef)
  }

  /** The live table after these changes, accounted one at a time. */
  function AccountAll(live: Live, rs: seq<ResolvedChange>): Live
    decreases |rs|
  {
    if rs == [] then live else AccountAll(Account(live, rs[0]), rs[1..])
  }

  lemma TakenExact(live: Live, t: Table, id: ID)
    requires Exact(live, t) && id in t
    ensures Exact(Taken(live, t[id]), t - {id})
  {
    forall segment: SegmentID ensures ExactAt(Taken(live, t[id]), t - {id}, segment) {
      assert ExactAt(live, t, segment);
      SumRemove(t, id, segment, Bytes);
      SumRemove(t, id, segment, Records);
    }
  }

  lemma GivenExact(live: Live, t: Table, id: ID, ref: RecordRef)
    requires Exact(live, t) && id !in t
    ensures Exact(Given(live, ref), t[id := ref])
  {
    var u := t[id := ref];
    assert u - {id} == t;
    forall segment: SegmentID ensures ExactAt(Given(live, ref), u, segment) {
      assert ExactAt(live, t, segment);
      SumRemove(u, id, segment, Bytes);
      SumRemove(u, id, segment, Records);
      NoRecordsNoBytes(t, segment);
    }
  }

  lemma NoRecordsNoBytes(t: Table, segment: SegmentID)
    ensures Sum(t, segment, Records) == 0 ==> Sum(t, segment, Bytes) == 0
  {
    if t != map[] {
      var id :| id in t;
      SumRemove(t, id, segment, Bytes);
      SumRemove(t, id, segment, Records);
      NoRecordsNoBytes(t - {id}, segment);
    }
  }

  lemma AccountExact(live: Live, t: Table, r: ResolvedChange)
    requires Exact(live, t) && r.prior == Get(t, r.change.id)
    ensures Exact(Account(live, r), Effect(t, r))
  {
    var id := r.change.id;
    if r.apply {
      if id in t { TakenExact(live, t, id); }
      assert id !in t ==> t - {id} == t;
      var left := if id in t then Taken(live, t[id]) else live;
      if r.change.op != Delete {
        GivenExact(left, t - {id}, id, r.change.newRef);
        assert (t - {id})[id := r.change.newRef] == t[id := r.change.newRef];
      }
    }
  }

  lemma {:induction false} AccountAllExact(live: Live, t: Table, rs: seq<ResolvedChange>)
    requires Exact(live, t) && ResolvedFrom(t, rs)
    ensures Exact(AccountAll(live, rs), EffectAll(t, rs))
    decreases |rs|
  {
    if rs != [] {
      AccountExact(live, t, rs[0]);
      AccountAllExact(Account(live, rs[0]), Effect(t, rs[0]), rs[1..]);
    }
  }

  // ------------------------------------------------------------- the code's pass

  /** What a group removes from and adds to one segment, in one unit. */
  datatype Flow = Flow(out: nat, into: nat)
  datatype Delta = Delta(bytes: Flow, records: Flow)
  type Deltas = map<SegmentID, Delta>
  const NO_FLOW := Flow(0, 0)

  function FlowIn(deltas: Deltas, segment: SegmentID, unit: Unit): Flow {
    if segment !in deltas then NO_FLOW
    else if unit == Bytes then deltas[segment].bytes else deltas[segment].records
  }

  function DeltaIn(deltas: Deltas, segment: SegmentID): Delta {
    if segment in deltas then deltas[segment] else Delta(NO_FLOW, NO_FLOW)
  }

  /** Collected so far plus the rest of the plan is the whole plan. */
  ghost predicate Progress(deltas: Deltas, rest: seq<ResolvedChange>, all: seq<ResolvedChange>) {
    forall segment: SegmentID, unit: Unit :: ProgressAt(FlowIn(deltas, segment, unit), rest, all, segment, unit)
  }

  ghost predicate ProgressAt(f: Flow, rest: seq<ResolvedChange>, all: seq<ResolvedChange>, segment: SegmentID,
                             unit: Unit) {
    && f.out + TotalRemoved(rest, segment, unit) == TotalRemoved(all, segment, unit)
    && f.into + TotalAdded(rest, segment, unit) == TotalAdded(all, segment, unit)
  }

  /** The old reference leaves its segment; None when it is malformed or a 64-bit counter would
      overflow. */
  function Leave(deltas: Deltas, ref: RecordRef): Option<Deltas> {
    var segment := SegmentOf(ref.addr);
    var d := DeltaIn(deltas, segment);
    if !ValidRef(ref) || d.bytes.out > MAX64 - ref.size || d.records.out >= MAX64 then None
    else Some(deltas[segment := Delta(d.bytes.(out := d.bytes.out + ref.size), d.records.(out := d.records.out + 1))])
  }

  function Enter(deltas: Deltas, ref: RecordRef): Option<Deltas> {
    var segment := SegmentOf(ref.addr);
    var d := DeltaIn(deltas, segment);
    if !ValidRef(ref) || d.bytes.into > MAX64 - ref.size || d.records.into >= MAX64 then None
    else Some(deltas[segment := Delta(d.bytes.(into := d.bytes.into + ref.size),
         d.records.(into := d.records.into + 1))])
  }

  function Accumulate(deltas: Deltas, r: ResolvedChange): Option<Deltas> {
    if !r.apply then Some(deltas) else
      var left := if r.prior.Some? then Leave(deltas, r.prior.value) else Some(deltas);
      if left.None? || r.change.op == Delete then left else Enter(left.value, r.change.newRef)
  }

  lemma AccumulateFlow(deltas: Deltas, r: ResolvedChange, segment: SegmentID, unit: Unit)
    requires Accumulate(deltas, r).Some?
    ensures FlowIn(Accumulate(deltas, r).value, segment, unit)
         == Flow(FlowIn(deltas, segment, unit).out + Removed(r, segment, unit),
                 FlowIn(deltas, segment, unit).into + Added(r, segment, unit))
  {
  }

  lemma AccumulateOverflow(deltas: Deltas, r: ResolvedChange) returns (segment: SegmentID, unit: Unit)
    requires Accumulate(deltas, r).None? && ValidRefsOf(r)
    ensures FlowIn(deltas, segment, unit).out + Removed(r, segment, unit) > MAX64
         || FlowIn(deltas, segment, unit).into + Added(r, segment, unit) > MAX64
  {
    if r.prior.Some? && Leave(deltas, r.prior.value).None? {
      segment := SegmentOf(r.prior.value.addr);
      unit := if FlowIn(deltas, segment, Bytes).out > MAX64 - r.prior.value.size then Bytes else Records;
    } else {
      segment := SegmentOf(r.change.newRef.addr);
      unit := if FlowIn(deltas, segment, Bytes).into > MAX64 - r.change.newRef.size then Bytes else Records;
    }
  }

  lemma Advance(deltas: Deltas, r: ResolvedChange, rest: seq<ResolvedChange>, all: seq<ResolvedChange>, t: Table)
    requires Progress(deltas, [r] + rest, all)
    ensures Accumulate(deltas, r).Some? ==> Progress(Accumulate(deltas, r).value, rest, all)
    ensures Accumulate(deltas, r).None? && ValidRefsOf(r) ==> !Fits(t, all)
  {
    assert ([r] + rest)[1..] == rest;
    if Accumulate(deltas, r).Some? {
      forall segment: SegmentID, unit: Unit
        ensures ProgressAt(FlowIn(Accumulate(deltas, r).value, segment, unit), rest, all, segment, unit)
      {
        assert ProgressAt(FlowIn(deltas, segment, unit), [r] + rest, all, segment, unit);
        AccumulateFlow(deltas, r, segment, unit);
      }
    } else if ValidRefsOf(r) {
      var segment, unit := AccumulateOverflow(deltas, r);
      assert ProgressAt(FlowIn(deltas, segment, unit), [r] + rest, all, segment, unit);
      assert !FitsAt(t, all, segment, unit);
    }
  }

  /** First loop: collect the group's flows, skipping rejected proposals and skipped changes. */
  method Collect(plan: seq<ResolvedProposal>, ghost t: Table) returns (collected: Option<Deltas>)
    ensures collected.Some? ==> Progress(collected.value, [], Flat(plan))
    ensures collected.None? && ValidRefs(Flat(plan)) ==> !Fits(t, Flat(plan))
  {
    var deltas: Deltas := map[];
    ghost var all := Flat(plan);
    for i := 0 to |plan|
      invariant Progress(deltas, Flat(plan[i..]), all)
    {
      assert plan[i..][0] == plan[i] && plan[i..][1..] == plan[i + 1..];
      ghost var after := Flat(plan[i + 1..]);
      if plan[i].accepted {
        FlatHolds(plan, i);
        var next := CollectProposal(deltas, plan[i].changes, after, all, t);
        if next.None? { return None; }
        deltas := next.value;
      } else {
        assert [] + after == after;
      }
    }
    assert plan[|plan|..] == [];
    return Some(deltas);
  }

  lemma {:induction false} FlatHolds(plan: seq<ResolvedProposal>, i: nat)
    requires i < |plan| && plan[i].accepted
    ensures forall r <- plan[i].changes :: r in Flat(plan)
  {
    if i > 0 {
      FlatHolds(plan[1..], i - 1);
      assert plan[1..][i - 1] == plan[i];
    }
  }

  method CollectProposal(deltas0: Deltas, cs: seq<ResolvedChange>, ghost after: seq<ResolvedChange>,
                         ghost all: seq<ResolvedChange>, ghost t: Table) returns (collected: Option<Deltas>)
    requires Progress(deltas0, cs + after, all)
    ensures collected.Some? ==> Progress(collected.value, after, all)
    ensures collected.None? && (forall r <- cs :: ValidRefsOf(r)) ==> !Fits(t, all)
  {
    var deltas := deltas0;
    assert cs[0..] == cs;
    for k := 0 to |cs|
      invariant Progress(deltas, cs[k..] + after, all)
    {
      assert cs[k..] + after == [cs[k]] + (cs[k + 1..] + after);
      Advance(deltas, cs[k], cs[k + 1..] + after, all, t);
      var next := Accumulate(deltas, cs[k]);
      if next.None? { return None; }
      deltas := next.value;
    }
    assert cs[|cs|..] + after == after;
    return Some(deltas);
  }

  /** Second loop: net one counter; None when it would underflow or overflow. */
  function Net(current: nat, f: Flow): Option<nat> {
    var remove := if f.out >= f.into then f.out - f.into else 0;
    var add := if f.out >= f.into then 0 else f.into - f.out;
    if current < remove || current - remove > MAX64 - add then None else Some(current - remove + add)
  }

  function NetStat(s: Stat, d: Delta): Option<Stat> {
    var bytes, records := Net(s.bytes, d.bytes), Net(s.records, d.records);
    if bytes.None? || records.None? then None else Some(Stat(bytes.value, records.value))
  }

  lemma NetExact(live: Live, t: Table, rs: seq<ResolvedChange>, deltas: Deltas, segment: SegmentID)
    requires Exact(live, t) && ResolvedFrom(t, rs) && Progress(deltas, [], rs)
    ensures var next := NetStat(Current(live, segment), DeltaIn(deltas, segment));
            if next.Some? then next.value == LiveIn(EffectAll(t, rs), segment) else !Fits(t, rs)
  {
    NetUnit(t, rs, deltas, segment, Bytes);
    NetUnit(t, rs, deltas, segment, Records);
    NoRecordsNoBytes(t, segment);
    assert ExactAt(live, t, segment);
    assert Current(live, segment) == LiveIn(t, segment);
  }

  lemma NetUnit(t: Table, rs: seq<ResolvedChange>, deltas: Deltas, segment: SegmentID, unit: Unit)
    requires ResolvedFrom(t, rs) && Progress(deltas, [], rs)
    ensures var next := Net(Sum(t, segment, unit), FlowIn(deltas, segment, unit));
            if next.Some? then next.value == Sum(EffectAll(t, rs), segment, unit) else !Fits(t, rs)
  {
    SumAfter(t, rs, segment, unit);
    assert ProgressAt(FlowIn(deltas, segment, unit), [], rs, segment, unit);
    if Net(Sum(t, segment, unit), FlowIn(deltas, segment, unit)).None? {
      assert !FitsAt(t, rs, segment, unit);
    }
  }

  /** The live table is exact and every change of the plan saw the entry it replaces. */
  ghost predicate Genuine(live: Live, plan: seq<ResolvedProposal>, t: Table) {
    Exact(live, t) && ResolvedFrom(t, Flat(plan))
  }

  /** `applyPlanLiveStats`: starting exact, a plan resolved from the current table is accounted
      without failure unless a reference is malformed or a 64-bit total overflows, and the result
      is exact again: netting the flows gives what accounting for one change after the other
      gives. */
  method ApplyPlan(live: Live, plan: seq<ResolvedProposal>, ghost t: Table) returns (updated: Option<Live>)
    ensures Genuine(live, plan, t) && ValidRefs(Flat(plan)) && Fits(t, Flat(plan)) ==> updated.Some?
    ensures Genuine(live, plan, t) && updated.Some? ==>
      Exact(updated.value, EffectAll(t, Flat(plan))) && updated.value == AccountAll(live, Flat(plan))
  {
    ghost var rs, genuine := Flat(plan), Genuine(live, plan, t);
    var collected := Collect(plan, t);
    if collected.None? { return None; }
    var deltas := collected.value;
    var keys := deltas.Keys;
    while keys != {}
      invariant keys <= deltas.Keys
      invariant forall segment <- deltas.Keys - keys :: NetStat(Current(live, segment), deltas[segment]).Some?
    {
      var segment: SegmentID :| segment in keys;
      if genuine { NetExact(live, t, rs, deltas, segment); }
      if NetStat(Current(live, segment), deltas[segment]).None? { return None; }
      keys := keys - {segment};
    }
    if genuine { AllNet(live, t, rs, deltas); }
    updated := InstallNet(live, deltas, EffectAll(t, rs));
    if genuine {
      AccountAllExact(live, t, rs);
      LiveIsDetermined(updated.value, AccountAll(live, rs), EffectAll(t, rs));
    }
  }

  lemma AllNet(live: Live, t: Table, rs: seq<ResolvedChange>, deltas: Deltas)
    requires Exact(live, t) && ResolvedFrom(t, rs) && Progress(deltas, [], rs)
    requires forall segment <- deltas :: NetStat(Current(live, segment), deltas[segment]).Some?
    ensures Netted(live, deltas, EffectAll(t, rs))
  {
    forall segment: SegmentID ensures NetsTo(live, deltas, EffectAll(t, rs), segment) {
      NetExact(live, t, rs, deltas, segment);
      if segment !in deltas { Untouched(live, t, rs, deltas, segment); }
    }
  }

  lemma Untouched(live: Live, t: Table, rs: seq<ResolvedChange>, deltas: Deltas, segment: SegmentID)
    requires Exact(live, t) && ResolvedFrom(t, rs) && Progress(deltas, [], rs) && segment !in deltas
    ensures ExactAt(live, EffectAll(t, rs), segment)
  {
    assert ProgressAt(FlowIn(deltas, segment, Bytes), [], rs, segment, Bytes);
    assert ProgressAt(FlowIn(deltas, segment, Records), [], rs, segment, Records);
    SumAfter(t, rs, segment, Bytes);
    SumAfter(t, rs, segment, Records);
    assert ExactAt(live, t, segment);
  }

  ghost predicate NetsTo(live: Live, deltas: Deltas, u: Table, segment: SegmentID) {
    && (segment in deltas ==> NetStat(Current(live, segment), deltas[segment]) == Some(LiveIn(u, segment)))
    && (segment !in deltas ==> ExactAt(live, u, segment))
  }

  ghost predicate Netted(live: Live, deltas: Deltas, u: Table) {
    forall segment: SegmentID :: NetsTo(live, deltas, u, segment)
  }

  /** Third loop: store the netted counters, dropping segments that became empty. A segment
      without live records that still has live bytes is corrupt; for a genuine plan there is none. */
  method InstallNet(live: Live, deltas: Deltas, ghost u: Table) returns (out: Option<Live>)
    requires forall segment <- deltas :: NetStat(Current(live, segment), deltas[segment]).Some?
    ensures Netted(live, deltas, u) ==> out.Some? && Exact(out.value, u)
  {
    var now: Live := live;
    var keys := deltas.Keys;
    while keys != {}
      invariant keys <= deltas.Keys
      invariant forall segment: SegmentID :: segment !in deltas.Keys - keys ==>
                  (segment in now <==> segment in live) && (segment in live ==> now[segment] == live[segment])
      invariant Netted(live, deltas, u) ==> forall segment <- deltas.Keys - keys :: ExactAt(now, u, segment)
    {
      var segment: SegmentID :| segment in keys;
      var next := NetStat(Current(live, segment), deltas[segment]).value;
      assert Netted(live, deltas, u) ==> NetsTo(live, deltas, u, segment);
      NoRecordsNoBytes(u, segment);
      ghost var before: Live := now;
      if next.records == 0 {
        if next.bytes != 0 { return None; }
        now := now - {segment};
      } else {
        now := now[segment := next];
      }
      assert Netted(live, deltas, u) ==> ExactAt(now, u, segment);
      assert forall other <- deltas.Keys - keys :: ExactAt(before, u, other) ==> ExactAt(now, u, other);
      keys := keys - {segment};
    }
    if Netted(live, deltas, u) {
      forall segment: SegmentID ensures ExactAt(now, u, segment) { assert NetsTo(live, deltas, u, segment); }
    }
    return Some(now);
  }
}
