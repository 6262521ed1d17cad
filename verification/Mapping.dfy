/** The ID-to-record mapping as a plain table: group resolution, publication and the
    proposals replay rebuilds (internal/mapping/mapping.go, internal/replay/replay.go). */
module Mapping {
  import opened RecordLog

  type ID = u64 // zero is never a valid ID; the validators reject it
  type CommitSeq = u64
  type Table = map<ID, RecordRef>

  datatype Condition = Condition(id: ID, expected: VAddr) // expected 0: the ID must be absent
  datatype Operation = Put | Delete | Relocate
  datatype Change = Change(id: ID, newRef: RecordRef, expectedOld: VAddr, op: Operation)
  datatype Kind = UserCommit | Relocation
  datatype Proposal = Proposal(kind: Kind, conditions: seq<Condition>, changes: seq<Change>)
  datatype ResolvedChange = ResolvedChange(change: Change, apply: bool, prior: Option<RecordRef>)
  datatype ResolvedProposal =
    ResolvedProposal(kind: Kind, accepted: bool, deltaEntries: nat, changes: seq<ResolvedChange>)

  // ---------------------------------------------------------------- validation

  predicate ValidChange(kind: Kind, c: Change) {
    && c.id != 0
    && match kind
       case UserCommit =>
         && c.expectedOld == 0
         && ((c.op == Put && ValidRef(c.newRef)) || (c.op == Delete && c.newRef == ZERO_REF))
       case Relocation =>
         && c.op == Relocate && ValidRef(c.newRef) && ValidAddr(c.expectedOld)
         && c.newRef.addr != c.expectedOld
  }

  predicate ValidProposal(p: Proposal) {
    && (p.kind == Relocation ==> p.conditions == [] && p.changes != [])
    && (forall i :: 0 <= i < |p.conditions| ==>
          && p.conditions[i].id != 0
          && (p.conditions[i].expected != 0 ==> ValidAddr(p.conditions[i].expected)))
    && (forall i, j :: 0 <= i < j < |p.conditions| ==> p.conditions[i].id < p.conditions[j].id)
    && (forall i :: 0 <= i < |p.changes| ==> ValidChange(p.kind, p.changes[i]))
    && (forall i, j :: 0 <= i < j < |p.changes| ==> p.changes[i].id < p.changes[j].id)
  }

  // ------------------------------------- the reference: one proposal at a time

  function Get(t: Table, id: ID): Option<RecordRef> { if id in t then Some(t[id]) else None }

  predicate Holds(t: Table, c: Condition) {
    if c.expected == 0 then c.id !in t else c.id in t && t[c.id].addr == c.expected
  }

  predicate AllHold(t: Table, cs: seq<Condition>) { forall c <- cs :: Holds(t, c) }

  function ResolveChange(kind: Kind, t: Table, c: Change): ResolvedChange {
    ResolvedChange(c, kind == UserCommit || (c.id in t && t[c.id].addr == c.expectedOld), Get(t, c.id))
  }

  function Effect(t: Table, r: ResolvedChange): Table {
    if !r.apply then t
    else if r.change.op == Delete then t - {r.change.id}
    else t[r.change.id := r.change.newRef]
  }

  function EffectAll(t: Table, rs: seq<ResolvedChange>): Table
    decreases |rs|
  {
    if rs == [] then t else EffectAll(Effect(t, rs[0]), rs[1..])
  }

  function ResolveChanges(kind: Kind, t: Table, cs: seq<Change>): (rs: seq<ResolvedChange>)
    ensures |rs| == |cs|
    decreases |cs|
  {
    if cs == [] then [] else
      var r := ResolveChange(kind, t, cs[0]);
      [r] + ResolveChanges(kind, Effect(t, r), cs[1..])
  }

  function Resolve(t: Table, p: Proposal): ResolvedProposal {
    if AllHold(t, p.conditions)
    then ResolvedProposal(p.kind, true, 0, ResolveChanges(p.kind, t, p.changes))
    else ResolvedProposal(p.kind, false, 0, [])
  }

  function Publish(t: Table, r: ResolvedProposal): Table {
    if r.accepted then EffectAll(t, r.changes) else t
  }

  function PublishAll(t: Table, rs: seq<ResolvedProposal>): Table
    decreases |rs|
  {
    if rs == [] then t else PublishAll(Publish(t, rs[0]), rs[1..])
  }

  /** Resolve and publish the proposals one by one, in order. */
  function ResolveAll(t: Table, ps: seq<Proposal>): (rs: seq<ResolvedProposal>)
    ensures |rs| == |ps|
    decreases |ps|
  {
    if ps == [] then [] else
      var r := Resolve(t, ps[0]);
      [r] + ResolveAll(Publish(t, r), ps[1..])
  }

  // ------------------------------------------- group resolution over an overlay

  type Virtual = map<ID, Option<RecordRef>>

  function Overlay(t: Table, v: Virtual): Table {
    map id | id in t.Keys + v.Keys && (id in v ==> v[id].Some?) ::
      if id in v then v[id].value else t[id]
  }

  function Seen(t: Table, v: Virtual, id: ID): (r: Option<RecordRef>)
    ensures r == Get(Overlay(t, v), id)
  {
    if id in v then v[id] else Get(t, id)
  }

  /** `resolveGroupAt`: the base table is only read; effects of earlier proposals live in an
      overlay. The plan is the one that resolving and publishing one at a time would give. */
  method ResolveGroupAt(t: Table, ps: seq<Proposal>) returns (plan: seq<ResolvedProposal>)
    ensures plan == ResolveAll(t, ps)
  {
    plan := [];
    var v: Virtual := map[];
    ghost var now := t;
    assert Overlay(t, v) == t;
    for index := 0 to |ps|
      invariant Overlay(t, v) == now
      invariant plan + ResolveAll(now, ps[index..]) == ResolveAll(t, ps)
    {
      var r;
      r, v := ResolveOne(t, v, ps[index]);
      now := Publish(now, r);
      plan := plan + [r];
      assert ps[index..][0] == ps[index] && ps[index..][1..] == ps[index + 1..];
    }
    assert ps[|ps|..] == [];
  }

  method ResolveOne(t: Table, v0: Virtual, p: Proposal) returns (r: ResolvedProposal, v: Virtual)
    ensures r == Resolve(Overlay(t, v0), p)
    ensures Overlay(t, v) == Publish(Overlay(t, v0), r)
  {
    var accepted := CheckConditions(t, v0, p.conditions);
    if !accepted { return ResolvedProposal(p.kind, false, 0, []), v0; }
    var changes;
    changes, v := ResolveProposal(t, v0, p);
    r := ResolvedProposal(p.kind, true, 0, changes);
  }

  method CheckConditions(t: Table, v: Virtual, cs: seq<Condition>) returns (ok: bool)
    ensures ok <==> AllHold(Overlay(t, v), cs)
  {
    for k := 0 to |cs|
      invariant AllHold(Overlay(t, v), cs[..k])
    {
      var seen := Seen(t, v, cs[k].id);
      if (cs[k].expected == 0 && seen.Some?)
         || (cs[k].expected != 0 && (seen.None? || seen.value.addr != cs[k].expected)) {
        assert cs[k] in cs;
        return false;
      }
    }
    assert cs[..|cs|] == cs;
    return true;
  }

  method ResolveProposal(t: Table, v0: Virtual, p: Proposal)
    returns (changes: seq<ResolvedChange>, v: Virtual)
    ensures changes == ResolveChanges(p.kind, Overlay(t, v0), p.changes)
    ensures Overlay(t, v) == EffectAll(Overlay(t, v0), changes)
  {
    changes, v := [], v0;
    ghost var all := ResolveChanges(p.kind, Overlay(t, v0), p.changes);
    ghost var after := EffectAll(Overlay(t, v0), all);
    for k := 0 to |p.changes|
      invariant changes + ResolveChanges(p.kind, Overlay(t, v), p.changes[k..]) == all
      invariant EffectAll(Overlay(t, v), ResolveChanges(p.kind, Overlay(t, v), p.changes[k..])) == after
    {
      ghost var before := Overlay(t, v);
      Unfold(p.kind, before, p.changes[k..]);
      var r;
      r, v := ResolveIn(t, v, p.kind, p.changes[k]);
      changes := changes + [r];
      assert p.changes[k..][1..] == p.changes[k + 1..];
    }
    assert p.changes[|p.changes|..] == [];
  }

  method ResolveIn(t: Table, v0: Virtual, kind: Kind, c: Change) returns (r: ResolvedChange, v: Virtual)
    ensures r == ResolveChange(kind, Overlay(t, v0), c)
    ensures Overlay(t, v) == Effect(Overlay(t, v0), r)
  {
    var current := Seen(t, v0, c.id);
    var apply := kind == UserCommit || (current.Some? && current.value.addr == c.expectedOld);
    v := v0;
    if apply {
      // validation admits Delete only in user commits
      v := v[c.id := if c.op == Delete then None else Some(c.newRef)];
    }
    r := ResolvedChange(c, apply, current);
    assert Overlay(t, v) == Effect(Overlay(t, v0), r);
  }

  lemma Unfold(kind: Kind, t: Table, cs: seq<Change>)
    requires cs != []
    ensures var r := ResolveChange(kind, t, cs[0]);
            var rest := ResolveChanges(kind, Effect(t, r), cs[1..]);
            && ResolveChanges(kind, t, cs) == [r] + rest
            && EffectAll(t, ResolveChanges(kind, t, cs)) == EffectAll(Effect(t, r), rest)
  {
    var r := ResolveChange(kind, t, cs[0]);
    var rest := ResolveChanges(kind, Effect(t, r), cs[1..]);
    assert ([r] + rest)[1..] == rest;
  }

  /** A group may be cut anywhere: its halves, published in order, give the same plan. */
  lemma {:induction false} ResolveAllConcat(t: Table, a: seq<Proposal>, b: seq<Proposal>)
    ensures ResolveAll(t, a + b) == ResolveAll(t, a) + ResolveAll(PublishAll(t, ResolveAll(t, a)), b)
    decreases |a|
  {
    if a == [] {
      assert a + b == b;
    } else {
      var r := Resolve(t, a[0]);
      assert (a + b)[1..] == a[1..] + b;
      FirstResolved(t, a);
      FirstResolved(t, a + b);
      ResolveAllConcat(Publish(t, r), a[1..], b);
      Regroup(r, ResolveAll(Publish(t, r), a[1..]), ResolveAll(PublishAll(t, ResolveAll(t, a)), b));
    }
  }

  /** The first proposal is resolved and published, then the others. */
  lemma FirstResolved(t: Table, ps: seq<Proposal>)
    requires ps != []
    ensures var r := Resolve(t, ps[0]);
            var rest := ResolveAll(Publish(t, r), ps[1..]);
            ResolveAll(t, ps) == [r] + rest && PublishAll(t, ResolveAll(t, ps)) == PublishAll(Publish(t, r), rest)
  {
    var r := Resolve(t, ps[0]);
    var rest := ResolveAll(Publish(t, r), ps[1..]);
    assert ([r] + rest)[1..] == rest;
  }

  lemma Regroup(r: ResolvedProposal, x: seq<ResolvedProposal>, y: seq<ResolvedProposal>)
    ensures [r] + (x + y) == ([r] + x) + y
  {
  }

  lemma {:induction false} PublishAllConcat(t: Table, a: seq<ResolvedProposal>, b: seq<ResolvedProposal>)
    ensures PublishAll(t, a + b) == PublishAll(PublishAll(t, a), b)
    decreases |a|
  {
    if a == [] {
      assert a + b == b;
    } else {
      assert (a + b)[1..] == a[1..] + b;
      PublishAllConcat(Publish(t, a[0]), a[1..], b);
    }
  }

  // ---------------------------------------------------------- what replay sees

  function Accepted(rs: seq<ResolvedProposal>): seq<ResolvedProposal> {
    if rs == [] then [] else (if rs[0].accepted then [rs[0]] else []) + Accepted(rs[1..])
  }

  /** The proposals replay rebuilds from a commit record: accepted ones, conditions dropped. */
  function Durable(ps: seq<Proposal>, rs: seq<ResolvedProposal>): seq<Proposal>
    requires |ps| == |rs|
  {
    if ps == [] then [] else
      (if rs[0].accepted then [ps[0].(conditions := [])] else []) + Durable(ps[1..], rs[1..])
  }

  /** The sequence numbers a commit record takes are those of its accepted proposals. */
  lemma {:induction false} DurableCounts(ps: seq<Proposal>, rs: seq<ResolvedProposal>)
    requires |ps| == |rs|
    ensures |Durable(ps, rs)| == |Accepted(rs)|
  {
    if ps != [] { DurableCounts(ps[1..], rs[1..]); }
  }

  /** Replay re-decides every relocation and checks no user condition, yet it accepts exactly
      the durable proposals, resolves them as the runtime did, and reaches the same table:
      rejected proposals leave no trace. */
  lemma {:induction false} ReplayReachesSamePlan(t: Table, ps: seq<Proposal>)
    ensures var rs := ResolveAll(t, ps);
            var replayed := ResolveAll(t, Durable(ps, rs));
            && replayed == Accepted(rs)
            && (forall r <- replayed :: r.accepted)
            && PublishAll(t, replayed) == PublishAll(t, rs)
    decreases |ps|
  {
    if ps != [] {
      var r := Resolve(t, ps[0]);
      var rs := ResolveAll(t, ps);
      assert rs[1..] == ResolveAll(Publish(t, r), ps[1..]);
      ReplayReachesSamePlan(Publish(t, r), ps[1..]);
      var rest := Durable(ps[1..], rs[1..]);
      if r.accepted {
        var d := ps[0].(conditions := []);
        assert Durable(ps, rs) == [d] + rest;
        assert ([d] + rest)[1..] == rest;
        assert Resolve(t, d) == r;
        assert ResolveAll(t, [d] + rest) == [r] + ResolveAll(Publish(t, r), rest);
        assert ([r] + ResolveAll(Publish(t, r), rest))[1..] == ResolveAll(Publish(t, r), rest);
      } else {
        assert Durable(ps, rs) == rest;
      }
    }
  }

  // --------------------------------------------------------------- delta charges

  function AppliedIDs(rs: seq<ResolvedChange>): set<ID> {
    if rs == [] then {} else (if rs[0].apply then {rs[0].change.id} else {}) + AppliedIDs(rs[1..])
  }

  /** The charges when proposals are published one at a time: each pays for the IDs that the
      active layer does not hold yet. */
  function WithCharges(active: set<ID>, rs: seq<ResolvedProposal>): (out: seq<ResolvedProposal>)
    ensures |out| == |rs|
    decreases |rs|
  {
    if rs == [] then [] else
      var ids := if rs[0].accepted then AppliedIDs(rs[0].changes) else {};
      [rs[0].(deltaEntries := |ids - active|)] + WithCharges(active + ids, rs[1..])
  }

  /** `assignDeltaEntries`: one pass over the group with a growing seen-set. */
  method AssignDeltaEntries(active: set<ID>, plan: seq<ResolvedProposal>) returns (out: seq<ResolvedProposal>)
    ensures out == WithCharges(active, plan)
  {
    out := [];
    var seen := active;
    for i := 0 to |plan|
      invariant out + WithCharges(seen, plan[i..]) == WithCharges(active, plan)
    {
      var p := plan[i];
      assert plan[i..][0] == p && plan[i..][1..] == plan[i + 1..];
      var entries := 0;
      if p.accepted {
        entries, seen := ChargeProposal(seen, p.changes);
      } else {
        assert {} - seen == {} && seen + {} == seen;
      }
      out := out + [p.(deltaEntries := entries)];
    }
    assert plan[|plan|..] == [];
  }

  method ChargeProposal(active: set<ID>, rs: seq<ResolvedChange>) returns (entries: nat, seen: set<ID>)
    ensures entries == |AppliedIDs(rs) - active|
    ensures seen == active + AppliedIDs(rs)
  {
    entries, seen := 0, active;
    for k := 0 to |rs|
      invariant seen + AppliedIDs(rs[k..]) == active + AppliedIDs(rs)
      invariant entries + |AppliedIDs(rs[k..]) - seen| == |AppliedIDs(rs) - active|
    {
      var r := rs[k];
      assert rs[k..][0] == r && rs[k..][1..] == rs[k + 1..];
      CountOne(seen, r.change.id, AppliedIDs(rs[k + 1..]));
      if r.apply && r.change.id !in seen {
        entries, seen := entries + 1, seen + {r.change.id};
      }
    }
    assert rs[|rs|..] == [];
  }

  lemma CountOne(seen: set<ID>, id: ID, rest: set<ID>)
    ensures id !in seen ==> |{id} + rest - seen| == 1 + |rest - (seen + {id})|
    ensures id in seen ==> {id} + rest - seen == rest - seen && seen + ({id} + rest) == seen + rest
    ensures {} + rest == rest
  {
    if id !in seen {
      assert {id} + rest - seen == {id} + (rest - (seen + {id}));
    }
  }
}
