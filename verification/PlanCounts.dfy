/** How many proposals and changes of a resolved group take effect: what `PublishGroup` of
    internal/mapping/persistent.go reports and internal/coordinator/coordinator.go counts again. */
module PlanCounts {
  import opened Mapping

  function AcceptedAt(plan: seq<ResolvedProposal>): set<nat> { set i: nat | i < |plan| && plan[i].accepted }

  /** The places of the changes in accepted proposals that apply, or that do not. */
  function ChangesAt(plan: seq<ResolvedProposal>, apply: bool): set<(nat, nat)> {
    set i: nat, k: nat | i < |plan| && plan[i].accepted && k < |plan[i].changes| && plan[i].changes[k].apply == apply
      :: (i, k)
  }

  function ChangesIn(cs: seq<ResolvedChange>, apply: bool): set<nat> {
    set k: nat | k < |cs| && cs[k].apply == apply
  }

  /** The change at this place is in an accepted proposal, and applies or not. */
  predicate At(plan: seq<ResolvedProposal>, apply: bool, i: nat, k: nat) {
    i < |plan| && plan[i].accepted && k < |plan[i].changes| && plan[i].changes[k].apply == apply
  }

  lemma OneChangeMore(cs: seq<ResolvedChange>, k: nat, apply: bool)
    requires k < |cs|
    ensures |ChangesIn(cs[..k + 1], apply)| == |ChangesIn(cs[..k], apply)| + if cs[k].apply == apply then 1 else 0
  {
    assert ChangesIn(cs[..k + 1], apply) == ChangesIn(cs[..k], apply) + if cs[k].apply == apply then {k} else {};
  }

  /** The places of one proposal's changes. */
  function PlacesOf(i: nat, ks: set<nat>): set<(nat, nat)> { set k | k in ks :: (i, k) }

  lemma {:induction false} AsManyPlaces(i: nat, ks: set<nat>)
    ensures |PlacesOf(i, ks)| == |ks|
  {
    if ks != {} {
      var k :| k in ks;
      AsManyPlaces(i, ks - {k});
      assert PlacesOf(i, ks) == PlacesOf(i, ks - {k}) + {(i, k)};
    }
  }

  lemma OneProposalMore(plan: seq<ResolvedProposal>, i: nat, apply: bool)
    requires i < |plan|
    ensures |ChangesAt(plan[..i + 1], apply)|
            == |ChangesAt(plan[..i], apply)| + if plan[i].accepted then |ChangesIn(plan[i].changes, apply)| else 0
  {
    var more := if plan[i].accepted then ChangesIn(plan[i].changes, apply) else {};
    AsManyPlaces(i, more);
    PlacesMore(plan, i, apply, more);
  }

  lemma PlacesMore(plan: seq<ResolvedProposal>, i: nat, apply: bool, more: set<nat>)
    requires i < |plan| && more == if plan[i].accepted then ChangesIn(plan[i].changes, apply) else {}
    ensures ChangesAt(plan[..i + 1], apply) == ChangesAt(plan[..i], apply) + PlacesOf(i, more)
    ensures ChangesAt(plan[..i], apply) !! PlacesOf(i, more)
  {
    forall x: (nat, nat)
      ensures x in ChangesAt(plan[..i + 1], apply) <==> x in ChangesAt(plan[..i], apply) + PlacesOf(i, more)
    {
      InPlace(plan[..i + 1], apply, x);
      InPlace(plan[..i], apply, x);
      assert x in PlacesOf(i, more) <==> x.0 == i && x.1 in more;
    }
  }

  lemma InPlace(plan: seq<ResolvedProposal>, apply: bool, x: (nat, nat))
    ensures x in ChangesAt(plan, apply) <==> At(plan, apply, x.0, x.1)
  {
  }

  lemma OneAcceptedMore(plan: seq<ResolvedProposal>, i: nat)
    requires i < |plan|
    ensures |AcceptedAt(plan[..i + 1])| == |AcceptedAt(plan[..i])| + if plan[i].accepted then 1 else 0
  {
    assert AcceptedAt(plan[..i + 1]) == AcceptedAt(plan[..i]) + if plan[i].accepted then {i} else {};
  }

  // ------------------------------------------------------------- the same, one by one

  function Tally(cs: seq<ResolvedChange>, apply: bool): nat
    decreases |cs|
  {
    if cs == [] then 0 else Tally(cs[..|cs| - 1], apply) + if cs[|cs| - 1].apply == apply then 1 else 0
  }

  function TallyAll(plan: seq<ResolvedProposal>, apply: bool): nat
    decreases |plan|
  {
    if plan == [] then 0
    else TallyAll(plan[..|plan| - 1], apply) + TallyOf(plan[|plan| - 1], apply)
  }

  function TallyOf(r: ResolvedProposal, apply: bool): nat { if r.accepted then Tally(r.changes, apply) else 0 }

  lemma TallyNext(cs: seq<ResolvedChange>, k: nat, apply: bool)
    requires k < |cs|
    ensures Tally(cs[..k + 1], apply) == Tally(cs[..k], apply) + if cs[k].apply == apply then 1 else 0
  {
    assert cs[..k + 1][..k] == cs[..k];
  }

  lemma TallyAllNext(plan: seq<ResolvedProposal>, i: nat, apply: bool)
    requires i < |plan|
    ensures TallyAll(plan[..i + 1], apply) == TallyAll(plan[..i], apply) + TallyOf(plan[i], apply)
  {
    assert plan[..i + 1][..i] == plan[..i];
  }

  lemma {:induction false} TallyCounts(cs: seq<ResolvedChange>, k: nat, apply: bool)
    requires k <= |cs|
    ensures Tally(cs[..k], apply) == |ChangesIn(cs[..k], apply)|
  {
    if k > 0 {
      TallyCounts(cs, k - 1, apply);
      OneChangeMore(cs, k - 1, apply);
      TallyNext(cs, k - 1, apply);
    }
  }

  lemma {:induction false} TallyAllCounts(plan: seq<ResolvedProposal>, i: nat, apply: bool)
    requires i <= |plan|
    ensures TallyAll(plan[..i], apply) == |ChangesAt(plan[..i], apply)|
  {
    if i > 0 {
      TallyAllCounts(plan, i - 1, apply);
      OneProposalMore(plan, i - 1, apply);
      TallyAllNext(plan, i - 1, apply);
      var cs := plan[i - 1].changes;
      TallyCounts(cs, |cs|, apply);
      assert cs[..|cs|] == cs;
    }
  }

  lemma Tallied(plan: seq<ResolvedProposal>)
    ensures TallyAll(plan, true) == |ChangesAt(plan, true)| && TallyAll(plan, false) == |ChangesAt(plan, false)|
  {
    TallyAllCounts(plan, |plan|, true);
    TallyAllCounts(plan, |plan|, false);
    assert plan[..|plan|] == plan;
  }

  /** The coordinator counts again what was to apply. */
  method Recount(plan: seq<ResolvedProposal>) returns (applied: nat, skipped: nat)
    ensures applied == |ChangesAt(plan, true)| && skipped == |ChangesAt(plan, false)|
  {
    applied, skipped := 0, 0;
    for i := 0 to |plan|
      invariant applied == TallyAll(plan[..i], true) && skipped == TallyAll(plan[..i], false)
    {
      TallyAllNext(plan, i, true);
      TallyAllNext(plan, i, false);
      if plan[i].accepted {
        var a, s := CountChanges(plan[i].changes);
        applied, skipped := applied + a, skipped + s;
      }
    }
    assert plan[..|plan|] == plan;
    Tallied(plan);
  }

  method CountChanges(cs: seq<ResolvedChange>) returns (applied: nat, skipped: nat)
    ensures applied == Tally(cs, true) && skipped == Tally(cs, false)
  {
    applied, skipped := 0, 0;
    for k := 0 to |cs|
      invariant applied == Tally(cs[..k], true) && skipped == Tally(cs[..k], false)
    {
      TallyNext(cs, k, true);
      TallyNext(cs, k, false);
      if cs[k].apply { applied := applied + 1; } else { skipped := skipped + 1; }
    }
    assert cs[..|cs|] == cs;
  }

  /** A commit record has one descriptor for every accepted proposal. */
  lemma {:induction false} AcceptedAreDurable(ps: seq<Proposal>, plan: seq<ResolvedProposal>, n: nat)
    requires |ps| == |plan| && n <= |plan|
    ensures |AcceptedAt(plan[..n])| == |Durable(ps[..n], plan[..n])|
    decreases n
  {
    if n > 0 {
      AcceptedAreDurable(ps, plan, n - 1);
      OneAcceptedMore(plan, n - 1);
      DurableAppends(ps[..n - 1], plan[..n - 1], ps[n - 1], plan[n - 1]);
      assert ps[..n] == ps[..n - 1] + [ps[n - 1]] && plan[..n] == plan[..n - 1] + [plan[n - 1]];
    }
  }

  lemma {:induction false} DurableAppends(ps: seq<Proposal>, plan: seq<ResolvedProposal>, p: Proposal,
                                          r: ResolvedProposal)
    requires |ps| == |plan|
    ensures |Durable(ps + [p], plan + [r])| == |Durable(ps, plan)| + if r.accepted then 1 else 0
    decreases |ps|
  {
    if ps != [] {
      assert (ps + [p])[1..] == ps[1..] + [p] && (plan + [r])[1..] == plan[1..] + [r];
      DurableAppends(ps[1..], plan[1..], p, r);
    }
  }
}
