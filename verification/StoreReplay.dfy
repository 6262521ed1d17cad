/** Replaying commit records, and what publishing a group does to a table. */
module StoreReplay {
  import opened RecordLog
  import opened Mapping
  import opened StoreState
  import opened StoreInvariant

  // ------------------------------------------------------------ replay in parts

  lemma {:induction false} ReplayConcat(t: Table, a: seq<Entry>, b: seq<Entry>)
    ensures Replay(t, a + b) == Replay(Replay(t, a), b)
    decreases |b|
  {
    if b == [] {
      assert a + b == a;
    } else {
      var last := |a + b| - 1;
      assert (a + b)[..last] == a + b[..|b| - 1];
      ReplayConcat(t, a, b[..|b| - 1]);
    }
  }

  /** Replay may start at any earlier table of the same log. */
  lemma ReplayFrom(log: seq<Entry>, from: nat, to: nat)
    requires from <= to <= |log|
    ensures Replay(map[], log[..to]) == Replay(Replay(map[], log[..from]), log[from..to])
  {
    assert log[..to] == log[..from] + log[from..to];
    ReplayConcat(map[], log[..from], log[from..to]);
  }

  /** The record of a group brings replay to the table that publishing the group gives. */
  lemma EntryPublishes(queue: seq<Request>, n: nat, redirects: Redirects, table: Table)
    requires GroupAt(queue, n)
    ensures ApplyEntry(table, EntryOf(queue, n, redirects, table))
            == PublishAll(table, Plan(queue, n, redirects, table))
  {
    ReplayReachesSamePlan(table, Bodies(queue, n, redirects));
  }

  // -------------------------------------------------- where references come from

  /** Every entry of the table is one of these pairs. */
  ghost predicate Within(t: Table, ok: iset<(ID, RecordRef)>) { forall id <- t :: (id, t[id]) in ok }

  ghost predicate ChangeWithin(c: Change, ok: iset<(ID, RecordRef)>) { c.op != Delete ==> (c.id, c.newRef) in ok }

  ghost predicate BodiesWithin(ps: seq<Proposal>, ok: iset<(ID, RecordRef)>) {
    forall p <- ps :: forall c <- p.changes :: ChangeWithin(c, ok)
  }

  /** Publishing adds no reference that its proposals do not carry. */
  lemma {:induction false} PublishWithin(t: Table, ps: seq<Proposal>, ok: iset<(ID, RecordRef)>)
    requires Within(t, ok) && BodiesWithin(ps, ok)
    ensures Within(PublishAll(t, ResolveAll(t, ps)), ok)
    decreases |ps|
  {
    if ps != [] {
      var r := Resolve(t, ps[0]);
      assert ResolveAll(t, ps)[1..] == ResolveAll(Publish(t, r), ps[1..]);
      if r.accepted { ChangesWithin(ps[0].kind, t, ps[0].changes, ok); }
      PublishWithin(Publish(t, r), ps[1..], ok);
    }
  }

  lemma {:induction false} ChangesWithin(kind: Kind, t: Table, cs: seq<Change>, ok: iset<(ID, RecordRef)>)
    requires Within(t, ok) && forall c <- cs :: ChangeWithin(c, ok)
    ensures Within(EffectAll(t, ResolveChanges(kind, t, cs)), ok)
    decreases |cs|
  {
    if cs != [] {
      Unfold(kind, t, cs);
      assert ChangeWithin(cs[0], ok);
      ChangesWithin(kind, Effect(t, ResolveChange(kind, t, cs[0])), cs[1..], ok);
    }
  }

  lemma {:induction false} ReplayWithin(t: Table, log: seq<Entry>, ok: iset<(ID, RecordRef)>)
    requires Within(t, ok) && forall e <- log :: e.Group? ==> BodiesWithin(e.bodies, ok)
    ensures Within(Replay(t, log), ok)
    decreases |log|
  {
    if log != [] {
      var last := log[|log| - 1];
      ReplayWithin(t, log[..|log| - 1], ok);
      assert last in log;
      if last.Group? { PublishWithin(Replay(t, log[..|log| - 1]), last.bodies, ok); }
    }
  }

  /** Log records that name nothing in some segments keep a table free of them. */
  lemma ReplayClean(t: Table, log: seq<Entry>, segments: set<SegmentID>)
    requires CleanTable(t, segments) && forall e <- log :: CleanEntry(e, segments)
    ensures CleanTable(Replay(t, log), segments)
  {
    var ok := iset p: (ID, RecordRef) | SegmentOf(p.1.addr) !in segments;
    forall e <- log | e.Group? ensures BodiesWithin(e.bodies, ok) {
      forall p <- e.bodies, c <- p.changes ensures ChangeWithin(c, ok) {
        if c.op != Delete { assert c.newRef.addr in Names(e); }
      }
    }
    ReplayWithin(t, log, ok);
    assert forall id <- Replay(t, log) :: (id, Replay(t, log)[id]) in ok;
  }

  /** A reference produced by replay is named by the log. */
  lemma ReplayNamed(log: seq<Entry>, id: ID)
    requires id in Replay(map[], log)
    ensures exists e <- log :: Replay(map[], log)[id].addr in Names(e)
  {
    var ok := iset p: (ID, RecordRef) | exists e <- log :: p.1.addr in Names(e);
    forall e <- log | e.Group? ensures BodiesWithin(e.bodies, ok) {
      forall p <- e.bodies, c <- p.changes ensures ChangeWithin(c, ok) {
        if c.op != Delete { assert c.newRef.addr in Names(e); }
      }
    }
    ReplayWithin(map[], log, ok);
    assert (id, Replay(map[], log)[id]) in ok;
  }

  // ---------------------------------------------------- the members of a group

  lemma BodyFrom(queue: seq<Request>, n: nat, redirects: Redirects, p: Proposal) returns (r: Request)
    requires GroupAt(queue, n) && p in Bodies(queue, n, redirects)
    ensures r in queue[..n] && r in queue && IsGroup(r) && p == SentBody(r, redirects)
  {
    var ps := Bodies(queue, n, redirects);
    var i :| 0 <= i < |ps| && ps[i] == p;
    r := Members(queue, n)[i];
    OnlyKeeps(queue[..n], true);
    OnlyKeeps(queue[..n], false);
  }

  lemma {:induction false} DurableFrom(ps: seq<Proposal>, rs: seq<ResolvedProposal>, d: Proposal)
    requires |ps| == |rs| && d in Durable(ps, rs)
    ensures exists p <- ps :: d == p.(conditions := [])
  {
    var head := if rs[0].accepted then [ps[0].(conditions := [])] else [];
    if d in head {
      assert ps[0] in ps;
    } else {
      DurableFrom(ps[1..], rs[1..], d);
      var p :| p in ps[1..] && d == p.(conditions := []);
      assert p in ps;
    }
  }
}
