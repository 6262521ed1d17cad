/** Checkpoint builds as map updates: `BuildSortedWithEntryDelta`, `LookupRef` and the exact
    entry and byte deltas (internal/radix/builder.go, internal/radix/tree.go). */
module RadixBuild {
  import opened RecordLog
  import opened Mapping
  import opened Radix
  import opened RadixBuilder

  datatype Mutation = Mutation(id: ID, ref: RecordRef) // a zero reference deletes the ID

  predicate ValidMutation(m: Mutation) { m.id != 0 && (m.ref == ZERO_REF || ValidRef(m.ref)) }

  predicate ValidMutations(ms: seq<Mutation>) {
    && (forall i | 0 <= i < |ms| :: ValidMutation(ms[i]))
    && (forall i | 0 < i < |ms| :: ms[i - 1].id < ms[i].id)
  }

  function Apply(t: Table, m: Mutation): Table { if m.ref == ZERO_REF then t - {m.id} else t[m.id := m.ref] }

  /** The reference: update the map with one mutation after the other. */
  function ApplyAll(t: Table, ms: seq<Mutation>): Table
    decreases |ms|
  {
    if ms == [] then t else Apply(ApplyAll(t, ms[..|ms| - 1]), ms[|ms| - 1])
  }

  // ------------------------------------------------------------ rows of a table

  function Cell(t: Table, id: ID): RecordRef { if id in t then t[id] else ZERO_REF }

  lemma IDInRange(p: nat, s: nat)
    requires p < Limit(0) && s < SLOTS
    ensures p * SLOTS + s < 0x1_0000_0000_0000_0000 && (p * SLOTS + s) / SLOTS == p && (p * SLOTS + s) % SLOTS == s
  {
    assert Limit(0) == 0x80_0000_0000_0000;
  }

  lemma PrefixInRange(id: ID)
    ensures id / SLOTS < Limit(0)
  {
    assert Limit(0) == 0x80_0000_0000_0000;
  }

  /** The leaf at `p` holds exactly the entries of the table with that prefix. */
  ghost predicate RowIs(refs: seq<RecordRef>, t: Table, p: nat) {
    && |refs| == SLOTS
    && forall id: ID | id / SLOTS == p :: refs[id % SLOTS] == Cell(t, id)
  }

  ghost predicate HoldsTable(f: Forest, t: Table) {
    Shaped(f.levels) && forall p | 0 <= p < Limit(0) :: RowIs(RefsAt(f.nodes, Addr(f, 0, p)), t, p)
  }

  predicate NoZero(t: Table) { forall id <- t :: t[id] != ZERO_REF }

  lemma ContentsHeld(f: Forest)
    requires Shaped(f.levels)
    ensures HoldsTable(f, Contents(f)) && NoZero(Contents(f))
  {
    forall p | 0 <= p < Limit(0) ensures RowIs(RefsAt(f.nodes, Addr(f, 0, p)), Contents(f), p) {
      forall id: ID | id / SLOTS == p ensures RefsAt(f.nodes, Addr(f, 0, p))[id % SLOTS] == Cell(Contents(f), id) {
        assert RefOf(f, id) == RefsAt(f.nodes, Addr(f, 0, p))[id % SLOTS];
      }
    }
  }

  lemma ContentsAre(f: Forest, t: Table)
    requires HoldsTable(f, t) && NoZero(t)
    ensures Contents(f) == t
  {
    forall id: ID ensures RefOf(f, id) == Cell(t, id) {
      PrefixInRange(id);
      assert RowIs(RefsAt(f.nodes, Addr(f, 0, id / SLOTS)), t, id / SLOTS);
    }
  }

  lemma SameHeld(f: Forest, g: Forest, t: Table)
    requires HoldsTable(f, t) && SameLeaves(f, g)
    ensures HoldsTable(g, t)
  {
    forall p | 0 <= p < Limit(0) ensures RowIs(RefsAt(g.nodes, Addr(g, 0, p)), t, p) {
      assert RowIs(RefsAt(f.nodes, Addr(f, 0, p)), t, p);
    }
  }

  lemma MovedHeld(f: Forest, g: Forest, p: nat, refs: seq<RecordRef>, t: Table, t2: Table)
    requires HoldsTable(f, t) && LeafMoved(f, g, p, refs) && RowIs(refs, t2, p)
    requires Elsewhere(t, t2, p)
    ensures HoldsTable(g, t2)
  {
    forall q | 0 <= q < Limit(0) ensures RowIs(RefsAt(g.nodes, Addr(g, 0, q)), t2, q) {
      if q != p {
        assert RowIs(RefsAt(f.nodes, Addr(f, 0, q)), t, q);
        assert RefsAt(g.nodes, Addr(g, 0, q)) == RefsAt(f.nodes, Addr(f, 0, q));
      }
    }
  }

  lemma RowApplied(refs: seq<RecordRef>, t: Table, p: nat, m: Mutation)
    requires RowIs(refs, t, p) && m.id / SLOTS == p
    ensures RowIs(refs[m.id % SLOTS := m.ref], Apply(t, m), p)
    ensures refs[m.id % SLOTS] == Cell(t, m.id)
  {
  }

  // -------------------------------------------------------------------- the build

  datatype EntryDelta = EntryDelta(added: nat, removed: nat, bytesAdded: nat, bytesRemoved: nat)
  datatype BuildResult = Invalid | Built(nodes: Nodes, root: MapAddr, delta: EntryDelta)

  method CheckMutations(ms: seq<Mutation>) returns (ok: bool)
    ensures ok <==> ValidMutations(ms)
  {
    for i := 0 to |ms|
      invariant ValidMutations(ms[..i])
    {
      if !ValidMutation(ms[i]) || (i > 0 && ms[i].id <= ms[i - 1].id) { return false; }
      assert ms[..i + 1] == ms[..i] + [ms[i]];
    }
    assert ms[..|ms|] == ms;
    return true;
  }

  /** The tables agree outside one leaf. */
  ghost predicate Elsewhere(t: Table, t2: Table, p: nat) {
    forall id: ID | id / SLOTS != p :: Cell(t2, id) == Cell(t, id)
  }

  predicate AllValid(ms: seq<Mutation>) { forall m <- ms :: ValidMutation(m) }

  lemma RowKept(refs: seq<RecordRef>, slot: nat, ms: seq<Mutation>, k: nat)
    requires slot < |refs| && k < |ms|
    ensures RowOk(refs) && AllValid(ms) ==> RowOk(refs[slot := ms[k].ref])
  {
    if RowOk(refs) && AllValid(ms) {
      assert ValidMutation(ms[k]);
      forall r <- refs[slot := ms[k].ref] ensures r == ZERO_REF || ValidRef(r) { assert r in refs || r == ms[k].ref; }
    }
  }

  /** The mutations of one leaf, applied to its expanded slots. */
  method ApplyGroup(refs0: seq<RecordRef>, ms: seq<Mutation>, ghost t0: Table, p: nat)
    returns (refs: seq<RecordRef>, added: nat, removed: nat)
    requires forall k | 0 <= k < |ms| :: ms[k].id / SLOTS == p
    requires RowIs(refs0, t0, p) && NoZero(t0) && Distinct(ms)
    ensures RowOk(refs0) && AllValid(ms) ==> RowOk(refs)
    ensures RowIs(refs, ApplyAll(t0, ms), p) && NoZero(ApplyAll(t0, ms)) && Elsewhere(t0, ApplyAll(t0, ms), p)
    ensures Balanced(t0, ApplyAll(t0, ms), added, removed)
  {
    refs, added, removed := refs0, 0, 0;
    ghost var t := t0;
    BalancedAtFirst(t0);
    for k := 0 to |ms|
      invariant GroupDone(t0, t, ms, k, p) && RowIs(refs, t, p)
      invariant Balanced(t0, t, added, removed) && Pristine(t0, t, ms, k)
      invariant RowOk(refs0) && AllValid(ms) ==> RowOk(refs)
    {
      var slot := ms[k].id % SLOTS;
      var oldExists, newExists := refs[slot] != ZERO_REF, ms[k].ref != ZERO_REF;
      RowApplied(refs, t, p, ms[k]);
      RowKept(refs, slot, ms, k);
      ApplyBalanced(t0, t, ms, k, added, removed);
      GroupMore(t0, t, ms, k, p);
      t := Apply(t, ms[k]);
      if !oldExists && newExists { added := added + 1; }
      else if oldExists && !newExists { removed := removed + 1; }
      refs := refs[slot := ms[k].ref];
    }
    assert ms[..|ms|] == ms;
  }

  ghost predicate GroupDone(t0: Table, t: Table, ms: seq<Mutation>, k: nat, p: nat) {
    k <= |ms| && t == ApplyAll(t0, ms[..k]) && NoZero(t) && Elsewhere(t0, t, p)
  }

  lemma GroupMore(t0: Table, t: Table, ms: seq<Mutation>, k: nat, p: nat)
    requires k < |ms| && GroupDone(t0, t, ms, k, p) && ms[k].id / SLOTS == p
    ensures GroupDone(t0, Apply(t, ms[k]), ms, k + 1, p)
  {
    assert ms[..k + 1][..k] == ms[..k] && ms[..k + 1][k] == ms[k];
    ApplyCounts(t, ms[k]);
    forall id: ID | id / SLOTS != p
      ensures Cell(Apply(t, ms[k]), id) == Cell(t0, id)
    {
      assert Cell(t, id) == Cell(t0, id);
    }
  }

  /** The IDs of the mutations still to come are as they were at first. */
  ghost predicate Pristine(t0: Table, t: Table, ms: seq<Mutation>, k: nat) {
    forall j | k <= j < |ms| :: ms[j].id in t <==> ms[j].id in t0
  }

  /** The counters say exactly what came and went. */
  ghost predicate Balanced(t0: Table, t: Table, added: nat, removed: nat) {
    |t| + removed == |t0| + added && removed == Gone(t0, t)
  }

  lemma BalancedAtFirst(t: Table)
    ensures Balanced(t, t, 0, 0)
  {
    assert t.Keys - t.Keys == {};
  }

  lemma ApplyBalanced(t0: Table, t: Table, ms: seq<Mutation>, k: nat, added: nat, removed: nat)
    requires k < |ms| && NoZero(t) && Balanced(t0, t, added, removed) && Distinct(ms) && Pristine(t0, t, ms, k)
    ensures var m := ms[k];
            && NoZero(Apply(t, m)) && Elsewhere(t, Apply(t, m), m.id / SLOTS) && Pristine(t0, Apply(t, m), ms, k + 1)
            && Balanced(t0, Apply(t, m),
                        added + (if Cell(t, m.id) == ZERO_REF && m.ref != ZERO_REF then 1 else 0),
                        removed + (if Cell(t, m.id) != ZERO_REF && m.ref == ZERO_REF then 1 else 0))
  {
    ApplyCounts(t, ms[k]);
    GoneCounts(t0, t, ms[k]);
  }

  lemma ApplyCounts(t: Table, m: Mutation)
    requires NoZero(t)
    ensures NoZero(Apply(t, m)) && Elsewhere(t, Apply(t, m), m.id / SLOTS)
    ensures |Apply(t, m)| == |t| + (if Cell(t, m.id) == ZERO_REF && m.ref != ZERO_REF then 1 else 0)
                                 - (if Cell(t, m.id) != ZERO_REF && m.ref == ZERO_REF then 1 else 0)
  {
    if m.ref == ZERO_REF { RemoveCounts(t, m.id); } else { InsertCounts(t, m.id, m.ref); }
  }

  predicate Distinct(ms: seq<Mutation>) { forall i, j | 0 <= i < j < |ms| :: ms[i].id != ms[j].id }

  /** How many IDs have disappeared. */
  ghost function Gone(t0: Table, t: Table): nat { |t0.Keys - t.Keys| }

  /** An ID that still has its first entry disappears at most once. */
  lemma GoneCounts(t0: Table, t: Table, m: Mutation)
    requires m.id in t <==> m.id in t0
    ensures Gone(t0, Apply(t, m)) == Gone(t0, t) + if m.id in t && m.ref == ZERO_REF then 1 else 0
  {
    ApplyKeys(t, m);
    GoneKeys(t0.Keys, t.Keys, m.id);
  }

  lemma ApplyKeys(t: Table, m: Mutation)
    ensures Apply(t, m).Keys == if m.ref == ZERO_REF then t.Keys - {m.id} else t.Keys + {m.id}
  {
  }

  lemma GoneKeys(first: set<ID>, now: set<ID>, id: ID)
    requires id in now <==> id in first
    ensures |first - (now - {id})| == |first - now| + if id in now then 1 else 0
    ensures first - (now + {id}) == first - now
  {
    if id in now { assert first - (now - {id}) == (first - now) + {id}; } else { assert now - {id} == now; }
  }

  lemma RemoveCounts(t: Table, id: ID)
    ensures |t - {id}| == |t| - if id in t then 1 else 0
  {
    assert (t - {id}).Keys == t.Keys - {id};
    assert |(t - {id}).Keys| == |t - {id}| && |t.Keys| == |t|;
  }

  lemma InsertCounts(t: Table, id: ID, ref: RecordRef)
    ensures |t[id := ref]| == |t| + if id in t then 0 else 1
  {
    assert t[id := ref].Keys == t.Keys + {id};
    assert |t[id := ref].Keys| == |t[id := ref]| && |t.Keys| == |t|;
  }

  lemma {:induction false} ApplyConcat(t: Table, a: seq<Mutation>, b: seq<Mutation>)
    ensures ApplyAll(t, a + b) == ApplyAll(ApplyAll(t, a), b)
    decreases |b|
  {
    if b == [] {
      assert a + b == a;
    } else {
      assert (a + b)[..|a + b| - 1] == a + b[..|b| - 1];
      ApplyConcat(t, a, b[..|b| - 1]);
    }
  }

  method GroupEnd(ms: seq<Mutation>, start: nat) returns (end: nat)
    requires start < |ms| && ValidMutations(ms)
    ensures start < end <= |ms|
    ensures forall k | start <= k < end :: ms[k].id / SLOTS == ms[start].id / SLOTS
    ensures end < |ms| ==> ms[end - 1].id / SLOTS < ms[end].id / SLOTS
    ensures Distinct(ms[start..end]) && AllValid(ms[start..end])
  {
    end := start + 1;
    while end < |ms| && ms[end].id / SLOTS == ms[start].id / SLOTS
      invariant start < end <= |ms|
      invariant forall k | start <= k < end :: ms[k].id / SLOTS == ms[start].id / SLOTS
    {
      end := end + 1;
    }
    if end < |ms| { assert ms[end - 1].id < ms[end].id; }
    SortedDistinct(ms, start, end);
  }

  lemma SortedDistinct(ms: seq<Mutation>, start: nat, end: nat)
    requires ValidMutations(ms) && start <= end <= |ms|
    ensures Distinct(ms[start..end])
  {
    forall i, j | 0 <= i < j < end - start ensures ms[start..end][i].id != ms[start..end][j].id {
      IDsIncrease(ms, start + i, start + j);
    }
  }

  lemma {:induction false} IDsIncrease(ms: seq<Mutation>, i: nat, j: nat)
    requires ValidMutations(ms) && i < j < |ms|
    ensures ms[i].id < ms[j].id
    decreases j - i
  {
    if i + 1 < j { IDsIncrease(ms, i, j - 1); }
  }

  /** Where the build stands: to the right nothing has changed yet. */
  ghost predicate Counted(t0: Table, t: Table, upTo: int, added: nat, removed: nat) {
    Balanced(t0, t, added, removed) && SameBeyond(t0, t, upTo)
  }

  ghost predicate SameBeyond(t0: Table, t: Table, upTo: int) {
    forall id: ID | id / SLOTS > upTo :: id in t <==> id in t0
  }

  lemma CountedMore(t0: Table, t: Table, t2: Table, upTo: int, p: nat, added: nat, removed: nat, a: nat, r: nat)
    requires Counted(t0, t, upTo, added, removed) && upTo < p && NoZero(t) && NoZero(t2) && Elsewhere(t, t2, p)
    requires Balanced(t, t2, a, r)
    ensures Counted(t0, t2, p, added + a, removed + r)
  {
    OnlyLeaf(t, t2, p);
    GoneMore(t0.Keys, t.Keys, t2.Keys);
  }

  lemma OnlyLeaf(t: Table, t2: Table, p: nat)
    requires NoZero(t) && NoZero(t2) && Elsewhere(t, t2, p)
    ensures forall id: ID | id / SLOTS != p :: id in t <==> id in t2
  {
    forall id: ID | id / SLOTS != p ensures id in t <==> id in t2 { assert Cell(t2, id) == Cell(t, id); }
  }

  lemma GoneMore(first: set<ID>, now: set<ID>, next: set<ID>)
    requires now - next <= first && (next - now) !! first
    ensures |first - next| == |first - now| + |now - next|
  {
    assert first - next == (first - now) + (now - next);
  }

  /** The tree under construction holds `t`, and the counters say how it came from `t0`. */
  ghost predicate Progress(b: StreamingBuilder, upTo: int, t: Table, t0: Table, bytes0: nat, added: nat, removed: nat)
    reads b
  {
    && b.Ok(0) && Tidy(b.Tree(), b.last, 1) && b.last[0] == upTo
    && HoldsTable(b.Tree(), t) && NoZero(t) && Counted(t0, t, upTo, added, removed)
    && b.bytesAdded + bytes0 == b.bytesRemoved + BytesFrom(b.Tree(), 0)
  }

  lemma Extends(t0: Table, ms: seq<Mutation>, start: nat, end: nat)
    requires start <= end <= |ms|
    ensures ApplyAll(ApplyAll(t0, ms[..start]), ms[start..end]) == ApplyAll(t0, ms[..end])
  {
    assert ms[..start] + ms[start..end] == ms[..end];
    ApplyConcat(t0, ms[..start], ms[start..end]);
  }

  /** The mutations of one leaf reach the tree. */
  method UpdateLeaf(b: StreamingBuilder, group: seq<Mutation>, p: nat, ghost t: Table)
    returns (added: nat, removed: nat)
    requires b.Ok(0) && Tidy(b.Tree(), b.last, 1) && b.last[0] < p < Limit(0) && HoldsTable(b.Tree(), t) && NoZero(t)
    requires Distinct(group) && forall k | 0 <= k < |group| :: group[k].id / SLOTS == p
    requires AllValid(group)
    modifies b
    ensures b.Ok(0) && Tidy(b.Tree(), b.last, 1) && b.last[0] == p && Grown(old(b.nodes), b.nodes)
    ensures HoldsTable(b.Tree(), ApplyAll(t, group)) && NoZero(ApplyAll(t, group))
    ensures Balanced(t, ApplyAll(t, group), added, removed)
    ensures Elsewhere(t, ApplyAll(t, group), p)
    ensures b.bytesAdded - b.bytesRemoved - BytesFrom(b.Tree(), 0)
            == old(b.bytesAdded - b.bytesRemoved - BytesFrom(b.Tree(), 0))
  {
    ghost var before := b.Tree();
    assert RowIs(RefsAt(b.nodes, Addr(b.Tree(), 0, p)), t, p);
    var refs := b.OldRefs(p);
    if Rows(b.start) { RowAt(b.nodes, Addr(b.Tree(), 0, p)); }
    refs, added, removed := ApplyGroup(refs, group, t, p);
    b.ReplaceLeaf(p, refs);
    MovedHeld(before, b.Tree(), p, refs, t, ApplyAll(t, group));
  }

  /** One round of the outer loop. */
  method BuildLeaf(b: StreamingBuilder, group: seq<Mutation>, p: nat, ghost t: Table, ghost t0: Table,
                   ghost bytes0: nat, added0: nat, removed0: nat)
    returns (added: nat, removed: nat)
    requires b.Ok(0) && Progress(b, b.last[0], t, t0, bytes0, added0, removed0) && b.last[0] < p < Limit(0)
    requires NoZero(t0) && Distinct(group) && forall k | 0 <= k < |group| :: group[k].id / SLOTS == p
    requires AllValid(group)
    modifies b
    ensures Progress(b, p, ApplyAll(t, group), t0, bytes0, added, removed) && Grown(old(b.nodes), b.nodes)
  {
    ghost var upTo := b.last[0];
    var a, r := UpdateLeaf(b, group, p, t);
    CountedMore(t0, t, ApplyAll(t, group), upTo, p, added0, removed0, a, r);
    added, removed := added0 + a, removed0 + r;
  }

  /** The outer loop: leaf by leaf through the sorted mutations. */
  method BuildLeaves(b: StreamingBuilder, ms: seq<Mutation>, ghost t0: Table, ghost bytes0: nat)
    returns (added: nat, removed: nat)
    requires ValidMutations(ms) && Progress(b, -1, t0, t0, bytes0, 0, 0) && NoZero(t0)
    modifies b
    ensures b.Ok(0) && Progress(b, b.last[0], ApplyAll(t0, ms), t0, bytes0, added, removed)
    ensures Grown(old(b.nodes), b.nodes)
  {
    var start := 0;
    added, removed := 0, 0;
    while start < |ms|
      invariant AtGroup(ms, start) && Grown(old(b.nodes), b.nodes)
      invariant Progress(b, LeafBefore(ms, start), ApplyAll(t0, ms[..start]), t0, bytes0, added, removed)
      decreases |ms| - start
    {
      start, added, removed := BuildGroup(b, ms, start, t0, bytes0, added, removed);
    }
    assert ms[..start] == ms;
  }

  /** Where the leaf of the mutations before `start` lies. */
  function LeafBefore(ms: seq<Mutation>, start: nat): int
    requires start <= |ms|
  {
    if start == 0 then -1 else ms[start - 1].id / SLOTS
  }

  /** The mutations of a leaf begin here, or there are no more. */
  predicate AtGroup(ms: seq<Mutation>, start: nat) {
    start <= |ms| && (start < |ms| ==> LeafBefore(ms, start) < ms[start].id / SLOTS)
  }

  method BuildGroup(b: StreamingBuilder, ms: seq<Mutation>, start: nat, ghost t0: Table, ghost bytes0: nat,
                    added0: nat, removed0: nat)
    returns (end: nat, added: nat, removed: nat)
    requires ValidMutations(ms) && AtGroup(ms, start) && start < |ms| && NoZero(t0)
    requires Progress(b, LeafBefore(ms, start), ApplyAll(t0, ms[..start]), t0, bytes0, added0, removed0)
    modifies b
    ensures start < end && AtGroup(ms, end) && Grown(old(b.nodes), b.nodes)
    ensures Progress(b, LeafBefore(ms, end), ApplyAll(t0, ms[..end]), t0, bytes0, added, removed)
  {
    end := GroupEnd(ms, start);
    PrefixInRange(ms[start].id);
    added, removed := BuildLeaf(b, ms[start..end], ms[start].id / SLOTS, ApplyAll(t0, ms[..start]), t0, bytes0,
                                added0, removed0);
    Extends(t0, ms, start, end);
    assert ms[end - 1].id / SLOTS == ms[start].id / SLOTS;
  }

  /** The flushes at the end store the tree. */
  method FinishBuild(b: StreamingBuilder, ghost t: Table)
    requires b.Ok(0) && Tidy(b.Tree(), b.last, 1) && HoldsTable(b.Tree(), t) && NoZero(t)
    modifies b
    ensures Proper(Stored(b.nodes, b.root)) && Contents(Stored(b.nodes, b.root)) == t && Grown(old(b.nodes), b.nodes)
    ensures b.bytesAdded - b.bytesRemoved - Reachable(b.nodes, b.root, TOP)
            == old(b.bytesAdded - b.bytesRemoved - BytesFrom(b.Tree(), 0))
    ensures b.root == 0 <==> t == map[]
    ensures NewNodesOk(b.start, b.nodes) && b.bytesRemoved <= BytesFrom(Stored(b.start, b.base), 0)
  {
    ghost var before := b.Tree();
    b.Finish();
    assert b.Tree() == Stored(b.nodes, b.root);
    SameHeld(before, b.Tree(), t);
    ContentsAre(b.Tree(), t);
    ReachableBytes(b.nodes, b.root);
    RootZero(b.nodes, b.root);
    SpentAtMost(b.start, b.base, b.levels, b.last, b.bytesRemoved);
  }

  /** `BuildSortedWithEntryDelta`: the new root denotes the old map overridden by the mutations,
      the old root still denotes the old map, the new root is zero exactly when nothing is left,
      the four counters are exact, and what was written is in its place. No node of the old tree is
      replaced twice, so the bytes removed are at most the bytes there were. */
  method BuildSorted(nodes0: Nodes, root0: MapAddr, covered0: CommitSeq, covered: CommitSeq, ms: seq<Mutation>)
    returns (r: BuildResult)
    requires Proper(Stored(nodes0, root0))
    ensures r.Built? <==> ValidMutations(ms) && covered >= covered0 && (ms != [] ==> covered > covered0)
    ensures r.Built? ==>
      && Grown(nodes0, r.nodes) && Proper(Stored(r.nodes, r.root))
      && Contents(Stored(r.nodes, r.root)) == ApplyAll(Contents(Stored(nodes0, root0)), ms)
      && Contents(Stored(r.nodes, root0)) == Contents(Stored(nodes0, root0))
      && (r.root == 0 <==> Contents(Stored(r.nodes, r.root)) == map[])
    ensures r.Built? ==>
      && |Contents(Stored(r.nodes, r.root))| == |Contents(Stored(nodes0, root0))| - r.delta.removed + r.delta.added
      && r.delta.removed == Gone(Contents(Stored(nodes0, root0)), Contents(Stored(r.nodes, r.root)))
      && Reachable(r.nodes, r.root, TOP) == Reachable(nodes0, root0, TOP) - r.delta.bytesRemoved + r.delta.bytesAdded
      && r.delta.bytesRemoved <= Reachable(nodes0, root0, TOP)
    ensures r.Built? ==> NewNodesOk(nodes0, r.nodes)
  {
    if covered < covered0 || (ms != [] && covered <= covered0) { return Invalid; }
    var ok := CheckMutations(ms);
    if !ok { return Invalid; }
    ghost var t0 := Contents(Stored(nodes0, root0));
    ContentsHeld(Stored(nodes0, root0));
    ReachableBytes(nodes0, root0);
    var b := new StreamingBuilder(nodes0, root0);
    BalancedAtFirst(t0);
    var added, removed := BuildLeaves(b, ms, t0, BytesFrom(Stored(nodes0, root0), 0));
    FinishBuild(b, ApplyAll(t0, ms));
    OldRootAnswers(nodes0, root0, b.nodes);
    r := Built(b.nodes, b.root, EntryDelta(added, removed, b.bytesAdded, b.bytesRemoved));
  }

  /** A stored tree is untouched by later appends. */
  lemma OldRootAnswers(nodes: Nodes, root: MapAddr, nodes2: Nodes)
    requires Proper(Stored(nodes, root)) && Grown(nodes, nodes2)
    ensures Contents(Stored(nodes2, root)) == Contents(Stored(nodes, root))
  {
    var f, g := Stored(nodes, root), Stored(nodes2, root);
    BaseStored(nodes, root, nodes2);
    forall q: nat ensures RefsAt(nodes2, Addr(g, 0, q)) == RefsAt(nodes, Addr(f, 0, q)) { assert AddrFits(f, 0, q); }
    ContentsHeld(f);
    SameHeld(f, g, Contents(f));
    ContentsAre(g, Contents(f));
  }

  // ------------------------------------------------------------ root zero iff empty

  lemma RootZero(nodes: Nodes, root: MapAddr)
    requires Proper(Stored(nodes, root))
    ensures root == 0 <==> Contents(Stored(nodes, root)) == map[]
  {
    var f := Stored(nodes, root);
    if root == 0 {
      forall id: ID ensures RefOf(f, id) == ZERO_REF { NothingBelow(nodes, 0, id / SLOTS); }
    } else {
      assert Addr(f, TOP, 0) == root;
      var id := SomeEntry(f, TOP, 0);
      assert id in Contents(f);
    }
  }

  /** Below every node there is an entry. */
  lemma {:induction false} SomeEntry(f: Forest, level: nat, p: nat) returns (id: ID)
    requires Proper(f) && f.levels == NoLevels() && level <= TOP && Addr(f, level, p) != 0
    ensures RefOf(f, id) != ZERO_REF
    decreases level
  {
    assert AddrFits(f, level, p);
    var node := f.nodes[Addr(f, level, p)];
    if level == 0 {
      var s :| 0 <= s < SLOTS && node.refs[s] != ZERO_REF;
      IDInRange(p, s);
      id := p * SLOTS + s;
    } else {
      var s :| 0 <= s < SLOTS && node.slots[s] != 0;
      assert (p * SLOTS + s) / SLOTS == p && (p * SLOTS + s) % SLOTS == s;
      assert Addr(f, level - 1, p * SLOTS + s) == View(f, level, p)[s];
      id := SomeEntry(f, level - 1, p * SLOTS + s);
    }
  }

  // -------------------------------------------------------------- reachable bytes

  /** `reachableNodeBytes`: a node and everything below it. */
  ghost function Reachable(nodes: Nodes, a: MapAddr, level: nat): nat
    decreases level, SLOTS + 1, |nodes|
  {
    if a !in nodes then 0
    else SizeAt(nodes, a) + if level == 0 then 0 else ReachableChildren(nodes, SlotsAt(nodes, a), level - 1, SLOTS)
  }

  ghost function ReachableChildren(nodes: Nodes, slots: seq<MapAddr>, level: nat, n: nat): nat
    requires n <= |slots| == SLOTS
    decreases level, SLOTS + 2, n, |nodes|
  {
    if n == 0 then 0 else ReachableChildren(nodes, slots, level, n - 1) + Reachable(nodes, slots[n - 1], level)
  }

  /** The bytes reachable from the first n nodes of a level. */
  ghost function SubSum(f: Forest, level: nat, n: nat): nat
    requires Shaped(f.levels) && level <= TOP
    decreases n, |f.levels|
  {
    if n == 0 then 0 else SubSum(f, level, n - 1) + Reachable(f.nodes, Addr(f, level, n - 1), level)
  }

  /** The children of one node are 512 consecutive nodes of the level below. */
  lemma {:induction false} ChildrenSum(f: Forest, level: nat, p: nat, n: nat)
    requires Proper(f) && f.levels == NoLevels() && 0 < level <= TOP && n <= SLOTS
    ensures SubSum(f, level - 1, p * SLOTS + n)
            == SubSum(f, level - 1, p * SLOTS) + ReachableChildren(f.nodes, View(f, level, p), level - 1, n)
  {
    if n > 0 {
      ChildrenSum(f, level, p, n - 1);
      assert (p * SLOTS + n - 1) / SLOTS == p && (p * SLOTS + n - 1) % SLOTS == n - 1;
      assert Addr(f, level - 1, p * SLOTS + n - 1) == View(f, level, p)[n - 1];
    }
  }

  lemma {:induction false} EmptyChildren(nodes: Nodes, level: nat, n: nat)
    requires n <= SLOTS && 0 !in nodes
    ensures ReachableChildren(nodes, NoSlots(), level, n) == 0
  {
    if n > 0 { EmptyChildren(nodes, level, n - 1); }
  }

  lemma {:induction false} LevelSum(f: Forest, level: nat, n: nat)
    requires Proper(f) && f.levels == NoLevels() && 0 < level <= TOP
    ensures SubSum(f, level, n) == SumBytes(f, level, n) + SubSum(f, level - 1, n * SLOTS)
    decreases n
  {
    if n > 0 {
      var p := n - 1;
      LevelSum(f, level, p);
      ChildrenSum(f, level, p, SLOTS);
      assert p * SLOTS + SLOTS == n * SLOTS;
      assert AddrFits(f, level, p);
      if Addr(f, level, p) == 0 { EmptyChildren(f.nodes, level - 1, SLOTS); }
    }
  }

  lemma {:induction false} BeyondLimit(f: Forest, level: nat, n: nat)
    requires Proper(f) && level <= TOP && n >= Limit(level)
    ensures SubSum(f, level, n) == SubSum(f, level, Limit(level))
    decreases n
  {
    if n > Limit(level) {
      BeyondLimit(f, level, n - 1);
      assert AddrFits(f, level, n - 1);
    }
  }

  /** Everything reachable from a level is the bytes of that level and the levels below. */
  lemma {:induction false} LevelsBelow(f: Forest, level: nat)
    requires Proper(f) && f.levels == NoLevels() && level <= TOP
    ensures SubSum(f, level, Limit(level)) + BytesFrom(f, level + 1) == BytesFrom(f, 0)
    decreases level
  {
    if level > 0 {
      LevelSum(f, level, Limit(level));
      assert Limit(level) * SLOTS >= Limit(level - 1);
      BeyondLimit(f, level - 1, Limit(level) * SLOTS);
      LevelsBelow(f, level - 1);
    } else {
      LeafSum(f, Limit(0));
    }
  }

  lemma {:induction false} LeafSum(f: Forest, n: nat)
    requires Shaped(f.levels)
    ensures SubSum(f, 0, n) == SumBytes(f, 0, n)
  {
    if n > 0 { LeafSum(f, n - 1); }
  }

  lemma ReachableBytes(nodes: Nodes, root: MapAddr)
    requires Proper(Stored(nodes, root))
    ensures Reachable(nodes, root, TOP) == BytesFrom(Stored(nodes, root), 0)
  {
    var f := Stored(nodes, root);
    LevelsBelow(f, TOP);
    assert Limit(TOP) == 1 && Addr(f, TOP, 0) == root;
    assert SubSum(f, TOP, 1) == SubSum(f, TOP, 0) + Reachable(nodes, root, TOP);
  }
}
