/** `RebuildBuilder` (internal/radix/rebuild.go): a complete tree from a stream of entries, and
    the rebuild of a tree from its own traversal. */
module RadixRebuild {
  import opened RecordLog
  import opened Mapping
  import opened Radix
  import opened RadixBuilder
  import opened RadixBuild
  import opened RadixWalk

  datatype LeafBuffer = NoLeaf | Buffered(prefix: nat, refs: seq<RecordRef>)

  class RebuildBuilder {
    const hierarchy: StreamingBuilder
    const covered: CommitSeq
    var leaf: LeafBuffer
    var last: nat
    var entries: nat
    var finished: bool
    ghost var table: Table   // what has been added
    ghost var flushed: Table // what the hierarchy holds of it

    ghost predicate Valid()
      reads this, hierarchy
    {
      && hierarchy.Ok(0) && Tidy(hierarchy.Tree(), hierarchy.last, 1)
      && NoZero(table) && NoZero(flushed) && |table| == entries && (forall id <- table :: id <= last)
      && HoldsTable(hierarchy.Tree(), flushed)
      && match leaf
         case NoLeaf => table == flushed && (!finished ==> hierarchy.last[0] == -1 && table == map[])
         case Buffered(p, refs) =>
           && !finished && hierarchy.last[0] < p == last / SLOTS && p < Limit(0)
           && RowIs(refs, table, p) && Elsewhere(flushed, table, p) && RowOk(refs)
    }

    constructor (store: Nodes, at: CommitSeq)
      requires 0 !in store
      ensures Valid() && fresh(hierarchy) && table == map[] && last == 0
      ensures !finished && hierarchy.start == hierarchy.nodes == store && covered == at
    {
      EmptyTree(store);
      hierarchy := new StreamingBuilder(store, 0);
      covered := at;
      leaf, last, entries, finished := NoLeaf, 0, 0, false;
      table, flushed := map[], map[];
      new;
      assert hierarchy.Tree() == Stored(store, 0);
    }

    /** `flushLeaf`. */
    method FlushLeaf()
      requires Valid()
      modifies this`leaf, this`flushed, hierarchy
      ensures leaf.NoLeaf? && flushed == table && Grown(old(hierarchy.nodes), hierarchy.nodes)
      ensures hierarchy.Ok(0) && Tidy(hierarchy.Tree(), hierarchy.last, 1) && HoldsTable(hierarchy.Tree(), table)
      ensures old(leaf).Buffered? ==> hierarchy.last[0] == old(leaf).prefix
      ensures old(leaf).NoLeaf? ==> hierarchy.last == old(hierarchy.last)
    {
      if leaf.Buffered? {
        ghost var before := hierarchy.Tree();
        hierarchy.ReplaceLeaf(leaf.prefix, leaf.refs);
        MovedHeld(before, hierarchy.Tree(), leaf.prefix, leaf.refs, flushed, table);
        leaf, flushed := NoLeaf, table;
      }
    }

    /** The leaf with that prefix is the one being buffered. */
    method BufferLeaf(p: nat)
      requires Valid() && !finished && p < Limit(0) && (leaf.Buffered? ==> last / SLOTS <= p)
      modifies this`leaf, this`flushed, hierarchy
      ensures hierarchy.Ok(0) && Tidy(hierarchy.Tree(), hierarchy.last, 1) && HoldsTable(hierarchy.Tree(), flushed)
      ensures leaf.Buffered? && leaf.prefix == p && hierarchy.last[0] < p
      ensures Grown(old(hierarchy.nodes), hierarchy.nodes)
      ensures RowIs(leaf.refs, table, p) && Elsewhere(flushed, table, p) && NoZero(flushed) && RowOk(leaf.refs)
    {
      if leaf.Buffered? && leaf.prefix != p { FlushLeaf(); }
      if leaf.NoLeaf? {
        leaf := Buffered(p, NoRefs());
        EmptyRow(table, last, p);
      }
    }

    /** `Add`: entries are accepted in strictly increasing ID order only, and none for a
        checkpoint that covers no commit. */
    method Add(id: ID, ref: RecordRef) returns (ok: bool)
      requires Valid()
      modifies this, hierarchy
      ensures Valid() && Grown(old(hierarchy.nodes), hierarchy.nodes) && finished == old(finished)
      ensures ok <==> !finished && covered != 0 && id > old(last) && ValidRef(ref)
      ensures ok ==> table == old(table)[id := ref] && last == id
      ensures !ok ==> table == old(table) && last == old(last)
    {
      if finished || covered == 0 || id == 0 || !ValidRef(ref) || id <= last { return false; }
      var p := id / SLOTS;
      PrefixInRange(id);
      BufferLeaf(p);
      Insert(id, ref);
      Record(id, ref);
      return true;
    }

    /** The buffered leaf already has the entry; now the rest follows. */
    method Record(id: ID, ref: RecordRef)
      requires hierarchy.Ok(0) && Tidy(hierarchy.Tree(), hierarchy.last, 1) && HoldsTable(hierarchy.Tree(), flushed)
      requires !finished && id > last && ValidRef(ref)
      requires NoZero(table) && NoZero(flushed) && |table| == entries && (forall i <- table :: i <= last)
      requires leaf.Buffered? && leaf.prefix == id / SLOTS && leaf.prefix < Limit(0) && RowOk(leaf.refs)
      requires hierarchy.last[0] < leaf.prefix
      requires RowIs(leaf.refs, table[id := ref], leaf.prefix) && Elsewhere(flushed, table[id := ref], leaf.prefix)
      modifies this`table, this`last, this`entries
      ensures Valid() && table == old(table)[id := ref] && last == id
    {
      InsertCounts(table, id, ref);
      table, last, entries := table[id := ref], id, entries + 1;
    }

    /** The entry is put into the buffered leaf. */
    method Insert(id: ID, ref: RecordRef)
      requires leaf.Buffered? && leaf.prefix == id / SLOTS && ValidRef(ref)
      requires RowIs(leaf.refs, table, leaf.prefix) && Elsewhere(flushed, table, leaf.prefix) && RowOk(leaf.refs)
      modifies this`leaf
      ensures leaf.Buffered? && leaf.prefix == old(leaf).prefix && RowOk(leaf.refs)
      ensures RowIs(leaf.refs, table[id := ref], leaf.prefix) && Elsewhere(flushed, table[id := ref], leaf.prefix)
    {
      RowApplied(leaf.refs, table, leaf.prefix, Mutation(id, ref));
      RowKept(leaf.refs, id % SLOTS, [Mutation(id, ref)], 0);
      ElsewhereStill(flushed, table, id, ref);
      leaf := leaf.(refs := leaf.refs[id % SLOTS := ref]);
    }

    /** `Finish`: the stored tree denotes exactly what was added. */
    method Finish() returns (root: MapAddr)
      requires Valid() && !finished
      modifies this, hierarchy
      ensures finished && table == old(table) && Grown(old(hierarchy.nodes), hierarchy.nodes)
      ensures Proper(Stored(hierarchy.nodes, root)) && Contents(Stored(hierarchy.nodes, root)) == table
      ensures (root == 0 <==> table == map[]) && NewNodesOk(hierarchy.start, hierarchy.nodes)
    {
      FlushLeaf();
      finished := true;
      ghost var before := hierarchy.Tree();
      hierarchy.Finish();
      SameHeld(before, hierarchy.Tree(), table);
      ContentsAre(hierarchy.Tree(), table);
      root := hierarchy.root;
      assert hierarchy.Tree() == Stored(hierarchy.nodes, root);
      RootZero(hierarchy.nodes, root);
    }
  }

  lemma EmptyTree(nodes: Nodes)
    requires 0 !in nodes
    ensures Proper(Stored(nodes, 0)) && HoldsTable(Stored(nodes, 0), map[])
  {
    forall level, p: nat | 0 <= level <= TOP
      ensures Addr(Stored(nodes, 0), level, p) == 0
    {
      NothingBelow(nodes, level, p);
    }
  }

  lemma ElsewhereStill(t: Table, t2: Table, id: ID, ref: RecordRef)
    requires Elsewhere(t, t2, id / SLOTS)
    ensures Elsewhere(t, t2[id := ref], id / SLOTS)
  {
    forall i: ID | i / SLOTS != id / SLOTS ensures Cell(t2[id := ref], i) == Cell(t, i) {
      assert Cell(t2, i) == Cell(t, i);
    }
  }

  /** A leaf to the right of everything added so far is empty. */
  lemma EmptyRow(t: Table, last: nat, p: nat)
    requires (forall id <- t :: id <= last) && (last / SLOTS < p || t == map[])
    ensures RowIs(NoRefs(), t, p)
  {
  }

  predicate Addable(ms: seq<Mutation>) { ValidMutations(ms) && forall m <- ms :: m.ref != ZERO_REF }

  lemma AddableSteps(ms: seq<Mutation>, i: nat)
    requires i < |ms| && Addable(ms[..i])
    ensures Addable(ms[..i + 1]) <==> ms[i].id > (if i == 0 then 0 else ms[i - 1].id) && ValidRef(ms[i].ref)
    ensures !Addable(ms[..i + 1]) ==> !Addable(ms)
    ensures ApplyAll(map[], ms[..i + 1]) == Apply(ApplyAll(map[], ms[..i]), ms[i])
  {
    assert ms[..i + 1] == ms[..i] + [ms[i]];
    assert ms[..i + 1][..i] == ms[..i] && ms[..i + 1][i] == ms[i];
    if Addable(ms) { AddablePrefix(ms, i + 1); }
    OneMoreAddable(ms[..i], ms[i]);
  }

  lemma AddablePrefix(ms: seq<Mutation>, n: nat)
    requires Addable(ms) && n <= |ms|
    ensures Addable(ms[..n])
  {
    forall m <- ms[..n] ensures m.ref != ZERO_REF { assert m in ms; }
  }

  lemma OneMoreAddable(ms: seq<Mutation>, m: Mutation)
    requires Addable(ms)
    ensures Addable(ms + [m]) <==> m.id > (if ms == [] then 0 else ms[|ms| - 1].id) && ValidRef(m.ref)
  {
    var more, n := ms + [m], |ms|;
    assert more[n] == m && (n > 0 ==> more[n - 1] == ms[n - 1]);
    if Addable(more) {
      assert more[n] in more && ValidMutation(more[n]);
      assert n > 0 ==> more[n - 1].id < more[n].id;
    }
    if ValidRef(m.ref) && m.id > (if ms == [] then 0 else ms[|ms| - 1].id) {
      forall i | 0 <= i < |more| ensures ValidMutation(more[i]) { assert i < |ms| ==> ValidMutation(ms[i]); }
      forall x <- more ensures x.ref != ZERO_REF { assert x in ms || x == m; }
      forall i | 0 < i < |more| ensures more[i - 1].id < more[i].id { assert i < n ==> ms[i - 1].id < ms[i].id; }
    }
  }

  method AddAll(b: RebuildBuilder, ms: seq<Mutation>) returns (ok: bool)
    requires b.Valid() && !b.finished && b.table == map[] && b.last == 0
    modifies b, b.hierarchy
    ensures b.Valid() && !b.finished && Grown(old(b.hierarchy.nodes), b.hierarchy.nodes)
    ensures ok <==> Addable(ms) && (ms != [] ==> b.covered != 0)
    ensures ok ==> b.table == ApplyAll(map[], ms)
  {
    for i := 0 to |ms|
      invariant b.Valid() && !b.finished && Grown(old(b.hierarchy.nodes), b.hierarchy.nodes)
      invariant i > 0 ==> b.covered != 0
      invariant Addable(ms[..i]) && b.table == ApplyAll(map[], ms[..i]) && b.last == if i == 0 then 0 else ms[i - 1].id
    {
      AddableSteps(ms, i);
      ok := b.Add(ms[i].id, ms[i].ref);
      if !ok { return; }
    }
    assert ms[..|ms|] == ms;
    return true;
  }

  /** The rebuild driver: all entries, or none if they are not valid and strictly increasing. */
  method Rebuild(store: Nodes, covered: CommitSeq, ms: seq<Mutation>) returns (r: BuildResult)
    requires 0 !in store
    ensures r.Built? <==> Addable(ms) && (ms != [] ==> covered != 0)
    ensures r.Built? ==> NewNodesOk(store, r.nodes) && Proper(Stored(r.nodes, r.root))
    ensures r.Built? ==> Contents(Stored(r.nodes, r.root)) == ApplyAll(map[], ms)
  {
    var b := new RebuildBuilder(store, covered);
    var ok := AddAll(b, ms);
    if !ok { return Invalid; }
    var root := b.Finish();
    return Built(b.hierarchy.nodes, root, EntryDelta(|ms|, 0, b.hierarchy.bytesAdded, b.hierarchy.bytesRemoved));
  }

  lemma WalkApplied(nodes: Nodes, root: MapAddr)
    requires Proper(Stored(nodes, root))
    requires forall id <- Contents(Stored(nodes, root)) :: id != 0 && ValidRef(Contents(Stored(nodes, root))[id])
    ensures var ms := Walk(nodes, root, TOP, 0);
            Addable(ms) && ApplyAll(map[], ms) == Contents(Stored(nodes, root))
  {
    var ms := Walk(nodes, root, TOP, 0);
    WalkIsContents(nodes, root);
    forall m <- ms ensures ValidMutation(m) && m.ref != ZERO_REF { assert Mutation(m.id, m.ref) in ms; }
    forall i | 0 <= i < |ms| ensures ValidMutation(ms[i]) { assert ms[i] in ms; }
    SortedApplied(ms);
    var t, contents := ApplyAll(map[], ms), Contents(Stored(nodes, root));
    forall id <- t ensures id in contents && contents[id] == t[id] { assert Mutation(id, t[id]) in ms; }
    forall id <- contents ensures id in t { assert Mutation(id, contents[id]) in ms; }
  }

  lemma WalkEmpty(nodes: Nodes, root: MapAddr)
    requires Proper(Stored(nodes, root))
    ensures Walk(nodes, root, TOP, 0) == [] <==> root == 0
  {
    var ms := Walk(nodes, root, TOP, 0);
    WalkIsContents(nodes, root);
    RootZero(nodes, root);
    if ms != [] { assert Mutation(ms[0].id, ms[0].ref) in ms; }
    if root != 0 {
      var id :| id in Contents(Stored(nodes, root));
      assert Mutation(id, Contents(Stored(nodes, root))[id]) in ms;
    }
  }

  lemma {:induction false} SortedApplied(ms: seq<Mutation>)
    requires Sorted(ms) && forall m <- ms :: m.ref != ZERO_REF
    ensures forall id: ID, ref: RecordRef ::
            Mutation(id, ref) in ms <==> id in ApplyAll(map[], ms) && ApplyAll(map[], ms)[id] == ref
  {
    if ms != [] {
      var last := |ms| - 1;
      SortedApplied(ms[..last]);
      assert ms == ms[..last] + [ms[last]];
      forall m <- ms[..last] ensures m.id != ms[last].id { }
      forall id: ID, ref: RecordRef
        ensures Mutation(id, ref) in ms <==> id in ApplyAll(map[], ms) && ApplyAll(map[], ms)[id] == ref
      {
        assert Mutation(id, ref) in ms <==> Mutation(id, ref) in ms[..last] || Mutation(id, ref) == ms[last];
        assert Mutation(id, ref) in ms[..last] ==> id != ms[last].id;
      }
    }
  }

  /** Rebuilding a tree that covers a commit from its traversal always succeeds and denotes the
      same map; so does rebuilding an empty one. */
  method RebuildFromWalk(nodes: Nodes, root: MapAddr, covered: CommitSeq, store: Nodes, ms: seq<Mutation>)
    returns (r: BuildResult)
    requires Proper(Stored(nodes, root)) && 0 !in store && ms == Walk(nodes, root, TOP, 0)
    requires forall id <- Contents(Stored(nodes, root)) :: id != 0 && ValidRef(Contents(Stored(nodes, root))[id])
    ensures r.Built? <==> covered != 0 || root == 0
    ensures r.Built? ==> NewNodesOk(store, r.nodes) && Proper(Stored(r.nodes, r.root))
    ensures r.Built? ==> Contents(Stored(r.nodes, r.root)) == Contents(Stored(nodes, root))
  {
    WalkApplied(nodes, root);
    WalkEmpty(nodes, root);
    r := Rebuild(store, covered, ms);
  }
}
