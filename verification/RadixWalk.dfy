/** Point lookup, ordered traversal and the full rebuild of a tree from its own traversal
    (internal/radix/tree.go, internal/radix/rebuild.go). */
module RadixWalk {
  import opened RecordLog
  import opened Mapping
  import opened Radix
  import opened RadixBuilder
  import opened RadixBuild

  // -------------------------------------------------------------------- LookupRef

  datatype Found = BadID | Absent | Present(ref: RecordRef)

  /** `LookupRef`: eight steps from the root answer what the map answers. */
  method LookupRef(nodes: Nodes, root: MapAddr, id: ID) returns (r: Found)
    requires Proper(Stored(nodes, root))
    ensures r == if id == 0 then BadID
                 else if id in Contents(Stored(nodes, root)) then Present(Contents(Stored(nodes, root))[id]) else Absent
  {
    if id == 0 { return BadID; }
    ghost var f := Stored(nodes, root);
    var a: MapAddr, level: nat := root, TOP;
    if a == 0 {
      NothingBelow(nodes, 0, id / SLOTS);
      return Absent;
    }
    PrefixSteps(id, 0);
    assert a == Addr(f, TOP, NodePrefix(id, TOP));
    while level > 0
      invariant level <= TOP && a == Addr(f, level, NodePrefix(id, level)) && a != 0
    {
      assert AddrFits(f, level, NodePrefix(id, level));
      PrefixSteps(id, level - 1);
      a := SlotsAt(nodes, a)[NodeSlot(id, level)];
      if a == 0 {
        ZeroBelow(f, level - 1, id);
        return Absent;
      }
      level := level - 1;
    }
    assert AddrFits(f, 0, NodePrefix(id, 0));
    var ref := RefsAt(nodes, a)[NodeSlot(id, 0)];
    assert ref == RefOf(f, id);
    return if ref == ZERO_REF then Absent else Present(ref);
  }

  lemma {:induction false} ZeroBelow(f: Forest, level: nat, id: ID)
    requires Proper(f) && f.levels == NoLevels() && level < TOP && Addr(f, level, NodePrefix(id, level)) == 0
    ensures RefOf(f, id) == ZERO_REF
    decreases level
  {
    PrefixSteps(id, 0);
    if level > 0 {
      PrefixSteps(id, level - 1);
      ZeroBelow(f, level - 1, id);
    }
  }

  // --------------------------------------------------------------------- WalkRefs

  /** `walkNode`: all entries below a node, slot by slot. */
  function Walk(nodes: Nodes, a: MapAddr, level: nat, p: nat): seq<Mutation>
    requires level <= TOP && p < Limit(level)
    decreases level, SLOTS + 1, |nodes|
  {
    if a !in nodes then []
    else if level == 0 then WalkLeaf(RefsAt(nodes, a), p, SLOTS)
    else WalkSlots(nodes, SlotsAt(nodes, a), level, p, SLOTS)
  }

  function WalkLeaf(refs: seq<RecordRef>, p: nat, n: nat): seq<Mutation>
    requires n <= |refs| == SLOTS && p < Limit(0)
    decreases n, |refs|
  {
    if n == 0 then [] else
      IDInRange(p, n - 1);
      WalkLeaf(refs, p, n - 1) + if refs[n - 1] == ZERO_REF then [] else [Mutation(p * SLOTS + n - 1, refs[n - 1])]
  }

  function WalkSlots(nodes: Nodes, slots: seq<MapAddr>, level: nat, p: nat, n: nat): seq<Mutation>
    requires 0 < level <= TOP && p < Limit(level) && n <= |slots| == SLOTS
    decreases level, n, |nodes|
  {
    if n == 0 then []
    else WalkSlots(nodes, slots, level, p, n - 1) + WalkChild(nodes, slots[n - 1], level - 1, p * SLOTS + n - 1)
  }

  function WalkChild(nodes: Nodes, a: MapAddr, level: nat, p: nat): seq<Mutation>
    requires level < TOP
    decreases level, SLOTS + 2, |nodes|
  {
    if a == 0 || p >= Limit(level) then [] else Walk(nodes, a, level, p)
  }

  lemma {:induction false} UpMonotone(x: nat, y: nat, k: nat)
    requires x <= y
    ensures Up(x, k) <= Up(y, k)
    decreases k
  {
    if k > 0 { UpMonotone(x / SLOTS, y / SLOTS, k - 1); }
  }

  function SlotOf(id: ID, level: nat): nat { if level == 0 then id % SLOTS else Up(id / SLOTS, level - 1) % SLOTS }

  /** The IDs below a node, below its first n slots, and below one of its slots. */
  ghost function Under(level: nat, p: nat): iset<ID> { iset id: ID | Up(id / SLOTS, level) == p }
  ghost function UnderFirst(level: nat, p: nat, n: nat): iset<ID> {
    iset id: ID | id in Under(level, p) && SlotOf(id, level) < n
  }
  ghost function UnderSlot(level: nat, p: nat, s: nat): iset<ID> {
    iset id: ID | id in Under(level, p) && SlotOf(id, level) == s
  }

  predicate Sorted(ms: seq<Mutation>) { forall i, j | 0 <= i < j < |ms| :: ms[i].id < ms[j].id }

  /** The entries with these IDs: in order, complete, and nothing else. */
  ghost predicate Lists(f: Forest, ms: seq<Mutation>, ids: iset<ID>) {
    && Shaped(f.levels) && Sorted(ms)
    && (forall m <- ms :: m.id in ids && m.ref != ZERO_REF && RefOf(f, m.id) == m.ref)
    && (forall id <- ids :: RefOf(f, id) != ZERO_REF ==> Mutation(id, RefOf(f, id)) in ms)
  }

  lemma ListsConcat(f: Forest, a: seq<Mutation>, b: seq<Mutation>, before: iset<ID>, after: iset<ID>)
    requires Lists(f, a, before) && Lists(f, b, after) && forall x <- before, y <- after :: x < y
    ensures Lists(f, a + b, before + after)
  {
    forall i, j | 0 <= i < j < |a + b| ensures (a + b)[i].id < (a + b)[j].id {
      if i < |a| <= j {
        assert a[i] in a && b[j - |a|] in b;
        assert a[i].id in before && b[j - |a|].id in after;
      }
    }
  }

  lemma SlotOrder(level: nat, p: nat, x: ID, y: ID)
    requires x in Under(level, p) && y in Under(level, p) && SlotOf(x, level) < SlotOf(y, level)
    ensures x < y
  {
    if level > 0 {
      UpStep(x / SLOTS, level - 1);
      UpStep(y / SLOTS, level - 1);
      if y / SLOTS <= x / SLOTS { UpMonotone(y / SLOTS, x / SLOTS, level - 1); }
    }
  }

  lemma NextSlot(f: Forest, before: seq<Mutation>, here: seq<Mutation>, level: nat, p: nat, n: nat)
    requires Lists(f, before, UnderFirst(level, p, n)) && Lists(f, here, UnderSlot(level, p, n))
    ensures Lists(f, before + here, UnderFirst(level, p, n + 1))
  {
    forall x <- UnderFirst(level, p, n), y <- UnderSlot(level, p, n) ensures x < y { SlotOrder(level, p, x, y); }
    ListsConcat(f, before, here, UnderFirst(level, p, n), UnderSlot(level, p, n));
    assert UnderFirst(level, p, n + 1) == UnderFirst(level, p, n) + UnderSlot(level, p, n);
  }

  lemma {:induction false} LeafListed(f: Forest, p: nat, n: nat)
    requires Shaped(f.levels) && n <= SLOTS && p < Limit(0)
    ensures Lists(f, WalkLeaf(RefsAt(f.nodes, Addr(f, 0, p)), p, n), UnderFirst(0, p, n))
  {
    if n > 0 {
      LeafListed(f, p, n - 1);
      OneListed(f, p, n - 1);
      var refs := RefsAt(f.nodes, Addr(f, 0, p));
      IDInRange(p, n - 1);
      NextSlot(f, WalkLeaf(refs, p, n - 1),
               if refs[n - 1] == ZERO_REF then [] else [Mutation(p * SLOTS + n - 1, refs[n - 1])], 0, p, n - 1);
    }
  }

  lemma OneListed(f: Forest, p: nat, s: nat)
    requires Shaped(f.levels) && s < SLOTS && p < Limit(0)
    ensures p * SLOTS + s < 0x1_0000_0000_0000_0000
    ensures var ref := RefsAt(f.nodes, Addr(f, 0, p))[s];
            Lists(f, if ref == ZERO_REF then [] else [Mutation(p * SLOTS + s, ref)], UnderSlot(0, p, s))
  {
    IDInRange(p, s);
    assert UnderSlot(0, p, s) == iset{p * SLOTS + s};
    assert RefOf(f, p * SLOTS + s) == RefsAt(f.nodes, Addr(f, 0, p))[s];
  }

  ghost predicate ChildLists(f: Forest, slots: seq<MapAddr>, level: nat, p: nat, s: nat)
    requires 0 < level <= TOP && s < |slots| == SLOTS
  {
    Lists(f, WalkChild(f.nodes, slots[s], level - 1, p * SLOTS + s), UnderSlot(level, p, s))
  }

  lemma {:induction false} SlotsListed(f: Forest, slots: seq<MapAddr>, level: nat, p: nat, n: nat)
    requires Shaped(f.levels) && 0 < level <= TOP && p < Limit(level) && n <= |slots| == SLOTS
    requires forall s | 0 <= s < SLOTS :: ChildLists(f, slots, level, p, s)
    ensures Lists(f, WalkSlots(f.nodes, slots, level, p, n), UnderFirst(level, p, n))
    decreases n
  {
    if n > 0 {
      SlotsListed(f, slots, level, p, n - 1);
      assert ChildLists(f, slots, level, p, n - 1);
      NextSlot(f, WalkSlots(f.nodes, slots, level, p, n - 1),
        WalkChild(f.nodes, slots[n - 1], level - 1, p * SLOTS + n - 1), level, p, n - 1);
    }
  }

  lemma ChildListed(f: Forest, level: nat, p: nat, s: nat)
    requires Proper(f) && f.levels == NoLevels() && 0 < level <= TOP && p < Limit(level) && s < SLOTS
    ensures ChildLists(f, View(f, level, p), level, p, s)
    decreases level, s
  {
    var child := p * SLOTS + s;
    assert child / SLOTS == p && child % SLOTS == s;
    assert View(f, level, p)[s] == Addr(f, level - 1, child);
    assert AddrFits(f, level - 1, child);
    assert UnderSlot(level, p, s) == Under(level - 1, child) by {
      forall id: ID
        ensures id in UnderSlot(level, p, s) <==> id in Under(level - 1, child)
      {
        UpStep(id / SLOTS, level - 1);
      }
    }
    if Addr(f, level - 1, child) == 0 {
      forall id <- Under(level - 1, child) ensures RefOf(f, id) == ZERO_REF { EmptyUnder(f, level - 1, child, id); }
    } else {
      NodeListed(f, level - 1, child);
    }
  }

  lemma {:induction false} EmptyUnder(f: Forest, level: nat, p: nat, id: ID)
    requires Proper(f) && f.levels == NoLevels() && level <= TOP && Addr(f, level, p) == 0 && id in Under(level, p)
    ensures RefOf(f, id) == ZERO_REF
    decreases level
  {
    if level > 0 {
      UpStep(id / SLOTS, level - 1);
      EmptyUnder(f, level - 1, Up(id / SLOTS, level - 1), id);
    }
  }

  lemma NodeListed(f: Forest, level: nat, p: nat)
    requires Proper(f) && f.levels == NoLevels() && level <= TOP && p < Limit(level) && Addr(f, level, p) != 0
    ensures Lists(f, Walk(f.nodes, Addr(f, level, p), level, p), Under(level, p))
    decreases level, SLOTS + 1
  {
    assert AddrFits(f, level, p);
    assert UnderFirst(level, p, SLOTS) == Under(level, p);
    if level == 0 {
      LeafListed(f, p, SLOTS);
    } else {
      forall s | 0 <= s < SLOTS ensures ChildLists(f, View(f, level, p), level, p, s) { ChildListed(f, level, p, s); }
      SlotsListed(f, View(f, level, p), level, p, SLOTS);
    }
  }

  /** `WalkRefs` visits exactly the entries of the map, in strictly increasing ID order. */
  lemma WalkIsContents(nodes: Nodes, root: MapAddr)
    requires Proper(Stored(nodes, root))
    ensures var f := Stored(nodes, root);
            var ms := Walk(nodes, root, TOP, 0);
            && Sorted(ms)
            && (forall id: ID, ref: RecordRef ::
               Mutation(id, ref) in ms <==> id in Contents(f) && Contents(f)[id] == ref)
  {
    var f := Stored(nodes, root);
    assert Addr(f, TOP, 0) == root;
    assert forall id: ID :: id in Under(TOP, 0) by {
      forall id: ID ensures id in Under(TOP, 0) {
        PrefixInRange(id);
        UpReachesTop(id / SLOTS, 0);
      }
    }
    if root != 0 {
      NodeListed(f, TOP, 0);
    } else {
      forall id: ID ensures RefOf(f, id) == ZERO_REF { EmptyUnder(f, TOP, 0, id); }
    }
  }
}
