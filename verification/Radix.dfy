/** The copy-on-write radix tree behind a checkpoint (internal/radix/tree.go): eight levels of
    512 slots over an append-only node store. A node is found by its level and prefix; the tree
    under construction is the stored nodes overlaid with one accumulator per upper level. */
module Radix {
  import opened RecordLog
  import opened Mapping

  const SLOTS: nat := 512
  const TOP: nat := 7

  type MapAddr = nat // zero is no node

  datatype Node = Leaf(prefix: nat, refs: seq<RecordRef>) | Inner(level: nat, prefix: nat, slots: seq<MapAddr>)
  type Nodes = map<MapAddr, Node>

  /** A node being collected by the streaming builder. */
  datatype Accumulator = Inactive | Active(prefix: nat, oldAddr: MapAddr, before: seq<MapAddr>, slots: seq<MapAddr>)

  datatype Forest = Forest(nodes: Nodes, root: MapAddr, levels: seq<Accumulator>)

  function NoSlots(): (s: seq<MapAddr>) ensures |s| == SLOTS { seq(SLOTS, i => 0) }
  function NoRefs(): (s: seq<RecordRef>) ensures |s| == SLOTS { seq(SLOTS, i => ZERO_REF) }
  function NoLevels(): (s: seq<Accumulator>) ensures |s| == TOP + 1 { seq(TOP + 1, i => Inactive) }

  /** How many prefixes a level has over 64-bit IDs. */
  function Limit(level: nat): (n: nat)
    requires level <= TOP
    ensures n > 0
    decreases TOP - level
  {
    if level == TOP then 1 else if level == TOP - 1 then 2 else SLOTS * Limit(level + 1)
  }

  // ------------------------------------------------------- positions of an ID

  function Shift(x: nat, bits: nat): nat {
    if bits == 0 then x else Shift(x / 2, bits - 1)
  }

  /** `nodeSlot` and `nodePrefix` as written, with the short top level as a special case. */
  function NodeSlot(id: ID, level: nat): nat
    requires level <= TOP
  {
    if level == TOP then Shift(id, 63) else Shift(id, 9 * level) % SLOTS
  }

  function NodePrefix(id: ID, level: nat): nat
    requires level <= TOP
  {
    if level == TOP then 0 else Shift(id, 9 * (level + 1))
  }

  lemma {:induction false} ShiftTwice(x: nat, a: nat, b: nat)
    ensures Shift(x, a + b) == Shift(Shift(x, a), b)
    decreases a
  {
    if a > 0 { ShiftTwice(x / 2, a - 1, b); }
  }

  lemma Shift9(x: nat)
    ensures Shift(x, 9) == x / SLOTS
  {
    ShiftTwice(x, 3, 6);
    ShiftTwice(Shift(x, 3), 3, 3);
    Shift3(x);
    Shift3(x / 8);
    Shift3(x / 8 / 8);
  }

  lemma Shift3(x: nat)
    ensures Shift(x, 3) == x / 8
  {
    assert Shift(x, 3) == Shift(x / 2, 2);
    assert Shift(x / 2, 2) == Shift(x / 2 / 2, 1);
    assert Shift(x / 2 / 2, 1) == x / 2 / 2 / 2;
  }

  /** Going up one level drops nine bits: the prefix of the parent and the slot inside it are
      quotient and remainder of the prefix by 512, at every level including the top one. */
  lemma PrefixSteps(id: ID, level: nat)
    requires level < TOP
    ensures NodePrefix(id, level) / SLOTS == NodePrefix(id, level + 1)
    ensures NodePrefix(id, level) % SLOTS == NodeSlot(id, level + 1)
    ensures NodePrefix(id, level) < Limit(level)
    ensures NodePrefix(id, 0) == id / SLOTS && NodeSlot(id, 0) == id % SLOTS
    decreases level
  {
    Shift9(id);
    ShiftTwice(id, 9 * (level + 1), 9);
    Shift9(Shift(id, 9 * (level + 1)));
    if level > 0 {
      PrefixSteps(id, level - 1);
    }
  }

  // ------------------------------------------------------------- the view of a tree

  function SlotsAt(nodes: Nodes, a: MapAddr): (s: seq<MapAddr>)
    ensures |s| == SLOTS
  {
    if a in nodes && nodes[a].Inner? && |nodes[a].slots| == SLOTS then nodes[a].slots else NoSlots()
  }

  function RefsAt(nodes: Nodes, a: MapAddr): (s: seq<RecordRef>)
    ensures |s| == SLOTS
  {
    if a in nodes && nodes[a].Leaf? && |nodes[a].refs| == SLOTS then nodes[a].refs else NoRefs()
  }

  predicate Shaped(levels: seq<Accumulator>) {
    && |levels| == TOP + 1
    && forall l :: 0 <= l <= TOP && levels[l].Active? ==> |levels[l].slots| == SLOTS
  }

  /** The address of the node at a level and prefix, zero if there is none. */
  ghost function Addr(f: Forest, level: nat, p: nat): MapAddr
    requires Shaped(f.levels) && level <= TOP
    decreases TOP - level, 0, |f.levels|
  {
    if level == TOP then if p == 0 then f.root else 0 else View(f, level + 1, p / SLOTS)[p % SLOTS]
  }

  /** Its children: those collected so far if it is being built, else those it was stored with. */
  ghost function View(f: Forest, level: nat, p: nat): (s: seq<MapAddr>)
    requires Shaped(f.levels) && level <= TOP
    ensures |s| == SLOTS
    decreases TOP - level, 1, |f.levels|
  {
    if f.levels[level].Active? && f.levels[level].prefix == p then f.levels[level].slots
    else SlotsAt(f.nodes, Addr(f, level, p))
  }

  ghost function RefOf(f: Forest, id: ID): RecordRef
    requires Shaped(f.levels)
  {
    RefsAt(f.nodes, Addr(f, 0, id / SLOTS))[id % SLOTS]
  }

  /** The map a tree denotes. */
  ghost function Contents(f: Forest): Table
    requires Shaped(f.levels)
  {
    map id: ID | 0 <= id < 0x1_0000_0000_0000_0000 && RefOf(f, id) != ZERO_REF :: RefOf(f, id)
  }

  function Stored(nodes: Nodes, root: MapAddr): Forest { Forest(nodes, root, NoLevels()) }

  // ------------------------------------------------------------------ well-formed

  predicate Fits(node: Node, level: nat, p: nat) {
    && node.prefix == p
    && (if level == 0 then node.Leaf? && |node.refs| == SLOTS && node.refs != NoRefs()
        else && node.Inner? && node.level == level && |node.slots| == SLOTS && node.slots != NoSlots()
             && (level == TOP ==> forall i :: 2 <= i < SLOTS ==> node.slots[i] == 0))
  }

  ghost predicate AddrFits(f: Forest, level: nat, p: nat)
    requires Shaped(f.levels) && level <= TOP
  {
    Addr(f, level, p) != 0 ==>
      Addr(f, level, p) in f.nodes && Fits(f.nodes[Addr(f, level, p)], level, p) && p < Limit(level)
  }

  /** Every reachable node is stored, is where it should be and is not empty. */
  ghost predicate Proper(f: Forest) {
    && Shaped(f.levels) && 0 !in f.nodes
    && forall level, p | 0 <= level <= TOP && 0 <= p :: AddrFits(f, level, p)
  }

  // ------------------------------------------------------- what Addr depends on

  /** Addresses at a level depend only on the levels above it. */
  lemma {:induction false} AddrAbove(f: Forest, g: Forest, level: nat, p: nat)
    requires Shaped(f.levels) && Shaped(g.levels) && level <= TOP
    requires f.nodes == g.nodes && f.root == g.root && f.levels[level + 1..] == g.levels[level + 1..]
    ensures Addr(f, level, p) == Addr(g, level, p)
    decreases TOP - level
  {
    if level < TOP {
      assert f.levels[level + 1] == f.levels[level + 1..][0] == g.levels[level + 1];
      assert f.levels[level + 2..] == f.levels[level + 1..][1..] == g.levels[level + 1..][1..] == g.levels[level + 2..];
      AddrAbove(f, g, level + 1, p / SLOTS);
    }
  }

  /** If the views at one level agree, everything below agrees. */
  lemma {:induction false} AddrBelow(f: Forest, g: Forest, level: nat, top: nat, p: nat)
    requires Shaped(f.levels) && Shaped(g.levels) && level < top <= TOP
    requires forall q :: 0 <= q ==> View(f, top, q) == View(g, top, q)
    requires f.levels[level + 1..top] == g.levels[level + 1..top]
    requires forall l, q :: level < l < top && 0 <= q ==>
             SlotsAt(f.nodes, Addr(f, l, q)) == SlotsAt(g.nodes, Addr(f, l, q))
    ensures Addr(f, level, p) == Addr(g, level, p)
    decreases top - level
  {
    if level + 1 < top {
      assert f.levels[level + 1] == f.levels[level + 1..top][0] == g.levels[level + 1];
      assert f.levels[level + 2..top] == f.levels[level + 1..top][1..] == g.levels[level + 2..top];
      AddrBelow(f, g, level + 1, top, p / SLOTS);
      assert View(f, level + 1, p / SLOTS) == View(g, level + 1, p / SLOTS);
    }
  }

  /** Nodes are only ever added. */
  ghost predicate Grown(f: Nodes, g: Nodes) { 0 !in f && 0 !in g && forall a <- f :: a in g && g[a] == f[a] }

  /** Storing a new node leaves the tree as it was. */
  lemma {:induction false} AddrStored(f: Forest, g: Forest, level: nat, p: nat)
    requires Shaped(f.levels) && level <= TOP && g == f.(nodes := g.nodes) && Grown(f.nodes, g.nodes)
    requires forall m, q: nat | level <= m <= TOP :: AddrFits(f, m, q)
    ensures Addr(g, level, p) == Addr(f, level, p) && View(g, level, p) == View(f, level, p)
    decreases TOP - level
  {
    if level < TOP { AddrStored(f, g, level + 1, p / SLOTS); }
    assert AddrFits(f, level, p);
  }

  // ------------------------------------------------------------------ encoded size

  const NODE_HEADER_SIZE: nat := 64
  const BITMAP_SIZE: nat := 64
  const DENSE_BOUNDARY: nat := 504

  function EntryWidth(level: nat): nat { if level == 0 then 12 else 8 }

  /** `nodeBuildBytes`: the encoded size of a node with that many entries, zero for an empty one. */
  function NodeBytes(level: nat, count: nat): nat {
    if count == 0 then 0
    else if count >= DENSE_BOUNDARY then NODE_HEADER_SIZE + SLOTS * EntryWidth(level)
    else (NODE_HEADER_SIZE + BITMAP_SIZE + count * EntryWidth(level) + 7) / 8 * 8
  }

  function Count<T(==)>(s: seq<T>, zero: T): (n: nat)
    ensures n <= |s|
  {
    if s == [] then 0 else Count(s[..|s| - 1], zero) + if s[|s| - 1] == zero then 0 else 1
  }

  function SizeAt(nodes: Nodes, a: MapAddr): nat {
    if a !in nodes then 0
    else if nodes[a].Leaf? then NodeBytes(0, Count(nodes[a].refs, ZERO_REF))
    else NodeBytes(nodes[a].level, Count(nodes[a].slots, 0))
  }

  /** The bytes of the first n nodes of a level, and of all levels from k upwards. */
  ghost function SumBytes(f: Forest, m: nat, n: nat): nat
    requires Shaped(f.levels) && m <= TOP
    decreases n, |f.levels|
  {
    if n == 0 then 0 else SumBytes(f, m, n - 1) + SizeAt(f.nodes, Addr(f, m, n - 1))
  }

  ghost function BytesFrom(f: Forest, k: nat): nat
    requires Shaped(f.levels)
    decreases TOP + 1 - k, |f.levels|
  {
    if k > TOP then 0 else SumBytes(f, k, Limit(k)) + BytesFrom(f, k + 1)
  }

  ghost predicate SameAddrs(f: Forest, g: Forest, m: nat) {
    Shaped(f.levels) && Shaped(g.levels) && m <= TOP && forall q: nat :: Addr(g, m, q) == Addr(f, m, q)
  }

  /** Exactly one address of the level is another one. */
  ghost predicate Moved(f: Forest, g: Forest, m: nat, p: nat, a: MapAddr) {
    && Shaped(f.levels) && Shaped(g.levels) && m <= TOP
    && forall q: nat :: Addr(g, m, q) == if q == p then a else Addr(f, m, q)
  }

  ghost predicate SameViews(f: Forest, g: Forest, m: nat) {
    Shaped(f.levels) && Shaped(g.levels) && m <= TOP && forall q: nat :: View(g, m, q) == View(f, m, q)
  }

  ghost predicate LevelFits(f: Forest, m: nat) {
    Shaped(f.levels) && m <= TOP && forall q: nat :: AddrFits(f, m, q)
  }

  lemma {:induction false} SumMoved(f: Forest, g: Forest, m: nat, p: nat, a: MapAddr, n: nat)
    requires Moved(f, g, m, p, a) && Grown(f.nodes, g.nodes) && LevelFits(f, m)
    ensures SumBytes(g, m, n) == SumBytes(f, m, n) +
      if p < n then SizeAt(g.nodes, a) - SizeAt(f.nodes, Addr(f, m, p)) else 0
  {
    if n > 0 {
      SumMoved(f, g, m, p, a, n - 1);
      assert AddrFits(f, m, n - 1);
      assert Addr(g, m, n - 1) == if n - 1 == p then a else Addr(f, m, n - 1);
    }
  }

  lemma {:induction false} SumSame(f: Forest, g: Forest, m: nat, n: nat)
    requires SameAddrs(f, g, m) && Grown(f.nodes, g.nodes) && LevelFits(f, m)
    ensures SumBytes(g, m, n) == SumBytes(f, m, n)
  {
    if n > 0 {
      SumSame(f, g, m, n - 1);
      assert AddrFits(f, m, n - 1);
      assert Addr(g, m, n - 1) == Addr(f, m, n - 1);
    }
  }

  lemma {:induction false} BytesSame(f: Forest, g: Forest, k: nat)
    requires Shaped(f.levels) && Shaped(g.levels) && Grown(f.nodes, g.nodes)
    requires forall m | k <= m <= TOP :: SameAddrs(f, g, m) && LevelFits(f, m)
    ensures BytesFrom(g, k) == BytesFrom(f, k)
    decreases TOP + 1 - k
  {
    if k <= TOP {
      SumSame(f, g, k, Limit(k));
      BytesSame(f, g, k + 1);
    }
  }
}
