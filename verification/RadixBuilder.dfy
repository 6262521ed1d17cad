/** The streaming bottom-up builder (internal/radix/builder.go, internal/radix/rebuild.go):
    changed children are pushed in increasing order, one accumulator per level collects a node,
    and a finished node is written at most once and pushed to its parent. */
module RadixBuilder {
  import opened RecordLog
  import opened Radix

  // --------------------------------------------------------------- the invariant

  /** One level of the tree under construction: the node being collected is the last one
      touched, and everything to its right is still as in the base tree. */
  ghost predicate LevelOk(f: Forest, base: MapAddr, last: seq<int>, m: nat)
    requires Shaped(f.levels) && |last| == TOP + 1 && m <= TOP
  {
    && last[m] >= -1
    && (f.levels[m].Active? ==>
          var acc := f.levels[m];
          && m > 0 && acc.prefix == last[m] && acc.prefix < Limit(m)
          && acc.oldAddr == Addr(f, m, acc.prefix) == Addr(Stored(f.nodes, base), m, acc.prefix)
          && acc.before == SlotsAt(f.nodes, acc.oldAddr))
    && Untouched(f, base, last[m], m)
  }

  ghost predicate Untouched(f: Forest, base: MapAddr, from: int, m: nat)
    requires Shaped(f.levels) && m <= TOP
  {
    forall q: nat :: q > from ==> Addr(f, m, q) == Addr(Stored(f.nodes, base), m, q)
  }

  /** Touched parents are ancestors of touched children. */
  predicate Nested(last: seq<int>, m: nat)
    requires |last| == TOP + 1 && m < TOP
  {
    last[m + 1] <= if last[m] < 0 then -1 else last[m] / SLOTS
  }

  /** The invariant of the levels from k upwards. */
  ghost predicate OkFrom(f: Forest, base: MapAddr, last: seq<int>, k: nat) {
    && Shaped(f.levels) && |last| == TOP + 1 && 0 !in f.nodes
    && Proper(Stored(f.nodes, base))
    && (forall m, q: nat | k <= m <= TOP :: AddrFits(f, m, q))
    && (forall m | k <= m <= TOP :: LevelOk(f, base, last, m))
    && (forall m | k <= m < TOP :: Nested(last, m))
  }

  /** Every touched level from k upwards is still being collected. */
  predicate Tidy(f: Forest, last: seq<int>, k: nat) {
    && |f.levels| == TOP + 1 && |last| == TOP + 1
    && forall m | k <= m <= TOP && last[m] >= 0 :: f.levels[m].Active?
  }

  ghost predicate WrittenOk(f: Forest, last: seq<int>, written: set<(nat, nat)>) {
    && |f.levels| == TOP + 1 && |last| == TOP + 1
    && forall w <- written :: w.0 <= TOP && w.1 <= last[w.0] && (f.levels[w.0].Active? ==> w.1 < last[w.0])
  }

  // --------------------------------------------------- what is written and replaced

  /** How many nodes of a level may have been replaced so far. */
  function Mark(acc: Accumulator, last: int): nat {
    if last < 0 then 0 else if acc.Active? then last else last + 1
  }

  function Marks(levels: seq<Accumulator>, last: seq<int>): (marks: seq<nat>)
    requires |levels| == |last|
    ensures |marks| == |levels|
  {
    seq(|levels|, m requires 0 <= m < |levels| => Mark(levels[m], last[m]))
  }

  /** The bytes of the nodes left of the marks. */
  ghost function Room(f: Forest, marks: seq<nat>): nat
    requires Shaped(f.levels) && |marks| <= TOP + 1
    decreases |marks|, |f.levels|
  {
    if marks == [] then 0
    else Room(f, marks[..|marks| - 1]) + SumBytes(f, |marks| - 1, marks[|marks| - 1])
  }

  lemma {:induction false} RoomMoves(f: Forest, marks: seq<nat>, m: nat, n: nat)
    requires Shaped(f.levels) && m < |marks| <= TOP + 1
    ensures Room(f, marks[m := n]) == Room(f, marks) - SumBytes(f, m, marks[m]) + SumBytes(f, m, n)
    decreases |marks|
  {
    var k := |marks| - 1;
    if m == k {
      assert marks[m := n][..k] == marks[..k];
    } else {
      assert marks[m := n][..k] == marks[..k][m := n];
      RoomMoves(f, marks[..k], m, n);
    }
  }

  lemma {:induction false} SumGrows(f: Forest, m: nat, a: nat, b: nat)
    requires Shaped(f.levels) && m <= TOP && a <= b
    ensures SumBytes(f, m, a) <= SumBytes(f, m, b)
    decreases b
  {
    if a < b { SumGrows(f, m, a, b - 1); }
  }

  lemma {:induction false} SumBounded(f: Forest, m: nat, n: nat)
    requires Proper(f) && m <= TOP
    ensures SumBytes(f, m, n) <= SumBytes(f, m, Limit(m))
    decreases n
  {
    if n <= Limit(m) {
      SumGrows(f, m, n, Limit(m));
    } else {
      SumBounded(f, m, n - 1);
      assert AddrFits(f, m, n - 1);
    }
  }

  lemma {:induction false} RoomBounded(f: Forest, marks: seq<nat>)
    requires Proper(f) && |marks| <= TOP + 1
    ensures Room(f, marks) + BytesFrom(f, |marks|) <= BytesFrom(f, 0)
    decreases |marks|
  {
    if marks != [] {
      var k := |marks| - 1;
      RoomBounded(f, marks[..k]);
      SumBounded(f, k, marks[k]);
    }
  }

  /** No more has been replaced than the base tree has left of the marks. */
  ghost predicate Spent(start: Nodes, base: MapAddr, levels: seq<Accumulator>, last: seq<int>, removed: nat) {
    && |levels| == |last| == TOP + 1
    && removed <= Room(Stored(start, base), Marks(levels, last))
  }

  /** The marks only move to the right, and past a node whose size is then left over. */
  lemma Spending(start: Nodes, base: MapAddr, levels: seq<Accumulator>, last: seq<int>, removed: nat, m: nat,
                 acc: Accumulator, p: int)
    requires Spent(start, base, levels, last, removed) && m <= TOP && Mark(levels[m], last[m]) <= Mark(acc, p)
    ensures Spent(start, base, levels[m := acc], last[m := p], removed)
    ensures forall q: nat | Mark(levels[m], last[m]) <= q < Mark(acc, p) ::
      Spent(start, base, levels[m := acc], last[m := p], removed + SizeAt(start, Addr(Stored(start, base), m, q)))
  {
    var f, marks := Stored(start, base), Marks(levels, last);
    assert Marks(levels[m := acc], last[m := p]) == marks[m := Mark(acc, p)];
    RoomMoves(f, marks, m, Mark(acc, p));
    SumGrows(f, m, marks[m], Mark(acc, p));
    forall q: nat | marks[m] <= q < Mark(acc, p)
      ensures Spent(start, base, levels[m := acc], last[m := p], removed + SizeAt(start, Addr(f, m, q)))
    {
      SumGrows(f, m, marks[m], q);
      SumGrows(f, m, q + 1, Mark(acc, p));
    }
  }

  /** What is replaced is no more than what the base tree reaches. */
  lemma SpentAtMost(start: Nodes, base: MapAddr, levels: seq<Accumulator>, last: seq<int>, removed: nat)
    requires Spent(start, base, levels, last, removed) && Proper(Stored(start, base))
    ensures removed <= BytesFrom(Stored(start, base), 0)
  {
    RoomBounded(Stored(start, base), Marks(levels, last));
  }

  predicate RowOk(refs: seq<RecordRef>) { forall r <- refs :: r == ZERO_REF || ValidRef(r) }

  ghost predicate Rows(nodes: Nodes) { forall a <- nodes :: nodes[a].Leaf? ==> RowOk(nodes[a].refs) }

  function LevelOf(n: Node): nat { if n.Leaf? then 0 else n.level }

  /** A node at a place of the tree, with children that are there too. */
  predicate NodeOk(nodes: Nodes, n: Node) {
    && LevelOf(n) <= TOP && Fits(n, LevelOf(n), n.prefix) && n.prefix < Limit(LevelOf(n))
    && (n.Inner? ==> forall a <- n.slots :: a == 0 || a in nodes)
  }

  ghost predicate NewNodesOk(start: Nodes, nodes: Nodes) {
    Grown(start, nodes) && (Rows(start) ==> Rows(nodes)) && forall a <- nodes :: a in start || NodeOk(nodes, nodes[a])
  }

  lemma NewNode(start: Nodes, nodes: Nodes, a: MapAddr, n: Node)
    requires NewNodesOk(start, nodes) && a != 0 && a !in nodes && NodeOk(nodes, n)
    requires n.Leaf? && Rows(start) ==> RowOk(n.refs)
    ensures NewNodesOk(start, nodes[a := n])
  {
    var more := nodes[a := n];
    forall b <- more ensures b in start || NodeOk(more, more[b]) {
      if b != a { assert b in start || NodeOk(nodes, nodes[b]); }
    }
  }

  lemma RowAt(nodes: Nodes, a: MapAddr)
    requires Rows(nodes)
    ensures RowOk(RefsAt(nodes, a))
  {
  }

  /** The node being collected has children that are there. */
  lemma CollectedOk(f: Forest, base: MapAddr, last: seq<int>, level: nat)
    requires 0 < level <= TOP && OkFrom(f, base, last, level - 1) && f.levels[level].Active?
    requires f.levels[level].slots != NoSlots()
    ensures NodeOk(f.nodes, Inner(level, f.levels[level].prefix, f.levels[level].slots))
  {
    var acc := f.levels[level];
    CollectedFits(f, base, last, level);
    assert LevelOk(f, base, last, level);
    forall a <- acc.slots ensures a == 0 || a in f.nodes {
      var i :| 0 <= i < SLOTS && acc.slots[i] == a;
      var q := acc.prefix * SLOTS + i;
      assert q / SLOTS == acc.prefix && q % SLOTS == i;
      assert AddrFits(f, level - 1, q) && Addr(f, level - 1, q) == View(f, level, acc.prefix)[i];
    }
  }

  /** A node that is no longer collected may be replaced. */
  lemma ClosedSpent(f: Forest, base: MapAddr, last: seq<int>, start: Nodes, removed: nat, level: nat)
    requires level <= TOP && OkFrom(f, base, last, level) && f.levels[level].Active?
    requires Grown(start, f.nodes) && Proper(Stored(start, base)) && Spent(start, base, f.levels, last, removed)
    ensures Spent(start, base, f.levels[level := Inactive], last, removed)
    ensures Spent(start, base, f.levels[level := Inactive], last, removed + SizeAt(f.nodes, f.levels[level].oldAddr))
  {
    assert LevelOk(f, base, last, level);
    assert last[level := last[level]] == last;
    Spending(start, base, f.levels, last, removed, level, Inactive, last[level]);
    BaseSize(start, base, f.nodes, level, f.levels[level].prefix);
  }

  lemma ChildSpent(f: Forest, base: MapAddr, last: seq<int>, start: Nodes, removed: nat, level: nat, acc: Accumulator)
    requires level <= TOP && Spent(start, base, f.levels, last, removed) && f.levels[level].Active? && acc.Active?
    ensures Spent(start, base, f.levels[level := acc], last, removed)
  {
    assert last[level := last[level]] == last;
    Spending(start, base, f.levels, last, removed, level, acc, last[level]);
  }

  /** So may a leaf further to the right. */
  lemma LeafSpent(f: Forest, base: MapAddr, last: seq<int>, start: Nodes, removed: nat, p: nat)
    requires OkFrom(f, base, last, 0) && last[0] < p
    requires Grown(start, f.nodes) && Proper(Stored(start, base)) && Spent(start, base, f.levels, last, removed)
    ensures Spent(start, base, f.levels, last[0 := p], removed)
    ensures Spent(start, base, f.levels, last[0 := p], removed + SizeAt(f.nodes, Addr(f, 0, p)))
  {
    assert LevelOk(f, base, last, 0);
    assert f.levels[0 := f.levels[0]] == f.levels;
    Spending(start, base, f.levels, last, removed, 0, f.levels[0], p);
    BaseSize(start, base, f.nodes, 0, p);
  }

  /** The size of an untouched node of the base tree. */
  lemma BaseSize(start: Nodes, base: MapAddr, nodes: Nodes, level: nat, p: nat)
    requires Proper(Stored(start, base)) && Grown(start, nodes) && level <= TOP
    ensures SizeAt(nodes, Addr(Stored(nodes, base), level, p)) == SizeAt(start, Addr(Stored(start, base), level, p))
  {
    BaseStored(start, base, nodes);
    assert AddrFits(Stored(start, base), level, p);
  }

  // ----------------------------------------------------------- one step at a time

  function Opened(f: Forest, level: nat, p: nat, at: MapAddr): Forest
    requires |f.levels| == TOP + 1 && level <= TOP
  {
    f.(levels := f.levels[level := Active(p, at, SlotsAt(f.nodes, at), SlotsAt(f.nodes, at))])
  }

  /** Starting to collect a node changes no address. */
  lemma OpenedSame(f: Forest, level: nat, p: nat, at: MapAddr, m: nat, q: nat)
    requires Shaped(f.levels) && 0 < level <= TOP && level - 1 <= m <= TOP
    requires f.levels[level].Inactive? && at == Addr(f, level, p)
    ensures Shaped(Opened(f, level, p, at).levels)
    ensures Addr(Opened(f, level, p, at), m, q) == Addr(f, m, q)
  {
    var g := Opened(f, level, p, at);
    if m >= level {
      assert f.levels[m + 1..] == g.levels[m + 1..];
      AddrAbove(f, g, m, q);
    } else {
      assert f.levels[level + 1..] == g.levels[level + 1..];
      AddrAbove(f, g, level, q / SLOTS);
    }
  }

  function WithChild(f: Forest, level: nat, s: nat, a: MapAddr): Forest
    requires |f.levels| == TOP + 1 && level <= TOP && f.levels[level].Active?
    requires |f.levels[level].slots| == SLOTS && s < SLOTS
  {
    f.(levels := f.levels[level := f.levels[level].(slots := f.levels[level].slots[s := a])])
  }

  /** Replacing one child of the collected node changes exactly that child's address. */
  lemma WithChildAddr(f: Forest, level: nat, p: nat, a: MapAddr, m: nat, q: nat)
    requires Shaped(f.levels) && 0 < level <= TOP && level - 1 <= m <= TOP
    requires f.levels[level].Active? && f.levels[level].prefix == p / SLOTS
    ensures Shaped(WithChild(f, level, p % SLOTS, a).levels)
    ensures Addr(WithChild(f, level, p % SLOTS, a), m, q) == if m == level - 1 && q == p then a else Addr(f, m, q)
  {
    var g := WithChild(f, level, p % SLOTS, a);
    if m >= level {
      assert f.levels[m + 1..] == g.levels[m + 1..];
      AddrAbove(f, g, m, q);
    } else {
      assert f.levels[level + 1..] == g.levels[level + 1..];
      AddrAbove(f, g, level, q / SLOTS);
      assert q == p <==> q / SLOTS == p / SLOTS && q % SLOTS == p % SLOTS;
    }
  }

  function Closed(f: Forest, level: nat): Forest
    requires |f.levels| == TOP + 1 && level <= TOP
  {
    f.(levels := f.levels[level := Inactive])
  }

  lemma ClosedAddr(f: Forest, level: nat, m: nat, q: nat)
    requires Shaped(f.levels) && level <= m <= TOP
    ensures Shaped(Closed(f, level).levels) && Addr(Closed(f, level), m, q) == Addr(f, m, q)
  {
    assert f.levels[m + 1..] == Closed(f, level).levels[m + 1..];
    AddrAbove(f, Closed(f, level), m, q);
  }

  // ------------------------------------------------------- the steps keep the invariant

  lemma OpenedOk(f: Forest, base: MapAddr, last: seq<int>, level: nat, p: nat)
    requires 0 < level <= TOP && OkFrom(f, base, last, level - 1) && f.levels[level].Inactive?
    requires last[level] < p < Limit(level) && last[level - 1] >= 0 && p <= last[level - 1] / SLOTS
    ensures Addr(f, level, p) == Addr(Stored(f.nodes, base), level, p)
    ensures OkFrom(Opened(f, level, p, Addr(f, level, p)), base, last[level := p], level - 1)
  {
    assert LevelOk(f, base, last, level);
    var g, last2 := Opened(f, level, p, Addr(f, level, p)), last[level := p];
    forall m, q: nat | level - 1 <= m <= TOP ensures Addr(g, m, q) == Addr(f, m, q) && AddrFits(g, m, q) {
      OpenedSame(f, level, p, Addr(f, level, p), m, q);
      assert AddrFits(f, m, q);
    }
    forall m | level - 1 <= m <= TOP ensures LevelOk(g, base, last2, m) { assert LevelOk(f, base, last, m); }
    forall m | level - 1 <= m < TOP ensures Nested(last2, m) { assert Nested(last, m); }
  }

  lemma WithChildOk(f: Forest, base: MapAddr, last: seq<int>, level: nat, p: nat, a: MapAddr)
    requires 0 < level <= TOP && OkFrom(f, base, last, level - 1) && f.levels[level - 1].Inactive?
    requires f.levels[level].Active? && f.levels[level].prefix == p / SLOTS && last[level - 1] == p < Limit(level - 1)
    requires a != 0 ==> a in f.nodes && Fits(f.nodes[a], level - 1, p)
    ensures OkFrom(WithChild(f, level, p % SLOTS, a), base, last, level - 1)
  {
    var g := WithChild(f, level, p % SLOTS, a);
    forall m, q: nat | level - 1 <= m <= TOP
      ensures Addr(g, m, q) == (if m == level - 1 && q == p then a else Addr(f, m, q)) && AddrFits(g, m, q)
    {
      WithChildAddr(f, level, p, a, m, q);
      assert AddrFits(f, m, q);
    }
    forall m | level - 1 <= m <= TOP ensures LevelOk(g, base, last, m) { assert LevelOk(f, base, last, m); }
  }

  lemma ClosedOk(f: Forest, base: MapAddr, last: seq<int>, level: nat)
    requires level <= TOP && OkFrom(f, base, last, level)
    ensures OkFrom(Closed(f, level), base, last, level)
  {
    var g := Closed(f, level);
    forall m, q: nat | level <= m <= TOP ensures Addr(g, m, q) == Addr(f, m, q) && AddrFits(g, m, q) {
      ClosedAddr(f, level, m, q);
      assert AddrFits(f, m, q);
    }
    forall m | level <= m <= TOP ensures LevelOk(g, base, last, m) { assert LevelOk(f, base, last, m); }
  }

  lemma StoredOk(f: Forest, base: MapAddr, last: seq<int>, k: nat, nodes: Nodes)
    requires k <= TOP && OkFrom(f, base, last, k) && Grown(f.nodes, nodes)
    ensures OkFrom(f.(nodes := nodes), base, last, k)
    ensures forall m, q: nat | k <= m <= TOP ::
      Addr(f.(nodes := nodes), m, q) == Addr(f, m, q) && View(f.(nodes := nodes), m, q) == View(f, m, q)
  {
    var g := f.(nodes := nodes);
    BaseStored(f.nodes, base, nodes);
    forall m, q: nat | k <= m <= TOP
      ensures Addr(g, m, q) == Addr(f, m, q) && View(g, m, q) == View(f, m, q) && AddrFits(g, m, q)
    {
      AddrStored(f, g, m, q);
      assert AddrFits(f, m, q);
    }
    forall m | k <= m <= TOP ensures LevelOk(g, base, last, m) {
      assert LevelOk(f, base, last, m);
      if f.levels[m].Active? { assert AddrFits(f, m, f.levels[m].prefix); }
    }
  }

  lemma BaseStored(nodes: Nodes, base: MapAddr, nodes2: Nodes)
    requires Proper(Stored(nodes, base)) && Grown(nodes, nodes2)
    ensures Proper(Stored(nodes2, base))
    ensures forall m: nat, q: nat | m <= TOP :: Addr(Stored(nodes2, base), m, q) == Addr(Stored(nodes, base), m, q)
  {
    forall m: nat, q: nat | m <= TOP
      ensures Addr(Stored(nodes2, base), m, q) == Addr(Stored(nodes, base), m, q)
      ensures AddrFits(Stored(nodes2, base), m, q)
    {
      AddrStored(Stored(nodes, base), Stored(nodes2, base), m, q);
      assert AddrFits(Stored(nodes, base), m, q);
    }
  }

  /** A change arrives at or to the right of what its parent level has touched. */
  lemma ParentInOrder(f: Forest, base: MapAddr, last: seq<int>, child: nat)
    requires child < TOP && OkFrom(f, base, last, child) && 0 <= last[child] < Limit(child)
    ensures last[child + 1] <= last[child] / SLOTS < Limit(child + 1)
    ensures f.levels[child + 1].Active? ==> f.levels[child + 1].prefix == last[child + 1]
  {
    assert Nested(last, child) && LevelOk(f, base, last, child + 1);
  }

  lemma SameChildren(f: Forest, g: Forest, child: nat)
    requires child < TOP && SameViews(f, g, child + 1)
    ensures SameAddrs(f, g, child)
  {
    forall q: nat ensures Addr(g, child, q) == Addr(f, child, q) {
      assert View(g, child + 1, q / SLOTS) == View(f, child + 1, q / SLOTS);
    }
  }

  lemma SlotsGrown(f: Nodes, g: Nodes, a: MapAddr)
    requires Grown(f, g) && (a == 0 || a in f)
    ensures SlotsAt(g, a) == SlotsAt(f, a)
  {
  }

  lemma SizeGrown(f: Nodes, g: Nodes, a: MapAddr)
    requires Grown(f, g) && (a == 0 || a in f)
    ensures SizeAt(g, a) == SizeAt(f, a)
  {
  }

  lemma SlotsSize(nodes: Nodes, level: nat, a: MapAddr)
    requires 0 !in nodes && level > 0 && (a == 0 || (a in nodes && Fits(nodes[a], level, nodes[a].prefix)))
    ensures SizeAt(nodes, a) == NodeBytes(level, Count(SlotsAt(nodes, a), 0))
  {
    if a == 0 { NothingCounted(SLOTS); }
  }

  lemma {:induction false} NothingCounted(n: nat)
    requires n <= SLOTS
    ensures Count(NoSlots()[..n], 0) == 0 && Count(NoRefs()[..n], ZERO_REF) == 0
    ensures NoSlots()[..SLOTS] == NoSlots() && NoRefs()[..SLOTS] == NoRefs()
  {
    if n > 0 {
      assert NoSlots()[..n][..n - 1] == NoSlots()[..n - 1] && NoRefs()[..n][..n - 1] == NoRefs()[..n - 1];
      NothingCounted(n - 1);
    }
  }

  /** Storing what was collected under its new address shows the same children. */
  lemma FlushedView(f: Forest, g: Forest, base: MapAddr, last: seq<int>, last2: seq<int>, level: nat, a: MapAddr)
    requires 0 < level <= TOP && OkFrom(f, base, last, level - 1) && OkFrom(g, base, last2, level)
    requires f.levels[level].Active? && g.levels[level].Inactive? && Grown(f.nodes, g.nodes)
    requires SlotsAt(g.nodes, a) == f.levels[level].slots
    requires Moved(f, g, level, f.levels[level].prefix, a)
    ensures SameViews(f, g, level)
  {
    forall q: nat ensures View(g, level, q) == View(f, level, q) { assert AddrFits(f, level, q); }
  }

  lemma EveryLevelFits(f: Forest, base: MapAddr, last: seq<int>, k: nat)
    requires OkFrom(f, base, last, k)
    ensures forall m | k <= m <= TOP :: LevelFits(f, m)
  {
  }

  /** A step that moves no address at these levels moves no bytes. */
  lemma BytesKept(f: Forest, g: Forest, base: MapAddr, last: seq<int>, k: nat)
    requires OkFrom(f, base, last, k) && Grown(f.nodes, g.nodes) && forall m | k <= m <= TOP :: SameAddrs(f, g, m)
    requires Shaped(g.levels)
    ensures BytesFrom(g, k) == BytesFrom(f, k)
  {
    EveryLevelFits(f, base, last, k);
    BytesSame(f, g, k);
  }

  lemma BytesMoved(f: Forest, g: Forest, base: MapAddr, last: seq<int>, m: nat, p: nat, a: MapAddr)
    requires m <= TOP && OkFrom(f, base, last, m) && Grown(f.nodes, g.nodes) && Moved(f, g, m, p, a) && p < Limit(m)
    ensures BytesFrom(g, m) - BytesFrom(f, m)
            == SizeAt(g.nodes, a) - SizeAt(f.nodes, Addr(f, m, p)) + BytesFrom(g, m + 1) - BytesFrom(f, m + 1)
  {
    EveryLevelFits(f, base, last, m);
    SumMoved(f, g, m, p, a, Limit(m));
  }

  lemma KeepFrom(f: Forest, base: MapAddr, last: seq<int>, level: nat)
    requires 0 < level && OkFrom(f, base, last, level - 1)
    ensures OkFrom(f, base, last, level)
  {
  }

  /** What has been collected can be stored: the top level uses only its first two slots. */
  lemma CollectedFits(f: Forest, base: MapAddr, last: seq<int>, level: nat)
    requires 0 < level <= TOP && OkFrom(f, base, last, level - 1) && f.levels[level].Active?
    ensures var acc := f.levels[level];
            acc.slots != NoSlots() ==> Fits(Inner(level, acc.prefix, acc.slots), level, acc.prefix)
  {
    assert LevelOk(f, base, last, level);
    if level == TOP {
      forall i | 2 <= i < SLOTS ensures f.levels[TOP].slots[i] == 0 {
        assert Limit(TOP - 1) == 2 && Limit(TOP) == 1;
        assert i / SLOTS == 0 && i % SLOTS == i && Addr(f, TOP - 1, i) == View(f, TOP, 0)[i];
        assert AddrFits(f, TOP - 1, i);
      }
    }
  }

  /** The levels below a flushed node see no difference. */
  lemma BelowKept(f: Forest, g: Forest, base: MapAddr, last: seq<int>, last2: seq<int>, level: nat)
    requires 0 < level <= TOP && OkFrom(f, base, last, level - 1) && OkFrom(g, base, last2, level)
    requires Grown(f.nodes, g.nodes) && f.levels[..level] == g.levels[..level]
    requires last[..level + 1] == last2[..level + 1]
    requires SameViews(f, g, level)
    ensures OkFrom(g, base, last2, level - 1)
  {
    var m := level - 1;
    BaseStored(f.nodes, base, g.nodes);
    assert f.levels[m] == f.levels[..level][m] == g.levels[..level][m] == g.levels[m];
    assert last[m] == last[..level + 1][m] == last2[..level + 1][m] == last2[m];
    assert last[level] == last[..level + 1][level] == last2[..level + 1][level] == last2[level];
    forall q: nat ensures Addr(g, m, q) == Addr(f, m, q) && AddrFits(g, m, q) {
      assert View(g, level, q / SLOTS) == View(f, level, q / SLOTS);
      assert AddrFits(f, m, q);
    }
    assert LevelOk(g, base, last2, m) by {
      assert LevelOk(f, base, last, m);
      if f.levels[m].Active? { assert AddrFits(f, m, f.levels[m].prefix); }
    }
    assert Nested(last2, m) by { assert Nested(last, m); }
  }

  lemma RootReplaced(f: Forest, base: MapAddr, last: seq<int>, a: MapAddr)
    requires OkFrom(f, base, last, TOP) && f.levels[TOP].Inactive? && last[TOP] >= 0
    requires a != 0 ==> a in f.nodes && Fits(f.nodes[a], TOP, 0)
    ensures OkFrom(f.(root := a), base, last, TOP)
  {
    var g := f.(root := a);
    assert LevelOk(f, base, last, TOP);
    forall q: nat
      ensures AddrFits(g, TOP, q) && (q > 0 ==> Addr(g, TOP, q) == Addr(f, TOP, q))
    {
      assert AddrFits(f, TOP, q);
    }
  }

  // ------------------------------------------------------------------------- leaves

  ghost predicate LeafMoved(f: Forest, g: Forest, p: nat, refs: seq<RecordRef>) {
    && Shaped(f.levels) && Shaped(g.levels)
    && forall q: nat :: RefsAt(g.nodes, Addr(g, 0, q)) == if q == p then refs else RefsAt(f.nodes, Addr(f, 0, q))
  }

  ghost predicate SameLeaves(f: Forest, g: Forest) {
    && Shaped(f.levels) && Shaped(g.levels)
    && forall q: nat :: RefsAt(g.nodes, Addr(g, 0, q)) == RefsAt(f.nodes, Addr(f, 0, q))
  }

  lemma NextLeaf(f: Forest, base: MapAddr, last: seq<int>, p: nat)
    requires OkFrom(f, base, last, 0) && p > last[0]
    ensures OkFrom(f, base, last[0 := p], 0)
  {
    var last2 := last[0 := p];
    forall m | 0 <= m <= TOP ensures LevelOk(f, base, last2, m) { assert LevelOk(f, base, last, m); }
    forall m | 0 <= m < TOP ensures Nested(last2, m) { assert Nested(last, m); }
  }

  lemma RefsSize(nodes: Nodes, a: MapAddr)
    requires 0 !in nodes && (a == 0 || (a in nodes && Fits(nodes[a], 0, nodes[a].prefix)))
    ensures SizeAt(nodes, a) == NodeBytes(0, Count(RefsAt(nodes, a), ZERO_REF))
  {
    if a == 0 { NothingCounted(SLOTS); }
  }

  lemma RefsGrown(f: Nodes, g: Nodes, a: MapAddr)
    requires Grown(f, g) && (a == 0 || a in f)
    ensures RefsAt(g, a) == RefsAt(f, a)
  {
  }

  lemma LeafReplaced(f: Forest, g: Forest, p: nat, a: MapAddr, refs: seq<RecordRef>)
    requires Shaped(f.levels) && (forall q: nat :: AddrFits(f, 0, q)) && Moved(f, g, 0, p, a)
    requires Grown(f.nodes, g.nodes) && RefsAt(g.nodes, a) == refs
    ensures LeafMoved(f, g, p, refs)
  {
    forall q: nat ensures RefsAt(g.nodes, Addr(g, 0, q)) == if q == p then refs else RefsAt(f.nodes, Addr(f, 0, q)) {
      assert AddrFits(f, 0, q);
    }
  }

  /** Storing a node first makes no difference. */
  lemma LeafThen(f: Forest, stored: Forest, g: Forest, p: nat, refs: seq<RecordRef>)
    requires SameAddrs(f, stored, 0) && LevelFits(f, 0) && Grown(f.nodes, stored.nodes)
    requires LeafMoved(stored, g, p, refs)
    ensures LeafMoved(f, g, p, refs)
  {
    LeavesKept(f, stored);
  }

  lemma LowerLevels(f: Forest, base: MapAddr, last: seq<int>, level: nat)
    requires 0 < level && OkFrom(f, base, last, 0)
    ensures OkFrom(f, base, last, level - 1)
  {
  }

  /** The levels below a flushed one, none of them collecting. */
  ghost predicate Below(f: Forest, g: Forest, last: seq<int>, last2: seq<int>, level: nat) {
    && Shaped(f.levels) && Shaped(g.levels) && |last| == |last2| == TOP + 1 && level <= TOP
    && last2[level] == last[level]
    && forall m | 0 <= m < level :: f.levels[m].Inactive? && g.levels[m].Inactive? && last2[m] == last[m]
  }

  lemma BelowFrom(f: Forest, g: Forest, last: seq<int>, last2: seq<int>, level: nat)
    requires Shaped(f.levels) && Shaped(g.levels) && |last| == |last2| == TOP + 1 && level <= TOP
    requires f.levels[..level] == g.levels[..level] && last[..level + 1] == last2[..level + 1]
    requires forall m | 0 <= m < level :: f.levels[m].Inactive?
    ensures Below(f, g, last, last2, level)
  {
    forall m | 0 <= m < level ensures g.levels[m] == f.levels[m] {
      assert f.levels[m] == f.levels[..level][m] == g.levels[..level][m];
    }
    forall m | 0 <= m <= level ensures last2[m] == last[m] {
      assert last[m] == last[..level + 1][m] == last2[..level + 1][m];
    }
  }

  /** With nothing being collected below it, a flush leaves everything below as it was. */
  lemma FlushedBelow(f: Forest, g: Forest, base: MapAddr, last: seq<int>, last2: seq<int>, level: nat)
    requires 0 < level <= TOP && OkFrom(f, base, last, 0)
    requires OkFrom(g, base, last2, level - 1) && Grown(f.nodes, g.nodes)
    requires Below(f, g, last, last2, level) && SameViews(f, g, level)
    ensures OkFrom(g, base, last2, 0) && SameLeaves(f, g)
    ensures BytesFrom(g, 0) - BytesFrom(g, level) == BytesFrom(f, 0) - BytesFrom(f, level)
  {
    EveryLevelFits(f, base, last, 0);
    forall m | 0 <= m < level ensures SameAddrs(f, g, m) { LowerAddrs(f, g, level, m); }
    OkBelow(f, g, base, last, last2, level);
    LeavesKept(f, g);
    BytesBelow(f, g, 0, level);
  }

  lemma LeavesKept(f: Forest, g: Forest)
    requires SameAddrs(f, g, 0) && LevelFits(f, 0) && Grown(f.nodes, g.nodes)
    ensures SameLeaves(f, g)
  {
    forall q: nat ensures RefsAt(g.nodes, Addr(g, 0, q)) == RefsAt(f.nodes, Addr(f, 0, q)) { assert AddrFits(f, 0, q); }
  }

  lemma {:induction false} LowerAddrs(f: Forest, g: Forest, level: nat, m: nat)
    requires m < level <= TOP && Grown(f.nodes, g.nodes) && SameViews(f, g, level)
    requires forall k | 0 <= k < level :: f.levels[k].Inactive? && g.levels[k].Inactive? && LevelFits(f, k)
    ensures SameAddrs(f, g, m)
    decreases level - m
  {
    if m + 1 < level {
      LowerAddrs(f, g, level, m + 1);
      InactiveViews(f, g, m + 1);
    }
    SameChildren(f, g, m);
  }

  lemma OkBelow(f: Forest, g: Forest, base: MapAddr, last: seq<int>, last2: seq<int>, level: nat)
    requires 0 < level <= TOP && OkFrom(f, base, last, 0)
    requires OkFrom(g, base, last2, level - 1) && Grown(f.nodes, g.nodes)
    requires Below(f, g, last, last2, level) && forall m | 0 <= m < level :: SameAddrs(f, g, m)
    ensures OkFrom(g, base, last2, 0)
  {
    BaseStored(f.nodes, base, g.nodes);
    forall m, q: nat | 0 <= m < level ensures AddrFits(g, m, q) {
      assert AddrFits(f, m, q);
      assert SameAddrs(f, g, m);
    }
    forall m | 0 <= m < level ensures LevelOk(g, base, last2, m) {
      assert LevelOk(f, base, last, m);
      assert SameAddrs(f, g, m);
    }
    forall m | 0 <= m < level ensures Nested(last2, m) { assert Nested(last, m); }
  }

  lemma {:induction false} BytesBelow(f: Forest, g: Forest, k: nat, level: nat)
    requires k <= level <= TOP && Shaped(f.levels) && Shaped(g.levels) && Grown(f.nodes, g.nodes)
    requires forall m | k <= m < level :: SameAddrs(f, g, m) && LevelFits(f, m)
    ensures BytesFrom(g, k) - BytesFrom(g, level) == BytesFrom(f, k) - BytesFrom(f, level)
    decreases level - k
  {
    if k < level {
      SumSame(f, g, k, Limit(k));
      BytesBelow(f, g, k + 1, level);
    }
  }

  lemma InactiveViews(f: Forest, g: Forest, m: nat)
    requires SameAddrs(f, g, m) && f.levels[m].Inactive? && g.levels[m].Inactive? && Grown(f.nodes, g.nodes)
    requires LevelFits(f, m)
    ensures SameViews(f, g, m)
  {
    forall q: nat ensures View(g, m, q) == View(f, m, q) { assert AddrFits(f, m, q); }
  }

  // -------------------------------------------------------------------- the builder

  lemma FreshExists(nodes: Nodes) returns (a: MapAddr)
    ensures a != 0 && a !in nodes
  {
    a := 1;
    var left := nodes.Keys;
    while left != {}
      invariant a > 0 && left <= nodes.Keys && forall x <- nodes :: x in left || x < a
      decreases |left|
    {
      var x :| x in left;
      if x >= a { a := x + 1; }
      left := left - {x};
    }
  }

  /** The prefix k levels further up. */
  function Up(p: nat, k: nat): nat
    decreases k
  {
    if k == 0 then p else Up(p / SLOTS, k - 1)
  }

  lemma {:induction false} UpStep(p: nat, k: nat)
    ensures Up(p, k + 1) == Up(p, k) / SLOTS
    decreases k
  {
    if k > 0 { UpStep(p / SLOTS, k - 1); }
  }

  lemma {:induction false} NothingBelow(nodes: Nodes, level: nat, p: nat)
    requires level <= TOP && 0 !in nodes
    ensures Addr(Stored(nodes, 0), level, p) == 0
    decreases TOP - level
  {
    if level < TOP { NothingBelow(nodes, level + 1, p / SLOTS); }
  }

  lemma {:induction false} UpReachesTop(p: nat, level: nat)
    requires level <= TOP && p < Limit(level)
    ensures Up(p, TOP - level) == 0
    decreases TOP - level
  {
    if level < TOP { UpReachesTop(p / SLOTS, level + 1); }
  }

  class StreamingBuilder {
    const base: MapAddr
    ghost const start: Nodes
    var nodes: Nodes
    var root: MapAddr
    var levels: seq<Accumulator>
    var bytesAdded: nat
    var bytesRemoved: nat
    ghost var last: seq<int>
    ghost var written: set<(nat, nat)>

    ghost function Tree(): Forest
      reads this
    {
      Forest(nodes, root, levels)
    }

    ghost predicate Ok(k: nat)
      reads this
    {
      && OkFrom(Tree(), base, last, k) && WrittenOk(Tree(), last, written)
      && NewNodesOk(start, nodes) && Spent(start, base, levels, last, bytesRemoved)
      && Proper(Stored(start, base))
    }

    constructor (store: Nodes, from: MapAddr)
      requires Proper(Stored(store, from))
      ensures start == nodes == store && root == base == from && levels == NoLevels() && Ok(0)
      ensures last == seq(TOP + 1, i => -1) && written == {} && bytesAdded == bytesRemoved == 0
    {
      base, start, nodes, root, levels := from, store, store, from, NoLevels();
      bytesAdded, bytesRemoved := 0, 0;
      last, written := seq(TOP + 1, i => -1), {};
    }

    /** `nodeAddress`: descends the base tree to one node. */
    method NodeAddress(level: nat, p: nat) returns (a: MapAddr)
      requires level <= TOP && p < Limit(level) && 0 !in nodes
      ensures a == Addr(Stored(nodes, base), level, p)
    {
      if base == 0 {
        UpReachesTop(p, level);
        NothingBelow(nodes, level, p);
        return 0;
      }
      UpReachesTop(p, level);
      a := base;
      var current := TOP;
      while current > level
        invariant level <= current <= TOP
        invariant a == Addr(Stored(nodes, base), current, Up(p, current - level))
      {
        UpStep(p, current - 1 - level);
        a := SlotsAt(nodes, a)[Up(p, current - 1 - level) % SLOTS];
        current := current - 1;
      }
    }

    /** NodeStore.Append: a fresh address, and no position is written twice. */
    method Append(node: Node, ghost level: nat) returns (a: MapAddr)
      requires 0 !in nodes && (level, node.prefix) !in written
      modifies this`nodes, this`written
      ensures a != 0 && a !in old(nodes) && nodes == old(nodes)[a := node]
      ensures written == old(written) + {(level, node.prefix)}
    {
      ghost var unused := FreshExists(nodes);
      a :| a != 0 && a !in nodes;
      nodes := nodes[a := node];
      written := written + {(level, node.prefix)};
    }

    /** Starts collecting a node of the base tree that nothing has touched yet. */
    method OpenLevel(level: nat, p: nat)
      requires 0 < level <= TOP && Ok(level - 1) && levels[level].Inactive?
      requires last[level] < p < Limit(level) && last[level - 1] >= 0 && p <= last[level - 1] / SLOTS
      modifies this`levels, this`last
      ensures Ok(level - 1) && last == old(last)[level := p]
      ensures levels[level].Active? && levels[level].prefix == p && levels == old(levels)[level := levels[level]]
      ensures SameAddrs(old(Tree()), Tree(), level - 1) && BytesFrom(Tree(), level) == old(BytesFrom(Tree(), level))
    {
      ghost var before, last0 := Tree(), last;
      var at := NodeAddress(level, p);
      OpenedOk(before, base, last, level, p);
      forall m: nat, q: nat | level - 1 <= m <= TOP
        ensures Addr(Opened(before, level, p, at), m, q) == Addr(before, m, q)
      {
        OpenedSame(before, level, p, at, m, q);
      }
      levels := levels[level := Active(p, at, SlotsAt(nodes, at), SlotsAt(nodes, at))];
      last := last[level := p];
      assert Tree() == Opened(before, level, p, at);
      Spending(start, base, before.levels, last0, bytesRemoved, level, levels[level], p);
      KeepFrom(before, base, last0, level);
      BytesKept(before, Tree(), base, last0, level);
    }

    method SetChild(level: nat, p: nat, a: MapAddr)
      requires 0 < level <= TOP && Ok(level - 1) && levels[level - 1].Inactive?
      requires levels[level].Active? && levels[level].prefix == p / SLOTS && last[level - 1] == p < Limit(level - 1)
      requires a != 0 ==> a in nodes && Fits(nodes[a], level - 1, p)
      modifies this`levels
      ensures Ok(level - 1) && levels[level].Active? && levels == old(levels)[level := levels[level]]
      ensures Moved(old(Tree()), Tree(), level - 1, p, a) && BytesFrom(Tree(), level) == old(BytesFrom(Tree(), level))
    {
      ghost var before := Tree();
      WithChildOk(before, base, last, level, p, a);
      forall m: nat, q: nat | level - 1 <= m <= TOP
        ensures Addr(WithChild(before, level, p % SLOTS, a), m, q)
                == if m == level - 1 && q == p then a else Addr(before, m, q)
      {
        WithChildAddr(before, level, p, a, m, q);
      }
      levels := levels[level := levels[level].(slots := levels[level].slots[p % SLOTS := a])];
      assert Tree() == WithChild(before, level, p % SLOTS, a);
      ChildSpent(before, base, last, start, bytesRemoved, level, levels[level]);
      KeepFrom(before, base, last, level);
      BytesKept(before, Tree(), base, last, level);
    }

    /** `push`: the child at `p` of level `child` now has address `a`; nothing else changes. */
    method Push(child: nat, p: nat, a: MapAddr)
      requires child < TOP && Ok(child) && Tidy(Tree(), last, child + 1)
      requires levels[child].Inactive? && last[child] == p < Limit(child)
      requires a != 0 ==> a in nodes && Fits(nodes[a], child, p)
      modifies this
      ensures Ok(child) && Tidy(Tree(), last, child + 1)
      ensures Grown(old(nodes), nodes) && levels[..child + 1] == old(levels[..child + 1])
      ensures last[..child + 1] == old(last[..child + 1])
      ensures Moved(old(Tree()), Tree(), child, p, a)
      ensures bytesAdded - bytesRemoved - BytesFrom(Tree(), child + 1)
              == old(bytesAdded - bytesRemoved - BytesFrom(Tree(), child + 1))
      decreases TOP - child, 0
    {
      ParentInOrder(Tree(), base, last, child);
      Collect(child + 1, p / SLOTS);
      SetChild(child + 1, p, a);
      assert levels[..child + 1] == old(levels[..child + 1]);
    }

    /** Makes the node at `p` the one being collected at its level, flushing its predecessor. */
    method Collect(level: nat, p: nat)
      requires 0 < level <= TOP && Ok(level - 1) && Tidy(Tree(), last, level) && levels[level - 1].Inactive?
      requires 0 <= last[level - 1] < Limit(level - 1)
      requires last[level] <= p == last[level - 1] / SLOTS && p < Limit(level)
      modifies this
      ensures Ok(level - 1) && Tidy(Tree(), last, level)
      ensures levels[level].Active? && levels[level].prefix == p
      ensures Grown(old(nodes), nodes) && levels[..level] == old(levels[..level]) && last[..level] == old(last[..level])
      ensures SameAddrs(old(Tree()), Tree(), level - 1)
      ensures bytesAdded - bytesRemoved - BytesFrom(Tree(), level)
              == old(bytesAdded - bytesRemoved - BytesFrom(Tree(), level))
      decreases TOP - level, 6
    {
      assert LevelOk(Tree(), base, last, level);
      if levels[level].Active? && levels[level].prefix != p { FlushAside(level); }
      if levels[level].Inactive? { OpenLevel(level, p); }
      assert levels[..level] == old(levels[..level]);
    }

    /** A flush, as the level below sees it. */
    method FlushAside(level: nat)
      requires 0 < level <= TOP && Ok(level - 1) && Tidy(Tree(), last, level + 1)
      modifies this
      ensures Ok(level - 1) && Tidy(Tree(), last, level + 1) && levels[level].Inactive?
      ensures Grown(old(nodes), nodes) && levels[..level] == old(levels[..level]) && last[..level] == old(last[..level])
      ensures last[level - 1] == old(last[level - 1]) && last[level] == old(last[level])
      ensures SameAddrs(old(Tree()), Tree(), level - 1)
      ensures bytesAdded - bytesRemoved - BytesFrom(Tree(), level)
              == old(bytesAdded - bytesRemoved - BytesFrom(Tree(), level))
      decreases TOP - level, 5
    {
      Flush(level);
      SameChildren(old(Tree()), Tree(), level - 1);
      assert last[level - 1] == last[..level + 1][level - 1] && last[level] == last[..level + 1][level];
      assert last[..level] == last[..level + 1][..level];
    }

    /** `flush`: the node being collected at `level` is stored, if it changed, and pushed. */
    method Flush(level: nat)
      requires 0 < level <= TOP && Ok(level - 1) && Tidy(Tree(), last, level + 1)
      modifies this
      ensures Ok(level - 1) && Tidy(Tree(), last, level + 1) && levels[level].Inactive?
      ensures Grown(old(nodes), nodes) && levels[..level] == old(levels[..level])
      ensures last[..level + 1] == old(last[..level + 1])
      ensures SameViews(old(Tree()), Tree(), level)
      ensures bytesAdded - bytesRemoved - BytesFrom(Tree(), level)
              == old(bytesAdded - bytesRemoved - BytesFrom(Tree(), level))
      decreases TOP - level, 4
    {
      if levels[level].Inactive? { return; }
      ghost var before, last0, acc := Tree(), last, levels[level];
      assert LevelOk(before, base, last, level) && AddrFits(before, level, acc.prefix);
      ghost var now := FlushNode(level);
      FlushedView(before, Tree(), base, last0, last, level, now);
      BelowKept(before, Tree(), base, last0, last, level);
    }

    /** The same for a level that is collecting; `now` is where the node lies afterwards. */
    method FlushNode(level: nat) returns (ghost now: MapAddr)
      requires 0 < level <= TOP && Ok(level - 1) && Tidy(Tree(), last, level + 1) && levels[level].Active?
      modifies this
      ensures Ok(level) && Tidy(Tree(), last, level + 1) && levels[level].Inactive?
      ensures Grown(old(nodes), nodes) && levels[..level] == old(levels[..level])
      ensures last[..level + 1] == old(last[..level + 1])
      ensures Moved(old(Tree()), Tree(), level, old(levels)[level].prefix, now)
      ensures SlotsAt(nodes, now) == old(levels)[level].slots
      ensures bytesAdded - bytesRemoved - BytesFrom(Tree(), level)
              == old(bytesAdded - bytesRemoved - BytesFrom(Tree(), level))
      decreases TOP - level, 3
    {
      var acc := levels[level];
      assert LevelOk(Tree(), base, last, level) && AddrFits(Tree(), level, acc.prefix);
      var changed, a := StoreCollected(level);
      now := acc.oldAddr;
      if changed {
        now := a;
        Deliver(level, acc, a);
      }
    }

    /** The collected node, stored at `a`, takes the place of the one it was made from. */
    method Deliver(level: nat, acc: Accumulator, a: MapAddr)
      requires 0 < level <= TOP && Ok(level) && Tidy(Tree(), last, level + 1) && levels[level].Inactive?
      requires acc.Active? && last[level] == acc.prefix < Limit(level) && acc.oldAddr == Addr(Tree(), level, acc.prefix)
      requires a != 0 ==> a in nodes && Fits(nodes[a], level, acc.prefix)
      requires SlotsAt(nodes, a) == acc.slots && SizeAt(nodes, a) == NodeBytes(level, Count(acc.slots, 0))
      requires SizeAt(nodes, acc.oldAddr) == NodeBytes(level, Count(acc.before, 0))
      requires Spent(start, base, levels, last, bytesRemoved + SizeAt(nodes, acc.oldAddr))
      modifies this
      ensures Ok(level) && Tidy(Tree(), last, level + 1) && levels[level].Inactive?
      ensures Grown(old(nodes), nodes) && levels[..level] == old(levels[..level])
      ensures last[..level + 1] == old(last[..level + 1])
      ensures Moved(old(Tree()), Tree(), level, acc.prefix, a) && SlotsAt(nodes, a) == acc.slots
      ensures bytesAdded - bytesRemoved - BytesFrom(Tree(), level)
              == old(bytesAdded - bytesRemoved - BytesFrom(Tree(), level))
      decreases TOP - level, 2
    {
      Replace(level, acc.prefix, a, NodeBytes(level, Count(acc.slots, 0)), NodeBytes(level, Count(acc.before, 0)));
      assert levels[level] == levels[..level + 1][level] && levels[..level] == levels[..level + 1][..level];
      SlotsGrown(old(nodes), nodes, a);
    }

    /** A node that has changed is accounted for and its new address delivered. */
    method Replace(level: nat, p: nat, a: MapAddr, added: nat, removed: nat)
      requires level <= TOP && Ok(level) && Tidy(Tree(), last, level + 1)
      requires levels[level].Inactive? && last[level] == p < Limit(level)
      requires a != 0 ==> a in nodes && Fits(nodes[a], level, p)
      requires added == SizeAt(nodes, a) && removed == SizeAt(nodes, Addr(Tree(), level, p))
      requires Spent(start, base, levels, last, bytesRemoved + removed)
      modifies this
      ensures Ok(level) && Tidy(Tree(), last, level + 1)
      ensures Grown(old(nodes), nodes) && levels[..level + 1] == old(levels[..level + 1])
      ensures last[..level + 1] == old(last[..level + 1])
      ensures Moved(old(Tree()), Tree(), level, p, a)
      ensures bytesAdded - bytesRemoved - BytesFrom(Tree(), level)
              == old(bytesAdded - bytesRemoved - BytesFrom(Tree(), level))
      decreases TOP - level, 1
    {
      bytesAdded, bytesRemoved := bytesAdded + added, bytesRemoved + removed;
      // the new address goes to the parent or, at the top, becomes the root
      if level == TOP {
        RootReplaced(Tree(), base, last, a);
        root := a;
      } else {
        Push(level, p, a);
      }
      BytesMoved(old(Tree()), Tree(), base, old(last), level, p, a);
      SizeGrown(old(nodes), nodes, a);
    }

    /** `writeChangedNode` on the collected node, which is then no longer collected. */
    method StoreCollected(level: nat) returns (changed: bool, a: MapAddr)
      requires 0 < level <= TOP && Ok(level - 1) && levels[level].Active?
      modifies this`nodes, this`levels, this`written
      ensures Ok(level) && levels == old(levels)[level := Inactive] && Grown(old(nodes), nodes)
      ensures changed <==> old(levels)[level].before != old(levels)[level].slots
      ensures changed && a != 0 ==> a in nodes && Fits(nodes[a], level, old(levels)[level].prefix)
      ensures !changed ==> nodes == old(nodes)
      ensures changed ==> SlotsAt(nodes, a) == old(levels)[level].slots
      ensures changed ==> SizeAt(nodes, a) == NodeBytes(level, Count(old(levels)[level].slots, 0))
      ensures SizeAt(nodes, old(levels)[level].oldAddr) == NodeBytes(level, Count(old(levels)[level].before, 0))
      ensures SameAddrs(old(Tree()), Tree(), level) && BytesFrom(Tree(), level) == old(BytesFrom(Tree(), level))
      ensures Spent(start, base, levels, last, bytesRemoved + SizeAt(nodes, old(levels)[level].oldAddr))
    {
      var acc := levels[level];
      Close(level);
      changed, a := acc.before != acc.slots, 0;
      if changed { a := StoreNode(level, acc.prefix, acc.slots); }
    }

    /** The node is no longer collected; it has not been written yet. */
    method Close(level: nat)
      requires 0 < level <= TOP && Ok(level - 1) && levels[level].Active?
      modifies this`levels
      ensures Ok(level) && levels == old(levels)[level := Inactive]
      ensures SameAddrs(old(Tree()), Tree(), level) && BytesFrom(Tree(), level) == old(BytesFrom(Tree(), level))
      ensures var acc := old(levels)[level];
              && acc.prefix == last[level] && (level, acc.prefix) !in written
              && (acc.oldAddr != 0 ==> acc.oldAddr in nodes)
              && SizeAt(nodes, acc.oldAddr) == NodeBytes(level, Count(acc.before, 0))
              && Spent(start, base, levels, last, bytesRemoved + SizeAt(nodes, acc.oldAddr))
              && (acc.slots != NoSlots() ==> NodeOk(nodes, Inner(level, acc.prefix, acc.slots)))
    {
      ghost var before := Tree();
      assert LevelOk(before, base, last, level) && AddrFits(before, level, levels[level].prefix);
      if levels[level].slots != NoSlots() { CollectedOk(before, base, last, level); }
      SlotsSize(nodes, level, levels[level].oldAddr);
      ClosedSpent(before, base, last, start, bytesRemoved, level);
      KeepFrom(before, base, last, level);
      ClosedOk(before, base, last, level);
      forall m: nat, q: nat | level <= m <= TOP ensures Addr(Closed(before, level), m, q) == Addr(before, m, q) {
        ClosedAddr(before, level, m, q);
      }
      levels := levels[level := Inactive];
      BytesKept(before, Tree(), base, last, level);
    }

    /** `writeChangedNode` above the leaves. */
    method StoreNode(level: nat, p: nat, slots: seq<MapAddr>) returns (a: MapAddr)
      requires 0 < level <= TOP && Ok(level) && |slots| == SLOTS && levels[level].Inactive?
      requires last[level] == p && (level, p) !in written
      requires slots != NoSlots() ==> NodeOk(nodes, Inner(level, p, slots))
      modifies this`nodes, this`written
      ensures Ok(level) && Grown(old(nodes), nodes) && SameAddrs(old(Tree()), Tree(), level)
      ensures BytesFrom(Tree(), level) == old(BytesFrom(Tree(), level))
      ensures a != 0 ==> a in nodes && Fits(nodes[a], level, p)
      ensures SlotsAt(nodes, a) == slots && SizeAt(nodes, a) == NodeBytes(level, Count(slots, 0))
    {
      ghost var before := Tree();
      a := 0;
      if slots != NoSlots() {
        a := Append(Inner(level, p, slots), level);
        NewNode(start, before.nodes, a, nodes[a]);
        StoredOk(before, base, last, level, nodes);
        BytesKept(before, Tree(), base, last, level);
      }
      SlotsSize(nodes, level, a);
    }

    /** `oldRefs` of a leaf that nothing has touched yet. */
    method OldRefs(p: nat) returns (refs: seq<RecordRef>)
      requires Ok(0) && last[0] < p < Limit(0)
      ensures refs == RefsAt(nodes, Addr(Tree(), 0, p))
    {
      assert LevelOk(Tree(), base, last, 0);
      var at := NodeAddress(0, p);
      refs := RefsAt(nodes, at);
    }

    /** One leaf of the base tree now holds `refs`: `writeChangedLeaf` and the push that follows. */
    method ReplaceLeaf(p: nat, refs: seq<RecordRef>)
      requires Ok(0) && Tidy(Tree(), last, 1) && last[0] < p < Limit(0) && |refs| == SLOTS
      requires Rows(start) ==> RowOk(refs)
      modifies this
      ensures Ok(0) && Tidy(Tree(), last, 1) && last[0] == p && Grown(old(nodes), nodes)
      ensures LeafMoved(old(Tree()), Tree(), p, refs)
      ensures bytesAdded - bytesRemoved - BytesFrom(Tree(), 0) == old(bytesAdded - bytesRemoved - BytesFrom(Tree(), 0))
    {
      ghost var before := Tree();
      assert LevelOk(before, base, last, 0) && AddrFits(before, 0, p);
      var at := NodeAddress(0, p);
      var was := RefsAt(nodes, at);
      NextLeaf(before, base, last, p);
      LeafSpent(before, base, last, start, bytesRemoved, p);
      last := last[0 := p];
      if was != refs { WriteLeaf(p, refs, at, was); }
    }

    method WriteLeaf(p: nat, refs: seq<RecordRef>, at: MapAddr, was: seq<RecordRef>)
      requires Ok(0) && Tidy(Tree(), last, 1) && last[0] == p < Limit(0) && |refs| == SLOTS && (0, p) !in written
      requires at == Addr(Tree(), 0, p) && was == RefsAt(nodes, at) && AddrFits(Tree(), 0, p) && levels[0].Inactive?
      requires (Rows(start) ==> RowOk(refs)) && Spent(start, base, levels, last, bytesRemoved + SizeAt(nodes, at))
      modifies this
      ensures Ok(0) && Tidy(Tree(), last, 1) && last[0] == p && Grown(old(nodes), nodes)
      ensures LeafMoved(old(Tree()), Tree(), p, refs)
      ensures bytesAdded - bytesRemoved - BytesFrom(Tree(), 0) == old(bytesAdded - bytesRemoved - BytesFrom(Tree(), 0))
    {
      ghost var before := Tree();
      var a := StoreLeaf(p, refs);
      ghost var stored := Tree();
      RefsGrown(before.nodes, nodes, at);
      SizeGrown(before.nodes, nodes, at);
      DeliverLeaf(p, refs, at, was, a);
      LeafThen(before, stored, Tree(), p, refs);
    }

    /** The leaf, stored at `a`, takes the place of the one at `at`. */
    method DeliverLeaf(p: nat, refs: seq<RecordRef>, at: MapAddr, was: seq<RecordRef>, a: MapAddr)
      requires Ok(0) && Tidy(Tree(), last, 1) && last[0] == p < Limit(0) && levels[0].Inactive?
      requires at == Addr(Tree(), 0, p) && was == RefsAt(nodes, at) && (a != 0 ==> a in nodes && Fits(nodes[a], 0, p))
      requires RefsAt(nodes, a) == refs && SizeAt(nodes, a) == NodeBytes(0, Count(refs, ZERO_REF))
      requires Spent(start, base, levels, last, bytesRemoved + SizeAt(nodes, at))
      modifies this
      ensures Ok(0) && Tidy(Tree(), last, 1) && last[0] == p && Grown(old(nodes), nodes)
      ensures LeafMoved(old(Tree()), Tree(), p, refs)
      ensures bytesAdded - bytesRemoved - BytesFrom(Tree(), 0) == old(bytesAdded - bytesRemoved - BytesFrom(Tree(), 0))
    {
      assert AddrFits(Tree(), 0, p);
      RefsSize(nodes, at);
      Replace(0, p, a, NodeBytes(0, Count(refs, ZERO_REF)), NodeBytes(0, Count(was, ZERO_REF)));
      assert last[0] == last[..1][0];
      RefsGrown(old(nodes), nodes, a);
      LeafReplaced(old(Tree()), Tree(), p, a, refs);
    }

    method StoreLeaf(p: nat, refs: seq<RecordRef>) returns (a: MapAddr)
      requires Ok(0) && |refs| == SLOTS && (0, p) !in written && last[0] == p < Limit(0)
      requires Rows(start) ==> RowOk(refs)
      modifies this`nodes, this`written
      ensures Ok(0) && Grown(old(nodes), nodes) && SameAddrs(old(Tree()), Tree(), 0)
      ensures BytesFrom(Tree(), 0) == old(BytesFrom(Tree(), 0))
      ensures a != 0 ==> a in nodes && Fits(nodes[a], 0, p)
      ensures RefsAt(nodes, a) == refs && SizeAt(nodes, a) == NodeBytes(0, Count(refs, ZERO_REF))
    {
      ghost var before := Tree();
      assert LevelOk(before, base, last, 0);
      a := 0;
      if refs != NoRefs() {
        a := Append(Leaf(p, refs), 0);
        NewNode(start, before.nodes, a, nodes[a]);
        StoredOk(before, base, last, 0, nodes);
        BytesKept(before, Tree(), base, last, 0);
      }
      RefsSize(nodes, a);
    }

    /** The last flushes, bottom up: the accumulators are empty and the tree is stored. */
    method Finish()
      requires Ok(0) && Tidy(Tree(), last, 1)
      modifies this
      ensures Ok(0) && levels == NoLevels() && Grown(old(nodes), nodes)
      ensures SameLeaves(old(Tree()), Tree())
      ensures bytesAdded - bytesRemoved - BytesFrom(Tree(), 0) == old(bytesAdded - bytesRemoved - BytesFrom(Tree(), 0))
    {
      assert LevelOk(Tree(), base, last, 0);
      for level := 1 to TOP + 1
        invariant Ok(0) && Tidy(Tree(), last, level) && Grown(old(nodes), nodes)
        invariant forall m | 0 <= m < level :: levels[m].Inactive?
        invariant SameLeaves(old(Tree()), Tree())
        invariant bytesAdded - bytesRemoved - BytesFrom(Tree(), 0)
                  == old(bytesAdded - bytesRemoved - BytesFrom(Tree(), 0))
      {
        ghost var before, last0 := Tree(), last;
        LowerLevels(before, base, last, level);
        Flush(level);
        BelowFrom(before, Tree(), last0, last, level);
        FlushedBelow(before, Tree(), base, last0, last, level);
      }
      assert levels == NoLevels();
    }
  }
}
