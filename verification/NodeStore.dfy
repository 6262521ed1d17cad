/** Lookups in a tree whose nodes are bytes: the descent of internal/radix/tree.go over the
    encoding of internal/mapstore/node.go. */
module NodeStore {
  import opened RecordLog
  import opened Mapping
  import opened Bytes
  import opened NodeView
  import opened NodeCodec
  import B = NodeBitmap
  import G = MappingGCState
  import R = Radix
  import W = RadixWalk
  import RadixBuilder

  /** What can be read at an address: the bytes up to the end of the segment's data. */
  datatype Page = Page(bytes: Bytes, remaining: u32)
  type Pages = map<R.MapAddr, Page>
  type Builds = map<R.MapAddr, Build>

  /** The build has the node's place and slots. */
  predicate Carries(b: Build, n: R.Node) {
    && |b.entries| == R.SLOTS && b.level == RadixBuilder.LevelOf(n) && b.prefix == n.prefix
    && if n.Leaf?
       then && |n.refs| == R.SLOTS
            && forall i | 0 <= i < R.SLOTS :: b.entries[i] == Entry(n.refs[i].addr, n.refs[i].size)
       else |n.slots| == R.SLOTS && forall i | 0 <= i < R.SLOTS :: b.entries[i].value == n.slots[i]
  }

  /** The page begins with the encoded build and has room for it. */
  predicate Holds(page: Page, b: Build, crc: Checksum) {
    ValidBuild(b) && var s := Encode(b, crc).value; s <= page.bytes && |s| <= page.remaining
  }

  /** Every node of the store is on a page, written no later than the covered sequence. */
  ghost predicate Written(pages: Pages, nodes: R.Nodes, builds: Builds, covered: u64, crc: Checksum) {
    forall a: R.MapAddr | Known(nodes, a) ::
      a in pages && a in builds && OnPage(pages[a], nodes[a], builds[a], covered, crc)
  }

  predicate Known(nodes: R.Nodes, a: R.MapAddr) { a in nodes }

  predicate OnPage(page: Page, n: R.Node, b: Build, covered: u64, crc: Checksum) {
    Carries(b, n) && Holds(page, b, crc) && b.covered <= covered
  }

  // ------------------------------------------------------------------------ writing

  lemma {:induction false} PrefixRange(level: nat)
    requires level < R.TOP
    ensures R.Limit(level) == B.Pow2(64 - 9 * (level + 1))
    decreases R.TOP - level
  {
    if level == R.TOP - 1 {
      assert B.Pow2(1) == 2 * B.Pow2(0);
    } else {
      PrefixRange(level + 1);
      Pow512(64 - 9 * (level + 2));
    }
  }

  lemma Pow512(n: nat)
    ensures B.Pow2(n + 9) == 512 * B.Pow2(n)
  {
    assert B.Pow2(n + 3) == 2 * B.Pow2(n + 2) == 4 * B.Pow2(n + 1) == 8 * B.Pow2(n);
    assert B.Pow2(n + 6) == 2 * B.Pow2(n + 5) == 4 * B.Pow2(n + 4) == 8 * B.Pow2(n + 3);
    assert B.Pow2(n + 9) == 2 * B.Pow2(n + 8) == 4 * B.Pow2(n + 7) == 8 * B.Pow2(n + 6);
  }

  /** Where nodes are stored: in the mapping log. */
  ghost predicate Addresses(nodes: R.Nodes) {
    forall a: R.MapAddr | Known(nodes, a) :: a <= MAX64 && G.ValidMapAddr(a)
  }

  function SlotEntry(a: R.MapAddr): Entry { if a <= MAX64 then Entry(a, 0) else EMPTY }

  function EntriesOf(n: R.Node): (es: seq<Entry>)
    ensures |es| == if n.Leaf? then |n.refs| else |n.slots|
  {
    if n.Leaf? then seq(|n.refs|, i requires 0 <= i < |n.refs| => Entry(n.refs[i].addr, n.refs[i].size))
    else seq(|n.slots|, i requires 0 <= i < |n.slots| => SlotEntry(n.slots[i]))
  }

  /** What `NodeStore.Append` encodes. */
  function BuildOf(n: R.Node, nodeSeq: u64, covered: u64): Build
    requires RadixBuilder.LevelOf(n) <= R.TOP && n.prefix <= MAX64
  {
    Build(RadixBuilder.LevelOf(n), nodeSeq, n.prefix, covered, EntriesOf(n))
  }

  lemma PlaceIsValid(n: R.Node)
    requires RadixBuilder.LevelOf(n) <= R.TOP && n.prefix < R.Limit(RadixBuilder.LevelOf(n))
    ensures n.prefix <= MAX64 && ValidPrefix(RadixBuilder.LevelOf(n), n.prefix)
  {
    var level := RadixBuilder.LevelOf(n);
    if level < R.TOP {
      PrefixRange(level);
      LimitFits(level);
    }
  }

  lemma {:induction false} LimitFits(level: nat)
    requires level <= R.TOP
    ensures R.Limit(level) <= R.Limit(0) <= MAX64
    decreases level
  {
    if level > 0 { LimitFits(level - 1); } else { assert R.Limit(level) == 0x80_0000_0000_0000; }
  }

  lemma {:induction false} SomeOccupied(es: seq<Entry>, i: nat)
    requires i < |es| && es[i].value != 0
    ensures Occupied(es) > 0
  {
    assert Flags(es)[i];
    SomeCounted(Flags(es), i);
  }

  lemma {:induction false} SomeCounted(flags: seq<bool>, i: nat)
    requires i < |flags| && flags[i]
    ensures B.Count(flags) > 0
    decreases i
  {
    if i > 0 { SomeCounted(flags[1..], i - 1); }
  }

  /** A node that a build appends can be encoded. */
  lemma CanBeWritten(nodes: R.Nodes, n: R.Node, nodeSeq: u64, covered: u64)
    requires RadixBuilder.NodeOk(nodes, n) && (n.Leaf? ==> RadixBuilder.RowOk(n.refs)) && Addresses(nodes)
    requires nodeSeq != 0 && covered != 0
    ensures n.prefix <= MAX64 && ValidBuild(BuildOf(n, nodeSeq, covered)) && Carries(BuildOf(n, nodeSeq, covered), n)
  {
    PlaceIsValid(n);
    var es, level := EntriesOf(n), RadixBuilder.LevelOf(n);
    forall i | 0 <= i < R.SLOTS ensures ValidEntry(level, es[i]) && (n.Inner? ==> es[i].value == n.slots[i]) {
      if n.Leaf? {
        assert n.refs[i] in n.refs;
      } else {
        assert n.slots[i] in n.slots && (n.slots[i] == 0 || Known(nodes, n.slots[i]));
      }
    }
    var i := FullSlot(n);
    SomeOccupied(es, i);
  }

  lemma FullSlot(n: R.Node) returns (i: nat)
    requires R.Fits(n, RadixBuilder.LevelOf(n), n.prefix) && (n.Leaf? ==> RadixBuilder.RowOk(n.refs))
    ensures i < R.SLOTS && if n.Leaf? then n.refs[i].addr != 0 else n.slots[i] != 0
  {
    if n.Leaf? {
      i :| 0 <= i < R.SLOTS && n.refs[i] != ZERO_REF;
      assert n.refs[i] in n.refs;
    } else {
      i :| 0 <= i < R.SLOTS && n.slots[i] != 0;
    }
  }

  lemma RowsWritten(pages: Pages, nodes: R.Nodes, builds: Builds, covered: u64, crc: Checksum)
    requires Written(pages, nodes, builds, covered, crc)
    ensures RadixBuilder.Rows(nodes)
  {
    forall a <- nodes | nodes[a].Leaf? ensures RadixBuilder.RowOk(nodes[a].refs) {
      assert Known(nodes, a) && OnPage(pages[a], nodes[a], builds[a], covered, crc);
      forall r <- nodes[a].refs ensures r == ZERO_REF || ValidRef(r) {
        var i :| 0 <= i < R.SLOTS && nodes[a].refs[i] == r;
        LeafSlot(builds[a], nodes[a], i);
      }
    }
  }

  /** The appended nodes are on the pages as they were encoded for this build. */
  ghost predicate Appended(pages: Pages, start: R.Nodes, nodes: R.Nodes, seqs: map<R.MapAddr, u64>, covered: u64,
                           crc: Checksum) {
    forall a: R.MapAddr | Known(nodes, a) && a !in start ::
      && a in pages && a in seqs && seqs[a] != 0 && nodes[a].prefix <= MAX64 && RadixBuilder.LevelOf(nodes[a]) <= R.TOP
      && Starts(pages[a], Encode(BuildOf(nodes[a], seqs[a], covered), crc))
  }

  predicate Starts(page: Page, s: Option<Bytes>) { s.Some? ==> s.value <= page.bytes && |s.value| <= page.remaining }

  function BuildsAfter(builds: Builds, nodes: R.Nodes, start: R.Nodes, seqs: map<R.MapAddr, u64>, covered: u64)
    : Builds
  {
    builds + map a | a in nodes && a !in start && a in seqs && nodes[a].prefix <= MAX64
                     && RadixBuilder.LevelOf(nodes[a]) <= R.TOP :: BuildOf(nodes[a], seqs[a], covered)
  }

  /** A build leaves a store whose nodes are all on pages: every node it appends is one that the
      encoder takes, and the pages of the old ones are not touched. */
  lemma BuildIsWritten(pages: Pages, start: R.Nodes, builds: Builds, covered0: u64, pages2: Pages, nodes: R.Nodes,
                       seqs: map<R.MapAddr, u64>, covered: u64, crc: Checksum)
    requires Written(pages, start, builds, covered0, crc) && RadixBuilder.NewNodesOk(start, nodes)
    requires Addresses(nodes) && covered0 <= covered && covered != 0
    requires Appended(pages2, start, nodes, seqs, covered, crc)
    requires forall a: R.MapAddr | Known(start, a) && a in pages :: a in pages2 && pages2[a] == pages[a]
    ensures Written(pages2, nodes, BuildsAfter(builds, nodes, start, seqs, covered), covered, crc)
  {
    var after := BuildsAfter(builds, nodes, start, seqs, covered);
    RowsWritten(pages, start, builds, covered0, crc);
    forall a: R.MapAddr | Known(nodes, a)
      ensures a in pages2 && a in after && OnPage(pages2[a], nodes[a], after[a], covered, crc)
    {
      if a in start {
        assert Known(start, a) && OnPage(pages[a], start[a], builds[a], covered0, crc);
      } else {
        NewOnPage(pages2[a], nodes, nodes[a], seqs[a], covered, crc);
      }
    }
  }

  lemma NewOnPage(page: Page, nodes: R.Nodes, n: R.Node, nodeSeq: u64, covered: u64, crc: Checksum)
    requires RadixBuilder.NodeOk(nodes, n) && (n.Leaf? ==> RadixBuilder.RowOk(n.refs)) && Addresses(nodes)
    requires nodeSeq != 0 && covered != 0 && n.prefix <= MAX64
    requires Starts(page, Encode(BuildOf(n, nodeSeq, covered), crc))
    ensures OnPage(page, n, BuildOf(n, nodeSeq, covered), covered, crc)
  {
    CanBeWritten(nodes, n, nodeSeq, covered);
  }

  // ------------------------------------------------------------------------ reading

  /** `load`: decode the node and check that it is the one expected. */
  method Load(page: Page, level: nat, prefix: nat, covered: u64, crc: Checksum, ghost b: Build)
    returns (n: Option<Node>)
    requires Holds(page, b, crc)
    ensures n.Some? <==> b.level == level && b.prefix == prefix && b.covered <= covered
    ensures n.Some? ==> n.value == NodeOf(b)
  {
    ghost var s := Encode(b, crc).value;
    DecodeEncode(b, page.bytes[|s|..], page.remaining, crc);
    assert page.bytes == s + page.bytes[|s|..];
    var d := Decode(page.bytes, page.remaining, crc);
    if !d.Decoded? || d.node.level != level || d.node.prefix != prefix || d.node.covered > covered { return None; }
    return Some(d.node);
  }

  /** Reading one slot of a node on its page. */
  method ReadSlot(page: Page, level: nat, prefix: nat, slot: nat, covered: u64, crc: Checksum, ghost b: Build)
    returns (found: bool, r: Option<Entry>)
    requires Holds(page, b, crc) && slot < R.SLOTS
    ensures found <==> b.level == level && b.prefix == prefix && b.covered <= covered
    ensures found ==> r == SlotOf(b.entries, slot)
  {
    var n := Load(page, level, prefix, covered, crc, b);
    if n.None? { return false, None; }
    NodeHolds(b);
    r := Lookup(n.value, slot, Normal(b.entries));
    return true, r;
  }

  /** What a slot of the encoded node says of the tree's node. */
  lemma InnerSlot(b: Build, n: R.Node, slot: nat)
    requires Carries(b, n) && n.Inner? && slot < R.SLOTS
    ensures SlotOf(b.entries, slot) == if n.slots[slot] == 0 then None else Some(b.entries[slot])
    ensures b.entries[slot].value == n.slots[slot]
  {
  }

  lemma LeafSlot(b: Build, n: R.Node, slot: nat)
    requires Carries(b, n) && n.Leaf? && ValidBuild(b) && slot < R.SLOTS
    ensures var e := SlotOf(b.entries, slot);
            if n.refs[slot] == ZERO_REF then e.None?
            else e.Some? && RecordRef(e.value.value, e.value.size) == n.refs[slot] && ValidRef(n.refs[slot])
  {
    assert ValidEntry(0, b.entries[slot]);
  }

  // ------------------------------------------------------------------------- lookup

  /** One step of the descent. */
  method Descend(pages: Pages, a: R.MapAddr, level: nat, id: ID, covered: u64, crc: Checksum,
                 ghost nodes: R.Nodes, ghost builds: Builds) returns (child: R.MapAddr)
    requires Written(pages, nodes, builds, covered, crc) && 0 < level <= R.TOP
    requires a in nodes && R.Fits(nodes[a], level, R.NodePrefix(id, level)) && R.NodeSlot(id, level) < R.SLOTS
    ensures child == R.SlotsAt(nodes, a)[R.NodeSlot(id, level)]
  {
    var slot := R.NodeSlot(id, level);
    assert Known(nodes, a) && OnPage(pages[a], nodes[a], builds[a], covered, crc);
    var found, e := ReadSlot(pages[a], level, R.NodePrefix(id, level), slot, covered, crc, builds[a]);
    InnerSlot(builds[a], nodes[a], slot);
    return if e.Some? then e.value.value else 0;
  }

  /** The last step. */
  method ReadRef(pages: Pages, a: R.MapAddr, level: nat, id: ID, covered: u64, crc: Checksum,
                 ghost nodes: R.Nodes, ghost builds: Builds) returns (ref: RecordRef)
    requires Written(pages, nodes, builds, covered, crc) && level == 0
    requires a in nodes && R.Fits(nodes[a], level, R.NodePrefix(id, level)) && R.NodeSlot(id, level) < R.SLOTS
    ensures ref == R.RefsAt(nodes, a)[R.NodeSlot(id, level)] && (ref != ZERO_REF ==> ValidRef(ref))
  {
    assert Known(nodes, a) && OnPage(pages[a], nodes[a], builds[a], covered, crc);
    var found, e := ReadSlot(pages[a], level, R.NodePrefix(id, level), R.NodeSlot(id, level), covered, crc, builds[a]);
    LeafSlot(builds[a], nodes[a], R.NodeSlot(id, level));
    return if e.Some? then RecordRef(e.value.value, e.value.size) else ZERO_REF;
  }

  lemma SlotsInRange(id: ID, level: nat)
    requires level <= R.TOP
    ensures R.NodeSlot(id, level) < R.SLOTS
  {
    if level == R.TOP { R.PrefixSteps(id, R.TOP - 1); }
  }

  /** The node of the tree that a lookup of the ID meets at a level. */
  ghost function NodeOn(nodes: R.Nodes, root: R.MapAddr, level: nat, id: ID): R.MapAddr
    requires level <= R.TOP
  {
    R.Addr(R.Stored(nodes, root), level, R.NodePrefix(id, level))
  }

  /** What the map that the tree denotes says of the ID. */
  ghost function Expected(nodes: R.Nodes, root: R.MapAddr, id: ID): W.Found {
    var t := R.Contents(R.Stored(nodes, root));
    if id == 0 then W.BadID else if id in t then W.Present(t[id]) else W.Absent
  }

  lemma AtRoot(nodes: R.Nodes, root: R.MapAddr, level: nat, id: ID)
    requires R.Proper(R.Stored(nodes, root)) && id != 0 && level == R.TOP
    ensures NodeOn(nodes, root, level, id) == root
    ensures root == 0 ==> Expected(nodes, root, id) == W.Absent
  {
    if root == 0 {
      RadixBuilder.NothingBelow(nodes, 0, id / R.SLOTS);
      assert R.RefOf(R.Stored(nodes, root), id) == ZERO_REF;
    }
  }

  lemma AtLevel(nodes: R.Nodes, root: R.MapAddr, level: nat, id: ID)
    requires R.Proper(R.Stored(nodes, root)) && id != 0 && 0 < level <= R.TOP && NodeOn(nodes, root, level, id) != 0
    ensures var a := NodeOn(nodes, root, level, id);
            && a in nodes && R.Fits(nodes[a], level, R.NodePrefix(id, level)) && R.NodeSlot(id, level) < R.SLOTS
            && NodeOn(nodes, root, level - 1, id) == R.SlotsAt(nodes, a)[R.NodeSlot(id, level)]
    ensures NodeOn(nodes, root, level - 1, id) == 0 ==> Expected(nodes, root, id) == W.Absent
  {
    var f := R.Stored(nodes, root);
    assert R.AddrFits(f, level, R.NodePrefix(id, level));
    R.PrefixSteps(id, level - 1);
    SlotsInRange(id, level);
    assert R.View(f, level, R.NodePrefix(id, level)) == R.SlotsAt(nodes, NodeOn(nodes, root, level, id));
    if NodeOn(nodes, root, level - 1, id) == 0 {
      W.ZeroBelow(f, level - 1, id);
      assert R.RefOf(f, id) == ZERO_REF;
    }
  }

  lemma AtLeaf(nodes: R.Nodes, root: R.MapAddr, level: nat, id: ID)
    requires R.Proper(R.Stored(nodes, root)) && id != 0 && level == 0 && NodeOn(nodes, root, level, id) != 0
    ensures var a := NodeOn(nodes, root, level, id);
            && a in nodes && R.Fits(nodes[a], level, R.NodePrefix(id, level)) && R.NodeSlot(id, level) < R.SLOTS
            && var ref := R.RefsAt(nodes, a)[R.NodeSlot(id, level)];
               Expected(nodes, root, id) == if ref == ZERO_REF then W.Absent else W.Present(ref)
  {
    R.PrefixSteps(id, 0);
    assert R.AddrFits(R.Stored(nodes, root), 0, R.NodePrefix(id, 0));
    SlotsInRange(id, 0);
    assert R.RefOf(R.Stored(nodes, root), id) == R.RefsAt(nodes, NodeOn(nodes, root, 0, id))[R.NodeSlot(id, 0)];
  }

  /** From one level to the next. */
  method Step(pages: Pages, a: R.MapAddr, level: nat, id: ID, covered: u64, crc: Checksum,
              ghost nodes: R.Nodes, ghost builds: Builds, ghost root: R.MapAddr) returns (child: R.MapAddr)
    requires R.Proper(R.Stored(nodes, root)) && Written(pages, nodes, builds, covered, crc) && id != 0
    requires 0 < level <= R.TOP && a == NodeOn(nodes, root, level, id) && a != 0
    ensures child == NodeOn(nodes, root, level - 1, id) && (child == 0 ==> Expected(nodes, root, id) == W.Absent)
  {
    AtLevel(nodes, root, level, id);
    child := Descend(pages, a, level, id, covered, crc, nodes, builds);
  }

  /** The answer of the leaf. */
  method Last(pages: Pages, a: R.MapAddr, level: nat, id: ID, covered: u64, crc: Checksum,
              ghost nodes: R.Nodes, ghost builds: Builds, ghost root: R.MapAddr) returns (r: W.Found)
    requires R.Proper(R.Stored(nodes, root)) && Written(pages, nodes, builds, covered, crc) && id != 0
    requires level == 0 && a == NodeOn(nodes, root, level, id) && a != 0
    ensures r == Expected(nodes, root, id)
  {
    AtLeaf(nodes, root, level, id);
    var ref := ReadRef(pages, a, level, id, covered, crc, nodes, builds);
    return if ref == ZERO_REF then W.Absent else W.Present(ref);
  }

  /** `LookupRef` on bytes: decoding one node per level from the root answers what the tree's map
      answers, and no node is found corrupt. */
  method LookupRef(pages: Pages, root: R.MapAddr, id: ID, covered: u64, crc: Checksum, ghost nodes: R.Nodes,
                   ghost builds: Builds)
    returns (r: W.Found)
    requires R.Proper(R.Stored(nodes, root)) && Written(pages, nodes, builds, covered, crc)
    ensures r == Expected(nodes, root, id)
  {
    if id == 0 { return W.BadID; }
    var a: R.MapAddr, level: nat := root, R.TOP;
    AtRoot(nodes, root, level, id);
    if a == 0 { return W.Absent; }
    while level > 0
      invariant level <= R.TOP && a == NodeOn(nodes, root, level, id) && a != 0
    {
      a := Step(pages, a, level, id, covered, crc, nodes, builds, root);
      if a == 0 { return W.Absent; }
      level := level - 1;
    }
    r := Last(pages, a, level, id, covered, crc, nodes, builds, root);
  }
}
