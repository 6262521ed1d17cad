/** The on-disk form of a radix node (internal/mapstore/node.go): a 64-byte header, then either
    a bitmap with packed cells or 512 cells. Checksums are any functions of the bytes. */
module NodeCodec {
  import opened RecordLog
  import opened MappingGCState
  import opened Bytes
  import opened NodeBitmap
  import opened NodeView
  import Radix

  const NODE_HEADER := 64
  const BITMAP_BYTES := 64
  const BOUNDARY := 504
  const MAX_LEVEL := 7
  const FORMAT_VERSION := 3
  const NODE_MAGIC: Bytes := [0x52, 0x49, 0x44, 0x4D, 0x41, 0x50, 0x4E, 0x32]
  const SPARSE := 1
  const DENSE := 2

  datatype Build = Build(level: u8, nodeSeq: u64, prefix: u64, covered: u64, entries: seq<Entry>)

  predicate ValidPrefix(level: u8, prefix: u64) {
    level <= MAX_LEVEL && if level == MAX_LEVEL then prefix == 0 else prefix < Pow2(64 - 9 * (level + 1))
  }

  predicate ValidEntry(level: u8, e: Entry) {
    if e.value == 0 then level == 0 ==> e.size == 0
    else if level == 0 then ValidRef(RecordRef(e.value, e.size)) else e.size == 0 && ValidMapAddr(e.value)
  }

  predicate ValidEntries(level: u8, es: seq<Entry>) { forall i | 0 <= i < |es| :: ValidEntry(level, es[i]) }

  predicate TopEmpty(es: seq<Entry>) { forall i | 2 <= i < |es| :: es[i].value == 0 }

  function Occupied(es: seq<Entry>): nat { Count(Flags(es)) }

  /** What `EncodeNode` accepts. */
  predicate ValidBuild(b: Build) {
    && |b.entries| == SLOTS && b.nodeSeq != 0 && b.covered != 0 && ValidPrefix(b.level, b.prefix)
    && Occupied(b.entries) != 0 && (b.level == MAX_LEVEL ==> TopEmpty(b.entries)) && ValidEntries(b.level, b.entries)
  }

  function Cell(level: u8): nat { if level == 0 then 12 else 8 }

  /** k cells, without a product of two variables. */
  function CellsSize(level: u8, k: nat): nat { if level == 0 then 12 * k else 8 * k }

  function Align8(n: nat): nat { (n + 7) / 8 * 8 }

  /** `EncodedNodeSize`. */
  function NodeSize(level: u8, count: nat): nat {
    if count >= BOUNDARY then NODE_HEADER + CellsSize(level, SLOTS)
    else Align8(NODE_HEADER + BITMAP_BYTES + CellsSize(level, count))
  }

  /** The bytes the tree builder accounts for a node are the bytes its encoding takes. */
  lemma AccountedSize(level: u8, count: nat)
    requires 0 < count <= SLOTS
    ensures NodeSize(level, count) == Radix.NodeBytes(level, count)
  {
    if count < BOUNDARY { assert CellsSize(level, count) == count * Radix.EntryWidth(level); }
  }

  // ------------------------------------------------------------------------- payload

  function CellBytes(level: u8, e: Entry): (s: Bytes)
    ensures |s| == Cell(level)
  {
    LE(e.value, 8) + if level == 0 then LE(e.size, 4) else []
  }

  function Cells(level: u8, es: seq<Entry>): (s: Bytes)
    ensures |s| == CellsSize(level, |es|)
  {
    if es == [] then [] else CellBytes(level, es[0]) + Cells(level, es[1..])
  }

  function ReadCell(level: u8, s: Bytes): Entry
    requires |s| >= Cell(level)
  {
    Entry(U64(s[..8]), if level == 0 then U32(s[8..12]) else 0)
  }

  function ReadCells(level: u8, s: Bytes, count: nat): (es: seq<Entry>)
    requires |s| >= CellsSize(level, count)
    ensures |es| == count
    decreases count, |s|
  {
    if count == 0 then [] else [ReadCell(level, s)] + ReadCells(level, s[Cell(level)..], count - 1)
  }

  lemma CellRoundTrip(level: u8, e: Entry, rest: Bytes)
    requires level != 0 ==> e.size == 0
    ensures ReadCell(level, CellBytes(level, e) + rest) == e
  {
    var s := CellBytes(level, e) + rest;
    RoundTrips(0, e.size, e.value);
    assert s[..8] == LE(e.value, 8);
    if level == 0 { assert s[8..12] == LE(e.size, 4); }
  }

  predicate Sized(level: u8, es: seq<Entry>) { level != 0 ==> forall i | 0 <= i < |es| :: es[i].size == 0 }

  lemma ReadNext(level: u8, first: Bytes, tail: Bytes, count: nat)
    requires |first| == Cell(level) && count > 0 && |tail| >= CellsSize(level, count - 1)
    ensures ReadCells(level, first + tail, count) == [ReadCell(level, first + tail)] + ReadCells(level, tail, count - 1)
  {
    assert (first + tail)[Cell(level)..] == tail;
  }

  lemma {:induction false} CellsRoundTrip(level: u8, es: seq<Entry>, rest: Bytes)
    requires Sized(level, es)
    ensures ReadCells(level, Cells(level, es) + rest, |es|) == es
  {
    if es != [] {
      var tail := Cells(level, es[1..]) + rest;
      CellsCons(level, es, rest, tail);
      CellsRoundTrip(level, es[1..], rest);
      CellThenCells(level, es[0], tail, es[1..]);
      assert es == [es[0]] + es[1..];
    }
  }

  lemma CellThenCells(level: u8, e: Entry, tail: Bytes, es: seq<Entry>)
    requires level != 0 ==> e.size == 0
    requires |tail| >= CellsSize(level, |es|) && ReadCells(level, tail, |es|) == es
    ensures ReadCells(level, CellBytes(level, e) + tail, |es| + 1) == [e] + es
  {
    CellRoundTrip(level, e, tail);
    ReadNext(level, CellBytes(level, e), tail, |es| + 1);
  }

  lemma CellsCons(level: u8, es: seq<Entry>, rest: Bytes, tail: Bytes)
    requires es != [] && tail == Cells(level, es[1..]) + rest
    ensures Cells(level, es) + rest == CellBytes(level, es[0]) + tail
  {
  }

  function Words(ws: seq<u64>): (s: Bytes)
    ensures |s| == 8 * |ws|
  {
    if ws == [] then [] else LE(ws[0], 8) + Words(ws[1..])
  }

  function ReadWords(s: Bytes, count: nat): (ws: seq<u64>)
    requires |s| >= 8 * count
    ensures |ws| == count
    decreases count, |s|
  {
    if count == 0 then [] else [U64(s[..8])] + ReadWords(s[8..], count - 1)
  }

  lemma {:induction false} WordsRoundTrip(ws: seq<u64>, rest: Bytes)
    ensures ReadWords(Words(ws) + rest, |ws|) == ws
  {
    if ws != [] {
      var tail := Words(ws[1..]) + rest;
      assert Words(ws) + rest == LE(ws[0], 8) + tail;
      WordsRoundTrip(ws[1..], rest);
      ReadWord(ws[0], tail, |ws|);
      assert ws == [ws[0]] + ws[1..];
    }
  }

  lemma ReadWord(w: u64, tail: Bytes, count: nat)
    requires count > 0 && |tail| >= 8 * (count - 1)
    ensures ReadWords(LE(w, 8) + tail, count) == [w] + ReadWords(tail, count - 1)
  {
    var s := LE(w, 8) + tail;
    RoundTrips(0, 0, w);
    assert s[..8] == LE(w, 8) && s[8..] == tail;
  }

  // -------------------------------------------------------------------------- header

  datatype Header = Header(level: u8, encoding: u8, size: u32, nodeSeq: u64, prefix: u64, covered: u64, count: u16,
                           payloadSum: u32, headerSum: u32)

  function HeaderByte(h: Header, i: nat): u8
    requires i < NODE_HEADER
  {
    if i < 8 then NODE_MAGIC[i]
    else if i < 10 then LE(FORMAT_VERSION, 2)[i - 8]
    else if i < 11 then h.level
    else if i < 12 then h.encoding
    else if i < 16 then LE(h.size, 4)[i - 12]
    else if i < 24 then LE(h.nodeSeq, 8)[i - 16]
    else if i < 32 then LE(h.prefix, 8)[i - 24]
    else if i < 40 then LE(h.covered, 8)[i - 32]
    else if i < 42 then LE(h.count, 2)[i - 40]
    else if i < 44 then 0
    else if i < 48 then LE(h.payloadSum, 4)[i - 44]
    else if i < 52 then LE(h.headerSum, 4)[i - 48]
    else 0
  }

  function HeaderBytes(h: Header): (s: Bytes)
    ensures |s| == NODE_HEADER && forall i | 0 <= i < NODE_HEADER :: s[i] == HeaderByte(h, i)
  {
    seq(NODE_HEADER, i requires 0 <= i < NODE_HEADER => HeaderByte(h, i))
  }

  /** `headerChecksum`: the checksum field itself counts as zero. */
  function Unsummed(header: Bytes): Bytes
    requires |header| == NODE_HEADER
  {
    header[..48] + Zeros(4) + header[52..]
  }

  function ReadHeader(s: Bytes): Header
    requires |s| == NODE_HEADER
  {
    Header(s[10], s[11], U32(s[12..16]), U64(s[16..24]), U64(s[24..32]), U64(s[32..40]),
      U16(s[40..42]), U32(s[44..48]), U32(s[48..52]))
  }

  lemma HeaderSlices(h: Header)
    ensures var s := HeaderBytes(h);
            && s[12..16] == LE(h.size, 4) && s[16..24] == LE(h.nodeSeq, 8) && s[24..32] == LE(h.prefix, 8)
            && s[32..40] == LE(h.covered, 8) && s[40..42] == LE(h.count, 2) && s[44..48] == LE(h.payloadSum, 4)
            && s[48..52] == LE(h.headerSum, 4) && s[..8] == NODE_MAGIC && s[8..10] == LE(FORMAT_VERSION, 2)
            && s[42..44] == Zeros(2) && s[52..64] == Zeros(12)
  {
  }

  lemma HeaderRoundTrip(h: Header)
    ensures ReadHeader(HeaderBytes(h)) == h
  {
    HeaderSlices(h);
    RoundTrips(h.count, h.size, h.nodeSeq);
    RoundTrips(0, h.payloadSum, h.prefix);
    RoundTrips(0, h.headerSum, h.covered);
  }

  lemma UnsummedHeader(h: Header, sum: u32)
    ensures Unsummed(HeaderBytes(h.(headerSum := sum))) == Unsummed(HeaderBytes(h))
  {
  }

  // ---------------------------------------------------------------- encode and decode

  /** Empty slots are stored as zeroes. */
  function Normal(es: seq<Entry>): (ns: seq<Entry>)
    ensures |ns| == |es| && forall i | 0 <= i < |es| :: ns[i] == if es[i].value == 0 then EMPTY else es[i]
  {
    seq(|es|, i requires 0 <= i < |es| => if es[i].value == 0 then EMPTY else es[i])
  }

  predicate IsDense(b: Build) { Occupied(b.entries) >= BOUNDARY }

  /** The in-memory node a build stands for. */
  function NodeOf(b: Build): Node
    requires |b.entries| == SLOTS
  {
    var count := Occupied(b.entries);
    if IsDense(b) then Node(b.level, true, b.nodeSeq, b.prefix, b.covered, count, seq(WORDS, i => 0), Normal(b.entries))
    else Node(b.level, false, b.nodeSeq, b.prefix, b.covered, count, BitmapOf(Flags(b.entries)), Pack(b.entries))
  }

  /** Lookups on it (`NodeView.Lookup`, `NodeView.ExpandSparse`) see exactly the build's slots. */
  lemma NodeHolds(b: Build)
    requires ValidBuild(b)
    ensures Holds(NodeOf(b), Normal(b.entries))
    ensures forall slot: nat :: SlotOf(Normal(b.entries), slot) == SlotOf(b.entries, slot)
  {
    assert Flags(Normal(b.entries)) == Flags(b.entries);
    NormalPacks(b.entries);
  }

  lemma {:induction false} NormalPacks(es: seq<Entry>)
    ensures Pack(Normal(es)) == Pack(es)
  {
    if es != [] {
      NormalPacks(es[1..]);
      assert Normal(es)[1..] == Normal(es[1..]);
    }
  }

  function Payload(b: Build): (s: Bytes)
    requires |b.entries| == SLOTS
  {
    if IsDense(b) then Cells(b.level, Normal(b.entries))
    else
      var used := BITMAP_BYTES + CellsSize(b.level, Occupied(b.entries));
      Words(BitmapOf(Flags(b.entries))) + Cells(b.level, Pack(b.entries)) + Zeros(Align8(used) - used)
  }

  lemma Aligned(n: nat)
    ensures Align8(NODE_HEADER + n) == NODE_HEADER + Align8(n) && Align8(n) % 8 == 0 && n <= Align8(n) < n + 8
  {
  }

  lemma SizeBounds(level: u8, count: nat)
    requires count <= SLOTS
    ensures NODE_HEADER <= NodeSize(level, count) <= DENSE_NODE_SIZE && NodeSize(level, count) % 8 == 0
  {
  }

  lemma PayloadSize(b: Build)
    requires ValidBuild(b)
    ensures NODE_HEADER + |Payload(b)| == NodeSize(b.level, Occupied(b.entries))
  {
    var count := Occupied(b.entries);
    if !IsDense(b) {
      PackCounts(b.entries);
      Aligned(BITMAP_BYTES + CellsSize(b.level, count));
    }
  }

  function HeaderOf(b: Build, crc: Checksum): (h: Header)
    requires ValidBuild(b)
  {
    var count := Occupied(b.entries);
    SizeBounds(b.level, count);
    var h := Header(b.level, if IsDense(b) then DENSE else SPARSE, NodeSize(b.level, count),
                    b.nodeSeq, b.prefix, b.covered, count, crc(Payload(b)), 0);
    h.(headerSum := crc(Unsummed(HeaderBytes(h))))
  }

  /** `EncodeNode`. */
  function Encode(b: Build, crc: Checksum): Option<Bytes> {
    if ValidBuild(b) then Some(HeaderBytes(HeaderOf(b, crc)) + Payload(b)) else None
  }

  datatype Decoded = Decoded(node: Node, size: nat) | Corrupt | Unsupported

  /** `decodeNodeHeader`. */
  function DecodeHeader(src: Bytes, remaining: u32, crc: Checksum): (r: Decoded) {
    if |src| < NODE_HEADER then Corrupt else DecodeFields(src[..NODE_HEADER], remaining, crc)
  }

  function DecodeFields(s: Bytes, remaining: u32, crc: Checksum): (r: Decoded)
    requires |s| == NODE_HEADER
  {
    var h := ReadHeader(s);
    if s[..8] != NODE_MAGIC || h.headerSum != crc(Unsummed(s)) then Corrupt
    else if U16(s[8..10]) != FORMAT_VERSION then Unsupported
    else if s[42..44] != Zeros(2) || s[52..64] != Zeros(12) then Corrupt
    else Checked(h, remaining)
  }

  /** The checks of the decoded fields against each other and the room left. */
  function Checked(h: Header, remaining: u32): Decoded {
    if h.size < NODE_HEADER || h.size % 8 != 0 || h.size > remaining then Corrupt
    else if h.nodeSeq == 0 || h.covered == 0 || h.count == 0 || h.count > SLOTS
         || !ValidPrefix(h.level, h.prefix) then Corrupt
    else if h.encoding == SPARSE then
      if h.size != Align8(NODE_HEADER + BITMAP_BYTES + CellsSize(h.level, h.count)) then Corrupt
      else Decoded(Node(h.level, false, h.nodeSeq, h.prefix, h.covered, h.count, [], []), h.size)
    else if h.encoding == DENSE then
      if h.size != NODE_HEADER + CellsSize(h.level, SLOTS) then Corrupt
      else Decoded(Node(h.level, true, h.nodeSeq, h.prefix, h.covered, h.count, [], []), h.size)
    else Unsupported
  }

  function BitmapCount(words: seq<u64>): nat { RankSum(words, |words|) }

  predicate TopBitmapEmpty(words: seq<u64>)
    requires |words| == WORDS
  {
    words[0] / 4 == 0 && forall w | 1 <= w < WORDS :: words[w] == 0
  }

  /** The two payload forms of `DecodeNode`. */
  function DecodePayload(n: Node, payload: Bytes): Option<Node> {
    if n.dense then
      if |payload| < CellsSize(n.level, SLOTS) then None
      else
        var es := ReadCells(n.level, payload, SLOTS);
        if Occupied(es) != n.count || (n.level == MAX_LEVEL && !TopEmpty(es)) || !ValidEntries(n.level, es) then None
        else Some(n.(bitmap := seq(WORDS, i => 0), entries := es))
    else
      if |payload| < BITMAP_BYTES + CellsSize(n.level, n.count) then None
      else
        var words := ReadWords(payload, WORDS);
        if BitmapCount(words) != n.count || (n.level == MAX_LEVEL && !TopBitmapEmpty(words)) then None
        else
          var es := ReadCells(n.level, payload[BITMAP_BYTES..], n.count);
          if ValidEntries(n.level, es) then Some(n.(bitmap := words, entries := es)) else None
  }

  /** `DecodeNode`. */
  function Decode(src: Bytes, remaining: u32, crc: Checksum): Decoded {
    match DecodeHeader(src, remaining, crc)
    case Decoded(n, size) =>
      if size > |src| || size < NODE_HEADER then Corrupt
      else
        var payload := src[NODE_HEADER..size];
        if crc(payload) != U32(src[44..48]) then Corrupt
        else
          var r := DecodePayload(n, payload);
          if r.Some? then Decoded(r.value, size) else Corrupt
    case bad => bad
  }

  // ---------------------------------------------------------------------- round trip

  lemma EncodedFields(b: Build, crc: Checksum, s: Bytes)
    requires ValidBuild(b) && s == HeaderBytes(HeaderOf(b, crc))
    ensures ReadHeader(s) == HeaderOf(b, crc) && s[..8] == NODE_MAGIC && HeaderOf(b, crc).headerSum == crc(Unsummed(s))
    ensures U16(s[8..10]) == FORMAT_VERSION && s[42..44] == Zeros(2)
    ensures s[52..64] == Zeros(12) && U32(s[44..48]) == crc(Payload(b))
  {
    var h := HeaderOf(b, crc);
    HeaderSlices(h);
    HeaderRoundTrip(h);
    UnsummedHeader(h, 0);
    RoundTrips(FORMAT_VERSION, h.payloadSum, 0);
  }

  lemma EncodedHeader(b: Build, crc: Checksum, src: Bytes, remaining: u32)
    requires ValidBuild(b) && |src| >= NODE_HEADER && src[..NODE_HEADER] == HeaderBytes(HeaderOf(b, crc))
    requires remaining >= NodeSize(b.level, Occupied(b.entries))
    ensures var count := Occupied(b.entries);
            DecodeHeader(src, remaining, crc)
              == Decoded(Node(b.level, IsDense(b), b.nodeSeq, b.prefix, b.covered, count, [], []),
                 NodeSize(b.level, count))
    ensures U32(src[44..48]) == crc(Payload(b))
  {
    EncodedFields(b, crc, src[..NODE_HEADER]);
    HeaderChecked(b, crc, remaining);
    assert src[44..48] == src[..NODE_HEADER][44..48];
  }

  lemma HeaderChecked(b: Build, crc: Checksum, remaining: u32)
    requires ValidBuild(b) && remaining >= NodeSize(b.level, Occupied(b.entries))
    ensures var count := Occupied(b.entries);
            Checked(HeaderOf(b, crc), remaining)
              == Decoded(Node(b.level, IsDense(b), b.nodeSeq, b.prefix, b.covered, count, [], []),
                         NodeSize(b.level, count))
  {
    SizeBounds(b.level, Occupied(b.entries));
  }

  lemma PackedAreValid(level: u8, es: seq<Entry>)
    requires ValidEntries(level, es)
    ensures ValidEntries(level, Pack(es)) && Sized(level, Pack(es))
  {
    PackedFrom(es);
  }

  lemma {:induction false} PackedFrom(es: seq<Entry>)
    ensures forall i | 0 <= i < |Pack(es)| :: Pack(es)[i] in es && Pack(es)[i].value != 0
  {
    if es != [] { PackedFrom(es[1..]); }
  }

  lemma TopBitmap(es: seq<Entry>)
    requires |es| == SLOTS && TopEmpty(es)
    ensures TopBitmapEmpty(BitmapOf(Flags(es)))
  {
    var flags := Flags(es);
    forall w | 1 <= w < WORDS ensures BitmapOf(flags)[w] == 0 { AllClear(Part(flags, w)); }
    var part := Part(flags, 0);
    Halves(part);
    Halves(part[1..]);
    AllClear(part[1..][1..]);
  }

  lemma {:induction false} AllClear(flags: seq<bool>)
    requires forall i | 0 <= i < |flags| :: !flags[i]
    ensures WordOf(flags) == 0
  {
    if flags != [] { AllClear(flags[1..]); }
  }

  lemma EncodedSparse(b: Build, n: Node)
    requires ValidBuild(b) && !IsDense(b)
    requires n == Node(b.level, false, b.nodeSeq, b.prefix, b.covered, Occupied(b.entries), [], [])
    ensures DecodePayload(n, Payload(b)) == Some(NodeOf(b))
  {
    var es, flags := b.entries, Flags(b.entries);
    var words, cells := BitmapOf(flags), Cells(b.level, Pack(es));
    var payload := Payload(b);
    var pad := payload[BITMAP_BYTES + |cells|..];
    PackCounts(es);
    assert payload == Words(words) + (cells + pad);
    WordsRoundTrip(words, cells + pad);
    assert payload[BITMAP_BYTES..] == cells + pad;
    PackedAreValid(b.level, es);
    CellsRoundTrip(b.level, Pack(es), pad);
    RankSumIsCount(flags, words, WORDS);
    assert flags[..SLOTS] == flags;
    if b.level == MAX_LEVEL { TopBitmap(es); }
  }

  lemma EncodedDense(b: Build, n: Node)
    requires ValidBuild(b) && IsDense(b)
    requires n == Node(b.level, true, b.nodeSeq, b.prefix, b.covered, Occupied(b.entries), [], [])
    ensures DecodePayload(n, Payload(b)) == Some(NodeOf(b))
  {
    var es := Normal(b.entries);
    CellsRoundTrip(b.level, es, []);
    assert Payload(b) + [] == Payload(b);
    assert Flags(es) == Flags(b.entries);
  }

  /** Decoding an encoded node, with anything after it, gives the node back and its exact size;
      it is refused exactly when the segment ends before the node does. */
  lemma DecodeEncode(b: Build, rest: Bytes, remaining: u32, crc: Checksum)
    requires ValidBuild(b)
    ensures var s := Encode(b, crc).value;
            && |s| == NodeSize(b.level, Occupied(b.entries))
            && Decode(s + rest, remaining, crc) == if remaining >= |s| then Decoded(NodeOf(b), |s|) else Corrupt
  {
    var s, count := Encode(b, crc).value, Occupied(b.entries);
    var src := s + rest;
    PayloadSize(b);
    assert src[..NODE_HEADER] == HeaderBytes(HeaderOf(b, crc));
    assert src[NODE_HEADER..|s|] == Payload(b);
    if remaining >= |s| {
      EncodedHeader(b, crc, src, remaining);
      var n := Node(b.level, IsDense(b), b.nodeSeq, b.prefix, b.covered, count, [], []);
      if IsDense(b) { EncodedDense(b, n); } else { EncodedSparse(b, n); }
    } else {
      TooLong(b, crc, src, remaining);
    }
  }

  lemma TooLong(b: Build, crc: Checksum, src: Bytes, remaining: u32)
    requires ValidBuild(b) && |src| >= NODE_HEADER && src[..NODE_HEADER] == HeaderBytes(HeaderOf(b, crc))
    requires remaining < NodeSize(b.level, Occupied(b.entries))
    ensures DecodeHeader(src, remaining, crc) == Corrupt
  {
    EncodedFields(b, crc, src[..NODE_HEADER]);
  }
}
