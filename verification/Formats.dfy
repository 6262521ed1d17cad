/** The on-disk formats byte by byte: what the encoders write at which offset
    (internal/recordlog/format.go, internal/recordcodec/codec.go, internal/mapstore/node.go). */
module Formats {
  import opened RecordLog
  import opened Bytes
  import opened Mapping
  import T = TornTail
  import G = CommitGroupCodec
  import N = NodeCodec
  import E = NodeView
  import NodeBitmap

  // ------------------------------------------------------------------------- records

  predicate RecordHead(s: Bytes, size: nat, payload: nat, addr: VAddr, payloadSum: u32, headerSum: u32) {
    && |s| == 32 && s[..4] == [0x52, 0x32, 0x52, 0x43] && U16(s[4..6]) == 2 && U16(s[6..8]) == 32
    && U32(s[8..12]) == size && U32(s[12..16]) == payload && U64(s[16..24]) == addr
    && U32(s[24..28]) == payloadSum && U32(s[28..32]) == headerSum
  }

  lemma RecordHeadWritten(h: T.Header)
    ensures RecordHead(T.HeaderBytes(h), h.size, h.payload, h.addr, h.payloadSum, h.headerSum)
  {
    T.HeaderSlices(h);
    RoundTrips(2, h.size, h.addr);
    RoundTrips(32, h.payload, 0);
    RoundTrips(0, h.payloadSum, 0);
    RoundTrips(0, h.headerSum, 0);
  }

  /** A record is its header, its payload and less than eight bytes of padding. */
  lemma RecordLayout(addr: VAddr, payload: Bytes, crc: Checksum)
    requires T.SizeFor(|payload|) < 0x1_0000_0000
    ensures var s := T.RecordBytes(addr, payload, crc);
            && |s| % 8 == 0 && 32 + |payload| <= |s| < 32 + |payload| + 8
            && RecordHead(s[..32], |s|, |payload|, addr, crc(payload), crc(s[..28]))
            && s[32..32 + |payload|] == payload && forall i | 32 + |payload| <= i < |s| :: s[i] == 0
  {
    var s, h := T.RecordBytes(addr, payload, crc), T.HeaderOf(addr, payload, crc);
    var head := T.HeaderBytes(h);
    RecordHeadWritten(h);
    assert s[..32] == head;
    assert s[..28] == head[..28] == T.HeaderBytes(h.(headerSum := 0))[..28];
    PaddedEnd(s, head + payload, |s| - 32 - |payload|);
  }

  lemma PaddedEnd(s: Bytes, front: Bytes, n: nat)
    requires s == front + Zeros(n)
    ensures forall i | |front| <= i < |s| :: s[i] == 0
  {
  }

  // ------------------------------------------------------------------- commit groups

  predicate GroupFront(s: Bytes, size: nat, count: nat, mutations: nat, first: u64) {
    && |s| == 32 && s[..4] == [0x52, 0x53, 0x50, 0x32] && U16(s[4..6]) == 3 && s[6] == 2 && s[7] == 0
    && U16(s[8..10]) == 32 && U16(s[10..12]) == 0 && U32(s[12..16]) == size
    && U32(s[16..20]) == count && U32(s[20..24]) == mutations && U64(s[24..32]) == first
  }

  lemma GroupLayout(ds: seq<G.Descriptor>, max: nat)
    requires G.Encodable(ds, max)
    ensures var s := G.Encode(ds, max).value;
            |s| >= 32 && GroupFront(s[..32], |s|, |ds|, G.TotalMutations(ds), ds[0].commitSeq)
  {
    var s, h := G.Encode(ds, max).value, G.GroupHeadOf(ds);
    assert s[..32] == G.GroupBytes(h);
    GroupFrontWritten(h);
  }

  lemma GroupFrontWritten(h: G.GroupHead)
    ensures GroupFront(G.GroupBytes(h), h.total, h.count, h.mutations, h.firstSeq)
  {
    G.GroupSlices(h);
    RoundTrips(3, h.total, h.firstSeq);
    RoundTrips(32, h.count, 0);
    RoundTrips(0, h.mutations, 0);
  }

  /** Where the descriptors begin. */
  function Offset(ds: seq<G.Descriptor>, i: nat): nat
    requires i <= |ds|
  {
    if i == 0 then 32 else Offset(ds, i - 1) + 40 + 32 * |ds[i - 1].mutations|
  }

  lemma {:induction false} OffsetIsSize(ds: seq<G.Descriptor>, i: nat)
    requires i <= |ds|
    ensures Offset(ds, i) == 32 + G.TotalSize(ds[..i])
    decreases i
  {
    if i > 0 {
      OffsetIsSize(ds, i - 1);
      SizeAppends(ds[..i - 1], ds[i - 1]);
      assert ds[..i] == ds[..i - 1] + [ds[i - 1]];
    }
  }

  lemma {:induction false} SizeAppends(ds: seq<G.Descriptor>, d: G.Descriptor)
    ensures G.TotalSize(ds + [d]) == G.TotalSize(ds) + G.DescriptorSize(|d.mutations|)
  {
    if ds != [] {
      assert (ds + [d])[1..] == ds[1..] + [d];
      SizeAppends(ds[1..], d);
    }
  }

  /** The part of some bytes that begins at an offset. */
  predicate Has(s: Bytes, at: nat, part: Bytes) { at + |part| <= |s| && s[at..at + |part|] == part }

  lemma HasBehind(front: Bytes, s: Bytes, at: nat, part: Bytes)
    requires Has(s, at, part)
    ensures Has(front + s, |front| + at, part)
  {
    assert (front + s)[|front| + at..|front| + at + |part|] == s[at..at + |part|];
  }

  lemma HasPart(s: Bytes, at: nat, part: Bytes, inner: nat, piece: Bytes)
    requires Has(s, at, part) && Has(part, inner, piece)
    ensures Has(s, at + inner, piece)
  {
    var a, b := at + inner, at + inner + |piece|;
    assert part[inner..inner + |piece|] == piece;
    forall j | 0 <= j < |piece| ensures s[a..b][j] == piece[j] {
      assert s[a..b][j] == s[at..at + |part|][inner + j] == part[inner..inner + |piece|][j];
    }
  }

  lemma HasFront(part: Bytes, rest: Bytes)
    ensures Has(part + rest, 0, part)
  {
  }

  lemma {:induction false} AllOfThemFit(ds: seq<G.Descriptor>, i: nat)
    requires G.AllFit(ds) && i < |ds|
    ensures G.Fits(ds[i])
    decreases i
  {
    if i > 0 { AllOfThemFit(ds[1..], i - 1); }
  }

  lemma {:induction false} DescriptorIn(ds: seq<G.Descriptor>, i: nat)
    requires G.AllFit(ds) && i < |ds| && G.Fits(ds[i])
    ensures Has(G.DescriptorsBytes(ds), G.TotalSize(ds[..i]), G.DescriptorBytes(ds[i]))
    decreases i
  {
    var first, rest := G.DescriptorBytes(ds[0]), G.DescriptorsBytes(ds[1..]);
    if i == 0 {
      HasFront(first, rest);
    } else {
      DescriptorIn(ds[1..], i - 1);
      HasBehind(first, rest, G.TotalSize(ds[1..][..i - 1]), G.DescriptorBytes(ds[i]));
      assert ds[..i][1..] == ds[1..][..i - 1];
    }
  }

  lemma {:induction false} MutationIn(ms: seq<G.Mutation>, k: nat)
    requires k < |ms|
    ensures Has(G.Mutations(ms), 32 * k, G.MutationBytes(ms[k]))
    decreases k
  {
    var first, rest := G.MutationBytes(ms[0]), G.Mutations(ms[1..]);
    if k == 0 {
      HasFront(first, rest);
    } else {
      MutationIn(ms[1..], k - 1);
      HasBehind(first, rest, 32 * (k - 1), G.MutationBytes(ms[k]));
    }
  }

  predicate DescriptorFront(s: Bytes, d: G.Descriptor) {
    && |s| == 40 && s[0] == d.kind && s[1] == 0 && U16(s[2..4]) == 40 && U32(s[4..8]) == |d.mutations|
    && U64(s[8..16]) == d.batch && U64(s[16..24]) == d.commitSeq && U64(s[24..32]) == d.logicalBytes
    && U32(s[32..36]) == 40 + 32 * |d.mutations| && U32(s[36..40]) == 0
  }

  lemma DescriptorFrontWritten(d: G.Descriptor)
    requires G.Fits(d)
    ensures DescriptorFront(G.HeadBytes(G.HeadOf(d)), d)
  {
    var h := G.HeadOf(d);
    G.HeadSlices(h);
    RoundTrips(40, h.count, h.batch);
    RoundTrips(0, h.size, h.commitSeq);
    RoundTrips(0, 0, h.logicalBytes);
  }

  /** The mutation, with the operation byte for what the mapping will do. */
  predicate MutationCell(s: Bytes, m: G.Mutation, op: Operation) {
    && |s| == 32 && U64(s[0..8]) == m.id && U64(s[8..16]) == m.newAddr && U64(s[16..24]) == m.expectedOld
    && s[24] == (match op case Put => 1 case Delete => 2 case Relocate => 3)
    && U32(s[25..29]) == m.size && s[29] == s[30] == s[31] == 0
  }

  lemma MutationCellWritten(kind: u8, m: G.Mutation)
    requires G.ValidMutation(kind, m)
    ensures MutationCell(G.MutationBytes(m), m, G.ChangeOf(m).op)
  {
    var s := G.MutationBytes(m);
    assert s[0..8] == LE(m.id, 8) && s[8..16] == LE(m.newAddr, 8) && s[16..24] == LE(m.expectedOld, 8)
           && s[25..29] == LE(m.size, 4);
    RoundTrips(0, m.size, m.id);
    RoundTrips(0, 0, m.newAddr);
    RoundTrips(0, 0, m.expectedOld);
  }

  lemma PlaceBehind(ds: seq<G.Descriptor>, i: nat, front: Bytes, s: Bytes)
    requires G.AllFit(ds) && i < |ds| && G.Fits(ds[i]) && |front| == 32 && s == front + G.DescriptorsBytes(ds)
    ensures Has(s, Offset(ds, i), G.DescriptorBytes(ds[i]))
  {
    OffsetIsSize(ds, i);
    DescriptorIn(ds, i);
    HasBehind(front, G.DescriptorsBytes(ds), G.TotalSize(ds[..i]), G.DescriptorBytes(ds[i]));
  }

  lemma DescriptorPlace(ds: seq<G.Descriptor>, max: nat, i: nat, s: Bytes)
    requires G.Encode(ds, max) == Some(s) && i < |ds| && G.Fits(ds[i])
    ensures Has(s, Offset(ds, i), G.DescriptorBytes(ds[i]))
  {
    var front := G.GroupBytes(G.GroupHeadOf(ds));
    PlaceBehind(ds, i, front, s);
  }

  lemma Written(ds: seq<G.Descriptor>, max: nat, i: nat)
    requires G.Encode(ds, max).Some? && i < |ds|
    ensures G.Fits(ds[i]) && G.ValidDescriptor(ds[i])
  {
    AllOfThemFit(ds, i);
  }

  lemma FrontPlace(s: Bytes, at: nat, d: G.Descriptor)
    requires G.Fits(d) && Has(s, at, G.DescriptorBytes(d))
    ensures Has(s, at, G.HeadBytes(G.HeadOf(d)))
  {
    var part := G.HeadBytes(G.HeadOf(d));
    HasFront(part, G.Mutations(d.mutations));
    HasPart(s, at, G.DescriptorBytes(d), 0, part);
  }

  lemma CellPlace(s: Bytes, at: nat, d: G.Descriptor, k: nat)
    requires G.Fits(d) && Has(s, at, G.DescriptorBytes(d)) && k < |d.mutations|
    ensures Has(s, at + 40 + 32 * k, G.MutationBytes(d.mutations[k]))
  {
    var part := G.MutationBytes(d.mutations[k]);
    MutationIn(d.mutations, k);
    HasBehind(G.HeadBytes(G.HeadOf(d)), G.Mutations(d.mutations), 32 * k, part);
    HasPart(s, at, G.DescriptorBytes(d), 40 + 32 * k, part);
  }

  /** Descriptors lie one behind the other. Kind 2 is a relocation, kind 1 a commit; the kind of a
      commit without mutations is not looked at. */
  lemma DescriptorLayout(ds: seq<G.Descriptor>, max: nat, i: nat, s: Bytes) returns (part: Bytes)
    requires G.Encode(ds, max) == Some(s) && i < |ds|
    ensures Has(s, Offset(ds, i), part) && DescriptorFront(part, ds[i])
    ensures G.ProposalOf(ds[i]).kind == Relocation <==> ds[i].kind == 2
    ensures ds[i].mutations != [] && G.ProposalOf(ds[i]).kind == UserCommit ==> ds[i].kind == 1
  {
    Written(ds, max, i);
    DescriptorPlace(ds, max, i, s);
    FrontPlace(s, Offset(ds, i), ds[i]);
    DescriptorFrontWritten(ds[i]);
    KindByte(ds[i]);
    part := G.HeadBytes(G.HeadOf(ds[i]));
  }

  lemma KindByte(d: G.Descriptor)
    requires G.ValidDescriptor(d)
    ensures G.ProposalOf(d).kind == Relocation <==> d.kind == 2
    ensures d.mutations != [] && G.ProposalOf(d).kind == UserCommit ==> d.kind == 1
  {
    if d.mutations != [] { assert G.ValidMutation(d.kind, d.mutations[0]); }
  }

  /** So do the mutations of a descriptor, behind its head. */
  lemma MutationLayout(ds: seq<G.Descriptor>, max: nat, i: nat, k: nat, s: Bytes) returns (part: Bytes)
    requires G.Encode(ds, max) == Some(s) && i < |ds| && k < |ds[i].mutations|
    ensures Has(s, Offset(ds, i) + 40 + 32 * k, part)
    ensures MutationCell(part, ds[i].mutations[k], G.ProposalOf(ds[i]).changes[k].op)
  {
    Written(ds, max, i);
    DescriptorPlace(ds, max, i, s);
    CellPlace(s, Offset(ds, i), ds[i], k);
    assert G.ValidMutation(ds[i].kind, ds[i].mutations[k]);
    MutationCellWritten(ds[i].kind, ds[i].mutations[k]);
    part := G.MutationBytes(ds[i].mutations[k]);
  }

  // --------------------------------------------------------------------------- nodes

  predicate NodeFront(s: Bytes, b: N.Build, size: nat, count: nat, payloadSum: u32, headerSum: u32) {
    && |s| == 64 && s[..8] == [0x52, 0x49, 0x44, 0x4D, 0x41, 0x50, 0x4E, 0x32] && U16(s[8..10]) == 3
    && s[10] == b.level && s[11] == (if count >= 504 then 2 else 1) && U32(s[12..16]) == size
    && U64(s[16..24]) == b.nodeSeq && U64(s[24..32]) == b.prefix && U64(s[32..40]) == b.covered
    && U16(s[40..42]) == count && s[42] == s[43] == 0 && U32(s[44..48]) == payloadSum
    && U32(s[48..52]) == headerSum && forall i | 52 <= i < 64 :: s[i] == 0
  }

  lemma NodeFrontWritten(b: N.Build, crc: Checksum)
    requires N.ValidBuild(b)
    ensures var h := N.HeaderOf(b, crc);
            NodeFront(N.HeaderBytes(h), b, h.size, N.Occupied(b.entries), crc(N.Payload(b)), h.headerSum)
  {
    var h := N.HeaderOf(b, crc);
    N.HeaderSlices(h);
    RoundTrips(h.count, h.size, h.nodeSeq);
    RoundTrips(3, h.payloadSum, h.prefix);
    RoundTrips(0, h.headerSum, h.covered);
  }

  lemma NodeLayout(b: N.Build, crc: Checksum)
    requires N.ValidBuild(b)
    ensures var s := N.Encode(b, crc).value;
            |s| >= 64 && NodeFront(s[..64], b, |s|, N.Occupied(b.entries), crc(s[64..]),
                                   crc(s[..48] + [0, 0, 0, 0] + s[52..64]))
  {
    var s, h := N.Encode(b, crc).value, N.HeaderOf(b, crc);
    var head := N.HeaderBytes(h);
    assert s[..64] == head && s[64..] == N.Payload(b);
    NodeFrontWritten(b, crc);
    N.UnsummedHeader(h, 0);
    N.PayloadSize(b);
    UnsummedFront(s, head);
  }

  lemma UnsummedFront(s: Bytes, head: Bytes)
    requires |head| == 64 <= |s| && s[..64] == head
    ensures N.Unsummed(head) == s[..48] + [0, 0, 0, 0] + s[52..64]
  {
    assert s[..48] == head[..48] && s[52..64] == head[52..] && Zeros(4) == [0, 0, 0, 0];
  }

  lemma {:induction false} CellIn(level: u8, es: seq<E.Entry>, k: nat)
    requires k < |es|
    ensures Has(N.Cells(level, es), N.CellsSize(level, k), N.CellBytes(level, es[k]))
    decreases k
  {
    var first, rest := N.CellBytes(level, es[0]), N.Cells(level, es[1..]);
    if k == 0 {
      HasFront(first, rest);
    } else {
      CellIn(level, es[1..], k - 1);
      HasBehind(first, rest, N.CellsSize(level, k - 1), N.CellBytes(level, es[k]));
    }
  }

  lemma {:induction false} WordIn(ws: seq<u64>, k: nat)
    requires k < |ws|
    ensures Has(N.Words(ws), 8 * k, LE(ws[k], 8))
    decreases k
  {
    var first, rest := LE(ws[0], 8), N.Words(ws[1..]);
    if k == 0 {
      HasFront(first, rest);
    } else {
      WordIn(ws[1..], k - 1);
      HasBehind(first, rest, 8 * (k - 1), LE(ws[k], 8));
    }
  }

  predicate SlotCell(s: Bytes, level: u8, e: E.Entry) {
    && |s| == (if level == 0 then 12 else 8) && U64(s[..8]) == e.value
    && (level == 0 ==> U32(s[8..12]) == e.size)
  }

  lemma SlotCellWritten(level: u8, e: E.Entry)
    ensures SlotCell(N.CellBytes(level, e), level, e)
  {
    var s := N.CellBytes(level, e);
    assert s[..8] == LE(e.value, 8);
    if level == 0 { assert s[8..12] == LE(e.size, 4); }
    RoundTrips(0, e.size, e.value);
  }

  /** The cell of a slot among all 512, or behind the bitmap among those in use. */
  function Place(b: N.Build, slot: nat): nat
    requires slot < |b.entries|
  {
    if N.Occupied(b.entries) >= 504 then if b.level == 0 then 12 * slot else 8 * slot
    else
      var before := NodeBitmap.Count(E.Flags(b.entries)[..slot]);
      64 + if b.level == 0 then 12 * before else 8 * before
  }

  lemma CellInPayload(b: N.Build, slot: nat)
    requires N.ValidBuild(b) && slot < 512 && b.entries[slot].value != 0
    ensures Has(N.Payload(b), Place(b, slot), N.CellBytes(b.level, b.entries[slot]))
  {
    var part := N.CellBytes(b.level, b.entries[slot]);
    if N.IsDense(b) {
      CellIn(b.level, N.Normal(b.entries), slot);
    } else {
      E.PackAt(b.entries, slot);
      var k, cells := NodeBitmap.Count(E.Flags(b.entries)[..slot]), N.Cells(b.level, E.Pack(b.entries));
      var words := N.Words(NodeBitmap.BitmapOf(E.Flags(b.entries)));
      CellIn(b.level, E.Pack(b.entries), k);
      HasBehind(words, cells, N.CellsSize(b.level, k), part);
      HasFront(words + cells, N.Payload(b)[|words + cells|..]);
      HasPart(N.Payload(b), 0, words + cells, Place(b, slot), part);
    }
  }

  /** Where the address a slot holds is found, with the size of the record in a leaf. */
  lemma SlotLayout(b: N.Build, crc: Checksum, slot: nat) returns (part: Bytes)
    requires N.ValidBuild(b) && slot < 512 && b.entries[slot].value != 0
    ensures Has(N.Encode(b, crc).value, 64 + Place(b, slot), part) && SlotCell(part, b.level, b.entries[slot])
  {
    part := N.CellBytes(b.level, b.entries[slot]);
    SlotCellWritten(b.level, b.entries[slot]);
    CellInPayload(b, slot);
    HasBehind(N.HeaderBytes(N.HeaderOf(b, crc)), N.Payload(b), Place(b, slot), part);
  }

  /** Bit b of word w of a sparse node tells whether slot 64 * w + b is in use. */
  lemma BitmapLayout(b: N.Build, crc: Checksum, w: nat, bit: nat) returns (part: Bytes)
    requires N.ValidBuild(b) && N.Occupied(b.entries) < 504 && w < 8 && bit < 64
    ensures Has(N.Encode(b, crc).value, 64 + 8 * w, part) && |part| == 8
    ensures NodeBitmap.TestBit(U64(part), bit) <==> b.entries[64 * w + bit].value != 0
  {
    var words := NodeBitmap.BitmapOf(E.Flags(b.entries));
    part := LE(words[w], 8);
    WordTells(b.entries, words, w, bit);
    WordInPayload(b, words, w);
    HasBehind(N.HeaderBytes(N.HeaderOf(b, crc)), N.Payload(b), 8 * w, part);
  }

  lemma WordTells(es: seq<E.Entry>, words: seq<u64>, w: nat, bit: nat)
    requires |es| == 512 && words == NodeBitmap.BitmapOf(E.Flags(es)) && w < 8 && bit < 64
    ensures NodeBitmap.TestBit(U64(LE(words[w], 8)), bit) <==> es[64 * w + bit].value != 0
  {
    RoundTrips(0, 0, words[w]);
    NodeBitmap.RankIsCount(E.Flags(es), words, w, bit);
  }

  lemma WordInPayload(b: N.Build, words: seq<u64>, w: nat)
    requires N.ValidBuild(b) && N.Occupied(b.entries) < 504 && w < 8
    requires words == NodeBitmap.BitmapOf(E.Flags(b.entries))
    ensures Has(N.Payload(b), 8 * w, LE(words[w], 8))
  {
    WordIn(words, w);
    HasFront(N.Words(words), N.Payload(b)[64..]);
    assert N.Payload(b) == N.Words(words) + N.Payload(b)[64..];
    HasPart(N.Payload(b), 0, N.Words(words), 8 * w, LE(words[w], 8));
  }
}
