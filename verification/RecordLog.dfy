/** Physical record addresses and positions (internal/recordlog/types.go).
    A `VAddr` packs a segment number, an 8-aligned byte offset and a 3-bit size tag
    into one 64-bit word; a `LogPos` is an untagged scan boundary. */
module RecordLog {
  type u8 = x: int | 0 <= x < 0x100
  type u16 = x: int | 0 <= x < 0x1_0000
  type u32 = x: int | 0 <= x < 0x1_0000_0000
  type u64 = x: int | 0 <= x < 0x1_0000_0000_0000_0000

  const MAX64: u64 := 0xFFFF_FFFF_FFFF_FFFF
  const SEGMENT_HEADER_SIZE: u32 := 64
  const RECORD_HEADER_SIZE: u32 := 32
  const SEGMENT_FOOTER_SIZE: u32 := 64
  const RESERVED_SIZE_TAG := 7
  const COMPACTION_SEGMENT_BASE: u32 := 0x8000_0000

  type SegmentID = u32
  type VAddr = u64

  datatype Option<+T> = None | Some(value: T)

  predicate IsCompactionSegment(segment: SegmentID) { segment >= COMPACTION_SEGMENT_BASE }

  function SegmentOf(addr: VAddr): SegmentID { addr / 0x1_0000_0000 }

  function OffsetOf(addr: VAddr): u32 { addr % 0x1_0000_0000 - addr % 8 }

  function TagOf(addr: VAddr): nat { addr % 8 }

  predicate ValidAddr(addr: VAddr) {
    SegmentOf(addr) != 0 && OffsetOf(addr) >= SEGMENT_HEADER_SIZE && TagOf(addr) != RESERVED_SIZE_TAG
  }

  /** Sizes a record may have on disk. */
  predicate ValidSize(size: u32) { size >= RECORD_HEADER_SIZE && size % 8 == 0 }

  /** The size class of a record: tag t < 6 bounds the size by 64 << t, tag 6 is the catch-all. */
  function TagFor(size: u32): (tag: nat)
    ensures tag < RESERVED_SIZE_TAG
  {
    if size <= 64 then 0 else if size <= 128 then 1 else if size <= 256 then 2
    else if size <= 512 then 3 else if size <= 1024 then 4 else if size <= 2048 then 5 else 6
  }

  /** The search loop of `sizeTag`, doubling the bound at each tag. */
  method SizeTag(size: u32) returns (tag: Option<nat>)
    ensures tag == if ValidSize(size) then Some(TagFor(size)) else None
    ensures tag.Some? ==> forall t | 0 <= t < 6 :: tag.value <= t <==> size <= [64, 128, 256, 512, 1024, 2048][t]
  {
    if !ValidSize(size) { return None; }
    var t, upper := 0, 64;
    while t < RESERVED_SIZE_TAG
      invariant 0 <= t <= 6 && t <= TagFor(size)
      invariant upper == [64, 128, 256, 512, 1024, 2048, 4096][t]
      decreases 7 - t
    {
      if size <= upper || t == RESERVED_SIZE_TAG - 1 { return Some(t); }
      t, upper := t + 1, upper * 2;
    }
    return None;
  }

  datatype RecordRef = RecordRef(addr: VAddr, size: u32)

  predicate ValidRef(ref: RecordRef) {
    ValidAddr(ref.addr) && ValidSize(ref.size) && TagFor(ref.size) == TagOf(ref.addr)
  }

  const ZERO_REF := RecordRef(0, 0)

  function NewVAddr(segment: SegmentID, offset: u32, size: u32): (r: Option<VAddr>)
  {
    if !ValidSize(size) || segment == 0 || offset < SEGMENT_HEADER_SIZE || offset % 8 != 0 then None
    else Some(segment * 0x1_0000_0000 + offset + TagFor(size))
  }

  datatype LogPos = LogPos(segment: SegmentID, offset: u32)

  predicate ValidPos(p: LogPos) { p.segment != 0 && p.offset >= SEGMENT_HEADER_SIZE && p.offset % 8 == 0 }

  predicate PosBefore(p: LogPos, q: LogPos) {
    p.segment < q.segment || (p.segment == q.segment && p.offset < q.offset)
  }

  function PosOf(addr: VAddr): LogPos { LogPos(SegmentOf(addr), OffsetOf(addr)) }

  /** Packing is invertible: exactly the in-range triples are accepted, and the packed word
      gives back its segment, its offset and a reference valid for its size. */
  lemma NewVAddrRoundTrip(segment: SegmentID, offset: u32, size: u32)
    ensures NewVAddr(segment, offset, size).Some? <==>
            ValidSize(size) && ValidPos(LogPos(segment, offset))
    ensures var r := NewVAddr(segment, offset, size);
            r.Some? ==> ValidRef(RecordRef(r.value, size)) && PosOf(r.value) == LogPos(segment, offset)
  {
    if NewVAddr(segment, offset, size).Some? {
      Unpack(segment, offset / 8, TagFor(size));
    }
  }

  lemma Unpack(segment: SegmentID, words: nat, tag: nat)
    requires 8 * words < 0x1_0000_0000 && tag < 8
    ensures var addr := segment * 0x1_0000_0000 + 8 * words + tag;
            && addr / 0x1_0000_0000 == segment
            && addr % 0x1_0000_0000 == 8 * words + tag
            && addr % 8 == tag
  {
    var addr := segment * 0x1_0000_0000 + 8 * words + tag;
    assert addr == 8 * (segment * 0x2000_0000 + words) + tag;
  }

  /** Numeric order of valid addresses is log order, so `before` in replay may compare either. */
  lemma AddressOrderIsLogOrder(a: VAddr, b: VAddr)
    requires PosOf(a) != PosOf(b)
    ensures a < b <==> PosBefore(PosOf(a), PosOf(b))
  {
    assert a == SegmentOf(a) * 0x1_0000_0000 + OffsetOf(a) + TagOf(a);
    assert b == SegmentOf(b) * 0x1_0000_0000 + OffsetOf(b) + TagOf(b);
    assert OffsetOf(a) % 8 == 0 && OffsetOf(b) % 8 == 0;
  }
}
