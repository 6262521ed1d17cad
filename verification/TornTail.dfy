/** Recovering the active segment after a crash: the scan keeps exactly the complete records
    (internal/recordlog/segment.go, internal/recordlog/format.go). */
module TornTail {
  import opened RecordLog
  import opened Bytes

  const RECORD_VERSION := 2
  const RECORD_MAGIC: Bytes := [0x52, 0x32, 0x52, 0x43]
  const FOOTER_MAGIC: Bytes := [0x52, 0x49, 0x44, 0x41, 0x50, 0x56, 0x32, 0x46]

  // ------------------------------------------------------------------------- records

  /** `PhysicalRecordSize`, where it does not overflow. */
  function SizeFor(payload: nat): nat { (RECORD_HEADER_SIZE + payload + 7) / 8 * 8 }

  datatype Header = Header(size: u32, payload: u32, addr: VAddr, payloadSum: u32, headerSum: u32)

  function HeaderByte(h: Header, i: nat): u8
    requires i < 32
  {
    if i < 4 then RECORD_MAGIC[i]
    else if i < 6 then LE(RECORD_VERSION, 2)[i - 4]
    else if i < 8 then LE(32, 2)[i - 6]
    else if i < 12 then LE(h.size, 4)[i - 8]
    else if i < 16 then LE(h.payload, 4)[i - 12]
    else if i < 24 then LE(h.addr, 8)[i - 16]
    else if i < 28 then LE(h.payloadSum, 4)[i - 24]
    else LE(h.headerSum, 4)[i - 28]
  }

  function HeaderBytes(h: Header): (s: Bytes)
    ensures |s| == 32 && forall i | 0 <= i < 32 :: s[i] == HeaderByte(h, i)
  {
    seq(32, i requires 0 <= i < 32 => HeaderByte(h, i))
  }

  function ReadHeader(s: Bytes): Header
    requires |s| == 32
  {
    Header(U32(s[8..12]), U32(s[12..16]), U64(s[16..24]), U32(s[24..28]), U32(s[28..32]))
  }

  predicate GoodHeader(h: Header) {
    SizeFor(h.payload) == h.size && ValidRef(RecordRef(h.addr, h.size))
  }

  /** `DecodeRecordHeader`. */
  function DecodeHeader(s: Bytes, crc: Checksum): Option<Header>
    requires |s| == 32
  {
    var h := ReadHeader(s);
    if s[..4] != RECORD_MAGIC || U16(s[4..6]) != RECORD_VERSION || U16(s[6..8]) != 32
        || h.headerSum != crc(s[..28]) || !GoodHeader(h)
    then None else Some(h)
  }

  /** `DecodeRecord`. */
  predicate DecodesRecord(s: Bytes, crc: Checksum) {
    && |s| >= 32 && DecodeHeader(s[..32], crc).Some?
    && var h := DecodeHeader(s[..32], crc).value;
    && |s| == h.size && h.payload <= h.size - 32
    && crc(s[32..32 + h.payload]) == h.payloadSum && s[32 + h.payload..] == Zeros(|s| - 32 - h.payload)
  }

  function HeaderOf(addr: VAddr, payload: Bytes, crc: Checksum): Header
    requires SizeFor(|payload|) < 0x1_0000_0000
  {
    var h := Header(SizeFor(|payload|), |payload|, addr, crc(payload), 0);
    h.(headerSum := crc(HeaderBytes(h)[..28]))
  }

  /** `EncodeRecordTo`. */
  function RecordBytes(addr: VAddr, payload: Bytes, crc: Checksum): (s: Bytes)
    requires SizeFor(|payload|) < 0x1_0000_0000
    ensures |s| == SizeFor(|payload|)
  {
    HeaderBytes(HeaderOf(addr, payload, crc)) + payload + Zeros(SizeFor(|payload|) - 32 - |payload|)
  }

  lemma HeaderSlices(h: Header)
    ensures var s := HeaderBytes(h);
            && s[..4] == RECORD_MAGIC && s[4..6] == LE(RECORD_VERSION, 2) && s[6..8] == LE(32, 2)
            && s[8..12] == LE(h.size, 4)
            && s[12..16] == LE(h.payload, 4) && s[16..24] == LE(h.addr, 8) && s[24..28] == LE(h.payloadSum, 4)
            && s[28..32] == LE(h.headerSum, 4)
  {
  }

  lemma HeaderDecodes(h: Header, crc: Checksum)
    requires GoodHeader(h) && h.headerSum == crc(HeaderBytes(h)[..28])
    ensures DecodeHeader(HeaderBytes(h), crc) == Some(h)
  {
    HeaderSlices(h);
    RoundTrips(RECORD_VERSION, h.size, h.addr);
    RoundTrips(32, h.payload, 0);
    RoundTrips(0, h.payloadSum, 0);
    RoundTrips(0, h.headerSum, 0);
  }

  lemma EncodedHeader(addr: VAddr, payload: Bytes, crc: Checksum)
    requires SizeFor(|payload|) < 0x1_0000_0000 && ValidRef(RecordRef(addr, SizeFor(|payload|)))
    ensures var h := HeaderOf(addr, payload, crc); DecodeHeader(HeaderBytes(h), crc) == Some(h)
  {
    var h := HeaderOf(addr, payload, crc);
    assert HeaderBytes(h)[..28] == HeaderBytes(h.(headerSum := 0))[..28];
    HeaderDecodes(h, crc);
  }

  /** A whole record decodes, to the header that was written. */
  lemma EncodedRecord(addr: VAddr, payload: Bytes, crc: Checksum)
    requires SizeFor(|payload|) < 0x1_0000_0000 && ValidRef(RecordRef(addr, SizeFor(|payload|)))
    ensures var s := RecordBytes(addr, payload, crc);
            DecodesRecord(s, crc) && DecodeHeader(s[..32], crc) == Some(HeaderOf(addr, payload, crc))
              && s[32..32 + |payload|] == payload
  {
    var s := RecordBytes(addr, payload, crc);
    EncodedHeader(addr, payload, crc);
    assert s[..32] == HeaderBytes(HeaderOf(addr, payload, crc));
    assert s[32..32 + |payload|] == payload;
    assert s[32 + |payload|..] == Zeros(|s| - 32 - |payload|);
  }

  // ----------------------------------------------------------------- what was appended

  /** The records fit between this offset and the room kept for the footer. */
  predicate Fit(payloads: seq<Bytes>, at: nat, limit: u32)
    decreases |payloads|
  {
    at % 8 == 0 && SEGMENT_HEADER_SIZE <= at <= limit
    && (payloads == []
       || (at + SizeFor(|payloads[0]|) <= limit && Fit(payloads[1..], at + SizeFor(|payloads[0]|), limit)))
  }

  function AddrAt(segment: SegmentID, at: nat, payload: Bytes, limit: u32): (addr: VAddr)
    requires segment != 0 && at % 8 == 0 && at >= SEGMENT_HEADER_SIZE && at + SizeFor(|payload|) <= limit
    ensures ValidRef(RecordRef(addr, SizeFor(|payload|))) && PosOf(addr) == LogPos(segment, at)
  {
    NewVAddrRoundTrip(segment, at, SizeFor(|payload|));
    NewVAddr(segment, at, SizeFor(|payload|)).value
  }

  function Body(payloads: seq<Bytes>, segment: SegmentID, at: nat, limit: u32, crc: Checksum): Bytes
    requires segment != 0 && Fit(payloads, at, limit)
    decreases |payloads|
  {
    if payloads == [] then []
    else
      RecordBytes(AddrAt(segment, at, payloads[0], limit), payloads[0], crc)
      + Body(payloads[1..], segment, at + SizeFor(|payloads[0]|), limit, crc)
  }

  /** Where the first n records end. */
  function EndAfter(payloads: seq<Bytes>, n: nat): nat
    requires n <= |payloads|
  {
    if n == 0 then SEGMENT_HEADER_SIZE else EndAfter(payloads, n - 1) + SizeFor(|payloads[n - 1]|)
  }

  /** A footer that was written before the rotation became durable, or none. */
  predicate MaybeFooter(footer: Bytes) {
    footer == [] || (|footer| == SEGMENT_FOOTER_SIZE && footer[..8] == FOOTER_MAGIC)
  }

  // ---------------------------------------------------------------------------- scan

  datatype Summary = Summary(validEnd: nat, count: nat, first: VAddr, last: VAddr)

  datatype Step = Stop | Next(size: nat, addr: VAddr, payload: Bytes) | Bad

  /** One turn of the scan loop, on the bytes left of the file. */
  function ScanStep(left: Bytes, segment: SegmentID, at: nat, limit: u32, crc: Checksum): Step
    requires left != []
  {
    if 8 <= |left| <= SEGMENT_FOOTER_SIZE && left[..8] == FOOTER_MAGIC then Stop
    else if |left| < 32 then Stop
    else
      var h := DecodeHeader(left[..32], crc);
      if h.None? then Bad
      else if at > limit || SegmentOf(h.value.addr) != segment || OffsetOf(h.value.addr) != at
           || h.value.size > limit - at then Bad
      else if |left| < h.value.size then Stop
      else if DecodesRecord(left[..h.value.size], crc) then
        assert left[..h.value.size][..32] == left[..32];
        Next(h.value.size, h.value.addr, left[32..32 + h.value.payload])
      else Bad
  }

  /** Inside a record: a cut one stops the scan, a whole one is taken. */
  lemma StepOnRecord(left: Bytes, payload: Bytes, rest: Bytes, segment: SegmentID, at: nat, limit: u32, crc: Checksum)
    requires segment != 0 && at % 8 == 0 && at >= SEGMENT_HEADER_SIZE && at + SizeFor(|payload|) <= limit
    requires 0 < |left| <= SizeFor(|payload|) + |rest|
    requires left == (RecordBytes(AddrAt(segment, at, payload, limit), payload, crc) + rest)[..|left|]
    ensures ScanStep(left, segment, at, limit, crc)
            == if |left| < SizeFor(|payload|) then Stop
               else Next(SizeFor(|payload|), AddrAt(segment, at, payload, limit), payload)
  {
    var addr, size := AddrAt(segment, at, payload, limit), SizeFor(|payload|);
    var record := RecordBytes(addr, payload, crc);
    EncodedRecord(addr, payload, crc);
    if |left| >= 8 {
      NotAFooter(addr, payload, crc);
      assert left[1] == record[1] && left[..8][1] == left[1];
    }
    if |left| >= 32 { assert left[..32] == record[..32]; }
    if |left| >= size {
      assert left[..size] == record;
      assert left[32..32 + |payload|] == left[..size][32..32 + |payload|];
    }
  }

  lemma NotAFooter(addr: VAddr, payload: Bytes, crc: Checksum)
    requires SizeFor(|payload|) < 0x1_0000_0000
    ensures RecordBytes(addr, payload, crc)[1] != FOOTER_MAGIC[1]
  {
  }

  /** Behind the last record: any non-empty part of a footer stops the scan. */
  lemma StepOnFooter(left: Bytes, footer: Bytes, segment: SegmentID, at: nat, limit: u32, crc: Checksum)
    requires MaybeFooter(footer) && 0 < |left| <= |footer| && left == footer[..|left|]
    ensures ScanStep(left, segment, at, limit, crc) == Stop
  {
    if |left| >= 8 { assert left[..8] == footer[..8]; }
  }

  predicate Remaining(file: Bytes, left: seq<Bytes>, footer: Bytes, segment: SegmentID, at: nat, limit: u32,
                      crc: Checksum)
    requires segment != 0 && Fit(left, at, limit)
  {
    var image := Body(left, segment, at, limit, crc) + footer;
    at <= |file| && |file| - at <= |image| && file[at..] == image[..|file| - at]
  }

  /** The next record is complete in the file. */
  predicate HasNext(file: Bytes, left: seq<Bytes>, at: nat) { left != [] && at + SizeFor(|left[0]|) <= |file| }

  lemma StepHere(file: Bytes, segment: SegmentID, at: nat, limit: u32, crc: Checksum, left: seq<Bytes>, footer: Bytes)
    requires segment != 0 && Fit(left, at, limit) && MaybeFooter(footer)
    requires at < |file| && Remaining(file, left, footer, segment, at, limit, crc)
    ensures ScanStep(file[at..], segment, at, limit, crc)
            == if HasNext(file, left, at)
               then Next(SizeFor(|left[0]|), AddrAt(segment, at, left[0], limit), left[0]) else Stop
  {
    var bytes := file[at..];
    if left == [] {
      assert Body(left, segment, at, limit, crc) + footer == footer;
      StepOnFooter(bytes, footer, segment, at, limit, crc);
    } else {
      var size := SizeFor(|left[0]|);
      var record := RecordBytes(AddrAt(segment, at, left[0], limit), left[0], crc);
      var rest := Body(left[1..], segment, at + size, limit, crc) + footer;
      assert Body(left, segment, at, limit, crc) + footer == record + rest;
      StepOnRecord(bytes, left[0], rest, segment, at, limit, crc);
    }
  }

  lemma RestRemains(file: Bytes, left: seq<Bytes>, footer: Bytes, segment: SegmentID, at: nat, limit: u32,
                    crc: Checksum)
    requires segment != 0 && Fit(left, at, limit)
    requires Remaining(file, left, footer, segment, at, limit, crc) && HasNext(file, left, at)
    ensures Remaining(file, left[1..], footer, segment, at + SizeFor(|left[0]|), limit, crc)
  {
    var cut, size := |file| - at, SizeFor(|left[0]|);
    var record := RecordBytes(AddrAt(segment, at, left[0], limit), left[0], crc);
    var rest := Body(left[1..], segment, at + size, limit, crc) + footer;
    assert Body(left, segment, at, limit, crc) + footer == record + rest;
    Behind(file, record, rest, at, size, cut);
  }

  lemma Behind(file: Bytes, record: Bytes, rest: Bytes, at: nat, size: nat, cut: nat)
    requires at + cut == |file| && |record| == size <= cut <= size + |rest| && file[at..] == (record + rest)[..cut]
    ensures file[at + size..] == rest[..cut - size]
  {
    assert file[at + size..] == file[at..][size..];
    assert (record + rest)[..cut][size..] == rest[..cut - size];
  }

  lemma {:induction false} RemainsAt(file: Bytes, payloads: seq<Bytes>, footer: Bytes, segment: SegmentID, limit: u32,
                                     crc: Checksum, k: nat)
    requires segment != 0 && Fit(payloads, SEGMENT_HEADER_SIZE, limit)
    requires Remaining(file, payloads, footer, segment, SEGMENT_HEADER_SIZE, limit, crc)
    requires k <= |payloads| && EndAfter(payloads, k) <= |file|
    ensures Fit(payloads[k..], EndAfter(payloads, k), limit)
    ensures Remaining(file, payloads[k..], footer, segment, EndAfter(payloads, k), limit, crc)
    decreases k
  {
    if k == 0 {
      assert payloads[0..] == payloads;
    } else {
      RemainsAt(file, payloads, footer, segment, limit, crc, k - 1);
      RestRemains(file, payloads[k - 1..], footer, segment, EndAfter(payloads, k - 1), limit, crc);
      assert payloads[k - 1..][1..] == payloads[k..];
    }
  }

  // --------------------------------------------------------------- any file at all

  lemma HeaderReadBack(s: Bytes, h: Header)
    requires |s| == 32 && h == ReadHeader(s)
    requires s[..4] == RECORD_MAGIC && U16(s[4..6]) == RECORD_VERSION && U16(s[6..8]) == 32
    ensures HeaderBytes(h) == s
  {
    var w := HeaderBytes(h);
    HeaderSlices(h);
    RoundTripsBack(s[4..6], s[8..12], s[16..24]);
    RoundTripsBack(s[6..8], s[12..16], s[16..24]);
    RoundTripsBack(s[4..6], s[24..28], s[16..24]);
    RoundTripsBack(s[4..6], s[28..32], s[16..24]);
    Agree(w, s, 4, 6);
    Agree(w, s, 6, 8);
    Agree(w, s, 8, 12);
    Agree(w, s, 12, 16);
    Agree(w, s, 16, 24);
    Agree(w, s, 24, 28);
    Agree(w, s, 28, 32);
    assert w[..32] == w && s[..32] == s;
  }

  /** Every byte string that decodes is, byte for byte, the record of the payload it decodes to. */
  lemma DecodedRecord(s: Bytes, crc: Checksum)
    requires DecodesRecord(s, crc)
    ensures var h := DecodeHeader(s[..32], crc).value;
            && SizeFor(h.payload) == |s| == h.size && 32 + h.payload <= |s|
            && s == RecordBytes(h.addr, s[32..32 + h.payload], crc)
  {
    var h := DecodeHeader(s[..32], crc).value;
    var payload := s[32..32 + h.payload];
    HeaderReadBack(s[..32], h);
    assert HeaderBytes(h)[..28] == HeaderBytes(h.(headerSum := 0))[..28];
    assert s[..32][..28] == s[..28];
    assert HeaderOf(h.addr, payload, crc) == h;
    assert s == s[..32] + payload + s[32 + h.payload..];
  }

  /** A record lies here, complete. */
  predicate RecordAt(file: Bytes, at: nat, payload: Bytes, segment: SegmentID, limit: u32, crc: Checksum) {
    && segment != 0 && at % 8 == 0 && SEGMENT_HEADER_SIZE <= at && at + SizeFor(|payload|) <= limit
    && at + SizeFor(|payload|) <= |file|
    && file[at..at + SizeFor(|payload|)] == RecordBytes(AddrAt(segment, at, payload, limit), payload, crc)
  }

  /** What a crash may leave behind the last record: nothing, less than a header, the beginning of
      a footer, or a record whose header is there and whose end is not. */
  ghost predicate Torn(left: Bytes, segment: SegmentID, at: nat, limit: u32, crc: Checksum) {
    || |left| < 32
    || (|left| <= 64 && left[..8] == [0x52, 0x49, 0x44, 0x41, 0x50, 0x56, 0x32, 0x46])
    || exists h: Header :: Promises(left[..32], h, crc) && LiesAt(h.addr, segment, at) && |left| < h.size <= limit - at
  }

  /** These bytes are the header of a record. */
  predicate Promises(s: Bytes, h: Header, crc: Checksum) {
    s == HeaderBytes(h) && h.headerSum == crc(s[..28]) && GoodHeader(h)
  }

  predicate LiesAt(addr: VAddr, segment: SegmentID, at: nat) { SegmentOf(addr) == segment && OffsetOf(addr) == at }

  lemma HeaderIsPromise(s: Bytes, h: Header, crc: Checksum)
    requires |s| == 32
    ensures DecodeHeader(s, crc) == Some(h) <==> Promises(s, h, crc)
  {
    if DecodeHeader(s, crc) == Some(h) { HeaderReadBack(s, h); }
    if Promises(s, h, crc) { HeaderDecodes(h, crc); }
  }

  predicate Finds(step: Step, file: Bytes, at: nat, segment: SegmentID, limit: u32, crc: Checksum) {
    && step.Next? && RecordAt(file, at, step.payload, segment, limit, crc) && step.size == SizeFor(|step.payload|)
    && LiesAt(step.addr, segment, at)
  }

  lemma SameAddress(a: VAddr, b: VAddr, size: u32)
    requires PosOf(a) == PosOf(b) && ValidRef(RecordRef(a, size)) && ValidRef(RecordRef(b, size))
    ensures a == b
  {
    assert a == SegmentOf(a) * 0x1_0000_0000 + OffsetOf(a) + TagOf(a);
    assert b == SegmentOf(b) * 0x1_0000_0000 + OffsetOf(b) + TagOf(b);
  }

  lemma DecodedHere(left: Bytes, segment: SegmentID, at: nat, limit: u32, crc: Checksum, step: Step)
    requires segment != 0 && left != [] && step == ScanStep(left, segment, at, limit, crc) && step.Next?
    ensures 32 <= step.size <= |left| && step.size == SizeFor(|step.payload|) && at + step.size <= limit
    ensures left[..step.size] == RecordBytes(step.addr, step.payload, crc)
    ensures LiesAt(step.addr, segment, at) && ValidRef(RecordRef(step.addr, step.size))
  {
    var h := DecodeHeader(left[..32], crc).value;
    var s := left[..h.size];
    assert s[..32] == left[..32] && s[32..32 + h.payload] == left[32..32 + h.payload];
    DecodedRecord(s, crc);
  }

  lemma StepFindsRecord(file: Bytes, segment: SegmentID, at: nat, limit: u32, crc: Checksum)
    requires segment != 0 && at % 8 == 0 && SEGMENT_HEADER_SIZE <= at < |file|
    requires ScanStep(file[at..], segment, at, limit, crc).Next?
    ensures Finds(ScanStep(file[at..], segment, at, limit, crc), file, at, segment, limit, crc)
  {
    var step := ScanStep(file[at..], segment, at, limit, crc);
    DecodedHere(file[at..], segment, at, limit, crc, step);
    SameAddress(step.addr, AddrAt(segment, at, step.payload, limit), step.size);
    assert file[at..at + step.size] == file[at..][..step.size];
  }

  lemma StepMissesNone(file: Bytes, segment: SegmentID, at: nat, limit: u32, crc: Checksum, payload: Bytes)
    requires at < |file| && RecordAt(file, at, payload, segment, limit, crc)
    ensures var step := ScanStep(file[at..], segment, at, limit, crc); step.Next? && step.payload == payload
  {
    var size := SizeFor(|payload|);
    var left, rest := file[at..], file[at + size..];
    assert left == file[at..at + size] + rest;
    StepOnRecord(left, payload, rest, segment, at, limit, crc);
  }

  /** The scan ends without an error exactly before what a crash may leave. */
  lemma StepStops(left: Bytes, segment: SegmentID, at: nat, limit: u32, crc: Checksum)
    requires left != [] && !ScanStep(left, segment, at, limit, crc).Next?
    ensures ScanStep(left, segment, at, limit, crc) == Stop <==> Torn(left, segment, at, limit, crc)
  {
    if |left| >= 32 {
      var d := DecodeHeader(left[..32], crc);
      if d.Some? { HeaderIsPromise(left[..32], d.value, crc); }
      forall h: Header | Promises(left[..32], h, crc) ensures d == Some(h) { HeaderIsPromise(left[..32], h, crc); }
    }
  }

  lemma {:induction false} EndOfPrefix(found: seq<Bytes>, payload: Bytes, n: nat)
    requires n <= |found|
    ensures EndAfter(found + [payload], n) == EndAfter(found, n)
    decreases n
  {
    if n > 0 { EndOfPrefix(found, payload, n - 1); }
  }

  /** Complete records one behind the other, from the header of the segment on. */
  predicate Records(file: Bytes, found: seq<Bytes>, segment: SegmentID, limit: u32, crc: Checksum) {
    forall k | 0 <= k < |found| :: Whole(file, found, k, segment, limit, crc)
  }

  /** The record of this number is whole. */
  predicate Whole(file: Bytes, found: seq<Bytes>, k: nat, segment: SegmentID, limit: u32, crc: Checksum) {
    k < |found| && RecordAt(file, EndAfter(found, k), found[k], segment, limit, crc)
  }

  lemma WholeStays(file: Bytes, found: seq<Bytes>, payload: Bytes, k: nat, segment: SegmentID, limit: u32,
                   crc: Checksum)
    requires Whole(file, found, k, segment, limit, crc)
    ensures Whole(file, found + [payload], k, segment, limit, crc)
  {
    EndOfPrefix(found, payload, k);
    assert (found + [payload])[k] == found[k];
  }

  lemma LastWhole(file: Bytes, found: seq<Bytes>, payload: Bytes, segment: SegmentID, limit: u32, crc: Checksum)
    requires RecordAt(file, EndAfter(found, |found|), payload, segment, limit, crc)
    ensures Whole(file, found + [payload], |found|, segment, limit, crc)
    ensures EndAfter(found + [payload], |found| + 1) == EndAfter(found, |found|) + SizeFor(|payload|) <= |file|
  {
    EndOfPrefix(found, payload, |found|);
  }

  lemma OneMore(file: Bytes, found: seq<Bytes>, payload: Bytes, segment: SegmentID, limit: u32, crc: Checksum)
    requires Records(file, found, segment, limit, crc)
    requires Whole(file, found + [payload], |found|, segment, limit, crc)
    ensures Records(file, found + [payload], segment, limit, crc)
  {
    forall k | 0 <= k < |found + [payload]| ensures Whole(file, found + [payload], k, segment, limit, crc) {
      if k < |found| { WholeStays(file, found, payload, k, segment, limit, crc); }
    }
  }

  lemma {:induction false} EndIsAligned(found: seq<Bytes>, n: nat)
    requires n <= |found|
    ensures EndAfter(found, n) % 8 == 0 && EndAfter(found, n) >= SEGMENT_HEADER_SIZE
    decreases n
  {
    if n > 0 { EndIsAligned(found, n - 1); }
  }

  predicate Describes(sum: Summary, found: seq<Bytes>, segment: SegmentID) {
    && sum.count == |found| && sum.validEnd == EndAfter(found, |found|)
    && (found == [] ==> sum.first == sum.last == 0)
    && (found != [] ==> LiesAt(sum.first, segment, SEGMENT_HEADER_SIZE)
                        && LiesAt(sum.last, segment, EndAfter(found, |found| - 1)))
  }

  ghost predicate FindsNone(file: Bytes, at: nat, segment: SegmentID, limit: u32, crc: Checksum) {
    forall p: Bytes :: !RecordAt(file, at, p, segment, limit, crc)
  }

  /** One turn of the loop. */
  method ScanNext(file: Bytes, segment: SegmentID, limit: u32, crc: Checksum, at: nat) returns (step: Step)
    requires segment != 0 && at % 8 == 0 && SEGMENT_HEADER_SIZE <= at < |file|
    ensures if step.Next? then Finds(step, file, at, segment, limit, crc)
            else (step == Stop <==> Torn(file[at..], segment, at, limit, crc))
                 && FindsNone(file, at, segment, limit, crc)
  {
    step := ScanStep(file[at..], segment, at, limit, crc);
    if step.Next? {
      StepFindsRecord(file, segment, at, limit, crc);
    } else {
      StepStops(file[at..], segment, at, limit, crc);
      forall p: Bytes ensures !RecordAt(file, at, p, segment, limit, crc) {
        if RecordAt(file, at, p, segment, limit, crc) { StepMissesNone(file, segment, at, limit, crc, p); }
      }
    }
  }

  function Extended(sum: Summary, size: nat, addr: VAddr): Summary {
    Summary(sum.validEnd + size, sum.count + 1, if sum.count == 0 then addr else sum.first, addr)
  }

  lemma DescribesMore(sum: Summary, found: seq<Bytes>, payload: Bytes, addr: VAddr, segment: SegmentID)
    requires Describes(sum, found, segment) && LiesAt(addr, segment, sum.validEnd)
    ensures Describes(Extended(sum, SizeFor(|payload|), addr), found + [payload], segment)
  {
    EndOfPrefix(found, payload, |found|);
  }

  /** `scanActiveSegment`, on any bytes from the header of the segment on: the visitor gets the
      payloads of the longest run of complete records, and the scan ends without an error if and
      only if what is left is something a crash leaves behind. */
  method Scan(file: Bytes, segment: SegmentID, limit: u32, crc: Checksum)
    returns (r: Option<Summary>, repaired: bool, found: seq<Bytes>)
    requires segment != 0 && SEGMENT_HEADER_SIZE <= |file| <= 0xFFFF_FFFF
    ensures Records(file, found, segment, limit, crc)
    ensures FindsNone(file, EndAfter(found, |found|), segment, limit, crc)
    ensures var end := EndAfter(found, |found|);
            && end <= |file| && (r.Some? <==> Torn(file[end..], segment, end, limit, crc))
            && (r.Some? ==> Describes(r.value, found, segment) && (repaired <==> |file| > end))
  {
    var sum := Summary(SEGMENT_HEADER_SIZE, 0, 0, 0);
    found := [];
    while sum.validEnd < |file|
      invariant Records(file, found, segment, limit, crc) && Describes(sum, found, segment) && sum.validEnd <= |file|
      decreases |file| - sum.validEnd
    {
      EndIsAligned(found, |found|);
      var step := ScanNext(file, segment, limit, crc, sum.validEnd);
      match step
      case Bad => return None, false, found;
      case Stop => return Some(sum), true, found;
      case Next(size, addr, payload) =>
        LastWhole(file, found, payload, segment, limit, crc);
        OneMore(file, found, payload, segment, limit, crc);
        DescribesMore(sum, found, payload, addr, segment);
        sum, found := Extended(sum, size, addr), found + [payload];
    }
    return Some(sum), false, found;
  }

  // ------------------------------------------------------------- what was appended, cut

  /** The file holds these records and perhaps a footer, cut at any byte past the header. */
  predicate Appended(file: Bytes, payloads: seq<Bytes>, footer: Bytes, segment: SegmentID, limit: u32, crc: Checksum) {
    && segment != 0 && Fit(payloads, SEGMENT_HEADER_SIZE, limit) && MaybeFooter(footer)
    && Remaining(file, payloads, footer, segment, SEGMENT_HEADER_SIZE, limit, crc)
  }

  lemma AppendedHere(file: Bytes, payloads: seq<Bytes>, footer: Bytes, segment: SegmentID, limit: u32, crc: Checksum,
                     k: nat)
    requires Appended(file, payloads, footer, segment, limit, crc) && k <= |payloads| && EndAfter(payloads, k) < |file|
    ensures var step := ScanStep(file[EndAfter(payloads, k)..], segment, EndAfter(payloads, k), limit, crc);
            if k < |payloads| && EndAfter(payloads, k + 1) <= |file| then step.Next? && step.payload == payloads[k]
            else step == Stop
  {
    RemainsAt(file, payloads, footer, segment, limit, crc, k);
    assert k < |payloads| ==> payloads[k..][0] == payloads[k];
    StepHere(file, segment, EndAfter(payloads, k), limit, crc, payloads[k..], footer);
  }

  lemma {:induction false} EndsAgree(a: seq<Bytes>, b: seq<Bytes>, n: nat)
    requires n <= |a| && n <= |b| && a[..n] == b[..n]
    ensures EndAfter(a, n) == EndAfter(b, n)
    decreases n
  {
    if n > 0 {
      assert a[..n - 1] == a[..n][..n - 1] == b[..n - 1];
      assert a[n - 1] == a[..n][n - 1] == b[n - 1];
      EndsAgree(a, b, n - 1);
    }
  }

  lemma NextIsAppended(file: Bytes, payloads: seq<Bytes>, footer: Bytes, segment: SegmentID, limit: u32, crc: Checksum,
                       k: nat, payload: Bytes)
    requires Appended(file, payloads, footer, segment, limit, crc) && k <= |payloads|
    requires RecordAt(file, EndAfter(payloads, k), payload, segment, limit, crc)
    ensures k < |payloads| && payloads[k] == payload
  {
    var at := EndAfter(payloads, k);
    StepMissesNone(file, segment, at, limit, crc, payload);
    AppendedHere(file, payloads, footer, segment, limit, crc, k);
  }

  /** The record of this number, if there is one, is not complete in the file. */
  predicate IsCut(file: Bytes, payloads: seq<Bytes>, n: nat) {
    n < |payloads| ==> EndAfter(payloads, n + 1) > |file|
  }

  lemma NextIsTorn(file: Bytes, payloads: seq<Bytes>, footer: Bytes, segment: SegmentID, limit: u32, crc: Checksum,
                   n: nat, at: nat)
    requires Appended(file, payloads, footer, segment, limit, crc)
    requires n <= |payloads| && at == EndAfter(payloads, n) <= |file| && FindsNone(file, at, segment, limit, crc)
    ensures IsCut(file, payloads, n) && Torn(file[at..], segment, at, limit, crc)
  {
    if at < |file| {
      EndIsAligned(payloads, n);
      AppendedHere(file, payloads, footer, segment, limit, crc, n);
      if ScanStep(file[at..], segment, at, limit, crc).Next? {
        StepFindsRecord(file, segment, at, limit, crc);
      } else {
        StepStops(file[at..], segment, at, limit, crc);
      }
    }
  }

  lemma {:induction false} FoundAreAppended(file: Bytes, payloads: seq<Bytes>, footer: Bytes, segment: SegmentID,
                                            limit: u32, crc: Checksum, found: seq<Bytes>, n: nat)
    requires Appended(file, payloads, footer, segment, limit, crc) && Records(file, found, segment, limit, crc)
    requires n <= |found|
    ensures n <= |payloads| && found[..n] == payloads[..n]
    decreases n
  {
    if n > 0 {
      var k := n - 1;
      FoundAreAppended(file, payloads, footer, segment, limit, crc, found, k);
      EndsAgree(found, payloads, k);
      assert Whole(file, found, k, segment, limit, crc);
      NextIsAppended(file, payloads, footer, segment, limit, crc, k, found[k]);
      assert found[..n] == found[..k] + [found[k]] && payloads[..n] == payloads[..k] + [payloads[k]];
    }
  }

  lemma FoundIsPrefix(file: Bytes, payloads: seq<Bytes>, footer: Bytes, segment: SegmentID, limit: u32, crc: Checksum,
                      found: seq<Bytes>)
    requires Appended(file, payloads, footer, segment, limit, crc) && Records(file, found, segment, limit, crc)
    ensures |found| <= |payloads| && found == payloads[..|found|]
  {
    var n := |found|;
    FoundAreAppended(file, payloads, footer, segment, limit, crc, found, n);
    assert found[..n] == found;
  }

  lemma PrefixEnds(found: seq<Bytes>, payloads: seq<Bytes>)
    requires |found| <= |payloads| && found == payloads[..|found|]
    ensures EndAfter(found, |found|) == EndAfter(payloads, |found|)
  {
    assert found[..|found|] == found;
    EndsAgree(found, payloads, |found|);
  }

  /** Cut anywhere, what was appended is found again as far as it is complete, and the rest is no
      error: whatever run of records cannot be extended is the longest one that was written. */
  lemma CutIsScanned(file: Bytes, payloads: seq<Bytes>, footer: Bytes, segment: SegmentID, limit: u32, crc: Checksum,
                     found: seq<Bytes>, end: nat)
    requires Appended(file, payloads, footer, segment, limit, crc) && Records(file, found, segment, limit, crc)
    requires end == EndAfter(found, |found|) <= |file| && FindsNone(file, end, segment, limit, crc)
    ensures |found| <= |payloads| && found == payloads[..|found|]
    ensures IsCut(file, payloads, |found|) && Torn(file[end..], segment, end, limit, crc)
  {
    FoundIsPrefix(file, payloads, footer, segment, limit, crc, found);
    PrefixEnds(found, payloads);
    NextIsTorn(file, payloads, footer, segment, limit, crc, |found|, end);
  }
}
