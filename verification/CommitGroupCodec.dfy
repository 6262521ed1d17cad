/** The commit-group record: decoding and encoding are inverse to each other on everything
    either accepts (internal/recordcodec/codec.go). */
module CommitGroupCodec {
  import opened RecordLog
  import opened Bytes
  import Mapping

  const MAX32 := 0xFFFF_FFFF
  const FORMAT_VERSION := 3
  const COMMIT_GROUP := 2
  const GROUP_HEAD := 32
  const DESCRIPTOR_HEAD := 40
  const MUTATION := 32
  const PROTOCOL_MAGIC: Bytes := [0x52, 0x53, 0x50, 0x32]

  const USER_COMMIT := 1
  const RELOCATION := 2
  const OP_PUT := 1
  const OP_DELETE := 2
  const OP_RELOCATE := 3

  datatype Mutation = Mutation(id: u64, newAddr: u64, expectedOld: u64, op: u8, size: u32)
  datatype Descriptor = Descriptor(kind: u8, batch: u64, commitSeq: u64, logicalBytes: u64, mutations: seq<Mutation>)

  // ----------------------------------------------------------------------- validity

  predicate ValidMutation(kind: u8, m: Mutation) {
    && m.id != 0
    && if kind == USER_COMMIT then
         || (m.op == OP_PUT && ValidRef(RecordRef(m.newAddr, m.size)) && m.expectedOld == 0)
         || (m.op == OP_DELETE && m.newAddr == 0 && m.expectedOld == 0 && m.size == 0)
       else
         kind == RELOCATION && m.op == OP_RELOCATE && ValidRef(RecordRef(m.newAddr, m.size)) && ValidAddr(m.expectedOld)
         && m.newAddr != m.expectedOld
  }

  predicate ValidMutations(kind: u8, ms: seq<Mutation>) {
    && (forall i | 0 <= i < |ms| :: ValidMutation(kind, ms[i]))
    && (forall i | 0 < i < |ms| :: ms[i - 1].id < ms[i].id)
  }

  predicate ValidDescriptor(d: Descriptor) {
    d.batch != 0 && d.commitSeq != 0 && (d.kind == RELOCATION ==> d.mutations != [])
      && ValidMutations(d.kind, d.mutations)
  }

  /** Consecutive sequence numbers and distinct batches. */
  predicate ValidUpTo(ds: seq<Descriptor>, n: nat) {
    && n <= |ds| && (forall i | 0 <= i < n :: ValidDescriptor(ds[i]))
    && (forall i | 0 < i < n :: ds[i].commitSeq == ds[i - 1].commitSeq + 1)
    && (forall i, j | 0 <= i < j < n :: ds[i].batch != ds[j].batch)
  }

  predicate ValidDescriptors(ds: seq<Descriptor>) { ds != [] && ValidUpTo(ds, |ds|) }

  function Batches(ds: seq<Descriptor>, n: nat): set<u64>
    requires n <= |ds|
  {
    set i | 0 <= i < n :: ds[i].batch
  }

  lemma ValidStep(ds: seq<Descriptor>, n: nat)
    requires n < |ds| && ValidUpTo(ds, n)
    ensures ValidUpTo(ds, n + 1) <==>
            ValidDescriptor(ds[n]) && (n > 0 ==> ds[n].commitSeq == ds[n - 1].commitSeq + 1)
              && ds[n].batch !in Batches(ds, n)
    ensures Batches(ds, n + 1) == Batches(ds, n) + {ds[n].batch}
    ensures !ValidUpTo(ds, n + 1) ==> !ValidDescriptors(ds)
  {
  }

  /** `validateDescriptors`, with its set of seen batches. */
  method Validate(ds: seq<Descriptor>) returns (ok: bool)
    ensures ok <==> ValidDescriptors(ds)
  {
    if ds == [] { return false; }
    var previous: u64, seen := 0, {};
    for i := 0 to |ds|
      invariant ValidUpTo(ds, i) && seen == Batches(ds, i) && (i > 0 ==> previous == ds[i - 1].commitSeq)
    {
      var d := ds[i];
      ValidStep(ds, i);
      if d.batch == 0 || d.commitSeq == 0
         || (i != 0 && (previous == MAX64 || d.commitSeq != previous + 1))
      {
        return false;
      }
      if d.batch in seen { return false; }
      seen := seen + {d.batch};
      if d.kind == RELOCATION && d.mutations == [] { return false; }
      previous := d.commitSeq;
      var good := ValidateMutations(d.kind, d.mutations);
      if !good { return false; }
    }
    return true;
  }

  method ValidateMutations(kind: u8, ms: seq<Mutation>) returns (ok: bool)
    ensures ok <==> ValidMutations(kind, ms)
  {
    var previous := 0;
    for i := 0 to |ms|
      invariant forall k | 0 <= k < i :: ValidMutation(kind, ms[k])
      invariant forall k | 0 < k < i :: ms[k - 1].id < ms[k].id
      invariant i > 0 ==> previous == ms[i - 1].id
    {
      var m := ms[i];
      if i != 0 && m.id <= previous { return false; }
      previous := m.id;
      if !ValidMutation(kind, m) { return false; }
    }
    return true;
  }

  // ------------------------------------------------------------------------ mutations

  function MutationByte(m: Mutation, i: nat): u8
    requires i < MUTATION
  {
    if i < 8 then LE(m.id, 8)[i]
    else if i < 16 then LE(m.newAddr, 8)[i - 8]
    else if i < 24 then LE(m.expectedOld, 8)[i - 16]
    else if i < 25 then m.op
    else if i < 29 then LE(m.size, 4)[i - 25]
    else 0
  }

  function MutationBytes(m: Mutation): (s: Bytes)
    ensures |s| == MUTATION && forall i | 0 <= i < MUTATION :: s[i] == MutationByte(m, i)
  {
    seq(MUTATION, i requires 0 <= i < MUTATION => MutationByte(m, i))
  }

  function ReadMutation(s: Bytes): Mutation
    requires |s| == MUTATION
  {
    Mutation(U64(s[..8]), U64(s[8..16]), U64(s[16..24]), s[24], U32(s[25..29]))
  }

  lemma MutationRoundTrip(m: Mutation)
    ensures ReadMutation(MutationBytes(m)) == m && MutationBytes(m)[29..32] == Zeros(3)
  {
    var s := MutationBytes(m);
    assert s[..8] == LE(m.id, 8) && s[8..16] == LE(m.newAddr, 8) && s[16..24] == LE(m.expectedOld, 8)
           && s[25..29] == LE(m.size, 4);
    RoundTrips(0, m.size, m.id);
    RoundTrips(0, 0, m.newAddr);
    RoundTrips(0, 0, m.expectedOld);
  }

  lemma MutationRoundTripBack(s: Bytes)
    requires |s| == MUTATION && s[29..32] == Zeros(3)
    ensures MutationBytes(ReadMutation(s)) == s
  {
    RoundTripsBack(s[..2], s[25..29], s[..8]);
    RoundTripsBack(s[..2], s[..4], s[8..16]);
    RoundTripsBack(s[..2], s[..4], s[16..24]);
    var t := MutationBytes(ReadMutation(s));
    assert forall i | 29 <= i < 32 :: s[i] == s[29..32][i - 29];
    assert forall i | 25 <= i < 29 :: s[i] == s[25..29][i - 25];
    assert t == s;
  }

  function Mutations(ms: seq<Mutation>): (s: Bytes)
    ensures |s| == MUTATION * |ms|
  {
    if ms == [] then [] else MutationBytes(ms[0]) + Mutations(ms[1..])
  }

  /** Reserved bytes must be zero. */
  function ReadMutations(s: Bytes, n: nat): (r: Option<seq<Mutation>>)
    requires |s| == MUTATION * n
    ensures r.Some? ==> |r.value| == n
    decreases n, |s|
  {
    if n == 0 then Some([])
    else if s[29..32] != Zeros(3) then None
    else
      var rest := ReadMutations(s[MUTATION..], n - 1);
      if rest.None? then None else Some([ReadMutation(s[..MUTATION])] + rest.value)
  }

  lemma {:induction false} MutationsRoundTrip(ms: seq<Mutation>)
    ensures ReadMutations(Mutations(ms), |ms|) == Some(ms)
  {
    if ms != [] {
      var s := Mutations(ms);
      MutationRoundTrip(ms[0]);
      MutationsRoundTrip(ms[1..]);
      assert s[..MUTATION] == MutationBytes(ms[0]) && s[MUTATION..] == Mutations(ms[1..]);
      assert s[29..32] == MutationBytes(ms[0])[29..32];
      assert ms == [ms[0]] + ms[1..];
    }
  }

  lemma MutationsCons(m: Mutation, rest: seq<Mutation>)
    ensures Mutations([m] + rest) == MutationBytes(m) + Mutations(rest)
  {
    assert ([m] + rest)[1..] == rest;
  }

  lemma {:induction false} MutationsRoundTripBack(s: Bytes, n: nat)
    requires |s| == MUTATION * n && ReadMutations(s, n).Some?
    ensures Mutations(ReadMutations(s, n).value) == s
    decreases n
  {
    if n > 0 {
      var first, tail := s[..MUTATION], s[MUTATION..];
      assert first[29..32] == s[29..32];
      MutationRoundTripBack(first);
      MutationsRoundTripBack(tail, n - 1);
      MutationsCons(ReadMutation(first), ReadMutations(tail, n - 1).value);
      assert s == first + tail;
    }
  }

  // ---------------------------------------------------------------------- descriptors

  datatype Head = Head(kind: u8, count: u32, batch: u64, commitSeq: u64, logicalBytes: u64, size: u32)

  function HeadByte(h: Head, i: nat): u8
    requires i < DESCRIPTOR_HEAD
  {
    if i < 1 then h.kind
    else if i < 2 then 0
    else if i < 4 then LE(DESCRIPTOR_HEAD, 2)[i - 2]
    else if i < 8 then LE(h.count, 4)[i - 4]
    else if i < 16 then LE(h.batch, 8)[i - 8]
    else if i < 24 then LE(h.commitSeq, 8)[i - 16]
    else if i < 32 then LE(h.logicalBytes, 8)[i - 24]
    else if i < 36 then LE(h.size, 4)[i - 32]
    else 0
  }

  function HeadBytes(h: Head): (s: Bytes)
    ensures |s| == DESCRIPTOR_HEAD && forall i | 0 <= i < DESCRIPTOR_HEAD :: s[i] == HeadByte(h, i)
  {
    seq(DESCRIPTOR_HEAD, i requires 0 <= i < DESCRIPTOR_HEAD => HeadByte(h, i))
  }

  function ReadHead(s: Bytes): (r: Option<Head>)
    requires |s| == DESCRIPTOR_HEAD
  {
    if s[1] != 0 || U16(s[2..4]) != DESCRIPTOR_HEAD || U32(s[36..40]) != 0 then None
    else Some(Head(s[0], U32(s[4..8]), U64(s[8..16]), U64(s[16..24]), U64(s[24..32]), U32(s[32..36])))
  }

  lemma HeadSlices(h: Head)
    ensures var s := HeadBytes(h);
            && s[2..4] == LE(DESCRIPTOR_HEAD, 2) && s[4..8] == LE(h.count, 4) && s[8..16] == LE(h.batch, 8)
            && s[16..24] == LE(h.commitSeq, 8) && s[24..32] == LE(h.logicalBytes, 8) && s[32..36] == LE(h.size, 4)
            && s[36..40] == LE(0, 4)
  {
    ZeroBytes();
  }

  lemma ZeroBytes()
    ensures LE(0, 4) == Zeros(4)
  {
    assert LE(0, 3) == [0, 0, 0];
  }

  lemma HeadRoundTrip(h: Head)
    ensures ReadHead(HeadBytes(h)) == Some(h)
  {
    HeadSlices(h);
    RoundTrips(DESCRIPTOR_HEAD, h.count, h.batch);
    RoundTrips(0, h.size, h.commitSeq);
    RoundTrips(0, 0, h.logicalBytes);
  }

  lemma HeadRoundTripBack(s: Bytes)
    requires |s| == DESCRIPTOR_HEAD && ReadHead(s).Some?
    ensures HeadBytes(ReadHead(s).value) == s
  {
    RoundTripsBack(s[2..4], s[4..8], s[8..16]);
    RoundTripsBack(s[2..4], s[32..36], s[16..24]);
    RoundTripsBack(s[2..4], s[36..40], s[24..32]);
    var t := HeadBytes(ReadHead(s).value);
    HeadSlices(ReadHead(s).value);
    assert t[..2] == s[..2];
    Agree(s, t, 2, 4);
    Agree(s, t, 4, 8);
    Agree(s, t, 8, 16);
    Agree(s, t, 16, 24);
    Agree(s, t, 24, 32);
    Agree(s, t, 32, 36);
    Agree(s, t, 36, 40);
    assert s[..40] == s && t[..40] == t;
  }

  function DescriptorSize(mutations: nat): nat { DESCRIPTOR_HEAD + MUTATION * mutations }

  predicate Fits(d: Descriptor) { DescriptorSize(|d.mutations|) <= MAX32 }

  function HeadOf(d: Descriptor): Head
    requires Fits(d)
  {
    Head(d.kind, |d.mutations|, d.batch, d.commitSeq, d.logicalBytes, DescriptorSize(|d.mutations|))
  }

  function DescriptorBytes(d: Descriptor): (s: Bytes)
    requires Fits(d)
    ensures |s| == DescriptorSize(|d.mutations|)
  {
    HeadBytes(HeadOf(d)) + Mutations(d.mutations)
  }

  /** One descriptor at the front of the bytes; its recorded size must be the exact one. */
  function ReadDescriptor(s: Bytes, maxMutations: nat): (r: Option<Descriptor>)
    ensures r.Some? ==>
      Fits(r.value) && DescriptorSize(|r.value.mutations|) <= |s| && |r.value.mutations| <= maxMutations
  {
    if |s| < DESCRIPTOR_HEAD then None
    else
      var h := ReadHead(s[..DESCRIPTOR_HEAD]);
      if h.None? then None
      else
        var size := DescriptorSize(h.value.count);
        if size > MAX32 || h.value.size != size || size > |s| || h.value.count > maxMutations then None
        else
          var ms := ReadMutations(s[DESCRIPTOR_HEAD..size], h.value.count);
          if ms.None? then None
          else Some(Descriptor(h.value.kind, h.value.batch, h.value.commitSeq, h.value.logicalBytes, ms.value))
  }

  lemma DescriptorRoundTrip(d: Descriptor, rest: Bytes, maxMutations: nat)
    requires Fits(d) && |d.mutations| <= maxMutations
    ensures ReadDescriptor(DescriptorBytes(d) + rest, maxMutations) == Some(d)
  {
    var s := DescriptorBytes(d) + rest;
    HeadRoundTrip(HeadOf(d));
    MutationsRoundTrip(d.mutations);
    assert s[..DESCRIPTOR_HEAD] == HeadBytes(HeadOf(d));
    assert s[DESCRIPTOR_HEAD..DescriptorSize(|d.mutations|)] == Mutations(d.mutations);
  }

  lemma DescriptorRoundTripBack(s: Bytes, maxMutations: nat)
    requires ReadDescriptor(s, maxMutations).Some?
    ensures var d := ReadDescriptor(s, maxMutations).value; DescriptorBytes(d) == s[..DescriptorSize(|d.mutations|)]
  {
    var d := ReadDescriptor(s, maxMutations).value;
    var size := DescriptorSize(|d.mutations|);
    HeadRoundTripBack(s[..DESCRIPTOR_HEAD]);
    MutationsRoundTripBack(s[DESCRIPTOR_HEAD..size], |d.mutations|);
    assert s[..size] == s[..DESCRIPTOR_HEAD] + s[DESCRIPTOR_HEAD..size];
  }

  function TotalSize(ds: seq<Descriptor>): nat {
    if ds == [] then 0 else DescriptorSize(|ds[0].mutations|) + TotalSize(ds[1..])
  }

  function TotalMutations(ds: seq<Descriptor>): nat {
    if ds == [] then 0 else |ds[0].mutations| + TotalMutations(ds[1..])
  }

  lemma {:induction false} TotalsBound(ds: seq<Descriptor>)
    ensures TotalSize(ds) == DESCRIPTOR_HEAD * |ds| + MUTATION * TotalMutations(ds)
  {
    if ds != [] { TotalsBound(ds[1..]); }
  }

  predicate AllFit(ds: seq<Descriptor>) { TotalSize(ds) <= MAX32 }

  function DescriptorsBytes(ds: seq<Descriptor>): (s: Bytes)
    requires AllFit(ds)
    ensures |s| == TotalSize(ds)
  {
    if ds == [] then [] else DescriptorBytes(ds[0]) + DescriptorsBytes(ds[1..])
  }

  /** A reader of one descriptor at the front of the bytes, with at most so many mutations. */
  type Reader = (Bytes, nat) -> Option<Descriptor>

  /** Exactly n descriptors, and nothing after them. */
  function ReadAll(read: Reader, s: Bytes, n: nat, maxMutations: nat): Option<seq<Descriptor>>
    decreases n
  {
    if n == 0 then if s == [] then Some([]) else None
    else
      var d := read(s, maxMutations);
      if d.None? || DescriptorSize(|d.value.mutations|) > |s| || |d.value.mutations| > maxMutations then None
      else
        var rest := ReadAll(read, s[DescriptorSize(|d.value.mutations|)..], n - 1, maxMutations - |d.value.mutations|);
        if rest.None? then None else Some([d.value] + rest.value)
  }

  /** The reader accepts only encodings. */
  ghost predicate Sound(read: Reader) {
    forall s: Bytes, max: nat :: read(s, max).Some? ==> IsEncoded(s, read(s, max).value)
  }

  /** The reader accepts every encoding, whatever follows it. */
  ghost predicate Complete(read: Reader) {
    forall d: Descriptor, rest: Bytes, max: nat | Fits(d) && |d.mutations| <= max ::
      read(DescriptorBytes(d) + rest, max) == Some(d)
  }

  lemma {:induction false} ReadSound(read: Reader, s: Bytes, n: nat, maxMutations: nat)
    requires Sound(read) && ReadAll(read, s, n, maxMutations).Some?
    ensures var ds := ReadAll(read, s, n, maxMutations).value;
            |ds| == n && TotalMutations(ds) <= maxMutations && Chain(s, ds)
    decreases n
  {
    if n > 0 {
      var d, ds := read(s, maxMutations).value, ReadAll(read, s, n, maxMutations).value;
      ReadSound(read, s[DescriptorSize(|d.mutations|)..], n - 1, maxMutations - |d.mutations|);
      assert ds[0] == d
             && ds[1..] == ReadAll(read, s[DescriptorSize(|d.mutations|)..], n - 1, maxMutations - |d.mutations|).value;
    }
  }

  lemma {:induction false} ReadComplete(read: Reader, ds: seq<Descriptor>, maxMutations: nat)
    requires Complete(read) && AllFit(ds) && TotalMutations(ds) <= maxMutations
    ensures ReadAll(read, DescriptorsBytes(ds), |ds|, maxMutations) == Some(ds)
  {
    if ds != [] {
      var s, rest := DescriptorsBytes(ds), DescriptorsBytes(ds[1..]);
      assert s == DescriptorBytes(ds[0]) + rest && read(s, maxMutations) == Some(ds[0]);
      assert s[DescriptorSize(|ds[0].mutations|)..] == rest;
      ReadComplete(read, ds[1..], maxMutations - |ds[0].mutations|);
      assert ds == [ds[0]] + ds[1..];
    }
  }

  lemma ReaderIsSound()
    ensures Sound(ReadDescriptor)
  {
    forall s: Bytes, max: nat | ReadDescriptor(s, max).Some? ensures IsEncoded(s, ReadDescriptor(s, max).value) {
      DescriptorRoundTripBack(s, max);
    }
  }

  lemma ReaderIsComplete()
    ensures Complete(ReadDescriptor)
  {
    forall d: Descriptor, rest: Bytes, max: nat | Fits(d) && |d.mutations| <= max
      ensures ReadDescriptor(DescriptorBytes(d) + rest, max) == Some(d)
    {
      DescriptorRoundTrip(d, rest, max);
    }
  }

  /** The descriptors of a group: exactly so many, and nothing behind them. */
  function ReadDescriptors(s: Bytes, n: nat, maxMutations: nat): (r: Option<seq<Descriptor>>)
    ensures r.Some? ==> |r.value| == n && TotalMutations(r.value) <= maxMutations && TotalSize(r.value) == |s|
  {
    var r := ReadAll(ReadDescriptor, s, n, maxMutations);
    assert r.Some? ==> |r.value| == n && TotalMutations(r.value) <= maxMutations && TotalSize(r.value) == |s| by {
      if r.Some? {
        ReaderIsSound();
        ReadSound(ReadDescriptor, s, n, maxMutations);
        ChainSize(s, r.value);
      }
    }
    r
  }

  lemma DescriptorsRoundTrip(ds: seq<Descriptor>, maxMutations: nat)
    requires AllFit(ds) && TotalMutations(ds) <= maxMutations
    ensures ReadDescriptors(DescriptorsBytes(ds), |ds|, maxMutations) == Some(ds)
  {
    ReaderIsComplete();
    ReadComplete(ReadDescriptor, ds, maxMutations);
  }

  lemma DescriptorsCons(d: Descriptor, rest: seq<Descriptor>)
    requires DescriptorSize(|d.mutations|) + TotalSize(rest) <= MAX32
    ensures AllFit([d] + rest) && DescriptorsBytes([d] + rest) == DescriptorBytes(d) + DescriptorsBytes(rest)
  {
    assert ([d] + rest)[1..] == rest;
  }

  /** The bytes are the encoding of the descriptors. */
  predicate Inverts(s: Bytes, ds: seq<Descriptor>) { AllFit(ds) && DescriptorsBytes(ds) == s }

  /** The bytes are these descriptors' own encodings, one after the other. */
  ghost predicate Chain(s: Bytes, ds: seq<Descriptor>)
    decreases |ds|
  {
    if ds == [] then s == [] else IsEncoded(s, ds[0]) && Chain(s[DescriptorSize(|ds[0].mutations|)..], ds[1..])
  }

  /** The bytes begin with the descriptor's own encoding. */
  predicate IsEncoded(s: Bytes, d: Descriptor) {
    Fits(d) && DescriptorSize(|d.mutations|) <= |s| && s[..DescriptorSize(|d.mutations|)] == DescriptorBytes(d)
  }

  lemma {:induction false} ChainSize(s: Bytes, ds: seq<Descriptor>)
    requires Chain(s, ds)
    ensures TotalSize(ds) == |s|
    decreases |ds|
  {
    if ds != [] { ChainSize(s[DescriptorSize(|ds[0].mutations|)..], ds[1..]); }
  }

  lemma {:induction false} ChainInverts(s: Bytes, ds: seq<Descriptor>)
    requires Chain(s, ds) && |s| <= MAX32
    ensures Inverts(s, ds)
    decreases |ds|
  {
    if ds != [] {
      var size := DescriptorSize(|ds[0].mutations|);
      ChainInverts(s[size..], ds[1..]);
      DescriptorsCons(ds[0], ds[1..]);
      assert ds == [ds[0]] + ds[1..] && s == s[..size] + s[size..];
    }
  }

  lemma DescriptorsRoundTripBack(s: Bytes, n: nat, maxMutations: nat, ds: seq<Descriptor>)
    requires |s| <= MAX32 && ReadDescriptors(s, n, maxMutations) == Some(ds)
    ensures Inverts(s, ds)
  {
    ReaderIsSound();
    ReadSound(ReadDescriptor, s, n, maxMutations);
    ChainInverts(s, ds);
  }

  // --------------------------------------------------------------------------- groups

  datatype GroupHead = GroupHead(total: u32, count: u32, mutations: u32, firstSeq: u64)

  function GroupByte(h: GroupHead, i: nat): u8
    requires i < GROUP_HEAD
  {
    if i < 4 then PROTOCOL_MAGIC[i]
    else if i < 6 then LE(FORMAT_VERSION, 2)[i - 4]
    else if i < 7 then COMMIT_GROUP
    else if i < 8 then 0
    else if i < 10 then LE(GROUP_HEAD, 2)[i - 8]
    else if i < 12 then LE(0, 2)[i - 10]
    else if i < 16 then LE(h.total, 4)[i - 12]
    else if i < 20 then LE(h.count, 4)[i - 16]
    else if i < 24 then LE(h.mutations, 4)[i - 20]
    else LE(h.firstSeq, 8)[i - 24]
  }

  function GroupBytes(h: GroupHead): (s: Bytes)
    ensures |s| == GROUP_HEAD && forall i | 0 <= i < GROUP_HEAD :: s[i] == GroupByte(h, i)
  {
    seq(GROUP_HEAD, i requires 0 <= i < GROUP_HEAD => GroupByte(h, i))
  }

  /** `decodeHeader` for a commit group, and the three counts behind it. */
  function ReadGroupHead(s: Bytes, length: nat): (r: Option<GroupHead>)
    requires |s| == GROUP_HEAD
  {
    if s[..4] != PROTOCOL_MAGIC || U16(s[4..6]) != FORMAT_VERSION then None
    else if s[6] != COMMIT_GROUP || s[7] != 0 || U16(s[8..10]) != GROUP_HEAD
         || U16(s[10..12]) != 0 || U32(s[12..16]) != length then None
    else Some(GroupHead(U32(s[12..16]), U32(s[16..20]), U32(s[20..24]), U64(s[24..32])))
  }

  lemma GroupSlices(h: GroupHead)
    ensures var s := GroupBytes(h);
            && s[..4] == PROTOCOL_MAGIC && s[4..6] == LE(FORMAT_VERSION, 2) && s[8..10] == LE(GROUP_HEAD, 2)
            && s[10..12] == LE(0, 2)
            && s[12..16] == LE(h.total, 4) && s[16..20] == LE(h.count, 4) && s[20..24] == LE(h.mutations, 4)
            && s[24..32] == LE(h.firstSeq, 8)
  {
  }

  lemma GroupHeadRoundTrip(h: GroupHead)
    ensures ReadGroupHead(GroupBytes(h), h.total) == Some(h)
  {
    GroupSlices(h);
    RoundTrips(FORMAT_VERSION, h.total, h.firstSeq);
    RoundTrips(GROUP_HEAD, h.count, 0);
    RoundTrips(0, h.mutations, 0);
  }

  lemma GroupHeadRoundTripBack(s: Bytes, length: nat)
    requires |s| == GROUP_HEAD && ReadGroupHead(s, length).Some?
    ensures GroupBytes(ReadGroupHead(s, length).value) == s
  {
    RoundTripsBack(s[4..6], s[12..16], s[24..32]);
    RoundTripsBack(s[8..10], s[16..20], s[24..32]);
    RoundTripsBack(s[10..12], s[20..24], s[24..32]);
    var t := GroupBytes(ReadGroupHead(s, length).value);
    GroupSlices(ReadGroupHead(s, length).value);
    Agree(s, t, 4, 6);
    assert t[6..8] == s[6..8];
    Agree(s, t, 6, 8);
    Agree(s, t, 8, 10);
    Agree(s, t, 10, 12);
    Agree(s, t, 12, 16);
    Agree(s, t, 16, 20);
    Agree(s, t, 20, 24);
    Agree(s, t, 24, 32);
    assert s[..32] == s && t[..32] == t;
  }

  /** What `EncodeCommitGroup` accepts. */
  predicate Encodable(ds: seq<Descriptor>, maxPayload: nat) {
    GROUP_HEAD + TotalSize(ds) <= MAX32 && GROUP_HEAD + TotalSize(ds) <= maxPayload && ValidDescriptors(ds)
  }

  function GroupHeadOf(ds: seq<Descriptor>): GroupHead
    requires ds != [] && GROUP_HEAD + TotalSize(ds) <= MAX32
  {
    TotalsBound(ds);
    GroupHead(GROUP_HEAD + TotalSize(ds), |ds|, TotalMutations(ds), ds[0].commitSeq)
  }

  function Encode(ds: seq<Descriptor>, maxPayload: nat): Option<Bytes> {
    if Encodable(ds, maxPayload) then Some(GroupBytes(GroupHeadOf(ds)) + DescriptorsBytes(ds)) else None
  }

  datatype Limits = Limits(payload: nat, descriptors: nat, mutations: nat)

  predicate HeadWithin(h: GroupHead, length: nat, limits: Limits)
    requires length >= GROUP_HEAD
  {
    && 0 < h.count <= limits.descriptors && h.count <= (length - GROUP_HEAD) / DESCRIPTOR_HEAD
    && h.mutations <= limits.mutations && h.firstSeq != 0
  }

  /** `DecodeCommitGroup`. */
  function Decode(src: Bytes, limits: Limits): (r: Option<seq<Descriptor>>) {
    if |src| > limits.payload || |src| < GROUP_HEAD || |src| > MAX32 then None
    else
      var h := ReadGroupHead(src[..GROUP_HEAD], |src|);
      if h.None? || !HeadWithin(h.value, |src|, limits) then None
      else
        var ds := ReadDescriptors(src[GROUP_HEAD..], h.value.count, limits.mutations);
        if ds.None? || TotalMutations(ds.value) != h.value.mutations || !ValidDescriptors(ds.value) then None
        else if ds.value[0].commitSeq != h.value.firstSeq then None
        else ds
  }

  predicate Within(ds: seq<Descriptor>, limits: Limits) {
    |ds| <= limits.descriptors && TotalMutations(ds) <= limits.mutations
  }

  lemma EncodedHead(ds: seq<Descriptor>, limits: Limits)
    requires Encodable(ds, limits.payload) && Within(ds, limits)
    ensures HeadWithin(GroupHeadOf(ds), GROUP_HEAD + TotalSize(ds), limits)
  {
    TotalsBound(ds);
    assert ValidDescriptor(ds[0]);
  }

  /** Decoding what was encoded gives the group back, within the configured limits. */
  lemma DecodeEncode(ds: seq<Descriptor>, limits: Limits)
    requires Encodable(ds, limits.payload) && Within(ds, limits)
    ensures Decode(Encode(ds, limits.payload).value, limits) == Some(ds)
  {
    var s, h := Encode(ds, limits.payload).value, GroupHeadOf(ds);
    EncodedHead(ds, limits);
    GroupHeadRoundTrip(h);
    DescriptorsRoundTrip(ds, limits.mutations);
    assert s[..GROUP_HEAD] == GroupBytes(h) && s[GROUP_HEAD..] == DescriptorsBytes(ds);
  }

  /** Whatever decodes is the encoding of the group it decodes to, byte for byte. */
  lemma EncodeDecode(src: Bytes, limits: Limits)
    requires Decode(src, limits).Some?
    ensures var ds := Decode(src, limits).value; Within(ds, limits) && Encode(ds, limits.payload) == Some(src)
  {
    var ds := Decode(src, limits).value;
    var h := ReadGroupHead(src[..GROUP_HEAD], |src|).value;
    GroupHeadRoundTripBack(src[..GROUP_HEAD], |src|);
    DescriptorsRoundTripBack(src[GROUP_HEAD..], h.count, limits.mutations, ds);
    assert GroupHeadOf(ds) == h;
    assert src == src[..GROUP_HEAD] + src[GROUP_HEAD..];
  }

  // -------------------------------------------------------- what replay makes of it

  function ChangeOf(m: Mutation): Mapping.Change {
    Mapping.Change(m.id, RecordRef(m.newAddr, m.size), m.expectedOld,
                   if m.op == OP_PUT then Mapping.Put
                   else if m.op == OP_DELETE then Mapping.Delete else Mapping.Relocate)
  }

  function ProposalOf(d: Descriptor): Mapping.Proposal {
    Mapping.Proposal(if d.kind == RELOCATION then Mapping.Relocation else Mapping.UserCommit, [],
                     seq(|d.mutations|, i requires 0 <= i < |d.mutations| => ChangeOf(d.mutations[i])))
  }

  /** A decoded descriptor is a proposal the mapping accepts: sorted, without duplicates, and
      with the references its kind demands. */
  lemma DecodedIsProposal(d: Descriptor)
    requires ValidDescriptor(d)
    ensures Mapping.ValidProposal(ProposalOf(d))
  {
    var p := ProposalOf(d);
    forall i | 0 <= i < |p.changes| ensures Mapping.ValidChange(p.kind, p.changes[i]) {
      assert ValidMutation(d.kind, d.mutations[i]);
    }
    forall i, j | 0 <= i < j < |p.changes| ensures p.changes[i].id < p.changes[j].id { Sorted(d.mutations, i, j); }
  }

  lemma {:induction false} Sorted(ms: seq<Mutation>, i: nat, j: nat)
    requires i < j < |ms| && forall k | 0 < k < |ms| :: ms[k - 1].id < ms[k].id
    ensures ms[i].id < ms[j].id
    decreases j
  {
    if i + 1 < j { Sorted(ms, i, j - 1); }
  }
}
