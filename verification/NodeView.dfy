/** A radix node in memory: sparse nodes keep a bitmap and packed values, dense ones all 512
    slots; lookups and expansion agree with the slots the node was built from
    (internal/mapstore/node.go). */
module NodeView {
  import opened RecordLog
  import opened NodeBitmap

  /** A slot's value and, in a leaf, the record's physical size. Value 0 is an empty slot. */
  datatype Entry = Entry(value: u64, size: u32)
  const EMPTY := Entry(0, 0)

  function Flags(es: seq<Entry>): (flags: seq<bool>)
    ensures |flags| == |es| && forall i | 0 <= i < |es| :: flags[i] <==> es[i].value != 0
  {
    seq(|es|, i requires 0 <= i < |es| => es[i].value != 0)
  }

  function Pack(es: seq<Entry>): seq<Entry> {
    if es == [] then [] else (if es[0].value != 0 then [es[0]] else []) + Pack(es[1..])
  }

  lemma {:induction false} PackAppends(a: seq<Entry>, b: seq<Entry>)
    ensures Pack(a + b) == Pack(a) + Pack(b)
  {
    if a == [] {
      assert a + b == b;
    } else {
      PackAppends(a[1..], b);
      assert (a + b)[1..] == a[1..] + b;
      Regroup(if a[0].value != 0 then [a[0]] else [], Pack(a[1..]), Pack(b));
    }
  }

  lemma Regroup(x: seq<Entry>, y: seq<Entry>, z: seq<Entry>)
    ensures x + (y + z) == (x + y) + z
  {
  }

  lemma {:induction false} PackCounts(es: seq<Entry>)
    ensures |Pack(es)| == Count(Flags(es))
  {
    if es != [] {
      PackCounts(es[1..]);
      assert Flags(es)[1..] == Flags(es[1..]);
    }
  }

  /** A slot's packed position is the number of occupied slots before it. */
  lemma PackAt(es: seq<Entry>, slot: nat)
    requires slot < |es| && es[slot].value != 0
    ensures var k := Count(Flags(es)[..slot]); k < |Pack(es)| && Pack(es)[k] == es[slot]
  {
    var before, here, after := es[..slot], [es[slot]], es[slot + 1..];
    assert es == before + (here + after);
    PackAppends(before, here + after);
    PackAppends(here, after);
    PackCounts(before);
    assert Pack(here) == here;
    assert Flags(before) == Flags(es)[..slot];
  }

  datatype Node = Node(level: u8, dense: bool, nodeSeq: u64, prefix: u64, covered: u64, count: u16,
                       bitmap: seq<u64>, entries: seq<Entry>)

  /** The node stands for these slots. */
  predicate Holds(n: Node, es: seq<Entry>) {
    && |es| == SLOTS && |n.bitmap| == WORDS
    && if n.dense then n.entries == es else n.bitmap == BitmapOf(Flags(es)) && n.entries == Pack(es)
  }

  function SlotOf(es: seq<Entry>, slot: nat): Option<Entry> {
    if slot < |es| && es[slot].value != 0 then Some(es[slot]) else None
  }

  /** `Lookup` and `LookupRef`: a bitmap test and a population count. */
  method Lookup(n: Node, slot: nat, ghost es: seq<Entry>) returns (r: Option<Entry>)
    requires Holds(n, es)
    ensures r == SlotOf(es, slot)
  {
    if slot >= SLOTS { return None; }
    if n.dense { return if n.entries[slot].value != 0 then Some(n.entries[slot]) else None; }
    var present, index := Rank(n.bitmap, slot / WORD_BITS, slot % WORD_BITS, Flags(es));
    assert WORD_BITS * (slot / WORD_BITS) + slot % WORD_BITS == slot;
    if !present { return None; }
    PackAt(es, slot);
    return Some(n.entries[index]);
  }

  method Rank(bitmap: seq<u64>, word: nat, bit: nat, ghost flags: seq<bool>) returns (present: bool, index: nat)
    requires |flags| == SLOTS && bitmap == BitmapOf(flags) && word < WORDS && bit < WORD_BITS
    ensures present == flags[WORD_BITS * word + bit]
    ensures present ==> index == Count(flags[..WORD_BITS * word + bit])
  {
    RankIsCount(flags, bitmap, word, bit);
    if !TestBit(bitmap[word], bit) { return false, 0; }
    index := OnesBefore(bitmap, word);
    index := index + OnesCount(LowBits(bitmap[word], bit));
    return true, index;
  }

  /** The set bits of the words before one. */
  method OnesBefore(bitmap: seq<u64>, word: nat) returns (index: nat)
    requires word <= |bitmap|
    ensures index == RankSum(bitmap, word)
  {
    index := 0;
    for i := 0 to word
      invariant index == RankSum(bitmap, i)
    {
      index := index + OnesCount(bitmap[i]);
    }
  }

  // ----------------------------------------------------------------------- expansion

  /** Slots at and beyond `limit` are still empty. */
  predicate ExpandedTo(slots: seq<Entry>, es: seq<Entry>, limit: nat) {
    && |slots| == SLOTS && |es| == SLOTS
    && forall i | 0 <= i < SLOTS :: slots[i] == if i < limit && es[i].value != 0 then es[i] else EMPTY
  }

  /** What is left of a word after the bits below c were taken. */
  predicate Rest(g: seq<bool>, part: seq<bool>, c: nat) {
    |g| == |part| && c <= |part| && forall i | 0 <= i < |part| :: g[i] == (part[i] && i >= c)
  }

  lemma ExpandMore(slots: seq<Entry>, es: seq<Entry>, c: nat, t: nat)
    requires ExpandedTo(slots, es, c) && c <= t < SLOTS && es[t].value != 0 && forall i | c <= i < t :: es[i].value == 0
    ensures ExpandedTo(slots[t := es[t]], es, t + 1)
  {
  }

  lemma ExpandRest(slots: seq<Entry>, es: seq<Entry>, c: nat, d: nat)
    requires ExpandedTo(slots, es, c) && c <= d <= SLOTS && forall i | c <= i < d :: es[i].value == 0
    ensures ExpandedTo(slots, es, d)
  {
  }

  /** Expanded up to a slot, with the rank of the next value. */
  predicate Expanding(slots: seq<Entry>, rank: nat, es: seq<Entry>, limit: nat) {
    ExpandedTo(slots, es, limit) && limit <= SLOTS && rank == Count(Flags(es)[..limit])
  }

  lemma NextSlot(slots: seq<Entry>, es: seq<Entry>, c: nat, t: nat, rank: nat)
    requires Expanding(slots, rank, es, c) && c <= t < SLOTS && es[t].value != 0
    requires forall i | c <= i < t :: es[i].value == 0
    requires Count(Flags(es)[..c]) == Count(Flags(es)[..t]) && Count(Flags(es)[..t + 1]) == Count(Flags(es)[..t]) + 1
    ensures rank < |Pack(es)| && Expanding(slots[t := Pack(es)[rank]], rank + 1, es, t + 1)
  {
    PackAt(es, t);
    ExpandMore(slots, es, c, t);
  }

  /** The next set bit of a word, and the rank of its slot. */
  lemma NextBit(es: seq<Entry>, w: nat, c: nat, g: seq<bool>)
    requires |es| == SLOTS && w < WORDS && Rest(g, Part(Flags(es), w), c) && WordOf(g) != 0
    ensures var t := TrailingZeros(WordOf(g));
            && c <= t < WORD_BITS && es[WORD_BITS * w + t].value != 0 && ClearBit(WordOf(g), t) == WordOf(g[t := false])
            && Rest(g[t := false], Part(Flags(es), w), t + 1)
            && (forall i | WORD_BITS * w + c <= i < WORD_BITS * w + t :: es[i].value == 0)
            && Count(Flags(es)[..WORD_BITS * w + c]) == Count(Flags(es)[..WORD_BITS * w + t])
            && Count(Flags(es)[..WORD_BITS * w + t + 1]) == Count(Flags(es)[..WORD_BITS * w + t]) + 1
  {
    LowestBit(g);
    var t, flags := TrailingZeros(WordOf(g)), Flags(es);
    GapIsEmpty(flags, w, c, t, g);
    CountNone(flags, WORD_BITS * w + c, WORD_BITS * w + t);
    CountStep(flags, WORD_BITS * w + t);
  }

  lemma GapIsEmpty(flags: seq<bool>, w: nat, c: nat, t: nat, g: seq<bool>)
    requires |flags| == SLOTS && w < WORDS && Rest(g, Part(flags, w), c) && t < WORD_BITS
             && g[t] && forall i | 0 <= i < t :: !g[i]
    ensures c <= t && flags[WORD_BITS * w + t] && Rest(g[t := false], Part(flags, w), t + 1)
    ensures forall i | WORD_BITS * w + c <= i < WORD_BITS * w + t :: !flags[i]
  {
    var base := WORD_BITS * w;
    assert forall i | 0 <= i < WORD_BITS :: Part(flags, w)[i] == flags[base + i];
    forall i | base + c <= i < base + t ensures !flags[i] { assert !g[i - base]; }
  }

  lemma NoBitLeft(es: seq<Entry>, w: nat, c: nat, g: seq<bool>)
    requires |es| == SLOTS && w < WORDS && Rest(g, Part(Flags(es), w), c) && WordOf(g) == 0
    ensures forall i | WORD_BITS * w + c <= i < WORD_BITS * w + WORD_BITS :: es[i].value == 0
    ensures Count(Flags(es)[..WORD_BITS * w + c]) == Count(Flags(es)[..WORD_BITS * w + WORD_BITS])
  {
    ZeroWord(g);
    var base, flags := WORD_BITS * w, Flags(es);
    assert forall i | 0 <= i < WORD_BITS :: Part(flags, w)[i] == flags[base + i];
    forall i | base + c <= i < base + WORD_BITS ensures !flags[i] { assert !g[i - base]; }
    CountNone(flags, base + c, base + WORD_BITS);
  }

  /** `Slots` and `Refs` of a sparse node: iterate the set bits word by word. */
  method ExpandSparse(n: Node, ghost es: seq<Entry>) returns (slots: seq<Entry>)
    requires Holds(n, es) && !n.dense
    ensures ExpandedTo(slots, es, SLOTS)
  {
    slots := seq(SLOTS, i => EMPTY);
    var valueIndex := 0;
    for w := 0 to WORDS
      invariant Expanding(slots, valueIndex, es, WORD_BITS * w)
    {
      slots, valueIndex := ExpandWord(n, w, slots, valueIndex, es);
    }
  }

  /** Inside word w, with the bits below c taken: `word` is what is left of it. */
  ghost predicate InWord(es: seq<Entry>, w: nat, c: nat, g: seq<bool>, word: nat, slots: seq<Entry>, rank: nat) {
    && |es| == SLOTS && w < WORDS && c <= WORD_BITS && word == WordOf(g) && Rest(g, Part(Flags(es), w), c)
    && Expanding(slots, rank, es, WORD_BITS * w + c)
  }

  lemma WordBegins(n: Node, es: seq<Entry>, w: nat, slots: seq<Entry>, rank: nat)
    requires Holds(n, es) && !n.dense && w < WORDS && Expanding(slots, rank, es, WORD_BITS * w)
    ensures InWord(es, w, 0, Part(Flags(es), w), n.bitmap[w], slots, rank)
  {
  }

  lemma WordEnds(es: seq<Entry>, w: nat, c: nat, g: seq<bool>, slots: seq<Entry>, rank: nat)
    requires InWord(es, w, c, g, 0, slots, rank)
    ensures Expanding(slots, rank, es, WORD_BITS * (w + 1))
  {
    NoBitLeft(es, w, c, g);
    ExpandRest(slots, es, WORD_BITS * w + c, WORD_BITS * w + WORD_BITS);
  }

  /** One set bit: its slot takes the next packed value. */
  method TakeBit(n: Node, w: nat, before: seq<Entry>, rank: nat, word: nat,
                 ghost es: seq<Entry>, ghost c: nat, ghost g: seq<bool>)
    returns (slots: seq<Entry>, left: nat, ghost c2: nat, ghost g2: seq<bool>)
    requires Holds(n, es) && !n.dense && InWord(es, w, c, g, word, before, rank) && word != 0
    ensures c < c2 && InWord(es, w, c2, g2, left, slots, rank + 1)
  {
    var bit := TrailingZeros(word);
    BitTaken(es, w, c, g, word, before, rank, bit);
    slots := before[WORD_BITS * w + bit := n.entries[rank]];
    left := ClearBit(word, bit);
    c2, g2 := bit + 1, g[bit := false];
  }

  lemma BitTaken(es: seq<Entry>, w: nat, c: nat, g: seq<bool>, word: nat, slots: seq<Entry>, rank: nat, bit: nat)
    requires InWord(es, w, c, g, word, slots, rank) && word != 0 && bit == TrailingZeros(word)
    ensures c <= bit < WORD_BITS && |g| == WORD_BITS && WORD_BITS * w + bit < |slots| && rank < |Pack(es)|
    ensures InWord(es, w, bit + 1, g[bit := false], ClearBit(word, bit),
                   slots[WORD_BITS * w + bit := Pack(es)[rank]], rank + 1)
  {
    NextBit(es, w, c, g);
    NextSlot(slots, es, WORD_BITS * w + c, WORD_BITS * w + bit, rank);
  }

  method ExpandWord(n: Node, w: nat, before: seq<Entry>, rank: nat, ghost es: seq<Entry>)
    returns (slots: seq<Entry>, valueIndex: nat)
    requires Holds(n, es) && !n.dense && w < WORDS && Expanding(before, rank, es, WORD_BITS * w)
    ensures Expanding(slots, valueIndex, es, WORD_BITS * (w + 1))
  {
    slots, valueIndex := before, rank;
    var word: nat := n.bitmap[w];
    ghost var c: nat, g := 0, Part(Flags(es), w);
    WordBegins(n, es, w, before, rank);
    while word != 0
      invariant InWord(es, w, c, g, word, slots, valueIndex)
      decreases WORD_BITS - c
    {
      slots, word, c, g := TakeBit(n, w, slots, valueIndex, word, es, c, g);
      valueIndex := valueIndex + 1;
    }
    WordEnds(es, w, c, g, slots, valueIndex);
  }
}
