/** The occupancy bitmap of a sparse node: 8 words of 64 bits, and rank by population count
    (internal/mapstore/node.go). */
module NodeBitmap {
  import opened RecordLog
  import Radix

  function Pow2(n: nat): (p: nat)
    ensures p > 0
  {
    if n == 0 then 1 else 2 * Pow2(n - 1)
  }

  /** A word with these bits, the lowest first. */
  function WordOf(flags: seq<bool>): (w: nat)
    ensures w < Pow2(|flags|)
  {
    if flags == [] then 0 else (if flags[0] then 1 else 0) + 2 * WordOf(flags[1..])
  }

  function Count(flags: seq<bool>): (n: nat)
    ensures n <= |flags|
  {
    if flags == [] then 0 else (if flags[0] then 1 else 0) + Count(flags[1..])
  }

  /** `bits.OnesCount64`. */
  function OnesCount(w: nat): nat { if w == 0 then 0 else w % 2 + OnesCount(w / 2) }

  /** `w & (1 << b) != 0`. */
  predicate TestBit(w: nat, b: nat) { Radix.Shift(w, b) % 2 == 1 }

  /** `w & ((1 << b) - 1)`. */
  function LowBits(w: nat, b: nat): nat
    decreases b, w
  {
    if b == 0 then 0 else w % 2 + 2 * LowBits(w / 2, b - 1)
  }

  lemma Halves(flags: seq<bool>)
    requires flags != []
    ensures WordOf(flags) / 2 == WordOf(flags[1..]) && WordOf(flags) % 2 == if flags[0] then 1 else 0
  {
  }

  lemma {:induction false} WordSplits(flags: seq<bool>, b: nat)
    requires b <= |flags|
    ensures LowBits(WordOf(flags), b) == WordOf(flags[..b]) && Radix.Shift(WordOf(flags), b) == WordOf(flags[b..])
    decreases b
  {
    if b > 0 {
      Halves(flags);
      WordSplits(flags[1..], b - 1);
      assert flags[..b][1..] == flags[1..][..b - 1];
      assert flags[1..][b - 1..] == flags[b..];
    } else {
      assert flags[0..] == flags && flags[..0] == [];
    }
  }

  lemma BitOfWord(flags: seq<bool>, b: nat)
    requires b < |flags|
    ensures TestBit(WordOf(flags), b) <==> flags[b]
  {
    WordSplits(flags, b);
    Halves(flags[b..]);
  }

  lemma {:induction false} CountOfWord(flags: seq<bool>)
    ensures OnesCount(WordOf(flags)) == Count(flags)
  {
    if flags != [] {
      CountOfWord(flags[1..]);
      var w := WordOf(flags);
      assert w % 2 == (if flags[0] then 1 else 0) && w / 2 == WordOf(flags[1..]);
    }
  }

  lemma {:induction false} CountSplits(a: seq<bool>, b: seq<bool>)
    ensures Count(a + b) == Count(a) + Count(b)
  {
    if a == [] {
      assert a + b == b;
    } else {
      CountSplits(a[1..], b);
      assert (a + b)[1..] == a[1..] + b;
    }
  }

  lemma CountStep(flags: seq<bool>, i: nat)
    requires i < |flags|
    ensures Count(flags[..i + 1]) == Count(flags[..i]) + if flags[i] then 1 else 0
  {
    CountSplits(flags[..i], [flags[i]]);
    assert flags[..i + 1] == flags[..i] + [flags[i]];
  }

  lemma {:induction false} CountNone(flags: seq<bool>, a: nat, b: nat)
    requires a <= b <= |flags| && forall i | a <= i < b :: !flags[i]
    ensures Count(flags[..a]) == Count(flags[..b])
    decreases b - a
  {
    if a < b {
      CountStep(flags, a);
      CountNone(flags, a + 1, b);
    }
  }

  // ------------------------------------------------------------------ the whole node

  const SLOTS := 512
  const WORDS := 8
  const WORD_BITS := 64

  /** The flags of one word. */
  function Part(flags: seq<bool>, w: nat): (part: seq<bool>)
    requires |flags| == SLOTS && w < WORDS
    ensures |part| == WORD_BITS
  {
    flags[WORD_BITS * w..WORD_BITS * w + WORD_BITS]
  }

  lemma Pow2Word()
    ensures Pow2(64) == 0x1_0000_0000_0000_0000
  {
    var n := 8;
    assert Pow2(8) == 0x100;
    Double(n, n);
    Double(2 * n, 2 * n);
    Double(4 * n, 4 * n);
  }

  lemma {:induction false} Double(a: nat, b: nat)
    ensures Pow2(a + b) == Pow2(a) * Pow2(b)
  {
    if a > 0 { Double(a - 1, b); }
  }

  function WordAt(flags: seq<bool>, w: nat): u64
    requires |flags| == SLOTS && w < WORDS
  {
    Pow2Word();
    WordOf(Part(flags, w))
  }

  function BitmapOf(flags: seq<bool>): (words: seq<u64>)
    requires |flags| == SLOTS
    ensures |words| == WORDS && forall w | 0 <= w < WORDS :: words[w] == WordAt(flags, w)
  {
    seq(WORDS, w requires 0 <= w < WORDS => WordAt(flags, w))
  }

  /** The position of a slot's value among the packed values. */
  function RankSum(words: seq<u64>, w: nat): nat
    requires w <= |words|
  {
    if w == 0 then 0 else RankSum(words, w - 1) + OnesCount(words[w - 1])
  }

  lemma {:induction false} RankSumIsCount(flags: seq<bool>, words: seq<u64>, w: nat)
    requires |flags| == SLOTS && words == BitmapOf(flags) && w <= WORDS
    ensures RankSum(words, w) == Count(flags[..WORD_BITS * w])
  {
    if w > 0 {
      RankSumIsCount(flags, words, w - 1);
      CountOfWord(Part(flags, w - 1));
      PrefixCount(flags, w - 1, WORD_BITS);
      assert Part(flags, w - 1)[..WORD_BITS] == Part(flags, w - 1);
    }
  }

  lemma PrefixCount(flags: seq<bool>, w: nat, b: nat)
    requires |flags| == SLOTS && w < WORDS && b <= WORD_BITS
    ensures Count(flags[..WORD_BITS * w + b]) == Count(flags[..WORD_BITS * w]) + Count(Part(flags, w)[..b])
  {
    var base := WORD_BITS * w;
    assert Part(flags, w)[..b] == flags[base..base + b];
    CountSplits(flags[..base], flags[base..base + b]);
    assert flags[..base + b] == flags[..base] + flags[base..base + b];
  }

  lemma RankIsCount(flags: seq<bool>, words: seq<u64>, w: nat, b: nat)
    requires |flags| == SLOTS && words == BitmapOf(flags) && w < WORDS && b < WORD_BITS
    ensures TestBit(words[w], b) <==> flags[WORD_BITS * w + b]
    ensures RankSum(words, w) + OnesCount(LowBits(words[w], b)) == Count(flags[..WORD_BITS * w + b])
  {
    var part := Part(flags, w);
    BitOfWord(part, b);
    WordSplits(part, b);
    CountOfWord(part[..b]);
    RankSumIsCount(flags, words, w);
    PrefixCount(flags, w, b);
  }

  // -------------------------------------------------------------- iterating set bits

  /** `bits.TrailingZeros64`, for a word that is not zero. */
  function TrailingZeros(w: nat): nat
    requires w != 0
  {
    if w % 2 == 1 then 0 else 1 + TrailingZeros(w / 2)
  }

  /** `w &^ (1 << b)`. */
  function ClearBit(w: nat, b: nat): nat
    decreases b, w
  {
    if b == 0 then w - w % 2 else w % 2 + 2 * ClearBit(w / 2, b - 1)
  }

  lemma {:induction false} LowestBit(flags: seq<bool>)
    requires WordOf(flags) != 0
    ensures var t := TrailingZeros(WordOf(flags));
            t < |flags| && flags[t] && (forall i | 0 <= i < t :: !flags[i])
              && ClearBit(WordOf(flags), t) == WordOf(flags[t := false])
  {
    Halves(flags);
    if flags[0] {
      assert flags[0 := false][1..] == flags[1..];
    } else {
      LowestBit(flags[1..]);
      var t := TrailingZeros(WordOf(flags));
      assert flags[t := false][1..] == flags[1..][t - 1 := false];
      assert forall i | 0 < i < t :: flags[i] == flags[1..][i - 1];
    }
  }

  lemma {:induction false} ZeroWord(flags: seq<bool>)
    requires WordOf(flags) == 0
    ensures forall i | 0 <= i < |flags| :: !flags[i]
  {
    if flags != [] {
      ZeroWord(flags[1..]);
      assert forall i | 0 < i < |flags| :: flags[i] == flags[1..][i - 1];
    }
  }
}
