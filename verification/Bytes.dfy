/** Little-endian integers in byte strings, as `encoding/binary` writes and reads them. */
module Bytes {
  import opened RecordLog

  type Bytes = seq<u8>
  type Checksum = Bytes -> u32

  function Pow256(n: nat): (p: nat)
    ensures p > 0
  {
    if n == 0 then 1 else 256 * Pow256(n - 1)
  }

  function LE(v: nat, n: nat): (s: Bytes)
    ensures |s| == n
    decreases n, v
  {
    if n == 0 then [] else [v % 256] + LE(v / 256, n - 1)
  }

  function FromLE(s: Bytes): (v: nat)
    ensures v < Pow256(|s|)
  {
    if s == [] then 0 else s[0] + 256 * FromLE(s[1..])
  }

  lemma {:induction false} LERoundTrip(v: nat, n: nat)
    requires v < Pow256(n)
    ensures FromLE(LE(v, n)) == v
    decreases n
  {
    if n > 0 {
      LERoundTrip(v / 256, n - 1);
      assert LE(v, n)[1..] == LE(v / 256, n - 1);
    }
  }

  /** Bytes determine the number and the number the bytes. */
  lemma {:induction false} FromLERoundTrip(s: Bytes)
    ensures LE(FromLE(s), |s|) == s
  {
    if s != [] {
      FromLERoundTrip(s[1..]);
      assert s == [s[0]] + s[1..];
      assert FromLE(s) / 256 == FromLE(s[1..]);
    }
  }

  lemma Widths()
    ensures Pow256(1) == 0x100 && Pow256(2) == 0x1_0000
    ensures Pow256(4) == 0x1_0000_0000 && Pow256(8) == 0x1_0000_0000_0000_0000
  {
    assert Pow256(3) == 256 * Pow256(2) && Pow256(4) == 256 * Pow256(3);
    assert Pow256(5) == 256 * Pow256(4) && Pow256(6) == 256 * Pow256(5) && Pow256(7) == 256 * Pow256(6);
  }

  function U16(s: Bytes): u16
    requires |s| == 2
  {
    Widths();
    FromLE(s)
  }

  function U32(s: Bytes): u32
    requires |s| == 4
  {
    Widths();
    FromLE(s)
  }

  function U64(s: Bytes): u64
    requires |s| == 8
  {
    Widths();
    FromLE(s)
  }

  lemma RoundTrips(a: u16, b: u32, c: u64)
    ensures U16(LE(a, 2)) == a && U32(LE(b, 4)) == b && U64(LE(c, 8)) == c
  {
    Widths();
    LERoundTrip(a, 2);
    LERoundTrip(b, 4);
    LERoundTrip(c, 8);
  }

  lemma RoundTripsBack(a: Bytes, b: Bytes, c: Bytes)
    requires |a| == 2 && |b| == 4 && |c| == 8
    ensures LE(U16(a), 2) == a && LE(U32(b), 4) == b && LE(U64(c), 8) == c
  {
    FromLERoundTrip(a);
    FromLERoundTrip(b);
    FromLERoundTrip(c);
  }

  function Zeros(n: nat): (s: Bytes)
    ensures |s| == n && forall i | 0 <= i < n :: s[i] == 0
  {
    seq(n, i => 0)
  }

  /** Strings that agree up to a and from a to b agree up to b. */
  lemma Agree(s: Bytes, t: Bytes, a: nat, b: nat)
    requires a <= b <= |s| && b <= |t| && s[..a] == t[..a] && s[a..b] == t[a..b]
    ensures s[..b] == t[..b]
  {
    assert s[..b] == s[..a] + s[a..b] && t[..b] == t[..a] + t[a..b];
  }
}
