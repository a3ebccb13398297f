/** Fixed-width integers and their little-endian byte strings. */
module Bytes {

  type byte = x: int | 0 <= x < 0x100
  type u16 = x: int | 0 <= x < 0x1_0000
  type u32 = x: int | 0 <= x < 0x1_0000_0000
  type u64 = x: int | 0 <= x < 0x1_0000_0000_0000_0000
  type i32 = x: int | -0x8000_0000 <= x < 0x8000_0000
  type i64 = x: int | -0x8000_0000_0000_0000 <= x < 0x8000_0000_0000_0000

  const TWO_16: int := 0x1_0000
  const TWO_32: int := 0x1_0000_0000
  const TWO_64: int := 0x1_0000_0000_0000_0000

  function Pow256(k: nat): (p: nat)
    ensures p > 0
  {
    if k == 0 then 1 else 256 * Pow256(k - 1)
  }

  /** The `k` low bytes of `n`, least significant first. */
  function LE(n: nat, k: nat): (s: seq<byte>)
    requires n < Pow256(k)
    ensures |s| == k
    ensures FromLE(s) == n
  {
    if k == 0 then [] else [n % 256] + LE(n / 256, k - 1)
  }

  function FromLE(s: seq<byte>): (n: nat)
    ensures n < Pow256(|s|)
  {
    if s == [] then 0 else s[0] + 256 * FromLE(s[1..])
  }

  lemma DigitsSplit(a: byte, m: nat, b: byte, n: nat)
    requires a + 256 * m == b + 256 * n
    ensures a == b && m == n
  {
  }

  lemma {:induction false} FromLEInjective(s: seq<byte>, t: seq<byte>)
    requires |s| == |t| && FromLE(s) == FromLE(t)
    ensures s == t
  {
    if s != [] {
      DigitsSplit(s[0], FromLE(s[1..]), t[0], FromLE(t[1..]));
      FromLEInjective(s[1..], t[1..]);
      assert s == [s[0]] + s[1..] && t == [t[0]] + t[1..];
    }
  }

  lemma Widths()
    ensures Pow256(2) == TWO_16
    ensures Pow256(4) == TWO_32
    ensures Pow256(8) == TWO_64
  {
    assert Pow256(2) == 0x1_0000;
    assert Pow256(4) == 0x1_0000 * Pow256(2);
    assert Pow256(6) == 0x1_0000 * Pow256(4);
    assert Pow256(8) == 0x1_0000 * Pow256(6);
  }

  function LE16(n: u16): (s: seq<byte>)
    ensures |s| == 2 && U16(s) == n
  {
    Widths();
    LE(n, 2)
  }

  function LE32(n: u32): (s: seq<byte>)
    ensures |s| == 4 && U32(s) == n
  {
    Widths();
    LE(n, 4)
  }

  function LE64(n: u64): (s: seq<byte>)
    ensures |s| == 8 && U64(s) == n
  {
    Widths();
    LE(n, 8)
  }

  function U16(s: seq<byte>): (n: u16)
    requires |s| == 2
  {
    Widths();
    FromLE(s)
  }

  function U32(s: seq<byte>): (n: u32)
    requires |s| == 4
  {
    Widths();
    FromLE(s)
  }

  function U64(s: seq<byte>): (n: u64)
    requires |s| == 8
  {
    Widths();
    FromLE(s)
  }

  function Zeros(n: nat): (z: seq<byte>)
    ensures |z| == n && forall i | 0 <= i < n :: z[i] == 0
  {
    seq(n, i => 0)
  }

  /** Two's complement views of the signed widths. */
  function Unsigned32(v: i32): (u: u32) { if v < 0 then v + TWO_32 else v }
  function Signed32(u: u32): (v: i32) { if u >= 0x8000_0000 then u - TWO_32 else u }
  function Unsigned64(v: i64): (u: u64) { if v < 0 then v + TWO_64 else v }
  function Signed64(u: u64): (v: i64) { if u >= 0x8000_0000_0000_0000 then u - TWO_64 else u }

  /** `+= 1` on a u64 counter, as a release build computes it. */
  function Next64(n: u64): u64 { (n + 1) % TWO_64 }

  lemma SliceOfSlice<T>(s: seq<T>, a: nat, b: nat, i: nat, j: nat)
    requires a <= b <= |s| && i <= j <= b - a
    ensures s[a..b][i..j] == s[a + i..a + j]
  {
    forall k | 0 <= k < j - i
      ensures s[a..b][i..j][k] == s[a + i..a + j][k]
    {
    }
  }
}
