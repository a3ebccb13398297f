/**
 CRC-32 (ISO-HDLC: reflected, polynomial 0xEDB88320), and why it finds every burst of at most four bytes.

 One step of the register is linear over GF(2) and injective. Four bytes therefore act on the register
 as one 32-bit word, and a register that differs stays different whatever bytes follow.
 */
module Crc32 {
  import opened Bytes

  const INIT: bv32 := 0xFFFFFFFF

  function Xor(a: bv32, b: bv32): bv32 { a ^ b }

  function Complement(a: bv32): bv32 { !a }

  /** The bits of a byte, converted one half at a time. */
  function Bits(b: byte): bv8 { Halves((b / 16) as bv4, (b % 16) as bv4) }

  function Halves(high: bv4, low: bv4): bv8 { ((high as bv8) << 4) | (low as bv8) }

  /** A data byte in the low eight bits of the register. */
  function Word(b: byte): bv32 { Bits(b) as bv32 }

  /** One division step of the register. */
  function Shift1(c: bv32): bv32 {
    if c & 1 != 0 then (c >> 1) ^ 0xEDB88320 else c >> 1
  }

  function Shift(c: bv32, n: nat): bv32 {
    if n == 0 then c else Shift1(Shift(c, n - 1))
  }

  /** The register after absorbing `data`, started at `c`. */
  function Register(c: bv32, data: seq<byte>): bv32
    decreases |data|
  {
    if data == [] then c else Register(Absorb(c, data[0]), data[1..])
  }

  function Absorb(c: bv32, b: byte): bv32 { Shift(Xor(c, Word(b)), 8) }

  function LowByte(c: bv32): bv8 { (c & 0xFF) as bv8 }

  /** The register's bytes, least significant first. */
  function RegisterBytes(c: bv32): seq<bv8> {
    [LowByte(c), LowByte(c >> 8), LowByte(c >> 16), LowByte(c >> 24)]
  }

  function ByteOf(v: bv8): byte { v as int }

  /** The register read as an unsigned integer. */
  function Number(c: bv32): (n: u32) {
    var b := RegisterBytes(c);
    U32([ByteOf(b[0]), ByteOf(b[1]), ByteOf(b[2]), ByteOf(b[3])])
  }

  function Checksum(data: seq<byte>): u32 {
    Number(Complement(Register(INIT, data)))
  }

  method DivideOnce(c: bv32) returns (r: bv32)
    ensures r == Shift1(c)
  {
    if c & 1 != 0 {
      r := (c >> 1) ^ 0xEDB88320;
    } else {
      r := c >> 1;
    }
  }

  method Crc32(data: seq<byte>) returns (sum: u32)
    ensures sum == Checksum(data)
  {
    hide Shift1, Xor, Word, Complement, Number;
    var crc := INIT;
    for i := 0 to |data|
      invariant Register(crc, data[i..]) == Register(INIT, data)
    {
      ghost var before := crc;
      crc := Xor(crc, Word(data[i]));
      for k := 0 to 8
        invariant crc == Shift(Xor(before, Word(data[i])), k)
      {
        crc := DivideOnce(crc);
      }
      assert data[i..][1..] == data[i + 1..];
    }
    sum := Number(Complement(crc));
  }

  // ---- One step: linear and injective ----

  lemma OddBitsCancel(a: bv32, b: bv32)
    requires a & 1 != 0 && b & 1 != 0
    ensures (a ^ b) & 1 == 0
  {
  }

  lemma ShiftRightLinear(a: bv32, b: bv32)
    ensures (a ^ b) >> 1 == (a >> 1) ^ (b >> 1)
  {
  }

  lemma PolynomialCancels(a: bv32, b: bv32, p: bv32)
    ensures (a ^ p) ^ (b ^ p) == a ^ b
  {
  }

  lemma Shift1LinearOdd(a: bv32, b: bv32)
    requires a & 1 != 0 && b & 1 != 0
    ensures Shift1(a ^ b) == Shift1(a) ^ Shift1(b)
  {
    OddBitsCancel(a, b);
    ShiftRightLinear(a, b);
    assert Shift1(a ^ b) == (a ^ b) >> 1;
    PolynomialCancels(a >> 1, b >> 1, 0xEDB88320);
  }

  lemma EvenBitLost(a: bv32, b: bv32)
    requires a & 1 == 0
    ensures (a ^ b) & 1 == b & 1
  {
  }

  lemma XorRegroups(a: bv32, b: bv32, p: bv32)
    ensures (a ^ b) ^ p == a ^ (b ^ p)
  {
  }

  lemma Shift1LinearEven(a: bv32, b: bv32)
    requires a & 1 == 0
    ensures Shift1(a ^ b) == Shift1(a) ^ Shift1(b)
  {
    EvenBitLost(a, b);
    ShiftRightLinear(a, b);
    XorRegroups(a >> 1, b >> 1, 0xEDB88320);
  }

  lemma XorCommutes(a: bv32, b: bv32)
    ensures a ^ b == b ^ a
  {
  }

  lemma Shift1Linear(a: bv32, b: bv32)
    ensures Shift1(Xor(a, b)) == Xor(Shift1(a), Shift1(b))
  {
    hide Shift1;
    if a & 1 == 0 {
      Shift1LinearEven(a, b);
    } else if b & 1 == 0 {
      XorCommutes(a, b);
      Shift1LinearEven(b, a);
      XorCommutes(Shift1(a), Shift1(b));
    } else {
      Shift1LinearOdd(a, b);
    }
  }

  lemma Shift1Injective(a: bv32, b: bv32)
    requires Shift1(a) == Shift1(b)
    ensures a == b
  {
  }

  // ---- Many steps ----

  lemma {:induction false} ShiftLinear(a: bv32, b: bv32, n: nat)
    ensures Shift(Xor(a, b), n) == Xor(Shift(a, n), Shift(b, n))
  {
    hide Shift1, Xor;
    if n > 0 {
      ShiftLinear(a, b, n - 1);
      Shift1Linear(Shift(a, n - 1), Shift(b, n - 1));
    }
  }

  lemma {:induction false} ShiftInjective(a: bv32, b: bv32, n: nat)
    requires Shift(a, n) == Shift(b, n)
    ensures a == b
  {
    hide Shift1;
    if n > 0 {
      Shift1Injective(Shift(a, n - 1), Shift(b, n - 1));
      ShiftInjective(a, b, n - 1);
    }
  }

  lemma {:induction false} ShiftAdd(c: bv32, m: nat, n: nat)
    ensures Shift(Shift(c, m), n) == Shift(c, m + n)
  {
    hide Shift1;
    if n > 0 {
      ShiftAdd(c, m, n - 1);
    }
  }

  // ---- Reading bytes in and out of the register ----

  lemma HalfBack(n: int)
    requires 0 <= n < 16
    ensures (n as bv4) as int == n
  {
  }

  lemma HalvesInjective(h: bv4, l: bv4, h': bv4, l': bv4)
    requires Halves(h, l) == Halves(h', l')
    ensures h == h' && l == l'
  {
  }

  lemma BitsInjective(a: byte, b: byte)
    requires Bits(a) == Bits(b)
    ensures a == b
  {
    hide Halves;
    HalvesInjective((a / 16) as bv4, (a % 16) as bv4, (b / 16) as bv4, (b % 16) as bv4);
    HalfBack(a / 16);
    HalfBack(a % 16);
    HalfBack(b / 16);
    HalfBack(b % 16);
  }

  lemma WidenInjective(x: bv8, y: bv8)
    requires x as bv32 == y as bv32
    ensures x == y
  {
  }

  lemma WordInjective(a: byte, b: byte)
    requires Word(a) == Word(b)
    ensures a == b
  {
    hide Bits;
    WidenInjective(Bits(a), Bits(b));
    BitsInjective(a, b);
  }

  lemma ByteOfInjective(a: bv8, b: bv8)
    requires ByteOf(a) == ByteOf(b)
    ensures a == b
  {
  }

  lemma FourBytesDecide(a: bv32, b: bv32)
    requires LowByte(a) == LowByte(b) && LowByte(a >> 8) == LowByte(b >> 8)
    requires LowByte(a >> 16) == LowByte(b >> 16) && LowByte(a >> 24) == LowByte(b >> 24)
    ensures a == b
  {
  }

  lemma NumberInjective(a: bv32, b: bv32)
    requires Number(a) == Number(b)
    ensures a == b
  {
    hide LowByte, ByteOf;
    var x, y := RegisterBytes(a), RegisterBytes(b);
    var s := [ByteOf(x[0]), ByteOf(x[1]), ByteOf(x[2]), ByteOf(x[3])];
    var t := [ByteOf(y[0]), ByteOf(y[1]), ByteOf(y[2]), ByteOf(y[3])];
    FromLEInjective(s, t);
    forall i | 0 <= i < 4
      ensures x[i] == y[i]
    {
      assert s[i] == ByteOf(x[i]) && t[i] == ByteOf(y[i]);
      ByteOfInjective(x[i], y[i]);
    }
    assert x[0] == y[0] && x[1] == y[1] && x[2] == y[2] && x[3] == y[3];
    FourBytesDecide(a, b);
  }

  // ---- Four bytes act as one word ----

  predicate Narrow(x: bv32) { x & 0xFF000000 == 0 }

  function Up8(x: bv32): bv32 { x << 8 }

  /** Four data bytes as one little-endian register word. */
  function Word4(w: seq<byte>): bv32
    requires |w| == 4
  {
    Xor(Word(w[0]), Up8(Word3(w[1..])))
  }

  function Word3(w: seq<byte>): bv32
    requires |w| == 3
  {
    Xor(Word(w[0]), Up8(Word2(w[1..])))
  }

  function Word2(w: seq<byte>): bv32
    requires |w| == 2
  {
    Xor(Word(w[0]), Up8(Word(w[1])))
  }

  lemma ShiftEight(c: bv32)
    ensures Shift(c, 8) == Shift1(Shift1(Shift1(Shift1(Shift1(Shift1(Shift1(Shift1(c))))))))
  {
    hide Shift1;
    assert Shift(c, 1) == Shift1(Shift(c, 0));
    assert Shift(c, 3) == Shift1(Shift(c, 2));
    assert Shift(c, 5) == Shift1(Shift(c, 4));
    assert Shift(c, 7) == Shift1(Shift(c, 6));
  }

  function Quarter(v: bv32): bv32 { v >> 2 }

  predicate TwoClear(v: bv32) { v & 3 == 0 }

  lemma TwoEven(v: bv32)
    requires TwoClear(v)
    ensures Shift1(Shift1(v)) == Quarter(v)
  {
  }

  lemma QuarterSteps(v: bv32)
    requires v & 0xFF == 0
    ensures TwoClear(v) && TwoClear(Quarter(v)) && TwoClear(Quarter(Quarter(v)))
    ensures TwoClear(Quarter(Quarter(Quarter(v))))
    ensures Quarter(Quarter(Quarter(Quarter(v)))) == v >> 8
  {
  }

  lemma LowByteFallsOut(v: bv32)
    requires v & 0xFF == 0
    ensures Shift(v, 8) == v >> 8
  {
    hide Shift1, Quarter, TwoClear;
    ShiftEight(v);
    QuarterSteps(v);
    TwoEven(v);
    TwoEven(Quarter(v));
    TwoEven(Quarter(Quarter(v)));
    TwoEven(Quarter(Quarter(Quarter(v))));
  }

  lemma ShiftedBack(x: bv32)
    requires Narrow(x)
    ensures Up8(x) & 0xFF == 0 && Up8(x) >> 8 == x
  {
  }

  /** A word above the byte being absorbed comes through unchanged, one byte lower. */
  lemma HigherBytesWait(c: bv32, x: bv32)
    requires Narrow(x)
    ensures Shift(Xor(c, Up8(x)), 8) == Xor(Shift(c, 8), x)
  {
    hide Shift1, Xor, Up8, Narrow;
    ShiftLinear(c, Up8(x), 8);
    ShiftedBack(x);
    LowByteFallsOut(Up8(x));
  }

  lemma WordsNarrow(w: seq<byte>)
    requires |w| == 3
    ensures Narrow(Word3(w))
    ensures Narrow(Word2(w[1..]))
    ensures Narrow(Word(w[2]))
  {
  }

  lemma XorAssociates(a: bv32, b: bv32, c: bv32)
    ensures Xor(a, Xor(b, c)) == Xor(Xor(a, b), c)
  {
  }

  lemma AbsorbUnder(c: bv32, b: byte, x: bv32, n: nat)
    requires Narrow(x)
    ensures Shift(Xor(c, Xor(Word(b), Up8(x))), 8 + n) == Shift(Xor(Absorb(c, b), x), n)
  {
    hide Shift1, Xor, Word, Up8, Narrow;
    XorAssociates(c, Word(b), Up8(x));
    HigherBytesWait(Xor(c, Word(b)), x);
    ShiftAdd(Xor(c, Xor(Word(b), Up8(x))), 8, n);
  }

  lemma RegisterFour(c: bv32, w: seq<byte>)
    requires |w| == 4
    ensures Register(c, w) == Absorb(Absorb(Absorb(Absorb(c, w[0]), w[1]), w[2]), w[3])
  {
    hide Absorb;
    var c1 := Absorb(c, w[0]);
    var c2 := Absorb(c1, w[1]);
    var c3 := Absorb(c2, w[2]);
    assert w[1..][1..] == w[2..] && w[2..][1..] == w[3..] && w[3..][1..] == [];
    assert Register(c, w) == Register(c1, w[1..]);
    assert Register(c1, w[1..]) == Register(c2, w[2..]);
    assert Register(c2, w[2..]) == Register(c3, w[3..]);
    assert Register(c3, w[3..]) == Register(Absorb(c3, w[3]), []);
  }

  /** Four bytes are absorbed as one xor of a 32-bit word and 32 steps. */
  lemma AbsorbFour(c: bv32, w: seq<byte>)
    requires |w| == 4
    ensures Register(c, w) == Shift(Xor(c, Word4(w)), 32)
  {
    WordsNarrow(w[1..]);
    RegisterFour(c, w);
    hide Shift, Xor, Word, Up8, Narrow, Register;
    assert Absorb(Absorb(Absorb(Absorb(c, w[0]), w[1]), w[2]), w[3]) ==
           Shift(Xor(Absorb(Absorb(Absorb(c, w[0]), w[1]), w[2]), Word(w[3])), 8);
    hide Absorb;
    var c1 := Absorb(c, w[0]);
    var c2 := Absorb(c1, w[1]);
    var c3 := Absorb(c2, w[2]);
    assert w[1..][1..] == w[2..] && w[2..][1] == w[3];
    AbsorbUnder(c, w[0], Word3(w[1..]), 24);
    AbsorbUnder(c1, w[1], Word2(w[2..]), 16);
    AbsorbUnder(c2, w[2], Word(w[3]), 8);
  }

  lemma BytesSplit(p: bv8, q: bv8, x: bv32, y: bv32)
    requires Narrow(x) && Narrow(y)
    requires Xor(p as bv32, Up8(x)) == Xor(q as bv32, Up8(y))
    ensures p == q && x == y
  {
  }

  lemma WordSplit(a: byte, b: byte, x: bv32, y: bv32)
    requires Narrow(x) && Narrow(y)
    requires Xor(Word(a), Up8(x)) == Xor(Word(b), Up8(y))
    ensures a == b && x == y
  {
    hide Bits, Xor, Up8, Narrow;
    BytesSplit(Bits(a), Bits(b), x, y);
    BitsInjective(a, b);
  }

  lemma Word4Injective(v: seq<byte>, w: seq<byte>)
    requires |v| == |w| == 4 && Word4(v) == Word4(w)
    ensures v == w
  {
    WordsNarrow(v[1..]);
    WordsNarrow(w[1..]);
    hide Xor, Word, Up8, Narrow;
    WordSplit(v[0], w[0], Word3(v[1..]), Word3(w[1..]));
    assert v[1..][1..] == v[2..] && w[1..][1..] == w[2..];
    WordSplit(v[1], w[1], Word2(v[2..]), Word2(w[2..]));
    WordSplit(v[2], w[2], Word(v[3]), Word(w[3]));
    WordInjective(v[3], w[3]);
  }

  // ---- Bursts ----

  lemma {:induction false} RegisterConcat(c: bv32, a: seq<byte>, b: seq<byte>)
    ensures Register(c, a + b) == Register(Register(c, a), b)
    decreases |a|
  {
    hide Absorb;
    if a == [] {
      assert a + b == b;
    } else {
      assert (a + b)[1..] == a[1..] + b;
      RegisterConcat(Absorb(c, a[0]), a[1..], b);
    }
  }

  /** Bytes that follow cannot make two different registers equal. */
  lemma {:induction false} RegisterInjective(c: bv32, d: bv32, data: seq<byte>)
    requires Register(c, data) == Register(d, data)
    ensures c == d
    decreases |data|
  {
    if data != [] {
      var w := Word(data[0]);
      hide Shift1, Word;
      RegisterInjective(Absorb(c, data[0]), Absorb(d, data[0]), data[1..]);
      ShiftInjective(Xor(c, w), Xor(d, w), 8);
      XorCancels(c, d, w);
    }
  }

  lemma XorCancels(c: bv32, d: bv32, w: bv32)
    requires Xor(c, w) == Xor(d, w)
    ensures c == d
  {
  }

  lemma FourBytesSeparate(c: bv32, v: seq<byte>, w: seq<byte>)
    requires |v| == |w| == 4 && v != w
    ensures Register(c, v) != Register(c, w)
  {
    hide Shift1, Xor;
    if Register(c, v) == Register(c, w) {
      AbsorbFour(c, v);
      AbsorbFour(c, w);
      ShiftInjective(Xor(c, Word4(v)), Xor(c, Word4(w)), 32);
      XorCancelsLeft(c, Word4(v), Word4(w));
      Word4Injective(v, w);
    }
  }

  lemma XorCancelsLeft(c: bv32, a: bv32, b: bv32)
    requires Xor(c, a) == Xor(c, b)
    ensures a == b
  {
  }

  lemma ShortSeparates(c: bv32, v: seq<byte>, w: seq<byte>)
    requires |v| == |w| <= 4 && v != w
    ensures Register(c, v) != Register(c, w)
  {
    hide Register;
    var pad := seq(4 - |v|, i => 0);
    assert (v + pad)[..|v|] == v && (w + pad)[..|v|] == w;
    FourBytesSeparate(c, v + pad, w + pad);
    RegisterConcat(c, v, pad);
    RegisterConcat(c, w, pad);
  }

  /** Changing bytes inside any window of at most four consecutive bytes changes the checksum. */
  lemma BurstDetected(before: seq<byte>, v: seq<byte>, w: seq<byte>, after: seq<byte>)
    requires |v| == |w| <= 4 && v != w
    ensures Checksum(before + v + after) != Checksum(before + w + after)
  {
    hide Register, Number, Complement;
    var c := Register(INIT, before);
    RegisterConcat(INIT, before + v, after);
    RegisterConcat(INIT, before + w, after);
    RegisterConcat(INIT, before, v);
    RegisterConcat(INIT, before, w);
    ShortSeparates(c, v, w);
    var x, y := Register(INIT, before + v + after), Register(INIT, before + w + after);
    if Checksum(before + v + after) == Checksum(before + w + after) {
      NumberInjective(Complement(x), Complement(y));
      ComplementInjective(x, y);
      RegisterInjective(Register(c, v), Register(c, w), after);
    }
  }

  lemma ComplementInjective(a: bv32, b: bv32)
    requires Complement(a) == Complement(b)
    ensures a == b
  {
  }
}
