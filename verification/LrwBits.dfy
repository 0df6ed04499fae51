/** crypto/lrw.c, setbit128_bbe: a bit of a 128-bit number set through __set_bit, which counts bits in
    the longs of the host. */
module LrwBits {
  import opened Gf2
  import opened Gf128Field
  import opened Gf128Tables

  /** Byte order, and the number of bytes in a long. */
  datatype Host = Host(little: bool, word: nat)

  predicate HostOk(h: Host) { h.word == 4 || h.word == 8 }

  /** The number that bytes in memory spell, the first being the most significant. */
  function Spelled(m: seq<nat>): nat {
    if m == [] then 0 else Shl(m[0], 8 * (|m| - 1)) + Spelled(m[1..])
  }

  /** The byte in memory that holds bit nr of an array of longs. */
  function ByteOf(h: Host, nr: nat): (i: nat)
    requires HostOk(h)
    ensures nr < 128 ==> i < 16
  {
    var b := nr / 8;
    if h.little then b
    else if h.word == 4 then b / 4 * 4 + (3 - b % 4)
    else b / 8 * 8 + (7 - b % 8)
  }

  predicate HasBit(b: nat, k: nat) { Shr(b, k) % 2 == 1 }

  function OrBit(b: nat, k: nat): nat { if HasBit(b, k) then b else b + Pow2(k) }

  /** __set_bit */
  function SetBit(m: seq<nat>, h: Host, nr: nat): (r: seq<nat>)
    requires |m| == 16 && HostOk(h) && nr < 128
    ensures |r| == 16
  {
    var i := ByteOf(h, nr);
    m[i := OrBit(m[i], nr % 8)]
  }

  /** setbit128_bbe */
  function SetBit128(m: seq<nat>, h: Host, bit: nat): (r: seq<nat>)
    requires |m| == 16 && HostOk(h) && bit < 128
    ensures |r| == 16
  {
    Flipped(bit);
    SetBit(m, h, Xor(bit, 0x78))
  }

  /** Exclusive or with 0x78 counts the bytes from the other end. */
  lemma Flipped(bit: nat)
    requires bit < 128
    ensures Xor(bit, 0x78) == 8 * (15 - bit / 8) + bit % 8
  {
    hide Shl, Xor;
    var (h, l) := (bit / 8, bit % 8);
    Shl3(h);
    Shl3(15);
    Shl3(15 - h);
    Shl3(1);
    XorParts(3, h, l, 15, 0);
    XorZero(l);
    XorFifteen(h);
  }

  lemma Shl3(a: nat)
    ensures Shl(a, 3) == 8 * a
  {
    assert Shl(a, 1) == 2 * a;
    assert Shl(a, 2) == 4 * a;
  }

  lemma XorFifteen(h: nat)
    requires h < 16
    ensures Xor(h, 15) == 15 - h
  {
    assert Xor(h / 8, 1) == 1 - h / 8;
    assert Xor(h / 4, 3) == 3 - h / 4;
    assert Xor(h / 2, 7) == 7 - h / 2;
  }

  /** Adding to one byte adds as much, shifted, to the number. */
  lemma {:induction false} SpelledUpdate(m: seq<nat>, i: nat, d: nat)
    requires i < |m|
    ensures Spelled(m[i := m[i] + d]) == Spelled(m) + Shl(d, 8 * (|m| - 1 - i))
  {
    hide Shl;
    if i == 0 {
      assert m[0 := m[0] + d][1..] == m[1..];
      ShlSum(m[0], d, 8 * (|m| - 1));
    } else {
      assert m[i := m[i] + d][1..] == m[1..][i - 1 := m[1..][i - 1] + d];
      SpelledUpdate(m[1..], i - 1, d);
    }
  }

  /** What setting a bit does to the number: nothing if it was set, else it adds the weight that the
      host gives to it. */
  lemma SpelledSetBit(m: seq<nat>, h: Host, nr: nat)
    requires |m| == 16 && HostOk(h) && nr < 128
    ensures var i := ByteOf(h, nr);
            Spelled(SetBit(m, h, nr)) == Spelled(m) + if HasBit(m[i], nr % 8) then 0 else Pow2(8 * (15 - i) + nr % 8)
  {
    hide Shl, ByteOf, Spelled, HasBit;
    var i := ByteOf(h, nr);
    if HasBit(m[i], nr % 8) {
      assert m[i := m[i]] == m;
    } else {
      SpelledUpdate(m, i, Pow2(nr % 8));
      ShlShl(1, nr % 8, 8 * (15 - i));
    }
  }

  lemma PowDistinct(a: nat, b: nat)
    requires a != b
    ensures Pow2(a) != Pow2(b)
  {
    if a < b { PowGrowsBy(a, b); } else { PowGrowsBy(b, a); }
  }

  lemma {:induction false} PowGrowsBy(a: nat, b: nat)
    requires a < b
    ensures 0 < Pow2(a) < Pow2(b)
    decreases b
  {
    PowStep(b - 1);
    if a < b - 1 {
      PowGrowsBy(a, b - 1);
    }
  }

  /** Where a host of the other byte order puts a byte, it is never the right one. */
  lemma NeverThere(h: Host, bit: nat)
    requires HostOk(h) && bit < 128
    ensures ByteOf(h, 8 * (15 - bit / 8) + bit % 8) == 15 - bit / 8 <==> h.little
  {
    var b := 15 - bit / 8;
    assert (8 * b + bit % 8) / 8 == b;
  }

  /** Setting a bit that is clear adds its power of two exactly on a little-endian host. */
  lemma SetBitIff(m: seq<nat>, h: Host, bit: nat)
    requires |m| == 16 && HostOk(h) && bit < 128 && !HasBit(m[15 - bit / 8], bit % 8)
    ensures Spelled(SetBit128(m, h, bit)) == Spelled(m) + Pow2(bit) <==> h.little
  {
    hide Shl, ByteOf, Spelled, HasBit, Xor;
    Flipped(bit);
    var nr := 8 * (15 - bit / 8) + bit % 8;
    var i := ByteOf(h, nr);
    assert nr % 8 == bit % 8;
    SpelledSetBit(m, h, nr);
    NeverThere(h, bit);
    PowGrowsBy(0, bit + 1);
    PowStep(bit);
    if !h.little {
      assert 8 * (15 - i) + bit % 8 != bit;
      PowDistinct(8 * (15 - i) + bit % 8, bit);
    } else {
      assert 8 * (15 - i) + bit % 8 == bit;
    }
  }

  const CLEAR: seq<nat> := seq(16, i => 0)

  /** Bit 0, on a big-endian host with longs of eight bytes, becomes bit 56. */
  lemma BigEndianMisses()
    ensures Spelled(SetBit128(CLEAR, Host(false, 8), 0)) == Spelled(CLEAR) + Pow2(56)
  {
    hide Shl, Spelled, Xor;
    Flipped(0);
    assert ByteOf(Host(false, 8), 120) == 8;
    NoBits();
    hide HasBit, ByteOf;
    SpelledSetBit(CLEAR, Host(false, 8), 120);
  }

  lemma NoBits()
    ensures !HasBit(0, 0)
  {
  }

  // ---- the run of ones that setkey builds ----

  /** The lowest n bits set. */
  function OnesBytes(n: nat): (m: seq<nat>)
    requires n <= 128
    ensures |m| == 16
  {
    seq(16, i requires 0 <= i < 16 => OnesByte(n, 8 * (15 - i)))
  }

  function OnesByte(n: nat, from: nat): nat {
    if n <= from then 0 else Ones(if n - from < 8 then n - from else 8)
  }

  function Ones(k: nat): nat {
    PowGrowsBy(0, k + 1);
    PowStep(k);
    Pow2(k) - 1
  }

  lemma OnesClear(k: nat)
    requires k < 8
    ensures !HasBit(Ones(k), k) && Ones(k) + Pow2(k) == Ones(k + 1)
  {
    PowStep(k);
    ShrOnes(k);
  }

  lemma {:induction false} ShrOnes(k: nat)
    ensures Shr(Ones(k), k) == 0
  {
    if k > 0 {
      ShrOnes(k - 1);
      ShrHalf(Ones(k), k);
      PowStep(k - 1);
      assert Ones(k) / 2 == Ones(k - 1);
    }
  }

  lemma OnesNext(n: nat, h: Host)
    requires n < 128 && HostOk(h) && h.little
    ensures SetBit128(OnesBytes(n), h, n) == OnesBytes(n + 1)
    ensures Spelled(OnesBytes(n + 1)) == Spelled(OnesBytes(n)) + Pow2(n)
  {
    hide Shl, Spelled, HasBit, Xor, Ones;
    var (m, i) := (OnesBytes(n), 15 - n / 8);
    Flipped(n);
    NeverThere(h, n);
    OnesClear(n % 8);
    assert n - 8 * (n / 8) == n % 8;
    OnesNone();
    assert m[i] == Ones(n % 8);
    SetBitIff(m, h, n);
    var r := SetBit128(m, h, n);
    assert r[i] == Ones(n % 8 + 1) == OnesBytes(n + 1)[i];
    forall j | 0 <= j < 16 && j != i ensures r[j] == OnesBytes(n + 1)[j] {
      assert r[j] == m[j];
    }
  }

  lemma OnesNone()
    ensures Ones(0) == 0
  {
  }
}
