/** The Camellia cipher as sections 2.2 to 2.4 of RFC 3713 write it.

    A 64-bit half block is a pair of 32-bit words.  The four S-boxes are arbitrary. */
module CamelliaSpec {
  import opened WordXor
  import opened Words

  datatype Half = Half(l: bv32, r: bv32)

  function Xor(a: Half, b: Half): Half { Half(X(a.l, b.l), X(a.r, b.r)) }

  datatype Block = Block(d1: Half, d2: Half)

  datatype SBoxes = SBoxes(s1: bv8 -> bv8, s2: bv8 -> bv8, s3: bv8 -> bv8, s4: bv8 -> bv8)

  function Byte(w: bv32, i: nat): bv8
    requires i < 4
  {
    ((w >> (24 - 8 * i)) & 0xff) as bv8
  }

  function Word(a: bv8, b: bv8, c: bv8, d: bv8): bv32 {
    ((a as bv32) << 24) | ((b as bv32) << 16) | ((c as bv32) << 8) | (d as bv32)
  }

  function Sum3(a: bv8, b: bv8, c: bv8): bv8 { a ^ b ^ c }

  function Sum5(a: bv8, b: bv8, c: bv8, d: bv8, e: bv8): bv8 { a ^ b ^ c ^ d ^ e }

  function Sum6(a: bv8, b: bv8, c: bv8, d: bv8, e: bv8, f: bv8): bv8 { a ^ b ^ c ^ d ^ e ^ f }

  /** The P layer of section 2.4.1. */
  function P(t1: bv8, t2: bv8, t3: bv8, t4: bv8, t5: bv8, t6: bv8, t7: bv8, t8: bv8): Half {
    Half(Word(Sum6(t1, t3, t4, t6, t7, t8),
              Sum6(t1, t2, t4, t5, t7, t8),
              Sum6(t1, t2, t3, t5, t6, t8),
              Sum6(t2, t3, t4, t5, t6, t7)),
         Word(Sum5(t1, t2, t6, t7, t8),
              Sum5(t2, t3, t5, t7, t8),
              Sum5(t3, t4, t5, t6, t8),
              Sum5(t1, t4, t5, t6, t7)))
  }

  function F(s: SBoxes, x: Half, k: Half): Half {
    var z := Xor(x, k);
    P(s.s1(Byte(z.l, 0)), s.s2(Byte(z.l, 1)), s.s3(Byte(z.l, 2)), s.s4(Byte(z.l, 3)),
      s.s2(Byte(z.r, 0)), s.s3(Byte(z.r, 1)), s.s4(Byte(z.r, 2)), s.s1(Byte(z.r, 3)))
  }

  function FL(x: Half, k: Half): Half {
    var r := X(x.r, RotL1(A(x.l, k.l)));
    Half(X(x.l, O(r, k.r)), r)
  }

  function FLInv(y: Half, k: Half): Half {
    var l := X(y.l, O(y.r, k.r));
    Half(l, X(y.r, RotL1(A(l, k.l))))
  }

  /** Two Feistel rounds with subkeys a and b. */
  function TwoRounds(s: SBoxes, a: Half, b: Half, d: Block): Block {
    var d2 := Xor(d.d2, F(s, d.d1, a));
    Block(Xor(d.d1, F(s, d2, b)), d2)
  }

  /** Subkeys are kept in one list: kw1, kw2, then for each group six round keys followed, but
      for the last group, by two FL keys; then kw3, kw4.  Three groups make 18 rounds, four
      make 24. */
  predicate Layout(t: seq<Half>, groups: nat) { groups > 0 && |t| == 8 * groups + 2 }

  function SixRounds(s: SBoxes, t: seq<Half>, j: nat, d: Block): Block
    requires 8 * j + 8 <= |t|
  {
    TwoRounds(s, t[8 * j + 6], t[8 * j + 7],
              TwoRounds(s, t[8 * j + 4], t[8 * j + 5],
                        TwoRounds(s, t[8 * j + 2], t[8 * j + 3], d)))
  }

  function Groups(s: SBoxes, t: seq<Half>, groups: nat, j: nat, d: Block): Block
    requires Layout(t, groups) && j < groups
    decreases groups - j
  {
    var e := SixRounds(s, t, j, d);
    if j + 1 == groups then e
    else Groups(s, t, groups, j + 1, Block(FL(e.d1, t[8 * j + 8]), FLInv(e.d2, t[8 * j + 9])))
  }

  /** Section 2.3: whiten, run the groups, whiten, swap the halves. */
  function Encrypt(s: SBoxes, t: seq<Half>, groups: nat, m: Block): Block
    requires Layout(t, groups)
  {
    var d := Groups(s, t, groups, 0, Block(Xor(m.d1, t[0]), Xor(m.d2, t[1])));
    Block(Xor(d.d2, t[8 * groups]), Xor(d.d1, t[8 * groups + 1]))
  }

  /** Section 2.3.3: decryption is encryption with the order of subkeys reversed. */
  function Reversed(t: seq<Half>, groups: nat): (r: seq<Half>)
    requires Layout(t, groups)
    ensures Layout(r, groups)
  {
    seq(8 * groups + 2, i requires 0 <= i < 8 * groups + 2 =>
      if i == 0 then t[8 * groups]
      else if i == 1 then t[8 * groups + 1]
      else if i == 8 * groups then t[0]
      else if i == 8 * groups + 1 then t[1]
      else t[8 * groups + 1 - i])
  }

  function Decrypt(s: SBoxes, t: seq<Half>, groups: nat, c: Block): Block
    requires Layout(t, groups)
  {
    Encrypt(s, Reversed(t, groups), groups, c)
  }

  // ---- key schedule, section 2.2 ----

  /** Rotation to the left by n bits, for the amounts the schedule uses (and their steps). */
  function Rotate(v: bv128, n: nat): bv128 {
    match n
    case 15 => (v << 15) | (v >> 113)
    case 17 => (v << 17) | (v >> 111)
    case 30 => (v << 30) | (v >> 98)
    case 32 => (v << 32) | (v >> 96)
    case 34 => (v << 34) | (v >> 94)
    case 45 => (v << 45) | (v >> 83)
    case 49 => (v << 49) | (v >> 79)
    case 51 => (v << 51) | (v >> 77)
    case 60 => (v << 60) | (v >> 68)
    case 77 => (v << 77) | (v >> 51)
    case 94 => (v << 94) | (v >> 34)
    case 111 => (v << 111) | (v >> 17)
    case _ => v
  }

  function High(v: bv128): Half { Half((v >> 96) as bv32, ((v >> 64) & 0xffff_ffff) as bv32) }

  function Low(v: bv128): Half { Half(((v >> 32) & 0xffff_ffff) as bv32, (v & 0xffff_ffff) as bv32) }

  function Join(a: Half, b: Half): bv128 {
    ((a.l as bv128) << 96) | ((a.r as bv128) << 64) | ((b.l as bv128) << 32) | (b.r as bv128)
  }

  const SIGMA1 := Half(0xA09E667F, 0x3BCC908B)
  const SIGMA2 := Half(0xB67AE858, 0x4CAA73B2)
  const SIGMA3 := Half(0xC6EF372F, 0xE94F82BE)
  const SIGMA4 := Half(0x54FF53A5, 0xF1D36F1C)
  const SIGMA5 := Half(0x10E527FA, 0xDE682D1D)
  const SIGMA6 := Half(0xB05688C2, 0xB3E6C1FD)

  function KA(s: SBoxes, kl: Block, kr: Block): Block {
    var e := TwoRounds(s, SIGMA1, SIGMA2, Block(Xor(kl.d1, kr.d1), Xor(kl.d2, kr.d2)));
    TwoRounds(s, SIGMA3, SIGMA4, Block(Xor(e.d1, kl.d1), Xor(e.d2, kl.d2)))
  }

  function KB(s: SBoxes, ka: Block, kr: Block): Block {
    TwoRounds(s, SIGMA5, SIGMA6, Block(Xor(ka.d1, kr.d1), Xor(ka.d2, kr.d2)))
  }

  function Hi(k: Block, n: nat): Half { High(Rotate(Join(k.d1, k.d2), n)) }

  function Lo(k: Block, n: nat): Half { Low(Rotate(Join(k.d1, k.d2), n)) }

  const ZERO := Block(Half(0, 0), Half(0, 0))

  function Subkeys128(s: SBoxes, kl: Block): (t: seq<Half>)
    ensures Layout(t, 3)
  {
    var ka := KA(s, kl, ZERO);
    [Hi(kl, 0), Lo(kl, 0),                                                          // kw1, kw2
     Hi(ka, 0), Lo(ka, 0), Hi(kl, 15), Lo(kl, 15), Hi(ka, 15), Lo(ka, 15),          // k1 .. k6
     Hi(ka, 30), Lo(ka, 30),                                                        // ke1, ke2
     Hi(kl, 45), Lo(kl, 45), Hi(ka, 45), Lo(kl, 60), Hi(ka, 60), Lo(ka, 60),        // k7 .. k12
     Hi(kl, 77), Lo(kl, 77),                                                        // ke3, ke4
     Hi(kl, 94), Lo(kl, 94), Hi(ka, 94), Lo(ka, 94), Hi(kl, 111), Lo(kl, 111),      // k13 .. k18
     Hi(ka, 111), Lo(ka, 111)]                                                      // kw3, kw4
  }

  function Subkeys256(s: SBoxes, kl: Block, kr: Block): (t: seq<Half>)
    ensures Layout(t, 4)
  {
    var ka := KA(s, kl, kr);
    var kb := KB(s, ka, kr);
    [Hi(kl, 0), Lo(kl, 0),
     Hi(kb, 0), Lo(kb, 0), Hi(kr, 15), Lo(kr, 15), Hi(ka, 15), Lo(ka, 15),
     Hi(kr, 30), Lo(kr, 30),
     Hi(kb, 30), Lo(kb, 30), Hi(kl, 45), Lo(kl, 45), Hi(ka, 45), Lo(ka, 45),
     Hi(kl, 60), Lo(kl, 60),
     Hi(kr, 60), Lo(kr, 60), Hi(kb, 60), Lo(kb, 60), Hi(kl, 77), Lo(kl, 77),
     Hi(ka, 77), Lo(ka, 77),
     Hi(kr, 94), Lo(kr, 94), Hi(ka, 94), Lo(ka, 94), Hi(kl, 111), Lo(kl, 111),
     Hi(kb, 111), Lo(kb, 111)]
  }
}
