/** The round macros of crypto/camellia.c. */
module CamelliaRounds {
  import opened WordXor
  import opened CamelliaSpec
  import opened CamelliaMasks

  function RR8(x: bv32): bv32 { (x >> 8) + (x << 24) }

  function RL8(x: bv32): bv32 { (x << 8) + (x >> 24) }

  // The combined S-box and diffusion tables, entry by entry.
  function SP1110(s: SBoxes, i: bv8): bv32 { Word(s.s1(i), s.s1(i), s.s1(i), 0) }

  function SP0222(s: SBoxes, i: bv8): bv32 { Word(0, s.s2(i), s.s2(i), s.s2(i)) }

  function SP3033(s: SBoxes, i: bv8): bv32 { Word(s.s3(i), 0, s.s3(i), s.s3(i)) }

  function SP4404(s: SBoxes, i: bv8): bv32 { Word(s.s4(i), s.s4(i), 0, s.s4(i)) }

  function E(a: bv8, b: bv8): bv8 { a ^ b }

  lemma WordOfXor(a: bv8, b: bv8, c: bv8, d: bv8, e: bv8, f: bv8, g: bv8, h: bv8)
    ensures X(Word(a, b, c, d), Word(e, f, g, h)) == Word(E(a, e), E(b, f), E(c, g), E(d, h))
  {
  }

  lemma ByteXor(a: bv8, b: bv8, c: bv8)
    ensures E(E(a, b), c) == Sum3(a, b, c) && E(a, 0) == a && E(0, a) == a
  {
  }

  lemma Sum33(a: bv8, b: bv8, c: bv8, d: bv8, e: bv8, f: bv8)
    ensures E(Sum3(a, b, c), Sum3(d, e, f)) == Sum6(a, b, c, d, e, f)
  {
  }

  lemma Turn3(a: bv8, b: bv8, c: bv8)
    ensures Sum3(a, b, c) == Sum3(b, c, a)
  {
  }

  // Cancelling the two bytes that occur on both sides.
  lemma Cancel1(p: bv8, q: bv8, r: bv8, a: bv8, c: bv8, d: bv8, e: bv8)
    ensures E(Sum3(p, q, r), Sum6(a, q, r, c, d, e)) == Sum5(a, p, c, d, e)
  {
  }

  lemma Cancel2(p: bv8, q: bv8, r: bv8, a: bv8, c: bv8, d: bv8, e: bv8)
    ensures E(Sum3(p, q, r), Sum6(p, a, r, c, d, e)) == Sum5(a, q, c, d, e)
  {
  }

  lemma Cancel3(p: bv8, q: bv8, r: bv8, a: bv8, c: bv8, d: bv8, e: bv8)
    ensures E(Sum3(p, q, r), Sum6(p, q, a, c, d, e)) == Sum5(a, r, c, d, e)
  {
  }

  lemma Cancel4(p: bv8, q: bv8, r: bv8, a: bv8, c: bv8, d: bv8, e: bv8)
    ensures E(Sum3(p, q, r), Sum6(q, r, a, c, d, e)) == Sum5(p, a, c, d, e)
  {
  }

  lemma RotateWord(a: bv8, b: bv8, c: bv8, d: bv8)
    ensures RR8(Word(a, b, c, d)) == Word(d, a, b, c)
  {
  }

  lemma RR8X(a: bv32, b: bv32)
    ensures RR8(X(a, b)) == X(RR8(a), RR8(b))
  {
  }

  lemma RR8RL8(a: bv32)
    ensures RR8(RL8(a)) == a
  {
  }

  /** The S-box outputs of one word run through its four tables. */
  function Quarter(s: SBoxes, i1: bv8, i2: bv8, i3: bv8, i4: bv8): bv32 {
    X(X(X(SP1110(s, i1), SP0222(s, i2)), SP3033(s, i3)), SP4404(s, i4))
  }

  lemma QuarterWord(a: bv8, b: bv8, c: bv8, d: bv8)
    ensures X(X(X(Word(a, a, a, 0), Word(0, b, b, b)), Word(c, 0, c, c)), Word(d, d, 0, d))
            == Word(Sum3(a, c, d), Sum3(a, b, d), Sum3(a, b, c), Sum3(b, c, d))
  {
    hide X, Word, E, Sum3;
    WordOfXor(a, a, a, 0, 0, b, b, b);
    ByteXor(a, b, c);
    ByteXor(a, b, d);
    ByteXor(a, c, d);
    ByteXor(b, c, d);
    WordOfXor(a, E(a, b), E(a, b), b, c, 0, c, c);
    ByteXor(E(a, b), c, d);
    WordOfXor(E(a, c), E(a, b), Sum3(a, b, c), E(b, c), d, d, 0, d);
    ByteXor(Sum3(a, b, c), c, d);
  }

  /** CAMELLIA_F of the two words: left and right table sums, then the last half of P. */
  function LastHalf(il: bv32, ir: bv32): Half { Half(X(il, ir), X(RR8(il), X(il, ir))) }

  function Left(s: SBoxes, x: Half): bv32 {
    Quarter(s, Byte(x.l, 0), Byte(x.l, 1), Byte(x.l, 2), Byte(x.l, 3))
  }

  function Right(s: SBoxes, x: Half): bv32 {
    Quarter(s, Byte(x.r, 3), Byte(x.r, 0), Byte(x.r, 1), Byte(x.r, 2))
  }

  lemma LastHalfIsP(t1: bv8, t2: bv8, t3: bv8, t4: bv8, t5: bv8, t6: bv8, t7: bv8, t8: bv8)
    ensures LastHalf(Word(Sum3(t1, t3, t4), Sum3(t1, t2, t4), Sum3(t1, t2, t3), Sum3(t2, t3, t4)),
                     Word(Sum3(t8, t6, t7), Sum3(t8, t5, t7), Sum3(t8, t5, t6), Sum3(t5, t6, t7)))
            == P(t1, t2, t3, t4, t5, t6, t7, t8)
  {
    hide X, Word, RR8, E, Sum3, Sum5, Sum6;
    var a1, a2, a3, a4 := Sum3(t1, t3, t4), Sum3(t1, t2, t4), Sum3(t1, t2, t3), Sum3(t2, t3, t4);
    WordOfXor(a1, a2, a3, a4, Sum3(t8, t6, t7), Sum3(t8, t5, t7), Sum3(t8, t5, t6), Sum3(t5, t6, t7));
    Turn3(t8, t6, t7);
    Turn3(t8, t5, t7);
    Turn3(t8, t5, t6);
    Sum33(t1, t3, t4, t6, t7, t8);
    Sum33(t1, t2, t4, t5, t7, t8);
    Sum33(t1, t2, t3, t5, t6, t8);
    Sum33(t2, t3, t4, t5, t6, t7);
    RotateWord(a1, a2, a3, a4);
    WordOfXor(a4, a1, a2, a3, Sum6(t1, t3, t4, t6, t7, t8), Sum6(t1, t2, t4, t5, t7, t8),
              Sum6(t1, t2, t3, t5, t6, t8), Sum6(t2, t3, t4, t5, t6, t7));
    Cancel1(t2, t3, t4, t1, t6, t7, t8);
    Cancel2(t1, t3, t4, t2, t5, t7, t8);
    Cancel3(t1, t2, t4, t3, t5, t6, t8);
    Cancel4(t1, t2, t3, t4, t5, t6, t7);
  }

  /** The table form of the round function is the one in the standard. */
  lemma TableF(s: SBoxes, x: Half)
    ensures LastHalf(Left(s, x), Right(s, x)) == F0(s, x)
  {
    var t1, t2, t3, t4 := s.s1(Byte(x.l, 0)), s.s2(Byte(x.l, 1)), s.s3(Byte(x.l, 2)), s.s4(Byte(x.l, 3));
    var t5, t6, t7, t8 := s.s2(Byte(x.r, 0)), s.s3(Byte(x.r, 1)), s.s4(Byte(x.r, 2)), s.s1(Byte(x.r, 3));
    hide X, Word, Byte, Xor, LastHalf, P, Sum3;
    XorSelf(x, x);
    QuarterWord(t1, t2, t3, t4);
    QuarterWord(t8, t5, t6, t7);
    LastHalfIsP(t1, t2, t3, t4, t5, t6, t7, t8);
  }

  /** What a stored round key adds to the half it is applied to. */
  function Mix(k: Half): Half { LastHalf(k.l, k.r) }

  /** The inverse of the last half of P, applied to every stored round key. */
  function Unmix(k: Half): Half {
    var dw := RL8(X(k.l, k.r));
    Half(dw, X(k.l, dw))
  }

  lemma MixUnmix(k: Half)
    ensures Mix(Unmix(k)) == k
  {
    hide X, RR8, RL8;
    var dw := RL8(X(k.l, k.r));
    XComm(k.l, dw);
    XSelf(dw, k.l);
    RR8RL8(X(k.l, k.r));
    XComm(X(k.l, k.r), k.l);
    XSelf(k.l, k.r);
  }

  /** CAMELLIA_ROUNDSM: the key is added after the tables, on the way into the last half of P. */
  method RoundSM(s: SBoxes, x: Half, k: Half, y: Half) returns (z: Half)
    ensures z == Xor(y, Xor(F0(s, x), Mix(k)))
  {
    hide X, RR8, F0, Left, Right, Mix, LastHalf;
    var ir := Right(s, x);
    var il := Left(s, x);
    il := X(il, k.l);
    ir := X(ir, X(il, k.r));
    z := Half(X(y.l, ir), X(y.r, X(RR8(il), ir)));
    assert z == Xor(y, Half(ir, X(RR8(il), ir)));
    SumKey(Left(s, x), Right(s, x), k);
    TableF(s, x);
  }

  lemma SumKey(l: bv32, r: bv32, k: Half)
    ensures Xor(LastHalf(l, r), Mix(k)) ==
            Half(X(r, X(X(l, k.l), k.r)), X(RR8(X(l, k.l)), X(r, X(X(l, k.l), k.r))))
  {
    hide X, RR8;
    Mid(l, r, k.l, k.r);
    XComm(r, X(X(l, k.l), k.r));
    XAssoc(X(l, k.l), k.r, r);
    XComm(r, k.r);
    RR8X(l, k.l);
    Mid(RR8(l), X(l, r), RR8(k.l), X(k.l, k.r));
  }
}
