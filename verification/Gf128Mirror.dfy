/** The lle bit order: every element mirrored. */
module Gf128Mirror {
  import opened Gf2
  import opened Gf128Field

  /** The k low bits of v in reverse order. */
  function Mirror(v: nat, k: nat): (r: nat) {
    if k == 0 then 0 else Shl(v % 2, k - 1) + Mirror(v / 2, k - 1)
  }

  lemma {:induction false} MirrorLess(v: nat, k: nat)
    ensures Mirror(v, k) < Pow2(k)
  {
    if k > 0 {
      MirrorLess(v / 2, k - 1);
      ShlZero(k - 1);
    }
  }

  lemma {:induction false} MirrorZero(k: nat)
    ensures Mirror(0, k) == 0
  {
    if k > 0 {
      MirrorZero(k - 1);
      ShlZero(k - 1);
    }
  }

  lemma {:induction false} MirrorXor(a: nat, b: nat, k: nat)
    ensures Mirror(Xor(a, b), k) == Xor(Mirror(a, k), Mirror(b, k))
  {
    hide Xor;
    if k == 0 {
      XorZero(0);
    } else {
      XorHalf(a, b);
      MirrorXor(a / 2, b / 2, k - 1);
      MirrorLess(a / 2, k - 1);
      MirrorLess(b / 2, k - 1);
      XorParts(k - 1, a % 2, Mirror(a / 2, k - 1), b % 2, Mirror(b / 2, k - 1));
      XorBit(a % 2, b % 2);
    }
  }

  lemma XorBit(a: nat, b: nat)
    requires a < 2 && b < 2
    ensures Xor(a, b) == if a == b then 0 else 1
  {
    XorZero(a);
    XorZero(b);
  }

  /** The top bit of k comes out lowest. */
  lemma {:induction false} MirrorTop(b: nat, m: nat, k: nat)
    requires k > 0 && b < 2 && m < Pow2(k - 1)
    ensures Mirror(Shl(b, k - 1) + m, k) == 2 * Mirror(m, k - 1) + b
    decreases k
  {
    if k > 1 {
      var v := Shl(b, k - 1) + m;
      assert v / 2 == Shl(b, k - 2) + m / 2 && v % 2 == m % 2;
      MirrorTop(b, m / 2, k - 1);
      assert Shl(m % 2, k - 1) == 2 * Shl(m % 2, k - 2);
    }
  }

  lemma {:induction false} MirrorTwice(v: nat, k: nat)
    requires v < Pow2(k)
    ensures Mirror(Mirror(v, k), k) == v
  {
    if k > 0 {
      MirrorTwice(v / 2, k - 1);
      MirrorLess(v / 2, k - 1);
      MirrorTop(v % 2, Mirror(v / 2, k - 1), k);
    }
  }

  const E1: nat := Shl(0xe1, 120)

  /** Multiplication by x in lle order. */
  function XL(v: nat): nat { Xor(v / 2, if v % 2 == 1 then E1 else 0) }

  lemma MirrorPoly()
    ensures Mirror(POLY, 128) == E1
  {
    hide Shl, Mirror;
    MirrorStep(0x87, 128);
    MirrorStep(0x43, 127);
    MirrorStep(0x21, 126);
    MirrorStep(0x10, 125);
    MirrorStep(0x08, 124);
    MirrorStep(0x04, 123);
    MirrorStep(0x02, 122);
    MirrorStep(0x01, 121);
    MirrorZero(120);
    ShlZero(124);
    ShlZero(123);
    ShlZero(122);
    ShlZero(121);
    ShlShl(1, 7, 120);
    ShlShl(1, 6, 120);
    ShlShl(1, 5, 120);
    Small();
    ShlSum(0x80, 0x40, 120);
    ShlSum(0xc0, 0x20, 120);
    ShlSum(0xe0, 0x01, 120);
  }

  lemma MirrorStep(v: nat, k: nat)
    requires k > 0
    ensures Mirror(v, k) == Shl(v % 2, k - 1) + Mirror(v / 2, k - 1)
  {
  }

  lemma Small()
    ensures Shl(1, 7) == 0x80 && Shl(1, 6) == 0x40 && Shl(1, 5) == 0x20
  {
  }

  /** Multiplication by x in lle order is that of the field, seen in the mirror. */
  lemma MirrorX(v: nat)
    requires v < Pow2(128)
    ensures XL(v) == Mirror(X(Mirror(v, 128)), 128)
  {
    hide Shl, Mirror, Xor, Shr, Low, Clmul;
    var m := Mirror(v / 2, 127);
    MirrorStep(v, 128);
    MirrorLess(v / 2, 127);
    Parts(Mirror(v, 128), 127, v % 2, m);
    var fold := Clmul(v % 2, POLY);
    if v % 2 == 1 { TimesOneClmul(POLY); } else { ClmulZero(POLY); }
    MirrorXor(2 * m, fold, 128);
    MirrorStep(2 * m, 128);
    ShlZero(127);
    HalfLess(v, 127);
    MirrorTwice(v / 2, 127);
    MirrorPoly();
    MirrorZero(128);
  }

  lemma TimesOneClmul(c: nat)
    ensures Clmul(1, c) == c
  {
    TimesOne(v => 2 * v, c);
  }

  lemma HalfLess(v: nat, k: nat)
    requires v < Pow2(k + 1)
    ensures v / 2 < Pow2(k)
  {
  }

  lemma XLXor(a: nat, b: nat)
    ensures XL(Xor(a, b)) == Xor(XL(a), XL(b))
  {
    hide Xor, Shl;
    XorHalf(a, b);
    var p := if a % 2 == 1 then E1 else 0;
    var q := if b % 2 == 1 then E1 else 0;
    XorMid(a / 2, p, b / 2, q);
    XorZero(E1);
    XorZero(0);
  }

  lemma XLIsLinear()
    ensures Linear(XL)
  {
    hide XL, Xor;
    assert XL(0) == 0 by { XLZero(); }
    forall a: nat, b: nat ensures XL(Xor(a, b)) == Xor(XL(a), XL(b)) { XLXor(a, b); }
  }

  lemma XLZero()
    ensures XL(0) == 0
  {
    XorZero(0);
  }

  /** An even number is halved. */
  lemma XLEven(v: nat)
    ensures XL(2 * v) == v
  {
    XorZero(v);
  }

  lemma {:induction false} IterXLShl(q: nat, k: nat)
    ensures Iter(XL, k, Shl(q, k)) == q
  {
    hide XL;
    if k > 0 {
      XLEven(Shl(q, k - 1));
      IterIter(XL, k - 1, 1, Shl(q, k));
      IterOnce(Shl(q, k));
      IterXLShl(q, k - 1);
    }
  }

  lemma IterOnce(v: nat)
    ensures Iter(XL, 1, v) == XL(v)
  {
  }

  /** Entry i of gf128mul_table_lle (xda_lle), lowest bit first. */
  function TableLle(i: nat): nat {
    Xor(Term(i, 0x01, 0x01c2), Xor(Term(i, 0x02, 0x0384), Xor(Term(i, 0x04, 0x0708), Xor(Term(i, 0x08, 0x0e10),
    Xor(Term(i, 0x10, 0x1c20), Xor(Term(i, 0x20, 0x3840), Xor(Term(i, 0x40, 0x7080), Term(i, 0x80, 0xe100))))))))
  }

  /** One step on the bit of the byte that is lowest: it turns into E1, shifted by the steps left. */
  lemma LleBit(i: nat, weight: nat, k: nat, c: nat)
    requires weight > 0 && Iter(XL, k, E1) == Shl(c, 112)
    ensures Iter(XL, k + 1, i / weight) == Xor(Shl(Term(i, weight, c), 112), Iter(XL, k, i / weight / 2))
  {
    hide Xor, Shl, Linear, XL;
    var n := i / weight;
    XLIsLinear();
    var low := if n % 2 == 1 then E1 else 0;
    IterIter(XL, k, 1, n);
    IterOnce(n);
    assert XL(n) == Xor(n / 2, low) by { XLDef(n); }
    IterXor(XL, k, n / 2, low);
    ShlZero(112);
    IterZeroAt(k);
    XorComm(Iter(XL, k, n / 2), Iter(XL, k, low));
  }

  lemma XLDef(n: nat)
    ensures XL(n) == Xor(n / 2, if n % 2 == 1 then E1 else 0)
  {
  }

  lemma IterZeroAt(k: nat)
    ensures Iter(XL, k, 0) == 0
  {
    XLIsLinear();
    IterZero(XL, k);
  }

  /** E1 shifted down by k bits, as the table has it. */
  lemma LleConst(c: nat, k: nat)
    requires Iter(XL, k, E1) == Shl(2 * c, 112)
    ensures Iter(XL, k + 1, E1) == Shl(c, 112)
  {
    hide XL;
    ShlDouble(c, 112);
    XLEven(Shl(c, 112));
  }

  lemma {:induction false} ShlDouble(c: nat, k: nat)
    ensures Shl(2 * c, k) == 2 * Shl(c, k)
  {
    if k > 0 { ShlDouble(c, k - 1); }
  }

  lemma LleConsts()
    ensures Iter(XL, 0, E1) == Shl(0xe100, 112) && Iter(XL, 1, E1) == Shl(0x7080, 112)
    ensures Iter(XL, 2, E1) == Shl(0x3840, 112) && Iter(XL, 3, E1) == Shl(0x1c20, 112)
    ensures Iter(XL, 4, E1) == Shl(0x0e10, 112) && Iter(XL, 5, E1) == Shl(0x0708, 112)
    ensures Iter(XL, 6, E1) == Shl(0x0384, 112) && Iter(XL, 7, E1) == Shl(0x01c2, 112)
  {
    hide XL, Shl, Iter;
    IterNone(E1);
    ShlShl(0xe1, 8, 112);
    ShlE1();
    LleConst(0x7080, 0);
    LleConst(0x3840, 1);
    LleConst(0x1c20, 2);
    LleConst(0x0e10, 3);
    LleConst(0x0708, 4);
    LleConst(0x0384, 5);
    LleConst(0x01c2, 6);
  }

  lemma IterNone(v: nat)
    ensures Iter(XL, 0, v) == v
  {
  }

  lemma ShlE1()
    ensures Shl(0xe1, 8) == 0xe100
  {
  }

  lemma ShlXor(a: nat, b: nat, k: nat)
    ensures Shl(Xor(a, b), k) == Xor(Shl(a, k), Shl(b, k))
  {
    hide Xor, Shl;
    PowPositive(k);
    XorParts(k, a, 0, b, 0);
    XorZero(0);
  }

  /** Eight steps on a byte give its table entry. */
  lemma LleByte(i: nat)
    requires i < 256
    ensures Iter(XL, 8, i) == Shl(TableLle(i), 112)
  {
    hide XL, Shl, Iter, Xor, Term;
    Halvings(i);
    LleConsts();
    LleBit(i, 1, 7, 0x01c2);
    LleBit(i, 2, 6, 0x0384);
    LleBit(i, 4, 5, 0x0708);
    LleBit(i, 8, 4, 0x0e10);
    LleBit(i, 16, 3, 0x1c20);
    LleBit(i, 32, 2, 0x3840);
    LleBit(i, 64, 1, 0x7080);
    LleBit(i, 128, 0, 0xe100);
    IterNone(0);
    var t7 := Term(i, 128, 0xe100);
    XorZero(Shl(t7, 112));
    var t6 := Xor(Term(i, 64, 0x7080), t7);
    var t5 := Xor(Term(i, 32, 0x3840), t6);
    var t4 := Xor(Term(i, 16, 0x1c20), t5);
    var t3 := Xor(Term(i, 8, 0x0e10), t4);
    var t2 := Xor(Term(i, 4, 0x0708), t3);
    var t1 := Xor(Term(i, 2, 0x0384), t2);
    ShlXor(Term(i, 64, 0x7080), t7, 112);
    ShlXor(Term(i, 32, 0x3840), t6, 112);
    ShlXor(Term(i, 16, 0x1c20), t5, 112);
    ShlXor(Term(i, 8, 0x0e10), t4, 112);
    ShlXor(Term(i, 4, 0x0708), t3, 112);
    ShlXor(Term(i, 2, 0x0384), t2, 112);
    ShlXor(Term(i, 1, 0x01c2), t1, 112);
  }

  /** gf128mul_x8_lle */
  function MulX8Lle(v: nat): nat { Xor(Shr(v, 8), Shl(TableLle(Low(v, 8)), 112)) }

  lemma MulX8LleIsX8(v: nat)
    ensures MulX8Lle(v) == Iter(XL, 8, v)
  {
    hide Xor, Shl, Shr, Low, TableLle, XL, Iter, Linear;
    var q, h := Shr(v, 8), Low(v, 8);
    Byte256();
    XLIsLinear();
    ShlZero(8);
    XorParts(8, q, 0, 0, h);
    XorZero(q);
    XorZero(h);
    IterXor(XL, 8, Shl(q, 8), h);
    IterXLShl(q, 8);
    LleByte(h);
  }

  /** gf128mul_x_lle */
  function MulXLle(v: nat): nat { Xor(v / 2, Shl(TableLle(if v % 2 == 1 then 0x80 else 0), 112)) }

  lemma MulXLleIsXL(v: nat)
    ensures MulXLle(v) == XL(v)
  {
    hide Xor, Shl;
    XorZero(0xe100);
    XorZero(0);
    ShlZero(112);
    ShlShl(0xe1, 8, 112);
    ShlE1();
  }
}
