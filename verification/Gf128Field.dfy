/** GF(2^128) = GF(2)[x] / (x^128 + x^7 + x^2 + x + 1) in the two bit orders of
    crypto/gf128mul.c: multiplication by x and by x^8.

    A be128 is the 128-bit number its bytes spell, first byte most significant.  In bbe order bit
    i of that number is the coefficient of x^i; in lle order bit 127 - i is. */
module Gf128Field {
  import opened Gf2

  /** v >> k and the k bits below. */
  function Shr(v: nat, k: nat): nat {
    if k == 0 then v else Shr(v, k - 1) / 2
  }

  function Low(v: nat, k: nat): (r: nat)
    ensures r < Pow2(k) && v == Shl(Shr(v, k), k) + r
  {
    Halves(v, k);
    v - Shl(Shr(v, k), k)
  }

  lemma {:induction false} ShlSum(a: nat, b: nat, k: nat)
    ensures Shl(a + b, k) == Shl(a, k) + Shl(b, k)
  {
    if k > 0 { ShlSum(a, b, k - 1); }
  }

  lemma {:induction false} ShlShl(a: nat, j: nat, k: nat)
    ensures Shl(Shl(a, j), k) == Shl(a, j + k)
  {
    if k > 0 { ShlShl(a, j, k - 1); }
  }

  lemma {:induction false} ShlLess(a: nat, m: nat, k: nat)
    requires a < Pow2(m)
    ensures Shl(a, k) < Pow2(m + k)
  {
    if k > 0 { ShlLess(a, m, k - 1); }
  }

  lemma {:induction false} Halves(v: nat, k: nat)
    ensures Shl(Shr(v, k), k) <= v < Shl(Shr(v, k), k) + Pow2(k)
  {
    if k > 0 {
      Halves(v, k - 1);
      var s := Shr(v, k - 1);
      ShlSum(2 * (s / 2), s % 2, k - 1);
      ShlShl(s / 2, 1, k - 1);
      ShlZero(k - 1);
    }
  }

  lemma {:induction false} ShrSmall(v: nat, m: nat, k: nat)
    requires v < Pow2(m + k)
    ensures Shr(v, k) < Pow2(m)
  {
    Halves(v, k);
    if Shr(v, k) >= Pow2(m) {
      ShlSum(Pow2(m), Shr(v, k) - Pow2(m), k);
      ShlShl(1, m, k);
    }
  }

  lemma Parts(v: nat, k: nat, h: nat, l: nat)
    requires l < Pow2(k) && v == Shl(h, k) + l
    ensures Shr(v, k) == h && Low(v, k) == l
  {
    hide Shr;
    var s := Shr(v, k);
    Halves(v, k);
    if s < h {
      ShlSum(s + 1, h - s - 1, k);
      ShlSum(s, 1, k);
    }
    if h < s {
      ShlSum(h + 1, s - h - 1, k);
      ShlSum(h, 1, k);
    }
  }

  lemma PartsXor(a: nat, b: nat, k: nat)
    ensures Shr(Xor(a, b), k) == Xor(Shr(a, k), Shr(b, k)) && Low(Xor(a, b), k) == Xor(Low(a, k), Low(b, k))
  {
    hide Shr, Xor, Shl, Low;
    XorParts(k, Shr(a, k), Low(a, k), Shr(b, k), Low(b, k));
    Parts(Xor(a, b), k, Xor(Shr(a, k), Shr(b, k)), Xor(Low(a, k), Low(b, k)));
  }

  /** The product of two polynomials, without reduction. */
  function Clmul(n: nat, c: nat): nat { Times(v => 2 * v, n, c) }

  lemma ClmulXor(m: nat, n: nat, c: nat)
    ensures Clmul(Xor(m, n), c) == Xor(Clmul(m, c), Clmul(n, c))
  {
    TimesXor(v => 2 * v, m, n, c);
  }

  // ---- bbe ----

  const POLY: nat := 0x87    // x^7 + x^2 + x + 1

  /** Multiplication by x: shift, and fold what passes x^127 back with x^128 = POLY. */
  function X(v: nat): nat {
    Xor(2 * Low(v, 127), Clmul(Shr(v, 127), POLY))
  }

  lemma XXor(a: nat, b: nat)
    ensures X(Xor(a, b)) == Xor(X(a), X(b))
  {
    hide Xor, Shl, Shr, Low, Clmul;
    PartsXor(a, b, 127);
    XorDouble(Low(a, 127), Low(b, 127));
    ClmulXor(Shr(a, 127), Shr(b, 127), POLY);
    XorMid(2 * Low(a, 127), Clmul(Shr(a, 127), POLY), 2 * Low(b, 127), Clmul(Shr(b, 127), POLY));
  }

  lemma XZero()
    ensures X(0) == 0
  {
    hide Shl, Shr, Low;
    ShlZero(127);
    PowPositive(127);
    Parts(0, 127, 0, 0);
    XorZero(0);
  }

  lemma {:induction false} PowPositive(k: nat)
    ensures Pow2(k) > 0
  {
    if k > 0 { PowPositive(k - 1); }
  }

  lemma XIsLinear()
    ensures Linear(X)
  {
    hide X, Xor;
    XZero();
    forall a: nat, b: nat ensures X(Xor(a, b)) == Xor(X(a), X(b)) { XXor(a, b); }
  }

  /** No folding happens below x^127. */
  lemma XSmall(v: nat)
    requires v < Pow2(127)
    ensures X(v) == 2 * v
  {
    hide Shl, Shr, Low, Xor;
    ShlZero(127);
    Parts(v, 127, 0, v);
    XorZero(2 * v);
  }

  lemma {:induction false} PowGrows(j: nat, k: nat)
    requires j <= k
    ensures Pow2(j) <= Pow2(k)
    decreases k
  {
    if j < k { PowGrows(j, k - 1); }
  }

  lemma {:induction false} IterShl(l: nat, j: nat, k: nat)
    requires l < Pow2(j) && j + k <= 128
    ensures Iter(X, k, l) == Shl(l, k)
    decreases k
  {
    hide X;
    if k > 0 {
      IterShl(l, j, k - 1);
      ShlLess(l, j, k - 1);
      PowGrows(j + k - 1, 127);
      XSmall(Shl(l, k - 1));
    }
  }

  /** x^128 is POLY. */
  lemma XTop()
    ensures Iter(X, 128, 1) == POLY
  {
    hide X, Shl;
    assert 1 < Pow2(1) by { ShlOne(); }
    IterShl(1, 1, 127);
    TopBit();
    IterStep(X, 127, 1);
  }

  lemma ShlOne()
    ensures Pow2(1) == 2
  {
  }

  lemma IterStep(op: nat -> nat, k: nat, g: nat)
    ensures Iter(op, k + 1, g) == op(Iter(op, k, g))
  {
  }

  lemma TopBit()
    ensures X(Pow2(127)) == POLY
  {
    hide Shl, Shr, Low, Xor;
    PowPositive(127);
    Parts(Pow2(127), 127, 1, 0);
    TimesOne(v => 2 * v, POLY);
    XorZero(POLY);
  }

  /** An element is the polynomial it spells times 1. */
  lemma {:induction false} TimesPow(n: nat, i: nat, k: nat)
    requires n < Pow2(k) && i + k <= 128
    ensures Times(X, n, Pow2(i)) == Shl(n, i)
    decreases k
  {
    hide X, Xor;
    if n == 0 {
      ShlZero(i);
    } else {
      var g := Pow2(i);
      var low := if n % 2 == 1 then g else 0;
      TimesZero(X, n, g, low);
      if k > 1 {
        PowGrows(i + 1, 127);
        XSmall(g);
        TimesPow(n / 2, i + 1, k - 1);
      } else {
        ShlZero(i + 1);
      }
      ShlBits(n, i, low);
    }
  }

  lemma ShlBits(n: nat, i: nat, low: nat)
    requires low == if n % 2 == 1 then Pow2(i) else 0
    ensures Xor(low, Shl(n / 2, i + 1)) == Shl(n, i)
  {
    hide Xor;
    ShlZero(i + 1);
    ShlZero(i);
    PowPositive(i);
    XorParts(i + 1, 0, low, n / 2, 0);
    XorZero(n / 2);
    XorZero(low);
    ShlSum(2 * (n / 2), n % 2, i);
    ShlShl(n / 2, 1, i);
  }

  /** Multiplying a short polynomial by a short element folds nothing. */
  lemma {:induction false} TimesShort(n: nat, k: nat, c: nat, j: nat)
    requires n < Pow2(k) && c < Pow2(j) && j + k <= 128
    ensures Times(X, n, c) == Clmul(n, c)
    decreases k
  {
    hide X, Xor;
    if n > 1 {
      PowGrows(j, 127);
      XSmall(c);
      TimesShort(n / 2, k - 1, 2 * c, j + 1);
    } else {
      TimesOne(X, c);
      TimesOne(v => 2 * v, c);
    }
  }

  /** One term of the macro xda_bbe. */
  function Term(i: nat, weight: nat, c: nat): nat
    requires weight > 0
  {
    if i / weight % 2 == 1 then c else 0
  }

  /** Entry i of gf128mul_table_bbe (xda_bbe), lowest bit first. */
  function TableBbe(i: nat): nat {
    Xor(Term(i, 0x01, 0x0087), Xor(Term(i, 0x02, 0x010e), Xor(Term(i, 0x04, 0x021c), Xor(Term(i, 0x08, 0x0438),
    Xor(Term(i, 0x10, 0x0870), Xor(Term(i, 0x20, 0x10e0), Xor(Term(i, 0x40, 0x21c0), Term(i, 0x80, 0x4380))))))))
  }

  lemma ClmulStep(n: nat, c: nat)
    ensures Clmul(n, c) == Xor(if n % 2 == 1 then c else 0, Clmul(n / 2, 2 * c))
  {
    TimesZero(v => 2 * v, n, c, if n % 2 == 1 then c else 0);
  }

  lemma Halvings(i: nat)
    requires i < 256
    ensures i / 2 / 2 == i / 4 && i / 4 / 2 == i / 8 && i / 8 / 2 == i / 16 && i / 16 / 2 == i / 32
    ensures i / 32 / 2 == i / 64 && i / 64 / 2 == i / 128 && i / 128 / 2 == 0
  {
  }

  lemma TermBit(i: nat, weight: nat, c: nat)
    requires weight > 0
    ensures Clmul(i / weight, c) == Xor(Term(i, weight, c), Clmul(i / weight / 2, 2 * c))
  {
    hide Xor, Clmul;
    ClmulStep(i / weight, c);
  }

  /** The table holds the overflow byte times POLY. */
  lemma TableIsClmul(i: nat)
    requires i < 256
    ensures TableBbe(i) == Clmul(i, POLY)
  {
    hide Xor, Clmul, Term;
    Halvings(i);
    TermBit(i, 1, 0x87);
    TermBit(i, 2, 0x10e);
    TermBit(i, 4, 0x21c);
    TermBit(i, 8, 0x438);
    TermBit(i, 16, 0x870);
    TermBit(i, 32, 0x10e0);
    TermBit(i, 64, 0x21c0);
    TermBit(i, 128, 0x4380);
    ClmulZero(0x8700);
    XorZero(Term(i, 0x80, 0x4380));
  }

  lemma ClmulZero(c: nat)
    ensures Clmul(0, c) == 0
  {
  }

  /** gf128mul_x_bbe */
  function MulXBbe(v: nat): nat { Xor(2 * Low(v, 127), TableBbe(Shr(v, 127))) }

  lemma MulXBbeIsX(v: nat)
    requires v < Pow2(128)
    ensures MulXBbe(v) == X(v)
  {
    hide Xor, Shl, Shr, Low, Clmul, TableBbe;
    ShlOne();
    ShrSmall(v, 1, 127);
    TableIsClmul(Shr(v, 127));
  }

  /** gf128mul_x8_bbe */
  function MulX8Bbe(v: nat): nat { Xor(Shl(Low(v, 120), 8), TableBbe(Shr(v, 120))) }

  lemma Byte256()
    ensures Pow2(8) == 256
  {
  }

  lemma MulX8BbeIsX8(v: nat)
    requires v < Pow2(128)
    ensures MulX8Bbe(v) == Iter(X, 8, v)
  {
    hide Xor, Shl, Shr, Low, Clmul, TableBbe, X, Iter, Linear;
    var h, l := Shr(v, 120), Low(v, 120);
    Byte256();
    ShrSmall(v, 8, 120);
    XIsLinear();
    ShlZero(120);
    XorParts(120, h, 0, 0, l);
    XorZero(h);
    XorZero(l);
    IterXor(X, 8, Shl(h, 120), l);
    IterShl(l, 120, 8);
    OverflowByte(h);
    TableIsClmul(h);
    XorComm(Shl(l, 8), TableBbe(h));
  }

  /** What the top byte becomes when multiplied by x^8. */
  lemma OverflowByte(h: nat)
    requires h < 256
    ensures Iter(X, 8, Shl(h, 120)) == Clmul(h, POLY)
  {
    hide Xor, Shl, X, Iter, Times, Linear;
    Byte256();
    XIsLinear();
    IterShl(h, 8, 120);
    IterIter(X, 8, 120, h);
    ShlNone(h);
    ShlNone(1);
    TimesPow(h, 0, 8);
    TimesIter(X, 128, h, 1);
    XTop();
    TimesShort(h, 8, POLY, 8);
  }

  lemma ShlNone(a: nat)
    ensures Shl(a, 0) == a && Pow2(0) == 1
  {
  }
}
