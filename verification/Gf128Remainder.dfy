/** The product that gf128mul computes a step at a time is the remainder of the whole polynomial product
    modulo x^128 + x^7 + x^2 + x + 1. */
module Gf128Remainder {
  import opened Gf2
  import opened Gf128Field
  import opened Gf128Mirror
  import opened Gf128Tables

  /** x^128 + x^7 + x^2 + x + 1 */
  const MODULUS: nat := Xor(Pow2(128), POLY)

  ghost predicate Divides(q: nat, r: nat, v: nat) { v == Xor(Clmul(q, MODULUS), r) }

  /** r is what division of v by the modulus leaves. */
  ghost predicate IsRemainder(r: nat, v: nat) { Element(r) && exists q :: Divides(q, r, v) }

  lemma DoubleIsLinear()
    ensures Linear(v => 2 * v)
  {
    hide Xor;
    forall a: nat, b: nat ensures 2 * Xor(a, b) == Xor(2 * a, 2 * b) { XorDouble(a, b); }
  }

  lemma ClmulDouble(n: nat, c: nat)
    ensures 2 * Clmul(n, c) == Clmul(n, 2 * c) == Clmul(2 * n, c)
  {
    hide Xor, Times, Linear;
    DoubleIsLinear();
    TimesOp(v => 2 * v, n, c);
  }

  /** Multiplying by x from the outside. */
  lemma TimesOuter(op: nat -> nat, n: nat, g: nat)
    requires Linear(op)
    ensures Times(op, n, g) == Xor(if n % 2 == 1 then g else 0, op(Times(op, n / 2, g)))
  {
    hide Xor, Linear;
    TimesZero(op, n, g, if n % 2 == 1 then g else 0);
    TimesOp(op, n / 2, g);
  }

  lemma ClmulOuter(n: nat, g: nat)
    ensures Clmul(n, g) == Xor(if n % 2 == 1 then g else 0, 2 * Clmul(n / 2, g))
  {
    hide Xor, Times, Linear;
    DoubleIsLinear();
    TimesOuter(v => 2 * v, n, g);
  }

  /** One multiplication by x takes away the modulus exactly when a bit passes x^127. */
  lemma XReduces(r: nat)
    requires Element(r)
    ensures Divides(Shr(r, 127), X(r), 2 * r)
  {
    hide Xor, Shl, Shr, Low, Times;
    var t, l := Shr(r, 127), Low(r, 127);
    assert t < 2 by {
      ShrSmall(r, 1, 127);
      ShlOne();
    }
    if t == 0 {
      ShlZero(127);
      TimesOne(v => 2 * v, POLY);
      TimesOne(v => 2 * v, MODULUS);
      XorZero(2 * l);
    } else {
      assert t == 1;
      TimesOne(v => 2 * v, POLY);
      TimesOne(v => 2 * v, MODULUS);
      TopBitAlone(l);
      XorMid(Pow2(128), POLY, 2 * l, POLY);
      XorZero(POLY);
      XorZero(Xor(Pow2(128), 2 * l));
    }
  }

  /** What lies below x^127, doubled, stays below x^128. */
  lemma TopBitAlone(l: nat)
    requires l < Pow2(127)
    ensures 2 * (Pow2(127) + l) == Xor(Pow2(128), 2 * l)
  {
    hide Xor, Shl;
    ShlOnce(1, 127);
    XorTop(128, 2 * l);
  }

  /** The product in bbe order is the polynomial product, reduced. */
  lemma {:induction false} ProductReduces(n: nat, g: nat)
    requires Element(g)
    ensures IsRemainder(Product(Bbe, n, g), Clmul(n, g))
  {
    hide Xor, Shl, Clmul, X, Linear, Times, Shr, Divides;
    if n == 0 {
      TimesOne(X, g);
      assert Divides(0, 0, Clmul(0, g)) by { NothingLeft(g); }
    } else {
      ProductReduces(n / 2, g);
      var r := Product(Bbe, n / 2, g);
      var q :| Divides(q, r, Clmul(n / 2, g));
      XIsLinear();
      TimesOuter(X, n, g);
      ClmulOuter(n, g);
      XReduces(r);
      Quotient(q, r, Clmul(n / 2, g), if n % 2 == 1 then g else 0);
      ProductElement(Bbe, n, g);
    }
  }

  lemma NothingLeft(g: nat)
    ensures Divides(0, 0, Clmul(0, g))
  {
    hide Xor;
    TimesOne(v => 2 * v, g);
    TimesOne(v => 2 * v, MODULUS);
    XorZero(0);
  }

  /** The quotient grows by one bit a step. */
  lemma Quotient(q: nat, r: nat, v: nat, low: nat)
    requires Divides(q, r, v) && Divides(Shr(r, 127), X(r), 2 * r)
    ensures Divides(Xor(2 * q, Shr(r, 127)), Xor(low, X(r)), Xor(low, 2 * v))
  {
    hide Xor, Clmul, X, Shr;
    var t := Shr(r, 127);
    var a, b := Clmul(2 * q, MODULUS), Clmul(t, MODULUS);
    XorDouble(Clmul(q, MODULUS), r);
    ClmulDouble(q, MODULUS);
    ClmulXor(2 * q, t, MODULUS);
    assert 2 * v == Xor(a, Xor(b, X(r)));
    XorAssoc(a, b, X(r));
    XorAssoc(low, Xor(a, b), X(r));
    XorComm(low, Xor(a, b));
    XorAssoc(Xor(a, b), low, X(r));
  }

  /** A multiple of the modulus other than zero does not fit an element. */
  lemma {:induction false} MultipleIsLarge(q: nat)
    requires q > 0
    ensures Clmul(q, MODULUS) >= Pow2(128)
  {
    hide Xor, Shl, Times;
    var m := MODULUS;
    assert POLY < Pow2(128) by {
      Byte256();
      PowGrows(8, 128);
    }
    XorTop(128, POLY);
    ShlOnce(1, 128);
    if q == 1 {
      TimesOne(v => 2 * v, m);
    } else {
      MultipleIsLarge(q / 2);
      ClmulOuter(q, m);
      KeepsTop(if q % 2 == 1 then m else 0, 2 * Clmul(q / 2, m), 129);
    }
  }

  lemma KeepsTop(a: nat, b: nat, k: nat)
    requires a < Pow2(k) <= b
    ensures Xor(a, b) >= Pow2(k)
  {
    hide Xor, Shl, Shr;
    Halves(b, k);
    var h, l := Shr(b, k), Low(b, k);
    ShlZero(k);
    XorParts(k, 0, a, h, l);
    XorZero(h);
    if h > 0 {
      ShlSum(1, h - 1, k);
    } else {
      assert false;
    }
  }

  /** Division leaves one remainder. */
  lemma RemainderUnique(r: nat, s: nat, v: nat)
    requires IsRemainder(r, v) && IsRemainder(s, v)
    ensures r == s
  {
    hide Xor, Shl, Clmul;
    var p :| Divides(p, r, v);
    var q :| Divides(q, s, v);
    var a, b := Clmul(p, MODULUS), Clmul(q, MODULUS);
    ClmulXor(p, q, MODULUS);
    XorMid(a, r, b, s);
    XorZero(v);
    XorNonzero(Xor(a, b), Xor(r, s));
    XorElement(r, s);
    XorNonzero(p, q);
    if p != q { MultipleIsLarge(Xor(p, q)); }
    XorNonzero(a, b);
    XorNonzero(r, s);
  }

  /** The polynomial that an element stands for. */
  function Read(o: Order, v: nat): nat { if o.Bbe? then v else Mirror(v, 128) }

  /** In either order Product is the one remainder of the product of the polynomials. */
  lemma ProductIsRemainder(o: Order, n: nat, g: nat, r: nat)
    requires Element(g) && Element(r)
    ensures r == Product(o, n, g) <==> IsRemainder(Read(o, r), Clmul(n, Read(o, g)))
  {
    hide Product, IsRemainder, Clmul, Shl, Mirror;
    var h := Read(o, g);
    MirrorLess(g, 128);
    ProductReduces(n, h);
    var p := Product(Bbe, n, h);
    ProductElement(Bbe, n, h);
    if o.Lle? {
      MirrorProduct(n, g);
      MirrorTwice(p, 128);
      MirrorTwice(r, 128);
    }
    if IsRemainder(Read(o, r), Clmul(n, h)) { RemainderUnique(Read(o, r), p, Clmul(n, h)); }
  }
}
