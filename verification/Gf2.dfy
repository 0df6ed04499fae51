/** Polynomials over GF(2), written as natural numbers: bit i of n is the coefficient of x^i. */
module Gf2 {
  /** Addition of polynomials, which is exclusive or of the numbers. */
  function Xor(a: nat, b: nat): nat
    decreases a + b
  {
    if a == 0 && b == 0 then 0
    else 2 * Xor(a / 2, b / 2) + (if a % 2 == b % 2 then 0 else 1)
  }

  /** Multiplication by x^k. */
  function Shl(a: nat, k: nat): (r: nat)
    ensures r >= a
  {
    if k == 0 then a else 2 * Shl(a, k - 1)
  }

  function Pow2(k: nat): nat { Shl(1, k) }

  lemma XorHalf(a: nat, b: nat)
    ensures Xor(a, b) / 2 == Xor(a / 2, b / 2)
    ensures Xor(a, b) % 2 == if a % 2 == b % 2 then 0 else 1
  {
  }

  lemma {:induction false} XorComm(a: nat, b: nat)
    ensures Xor(a, b) == Xor(b, a)
    decreases a + b
  {
    if a + b > 0 { XorComm(a / 2, b / 2); }
  }

  lemma {:induction false} XorZero(a: nat)
    ensures Xor(a, 0) == a && Xor(0, a) == a && Xor(a, a) == 0
  {
    if a > 0 { XorZero(a / 2); }
  }

  lemma {:induction false} XorAssoc(a: nat, b: nat, c: nat)
    ensures Xor(Xor(a, b), c) == Xor(a, Xor(b, c))
    decreases a + b + c
  {
    if a + b + c > 0 {
      XorAssoc(a / 2, b / 2, c / 2);
      XorHalf(a, b);
      XorHalf(b, c);
      if Xor(a, b) + c > 0 && a + Xor(b, c) > 0 {
      } else {
        XorNonzero(a, b);
        XorNonzero(b, c);
      }
    }
  }

  lemma {:induction false} XorNonzero(a: nat, b: nat)
    ensures Xor(a, b) == 0 <==> a == b
    decreases a + b
  {
    if a + b > 0 { XorNonzero(a / 2, b / 2); }
  }

  /** Swapping the middle two of four. */
  lemma XorMid(a: nat, b: nat, c: nat, d: nat)
    ensures Xor(Xor(a, b), Xor(c, d)) == Xor(Xor(a, c), Xor(b, d))
  {
    hide *;
    XorAssoc(a, b, Xor(c, d));
    XorAssoc(b, c, d);
    XorComm(b, c);
    XorAssoc(c, b, d);
    XorAssoc(a, c, Xor(b, d));
  }

  /** Low and high parts are added separately. */
  lemma {:induction false} XorParts(k: nat, h: nat, l: nat, i: nat, m: nat)
    requires l < Pow2(k) && m < Pow2(k)
    ensures Xor(Shl(h, k) + l, Shl(i, k) + m) == Shl(Xor(h, i), k) + Xor(l, m)
    ensures Xor(l, m) < Pow2(k)
    decreases k
  {
    hide Xor;
    if k == 0 {
      XorZero(0);
    } else {
      XorParts(k - 1, h, l / 2, i, m / 2);
      var u, v := Shl(h, k) + l, Shl(i, k) + m;
      assert u / 2 == Shl(h, k - 1) + l / 2 && v / 2 == Shl(i, k - 1) + m / 2;
      assert u % 2 == l % 2 && v % 2 == m % 2;
      XorHalf(u, v);
      XorHalf(l, m);
    }
  }

  lemma {:induction false} ShlZero(k: nat)
    ensures Shl(0, k) == 0
  {
    if k > 0 { ShlZero(k - 1); }
  }

  lemma XorDouble(a: nat, b: nat)
    ensures Xor(2 * a, 2 * b) == 2 * Xor(a, b)
  {
    if a + b > 0 {
      XorHalf(2 * a, 2 * b);
    }
  }

  /** A bit above all bits of k is added by ordinary addition. */
  lemma XorTop(m: nat, k: nat)
    requires k < Pow2(m)
    ensures Xor(Pow2(m), k) == Pow2(m) + k
  {
    ShlZero(m);
    XorParts(m, 1, 0, 0, k);
    XorZero(1);
    XorZero(k);
  }

  /** A map on field elements that respects addition. */
  ghost predicate Linear(op: nat -> nat) {
    op(0) == 0 && forall a, b :: op(Xor(a, b)) == Xor(op(a), op(b))
  }

  lemma LinearAt(op: nat -> nat, a: nat, b: nat)
    requires Linear(op)
    ensures op(Xor(a, b)) == Xor(op(a), op(b)) && op(0) == 0
  {
  }

  function Iter(op: nat -> nat, k: nat, g: nat): nat {
    if k == 0 then g else op(Iter(op, k - 1, g))
  }

  /** The product of polynomial n and element g, when op multiplies an element by x: the sum of
      x^i * g over the bits i of n. */
  function Times(op: nat -> nat, n: nat, g: nat): nat {
    if n == 0 then 0
    else Xor(if n % 2 == 1 then g else 0, Times(op, n / 2, op(g)))
  }

  /** The product is linear in the polynomial. */
  lemma {:induction false} TimesXor(op: nat -> nat, m: nat, n: nat, g: nat)
    ensures Times(op, Xor(m, n), g) == Xor(Times(op, m, g), Times(op, n, g))
    decreases m + n
  {
    hide Xor;
    if m == 0 {
      XorZero(n);
      XorZero(Times(op, n, g));
    } else if n == 0 {
      XorZero(m);
      XorZero(Times(op, m, g));
    } else {
      TimesXor(op, m / 2, n / 2, op(g));
      XorHalf(m, n);
      var a := if m % 2 == 1 then g else 0;
      var b := if n % 2 == 1 then g else 0;
      XorMid(a, Times(op, m / 2, op(g)), b, Times(op, n / 2, op(g)));
      XorZero(g);
      XorZero(0);
      TimesZero(op, Xor(m, n), g, Xor(a, b));
    }
  }

  lemma TimesZero(op: nat -> nat, n: nat, g: nat, low: nat)
    requires low == if n % 2 == 1 then g else 0
    ensures Times(op, n, g) == Xor(low, Times(op, n / 2, op(g)))
  {
    XorZero(0);
  }

  /** Multiplying the element by x first, or the product by x, or the polynomial by x. */
  lemma {:induction false} TimesOp(op: nat -> nat, n: nat, g: nat)
    requires Linear(op)
    ensures op(Times(op, n, g)) == Times(op, n, op(g)) == Times(op, 2 * n, g)
  {
    hide Xor, Linear;
    if n > 0 {
      var low := if n % 2 == 1 then g else 0;
      TimesOp(op, n / 2, op(g));
      LinearAt(op, low, Times(op, n / 2, op(g)));
      XorZero(Times(op, n, op(g)));
    } else {
      LinearAt(op, 0, 0);
    }
  }

  lemma {:induction false} TimesIter(op: nat -> nat, k: nat, n: nat, g: nat)
    requires Linear(op)
    ensures Iter(op, k, Times(op, n, g)) == Times(op, n, Iter(op, k, g)) == Times(op, Shl(n, k), g)
  {
    hide Xor, Times, Linear;
    if k > 0 {
      TimesIter(op, k - 1, n, g);
      TimesOp(op, n, Iter(op, k - 1, g));
      TimesOp(op, Shl(n, k - 1), g);
    }
  }

  lemma TimesOne(op: nat -> nat, g: nat)
    ensures Times(op, 1, g) == g && Times(op, 0, g) == 0
  {
    XorZero(g);
  }

  /** Splitting off the low k bits of the polynomial. */
  lemma TimesSplit(op: nat -> nat, k: nat, h: nat, l: nat, g: nat)
    requires Linear(op) && l < Pow2(k)
    ensures Times(op, Shl(h, k) + l, g) == Xor(Times(op, l, g), Times(op, h, Iter(op, k, g)))
    ensures Times(op, Shl(h, k) + l, g) == Xor(Iter(op, k, Times(op, h, g)), Times(op, l, g))
  {
    hide Xor, Times, Linear;
    ShlZero(k);
    XorParts(k, h, 0, 0, l);
    XorZero(h);
    XorZero(l);
    TimesXor(op, Shl(h, k), l, g);
    TimesIter(op, k, h, g);
    XorComm(Times(op, Shl(h, k), g), Times(op, l, g));
  }

  lemma {:induction false} IterXor(op: nat -> nat, k: nat, a: nat, b: nat)
    requires Linear(op)
    ensures Iter(op, k, Xor(a, b)) == Xor(Iter(op, k, a), Iter(op, k, b))
  {
    hide Xor, Linear;
    if k > 0 {
      IterXor(op, k - 1, a, b);
      LinearAt(op, Iter(op, k - 1, a), Iter(op, k - 1, b));
    }
  }

  lemma {:induction false} IterIter(op: nat -> nat, j: nat, k: nat, g: nat)
    ensures Iter(op, j, Iter(op, k, g)) == Iter(op, j + k, g)
  {
    if j > 0 { IterIter(op, j - 1, k, g); }
  }

  lemma {:induction false} IterZero(op: nat -> nat, k: nat)
    requires Linear(op)
    ensures Iter(op, k, 0) == 0
  {
    if k > 0 { IterZero(op, k - 1); }
  }
}
