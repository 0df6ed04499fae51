/** crypto/camellia.c: the rewritten key table and the fast rounds, proved to compute RFC 3713. */
module CamelliaMasks {
  import opened WordXor
  import opened Words
  import opened CamelliaSpec

  /** How an FL layer carries a key mask backwards through it (the masks absorbed in the
      schedule are rewritten with this). */
  function Through(k: Half, v: Half): Half {
    var l := X(v.l, A(v.r, N(k.r)));
    Half(l, X(v.r, RotL1(A(l, k.l))))
  }

  function F0(s: SBoxes, x: Half): Half { F(s, x, Half(0, 0)) }

  lemma XorComm(a: Half, b: Half)
    ensures Xor(a, b) == Xor(b, a)
  {
    hide X;
    XComm(a.l, b.l);
    XComm(a.r, b.r);
  }

  lemma XorAssoc(a: Half, b: Half, c: Half)
    ensures Xor(a, Xor(b, c)) == Xor(Xor(a, b), c)
  {
    hide X;
    XAssoc(a.l, b.l, c.l);
    XAssoc(a.r, b.r, c.r);
  }

  lemma XorSelf(a: Half, b: Half)
    ensures Xor(a, Xor(a, b)) == b
    ensures Xor(a, a) == Half(0, 0) && Xor(a, Half(0, 0)) == a
  {
    hide X;
    XSelf(a.l, b.l);
    XSelf(a.r, b.r);
  }

  lemma FKey(s: SBoxes, x: Half, k: Half)
    ensures F(s, x, k) == F0(s, Xor(x, k))
  {
    XorSelf(Xor(x, k), x);
    hide Xor, P;
  }

  /** Swapping the middle two of four. */
  lemma Mid(a: bv32, b: bv32, c: bv32, d: bv32)
    ensures X(X(a, b), X(c, d)) == X(X(a, c), X(b, d))
  {
    hide X;
    XAssoc(X(a, b), c, d);
    XAssoc(a, b, c);
    XComm(b, c);
    XAssoc(a, c, b);
    XAssoc(X(a, c), b, d);
  }

  lemma ThroughLinear(k: Half, u: Half, v: Half)
    ensures Through(k, Xor(u, v)) == Xor(Through(k, u), Through(k, v))
  {
    hide X, A, N, RotL1;
    var a := Through(k, u).l;
    var b := Through(k, v).l;
    AndX(u.r, v.r, N(k.r));
    Mid(u.l, v.l, A(u.r, N(k.r)), A(v.r, N(k.r)));
    AndX(a, b, k.l);
    RotX(A(a, k.l), A(b, k.l));
    Mid(u.r, v.r, RotL1(A(a, k.l)), RotL1(A(b, k.l)));
  }

  /** A mask carried back through FL comes out of FL as it was. */
  lemma MaskFL(x: Half, k: Half, v: Half)
    ensures FL(Xor(x, Through(k, v)), k) == Xor(FL(x, k), v)
  {
    hide X, A, N, O, RotL1;
    var m := Through(k, v);
    var w := RotL1(A(x.l, k.l));
    var z := RotL1(A(m.l, k.l));
    AndX(x.l, m.l, k.l);
    RotX(A(x.l, k.l), A(m.l, k.l));
    Mid(x.r, m.r, w, z);
    XComm(v.r, z);
    XComm(X(z, v.r), z);
    XSelf(z, v.r);
    OrX(X(x.r, w), v.r, k.r);
    var n := A(v.r, N(k.r));
    Mid(x.l, m.l, O(X(x.r, w), k.r), n);
    XComm(v.l, n);
    XComm(X(n, v.l), n);
    XSelf(n, v.l);
  }

  lemma MaskFLInv(y: Half, k: Half, v: Half)
    ensures FLInv(Xor(y, v), k) == Xor(FLInv(y, k), Through(k, v))
  {
    hide X, A, N, O, RotL1;
    OrX(y.r, v.r, k.r);
    Mid(y.l, v.l, O(y.r, k.r), A(v.r, N(k.r)));
    var a := FLInv(y, k).l;
    var b := Through(k, v).l;
    AndX(a, b, k.l);
    RotX(A(a, k.l), A(b, k.l));
    Mid(y.r, v.r, RotL1(A(a, k.l)), RotL1(A(b, k.l)));
  }

  /** The two FL layers undo each other. */
  lemma FLInverse(x: Half, k: Half)
    ensures FLInv(FL(x, k), k) == x && FL(FLInv(x, k), k) == x
  {
    hide X, A, O, RotL1;
    var y := FL(x, k);
    XComm(X(x.l, O(y.r, k.r)), O(y.r, k.r));
    XComm(x.l, O(y.r, k.r));
    XSelf(O(y.r, k.r), x.l);
    XComm(x.r, RotL1(A(x.l, k.l)));
    XSelf(RotL1(A(x.l, k.l)), x.r);
    XComm(y.r, RotL1(A(x.l, k.l)));
    var z := FLInv(x, k);
    XComm(x.r, RotL1(A(z.l, k.l)));
    XComm(z.r, RotL1(A(z.l, k.l)));
    XSelf(RotL1(A(z.l, k.l)), x.r);
    XComm(x.l, O(x.r, k.r));
    XComm(z.l, O(x.r, k.r));
    XSelf(O(x.r, k.r), x.l);
  }
}
