/** crypto/aes.c: a 32-bit word is a column of four bytes, least significant first; the layers of section
    5 of FIPS 197 and the equivalent inverse cipher of its section 5.3.5. */
module AesLayers {
  import opened ByteSums
  import opened AesMix

  datatype Col = Col(b0: Byte, b1: Byte, b2: Byte, b3: Byte)

  datatype State = State(c0: Col, c1: Col, c2: Col, c3: Col)

  /** The substitution table and the inverse one gen_tabs fills beside it. */
  datatype Box = Box(sub: Byte -> Byte, inv: Byte -> Byte)

  ghost predicate BoxOk(b: Box) { forall x :: b.inv(b.sub(x)) == x }

  function Add(x: Col, y: Col): Col { Col(Xb(x.b0, y.b0), Xb(x.b1, y.b1), Xb(x.b2, y.b2), Xb(x.b3, y.b3)) }

  lemma AddBack(x: Col, y: Col)
    ensures Add(Add(x, y), y) == x
  {
    hide Xb;
    Cancel(x.b0, x.b0, y.b0);
    Cancel(x.b1, x.b1, y.b1);
    Cancel(x.b2, x.b2, y.b2);
    Cancel(x.b3, x.b3, y.b3);
  }

  // ---- MixColumns on a column ----

  function Mix(c: Col): Col {
    Col(MixRow(c.b0, c.b1, c.b2, c.b3), MixRow(c.b1, c.b2, c.b3, c.b0),
        MixRow(c.b2, c.b3, c.b0, c.b1), MixRow(c.b3, c.b0, c.b1, c.b2))
  }

  function InvMix(c: Col): Col {
    Col(InvRow(c.b0, c.b1, c.b2, c.b3), InvRow(c.b1, c.b2, c.b3, c.b0),
        InvRow(c.b2, c.b3, c.b0, c.b1), InvRow(c.b3, c.b0, c.b1, c.b2))
  }

  function Sq(c: Col): Col { Col(SqRow(c.b0, c.b2), SqRow(c.b1, c.b3), SqRow(c.b2, c.b0), SqRow(c.b3, c.b1)) }

  lemma MixTwice(c: Col)
    ensures Mix(Mix(c)) == Sq(c)
  {
    hide MixRow, SqRow;
    MixMix(c.b0, c.b1, c.b2, c.b3);
    MixMix(c.b1, c.b2, c.b3, c.b0);
    MixMix(c.b2, c.b3, c.b0, c.b1);
    MixMix(c.b3, c.b0, c.b1, c.b2);
  }

  lemma InvIsMix(c: Col)
    ensures InvMix(c) == Mix(Sq(c))
  {
    hide MixRow, InvRow, SqRow;
    InvForm(c.b0, c.b1, c.b2, c.b3);
    InvForm(c.b1, c.b2, c.b3, c.b0);
    InvForm(c.b2, c.b3, c.b0, c.b1);
    InvForm(c.b3, c.b0, c.b1, c.b2);
  }

  /** InvMixColumns undoes MixColumns: mixing has order four. */
  lemma InvMixMix(c: Col)
    ensures InvMix(Mix(c)) == c
  {
    InvIsMix(Mix(c));
    MixTwice(Mix(c));
    MixTwice(c);
    MixTwice(Mix(Mix(c)));
    SqSq(c.b0, c.b2);
    SqSq(c.b1, c.b3);
    SqSq(c.b2, c.b0);
    SqSq(c.b3, c.b1);
    hide Mix, InvMix, SqRow;
  }

  lemma SumAdd(a: Byte, b: Byte, c: Byte, d: Byte, w: Byte, x: Byte, y: Byte, z: Byte)
    ensures Sum(Xb(a, w), Xb(b, x), Xb(c, y), Xb(d, z)) == Xb(Sum(a, b, c, d), Sum(w, x, y, z))
  {
    hide Xb;
    Interchange(a, w, b, x);
    Interchange(Xb(a, b), Xb(w, x), c, y);
    Interchange(Xb(Xb(a, b), c), Xb(Xb(w, x), y), d, z);
  }

  lemma TimesLinear(a: Byte, b: Byte)
    ensures M9(Xb(a, b)) == Xb(M9(a), M9(b)) && M11(Xb(a, b)) == Xb(M11(a), M11(b))
    ensures M13(Xb(a, b)) == Xb(M13(a), M13(b)) && M14(Xb(a, b)) == Xb(M14(a), M14(b))
  {
    hide Xb, M2;
    M2Linear(a, b);
    M2Linear(M2(a), M2(b));
    M2Linear(M2(M2(a)), M2(M2(b)));
    var (a1, a2, a3, b1, b2, b3) := (M2(a), M2(M2(a)), M2(M2(M2(a))), M2(b), M2(M2(b)), M2(M2(M2(b))));
    Interchange(a3, b3, a, b);
    Interchange(a3, b3, a1, b1);
    Interchange(Xb(a3, a1), Xb(b3, b1), a, b);
    Interchange(a3, b3, a2, b2);
    Interchange(Xb(a3, a2), Xb(b3, b2), a, b);
    Interchange(Xb(a3, a2), Xb(b3, b2), a1, b1);
  }

  lemma InvRowLinear(a: Byte, b: Byte, c: Byte, d: Byte, w: Byte, x: Byte, y: Byte, z: Byte)
    ensures InvRow(Xb(a, w), Xb(b, x), Xb(c, y), Xb(d, z)) == Xb(InvRow(a, b, c, d), InvRow(w, x, y, z))
  {
    hide Xb, M9, M11, M13, M14, Sum;
    TimesLinear(a, w);
    TimesLinear(b, x);
    TimesLinear(c, y);
    TimesLinear(d, z);
    SumAdd(M14(a), M11(b), M13(c), M9(d), M14(w), M11(x), M13(y), M9(z));
  }

  lemma InvMixLinear(x: Col, y: Col)
    ensures InvMix(Add(x, y)) == Add(InvMix(x), InvMix(y))
  {
    hide Xb, InvRow;
    InvRowLinear(x.b0, x.b1, x.b2, x.b3, y.b0, y.b1, y.b2, y.b3);
    InvRowLinear(x.b1, x.b2, x.b3, x.b0, y.b1, y.b2, y.b3, y.b0);
    InvRowLinear(x.b2, x.b3, x.b0, x.b1, y.b2, y.b3, y.b0, y.b1);
    InvRowLinear(x.b3, x.b0, x.b1, x.b2, y.b3, y.b0, y.b1, y.b2);
  }

  // ---- the lookup tables ----

  /** Rotation of a word by a byte, up and down. */
  function Rol8(c: Col): Col { Col(c.b3, c.b0, c.b1, c.b2) }

  function Ror8(c: Col): Col { Col(c.b1, c.b2, c.b3, c.b0) }

  /** ft_tab[0], it_tab[0] and fl_tab[0]; the other three of each are rotations. */
  function Forward(b: Box, x: Byte): Col { Col(M2(b.sub(x)), b.sub(x), b.sub(x), M3(b.sub(x))) }

  function Inverse(b: Box, x: Byte): Col { Col(M14(b.inv(x)), M9(b.inv(x)), M13(b.inv(x)), M11(b.inv(x))) }

  function Last(y: Byte): Col { Col(y, ZERO, ZERO, ZERO) }

  /** Four lookups, one per byte, added up. */
  function Lookup(t0: Col, t1: Col, t2: Col, t3: Col): Col {
    Add(Add(Add(t0, Rol8(t1)), Rol8(Rol8(t2))), Rol8(Rol8(Rol8(t3))))
  }

  lemma SumTurns(a: Byte, b: Byte, c: Byte, d: Byte)
    ensures Sum(a, b, c, d) == Sum(b, c, d, a) == Sum(c, d, a, b) == Sum(d, a, b, c)
  {
    hide Xb, Sum, T;
    SumIsT(a, b, c, d);
    SumIsT(b, c, d, a);
    SumIsT(c, d, a, b);
    SumIsT(d, a, b, c);
  }

  /** The forward tables do MixColumns of the substituted bytes. */
  lemma ForwardIsMix(b: Box, x0: Byte, x1: Byte, x2: Byte, x3: Byte)
    ensures Lookup(Forward(b, x0), Forward(b, x1), Forward(b, x2), Forward(b, x3))
         == Mix(Col(b.sub(x0), b.sub(x1), b.sub(x2), b.sub(x3)))
  {
    hide Xb, M2, M3;
    var (p, q, r, s) := (b.sub(x0), b.sub(x1), b.sub(x2), b.sub(x3));
    SumTurns(p, M2(q), M3(r), s);
    SumTurns(p, q, M2(r), M3(s));
    SumTurns(M3(p), q, r, M2(s));
  }

  /** The inverse tables do InvMixColumns. */
  lemma InverseIsInvMix(b: Box, x0: Byte, x1: Byte, x2: Byte, x3: Byte)
    ensures Lookup(Inverse(b, x0), Inverse(b, x1), Inverse(b, x2), Inverse(b, x3))
         == InvMix(Col(b.inv(x0), b.inv(x1), b.inv(x2), b.inv(x3)))
  {
    hide Xb, M9, M11, M13, M14;
    var (p, q, r, s) := (b.inv(x0), b.inv(x1), b.inv(x2), b.inv(x3));
    SumTurns(M9(p), M14(q), M11(r), M13(s));
    SumTurns(M13(p), M9(q), M14(r), M11(s));
    SumTurns(M11(p), M13(q), M9(r), M14(s));
  }

  /** The last-round tables only put each byte in its place. */
  lemma LastIsPlain(p: Byte, q: Byte, r: Byte, s: Byte)
    ensures Lookup(Last(p), Last(q), Last(r), Last(s)) == Col(p, q, r, s)
  {
    hide Xb;
    Zero(p);
    Zero(q);
    Zero(r);
    Zero(s);
    Zero(ZERO);
  }

  // ---- imix_col ----

  function Star(c: Col): Col { Col(M2(c.b0), M2(c.b1), M2(c.b2), M2(c.b3)) }

  /** imix_col */
  function Imix(x: Col): Col {
    var u := Star(x);
    var v := Star(u);
    var w := Star(v);
    var t := Add(w, x);
    Add(Add(Add(u, v), w),
        Add(Add(Ror8(Add(u, t)), Ror8(Ror8(Add(v, t)))), Ror8(Ror8(Ror8(t)))))
  }

  lemma ImixByte(a: Byte, b: Byte, c: Byte, d: Byte)
    ensures Xb(Xb(Xb(M2(a), M2(M2(a))), M2(M2(M2(a)))),
               Xb(Xb(Xb(M2(b), Xb(M2(M2(M2(b))), b)), Xb(M2(M2(c)), Xb(M2(M2(M2(c))), c))), Xb(M2(M2(M2(d))), d)))
         == InvRow(a, b, c, d)
  {
    hide Xb, M2;
    var (a1, a2, a3) := (M2(a), M2(M2(a)), M2(M2(M2(a))));
    // 14 a
    Comm(Xb(a1, a2), a3);
    Comm(a1, a2);
    Assoc(a3, a2, a1);
    // 11 b and 13 c
    Assoc(M2(b), M2(M2(M2(b))), b);
    Comm(M2(b), M2(M2(M2(b))));
    Assoc(M2(M2(c)), M2(M2(M2(c))), c);
    Comm(M2(M2(c)), M2(M2(M2(c))));
    Assoc(M14(a), Xb(M11(b), M13(c)), M9(d));
    Assoc(M14(a), M11(b), M13(c));
  }

  /** imix_col is InvMixColumns of a word. */
  lemma ImixIsInvMix(x: Col)
    ensures Imix(x) == InvMix(x)
  {
    hide Xb, M2, InvRow;
    ImixByte(x.b0, x.b1, x.b2, x.b3);
    ImixByte(x.b1, x.b2, x.b3, x.b0);
    ImixByte(x.b2, x.b3, x.b0, x.b1);
    ImixByte(x.b3, x.b0, x.b1, x.b2);
  }

  /** The column that a 32-bit word holds, least significant byte first. */
  function Unpack(x: bv32): Col {
    Col(Byte((x & 0xff) as bv8), Byte(((x >> 8) & 0xff) as bv8), Byte(((x >> 16) & 0xff) as bv8),
        Byte(((x >> 24) & 0xff) as bv8))
  }

  /** star_x */
  function StarX(x: bv32): bv32 { ((x & 0x7f7f7f7f) << 1) ^ (((x & 0x80808080) >> 7) * 0x1b) }

  lemma StarByte0(x: bv32)
    ensures Byte((StarX(x) & 0xff) as bv8) == M2(Byte((x & 0xff) as bv8))
  {
  }

  lemma StarByte1(x: bv32)
    ensures Byte(((StarX(x) >> 8) & 0xff) as bv8) == M2(Byte(((x >> 8) & 0xff) as bv8))
  {
  }

  lemma StarByte2(x: bv32)
    ensures Byte(((StarX(x) >> 16) & 0xff) as bv8) == M2(Byte(((x >> 16) & 0xff) as bv8))
  {
  }

  lemma StarByte3(x: bv32)
    ensures Byte(((StarX(x) >> 24) & 0xff) as bv8) == M2(Byte(((x >> 24) & 0xff) as bv8))
  {
  }

  /** star_x on a packed word doubles its four bytes, none of them disturbing another. */
  lemma StarBytes(x: bv32)
    ensures Unpack(StarX(x)) == Star(Unpack(x))
  {
    hide M2, StarX;
    StarByte0(x);
    StarByte1(x);
    StarByte2(x);
    StarByte3(x);
  }
}
