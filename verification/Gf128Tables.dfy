/** The 4k and 64k table multipliers of crypto/gf128mul.c, in both bit orders. */
module Gf128Tables {
  import opened Gf2
  import opened Gf128Field
  import opened Gf128Mirror

  /** The two bit orders differ in multiplication by x and in how a byte is read as a polynomial. */
  datatype Order = Bbe | Lle

  function ByX(o: Order): nat -> nat { if o.Bbe? then X else XL }

  function Poly(o: Order, b: nat): nat { if o.Bbe? then b else Mirror(b, 8) }

  lemma OrderLinear(o: Order)
    ensures Linear(ByX(o))
  {
    hide X, XL, Linear;
    if o.Bbe? { XIsLinear(); } else { XLIsLinear(); }
  }

  /** The product of the polynomial n with g. */
  function Product(o: Order, n: nat, g: nat): nat { Times(ByX(o), n, g) }

  const POWERS: set<nat> := {1, 2, 4, 8, 16, 32, 64, 128}

  /** Adding a lower byte to a power of two is adding polynomials. */
  lemma PolySum(o: Order, j: nat, k: nat)
    requires j in POWERS && k < j
    ensures Poly(o, j + k) == Xor(Poly(o, j), Poly(o, k))
  {
    hide Xor, Mirror;
    PowerXor(j, k);
    if o.Lle? { MirrorXor(j, k, 8); }
  }

  lemma PowerXor(j: nat, k: nat)
    requires j in POWERS && k < j
    ensures Xor(j, k) == j + k
  {
    hide Xor;
    SmallPowers();
    var e := if j == 1 then 0 else if j == 2 then 1 else if j == 4 then 2 else if j == 8 then 3
             else if j == 16 then 4 else if j == 32 then 5 else if j == 64 then 6 else 7;
    hide Shl;
    XorTop(e, k);
  }

  lemma SmallPowers()
    ensures Pow2(0) == 1 && Pow2(1) == 2 && Pow2(2) == 4 && Pow2(3) == 8
    ensures Pow2(4) == 16 && Pow2(5) == 32 && Pow2(6) == 64 && Pow2(7) == 128
  {
  }

  lemma {:induction false} MirrorPow(e: nat, k: nat)
    requires e < k
    ensures Mirror(Pow2(e), k) == Pow2(k - 1 - e)
  {
    if e == 0 {
      MirrorZero(k - 1);
    } else {
      ShlZero(k - 1);
      MirrorPow(e - 1, k - 1);
    }
  }

  lemma MirrorPowers()
    ensures Mirror(1, 8) == 128 && Mirror(2, 8) == 64 && Mirror(4, 8) == 32 && Mirror(8, 8) == 16
    ensures Mirror(16, 8) == 8 && Mirror(32, 8) == 4 && Mirror(64, 8) == 2 && Mirror(128, 8) == 1
  {
    hide Mirror, Shl;
    SmallPowers();
    MirrorPow(0, 8);
    MirrorPow(1, 8);
    MirrorPow(2, 8);
    MirrorPow(3, 8);
    MirrorPow(4, 8);
    MirrorPow(5, 8);
    MirrorPow(6, 8);
    MirrorPow(7, 8);
  }

  /** The powers of two among the bytes are the powers of x, in ascending or descending order. */
  lemma PolyDouble(o: Order, j: nat)
    requires j in POWERS && j <= 64
    ensures if o.Bbe? then Poly(o, 2 * j) == 2 * Poly(o, j) else Poly(o, j) == 2 * Poly(o, 2 * j)
  {
    hide Mirror;
    MirrorPowers();
  }

  /** Entry i of a row holds the product of byte i with g. */
  ghost predicate Row(o: Order, g: nat, t: seq<nat>) {
    |t| == 256 && forall i: nat :: i < 256 ==> t[i] == Product(o, Poly(o, i), g)
  }

  ghost predicate PowersSet(o: Order, g: nat, t: seq<nat>) {
    |t| == 256 && t[0] == 0 && forall j :: j in POWERS ==> t[j] == Product(o, Poly(o, j), g)
  }

  lemma ProductZero(o: Order, g: nat)
    ensures Product(o, Poly(o, 0), g) == 0
  {
    MirrorZero(8);
  }

  lemma ProductSum(o: Order, j: nat, k: nat, g: nat)
    requires j in POWERS && k < j
    ensures Product(o, Poly(o, j + k), g) == Xor(Product(o, Poly(o, j), g), Product(o, Poly(o, k), g))
  {
    hide Xor, Poly, Times;
    PolySum(o, j, k);
    TimesXor(ByX(o), Poly(o, j), Poly(o, k), g);
  }

  /** The double loop that fills a row from its powers of two. */
  method FillRow(t: array<nat>, ghost o: Order, ghost g: nat)
    requires t.Length == 256 && PowersSet(o, g, t[..])
    modifies t
    ensures Row(o, g, t[..])
  {
    hide Product, Poly, Xor;
    ProductZero(o, g);
    var j := 2;
    while j < 256
      invariant j in POWERS || j == 256
      invariant j >= 2 && PowersSet(o, g, t[..])
      invariant forall i: nat :: i < j ==> t[i] == Product(o, Poly(o, i), g)
      decreases 256 - j
    {
      var k := 1;
      while k < j
        invariant 1 <= k <= j && PowersSet(o, g, t[..])
        invariant forall i: nat :: i < j + k ==> t[i] == Product(o, Poly(o, i), g)
      {
        ProductSum(o, j, k, g);
        NotPower(j, k);
        t[j + k] := Xor(t[j], t[k]);
        k := k + 1;
      }
      j := j + j;
    }
  }

  lemma NotPower(j: nat, k: nat)
    requires j in POWERS && 0 < k < j
    ensures j + k !in POWERS
  {
  }

  lemma ProductX(o: Order, n: nat, g: nat)
    ensures ByX(o)(Product(o, n, g)) == Product(o, 2 * n, g) == Product(o, n, ByX(o)(g))
  {
    hide Times, Linear;
    OrderLinear(o);
    TimesOp(ByX(o), n, g);
  }

  // ---- elements stay below 2^128 ----

  predicate Element(v: nat) { v < Pow2(128) }

  lemma XorElement(a: nat, b: nat)
    requires Element(a) && Element(b)
    ensures Element(Xor(a, b))
  {
    hide Shl, Xor;
    ShlZero(128);
    XorParts(128, 0, a, 0, b);
  }

  lemma XElement(v: nat)
    requires Element(v)
    ensures Element(X(v))
  {
    hide Shl, Xor, Shr, Low, TableBbe;
    MulXBbeIsX(v);
    ShlOne();
    ShrSmall(v, 1, 127);
    PowStep(127);
    TableIsClmul(Shr(v, 127));
    if Shr(v, 127) == 1 { TimesOneClmul(POLY); } else { ClmulZero(POLY); }
    Byte256();
    PowGrows(8, 128);
    XorElement(2 * Low(v, 127), TableBbe(Shr(v, 127)));
  }

  lemma PowStep(k: nat)
    ensures Pow2(k + 1) == 2 * Pow2(k)
  {
  }

  lemma {:induction false} TimesElement(n: nat, g: nat)
    requires Element(g)
    ensures Element(Times(X, n, g))
    decreases n
  {
    hide Shl, Xor, X;
    PowPositive(128);
    if n > 0 {
      XElement(g);
      TimesElement(n / 2, X(g));
      XorElement(if n % 2 == 1 then g else 0, Times(X, n / 2, X(g)));
    }
  }

  /** gf128mul_x_bbe or gf128mul_x_lle */
  function MulX(o: Order, v: nat): nat { if o.Bbe? then MulXBbe(v) else MulXLle(v) }

  /** gf128mul_x8_bbe or gf128mul_x8_lle */
  function MulX8(o: Order, v: nat): nat { if o.Bbe? then MulX8Bbe(v) else MulX8Lle(v) }

  lemma MulXIs(o: Order, v: nat)
    requires o.Bbe? ==> Element(v)
    ensures MulX(o, v) == ByX(o)(v)
  {
    hide MulXBbe, MulXLle, X, XL, Shl;
    if o.Bbe? { MulXBbeIsX(v); } else { MulXLleIsXL(v); }
  }

  lemma MulX8Is(o: Order, v: nat)
    requires o.Bbe? ==> Element(v)
    ensures MulX8(o, v) == Iter(ByX(o), 8, v)
  {
    hide MulX8Bbe, MulX8Lle, X, XL, Shl;
    if o.Bbe? { MulX8BbeIsX8(v); } else { MulX8LleIsX8(v); }
  }

  lemma ProductElement(o: Order, n: nat, g: nat)
    requires Element(g)
    ensures o.Bbe? ==> Element(Product(o, n, g))
  {
    hide Times, Shl;
    if o.Bbe? { TimesElement(n, g); }
  }

  // ---- building the tables ----

  /** The entries at the powers of two, from 1 up or from 128 down. */
  method PowersBbe(g: nat) returns (t: array<nat>)
    requires Element(g)
    ensures fresh(t) && t.Length == 256 && PowersSet(Bbe, g, t[..])
  {
    hide Product, Poly, Xor, Shl, MulX;
    t := new nat[256](i => 0);
    PolyUnit(Bbe, g);
    t[1] := g;
    var j := 1;
    while j <= 64
      invariant j in POWERS && t[0] == 0
      invariant forall p :: p in POWERS && p <= j ==> t[p] == Product(Bbe, Poly(Bbe, p), g)
      decreases 128 - j
    {
      NextPower(Bbe, j, g);
      t[j + j] := MulX(Bbe, t[j]);
      j := j + j;
    }
  }

  method PowersLle(g: nat) returns (t: array<nat>)
    requires Element(g)
    ensures fresh(t) && t.Length == 256 && PowersSet(Lle, g, t[..])
  {
    hide Product, Poly, Xor, Shl, MulX;
    t := new nat[256](i => 0);
    PolyUnit(Lle, g);
    t[128] := g;
    var j := 64;
    while j > 0
      invariant j in POWERS || j == 0
      invariant j <= 64 && t[0] == 0
      invariant forall p :: p in POWERS && p > j ==> t[p] == Product(Lle, Poly(Lle, p), g)
    {
      NextPower(Lle, j, g);
      t[j] := MulX(Lle, t[j + j]);
      j := j / 2;
    }
  }

  /** gf128mul_init_4k_bbe and gf128mul_init_4k_lle, and the first row of the 64k tables. */
  method Init4k(o: Order, g: nat) returns (t: array<nat>)
    requires Element(g)
    ensures fresh(t) && Row(o, g, t[..])
  {
    hide Product, Poly;
    if o == Bbe {
      t := PowersBbe(g);
    } else {
      t := PowersLle(g);
    }
    FillRow(t, o, g);
  }

  lemma PolyUnit(o: Order, g: nat)
    ensures Product(o, Poly(o, if o.Bbe? then 1 else 128), g) == g
  {
    hide Times, Mirror;
    MirrorPowers();
    TimesOne(ByX(o), g);
  }

  lemma NextPower(o: Order, j: nat, g: nat)
    requires j in POWERS && j <= 64 && Element(g)
    ensures if o.Bbe? then Product(o, Poly(o, 2 * j), g) == MulX(o, Product(o, Poly(o, j), g))
            else Product(o, Poly(o, j), g) == MulX(o, Product(o, Poly(o, 2 * j), g))
  {
    hide Product, Poly, MulX, Shl;
    PolyDouble(o, j);
    var i := if o.Bbe? then j else 2 * j;
    ProductX(o, Poly(o, i), g);
    ProductElement(o, Poly(o, i), g);
    MulXIs(o, Product(o, Poly(o, i), g));
  }

  /** Table i of the 64k form is the row of x^(8i) * g. */
  ghost predicate Rows(o: Order, g: nat, t: seq<seq<nat>>) {
    forall i :: 0 <= i < |t| ==> Row(o, Iter(ByX(o), 8 * i, g), t[i])
  }

  /** A row of the 64k table from the one before: x^8 times its powers of two, then the rest. */
  method NextRow(o: Order, prev: seq<nat>, ghost g: nat) returns (t: array<nat>)
    requires Row(o, g, prev) && (o.Bbe? ==> Element(g))
    ensures fresh(t) && Row(o, Iter(ByX(o), 8, g), t[..])
  {
    hide Product, Poly, Xor, Shl, MulX8, Iter, ByX;
    t := new nat[256](i => 0);
    ghost var g8 := Iter(ByX(o), 8, g);
    var j := 128;
    while j > 0
      invariant j in POWERS || j == 0
      invariant j <= 128 && t[0] == 0
      invariant forall p :: p in POWERS && p > j ==> t[p] == Product(o, Poly(o, p), g8)
    {
      RowX8(o, Poly(o, j), g);
      t[j] := MulX8(o, prev[j]);
      j := j / 2;
    }
    FillRow(t, o, g8);
  }

  lemma RowX8(o: Order, n: nat, g: nat)
    requires o.Bbe? ==> Element(g)
    ensures MulX8(o, Product(o, n, g)) == Product(o, n, Iter(ByX(o), 8, g))
  {
    hide Times, Linear, MulX8, Shl, ByX, Iter;
    OrderLinear(o);
    if o.Bbe? { ProductElement(o, n, g); }
    MulX8Is(o, Product(o, n, g));
    TimesIter(ByX(o), 8, n, g);
  }

  lemma {:induction false} IterElement(k: nat, g: nat)
    requires Element(g)
    ensures Element(Iter(X, k, g))
  {
    hide Shl, X;
    if k > 0 {
      IterElement(k - 1, g);
      XElement(Iter(X, k - 1, g));
    }
  }

  /** gf128mul_init_64k_bbe and gf128mul_init_64k_lle */
  method Init64k(o: Order, g: nat) returns (t: seq<seq<nat>>)
    requires Element(g)
    ensures |t| == 16 && Rows(o, g, t)
  {
    hide Row, Shl, ByX, Iter;
    var row := Init4k(o, g);
    t := [row[..]];
    IterStart(ByX(o), g);
    while |t| < 16
      invariant 1 <= |t| <= 16 && Rows(o, g, t)
    {
      ghost var gi := Iter(ByX(o), 8 * (|t| - 1), g);
      RowElement(o, 8 * (|t| - 1), g);
      var next := NextRow(o, t[|t| - 1], gi);
      IterIter(ByX(o), 8, 8 * (|t| - 1), g);
      t := t + [next[..]];
    }
  }

  lemma IterStart(op: nat -> nat, g: nat)
    ensures Iter(op, 0, g) == g
  {
  }

  lemma RowElement(o: Order, k: nat, g: nat)
    requires Element(g)
    ensures o.Bbe? ==> Element(Iter(ByX(o), k, g))
  {
    hide X, Shl;
    if o.Bbe? { IterElement(k, g); }
  }

  // ---- multiplying ----

  /** The polynomial of a list of bytes, lowest first. */
  function PolyOf(o: Order, s: seq<nat>): nat {
    if s == [] then 0 else Shl(PolyOf(o, s[1..]), 8) + Poly(o, s[0])
  }

  predicate Bytes(s: seq<nat>) { forall i :: 0 <= i < |s| ==> s[i] < 256 }

  lemma PolyByte(o: Order, b: nat)
    requires b < 256
    ensures Poly(o, b) < Pow2(8)
  {
    hide Mirror, Shl;
    Byte256();
    MirrorLess(b, 8);
  }

  lemma {:induction false} PolySnoc(o: Order, s: seq<nat>, b: nat)
    requires Bytes(s)
    ensures PolyOf(o, s + [b]) == Shl(Poly(o, b), 8 * |s|) + PolyOf(o, s)
    ensures PolyOf(o, s) < Pow2(8 * |s|)
  {
    hide Poly;
    if s == [] {
      ShlZero(8);
      assert ([b])[1..] == [];
    } else {
      assert (s + [b])[1..] == s[1..] + [b];
      PolySnoc(o, s[1..], b);
      ShlSum(Shl(Poly(o, b), 8 * (|s| - 1)), PolyOf(o, s[1..]), 8);
      ShlShl(Poly(o, b), 8 * (|s| - 1), 8);
      PolyByte(o, s[0]);
      ShlRoom(PolyOf(o, s[1..]), 8 * (|s| - 1), Poly(o, s[0]));
    }
  }

  lemma ShlRoom(a: nat, m: nat, b: nat)
    requires a < Pow2(m) && b < Pow2(8)
    ensures Shl(a, 8) + b < Pow2(m + 8)
  {
    hide Shl;
    ShlSum(a + 1, Pow2(m) - a - 1, 8);
    ShlSum(a, 1, 8);
    ShlShl(1, m, 8);
  }

  /** gf128mul_64k_bbe and gf128mul_64k_lle: one look-up per byte, bytes lowest first. */
  method Mul64k(o: Order, bytes: seq<nat>, t: seq<seq<nat>>, ghost g: nat) returns (r: nat)
    requires |bytes| == 16 == |t| && Bytes(bytes) && Rows(o, g, t)
    ensures r == Product(o, PolyOf(o, bytes), g)
  {
    hide Product, Poly, PolyOf, Xor, Shl, ByX, Iter;
    r := t[0][bytes[0]];
    FirstByte(o, bytes, g);
    var i := 1;
    while i < 16
      invariant 1 <= i <= 16 && r == Product(o, PolyOf(o, bytes[..i]), g)
    {
      NextByte(o, bytes, i, g);
      r := Xor(r, t[i][bytes[i]]);
      i := i + 1;
    }
    assert bytes[..16] == bytes;
  }

  lemma FirstByte(o: Order, bytes: seq<nat>, g: nat)
    requires |bytes| > 0
    ensures PolyOf(o, bytes[..1]) == Poly(o, bytes[0]) && Iter(ByX(o), 8 * 0, g) == g
  {
    hide Poly;
    assert bytes[..1][1..] == [];
    ShlZero(8);
  }

  lemma NextByte(o: Order, bytes: seq<nat>, i: nat, g: nat)
    requires i < |bytes| && Bytes(bytes)
    ensures Product(o, PolyOf(o, bytes[..i + 1]), g) ==
            Xor(Product(o, PolyOf(o, bytes[..i]), g), Product(o, Poly(o, bytes[i]), Iter(ByX(o), 8 * i, g)))
  {
    hide Times, Poly, PolyOf, Xor, Shl, ByX, Iter, Linear;
    assert bytes[..i + 1] == bytes[..i] + [bytes[i]];
    PolySnoc(o, bytes[..i], bytes[i]);
    OrderLinear(o);
    TimesSplit(ByX(o), 8 * i, Poly(o, bytes[i]), PolyOf(o, bytes[..i]), g);
  }

  /** gf128mul_4k_bbe and gf128mul_4k_lle: from the highest byte down, times x^8 in between. */
  method Mul4k(o: Order, bytes: seq<nat>, t: seq<nat>, ghost g: nat) returns (r: nat)
    requires |bytes| == 16 && Bytes(bytes) && Row(o, g, t) && Element(g)
    ensures r == Product(o, PolyOf(o, bytes), g)
  {
    hide Product, Poly, PolyOf, Xor, Shl, MulX8;
    r := t[bytes[15]];
    LastByte(o, bytes);
    var i := 15;
    while i > 0
      invariant 0 <= i <= 15 && r == Product(o, PolyOf(o, bytes[i..]), g)
    {
      i := i - 1;
      HornerStep(o, bytes, i, g);
      r := MulX8(o, r);
      r := Xor(r, t[bytes[i]]);
    }
    assert bytes[0..] == bytes;
  }

  lemma LastByte(o: Order, bytes: seq<nat>)
    requires |bytes| == 16
    ensures PolyOf(o, bytes[15..]) == Poly(o, bytes[15])
  {
    hide Poly;
    assert bytes[15..][1..] == [];
    ShlZero(8);
  }

  lemma PolyFrom(o: Order, bytes: seq<nat>, i: nat)
    requires i < |bytes|
    ensures PolyOf(o, bytes[i..]) == Shl(PolyOf(o, bytes[i + 1..]), 8) + Poly(o, bytes[i])
  {
    hide Poly, Shl;
    assert bytes[i..][1..] == bytes[i + 1..];
  }

  lemma HornerStep(o: Order, bytes: seq<nat>, i: nat, g: nat)
    requires i + 1 <= |bytes| && Bytes(bytes) && Element(g)
    ensures Product(o, PolyOf(o, bytes[i..]), g) ==
            Xor(MulX8(o, Product(o, PolyOf(o, bytes[i + 1..]), g)), Product(o, Poly(o, bytes[i]), g))
  {
    hide Times, Poly, PolyOf, Xor, Shl, ByX, Iter, Linear, MulX8;
    var h := PolyOf(o, bytes[i + 1..]);
    PolyFrom(o, bytes, i);
    PolyByte(o, bytes[i]);
    OrderLinear(o);
    TimesSplit(ByX(o), 8, h, Poly(o, bytes[i]), g);
    ProductElement(o, h, g);
    MulX8Is(o, Product(o, h, g));
  }

  // ---- what the numbers mean ----

  /** The bytes of v, lowest first. */
  function BytesOf(v: nat, n: nat): (s: seq<nat>)
    ensures |s| == n && Bytes(s)
  {
    if n == 0 then [] else [v % 256] + BytesOf(v / 256, n - 1)
  }

  /** In bbe order the polynomial of an operand is the number itself. */
  lemma {:induction false} PolyOfBytes(v: nat, n: nat)
    requires v < Pow2(8 * n)
    ensures PolyOf(Bbe, BytesOf(v, n)) == v
    decreases n
  {
    if n > 0 {
      Shl8(Pow2(8 * (n - 1)));
      ShlShl(1, 8 * (n - 1), 8);
      PolyOfBytes(v / 256, n - 1);
      Shl8(v / 256);
      assert BytesOf(v, n)[1..] == BytesOf(v / 256, n - 1);
    }
  }

  /** The bytes of v, highest first, as memory holds an operand in lle order. */
  function BytesDown(v: nat, n: nat): (s: seq<nat>)
    ensures |s| == n && Bytes(s)
  {
    if n == 0 then [] else BytesDown(v / 256, n - 1) + [v % 256]
  }

  /** In lle order the polynomial of an operand is the number in the mirror. */
  lemma {:induction false} PolyOfBytesDown(v: nat, n: nat)
    ensures PolyOf(Lle, BytesDown(v, n)) == Mirror(v, 8 * n)
  {
    if n > 0 {
      hide Mirror, Shl, PolyOf;
      PolyOfBytesDown(v / 256, n - 1);
      PolySnoc(Lle, BytesDown(v / 256, n - 1), v % 256);
      MirrorByte(v, 8 * (n - 1));
    } else {
      assert BytesDown(v, n) == [];
    }
  }

  /** The lowest byte goes to the top, mirrored. */
  lemma MirrorByte(v: nat, k: nat)
    ensures Mirror(v, k + 8) == Shl(Mirror(v % 256, 8), k) + Mirror(v / 256, k)
  {
    hide Mirror, Shl, Shr;
    MirrorSplit(v, k, 8);
    Shl8(v / 256);
    MirrorLow(v, v % 256, v / 256, 8);
    EightHalves(v);
  }

  lemma {:induction false} MirrorSplit(v: nat, k: nat, j: nat)
    ensures Mirror(v, k + j) == Shl(Mirror(v, j), k) + Mirror(Shr(v, j), k)
  {
    if j > 0 {
      MirrorSplit(v / 2, k, j - 1);
      ShrHalf(v, j);
      ShlSum(Shl(v % 2, j - 1), Mirror(v / 2, j - 1), k);
      ShlShl(v % 2, j - 1, k);
    } else {
      ShlZero(k);
    }
  }

  lemma {:induction false} ShrHalf(v: nat, j: nat)
    requires j > 0
    ensures Shr(v, j) == Shr(v / 2, j - 1)
  {
    if j > 1 {
      ShrHalf(v, j - 1);
    }
  }

  lemma {:induction false} MirrorLow(v: nat, w: nat, q: nat, j: nat)
    requires v == Shl(q, j) + w
    ensures Mirror(v, j) == Mirror(w, j)
    decreases j
  {
    if j > 0 {
      ShlOnce(q, j - 1);
      MirrorLow(v / 2, w / 2, q, j - 1);
    }
  }

  lemma EightHalves(v: nat)
    ensures Shr(v, 8) == v / 256
  {
    assert Shr(v, 1) == v / 2;
    assert Shr(v, 2) == v / 4;
    assert Shr(v, 3) == v / 8;
    assert Shr(v, 4) == v / 16;
    assert Shr(v, 5) == v / 32;
    assert Shr(v, 6) == v / 64;
    assert Shr(v, 7) == v / 128;
  }

  lemma Shl8(a: nat)
    ensures Shl(a, 8) == 256 * a
  {
    ShlOnce(a, 0);
    ShlOnce(a, 1);
    ShlOnce(a, 2);
    ShlOnce(a, 3);
    ShlOnce(a, 4);
    ShlOnce(a, 5);
    ShlOnce(a, 6);
    ShlOnce(a, 7);
  }

  lemma ShlOnce(a: nat, k: nat)
    ensures Shl(a, k + 1) == 2 * Shl(a, k) && Shl(a, 0) == a
  {
  }

  /** Both orders compute in one field: the lle product is the bbe product in the mirror. */
  lemma {:induction false} MirrorProduct(n: nat, g: nat)
    requires Element(g)
    ensures Product(Lle, n, g) == Mirror(Product(Bbe, n, Mirror(g, 128)), 128)
    decreases n
  {
    hide Xor, Shl, X, XL, Mirror;
    if n == 0 {
      MirrorZero(128);
    } else {
      var m := Mirror(g, 128);
      MirrorLess(g, 128);
      MirrorX(g);
      XElement(m);
      MirrorTwice(X(m), 128);
      MirrorLess(X(m), 128);
      MirrorProduct(n / 2, XL(g));
      var low := if n % 2 == 1 then m else 0;
      MirrorXor(low, Times(X, n / 2, X(m)), 128);
      MirrorTwice(g, 128);
      MirrorZero(128);
    }
  }
}
