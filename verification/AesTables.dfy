/** crypto/aes.c, gen_tabs: the tables of AES are built from the powers of 3 in GF(2^8). */
module AesTables {
  import opened ByteSums
  import opened AesMix
  import opened AesLayers
  import opened AesCipher

  const ONE := Byte(1)

  // ---- the powers of 3 ----

  /** x times 3^n */
  function Up(n: nat, x: Byte): Byte { if n == 0 then x else M3(Up(n - 1, x)) }

  function Pow(n: nat): Byte { Up(n, ONE) }

  lemma {:induction false} UpUp(m: nat, n: nat, x: Byte)
    ensures Up(m, Up(n, x)) == Up(m + n, x)
  {
    hide M3;
    if m > 0 {
      UpUp(m - 1, n, x);
    }
  }

  /** The step of the loop, on the bits. */
  function Triple(p: bv8): bv8 { p ^ ((p << 1) ^ (if p & 0x80 != 0 then 0x1b else 0)) }

  lemma TripleIs(p: Byte)
    ensures Byte(Triple(p.v)) == M3(p)
  {
  }

  lemma M3Injective(x: Byte, y: Byte)
    requires M3(x) == M3(y)
    ensures x == y
  {
    TripleInjective(x.v, y.v);
    TripleIs(x);
    TripleIs(y);
  }

  lemma TripleInjective(p: bv8, q: bv8)
    requires Triple(p) == Triple(q)
    ensures p == q
  {
  }

  lemma {:induction false} UpInjective(n: nat, x: Byte, y: Byte)
    requires Up(n, x) == Up(n, y)
    ensures x == y
  {
    hide M3;
    if n > 0 {
      M3Injective(Up(n - 1, x), Up(n - 1, y));
      UpInjective(n - 1, x, y);
    }
  }

  function Four(p: bv8): bv8 { Triple(Triple(Triple(Triple(p)))) }

  function Sixteen(p: bv8): bv8 { Four(Four(Four(Four(p)))) }

  lemma PowNext(n: nat)
    ensures Pow(n + 1).v == Triple(Pow(n).v)
  {
    TripleIs(Pow(n));
  }

  lemma PowFour(n: nat)
    ensures Pow(n + 4).v == Four(Pow(n).v)
  {
    hide Triple, Pow;
    PowNext(n);
    PowNext(n + 1);
    PowNext(n + 2);
    PowNext(n + 3);
  }

  lemma PowSixteen(n: nat)
    ensures Pow(n + 16).v == Sixteen(Pow(n).v)
  {
    hide Four, Pow;
    PowFour(n);
    PowFour(n + 4);
    PowFour(n + 8);
    PowFour(n + 12);
  }

  /** Every sixteenth power. */
  const MARKS: seq<bv8> :=
    [0x01, 0x5f, 0xe5, 0x53, 0x4c, 0x83, 0xb5, 0xfe, 0xfb, 0xc3, 0x9f, 0x9b, 0xfc, 0x45, 0x12, 0x39]

  lemma MarksFollow(a: nat)
    requires a < 15
    ensures Sixteen(MARKS[a]) == MARKS[a + 1]
  {
  }

  lemma {:induction false} Marked(a: nat)
    requires a < 16
    ensures Pow(16 * a).v == MARKS[a]
  {
    if a > 0 {
      hide Pow, Sixteen;
      Marked(a - 1);
      PowSixteen(16 * (a - 1));
      MarksFollow(a - 1);
    }
  }

  predicate InFour(x: bv8, l: bv8) {
    x == l || x == Triple(l) || x == Triple(Triple(l)) || x == Triple(Triple(Triple(l)))
  }

  predicate InRow(x: bv8, l: bv8) {
    InFour(x, l) || InFour(x, Four(l)) || InFour(x, Four(Four(l))) || InFour(x, Four(Four(Four(l))))
  }

  /** Every byte but zero is among the sixteen powers after a mark. */
  lemma RowsCover(x: bv8)
    requires x != 0
    ensures || InRow(x, 0x01) || InRow(x, 0x5f) || InRow(x, 0xe5) || InRow(x, 0x53)
            || InRow(x, 0x4c) || InRow(x, 0x83) || InRow(x, 0xb5) || InRow(x, 0xfe)
            || InRow(x, 0xfb) || InRow(x, 0xc3) || InRow(x, 0x9f) || InRow(x, 0x9b)
            || InRow(x, 0xfc) || InRow(x, 0x45) || InRow(x, 0x12) || InRow(x, 0x39)
  {
  }

  lemma RowOf(x: bv8) returns (a: nat)
    requires x != 0
    ensures a < 16 && InRow(x, MARKS[a])
  {
    hide InRow;
    RowsCover(x);
    a := if InRow(x, MARKS[0]) then 0
         else if InRow(x, MARKS[1]) then 1
         else if InRow(x, MARKS[2]) then 2
         else if InRow(x, MARKS[3]) then 3
         else if InRow(x, MARKS[4]) then 4
         else if InRow(x, MARKS[5]) then 5
         else if InRow(x, MARKS[6]) then 6
         else if InRow(x, MARKS[7]) then 7
         else if InRow(x, MARKS[8]) then 8
         else if InRow(x, MARKS[9]) then 9
         else if InRow(x, MARKS[10]) then 10
         else if InRow(x, MARKS[11]) then 11
         else if InRow(x, MARKS[12]) then 12
         else if InRow(x, MARKS[13]) then 13
         else if InRow(x, MARKS[14]) then 14
         else 15;
  }

  lemma InFourPow(x: Byte, n: nat) returns (i: nat)
    requires InFour(x.v, Pow(n).v)
    ensures n <= i < n + 4 && Pow(i) == x
  {
    hide Triple, Pow;
    PowNext(n);
    PowNext(n + 1);
    PowNext(n + 2);
    i := if x == Pow(n) then n else if x == Pow(n + 1) then n + 1 else if x == Pow(n + 2) then n + 2 else n + 3;
  }

  lemma InRowPow(x: Byte, n: nat) returns (i: nat)
    requires InRow(x.v, Pow(n).v)
    ensures n <= i < n + 16 && Pow(i) == x
  {
    hide Four, InFour, Pow;
    PowFour(n);
    PowFour(n + 4);
    PowFour(n + 8);
    if InFour(x.v, Pow(n).v) {
      i := InFourPow(x, n);
    } else if InFour(x.v, Pow(n + 4).v) {
      i := InFourPow(x, n + 4);
    } else if InFour(x.v, Pow(n + 8).v) {
      i := InFourPow(x, n + 8);
    } else {
      i := InFourPow(x, n + 12);
    }
  }

  /** 3 has order 255. */
  lemma FullCircle()
    ensures Pow(255) == ONE
  {
    hide Pow;
    Marked(15);
    PowFour(240);
    PowFour(244);
    PowFour(248);
    PowNext(252);
    PowNext(253);
    PowNext(254);
  }

  /** 3 generates every byte but zero. */
  lemma Generates(x: Byte) returns (i: nat)
    requires x != ZERO
    ensures i < 255 && Pow(i) == x
  {
    hide InRow, Pow;
    var a := RowOf(x.v);
    Marked(a);
    i := InRowPow(x, 16 * a);
    if i == 255 {
      FullCircle();
      Marked(0);
      i := 0;
    }
  }

  lemma PowAround(n: nat)
    ensures Pow(n + 255) == Pow(n)
  {
    FullCircle();
    UpUp(n, 255, ONE);
  }

  // ---- the product of GF(2^8) ----

  predicate Odd(a: Byte) { a.v & 1 == 1 }

  function Half(a: Byte): Byte { Byte(a.v >> 1) }

  /** The lowest n bits of a, times b, reduced by x^8 + x^4 + x^3 + x + 1. */
  function Partial(a: Byte, b: Byte, n: nat): Byte
    decreases n
  {
    if n == 0 then ZERO else Xb(if Odd(a) then b else ZERO, Partial(Half(a), M2(b), n - 1))
  }

  function Mul(a: Byte, b: Byte): Byte { Partial(a, b, 8) }

  lemma M3Linear(x: Byte, y: Byte)
    ensures M3(Xb(x, y)) == Xb(M3(x), M3(y)) && M2(M3(x)) == M3(M2(x)) && M3(ZERO) == ZERO
  {
    hide Xb, M2;
    M2Linear(x, y);
    Interchange(M2(x), M2(y), x, y);
    M2Linear(M2(x), x);
    DoubleZero();
    Zero(ZERO);
  }

  lemma DoubleZero()
    ensures M2(ZERO) == ZERO
  {
  }

  lemma {:induction false} PartialM3(a: Byte, b: Byte, n: nat)
    ensures Partial(a, M3(b), n) == M3(Partial(a, b, n))
    decreases n
  {
    hide Xb, M2, M3, Odd;
    M3Linear(if Odd(a) then b else ZERO, if n == 0 then ZERO else Partial(Half(a), M2(b), n - 1));
    M3Linear(b, ZERO);
    if n > 0 {
      PartialM3(Half(a), M2(b), n - 1);
    }
  }

  /** The bits of a byte, weighted. */
  lemma BitsAddUp(a: bv8)
    ensures ((if a & 1 == 1 then 1 else 0) ^ ((if (a >> 1) & 1 == 1 then 2 else 0)
            ^ ((if (a >> 2) & 1 == 1 then 4
              else 0) ^ ((if (a >> 3) & 1 == 1 then 8 else 0) ^ ((if (a >> 4) & 1 == 1 then 0x10 else 0)
            ^ ((if (a >> 5) & 1 == 1 then 0x20 else 0) ^ ((if (a >> 6) & 1 == 1 then 0x40 else 0)
            ^ ((if (a >> 7) & 1 == 1 then 0x80 else 0) ^ 0)))))))) == a
  {
  }

  /** The product with its eight terms written out. */
  lemma MulTerms(a: Byte, b: Byte)
    ensures var (b1, a1) := (M2(b), Half(a)); var (b2, a2) := (M2(b1), Half(a1)); var (b3, a3) := (M2(b2), Half(a2));
            var (b4, a4) := (M2(b3), Half(a3)); var (b5, a5) := (M2(b4), Half(a4)); var (b6, a6) := (M2(b5), Half(a5));
            var (b7, a7) := (M2(b6), Half(a6));
            Mul(a, b) == Xb(Term(a, b), Xb(Term(a1, b1), Xb(Term(a2, b2), Xb(Term(a3, b3), Xb(Term(a4, b4),
                         Xb(Term(a5, b5), Xb(Term(a6, b6), Xb(Term(a7, b7), ZERO))))))))
  {
    hide Xb, M2, Half, Odd;
    var (b1, a1) := (M2(b), Half(a));
    var (b2, a2) := (M2(b1), Half(a1));
    var (b3, a3) := (M2(b2), Half(a2));
    var (b4, a4) := (M2(b3), Half(a3));
    var (b5, a5) := (M2(b4), Half(a4));
    var (b6, a6) := (M2(b5), Half(a5));
    assert Partial(a6, b6, 2) == Xb(Term(a6, b6), Xb(Term(Half(a6), M2(b6)), ZERO));
    assert Partial(a4, b4, 4) == Xb(Term(a4, b4), Xb(Term(a5, b5), Partial(a6, b6, 2)));
    assert Partial(a2, b2, 6) == Xb(Term(a2, b2), Xb(Term(a3, b3), Partial(a4, b4, 4)));
  }

  function Term(a: Byte, b: Byte): Byte { if Odd(a) then b else ZERO }

  lemma MulOne(a: Byte)
    ensures Mul(a, ONE) == a
  {
    MulTerms(a, ONE);
    BitsAddUp(a.v);
    hide Mul;
  }

  lemma {:induction false} PartialZero(b: Byte, n: nat)
    ensures Partial(ZERO, b, n) == ZERO
    decreases n
  {
    hide M2;
    if n > 0 {
      PartialZero(M2(b), n - 1);
    }
  }

  predicate Bits(a: Byte, w0: bool, w1: bool, w2: bool, w3: bool) {
    && Odd(a) == w0 && Odd(Half(a)) == w1 && Odd(Half(Half(a))) == w2 && Odd(Half(Half(Half(a)))) == w3
    && Half(Half(Half(Half(a)))) == ZERO
  }

  /** The product with a small factor given by its bits. */
  lemma MulNibble(a: Byte, b: Byte, w0: bool, w1: bool, w2: bool, w3: bool)
    requires Bits(a, w0, w1, w2, w3)
    ensures Mul(a, b) == Xb(if w0 then b else ZERO, Xb(if w1 then M2(b) else ZERO,
                         Xb(if w2 then M2(M2(b)) else ZERO, if w3 then M2(M2(M2(b))) else ZERO)))
  {
    hide Xb, M2, Half, Odd;
    var (a2, b2) := (Half(Half(a)), M2(M2(b)));
    PartialZero(M2(M2(b2)), 4);
    Zero(Term(Half(a2), M2(b2)));
    assert Partial(a2, b2, 6) == Xb(Term(a2, b2), Xb(Term(Half(a2), M2(b2)), Partial(Half(Half(a2)), M2(M2(b2)), 4)));
  }

  lemma SmallBits()
    ensures Bits(Byte(2), false, true, false, false) && Bits(Byte(3), true, true, false, false)
    ensures Bits(Byte(9), true, false, false, true) && Bits(Byte(11), true, true, false, true)
    ensures Bits(Byte(13), true, false, true, true) && Bits(Byte(14), false, true, true, true)
  {
  }

  /** The products the tables need. */
  lemma MulSmall(p: Byte)
    ensures Mul(Byte(2), p) == M2(p) && Mul(Byte(3), p) == M3(p) && Mul(Byte(9), p) == M9(p)
    ensures Mul(Byte(11), p) == M11(p) && Mul(Byte(13), p) == M13(p) && Mul(Byte(14), p) == M14(p)
  {
    hide Mul, M2, Xb, Bits;
    var (p1, p2, p3) := (M2(p), M2(M2(p)), M2(M2(M2(p))));
    SmallBits();
    MulNibble(Byte(2), p, false, true, false, false);
    MulNibble(Byte(3), p, true, true, false, false);
    MulNibble(Byte(9), p, true, false, false, true);
    MulNibble(Byte(11), p, true, true, false, true);
    MulNibble(Byte(13), p, true, false, true, true);
    MulNibble(Byte(14), p, false, true, true, true);
    Zero(ZERO);
    Zero(p1);
    Zero(p3);
    Zero(Xb(p2, p3));
    Zero(Xb(p1, Xb(p2, p3)));
    Comm(p, p1);
    Comm(p, p3);
    Comm(p1, p3);
    Comm(p2, p3);
    Comm(p, Xb(p3, p1));
    Comm(p, Xb(p3, p2));
    Comm(p1, Xb(p3, p2));
  }

  lemma {:induction false} MulUp(a: Byte, n: nat, b: Byte)
    ensures Mul(a, Up(n, b)) == Up(n, Mul(a, b))
  {
    hide Partial, M3;
    if n > 0 {
      MulUp(a, n - 1, b);
      PartialM3(a, Up(n - 1, b), 8);
    }
  }

  /** Multiplying adds exponents. */
  lemma MulPow(i: nat, j: nat)
    ensures Mul(Pow(i), Pow(j)) == Pow(i + j)
  {
    hide Mul;
    MulUp(Pow(i), j, ONE);
    MulOne(Pow(i));
    UpUp(j, i, ONE);
  }

  lemma MulZero(a: Byte)
    ensures Mul(a, ZERO) == ZERO && Mul(ZERO, a) == ZERO
  {
    hide Mul, M2;
    DoubleZero();
    MulTerms(a, ZERO);
    MulTerms(ZERO, a);
  }

  lemma MulCommutes(a: Byte, b: Byte)
    ensures Mul(a, b) == Mul(b, a)
  {
    hide Mul, Pow;
    MulZero(a);
    MulZero(b);
    if a != ZERO && b != ZERO {
      var i := Generates(a);
      var j := Generates(b);
      MulPow(i, j);
      MulPow(j, i);
    }
  }

  // ---- the logarithm table ----

  /** pow_tab and log_tab as gen_tabs leaves them. */
  ghost predicate LogsOk(pow: seq<Byte>, log: map<Byte, nat>) {
    && |pow| == 256 && (forall i :: 0 <= i < 256 ==> pow[i] == Pow(i))
    && (forall x :: x != ZERO ==> x in log && log[x] < 255 && Pow(log[x]) == x)
  }

  /** The first loop of gen_tabs. */
  method PowersAndLogs() returns (pow: seq<Byte>, log: map<Byte, nat>)
    ensures LogsOk(pow, log)
  {
    hide Pow;
    var tab := new Byte[256](_ => ZERO);
    var p := ONE;
    log := map[];
    Marked(0);
    for i := 0 to 256
      invariant p == Pow(i) && forall j :: 0 <= j < i ==> tab[j] == Pow(j) && Pow(j) in log
      invariant forall x :: x in log ==> log[x] < i && Pow(log[x]) == x
    {
      tab[i] := p;
      log := log[p := i];
      PowNext(i);
      p := Byte(Triple(p.v));
    }
    log := log[ONE := 0];
    FullCircle();
    forall x | x != ZERO ensures x in log && log[x] < 255 && Pow(log[x]) == x {
      var i := Generates(x);
    }
    pow := tab[..];
  }

  /** f_mult, with the carry of the 8-bit sum added back. */
  function FMult(pow: seq<Byte>, log: map<Byte, nat>, a: Byte, b: Byte): Byte
    requires LogsOk(pow, log) && a != ZERO && b != ZERO
  {
    var aa := log[a];
    var cc := (aa + log[b]) % 256;
    pow[cc + if cc < aa then 1 else 0]
  }

  /** ff_mult */
  function FfMult(pow: seq<Byte>, log: map<Byte, nat>, a: Byte, b: Byte): Byte
    requires LogsOk(pow, log)
  {
    if a != ZERO && b != ZERO then FMult(pow, log, a, b) else ZERO
  }

  /** Adding logarithms multiplies. */
  lemma FfMultIsMul(pow: seq<Byte>, log: map<Byte, nat>, a: Byte, b: Byte)
    requires LogsOk(pow, log)
    ensures FfMult(pow, log, a, b) == Mul(a, b)
  {
    hide Mul, Pow;
    MulZero(a);
    MulZero(b);
    if a != ZERO && b != ZERO {
      var i, j := log[a], log[b];
      MulPow(i, j);
      if i + j >= 256 {
        PowAround(i + j - 255);
      }
    }
  }

  // ---- the substitution table ----

  /** The affine map of section 5.1.1 of FIPS 197 as gen_tabs folds its rotations. */
  function Affine(p: Byte): Byte {
    var q := ((p.v >> 7) | (p.v << 1)) ^ ((p.v >> 6) | (p.v << 2));
    Byte(p.v ^ (0x63 ^ q ^ ((q >> 6) | (q << 2))))
  }

  lemma AffineInjective(p: Byte, q: Byte)
    requires Affine(p) == Affine(q)
    ensures p == q
  {
  }

  /** The sum of section 5.1.1 of FIPS 197: each bit with the four above it, cyclically, and 0x63. */
  lemma AffineIsRotations(p: Byte)
    ensures var a := p.v;
            Affine(p).v == a ^ ((a << 1) | (a >> 7)) ^ ((a << 2) | (a >> 6)) ^ ((a << 3) | (a >> 5))
                           ^ ((a << 4) | (a >> 4)) ^ 0x63
  {
  }

  lemma UniqueReciprocal(x: Byte, y: Byte, z: Byte)
    requires Mul(x, y) == ONE && Mul(x, z) == ONE
    ensures y == z
  {
    hide Mul, Pow;
    MulZero(x);
    MulZero(y);
    MulZero(z);
    var i := Generates(x);
    var j := Generates(y);
    var k := Generates(z);
    MulPow(i, j);
    MulPow(i, k);
    PowSum(i, j);
    PowSum(i, k);
    UpInjective(i, y, z);
  }

  lemma PowSum(i: nat, j: nat)
    ensures Pow(i + j) == Up(i, Pow(j))
  {
    UpUp(i, j, ONE);
  }

  /** The multiplicative inverse, zero for zero. */
  ghost predicate Reciprocal(x: Byte, y: Byte) { if x == ZERO then y == ZERO else Mul(x, y) == ONE }

  ghost predicate IsSub(x: Byte, s: Byte) { exists y :: Reciprocal(x, y) && s == Affine(y) }

  lemma SubInjective(x: Byte, x': Byte, s: Byte)
    requires IsSub(x, s) && IsSub(x', s)
    ensures x == x'
  {
    hide Mul, Affine;
    var y :| Reciprocal(x, y) && s == Affine(y);
    var y' :| Reciprocal(x', y') && s == Affine(y');
    AffineInjective(y, y');
    MulZero(x);
    MulZero(x');
    if x != ZERO && x' != ZERO {
      MulCommutes(x, y);
      MulCommutes(x', y);
      UniqueReciprocal(y, x, x');
    }
  }

  // ---- the loops that fill the tables ----

  function Nth(i: nat): Byte
    requires i < 256
  {
    Byte(i as bv8)
  }

  lemma NthAll(x: Byte) returns (i: nat)
    ensures i < 256 && Nth(i) == x
  {
    i := x.v as int;
  }

  /** The substituted byte as the loop computes it. */
  lemma SubEntry(pow: seq<Byte>, log: map<Byte, nat>, x: Byte)
    requires LogsOk(pow, log)
    ensures IsSub(x, Affine(if x != ZERO then pow[255 - log[x]] else ZERO))
  {
    hide Mul, Pow, Affine;
    if x != ZERO {
      var i := log[x];
      FullCircle();
      MulPow(i, 255 - i);
      assert Reciprocal(x, pow[255 - i]);
    } else {
      assert Reciprocal(x, ZERO);
    }
  }

  /** sbx_tab and isb_tab. */
  method SubstitutionTables(pow: seq<Byte>, log: map<Byte, nat>) returns (sbx: map<Byte, Byte>, isb: map<Byte, Byte>)
    requires LogsOk(pow, log)
    ensures forall x :: x in sbx && IsSub(x, sbx[x]) && sbx[x] in isb && isb[sbx[x]] == x
  {
    hide IsSub, Affine, LogsOk, Nth;
    sbx, isb := map[], map[];
    for i := 0 to 256
      invariant forall j :: 0 <= j < i ==> Nth(j) in sbx
      invariant forall x :: x in sbx ==> IsSub(x, sbx[x]) && sbx[x] in isb && isb[sbx[x]] == x
    {
      var x := Nth(i);
      SubEntry(pow, log, x);
      LogsHave(pow, log, x);
      var p := if x != ZERO then pow[255 - log[x]] else ZERO;
      p := Affine(p);
      forall y | y in sbx && sbx[y] == p ensures y == x {
        SubInjective(x, y, p);
      }
      sbx, isb := sbx[x := p], isb[p := x];
    }
    forall x ensures x in sbx {
      var i := NthAll(x);
    }
  }

  lemma LogsHave(pow: seq<Byte>, log: map<Byte, nat>, x: Byte)
    requires LogsOk(pow, log)
    ensures |pow| == 256 && (x != ZERO ==> x in log && log[x] < 255)
  {
  }

  /** An entry of a table that starts out as zeros. */
  function Entry(m: map<Byte, Byte>, x: Byte): Byte { if x in m then m[x] else ZERO }

  function BoxOf(sbx: map<Byte, Byte>, isb: map<Byte, Byte>): Box { Box(x => Entry(sbx, x), x => Entry(isb, x)) }

  /** The entries of four tables at one index: a word and its rotations. */
  datatype Turned = Turned(t0: Col, t1: Col, t2: Col, t3: Col)

  function Turns(c: Col): Turned { Turned(c, Rol8(c), Rol8(Rol8(c)), Rol8(Rol8(Rol8(c)))) }

  /** fl_tab, ft_tab, il_tab and it_tab. */
  datatype Tabs = Tabs(fl: map<Byte, Turned>, ft: map<Byte, Turned>, il: map<Byte, Turned>, it: map<Byte, Turned>)

  ghost predicate EntryOk(b: Box, t: Tabs, x: Byte) {
    && x in t.fl && t.fl[x] == Turns(Last(b.sub(x))) && x in t.ft && t.ft[x] == Turns(Forward(b, x))
    && x in t.il && t.il[x] == Turns(Last(b.inv(x))) && x in t.it && t.it[x] == Turns(Inverse(b, x))
  }

  /** The last loop of gen_tabs. */
  method RoundTables(pow: seq<Byte>, log: map<Byte, nat>, b: Box) returns (t: Tabs)
    requires LogsOk(pow, log)
    ensures forall x :: EntryOk(b, t, x)
  {
    hide LogsOk, Nth, FfMult, M2, M3, M9, M11, M13, M14, Turns;
    t := Tabs(map[], map[], map[], map[]);
    for i := 0 to 256
      invariant forall j :: 0 <= j < i ==> EntryOk(b, t, Nth(j))
    {
      var x := Nth(i);
      var p := b.sub(x);
      var w := Col(FfMult(pow, log, Byte(2), p), p, p, FfMult(pow, log, Byte(3), p));
      Products(pow, log, p);
      t := t.(fl := t.fl[x := Turns(Last(p))], ft := t.ft[x := Turns(w)]);
      p := b.inv(x);
      w := Col(FfMult(pow, log, Byte(14), p), FfMult(pow, log, Byte(9), p), FfMult(pow, log, Byte(13), p),
               FfMult(pow, log, Byte(11), p));
      Products(pow, log, p);
      t := t.(il := t.il[x := Turns(Last(p))], it := t.it[x := Turns(w)]);
    }
    forall x ensures EntryOk(b, t, x) {
      var i := NthAll(x);
    }
  }

  lemma Products(pow: seq<Byte>, log: map<Byte, nat>, p: Byte)
    requires LogsOk(pow, log)
    ensures FfMult(pow, log, Byte(2), p) == M2(p) && FfMult(pow, log, Byte(3), p) == M3(p)
    ensures FfMult(pow, log, Byte(9), p) == M9(p) && FfMult(pow, log, Byte(11), p) == M11(p)
    ensures FfMult(pow, log, Byte(13), p) == M13(p) && FfMult(pow, log, Byte(14), p) == M14(p)
  {
    hide FfMult, Mul, LogsOk, M2, M3, M9, M11, M13, M14;
    FfMultIsMul(pow, log, Byte(2), p);
    FfMultIsMul(pow, log, Byte(3), p);
    FfMultIsMul(pow, log, Byte(9), p);
    FfMultIsMul(pow, log, Byte(11), p);
    FfMultIsMul(pow, log, Byte(13), p);
    FfMultIsMul(pow, log, Byte(14), p);
    MulSmall(p);
  }

  /** rco_tab */
  method RoundConstants() returns (rco: seq<Byte>)
    ensures |rco| == 10 && forall i :: 0 <= i < 10 ==> rco[i] == Rcon(i)
  {
    hide M2;
    rco := [];
    var p := ONE;
    for i := 0 to 10
      invariant |rco| == i && p == Rcon(i) && forall j :: 0 <= j < i ==> rco[j] == Rcon(j)
    {
      rco := rco + [p];
      DoubleIs(p);
      p := Byte((p.v << 1) ^ (if p.v & 0x80 != 0 then 0x1b else 0));
    }
  }

  lemma DoubleIs(p: Byte)
    ensures Byte((p.v << 1) ^ (if p.v & 0x80 != 0 then 0x1b else 0)) == M2(p)
  {
  }

  /** gen_tabs: the S-box is that of section 5.1.1 of FIPS 197, its inverse table undoes it, and the round
      tables hold the products the rounds look up. */
  method GenTabs() returns (b: Box, t: Tabs, rco: seq<Byte>)
    ensures BoxOk(b) && (forall x :: IsSub(x, b.sub(x))) && (forall x :: EntryOk(b, t, x))
    ensures |rco| == 10 && forall i :: 0 <= i < 10 ==> rco[i] == Rcon(i)
  {
    hide IsSub, EntryOk, LogsOk;
    var pow, log := PowersAndLogs();
    rco := RoundConstants();
    var sbx, isb := SubstitutionTables(pow, log);
    b := BoxOf(sbx, isb);
    t := RoundTables(pow, log, b);
  }
}
