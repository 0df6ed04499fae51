/** The key expansion of crypto/des.c gives the subkeys of the standard. */
module DesKeys {
  import opened WordXor
  import opened Words
  import opened Des
  import opened DesBits
  import opened DesRound
  import opened DesCipher
  import S = DesStandard

  /** The bits of a key of eight bytes. */
  function KeyBits(k: seq<word>): S.Bits
    requires |k| == 8
  {
    n => 1 <= n <= 64 && Rep(k[(n - 1) / 8], 7 - (n - 1) % 8)
  }

  // ---- what the tables hold ----

  /** Bit j of a register, 1 to 7. */
  predicate RegBit(x: int, j: int) {
    if j == 1 then x / 2 % 2 == 1
    else if j == 2 then x / 4 % 2 == 1
    else if j == 3 then x / 8 % 2 == 1
    else if j == 4 then x / 16 % 2 == 1
    else if j == 5 then x / 32 % 2 == 1
    else if j == 6 then x / 64 % 2 == 1
    else x / 128 % 2 == 1
  }

  /** pc1: seven bits of an index in their new order, an even index for one half and an odd one for the
      other. */
  function Pc1Spot(odd: bool, j: int): int {
    if odd then S.Row7(j, 4, 1, 5, 2, 6, 3, 7) else S.Row7(j, 4, 3, 7, 2, 6, 1, 5)
  }

  ghost predicate Pc1Holds(t: Boxes) {
    forall v: word, j: int {:trigger RegBit(t.pc1(v), j)} :: v < 256 && 1 <= j <= 7 ==>
      RegBit(t.pc1(v), j) == Rep(v, Pc1Spot(Rep(v, 0), j))
  }

  /** rs turns the seven bits right by one. */
  ghost predicate RsHolds(t: Boxes) {
    forall x: int, j: int {:trigger RegBit(t.rs(x), j)} :: 1 <= j <= 7 ==>
      RegBit(t.rs(x), j) == RegBit(x, if j == 7 then 1 else j + 1)
  }

  /** The register of PC2 that bit n of a subkey comes from, 1 to 28: of C for the first 24, of D for the
      others. */
  function Source(n: int): int { if n <= 24 then S.PC2(n) else S.PC2(n) - 28 }

  /** Where bit n of a subkey lies before the fixup. */
  function RawSpot(n: int): int {
    if n <= 6 then S.Row6(n, 15, 14, 13, 12, 11, 10)
    else if n <= 12 then S.Row6(n - 6, 29, 28, 27, 26, 25, 24)
    else if n <= 18 then S.Row6(n - 12, 7, 6, 5, 4, 3, 2)
    else if n <= 24 then S.Row6(n - 18, 21, 20, 19, 18, 17, 16)
    else if n <= 30 then S.Row6(n - 24, 31, 30, 29, 28, 27, 26)
    else if n <= 36 then S.Row6(n - 30, 13, 12, 11, 10, 9, 8)
    else if n <= 42 then S.Row6(n - 36, 23, 22, 21, 20, 19, 18)
    else S.Row6(n - 42, 5, 4, 3, 2, 1, 0)
  }

  /** pc2: every fourth bit of C or D is in one of four tables; each entry has the bits of its seven where
      PC2 wants them. */
  ghost predicate Pc2Holds(t: Boxes) {
    forall c: bool, m: int, x: int, n: int {:trigger Rep(t.pc2(c, m, x), RawSpot(n))} ::
      1 <= m <= 4 && 1 <= n <= 48 && c == (n <= 24) ==>
        Rep(t.pc2(c, m, x), RawSpot(n)) == ((Source(n) - 1) % 4 + 1 == m && RegBit(x, 7 - (Source(n) - 1) / 4))
  }

  ghost predicate BoxesHold(t: Boxes) { Pc1Holds(t) && RsHolds(t) && Pc2Holds(t) }

  // ---- the registers ----

  predicate QuadBit(q: Quad, p: int) {
    var m := (p - 1) % 4;
    RegBit(if m == 0 then q.a else if m == 1 then q.b else if m == 2 then q.c else q.d, 7 - (p - 1) / 4)
  }

  lemma RightBit(t: Boxes, q: Quad, p: int)
    requires RsHolds(t) && 1 <= p <= 28
    ensures QuadBit(Right(t, q), p) == QuadBit(q, if p == 1 then 28 else p - 1)
  {
    hide RegBit;
    var m := (p - 1) % 4;
    if m == 0 {
      assert RegBit(t.rs(q.d), 7 - (p - 1) / 4) == RegBit(q.d, if p == 1 then 1 else 8 - (p - 1) / 4);
    }
  }

  lemma {:induction false} TurnedBit(t: Boxes, q: Quad, k: nat, p: int)
    requires RsHolds(t) && 1 <= p <= 28 && k <= 28
    ensures QuadBit(Turned(t, q, k), p) == QuadBit(q, if p > k then p - k else p - k + 28)
  {
    hide RsHolds, QuadBit, Right;
    if k > 0 {
      RightBit(t, Turned(t, q, k - 1), p);
      TurnedBit(t, q, k - 1, if p == 1 then 28 else p - 1);
    }
  }

  predicate AllOnes(w: word) {
    && Rep(w, 0) && Rep(w, 1) && Rep(w, 2) && Rep(w, 3) && Rep(w, 4) && Rep(w, 5) && Rep(w, 6) && Rep(w, 7)
    && Rep(w, 8) && Rep(w, 9) && Rep(w, 10) && Rep(w, 11) && Rep(w, 12) && Rep(w, 13) && Rep(w, 14) && Rep(w, 15)
    && Rep(w, 16) && Rep(w, 17) && Rep(w, 18) && Rep(w, 19) && Rep(w, 20) && Rep(w, 21) && Rep(w, 22) && Rep(w, 23)
    && Rep(w, 24) && Rep(w, 25) && Rep(w, 26) && Rep(w, 27) && Rep(w, 28) && Rep(w, 29) && Rep(w, 30) && Rep(w, 31)
  }

  lemma Ones()
    ensures AllOnes(0xffffffff)
  {
  }

  lemma RepOnes(i: int)
    requires 0 <= i < 32
    ensures Rep(0xffffffff, i)
  {
    hide Rep;
    Ones();
    Upto31(i);
  }

  lemma RepNot(a: word, i: int)
    requires 0 <= i < 32
    ensures Rep(N(a), i) == !Rep(a, i)
  {
    hide Rep, N, X;
    NotX(a);
    RepOnes(i);
    RepXor(a, 0xffffffff, i);
  }

  lemma RepOr(a: word, b: word, i: int)
    ensures Rep(O(a, b), i) == (Rep(a, i) || Rep(b, i))
  {
    hide O, N, X, A;
    OrAnd(a, b);
    RepXor(A(a, N(b)), b, i);
    RepAnd(a, N(b), i);
    if 0 <= i < 32 {
      hide Rep;
      RepNot(b, i);
    }
  }

  lemma Pc2Bit(t: Boxes, q: Quad, n: int)
    requires Pc2Holds(t) && 1 <= n <= 48
    ensures Rep(Pc2Of(t, n <= 24, q), RawSpot(n)) == QuadBit(q, Source(n))
  {
    var c := n <= 24;
    hide Rep, RegBit, RawSpot, Source, O;
    var (x, y) := (t.pc2(c, 4, q.d), t.pc2(c, 3, q.c));
    RepOr(x, y, RawSpot(n));
    RepOr(O(x, y), t.pc2(c, 2, q.b), RawSpot(n));
    RepOr(O(O(x, y), t.pc2(c, 2, q.b)), t.pc2(c, 1, q.a), RawSpot(n));
  }

  // ---- the fixup ----

  predicate Rol18At(x: word, i: int) { Rep((x << 18) | (x >> 14), i) == Rep(x, Back(i, 18)) }

  lemma Rol18Bits(x: word)
    ensures Rol18At(x, 0) && Rol18At(x, 1) && Rol18At(x, 2) && Rol18At(x, 3) && Rol18At(x, 4) && Rol18At(x, 5)
    ensures Rol18At(x, 6) && Rol18At(x, 7) && Rol18At(x, 8) && Rol18At(x, 9) && Rol18At(x, 10) && Rol18At(x, 11)
    ensures Rol18At(x, 12) && Rol18At(x, 13) && Rol18At(x, 14) && Rol18At(x, 15) && Rol18At(x, 16) && Rol18At(x, 17)
    ensures Rol18At(x, 18) && Rol18At(x, 19) && Rol18At(x, 20) && Rol18At(x, 21) && Rol18At(x, 22) && Rol18At(x, 23)
    ensures Rol18At(x, 24) && Rol18At(x, 25) && Rol18At(x, 26) && Rol18At(x, 27) && Rol18At(x, 28) && Rol18At(x, 29)
    ensures Rol18At(x, 30) && Rol18At(x, 31)
  {
  }

  lemma Rol18Bit(x: word, i: int)
    requires 0 <= i < 32
    ensures Rep(Rol18(x), i) == Rep(x, Back(i, 18))
  {
    assert Rol18At(x, i) by {
      hide Rol18At;
      Rol18Bits(x);
      Upto31(i);
    }
    hide Rep;
  }

  /** Where a bit of a fixed subkey was before. */
  function FixedFrom(a: At): At {
    var i := if a.right then Back(a.i, 18) else a.i;
    At(if InRun(i, 16) then !a.right else a.right, i)
  }

  lemma FixBit(k: Subkey, a: At)
    requires 0 <= a.i < 32
    ensures Rep(if a.right then Fix(k).odd else Fix(k).even, a.i) == BitAt(Pair(k.even, k.odd), FixedFrom(a))
  {
    hide Rep, Exchange, Rol18, InRun, RunMask;
    var p := Pair(k.even, k.odd);
    RunMask16();
    if a.right {
      Rol18Bit(Exchange(p, 0xffff0000).r, a.i);
      ExchangeBit(p, 0xffff0000, 16, Back(a.i, 18));
    } else {
      ExchangeBit(p, 0xffff0000, 16, a.i);
    }
  }

  /** The fixup puts bit n of a subkey from its raw place to its place. */
  predicate Placed(n: int) {
    0 <= KeySpot(n) < 32 && FixedFrom(At(OddBox(n), KeySpot(n))) == At(n <= 24, RawSpot(n))
  }

  lemma PlacedRow0()
    ensures Placed(1) && Placed(2) && Placed(3) && Placed(4) && Placed(5) && Placed(6) && Placed(7) && Placed(8)
    ensures Placed(9) && Placed(10) && Placed(11) && Placed(12) && Placed(13) && Placed(14) && Placed(15) && Placed(16)
  {
  }

  lemma PlacedRow1()
    ensures Placed(17) && Placed(18) && Placed(19) && Placed(20) && Placed(21) && Placed(22) && Placed(23) && Placed(24)
    ensures Placed(25) && Placed(26) && Placed(27) && Placed(28) && Placed(29) && Placed(30) && Placed(31) && Placed(32)
  {
  }

  lemma PlacedRow2()
    ensures Placed(33) && Placed(34) && Placed(35) && Placed(36) && Placed(37) && Placed(38) && Placed(39) && Placed(40)
    ensures Placed(41) && Placed(42) && Placed(43) && Placed(44) && Placed(45) && Placed(46) && Placed(47) && Placed(48)
  {
  }

  lemma Upto48(n: int)
    requires 1 <= n <= 48
    ensures n == 1 || n == 2 || n == 3 || n == 4 || n == 5 || n == 6 || n == 7 || n == 8 || n == 9 || n == 10
          || n == 11 || n == 12 || n == 13 || n == 14 || n == 15 || n == 16 || n == 17 || n == 18 || n == 19 || n == 20
          || n == 21 || n == 22 || n == 23 || n == 24 || n == 25 || n == 26 || n == 27 || n == 28 || n == 29 || n == 30
          || n == 31 || n == 32 || n == 33 || n == 34 || n == 35 || n == 36 || n == 37 || n == 38 || n == 39 || n == 40
          || n == 41 || n == 42 || n == 43 || n == 44 || n == 45 || n == 46 || n == 47 || n == 48
  {
  }

  lemma PlacedAll(n: int)
    requires 1 <= n <= 48
    ensures Placed(n)
  {
    hide Placed;
    Upto48(n);
    PlacedRow0();
    PlacedRow1();
    PlacedRow2();
  }

  /** Bit n of a subkey made of two half subkeys. */
  lemma SubkeyBit(w: word, v: word, n: int)
    requires 1 <= n <= 48
    ensures SubkeyBits(Fix(Subkey(w, v)))(n) == Rep(if n <= 24 then v else w, RawSpot(n))
  {
    PlacedAll(n);
    hide Rep, Fix, KeySpot, RawSpot, FixedFrom;
    FixBit(Subkey(w, v), At(OddBox(n), KeySpot(n)));
  }

  // ---- permuted choice 1 ----

  lemma FirstIndex(x: word, y: word, v: word)
    requires v == ((y & 0x0e) << 4) | (x & 0x1e)
    ensures v < 256 && !Rep(v, 0)
    ensures Rep(v, 5) == Rep(y, 1) && Rep(v, 6) == Rep(y, 2) && Rep(v, 7) == Rep(y, 3)
    ensures Rep(v, 1) == Rep(x, 1) && Rep(v, 2) == Rep(x, 2) && Rep(v, 3) == Rep(x, 3) && Rep(v, 4) == Rep(x, 4)
  {
  }

  lemma SecondIndex(x: word, y: word, v: word)
    requires v == (((x & 0xe0) >> 4) | (y & 0xf0)) + 1
    ensures v < 256 && Rep(v, 0)
    ensures Rep(v, 1) == Rep(x, 5) && Rep(v, 2) == Rep(x, 6) && Rep(v, 3) == Rep(x, 7)
    ensures Rep(v, 4) == Rep(y, 4) && Rep(v, 5) == Rep(y, 5) && Rep(v, 6) == Rep(y, 6) && Rep(v, 7) == Rep(y, 7)
  {
  }

  /** The seven bits that the first expansion takes from two bytes of the key, from bit 7 down. */
  lemma FirstReg(t: Boxes, k: seq<word>, i: nat)
    requires Pc1Holds(t) && |k| == 8 && i < 4
    ensures var (x, y, r) := (k[i], k[i + 4], First(t, k, i));
            && RegBit(r, 7) == Rep(y, 1) && RegBit(r, 6) == Rep(x, 1) && RegBit(r, 5) == Rep(y, 2)
            && RegBit(r, 4) == Rep(x, 2) && RegBit(r, 3) == Rep(y, 3) && RegBit(r, 2) == Rep(x, 3)
            && RegBit(r, 1) == Rep(x, 4)
  {
    var v := ((k[i + 4] & 0x0e) << 4) | (k[i] & 0x1e);
    FirstIndex(k[i], k[i + 4], v);
    hide Rep, RegBit;
    assert First(t, k, i) == t.pc1(v);
    hide First;
  }

  lemma SecondReg(t: Boxes, k: seq<word>, i: nat)
    requires Pc1Holds(t) && |k| == 8 && i < 4
    ensures var (x, y, r) := (k[i], k[i + 4], Second(t, k, i));
            && RegBit(r, 7) == Rep(y, 7) && RegBit(r, 6) == Rep(x, 7) && RegBit(r, 5) == Rep(y, 6)
            && RegBit(r, 4) == Rep(x, 6) && RegBit(r, 3) == Rep(y, 5) && RegBit(r, 2) == Rep(x, 5)
            && RegBit(r, 1) == Rep(y, 4)
  {
    var v := (((k[i] & 0xe0) >> 4) | (k[i + 4] & 0xf0)) + 1;
    SecondIndex(k[i], k[i + 4], v);
    hide Rep, RegBit;
    assert Second(t, k, i) == t.pc1(v);
    hide Second;
  }


  function FirstQuad(t: Boxes, k: seq<word>): Quad
    requires |k| == 8
  {
    Quad(First(t, k, 3), First(t, k, 2), First(t, k, 1), First(t, k, 0))
  }

  function SecondQuad(t: Boxes, k: seq<word>): Quad
    requires |k| == 8
  {
    Quad(Second(t, k, 3), Second(t, k, 2), Second(t, k, 1), Second(t, k, 0))
  }

  /** Bit p of C and of D before the first shift, as the registers have it and as the standard does. */
  predicate ChoiceC(t: Boxes, k: seq<word>, p: int)
    requires |k| == 8
  {
    QuadBit(SecondQuad(t, k), p) == KeyBits(k)(S.PC1(p))
  }

  predicate ChoiceD(t: Boxes, k: seq<word>, p: int)
    requires |k| == 8
  {
    QuadBit(FirstQuad(t, k), p) == KeyBits(k)(S.PC1(p + 28))
  }

  lemma ChoiceC0(t: Boxes, k: seq<word>)
    requires Pc1Holds(t) && |k| == 8
    ensures ChoiceC(t, k, 1) && ChoiceC(t, k, 5) && ChoiceC(t, k, 9) && ChoiceC(t, k, 13)
    ensures ChoiceC(t, k, 17) && ChoiceC(t, k, 21) && ChoiceC(t, k, 25)
  {
    hide Rep, RegBit, First, Second;
    SecondReg(t, k, 3);
  }

  lemma ChoiceC1(t: Boxes, k: seq<word>)
    requires Pc1Holds(t) && |k| == 8
    ensures ChoiceC(t, k, 2) && ChoiceC(t, k, 6) && ChoiceC(t, k, 10) && ChoiceC(t, k, 14)
    ensures ChoiceC(t, k, 18) && ChoiceC(t, k, 22) && ChoiceC(t, k, 26)
  {
    hide Rep, RegBit, First, Second;
    SecondReg(t, k, 2);
  }

  lemma ChoiceC2(t: Boxes, k: seq<word>)
    requires Pc1Holds(t) && |k| == 8
    ensures ChoiceC(t, k, 3) && ChoiceC(t, k, 7) && ChoiceC(t, k, 11) && ChoiceC(t, k, 15)
    ensures ChoiceC(t, k, 19) && ChoiceC(t, k, 23) && ChoiceC(t, k, 27)
  {
    hide Rep, RegBit, First, Second;
    SecondReg(t, k, 1);
  }

  lemma ChoiceC3(t: Boxes, k: seq<word>)
    requires Pc1Holds(t) && |k| == 8
    ensures ChoiceC(t, k, 4) && ChoiceC(t, k, 8) && ChoiceC(t, k, 12) && ChoiceC(t, k, 16)
    ensures ChoiceC(t, k, 20) && ChoiceC(t, k, 24) && ChoiceC(t, k, 28)
  {
    hide Rep, RegBit, First, Second;
    SecondReg(t, k, 0);
  }

  lemma ChoiceD0(t: Boxes, k: seq<word>)
    requires Pc1Holds(t) && |k| == 8
    ensures ChoiceD(t, k, 1) && ChoiceD(t, k, 5) && ChoiceD(t, k, 9) && ChoiceD(t, k, 13)
    ensures ChoiceD(t, k, 17) && ChoiceD(t, k, 21) && ChoiceD(t, k, 25)
  {
    hide Rep, RegBit, First, Second;
    FirstReg(t, k, 3);
  }

  lemma ChoiceD1(t: Boxes, k: seq<word>)
    requires Pc1Holds(t) && |k| == 8
    ensures ChoiceD(t, k, 2) && ChoiceD(t, k, 6) && ChoiceD(t, k, 10) && ChoiceD(t, k, 14)
    ensures ChoiceD(t, k, 18) && ChoiceD(t, k, 22) && ChoiceD(t, k, 26)
  {
    hide Rep, RegBit, First, Second;
    FirstReg(t, k, 2);
  }

  lemma ChoiceD2(t: Boxes, k: seq<word>)
    requires Pc1Holds(t) && |k| == 8
    ensures ChoiceD(t, k, 3) && ChoiceD(t, k, 7) && ChoiceD(t, k, 11) && ChoiceD(t, k, 15)
    ensures ChoiceD(t, k, 19) && ChoiceD(t, k, 23) && ChoiceD(t, k, 27)
  {
    hide Rep, RegBit, First, Second;
    FirstReg(t, k, 1);
  }

  lemma ChoiceD3(t: Boxes, k: seq<word>)
    requires Pc1Holds(t) && |k| == 8
    ensures ChoiceD(t, k, 4) && ChoiceD(t, k, 8) && ChoiceD(t, k, 12) && ChoiceD(t, k, 16)
    ensures ChoiceD(t, k, 20) && ChoiceD(t, k, 24) && ChoiceD(t, k, 28)
  {
    hide Rep, RegBit, First, Second;
    FirstReg(t, k, 0);
  }

  lemma Upto28(n: int)
    requires 1 <= n <= 28
    ensures n == 1 || n == 2 || n == 3 || n == 4 || n == 5 || n == 6 || n == 7 || n == 8 || n == 9 || n == 10
          || n == 11 || n == 12 || n == 13 || n == 14 || n == 15 || n == 16 || n == 17 || n == 18 || n == 19 || n == 20
          || n == 21 || n == 22 || n == 23 || n == 24 || n == 25 || n == 26 || n == 27 || n == 28
  {
  }

  lemma ChoiceAll(t: Boxes, k: seq<word>, p: int)
    requires Pc1Holds(t) && |k| == 8 && 1 <= p <= 28
    ensures ChoiceC(t, k, p) && ChoiceD(t, k, p)
  {
    hide ChoiceC, ChoiceD;
    Upto28(p);
    ChoiceC0(t, k);
    ChoiceC1(t, k);
    ChoiceC2(t, k);
    ChoiceC3(t, k);
    ChoiceD0(t, k);
    ChoiceD1(t, k);
    ChoiceD2(t, k);
    ChoiceD3(t, k);
  }

  // ---- the subkeys ----

  /** After all sixteen shifts C and D are back, so a turn to the right undoes shifts to the left. */
  lemma ShiftsTurns(i: int)
    requires 0 <= i < 16
    ensures S.Shifts(16 - i) + TurnsAt(i) == 28 && TurnsAt(i) <= 27
  {
    assert S.Shifts(1) == 1 && S.Shifts(2) == 2 && S.Shifts(3) == 4 && S.Shifts(4) == 6 && S.Shifts(5) == 8;
    assert S.Shifts(6) == 10 && S.Shifts(7) == 12 && S.Shifts(8) == 14 && S.Shifts(9) == 15 && S.Shifts(10) == 17;
    assert S.Shifts(11) == 19 && S.Shifts(12) == 21 && S.Shifts(13) == 23 && S.Shifts(14) == 25 && S.Shifts(15) == 27;
    assert S.Shifts(16) == 28;
    hide S.Shifts;
    Upto31(i);
  }

  /** Half subkey by half subkey, bit by bit. */
  lemma ScheduleBit(t: Boxes, k: seq<word>, i: int, n: int)
    requires BoxesHold(t) && |k| == 8 && 0 <= i < 16 && 1 <= n <= 48
    ensures SubkeyBits(Schedule(t, k)[i])(n) == S.KeyBit(KeyBits(k), 16 - i)(n)
  {
    hide Rep, RegBit, First, Second, Fix, Pc1Holds, RsHolds, Pc2Holds, QuadBit, Turned, TurnsAt, RawSpot, SubkeyBits,
      S.Shifts, S.PC1, S.PC2, KeyBits;
    var q := if n <= 24 then SecondQuad(t, k) else FirstQuad(t, k);
    var w, v := FirstHalves(t, k)[i], SecondHalves(t, k)[i];
    SubkeyBit(w, v, n);
    Pc2Bit(t, Turned(t, q, TurnsAt(i)), n);
    ShiftsTurns(i);
    var p := Source(n);
    SourceIn(n);
    TurnedBit(t, q, TurnsAt(i), p);
    ChoiceAll(t, k, if p > TurnsAt(i) then p - TurnsAt(i) else p - TurnsAt(i) + 28);
    Wraps(p - 1, TurnsAt(i));
  }

  lemma SourceIn(n: int)
    requires 1 <= n <= 48
    ensures 1 <= Source(n) <= 28
  {
  }

  lemma Wraps(x: int, k: nat)
    requires 0 <= x < 28 && k <= 28
    ensures (x + 28 - k) % 28 == if x + 1 > k then x - k else x - k + 28
  {
  }

  /** The subkeys that decryption runs through are those of the standard from the last to the first, and
      reversed they are those of encryption. */
  lemma ScheduleIsStandard(t: Boxes, k: seq<word>, i: int)
    requires BoxesHold(t) && |k| == 8 && 0 <= i < 16
    ensures SameKey(Schedule(t, k)[i], S.SubkeysBack(KeyBits(k))[i])
    ensures |Reverse(Schedule(t, k))| == 16 && SameKey(Reverse(Schedule(t, k))[i], S.Subkeys(KeyBits(k))[i])
  {
    hide BoxesHold, Schedule, SubkeyBits, S.KeyBit, KeyBits;
    forall n | 1 <= n <= 48 ensures SubkeyBits(Schedule(t, k)[i])(n) == S.SubkeysBack(KeyBits(k))[i](n) {
      ScheduleBit(t, k, i, n);
    }
    ReverseAt(Schedule(t, k), i);
    forall n | 1 <= n <= 48 ensures SubkeyBits(Schedule(t, k)[15 - i])(n) == S.Subkeys(KeyBits(k))[i](n) {
      ScheduleBit(t, k, 15 - i, n);
    }
  }

  // ---- DES ----

  /** des.c is the Data Encryption Standard: what it makes of a block is, bit for bit, what FIPS 46-3
      does. */
  lemma EncryptIsStandard(t: Boxes, s: Tables, box: S.SBoxes, k: seq<word>, p: Pair, block: S.Bits)
    requires BoxesHold(t) && TablesHold(s, box) && |k| == 8 && SameBlock(p, block)
    ensures SameBlock(Cipher(s, Reverse(Schedule(t, k)), p), S.Encipher(box, KeyBits(k), block))
    ensures SameBlock(Cipher(s, Schedule(t, k), p), S.Decipher(box, KeyBits(k), block))
  {
    hide BoxesHold, TablesHold, Schedule, Cipher, S.Des, SameBlock, KeyBits, SameKey, S.KeyBit;
    forall i | 0 <= i < 16
      ensures SameKey(Schedule(t, k)[i], S.SubkeysBack(KeyBits(k))[i])
      ensures |Reverse(Schedule(t, k))| == 16 && SameKey(Reverse(Schedule(t, k))[i], S.Subkeys(KeyBits(k))[i])
    {
      ScheduleIsStandard(t, k, i);
    }
    ScheduleIsStandard(t, k, 0);
    CipherIsDes(s, box, Reverse(Schedule(t, k)), S.Subkeys(KeyBits(k)), p, block);
    CipherIsDes(s, box, Schedule(t, k), S.SubkeysBack(KeyBits(k)), p, block);
  }

  /** And three keys make the triple encryption of the standard's appendix: encrypt, decrypt, encrypt, and
      back. */
  lemma TripleIsStandard(t: Boxes, s: Tables, box: S.SBoxes, a: seq<word>, b: seq<word>, c: seq<word>, p: Pair,
                         block: S.Bits)
    requires BoxesHold(t) && TablesHold(s, box) && |a| == |b| == |c| == 8 && SameBlock(p, block)
    ensures SameBlock(Triple(s, Reverse(Schedule(t, a)), Schedule(t, b), Reverse(Schedule(t, c)), p),
              S.Encipher(box, KeyBits(c), S.Decipher(box, KeyBits(b), S.Encipher(box, KeyBits(a), block))))
    ensures SameBlock(Triple(s, Schedule(t, c), Reverse(Schedule(t, b)), Schedule(t, a), p),
              S.Decipher(box, KeyBits(a), S.Encipher(box, KeyBits(b), S.Decipher(box, KeyBits(c), block))))
  {
    hide BoxesHold, TablesHold, Schedule, Reverse, Cipher, SameBlock, KeyBits, S.Encipher, S.Decipher;
    var p1 := Cipher(s, Reverse(Schedule(t, a)), p);
    var q1 := Cipher(s, Schedule(t, c), p);
    EncryptIsStandard(t, s, box, a, p, block);
    EncryptIsStandard(t, s, box, c, p, block);
    var (b1, d1) := (S.Encipher(box, KeyBits(a), block), S.Decipher(box, KeyBits(c), block));
    EncryptIsStandard(t, s, box, b, p1, b1);
    EncryptIsStandard(t, s, box, b, q1, d1);
    EncryptIsStandard(t, s, box, c, Cipher(s, Schedule(t, b), p1), S.Decipher(box, KeyBits(b), b1));
    EncryptIsStandard(t, s, box, a, Cipher(s, Reverse(Schedule(t, b)), q1), S.Encipher(box, KeyBits(b), d1));
  }
}
