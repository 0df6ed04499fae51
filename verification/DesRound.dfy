/** The round function of crypto/des.c is the cipher function of the standard. */
module DesRound {
  import opened WordXor
  import opened Des
  import opened DesBits
  import S = DesStandard

  /** The six bits of a table index. */
  function SixOf(v: word): S.Six {
    S.Six(v & 32 != 0, v & 16 != 0, v & 8 != 0, v & 4 != 0, v & 2 != 0, v & 1 != 0)
  }

  /** Where bit n of a subkey lies: odd boxes in the odd word, even ones in the even word. */
  function KeySpot(n: int): int {
    if n <= 6 then S.Row6(n, 1, 0, 31, 30, 29, 28)
    else if n <= 12 then S.Row6(n - 6, 29, 28, 27, 26, 25, 24)
    else if n <= 18 then S.Row6(n - 12, 25, 24, 23, 22, 21, 20)
    else if n <= 24 then S.Row6(n - 18, 21, 20, 19, 18, 17, 16)
    else if n <= 30 then S.Row6(n - 24, 17, 16, 15, 14, 13, 12)
    else if n <= 36 then S.Row6(n - 30, 13, 12, 11, 10, 9, 8)
    else if n <= 42 then S.Row6(n - 36, 9, 8, 7, 6, 5, 4)
    else S.Row6(n - 42, 5, 4, 3, 2, 1, 0)
  }

  predicate OddBox(n: int) { n <= 6 || 13 <= n <= 18 || 25 <= n <= 30 || 37 <= n <= 42 }

  function SubkeyBits(k: Subkey): S.Bits {
    n => 1 <= n <= 48 && if OddBox(n) then Rep(k.odd, KeySpot(n)) else Rep(k.even, KeySpot(n))
  }

  /** The tables hold what the S-boxes give, put through P and turned like the halves. */
  ghost predicate TablesHold(s: Tables, box: S.SBoxes) {
    forall i: int, v: word, n: int {:trigger Rep(s(i, v), Spot(n))} :: 1 <= i <= 8 && v < 64 && 1 <= n <= 32 ==>
      Rep(s(i, v), Spot(n)) == ((S.P(n) - 1) / 4 + 1 == i && box(i, SixOf(v), (S.P(n) - 1) % 4 + 1))
  }

  lemma Groups(y: word)
    ensures Byte0(A(y, 0x3f3f3f3f)) < 64 && Byte1(A(y, 0x3f3f3f3f)) < 64
    ensures Byte2(A(y, 0x3f3f3f3f)) < 64 && Byte3(A(y, 0x3f3f3f3f)) < 64
    ensures SixOf(Byte0(A(y, 0x3f3f3f3f))) == S.Six(Rep(y, 5), Rep(y, 4), Rep(y, 3), Rep(y, 2), Rep(y, 1), Rep(y, 0))
    ensures SixOf(Byte1(A(y, 0x3f3f3f3f)))
         == S.Six(Rep(y, 13), Rep(y, 12), Rep(y, 11), Rep(y, 10), Rep(y, 9), Rep(y, 8))
    ensures SixOf(Byte2(A(y, 0x3f3f3f3f)))
         == S.Six(Rep(y, 21), Rep(y, 20), Rep(y, 19), Rep(y, 18), Rep(y, 17), Rep(y, 16))
    ensures SixOf(Byte3(A(y, 0x3f3f3f3f)))
         == S.Six(Rep(y, 29), Rep(y, 28), Rep(y, 27), Rep(y, 26), Rep(y, 25), Rep(y, 24))
  {
  }

  predicate Ror4At(x: word, i: int) { Rep((x >> 4) | (x << 28), i) == Rep(x, Back(i, 28)) }

  lemma Ror4Bits(x: word)
    ensures Ror4At(x, 0) && Ror4At(x, 1) && Ror4At(x, 2) && Ror4At(x, 3) && Ror4At(x, 4) && Ror4At(x, 5)
    ensures Ror4At(x, 6) && Ror4At(x, 7) && Ror4At(x, 8) && Ror4At(x, 9) && Ror4At(x, 10) && Ror4At(x, 11)
    ensures Ror4At(x, 12) && Ror4At(x, 13) && Ror4At(x, 14) && Ror4At(x, 15) && Ror4At(x, 16) && Ror4At(x, 17)
    ensures Ror4At(x, 18) && Ror4At(x, 19) && Ror4At(x, 20) && Ror4At(x, 21) && Ror4At(x, 22) && Ror4At(x, 23)
    ensures Ror4At(x, 24) && Ror4At(x, 25) && Ror4At(x, 26) && Ror4At(x, 27) && Ror4At(x, 28) && Ror4At(x, 29)
    ensures Ror4At(x, 30) && Ror4At(x, 31)
  {
  }

  lemma Ror4Bit(x: word, i: int)
    requires 0 <= i < 32
    ensures Rep(Ror4(x), i) == Rep(x, Back(i, 28))
  {
    assert Ror4At(x, i) by {
      hide Ror4At;
      Ror4Bits(x);
      Upto31(i);
    }
    hide Rep;
  }

  /** A bit of what enters the boxes. */
  lemma InputBit(x: word, r: S.Bits, w: word, n: int, e: int, i: int)
    requires Stands(x, r) && 1 <= n <= 48 && S.E(n) == e && Spot(e) == i
    ensures Rep(X(w, x), i) == (r(S.E(n)) != Rep(w, i))
  {
    hide Rep, X;
    RepXor(w, x, i);
    assert Rep(x, Spot(e)) == r(e);
  }

  lemma Box1(x: word, r: S.Bits, k: Subkey)
    requires Stands(x, r)
    ensures Byte3(A(Ror4(X(k.odd, x)), 0x3f3f3f3f)) < 64
    ensures SixOf(Byte3(A(Ror4(X(k.odd, x)), 0x3f3f3f3f))) == S.BoxInput(r, SubkeyBits(k), 1)
  {
    hide Rep, X, A, Ror4, Byte3, Stands, SixOf;
    Groups(Ror4(X(k.odd, x)));
    InputBit(x, r, k.odd, 1, 32, 1);
    Ror4Bit(X(k.odd, x), 29);
    InputBit(x, r, k.odd, 2, 1, 0);
    Ror4Bit(X(k.odd, x), 28);
    InputBit(x, r, k.odd, 3, 2, 31);
    Ror4Bit(X(k.odd, x), 27);
    InputBit(x, r, k.odd, 4, 3, 30);
    Ror4Bit(X(k.odd, x), 26);
    InputBit(x, r, k.odd, 5, 4, 29);
    Ror4Bit(X(k.odd, x), 25);
    InputBit(x, r, k.odd, 6, 5, 28);
    Ror4Bit(X(k.odd, x), 24);
  }

  lemma Box2(x: word, r: S.Bits, k: Subkey)
    requires Stands(x, r)
    ensures Byte3(A(X(k.even, x), 0x3f3f3f3f)) < 64
    ensures SixOf(Byte3(A(X(k.even, x), 0x3f3f3f3f))) == S.BoxInput(r, SubkeyBits(k), 2)
  {
    hide Rep, X, A, Ror4, Byte3, Stands, SixOf;
    Groups(X(k.even, x));
    InputBit(x, r, k.even, 7, 4, 29);
    InputBit(x, r, k.even, 8, 5, 28);
    InputBit(x, r, k.even, 9, 6, 27);
    InputBit(x, r, k.even, 10, 7, 26);
    InputBit(x, r, k.even, 11, 8, 25);
    InputBit(x, r, k.even, 12, 9, 24);
  }

  lemma Box3(x: word, r: S.Bits, k: Subkey)
    requires Stands(x, r)
    ensures Byte2(A(Ror4(X(k.odd, x)), 0x3f3f3f3f)) < 64
    ensures SixOf(Byte2(A(Ror4(X(k.odd, x)), 0x3f3f3f3f))) == S.BoxInput(r, SubkeyBits(k), 3)
  {
    hide Rep, X, A, Ror4, Byte2, Stands, SixOf;
    Groups(Ror4(X(k.odd, x)));
    InputBit(x, r, k.odd, 13, 8, 25);
    Ror4Bit(X(k.odd, x), 21);
    InputBit(x, r, k.odd, 14, 9, 24);
    Ror4Bit(X(k.odd, x), 20);
    InputBit(x, r, k.odd, 15, 10, 23);
    Ror4Bit(X(k.odd, x), 19);
    InputBit(x, r, k.odd, 16, 11, 22);
    Ror4Bit(X(k.odd, x), 18);
    InputBit(x, r, k.odd, 17, 12, 21);
    Ror4Bit(X(k.odd, x), 17);
    InputBit(x, r, k.odd, 18, 13, 20);
    Ror4Bit(X(k.odd, x), 16);
  }

  lemma Box4(x: word, r: S.Bits, k: Subkey)
    requires Stands(x, r)
    ensures Byte2(A(X(k.even, x), 0x3f3f3f3f)) < 64
    ensures SixOf(Byte2(A(X(k.even, x), 0x3f3f3f3f))) == S.BoxInput(r, SubkeyBits(k), 4)
  {
    hide Rep, X, A, Ror4, Byte2, Stands, SixOf;
    Groups(X(k.even, x));
    InputBit(x, r, k.even, 19, 12, 21);
    InputBit(x, r, k.even, 20, 13, 20);
    InputBit(x, r, k.even, 21, 14, 19);
    InputBit(x, r, k.even, 22, 15, 18);
    InputBit(x, r, k.even, 23, 16, 17);
    InputBit(x, r, k.even, 24, 17, 16);
  }

  lemma Box5(x: word, r: S.Bits, k: Subkey)
    requires Stands(x, r)
    ensures Byte1(A(Ror4(X(k.odd, x)), 0x3f3f3f3f)) < 64
    ensures SixOf(Byte1(A(Ror4(X(k.odd, x)), 0x3f3f3f3f))) == S.BoxInput(r, SubkeyBits(k), 5)
  {
    hide Rep, X, A, Ror4, Byte1, Stands, SixOf;
    Groups(Ror4(X(k.odd, x)));
    InputBit(x, r, k.odd, 25, 16, 17);
    Ror4Bit(X(k.odd, x), 13);
    InputBit(x, r, k.odd, 26, 17, 16);
    Ror4Bit(X(k.odd, x), 12);
    InputBit(x, r, k.odd, 27, 18, 15);
    Ror4Bit(X(k.odd, x), 11);
    InputBit(x, r, k.odd, 28, 19, 14);
    Ror4Bit(X(k.odd, x), 10);
    InputBit(x, r, k.odd, 29, 20, 13);
    Ror4Bit(X(k.odd, x), 9);
    InputBit(x, r, k.odd, 30, 21, 12);
    Ror4Bit(X(k.odd, x), 8);
  }

  lemma Box6(x: word, r: S.Bits, k: Subkey)
    requires Stands(x, r)
    ensures Byte1(A(X(k.even, x), 0x3f3f3f3f)) < 64
    ensures SixOf(Byte1(A(X(k.even, x), 0x3f3f3f3f))) == S.BoxInput(r, SubkeyBits(k), 6)
  {
    hide Rep, X, A, Ror4, Byte1, Stands, SixOf;
    Groups(X(k.even, x));
    InputBit(x, r, k.even, 31, 20, 13);
    InputBit(x, r, k.even, 32, 21, 12);
    InputBit(x, r, k.even, 33, 22, 11);
    InputBit(x, r, k.even, 34, 23, 10);
    InputBit(x, r, k.even, 35, 24, 9);
    InputBit(x, r, k.even, 36, 25, 8);
  }

  lemma Box7(x: word, r: S.Bits, k: Subkey)
    requires Stands(x, r)
    ensures Byte0(A(Ror4(X(k.odd, x)), 0x3f3f3f3f)) < 64
    ensures SixOf(Byte0(A(Ror4(X(k.odd, x)), 0x3f3f3f3f))) == S.BoxInput(r, SubkeyBits(k), 7)
  {
    hide Rep, X, A, Ror4, Byte0, Stands, SixOf;
    Groups(Ror4(X(k.odd, x)));
    InputBit(x, r, k.odd, 37, 24, 9);
    Ror4Bit(X(k.odd, x), 5);
    InputBit(x, r, k.odd, 38, 25, 8);
    Ror4Bit(X(k.odd, x), 4);
    InputBit(x, r, k.odd, 39, 26, 7);
    Ror4Bit(X(k.odd, x), 3);
    InputBit(x, r, k.odd, 40, 27, 6);
    Ror4Bit(X(k.odd, x), 2);
    InputBit(x, r, k.odd, 41, 28, 5);
    Ror4Bit(X(k.odd, x), 1);
    InputBit(x, r, k.odd, 42, 29, 4);
    Ror4Bit(X(k.odd, x), 0);
  }

  lemma Box8(x: word, r: S.Bits, k: Subkey)
    requires Stands(x, r)
    ensures Byte0(A(X(k.even, x), 0x3f3f3f3f)) < 64
    ensures SixOf(Byte0(A(X(k.even, x), 0x3f3f3f3f))) == S.BoxInput(r, SubkeyBits(k), 8)
  {
    hide Rep, X, A, Ror4, Byte0, Stands, SixOf;
    Groups(X(k.even, x));
    InputBit(x, r, k.even, 43, 28, 5);
    InputBit(x, r, k.even, 44, 29, 4);
    InputBit(x, r, k.even, 45, 30, 3);
    InputBit(x, r, k.even, 46, 31, 2);
    InputBit(x, r, k.even, 47, 32, 1);
    InputBit(x, r, k.even, 48, 1, 0);
  }

  lemma FBit(s: Tables, box: S.SBoxes, x: word, r: S.Bits, k: Subkey, n: int)
    requires TablesHold(s, box) && Stands(x, r) && 1 <= n <= 32
    ensures Rep(F(s, x, k), Spot(n)) == S.F(box, r, SubkeyBits(k))(n)
  {
    hide Rep, X, A, Ror4, Byte0, Byte1, Byte2, Byte3, Stands, Spot, SixOf, SubkeyBits, S.BoxInput, S.P, TablesHold;
    Box1(x, r, k);
    Box2(x, r, k);
    Box3(x, r, k);
    Box4(x, r, k);
    Box5(x, r, k);
    Box6(x, r, k);
    Box7(x, r, k);
    Box8(x, r, k);
    var b := A(X(k.even, x), 0x3f3f3f3f);
    var a := A(Ror4(X(k.odd, x)), 0x3f3f3f3f);
    Hit(s, box, 8, Byte0(b), n);
    Hit(s, box, 6, Byte1(b), n);
    Hit(s, box, 7, Byte0(a), n);
    Hit(s, box, 5, Byte1(a), n);
    Hit(s, box, 4, Byte2(b), n);
    Hit(s, box, 2, Byte3(b), n);
    Hit(s, box, 3, Byte2(a), n);
    Hit(s, box, 1, Byte3(a), n);
    EightXor(s(8, Byte0(b)), s(6, Byte1(b)), s(7, Byte0(a)), s(5, Byte1(a)), s(4, Byte2(b)), s(2, Byte3(b)),
      s(3, Byte2(a)), s(1, Byte3(a)), Spot(n));
  }

  lemma Hit(s: Tables, box: S.SBoxes, i: int, v: word, n: int)
    requires TablesHold(s, box) && 1 <= i <= 8 && v < 64 && 1 <= n <= 32
    ensures Rep(s(i, v), Spot(n)) == ((S.P(n) - 1) / 4 + 1 == i && box(i, SixOf(v), (S.P(n) - 1) % 4 + 1))
  {
    hide Rep, Spot, S.P, SixOf;
  }

  lemma EightXor(a: word, b: word, c: word, d: word, e: word, f: word, g: word, h: word, i: int)
    ensures Rep(X(X(X(X(X(X(X(a, b), c), d), e), f), g), h), i) ==
            (((((((Rep(a, i) != Rep(b, i)) != Rep(c, i)) != Rep(d, i)) != Rep(e, i)) != Rep(f, i)) != Rep(g, i))
             != Rep(h, i))
  {
    hide Rep, X;
    RepXor(a, b, i);
    RepXor(X(a, b), c, i);
    RepXor(X(X(a, b), c), d, i);
    RepXor(X(X(X(a, b), c), d), e, i);
    RepXor(X(X(X(X(a, b), c), d), e), f, i);
    RepXor(X(X(X(X(X(a, b), c), d), e), f), g, i);
    RepXor(X(X(X(X(X(X(a, b), c), d), e), f), g), h, i);
  }

  // ---- whole blocks ----

  ghost predicate SameKey(k: Subkey, b: S.Bits) { forall n :: 1 <= n <= 48 ==> SubkeyBits(k)(n) == b(n) }

  lemma SameInput(r: S.Bits, k: Subkey, b: S.Bits, i: int)
    requires SameKey(k, b) && 1 <= i <= 8
    ensures S.BoxInput(r, SubkeyBits(k), i) == S.BoxInput(r, b, i)
  {
    hide SubkeyBits;
  }

  lemma RoundStands(s: Tables, box: S.SBoxes, k: Subkey, b: S.Bits, p: Pair, h: S.Halves)
    requires TablesHold(s, box) && SameKey(k, b) && Stands(p.l, h.l) && Stands(p.r, h.r)
    ensures Stands(Round(s, k, p).l, h.r)
    ensures Stands(Round(s, k, p).r, n => h.l(n) != S.F(box, h.r, b)(n))
  {
    hide TablesHold, SameKey, Rep, F, X, SubkeyBits, S.P, S.BoxInput, Spot;
    forall n | 1 <= n <= 32 ensures Rep(Round(s, k, p).r, Spot(n)) == (h.l(n) != S.F(box, h.r, b)(n)) {
      FBit(s, box, p.r, h.r, k, n);
      SameInput(h.r, k, b, (S.P(n) - 1) / 4 + 1);
      RepXor(p.l, F(s, p.r, k), Spot(n));
    }
  }

  lemma {:induction false} RoundsStand(s: Tables, box: S.SBoxes, ks: seq<Subkey>, bs: seq<S.Bits>, p: Pair, h: S.Halves)
    requires TablesHold(s, box) && |ks| == |bs| && Stands(p.l, h.l) && Stands(p.r, h.r)
    requires forall i :: 0 <= i < |ks| ==> SameKey(ks[i], bs[i])
    ensures Stands(Rounds(s, ks, p).l, S.Rounds(box, bs, h).l) && Stands(Rounds(s, ks, p).r, S.Rounds(box, bs, h).r)
    decreases |ks|
  {
    hide TablesHold, SameKey, Stands, Round;
    if ks != [] {
      RoundStands(s, box, ks[0], bs[0], p, h);
      RoundsStand(s, box, ks[1..], bs[1..], Round(s, ks[0], p),
        S.Halves(h.r, n => h.l(n) != S.F(box, h.r, bs[0])(n)));
      RoundLeft(s, ks[0], p);
    }
  }

  lemma RoundLeft(s: Tables, k: Subkey, p: Pair)
    ensures Round(s, k, p).l == p.r
  {
  }

  /** A block of eight bytes is a string of 64 bits. */
  ghost predicate SameBlock(p: Pair, b: S.Bits) { forall n :: 1 <= n <= 64 ==> BlockBit(p, n) == b(n) }

  /** A block put through the permutations and rounds of des.c is what the standard makes of it. */
  lemma CipherIsDes(s: Tables, box: S.SBoxes, ks: seq<Subkey>, bs: seq<S.Bits>, p: Pair, block: S.Bits)
    requires TablesHold(s, box) && |ks| == |bs| && SameBlock(p, block)
    requires forall i :: 0 <= i < |ks| ==> SameKey(ks[i], bs[i])
    ensures SameBlock(Cipher(s, ks, p), S.Des(box, bs, block))
  {
    hide TablesHold, SameKey, Rep, Initial, Final, Rounds, S.Rounds, Spot, BlockBit;
    var h := S.Halves(n => 1 <= n <= 32 && block(S.IP(n)), n => 1 <= n <= 32 && block(S.IP(n + 32)));
    var q := Initial(p);
    forall m | 1 <= m <= 32 ensures Rep(q.l, Spot(m)) == h.l(m) && Rep(q.r, Spot(m)) == h.r(m) {
      InitialIsIp(p, m);
      InitialIsIp(p, m + 32);
    }
    RoundsStand(s, box, ks, bs, q, h);
    forall n | 1 <= n <= 64 ensures BlockBit(Cipher(s, ks, p), n) == S.Des(box, bs, block)(n) {
      FinalIsFp(Flip(Rounds(s, ks, q)), n);
    }
  }
}
