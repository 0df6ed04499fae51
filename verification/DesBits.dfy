/** What the words of crypto/des.c stand for, bit by bit. */
module DesBits {
  import opened WordXor
  import opened Des
  import S = DesStandard

  /** Bit i of a word, 0 being the least significant. */
  predicate Rep(w: word, i: int) {
    if i < 0 || i >= 32 then false
    else
      if i < 16 then
        if i < 8 then
          if i < 4 then
            if i < 2 then (if i == 0 then w & 0x1 != 0 else w & 0x2 != 0)
            else (if i == 2 then w & 0x4 != 0 else w & 0x8 != 0)
          else
            if i < 6 then (if i == 4 then w & 0x10 != 0 else w & 0x20 != 0)
            else (if i == 6 then w & 0x40 != 0 else w & 0x80 != 0)
        else
          if i < 12 then
            if i < 10 then (if i == 8 then w & 0x100 != 0 else w & 0x200 != 0)
            else (if i == 10 then w & 0x400 != 0 else w & 0x800 != 0)
          else
            if i < 14 then (if i == 12 then w & 0x1000 != 0 else w & 0x2000 != 0)
            else (if i == 14 then w & 0x4000 != 0 else w & 0x8000 != 0)
      else
        if i < 24 then
          if i < 20 then
            if i < 18 then (if i == 16 then w & 0x10000 != 0 else w & 0x20000 != 0)
            else (if i == 18 then w & 0x40000 != 0 else w & 0x80000 != 0)
          else
            if i < 22 then (if i == 20 then w & 0x100000 != 0 else w & 0x200000 != 0)
            else (if i == 22 then w & 0x400000 != 0 else w & 0x800000 != 0)
        else
          if i < 28 then
            if i < 26 then (if i == 24 then w & 0x1000000 != 0 else w & 0x2000000 != 0)
            else (if i == 26 then w & 0x4000000 != 0 else w & 0x8000000 != 0)
          else
            if i < 30 then (if i == 28 then w & 0x10000000 != 0 else w & 0x20000000 != 0)
            else (if i == 30 then w & 0x40000000 != 0 else w & 0x80000000 != 0)
  }

  /** The halves are kept turned left by one: where bit n of the standard lies. */
  function Spot(n: int): int { if n == 1 then 0 else 33 - n }

  /** A word stands for a half. */
  ghost predicate Stands(w: word, b: S.Bits) { forall n :: 1 <= n <= 32 ==> Rep(w, Spot(n)) == b(n) }

  /** Bit n of two words that stand for two halves, bits 1 to 32 and 33 to 64. */
  predicate HalfBit(p: Pair, n: int) { if n <= 32 then Rep(p.l, Spot(n)) else Rep(p.r, Spot(n - 32)) }

  /** Where bit n of four bytes lies in the little-endian word they make. */
  function LeSpot(n: int): int { (n - 1) / 8 * 8 + 7 - (n - 1) % 8 }

  /** Bit n of a block, its eight bytes read as two little-endian words. */
  predicate BlockBit(p: Pair, n: int) { if n <= 32 then Rep(p.l, LeSpot(n)) else Rep(p.r, LeSpot(n - 32)) }

  // ---- single steps ----

  lemma Upto31(n: int)
    requires 0 <= n <= 31
    ensures n == 0 || n == 1 || n == 2 || n == 3 || n == 4 || n == 5 || n == 6 || n == 7 || n == 8 || n == 9
          || n == 10 || n == 11 || n == 12 || n == 13 || n == 14 || n == 15 || n == 16 || n == 17 || n == 18 || n == 19
          || n == 20 || n == 21 || n == 22 || n == 23 || n == 24 || n == 25 || n == 26 || n == 27 || n == 28 || n == 29
          || n == 30 || n == 31
  {
  }

  lemma RepXor(a: word, b: word, i: int)
    ensures Rep(X(a, b), i) == (Rep(a, i) != Rep(b, i))
  {
    if 0 <= i < 32 {
      if i < 16 {
        if i < 8 {
          if i < 4 {
            if i < 2 { if i < 1 {} else {} } else { if i < 3 {} else {} }
          } else {
            if i < 6 { if i < 5 {} else {} } else { if i < 7 {} else {} }
          }
        } else {
          if i < 12 {
            if i < 10 { if i < 9 {} else {} } else { if i < 11 {} else {} }
          } else {
            if i < 14 { if i < 13 {} else {} } else { if i < 15 {} else {} }
          }
        }
      } else {
        if i < 24 {
          if i < 20 {
            if i < 18 { if i < 17 {} else {} } else { if i < 19 {} else {} }
          } else {
            if i < 22 { if i < 21 {} else {} } else { if i < 23 {} else {} }
          }
        } else {
          if i < 28 {
            if i < 26 { if i < 25 {} else {} } else { if i < 27 {} else {} }
          } else {
            if i < 30 { if i < 29 {} else {} } else { if i < 31 {} else {} }
          }
        }
      }
    }
  }

  lemma RepAnd(a: word, b: word, i: int)
    ensures Rep(A(a, b), i) == (Rep(a, i) && Rep(b, i))
  {
    if 0 <= i < 32 {
      if i < 16 {
        if i < 8 {
          if i < 4 {
            if i < 2 { if i < 1 {} else {} } else { if i < 3 {} else {} }
          } else {
            if i < 6 { if i < 5 {} else {} } else { if i < 7 {} else {} }
          }
        } else {
          if i < 12 {
            if i < 10 { if i < 9 {} else {} } else { if i < 11 {} else {} }
          } else {
            if i < 14 { if i < 13 {} else {} } else { if i < 15 {} else {} }
          }
        }
      } else {
        if i < 24 {
          if i < 20 {
            if i < 18 { if i < 17 {} else {} } else { if i < 19 {} else {} }
          } else {
            if i < 22 { if i < 21 {} else {} } else { if i < 23 {} else {} }
          }
        } else {
          if i < 28 {
            if i < 26 { if i < 25 {} else {} } else { if i < 27 {} else {} }
          } else {
            if i < 30 { if i < 29 {} else {} } else { if i < 31 {} else {} }
          }
        }
      }
    }
  }

  function Rest(i: int, k: int): int { if i >= k then i - k else i }

  /** Bit i lies in an odd run of bits, the runs being 16, 8, 4, 2 or 1 bits long. */
  predicate InRun(i: int, run: int) {
    if run == 16 then i >= 16
    else if run == 8 then Rest(i, 16) >= 8
    else if run == 4 then Rest(Rest(i, 16), 8) >= 4
    else if run == 2 then Rest(Rest(Rest(i, 16), 8), 4) >= 2
    else Rest(Rest(Rest(Rest(i, 16), 8), 4), 2) >= 1
  }

  /** Where bit i was before a turn to the left by k. */
  function Back(i: int, k: int): int { if i < k then i + 32 - k else i - k }

  // Facts about every bit are proved for each position in turn, and only then used for any position.

  predicate Rol1At(x: word, i: int) { Rep((x << 1) | (x >> 31), i) == Rep(x, Back(i, 1)) }

  lemma Rol1Bits(x: word)
    ensures Rol1At(x, 0) && Rol1At(x, 1) && Rol1At(x, 2) && Rol1At(x, 3) && Rol1At(x, 4) && Rol1At(x, 5)
    ensures Rol1At(x, 6) && Rol1At(x, 7) && Rol1At(x, 8) && Rol1At(x, 9) && Rol1At(x, 10) && Rol1At(x, 11)
    ensures Rol1At(x, 12) && Rol1At(x, 13) && Rol1At(x, 14) && Rol1At(x, 15) && Rol1At(x, 16) && Rol1At(x, 17)
    ensures Rol1At(x, 18) && Rol1At(x, 19) && Rol1At(x, 20) && Rol1At(x, 21) && Rol1At(x, 22) && Rol1At(x, 23)
    ensures Rol1At(x, 24) && Rol1At(x, 25) && Rol1At(x, 26) && Rol1At(x, 27) && Rol1At(x, 28) && Rol1At(x, 29)
    ensures Rol1At(x, 30) && Rol1At(x, 31)
  {
  }

  lemma Rol1Bit(x: word, i: int)
    requires 0 <= i < 32
    ensures Rep(Rol1(x), i) == Rep(x, Back(i, 1))
  {
    assert Rol1At(x, i) by {
      hide Rol1At;
      Rol1Bits(x);
      Upto31(i);
    }
    hide Rep;
  }

  predicate Rol4At(x: word, i: int) { Rep((x << 4) | (x >> 28), i) == Rep(x, Back(i, 4)) }

  lemma Rol4Bits(x: word)
    ensures Rol4At(x, 0) && Rol4At(x, 1) && Rol4At(x, 2) && Rol4At(x, 3) && Rol4At(x, 4) && Rol4At(x, 5)
    ensures Rol4At(x, 6) && Rol4At(x, 7) && Rol4At(x, 8) && Rol4At(x, 9) && Rol4At(x, 10) && Rol4At(x, 11)
    ensures Rol4At(x, 12) && Rol4At(x, 13) && Rol4At(x, 14) && Rol4At(x, 15) && Rol4At(x, 16) && Rol4At(x, 17)
    ensures Rol4At(x, 18) && Rol4At(x, 19) && Rol4At(x, 20) && Rol4At(x, 21) && Rol4At(x, 22) && Rol4At(x, 23)
    ensures Rol4At(x, 24) && Rol4At(x, 25) && Rol4At(x, 26) && Rol4At(x, 27) && Rol4At(x, 28) && Rol4At(x, 29)
    ensures Rol4At(x, 30) && Rol4At(x, 31)
  {
  }

  lemma Rol4Bit(x: word, i: int)
    requires 0 <= i < 32
    ensures Rep(Rol4(x), i) == Rep(x, Back(i, 4))
  {
    assert Rol4At(x, i) by {
      hide Rol4At;
      Rol4Bits(x);
      Upto31(i);
    }
    hide Rep;
  }

  predicate Rol12At(x: word, i: int) { Rep((x << 12) | (x >> 20), i) == Rep(x, Back(i, 12)) }

  lemma Rol12Bits(x: word)
    ensures Rol12At(x, 0) && Rol12At(x, 1) && Rol12At(x, 2) && Rol12At(x, 3) && Rol12At(x, 4) && Rol12At(x, 5)
    ensures Rol12At(x, 6) && Rol12At(x, 7) && Rol12At(x, 8) && Rol12At(x, 9) && Rol12At(x, 10) && Rol12At(x, 11)
    ensures Rol12At(x, 12) && Rol12At(x, 13) && Rol12At(x, 14) && Rol12At(x, 15) && Rol12At(x, 16) && Rol12At(x, 17)
    ensures Rol12At(x, 18) && Rol12At(x, 19) && Rol12At(x, 20) && Rol12At(x, 21) && Rol12At(x, 22) && Rol12At(x, 23)
    ensures Rol12At(x, 24) && Rol12At(x, 25) && Rol12At(x, 26) && Rol12At(x, 27) && Rol12At(x, 28) && Rol12At(x, 29)
    ensures Rol12At(x, 30) && Rol12At(x, 31)
  {
  }

  lemma Rol12Bit(x: word, i: int)
    requires 0 <= i < 32
    ensures Rep(Rol12(x), i) == Rep(x, Back(i, 12))
  {
    assert Rol12At(x, i) by {
      hide Rol12At;
      Rol12Bits(x);
      Upto31(i);
    }
    hide Rep;
  }

  predicate Rol6At(x: word, i: int) { Rep((x << 6) | (x >> 26), i) == Rep(x, Back(i, 6)) }

  lemma Rol6Bits(x: word)
    ensures Rol6At(x, 0) && Rol6At(x, 1) && Rol6At(x, 2) && Rol6At(x, 3) && Rol6At(x, 4) && Rol6At(x, 5)
    ensures Rol6At(x, 6) && Rol6At(x, 7) && Rol6At(x, 8) && Rol6At(x, 9) && Rol6At(x, 10) && Rol6At(x, 11)
    ensures Rol6At(x, 12) && Rol6At(x, 13) && Rol6At(x, 14) && Rol6At(x, 15) && Rol6At(x, 16) && Rol6At(x, 17)
    ensures Rol6At(x, 18) && Rol6At(x, 19) && Rol6At(x, 20) && Rol6At(x, 21) && Rol6At(x, 22) && Rol6At(x, 23)
    ensures Rol6At(x, 24) && Rol6At(x, 25) && Rol6At(x, 26) && Rol6At(x, 27) && Rol6At(x, 28) && Rol6At(x, 29)
    ensures Rol6At(x, 30) && Rol6At(x, 31)
  {
  }

  lemma Rol6Bit(x: word, i: int)
    requires 0 <= i < 32
    ensures Rep(Rol6(x), i) == Rep(x, Back(i, 6))
  {
    assert Rol6At(x, i) by {
      hide Rol6At;
      Rol6Bits(x);
      Upto31(i);
    }
    hide Rep;
  }

  predicate Ror14At(x: word, i: int) { Rep((x >> 14) | (x << 18), i) == Rep(x, Back(i, 18)) }

  lemma Ror14Bits(x: word)
    ensures Ror14At(x, 0) && Ror14At(x, 1) && Ror14At(x, 2) && Ror14At(x, 3) && Ror14At(x, 4) && Ror14At(x, 5)
    ensures Ror14At(x, 6) && Ror14At(x, 7) && Ror14At(x, 8) && Ror14At(x, 9) && Ror14At(x, 10) && Ror14At(x, 11)
    ensures Ror14At(x, 12) && Ror14At(x, 13) && Ror14At(x, 14) && Ror14At(x, 15) && Ror14At(x, 16) && Ror14At(x, 17)
    ensures Ror14At(x, 18) && Ror14At(x, 19) && Ror14At(x, 20) && Ror14At(x, 21) && Ror14At(x, 22) && Ror14At(x, 23)
    ensures Ror14At(x, 24) && Ror14At(x, 25) && Ror14At(x, 26) && Ror14At(x, 27) && Ror14At(x, 28) && Ror14At(x, 29)
    ensures Ror14At(x, 30) && Ror14At(x, 31)
  {
  }

  lemma Ror14Bit(x: word, i: int)
    requires 0 <= i < 32
    ensures Rep(Ror14(x), i) == Rep(x, Back(i, 18))
  {
    assert Ror14At(x, i) by {
      hide Ror14At;
      Ror14Bits(x);
      Upto31(i);
    }
    hide Rep;
  }

  predicate Ror7At(x: word, i: int) { Rep((x >> 7) | (x << 25), i) == Rep(x, Back(i, 25)) }

  lemma Ror7Bits(x: word)
    ensures Ror7At(x, 0) && Ror7At(x, 1) && Ror7At(x, 2) && Ror7At(x, 3) && Ror7At(x, 4) && Ror7At(x, 5)
    ensures Ror7At(x, 6) && Ror7At(x, 7) && Ror7At(x, 8) && Ror7At(x, 9) && Ror7At(x, 10) && Ror7At(x, 11)
    ensures Ror7At(x, 12) && Ror7At(x, 13) && Ror7At(x, 14) && Ror7At(x, 15) && Ror7At(x, 16) && Ror7At(x, 17)
    ensures Ror7At(x, 18) && Ror7At(x, 19) && Ror7At(x, 20) && Ror7At(x, 21) && Ror7At(x, 22) && Ror7At(x, 23)
    ensures Ror7At(x, 24) && Ror7At(x, 25) && Ror7At(x, 26) && Ror7At(x, 27) && Ror7At(x, 28) && Ror7At(x, 29)
    ensures Ror7At(x, 30) && Ror7At(x, 31)
  {
  }

  lemma Ror7Bit(x: word, i: int)
    requires 0 <= i < 32
    ensures Rep(Ror7(x), i) == Rep(x, Back(i, 25))
  {
    assert Ror7At(x, i) by {
      hide Ror7At;
      Ror7Bits(x);
      Upto31(i);
    }
    hide Rep;
  }

  predicate RunAt(m: word, run: int, i: int) { Rep(m, i) == InRun(i, run) }

  /** m has the bits in such runs. */
  predicate RunMask(m: word, run: int) {
    && RunAt(m, run, 0) && RunAt(m, run, 1) && RunAt(m, run, 2) && RunAt(m, run, 3) && RunAt(m, run, 4)
    && RunAt(m, run, 5) && RunAt(m, run, 6) && RunAt(m, run, 7) && RunAt(m, run, 8) && RunAt(m, run, 9)
    && RunAt(m, run, 10) && RunAt(m, run, 11) && RunAt(m, run, 12) && RunAt(m, run, 13) && RunAt(m, run, 14)
    && RunAt(m, run, 15) && RunAt(m, run, 16) && RunAt(m, run, 17) && RunAt(m, run, 18) && RunAt(m, run, 19)
    && RunAt(m, run, 20) && RunAt(m, run, 21) && RunAt(m, run, 22) && RunAt(m, run, 23) && RunAt(m, run, 24)
    && RunAt(m, run, 25) && RunAt(m, run, 26) && RunAt(m, run, 27) && RunAt(m, run, 28) && RunAt(m, run, 29)
    && RunAt(m, run, 30) && RunAt(m, run, 31)
  }

  lemma RunMask16()
    ensures RunMask(0xffff0000, 16)
  {
  }

  lemma RunMask8()
    ensures RunMask(0xff00ff00, 8)
  {
  }

  lemma RunMask4()
    ensures RunMask(0xf0f0f0f0, 4)
  {
  }

  lemma RunMask2()
    ensures RunMask(0xcccccccc, 2)
  {
  }

  lemma RunMask1()
    ensures RunMask(0xaaaaaaaa, 1)
  {
  }

  lemma AnyRun(m: word, run: int, i: int)
    requires RunMask(m, run) && 0 <= i < 32
    ensures RunAt(m, run, i)
  {
    hide RunAt;
    Upto31(i);
  }

  lemma Mixed(l: word, r: word, m: word, run: int, i: int)
    requires RunMask(m, run) && 0 <= i < 32
    ensures Rep(X(l, A(X(l, r), m)), i) == Rep(if InRun(i, run) then r else l, i)
  {
    hide Rep, X, A, InRun, RunMask;
    AnyRun(m, run, i);
    RepXor(l, A(X(l, r), m), i);
    RepAnd(X(l, r), m, i);
    RepXor(l, r, i);
  }

  /** Exchanging the bits in the runs. */
  lemma ExchangeBit(p: Pair, m: word, run: int, i: int)
    requires RunMask(m, run) && 0 <= i < 32
    ensures Rep(Exchange(p, m).l, i) == Rep(if InRun(i, run) then p.r else p.l, i)
    ensures Rep(Exchange(p, m).r, i) == Rep(if InRun(i, run) then p.l else p.r, i)
  {
    hide Rep, InRun, X, A, RunMask;
    XComm(p.l, p.r);
    Mixed(p.l, p.r, m, run, i);
    Mixed(p.r, p.l, m, run, i);
  }

  // ---- the initial permutation ----

  /** A bit of a pair of words. */
  datatype At = At(right: bool, i: int)

  predicate BitAt(p: Pair, a: At) { Rep(if a.right then p.r else p.l, a.i) }

  /** Where a bit was before one step of IP: the right word is turned left by k, then bits are exchanged
      in every other run of the given length. */
  function Before(a: At, k: int, run: int): (b: At)
    ensures 0 <= a.i < 32 && 0 <= k < 32 ==> 0 <= b.i < 32
  {
    var right := if InRun(a.i, run) then !a.right else a.right;
    At(right, if right then Back(a.i, k) else a.i)
  }

  /** Where bit n of the halves lies once IP has turned the left word. */
  function HalfAt(n: int): At {
    if n <= 32 then At(false, Back(Spot(n), 1)) else At(true, Spot(n - 32))
  }

  /** Where a bit of the result comes from. */
  function Origin(a: At): At {
    Before(Before(Before(Before(Before(a, 25, 1), 6, 8), 18, 2), 12, 16), 4, 4)
  }

  lemma Step1(p: Pair, a: At)
    requires 0 <= a.i < 32
    ensures BitAt(Exchange(Pair(p.l, Ror7(p.r)), 0xaaaaaaaa), a) == BitAt(p, Before(a, 25, 1))
  {
    hide Rep, Exchange, Ror7, Back, InRun, RunMask;
    RunMask1();
    ExchangeBit(Pair(p.l, Ror7(p.r)), 0xaaaaaaaa, 1, a.i);
    Ror7Bit(p.r, a.i);
  }

  lemma Step8(p: Pair, a: At)
    requires 0 <= a.i < 32
    ensures BitAt(Exchange(Pair(p.l, Rol6(p.r)), 0xff00ff00), a) == BitAt(p, Before(a, 6, 8))
  {
    hide Rep, Exchange, Rol6, Back, InRun, RunMask;
    RunMask8();
    ExchangeBit(Pair(p.l, Rol6(p.r)), 0xff00ff00, 8, a.i);
    Rol6Bit(p.r, a.i);
  }

  lemma Step2(p: Pair, a: At)
    requires 0 <= a.i < 32
    ensures BitAt(Exchange(Pair(p.l, Ror14(p.r)), 0xcccccccc), a) == BitAt(p, Before(a, 18, 2))
  {
    hide Rep, Exchange, Ror14, Back, InRun, RunMask;
    RunMask2();
    ExchangeBit(Pair(p.l, Ror14(p.r)), 0xcccccccc, 2, a.i);
    Ror14Bit(p.r, a.i);
  }

  lemma Step16(p: Pair, a: At)
    requires 0 <= a.i < 32
    ensures BitAt(Exchange(Pair(p.l, Rol12(p.r)), 0xffff0000), a) == BitAt(p, Before(a, 12, 16))
  {
    hide Rep, Exchange, Rol12, Back, InRun, RunMask;
    RunMask16();
    ExchangeBit(Pair(p.l, Rol12(p.r)), 0xffff0000, 16, a.i);
    Rol12Bit(p.r, a.i);
  }

  lemma Step4(p: Pair, a: At)
    requires 0 <= a.i < 32
    ensures BitAt(Exchange(Pair(p.l, Rol4(p.r)), 0xf0f0f0f0), a) == BitAt(p, Before(a, 4, 4))
  {
    hide Rep, Exchange, Rol4, Back, InRun, RunMask;
    RunMask4();
    ExchangeBit(Pair(p.l, Rol4(p.r)), 0xf0f0f0f0, 4, a.i);
    Rol4Bit(p.r, a.i);
  }

  lemma InitialTraced(p: Pair, n: int)
    requires 1 <= n <= 64
    ensures HalfBit(Initial(p), n) == BitAt(p, Origin(HalfAt(n)))
  {
    hide Rep, Exchange, Rol1, Rol4, Rol6, Rol12, Ror7, Ror14, Before, Back;
    var a := Exchange(Pair(p.l, Rol4(p.r)), 0xf0f0f0f0);
    var b := Exchange(Pair(a.l, Rol12(a.r)), 0xffff0000);
    var c := Exchange(Pair(b.l, Ror14(b.r)), 0xcccccccc);
    var d := Exchange(Pair(c.l, Rol6(c.r)), 0xff00ff00);
    var e := Exchange(Pair(d.l, Ror7(d.r)), 0xaaaaaaaa);
    var s := HalfAt(n);
    InWord(n);
    if n <= 32 { Rol1Bit(e.l, Spot(n)); }
    var s1 := Before(s, 25, 1);
    var s2 := Before(s1, 6, 8);
    var s3 := Before(s2, 18, 2);
    Step1(d, s);
    Step8(c, s1);
    Step2(b, s2);
    Step16(a, s3);
    Step4(p, Before(s3, 12, 16));
  }

  lemma InWord(n: int)
    requires 1 <= n <= 64
    ensures 0 <= HalfAt(n).i < 32
  {
  }

  /** The origin of bit n is the one that the table of the standard names. */
  predicate FromIp(n: int) {
    && 1 <= n <= 64 && 1 <= S.IP(n) <= 64
    && Origin(HalfAt(n)) == if S.IP(n) <= 32 then At(false, LeSpot(S.IP(n))) else At(true, LeSpot(S.IP(n) - 32))
  }

  /** One bit followed through the steps. */
  lemma Traced(n: int, s1: At, s2: At, s3: At, s4: At, s5: At)
    requires 1 <= n <= 64 && Before(HalfAt(n), 25, 1) == s1 && Before(s1, 6, 8) == s2 && Before(s2, 18, 2) == s3
    requires Before(s3, 12, 16) == s4 && Before(s4, 4, 4) == s5
    requires s5 == if S.IP(n) <= 32 then At(false, LeSpot(S.IP(n))) else At(true, LeSpot(S.IP(n) - 32))
    ensures FromIp(n)
  {
    hide Before, HalfAt, S.IP, LeSpot;
  }

  lemma IpRow0()
    ensures FromIp(1) && FromIp(2) && FromIp(3) && FromIp(4) && FromIp(5) && FromIp(6) && FromIp(7) && FromIp(8)
  {
    hide FromIp;
    Traced(1, At(true, 6), At(true, 0), At(true, 14), At(true, 2), At(true, 30));
    Traced(2, At(false, 30), At(true, 24), At(true, 6), At(true, 26), At(true, 22));
    Traced(3, At(true, 4), At(true, 30), At(false, 30), At(true, 18), At(true, 14));
    Traced(4, At(false, 28), At(true, 22), At(false, 22), At(true, 10), At(true, 6));
    Traced(5, At(true, 2), At(true, 28), At(true, 10), At(true, 30), At(false, 30));
    Traced(6, At(false, 26), At(true, 20), At(true, 2), At(true, 22), At(false, 22));
    Traced(7, At(true, 0), At(true, 26), At(false, 26), At(true, 14), At(false, 14));
    Traced(8, At(false, 24), At(true, 18), At(false, 18), At(true, 6), At(false, 6));
  }

  lemma IpRow1()
    ensures FromIp(9) && FromIp(10) && FromIp(11) && FromIp(12) && FromIp(13) && FromIp(14) && FromIp(15) && FromIp(16)
  {
    hide FromIp;
    Traced(9, At(true, 30), At(false, 30), At(true, 12), At(true, 0), At(true, 28));
    Traced(10, At(false, 22), At(false, 22), At(true, 4), At(true, 24), At(true, 20));
    Traced(11, At(true, 28), At(false, 28), At(false, 28), At(true, 16), At(true, 12));
    Traced(12, At(false, 20), At(false, 20), At(false, 20), At(true, 8), At(true, 4));
    Traced(13, At(true, 26), At(false, 26), At(true, 8), At(true, 28), At(false, 28));
    Traced(14, At(false, 18), At(false, 18), At(true, 0), At(true, 20), At(false, 20));
    Traced(15, At(true, 24), At(false, 24), At(false, 24), At(true, 12), At(false, 12));
    Traced(16, At(false, 16), At(false, 16), At(false, 16), At(true, 4), At(false, 4));
  }

  lemma IpRow2()
    ensures FromIp(17) && FromIp(18) && FromIp(19) && FromIp(20) && FromIp(21) && FromIp(22) && FromIp(23) && FromIp(24)
  {
    hide FromIp;
    Traced(17, At(true, 22), At(true, 16), At(true, 30), At(false, 30), At(true, 26));
    Traced(18, At(false, 14), At(true, 8), At(true, 22), At(false, 22), At(true, 18));
    Traced(19, At(true, 20), At(true, 14), At(false, 14), At(false, 14), At(true, 10));
    Traced(20, At(false, 12), At(true, 6), At(false, 6), At(false, 6), At(true, 2));
    Traced(21, At(true, 18), At(true, 12), At(true, 26), At(false, 26), At(false, 26));
    Traced(22, At(false, 10), At(true, 4), At(true, 18), At(false, 18), At(false, 18));
    Traced(23, At(true, 16), At(true, 10), At(false, 10), At(false, 10), At(false, 10));
    Traced(24, At(false, 8), At(true, 2), At(false, 2), At(false, 2), At(false, 2));
  }

  lemma IpRow3()
    ensures FromIp(25) && FromIp(26) && FromIp(27) && FromIp(28) && FromIp(29) && FromIp(30) && FromIp(31) && FromIp(32)
  {
    hide FromIp;
    Traced(25, At(true, 14), At(false, 14), At(true, 28), At(false, 28), At(true, 24));
    Traced(26, At(false, 6), At(false, 6), At(true, 20), At(false, 20), At(true, 16));
    Traced(27, At(true, 12), At(false, 12), At(false, 12), At(false, 12), At(true, 8));
    Traced(28, At(false, 4), At(false, 4), At(false, 4), At(false, 4), At(true, 0));
    Traced(29, At(true, 10), At(false, 10), At(true, 24), At(false, 24), At(false, 24));
    Traced(30, At(false, 2), At(false, 2), At(true, 16), At(false, 16), At(false, 16));
    Traced(31, At(true, 8), At(false, 8), At(false, 8), At(false, 8), At(false, 8));
    Traced(32, At(false, 0), At(false, 0), At(false, 0), At(false, 0), At(false, 0));
  }

  lemma IpRow4()
    ensures FromIp(33) && FromIp(34) && FromIp(35) && FromIp(36) && FromIp(37) && FromIp(38) && FromIp(39) && FromIp(40)
  {
    hide FromIp;
    Traced(33, At(true, 7), At(true, 1), At(true, 15), At(true, 3), At(true, 31));
    Traced(34, At(false, 31), At(true, 25), At(true, 7), At(true, 27), At(true, 23));
    Traced(35, At(true, 5), At(true, 31), At(false, 31), At(true, 19), At(true, 15));
    Traced(36, At(false, 29), At(true, 23), At(false, 23), At(true, 11), At(true, 7));
    Traced(37, At(true, 3), At(true, 29), At(true, 11), At(true, 31), At(false, 31));
    Traced(38, At(false, 27), At(true, 21), At(true, 3), At(true, 23), At(false, 23));
    Traced(39, At(true, 1), At(true, 27), At(false, 27), At(true, 15), At(false, 15));
    Traced(40, At(false, 25), At(true, 19), At(false, 19), At(true, 7), At(false, 7));
  }

  lemma IpRow5()
    ensures FromIp(41) && FromIp(42) && FromIp(43) && FromIp(44) && FromIp(45) && FromIp(46) && FromIp(47) && FromIp(48)
  {
    hide FromIp;
    Traced(41, At(true, 31), At(false, 31), At(true, 13), At(true, 1), At(true, 29));
    Traced(42, At(false, 23), At(false, 23), At(true, 5), At(true, 25), At(true, 21));
    Traced(43, At(true, 29), At(false, 29), At(false, 29), At(true, 17), At(true, 13));
    Traced(44, At(false, 21), At(false, 21), At(false, 21), At(true, 9), At(true, 5));
    Traced(45, At(true, 27), At(false, 27), At(true, 9), At(true, 29), At(false, 29));
    Traced(46, At(false, 19), At(false, 19), At(true, 1), At(true, 21), At(false, 21));
    Traced(47, At(true, 25), At(false, 25), At(false, 25), At(true, 13), At(false, 13));
    Traced(48, At(false, 17), At(false, 17), At(false, 17), At(true, 5), At(false, 5));
  }

  lemma IpRow6()
    ensures FromIp(49) && FromIp(50) && FromIp(51) && FromIp(52) && FromIp(53) && FromIp(54) && FromIp(55) && FromIp(56)
  {
    hide FromIp;
    Traced(49, At(true, 23), At(true, 17), At(true, 31), At(false, 31), At(true, 27));
    Traced(50, At(false, 15), At(true, 9), At(true, 23), At(false, 23), At(true, 19));
    Traced(51, At(true, 21), At(true, 15), At(false, 15), At(false, 15), At(true, 11));
    Traced(52, At(false, 13), At(true, 7), At(false, 7), At(false, 7), At(true, 3));
    Traced(53, At(true, 19), At(true, 13), At(true, 27), At(false, 27), At(false, 27));
    Traced(54, At(false, 11), At(true, 5), At(true, 19), At(false, 19), At(false, 19));
    Traced(55, At(true, 17), At(true, 11), At(false, 11), At(false, 11), At(false, 11));
    Traced(56, At(false, 9), At(true, 3), At(false, 3), At(false, 3), At(false, 3));
  }

  lemma IpRow7()
    ensures FromIp(57) && FromIp(58) && FromIp(59) && FromIp(60) && FromIp(61) && FromIp(62) && FromIp(63) && FromIp(64)
  {
    hide FromIp;
    Traced(57, At(true, 15), At(false, 15), At(true, 29), At(false, 29), At(true, 25));
    Traced(58, At(false, 7), At(false, 7), At(true, 21), At(false, 21), At(true, 17));
    Traced(59, At(true, 13), At(false, 13), At(false, 13), At(false, 13), At(true, 9));
    Traced(60, At(false, 5), At(false, 5), At(false, 5), At(false, 5), At(true, 1));
    Traced(61, At(true, 11), At(false, 11), At(true, 25), At(false, 25), At(false, 25));
    Traced(62, At(false, 3), At(false, 3), At(true, 17), At(false, 17), At(false, 17));
    Traced(63, At(true, 9), At(false, 9), At(false, 9), At(false, 9), At(false, 9));
    Traced(64, At(false, 1), At(false, 1), At(false, 1), At(false, 1), At(false, 1));
  }

  lemma Upto64(n: int)
    requires 1 <= n <= 64
    ensures n == 1 || n == 2 || n == 3 || n == 4 || n == 5 || n == 6 || n == 7 || n == 8 || n == 9 || n == 10
          || n == 11 || n == 12 || n == 13 || n == 14 || n == 15 || n == 16 || n == 17 || n == 18 || n == 19 || n == 20
          || n == 21 || n == 22 || n == 23 || n == 24 || n == 25 || n == 26 || n == 27 || n == 28 || n == 29 || n == 30
          || n == 31 || n == 32 || n == 33 || n == 34 || n == 35 || n == 36 || n == 37 || n == 38 || n == 39 || n == 40
          || n == 41 || n == 42 || n == 43 || n == 44 || n == 45 || n == 46 || n == 47 || n == 48 || n == 49 || n == 50
          || n == 51 || n == 52 || n == 53 || n == 54 || n == 55 || n == 56 || n == 57 || n == 58 || n == 59 || n == 60
          || n == 61 || n == 62 || n == 63 || n == 64
  {
  }

  /** IP is the initial permutation. */
  lemma InitialIsIp(p: Pair, n: int)
    requires 1 <= n <= 64
    ensures 1 <= S.IP(n) <= 64 && HalfBit(Initial(p), n) == BlockBit(p, S.IP(n))
  {
    FromTable(n);
    hide Initial, Rep, Origin, HalfAt, S.IP;
    InitialTraced(p, n);
  }

  lemma FromTable(n: int)
    requires 1 <= n <= 64
    ensures FromIp(n)
  {
    hide FromIp;
    Upto64(n);
    IpRow0();
    IpRow1();
    IpRow2();
    IpRow3();
    IpRow4();
    IpRow5();
    IpRow6();
    IpRow7();
  }

  predicate Inverted(n: int) { 1 <= n <= 64 && 1 <= S.FP(n) <= 64 && S.IP(S.FP(n)) == n }

  lemma FpRows0()
    ensures Inverted(1) && Inverted(2) && Inverted(3) && Inverted(4)
    ensures Inverted(5) && Inverted(6) && Inverted(7) && Inverted(8)
    ensures Inverted(9) && Inverted(10) && Inverted(11) && Inverted(12)
    ensures Inverted(13) && Inverted(14) && Inverted(15) && Inverted(16)
  {
  }

  lemma FpRows1()
    ensures Inverted(17) && Inverted(18) && Inverted(19) && Inverted(20)
    ensures Inverted(21) && Inverted(22) && Inverted(23) && Inverted(24)
    ensures Inverted(25) && Inverted(26) && Inverted(27) && Inverted(28)
    ensures Inverted(29) && Inverted(30) && Inverted(31) && Inverted(32)
  {
  }

  lemma FpRows2()
    ensures Inverted(33) && Inverted(34) && Inverted(35) && Inverted(36)
    ensures Inverted(37) && Inverted(38) && Inverted(39) && Inverted(40)
    ensures Inverted(41) && Inverted(42) && Inverted(43) && Inverted(44)
    ensures Inverted(45) && Inverted(46) && Inverted(47) && Inverted(48)
  {
  }

  lemma FpRows3()
    ensures Inverted(49) && Inverted(50) && Inverted(51) && Inverted(52)
    ensures Inverted(53) && Inverted(54) && Inverted(55) && Inverted(56)
    ensures Inverted(57) && Inverted(58) && Inverted(59) && Inverted(60)
    ensures Inverted(61) && Inverted(62) && Inverted(63) && Inverted(64)
  {
  }

  /** FP is its inverse. */
  lemma FinalIsFp(p: Pair, n: int)
    requires 1 <= n <= 64
    ensures 1 <= S.FP(n) <= 64 && BlockBit(Final(p), n) == HalfBit(p, S.FP(n))
  {
    assert Inverted(n) by {
      hide *;
      FpRows0();
      FpRows1();
      FpRows2();
      FpRows3();
      Upto64(n);
    }
    hide Initial, Final, Rep, S.IP, S.FP;
    InitialIsIp(Final(p), S.FP(n));
    InitialFinal(p);
  }
}
