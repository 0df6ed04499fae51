/** The Data Encryption Standard as FIPS 46-3 gives it: bits are numbered from 1, leftmost first, and
    tables of bit numbers say what goes where. */
module DesStandard {
  /** A string of bits, by number. */
  type Bits = int -> bool

  /** The six bits that enter an S-box. */
  datatype Six = Six(b1: bool, b2: bool, b3: bool, b4: bool, b5: bool, b6: bool)

  /** Output bit 1 to 4 of S-box 1 to 8; what the boxes are is left open. */
  type SBoxes = (int, Six, int) -> bool

  // ---- the tables ----

  /** Entry n of a row of a table. */
  function Row4(n: int, a: int, b: int, c: int, d: int): int {
    if n <= 2 then (if n <= 1 then a else b) else (if n <= 3 then c else d)
  }

  function Row6(n: int, a: int, b: int, c: int, d: int, e: int, f: int): int {
    if n <= 3 then (if n <= 2 then (if n <= 1 then a else b) else c)
    else (if n <= 5 then (if n <= 4 then d else e) else f)
  }

  function Row7(n: int, a: int, b: int, c: int, d: int, e: int, f: int, g: int): int {
    if n <= 4 then (if n <= 2 then (if n <= 1 then a else b) else (if n <= 3 then c else d))
    else (if n <= 6 then (if n <= 5 then e else f) else g)
  }

  function Row8(n: int, a: int, b: int, c: int, d: int, e: int, f: int, g: int, h: int): int {
    if n <= 4 then (if n <= 2 then (if n <= 1 then a else b) else (if n <= 3 then c else d))
    else (if n <= 6 then (if n <= 5 then e else f) else (if n <= 7 then g else h))
  }

  /** The initial permutation. */
  function IP(n: int): (m: int)
    ensures 1 <= m <= 64
  {
    if n <= 8 then Row8(n, 58, 50, 42, 34, 26, 18, 10, 2)
    else if n <= 16 then Row8(n - 8, 60, 52, 44, 36, 28, 20, 12, 4)
    else if n <= 24 then Row8(n - 16, 62, 54, 46, 38, 30, 22, 14, 6)
    else if n <= 32 then Row8(n - 24, 64, 56, 48, 40, 32, 24, 16, 8)
    else if n <= 40 then Row8(n - 32, 57, 49, 41, 33, 25, 17, 9, 1)
    else if n <= 48 then Row8(n - 40, 59, 51, 43, 35, 27, 19, 11, 3)
    else if n <= 56 then Row8(n - 48, 61, 53, 45, 37, 29, 21, 13, 5)
    else Row8(n - 56, 63, 55, 47, 39, 31, 23, 15, 7)
  }

  /** Its inverse. */
  function FP(n: int): (m: int)
    ensures 1 <= m <= 64
  {
    if n <= 8 then Row8(n, 40, 8, 48, 16, 56, 24, 64, 32)
    else if n <= 16 then Row8(n - 8, 39, 7, 47, 15, 55, 23, 63, 31)
    else if n <= 24 then Row8(n - 16, 38, 6, 46, 14, 54, 22, 62, 30)
    else if n <= 32 then Row8(n - 24, 37, 5, 45, 13, 53, 21, 61, 29)
    else if n <= 40 then Row8(n - 32, 36, 4, 44, 12, 52, 20, 60, 28)
    else if n <= 48 then Row8(n - 40, 35, 3, 43, 11, 51, 19, 59, 27)
    else if n <= 56 then Row8(n - 48, 34, 2, 42, 10, 50, 18, 58, 26)
    else Row8(n - 56, 33, 1, 41, 9, 49, 17, 57, 25)
  }

  /** The bit selection of the cipher function. */
  function E(n: int): (m: int)
    ensures 1 <= m <= 32
  {
    if n <= 6 then Row6(n, 32, 1, 2, 3, 4, 5)
    else if n <= 12 then Row6(n - 6, 4, 5, 6, 7, 8, 9)
    else if n <= 18 then Row6(n - 12, 8, 9, 10, 11, 12, 13)
    else if n <= 24 then Row6(n - 18, 12, 13, 14, 15, 16, 17)
    else if n <= 30 then Row6(n - 24, 16, 17, 18, 19, 20, 21)
    else if n <= 36 then Row6(n - 30, 20, 21, 22, 23, 24, 25)
    else if n <= 42 then Row6(n - 36, 24, 25, 26, 27, 28, 29)
    else Row6(n - 42, 28, 29, 30, 31, 32, 1)
  }

  /** The permutation behind the S-boxes. */
  function P(n: int): (m: int)
    ensures 1 <= m <= 32
  {
    if n <= 4 then Row4(n, 16, 7, 20, 21)
    else if n <= 8 then Row4(n - 4, 29, 12, 28, 17)
    else if n <= 12 then Row4(n - 8, 1, 15, 23, 26)
    else if n <= 16 then Row4(n - 12, 5, 18, 31, 10)
    else if n <= 20 then Row4(n - 16, 2, 8, 24, 14)
    else if n <= 24 then Row4(n - 20, 32, 27, 3, 9)
    else if n <= 28 then Row4(n - 24, 19, 13, 30, 6)
    else Row4(n - 28, 22, 11, 4, 25)
  }

  /** Permuted choice 1: bits 1 to 28 are C, the rest is D. */
  function PC1(n: int): (m: int)
    ensures 1 <= m <= 64
  {
    if n <= 7 then Row7(n, 57, 49, 41, 33, 25, 17, 9)
    else if n <= 14 then Row7(n - 7, 1, 58, 50, 42, 34, 26, 18)
    else if n <= 21 then Row7(n - 14, 10, 2, 59, 51, 43, 35, 27)
    else if n <= 28 then Row7(n - 21, 19, 11, 3, 60, 52, 44, 36)
    else if n <= 35 then Row7(n - 28, 63, 55, 47, 39, 31, 23, 15)
    else if n <= 42 then Row7(n - 35, 7, 62, 54, 46, 38, 30, 22)
    else if n <= 49 then Row7(n - 42, 14, 6, 61, 53, 45, 37, 29)
    else Row7(n - 49, 21, 13, 5, 28, 20, 12, 4)
  }

  /** Permuted choice 2. */
  function PC2(n: int): (m: int)
    ensures 1 <= m <= 56
  {
    if n <= 6 then Row6(n, 14, 17, 11, 24, 1, 5)
    else if n <= 12 then Row6(n - 6, 3, 28, 15, 6, 21, 10)
    else if n <= 18 then Row6(n - 12, 23, 19, 12, 4, 26, 8)
    else if n <= 24 then Row6(n - 18, 16, 7, 27, 20, 13, 2)
    else if n <= 30 then Row6(n - 24, 41, 52, 31, 37, 47, 55)
    else if n <= 36 then Row6(n - 30, 30, 40, 51, 45, 33, 48)
    else if n <= 42 then Row6(n - 36, 44, 49, 39, 56, 34, 53)
    else Row6(n - 42, 46, 42, 50, 36, 29, 32)
  }

  /** How far C and D have been shifted left by round r. */
  function Shifts(r: int): int {
    if r <= 0 then 0 else Shifts(r - 1) + if r == 1 || r == 2 || r == 9 || r == 16 then 1 else 2
  }

  // ---- the cipher ----

  /** Bit n of the subkey of round r. */
  function KeyBit(key: Bits, r: int): Bits {
    n =>
      if 1 <= n <= 24 then key(PC1((PC2(n) - 1 + Shifts(r)) % 28 + 1))
      else if 25 <= n <= 48 then key(PC1(28 + (PC2(n) - 29 + Shifts(r)) % 28 + 1))
      else false
  }

  /** The input of S-box i: six bits of E(R), the subkey added. */
  function BoxInput(r: Bits, k: Bits, i: int): Six
    requires 1 <= i <= 8
  {
    var n := 6 * i - 5;
    Six(r(E(n)) != k(n), r(E(n + 1)) != k(n + 1), r(E(n + 2)) != k(n + 2), r(E(n + 3)) != k(n + 3),
        r(E(n + 4)) != k(n + 4), r(E(n + 5)) != k(n + 5))
  }

  /** The cipher function: P of what the S-boxes make of the input, four bits each. */
  function F(box: SBoxes, r: Bits, k: Bits): Bits {
    n => 1 <= n <= 32 && box((P(n) - 1) / 4 + 1, BoxInput(r, k, (P(n) - 1) / 4 + 1), (P(n) - 1) % 4 + 1)
  }

  datatype Halves = Halves(l: Bits, r: Bits)

  function Rounds(box: SBoxes, ks: seq<Bits>, h: Halves): Halves {
    if ks == [] then h
    else Rounds(box, ks[1..], Halves(h.r, n => h.l(n) != F(box, h.r, ks[0])(n)))
  }

  /** The whole transformation under given subkeys: IP, the rounds, the halves exchanged, the inverse of
      IP. */
  function Des(box: SBoxes, ks: seq<Bits>, block: Bits): Bits {
    var h := Rounds(box, ks, Halves(n => 1 <= n <= 32 && block(IP(n)), n => 1 <= n <= 32 && block(IP(n + 32))));
    n => 1 <= n <= 64 && if FP(n) <= 32 then h.r(FP(n)) else h.l(FP(n) - 32)
  }

  function Subkeys(key: Bits): (ks: seq<Bits>)
    ensures |ks| == 16
  {
    seq(16, i => KeyBit(key, i + 1))
  }

  function SubkeysBack(key: Bits): (ks: seq<Bits>)
    ensures |ks| == 16
  {
    seq(16, i => KeyBit(key, 16 - i))
  }

  function Encipher(box: SBoxes, key: Bits, block: Bits): Bits { Des(box, Subkeys(key), block) }

  function Decipher(box: SBoxes, key: Bits, block: Bits): Bits { Des(box, SubkeysBack(key), block) }
}
