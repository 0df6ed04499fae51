/** Streaming digests: section 3 of RFC 1321 and section 5 of FIPS 180-2 as functions of the message,
    and what the buffer of a context stands for. */
module DigestSpec {
  type byte = b: int | 0 <= b < 256

  /** A chaining value of 32-bit words. */
  type Hash = seq<int>

  const WORD: nat := 0x1_0000_0000
  const LONG: nat := 0x1_0000_0000_0000_0000

  /** MD5 (little-endian words) or SHA-1 (big-endian words); g is the compression function. */
  datatype Alg = Alg(little: bool, iv: Hash, g: (Hash, seq<int>) -> Hash)

  ghost predicate AlgOk(a: Alg) { |a.iv| <= 16 && forall h, w :: |a.g(h, w)| == |a.iv| }

  // ---- words and bytes ----

  function Quad(a: int, b: int, c: int, d: int): int { a + 0x100 * b + 0x1_0000 * c + 0x100_0000 * d }

  function WordOf(little: bool, b: seq<byte>): int
    requires |b| == 4
  {
    if little then Quad(b[0], b[1], b[2], b[3]) else Quad(b[3], b[2], b[1], b[0])
  }

  function BytesOf(little: bool, w: int): seq<byte> {
    if little then [w % 0x100, w / 0x100 % 0x100, w / 0x1_0000 % 0x100, w / 0x100_0000 % 0x100]
    else [w / 0x100_0000 % 0x100, w / 0x1_0000 % 0x100, w / 0x100 % 0x100, w % 0x100]
  }

  lemma Digits(w: nat)
    requires w < WORD
    ensures Quad(w % 0x100, w / 0x100 % 0x100, w / 0x1_0000 % 0x100, w / 0x100_0000 % 0x100) == w
  {
    var x := w / 0x100;
    var y := x / 0x100;
    var z := y / 0x100;
    assert w / 0x1_0000 == y && w / 0x100_0000 == z;
  }

  lemma BytesWord(little: bool, w: nat)
    requires w < WORD
    ensures |BytesOf(little, w)| == 4 && WordOf(little, BytesOf(little, w)) == w
  {
    hide Quad;
    Digits(w);
  }

  /** A 64-bit number, low word first or high word first. */
  function LongBytes(little: bool, v: nat): seq<byte> {
    if little then BytesOf(true, v % WORD) + BytesOf(true, v / WORD % WORD)
    else BytesOf(false, v / WORD % WORD) + BytesOf(false, v % WORD)
  }

  /** The words of a block. */
  function Words(little: bool, b: seq<byte>): seq<int>
    decreases |b|
  {
    if |b| < 4 then [] else [WordOf(little, b[..4])] + Words(little, b[4..])
  }

  function Step(a: Alg, h: Hash, b: seq<byte>): Hash { a.g(h, Words(a.little, b)) }

  /** The bytes of a chaining value. */
  function Out(little: bool, h: Hash): seq<byte> {
    if h == [] then [] else BytesOf(little, h[0]) + Out(little, h[1..])
  }

  // ---- the digest of a message ----

  /** The chaining value after every whole 64-byte block. */
  function Fold(a: Alg, h: Hash, s: seq<byte>): Hash
    decreases |s|
  {
    if |s| < 64 then h else Fold(a, Step(a, h, s[..64]), s[64..])
  }

  function Zeros(n: nat): seq<byte> { seq(n, i => 0) }

  /** So many zero bytes that one marker byte and eight length bytes complete a block. */
  function Gap(n: nat): nat { if n % 64 < 56 then 55 - n % 64 else 119 - n % 64 }

  /** The message, a one bit, zeros, and the low 64 bits of its length in bits. */
  function Padded(little: bool, m: seq<byte>): seq<byte> {
    m + [0x80] + Zeros(Gap(|m|)) + LongBytes(little, 8 * |m| % LONG)
  }

  function Digest(a: Alg, m: seq<byte>): seq<byte> { Out(a.little, Fold(a, a.iv, Padded(a.little, m))) }

  lemma PaddedWhole(little: bool, m: seq<byte>)
    ensures |Padded(little, m)| % 64 == 0 && |m| + 9 <= |Padded(little, m)| <= |m| + 72
  {
    hide LongBytes;
    LongSize(little, 8 * |m| % LONG);
    ModShift(64, |m| / 64);
    ModShift(128, |m| / 64);
  }

  lemma {:induction false} FoldAppend(a: Alg, h: Hash, s: seq<byte>, t: seq<byte>)
    requires |s| % 64 == 0
    ensures Fold(a, h, s + t) == Fold(a, Fold(a, h, s), t)
    decreases |s|
  {
    hide Step;
    if s == [] {
      assert s + t == t;
    } else {
      assert (s + t)[..64] == s[..64] && (s + t)[64..] == s[64..] + t;
      FoldAppend(a, Step(a, h, s[..64]), s[64..], t);
    }
  }

  lemma {:induction false} FoldSize(a: Alg, h: Hash, s: seq<byte>)
    requires AlgOk(a) && |h| == |a.iv|
    ensures |Fold(a, h, s)| == |a.iv|
    decreases |s|
  {
    if |s| >= 64 {
      FoldSize(a, Step(a, h, s[..64]), s[64..]);
    }
  }

  lemma {:induction false} OutSize(little: bool, h: Hash)
    ensures |Out(little, h)| == 4 * |h|
  {
    if h != [] {
      OutSize(little, h[1..]);
    }
  }

  lemma DigestSize(a: Alg, m: seq<byte>)
    requires AlgOk(a)
    ensures |Digest(a, m)| == 4 * |a.iv| <= 64
  {
    FoldSize(a, a.iv, Padded(a.little, m));
    OutSize(a.little, Fold(a, a.iv, Padded(a.little, m)));
  }

  // ---- what a context stands for ----

  /** What waits in the buffer of a context that has been given m. */
  function Tail(m: seq<byte>): seq<byte> { m[|m| - |m| % 64..] }

  function Done(m: seq<byte>): seq<byte> { m[..|m| - |m| % 64] }

  lemma FoldDone(a: Alg, h: Hash, m: seq<byte>)
    ensures Fold(a, h, m) == Fold(a, h, Done(m)) && m == Done(m) + Tail(m)
    ensures |Tail(m)| == |m| % 64 && |Done(m)| % 64 == 0
  {
    assert m == Done(m) + Tail(m);
    FoldAppend(a, h, Done(m), Tail(m));
  }

  /** The low bits of the 64-bit count are those of the length. */
  lemma CountLow(n: nat)
    ensures n % LONG % 64 == n % 64
  {
    var q := n / LONG;
    assert n == 64 * (0x400_0000_0000_0000 * q) + n % LONG;
    ModShift(n % LONG, 0x400_0000_0000_0000 * q);
  }

  lemma ModShift(r: nat, k: nat)
    ensures (64 * k + r) % 64 == r % 64
  {
  }

  lemma CountAdds(n: nat, k: nat)
    requires k < LONG
    ensures (n % LONG + k) % LONG == (n + k) % LONG
  {
    var q, r := n / LONG, n % LONG;
    assert n == LONG * q + r;
    if r + k < LONG {
      assert n + k == LONG * q + (r + k);
    } else {
      assert n + k == LONG * (q + 1) + (r + k - LONG);
    }
  }

  lemma TailAppend(m: seq<byte>, d: seq<byte>)
    requires |m| % 64 + |d| < 64
    ensures Tail(m + d) == Tail(m) + d && |m + d| % 64 == |m| % 64 + |d| && Done(m + d) == Done(m)
  {
    var k := |m| % 64 + |d|;
    assert |m + d| == 64 * (|m| / 64) + k;
    ModShift(k, |m| / 64);
    assert |m + d| - k == |m| - |m| % 64;
  }

  /** Bytes that do not complete the block only wait. */
  lemma AbsorbShort(a: Alg, m: seq<byte>, d: seq<byte>)
    requires |m| % 64 + |d| < 64
    ensures Fold(a, a.iv, m + d) == Fold(a, a.iv, m)
  {
    hide Fold, Tail, Done;
    TailAppend(m, d);
    FoldDone(a, a.iv, m);
    FoldDone(a, a.iv, m + d);
  }

  /** Bytes that complete the block are hashed with what waited. */
  lemma AbsorbBlock(a: Alg, m: seq<byte>, d: seq<byte>)
    requires |m| % 64 + |d| == 64
    ensures Fold(a, a.iv, m + d) == Step(a, Fold(a, a.iv, m), Tail(m) + d)
    ensures |m + d| % 64 == 0 && Tail(m + d) == []
  {
    hide Step, Tail, Done;
    FoldDone(a, a.iv, m);
    var b := Tail(m) + d;
    assert m + d == Done(m) + b;
    FoldAppend(a, a.iv, Done(m), b);
    assert b[..64] == b && b[64..] == [];
    WholeTail(m + d);
  }

  lemma WholeTail(m: seq<byte>)
    requires |m| % 64 == 0
    ensures Tail(m) == []
  {
  }

  /** The bit count, from a byte count kept modulo 2^64. */
  lemma BitCount(n: nat)
    ensures var c := n % LONG; var bits := 8 * n % LONG;
            8 * c % WORD == bits % WORD && c / 0x2000_0000 % WORD == bits / WORD
  {
    var q, c := n / LONG, n % LONG;
    var t, u := c / 0x2000_0000, c % 0x2000_0000;
    assert n == LONG * q + c && c == 0x2000_0000 * t + u;
    var p, r := t / WORD, t % WORD;
    assert t == WORD * p + r;
    assert 8 * n == LONG * (8 * q + p) + (WORD * r + 8 * u);
    ModUnique(8 * n, LONG, 8 * q + p, WORD * r + 8 * u);
    ModUnique(8 * c, WORD, t, 8 * u);
    ModUnique(WORD * r + 8 * u, WORD, r, 8 * u);
  }

  lemma ModUnique(n: nat, d: nat, q: nat, r: nat)
    requires (d == LONG || d == WORD) && n == d * q + r && r < d
    ensures n % d == r && n / d == q
  {
  }

  lemma BitsAgree(n: nat)
    ensures 8 * (n % LONG) % LONG == 8 * n % LONG
  {
    var q, c := n / LONG, n % LONG;
    var t, r := 8 * c / LONG, 8 * c % LONG;
    assert 8 * n == LONG * (8 * q + t) + r;
    ModUnique(8 * n, LONG, 8 * q + t, r);
  }

  // ---- the last blocks ----

  lemma {:induction false} WordsAppend(little: bool, x: seq<byte>, y: seq<byte>)
    requires |x| % 4 == 0
    ensures Words(little, x + y) == Words(little, x) + Words(little, y)
    decreases |x|
  {
    hide WordOf;
    if x == [] {
      assert x + y == y;
    } else {
      assert (x + y)[..4] == x[..4] && (x + y)[4..] == x[4..] + y;
      WordsAppend(little, x[4..], y);
    }
  }

  lemma LongWords(v: nat)
    ensures Words(true, LongBytes(true, v)) == [v % WORD, v / WORD % WORD]
  {
    hide WordOf, BytesOf;
    var lo, hi := BytesOf(true, v % WORD), BytesOf(true, v / WORD % WORD);
    BytesWord(true, v % WORD);
    BytesWord(true, v / WORD % WORD);
    var b := lo + hi;
    assert b[..4] == lo && b[4..] == hi && hi[..4] == hi && hi[4..] == [];
    assert Words(true, hi) == [WordOf(true, hi)] + Words(true, []);
  }

  /** A block with room for the marker and the length. */
  lemma LastBlock(a: Alg, m: seq<byte>)
    requires |m| % 64 < 56
    ensures Fold(a, a.iv, Padded(a.little, m))
         == Step(a, Fold(a, a.iv, m), Tail(m) + [0x80] + Zeros(55 - |m| % 64) + LongBytes(a.little, 8 * |m| % LONG))
  {
    hide Fold, Step, Tail, LongBytes, BytesOf;
    LongSize(a.little, 8 * |m| % LONG);
    var d := [0x80] + Zeros(55 - |m| % 64) + LongBytes(a.little, 8 * |m| % LONG);
    AbsorbBlock(a, m, d);
    assert m + d == Padded(a.little, m);
    assert Tail(m) + d == Tail(m) + [0x80] + Zeros(55 - |m| % 64) + LongBytes(a.little, 8 * |m| % LONG);
  }

  lemma LongSize(little: bool, v: nat)
    ensures |LongBytes(little, v)| == 8
  {
  }

  /** No room: the marker completes one block and the length another. */
  lemma LastTwoBlocks(a: Alg, m: seq<byte>)
    requires |m| % 64 >= 56
    ensures Fold(a, a.iv, Padded(a.little, m))
         == Step(a, Step(a, Fold(a, a.iv, m), Tail(m) + [0x80] + Zeros(63 - |m| % 64)),
                 Zeros(56) + LongBytes(a.little, 8 * |m| % LONG))
  {
    hide Fold, Step, Tail, LongBytes, BytesOf;
    LongSize(a.little, 8 * |m| % LONG);
    var d := [0x80] + Zeros(63 - |m| % 64);
    var e := Zeros(56) + LongBytes(a.little, 8 * |m| % LONG);
    AbsorbBlock(a, m, d);
    AbsorbBlock(a, m + d, e);
    assert Zeros(119 - |m| % 64) == Zeros(63 - |m| % 64) + Zeros(56);
    assert (m + d) + e == Padded(a.little, m);
    assert Tail(m) + d == Tail(m) + [0x80] + Zeros(63 - |m| % 64);
    assert Tail(m + d) + e == e;
  }
}
