/** Cipher block chaining on flat byte strings (section 6.2 of NIST SP 800-38A). */
module CbcSpec {
  type Bytes = seq<bv8>

  /** A block cipher: some function from blocks to blocks of the same size. */
  ghost predicate IsCipher(fn: Bytes -> Bytes, bs: nat) {
    bs > 0 && forall x :: |x| == bs ==> |fn(x)| == bs
  }

  function Xor(a: Bytes, b: Bytes): (r: Bytes)
    requires |a| == |b|
    ensures |r| == |a|
  {
    seq(|a|, i requires 0 <= i < |a| => a[i] ^ b[i])
  }

  /** What is left of n bytes after taking whole blocks of bs bytes off. */
  function Left(n: nat, bs: nat): (r: nat)
    requires bs > 0
    ensures r < bs && r <= n
    decreases n
  {
    if n < bs then n else Left(n - bs, bs)
  }

  lemma {:induction false} LeftIsMod(n: nat, bs: nat)
    requires bs > 0
    ensures Left(n, bs) == n % bs
    decreases n
  {
    if n < bs {
      ModUnique(n, bs, 0, n);
    } else {
      LeftIsMod(n - bs, bs);
      var q := (n - bs) / bs;
      assert n - bs == q * bs + (n - bs) % bs;
      assert (q + 1) * bs == q * bs + bs;
      ModUnique(n, bs, q + 1, Left(n, bs));
    }
  }

  lemma SmallMultiple(k: int, bs: int)
    requires -bs < k * bs < bs
    ensures k == 0
  {
  }

  lemma ModUnique(n: nat, bs: nat, q: nat, r: nat)
    requires bs > 0 && n == q * bs + r && r < bs
    ensures n % bs == r
  {
    assert (q - n / bs) * bs == n % bs - r;
    SmallMultiple(q - n / bs, bs);
  }

  lemma {:induction false} LeftSum(a: nat, b: nat, bs: nat)
    requires bs > 0 && Left(a, bs) == 0
    ensures Left(a + b, bs) == Left(b, bs)
    decreases a
  {
    if a > 0 { LeftSum(a - bs, b, bs); }
  }

  lemma {:induction false} LeftBack(a: nat, bs: nat)
    requires bs > 0
    ensures Left(a - Left(a, bs), bs) == 0
    decreases a
  {
    if a >= bs { LeftBack(a - bs, bs); }
  }

  /** The ciphertext of the whole blocks of data, and the chaining value they leave. */
  ghost function Enc(fn: Bytes -> Bytes, bs: nat, iv: Bytes, data: Bytes): (r: (Bytes, Bytes))
    requires IsCipher(fn, bs) && |iv| == bs
    ensures |r.0| == |data| - Left(|data|, bs) && |r.1| == bs
    decreases |data|
  {
    if |data| < bs then ([], iv)
    else
      var c := fn(Xor(iv, data[..bs]));
      var rest := Enc(fn, bs, c, data[bs..]);
      (c + rest.0, rest.1)
  }

  ghost function Dec(fn: Bytes -> Bytes, bs: nat, iv: Bytes, data: Bytes): (r: (Bytes, Bytes))
    requires IsCipher(fn, bs) && |iv| == bs
    ensures |r.0| == |data| - Left(|data|, bs) && |r.1| == bs
    decreases |data|
  {
    if |data| < bs then ([], iv)
    else
      var rest := Dec(fn, bs, data[..bs], data[bs..]);
      (Xor(fn(data[..bs]), iv) + rest.0, rest.1)
  }

  lemma WholeBlock(n: nat, bs: nat)
    requires bs > 0 && n > 0 && Left(n, bs) == 0
    ensures n >= bs && Left(n - bs, bs) == 0
  {
  }

  lemma EncStep(fn: Bytes -> Bytes, bs: nat, iv: Bytes, data: Bytes)
    requires IsCipher(fn, bs) && |iv| == bs && |data| >= bs
    ensures bs > 0 && |fn(Xor(iv, data[..bs]))| == bs
    ensures var c := fn(Xor(iv, data[..bs]));
            var rest := Enc(fn, bs, c, data[bs..]);
            Enc(fn, bs, iv, data) == (c + rest.0, rest.1)
  {
  }

  /** The first block of a + b is that of a. */
  lemma EncFirst(fn: Bytes -> Bytes, bs: nat, iv: Bytes, a: Bytes, b: Bytes)
    requires IsCipher(fn, bs) && |iv| == bs && |a| >= bs > 0
    ensures |fn(Xor(iv, a[..bs]))| == bs
    ensures var c := fn(Xor(iv, a[..bs]));
            var (ra, rab) := (Enc(fn, bs, c, a[bs..]), Enc(fn, bs, c, a[bs..] + b));
            Enc(fn, bs, iv, a) == (c + ra.0, ra.1) && Enc(fn, bs, iv, a + b) == (c + rab.0, rab.1)
  {
    hide Xor, Enc, IsCipher;
    EncStep(fn, bs, iv, a);
    EncStep(fn, bs, iv, a + b);
    assert (a + b)[..bs] == a[..bs];
    assert (a + b)[bs..] == a[bs..] + b;
  }

  /** Encrypting in two pieces, the first of whole blocks, is encrypting at once. */
  lemma {:induction false} EncSplit(fn: Bytes -> Bytes, bs: nat, iv: Bytes, a: Bytes, b: Bytes)
    requires IsCipher(fn, bs) && |iv| == bs && Left(|a|, bs) == 0
    ensures var ra := Enc(fn, bs, iv, a);
            var rb := Enc(fn, bs, ra.1, b);
            Enc(fn, bs, iv, a + b) == (ra.0 + rb.0, rb.1)
    decreases |a|
  {
    if a == [] {
      assert a + b == b && [] + Enc(fn, bs, iv, b).0 == Enc(fn, bs, iv, b).0;
    } else {
      WholeBlock(|a|, bs);
      EncFirst(fn, bs, iv, a, b);
      var c := fn(Xor(iv, a[..bs]));
      EncSplit(fn, bs, c, a[bs..], b);
      Grouped(c, Enc(fn, bs, c, a[bs..]).0, Enc(fn, bs, Enc(fn, bs, c, a[bs..]).1, b).0);
    }
  }

  lemma Grouped(x: Bytes, y: Bytes, z: Bytes)
    ensures x + (y + z) == (x + y) + z
  {
  }

  lemma DecCons(fn: Bytes -> Bytes, bs: nat, iv: Bytes, c: Bytes, rest: Bytes)
    requires IsCipher(fn, bs) && |iv| == bs == |c|
    ensures var r := Dec(fn, bs, c, rest);
            Dec(fn, bs, iv, c + rest) == (Xor(fn(c), iv) + r.0, r.1)
  {
    hide Xor;
    assert (c + rest)[..bs] == c && (c + rest)[bs..] == rest;
  }

  lemma DecFirst(fn: Bytes -> Bytes, bs: nat, iv: Bytes, a: Bytes, b: Bytes)
    requires IsCipher(fn, bs) && |iv| == bs && |a| >= bs > 0
    ensures |fn(a[..bs])| == bs
    ensures var p := Xor(fn(a[..bs]), iv);
            var (ra, rab) := (Dec(fn, bs, a[..bs], a[bs..]), Dec(fn, bs, a[..bs], a[bs..] + b));
            Dec(fn, bs, iv, a) == (p + ra.0, ra.1) && Dec(fn, bs, iv, a + b) == (p + rab.0, rab.1)
  {
    hide Xor, Dec, Left;
    assert a == a[..bs] + a[bs..];
    Grouped(a[..bs], a[bs..], b);
    DecCons(fn, bs, iv, a[..bs], a[bs..]);
    DecCons(fn, bs, iv, a[..bs], a[bs..] + b);
  }

  lemma {:induction false} DecSplit(fn: Bytes -> Bytes, bs: nat, iv: Bytes, a: Bytes, b: Bytes)
    requires IsCipher(fn, bs) && |iv| == bs && Left(|a|, bs) == 0
    ensures var ra := Dec(fn, bs, iv, a);
            var rb := Dec(fn, bs, ra.1, b);
            Dec(fn, bs, iv, a + b) == (ra.0 + rb.0, rb.1)
    decreases |a|
  {
    hide Xor;
    if a == [] {
      assert a + b == b && [] + Dec(fn, bs, iv, b).0 == Dec(fn, bs, iv, b).0;
    } else {
      hide Dec;
      WholeBlock(|a|, bs);
      DecFirst(fn, bs, iv, a, b);
      DecSplit(fn, bs, a[..bs], a[bs..], b);
      var ra := Dec(fn, bs, a[..bs], a[bs..]);
      Grouped(Xor(fn(a[..bs]), iv), ra.0, Dec(fn, bs, ra.1, b).0);
    }
  }

  /** A slice that lies behind x, or starts with it. */
  lemma Behind(x: Bytes, r: Bytes, a: nat, b: nat)
    requires a <= b <= |x| + |r|
    ensures |x| <= a ==> (x + r)[a..b] == r[a - |x|..b - |x|]
    ensures a == 0 && b == |x| ==> (x + r)[a..b] == x
  {
  }

  lemma Dropped(s: Bytes, k: nat, a: nat, b: nat)
    requires a <= b <= |s| && k <= |s|
    ensures k <= a ==> s[a..b] == s[k..][a - k..b - k]
  {
  }

  /** Block by block: each ciphertext block is the cipher of the data block added to the ciphertext block
      before it, the first to the initial vector. */
  lemma {:induction false} EncAt(fn: Bytes -> Bytes, bs: nat, iv: Bytes, data: Bytes, p: nat)
    requires IsCipher(fn, bs) && |iv| == bs && Left(p, bs) == 0 && p + bs <= |data|
    ensures var c := Enc(fn, bs, iv, data).0;
            && p + bs <= |c| && (p > 0 ==> p >= bs)
            && c[p..p + bs] == fn(Xor(if p == 0 then iv else c[p - bs..p], data[p..p + bs]))
    decreases p
  {
    hide Xor, Enc, Left;
    EncStep(fn, bs, iv, data);
    var c := fn(Xor(iv, data[..bs]));
    var rest := Enc(fn, bs, c, data[bs..]).0;
    WholeLeft(p, |data|, bs);
    if p == 0 {
      Behind(c, rest, 0, bs);
    } else {
      WholeBlock(p, bs);
      EncAt(fn, bs, c, data[bs..], p - bs);
      hide IsCipher;
      Behind(c, rest, p, p + bs);
      Behind(c, rest, p - bs, p);
      Dropped(data, bs, p, p + bs);
    }
  }

  /** Whole blocks that are there are done. */
  lemma {:induction false} WholeLeft(p: nat, n: nat, bs: nat)
    requires bs > 0 && Left(p, bs) == 0 && p + bs <= n
    ensures p + bs <= n - Left(n, bs)
    decreases p
  {
    if p > 0 {
      WholeBlock(p, bs);
      WholeLeft(p - bs, n - bs, bs);
    }
  }

  /** The last ciphertext block is the chaining value. */
  lemma {:induction false} EncLast(fn: Bytes -> Bytes, bs: nat, iv: Bytes, data: Bytes)
    requires IsCipher(fn, bs) && |iv| == bs
    ensures var (c, last) := Enc(fn, bs, iv, data);
            if |data| < bs then last == iv else |c| >= bs && last == c[|c| - bs..]
    decreases |data|
  {
    hide Xor;
    if |data| >= bs {
      var c := fn(Xor(iv, data[..bs]));
      EncLast(fn, bs, c, data[bs..]);
      EncStep(fn, bs, iv, data);
      hide Enc;
    }
  }

  lemma DecStep(fn: Bytes -> Bytes, bs: nat, iv: Bytes, data: Bytes)
    requires IsCipher(fn, bs) && |iv| == bs && |data| >= bs
    ensures bs > 0 && |fn(data[..bs])| == bs
    ensures var rest := Dec(fn, bs, data[..bs], data[bs..]);
            Dec(fn, bs, iv, data) == (Xor(fn(data[..bs]), iv) + rest.0, rest.1)
  {
  }

  /** Block by block: each data block is the deciphered block added to the ciphertext block before it. */
  lemma {:induction false} DecAt(fn: Bytes -> Bytes, bs: nat, iv: Bytes, data: Bytes, p: nat)
    requires IsCipher(fn, bs) && |iv| == bs && Left(p, bs) == 0 && p + bs <= |data|
    ensures var d := Dec(fn, bs, iv, data).0;
            && p + bs <= |d| && (p > 0 ==> p >= bs)
            && d[p..p + bs] == Xor(fn(data[p..p + bs]), if p == 0 then iv else data[p - bs..p])
    decreases p
  {
    hide Xor, Dec, Left;
    DecStep(fn, bs, iv, data);
    var x := Xor(fn(data[..bs]), iv);
    var rest := Dec(fn, bs, data[..bs], data[bs..]).0;
    WholeLeft(p, |data|, bs);
    if p == 0 {
      Behind(x, rest, 0, bs);
    } else {
      WholeBlock(p, bs);
      DecAt(fn, bs, data[..bs], data[bs..], p - bs);
      hide IsCipher;
      Behind(x, rest, p, p + bs);
      Dropped(data, bs, p, p + bs);
      Dropped(data, bs, p - bs, p);
    }
  }

  /** The last whole block of the ciphertext is the chaining value. */
  lemma {:induction false} DecLast(fn: Bytes -> Bytes, bs: nat, iv: Bytes, data: Bytes)
    requires IsCipher(fn, bs) && |iv| == bs
    ensures var (last, k) := (Dec(fn, bs, iv, data).1, |data| - Left(|data|, bs));
            if |data| < bs then last == iv else k >= bs && last == data[k - bs..k]
    decreases |data|
  {
    hide Xor;
    if |data| >= bs {
      DecLast(fn, bs, data[..bs], data[bs..]);
      DecStep(fn, bs, iv, data);
      hide Dec;
      WholeLeft(0, |data|, bs);
    }
  }

  lemma XorTwice(a: Bytes, b: Bytes)
    requires |a| == |b|
    ensures Xor(Xor(a, b), a) == b
  {
    forall i | 0 <= i < |a| ensures Xor(Xor(a, b), a)[i] == b[i] {
      ByteXorTwice(a[i], b[i]);
    }
  }

  lemma ByteXorTwice(x: bv8, y: bv8)
    ensures (x ^ y) ^ x == y
  {
  }

  /** Chained decryption undoes chained encryption when the block functions are inverse. */
  lemma {:induction false} DecEnc(e: Bytes -> Bytes, d: Bytes -> Bytes, bs: nat, iv: Bytes, data: Bytes)
    requires IsCipher(e, bs) && IsCipher(d, bs) && |iv| == bs && Left(|data|, bs) == 0
    requires forall x :: |x| == bs ==> d(e(x)) == x
    ensures Dec(d, bs, iv, Enc(e, bs, iv, data).0) == (data, Enc(e, bs, iv, data).1)
    decreases |data|
  {
    if data != [] {
      DecEncStep(e, d, bs, iv, data);
      DecEnc(e, d, bs, e(Xor(iv, data[..bs])), data[bs..]);
      assert data == data[..bs] + data[bs..];
    }
  }

  lemma DecEncStep(e: Bytes -> Bytes, d: Bytes -> Bytes, bs: nat, iv: Bytes, data: Bytes)
    requires IsCipher(e, bs) && IsCipher(d, bs) && |iv| == bs <= |data|
    requires forall x :: |x| == bs ==> d(e(x)) == x
    ensures var c := e(Xor(iv, data[..bs]));
            var r := Enc(e, bs, c, data[bs..]);
            var p := Dec(d, bs, c, r.0);
            && Enc(e, bs, iv, data) == (c + r.0, r.1)
            && Dec(d, bs, iv, Enc(e, bs, iv, data).0) == (data[..bs] + p.0, p.1)
  {
    hide Xor, Enc, Dec, Left;
    var c := e(Xor(iv, data[..bs]));
    EncStep(e, bs, iv, data);
    XorTwice(iv, data[..bs]);
    DecCons(d, bs, iv, c, Enc(e, bs, c, data[bs..]).0);
  }
}
