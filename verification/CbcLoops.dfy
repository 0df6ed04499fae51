/** The four loops of crypto/cbc.c over one stretch of a buffer. */
module CbcLoops {
  import opened CbcSpec

  /** m with the bytes from position p on replaced by b. */
  function Patch(m: Bytes, p: nat, b: Bytes): (r: Bytes)
    requires p + |b| <= |m|
    ensures |r| == |m|
    ensures forall i :: 0 <= i < |m| ==> r[i] == if p <= i < p + |b| then b[i - p] else m[i]
  {
    m[..p] + b + m[p + |b|..]
  }

  /** memcpy into an array. */
  method Store(a: array<bv8>, p: nat, b: Bytes)
    requires p + |b| <= a.Length
    modifies a
    ensures a[..] == Patch(old(a[..]), p, b)
  {
    forall i | 0 <= i < |b| { a[p + i] := b[i]; }
  }

  /** Loop step: one more block of ciphertext. */
  lemma EncBlock(fn: Bytes -> Bytes, bs: nat, iv: Bytes, data: Bytes, i: nat)
    requires IsCipher(fn, bs) && |iv| == bs && i + bs <= |data| && Left(i, bs) == 0
    ensures Left(i + bs, bs) == 0
    ensures var done := Enc(fn, bs, iv, data[..i]);
            var c := fn(Xor(done.1, data[i..i + bs]));
            Enc(fn, bs, iv, data[..i + bs]) == (done.0 + c, c)
  {
    LeftSum(i, bs, bs);
    var b := data[i..i + bs];
    assert data[..i + bs] == data[..i] + b;
    EncSplit(fn, bs, iv, data[..i], b);
    var done := Enc(fn, bs, iv, data[..i]);
    assert b[..bs] == b && b[bs..] == [];
    var c := fn(Xor(done.1, b));
    assert c + [] == c;
  }

  lemma DecBlock(fn: Bytes -> Bytes, bs: nat, iv: Bytes, data: Bytes, i: nat)
    requires IsCipher(fn, bs) && |iv| == bs && i + bs <= |data| && Left(i, bs) == 0
    ensures Left(i + bs, bs) == 0
    ensures var done := Dec(fn, bs, iv, data[..i]);
            Dec(fn, bs, iv, data[..i + bs]) == (done.0 + Xor(fn(data[i..i + bs]), done.1), data[i..i + bs])
  {
    LeftSum(i, bs, bs);
    var b := data[i..i + bs];
    assert data[..i + bs] == data[..i] + b;
    DecSplit(fn, bs, iv, data[..i], b);
    var done := Dec(fn, bs, iv, data[..i]);
    assert b[..bs] == b && b[bs..] == [];
    var p := Xor(fn(b), done.1);
    assert p + [] == p;
  }

  lemma PatchAppend(m: Bytes, p: nat, a: Bytes, b: Bytes)
    requires p + |a| + |b| <= |m|
    ensures Patch(Patch(m, p, a), p + |a|, b) == Patch(m, p, a + b)
  {
  }

  lemma PatchOther(m: Bytes, p: nat, b: Bytes, s: nat, n: nat)
    requires p + |b| <= |m| && s + n <= |m| && (s + n <= p || p + |b| <= s)
    ensures Patch(m, p, b)[s..s + n] == m[s..s + n]
  {
  }

  /** The bytes beyond the last whole block take no part. */
  lemma EncWhole(fn: Bytes -> Bytes, bs: nat, iv: Bytes, data: Bytes, k: nat)
    requires IsCipher(fn, bs) && |iv| == bs && k <= |data| && Left(k, bs) == 0 && |data| - k < bs
    ensures Enc(fn, bs, iv, data[..k]) == Enc(fn, bs, iv, data) && |data| - k == Left(|data|, bs)
  {
    LeftSum(k, |data| - k, bs);
    assert data == data[..k] + data[k..];
    EncSplit(fn, bs, iv, data[..k], data[k..]);
    var r := Enc(fn, bs, iv, data[..k]);
    assert r.0 + [] == r.0;
  }

  lemma DecWhole(fn: Bytes -> Bytes, bs: nat, iv: Bytes, data: Bytes, k: nat)
    requires IsCipher(fn, bs) && |iv| == bs && k <= |data| && Left(k, bs) == 0 && |data| - k < bs
    ensures Dec(fn, bs, iv, data[..k]) == Dec(fn, bs, iv, data) && |data| - k == Left(|data|, bs)
  {
    LeftSum(k, |data| - k, bs);
    assert data == data[..k] + data[k..];
    DecSplit(fn, bs, iv, data[..k], data[k..]);
    var r := Dec(fn, bs, iv, data[..k]);
    assert r.0 + [] == r.0;
  }

  /** Two stretches of n bytes that do not share a byte. */
  predicate Apart(src: array<bv8>, s: nat, dst: array<bv8>, d: nat, n: nat) {
    src != dst || s + n <= d || d + n <= s
  }

  /** Write a block of the output stretch; the input stretch stays as it was. */
  method StoreApart(src: array<bv8>, s: nat, dst: array<bv8>, d: nat, n: nat, i: nat, b: Bytes)
    requires s + n <= src.Length && d + n <= dst.Length && Apart(src, s, dst, d, n) && i + |b| <= n
    modifies dst
    ensures dst[..] == Patch(old(dst[..]), d + i, b) && src[s..s + n] == old(src[s..s + n])
  {
    Store(dst, d + i, b);
    if src == dst { PatchOther(old(dst[..]), d + i, b, s, n); }
  }

  /** crypto_cbc_encrypt_segment */
  method EncryptSegment(fn: Bytes -> Bytes, bs: nat, src: array<bv8>, s: nat, dst: array<bv8>, d: nat,
                        n: nat, iv0: Bytes) returns (nbytes: nat, iv: Bytes)
    requires IsCipher(fn, bs) && |iv0| == bs && n >= bs
    requires s + n <= src.Length && d + n <= dst.Length && Apart(src, s, dst, d, n)
    modifies dst
    ensures nbytes == Left(n, bs)
    ensures var r := Enc(fn, bs, iv0, old(src[s..s + n]));
            dst[..] == Patch(old(dst[..]), d, r.0) && iv == r.1
  {
    hide Patch, Enc, Left, Xor;
    ghost var data := src[s..s + n];
    ghost var m := dst[..];
    var i := 0;
    nbytes, iv := n, iv0;
    EncNothing(fn, bs, iv0, m, d);
    while nbytes >= bs
      invariant i + nbytes == n && Left(i, bs) == 0
      invariant |iv| == bs && iv == Enc(fn, bs, iv0, data[..i]).1
      invariant dst[..] == Patch(m, d, Enc(fn, bs, iv0, data[..i]).0)
      invariant src[s..s + n] == data
      decreases nbytes
    {
      EncBlock(fn, bs, iv0, data, i);
      assert src[s + i..s + i + bs] == src[s..s + n][i..i + bs];
      iv := Xor(iv, src[s + i..s + i + bs]);
      iv := fn(iv);
      PatchAppend(m, d, Enc(fn, bs, iv0, data[..i]).0, iv);
      StoreApart(src, s, dst, d, n, i, iv);
      i, nbytes := i + bs, nbytes - bs;
    }
    EncWhole(fn, bs, iv0, data, i);
  }

  lemma EncNothing(fn: Bytes -> Bytes, bs: nat, iv: Bytes, m: Bytes, d: nat)
    requires IsCipher(fn, bs) && |iv| == bs && d <= |m|
    ensures Left(0, bs) == 0 && Enc(fn, bs, iv, []) == ([], iv) && Dec(fn, bs, iv, []) == ([], iv)
    ensures Patch(m, d, []) == m
  {
  }

  /** A stretch patched at its front keeps its back. */
  lemma PatchRest(m: Bytes, p: nat, b: Bytes, n: nat)
    requires |b| <= n && p + n <= |m|
    ensures Patch(m, p, b)[p + |b|..p + n] == m[p..p + n][|b|..]
  {
  }

  /** crypto_cbc_encrypt_inplace */
  method EncryptInplace(fn: Bytes -> Bytes, bs: nat, buf: array<bv8>, s: nat, n: nat, iv0: Bytes)
    returns (nbytes: nat, iv: Bytes)
    requires IsCipher(fn, bs) && |iv0| == bs && n >= bs && s + n <= buf.Length
    modifies buf
    ensures nbytes == Left(n, bs)
    ensures var r := Enc(fn, bs, iv0, old(buf[s..s + n]));
            buf[..] == Patch(old(buf[..]), s, r.0) && iv == r.1
  {
    hide Patch, Enc, Left, Xor;
    ghost var data := buf[s..s + n];
    ghost var m := buf[..];
    var i := 0;
    nbytes, iv := n, iv0;
    EncNothing(fn, bs, iv0, m, s);
    while nbytes >= bs
      invariant i + nbytes == n && Left(i, bs) == 0
      invariant |iv| == bs && iv == Enc(fn, bs, iv0, data[..i]).1
      invariant buf[..] == Patch(m, s, Enc(fn, bs, iv0, data[..i]).0)
      decreases nbytes
    {
      EncBlock(fn, bs, iv0, data, i);
      PatchRest(m, s, Enc(fn, bs, iv0, data[..i]).0, n);
      ghost var before := buf[..];
      assert before[s + i..s + n][..bs] == before[s + i..s + i + bs] == buf[s + i..s + i + bs];
      assert data[i..][..bs] == data[i..i + bs];
      XorComm(buf[s + i..s + i + bs], iv);
      var block := Xor(buf[s + i..s + i + bs], iv);
      block := fn(block);
      PatchAppend(m, s, Enc(fn, bs, iv0, data[..i]).0, block);
      Store(buf, s + i, block);
      iv := block;
      i, nbytes := i + bs, nbytes - bs;
    }
    EncWhole(fn, bs, iv0, data, i);
  }

  lemma XorComm(a: Bytes, b: Bytes)
    requires |a| == |b|
    ensures Xor(a, b) == Xor(b, a)
  {
  }

  /** crypto_cbc_decrypt_segment */
  method DecryptSegment(fn: Bytes -> Bytes, bs: nat, src: array<bv8>, s: nat, dst: array<bv8>, d: nat,
                        n: nat, iv0: Bytes) returns (nbytes: nat, iv: Bytes)
    requires IsCipher(fn, bs) && |iv0| == bs && n >= bs
    requires s + n <= src.Length && d + n <= dst.Length && Apart(src, s, dst, d, n)
    modifies dst
    ensures nbytes == Left(n, bs)
    ensures var r := Dec(fn, bs, iv0, old(src[s..s + n]));
            dst[..] == Patch(old(dst[..]), d, r.0) && iv == r.1
  {
    hide Patch, Dec, Left, Xor;
    ghost var data := src[s..s + n];
    ghost var m := dst[..];
    var i := 0;
    nbytes, iv := n, iv0;
    EncNothing(fn, bs, iv0, m, d);
    while nbytes >= bs
      invariant i + nbytes == n && Left(i, bs) == 0
      invariant |iv| == bs && iv == Dec(fn, bs, iv0, data[..i]).1
      invariant dst[..] == Patch(m, d, Dec(fn, bs, iv0, data[..i]).0)
      invariant src[s..s + n] == data
      decreases nbytes
    {
      DecBlock(fn, bs, iv0, data, i);
      assert src[s + i..s + i + bs] == src[s..s + n][i..i + bs];
      var block := fn(src[s + i..s + i + bs]);
      block := Xor(block, iv);
      iv := src[s + i..s + i + bs];
      PatchAppend(m, d, Dec(fn, bs, iv0, data[..i]).0, block);
      StoreApart(src, s, dst, d, n, i, block);
      i, nbytes := i + bs, nbytes - bs;
    }
    DecWhole(fn, bs, iv0, data, i);
  }

  lemma PatchPrepend(m: Bytes, p: nat, a: Bytes, b: Bytes)
    requires p + |a| + |b| <= |m|
    ensures Patch(Patch(m, p + |a|, b), p, a) == Patch(m, p, a + b)
  {
  }

  /** Decrypting from block i on, with block i - 1 as the chaining value. */
  lemma DecFrom(fn: Bytes -> Bytes, bs: nat, iv: Bytes, data: Bytes, i: nat)
    requires IsCipher(fn, bs) && |iv| == bs && i + bs <= |data|
    ensures Dec(fn, bs, iv, data[i..]).0 ==
            Xor(fn(data[i..i + bs]), iv) + Dec(fn, bs, data[i..i + bs], data[i + bs..]).0
  {
    assert data[i..][..bs] == data[i..i + bs] && data[i..][bs..] == data[i + bs..];
  }

  /** The loop of crypto_cbc_decrypt_inplace: data are k bytes of whole blocks at s in buf, and
      everything is decrypted from the last block down but the first block's final addition. */
  method DecryptBackwards(fn: Bytes -> Bytes, bs: nat, buf: array<bv8>, s: nat, k: nat, n: nat)
    returns (nbytes: nat, first: Bytes)
    requires IsCipher(fn, bs) && bs <= k <= n && s + k <= buf.Length && Left(k, bs) == 0 && n - k < bs
    modifies buf
    ensures nbytes == n - k && |first| == bs
    ensures var data := old(buf[s..s + k]);
            && first == fn(data[..bs])
            && buf[..] == Patch(old(buf[..]), s + bs, Dec(fn, bs, data[..bs], data[bs..]).0)
  {
    hide Patch, Dec, Left, Xor;
    ghost var data := buf[s..s + k];
    ghost var m := buf[..];
    assert data == m[s..s + k];
    var i := k - bs;
    nbytes := n;
    LeftDown(k, bs);
    NothingAfter(fn, bs, data, m, s + k);
    while true
      invariant 0 <= i <= i + bs <= k && nbytes == i + bs + (n - k) && Left(i, bs) == 0
      invariant buf[..] == Patch(m, s + i + bs, Dec(fn, bs, data[i..i + bs], data[i + bs..]).0)
      decreases nbytes
    {
      ghost var tail := Dec(fn, bs, data[i..i + bs], data[i + bs..]).0;
      TailLength(fn, bs, data, i, k);
      BlocksBefore(m, s, k, i, bs, tail);
      var block := fn(buf[..][s + i..s + i + bs]);
      nbytes := nbytes - bs;
      if nbytes < bs {
        SmallIsZero(i, bs);
        return nbytes, block;
      }
      LeftDown(i, bs);
      block := Xor(block, buf[..][s + i - bs..s + i]);
      DecFrom(fn, bs, data[i - bs..i], data, i);
      PatchPrepend(m, s + i, block, tail);
      Store(buf, s + i, block);
      i := i - bs;
    }
  }

  lemma NothingAfter(fn: Bytes -> Bytes, bs: nat, data: Bytes, m: Bytes, p: nat)
    requires IsCipher(fn, bs) && bs <= |data| && p <= |m|
    ensures var k := |data|;
            m == Patch(m, p, Dec(fn, bs, data[k - bs..k], data[k..]).0)
  {
  }

  lemma SubSlice(m: Bytes, s: nat, k: nat, a: nat, b: nat)
    requires s + k <= |m| && a <= b <= k
    ensures m[s..s + k][a..b] == m[s + a..s + b]
  {
    var u := m[s..s + k];
    assert |u[a..b]| == |m[s + a..s + b]|;
    forall j | 0 <= j < b - a ensures u[a..b][j] == m[s + a..s + b][j] {
      assert u[a..b][j] == u[a + j] == m[s + a + j];
    }
  }

  /** Blocks not yet reached are still ciphertext. */
  lemma BlocksBefore(m: Bytes, s: nat, k: nat, i: nat, bs: nat, tail: Bytes)
    requires s + k <= |m| && i + bs + |tail| == k
    ensures var now := Patch(m, s + i + bs, tail);
            && now[s + i..s + i + bs] == m[s..s + k][i..i + bs]
            && (i >= bs ==> now[s + i - bs..s + i] == m[s..s + k][i - bs..i])
  {
    hide Patch;
    PatchOther(m, s + i + bs, tail, s + i, bs);
    SubSlice(m, s, k, i, i + bs);
    if i >= bs {
      PatchOther(m, s + i + bs, tail, s + i - bs, bs);
      SubSlice(m, s, k, i - bs, i);
    }
  }

  lemma TailLength(fn: Bytes -> Bytes, bs: nat, data: Bytes, i: nat, k: nat)
    requires IsCipher(fn, bs) && i + bs <= k == |data| && Left(i, bs) == 0 && Left(k, bs) == 0
    ensures |Dec(fn, bs, data[i..i + bs], data[i + bs..]).0| == k - i - bs
  {
    hide Dec;
    LeftSum(i, k - i, bs);
  }

  lemma LeftDown(i: nat, bs: nat)
    requires bs > 0 && Left(i, bs) == 0 && i > 0
    ensures i >= bs && Left(i - bs, bs) == 0
  {
  }

  lemma SmallIsZero(i: nat, bs: nat)
    requires bs > 0 && Left(i, bs) == 0 && i < bs
    ensures i == 0
  {
  }

  /** crypto_cbc_decrypt_inplace */
  method DecryptInplace(fn: Bytes -> Bytes, bs: nat, buf: array<bv8>, s: nat, n: nat, iv0: Bytes)
    returns (nbytes: nat, iv: Bytes)
    requires IsCipher(fn, bs) && |iv0| == bs && n >= bs && s + n <= buf.Length
    modifies buf
    ensures nbytes == Left(n, bs)
    ensures var r := Dec(fn, bs, iv0, old(buf[s..s + n]));
            buf[..] == Patch(old(buf[..]), s, r.0) && iv == r.1
  {
    hide Patch, Dec, Xor, Left;
    ghost var m := buf[..];
    LeftIsMod(n, bs);
    LeftBack(n, bs);
    var k := n - n % bs;
    AtLeastOne(n, bs);
    LeftIsSmall(n, bs);
    ghost var data := m[s..s + k];
    iv := buf[..][s + k - bs..s + k];
    LeftDown(k, bs);
    var first;
    nbytes, first := DecryptBackwards(fn, bs, buf, s, k, n);
    TailLength(fn, bs, data, 0, k);
    var block := Xor(first, iv0);
    PatchPrepend(m, s, block, Dec(fn, bs, data[..bs], data[bs..]).0);
    Store(buf, s, block);
    DecAll(fn, bs, iv0, m, s, k, n);
  }

  lemma LeftIsSmall(n: nat, bs: nat)
    requires bs > 0
    ensures n - (n - Left(n, bs)) < bs
  {
  }

  lemma AtLeastOne(n: nat, bs: nat)
    requires n >= bs > 0
    ensures n - Left(n, bs) >= bs
  {
  }

  lemma DecAll(fn: Bytes -> Bytes, bs: nat, iv: Bytes, m: Bytes, s: nat, k: nat, n: nat)
    requires IsCipher(fn, bs) && |iv| == bs && bs <= k <= n && s + n <= |m| && Left(k, bs) == 0 && n - k < bs
    ensures var data := m[s..s + k];
            var r := Dec(fn, bs, iv, m[s..s + n]);
            && r.0 == Xor(fn(data[..bs]), iv) + Dec(fn, bs, data[..bs], data[bs..]).0
            && r.1 == m[s + k - bs..s + k]
  {
    hide Xor, Dec, Left, IsCipher;
    var data := m[s..s + k];
    Slices(m, s, k, n, bs);
    DecFrom(fn, bs, iv, data, 0);
    LeftDown(k, bs);
    DecBlock(fn, bs, iv, data, k - bs);
    DecWhole(fn, bs, iv, m[s..s + n], k);
  }

  lemma Slices(m: Bytes, s: nat, k: nat, n: nat, bs: nat)
    requires bs <= k <= n && s + n <= |m|
    ensures var data := m[s..s + k];
            && m[s..s + n][..k] == data == data[..k] && data[0..] == data && data[0..bs] == data[..bs]
            && data[k - bs..k] == m[s + k - bs..s + k]
  {
  }
}
