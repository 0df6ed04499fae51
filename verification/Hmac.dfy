/** crypto/digest.c and crypto/hmac.c: digests of scatter lists, and section 2 of RFC 2104. */
module Hmac {
  import opened DigestSpec
  import opened DigestContext
  import Gf2

  const PAGE: nat := 4096
  const BLOCK: nat := 64

  /** An entry of a scatter list: bytes from an offset in a page on, or the link to another list that
      a zero length stands for. */
  datatype Entry = Seg(off: nat, data: seq<byte>) | Chain(to: seq<Entry>)

  /** sg_next */
  function Next(t: seq<Entry>): seq<Entry>
    requires |t| > 1
  {
    if t[1].Chain? then t[1].to else t[1..]
  }

  /** The list holds at least n bytes. */
  ghost predicate Holds(t: seq<Entry>, n: nat)
    decreases n
  {
    && t != [] && t[0].Seg? && t[0].off < PAGE && t[0].data != []
    && (n > |t[0].data| ==> |t| > 1 && Holds(Next(t), n - |t[0].data|))
  }

  /** Its first n bytes. */
  ghost function Gather(t: seq<Entry>, n: nat): seq<byte>
    requires Holds(t, n)
    decreases n
  {
    if n <= |t[0].data| then t[0].data[..n] else t[0].data + Gather(Next(t), n - |t[0].data|)
  }

  /** The same, of a list that is not looked at when nothing is asked of it. */
  ghost function Text(t: seq<Entry>, n: nat): seq<byte>
    requires n > 0 ==> Holds(t, n)
  {
    if n == 0 then [] else Gather(t, n)
  }

  lemma {:induction false} TextSize(t: seq<Entry>, n: nat)
    requires n > 0 ==> Holds(t, n)
    ensures |Text(t, n)| == n
    decreases n
  {
    if n > 0 && n > |t[0].data| {
      TextSize(Next(t), n - |t[0].data|);
    }
  }

  /** How far an address is past an alignment. */
  function Past(offset: nat, align: nat): (r: nat)
    requires align > 0
    ensures r < align
  {
    offset % align
  }

  /** The inner loop of update2: one entry, page by page, unaligned heads apart. */
  method UpdateEntry(ctx: HashCtx, off: nat, data: seq<byte>, mask: nat)
    requires ctx.Valid() && off < PAGE && data != []
    modifies ctx, ctx.block
    ensures ctx.Valid() && ctx.message == old(ctx.message) + data
  {
    hide HashCtx.Valid;
    var at, offset := 0, off;
    while at < |data|
      invariant ctx.Valid() && 0 <= at <= |data| && 0 <= offset < PAGE && ctx.message == old(ctx.message) + data[..at]
    {
      var fromPage := if |data| - at < PAGE - offset then |data| - at else PAGE - offset;
      if Past(offset, mask + 1) != 0 {
        var bytes := mask + 1 - Past(offset, mask + 1);
        bytes := if bytes < fromPage then bytes else fromPage;
        ctx.Update(data[at..at + bytes]);
        assert data[..at + bytes] == data[..at] + data[at..at + bytes];
        at, fromPage := at + bytes, fromPage - bytes;
      }
      ctx.Update(data[at..at + fromPage]);
      assert data[..at + fromPage] == data[..at] + data[at..at + fromPage];
      at, offset := at + fromPage, 0;
    }
    assert data[..at] == data;
  }

  /** Taking l bytes from the first entry. */
  lemma GatherStep(t: seq<Entry>, n: nat, l: nat)
    requires n > 0 && Holds(t, n) && l == (if |t[0].data| > n then n else |t[0].data|)
    ensures 0 < l <= n && (l < n ==> |t| > 1 && Holds(Next(t), n - l))
    ensures Gather(t, n) == t[0].data[..l] + if l < n then Gather(Next(t), n - l) else []
  {
  }

  lemma HoldsFirst(t: seq<Entry>, n: nat)
    requires Holds(t, n)
    ensures t != [] && t[0].Seg? && t[0].off < PAGE && t[0].data != []
  {
  }

  /** update2: the context is given the list's first n bytes, however they are scattered. */
  method UpdateList(ctx: HashCtx, t: seq<Entry>, n: nat, mask: nat)
    requires ctx.Valid() && (n > 0 ==> Holds(t, n))
    modifies ctx, ctx.block
    ensures ctx.Valid() && ctx.message == old(ctx.message) + Text(t, n)
  {
    hide HashCtx.Valid, Holds, Gather, Next;
    if n == 0 {
      return;
    }
    var sg, left := t, n;
    ghost var given: seq<byte> := [];
    while true
      invariant ctx.Valid() && left > 0 && Holds(sg, left)
      invariant ctx.message == old(ctx.message) + given && Gather(t, n) == given + Gather(sg, left)
      decreases left
    {
      HoldsFirst(sg, left);
      var l := if |sg[0].data| > left then left else |sg[0].data|;
      GatherStep(sg, left, l);
      UpdateEntry(ctx, sg[0].off, sg[0].data[..l], mask);
      given := given + sg[0].data[..l];
      left := left - l;
      if left == 0 {
        assert Gather(t, n) == given;
        return;
      }
      sg := Next(sg);
    }
  }

  /** crypto_hash_digest */
  method DigestList(ctx: HashCtx, t: seq<Entry>, n: nat, mask: nat) returns (out: seq<byte>)
    requires ctx.block.Length == 64 && (n > 0 ==> Holds(t, n))
    modifies ctx, ctx.block
    ensures out == Digest(ctx.alg, Text(t, n))
  {
    hide HashCtx.Valid, Holds, Gather, Digest;
    ctx.Init();
    UpdateList(ctx, t, n, mask);
    assert ctx.message == Text(t, n);
    out := ctx.Final();
  }

  // ---- HMAC ----

  function XorByte(a: byte, b: byte): byte {
    ByteXor(a, b);
    Gf2.Xor(a, b)
  }

  /** Every byte of a block combined with a pad byte. */
  function Pad(k: seq<byte>, p: byte): seq<byte> { seq(|k|, i requires 0 <= i < |k| => XorByte(k[i], p)) }

  /** A key of at most one block: longer keys are hashed first. */
  function Key(a: Alg, key: seq<byte>): seq<byte> {
    var k := if |key| > BLOCK then Digest(a, key) else key;
    if |k| <= BLOCK then k + Zeros(BLOCK - |k|) else k
  }

  /** H(K xor opad, H(K xor ipad, text)) */
  function Mac(a: Alg, key: seq<byte>, text: seq<byte>): seq<byte> {
    Digest(a, Pad(Key(a, key), 0x5c) + Digest(a, Pad(Key(a, key), 0x36) + text))
  }

  lemma ByteXor(a: byte, b: byte)
    ensures 0 <= Gf2.Xor(a, b) < 256
  {
    XorBelow(a, b, 8);
    assert Gf2.Pow2(8) == 256;
  }

  lemma {:induction false} XorBelow(a: nat, b: nat, k: nat)
    requires a < Gf2.Pow2(k) && b < Gf2.Pow2(k)
    ensures Gf2.Xor(a, b) < Gf2.Pow2(k)
  {
    if k > 0 {
      XorBelow(a / 2, b / 2, k - 1);
    }
  }

  /** struct hmac_ctx and the pads in front of it. */
  class HmacCtx {
    const child: HashCtx
    const mask: nat
    const base: nat
    var ipad: seq<byte>
    var opad: seq<byte>
    ghost var key: seq<byte>

    constructor (a: Alg, m: nat, b: nat)
      ensures child.alg == a && fresh(child) && fresh(child.block) && mask == m && base == b
    {
      child := new HashCtx(a);
      mask, base, ipad, opad, key := m, b, [], [], [];
    }

    ghost predicate Keyed()
      reads this
    {
      && child.block.Length == 64 && AlgOk(child.alg) && base < PAGE
      && |ipad| == |opad| == BLOCK && ipad == Pad(Key(child.alg, key), 0x36) && opad == Pad(Key(child.alg, key), 0x5c)
    }

    /** The key in a block, hashed first when it is longer. */
    method Shorten(inkey: seq<byte>) returns (block: seq<byte>)
      requires child.block.Length == 64 && AlgOk(child.alg) && base < PAGE
      modifies child, child.block
      ensures block == Key(child.alg, inkey) && |block| == BLOCK
    {
      hide HashCtx.Valid, Digest;
      var k := inkey;
      DigestSize(child.alg, inkey);
      if |inkey| > BLOCK {
        var tmp := [Seg(base, inkey)];
        k := DigestList(child, tmp, |inkey|, mask);
        assert inkey[..|inkey|] == inkey;
      }
      block := k + Zeros(BLOCK - |k|);
    }

    /** hmac_setkey */
    method SetKey(inkey: seq<byte>)
      requires child.block.Length == 64 && AlgOk(child.alg) && base < PAGE
      modifies this, child, child.block
      ensures Keyed() && key == inkey
    {
      hide HashCtx.Valid, Key, XorByte, AlgOk;
      var block := Shorten(inkey);
      ipad, opad := [], [];
      while |ipad| < BLOCK
        invariant |ipad| == |opad| <= BLOCK == |block|
        invariant ipad == Pad(block, 0x36)[..|ipad|] && opad == Pad(block, 0x5c)[..|ipad|]
      {
        ipad, opad := ipad + [XorByte(block[|ipad|], 0x36)], opad + [XorByte(block[|ipad|], 0x5c)];
      }
      key := inkey;
    }

    /** hmac_init */
    method Init()
      requires Keyed()
      modifies child, child.block
      ensures child.Valid() && child.message == ipad
    {
      child.Init();
      UpdateList(child, [Seg(base, ipad)], BLOCK, mask);
      assert ipad[..BLOCK] == ipad;
    }

    /** hmac_update */
    method Update(t: seq<Entry>, n: nat)
      requires Keyed() && child.Valid() && (n > 0 ==> Holds(t, n))
      modifies child, child.block
      ensures child.Valid() && child.message == old(child.message) + Text(t, n)
    {
      UpdateList(child, t, n, mask);
    }

    /** The outer digest both finals end with. */
    method Outer(inner: seq<byte>) returns (out: seq<byte>)
      requires Keyed() && |inner| == 4 * |child.alg.iv|
      modifies child, child.block
      ensures out == Digest(child.alg, opad + inner)
    {
      var buf := opad + inner;
      out := DigestList(child, [Seg(base, buf)], |buf|, mask);
      assert buf[..|buf|] == buf;
    }

    /** hmac_final: of init, any updates and final, the result is the MAC of what the updates gave. */
    method Final(ghost text: seq<byte>) returns (out: seq<byte>)
      requires Keyed() && child.Valid() && child.message == ipad + text
      modifies child, child.block
      ensures out == Mac(child.alg, key, text)
    {
      DigestSize(child.alg, ipad + text);
      var inner := child.Final();
      out := Outer(inner);
    }

    /** hmac_digest: the pad chained in front of the caller's list, with a 32-bit sum of the lengths. */
    method OneShot(t: seq<Entry>, n: nat) returns (out: seq<byte>)
      requires Keyed() && n < WORD && (n > 0 ==> Holds(t, n))
      modifies child, child.block
      ensures |Text(t, n)| == n && out == Digest(child.alg, opad + Digest(child.alg, Inner(ipad, Text(t, n))))
      ensures n + BLOCK < WORD ==> out == Mac(child.alg, key, Text(t, n))
    {
      hide Digest, Pad, Key;
      var sg1 := [Seg(base, ipad), Chain(t)];
      ghost var text := Text(t, n);
      var total := (n + BLOCK) % WORD;
      TextSize(t, n);
      Chained(sg1, t, n, total);
      DigestSize(child.alg, Inner(ipad, text));
      var inner := DigestList(child, sg1, total, mask);
      out := Outer(inner);
      InnerIff(ipad, text);
    }
  }

  /** What hmac_digest gives to the inner hash: the pad and the text, up to the 32-bit sum of their
      lengths. */
  function Inner(ipad: seq<byte>, text: seq<byte>): seq<byte> {
    (ipad + text)[..(|ipad| + |text|) % WORD]
  }

  /** It is the pad and the whole text exactly when the sum does not wrap around. */
  lemma InnerIff(ipad: seq<byte>, text: seq<byte>)
    requires |ipad| == BLOCK && |text| < WORD
    ensures Inner(ipad, text) == ipad + text <==> |text| + BLOCK < WORD
    ensures |text| + BLOCK >= WORD ==> Inner(ipad, text) == ipad[..|text| + BLOCK - WORD]
  {
    if |text| + BLOCK < WORD {
      assert (ipad + text)[..|ipad + text|] == ipad + text;
    } else {
      assert (ipad + text)[..|text| + BLOCK - WORD] == ipad[..|text| + BLOCK - WORD];
    }
  }

  /** The pad's entry chained to a list. */
  lemma Chained(sg1: seq<Entry>, t: seq<Entry>, n: nat, total: nat)
    requires |sg1| == 2 && sg1[0].Seg? && sg1[0].off < PAGE && |sg1[0].data| == BLOCK && sg1[1] == Chain(t)
    requires n < WORD && (n > 0 ==> Holds(t, n)) && total == (n + BLOCK) % WORD
    ensures total > 0 ==> Holds(sg1, total)
    ensures Text(sg1, total) == Inner(sg1[0].data, Text(t, n))
  {
    var ipad := sg1[0].data;
    TextSize(t, n);
    InnerIff(ipad, Text(t, n));
    if n + BLOCK < WORD {
      assert n > 0 ==> Next(sg1) == t;
      assert ipad[..BLOCK] == ipad && ipad + [] == ipad;
    } else {
      assert ipad[..0] == [];
    }
  }

  ghost function Texts(parts: seq<(seq<Entry>, nat)>): seq<byte>
    requires forall i :: 0 <= i < |parts| ==> parts[i].1 > 0 ==> Holds(parts[i].0, parts[i].1)
  {
    if parts == [] then [] else Texts(parts[..|parts| - 1]) + Text(parts[|parts| - 1].0, parts[|parts| - 1].1)
  }

  /** Init, any number of updates and final: how the text is cut into updates does not show. */
  method Streamed(h: HmacCtx, parts: seq<(seq<Entry>, nat)>) returns (out: seq<byte>)
    requires h.Keyed() && forall i :: 0 <= i < |parts| ==> parts[i].1 > 0 ==> Holds(parts[i].0, parts[i].1)
    modifies h.child, h.child.block
    ensures out == Mac(h.child.alg, h.key, Texts(parts))
  {
    hide HashCtx.Valid, Holds, Gather, HmacCtx.Keyed, Text;
    h.Init();
    for i := 0 to |parts|
      invariant h.Keyed() && h.child.Valid() && h.child.message == h.ipad + Texts(parts[..i])
    {
      h.Update(parts[i].0, parts[i].1);
      assert parts[..i + 1][..i] == parts[..i];
    }
    assert parts[..|parts|] == parts;
    out := h.Final(Texts(parts));
  }
}
