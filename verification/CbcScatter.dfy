/** crypto_cbc_encrypt and crypto_cbc_decrypt over scatter lists. */
module CbcScatter {
  import opened CbcSpec
  import opened CbcLoops
  import opened Scatter
  import opened Spots
  import opened BlkcipherWalk

  /** Encryption or decryption of the whole blocks of data. */
  ghost function Chain(dec: bool, fn: Bytes -> Bytes, bs: nat, iv: Bytes, data: Bytes): (r: (Bytes, Bytes))
    requires IsCipher(fn, bs) && |iv| == bs
    ensures |r.0| == |data| - Left(|data|, bs) && |r.1| == bs
  {
    if dec then Dec(fn, bs, iv, data) else Enc(fn, bs, iv, data)
  }

  lemma ChainSplit(dec: bool, fn: Bytes -> Bytes, bs: nat, iv: Bytes, a: Bytes, b: Bytes)
    requires IsCipher(fn, bs) && |iv| == bs && Left(|a|, bs) == 0
    ensures var ra := Chain(dec, fn, bs, iv, a);
            var rb := Chain(dec, fn, bs, ra.1, b);
            Chain(dec, fn, bs, iv, a + b) == (ra.0 + rb.0, rb.1)
  {
    hide Enc, Dec;
    if dec { DecSplit(fn, bs, iv, a, b); } else { EncSplit(fn, bs, iv, a, b); }
  }

  lemma ChainWhole(dec: bool, fn: Bytes -> Bytes, bs: nat, iv: Bytes, data: Bytes, k: nat)
    requires IsCipher(fn, bs) && |iv| == bs && k <= |data| && Left(k, bs) == 0 && |data| - k < bs
    ensures Chain(dec, fn, bs, iv, data[..k]) == Chain(dec, fn, bs, iv, data) && |data| - k == Left(|data|, bs)
  {
    hide Enc, Dec;
    if dec { DecWhole(fn, bs, iv, data, k); } else { EncWhole(fn, bs, iv, data, k); }
  }

  /** After pos bytes: the destination holds the flat result of the first pos source bytes, the
      source from there on is untouched, and iv is the chaining value. */
  ghost predicate ChainedTo(dec: bool, fn: Bytes -> Bytes, bs: nat, iv0: Bytes, data: Bytes, m0: Bytes,
                              src: seq<Sg>, dst: seq<Sg>, pos: nat, m: Bytes, iv: Bytes)
    requires IsCipher(fn, bs) && |iv0| == bs && Lists(src, dst, |m0|, |data|)
  {
    && pos <= |data| && Left(pos, bs) == 0 && |m| == |m0|
    && Spread(m0, m, dst, 0, Chain(dec, fn, bs, iv0, data[..pos]).0)
    && Gather(m, src, pos, |data| - pos) == data[pos..]
    && iv == Chain(dec, fn, bs, iv0, data[..pos]).1
  }

  /** What n more bytes of the data add to the chain of the first pos. */
  lemma ChainOn(dec: bool, fn: Bytes -> Bytes, bs: nat, iv0: Bytes, data: Bytes, pos: nat, n: nat)
    requires IsCipher(fn, bs) && |iv0| == bs && pos + n <= |data| && Left(pos, bs) == 0
    ensures var done := Chain(dec, fn, bs, iv0, data[..pos]);
            var r := Chain(dec, fn, bs, done.1, data[pos..pos + n]);
            && |r.0| <= n && Left(pos + |r.0|, bs) == 0
            && Chain(dec, fn, bs, iv0, data[..pos + |r.0|]) == (done.0 + r.0, r.1)
  {
    hide Chain, Left;
    var iv := Chain(dec, fn, bs, iv0, data[..pos]).1;
    var chunk := data[pos..pos + n];
    var k := |Chain(dec, fn, bs, iv, chunk).0|;
    LeftIsSmall(n, bs);
    LeftBack(n, bs);
    LeftSum(pos, k, bs);
    ChainWhole(dec, fn, bs, iv, chunk, k);
    assert chunk[..k] == data[pos..pos + k];
    assert data[..pos] + data[pos..pos + k] == data[..pos + k];
    ChainSplit(dec, fn, bs, iv0, data[..pos], data[pos..pos + k]);
  }

  lemma ChainedMore(dec: bool, fn: Bytes -> Bytes, bs: nat, iv0: Bytes, data: Bytes, m0: Bytes,
                      src: seq<Sg>, dst: seq<Sg>, pos: nat, m: Bytes, iv: Bytes, n: nat, m1: Bytes)
    requires IsCipher(fn, bs) && |iv0| == bs && Lists(src, dst, |m0|, |data|)
    requires ChainedTo(dec, fn, bs, iv0, data, m0, src, dst, pos, m, iv) && bs <= n <= |data| - pos
    requires |iv| == bs && |m1| == |m0|
    requires var r := Chain(dec, fn, bs, iv, Gather(m, src, pos, n));
             Spread(m, m1, dst, pos, r.0)
    ensures var r := Chain(dec, fn, bs, iv, Gather(m, src, pos, n));
            ChainedTo(dec, fn, bs, iv0, data, m0, src, dst, pos + |r.0|, m1, r.1)
  {
    hide Spread, Chain, Xor, AddrOf, Distinct, Related, ListOk;
    var r := Chain(dec, fn, bs, iv, Gather(m, src, pos, n));
    var k := |r.0|;
    FrontOf(m, src, pos, n, |data| - pos, data);
    ChainOn(dec, fn, bs, iv0, data, pos, n);
    SpreadThen(m0, m, m1, dst, 0, Chain(dec, fn, bs, iv0, data[..pos]).0, r.0);
    SourceAhead(m, m1, src, dst, pos, r.0, |data| - pos - k);
    BackOf(m, src, pos, k, |data| - pos, data);
  }

  lemma FrontOf(m: Bytes, src: seq<Sg>, p: nat, n: nat, all: nat, data: Bytes)
    requires ListOk(src, |m|) && n <= all && p + all <= Total(src) && |data| == p + all
    requires Gather(m, src, p, all) == data[p..]
    ensures Gather(m, src, p, n) == data[p..p + n]
  {
    GatherThen(m, src, p, n, all - n);
    hide Gather, AddrOf;
    assert data[p..][..n] == data[p..p + n];
    assert (Gather(m, src, p, n) + Gather(m, src, p + n, all - n))[..n] == Gather(m, src, p, n);
  }

  lemma BackOf(m: Bytes, src: seq<Sg>, p: nat, n: nat, all: nat, data: Bytes)
    requires ListOk(src, |m|) && n <= all && p + all <= Total(src) && |data| == p + all
    requires Gather(m, src, p, all) == data[p..]
    ensures Gather(m, src, p + n, all - n) == data[p + n..]
  {
    GatherThen(m, src, p, n, all - n);
    hide Gather, AddrOf;
    assert data[p..][n..] == data[p + n..];
    assert (Gather(m, src, p, n) + Gather(m, src, p + n, all - n))[n..] == Gather(m, src, p + n, all - n);
  }

  /** What a buffer holds where it was written. */
  lemma BufferWorked(before: Bytes, after: Bytes, at: nat, out: Bytes)
    requires at + |out| <= |before| && after == Patch(before, at, out)
    ensures after[at..at + |out|] == out
    ensures at == 0 ==> after[..|out|] == out
  {
  }

  lemma BlockLeft(bs: nat, n: nat)
    requires bs > 0 && n >= bs
    ensures Left(bs, bs) == 0 && n - Left(n, bs) >= bs
  {
  }

  /** The choice between the four loops. */
  method CryptStretch(dec: bool, fn: Bytes -> Bytes, bs: nat, from: array<bv8>, fromAt: nat,
                      to: array<bv8>, toAt: nat, n: nat, iv0: Bytes) returns (left: nat, iv: Bytes)
    requires IsCipher(fn, bs) && |iv0| == bs && n >= bs && fromAt + n <= from.Length && toAt + n <= to.Length
    requires (from == to && fromAt == toAt) || Apart(from, fromAt, to, toAt, n)
    modifies to
    ensures left == Left(n, bs)
    ensures var r := Chain(dec, fn, bs, iv0, old(from[fromAt..fromAt + n]));
            to[..] == Patch(old(to[..]), toAt, r.0) && iv == r.1
  {
    hide Enc, Dec, Patch, Left;
    if from == to && fromAt == toAt {
      if dec {
        left, iv := DecryptInplace(fn, bs, to, toAt, n, iv0);
      } else {
        left, iv := EncryptInplace(fn, bs, to, toAt, n, iv0);
      }
    } else if dec {
      left, iv := DecryptSegment(fn, bs, from, fromAt, to, toAt, n, iv0);
    } else {
      left, iv := EncryptSegment(fn, bs, from, fromAt, to, toAt, n, iv0);
    }
  }

  /** One pass of the loop in crypto_cbc_encrypt, with the buffers the walk has set up. */
  method CryptBuffer(dec: bool, fn: Bytes -> Bytes, walk: Walk, iv0: Bytes) returns (left: nat, iv: Bytes)
    requires IsCipher(fn, walk.bs) && |iv0| == walk.bs && walk.Loaded()
    modifies walk.io.to
    ensures left == Left(walk.nbytes, walk.bs)
    ensures var r := Chain(dec, fn, walk.bs, iv0, old(Gather(walk.mem[..], walk.src, walk.pos, walk.nbytes)));
            iv == r.1 && walk.Worked(old(walk.mem[..]), r.0) && |r.0| + left == walk.nbytes
  {
    hide Chain, Gather, ListOk, Distinct, Related, AddrOf, At, PageLen, Patch, Left, Apart;
    ghost var before := walk.io.to[..];
    ghost var r := Chain(dec, fn, walk.bs, iv0, Gather(walk.mem[..], walk.src, walk.pos, walk.nbytes));
    hide Walk.Sound, Walk.Reachable, Lists;
    var io := walk.io;
    left, iv := CryptStretch(dec, fn, walk.bs, io.from, io.fromAt, io.to, io.toAt, walk.nbytes, iv0);
    BlockLeft(walk.bs, walk.nbytes);
    ghost var to := walk.io.to;
    BufferWorked(before, to[..], walk.io.toAt, r.0);
    assert to[walk.io.toAt..walk.io.toAt + |r.0|] == to[..][walk.io.toAt..walk.io.toAt + |r.0|];
    assert to[..|r.0|] == to[..][..|r.0|];
  }

  /** What the walk object of one request is between two passes. */
  ghost predicate Between(walk: Walk, mem: array<bv8>, bs: nat, src: seq<Sg>, dst: seq<Sg>, n: nat, err: int)
    reads walk, mem, walk.io.from
  {
    && walk.mem == mem && walk.bs == bs && walk.src == src && walk.dst == dst && walk.size == n
    && walk.align > 0
    && walk.pos <= n
    && (if walk.nbytes > 0 then walk.Loaded() && err == 0
        else
          || (err == ENOMEM && walk.StarvedAt(n - walk.pos))
          || (n - walk.pos < bs && err == if n == walk.pos then 0 else EINVAL))
  }

  method CryptPass(dec: bool, fn: Bytes -> Bytes, walk: Walk, iv0: Bytes) returns (err: int, iv: Bytes)
    requires IsCipher(fn, walk.bs) && |iv0| == walk.bs
    requires Between(walk, walk.mem, walk.bs, walk.src, walk.dst, walk.size, 0) && walk.nbytes > 0
    modifies walk, walk.mem, walk.io.to, walk.page, walk.buffer
    ensures Between(walk, walk.mem, walk.bs, walk.src, walk.dst, walk.size, err)
    ensures walk.page == old(walk.page) || fresh(walk.page)
    ensures walk.buffer == old(walk.buffer) || walk.buffer == walk.page || fresh(walk.buffer)
    ensures var r := Chain(dec, fn, walk.bs, iv0, old(Gather(walk.mem[..], walk.src, walk.pos, walk.nbytes)));
            && iv == r.1 && Spread(old(walk.mem[..]), walk.mem[..], walk.dst, old(walk.pos), r.0)
            && walk.pos == old(walk.pos) + |r.0|
    ensures walk.total < old(walk.total)
  {
    hide Chain, Gather, ListOk, Distinct, Related, AddrOf, At, PageLen, Patch, Spread, Left, Walk.Fixed, Walk.Owned;
    ghost var m := walk.mem[..];
    ghost var r := Chain(dec, fn, walk.bs, iv0, Gather(m, walk.src, walk.pos, walk.nbytes));
    var left;
    left, iv := CryptBuffer(dec, fn, walk, iv0);
    err := walk.Finish(m, r.0, left);
  }

  method Begin(bs: nat, align: nat, place: Place, mem: array<bv8>, dst: seq<Sg>, src: seq<Sg>, n: nat)
    returns (walk: Walk, err: int)
    requires Lists(src, dst, mem.Length, n) && AlgSizes(bs, align) && Roomy(place, bs, align)
    requires place.ivAligned || place.ivGranted
    ensures fresh(walk) && walk.place == place && walk.align == align > 0 && walk.pos == 0
    ensures Between(walk, mem, bs, src, dst, n, err) && mem[..] == old(mem[..])
    ensures (walk.page == null || fresh(walk.page)) && (walk.buffer == null || fresh(walk.buffer))
  {
    assert align > 0;
    hide Gather, ListOk, Distinct, Related, AddrOf, At, PageLen, AlgSizes, Roomy, Walk.Sound, Walk.Placed, Walk.Starved;
    walk := new Walk(mem, bs, align, place, dst, src, n);
    err := walk.First();
  }

  /** The loop over the stretches that the walk offers. */
  method Drive(dec: bool, fn: Bytes -> Bytes, walk: Walk, err0: int, iv0: Bytes) returns (err: int, iv: Bytes)
    requires IsCipher(fn, walk.bs) && |iv0| == walk.bs && walk.pos == 0
    requires Lists(walk.src, walk.dst, walk.mem.Length, walk.size)
    requires Between(walk, walk.mem, walk.bs, walk.src, walk.dst, walk.size, err0)
    modifies walk, walk.mem, walk.page, walk.buffer
    ensures Between(walk, walk.mem, walk.bs, walk.src, walk.dst, walk.size, err) && walk.nbytes == 0
    ensures var data := old(Gather(walk.mem[..], walk.src, 0, walk.size));
            ChainedTo(dec, fn, walk.bs, iv0, data, old(walk.mem[..]), walk.src, walk.dst, walk.pos, walk.mem[..], iv)
  {
    hide Chain, Gather, Spread, Left, ChainedTo, ListOk, Distinct, Related, AddrOf, At, PageLen;
    hide Walk.Placed, Walk.Sound, Walk.StarvedAt;
    ghost var m0 := walk.mem[..];
    ghost var data := Gather(m0, walk.src, 0, walk.size);
    ChainedNone(dec, fn, walk.bs, iv0, data, m0, walk.src, walk.dst);
    iv, err := iv0, err0;
    while walk.nbytes > 0
      invariant Between(walk, walk.mem, walk.bs, walk.src, walk.dst, walk.size, err)
      invariant walk.page == old(walk.page) || fresh(walk.page)
      invariant walk.buffer == old(walk.buffer) || walk.buffer == old(walk.page) || fresh(walk.buffer)
      invariant |iv| == walk.bs
      invariant ChainedTo(dec, fn, walk.bs, iv0, data, m0, walk.src, walk.dst, walk.pos, walk.mem[..], iv)
      decreases walk.total
    {
      ghost var m, p, k, v := walk.mem[..], walk.pos, walk.nbytes, iv;
      walk.PlacedWhere();
      err, iv := CryptPass(dec, fn, walk, iv);
      ChainedMore(dec, fn, walk.bs, iv0, data, m0, walk.src, walk.dst, p, m, v, k, walk.mem[..]);
    }
  }

  /** After done bytes, walkers that stand there could only go on through a scratch buffer, and none was to
      be had. */
  ghost predicate RefusedAt(p: Place, src: seq<Sg>, dst: seq<Sg>, bs: nat, align: nat, left: nat, done: nat)
    requires align > 0
  {
    left >= bs && !p.buffers(left) && exists v, w :: StoppedAt(p, v, w, src, dst, bs, align, left, done)
  }

  ghost predicate StoppedAt(p: Place, v: Walker, w: Walker, src: seq<Sg>, dst: seq<Sg>, bs: nat, align: nat,
                            left: nat, done: nat)
    requires align > 0
  {
    && v.sg == src && w.sg == dst && At(v, done) && At(w, done)
    && OneBlock(p, v, w, bs, align, false, left) && !(Misaligned(v, w, align) && p.pages(left))
  }

  lemma Stopped(walk: Walk, left: nat)
    requires walk.StarvedAt(left)
    ensures walk.align > 0
    ensures RefusedAt(walk.place, walk.src, walk.dst, walk.bs, walk.align, left, walk.pos)
  {
    hide At, Reach, Misaligned;
    assert StoppedAt(walk.place, walk.inw, walk.outw, walk.src, walk.dst, walk.bs, walk.align, left, walk.pos);
  }

  /** The body crypto_cbc_encrypt and crypto_cbc_decrypt share: for every way of cutting source and
      destination into entries, the destination bytes become the flat result and nothing else in
      memory changes.  Without memory for a scratch buffer it stops at a whole block. */
  method Crypt(dec: bool, fn: Bytes -> Bytes, bs: nat, align: nat, place: Place, mem: array<bv8>,
               dst: seq<Sg>, src: seq<Sg>, n: nat, iv0: Bytes) returns (err: int, iv: Bytes, ghost done: nat)
    requires IsCipher(fn, bs) && |iv0| == bs && Lists(src, dst, mem.Length, n)
    requires AlgSizes(bs, align) && Roomy(place, bs, align) && (place.ivAligned || place.ivGranted)
    modifies mem
    ensures done <= n && Left(done, bs) == 0
    ensures err == ENOMEM || (done == n - Left(n, bs) && err == if done == n then 0 else EINVAL)
    ensures align > 0 && (err == ENOMEM ==> RefusedAt(place, src, dst, bs, align, n - done, done))
    ensures (forall left :: place.buffers(left)) ==> err != ENOMEM && done == n - n % bs
    ensures var r := Chain(dec, fn, bs, iv0, old(Gather(mem[..], src, 0, n))[..done]);
            Spread(old(mem[..]), mem[..], dst, 0, r.0) && iv == r.1
    ensures err != ENOMEM ==>
      var data := old(Gather(mem[..], src, 0, n));
      Chain(dec, fn, bs, iv0, data[..done]) == Chain(dec, fn, bs, iv0, data)
  {
    hide Chain, Gather, Spread, Left, ChainedTo, ListOk, Distinct, Related, AddrOf, At, PageLen, AlgSizes, Roomy;
    hide Walk.Placed, Walk.Sound, Walk.Starved, Walk.Loaded;
    ghost var m0 := mem[..];
    ghost var data := Gather(m0, src, 0, n);
    var walk;
    walk, err := Begin(bs, align, place, mem, dst, src, n);
    err, iv := Drive(dec, fn, walk, err, iv0);
    done := walk.pos;
    if err == ENOMEM { Stopped(walk, n - done); }
    LeftIsMod(n, bs);
    ChainedAll(dec, fn, bs, iv0, data, m0, src, dst, done, mem[..], iv);
  }

  /** crypto_cbc_encrypt */
  method CbcEncrypt(fn: Bytes -> Bytes, bs: nat, align: nat, place: Place, mem: array<bv8>,
                    dst: seq<Sg>, src: seq<Sg>, n: nat, iv0: Bytes) returns (err: int, iv: Bytes, ghost done: nat)
    requires IsCipher(fn, bs) && |iv0| == bs && Lists(src, dst, mem.Length, n)
    requires AlgSizes(bs, align) && Roomy(place, bs, align) && (place.ivAligned || place.ivGranted)
    modifies mem
    ensures done <= n && Left(done, bs) == 0
    ensures err == ENOMEM || (done == n - Left(n, bs) && err == if done == n then 0 else EINVAL)
    ensures align > 0 && (err == ENOMEM ==> RefusedAt(place, src, dst, bs, align, n - done, done))
    ensures (forall left :: place.buffers(left)) ==> err != ENOMEM && done == n - n % bs
    ensures var r := Enc(fn, bs, iv0, old(Gather(mem[..], src, 0, n))[..done]);
            Spread(old(mem[..]), mem[..], dst, 0, r.0) && iv == r.1
    ensures err != ENOMEM ==>
      var r := Enc(fn, bs, iv0, old(Gather(mem[..], src, 0, n)));
      |r.0| == done && Spread(old(mem[..]), mem[..], dst, 0, r.0) && iv == r.1
  {
    hide Enc, Dec, Gather, Spread, Left, Distinct, AddrOf, AlgSizes, Roomy;
    err, iv, done := Crypt(false, fn, bs, align, place, mem, dst, src, n, iv0);
  }

  /** crypto_cbc_decrypt */
  method CbcDecrypt(fn: Bytes -> Bytes, bs: nat, align: nat, place: Place, mem: array<bv8>,
                    dst: seq<Sg>, src: seq<Sg>, n: nat, iv0: Bytes) returns (err: int, iv: Bytes, ghost done: nat)
    requires IsCipher(fn, bs) && |iv0| == bs && Lists(src, dst, mem.Length, n)
    requires AlgSizes(bs, align) && Roomy(place, bs, align) && (place.ivAligned || place.ivGranted)
    modifies mem
    ensures done <= n && Left(done, bs) == 0
    ensures err == ENOMEM || (done == n - Left(n, bs) && err == if done == n then 0 else EINVAL)
    ensures align > 0 && (err == ENOMEM ==> RefusedAt(place, src, dst, bs, align, n - done, done))
    ensures (forall left :: place.buffers(left)) ==> err != ENOMEM && done == n - n % bs
    ensures var r := Dec(fn, bs, iv0, old(Gather(mem[..], src, 0, n))[..done]);
            Spread(old(mem[..]), mem[..], dst, 0, r.0) && iv == r.1
    ensures err != ENOMEM ==>
      var r := Dec(fn, bs, iv0, old(Gather(mem[..], src, 0, n)));
      |r.0| == done && Spread(old(mem[..]), mem[..], dst, 0, r.0) && iv == r.1
  {
    hide Enc, Dec, Gather, Spread, Left, Distinct, AddrOf, AlgSizes, Roomy;
    err, iv, done := Crypt(true, fn, bs, align, place, mem, dst, src, n, iv0);
  }

  lemma ChainedNone(dec: bool, fn: Bytes -> Bytes, bs: nat, iv0: Bytes, data: Bytes, m0: Bytes, src: seq<Sg>,
    dst: seq<Sg>)
    requires IsCipher(fn, bs) && |iv0| == bs && Lists(src, dst, |m0|, |data|) && data == Gather(m0, src, 0, |data|)
    ensures ChainedTo(dec, fn, bs, iv0, data, m0, src, dst, 0, m0, iv0)
  {
    SpreadNothing(m0, dst, 0);
    assert data[..0] == [] && data[0..] == data;
  }

  lemma ChainedAll(dec: bool, fn: Bytes -> Bytes, bs: nat, iv0: Bytes, data: Bytes, m0: Bytes,
                     src: seq<Sg>, dst: seq<Sg>, pos: nat, m: Bytes, iv: Bytes)
    requires IsCipher(fn, bs) && |iv0| == bs && Lists(src, dst, |m0|, |data|)
    requires ChainedTo(dec, fn, bs, iv0, data, m0, src, dst, pos, m, iv)
    ensures pos <= |data| && Left(pos, bs) == 0
    ensures var r := Chain(dec, fn, bs, iv0, data[..pos]);
            Spread(m0, m, dst, 0, r.0) && iv == r.1
    ensures |data| - pos < bs ==>
      Chain(dec, fn, bs, iv0, data[..pos]) == Chain(dec, fn, bs, iv0, data) && Left(|data|, bs) == |data| - pos
  {
    hide Chain, Spread, Gather;
    if |data| - pos < bs {
      ChainWhole(dec, fn, bs, iv0, data, pos);
    }
  }
}
