/** The walk of crypto/blkcipher.c over a source and a destination list. */
module BlkcipherWalk {
  import opened CbcSpec
  import opened CbcLoops
  import opened Scatter
  import opened Spots

  const EINVAL: int := -22
  const ENOMEM: int := -12

  /** What the walk is given by its caller and by the allocators: whether the initial vector is aligned,
      whether a buffer for its copy can be had, the address of the buffer, the bytes added to its size
      for alignment, the number of the bounce page, and whether a bounce page and a scratch buffer can
      be had with so many bytes left to do. */
  datatype Place = Place(ivAligned: bool, ivGranted: bool, buffer: nat, slack: nat, page: nat,
                         pages: nat -> bool, buffers: nat -> bool)

  /** The size that blkcipher_next_slow asks for, or blkcipher_copy_iv before it. */
  function BufferSize(p: Place, bs: nat, align: nat): nat
    requires AlgSizes(bs, align)
  {
    if p.ivAligned then 2 * bs + p.slack else AlignSmall(bs, align); 4 * bs - align + p.slack
  }

  lemma AlignSmall(bs: nat, align: nat)
    requires AlgSizes(bs, align)
    ensures align <= bs
  {
  }

  /** The buffer lies so that everything put into it is inside. */
  predicate Roomy(p: Place, bs: nat, align: nat)
    requires AlgSizes(bs, align)
  {
    var size := BufferSize(p, bs, align);
    if p.ivAligned then SpotsFit(p.buffer, size, bs, align) else IvFits(p.buffer, size, bs, align)
  }

  lemma RoomForBlocks(p: Place, bs: nat, align: nat)
    requires AlgSizes(bs, align) && Roomy(p, bs, align)
    ensures SpotsFit(p.buffer, BufferSize(p, bs, align), bs, align)
  {
    hide Spot, Aligned, BufferSize;
    SpotsApart(p.buffer, bs, align);
  }

  /** Exactly when there is room: padding and what is skipped of a page are within the slack, of which
      a copied initial vector brings some of its own. */
  lemma RoomyIff(p: Place, bs: nat, align: nat)
    requires AlgSizes(bs, align)
    ensures align <= bs
    ensures var a := Aligned(p.buffer, align);
            Roomy(p, bs, align) <==>
              if p.ivAligned then a - p.buffer + SkippedByTwo(a % PAGE, bs) <= p.slack
              else a - p.buffer + SkippedByThree(a % PAGE, bs) <= p.slack + bs - align
  {
    AlignSmall(bs, align);
    hide SpotsFit, IvFits, SkippedByTwo, SkippedByThree, Aligned;
    SpotsFitIff(p.buffer, bs, align, p.slack);
    IvFitsIff(p.buffer, bs, align, p.slack + bs - align);
  }

  /** Source and destination are the same list or share no byte. */
  ghost predicate Related(src: seq<Sg>, dst: seq<Sg>) {
    src == dst || forall i: nat, j: nat :: i < Total(src) && j < Total(dst) ==> AddrOf(src, i) != AddrOf(dst, j)
  }

  ghost predicate Lists(src: seq<Sg>, dst: seq<Sg>, memory: nat, size: nat) {
    && ListOk(src, memory) && ListOk(dst, memory) && Distinct(dst) && Related(src, dst)
    && size <= Total(src) && size <= Total(dst) && src != [] && dst != []
  }

  /** Two walkers inside their entries at the same byte of one list are the same. */
  lemma SameSpot(v: Walker, w: Walker, p: nat)
    requires v.sg == w.sg && At(v, p) && At(w, p) && v.offset < End(v) && w.offset < End(w)
    ensures v == w
  {
    BeforeStep(v.sg, v.idx);
    BeforeStep(w.sg, w.idx);
    if v.idx < w.idx { BeforeGrows(v.sg, v.idx + 1, w.idx); }
    if w.idx < v.idx { BeforeGrows(v.sg, w.idx + 1, v.idx); }
  }

  /** Stretches that source and destination walkers reach are the same or apart. */
  lemma StretchesApart(src: seq<Sg>, dst: seq<Sg>, v: Walker, w: Walker, p: nat, n: nat, m: Bytes)
    requires Related(src, dst) && v.sg == src && w.sg == dst && At(v, p) && At(w, p)
    requires 0 < n <= PageLen(v) && n <= PageLen(w) && ListOk(src, |m|) && ListOk(dst, |m|)
    ensures Address(v) == Address(w) || Address(v) + n <= Address(w) || Address(w) + n <= Address(v)
  {
    if src == dst {
      SameSpot(v, w, p);
    } else {
      Contiguous(v, p, 0);
      Contiguous(w, p, 0);
      if Address(v) <= Address(w) < Address(v) + n {
        Contiguous(v, p, Address(w) - Address(v));
      }
      if Address(w) <= Address(v) < Address(w) + n {
        Contiguous(w, p, Address(v) - Address(w));
      }
    }
  }

  /** Writing the destination from p on leaves the source from p + |out| on as it was. */
  lemma SourceAhead(m: Bytes, m1: Bytes, src: seq<Sg>, dst: seq<Sg>, p: nat, out: Bytes, n: nat)
    requires Lists(src, dst, |m|, p + |out| + n) && Spread(m, m1, dst, p, out)
    ensures Gather(m1, src, p + |out|, n) == Gather(m, src, p + |out|, n)
  {
    var g, h := Gather(m1, src, p + |out|, n), Gather(m, src, p + |out|, n);
    forall i | 0 <= i < n ensures g[i] == h[i] {
      var q: nat := p + |out| + i;
      assert Outside(dst, p, |out|, AddrOf(src, q));
    }
  }

  /** memcpy of a stretch to the front of a page. */
  method CopyStretch(mem: array<bv8>, w: Walker, ghost p: nat, n: nat, page: array<bv8>)
    requires ListOk(w.sg, mem.Length) && At(w, p) && 0 < n <= PageLen(w) && n <= page.Length && page != mem
    modifies page
    ensures p + n <= Total(w.sg) && page[0..n] == Gather(mem[..], w.sg, p, n)
  {
    hide ListOk, Gather;
    GatherStretch(mem[..], w, p, n);
    var a := Address(w);
    Store(page, 0, mem[a..a + n]);
    PatchIn(old(page[..]), 0, mem[a..a + n]);
    assert page[0..n] == page[..][0..n];
  }

  method StoreBlock(buffer: array<bv8>, at: nat, data: Bytes)
    requires at + |data| <= buffer.Length
    modifies buffer
    ensures buffer[at..at + |data|] == data
  {
    Store(buffer, at, data);
    PatchIn(old(buffer[..]), at, data);
    assert buffer[at..at + |data|] == buffer[..][at..at + |data|];
  }

  /** What both walkers reach from where they stand. */
  lemma FastStretches(m: Bytes, v: Walker, w: Walker, src: seq<Sg>, dst: seq<Sg>, size: nat, p: nat, n: nat)
    requires Lists(src, dst, |m|, size) && v.sg == src && w.sg == dst && At(v, p) && At(w, p)
    requires 0 < n <= PageLen(v) && n <= PageLen(w)
    ensures p + n <= Total(src) && Address(v) + n <= |m| && Address(w) + n <= |m|
    ensures Address(v) == Address(w) || Address(v) + n <= Address(w) || Address(w) + n <= Address(v)
    ensures m[Address(v)..Address(v) + n] == Gather(m, src, p, n)
  {
    hide ListOk, Distinct, Related, Gather;
    GatherStretch(m, v, p, n);
    GatherStretch(m, w, p, n);
    StretchesApart(src, dst, v, w, p, n, m);
  }

  /** Either walker stands where the cipher cannot work in place. */
  predicate Misaligned(v: Walker, w: Walker, align: nat)
    requires align > 0
  {
    v.offset % align != 0 || w.offset % align != 0
  }

  /** Inside an entry or at its end. */
  predicate OnEntry(w: Walker) { w.idx < |w.sg| && w.offset <= End(w) }

  /** How far both walkers get in their pages. */
  function Reach(v: Walker, w: Walker): nat {
    if !OnEntry(v) || !OnEntry(w) then 0 else if PageLen(v) < PageLen(w) then PageLen(v) else PageLen(w)
  }

  /** With left bytes to go, a block can only be done through a scratch buffer. */
  predicate OneBlock(p: Place, v: Walker, w: Walker, bs: nat, align: nat, page: bool, left: nat)
    requires align > 0
  {
    Reach(v, w) < bs || (Misaligned(v, w, align) && !page && !p.pages(left))
  }

  /** How the current stretch was set up, if it was. */
  datatype Mode = Unset | Fast | Copied | Slow

  /** Where to read and where to write: two buffers and a position in each. */
  datatype Stretch = Stretch(from: array<bv8>, fromAt: nat, to: array<bv8>, toAt: nat)

  class Walk {
    const mem: array<bv8>
    const bs: nat
    const align: nat            // alignmask + 1
    const src: seq<Sg>
    const dst: seq<Sg>
    const place: Place
    var inw: Walker
    var outw: Walker
    var total: nat
    var nbytes: nat
    var mode: Mode
    var io: Stretch             // walk->src.virt.addr and walk->dst.virt.addr
    var page: array?<bv8>
    var buffer: array?<bv8>     // walk->buffer and its address
    var base: nat
    ghost var pos: nat          // bytes of the lists dealt with so far
    ghost const size: nat

    ghost predicate Fixed() {
      AlgSizes(bs, align) && Roomy(place, bs, align) && Lists(src, dst, mem.Length, size)
    }

    /** The bounce page and the scratch buffer, as far as there are any. */
    ghost predicate Owned()
      reads this`page, this`buffer, this`base
    {
      && align > 0
      && (page != null ==> page != mem && page.Length == PAGE)
      && (buffer != null ==> buffer != mem && SpotsFit(base, buffer.Length, bs, align))
    }

    ghost predicate Sound()
      reads this
    {
      && bs > 0 && align > 0 && Lists(src, dst, mem.Length, size) && Fixed() && Owned()
      && inw.sg == src && outw.sg == dst && At(outw, pos)
    }

    /** Between steps: both walkers stand at byte pos. */
    ghost predicate Resting()
      reads this
    {
      Sound() && At(inw, pos) && pos + total == size
    }

    /** Where the next nbytes bytes of source and destination can be worked on. */
    ghost predicate Placed()
      reads this
    {
      && Sound() && bs <= nbytes <= total && pos + total == size
      && io.fromAt + nbytes <= io.from.Length && io.toAt + nbytes <= io.to.Length
      && ((io.from == io.to && io.fromAt == io.toAt) || Apart(io.from, io.fromAt, io.to, io.toAt, nbytes))
      && match mode
         case Slow => nbytes == bs && At(inw, pos + bs) && io.to != mem && io.to == buffer
         case Copied => Reachable() && io.to != mem && io.to == page && io.toAt == 0
         case Unset => false
         case Fast => Reachable() && io.from == mem && io.to == mem && io.toAt == Address(outw)
    }

    /** Both walkers stand at byte pos and reach nbytes bytes. */
    ghost predicate Reachable()
      reads this
    {
      && At(inw, pos) && outw.idx < |outw.sg| && outw.offset <= End(outw)
      && nbytes <= PageLen(inw) && nbytes <= PageLen(outw)
    }

    lemma PlacedWhere()
      requires Placed()
      ensures io.to == mem || io.to == page || io.to == buffer
      ensures bs <= nbytes <= size - pos
    {
    }

    /** The source bytes to work on are those of the list. */
    ghost predicate Loaded()
      reads this, mem, io.from
    {
      Placed() && io.from[io.fromAt..io.fromAt + nbytes] == Gather(mem[..], src, pos, nbytes)
    }

    /** blkcipher_walk_init, lists covering size bytes. */
    constructor (mem: array<bv8>, bs: nat, align: nat, place: Place, dst: seq<Sg>, src: seq<Sg>, size: nat)
      requires AlgSizes(bs, align) && Roomy(place, bs, align) && Lists(src, dst, mem.Length, size)
      ensures this.mem == mem && this.bs == bs && this.align == align && this.src == src && this.dst == dst
      ensures this.size == size && this.place == place && Resting() && pos == 0 && total == size && nbytes == 0
      ensures page == null && buffer == null && mode == Unset
    {
      this.mem, this.bs, this.align, this.src, this.dst, this.size := mem, bs, align, src, dst, size;
      this.place := place;
      inw, outw, total, nbytes, pos := Start(src), Start(dst), size, 0, 0;
      mode, io, page, buffer, base := Unset, Stretch(mem, 0, mem, 0), null, null, 0;
    }

    /** blkcipher_walk_first: a misaligned initial vector is copied to a buffer.  When that cannot be
        had, all bytes stay claimed although no stretch has been set up. */
    method First() returns (err: int)
      requires Resting() && page == null && buffer == null && mode == Unset && nbytes == 0
      modifies this
      ensures pos == old(pos) && mem[..] == old(mem[..]) && Sound() && (page == null || fresh(page))
      ensures buffer == null || fresh(buffer)
      ensures var granted := place.ivAligned || place.ivGranted;
              && (old(total) == 0 ==> err == 0 && nbytes == 0)
              && (old(total) > 0 && !granted ==> err == ENOMEM && nbytes == old(total) && mode == Unset)
              && (old(total) > 0 && granted ==> Going(err, old(total)))
      ensures nbytes > 0 ==> (mode != Unset <==> place.ivAligned || place.ivGranted)
      ensures err == ENOMEM && (place.ivAligned || place.ivGranted) ==> StarvedAt(old(total))
    {
      nbytes := total;
      if total == 0 {
        return 0;
      }
      if !place.ivAligned {
        if !place.ivGranted {
          return ENOMEM;
        }
        RoomForBlocks(place, bs, align);
        hide Roomy, SpotsFit, Lists, At;
        buffer, base := new bv8[BufferSize(place, bs, align)], place.buffer;
      }
      err := Next();
    }

    /** A scratch buffer is needed for the next block, there is none, no bounce page can serve as one,
        and none is to be had. */
    ghost predicate Starved(left: nat)
      reads this
    {
      && align > 0 && OneBlock(place, inw, outw, bs, align, page != null, left)
      && buffer == null && page == null && !(Misaligned(inw, outw, align) && place.pages(left))
      && !place.buffers(left)
    }

    /** Where the walkers were when it was refused. */
    ghost predicate StarvedAt(left: nat)
      reads this
    {
      && Starved(left) && left >= bs && inw.sg == src && outw.sg == dst
      && OnEntry(inw) && OnEntry(outw) && At(inw, pos) && At(outw, pos)
    }

    /** What a step that had left bytes to go leads to: the next stretch, a rest too short for a
        block, or no memory for a scratch buffer. */
    ghost predicate Going(err: int, left: nat)
      reads this, mem, io.from
    {
      || (left >= bs && err == 0 && total == left && Loaded())
      || (left < bs && err == EINVAL && nbytes == 0 && total == 0)
      || (left >= bs && err == ENOMEM && nbytes == 0 && total == 0)
    }

    /** blkcipher_next_slow: one block through the scratch buffer, which is the bounce page if there is
        one. */
    method NextSlow() returns (err: int)
      requires Resting() && bs <= total
      modifies this, page, buffer
      ensures page == old(page) && pos == old(pos) && mem[..] == old(mem[..]) && Sound()
      ensures buffer == old(buffer) || buffer == page || fresh(buffer)
      ensures Going(err, old(total)) && (err == 0 ==> mode == Slow)
      ensures err == ENOMEM <==> old(buffer == null && page == null && !place.buffers(total))
      ensures err == ENOMEM ==> inw == old(inw) && outw == old(outw) && buffer == null
    {
      hide At, ListOk, Distinct, Related, Gather, SpotsFit, Roomy, Lists, Before, Total, AlgSizes, BufferSize;
      err := 0;
      if buffer == null {
        if page != null {
          PageFits(place.page, bs, align);
          buffer, base := page, place.page * PAGE;
        } else {
          if !place.buffers(total) {
            total, nbytes := 0, 0;
            return ENOMEM;
          }
          RoomForBlocks(place, bs, align);
          buffer, base := new bv8[BufferSize(place, bs, align)], place.buffer;
        }
      }
      LoadBlock();
    }

    /** The block goes from the source list to its spot in the buffer. */
    method LoadBlock()
      requires Resting() && bs <= total && buffer != null
      modifies this`inw, this`nbytes, this`mode, this`io, buffer
      ensures Loaded() && mode == Slow && mem[..] == old(mem[..])
    {
      hide At, ListOk, Distinct, Related, Gather, Fixed, OutSpot, InSpot, Walk.Owned;
      ghost var m := mem[..];
      var out, into := SpotsInBuffer();
      var data, w := CopyIn(mem, inw, bs, pos);
      StoreBlock(buffer, into, data);
      hide Lists, Before, Total;
      inw, nbytes, mode, io := w, bs, Slow, Stretch(buffer, into, buffer, out);
      assert mem[..] == m && Sound();
      hide Walk.Sound;
      assert Placed();
      hide Walk.Placed;
    }

    /** ALIGN and blkcipher_get_spot */
    method SpotsInBuffer() returns (out: nat, into: nat)
      requires bs > 0 && Owned() && buffer != null
      ensures out + bs <= into && into + bs <= buffer.Length && buffer != mem
      ensures base + out == OutSpot(base, bs, align) && base + into == InSpot(base, bs, align)
    {
      hide OutSpot, InSpot;
      SpotsApart(base, bs, align);
      out, into := OutSpot(base, bs, align) - base, InSpot(base, bs, align) - base;
    }

    /** blkcipher_next_copy: work on a copy of the source in a page of our own. */
    method NextCopy(n: nat)
      requires Resting() && bs <= n <= total && n <= Reach(inw, outw) && page != null
      modifies this`nbytes, this`mode, this`io, page
      ensures Loaded() && mode == Copied && nbytes == n && mem[..] == old(mem[..])
    {
      hide ListOk, Distinct, Related, Gather, Fixed;
      ghost var m := mem[..];
      CopyStretch(mem, inw, pos, n, page);
      hide At, PageLen, Address, Before, Total, Lists, Walk.Owned;
      nbytes, mode, io := n, Copied, Stretch(page, 0, page, 0);
      assert mem[..] == m && Sound();
      hide Walk.Sound;
      assert Placed();
      hide Walk.Placed;
    }

    /** blkcipher_next_fast: work on the pages themselves. */
    method NextFast(n: nat)
      requires Resting() && bs <= n <= total && n <= Reach(inw, outw)
      modifies this`nbytes, this`mode, this`io
      ensures Loaded() && mode == Fast && nbytes == n
    {
      ghost var m := mem[..];
      Inside();
      hide ListOk, Distinct, Related, Gather, Fixed, PageLen, At, Lists, Before, Total, Walk.Owned;
      FastStretches(m, inw, outw, src, dst, size, pos, n);
      var a, b := Address(inw), Address(outw);
      assert mem[a..a + n] == m[a..a + n];
      nbytes, mode, io := n, Fast, Stretch(mem, a, mem, b);
      assert mem[..] == m && Sound();
      hide Walk.Sound;
      assert Placed();
      hide Walk.Placed;
    }

    /** How a stretch was chosen that could only go block by block, or else n bytes far. */
    ghost predicate Chosen(one: bool, unaligned: bool, n: nat)
      reads this
    {
      && (mode == Slow <==> one)
      && (mode == Copied <==> !one && unaligned)
      && (!one ==> nbytes == n)
    }

    /** Go on in the way that blkcipher_walk_next has picked. */
    method SetUp(n: nat, unaligned: bool) returns (err: int)
      requires Resting() && bs <= total && n <= total && n <= Reach(inw, outw)
      requires OnEntry(inw) && OnEntry(outw) && (unaligned && n > 0 ==> page != null)
      modifies this, page, buffer
      ensures pos == old(pos) && mem[..] == old(mem[..]) && Sound() && Going(err, old(total))
      ensures page == old(page)
      ensures buffer == old(buffer) || buffer == page || fresh(buffer)
      ensures err == ENOMEM <==> n < bs && old(buffer == null && page == null && !place.buffers(total))
      ensures err == ENOMEM ==> inw == old(inw) && outw == old(outw) && buffer == null
      ensures err == 0 ==> Chosen(n < bs, unaligned, n)
    {
      hide At, ListOk, Distinct, Related, Gather, Fixed, Lists, PageLen, Address, Walk.Owned, Walk.Placed;
      err := 0;
      if n < bs {
        err := NextSlow();
      } else if unaligned {
        NextCopy(n);
      } else {
        NextFast(n);
      }
    }

    /** blkcipher_walk_next: pick the fast, the copying or the slow way, or refuse a short rest. */
    method Next() returns (err: int)
      requires Resting()
      modifies this, page, buffer
      ensures pos == old(pos) && mem[..] == old(mem[..]) && Sound() && Going(err, old(total))
      ensures page == old(page) || fresh(page)
      ensures buffer == old(buffer) || buffer == page || fresh(buffer)
      ensures err == ENOMEM <==> old(total >= bs && Starved(total))
      ensures err == ENOMEM ==> StarvedAt(old(total))
      ensures err == 0 ==>
        Chosen(old(OneBlock(place, inw, outw, bs, align, page != null, total)), old(Misaligned(inw, outw, align)),
          old(if total < Reach(inw, outw) then total else Reach(inw, outw)))
    {
      if total < bs {
        total, nbytes := 0, 0;
        return EINVAL;
      }
      hide At, ListOk, Distinct, Related, Gather, Fixed, Lists, Walk.Owned, Walk.Placed, Reach, Misaligned;
      hide Walk.Loaded;
      var n, unaligned := Clamp();
      err := SetUp(n, unaligned);
    }

    /** How far to go within the current pages, and whether a bounce page is needed, without which
        there is no way to go. */
    method Clamp() returns (n: nat, unaligned: bool)
      requires Resting()
      modifies this`page
      ensures Resting() && (page == old(page) || fresh(page))
      ensures OnEntry(inw) && OnEntry(outw)
      ensures unaligned == Misaligned(inw, outw, align)
      ensures page != null <==> old(page) != null || (unaligned && place.pages(total))
      ensures n == if unaligned && page == null then 0 else if total < Reach(inw, outw) then total else Reach(inw, outw)
    {
      Inside();
      hide At, Lists, Fixed, SpotsFit;
      n := total;
      unaligned := inw.offset % align != 0 || outw.offset % align != 0;
      if unaligned && page == null {
        if place.pages(total) {
          page := new bv8[PAGE];
        } else {
          n := 0;
        }
      }
      if n > PageLen(inw) { n := PageLen(inw); }
      if n > PageLen(outw) { n := PageLen(outw); }
    }

    lemma Inside()
      requires Resting()
      ensures inw.idx < |inw.sg| && inw.offset <= End(inw) && outw.idx < |outw.sg| && outw.offset <= End(outw)
    {
    }

    /** What the destination buffer must hold when a step is reported done: out, the bytes to go
        to the destination list, m being memory as it was when the step was set up. */
    ghost predicate Worked(m: Bytes, out: Bytes)
      reads this, mem, io.to
    {
      && Placed() && 0 < |out| <= nbytes && |m| == mem.Length
      && match mode
         case Slow => |out| == bs && io.to[io.toAt..io.toAt + bs] == out && mem[..] == m
         case Copied => io.to[..|out|] == out && mem[..] == m
         case Unset => false
         case Fast => mem[..] == Patch(m, io.toAt, out)
    }

    /** blkcipher_done_fast and blkcipher_done_slow: bring the bytes home. */
    method WriteBack(ghost m: Bytes, ghost out: Bytes, left: nat)
      requires Worked(m, out) && left + |out| == nbytes
      modifies this`inw, this`outw, mem
      ensures Spread(m, mem[..], dst, pos, out)
      ensures inw.sg == src && outw.sg == dst && At(inw, pos + |out|) && At(outw, pos + |out|)
    {
      hide ListOk, Distinct, Related, Spread, Patch, AddrOf, Fixed, Walk.Owned;
      if mode == Slow {
        outw := CopyOut(mem, outw, io.to[io.toAt..io.toAt + bs], pos);
      } else {
        var n := nbytes - left;
        if mode == Copied {
          PutChunk(mem, outw, io.to[..n], pos);
        } else {
          InPlaceSpread(m, mem[..], outw, pos, out);
        }
        AdvanceAt(inw, pos, n);
        AdvanceAt(outw, pos, n);
        inw := Advance(inw, n);
        outw := Advance(outw, n);
      }
    }

    /** blkcipher_walk_done: write back, let both walkers leave a finished page, go on. */
    method Finish(ghost m: Bytes, ghost out: Bytes, left: nat) returns (err: int)
      requires Worked(m, out) && left + |out| == nbytes
      modifies this, mem, page, buffer
      ensures pos == old(pos) + |out| && Sound() && Spread(m, mem[..], dst, old(pos), out)
      ensures var rest := old(total) - |out|;
              if rest == 0 then err == 0 && nbytes == 0 && total == 0
              else Going(err, rest) && (err == ENOMEM ==> StarvedAt(rest))
      ensures page == old(page) || fresh(page)
      ensures buffer == old(buffer) || buffer == page || fresh(buffer)
    {
      hide ListOk, Distinct, Related, Spread, Gather, Patch, AddrOf, Fixed, Walk.Owned, At, PageLen, Address;
      var n := nbytes - left;
      WriteBack(m, out, left);
      MoveOn(n);
      err := 0;
      if total > 0 { err := Next(); }
    }

    /** Both walkers leave a page they have finished. */
    method MoveOn(n: nat)
      requires Fixed() && Owned() && bs > 0 && align > 0 && Lists(src, dst, mem.Length, size)
      requires n <= total && pos + total == size
      requires inw.sg == src && outw.sg == dst && At(inw, pos + n) && At(outw, pos + n)
      modifies this`inw, this`outw, this`total, this`nbytes, this`pos
      ensures Resting() && pos == old(pos) + n && total == nbytes == old(total) - n
    {
      hide At, Fixed, Walk.Owned, ListOk, Distinct, Related;
      var rest := total - n;
      inw := LeavePage(inw, rest, pos + n);
      outw := LeavePage(outw, rest, pos + n);
      total, nbytes, pos := rest, rest, pos + n;
    }
  }

  /** scatterwalk_done */
  method LeavePage(w: Walker, more: nat, ghost p: nat) returns (r: Walker)
    requires At(w, p) && p + more <= Total(w.sg)
    ensures At(r, p) && r.sg == w.sg
  {
    if more > 0 && w.offset % PAGE == 0 { PageDoneAt(w, p); }
    r := Done(w, more);
  }

  lemma InPlaceSpread(m: Bytes, m1: Bytes, w: Walker, p: nat, out: Bytes)
    requires ListOk(w.sg, |m|) && At(w, p) && 0 < |out| <= PageLen(w)
    requires Address(w) + |out| <= |m| && m1 == Patch(m, Address(w), out)
    ensures p + |out| <= Total(w.sg) && Spread(m, m1, w.sg, p, out)
  {
    SpreadStretch(m, m1, w, p, out);
  }

  lemma PatchIn(m: Bytes, p: nat, b: Bytes)
    requires p + |b| <= |m|
    ensures Patch(m, p, b)[p..p + |b|] == b
  {
  }
}
