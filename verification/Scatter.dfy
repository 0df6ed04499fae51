/** Scatter lists and the walk over them (crypto/scatterwalk.c, crypto/scatterwalk.h).

    Physical memory is one byte string; a list entry is a stretch of it, given as the kernel
    does by its first page, an offset from that page and a length. */
module Scatter {
  import opened CbcSpec
  import opened CbcLoops

  const PAGE: nat := 4096

  datatype Sg = Sg(page: nat, offset: nat, length: nat)

  function Base(e: Sg): nat { e.page * PAGE + e.offset }

  /** Bytes in the first i entries. */
  function Before(sg: seq<Sg>, i: nat): nat
    requires i <= |sg|
  {
    if i == 0 then 0 else sg[0].length + Before(sg[1..], i - 1)
  }

  function Total(sg: seq<Sg>): nat { Before(sg, |sg|) }

  /** The address of the p-th byte of the list. */
  function AddrOf(sg: seq<Sg>, p: nat): nat {
    if sg == [] then 0
    else if p < sg[0].length then Base(sg[0]) + p
    else AddrOf(sg[1..], p - sg[0].length)
  }

  ghost predicate ListOk(sg: seq<Sg>, size: nat) {
    && (forall i :: 0 <= i < |sg| ==> sg[i].length > 0)
    && (forall p: nat :: p < Total(sg) ==> AddrOf(sg, p) < size)
  }

  /** struct scatter_walk */
  datatype Walker = Walker(sg: seq<Sg>, idx: nat, offset: nat)

  function Here(w: Walker): Sg
    requires w.idx < |w.sg|
  {
    w.sg[w.idx]
  }

  function End(w: Walker): nat
    requires w.idx < |w.sg|
  {
    Here(w).offset + Here(w).length
  }

  /** The walker stands at byte p of its list. */
  ghost predicate At(w: Walker, p: nat) {
    && w.idx < |w.sg|
    && Here(w).offset <= w.offset <= End(w)
    && Before(w.sg, w.idx) + (w.offset - Here(w).offset) == p
  }

  lemma {:induction false} AddrAt(sg: seq<Sg>, i: nat, o: nat)
    requires i < |sg| && o < sg[i].length
    ensures AddrOf(sg, Before(sg, i) + o) == Base(sg[i]) + o
  {
    if i > 0 { AddrAt(sg[1..], i - 1, o); }
  }

  lemma {:induction false} BeforeStep(sg: seq<Sg>, i: nat)
    requires i < |sg|
    ensures Before(sg, i + 1) == Before(sg, i) + sg[i].length
  {
    if i > 0 { BeforeStep(sg[1..], i - 1); }
  }

  lemma {:induction false} BeforeGrows(sg: seq<Sg>, i: nat, j: nat)
    requires i <= j <= |sg|
    ensures Before(sg, i) <= Before(sg, j)
  {
    if i > 0 { BeforeGrows(sg[1..], i - 1, j - 1); }
  }

  /** scatterwalk_start */
  function Start(sg: seq<Sg>): Walker
    requires sg != []
  {
    Walker(sg, 0, sg[0].offset)
  }

  /** scatterwalk_pagelen: bytes up to the end of the page or of the entry. */
  function PageLen(w: Walker): (n: nat)
    requires w.idx < |w.sg| && w.offset <= End(w)
    ensures n <= End(w) - w.offset
  {
    var len := End(w) - w.offset;
    var page := PAGE - w.offset % PAGE;
    if page > len then len else page
  }

  /** The next PageLen bytes of the list lie side by side in memory. */
  lemma Contiguous(w: Walker, p: nat, i: nat)
    requires At(w, p) && i < PageLen(w)
    ensures AddrOf(w.sg, p + i) == Here(w).page * PAGE + w.offset + i
    ensures p + PageLen(w) <= Total(w.sg)
  {
    var o := w.offset - Here(w).offset + i;
    AddrAt(w.sg, w.idx, o);
    assert p + i == Before(w.sg, w.idx) + o;
    BeforeStep(w.sg, w.idx);
    BeforeGrows(w.sg, w.idx + 1, |w.sg|);
  }

  /** scatterwalk_advance */
  function Advance(w: Walker, n: nat): Walker { w.(offset := w.offset + n) }

  lemma AdvanceAt(w: Walker, p: nat, n: nat)
    requires At(w, p) && n <= PageLen(w)
    ensures At(Advance(w, n), p + n)
  {
  }

  function RoundUp(x: nat): nat { (x + PAGE - 1) / PAGE * PAGE }

  /** scatterwalk_pagedone with more to come: on to the next page, or to the next entry. */
  function PageDone(w: Walker): Walker
    requires w.idx < |w.sg|
    requires RoundUp(w.offset) >= End(w) ==> w.idx + 1 < |w.sg|
  {
    if RoundUp(w.offset) >= End(w) then Walker(w.sg, w.idx + 1, w.sg[w.idx + 1].offset)
    else w.(offset := RoundUp(w.offset))
  }

  predicate AtEdge(w: Walker)
    requires w.idx < |w.sg|
  {
    w.offset % PAGE == 0 || w.offset == End(w)
  }

  lemma RoundUpFacts(x: nat)
    ensures RoundUp(x) >= x && (x % PAGE == 0 ==> RoundUp(x) == x)
  {
  }

  /** Moving on at the end of a page or entry does not skip a byte. */
  lemma PageDoneAt(w: Walker, p: nat)
    requires At(w, p) && AtEdge(w) && p < Total(w.sg)
    ensures RoundUp(w.offset) >= End(w) ==> w.idx + 1 < |w.sg|
    ensures At(PageDone(w), p) && PageDone(w).sg == w.sg
  {
    RoundUpFacts(w.offset);
    BeforeStep(w.sg, w.idx);
    if w.offset == End(w) {
      assert p == Before(w.sg, w.idx + 1);
      assert w.idx + 1 < |w.sg|;
    }
  }

  /** scatterwalk_done */
  function Done(w: Walker, more: nat): Walker
    requires w.idx < |w.sg|
    requires more > 0 && w.offset % PAGE == 0 && RoundUp(w.offset) >= End(w) ==> w.idx + 1 < |w.sg|
  {
    if more > 0 && w.offset % PAGE == 0 then PageDone(w) else w
  }

  // ---- bytes of memory seen through a list ----

  /** The n bytes of the list from byte p on. */
  ghost function Gather(m: Bytes, sg: seq<Sg>, p: nat, n: nat): (r: Bytes)
    requires ListOk(sg, |m|) && p + n <= Total(sg)
    ensures |r| == n && forall i :: 0 <= i < n ==> r[i] == m[AddrOf(sg, p + i)]
  {
    seq(n, i requires 0 <= i < n => m[AddrOf(sg, p + i)])
  }

  /** Address a belongs to none of the n bytes of the list from byte p on. */
  ghost predicate Outside(sg: seq<Sg>, p: nat, n: nat, a: nat) {
    forall i: nat :: p <= i < p + n ==> AddrOf(sg, i) != a
  }

  /** m1 is m with the bytes of the list from p on replaced by data, and nothing else changed. */
  ghost predicate Spread(m: Bytes, m1: Bytes, sg: seq<Sg>, p: nat, data: Bytes)
    requires ListOk(sg, |m|) && p + |data| <= Total(sg)
  {
    && |m1| == |m|
    && (forall i: nat :: p <= i < p + |data| ==> m1[AddrOf(sg, i)] == data[i - p])
    && (forall a :: 0 <= a < |m| && Outside(sg, p, |data|, a) ==> m1[a] == m[a])
  }

  /** No byte of memory is listed twice. */
  ghost predicate Distinct(sg: seq<Sg>) {
    forall i: nat, j: nat :: i < j < Total(sg) ==> AddrOf(sg, i) != AddrOf(sg, j)
  }

  lemma SpreadThen(m: Bytes, m1: Bytes, m2: Bytes, sg: seq<Sg>, p: nat, a: Bytes, b: Bytes)
    requires ListOk(sg, |m|) && Distinct(sg) && p + |a| + |b| <= Total(sg)
    requires Spread(m, m1, sg, p, a) && Spread(m1, m2, sg, p + |a|, b)
    ensures Spread(m, m2, sg, p, a + b)
  {
    forall i: nat | p <= i < p + |a + b| ensures m2[AddrOf(sg, i)] == (a + b)[i - p] {
      if i < p + |a| {
        assert Outside(sg, p + |a|, |b|, AddrOf(sg, i));
      }
    }
    forall x | 0 <= x < |m| && Outside(sg, p, |a + b|, x) ensures m2[x] == m[x] {
      assert Outside(sg, p, |a|, x) && Outside(sg, p + |a|, |b|, x);
    }
  }

  lemma GatherThen(m: Bytes, sg: seq<Sg>, p: nat, n: nat, k: nat)
    requires ListOk(sg, |m|) && p + n + k <= Total(sg)
    ensures Gather(m, sg, p, n) + Gather(m, sg, p + n, k) == Gather(m, sg, p, n + k)
  {
  }

  /** The address a walker maps to, and the stretch of memory it reaches from there. */
  function Address(w: Walker): nat
    requires w.idx < |w.sg|
  {
    Here(w).page * PAGE + w.offset
  }

  lemma GatherStretch(m: Bytes, w: Walker, p: nat, n: nat)
    requires ListOk(w.sg, |m|) && At(w, p) && n <= PageLen(w)
    ensures p + n <= Total(w.sg)
    ensures n > 0 ==> Address(w) + n <= |m| && Gather(m, w.sg, p, n) == m[Address(w)..Address(w) + n]
  {
    if n > 0 {
      Contiguous(w, p, n - 1);
      forall i: nat | p <= i < p + n ensures AddrOf(w.sg, i) == Address(w) + (i - p) { Contiguous(w, p, i - p); }
      assert AddrOf(w.sg, p + n - 1) < |m|;
      var g := Gather(m, w.sg, p, n);
      forall i | 0 <= i < n ensures g[i] == m[Address(w)..Address(w) + n][i] {
        assert g[i] == m[AddrOf(w.sg, p + i)];
      }
    } else {
      BeforeStep(w.sg, w.idx);
      BeforeGrows(w.sg, w.idx + 1, |w.sg|);
    }
  }

  lemma SpreadStretch(m: Bytes, m1: Bytes, w: Walker, p: nat, data: Bytes)
    requires ListOk(w.sg, |m|) && At(w, p) && 0 < |data| <= PageLen(w)
    requires Address(w) + |data| <= |m| && |m1| == |m|
    requires forall i :: 0 <= i < |m| ==>
               m1[i] == if Address(w) <= i < Address(w) + |data| then data[i - Address(w)] else m[i]
    ensures p + |data| <= Total(w.sg) && Spread(m, m1, w.sg, p, data)
  {
    var n := |data|;
    Contiguous(w, p, n - 1);
    forall i: nat | p <= i < p + n ensures AddrOf(w.sg, i) == Address(w) + (i - p) { Contiguous(w, p, i - p); }
    forall a | Address(w) <= a < Address(w) + n ensures !Outside(w.sg, p, n, a) {
      assert AddrOf(w.sg, p + (a - Address(w))) == a;
    }
  }

  /** scatterwalk_copychunks out of the list. */
  method CopyIn(mem: array<bv8>, w0: Walker, n: nat, ghost p: nat) returns (buf: Bytes, w: Walker)
    requires ListOk(w0.sg, mem.Length) && At(w0, p) && p + n <= Total(w0.sg)
    ensures buf == Gather(mem[..], w0.sg, p, n) && w.sg == w0.sg && At(w, p + n)
  {
    hide AddrOf, RoundUp, Gather, Total;
    buf, w := [], w0;
    while true
      invariant |buf| <= n && w.sg == w0.sg && At(w, p + |buf|)
      invariant buf == Gather(mem[..], w0.sg, p, |buf|)
      decreases n - |buf|, |w.sg| - w.idx
    {
      var len := PageLen(w);
      if len > n - |buf| { len := n - |buf|; }
      GatherStretch(mem[..], w, p + |buf|, len);
      GatherThen(mem[..], w0.sg, p, |buf|, len);
      AdvanceAt(w, p + |buf|, len);
      if len > 0 { buf := buf + mem[Address(w)..Address(w) + len]; }
      w := Advance(w, len);
      if |buf| == n { break; }
      PageDoneAt(w, p + |buf|);
      w := PageDone(w);
    }
  }

  lemma SpreadNothing(m: Bytes, sg: seq<Sg>, p: nat)
    requires ListOk(sg, |m|) && p <= Total(sg)
    ensures Spread(m, m, sg, p, [])
  {
  }

  /** Write bytes that stay within the page and the entry the walker is on. */
  method PutChunk(mem: array<bv8>, w: Walker, chunk: Bytes, ghost p: nat)
    requires ListOk(w.sg, mem.Length) && At(w, p) && |chunk| <= PageLen(w) && p + |chunk| <= Total(w.sg)
    modifies mem
    ensures Spread(old(mem[..]), mem[..], w.sg, p, chunk)
  {
    hide AddrOf, Patch;
    if chunk == [] {
      SpreadNothing(mem[..], w.sg, p);
    } else {
      ghost var before := mem[..];
      GatherStretch(before, w, p, |chunk|);
      Store(mem, Address(w), chunk);
      SpreadStretch(before, mem[..], w, p, chunk);
    }
  }

  /** scatterwalk_copychunks into the list. */
  method CopyOut(mem: array<bv8>, w0: Walker, data: Bytes, ghost p: nat) returns (w: Walker)
    requires ListOk(w0.sg, mem.Length) && Distinct(w0.sg) && At(w0, p) && p + |data| <= Total(w0.sg)
    modifies mem
    ensures Spread(old(mem[..]), mem[..], w0.sg, p, data) && w.sg == w0.sg && At(w, p + |data|)
  {
    hide AddrOf, RoundUp, Distinct, Spread, ListOk;
    var k := 0;
    w := w0;
    ghost var m := mem[..];
    SpreadNothing(m, w0.sg, p);
    while true
      invariant 0 <= k <= |data| && w.sg == w0.sg && At(w, p + k)
      invariant Spread(m, mem[..], w0.sg, p, data[..k])
      decreases |data| - k, |w.sg| - w.idx
    {
      var len := PageLen(w);
      if len > |data| - k { len := |data| - k; }
      var chunk := data[k..k + len];
      assert data[..k] + chunk == data[..k + len];
      ghost var before := mem[..];
      PutChunk(mem, w, chunk, p + k);
      SpreadThen(m, before, mem[..], w0.sg, p, data[..k], chunk);
      AdvanceAt(w, p + k, len);
      w := Advance(w, len);
      k := k + len;
      if k == |data| { break; }
      PageDoneAt(w, p + k);
      w := PageDone(w);
    }
    assert data[..k] == data;
  }
}
