/** block/ll_rw_blk.c: the tag map of a queue, with live resizing. */
module Tags {
  import opened Options
  import opened SectorTree

  /** struct blk_queue_tag, and the tag field of every request that is queued at the device. */
  datatype TagMap = TagMap(index: seq<Option<nat>>, bits: seq<bool>, busyList: seq<nat>, busy: int,
                       max: nat, room: nat, tagOf: map<nat, nat>)

  const BITS_PER_LONG: nat := 64

  /** The bits of a map for so many tags: whole words. */
  function Align(depth: nat): (n: nat)
    ensures depth <= n < depth + BITS_PER_LONG
  {
    (depth + BITS_PER_LONG - 1) / BITS_PER_LONG * BITS_PER_LONG
  }

  function Clear(n: nat): seq<bool> { seq(n, i => false) }

  function Empty(n: nat): seq<Option<nat>> { seq(n, i => None) }

  /** __blk_queue_init_tags */
  function Init(depth: nat): TagMap { TagMap(Empty(depth), Clear(Align(depth)), [], 0, depth, depth, map[]) }

  /** find_first_zero_bit below a limit; the limit itself when there is none. */
  function FirstZero(bits: seq<bool>, limit: nat): (t: nat)
    requires limit <= |bits|
    ensures t <= limit && (t < limit ==> !bits[t]) && forall i :: 0 <= i < t ==> bits[i]
  {
    if limit == 0 || !bits[0] then 0 else 1 + FirstZero(bits[1..], limit - 1)
  }

  /** blk_queue_start_tag: None when every tag the device may see is taken. */
  function Start(s: TagMap, r: nat): Option<TagMap>
    requires s.max <= |s.bits| && s.max <= |s.index|
  {
    var t := FirstZero(s.bits, s.max);
    if t >= s.max then None
    else Some(s.(bits := s.bits[t := true], index := s.index[t := Some(r)], tagOf := s.tagOf[r := t],
                 busyList := [r] + s.busyList, busy := s.busy + 1))
  }

  /** blk_queue_end_tag; a tag beyond the map or one that is not set is left alone. */
  function End(s: TagMap, r: nat): TagMap
    requires r in s.tagOf && s.room <= |s.bits| && s.room <= |s.index|
  {
    var t := s.tagOf[r];
    if t >= s.room || !s.bits[t] then s
    else s.(bits := s.bits[t := false], index := s.index[t := None], tagOf := s.tagOf - {r}, busy := s.busy - 1,
            busyList := if r in s.busyList then Without(s.busyList, r) else s.busyList)
  }

  datatype Resized = Done(tags: TagMap) | Shared | NoMemory

  /** The depth init_tag_map settles for. */
  function Clamp(depth: nat, nrRequests: nat): nat { if depth > nrRequests * 2 then nrRequests * 2 else depth }

  /** blk_queue_resize_tags: within the map only the limit moves; beyond it the map is copied. */
  function Resize(s: TagMap, depth: nat, nrRequests: nat, refs: nat, granted: bool): Resized
    requires depth > s.room && refs == 1 && granted ==> CopyFits(s, depth, nrRequests)
  {
    if depth <= s.room then Done(s.(max := depth))
    else if refs != 1 then Shared
    else if !granted then NoMemory
    else
      var n := Clamp(depth, nrRequests);
      Done(s.(room := n, max := n, index := s.index[..s.room] + Empty(n - s.room),
              bits := s.bits[..Align(s.room)] + Clear(Align(n) - Align(s.room))))
  }

  /** The old map fits into the new one. */
  predicate CopyFits(s: TagMap, depth: nat, nrRequests: nat) {
    Clamp(depth, nrRequests) >= s.room && Align(Clamp(depth, nrRequests)) >= Align(s.room)
    && |s.index| >= s.room && |s.bits| >= Align(s.room)
  }

  /** Bit t is set exactly when entry t names the one busy request with tag t. */
  ghost predicate Inv(s: TagMap) {
    && |s.index| == s.room && |s.bits| == Align(s.room) && s.max <= s.room
    && Distinct(s.busyList) && s.busy == |s.busyList| && (forall r :: r in s.busyList <==> r in s.tagOf)
    && (forall t :: 0 <= t < s.room ==> (s.bits[t] <==> s.index[t].Some?))
    && (forall t :: s.room <= t < |s.bits| ==> !s.bits[t])
    && (forall t :: 0 <= t < s.room && s.index[t].Some? ==>
         s.index[t].value in s.tagOf && s.tagOf[s.index[t].value] == t)
    && (forall r :: r in s.tagOf ==> s.tagOf[r] < s.room && s.index[s.tagOf[r]] == Some(r))
  }

  lemma Sizes(s: TagMap)
    requires Inv(s)
    ensures |s.index| == s.room && |s.bits| == Align(s.room) && s.max <= s.room
    ensures forall r :: r in s.tagOf ==> s.tagOf[r] < s.room
  {
  }

  lemma CopyRoom(s: TagMap, depth: nat, nrRequests: nat)
    requires CopyFits(s, depth, nrRequests)
    ensures Clamp(depth, nrRequests) >= s.room && Align(Clamp(depth, nrRequests)) >= Align(s.room)
  {
  }

  // ---- what each operation does ----

  /** A started request gets the lowest tag the device may see that nobody has; nobody else's tag
      changes; and there is none exactly when all of them are taken. */
  lemma StartInv(s: TagMap, r: nat)
    requires Inv(s) && r !in s.tagOf
    ensures Start(s, r).None? <==> forall t :: 0 <= t < s.max ==> s.index[t].Some?
    ensures Start(s, r).Some? ==>
              var n := Start(s, r).value;
              && Inv(n) && r in n.tagOf && n.tagOf[r] < s.max && s.index[n.tagOf[r]].None?
              && (forall t :: 0 <= t < n.tagOf[r] ==> s.index[t].Some?) && n.max == s.max && n.room == s.room
              && n.tagOf == s.tagOf[r := n.tagOf[r]]
  {
    var t := FirstZero(s.bits, s.max);
    if t < s.max {
      var n := Start(s, r).value;
      assert n.tagOf[r] == t;
      DistinctCons(s.busyList, r);
      forall x ensures x in n.busyList <==> x in n.tagOf {
        assert x in n.busyList <==> x == r || x in s.busyList;
      }
    }
  }

  lemma DistinctCons(s: seq<nat>, r: nat)
    requires Distinct(s) && r !in s
    ensures Distinct([r] + s) && forall x :: x in [r] + s <==> x == r || x in s
  {
  }

  /** Ending a busy request, whatever the limit is by then, frees its tag and no other. */
  lemma EndInv(s: TagMap, r: nat)
    requires Inv(s) && r in s.tagOf
    ensures Inv(End(s, r)) && End(s, r).tagOf == s.tagOf - {r} && End(s, r).index[s.tagOf[r]].None?
    ensures End(s, r).max == s.max && End(s, r).room == s.room
  {
    hide Pos;
    var n := End(s, r);
    WithoutIn(s.busyList, r);
    assert |n.busyList| == |s.busyList| - 1;
  }

  /** Whether the copy fits is decided by the old depth and the number of requests alone. */
  lemma CopyFitsIff(s: TagMap, depth: nat, nrRequests: nat)
    requires Inv(s) && depth > s.room
    ensures CopyFits(s, depth, nrRequests) <==> 2 * nrRequests >= s.room
  {
    if 2 * nrRequests >= s.room {
      AlignMonotone(s.room, Clamp(depth, nrRequests));
    }
  }

  lemma AlignMonotone(a: nat, b: nat)
    requires a <= b
    ensures Align(a) <= Align(b)
  {
    assert (a + BITS_PER_LONG - 1) / BITS_PER_LONG <= (b + BITS_PER_LONG - 1) / BITS_PER_LONG;
  }

  /** Resizing changes no assignment: a smaller limit leaves the tags above it in place, a larger map
      carries all of them over.  The limit is the depth asked for, but no more than twice the number of
      requests when the map has to grow, which takes a map of one's own and memory. */
  lemma ResizeInv(s: TagMap, depth: nat, nrRequests: nat, refs: nat, granted: bool)
    requires Inv(s) && (depth > s.room && refs == 1 && granted ==> 2 * nrRequests >= s.room)
    ensures depth > s.room && refs == 1 && granted ==> CopyFits(s, depth, nrRequests)
    ensures match Resize(s, depth, nrRequests, refs, granted)
            case Done(n) =>
              && (depth <= s.room || (refs == 1 && granted))
              && Inv(n) && n.tagOf == s.tagOf && n.busyList == s.busyList
              && n.max == (if depth > s.room && depth > 2 * nrRequests then 2 * nrRequests else depth)
              && n.room == if depth <= s.room then s.room else n.max
            case Shared => refs != 1 && depth > s.room
            case NoMemory => refs == 1 && !granted && depth > s.room
  {
    if depth > s.room && refs == 1 && granted {
      CopyFitsIff(s, depth, nrRequests);
      GrowInv(s, Clamp(depth, nrRequests));
    }
  }

  lemma GrowInv(s: TagMap, n: nat)
    requires Inv(s) && n >= s.room && Align(n) >= Align(s.room)
    ensures Inv(s.(room := n, max := n, index := s.index[..s.room] + Empty(n - s.room),
                   bits := s.bits[..Align(s.room)] + Clear(Align(n) - Align(s.room))))
  {
    hide Align;
    assert s.index[..s.room] == s.index && s.bits[..Align(s.room)] == s.bits;
  }

  // ---- runs ----

  datatype Step = Tag(r: nat) | Untag(r: nat) | NewDepth(depth: nat, nrRequests: nat, refs: nat, granted: bool)

  ghost predicate Enabled(s: TagMap, e: Step) {
    match e
    case Tag(r) => r !in s.tagOf
    case Untag(r) => r in s.tagOf
    case NewDepth(d, n, refs, granted) => d > s.room && refs == 1 && granted ==> 2 * n >= s.room
  }

  ghost function Next(s: TagMap, e: Step): TagMap
    requires Inv(s) && Enabled(s, e)
  {
    match e
    case Tag(r) => (match Start(s, r) case None => s case Some(n) => n)
    case Untag(r) => End(s, r)
    case NewDepth(d, n, refs, granted) =>
      ResizeInv(s, d, n, refs, granted);
      (match Resize(s, d, n, refs, granted) case Done(m) => m case _ => s)
  }

  ghost predicate Run(s: TagMap, es: seq<Step>, t: TagMap)
    decreases |es|
  {
    if es == [] then s == t else Inv(s) && Enabled(s, es[0]) && Run(Next(s, es[0]), es[1..], t)
  }

  lemma NextInv(s: TagMap, e: Step)
    requires Inv(s) && Enabled(s, e)
    ensures Inv(Next(s, e))
  {
    hide Inv, Start, End, Resize, CopyFits;
    match e
    case Tag(r) => StartInv(s, r);
    case Untag(r) => EndInv(s, r);
    case NewDepth(d, n, refs, granted) => ResizeInv(s, d, n, refs, granted);
  }

  lemma {:induction false} RunInv(s: TagMap, es: seq<Step>, t: TagMap)
    requires Inv(s) && Run(s, es, t)
    ensures Inv(t)
    decreases |es|
  {
    hide Inv, Enabled, Next;
    if es != [] {
      NextInv(s, es[0]);
      RunInv(Next(s, es[0]), es[1..], t);
    }
  }

  /** A run can go on with any step that is enabled: asking for the invariant excludes no run. */
  lemma {:induction false} RunExtends(s: TagMap, es: seq<Step>, t: TagMap, e: Step)
    requires Inv(s) && Run(s, es, t) && Enabled(t, e)
    ensures Inv(t) && Run(s, es + [e], Next(t, e))
    decreases |es|
  {
    hide Inv, Enabled, Next;
    if es != [] {
      NextInv(s, es[0]);
      RunExtends(Next(s, es[0]), es[1..], t, e);
      assert (es + [e])[1..] == es[1..] + [e];
    } else {
      assert (es + [e])[1..] == [];
    }
  }

  /** In every reachable state the bit map, the index, the busy list and the requests agree. */
  lemma TagsAgree(depth: nat, es: seq<Step>, t: TagMap)
    requires Run(Init(depth), es, t)
    ensures Inv(t)
  {
    RunInv(Init(depth), es, t);
  }

  // ---- in place ----

  class QueueTags {
    var index: array<Option<nat>>
    var bits: array<bool>
    var busyList: seq<nat>
    var busy: int
    var max: nat
    var room: nat
    var tagOf: map<nat, nat>

    ghost function View(): TagMap
      reads this, index, bits
    {
      TagMap(index[..], bits[..], busyList, busy, max, room, tagOf)
    }

    constructor (depth: nat)
      ensures View() == Init(depth) && Inv(View()) && fresh(index) && fresh(bits)
    {
      index := new Option<nat>[depth](i => None);
      bits := new bool[Align(depth)](i => false);
      busyList, busy, max, room, tagOf := [], 0, depth, depth, map[];
      new;
      assert index[..] == Empty(depth) && bits[..] == Clear(Align(depth));
    }

    /** find_first_zero_bit */
    method FindFirstZero() returns (t: nat)
      requires max <= bits.Length
      ensures t == FirstZero(bits[..], max)
    {
      t := 0;
      while t < max && bits[t]
        invariant t <= max && forall i :: 0 <= i < t ==> bits[i]
      {
        t := t + 1;
      }
    }

    /** blk_queue_start_tag; the result says that no tag was free */
    method StartTag(r: nat) returns (failed: bool)
      requires Inv(View()) && r !in tagOf
      modifies this, index, bits
      ensures failed <==> Start(old(View()), r).None?
      ensures View() == (if failed then old(View()) else Start(old(View()), r).value) && Inv(View())
      ensures index == old(index) && bits == old(bits)
    {
      hide Inv;
      Sizes(View());
      StartInv(View(), r);
      var t := FindFirstZero();
      if t >= max {
        return true;
      }
      bits[t] := true;
      tagOf := tagOf[r := t];
      index[t] := Some(r);
      busyList := [r] + busyList;
      busy := busy + 1;
      return false;
    }

    /** blk_queue_end_tag */
    method EndTag(r: nat)
      requires Inv(View()) && r in tagOf
      modifies this, index, bits
      ensures View() == End(old(View()), r) && Inv(View()) && index == old(index) && bits == old(bits)
    {
      hide Inv;
      Sizes(View());
      EndInv(View(), r);
      var t := tagOf[r];
      if t >= room || !bits[t] {
        return;
      }
      bits[t] := false;
      if r in busyList {
        busyList := Without(busyList, r);
      }
      tagOf := tagOf - {r};
      index[t] := None;
      busy := busy - 1;
    }

    /** blk_queue_resize_tags; granted is whether the allocations succeed */
    method ResizeTags(depth: nat, nrRequests: nat, refs: nat, granted: bool) returns (ok: bool)
      requires Inv(View()) && (depth > room && refs == 1 && granted ==> 2 * nrRequests >= room)
      modifies this
      ensures depth > old(room) && refs == 1 && granted ==> CopyFits(old(View()), depth, nrRequests)
      ensures ok <==> Resize(old(View()), depth, nrRequests, refs, granted).Done?
      ensures View() == (if ok then Resize(old(View()), depth, nrRequests, refs, granted).tags else old(View()))
      ensures Inv(View())
    {
      hide Inv, CopyFits;
      Sizes(View());
      ResizeInv(View(), depth, nrRequests, refs, granted);
      if depth <= room {
        max := depth;
        return true;
      }
      if refs != 1 || !granted {
        return false;
      }
      CopyRoom(View(), depth, nrRequests);
      var n := Clamp(depth, nrRequests);
      var oldIndex, oldBits, oldRoom := index[..], bits[..], room;
      room, max := n, n;
      index := new Option<nat>[n](i requires 0 <= i < n => if i < |oldIndex| then oldIndex[i] else None);
      bits := new bool[Align(n)](i requires 0 <= i < Align(n) => i < |oldBits| && oldBits[i]);
      assert index[..] == oldIndex[..oldRoom] + Empty(n - oldRoom);
      assert bits[..] == oldBits[..Align(oldRoom)] + Clear(Align(n) - Align(oldRoom));
      return true;
    }
  }
}
