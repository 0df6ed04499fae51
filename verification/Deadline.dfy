/** block/deadline-iosched.c: the deadline I/O scheduler as a state machine.  A request is a value; one
    that a merge changes is replaced wherever it is linked. */
module Deadline {
  import opened Options
  import opened SectorTree

  const WRAP: nat := 0x1_0000_0000
  type u32 = x: int | 0 <= x < 0x1_0000_0000
  type u31 = x: int | 0 <= x < 0x8000_0000

  /** Unsigned 32-bit addition. */
  function Add32(a: u32, b: u32): u32 { if a + b < WRAP then a + b else a + b - WRAP }

  /** One data direction: its FIFO list, its sector-sorted tree read in order, its next_rq. */
  datatype Side = Side(fifo: seq<Rq>, sort: seq<Rq>, next: Option<Rq>)

  /** struct deadline_data, the dispatch list it feeds, and the last clock value seen. */
  datatype Sched = Sched(read: Side, write: Side, batching: u32, lastSector: nat, starved: u32,
                         out: seq<Rq>, clock: nat)

  /** The tunables.  The sysfs store functions keep fifo_batch between 0 and INT_MAX; writes_starved is
      any int and is compared as unsigned. */
  datatype Conf = Conf(readExpire: nat, writeExpire: nat, fifoBatch: u31, writesStarved: u32)

  const NO_SIDE := Side([], [], None)
  const INIT := Sched(NO_SIDE, NO_SIDE, 0, 0, 0, [], 0)

  function Of(s: Sched, w: bool): Side { if w then s.write else s.read }

  function Put(s: Sched, w: bool, d: Side): Sched { if w then s.(write := d) else s.(read := d) }

  function Expire(c: Conf, w: bool): nat { if w then c.writeExpire else c.readExpire }

  // ---- operations ----

  /** deadline_remove_request */
  function Remove(d: Side, r: Rq): Side
    requires r in d.fifo && r in d.sort
  {
    Side(Without(d.fifo, r), Without(d.sort, r), if d.next == Some(r) then NextOf(d.sort, r) else d.next)
  }

  /** deadline_move_request */
  function Move(s: Sched, w: bool, r: Rq): Sched
    requires r in Of(s, w).fifo && r in Of(s, w).sort
  {
    var t := s.(read := s.read.(next := None), write := s.write.(next := None),
                lastSector := r.sector + r.nr, out := s.out + [r]);
    Put(t, w, Remove(Of(t, w).(next := NextOf(Of(s, w).sort, r)), r))
  }

  /** deadline_add_rq_rb: what sits at the same sector is sent off first. */
  function Clear(s: Sched, w: bool, sector: nat): Sched
    requires Linked(Of(s, w))
  {
    match Alias(Of(s, w).sort, sector)
    case None => s
    case Some(a) => InBoth(Of(s, w), a); Move(s, w, a)
  }

  function Link(d: Side, r: Rq): Side {
    d.(sort := Insert(d.sort, Place(d.sort, r.sector), r))
  }

  /** deadline_add_request */
  function Add(s: Sched, c: Conf, w: bool, r: Rq, now: nat): Sched
    requires Linked(Of(s, w))
  {
    var q := r.(time := now + Expire(c, w));
    var t := Clear(s, w, r.sector).(clock := now);
    var d := Link(Of(t, w), q);
    Put(t, w, d.(fifo := d.fifo + [q]))
  }

  /** A request that grew: the same links, a new value. */
  function Changed(d: Side, r: Rq, q: Rq): Side
    requires r in d.fifo && r in d.sort
  {
    Side(Replace(d.fifo, r, q), Replace(d.sort, r, q), if d.next == Some(r) then Some(q) else d.next)
  }

  /** A bio joined at the back: the hook leaves the request where it is. */
  function BackMerge(s: Sched, w: bool, r: Rq, n: nat, bio: nat): Sched
    requires r in Of(s, w).fifo && r in Of(s, w).sort
  {
    Put(s, w, Changed(Of(s, w), r, r.(nr := r.nr + n, bios := r.bios + [bio])))
  }

  /** A bio joined at the front, then deadline_merged_request: unlink from the tree alone (next_rq
      keeps pointing), link again at the new sector. */
  function FrontMerge(s: Sched, w: bool, r: Rq, n: nat, bio: nat): Sched
    requires r in Of(s, w).fifo && r in Of(s, w).sort && Linked(Of(s, w)) && Sorted(Of(s, w).sort)
    requires n <= r.sector
  {
    Relinked(s, w, r, r.(sector := r.sector - n, nr := r.nr + n, bios := [bio] + r.bios))
  }

  /** The request r, which has become q, is taken out of the tree and linked again. */
  function Relinked(s: Sched, w: bool, r: Rq, q: Rq): Sched
    requires r in Of(s, w).fifo && r in Of(s, w).sort && Linked(Of(s, w)) && Sorted(Of(s, w).sort)
  {
    var d := Of(s, w);
    match Alias(Without(d.sort, r), q.sector)
    case None =>
      Put(s, w, Link(Side(Replace(d.fifo, r, q), Without(d.sort, r), if d.next == Some(r) then Some(q) else d.next), q))
    case Some(a) =>
      // The request is out of the tree while its alias leaves.
      AliasLinked(d, r, q.sector);
      var t := Move(Put(s, w, d.(sort := Without(d.sort, r))), w, a);
      StillThere(d.fifo, r, a);
      Put(t, w, Link(Of(t, w).(fifo := Replace(Of(t, w).fifo, r, q)), q))
  }

  /** The list and tree once r has grown by x: r takes the earlier time and the place that goes with
      it. */
  function Absorb(d: Side, r: Rq, x: Rq): (e: Side)
    requires Linked(d) && r in d.sort && x in d.sort && r != x
    ensures x in e.fifo && x in e.sort
  {
    var q := r.(nr := r.nr + x.nr, bios := r.bios + x.bios);
    if x.time < r.time then
      StillThere(d.fifo, x, r);
      var early := q.(time := x.time);
      var rest := Without(d.fifo, r);
      ChangedKeeps(d.sort, r, early, x);
      Side(Insert(rest, Pos(rest, x) + 1, early), Replace(d.sort, r, early),
           if d.next == Some(r) then Some(early) else d.next)
    else
      ChangedKeeps(d.sort, r, q, x);
      ChangedKeeps(d.fifo, r, q, x);
      Changed(d, r, q)
  }

  /** Two requests became one, then deadline_merged_requests. */
  function MergeRequests(s: Sched, w: bool, r: Rq, x: Rq): Sched
    requires Linked(Of(s, w)) && r in Of(s, w).sort && x in Of(s, w).sort && r != x
  {
    Put(s, w, Remove(Absorb(Of(s, w), r, x), x))
  }

  // ---- dispatch ----

  /** The request the running batch would go on with. */
  function BatchNext(s: Sched): Option<(bool, Rq)> {
    if s.write.next.Some? then Some((true, s.write.next.value))
    else if s.read.next.Some? then Some((false, s.read.next.value))
    else None
  }

  /** The batch counter once a non-sequential next request has been charged for. */
  function Charged(s: Sched, c: Conf): u32 {
    match BatchNext(s)
    case Some(p) => if s.lastSector != p.1.sector then Add32(s.batching, c.fifoBatch) else s.batching
    case None => s.batching
  }

  predicate Continues(s: Sched, c: Conf) { BatchNext(s).Some? && Charged(s, c) < c.fifoBatch }

  /** The direction chosen when no batch runs; None when nothing is queued. */
  function Direction(s: Sched, c: Conf): Option<bool> {
    if s.read.fifo != [] then Some(s.write.fifo != [] && s.starved >= c.writesStarved)
    else if s.write.fifo != [] then Some(true)
    else None
  }

  function Starved(s: Sched, w: bool): u32 {
    if w then 0 else if s.write.fifo != [] then Add32(s.starved, 1) else s.starved
  }

  /** dispatch_find_request: the request, and whether the batch counter restarts. */
  function Best(d: Side, now: nat): (Rq, bool)
    requires d.fifo != [] && d.sort != []
  {
    if now > d.fifo[0].time then (d.fifo[0], true)
    else if d.next.Some? then (d.next.value, false)
    else (d.sort[0], true)
  }

  /** The request deadline_dispatch_requests settles on, and its direction. */
  function Selected(s: Sched, c: Conf, now: nat): Option<(bool, Rq)>
    requires Linked(s.read) && Linked(s.write)
  {
    if Continues(s, c) then BatchNext(s)
    else match Direction(s, c)
      case None => None
      case Some(w) => SortNotEmpty(Of(s, w)); Some((w, Best(Of(s, w), now).0))
  }

  /** The batch and starvation counters it leaves. */
  function Counters(s: Sched, c: Conf, now: nat): (u32, u32)
    requires Linked(s.read) && Linked(s.write)
  {
    if Continues(s, c) then (Add32(Charged(s, c), 1), s.starved)
    else match Direction(s, c)
      case None => (Charged(s, c), s.starved)
      case Some(w) =>
        SortNotEmpty(Of(s, w));
        (Add32(if Best(Of(s, w), now).1 then 0 else Charged(s, c), 1), Starved(s, w))
  }

  /** deadline_dispatch_requests */
  function Dispatch(s: Sched, c: Conf, now: nat): Sched
    requires Linked(s.read) && Linked(s.write)
  {
    var (b, n) := Counters(s, c, now);
    var t := s.(batching := b, starved := n);
    match Selected(s, c, now)
    case None => t
    case Some(p) => SelectedLinked(s, c, now); Move(t, p.0, p.1)
  }

  // ---- what every state keeps ----

  /** The list and the tree hold the same requests, the next request among them. */
  ghost predicate Linked(d: Side) {
    (forall r :: r in d.fifo <==> r in d.sort) && (d.next.Some? ==> d.next.value in d.sort)
  }

  ghost predicate SideInv(d: Side, latest: nat) {
    Linked(d) && Sorted(d.sort) && Distinct(d.fifo) && Timed(d.fifo) && forall r :: r in d.fifo ==> r.time <= latest
  }

  /** Batches are of reads or of writes, never of both. */
  ghost predicate Inv(s: Sched, c: Conf) {
    && SideInv(s.read, s.clock + c.readExpire) && SideInv(s.write, s.clock + c.writeExpire)
    && (s.read.next.None? || s.write.next.None?)
  }

  lemma InBoth(d: Side, r: Rq)
    requires Linked(d)
    ensures r in d.fifo <==> r in d.sort
  {
  }

  lemma SortNotEmpty(d: Side)
    requires Linked(d)
    ensures d.fifo == [] <==> d.sort == []
  {
    if d.fifo != [] {
      InBoth(d, d.fifo[0]);
    }
    if d.sort != [] {
      InBoth(d, d.sort[0]);
    }
  }

  lemma SelectedLinked(s: Sched, c: Conf, now: nat)
    requires Linked(s.read) && Linked(s.write)
    ensures match Selected(s, c, now)
            case None => s.read.fifo == [] && s.write.fifo == []
            case Some(p) => p.1 in Of(s, p.0).fifo && p.1 in Of(s, p.0).sort
  {
    SortNotEmpty(s.read);
    SortNotEmpty(s.write);
    if Selected(s, c, now).Some? {
      var p := Selected(s, c, now).value;
      InBoth(Of(s, p.0), p.1);
    }
  }

  lemma AliasLinked(d: Side, r: Rq, sector: nat)
    requires r in d.fifo && r in d.sort && Linked(d) && Sorted(d.sort) && Alias(Without(d.sort, r), sector).Some?
    ensures var a := Alias(Without(d.sort, r), sector).value;
            a in d.fifo && a in Without(d.sort, r) && a in d.sort && a != r
  {
    var a := Alias(Without(d.sort, r), sector).value;
    var i := Place(Without(d.sort, r), sector);
    assert a == d.sort[if i < Pos(d.sort, r) then i else i + 1];
    InBoth(d, a);
  }
}
