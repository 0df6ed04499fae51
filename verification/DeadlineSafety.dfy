/** Every run of the deadline scheduler: its lists and trees agree, and no bio is lost or doubled. */
module DeadlineSafety {
  import opened Options
  import opened SectorTree
  import opened Deadline

  /** Everywhere: in the two trees and on the dispatch list. */
  ghost function Total(s: Sched, b: nat): nat {
    Held(s.out, b) + Held(s.read.sort, b) + Held(s.write.sort, b)
  }

  // ---- one side ----

  lemma RemoveInv(d: Side, r: Rq, latest: nat)
    requires SideInv(d, latest) && r in d.sort
    ensures r in d.fifo && SideInv(Remove(d, r), latest)
  {
    hide Pos, Without;
    WithoutIn(d.fifo, r);
    WithoutOrder(d.fifo, r);
    SortedDistinct(d.sort);
    WithoutIn(d.sort, r);
    WithoutOrder(d.sort, r);
    NextStays(d.sort, r);
  }

  /** Linking a request whose sector is free. */
  lemma LinkInv(d: Side, r: Rq)
    requires Sorted(d.sort) && Alias(d.sort, r.sector).None?
    ensures Sorted(Link(d, r).sort) && r !in d.sort
    ensures forall q :: q in Link(d, r).sort <==> q in d.sort || q == r
  {
    hide Place, Insert;
    SortedInsert(d.sort, r);
    InsertIn(d.sort, Place(d.sort, r.sector), r);
  }

  lemma AddSide(d: Side, q: Rq, before: nat, latest: nat)
    requires SideInv(d, before) && before <= latest && q.time == latest && Alias(d.sort, q.sector).None?
    ensures SideInv(Link(d, q).(fifo := d.fifo + [q]), latest)
  {
    hide Pos, Place, Link;
    LinkInv(d, q);
    LinkKeeps(d, q);
    var f := d.fifo + [q];
    assert q !in d.fifo;
    forall i, j | 0 <= i < j < |f| ensures f[i].time <= f[j].time && f[i] != f[j] {
      assert f[i] in d.fifo;
    }
  }

  lemma LinkKeeps(d: Side, r: Rq)
    ensures Link(d, r).fifo == d.fifo && Link(d, r).next == d.next
    ensures forall b :: Held(Link(d, r).sort, b) == Held(d.sort, b) + Occurs(r.bios, b)
  {
    hide Held, Place, Insert;
    forall b ensures Held(Link(d, r).sort, b) == Held(d.sort, b) + Occurs(r.bios, b) {
      HeldInsert(d.sort, Place(d.sort, r.sector), r, b);
    }
  }

  /** A request that grew in place. */
  lemma ChangedInv(d: Side, r: Rq, q: Rq, latest: nat)
    requires SideInv(d, latest) && r in d.sort && q.sector == r.sector && q.time == r.time
    ensures r in d.fifo && SideInv(Changed(d, r, q), latest)
  {
    hide Pos, Without, Insert;
    SortedDistinct(d.sort);
    SameSector(d.sort, r);
    ReplaceIn(d.sort, r, q);
    ReplaceIn(d.fifo, r, q);
    ReplaceOrder(d.sort, r, q);
    ReplaceOrder(d.fifo, r, q);
  }

  // ---- every operation ----

  lemma MoveHeld(s: Sched, w: bool, r: Rq, b: nat)
    requires r in Of(s, w).sort && r in Of(s, w).fifo
    ensures Total(Move(s, w, r), b) == Total(s, b)
  {
    hide Held, Occurs, Pos, Without;
    HeldAppend(s.out, [r], b);
    HeldOne(r, b);
    HeldWithout(Of(s, w).sort, r, b);
  }

  /** deadline_move_request */
  lemma MoveInv(s: Sched, c: Conf, w: bool, r: Rq)
    requires Inv(s, c) && r in Of(s, w).sort
    ensures r in Of(s, w).fifo && Inv(Move(s, w, r), c)
  {
    hide Pos, Without;
    var d := Of(s, w).(next := NextOf(Of(s, w).sort, r));
    NextStays(Of(s, w).sort, r);
    SortedDistinct(d.sort);
    WithoutIn(d.sort, r);
    RemoveInv(d, r, s.clock + Expire(c, w));
  }

  lemma ClearInv(s: Sched, c: Conf, w: bool, sector: nat)
    requires Inv(s, c)
    ensures Inv(Clear(s, w, sector), c) && Alias(Of(Clear(s, w, sector), w).sort, sector).None?
    ensures Clear(s, w, sector).clock == s.clock
    ensures forall b :: Total(Clear(s, w, sector), b) == Total(s, b)
  {
    hide Pos, Without, Place, Total;
    var a := Alias(Of(s, w).sort, sector);
    if a.Some? {
      NoAlias(Of(s, w).sort, a.value, sector);
      MoveInv(s, c, w, a.value);
      forall b ensures Total(Move(s, w, a.value), b) == Total(s, b) {
        MoveHeld(s, w, a.value, b);
      }
    }
  }

  /** deadline_add_request */
  lemma AddInv(s: Sched, c: Conf, w: bool, r: Rq, now: nat)
    requires Inv(s, c) && s.clock <= now
    ensures Inv(Add(s, c, w, r, now), c)
    ensures forall b :: Total(Add(s, c, w, r, now), b) == Total(s, b) + Occurs(r.bios, b)
  {
    hide Held, Place, Move, Clear, Link, Occurs;
    var q := r.(time := now + Expire(c, w));
    var t := Clear(s, w, r.sector);
    ClearInv(s, c, w, r.sector);
    LinkKeeps(Of(t, w), q);
    AddSide(Of(t, w), q, t.clock + Expire(c, w), now + Expire(c, w));
    forall b ensures Total(Add(s, c, w, r, now), b) == Total(s, b) + Occurs(r.bios, b) {
      assert Total(t, b) == Total(s, b);
    }
  }

  lemma BackInv(s: Sched, c: Conf, w: bool, r: Rq, n: nat, bio: nat)
    requires Inv(s, c) && r in Of(s, w).sort
    ensures r in Of(s, w).fifo && Inv(BackMerge(s, w, r, n, bio), c)
    ensures forall b :: Total(BackMerge(s, w, r, n, bio), b) == Total(s, b) + Occurs([bio], b)
  {
    hide Held, Pos, Replace, Occurs;
    var q := r.(nr := r.nr + n, bios := r.bios + [bio]);
    ChangedInv(Of(s, w), r, q, s.clock + Expire(c, w));
    forall b ensures Total(BackMerge(s, w, r, n, bio), b) == Total(s, b) + Occurs([bio], b) {
      HeldReplace(Of(s, w).sort, r, q, b);
      OccursAppend(r.bios, [bio], b);
    }
  }

  lemma FrontAlone(d: Side, r: Rq, q: Rq, latest: nat)
    requires SideInv(d, latest) && r in d.sort && q.time == r.time && r in d.fifo
    requires Alias(Without(d.sort, r), q.sector).None?
    ensures var next := if d.next == Some(r) then Some(q) else d.next;
            SideInv(Link(Side(Replace(d.fifo, r, q), Without(d.sort, r), next), q), latest)
    ensures q !in Without(d.sort, r)
  {
    hide Pos, Without, Insert, Link, Replace, Place;
    var e := Side(Replace(d.fifo, r, q), Without(d.sort, r), if d.next == Some(r) then Some(q) else d.next);
    SortedDistinct(d.sort);
    WithoutIn(d.sort, r);
    WithoutOrder(d.sort, r);
    LinkInv(e, q);
    LinkKeeps(e, q);
    ReplaceIn(d.fifo, r, q);
    ReplaceOrder(d.fifo, r, q);
  }

  /** The request relinked after its alias has left. */
  lemma FrontAliased(d: Side, r: Rq, q: Rq, a: Rq, next: Option<Rq>, latest: nat)
    requires SideInv(d, latest) && r in d.sort && q.time == r.time && r in d.fifo && a in d.fifo
    requires Alias(Without(d.sort, r), q.sector) == Some(a) && a in Without(d.sort, r)
    requires next == NextOf(Without(d.sort, r), a)
    requires r in Without(d.fifo, a)
    ensures SideInv(Link(Side(Replace(Without(d.fifo, a), r, q), Without(Without(d.sort, r), a), next), q), latest)
  {
    hide Pos, Without, Insert, Link, Replace, Place, NextOf;
    var sort := Without(d.sort, r);
    SortedDistinct(d.sort);
    WithoutIn(d.sort, r);
    WithoutOrder(d.sort, r);
    NoAlias(sort, a, q.sector);
    WithoutIn(sort, a);
    WithoutOrder(sort, a);
    NextStays(sort, a);
    WithoutIn(d.fifo, a);
    WithoutOrder(d.fifo, a);
    var e := Side(Replace(Without(d.fifo, a), r, q), Without(sort, a), next);
    LinkInv(e, q);
    LinkKeeps(e, q);
    ReplaceIn(Without(d.fifo, a), r, q);
    ReplaceOrder(Without(d.fifo, a), r, q);
  }

  /** deadline_merged_request after a front merge */
  lemma FrontInv(s: Sched, c: Conf, w: bool, r: Rq, n: nat, bio: nat)
    requires Inv(s, c) && r in Of(s, w).sort && n <= r.sector
    ensures r in Of(s, w).fifo && Inv(FrontMerge(s, w, r, n, bio), c)
  {
    hide Pos, Without, Insert, Link, Replace, Place, NextOf;
    var q := r.(sector := r.sector - n, nr := r.nr + n, bios := [bio] + r.bios);
    var d := Of(s, w);
    var a := Alias(Without(d.sort, r), q.sector);
    if a.None? {
      FrontAlone(d, r, q, s.clock + Expire(c, w));
      LinkKeeps(Side(Replace(d.fifo, r, q), Without(d.sort, r), if d.next == Some(r) then Some(q) else d.next), q);
    } else {
      AliasLinked(d, r, q.sector);
      StillThere(d.fifo, r, a.value);
      NotItsNext(Without(d.sort, r), a.value, d, r);
      FrontAliased(d, r, q, a.value, NextOf(Without(d.sort, r), a.value), s.clock + Expire(c, w));
    }
  }

  lemma NotItsNext(s: seq<Rq>, a: Rq, d: Side, r: Rq)
    requires r in d.sort && Sorted(d.sort) && s == Without(d.sort, r) && a in s
    ensures NextOf(s, a) != Some(a)
  {
    hide Pos, Without;
    WithoutOrder(d.sort, r);
  }

  lemma FrontHeld(s: Sched, c: Conf, w: bool, r: Rq, n: nat, bio: nat, b: nat)
    requires Inv(s, c) && r in Of(s, w).sort && n <= r.sector
    ensures r in Of(s, w).fifo
    ensures Total(FrontMerge(s, w, r, n, bio), b) == Total(s, b) + Occurs([bio], b)
  {
    hide Held, Occurs, Pos, Without, Insert, Link, Replace, Place, NextOf;
    var q := r.(sector := r.sector - n, nr := r.nr + n, bios := [bio] + r.bios);
    var d := Of(s, w);
    var a := Alias(Without(d.sort, r), q.sector);
    OccursAppend([bio], r.bios, b);
    HeldWithout(d.sort, r, b);
    if a.None? {
      LinkKeeps(Side(Replace(d.fifo, r, q), Without(d.sort, r), if d.next == Some(r) then Some(q) else d.next), q);
    } else {
      AliasLinked(d, r, q.sector);
      StillThere(d.fifo, r, a.value);
      var p := Put(s, w, d.(sort := Without(d.sort, r)));
      var t := Move(p, w, a.value);
      MoveHeld(p, w, a.value, b);
      LinkKeeps(Of(t, w).(fifo := Replace(Of(t, w).fifo, r, q)), q);
    }
  }

  /** The survivor of a merge in the place of a request that expires earlier. */
  lemma EarlyInv(d: Side, r: Rq, x: Rq, q: Rq, latest: nat)
    requires SideInv(d, latest) && r in d.sort && x in d.sort && r in d.fifo && x in Without(d.fifo, r)
    requires q.sector == r.sector && q.time == x.time
    ensures var rest := Without(d.fifo, r);
            var next := if d.next == Some(r) then Some(q) else d.next;
            SideInv(Side(Insert(rest, Pos(rest, x) + 1, q), Replace(d.sort, r, q), next), latest)
  {
    hide Pos, Without, Replace, Insert, Sorted, Timed, Distinct;
    SortedDistinct(d.sort);
    SameSector(d.sort, r);
    ReplaceIn(d.sort, r, q);
    SameSectorOrder(d.sort, r, q);
    WithoutIn(d.fifo, r);
    WithoutOrder(d.fifo, r);
    var rest := Without(d.fifo, r);
    InsertIn(rest, Pos(rest, x) + 1, q);
    TimedInsert(rest, x, q);
  }

  /** deadline_merged_requests */
  lemma JoinInv(s: Sched, c: Conf, w: bool, r: Rq, x: Rq)
    requires Inv(s, c) && r in Of(s, w).sort && x in Of(s, w).sort && r != x
    ensures Inv(MergeRequests(s, w, r, x), c)
    ensures forall b :: Total(MergeRequests(s, w, r, x), b) == Total(s, b)
  {
    hide Pos, Without, Replace, Insert, Held, Occurs, NextOf, Sorted, Timed, Distinct;
    var d := Of(s, w);
    var latest := s.clock + Expire(c, w);
    var q := r.(nr := r.nr + x.nr, bios := r.bios + x.bios);
    var late := if x.time < r.time then q.(time := x.time) else q;
    StillThere(d.sort, r, x);
    SortedDistinct(d.sort);
    SameSector(d.sort, r);
    ReplaceIn(d.sort, r, late);
    if x.time < r.time {
      StillThere(d.fifo, x, r);
      EarlyInv(d, r, x, late, latest);
      var rest := Without(d.fifo, r);
      var next := if d.next == Some(r) then Some(late) else d.next;
      RemoveInv(Side(Insert(rest, Pos(rest, x) + 1, late), Replace(d.sort, r, late), next), x, latest);
    } else {
      ChangedInv(d, r, q, latest);
      RemoveInv(Changed(d, r, q), x, latest);
    }
    forall b ensures Total(MergeRequests(s, w, r, x), b) == Total(s, b) {
      HeldReplace(d.sort, r, late, b);
      HeldWithout(Replace(d.sort, r, late), x, b);
      OccursAppend(r.bios, x.bios, b);
    }
  }

  /** A dispatch sends exactly one queued request, unless nothing is queued. */
  lemma DispatchInv(s: Sched, c: Conf, now: nat)
    requires Inv(s, c)
    ensures Inv(Dispatch(s, c, now), c)
    ensures forall b :: Total(Dispatch(s, c, now), b) == Total(s, b)
    ensures Selected(s, c, now).None? <==> s.read.sort == [] && s.write.sort == []
    ensures |Dispatch(s, c, now).read.sort| + |Dispatch(s, c, now).write.sort| + |Dispatch(s, c, now).out|
         == |s.read.sort| + |s.write.sort| + |s.out|
    ensures Dispatch(s, c, now).out == s.out + match Selected(s, c, now) case None => [] case Some(p) => [p.1]
  {
    hide Pos, Total, Selected, Counters;
    SelectedLinked(s, c, now);
    SortNotEmpty(s.read);
    SortNotEmpty(s.write);
    var (b, n) := Counters(s, c, now);
    var t := s.(batching := b, starved := n);
    SameTotal(s, t);
    match Selected(s, c, now)
    case None =>
    case Some(p) =>
      MoveInv(t, c, p.0, p.1);
      forall b ensures Total(Move(t, p.0, p.1), b) == Total(t, b) {
        MoveHeld(t, p.0, p.1, b);
      }
  }

  lemma SameTotal(s: Sched, t: Sched)
    requires s.out == t.out && s.read == t.read && s.write == t.write
    ensures forall b :: Total(s, b) == Total(t, b)
  {
  }

  // ---- runs ----

  /** What may happen to the scheduler: the merges only where the block layer found them. */
  datatype Step =
    | Submit(write: bool, rq: Rq, now: nat)
    | Back(write: bool, rq: Rq, sectors: nat, bio: nat)
    | Front(write: bool, rq: Rq, sectors: nat, bio: nat)
    | Join(write: bool, rq: Rq, absorbed: Rq)
    | Send(now: nat)

  ghost predicate Enabled(s: Sched, e: Step) {
    match e
    case Submit(_, _, now) => s.clock <= now
    case Back(w, r, _, _) => r in Of(s, w).sort
    case Front(w, r, n, _) => r in Of(s, w).sort && n <= r.sector
    case Join(w, r, x) => r in Of(s, w).sort && x in Of(s, w).sort && r != x
    case Send(_) => true
  }

  ghost function Next(s: Sched, c: Conf, e: Step): Sched
    requires Inv(s, c) && Enabled(s, e)
  {
    match e
    case Submit(w, r, now) => Add(s, c, w, r, now)
    case Back(w, r, n, bio) => BackMerge(s, w, r, n, bio)
    case Front(w, r, n, bio) => FrontMerge(s, w, r, n, bio)
    case Join(w, r, x) => MergeRequests(s, w, r, x)
    case Send(now) => Dispatch(s, c, now)
  }

  /** The bios a step brings in. */
  ghost function Brings(e: Step): seq<nat> {
    match e
    case Submit(_, r, _) => r.bios
    case Back(_, _, _, bio) => [bio]
    case Front(_, _, _, bio) => [bio]
    case Join(_, _, _) => []
    case Send(_) => []
  }

  lemma NextInv(s: Sched, c: Conf, e: Step)
    requires Inv(s, c) && Enabled(s, e)
    ensures Inv(Next(s, c, e), c)
    ensures forall b :: Total(Next(s, c, e), b) == Total(s, b) + Occurs(Brings(e), b)
  {
    hide Total, Inv, Add, BackMerge, FrontMerge, MergeRequests, Dispatch;
    match e
    case Submit(w, r, now) => AddInv(s, c, w, r, now);
    case Back(w, r, n, bio) => BackInv(s, c, w, r, n, bio);
    case Front(w, r, n, bio) =>
      FrontInv(s, c, w, r, n, bio);
      forall b ensures Total(Next(s, c, e), b) == Total(s, b) + Occurs(Brings(e), b) {
        FrontHeld(s, c, w, r, n, bio, b);
      }
    case Join(w, r, x) => JoinInv(s, c, w, r, x);
    case Send(now) => DispatchInv(s, c, now);
  }

  /** s can go through the steps and end at t. */
  ghost predicate Run(s: Sched, c: Conf, es: seq<Step>, t: Sched)
    decreases |es|
  {
    if es == [] then s == t
    else Inv(s, c) && Enabled(s, es[0]) && Run(Next(s, c, es[0]), c, es[1..], t)
  }

  ghost function Brought(es: seq<Step>, b: nat): nat {
    if es == [] then 0 else Occurs(Brings(es[0]), b) + Brought(es[1..], b)
  }

  lemma {:induction false} RunInv(s: Sched, c: Conf, es: seq<Step>, t: Sched)
    requires Inv(s, c) && Run(s, c, es, t)
    ensures Inv(t, c)
    ensures forall b :: Total(t, b) == Total(s, b) + Brought(es, b)
    decreases |es|
  {
    hide Total, Inv, Next;
    if es != [] {
      NextInv(s, c, es[0]);
      RunInv(Next(s, c, es[0]), c, es[1..], t);
    }
  }

  /** A run can go on with any step that is enabled: asking for the invariant excludes no run. */
  lemma {:induction false} RunExtends(s: Sched, c: Conf, es: seq<Step>, t: Sched, e: Step)
    requires Inv(s, c) && Run(s, c, es, t) && Enabled(t, e)
    ensures Inv(t, c) && Run(s, c, es + [e], Next(t, c, e))
    decreases |es|
  {
    hide Inv, Enabled, Next;
    if es != [] {
      NextInv(s, c, es[0]);
      RunExtends(Next(s, c, es[0]), c, es[1..], t, e);
      assert (es + [e])[1..] == es[1..] + [e];
    } else {
      assert (es + [e])[1..] == [];
    }
  }

  /** Over every run from a fresh scheduler, each bio is on the dispatch list or in one of the trees as
      often as it was brought in. */
  lemma NothingLost(c: Conf, es: seq<Step>, t: Sched)
    requires Run(INIT, c, es, t)
    ensures Inv(t, c)
    ensures forall b :: Held(t.out, b) + Held(t.read.sort, b) + Held(t.write.sort, b) == Brought(es, b)
  {
    RunInv(INIT, c, es, t);
    forall b ensures Held(t.out, b) + Held(t.read.sort, b) + Held(t.write.sort, b) == Brought(es, b) {
      assert Total(t, b) == Total(INIT, b) + Brought(es, b);
    }
  }

  // ---- deadlines ----

  /** The head of the list tells whether anything in that direction has expired. */
  lemma HeadExpiresFirst(s: Sched, c: Conf, w: bool, now: nat)
    requires Inv(s, c) && Of(s, w).fifo != []
    ensures now > Of(s, w).fifo[0].time <==> exists r :: r in Of(s, w).sort && now > r.time
  {
    var d := Of(s, w);
    if now > d.fifo[0].time {
      assert d.fifo[0] in d.sort;
    }
    forall r | r in d.sort ensures d.fifo[0].time <= r.time {
      assert r in d.fifo;
    }
  }

  /** Outside a batch, an expired request of the chosen direction is served before any other: the one
      sent expires no later than anything queued there. */
  lemma ExpiredServed(s: Sched, c: Conf, now: nat, w: bool, r: Rq)
    requires Inv(s, c) && !Continues(s, c) && Direction(s, c) == Some(w)
    requires r in Of(s, w).sort && now > r.time
    ensures Selected(s, c, now).Some? && Selected(s, c, now).value.0 == w
    ensures Selected(s, c, now).value.1.time <= r.time
  {
    assert r in Of(s, w).fifo;
  }
}
