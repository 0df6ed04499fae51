/** block/deadline-iosched.c: what each hook leaves queued, request by request, and by when. */
module DeadlineSteps {
  import opened SectorTree
  import opened Deadline
  import opened DeadlineSafety

  /** What is queued in the other direction stays, and so does everything in this one but what the call
      takes out and puts in. */
  ghost predicate Exchanged(s: Sched, t: Sched, w: bool, gone: set<Rq>, q: Rq) {
    && Of(t, !w).sort == Of(s, !w).sort && Of(t, !w).fifo == Of(s, !w).fifo
    && forall x :: x in Of(t, w).sort <==> x == q || (x in Of(s, w).sort && x !in gone)
  }

  /** Sent off to make room: the request at the same sector, if there is one. */
  ghost predicate MadeRoom(s: Sched, out: seq<Rq>, w: bool, sector: nat, gone: set<Rq>) {
    || (gone == {} && out == s.out && forall x :: x in Of(s, w).sort ==> x.sector != sector)
    || exists a :: a in Of(s, w).sort && a.sector == sector && gone == {a} && out == s.out + [a]
  }

  lemma AliasFound(s: seq<Rq>, sector: nat)
    requires Sorted(s)
    ensures match Alias(s, sector)
            case None => forall x :: x in s ==> x.sector != sector
            case Some(a) => a in s && a.sector == sector
  {
    hide Place;
    var i := Place(s, sector);
    forall x | x in s && x.sector == sector ensures i < |s| && s[i].sector == sector {
      var k :| 0 <= k < |s| && s[k] == x;
      assert k >= i;
    }
  }

  lemma ClearQueues(s: Sched, c: Conf, w: bool, sector: nat) returns (gone: set<Rq>)
    requires Inv(s, c)
    ensures var t := Clear(s, w, sector);
            && MadeRoom(s, t.out, w, sector, gone)
            && Of(t, !w).sort == Of(s, !w).sort && Of(t, !w).fifo == Of(s, !w).fifo
            && forall x :: x in Of(t, w).sort <==> x in Of(s, w).sort && x !in gone
  {
    hide Alias, Without, Pos, NextOf, Timed;
    var d := Of(s, w);
    AliasFound(d.sort, sector);
    match Alias(d.sort, sector)
    case None => gone := {};
    case Some(a) =>
      gone := {a};
      SortedDistinct(d.sort);
      WithoutIn(d.sort, a);
      InBoth(d, a);
  }

  /** deadline_add_request: the newcomer expires its direction's time from now, and stands last. */
  lemma AddQueues(s: Sched, c: Conf, w: bool, r: Rq, now: nat) returns (gone: set<Rq>)
    requires Inv(s, c) && s.clock <= now
    ensures var t := Add(s, c, w, r, now);
            var q := r.(time := now + if w then c.writeExpire else c.readExpire);
            && Exchanged(s, t, w, gone, q) && MadeRoom(s, t.out, w, r.sector, gone)
            && Of(t, w).fifo != [] && Of(t, w).fifo[|Of(t, w).fifo| - 1] == q
  {
    hide Clear, Link, MadeRoom, Linked, Sorted, Timed, Distinct, Alias;
    gone := ClearQueues(s, c, w, r.sector);
    ClearInv(s, c, w, r.sector);
    var q := r.(time := now + Expire(c, w));
    LinkInv(Of(Clear(s, w, r.sector), w), q);
    LinkKeeps(Of(Clear(s, w, r.sector), w), q);
  }

  /** A bio at the back: the request grows where it is and expires when it did. */
  lemma BackQueues(s: Sched, c: Conf, w: bool, r: Rq, n: nat, bio: nat)
    requires Inv(s, c) && r in Of(s, w).sort
    ensures r in Of(s, w).fifo
    ensures var t := BackMerge(s, w, r, n, bio);
            var q := Rq(r.sector, r.nr + n, r.time, r.bios + [bio], r.sync, r.meta);
            && Exchanged(s, t, w, {r}, q) && t.out == s.out && |Of(t, w).fifo| == |Of(s, w).fifo|
            && Of(t, w).fifo[Pos(Of(s, w).fifo, r)] == q
  {
    hide Pos, Timed, Sorted, Distinct;
    var d := Of(s, w);
    SortedDistinct(d.sort);
    SameSector(d.sort, r);
    ReplaceIn(d.sort, r, r.(nr := r.nr + n, bios := r.bios + [bio]));
  }

  /** A bio at the front, deadline_merged_request: the request starts lower and expires when it did; a
      request already there is sent off. */
  lemma FrontQueues(s: Sched, c: Conf, w: bool, r: Rq, n: nat, bio: nat) returns (gone: set<Rq>)
    requires Inv(s, c) && r in Of(s, w).sort && n <= r.sector
    ensures r in Of(s, w).fifo
    ensures var t := FrontMerge(s, w, r, n, bio);
            var q := Rq(r.sector - n, r.nr + n, r.time, [bio] + r.bios, r.sync, r.meta);
            Exchanged(s, t, w, {r} + gone, q) && MadeRoom(Rest(s, w, r), t.out, w, q.sector, gone)
  {
    hide Pos, Without, Insert, Replace, Place, Alias, Sorted, Timed, Distinct, MadeRoom, Linked, Relinked;
    InBoth(Of(s, w), r);
    var q := r.(sector := r.sector - n, nr := r.nr + n, bios := [bio] + r.bios);
    gone := RoomFor(s, w, r, q);
    RelinkedFields(s, w, r, q);
  }

  lemma RelinkedFields(s: Sched, w: bool, r: Rq, q: Rq)
    requires r in Of(s, w).fifo && r in Of(s, w).sort && Linked(Of(s, w)) && Sorted(Of(s, w).sort)
    requires var alias := Alias(Without(Of(s, w).sort, r), q.sector);
             alias.Some? ==> alias.value in Without(Of(s, w).sort, r)
    ensures var t := Relinked(s, w, r, q);
            var sort := Without(Of(s, w).sort, r);
            var alias := Alias(sort, q.sector);
            var room := if alias.Some? then Without(sort, alias.value) else sort;
            && Of(t, w).sort == Insert(room, Place(room, q.sector), q)
            && t.out == s.out + (if alias.Some? then [alias.value] else [])
            && Of(t, !w).sort == Of(s, !w).sort && Of(t, !w).fifo == Of(s, !w).fifo
  {
    hide Pos, Without, Insert, Replace, Place, NextOf, Alias, Sorted, Linked;
    match Alias(Without(Of(s, w).sort, r), q.sector)
    case None => assert s.out + [] == s.out;
    case Some(a) =>
      AliasLinked(Of(s, w), r, q.sector);
      StillThere(Of(s, w).fifo, r, a);
  }

  /** The tree without r and without what sits at the sector of q, and then with q. */
  lemma RoomFor(s: Sched, w: bool, r: Rq, q: Rq) returns (gone: set<Rq>)
    requires r in Of(s, w).sort && Sorted(Of(s, w).sort)
    ensures var sort := Without(Of(s, w).sort, r);
            var alias := Alias(sort, q.sector);
            && (alias.Some? ==> alias.value in sort)
            && MadeRoom(Rest(s, w, r), s.out + (if alias.Some? then [alias.value] else []), w, q.sector, gone)
            && var room := if alias.Some? then Without(sort, alias.value) else sort;
               forall x :: x in Insert(room, Place(room, q.sector), q)
                      <==> x == q || (x in Of(s, w).sort && x !in {r} + gone)
  {
    hide Pos, Without, Insert, Place, Alias, Sorted, Distinct;
    var all := Of(s, w).sort;
    var sort := Without(all, r);
    SortedDistinct(all);
    WithoutIn(all, r);
    WithoutOrder(all, r);
    AliasFound(sort, q.sector);
    match Alias(sort, q.sector)
    case None =>
      gone := {};
      InsertIn(sort, Place(sort, q.sector), q);
    case Some(a) =>
      gone := {a};
      WithoutIn(sort, a);
      InsertIn(Without(sort, a), Place(Without(sort, a), q.sector), q);
  }

  /** All that is queued but r. */
  ghost function Rest(s: Sched, w: bool, r: Rq): Sched
    requires r in Of(s, w).sort
  {
    Put(s, w, Of(s, w).(sort := Without(Of(s, w).sort, r)))
  }

  /** The survivor of a merge of two requests: the earlier time of the two. */
  function Joined(r: Rq, x: Rq): Rq {
    Rq(r.sector, r.nr + x.nr, if x.time < r.time then x.time else r.time, r.bios + x.bios, r.sync, r.meta)
  }

  lemma AbsorbQueues(d: Side, r: Rq, x: Rq, latest: nat)
    requires SideInv(d, latest) && r in d.sort && x in d.sort && r != x
    ensures var e := Absorb(d, r, x);
            && Sorted(e.sort) && forall y :: y in e.sort <==> y == Joined(r, x) || (y in d.sort && y != r)
  {
    hide Pos, Without, Insert, Replace, Timed;
    var q := Joined(r, x);
    SortedDistinct(d.sort);
    SameSector(d.sort, r);
    ReplaceIn(d.sort, r, q);
    SameSectorOrder(d.sort, r, q);
  }

  /** deadline_merged_requests: the two become one that expires no later than either. */
  lemma JoinQueues(s: Sched, c: Conf, w: bool, r: Rq, x: Rq)
    requires Inv(s, c) && r in Of(s, w).sort && x in Of(s, w).sort && r != x
    ensures Exchanged(s, MergeRequests(s, w, r, x), w, {r, x}, Joined(r, x))
    ensures MergeRequests(s, w, r, x).out == s.out && Joined(r, x).time <= r.time && Joined(r, x).time <= x.time
  {
    hide Pos, Without, Insert, Replace, Timed, Absorb;
    var d := Of(s, w);
    AbsorbQueues(d, r, x, s.clock + Expire(c, w));
    var e := Absorb(d, r, x);
    SortedDistinct(e.sort);
    WithoutIn(e.sort, x);
    SameSector(d.sort, r);
  }
}
