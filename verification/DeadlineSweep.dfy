/** block/deadline-iosched.c: the order in which requests leave.  The next request is the one above the
    last in sector order, and a direction served alone is a one-way elevator. */
module DeadlineSweep {
  import opened Options
  import opened SectorTree
  import opened Deadline
  import opened DeadlineSafety

  /** q is the lowest request that starts above the sector. */
  ghost predicate LowestAbove(s: seq<Rq>, sector: nat, q: Rq) {
    q in s && q.sector > sector && forall x :: x in s && x.sector > sector ==> q.sector <= x.sector
  }

  /** rb_next of a sorted tree */
  lemma NextIsLowestAbove(s: seq<Rq>, r: Rq)
    requires Sorted(s) && r in s
    ensures NextOf(s, r).None? <==> forall x :: x in s ==> x.sector <= r.sector
    ensures NextOf(s, r).Some? ==> LowestAbove(s, r.sector, NextOf(s, r).value)
  {
    hide Pos;
    var p := Pos(s, r);
    if p + 1 < |s| {
      assert s[p + 1] in s;
      forall x | x in s && x.sector > r.sector ensures s[p + 1].sector <= x.sector {
        var k :| 0 <= k < |s| && s[k] == x;
        assert k > p;
      }
    }
  }

  /** deadline_move_request: the batch goes on with the lowest request of the same direction above the
      one sent, if there is one, and with nothing of the other; the request after it in sequence is one
      that starts where it ended. */
  lemma MoveGoesUp(s: Sched, c: Conf, w: bool, r: Rq)
    requires Inv(s, c) && r in Of(s, w).sort
    ensures r in Of(s, w).fifo
    ensures var t := Move(s, w, r);
            && t.out == s.out + [r] && Of(t, !w).next.None? && t.lastSector == r.sector + r.nr
            && (Of(t, w).next.None? <==> forall x :: x in Of(s, w).sort ==> x.sector <= r.sector)
            && (Of(t, w).next.Some? ==> LowestAbove(Of(t, w).sort, r.sector, Of(t, w).next.value))
  {
    hide Pos, Without, NextOf, Sorted;
    var sort := Of(s, w).sort;
    NextIsLowestAbove(sort, r);
    NotNext(sort, r);
    SortedDistinct(sort);
    WithoutIn(sort, r);
  }

  lemma NotNext(s: seq<Rq>, r: Rq)
    requires Sorted(s) && r in s
    ensures NextOf(s, r) != Some(r)
  {
    hide Pos;
  }

  // ---- one direction alone ----

  /** Nothing of the other direction is queued, and nothing has expired. */
  ghost predicate Calm(s: Sched, w: bool, now: nat) {
    Of(s, !w).sort == [] && forall r :: r in Of(s, w).sort ==> now <= r.time
  }

  /** From the next request up to the highest, then from the lowest. */
  ghost function Sweep(d: Side): seq<Rq>
    requires Linked(d)
  {
    if d.next.None? then d.sort
    else
      var p := Pos(d.sort, d.next.value);
      d.sort[p..] + d.sort[..p]
  }

  ghost function Dispatched(s: Sched, c: Conf, times: seq<nat>): Sched
    requires Inv(s, c)
    decreases |times|
  {
    if times == [] then s
    else
      DispatchInv(s, c, times[0]);
      Dispatched(Dispatch(s, c, times[0]), c, times[1..])
  }

  /** Whether or not the batch goes on, the request sent is the first of the sweep. */
  lemma SelectsFirst(s: Sched, c: Conf, now: nat, w: bool)
    requires Inv(s, c) && Calm(s, w, now) && Of(s, w).sort != []
    ensures Sweep(Of(s, w)) != [] && Selected(s, c, now) == Some((w, Sweep(Of(s, w))[0]))
  {
    hide Pos, Sorted, Timed, Distinct;
    var d := Of(s, w);
    SortNotEmpty(d);
    SortNotEmpty(Of(s, !w));
    assert d.fifo[0] in d.sort;
  }

  /** The sweep goes on from the request above the one that leaves. */
  lemma SweepGoesOn(d: Side, r: Rq)
    requires Linked(d) && Sorted(d.sort) && d.sort != [] && Sweep(d)[0] == r
    ensures r in d.sort
    ensures var e := Side(d.fifo, Without(d.sort, r), NextOf(d.sort, r));
            |e.sort| == |d.sort| - 1 && (e.next.Some? ==> e.next.value in e.sort)
            && (if e.next.None? then e.sort
                else e.sort[Pos(e.sort, e.next.value)..] + e.sort[..Pos(e.sort, e.next.value)]) == Sweep(d)[1..]
  {
    hide Pos, Linked;
    SortedDistinct(d.sort);
    var p := Pos(d.sort, r);
    assert d.next.None? ==> p == 0;
    var rest := Without(d.sort, r);
    if p + 1 < |d.sort| {
      assert rest[p] == d.sort[p + 1];
      WithoutIn(d.sort, r);
      assert Pos(rest, d.sort[p + 1]) == p;
      assert rest[p..] == d.sort[p + 1..] && rest[..p] == d.sort[..p];
    }
  }

  lemma MovedSweep(s: Sched, c: Conf, w: bool, r: Rq)
    requires Inv(s, c) && Of(s, w).sort != [] && Sweep(Of(s, w))[0] == r
    ensures r in Of(s, w).sort && r in Of(s, w).fifo && Inv(Move(s, w, r), c)
    ensures Sweep(Of(Move(s, w, r), w)) == Sweep(Of(s, w))[1..]
    ensures Of(Move(s, w, r), !w).sort == Of(s, !w).sort
    ensures forall x :: x in Of(Move(s, w, r), w).sort ==> x in Of(s, w).sort
    ensures |Of(Move(s, w, r), w).sort| == |Of(s, w).sort| - 1
  {
    hide Pos, Timed, Without, NextOf, Sorted;
    var d := Of(s, w);
    SweepGoesOn(d, r);
    MoveInv(s, c, w, r);
    NotNext(d.sort, r);
    SortedDistinct(d.sort);
    WithoutIn(d.sort, r);
  }

  /** One-way elevator: as long as one direction is alone and nothing expires, the requests leave in
      sector order from the next one up, and then from the lowest again, whatever the batch limit. */
  lemma {:induction false} OneWayElevator(s: Sched, c: Conf, times: seq<nat>, w: bool)
    requires Inv(s, c) && |times| == |Of(s, w).sort| && forall i :: 0 <= i < |times| ==> Calm(s, w, times[i])
    ensures var t := Dispatched(s, c, times); t.out == s.out + Sweep(Of(s, w)) && Of(t, w).sort == []
    decreases |times|
  {
    hide Pos, Linked, Sorted, Timed, Distinct, Calm, Sweep, Move, Selected, Counters, Dispatch;
    if times == [] {
      SweepEmpty(s, c, w);
    } else {
      SweepStep(s, c, times[0], w);
      var t := Dispatch(s, c, times[0]);
      forall i | 0 <= i < |times[1..]| ensures Calm(t, w, times[1..][i]) {
        CalmStays(s, t, w, times[i + 1]);
      }
      OneWayElevator(t, c, times[1..], w);
      assert s.out + Sweep(Of(s, w)) == s.out + [Sweep(Of(s, w))[0]] + Sweep(Of(s, w))[1..];
    }
  }

  lemma SweepEmpty(s: Sched, c: Conf, w: bool)
    requires Inv(s, c) && Of(s, w).sort == []
    ensures Linked(Of(s, w)) && Sweep(Of(s, w)) == []
  {
  }

  lemma CalmStays(s: Sched, t: Sched, w: bool, now: nat)
    requires Calm(s, w, now) && Of(t, !w).sort == Of(s, !w).sort
    requires forall x :: x in Of(t, w).sort ==> x in Of(s, w).sort
    ensures Calm(t, w, now)
  {
  }

  lemma SweepStep(s: Sched, c: Conf, now: nat, w: bool)
    requires Inv(s, c) && Calm(s, w, now) && Of(s, w).sort != []
    ensures Linked(Of(s, w)) && Sweep(Of(s, w)) != [] && Inv(Dispatch(s, c, now), c)
    ensures var t := Dispatch(s, c, now);
            && Linked(Of(t, w)) && t.out == s.out + [Sweep(Of(s, w))[0]]
            && Sweep(Of(t, w)) == Sweep(Of(s, w))[1..] && Of(t, !w).sort == Of(s, !w).sort
            && |Of(t, w).sort| == |Of(s, w).sort| - 1 && forall x :: x in Of(t, w).sort ==> x in Of(s, w).sort
  {
    hide Pos, Calm, Sweep, Counters, Selected, Sorted, Timed, Distinct;
    SelectsFirst(s, c, now, w);
    SelectedLinked(s, c, now);
    var (b, n) := Counters(s, c, now);
    MovedSweep(s.(batching := b, starved := n), c, w, Sweep(Of(s, w))[0]);
  }
}
