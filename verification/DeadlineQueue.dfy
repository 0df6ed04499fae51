/** The deadline scheduler's hooks as they update struct deadline_data. */
module DeadlineQueue {
  import opened Options
  import opened SectorTree
  import opened Deadline
  import opened DeadlineSafety

  class DeadlineData {
    var read: Side
    var write: Side
    var batching: u32
    var lastSector: nat
    var starved: u32
    var out: seq<Rq>
    ghost var clock: nat
    const conf: Conf

    ghost function View(): Sched
      reads this
    {
      Sched(read, write, batching, lastSector, starved, out, clock)
    }

    /** deadline_init_queue */
    constructor (c: Conf)
      ensures View() == INIT && conf == c && Inv(View(), c)
    {
      conf := c;
      read, write := NO_SIDE, NO_SIDE;
      batching, lastSector, starved, out, clock := 0, 0, 0, [], 0;
    }

    function Dir(w: bool): Side
      reads this
    {
      if w then write else read
    }

    method SetNext(w: bool, next: Option<Rq>)
      modifies `read, `write
      ensures View() == Put(old(View()), w, old(Dir(w)).(next := next))
    {
      if w {
        write := write.(next := next);
      } else {
        read := read.(next := next);
      }
    }

    method SetSide(w: bool, d: Side)
      modifies `read, `write
      ensures View() == Put(old(View()), w, d)
    {
      if w {
        write := d;
      } else {
        read := d;
      }
    }

    /** deadline_remove_request */
    method RemoveRequest(w: bool, r: Rq)
      requires r in Dir(w).fifo && r in Dir(w).sort
      modifies `read, `write
      ensures View() == Put(old(View()), w, Remove(old(Dir(w)), r))
    {
      SetSide(w, Dir(w).(fifo := Without(Dir(w).fifo, r)));
      if Dir(w).next == Some(r) {
        SetNext(w, NextOf(Dir(w).sort, r));
      }
      SetSide(w, Dir(w).(sort := Without(Dir(w).sort, r)));
    }

    /** deadline_move_request */
    method MoveRequest(w: bool, r: Rq)
      requires r in Dir(w).fifo && r in Dir(w).sort
      modifies `read, `write, `lastSector, `out
      ensures View() == Move(old(View()), w, r)
    {
      var next := NextOf(Dir(w).sort, r);
      SetNext(false, None);
      SetNext(true, None);
      if next.Some? {
        SetNext(w, next);
      }
      lastSector := r.sector + r.nr;
      RemoveRequest(w, r);
      out := out + [r];
    }

    /** deadline_add_rq_rb */
    method AddRqRb(w: bool, q: Rq)
      requires Inv(View(), conf)
      modifies `read, `write, `lastSector, `out
      ensures var t := Clear(old(View()), w, q.sector); View() == Put(t, w, Link(Of(t, w), q))
    {
      hide Link, Place, Pos, Without, NextOf, Sorted, Timed, Distinct, Move;
      ClearInv(View(), conf, w, q.sector);
      var alias := Alias(Dir(w).sort, q.sector);
      while alias.Some?
        invariant alias == Alias(Dir(w).sort, q.sector)
        invariant View() == if alias.Some? then old(View()) else Clear(old(View()), w, q.sector)
        decreases alias.Some?
      {
        MoveRequest(w, alias.value);
        alias := Alias(Dir(w).sort, q.sector);
      }
      SetSide(w, Link(Dir(w), q));
    }

    /** deadline_add_request */
    method AddRequest(w: bool, r: Rq, now: nat)
      requires Inv(View(), conf) && clock <= now
      modifies this
      ensures View() == Add(old(View()), conf, w, r, now) && Inv(View(), conf)
    {
      hide Clear, Link;
      AddInv(View(), conf, w, r, now);
      var q := r.(time := now + Expire(conf, w));
      AddRqRb(w, q);
      clock := now;
      SetSide(w, Dir(w).(fifo := Dir(w).fifo + [q]));
    }

    /** deadline_merged_request, for a request to which a bio of n sectors has just been joined.  A
        back merge leaves it where it is; a front merge takes it out of the tree and links it again. */
    method MergedRequest(w: bool, r: Rq, n: nat, bio: nat, front: bool)
      requires Inv(View(), conf) && r in Dir(w).sort && (front ==> n <= r.sector)
      modifies this
      ensures r in old(Dir(w)).fifo && Inv(View(), conf)
      ensures View() == if front then FrontMerge(old(View()), w, r, n, bio) else BackMerge(old(View()), w, r, n, bio)
    {
      hide Link, Place, Pos, Without, NextOf, Sorted, Timed, Distinct, Move, Replace;
      if front {
        FrontInv(View(), conf, w, r, n, bio);
        Reposition(w, r, r.(sector := r.sector - n, nr := r.nr + n, bios := [bio] + r.bios));
      } else {
        BackInv(View(), conf, w, r, n, bio);
        var q := r.(nr := r.nr + n, bios := r.bios + [bio]);
        var next := if Dir(w).next == Some(r) then Some(q) else Dir(w).next;
        SetSide(w, Side(Replace(Dir(w).fifo, r, q), Replace(Dir(w).sort, r, q), next));
      }
    }

    /** elv_rb_del and deadline_add_rq_rb of the request r that has become q. */
    method Reposition(w: bool, r: Rq, q: Rq)
      requires Inv(View(), conf) && r in Dir(w).fifo && r in Dir(w).sort
      modifies this
      ensures View() == Relinked(old(View()), w, r, q)
    {
      hide Link, Place, Pos, Without, NextOf, Sorted, Timed, Distinct, Replace;
      var d := Dir(w);
      SetSide(w, d.(sort := Without(d.sort, r)));
      var alias := Alias(Dir(w).sort, q.sector);
      if alias.Some? {
        AliasLinked(d, r, q.sector);
        StillThere(d.fifo, r, alias.value);
        MoveRequest(w, alias.value);
      } else if d.next == Some(r) {
        SetNext(w, Some(q));
      }
      SetSide(w, Link(Dir(w).(fifo := Replace(Dir(w).fifo, r, q)), q));
    }

    /** The part of deadline_merged_requests that looks at the times, for requests already merged. */
    method TakeEarlierTime(w: bool, r: Rq, x: Rq)
      requires Linked(Dir(w)) && r in Dir(w).sort && x in Dir(w).sort && r != x
      modifies `read, `write
      ensures View() == Put(old(View()), w, Absorb(old(Dir(w)), r, x))
    {
      hide Pos, Insert, Without;
      var d := Dir(w);
      var q := r.(nr := r.nr + x.nr, bios := r.bios + x.bios);
      if x.time < r.time {
        StillThere(d.fifo, x, r);
        var rest := Without(d.fifo, r);
        q := q.(time := x.time);
        d := d.(fifo := Insert(rest, Pos(rest, x) + 1, q));
      } else {
        d := d.(fifo := Replace(d.fifo, r, q));
      }
      d := d.(sort := Replace(d.sort, r, q));
      SetSide(w, if d.next == Some(r) then d.(next := Some(q)) else d);
    }

    /** deadline_merged_requests */
    method MergedRequests(w: bool, r: Rq, x: Rq)
      requires Inv(View(), conf) && r in Dir(w).sort && x in Dir(w).sort && r != x
      modifies this
      ensures View() == MergeRequests(old(View()), w, r, x) && Inv(View(), conf)
    {
      hide Absorb;
      JoinInv(View(), conf, w, r, x);
      TakeEarlierTime(w, r, x);
      RemoveRequest(w, x);
    }

    /** dispatch_find_request */
    method FindRequest(w: bool, now: nat) returns (r: Rq)
      requires Linked(Dir(w)) && Dir(w).fifo != []
      modifies `batching
      ensures Dir(w).sort != [] && r == Best(Dir(w), now).0
      ensures batching == if Best(Dir(w), now).1 then 0 else old(batching)
    {
      SortNotEmpty(Dir(w));
      if now > Dir(w).fifo[0].time {
        batching := 0;
        r := Dir(w).fifo[0];
      } else if Dir(w).next.Some? {
        r := Dir(w).next.value;
      } else {
        batching := 0;
        r := Dir(w).sort[0];
      }
    }

    /** The choice of a direction; the result says whether anything is queued. */
    method ChooseDirection() returns (some: bool, w: bool)
      modifies `starved
      ensures Direction(old(View()), conf) == if some then Some(w) else None
      ensures starved == if some then Starved(old(View()), w) else old(starved)
    {
      some, w := true, false;
      var someReads, someWrites := read.fifo != [], write.fifo != [];
      if someReads {
        if someWrites {
          var was := starved;
          starved := Add32(starved, 1);
          if was >= conf.writesStarved {
            starved, w := 0, true;
          }
        }
      } else if someWrites {
        starved, w := 0, true;
      } else {
        some := false;
      }
    }

    /** deadline_dispatch_requests */
    method DispatchRequests(now: nat) returns (sent: bool)
      requires Inv(View(), conf)
      modifies this
      ensures View() == Dispatch(old(View()), conf, now) && Inv(View(), conf)
      ensures sent <==> |out| == |old(out)| + 1
    {
      hide Pos, Without, NextOf, Sorted, Timed, Distinct, Move, Add32, Best;
      DispatchInv(View(), conf, now);
      SelectedLinked(View(), conf, now);
      var w := write.next.Some?;
      var next := if w then write.next else read.next;
      if next.Some? && lastSector != next.value.sector {
        batching := Add32(batching, conf.fifoBatch);
      }
      if next.Some? && batching < conf.fifoBatch {
        batching := Add32(batching, 1);
        MoveRequest(w, next.value);
        return true;
      }
      sent, w := ChooseDirection();
      if sent {
        var r := FindRequest(w, now);
        batching := Add32(batching, 1);
        MoveRequest(w, r);
      }
    }
  }
}
