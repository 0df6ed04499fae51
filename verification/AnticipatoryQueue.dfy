/** The anticipatory scheduler's dispatch and completion as they update struct as_data. */
module AnticipatoryQueue {
  import opened Options
  import opened SectorTree
  import opened Anticipatory
  import opened AnticipatoryRuns

  class AsData {
    var d: As

    constructor ()
      ensures d == START && Inv(d)
    {
      d := START;
    }

    /** as_completed_request */
    method CompletedRequest(r: AsRq, batch: nat)
      requires Inv(d) && r in d.flying
      modifies this
      ensures d == Completed(old(d), r, batch) && Inv(d)
    {
      hide Inv, Landed, Noticed, Clocked;
      CompletedInv(d, r, batch);
      CountLanding(r);
      if d.newBatch && d.syncBatch == r.sync {
        d := d.(writeBatch := batch, newBatch := false);
      }
      ClockedIs(old(d), r, batch);
      assert d == Clocked(Landed(old(d), r), r, batch);
      if d.ctx == Some(r.ctx) {
        d := d.(finished := true);
        if d.status == WaitReq {
          d := Expect(d);
        }
      }
      NoticedIs(Clocked(Landed(old(d), r), r, batch), r);
    }

    method CountLanding(r: AsRq)
      requires r in d.flying
      modifies this
      ensures d == Landed(old(d), r)
    {
      hide Without;
      if d.changed && d.nrDispatched == 1 {
        d := d.(work := true, changed := false);
        if d.syncBatch {
          d := d.(newBatch := true);
        }
      }
      d := d.(nrDispatched := d.nrDispatched - 1, flying := Without(d.flying, r));
    }

    /** dispatch_request to the end of as_dispatch_request */
    method Settled(r: AsRq) returns (sent: Option<AsRq>)
      requires Ready(d) && r in Of(d, r.sync) && r.sync == d.syncBatch
      modifies this
      ensures (d, sent) == Settle(old(d), r)
    {
      hide Move, Ready;
      ReadyBatch(d);
      if d.changed {
        if d.nrDispatched != 0 {
          return None;
        }
        if d.syncBatch {
          d := d.(newBatch := true);
        }
        d := d.(changed := false);
      }
      d := Move(d, r);
      return Some(r);
    }

    /** as_dispatch_request, not forced */
    method DispatchRequest(a: Ask) returns (sent: Option<AsRq>)
      requires Inv(d) && AskOk(d, a)
      modifies this
      ensures (d, sent) == Dispatch(old(d), a) && Inv(d)
    {
      hide Settle, Inv;
      NeverStuck(d, a);
      IdleInv(d);
      if !d.syncBatch && d.syncs == [] {
        if d.writeCount == 0 || d.asyncs == [] {
          d := d.(idled := true);
        }
      }
      assert d == Idle(old(d));
      if (d.syncs == [] && d.asyncs == []) || Waiting(d) || d.changed {
        return None;
      }
      InvReady(d);
      if !(d.syncs != [] && d.asyncs != [] && BatchExpired(d, a.late)) {
        var rq := NextIn(a, d.syncBatch);
        if d.syncBatch && a.anticipates {
          if a.fifoFirst {
            sent := Settled(d.syncs[0]);
            return;
          }
          if CanAnticipate(d, rq, a.breaks) {
            d := Await(d);
            return None;
          }
        }
        if rq.Some? {
          sent := Settled(if a.fifoLast then Of(d, d.syncBatch)[0] else rq.value);
          return;
        }
      }
      sent := SwitchBatch(a);
    }

    /** The selection of a new direction */
    method SwitchBatch(a: Ask) returns (sent: Option<AsRq>)
      requires Inv(d) && AskOk(d, a) && !d.changed && !Waiting(d) && (d.syncs != [] || d.asyncs != [])
      modifies this
      ensures (d, sent) == Switch(old(d), a)
    {
      hide ServeReads, ServeWrites, Inv, AskOk;
      NextOk(d, a);
      if d.syncs != [] && !(d.asyncs != [] && d.syncBatch) {
        sent := NewReads(a);
      } else {
        sent := NewWrites(a);
      }
    }

    method NewReads(a: Ask) returns (sent: Option<AsRq>)
      requires Inv(d) && !d.changed && !Waiting(d) && d.syncs != []
      modifies this
      ensures (d, sent) == ServeReads(old(d), a)
    {
      hide Settle;
      ghost var before := d;
      if !d.syncBatch {
        d := d.(changed := true);
      }
      d := d.(syncBatch := true);
      FlightKept(before, d.(changed := false));
      sent := Settled(d.syncs[0]);
    }

    method NewWrites(a: Ask) returns (sent: Option<AsRq>)
      requires Inv(d) && !d.changed && !Waiting(d) && a.nextAsync.Some? && a.nextAsync.value in d.asyncs
      modifies this
      ensures (d, sent) == ServeWrites(old(d), a)
    {
      hide Settle;
      ghost var before := d;
      if d.syncBatch {
        d := d.(changed := true, newBatch := false);
      }
      d := d.(syncBatch := false, writeCount := d.writeBatch, idled := false);
      FlightKept(before, d.(changed := false));
      sent := Settled(if a.fifoLast then d.asyncs[0] else a.nextAsync.value);
    }

    /** as_dispatch_request, forced: everything queued is dispatched */
    method ForcedDispatch() returns (n: nat)
      requires Inv(d)
      modifies this
      ensures Inv(d) && d.syncs == [] && d.asyncs == [] && !d.changed && !d.newBatch
      ensures n == |old(d).syncs| + |old(d).asyncs| && |d.flying| == |old(d).flying| + n
    {
      hide Move, Without;
      n := 0;
      FlightKept(d, Zeroed(d));
      d := Zeroed(d);
      while d.syncs != []
        invariant Inv(d) && !d.changed && !d.newBatch && d.asyncs == old(d).asyncs
        invariant n + |d.syncs| == |old(d).syncs| && |d.flying| == |old(d).flying| + n
        decreases |d.syncs|
      {
        MoveInv(d, d.syncs[0]);
        MoveLists(d, d.syncs[0]);
        d := Move(d, d.syncs[0]);
        n := n + 1;
      }
      while d.asyncs != []
        invariant Inv(d) && !d.changed && !d.newBatch && d.syncs == []
        invariant n + |d.asyncs| == |old(d).syncs| + |old(d).asyncs| && |d.flying| == |old(d).flying| + n
        decreases |d.asyncs|
      {
        MoveInv(d, d.asyncs[0]);
        MoveLists(d, d.asyncs[0]);
        d := Move(d, d.asyncs[0]);
        n := n + 1;
      }
    }
  }

  lemma ClockedIs(s: As, r: AsRq, batch: nat)
    requires r in s.flying
    ensures var t := Landed(s, r);
            var first := t.newBatch && t.syncBatch == r.sync;
            Clocked(t, r, batch) == if first then t.(newBatch := false, writeBatch := batch) else t
  {
  }

  lemma NoticedIs(s: As, r: AsRq)
    ensures Noticed(s, r) == if s.ctx != Some(r.ctx) then s
                             else if s.status == WaitReq then Expect(s.(finished := true)) else s.(finished := true)
  {
  }

  lemma NextOk(s: As, a: Ask)
    requires Inv(s) && AskOk(s, a)
    ensures s.asyncs != [] ==> a.nextAsync.Some? && a.nextAsync.value in s.asyncs
    ensures (forall r :: r in s.syncs ==> r.sync) && (forall r :: r in s.asyncs ==> !r.sync)
    ensures s.newBatch ==> s.syncBatch && !s.changed
  {
  }

  lemma ReadyBatch(s: As)
    requires Ready(s)
    ensures s.changed ==> !s.newBatch
  {
  }

  lemma MoveLists(s: As, r: AsRq)
    requires r in Of(s, r.sync)
    ensures var t := Move(s, r);
            && |t.flying| == |s.flying| + 1 && t.changed == s.changed && t.newBatch == s.newBatch
            && |Of(t, r.sync)| == |Of(s, r.sync)| - 1 && Of(t, !r.sync) == Of(s, !r.sync)
  {
    hide Without;
    WithoutLess(Of(s, r.sync), r);
  }
}
