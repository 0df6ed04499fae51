/** block/cfq-iosched.c: what becomes of a queue's time slice when it runs out, is taken away, starts or
    has to wait. */
module CfqSlices {
  import opened Options
  import opened SectorTree
  import opened Cfq
  import opened CfqSafety
  import opened CfqOrder

  /** Nothing but queue i differs, and that is q. */
  ghost predicate Becomes(c: Data, d: Data, i: nat, q: Queue) { i < |c.queues| && d.queues == c.queues[i := q] }

  lemma LinkBecomes(c: Data, e: Env, i: nat, key: int)
    requires i < |c.queues| && EnvOk(e)
    ensures var d := LinkQueue(c, e, i, key);
            && Becomes(c, d, i, c.queues[i].(key := key)) && i in d.order
            && d.timer == c.timer && d.busy == c.busy
  {
    hide Descend;
    var p := Descend(e.shape(c.order), c.queues, c.queues[i], key);
    DescendInside(e.shape(c.order), c.queues, c.queues[i], key);
    assert Insert(c.order, p, i)[p] == i;
  }

  /** Linked anew, unless it stands under the key already. */
  lemma PlacedUnder(c: Data, d: Data, e: Env, i: nat, key: int)
    requires i < |c.queues| && EnvOk(e)
    requires d == if i !in c.order then LinkQueue(c, e, i, key)
                  else if key == c.queues[i].key then c else LinkQueue(Erase(c, i), e, i, key)
    ensures Becomes(c, d, i, c.queues[i].(key := key)) && i in d.order && d.timer == c.timer && d.busy == c.busy
  {
    hide LinkQueue, Erase;
    if i !in c.order {
      LinkBecomes(c, e, i, key);
    } else if key != c.queues[i].key {
      EraseFrame(c, i);
      LinkBecomes(Erase(c, i), e, i, key);
    }
  }

  /** cfq_service_tree_add: the queue is on the tree under its new key, and a residual is used up. */
  lemma AddedUnder(c: Data, e: Env, i: nat, front: bool)
    requires i < |c.queues| && EnvOk(e)
    ensures var (d, q) := (TreeAdd(c, e, i, front), c.queues[i]);
            && i in d.order && d.timer == c.timer && d.busy == c.busy
            && Becomes(c, d, i, if front then q.(key := 0)
                                else q.(key := e.offset(c.busy, i) + e.now + q.resid, resid := 0))
  {
    hide LinkQueue, Erase;
    var q := c.queues[i];
    if front {
      PlacedUnder(Set(c, i, q), TreeAdd(c, e, i, front), e, i, 0);
    } else {
      PlacedUnder(Set(c, i, q.(resid := 0)), TreeAdd(c, e, i, front), e, i, e.offset(c.busy, i) + e.now + q.resid);
    }
  }

  /** cfq_slice_expired: a slice that timed out counts what was left of it, or overrun, into the queue's
      next turn: a queue with requests goes where the end of its slice puts it, and one without keeps the
      difference until it has some. */
  lemma ExpiryCarriesOver(c: Data, e: Env, timedOut: bool, i: nat)
    requires EnvOk(e) && c.active == Some(i) && i < |c.queues|
    ensures var (d, q) := (SliceExpired(c, e, timedOut), c.queues[i]);
            var counts := timedOut && !q.sliceNew;
            && d.active.None? && (d.timer == (c.timer && !q.waitRequest))
            && !d.queues[i].waitRequest && !d.queues[i].mustDispatch
            && (forall j :: 0 <= j < |c.queues| && j != i ==> d.queues[j] == c.queues[j])
            && if q.onRr then
                 && i in d.order && d.queues[i].resid == 0
                 && d.queues[i].key == e.offset(c.busy, i) + if counts then q.sliceEnd else e.now + q.resid
               else d.order == c.order && d.queues[i].resid == if counts then q.sliceEnd - e.now else q.resid
  {
    hide TreeAdd, Ended, Becomes;
    var q := c.queues[i];
    var d := Set(c, i, Ended(q, timedOut, e.now)).(timer := if q.waitRequest then false else c.timer);
    EndedFields(q, timedOut, e.now);
    if q.onRr {
      AddedUnder(d, e, i, false);
      AddedFields(d, TreeAdd(d, e, i, false), i, e.offset(c.busy, i) + e.now + d.queues[i].resid);
    }
  }

  lemma EndedFields(q: Queue, timedOut: bool, now: int)
    ensures var p := Ended(q, timedOut, now);
            && p.onRr == q.onRr && !p.waitRequest && !p.mustDispatch && p.rt == q.rt && p.idle == q.idle
            && p.resid == if timedOut && !q.sliceNew then q.sliceEnd - now else q.resid
  {
  }

  lemma AddedFields(c: Data, d: Data, i: nat, key: int)
    requires i < |c.queues| && Becomes(c, d, i, c.queues[i].(key := key, resid := 0))
    ensures |d.queues| == |c.queues| && forall j :: 0 <= j < |c.queues| && j != i ==> d.queues[j] == c.queues[j]
    ensures d.queues[i].key == key && d.queues[i].resid == 0
    ensures d.queues[i].waitRequest == c.queues[i].waitRequest
    ensures d.queues[i].mustDispatch == c.queues[i].mustDispatch
    ensures d.queues[i].rt == c.queues[i].rt && d.queues[i].idle == c.queues[i].idle
  {
  }

  /** cfq_preempt_queue: the active queue loses its turn, and the preempting one stands before every
      queue of its class with a positive key, ready for a new slice. */
  lemma PreemptsActive(c: Data, e: Env, i: nat)
    requires EnvOk(e) && i < |c.queues| && (c.active.Some? ==> c.active.value < |c.queues|)
    ensures var d := Preempt(c, e, i);
            && d.active.None? && i in d.order && d.queues[i].key == 0 && d.queues[i].sliceNew
            && d.queues[i].rt == c.queues[i].rt && d.queues[i].idle == c.queues[i].idle
  {
    hide SliceExpired, TreeAdd;
    ExpiredClass(c, e, true, i);
    AddedUnder(SliceExpired(c, e, true), e, i, true);
  }

  lemma ExpiredClass(c: Data, e: Env, timedOut: bool, i: nat)
    requires EnvOk(e) && i < |c.queues| && (c.active.Some? ==> c.active.value < |c.queues|)
    ensures var d := SliceExpired(c, e, timedOut);
            d.active.None? && d.queues[i].rt == c.queues[i].rt && d.queues[i].idle == c.queues[i].idle
  {
    hide TreeAdd, Ended, Becomes;
    if c.active.Some? {
      var (j, q) := (c.active.value, c.queues[c.active.value]);
      var d := Set(c, j, Ended(q, timedOut, e.now)).(timer := if q.waitRequest then false else c.timer);
      EndedFields(q, timedOut, e.now);
      if q.onRr {
        AddedUnder(d, e, j, false);
        AddedFields(d, TreeAdd(d, e, j, false), j, e.offset(c.busy, j) + e.now + d.queues[j].resid);
      }
    }
  }

  /** So it is served next unless a queue of a better class, or one with a key that is not positive,
      waits too. */
  lemma PreemptedServedNext(c: Data, e: Env, i: nat)
    requires Served(c) && EnvOk(e) && i < |c.queues| && (c.active.Some? ==> c.active.value < |c.queues|)
    ensures var d := Preempt(c, e, i);
            && d.order != [] && d.order[0] < |d.queues|
            && var (f, q) := (d.queues[d.order[0]], d.queues[i]);
               d.order[0] == i || (f.rt && !q.rt) || (f.rt == q.rt && !f.idle && q.idle)
               || (f.rt == q.rt && f.idle == q.idle && f.key <= 0)
  {
    hide Preempt;
    PreemptsActive(c, e, i);
    PreemptServed(c, e, i);
    var d := Preempt(c, e, i);
    var a :| 0 <= a < |d.order| && d.order[a] == i;
    BehindIn(d.order, 0, a, d.queues);
  }

  /** cfq_rq_enqueued: an awaited request stops the idle timer; one that preempts takes the turn from
      the active queue; any other changes no turn. */
  lemma ArrivalTurns(c: Data, e: Env, i: nat, preempts: bool, idles: bool)
    requires i < |c.queues| && EnvOk(e) && (c.active.Some? ==> c.active.value < |c.queues|)
    ensures var d := Enqueued(c, e, i, preempts, idles);
            if c.active == Some(i) then
              && d.active == Some(i) && d.order == c.order && d.timer == (c.timer && !c.queues[i].waitRequest)
              && d.queues[i].mustDispatch == (c.queues[i].mustDispatch || c.queues[i].waitRequest)
            else if preempts then d.active.None? && i in d.order && d.queues[i].key == 0 && d.queues[i].mustDispatch
            else d.active == c.active && d.order == c.order && d.timer == c.timer
  {
    hide Preempt;
    PreemptsActive(Set(c, i, c.queues[i].(idleWindow := idles)), e, i);
  }

  /** cfq_completed_request of the active queue: the slice is timed from its first completion and given
      up exactly when it is over; if it is not, the timer starts exactly when the queue has run dry and
      waiting for its process is worthwhile. */
  lemma CompletionTimes(c: Data, e: Env, i: nat, sync: bool, slice: nat, arms: bool)
    requires EnvOk(e) && i < |c.queues| && c.active == Some(i)
    ensures var (d, q) := (Completed(c, e, i, sync, slice, arms), c.queues[i]);
            var end := if q.sliceNew then slice + e.now else q.sliceEnd;
            var waits := sync && q.sort == [] && q.idleWindow && arms;
            && (d.active.None? <==> e.now >= end)
            && (e.now < end ==> d.active == Some(i) && d.queues[i].sliceEnd == end && !d.queues[i].sliceNew
                                && d.timer == (c.timer || waits) && d.queues[i].waitRequest == (q.waitRequest || waits))
            && d.syncFlight == c.syncFlight - (if q.sync then 1 else 0)
  {
    hide ActiveDone;
    var q := c.queues[i];
    ActiveTimes(Set(c, i, q.(dispatched := q.dispatched - 1))
                  .(syncFlight := c.syncFlight - (if q.sync then 1 else 0),
                    lastEnd := if q.idle then c.lastEnd else e.now), e, i, sync, slice, arms);
  }

  lemma ActiveTimes(c: Data, e: Env, i: nat, sync: bool, slice: nat, arms: bool)
    requires EnvOk(e) && i < |c.queues| && c.active == Some(i)
    ensures var (d, q) := (ActiveDone(c, e, i, sync, slice, arms), c.queues[i]);
            var end := if q.sliceNew then slice + e.now else q.sliceEnd;
            var waits := sync && q.sort == [] && q.idleWindow && arms;
            && (d.active.None? <==> e.now >= end)
            && (e.now < end ==> d.active == Some(i) && d.queues[i].sliceEnd == end && !d.queues[i].sliceNew
                                && d.timer == (c.timer || waits) && d.queues[i].waitRequest == (q.waitRequest || waits))
            && d.syncFlight == c.syncFlight
  {
    hide SliceExpired;
    var q := c.queues[i];
    ExpiredFlight(Set(c, i, if q.sliceNew then q.(sliceEnd := slice + e.now, sliceNew := false) else q), e, i);
  }

  lemma ExpiredFlight(c: Data, e: Env, i: nat)
    requires EnvOk(e) && i < |c.queues| && c.active == Some(i)
    ensures SliceExpired(c, e, true).syncFlight == c.syncFlight && SliceExpired(c, e, true).active.None?
  {
    hide Descend, Without;
  }

  /** Of a queue that is not active, only the count of requests in flight changes. */
  lemma CompletionElsewhere(c: Data, e: Env, i: nat, sync: bool, slice: nat, arms: bool)
    requires EnvOk(e) && i < |c.queues| && c.active != Some(i)
    ensures var d := Completed(c, e, i, sync, slice, arms);
            && d.active == c.active && d.timer == c.timer && d.order == c.order
            && Becomes(c, d, i, c.queues[i].(dispatched := c.queues[i].dispatched - 1))
            && d.syncFlight == c.syncFlight - (if c.queues[i].sync then 1 else 0)
  {
  }
}
