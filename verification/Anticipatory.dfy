/** block/as-iosched.c: the waiting states of the anticipatory scheduler.  The conditions of its BUG_ON
    and WARN_ON checks on these states are preconditions here. */
module Anticipatory {
  import opened Options
  import opened SectorTree

  /** A request and the io context it came from. */
  datatype AsRq = AsRq(id: nat, ctx: nat, sync: bool)

  datatype Status = Off | WaitReq | WaitNext | Finished

  /** struct as_data.  flying: dispatched and not completed; timer: armed, and expired with its handler
      still to run; work: the queue run that has been scheduled. */
  datatype As = As(syncs: seq<AsRq>, asyncs: seq<AsRq>, flying: seq<AsRq>, nrDispatched: int, status: Status,
                   ctx: Option<nat>, finished: bool, changed: bool, newBatch: bool, syncBatch: bool,
                   writeCount: nat, writeBatch: nat, idled: bool, armed: bool, firing: bool, work: bool)

  const START := As([], [], [], 0, Off, None, false, false, false, false, 0, 2, false, false, false, false)

  predicate Waiting(s: As) { s.status == WaitReq || s.status == WaitNext }

  function Of(s: As, sync: bool): seq<AsRq> { if sync then s.syncs else s.asyncs }

  // ---- anticipation ----

  /** as_antic_waitnext */
  function Expect(s: As): As
    requires s.status == Off || s.status == WaitReq
  {
    s.(armed := true, status := WaitNext)
  }

  /** as_antic_waitreq */
  function Await(s: As): As
    requires s.status != Finished
  {
    if s.status != Off then s
    else if s.ctx.None? || s.finished then Expect(s)
    else s.(status := WaitReq)
  }

  /** as_antic_stop */
  function Stop(s: As): As {
    if Waiting(s) then s.(armed := s.armed && s.status != WaitNext, status := Finished, work := true) else s
  }

  /** as_antic_timeout */
  function TimedOut(s: As): As
    requires s.firing && (Waiting(s) ==> s.ctx.Some?)
  {
    var t := s.(firing := false);
    if Waiting(s) then t.(status := Finished, work := true) else t
  }

  /** as_move_to_dispatch */
  function Move(s: As, r: AsRq): As
    requires r in Of(s, r.sync)
  {
    var t := Stop(s).(status := Off, finished := false, flying := s.flying + [r], nrDispatched := s.nrDispatched + 1);
    if r.sync then t.(ctx := Some(r.ctx), syncs := Without(s.syncs, r))
    else t.(ctx := None, asyncs := Without(s.asyncs, r),
      writeCount := if s.writeCount != 0 then s.writeCount - 1 else 0)
  }

  // ---- dispatch ----

  /** What one dispatch asks its surroundings: the cached next requests, the clocks, and the statistics
      on which as_can_break_anticipation decides for a request of another process. */
  datatype Ask = Ask(nextSync: Option<AsRq>, nextAsync: Option<AsRq>, late: bool, fifoFirst: bool, fifoLast: bool,
                     breaks: bool, anticipates: bool)

  function NextIn(a: Ask, sync: bool): Option<AsRq> { if sync then a.nextSync else a.nextAsync }

  /** The cached next request of a direction is one of its requests, missing only when there is none. */
  ghost predicate AskOk(s: As, a: Ask) {
    && (a.nextSync.None? <==> s.syncs == []) && (a.nextSync.Some? ==> a.nextSync.value in s.syncs)
    && (a.nextAsync.None? <==> s.asyncs == []) && (a.nextAsync.Some? ==> a.nextAsync.value in s.asyncs)
    && (a.fifoFirst ==> s.syncs != [])
  }

  /** as_batch_expired */
  predicate BatchExpired(s: As, late: bool) {
    !s.changed && !s.newBatch && (late || (!s.syncBatch && s.writeCount == 0))
  }

  /** as_can_anticipate */
  predicate CanAnticipate(s: As, rq: Option<AsRq>, breaks: bool) {
    s.ctx.Some? && s.status != Finished && !breaks && (rq.Some? ==> rq.value.ctx != s.ctx.value)
  }

  /** From the label fifo_expired's end on: a batch that has just changed waits for the old one. */
  function Settle(s: As, r: AsRq): (As, Option<AsRq>)
    requires r in Of(s, r.sync) && r.sync == s.syncBatch && (s.changed ==> !s.newBatch)
  {
    if s.changed && s.nrDispatched != 0 then (s, None)
    else
      var t := s.(changed := false, newBatch := s.newBatch || (s.changed && s.syncBatch));
      (Move(t, r), Some(r))
  }

  /** The label dispatch_request. */
  function Serve(s: As, r: AsRq, expired: bool): (As, Option<AsRq>)
    requires r in Of(s, r.sync) && r.sync == s.syncBatch && (s.changed ==> !s.newBatch)
    requires forall x :: x in Of(s, s.syncBatch) ==> x.sync == s.syncBatch
  {
    Settle(s, if expired then Of(s, s.syncBatch)[0] else r)
  }

  /** The label dispatch_writes. */
  function ServeWrites(s: As, a: Ask): (As, Option<AsRq>)
    requires a.nextAsync.Some? && a.nextAsync.value in s.asyncs && (forall x :: x in s.asyncs ==> !x.sync)
    requires s.newBatch ==> s.syncBatch
  {
    var t := if s.syncBatch then s.(changed := true, newBatch := false) else s;
    Serve(t.(syncBatch := false, writeCount := s.writeBatch, idled := false), a.nextAsync.value, a.fifoLast)
  }

  /** A new read batch. */
  function ServeReads(s: As, a: Ask): (As, Option<AsRq>)
    requires s.syncs != [] && (forall x :: x in s.syncs ==> x.sync)
    requires !s.changed && (!s.syncBatch ==> !s.newBatch)
  {
    var t := if s.syncBatch then s else s.(changed := true);
    Serve(t.(syncBatch := true), s.syncs[0], a.fifoLast)
  }

  /** A new batch: of writes after reads when both are queued. */
  function Switch(s: As, a: Ask): (As, Option<AsRq>)
    requires Inv(s) && AskOk(s, a) && !s.changed && (s.syncs != [] || s.asyncs != [])
  {
    if s.syncs != [] && !(s.asyncs != [] && s.syncBatch) then ServeReads(s, a) else ServeWrites(s, a)
  }

  /** The running batch of reads: an expired request, a wait for a better one, or the next in line. */
  function Continue(s: As, a: Ask): (As, Option<AsRq>)
    requires Inv(s) && AskOk(s, a) && !s.changed && !Waiting(s) && (s.syncs != [] || s.asyncs != [])
  {
    var rq := NextIn(a, s.syncBatch);
    if s.syncBatch && a.anticipates && a.fifoFirst then Settle(s, s.syncs[0])
    else if s.syncBatch && a.anticipates && CanAnticipate(s, rq, a.breaks) then (Await(s), None)
    else if rq.Some? then Serve(s, rq.value, a.fifoLast)
    else Switch(s, a)
  }

  /** Signal that a write batch was uncontended. */
  function Idle(s: As): As {
    s.(idled := s.idled || (!s.syncBatch && s.syncs == [] && (s.writeCount == 0 || s.asyncs == [])))
  }

  /** as_dispatch_request, not forced */
  function Dispatch(s: As, a: Ask): (As, Option<AsRq>)
    requires Inv(s) && AskOk(s, a)
  {
    if (s.syncs == [] && s.asyncs == []) || Waiting(s) || s.changed then (Idle(s), None)
    else
      IdleInv(s);
      if s.syncs != [] && s.asyncs != [] && BatchExpired(s, a.late) then Switch(Idle(s), a) else Continue(Idle(s), a)
  }

  lemma IdleInv(s: As)
    requires Inv(s)
    ensures Inv(Idle(s))
  {
    assert forall c :: InFlight(s, c) ==> InFlight(Idle(s), c);
  }

  // ---- the other hooks ----

  /** A request has come back: the last of an old batch lets the new one begin. */
  function Landed(s: As, r: AsRq): As
    requires r in s.flying
  {
    var ends := s.changed && s.nrDispatched == 1;
    s.(work := s.work || ends, changed := s.changed && !ends, newBatch := s.newBatch || (ends && s.syncBatch),
       nrDispatched := s.nrDispatched - 1, flying := Without(s.flying, r))
  }

  /** The first completion of a new batch starts its clock; batch is the new size of a write batch. */
  function Clocked(s: As, r: AsRq, batch: nat): As {
    if s.newBatch && s.syncBatch == r.sync then s.(newBatch := false, writeBatch := batch) else s
  }

  /** The awaited process has its answer. */
  function Noticed(s: As, r: AsRq): As {
    if s.ctx != Some(r.ctx) then s
    else
      var v := s.(finished := true);
      if v.status == WaitReq then Expect(v) else v
  }

  /** as_completed_request */
  function Completed(s: As, r: AsRq, batch: nat): As
    requires r in s.flying
  {
    Noticed(Clocked(Landed(s, r), r, batch), r)
  }

  /** On its direction's list, at the end. */
  function Listed(s: As, r: AsRq): As {
    if r.sync then s.(syncs := s.syncs + [r]) else s.(asyncs := s.asyncs + [r])
  }

  /** as_update_rq: the state machine looks at the newcomer. */
  function Heeded(s: As, r: AsRq, breaks: bool): As
    requires Waiting(s) ==> s.ctx.Some?
  {
    if Waiting(s) && (breaks || s.ctx.value == r.ctx) then Stop(s) else s
  }

  /** as_add_request: an alias of the new request leaves first. */
  function Add(s: As, r: AsRq, alias: Option<AsRq>, breaks: bool): As
    requires alias.Some? ==> alias.value.sync == r.sync && alias.value in Of(s, r.sync)
    requires Waiting(s) ==> s.ctx.Some?
  {
    Heeded(Listed(if alias.Some? then Stop(Move(s, alias.value)) else s, r), r, breaks)
  }

  // ---- what every state keeps ----

  ghost predicate InFlight(s: As, ctx: nat) { exists r :: r in s.flying && r.sync && r.ctx == ctx }

  ghost predicate Inv(s: As) {
    && s.nrDispatched == |s.flying|
    && (forall r :: r in s.syncs ==> r.sync) && (forall r :: r in s.asyncs ==> !r.sync)
    && (s.status == WaitReq ==> s.ctx.Some? && !s.finished)
    && (s.ctx.Some? && !s.finished ==> InFlight(s, s.ctx.value))
    && (s.status == WaitNext ==> s.ctx.Some? && (s.armed || s.firing))
    && (s.changed ==> s.nrDispatched > 0)
    && (s.newBatch ==> s.syncBatch && !s.changed)
  }
}
