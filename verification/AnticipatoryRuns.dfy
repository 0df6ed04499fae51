/** The anticipatory scheduler is never stuck. */
module AnticipatoryRuns {
  import opened Options
  import opened SectorTree
  import opened Anticipatory

  lemma WithoutLess(s: seq<AsRq>, r: AsRq)
    requires r in s
    ensures |Without(s, r)| == |s| - 1 && forall x :: x in Without(s, r) ==> x in s
  {
    hide Pos;
  }

  /** Waiting is over, one way or another, once a request moves. */
  lemma MoveInv(s: As, r: AsRq)
    requires r in Of(s, r.sync) && s.nrDispatched == |s.flying|
    requires (forall x :: x in s.syncs ==> x.sync) && (forall x :: x in s.asyncs ==> !x.sync)
    requires s.newBatch ==> s.syncBatch && !s.changed
    ensures Inv(Move(s, r)) && Move(s, r).status == Off
  {
    hide Without;
    WithoutLess(Of(s, r.sync), r);
    var t := Move(s, r);
    assert r in t.flying;
  }

  /** What Settle is called with: in order but for a batch that has changed this very moment. */
  ghost predicate Ready(s: As) {
    && Inv(s.(changed := false)) && s.nrDispatched >= 0 && !Waiting(s) && (s.changed ==> !s.newBatch)
  }

  lemma SettleInv(s: As, r: AsRq)
    requires Ready(s) && r in Of(s, r.sync) && r.sync == s.syncBatch
    ensures var (t, sent) := Settle(s, r);
            && Inv(t) && (sent.None? ==> t == s && t.changed && t.nrDispatched > 0)
            && (sent.Some? ==>
                  t.nrDispatched == s.nrDispatched + 1 && sent.value.sync == s.syncBatch && t.status == Off)
  {
    hide Move;
    if s.changed && s.nrDispatched != 0 {
      FlightKept(s.(changed := false), s);
    } else {
      var t := s.(changed := false, newBatch := s.newBatch || (s.changed && s.syncBatch));
      MoveInv(t, r);
      MoveCount(t, r);
    }
  }

  lemma MoveCount(s: As, r: AsRq)
    requires r in Of(s, r.sync)
    ensures Move(s, r).nrDispatched == s.nrDispatched + 1
  {
  }

  lemma FlightKept(s: As, t: As)
    requires s.flying == t.flying
    ensures forall c :: InFlight(s, c) ==> InFlight(t, c)
  {
  }

  lemma ServeInv(s: As, r: AsRq, expired: bool)
    requires Ready(s) && r in Of(s, r.sync) && r.sync == s.syncBatch
    ensures forall x :: x in Of(s, s.syncBatch) ==> x.sync == s.syncBatch
    ensures Outcome(s, Serve(s, r, expired).0, Serve(s, r, expired).1)
  {
    hide Settle, Outcome;
    SettledOutcome(s, if expired then Of(s, s.syncBatch)[0] else r);
  }

  /** A dispatch keeps the state in order, and one that sends nothing has left something to wait for. */
  ghost predicate Outcome(s: As, t: As, sent: Option<AsRq>) {
    && Inv(t) && (sent.Some? ==> t.nrDispatched == s.nrDispatched + 1)
    && (sent.None? ==> Blocked(t) && (t.status == s.status || s.status == Off))
  }

  /** Something will happen that runs the queue again: a request of the awaited process completes, the
      timer expires, or the old batch drains. */
  ghost predicate Blocked(s: As) {
    || (s.status == WaitReq && s.ctx.Some? && InFlight(s, s.ctx.value))
    || (s.status == WaitNext && (s.armed || s.firing))
    || (s.changed && s.flying != [])
  }

  /** Reasons to wait that are already there. */
  lemma StillBlocked(s: As)
    requires Inv(s) && (Waiting(s) || s.changed)
    ensures Blocked(s)
  {
  }

  lemma IdleBlocked(s: As)
    requires Inv(s) && Blocked(s)
    ensures Blocked(Idle(s))
  {
    FlightKept(s, Idle(s));
  }

  lemma InvReady(s: As)
    requires Inv(s) && !Waiting(s) && !s.changed
    ensures Ready(s)
    ensures (forall r :: r in s.syncs ==> r.sync) && (forall r :: r in s.asyncs ==> !r.sync)
  {
    FlightKept(s, s.(changed := false));
  }

  lemma SwitchInv(s: As, a: Ask)
    requires Inv(s) && AskOk(s, a) && !s.changed && !Waiting(s) && (s.syncs != [] || s.asyncs != [])
    ensures Outcome(s, Switch(s, a).0, Switch(s, a).1)
  {
    hide ServeReads, ServeWrites, Outcome, Inv;
    if s.syncs != [] && !(s.asyncs != [] && s.syncBatch) {
      ReadsInv(s, a);
    } else {
      WritesInv(s, a);
    }
  }

  lemma ContinueInv(s: As, a: Ask)
    requires Inv(s) && AskOk(s, a) && !s.changed && !Waiting(s) && (s.syncs != [] || s.asyncs != [])
    ensures Outcome(s, Continue(s, a).0, Continue(s, a).1)
  {
    hide Settle, Serve, Switch, Outcome, Await, Ready, Inv;
    InvReady(s);
    var rq := NextIn(a, s.syncBatch);
    if s.syncBatch && a.anticipates && a.fifoFirst {
      SettledOutcome(s, s.syncs[0]);
    } else if s.syncBatch && a.anticipates && CanAnticipate(s, rq, a.breaks) {
      AwaitInv(s);
    } else if rq.Some? {
      ServeInv(s, rq.value, a.fifoLast);
    } else {
      SwitchInv(s, a);
    }
  }

  /** Never stuck: whenever requests are queued, a dispatch sends one of them or something it waits for
      is under way. */
  lemma NeverStuck(s: As, a: Ask)
    requires Inv(s) && AskOk(s, a)
    ensures Inv(Dispatch(s, a).0)
    ensures s.syncs != [] || s.asyncs != [] ==> Outcome(s, Dispatch(s, a).0, Dispatch(s, a).1)
    ensures s.syncs == [] && s.asyncs == [] ==> Dispatch(s, a).1.None?
  {
    hide Switch, Continue, Inv, Blocked;
    IdleInv(s);
    if Waiting(s) || s.changed {
      StillBlocked(s);
      IdleBlocked(s);
    } else if s.syncs != [] || s.asyncs != [] {
      if s.syncs != [] && s.asyncs != [] && BatchExpired(s, a.late) {
        SwitchInv(Idle(s), a);
      } else {
        ContinueInv(Idle(s), a);
      }
    }
  }

  lemma SettledOutcome(s: As, r: AsRq)
    requires Ready(s) && r in Of(s, r.sync) && r.sync == s.syncBatch
    ensures Outcome(s, Settle(s, r).0, Settle(s, r).1)
  {
    hide Settle;
    SettleInv(s, r);
  }

  lemma AwaitInv(s: As)
    requires Inv(s) && s.status == Off && s.ctx.Some?
    ensures Outcome(s, Await(s), None)
  {
    FlightKept(s, Await(s));
  }

  lemma ReadsInv(s: As, a: Ask)
    requires Inv(s) && !Waiting(s) && s.syncs != [] && !s.changed
    ensures Outcome(s, ServeReads(s, a).0, ServeReads(s, a).1)
  {
    hide Serve;
    var t := if s.syncBatch then s else s.(changed := true);
    FlightKept(s, t);
    ServeInv(t.(syncBatch := true), s.syncs[0], a.fifoLast);
  }

  lemma WritesInv(s: As, a: Ask)
    requires Inv(s) && !Waiting(s) && !s.changed && a.nextAsync.Some? && a.nextAsync.value in s.asyncs
    ensures Outcome(s, ServeWrites(s, a).0, ServeWrites(s, a).1)
  {
    hide Serve;
    var t := if s.syncBatch then s.(changed := true, newBatch := false) else s;
    FlightKept(s, t);
    ServeInv(t.(syncBatch := false, writeCount := s.writeBatch, idled := false), a.nextAsync.value, a.fifoLast);
  }

  /** After a timeout or a stop the next dispatch does not wait for the process again. */
  lemma FinishedSends(s: As, a: Ask)
    requires Inv(s) && AskOk(s, a) && s.status == Finished && (s.syncs != [] || s.asyncs != [])
    ensures Dispatch(s, a).1.Some? || (Dispatch(s, a).0.changed && Dispatch(s, a).0.flying != [])
  {
    hide Dispatch, Inv;
    NeverStuck(s, a);
  }

  lemma FlightStays(s: As, t: As, r: AsRq, ctx: nat)
    requires r in s.flying && t.flying == Without(s.flying, r) && InFlight(s, ctx) && r.ctx != ctx
    ensures InFlight(t, ctx)
  {
    hide Without;
    var x :| x in s.flying && x.sync && x.ctx == ctx;
    StillThere(s.flying, x, r);
  }

  /** In order, except that the request just completed may have been the one in flight. */
  ghost predicate InvBut(s: As, r: AsRq) {
    && s.nrDispatched == |s.flying|
    && (forall x :: x in s.syncs ==> x.sync) && (forall x :: x in s.asyncs ==> !x.sync)
    && (s.status == WaitReq ==> s.ctx.Some? && !s.finished)
    && (s.ctx.Some? && !s.finished ==> s.ctx.value == r.ctx || InFlight(s, s.ctx.value))
    && (s.status == WaitNext ==> s.ctx.Some? && (s.armed || s.firing))
    && (s.changed ==> s.nrDispatched > 0)
    && (s.newBatch ==> s.syncBatch && !s.changed)
  }

  lemma LandedInv(s: As, r: AsRq)
    requires Inv(s) && r in s.flying
    ensures InvBut(Landed(s, r), r) && (s.changed && !Landed(s, r).changed ==> Landed(s, r).work)
  {
    hide Without, InFlight;
    WithoutLess(s.flying, r);
    if s.ctx.Some? && !s.finished && s.ctx.value != r.ctx {
      FlightStays(s, Landed(s, r), r, s.ctx.value);
    }
  }

  lemma ClockedInv(s: As, r: AsRq, batch: nat)
    requires InvBut(s, r)
    ensures InvBut(Clocked(s, r, batch), r)
    ensures Clocked(s, r, batch).work == s.work && Clocked(s, r, batch).changed == s.changed
  {
    FlightKept(s, Clocked(s, r, batch));
  }

  lemma NoticedInv(s: As, r: AsRq)
    requires InvBut(s, r)
    ensures Inv(Noticed(s, r)) && Noticed(s, r).work == s.work && Noticed(s, r).changed == s.changed
  {
    FlightKept(s, Noticed(s, r));
  }

  lemma CompletedInv(s: As, r: AsRq, batch: nat)
    requires Inv(s) && r in s.flying
    ensures Inv(Completed(s, r, batch))
    ensures s.changed && !Completed(s, r, batch).changed ==> Completed(s, r, batch).work
  {
    hide Landed, Noticed, Clocked, Inv, InvBut;
    LandedInv(s, r);
    ClockedInv(Landed(s, r), r, batch);
    NoticedInv(Clocked(Landed(s, r), r, batch), r);
  }

  lemma StopInv(s: As)
    requires Inv(s)
    ensures Inv(Stop(s)) && (Waiting(s) ==> Stop(s).work)
  {
    FlightKept(s, Stop(s));
  }

  lemma QueuedInv(s: As, r: AsRq)
    requires Inv(s)
    ensures Inv(if r.sync then s.(syncs := s.syncs + [r]) else s.(asyncs := s.asyncs + [r]))
  {
    FlightKept(s, if r.sync then s.(syncs := s.syncs + [r]) else s.(asyncs := s.asyncs + [r]));
  }

  lemma AddInv(s: As, r: AsRq, alias: Option<AsRq>, breaks: bool)
    requires Inv(s) && (alias.Some? ==> alias.value.sync == r.sync && alias.value in Of(s, r.sync))
    ensures Waiting(s) ==> s.ctx.Some?
    ensures Inv(Add(s, r, alias, breaks))
  {
    if alias.Some? {
      MoveInv(s, alias.value);
      StopInv(Move(s, alias.value));
    }
    hide Move, Stop, Inv;
    var t := if alias.Some? then Stop(Move(s, alias.value)) else s;
    QueuedInv(t, r);
    StopInv(if r.sync then t.(syncs := t.syncs + [r]) else t.(asyncs := t.asyncs + [r]));
  }

  /** A timeout ends the waiting and schedules a run of the queue. */
  lemma TimedOutInv(s: As)
    requires Inv(s) && s.firing
    ensures Inv(TimedOut(s)) && (Waiting(s) ==> TimedOut(s).work && TimedOut(s).status == Finished)
  {
    FlightKept(s, TimedOut(s));
  }

  // ---- runs ----

  /** Force is a forced dispatch in the given order, Expire the timer and Handle its handler, Work the
      queue run that was scheduled. */
  datatype Step =
    | Queue(rq: AsRq, alias: Option<AsRq>, breaks: bool)
    | Try(ask: Ask)
    | Force(order: seq<AsRq>)
    | Complete(rq: AsRq, batch: nat)
    | Expire
    | Handle
    | Work

  /** The scheduler, and whether the driver's last call found nothing to do. */
  datatype Sys = Sys(d: As, asleep: bool)

  predicate Empty(s: As) { s.syncs == [] && s.asyncs == [] }

  /** The accounting reset a forced dispatch begins with. */
  function Zeroed(s: As): As { s.(syncBatch := true, changed := false, newBatch := false) }

  /** The order lists everything queued. */
  ghost predicate Drains(s: As, order: seq<AsRq>)
    decreases |order|
  {
    if order == [] then Empty(s) else order[0] in Of(s, order[0].sync) && Drains(Move(s, order[0]), order[1..])
  }

  ghost function Drained(s: As, order: seq<AsRq>): As
    requires Drains(s, order)
    decreases |order|
  {
    if order == [] then s else Drained(Move(s, order[0]), order[1..])
  }

  ghost predicate Enabled(s: As, e: Step) {
    match e
    case Queue(r, alias, _) => alias.Some? ==> alias.value.sync == r.sync && alias.value in Of(s, r.sync)
    case Try(a) => AskOk(s, a)
    case Force(order) => Drains(Zeroed(s), order)
    case Complete(r, _) => r in s.flying
    case Expire => s.armed
    case Handle => s.firing
    case Work => s.work
  }

  ghost function Next(s: As, e: Step): As
    requires Inv(s) && Enabled(s, e)
  {
    match e
    case Queue(r, alias, breaks) => Add(s, r, alias, breaks)
    case Try(a) => Dispatch(s, a).0
    case Force(order) => Drained(Zeroed(s), order)
    case Complete(r, batch) => Completed(s, r, batch)
    case Expire => s.(armed := false, firing := true)
    case Handle => TimedOut(s)
    case Work => s.(work := false)
  }

  /** A request for an empty scheduler plugs the queue, which brings the driver back; so does the queue
      run. */
  ghost predicate Sleeps(y: Sys, e: Step)
    requires Inv(y.d) && Enabled(y.d, e)
  {
    match e
    case Queue(_, _, _) => y.asleep && !Empty(y.d)
    case Try(a) => Dispatch(y.d, a).1.None?
    case Work => false
    case _ => y.asleep
  }

  ghost function After(y: Sys, e: Step): Sys
    requires Inv(y.d) && Enabled(y.d, e)
  {
    Sys(Next(y.d, e), Sleeps(y, e))
  }

  lemma {:induction false} DrainedInv(s: As, order: seq<AsRq>)
    requires Inv(s) && Drains(s, order)
    ensures Inv(Drained(s, order)) && Empty(Drained(s, order))
    decreases |order|
  {
    hide Move, Inv;
    if order != [] {
      MoveKeeps(s, order[0]);
      DrainedInv(Move(s, order[0]), order[1..]);
    }
  }

  lemma MoveKeeps(s: As, r: AsRq)
    requires Inv(s) && r in Of(s, r.sync)
    ensures Inv(Move(s, r))
  {
    hide Move;
    MoveInv(s, r);
  }

  lemma NextInv(s: As, e: Step)
    requires Inv(s) && Enabled(s, e)
    ensures Inv(Next(s, e))
  {
    hide Add, Dispatch, Completed, Move, TimedOut;
    match e
    case Queue(r, alias, breaks) => AddInv(s, r, alias, breaks);
    case Try(a) => NeverStuck(s, a);
    case Force(order) => FlightKept(s, Zeroed(s)); DrainedInv(Zeroed(s), order);
    case Complete(r, batch) => CompletedInv(s, r, batch);
    case Expire => FlightKept(s, Next(s, e));
    case Handle => TimedOutInv(s);
    case Work => FlightKept(s, Next(s, e));
  }

  /** Either something that is waited for is under way, or a run of the queue is scheduled. */
  ghost predicate Roused(s: As) { Blocked(s) || s.work }

  /** A driver that found nothing although requests are queued will be called again. */
  ghost predicate Awake(y: Sys) { y.asleep && !Empty(y.d) ==> Roused(y.d) }

  lemma StopRoused(s: As)
    requires Inv(s) && Roused(s)
    ensures Roused(Stop(s))
  {
    FlightKept(s, Stop(s));
  }

  lemma MoveRoused(s: As, r: AsRq)
    requires Inv(s) && Roused(s) && r in Of(s, r.sync)
    ensures Roused(Move(s, r))
  {
    hide Without;
  }

  lemma AddRoused(s: As, r: AsRq, alias: Option<AsRq>, breaks: bool)
    requires Inv(s) && Roused(s) && (alias.Some? ==> alias.value.sync == r.sync && alias.value in Of(s, r.sync))
    ensures Waiting(s) ==> s.ctx.Some?
    ensures Roused(Add(s, r, alias, breaks))
  {
    if alias.Some? {
      MoveKeeps(s, alias.value);
      MoveRoused(s, alias.value);
      StopRoused(Move(s, alias.value));
      StopInv(Move(s, alias.value));
    }
    hide Move, Stop;
    var t := if alias.Some? then Stop(Move(s, alias.value)) else s;
    var u := if r.sync then t.(syncs := t.syncs + [r]) else t.(asyncs := t.asyncs + [r]);
    FlightKept(t, u);
    QueuedInv(t, r);
    StopRoused(u);
  }

  lemma CompletedRoused(s: As, r: AsRq, batch: nat)
    requires Inv(s) && Roused(s) && r in s.flying
    ensures Roused(Completed(s, r, batch))
  {
    var t := Completed(s, r, batch);
    CompletedInv(s, r, batch);
    CompletedFields(s, r, batch);
    if !t.work && (Waiting(t) || t.changed) {
      hide Completed;
      StillBlocked(t);
    }
  }

  lemma CompletedFields(s: As, r: AsRq, batch: nat)
    requires r in s.flying
    ensures var t := Completed(s, r, batch);
            && (s.work ==> t.work) && (Waiting(s) ==> Waiting(t)) && (s.changed ==> t.changed || t.work)
  {
    hide Without;
  }

  lemma AfterAwake(y: Sys, e: Step)
    requires Inv(y.d) && Enabled(y.d, e) && Awake(y)
    ensures Awake(After(y, e))
  {
    hide Inv, Dispatch, Add, Completed, TimedOut, Blocked, Drained, Drains;
    var s := y.d;
    match e
    case Queue(r, alias, breaks) =>
      if y.asleep && !Empty(s) { AddRoused(s, r, alias, breaks); }
    case Try(a) => TryAwake(s, a);
    case Force(order) => ForceEmpty(s, order);
    case Complete(r, batch) =>
      if y.asleep && !Empty(s) { CompletedRoused(s, r, batch); }
      CompletedLists(s, r, batch);
    case Expire => ExpireRoused(s);
    case Handle => HandleRoused(s);
    case Work =>
  }

  lemma TryAwake(s: As, a: Ask)
    requires Inv(s) && AskOk(s, a)
    ensures Dispatch(s, a).1.None? && !Empty(Dispatch(s, a).0) ==> Roused(Dispatch(s, a).0)
  {
    NeverStuck(s, a);
  }

  lemma ForceEmpty(s: As, order: seq<AsRq>)
    requires Inv(s) && Drains(Zeroed(s), order)
    ensures Empty(Drained(Zeroed(s), order))
  {
    FlightKept(s, Zeroed(s));
    DrainedInv(Zeroed(s), order);
  }

  lemma CompletedLists(s: As, r: AsRq, batch: nat)
    requires r in s.flying
    ensures Completed(s, r, batch).syncs == s.syncs && Completed(s, r, batch).asyncs == s.asyncs
  {
    hide Without;
  }

  lemma ExpireRoused(s: As)
    ensures Roused(s) ==> Roused(s.(armed := false, firing := true))
  {
    FlightKept(s, s.(armed := false, firing := true));
  }

  lemma HandleRoused(s: As)
    requires Inv(s) && s.firing
    ensures Waiting(s) ==> s.ctx.Some?
    ensures TimedOut(s).syncs == s.syncs && TimedOut(s).asyncs == s.asyncs
    ensures Roused(s) ==> Roused(TimedOut(s))
  {
  }

  ghost predicate Run(y: Sys, es: seq<Step>, z: Sys)
    decreases |es|
  {
    if es == [] then y == z else Inv(y.d) && Enabled(y.d, es[0]) && Run(After(y, es[0]), es[1..], z)
  }

  lemma {:induction false} RunInv(y: Sys, es: seq<Step>, z: Sys)
    requires Inv(y.d) && Awake(y) && Run(y, es, z)
    ensures Inv(z.d) && Awake(z)
    decreases |es|
  {
    hide Inv, Next, Enabled, Awake, Sleeps;
    if es != [] {
      NextInv(y.d, es[0]);
      AfterAwake(y, es[0]);
      RunInv(After(y, es[0]), es[1..], z);
    }
  }

  /** A run can go on with any step that is enabled: asking for the invariant excludes no run. */
  lemma {:induction false} RunExtends(y: Sys, es: seq<Step>, z: Sys, e: Step)
    requires Inv(y.d) && Run(y, es, z) && Enabled(z.d, e)
    ensures Inv(z.d) && Run(y, es + [e], After(z, e))
    decreases |es|
  {
    hide Inv, Next, Enabled, Sleeps;
    if es != [] {
      NextInv(y.d, es[0]);
      RunExtends(After(y, es[0]), es[1..], z, e);
      assert (es + [e])[1..] == es[1..] + [e];
    } else {
      assert (es + [e])[1..] == [];
    }
  }

  /** In every reachable state: waiting for a request means one of that process is in flight, waiting
      for the next means the timer is running, a changed batch means the old one is not finished, and a
      new batch is a read batch that is under way. */
  lemma WaitsAreJustified(es: seq<Step>, z: Sys)
    requires Run(Sys(START, false), es, z)
    ensures z.d.status == WaitReq ==> z.d.ctx.Some? && InFlight(z.d, z.d.ctx.value)
    ensures z.d.status == WaitNext ==> z.d.armed || z.d.firing
    ensures z.d.changed ==> z.d.nrDispatched > 0 && z.d.flying != []
    ensures z.d.newBatch ==> z.d.syncBatch && !z.d.changed
  {
    RunInv(Sys(START, false), es, z);
  }

  /** No wake-up is lost: in every reachable state, if the driver was turned away and requests are
      queued, then a request of the awaited process is in flight, the timer is running, the old batch is
      in flight, or a run of the queue is scheduled. */
  lemma NoLostWakeup(es: seq<Step>, z: Sys)
    requires Run(Sys(START, false), es, z) && z.asleep && !Empty(z.d)
    ensures Blocked(z.d) || z.d.work
  {
    RunInv(Sys(START, false), es, z);
  }
}
