/** block/as-iosched.c: when the anticipatory scheduler turns from reads to writes and back, when it
    waits, which request it sends, and how many writes reads wait for. */
module AnticipatoryBatches {
  import opened Options
  import opened SectorTree
  import opened Anticipatory
  import opened AnticipatoryRuns

  /** The scheduler may send something now. */
  predicate Free(s: As) { !Empty(s) && !Waiting(s) && !s.changed }

  /** Both directions have requests, and the running batch has had its time or its count. */
  predicate Contended(s: As, late: bool) {
    s.syncs != [] && s.asyncs != [] && !s.newBatch && (late || (!s.syncBatch && s.writeCount == 0))
  }

  /** The next read comes from another process than the one whose answer has just arrived, and nothing
      speaks against waiting for that one. */
  predicate WorthWaiting(s: As, a: Ask) {
    && s.syncBatch && a.anticipates && !a.fifoFirst && !a.breaks && s.status == Off
    && s.ctx.Some? && (a.nextSync.None? || a.nextSync.value.ctx != s.ctx.value)
  }

  /** What a dispatch does. */
  datatype Act = Rest | Wait | Go(rq: AsRq) | Turn

  ghost function Doing(s: As, a: Ask): Act {
    if !Free(s) then Rest
    else if Contended(s, a.late) then Turn
    else if WorthWaiting(s, a) then Wait
    else if s.syncBatch && a.anticipates && a.fifoFirst && s.syncs != [] then Go(s.syncs[0])
    else if NextIn(a, s.syncBatch).Some? && Of(s, s.syncBatch) != [] then
      Go(if a.fifoLast then Of(s, s.syncBatch)[0] else NextIn(a, s.syncBatch).value)
    else Turn
  }

  /** The count of writes left once r has been sent, or nothing. */
  function Left(count: nat, sent: Option<AsRq>): nat {
    if sent.Some? && !sent.value.sync && count != 0 then count - 1 else count
  }

  /** The running batch goes on with r. */
  ghost predicate WentOn(s: As, r: AsRq, t: As, sent: Option<AsRq>) {
    t.syncBatch == s.syncBatch && !Waiting(t) && sent == Some(r) && t.writeCount == Left(s.writeCount, sent)
  }

  /** A new batch: of the other direction if that has requests.  The first of it leaves at once, unless
      it is a change and something of the old batch is in flight. */
  ghost predicate Turned(s: As, a: Ask, t: As, sent: Option<AsRq>) {
    var toReads := s.syncs != [] && (s.asyncs == [] || !s.syncBatch);
    && t.syncBatch == toReads && !Waiting(t)
    && (toReads != s.syncBatch && s.nrDispatched != 0 <==> sent.None?)
    && (sent.Some? && toReads ==> s.syncs != [] && sent.value == s.syncs[0])
    && (sent.Some? && !toReads ==> s.asyncs != [] && sent == if a.fifoLast then Some(s.asyncs[0]) else a.nextAsync)
    && t.writeCount == if toReads then s.writeCount else Left(s.writeBatch, sent)
  }

  lemma InvNow(s: As)
    requires Inv(s)
    ensures (forall r :: r in s.syncs ==> r.sync) && (forall r :: r in s.asyncs ==> !r.sync)
    ensures s.newBatch ==> s.syncBatch && !s.changed
  {
  }

  lemma MoveFields(s: As, r: AsRq)
    requires r in Of(s, r.sync)
    ensures Move(s, r).syncBatch == s.syncBatch && Move(s, r).status == Off
    ensures Move(s, r).writeCount == Left(s.writeCount, Some(r))
  {
    hide Without;
  }

  lemma SettleFields(s: As, r: AsRq)
    requires r in Of(s, r.sync) && r.sync == s.syncBatch && (s.changed ==> !s.newBatch) && !Waiting(s)
    ensures var (t, sent) := Settle(s, r);
            && t.syncBatch == s.syncBatch && !Waiting(t) && t.writeCount == Left(s.writeCount, sent)
            && sent == if s.changed && s.nrDispatched != 0 then None else Some(r)
  {
    hide Move;
    if !(s.changed && s.nrDispatched != 0) {
      MoveFields(s.(changed := false, newBatch := s.newBatch || (s.changed && s.syncBatch)), r);
    }
  }

  lemma ReadsTurn(s: As, a: Ask)
    requires s.syncs != [] && (forall x :: x in s.syncs ==> x.sync) && !Waiting(s)
    requires !s.changed && (!s.syncBatch ==> !s.newBatch) && (s.asyncs == [] || !s.syncBatch)
    ensures Turned(s, a, ServeReads(s, a).0, ServeReads(s, a).1)
  {
    hide Settle;
    var t := if s.syncBatch then s else s.(changed := true);
    SettleFields(t.(syncBatch := true), s.syncs[0]);
  }

  lemma WritesTurn(s: As, a: Ask)
    requires a.nextAsync.Some? && a.nextAsync.value in s.asyncs && (forall x :: x in s.asyncs ==> !x.sync)
    requires (s.newBatch ==> s.syncBatch) && !s.changed && !Waiting(s) && (s.syncs == [] || s.syncBatch)
    ensures Turned(s, a, ServeWrites(s, a).0, ServeWrites(s, a).1)
  {
    hide Settle;
    var t := if s.syncBatch then s.(changed := true, newBatch := false) else s;
    SettleFields(t.(syncBatch := false, writeCount := s.writeBatch, idled := false),
                 if a.fifoLast then s.asyncs[0] else a.nextAsync.value);
  }

  lemma SwitchTurns(s: As, a: Ask)
    requires Inv(s) && AskOk(s, a) && !s.changed && !Waiting(s) && (s.syncs != [] || s.asyncs != [])
    ensures Turned(s, a, Switch(s, a).0, Switch(s, a).1)
  {
    hide Inv, ServeReads, ServeWrites, Turned;
    InvNow(s);
    if s.syncs != [] && !(s.asyncs != [] && s.syncBatch) {
      ReadsTurn(s, a);
    } else {
      WritesTurn(s, a);
    }
  }

  /** What as_dispatch_request has done. */
  ghost predicate Done(s: As, a: Ask, t: As, sent: Option<AsRq>) {
    match Doing(s, a)
    case Rest => t.syncBatch == s.syncBatch && t.status == s.status && sent.None? && t.writeCount == s.writeCount
    case Wait =>
      && t.syncBatch == s.syncBatch && t.status == (if s.finished then WaitNext else WaitReq)
      && sent.None? && t.writeCount == s.writeCount
    case Go(r) => WentOn(s, r, t, sent)
    case Turn => Turned(s, a, t, sent)
  }

  lemma ContinueDoes(s: As, a: Ask)
    requires Inv(s) && AskOk(s, a) && Free(s) && !Contended(s, a.late)
    ensures Done(s, a, Continue(s, a).0, Continue(s, a).1)
  {
    hide Inv, Switch, Settle, Turned;
    InvNow(s);
    match Doing(s, a)
    case Wait =>
    case Go(r) => SettleFields(s, r);
    case Turn => SwitchTurns(s, a);
  }

  /** as_dispatch_request does what the fields call for. */
  lemma DispatchDoes(s: As, a: Ask)
    requires Inv(s) && AskOk(s, a)
    ensures Done(s, a, Dispatch(s, a).0, Dispatch(s, a).1)
  {
    hide Inv, Switch, Continue, Turned;
    if Free(s) {
      IdleInv(s);
      if Contended(s, a.late) {
        SwitchTurns(Idle(s), a);
        SameTurn(s, Idle(s), a, Switch(Idle(s), a).0, Switch(Idle(s), a).1);
      } else {
        ContinueDoes(Idle(s), a);
        SameTurn(s, Idle(s), a, Continue(Idle(s), a).0, Continue(Idle(s), a).1);
      }
    }
  }

  lemma SameTurn(s: As, u: As, a: Ask, t: As, sent: Option<AsRq>)
    requires u == Idle(s)
    ensures Turned(u, a, t, sent) ==> Turned(s, a, t, sent)
  {
  }

  /** The scheduler starts to wait exactly when the read batch goes on and waiting is worthwhile: for the
      awaited process's next request if that has its answer, and for the answer otherwise. */
  lemma WaitsIff(s: As, a: Ask)
    requires Inv(s) && AskOk(s, a) && !Waiting(s)
    ensures var (t, sent) := Dispatch(s, a);
            && (Waiting(t) <==> Free(s) && !Contended(s, a.late) && WorthWaiting(s, a))
            && (Waiting(t) ==> sent.None? && t.status == if s.finished then WaitNext else WaitReq)
  {
    hide Inv, Dispatch;
    DispatchDoes(s, a);
  }

  /** The batch turns exactly when the other direction has requests and either the running batch has
      expired, or it has run out of requests and there is no waiting for more. */
  lemma TurnsIff(s: As, a: Ask)
    requires Inv(s) && AskOk(s, a)
    ensures Dispatch(s, a).0.syncBatch != s.syncBatch
       <==> Free(s) && Of(s, !s.syncBatch) != []
            && (Contended(s, a.late) || (Of(s, s.syncBatch) == [] && !WorthWaiting(s, a)))
  {
    hide Inv, Dispatch;
    DispatchDoes(s, a);
  }

  /** An expired batch gives way: the other direction's is begun, with a fresh count if it is of writes.
      Its first request leaves at once if nothing of the old batch is in flight, and otherwise nothing
      does. */
  lemma ExpiredGivesWay(s: As, a: Ask)
    requires Inv(s) && AskOk(s, a) && Free(s) && Contended(s, a.late)
    ensures var (t, sent) := Dispatch(s, a);
            && t.syncBatch == !s.syncBatch
            && sent == (if s.nrDispatched != 0 then None
                        else if t.syncBatch then Some(s.syncs[0])
                        else if a.fifoLast then Some(s.asyncs[0]) else a.nextAsync)
            && (s.syncBatch && sent.None? ==> t.writeCount == s.writeBatch)
  {
    hide Inv, Dispatch;
    DispatchDoes(s, a);
  }

  /** A request that leaves is of the batch's direction: the oldest if it has expired, and else the
      next in line; a new read batch begins with the oldest. */
  lemma SentIs(s: As, a: Ask)
    requires Inv(s) && AskOk(s, a) && Dispatch(s, a).1.Some?
    ensures var (t, sent) := Dispatch(s, a);
            && sent.value in Of(s, t.syncBatch) && sent.value.sync == t.syncBatch
            && (sent.value == Of(s, t.syncBatch)[0] || sent == NextIn(a, t.syncBatch))
            && (a.fifoLast || (t.syncBatch && !s.syncBatch) ==> sent.value == Of(s, t.syncBatch)[0])
            && (t.syncBatch == s.syncBatch && !a.fifoLast && !(s.syncBatch && a.anticipates && a.fifoFirst)
                ==> sent == NextIn(a, t.syncBatch))
  {
    hide Dispatch;
    DispatchDoes(s, a);
  }

  /** as_update_rq: an arrival ends the wait exactly when it comes from the awaited process or is good
      enough to break it, and then the queue is run again; it joins its direction's list at the end. */
  lemma ArrivalEndsWait(s: As, r: AsRq, breaks: bool)
    requires Inv(s)
    ensures Waiting(s) ==> s.ctx.Some?
    ensures var t := Add(s, r, None, breaks);
            && (if Waiting(s) && (breaks || s.ctx == Some(r.ctx)) then t.status == Finished && t.work
                else t.status == s.status && t.work == s.work)
            && Of(t, r.sync) == Of(s, r.sync) + [r] && Of(t, !r.sync) == Of(s, !r.sync)
  {
    hide Inv, Move, Stop, Listed;
    WaitsForOne(s);
    ListedFields(s, r);
    StopFields(Listed(s, r));
  }

  lemma ListedFields(s: As, r: AsRq)
    ensures var t := Listed(s, r);
            && t.status == s.status && t.ctx == s.ctx && t.work == s.work && t.writeCount == s.writeCount
            && Of(t, r.sync) == Of(s, r.sync) + [r] && Of(t, !r.sync) == Of(s, !r.sync)
  {
    if r.sync {
      assert Listed(s, r) == s.(syncs := s.syncs + [r]);
    } else {
      assert Listed(s, r) == s.(asyncs := s.asyncs + [r]);
    }
  }

  lemma WaitsForOne(s: As)
    requires Inv(s)
    ensures Waiting(s) ==> s.ctx.Some?
  {
  }

  lemma StopFields(s: As)
    ensures var t := Stop(s);
            && (Waiting(s) ==> t.status == Finished && t.work) && Same(s, t) && t.writeCount == s.writeCount
            && (!Waiting(s) ==> t.status == s.status && t.work == s.work)
  {
  }

  /** as_completed_request: a changed batch begins when the last request of the old one is back, a new
      read batch is timed from its first completion, and a batch that is neither stays as it is. */
  lemma CompletionStarts(s: As, r: AsRq, batch: nat)
    requires Inv(s) && r in s.flying
    ensures var t := Completed(s, r, batch);
            && t.changed == (s.changed && |s.flying| > 1) && (s.changed && !t.changed ==> t.work)
            && t.newBatch == (!r.sync && (s.newBatch || (s.changed && !t.changed && s.syncBatch)))
            && t.syncBatch == s.syncBatch && t.syncs == s.syncs && t.asyncs == s.asyncs
            && t.finished == (s.finished || s.ctx == Some(r.ctx))
            && t.status == if s.status == WaitReq && s.ctx == Some(r.ctx) then WaitNext else s.status
  {
    hide Landed, Clocked, Noticed;
    var u := Landed(s, r);
    LandedFields(s, r);
    ClockedFields(u, r, batch);
    NoticedFields(Clocked(u, r, batch), r);
  }

  lemma LandedFields(s: As, r: AsRq)
    requires Inv(s) && r in s.flying
    ensures var t := Landed(s, r);
            && t.changed == (s.changed && |s.flying| > 1) && (s.changed && !t.changed ==> t.work)
            && t.newBatch == (s.newBatch || (s.changed && !t.changed && s.syncBatch)) && (t.newBatch ==> t.syncBatch)
            && Same(s, t) && t.ctx == s.ctx && t.finished == s.finished && t.status == s.status
  {
    hide Without;
  }

  ghost predicate Same(s: As, t: As) { t.syncBatch == s.syncBatch && t.syncs == s.syncs && t.asyncs == s.asyncs }

  lemma ClockedFields(s: As, r: AsRq, batch: nat)
    requires s.newBatch ==> s.syncBatch
    ensures var t := Clocked(s, r, batch);
            && t.changed == s.changed && t.work == s.work && t.newBatch == (s.newBatch && !r.sync)
            && Same(s, t) && t.ctx == s.ctx && t.finished == s.finished && t.status == s.status
  {
  }

  lemma NoticedFields(s: As, r: AsRq)
    ensures var t := Noticed(s, r);
            && t.changed == s.changed && t.work == s.work && t.newBatch == s.newBatch
            && Same(s, t) && t.finished == (s.finished || s.ctx == Some(r.ctx))
            && t.status == if s.status == WaitReq && s.ctx == Some(r.ctx) then WaitNext else s.status
  {
  }

  // ---- how long reads wait ----

  /** A write batch is running while reads wait. */
  predicate ReadsWait(s: As) { !s.syncBatch && !s.changed && s.syncs != [] }

  /** Writes sent by a step. */
  ghost function Wrote(s: As, e: Step): nat
    requires Inv(s) && Enabled(s, e)
  {
    match e
    case Try(a) => if Dispatch(s, a).1.Some? && !Dispatch(s, a).1.value.sync then 1 else 0
    case _ => 0
  }

  lemma TryWrites(s: As, a: Ask)
    requires Inv(s) && AskOk(s, a) && ReadsWait(s)
    ensures Wrote(s, Try(a)) == 1 ==> Dispatch(s, a).0.writeCount + 1 == s.writeCount
    ensures Wrote(s, Try(a)) == 0 && !Dispatch(s, a).0.syncBatch ==> Dispatch(s, a).0.writeCount <= s.writeCount
  {
    hide Dispatch;
    DispatchDoes(s, a);
  }

  lemma CompletedCount(s: As, r: AsRq, batch: nat)
    requires r in s.flying
    ensures Completed(s, r, batch).writeCount == s.writeCount
  {
    hide Without;
  }

  lemma AddCount(s: As, r: AsRq, alias: Option<AsRq>, breaks: bool)
    requires Inv(s) && Enabled(s, Queue(r, alias, breaks))
    ensures Add(s, r, alias, breaks).writeCount <= s.writeCount
  {
    hide Move, Listed, Stop;
    var t := s;
    if alias.Some? {
      MoveFields(s, alias.value);
      StopFields(Move(s, alias.value));
      t := Stop(Move(s, alias.value));
    }
    ListedFields(t, r);
    StopFields(Listed(t, r));
  }

  lemma HandleCount(s: As)
    requires Inv(s) && s.firing
    ensures Waiting(s) ==> s.ctx.Some?
    ensures TimedOut(s).writeCount == s.writeCount
  {
  }

  lemma StepWrites(s: As, e: Step)
    requires Inv(s) && Enabled(s, e) && ReadsWait(s)
    ensures Wrote(s, e) <= s.writeCount
    ensures ReadsWait(Next(s, e)) ==> Wrote(s, e) + Next(s, e).writeCount <= s.writeCount
  {
    hide Inv, Dispatch, Add, Completed, Drains, Drained, TimedOut;
    match e
    case Queue(r, alias, breaks) => AddCount(s, r, alias, breaks);
    case Try(a) => TryWrites(s, a);
    case Force(order) => ForceEmpty(s, order);
    case Complete(r, batch) => CompletedCount(s, r, batch);
    case Expire =>
    case Handle => HandleCount(s);
    case Work =>
  }

  /** Steps during all of which a write batch runs while reads wait. */
  ghost predicate WriteStretch(s: As, es: seq<Step>)
    decreases |es|
  {
    es != [] ==> Inv(s) && ReadsWait(s) && Enabled(s, es[0]) && WriteStretch(Next(s, es[0]), es[1..])
  }

  ghost function Writes(s: As, es: seq<Step>): nat
    requires WriteStretch(s, es)
    decreases |es|
  {
    if es == [] then 0 else Wrote(s, es[0]) + Writes(Next(s, es[0]), es[1..])
  }

  /** Reads that wait for a write batch wait for no more writes than are left of its count, whatever
      arrives, completes or times out in between. */
  lemma {:induction false} WriteBatchBounded(s: As, es: seq<Step>)
    requires WriteStretch(s, es)
    ensures Writes(s, es) <= s.writeCount
    decreases |es|
  {
    hide Inv, Enabled, Next, Wrote;
    if es != [] {
      StepWrites(s, es[0]);
      WriteBatchBounded(Next(s, es[0]), es[1..]);
    }
  }
}
