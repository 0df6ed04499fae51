/** What the log of any run of a drain-mode queue satisfies. */
module BarrierRuns {
  import opened Options
  import opened BarrierModel
  import opened BarrierSafety

  // ---- the promise, read off the log ----

  ghost predicate HasEnded(log: seq<Event>, e: nat) {
    exists err: int :: Ended(e, err) in log
  }

  ghost predicate HasBegun(log: seq<Event>, e: nat) {
    exists pre, post :: Began(e, pre, post) in log
  }

  ghost predicate HasDone(log: seq<Event>, k: Kind, e: nat) {
    exists err: int :: ProxyDone(k, e, err) in log
  }

  predicate Failed(x: Event, e: nat) { x.ProxyDone? && x.epoch == e && x.error != 0 }

  /** err is the first error among the stages of sequence e, 0 when there is none. */
  ghost predicate FirstError(log: seq<Event>, e: nat, err: int) {
    if err == 0 then forall i :: 0 <= i < |log| ==> !Failed(log[i], e)
    else exists i :: 0 <= i < |log| && Failed(log[i], e) && log[i].error == err
                     && forall j :: 0 <= j < i ==> !Failed(log[j], e)
  }

  /** The mode that the queue was last given. */
  function ModeAt(log: seq<Event>): Mode {
    if log == [] then NoOrder
    else if log[|log| - 1].Switched? then log[|log| - 1].mode
    else ModeAt(log[..|log| - 1])
  }

  /** Sequence e has begun with, respectively, a flush before and one after the barrier. */
  ghost predicate WantsPre(log: seq<Event>, e: nat) { exists post :: Began(e, true, post) in log }

  ghost predicate WantsPost(log: seq<Event>, e: nat) { exists pre :: Began(e, pre, true) in log }

  function BarriersIn(log: seq<Event>): (n: nat) {
    if log == [] then 0
    else BarriersIn(log[..|log| - 1]) + (if log[|log| - 1].Submitted? && log[|log| - 1].barrier then 1 else 0)
  }

  /** What must be in the log already when event x happens. */
  ghost predicate SafeAfter(log: seq<Event>, x: Event) {
    match x
    case Submitted(id, e, barrier) =>
      // the epoch really counts the barriers submitted earlier
      e == BarriersIn(log)
    case Issued(id, e) =>
      // no file system request reaches the driver before every earlier barrier has ended
      forall b: nat, be: nat :: Submitted(b, be, true) in log && be < e ==> HasEnded(log, be)
    case Special(id) => true
    case Finished(id) => true
    case Switched(m) => true
    case Began(e, needPre, needPost) =>
      // once, with the flushes of the mode now in force
      !HasEnded(log, e) && !HasBegun(log, e) && ModeAt(log) == Drain(needPre, needPost)
    case ProxyIssued(k, e) =>
      // every earlier request is finished, every earlier barrier has ended
      && (forall r: nat, re: nat :: Submitted(r, re, false) in log && re <= e ==> Finished(r) in log)
      && (forall b: nat, be: nat :: Submitted(b, be, true) in log && be < e ==> HasEnded(log, be))
      // the sequence has begun and its earlier stages are complete
      && HasBegun(log, e)
      && (k.PreFlush? ==> WantsPre(log, e))
      && (k.Bar? && WantsPre(log, e) ==> HasDone(log, PreFlush, e))
      && (k.PostFlush? ==> WantsPost(log, e) && HasDone(log, Bar, e))
      && !HasEnded(log, e)
    case ProxyDone(k, e, err) =>
      && !HasDone(log, k, e)
      && ProxyIssued(k, e) in log
    case Ended(e, err) =>
      && !HasEnded(log, e)
      && HasBegun(log, e)
      && HasDone(log, Bar, e)
      && FirstError(log, e, err)
      && (forall be: nat :: be < e ==> HasEnded(log, be))
      && (WantsPost(log, e) ==> HasDone(log, PostFlush, e))
      && (WantsPre(log, e) ==> HasDone(log, PreFlush, e))
  }

  ghost predicate Safe(log: seq<Event>) {
    forall i :: 0 <= i < |log| ==> SafeAfter(log[..i], log[i])
  }

  lemma SafeAppend(log: seq<Event>, x: Event)
    requires Safe(log) && SafeAfter(log, x)
    ensures Safe(log + [x])
  {
    forall i | 0 <= i < |log + [x]| ensures SafeAfter((log + [x])[..i], (log + [x])[i]) {
      assert (log + [x])[..i] == log[..i];
      assert log[..|log|] == log;
    }
  }

  // ---- how the log mirrors the state ----

  predicate Plain(r: Request) { Ordinary(r) && !r.hard }

  /** Request id, of epoch e, is still somewhere in the block layer or at the driver. */
  ghost predicate Held(q: Queue, id: nat, e: nat) {
    exists r :: (r in q.head || r in q.sorted || r in q.flying) && Plain(r) && r.id == id && r.epoch == e
  }

  ghost predicate LogSubmitted(q: Queue) {
    && q.epochs == BarriersIn(q.log)
    && (forall id: nat, e: nat :: Submitted(id, e, false) in q.log ==> Finished(id) in q.log || Held(q, id, e))
    && (forall id: nat, e: nat :: Submitted(id, e, true) in q.log ==> e < q.epochs)
  }

  ghost predicate LogEnded(q: Queue) {
    && (forall e: nat :: HasEnded(q.log, e) <==> e < q.ended)
    && (forall e: nat :: HasBegun(q.log, e) ==> e < q.ended || (q.orig.Some? && e == q.ended))
    && (forall k, e: nat :: HasDone(q.log, k, e) ==> e < q.ended || (q.orig.Some? && e == q.ended))
  }

  /** During a sequence, a set bit is a completed stage or one the sequence does without. */
  ghost predicate LogSequence(q: Queue) {
    q.orig.Some? ==>
      && HasBegun(q.log, q.ended)
      && (q.ordseq.pre <==> HasDone(q.log, PreFlush, q.ended) || !WantsPre(q.log, q.ended))
      && (q.ordseq.bar <==> HasDone(q.log, Bar, q.ended))
      && (q.ordseq.post <==> HasDone(q.log, PostFlush, q.ended) || !WantsPost(q.log, q.ended))
      && (forall r :: (r in q.head || r in q.flying) && !r.kind.Normal? && r.started ==>
            ProxyIssued(r.kind, q.ended) in q.log)
  }

  /** The mode, and the error of the sequence so far. */
  ghost predicate LogMode(q: Queue) {
    && q.mode == ModeAt(q.log)
    && (q.orig.Some? ==> FirstError(q.log, q.ended, q.orderr))
  }

  ghost predicate LogInv(q: Queue) {
    Safe(q.log) && LogSubmitted(q) && LogEnded(q) && LogSequence(q) && LogMode(q)
  }

  lemma InAppend(log: seq<Event>, x: Event)
    ensures forall y :: y in log + [x] <==> y in log || y == x
    ensures forall e: nat :: HasEnded(log + [x], e) <==> HasEnded(log, e) || (x.Ended? && x.epoch == e)
    ensures forall e: nat :: HasBegun(log + [x], e) <==> HasBegun(log, e) || (x.Began? && x.epoch == e)
    ensures BarriersIn(log + [x]) == BarriersIn(log) + (if x.Submitted? && x.barrier then 1 else 0)
    ensures ModeAt(log + [x]) == if x.Switched? then x.mode else ModeAt(log)
  {
    assert (log + [x])[..|log + [x]| - 1] == log;
    forall e: nat ensures HasEnded(log + [x], e) <==> HasEnded(log, e) || (x.Ended? && x.epoch == e) {
      if HasEnded(log, e) {
        var err: int :| Ended(e, err) in log;
        assert Ended(e, err) in log + [x];
      }
      if x.Ended? && x.epoch == e { assert Ended(e, x.error) in log + [x]; }
    }
    forall e: nat ensures HasBegun(log + [x], e) <==> HasBegun(log, e) || (x.Began? && x.epoch == e) {
      if HasBegun(log, e) {
        var pre, post :| Began(e, pre, post) in log;
        assert Began(e, pre, post) in log + [x];
      }
      if x.Began? && x.epoch == e { assert Began(e, x.needPre, x.needPost) in log + [x]; }
    }
  }

  lemma StagesAppend(log: seq<Event>, x: Event)
    ensures forall k, e: nat ::
      HasDone(log + [x], k, e) <==> HasDone(log, k, e) || (x.ProxyDone? && x.kind == k && x.epoch == e)
    ensures forall e: nat :: WantsPre(log + [x], e) <==> WantsPre(log, e) || (x.Began? && x.epoch == e && x.needPre)
    ensures forall e: nat :: WantsPost(log + [x], e) <==> WantsPost(log, e) || (x.Began? && x.epoch == e && x.needPost)
  {
    forall k, e: nat
      ensures HasDone(log + [x], k, e) <==> HasDone(log, k, e) || (x.ProxyDone? && x.kind == k && x.epoch == e)
    {
      if HasDone(log, k, e) {
        var err: int :| ProxyDone(k, e, err) in log;
        assert ProxyDone(k, e, err) in log + [x];
      }
      if x.ProxyDone? && x.kind == k && x.epoch == e { assert ProxyDone(k, e, x.error) in log + [x]; }
    }
    forall e: nat
      ensures WantsPre(log + [x], e) <==> WantsPre(log, e) || (x.Began? && x.epoch == e && x.needPre)
    {
      if WantsPre(log, e) {
        var post :| Began(e, true, post) in log;
        assert Began(e, true, post) in log + [x];
      }
      if x.Began? && x.epoch == e && x.needPre { assert Began(e, true, x.needPost) in log + [x]; }
    }
    forall e: nat
      ensures WantsPost(log + [x], e) <==> WantsPost(log, e) || (x.Began? && x.epoch == e && x.needPost)
    {
      if WantsPost(log, e) {
        var pre :| Began(e, pre, true) in log;
        assert Began(e, pre, true) in log + [x];
      }
      if x.Began? && x.epoch == e && x.needPost { assert Began(e, x.needPre, true) in log + [x]; }
    }
  }

  lemma WantsBegun(log: seq<Event>, e: nat)
    ensures WantsPre(log, e) || WantsPost(log, e) ==> HasBegun(log, e)
  {
  }

  /** One more event: the first error stays the first. */
  lemma ErrorAppend(log: seq<Event>, x: Event, e: nat, err: int)
    requires FirstError(log, e, err)
    ensures FirstError(log + [x], e, if Failed(x, e) && err == 0 then x.error else err)
  {
    var l := log + [x];
    if err == 0 && Failed(x, e) {
      assert Failed(l[|log|], e) && forall j :: 0 <= j < |log| ==> l[j] == log[j];
    } else if err != 0 {
      var i :| 0 <= i < |log| && Failed(log[i], e) && log[i].error == err
               && forall j :: 0 <= j < i ==> !Failed(log[j], e);
      assert Failed(l[i], e) && l[i].error == err;
    }
  }

  lemma NoError(log: seq<Event>, e: nat)
    requires forall k :: !HasDone(log, k, e)
    ensures FirstError(log, e, 0)
  {
    forall i | 0 <= i < |log| ensures !Failed(log[i], e) {
      if Failed(log[i], e) {
        assert ProxyDone(log[i].kind, e, log[i].error) in log;
        assert HasDone(log, log[i].kind, e);
      }
    }
  }

  lemma ModeAppend(q: Queue, q': Queue, x: Event)
    requires LogMode(q) && q'.log == q.log + [x] && !x.ProxyDone?
    requires q'.mode == if x.Switched? then x.mode else q.mode
    requires q'.orig.Some? ==> q.orig.Some? && q'.ended == q.ended && q'.orderr == q.orderr
    ensures LogMode(q')
  {
    hide FirstError;
    InAppend(q.log, x);
    if q'.orig.Some? { ErrorAppend(q.log, x, q.ended, q.orderr); }
  }

  /** Steps that log nothing and lose nothing. */
  lemma Quiet(q: Queue, q': Queue)
    requires LogInv(q)
    requires q'.log == q.log && q'.ended == q.ended && q'.epochs == q.epochs && q'.orig == q.orig
    requires q'.mode == q.mode && q'.orderr == q.orderr
    requires q'.ordseq == q.ordseq || (q.orig.Some? && q'.ordseq == q.ordseq.(drain := true))
    requires forall id: nat, e: nat :: Held(q, id, e) ==> Held(q', id, e)
    requires forall r :: (r in q'.head || r in q'.flying) && !r.kind.Normal? && r.started ==>
                         r in q.head || r in q.flying
    ensures LogInv(q')
  {
  }

  ghost predicate Kept(q: Queue, q': Queue, r: Request) {
    exists s :: (s in q'.head || s in q'.sorted || s in q'.flying) && Plain(s) && s.id == r.id && s.epoch == r.epoch
  }

  lemma HeldKept(q: Queue, q': Queue)
    requires forall r :: (r in q.head || r in q.sorted || r in q.flying) && Plain(r) ==> Kept(q, q', r)
    ensures forall id: nat, e: nat :: Held(q, id, e) ==> Held(q', id, e)
  {
    forall id: nat, e: nat | Held(q, id, e) ensures Held(q', id, e) {
      var r :| (r in q.head || r in q.sorted || r in q.flying) && Plain(r) && r.id == id && r.epoch == e;
      assert Kept(q, q', r);
    }
  }

  lemma DispatchLog(q: Queue, p: Pick)
    requires Inv(q) && LogInv(q) && p.index < |q.sorted|
    ensures LogInv(Dispatch(q, p))
  {
    var q' := Dispatch(q, p);
    assert SortedRq(q, q.sorted[p.index]);
    HeldKept(q, q');
    Quiet(q, q');
  }

  lemma {:induction false} DrainLog(q: Queue, picks: seq<Pick>)
    requires Inv(q) && LogInv(q)
    ensures LogInv(q.(head := Drained(q.head, q.sorted, picks), sorted := []))
    decreases |q.sorted|
  {
    if q.sorted != [] {
      var p := if picks != [] && picks[0].index < |q.sorted| then picks[0] else Tail(0);
      DispatchInv(q, p);
      DispatchLog(q, p);
      DrainLog(Dispatch(q, p), if picks == [] then [] else picks[1..]);
    }
  }

  lemma DequeueLog(q: Queue, i: nat)
    requires Inv(q) && LogInv(q) && i < |q.head| && q.head[i].started
    ensures LogInv(Dequeue(q, i))
  {
    HeldKept(q, Dequeue(q, i));
    Quiet(q, Dequeue(q, i));
  }

  lemma RequeueLog(q: Queue, i: nat)
    requires Inv(q) && LogInv(q) && i < |q.flying|
    ensures LogInv(Requeue(q, i))
  {
    var q' := Requeue(q, i);
    var r := q.flying[i];
    var r1 := r.(started := false, soft := true);
    assert r1 in q'.head;
    HeldKept(q, q');
    Quiet(q, q');
  }

  /** An event that is no news for the sequence. */
  lemma SequenceKept(q: Queue, q': Queue, x: Event)
    requires LogSequence(q) && q'.log == q.log + [x] && !x.ProxyDone? && !x.Began?
    requires q'.orig == q.orig && q'.ended == q.ended && q'.ordseq == q.ordseq
    requires forall r :: (r in q'.head || r in q'.flying) && !r.kind.Normal? && r.started ==>
                         r in q.head || r in q.flying || x == ProxyIssued(r.kind, q.ended)
    ensures LogSequence(q')
  {
    hide HasBegun, HasDone, WantsPre, WantsPost;
    InAppend(q.log, x);
    StagesAppend(q.log, x);
  }

  lemma SubmittedCounts(q: Queue, q': Queue, r: Request, x: Event)
    requires LogSubmitted(q) && LogEnded(q) && r.kind.Normal? && r.epoch == q.epochs
    requires q'.log == q.log + [x] && x == if r.fs then Submitted(r.id, r.epoch, r.hard) else Special(r.id)
    requires q'.ended == q.ended && q'.orig == q.orig
    requires q'.epochs == if IsBarrier(r) then q.epochs + 1 else q.epochs
    requires Plain(r) ==> Held(q', r.id, r.epoch)
    requires forall id: nat, e: nat :: Held(q, id, e) ==> Held(q', id, e)
    ensures LogSubmitted(q') && LogEnded(q')
  {
    hide HasBegun, HasDone, HasEnded, Held, BarriersIn;
    InAppend(q.log, x);
    StagesAppend(q.log, x);
  }

  /** A newly submitted request, wherever it was put. */
  lemma SubmittedLog(q: Queue, q': Queue, r: Request)
    requires Inv(q) && LogInv(q)
    requires q'.log == q.log + [if r.fs then Submitted(r.id, r.epoch, r.hard) else Special(r.id)]
    requires r.kind.Normal? && r.epoch == q.epochs && !r.started
    requires q'.ended == q.ended && q'.orig == q.orig && q'.ordseq == q.ordseq
    requires q'.mode == q.mode && q'.orderr == q.orderr
    requires q'.epochs == if IsBarrier(r) then q.epochs + 1 else q.epochs
    requires Plain(r) ==> Held(q', r.id, r.epoch)
    requires forall id: nat, e: nat :: Held(q, id, e) ==> Held(q', id, e)
    requires q'.flying == q.flying && forall x :: x in q'.head ==> x in q.head || x.kind.Normal?
    ensures LogInv(q')
  {
    var x := if r.fs then Submitted(r.id, r.epoch, r.hard) else Special(r.id);
    SubmittedCounts(q, q', r, x);
    SequenceKept(q, q', x);
    ModeAppend(q, q', x);
    SafeAppend(q.log, x);
  }

  lemma SubmitLog(q: Queue, fs: bool, hard: bool, soft: bool, write: bool, sector: nat, elvpriv: bool,
                  place: Where, picks: seq<Pick>)
    requires Inv(q) && LogInv(q) && LegalSubmit(fs, hard, soft, elvpriv, place)
    ensures LogInv(Submit(q, fs, hard, soft, write, sector, elvpriv, place, picks))
  {
    var r := Request(Normal, q.nextId, q.epochs, fs, hard, soft, false, q.ordcolor, write, sector);
    var q' := Submit(q, fs, hard, soft, write, sector, elvpriv, place, picks);
    var at := if place.Sorted? && (soft || hard || !elvpriv) then Back else place;
    if at.Back? {
      var d := q.(head := Drained(q.head, q.sorted, picks), sorted := []);
      DrainInv(q, picks);
      DrainLog(q, picks);
      assert r.(soft := true) in q'.head;
      HeldKept(d, q');
      SubmittedLog(d, q', r);
    } else {
      assert at.Sorted? ==> r in q'.sorted;
      HeldKept(q, q');
      SubmittedLog(q, q', r);
    }
  }

  lemma StartLog(q: Queue)
    requires Startable(q) && LogInv(q)
    ensures LogInv(StartOrdered(q))
  {
    hide Held, HasBegun, HasDone, HasEnded, WantsPre, WantsPost, FirstError, Kept, ProxyList, BarriersIn, ModeAt;
    var q' := StartOrdered(q);
    var x := Began(q.head[0].epoch, q.mode.preFlush, q.mode.postFlush);
    HeadStage(q);
    WantsBegun(q.log, q.ended);
    InAppend(q.log, x);
    StagesAppend(q.log, x);
    NoError(q.log, q.ended);
    ErrorAppend(q.log, x, q.ended, 0);
    SafeAppend(q.log, x);
    StartKept(q);
    HeldKept(q, q');
    StartProxies(q);
  }

  /** Only the barrier itself leaves the lists when its sequence starts. */
  lemma StartKept(q: Queue)
    requires q.head != [] && IsBarrier(q.head[0]) && q.mode.Drain?
    ensures var q' := StartOrdered(q);
            forall r :: (r in q.head || r in q.sorted || r in q.flying) && Plain(r) ==> Kept(q, q', r)
  {
    var q' := StartOrdered(q);
    forall r | r in q.head && Plain(r) ensures Kept(q, q', r) {
      assert r in q.head[1..];
      assert r in q'.head;
    }
  }

  lemma StartProxies(q: Queue)
    requires Startable(q)
    ensures forall r :: (r in StartOrdered(q).head || r in q.flying) && !r.kind.Normal? ==> !r.started
  {
    hide Barriers, HeadOrdered, ProxyCounts, CountFs;
    var q' := StartOrdered(q);
    assert forall r :: r in q'.head ==> r in ProxyList(q') || r in q.head;
    assert forall r :: r in q.head && HeadRq(q, r) ==> r.kind.Normal?;
    assert forall r :: r in q.flying && FlyingRq(q, r) ==> r.kind.Normal?;
  }

  /** Once the drain is over, everything submitted up to this barrier is finished. */
  lemma EarlierFinished(q: Queue, id: nat, e: nat)
    requires Inv(q) && LogInv(q) && q.orig.Some? && q.ordseq.drain
    requires Submitted(id, e, false) in q.log && e <= q.ended
    ensures Finished(id) in q.log
  {
    assert forall r :: r in q.head && HeadRq(q, r) && Ordinary(r) ==> r.epoch > q.ended;
    assert forall r :: r in q.sorted && SortedRq(q, r) ==> r.epoch > q.ended;
    assert forall r :: r in q.flying && FlyingRq(q, r) ==> !Ordinary(r);
  }

  /** The moment a request is handed to the driver. */
  lemma IssueSafe(q: Queue)
    requires Inv(q) && LogInv(q) && q.head != [] && !IsBarrier(q.head[0]) && !q.head[0].started
    requires Ranked(q.head[0])
    requires q.orig.Some? ==> ReqSeq(q, q.head[0]) <= CurSeq(q.ordseq)
    ensures SafeAfter(q.log, IssueEvent(q.head[0]))
  {
    HeadStage(q);
    assert HeadRq(q, q.head[0]);
    if !q.head[0].kind.Normal? {
      forall id: nat, e: nat | Submitted(id, e, false) in q.log && e <= q.ended
        ensures Finished(id) in q.log
      {
        EarlierFinished(q, id, e);
      }
    }
  }

  lemma MarkKept(q: Queue)
    requires q.head != []
    ensures var q' := MarkStarted(q);
            && (forall r :: (r in q.head || r in q.sorted || r in q.flying) && Plain(r) ==> Kept(q, q', r))
            && (forall x :: x in q'.head ==> x in q.head || x == q.head[0].(started := true))
  {
    var q' := MarkStarted(q);
    var r1 := q.head[0].(started := true);
    if !q.head[0].started {
      assert q'.head[0] == r1;
      forall r | r in q.head && Plain(r) ensures Kept(q, q', r) {
        var i :| 0 <= i < |q.head| && q.head[i] == r;
        assert i > 0 ==> q'.head[i] == r;
      }
    }
  }

  /** A request is handed to the driver and that is logged. */
  ghost predicate Handed(q: Queue, q': Queue) {
    && q.head != [] && Ranked(q.head[0]) && (q.head[0].kind.Normal? || (q.orig.Some? && q.head[0].epoch == q.ended))
    && q' == q.(head := q'.head, log := q.log + [IssueEvent(q.head[0])])
    && (forall x :: x in q'.head ==> x in q.head || x == q.head[0].(started := true))
  }

  lemma HandedSequence(q: Queue, q': Queue)
    requires Handed(q, q') && LogSequence(q) && LogMode(q)
    ensures LogSequence(q') && LogMode(q')
  {
    hide LogMode;
    SequenceKept(q, q', IssueEvent(q.head[0]));
    ModeAppend(q, q', IssueEvent(q.head[0]));
  }

  lemma HandedCounts(q: Queue, q': Queue)
    requires Handed(q, q') && LogSubmitted(q) && LogEnded(q)
    requires forall id: nat, e: nat :: Held(q, id, e) ==> Held(q', id, e)
    ensures LogSubmitted(q') && LogEnded(q')
  {
    hide Held, HasBegun, HasDone, HasEnded, BarriersIn;
    InAppend(q.log, IssueEvent(q.head[0]));
    StagesAppend(q.log, IssueEvent(q.head[0]));
  }

  lemma MarkLog(q: Queue)
    requires Inv(q) && LogInv(q) && q.head != [] && !IsBarrier(q.head[0])
    requires q.orig.Some? && Ranked(q.head[0]) ==> ReqSeq(q, q.head[0]) <= CurSeq(q.ordseq)
    ensures LogInv(MarkStarted(q))
  {
    hide Held, Kept, LogSequence, LogEnded, LogSubmitted, LogMode, Safe;
    var q' := MarkStarted(q);
    var r := q.head[0];
    if !r.started {
      MarkKept(q);
      HeldKept(q, q');
      assert HeadRq(q, r);
      if Ranked(r) {
        IssueSafe(q);
        SafeAppend(q.log, IssueEvent(r));
        HandedSequence(q, q');
        HandedCounts(q, q');
      } else {
        Quiet(q, q');
      }
    }
  }

  lemma FetchLog(q: Queue)
    requires Inv(q) && LogInv(q)
    ensures LogInv(Fetch(q))
  {
    hide LogInv;
    if q.head != [] {
      assert HeadRq(q, q.head[0]);
      var (q1, offered) := DoOrdered(q);
      if !q.ordseq.started && IsBarrier(q.head[0]) {
        StartInv(q);
        StartLog(q);
      }
      if offered {
        HeadStage(q);
        MarkLog(q1);
      }
    }
  }

  lemma CheckDrainedLog(q: Queue)
    requires LogInv(q) && Bits(q)
    requires CurSeq(q.ordseq) == DRAIN ==> q.head != [] && !q.ordseq.bar
    ensures LogInv(CheckDrained(q))
  {
    Quiet(q, CheckDrained(q));
  }

  lemma FinishedLog(q: Queue, i: nat, error: int)
    requires Inv(q) && LogInv(q) && i < |q.flying| && q.flying[i].kind.Normal?
    ensures LogInv(Release(q, i, error))
  {
    hide Safe, LogSequence, LogMode;
    var q' := Release(q, i, error);
    var x := Finished(q.flying[i].id);
    SafeAppend(q.log, x);
    SequenceKept(q, q', x);
    ModeAppend(q, q', x);
    FinishedCounts(q, i, error);
  }

  lemma FinishedCounts(q: Queue, i: nat, error: int)
    requires LogSubmitted(q) && LogEnded(q) && i < |q.flying| && q.flying[i].kind.Normal?
    ensures LogSubmitted(Release(q, i, error)) && LogEnded(Release(q, i, error))
  {
    hide HasBegun, HasDone, HasEnded, BarriersIn;
    var q' := Release(q, i, error);
    var r := q.flying[i];
    InAppend(q.log, Finished(r.id));
    StagesAppend(q.log, Finished(r.id));
    forall id: nat, e: nat | Held(q, id, e) && id != r.id ensures Held(q', id, e) {
      var s :| (s in q.head || s in q.sorted || s in q.flying) && Plain(s) && s.id == id && s.epoch == e;
      assert s in q'.head || s in q'.sorted || s in q'.flying;
    }
  }

  /** q1 is q once proxy i has completed, its stage bit set and its error recorded. */
  ghost predicate StageDone(q: Queue, i: nat, error: int, q1: Queue) {
    && i < |q.flying| && !q.flying[i].kind.Normal? && q.orig.Some?
    && q1 == Release(q, i, error).(ordseq := SetBit(q.ordseq, StageOf(q.flying[i].kind)),
                                   orderr := if error != 0 && q.orderr == 0 then error else q.orderr)
  }

  lemma StageSequence(q: Queue, i: nat, error: int, q1: Queue)
    requires StageDone(q, i, error, q1) && LogSequence(q) && ProxyCounts(q)
    requires ProxyRq(q, q.flying[i]) && q.ordseq.started
    ensures LogSequence(q1)
  {
    var r := q.flying[i];
    var x := ProxyDone(r.kind, q.ended, error);
    ProxyGone(q, i, r.kind);
    hide ProxyCounts, CurSeq, HasBegun, HasDone, WantsPre, WantsPost;
    assert q1.log == q.log + [x];
    InAppend(q.log, x);
    StagesAppend(q.log, x);
  }

  lemma StageCounts(q: Queue, i: nat, error: int, q1: Queue)
    requires StageDone(q, i, error, q1) && LogSubmitted(q) && LogEnded(q) && q.flying[i].epoch == q.ended
    ensures LogSubmitted(q1) && LogEnded(q1)
  {
    hide HasBegun, HasDone, HasEnded, BarriersIn, Held;
    var x := ProxyDone(q.flying[i].kind, q.flying[i].epoch, error);
    InAppend(q.log, x);
    StagesAppend(q.log, x);
    HeldKept(q, q1);
  }

  lemma StageMode(q: Queue, i: nat, error: int, q1: Queue)
    requires StageDone(q, i, error, q1) && LogMode(q) && q.flying[i].epoch == q.ended
    ensures LogMode(q1)
  {
    hide FirstError, ModeAt;
    var x := ProxyDone(q.flying[i].kind, q.ended, error);
    InAppend(q.log, x);
    ErrorAppend(q.log, x, q.ended, q.orderr);
  }

  /** A proxy completes and its stage is logged. */
  lemma StageLog(q: Queue, i: nat, error: int, q1: Queue)
    requires Inv(q) && LogInv(q) && StageDone(q, i, error, q1)
    ensures LogInv(q1)
  {
    hide Safe, LogSubmitted, LogEnded, LogMode, Barriers, HeadOrdered, HasDone;
    var r := q.flying[i];
    assert FlyingRq(q, r);
    StageSequence(q, i, error, q1);
    StageCounts(q, i, error, q1);
    StageMode(q, i, error, q1);
    SafeAppend(q.log, ProxyDone(r.kind, r.epoch, error));
  }

  lemma EndSafe(q: Queue)
    requires LogInv(q) && q.orig.Some? && CurSeq(q.ordseq) == DONE
    ensures SafeAfter(q.log, Ended(q.ended, q.orderr))
  {
    hide HasBegun, HasDone, HasEnded, WantsPre, WantsPost, FirstError, Safe, LogSubmitted;
  }

  /** With the last stage the barrier ends. */
  ghost predicate EndsBarrier(q: Queue, q': Queue) {
    && q.orig.Some? && CurSeq(q.ordseq) == DONE
    && q' == q.(ordseq := IDLE, orig := None, ended := q.ended + 1, log := q.log + [Ended(q.ended, q.orderr)])
  }

  lemma EndCounts(q: Queue, q': Queue)
    requires LogEnded(q) && EndsBarrier(q, q')
    ensures LogEnded(q')
  {
    hide HasBegun, HasDone, HasEnded;
    InAppend(q.log, Ended(q.ended, q.orderr));
    StagesAppend(q.log, Ended(q.ended, q.orderr));
  }

  lemma EndSubmitted(q: Queue, q': Queue)
    requires LogSubmitted(q) && EndsBarrier(q, q')
    ensures LogSubmitted(q')
  {
    hide BarriersIn;
    InAppend(q.log, Ended(q.ended, q.orderr));
    HeldKept(q, q');
  }

  lemma EndLog(q: Queue, q': Queue)
    requires LogInv(q) && EndsBarrier(q, q')
    ensures LogInv(q')
  {
    hide Safe, SafeAfter, LogSubmitted, LogEnded, LogMode;
    EndSafe(q);
    SafeAppend(q.log, Ended(q.ended, q.orderr));
    EndCounts(q, q');
    EndSubmitted(q, q');
    ModeAppend(q, q', Ended(q.ended, q.orderr));
  }

  lemma ProxyDoneLog(q: Queue, i: nat, error: int)
    requires Inv(q) && LogInv(q) && i < |q.flying| && !q.flying[i].kind.Normal? && q.orig.Some?
    ensures LogInv(CompleteSeq(Release(q, i, error), StageOf(q.flying[i].kind), error))
  {
    hide LogInv;
    var r := q.flying[i];
    var err := if error != 0 && q.orderr == 0 then error else q.orderr;
    var q1 := Release(q, i, error).(ordseq := SetBit(q.ordseq, StageOf(r.kind)), orderr := err);
    var q' := CompleteSeq(Release(q, i, error), StageOf(r.kind), error);
    StageLog(q, i, error, q1);
    if CurSeq(q1.ordseq) == DONE {
      assert q.orig.value.epoch == q.ended;
      EndLog(q1, q');
    }
  }

  lemma CompleteLog(q: Queue, i: nat, error: int)
    requires Inv(q) && LogInv(q) && i < |q.flying|
    requires CurSeq(q.ordseq) == DRAIN ==> q.head != [] && !q.ordseq.bar
    requires !q.flying[i].kind.Normal? ==> q.ordseq.started
    ensures LogInv(Complete(q, i, error))
  {
    hide LogInv;
    var r := q.flying[i];
    assert FlyingRq(q, r);
    if r.kind.Normal? {
      FinishedLog(q, i, error);
      CheckDrainedLog(Release(q, i, error));
    } else {
      assert CheckDrained(Release(q, i, error)) == Release(q, i, error);
      ProxyDoneLog(q, i, error);
    }
  }

  // ---- runs ----

  datatype Step =
    | Add(fs: bool, hard: bool, soft: bool, write: bool, sector: nat, elvpriv: bool, place: Where, picks: seq<Pick>)
    | Move(pick: Pick)
    | Take
    | Unlink(index: nat)
    | PutBack(index: nat)
    | Done(index: nat, error: int)
    | Switch(mode: Mode)

  /** What the kernel code dereferences without checking. */
  predicate Sane(q: Queue) {
    && (q.orig.Some? <==> q.ordseq.started)
    && (CurSeq(q.ordseq) == DRAIN ==> q.head != [] && !q.ordseq.bar)
    && (q.ordseq.started || forall i :: 0 <= i < |q.flying| ==> q.flying[i].kind.Normal?)
  }

  predicate Enabled(q: Queue, s: Step) {
    match s
    case Move(p) => p.index < |q.sorted|
    case Unlink(i) => i < |q.head| && q.head[i].started
    case PutBack(i) => i < |q.flying|
    case Done(i, error) => i < |q.flying|
    case _ => true
  }

  /** One step; a step the driver or the scheduler cannot take changes nothing. */
  function Next(q: Queue, s: Step): Queue {
    if !Sane(q) || !Enabled(q, s) then q
    else match s
      case Add(fs, hard, soft, write, sector, elvpriv, place, picks) =>
        Submit(q, fs, hard, soft, write, sector, elvpriv, place, picks)
      case Move(p) => Dispatch(q, p)
      case Take => Fetch(q)
      case Unlink(i) => Dequeue(q, i)
      case PutBack(i) => Requeue(q, i)
      case Done(i, error) => Complete(q, i, error)
      case Switch(m) => SetMode(q, m)
  }

  function Run(q: Queue, steps: seq<Step>): Queue
    decreases |steps|
  {
    if steps == [] then q else Run(Next(q, steps[0]), steps[1..])
  }

  /** The queue stays in a drain mode and callers respect LegalSubmit. */
  predicate Legal(s: Step) {
    match s
    case Add(fs, hard, soft, write, sector, elvpriv, place, picks) => LegalSubmit(fs, hard, soft, elvpriv, place)
    case Switch(m) => m.Drain?
    case _ => true
  }

  lemma InvIsSane(q: Queue)
    requires Inv(q)
    ensures Sane(q)
  {
    if CurSeq(q.ordseq) == DRAIN { DrainingHead(q); }
    assert forall i :: 0 <= i < |q.flying| ==> FlyingRq(q, q.flying[i]);
  }

  lemma SwitchInv(q: Queue, m: Mode)
    requires Inv(q) && m.Drain?
    ensures Inv(SetMode(q, m))
  {
    var q' := SetMode(q, m);
    forall x | x in q.head ensures HeadRq(q', x) { assert HeadRq(q, x); }
    forall x | x in q.flying ensures FlyingRq(q', x) { assert FlyingRq(q, x); }
    forall i, j | 0 <= i < j < |q'.head| ensures Ordered(q', q'.head[i], q'.head[j]) {
      assert Ordered(q, q.head[i], q.head[j]);
    }
    forall k: Kind | k != Normal ensures Proxies(q', k) == Proxies(q, k) {}
    BarriersKept(q, q');
  }

  lemma SwitchLog(q: Queue, m: Mode)
    requires LogInv(q) && m.Drain?
    ensures LogInv(SetMode(q, m))
  {
    hide HasBegun, HasDone, HasEnded, BarriersIn, LogSequence, LogMode, Safe;
    var q' := SetMode(q, m);
    var x := Switched(m);
    SafeAppend(q.log, x);
    SequenceKept(q, q', x);
    ModeAppend(q, q', x);
    HeldKept(q, q');
    InAppend(q.log, x);
    StagesAppend(q.log, x);
  }

  lemma NextKeeps(q: Queue, s: Step)
    requires Inv(q) && LogInv(q) && Legal(s)
    ensures Inv(Next(q, s)) && LogInv(Next(q, s))
  {
    hide Inv, LogInv, Submit, Dispatch, Fetch, Dequeue, Requeue, Complete, SetMode, LegalSubmit;
    InvIsSane(q);
    if Enabled(q, s) {
      match s {
        case Add(fs, hard, soft, write, sector, elvpriv, place, picks) =>
          SubmitInv(q, fs, hard, soft, write, sector, elvpriv, place, picks);
          SubmitLog(q, fs, hard, soft, write, sector, elvpriv, place, picks);
        case Move(p) => DispatchInv(q, p); DispatchLog(q, p);
        case Take => FetchInv(q); FetchLog(q);
        case Unlink(i) => DequeueInv(q, i); DequeueLog(q, i);
        case PutBack(i) => RequeueInv(q, i); RequeueLog(q, i);
        case Done(i, error) => CompleteInv(q, i, error); CompleteLog(q, i, error);
        case Switch(m) => SwitchInv(q, m); SwitchLog(q, m);
      }
    }
  }

  lemma {:induction false} RunKeeps(q: Queue, steps: seq<Step>)
    requires Inv(q) && LogInv(q) && forall s :: s in steps ==> Legal(s)
    ensures Inv(Run(q, steps)) && LogInv(Run(q, steps))
    decreases |steps|
  {
    if steps != [] {
      NextKeeps(q, steps[0]);
      RunKeeps(Next(q, steps[0]), steps[1..]);
    }
  }

  lemma InitKeeps(mode: Mode, flushFs: bool)
    requires mode.Drain?
    ensures Inv(Init(mode, flushFs)) && LogInv(Init(mode, flushFs))
  {
  }

  /** Barrier safety: in every run of a drain-mode queue the log is safe, nothing submitted is
      lost, and the code never meets a state its unchecked accesses and BUG_ON/WARN_ON exclude. */
  lemma BarrierSafe(mode: Mode, flushFs: bool, steps: seq<Step>)
    requires mode.Drain? && forall s :: s in steps ==> Legal(s)
    ensures var q := Run(Init(mode, flushFs), steps);
      && Safe(q.log)
      && Sane(q)
      && (forall id: nat, e: nat :: Submitted(id, e, false) in q.log ==> Finished(id) in q.log || Held(q, id, e))
      && (forall id: nat, e: nat :: Submitted(id, e, true) in q.log ==>
            HasEnded(q.log, e) || (q.orig.Some? && q.orig.value.epoch == e) || HasBarrier(q.head, e))
      // WARN_ON in blk_do_ordered: the head never belongs to a stage already passed
      && (q.head != [] && q.orig.Some? && Ranked(q.head[0]) ==> CurSeq(q.ordseq) <= ReqSeq(q, q.head[0]))
      // BUG_ON in blk_ordered_complete_seq: a proxy held by the driver is the current stage
      && (forall r :: r in q.flying && !r.kind.Normal? ==> CurSeq(q.ordseq) == StageOf(r.kind))
  {
    var q := Run(Init(mode, flushFs), steps);
    InitKeeps(mode, flushFs);
    RunKeeps(Init(mode, flushFs), steps);
    InvIsSane(q);
    if q.head != [] {
      HeadStage(q);
      assert HeadRq(q, q.head[0]);
    }
    assert forall r :: r in q.flying && !r.kind.Normal? ==> FlyingRq(q, r);
  }

  // ---- a queue whose mode never changes ----

  /** The queue was given this mode at first and no other since. */
  ghost predicate OnlyMode(log: seq<Event>, m: Mode) {
    forall x :: x in log && x.Switched? ==> x.mode == m
  }

  lemma OnlyModeAt(log: seq<Event>, m: Mode)
    requires OnlyMode(log, m)
    ensures ModeAt(log) == m || ModeAt(log) == NoOrder
  {
    if log != [] {
      OnlyModeAt(log[..|log| - 1], m);
    }
  }

  lemma OnlyAppend(log: seq<Event>, x: Event, m: Mode)
    requires OnlyMode(log, m) && !x.Switched?
    ensures OnlyMode(log + [x], m)
  {
  }

  lemma FetchOnly(q: Queue, m: Mode)
    requires OnlyMode(q.log, m) && (q.orig.Some? <==> q.ordseq.started)
    ensures OnlyMode(Fetch(q).log, m)
  {
    hide OnlyMode, ProxyList, CurSeq, ReqSeq;
    if q.head != [] {
      var q1 := DoOrdered(q).0;
      OnlyAppend(q.log, Began(q.head[0].epoch, q.mode.Drain? && q.mode.preFlush, q.mode.Drain? && q.mode.postFlush), m);
      OnlyAppend(q.log, Ended(q.head[0].epoch, EOPNOTSUPP), m);
      if q1.head != [] { OnlyAppend(q1.log, IssueEvent(q1.head[0]), m); }
    }
  }

  lemma SequenceOnly(q: Queue, stage: nat, error: int, m: Mode)
    requires OnlyMode(q.log, m) && q.orig.Some?
    ensures OnlyMode(CompleteSeq(q, stage, error).log, m)
  {
    hide OnlyMode, CurSeq, SetBit;
    OnlyAppend(q.log, Ended(q.orig.value.epoch, if error != 0 && q.orderr == 0 then error else q.orderr), m);
  }

  lemma CompleteOnly(q: Queue, i: nat, error: int, m: Mode)
    requires OnlyMode(q.log, m) && Sane(q) && i < |q.flying|
    ensures OnlyMode(Complete(q, i, error).log, m)
  {
    hide OnlyMode, CompleteSeq, Remove;
    var r := q.flying[i];
    OnlyAppend(q.log, if r.kind.Normal? then Finished(r.id) else ProxyDone(r.kind, r.epoch, error), m);
    var q1 := Release(q, i, error);
    if q1.orig.Some? {
      SequenceOnly(q1, DRAIN, 0, m);
      SequenceOnly(CheckDrained(q1), StageOf(r.kind), error, m);
    }
  }

  /** No step but Switch logs a change of mode. */
  lemma NextOnly(q: Queue, s: Step, m: Mode)
    requires OnlyMode(q.log, m) && !s.Switch?
    ensures OnlyMode(Next(q, s).log, m)
  {
    hide OnlyMode, Fetch, Complete, Placed, Drained, Insert, Remove;
    if Sane(q) && Enabled(q, s) {
      match s {
        case Add(fs, hard, soft, write, sector, elvpriv, place, picks) =>
          OnlyAppend(q.log, if fs then Submitted(q.nextId, q.epochs, hard) else Special(q.nextId), m);
        case Take => FetchOnly(q, m);
        case Done(i, error) => CompleteOnly(q, i, error, m);
        case _ =>
      }
    }
  }

  lemma {:induction false} RunOnly(q: Queue, steps: seq<Step>, m: Mode)
    requires OnlyMode(q.log, m) && forall s :: s in steps ==> !s.Switch?
    ensures OnlyMode(Run(q, steps).log, m)
    decreases |steps|
  {
    hide Next, OnlyMode;
    if steps != [] {
      NextOnly(q, steps[0], m);
      RunOnly(Next(q, steps[0]), steps[1..], m);
    }
  }

  /** What a barrier promises of each event: the cache is flushed before the barrier goes out and after
      it, each where the mode asks for it and not otherwise, and the barrier ends behind both with the
      first error of its stages. */
  ghost predicate Flushed(m: Mode, log: seq<Event>, x: Event)
    requires m.Drain?
  {
    match x
    case ProxyIssued(k, e) =>
      && (k.PreFlush? ==> m.preFlush)
      && (k.Bar? && m.preFlush ==> HasDone(log, PreFlush, e))
      && (k.PostFlush? ==> m.postFlush && HasDone(log, Bar, e))
    case Ended(e, err) =>
      && (m.preFlush ==> HasDone(log, PreFlush, e))
      && HasDone(log, Bar, e)
      && (m.postFlush ==> HasDone(log, PostFlush, e))
      && FirstError(log, e, err)
    case _ => true
  }

  /** With the mode fixed, all of that is a matter of the mode alone. */
  lemma FlushesAround(mode: Mode, flushFs: bool, steps: seq<Step>)
    requires mode.Drain? && forall s :: s in steps ==> Legal(s) && !s.Switch?
    ensures var log := Run(Init(mode, flushFs), steps).log;
            forall i :: 0 <= i < |log| ==> Flushed(mode, log[..i], log[i])
  {
    hide Safe, Run, HasDone, FirstError;
    var q0 := Init(mode, flushFs);
    var log := Run(q0, steps).log;
    BarrierSafe(mode, flushFs, steps);
    RunOnly(q0, steps, mode);
    forall i | 0 <= i < |log| ensures Flushed(mode, log[..i], log[i]) {
      SafeAt(log, i);
      if log[i].ProxyIssued? || log[i].Ended? { BegunFlags(log, i, mode, log[i].epoch); }
    }
  }

  lemma SafeAt(log: seq<Event>, i: nat)
    requires Safe(log) && i < |log|
    ensures SafeAfter(log[..i], log[i])
  {
  }

  /** The flags a sequence began with are those of the mode. */
  lemma BegunFlags(log: seq<Event>, i: nat, m: Mode, e: nat)
    requires Safe(log) && OnlyMode(log, m) && m.Drain? && i <= |log| && HasBegun(log[..i], e)
    ensures (WantsPre(log[..i], e) <==> m.preFlush) && (WantsPost(log[..i], e) <==> m.postFlush)
  {
    var pre, post :| Began(e, pre, post) in log[..i];
    forall a, b | Began(e, a, b) in log[..i] ensures m == Drain(a, b) {
      var j :| 0 <= j < i && log[j] == Began(e, a, b);
      SafeAt(log, j);
      OnlyModeAt(log[..j], m);
    }
    assert Began(e, m.preFlush, m.postFlush) in log[..i];
  }
}
