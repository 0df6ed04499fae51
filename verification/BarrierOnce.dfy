/** Every request enters once, is in one place until it is finished, and is finished once. */
module BarrierOnce {
  import opened Options
  import opened BarrierModel
  import opened BarrierSafety
  import opened BarrierRuns

  function Weight(r: Request, id: nat): nat { if r.kind.Normal? && r.id == id then 1 else 0 }

  /** How often request id is on a list; the proxies carry the id of their barrier but are not it. */
  function IdCount(s: seq<Request>, id: nat): nat {
    if s == [] then 0 else Weight(s[0], id) + IdCount(s[1..], id)
  }

  function InSystem(q: Queue, id: nat): nat {
    IdCount(q.head, id) + IdCount(q.sorted, id) + IdCount(q.flying, id)
    + (if q.orig.Some? then Weight(q.orig.value, id) else 0)
  }

  lemma {:induction false} IdAppend(s: seq<Request>, t: seq<Request>, id: nat)
    ensures IdCount(s + t, id) == IdCount(s, id) + IdCount(t, id)
  {
    if s == [] {
      assert s + t == t;
    } else {
      assert (s + t)[1..] == s[1..] + t;
      IdAppend(s[1..], t, id);
    }
  }

  lemma IdOne(r: Request, id: nat)
    ensures IdCount([r], id) == Weight(r, id)
  {
  }

  lemma IdInsert(s: seq<Request>, i: nat, r: Request, id: nat)
    requires i <= |s|
    ensures IdCount(Insert(s, i, r), id) == IdCount(s, id) + Weight(r, id)
  {
    hide Weight, IdCount;
    assert Insert(s, i, r) == s[..i] + ([r] + s[i..]);
    IdAppend(s[..i], [r] + s[i..], id);
    IdAppend([r], s[i..], id);
    IdOne(r, id);
    IdAppend(s[..i], s[i..], id);
    assert s == s[..i] + s[i..];
  }

  lemma IdRemove(s: seq<Request>, i: nat, id: nat)
    requires i < |s|
    ensures IdCount(s, id) == IdCount(Remove(s, i), id) + Weight(s[i], id)
  {
    assert Insert(Remove(s, i), i, s[i]) == s;
    IdInsert(Remove(s, i), i, s[i], id);
  }

  lemma IdUpdate(s: seq<Request>, i: nat, r: Request, id: nat)
    requires i < |s| && Weight(r, id) == Weight(s[i], id)
    ensures IdCount(s[i := r], id) == IdCount(s, id)
  {
    IdRemove(s, i, id);
    IdRemove(s[i := r], i, id);
    assert Remove(s[i := r], i) == Remove(s, i);
  }

  lemma IdIn(s: seq<Request>, i: nat)
    requires i < |s| && s[i].kind.Normal?
    ensures IdCount(s, s[i].id) >= 1
  {
    IdRemove(s, i, s[i].id);
  }

  // ---- what the log says ----

  /** Request id came in and is no barrier. */
  ghost predicate PlainIn(log: seq<Event>, id: nat) {
    Special(id) in log || exists e: nat :: Submitted(id, e, false) in log
  }

  ghost predicate Entered(log: seq<Event>, id: nat) {
    PlainIn(log, id) || exists e: nat :: Submitted(id, e, true) in log
  }

  ghost predicate OnceAfter(log: seq<Event>, x: Event) {
    match x
    case Submitted(id, e, barrier) => !Entered(log, id)
    case Special(id) => !Entered(log, id)
    case Issued(id, e) => PlainIn(log, id) && Finished(id) !in log
    case Finished(id) => PlainIn(log, id) && Finished(id) !in log
    case _ => true
  }

  ghost predicate Once(log: seq<Event>) {
    forall i :: 0 <= i < |log| ==> OnceAfter(log[..i], log[i])
  }

  lemma OnceAppend(log: seq<Event>, x: Event)
    requires Once(log) && OnceAfter(log, x)
    ensures Once(log + [x])
  {
    forall i | 0 <= i < |log + [x]| ensures OnceAfter((log + [x])[..i], (log + [x])[i]) {
      assert (log + [x])[..i] == log[..i];
      assert log[..|log|] == log;
    }
  }

  lemma EnteredAppend(log: seq<Event>, x: Event, id: nat)
    ensures PlainIn(log + [x], id) <==>
            PlainIn(log, id) || x == Special(id) || (x.Submitted? && x.id == id && !x.barrier)
    ensures Entered(log + [x], id) <==>
            Entered(log, id) || x == Special(id) || (x.Submitted? && x.id == id)
    ensures Finished(id) in log + [x] <==> Finished(id) in log || x == Finished(id)
  {
    if PlainIn(log, id) && Special(id) !in log {
      var e: nat :| Submitted(id, e, false) in log;
      assert Submitted(id, e, false) in log + [x];
    }
    if e: nat :| Submitted(id, e, true) in log {
      assert Submitted(id, e, true) in log + [x];
    }
    if x.Submitted? && x.id == id {
      assert Submitted(id, x.epoch, x.barrier) in log + [x];
    }
  }

  // ---- the invariant ----

  ghost predicate Accounted(q: Queue, id: nat) {
    && InSystem(q, id) <= 1
    && (id >= q.nextId ==> InSystem(q, id) == 0 && !Entered(q.log, id) && Finished(id) !in q.log)
    && (Finished(id) in q.log ==> InSystem(q, id) == 0)
    && (PlainIn(q.log, id) && Finished(id) !in q.log ==> InSystem(q, id) == 1)
  }

  predicate Listed(q: Queue, r: Request) { r in q.head || r in q.sorted || r in q.flying }

  ghost predicate Known(q: Queue) {
    && (forall r :: Listed(q, r) && r.kind.Normal? ==> (IsBarrier(r) <==> !PlainIn(q.log, r.id)))
    && (q.orig.Some? ==> q.orig.value.kind.Normal? && !PlainIn(q.log, q.orig.value.id))
  }

  ghost predicate OnceInv(q: Queue) {
    Once(q.log) && (forall id: nat :: Accounted(q, id)) && Known(q)
  }

  lemma ListedCount(q: Queue, r: Request)
    requires Listed(q, r) && r.kind.Normal?
    ensures InSystem(q, r.id) >= 1
  {
    if i :| 0 <= i < |q.head| && q.head[i] == r { IdIn(q.head, i); }
    if i :| 0 <= i < |q.sorted| && q.sorted[i] == r { IdIn(q.sorted, i); }
    if i :| 0 <= i < |q.flying| && q.flying[i] == r { IdIn(q.flying, i); }
  }

  /** Every listed request of q' is one of q, up to flags that do not matter here. */
  ghost predicate Same(q: Queue, q': Queue, r: Request) {
    exists s :: Listed(q, s) && s.kind == r.kind && s.id == r.id && IsBarrier(s) == IsBarrier(r)
  }

  predicate Neutral(x: Event) { !x.Submitted? && !x.Special? && !x.Finished? && !x.Issued? }

  /** Steps that only move requests. */
  lemma Moved(q: Queue, q': Queue)
    requires OnceInv(q) && q'.log == q.log && q'.nextId == q.nextId && q'.orig == q.orig
    requires forall id: nat :: InSystem(q', id) == InSystem(q, id)
    requires forall r :: Listed(q', r) && r.kind.Normal? ==> Same(q, q', r)
    ensures OnceInv(q')
  {
    hide InSystem, PlainIn, Entered, Once;
    forall id: nat ensures Accounted(q', id) { assert Accounted(q, id); }
  }

  /** A barrier may leave; others stay. */
  lemma Noted(q: Queue, q': Queue, x: Event)
    requires OnceInv(q) && q'.log == q.log + [x] && Neutral(x) && q'.nextId == q.nextId
    requires forall id: nat :: InSystem(q', id) == InSystem(q, id) || (InSystem(q', id) == 0 && !PlainIn(q.log, id))
    requires forall r :: Listed(q', r) && r.kind.Normal? ==> Listed(q, r)
    requires q'.orig.Some? ==> q'.orig.value.kind.Normal? && !PlainIn(q.log, q'.orig.value.id)
    ensures OnceInv(q')
  {
    hide InSystem, PlainIn, Entered, Once;
    OnceAppend(q.log, x);
    forall id: nat ensures Accounted(q', id) {
      assert Accounted(q, id);
      EnteredAppend(q.log, x, id);
    }
    forall r | Listed(q', r) && r.kind.Normal? ensures IsBarrier(r) <==> !PlainIn(q'.log, r.id) {
      EnteredAppend(q.log, x, r.id);
    }
    if q'.orig.Some? { EnteredAppend(q.log, x, q'.orig.value.id); }
  }

  /** A new request. */
  lemma Arrived(q: Queue, q': Queue, r: Request, x: Event)
    requires OnceInv(q) && q'.log == q.log + [x] && q'.orig == q.orig && q'.nextId == q.nextId + 1
    requires r.kind.Normal? && r.id == q.nextId
    requires x == if r.fs then Submitted(r.id, r.epoch, r.hard) else Special(r.id)
    requires forall id: nat :: InSystem(q', id) == InSystem(q, id) + Weight(r, id)
    requires forall s :: Listed(q', s) && s.kind.Normal? ==>
      Listed(q, s) || (s.id == r.id && IsBarrier(s) == IsBarrier(r))
    ensures OnceInv(q')
  {
    hide InSystem, PlainIn, Entered, Once;
    assert Accounted(q, r.id);
    OnceAppend(q.log, x);
    forall id: nat ensures Accounted(q', id) {
      assert Accounted(q, id);
      EnteredAppend(q.log, x, id);
    }
    forall s | Listed(q', s) && s.kind.Normal? ensures IsBarrier(s) <==> !PlainIn(q'.log, s.id) {
      EnteredAppend(q.log, x, s.id);
      if Listed(q, s) {
        ListedCount(q, s);
        assert Accounted(q, s.id);
      } else {
        hide IsBarrier;
        assert !PlainIn(q.log, r.id) by { PlainEntered(q.log, r.id); }
      }
    }
    if q.orig.Some? {
      var b := q.orig.value;
      EnteredAppend(q.log, x, b.id);
      OrigCount(q);
      assert Accounted(q, b.id);
    }
  }

  lemma PlainEntered(log: seq<Event>, id: nat)
    ensures PlainIn(log, id) ==> Entered(log, id)
  {
  }

  lemma OrigCount(q: Queue)
    requires q.orig.Some?
    ensures q.orig.value.kind.Normal? ==> InSystem(q, q.orig.value.id) >= 1
  {
  }

  /** The request at index k of list s is handed over or finished. */
  lemma MayEnd(q: Queue, r: Request)
    requires OnceInv(q) && Listed(q, r) && r.kind.Normal? && !IsBarrier(r)
    ensures PlainIn(q.log, r.id) && Finished(r.id) !in q.log
  {
    hide InSystem, PlainIn, Entered, Once;
    assert Accounted(q, r.id);
    ListedCount(q, r);
  }

  lemma HandedOver(q: Queue, q': Queue, r: Request)
    requires OnceInv(q) && Listed(q, r) && r.kind.Normal? && !IsBarrier(r)
    requires q'.log == q.log + [Issued(r.id, r.epoch)] && q'.nextId == q.nextId && q'.orig == q.orig
    requires forall id: nat :: InSystem(q', id) == InSystem(q, id)
    requires forall r :: Listed(q', r) && r.kind.Normal? ==> Same(q, q', r)
    ensures OnceInv(q')
  {
    hide InSystem, PlainIn, Entered, Once;
    var x := Issued(r.id, r.epoch);
    MayEnd(q, r);
    OnceAppend(q.log, x);
    forall id: nat ensures Accounted(q', id) {
      assert Accounted(q, id);
      EnteredAppend(q.log, x, id);
    }
    forall s | Listed(q', s) && s.kind.Normal? ensures IsBarrier(s) <==> !PlainIn(q'.log, s.id) {
      EnteredAppend(q.log, x, s.id);
      assert Same(q, q', s);
    }
    if q.orig.Some? { EnteredAppend(q.log, x, q.orig.value.id); }
  }

  lemma Left(q: Queue, q': Queue, r: Request)
    requires OnceInv(q) && Listed(q, r) && r.kind.Normal? && !IsBarrier(r)
    requires q'.log == q.log + [Finished(r.id)] && q'.nextId == q.nextId && q'.orig == q.orig
    requires forall id: nat :: InSystem(q, id) == InSystem(q', id) + Weight(r, id)
    requires forall s :: Listed(q', s) ==> Listed(q, s)
    ensures OnceInv(q')
  {
    hide InSystem, PlainIn, Entered, Once, IsBarrier;
    var x := Finished(r.id);
    MayEnd(q, r);
    OnceAppend(q.log, x);
    PlainEntered(q.log, r.id);
    forall id: nat ensures Accounted(q', id) {
      assert Accounted(q, id);
      EnteredAppend(q.log, x, id);
    }
    forall s | Listed(q', s) && s.kind.Normal? ensures IsBarrier(s) <==> !PlainIn(q'.log, s.id) {
      EnteredAppend(q.log, x, s.id);
    }
    if q.orig.Some? { EnteredAppend(q.log, x, q.orig.value.id); }
  }

  // ---- the steps ----

  lemma DispatchOnce(q: Queue, p: Pick)
    requires OnceInv(q) && p.index < |q.sorted|
    ensures OnceInv(Dispatch(q, p))
  {
    hide OnceInv, IdCount, Weight;
    var q' := Dispatch(q, p);
    var r := q.sorted[p.index];
    forall id: nat ensures InSystem(q', id) == InSystem(q, id) {
      IdRemove(q.sorted, p.index, id);
      IdInsert(q.head, if p.Tail? then |q.head| else SortPos(q.head, |q.head|, r, p.boundary), r, id);
    }
    Moved(q, q');
  }

  lemma {:induction false} DrainOnce(q: Queue, picks: seq<Pick>)
    requires OnceInv(q)
    ensures OnceInv(q.(head := Drained(q.head, q.sorted, picks), sorted := []))
    decreases |q.sorted|
  {
    hide OnceInv, Placed;
    if q.sorted != [] {
      var p := if picks != [] && picks[0].index < |q.sorted| then picks[0] else Tail(0);
      DispatchOnce(q, p);
      DrainOnce(Dispatch(q, p), if picks == [] then [] else picks[1..]);
    } else {
      assert q.(head := Drained(q.head, q.sorted, picks), sorted := []) == q;
    }
  }

  /** The lists with a new request, the scheduler being drained already where it has to be. */
  function Put(q: Queue, r: Request, at: Where): Queue {
    match at
    case Front => q.(head := Insert(q.head, 0, r.(soft := true)))
    case Back => q.(head := q.head + [r.(soft := true)])
    case Sorted => q.(sorted := q.sorted + [r])
  }

  lemma PutCounts(q: Queue, r: Request, at: Where, id: nat)
    ensures InSystem(Put(q, r, at), id) == InSystem(q, id) + Weight(r, id)
  {
    hide IdCount, Weight;
    var m := r.(soft := true);
    SameWeight(m, r, id);
    match at
    case Front => IdInsert(q.head, 0, m, id);
    case Back => IdAppend(q.head, [m], id); IdOne(m, id);
    case Sorted => IdAppend(q.sorted, [r], id); IdOne(r, id);
  }

  lemma PutArrives(q: Queue, q': Queue, r: Request, at: Where, x: Event)
    requires OnceInv(q) && q'.log == q.log + [x] && q'.orig == q.orig && q'.nextId == q.nextId + 1
    requires r.kind.Normal? && r.id == q.nextId
    requires x == if r.fs then Submitted(r.id, r.epoch, r.hard) else Special(r.id)
    requires q'.flying == q.flying && q'.head == Put(q, r, at).head && q'.sorted == Put(q, r, at).sorted
    ensures OnceInv(q')
  {
    hide OnceInv, IdCount, Weight;
    forall id: nat ensures InSystem(q', id) == InSystem(q, id) + Weight(r, id) { PutCounts(q, r, at, id); }
    Arrived(q, q', r, x);
  }

  lemma SubmitLists(q: Queue, s: Step)
    requires s.Add? && Sane(q)
    ensures var at := if s.place.Sorted? && (s.soft || s.hard || !s.elvpriv) then Back else s.place;
            var r := Request(Normal, q.nextId, q.epochs, s.fs, s.hard, s.soft, false, q.ordcolor, s.write, s.sector);
            var d := if at.Back? then q.(head := Drained(q.head, q.sorted, s.picks), sorted := []) else q;
            var q' := Next(q, s);
            && q'.head == Put(d, r, at).head && q'.sorted == Put(d, r, at).sorted && q'.flying == q.flying
            && q'.orig == q.orig && q'.nextId == q.nextId + 1
            && q'.log == q.log + [if r.fs then Submitted(r.id, r.epoch, r.hard) else Special(r.id)]
  {
    hide Drained, Insert, Sane;
  }

  lemma EnterOnce(q: Queue, s: Step)
    requires OnceInv(q) && s.Add? && Sane(q)
    ensures OnceInv(Next(q, s))
  {
    hide OnceInv, Drained, Next, Put, Sane;
    SubmitLists(q, s);
    var r := Request(Normal, q.nextId, q.epochs, s.fs, s.hard, s.soft, false, q.ordcolor, s.write, s.sector);
    var at := if s.place.Sorted? && (s.soft || s.hard || !s.elvpriv) then Back else s.place;
    var x := if r.fs then Submitted(r.id, r.epoch, r.hard) else Special(r.id);
    if at.Back? {
      var d := q.(head := Drained(q.head, q.sorted, s.picks), sorted := []);
      DrainOnce(q, s.picks);
      PutArrives(d, Next(q, s), r, at, x);
    } else {
      PutArrives(q, Next(q, s), r, at, x);
    }
  }

  lemma SameWeight(r: Request, s: Request, id: nat)
    requires r.kind == s.kind && r.id == s.id
    ensures Weight(r, id) == Weight(s, id)
  {
  }

  lemma StartOnce(q: Queue)
    requires OnceInv(q) && Startable(q)
    ensures OnceInv(StartOrdered(q))
  {
    hide OnceInv, ProxyList, HeadRq, FlyingRq, SortedRq, HeadOrdered, ProxyCounts, Barriers, CountFs;
    var q' := StartOrdered(q);
    var b := q.head[0];
    var x := Began(b.epoch, q.mode.preFlush, q.mode.postFlush);
    ProxiesNormal(q.(orig := Some(b)));
    forall id: nat ensures InSystem(q', id) == InSystem(q, id) { StartCount(q, id); }
    BarrierAtHead(q);
    assert forall r :: Listed(q', r) && r.kind.Normal? ==> Listed(q, r);
    Noted(q, q', x);
  }

  lemma BarrierAtHead(q: Queue)
    requires OnceInv(q) && q.head != [] && IsBarrier(q.head[0])
    ensures !PlainIn(q.log, q.head[0].id) && q.head[0].kind.Normal?
  {
    assert Listed(q, q.head[0]);
  }

  lemma ProxiesNormal(q: Queue)
    requires q.orig.Some? && q.mode.Drain?
    ensures forall r :: r in ProxyList(q) ==> !r.kind.Normal?
  {
  }

  lemma {:induction false} NoneNormal(s: seq<Request>, id: nat)
    requires forall r :: r in s ==> !r.kind.Normal?
    ensures IdCount(s, id) == 0
  {
    if s != [] { NoneNormal(s[1..], id); }
  }

  lemma StartCount(q: Queue, id: nat)
    requires q.head != [] && q.mode.Drain? && q.orig.None?
    ensures InSystem(StartOrdered(q), id) == InSystem(q, id)
  {
    hide ProxyList, Weight;
    var q0 := q.(orig := Some(q.head[0]));
    ProxiesNormal(q0);
    NoneNormal(ProxyList(q0), id);
    IdAppend(ProxyList(q0), q.head[1..], id);
  }

  lemma MarkOnce(q: Queue)
    requires OnceInv(q) && q.head != [] && !IsBarrier(q.head[0])
    ensures OnceInv(MarkStarted(q))
  {
    hide OnceInv, IdCount, Weight;
    var q' := MarkStarted(q);
    var r := q.head[0];
    var m := r.(started := true);
    if !r.started {
      forall id: nat ensures InSystem(q', id) == InSystem(q, id) {
        SameWeight(m, r, id);
        IdUpdate(q.head, 0, m, id);
      }
      forall s | Listed(q', s) && s.kind.Normal? ensures Same(q, q', s) {
        assert s == m || Listed(q, s);
        assert Listed(q, r);
      }
      if r.kind.Normal? && r.fs {
        assert Listed(q, r);
        HandedOver(q, q', r);
      } else if r.kind.Normal? {
        Moved(q, q');
      } else {
        assert forall s :: Listed(q', s) && s.kind.Normal? ==> Listed(q, s);
        if q.orig.Some? { OrigKnown(q); }
        Noted(q, q', IssueEvent(r));
      }
    }
  }

  lemma OrigKnown(q: Queue)
    requires OnceInv(q) && q.orig.Some?
    ensures q.orig.value.kind.Normal? && !PlainIn(q.log, q.orig.value.id)
  {
  }

  lemma FetchOnce(q: Queue)
    requires OnceInv(q) && Inv(q)
    ensures OnceInv(Fetch(q))
  {
    hide OnceInv, ProxyList;
    if q.head != [] {
      var (q1, offered) := DoOrdered(q);
      assert HeadRq(q, q.head[0]);
      if !q.ordseq.started && IsBarrier(q.head[0]) {
        StartOnce(q);
        StartInv(q);
        if offered {
          HeadIsProxy(q);
          MarkOnce(q1);
        }
      } else if offered {
        HeadStage(q);
        MarkOnce(q1);
      }
    }
  }

  lemma HeadIsProxy(q: Queue)
    requires q.head != [] && q.mode.Drain?
    ensures StartOrdered(q).head != [] && !IsBarrier(StartOrdered(q).head[0])
  {
  }

  lemma DequeueOnce(q: Queue, i: nat)
    requires OnceInv(q) && i < |q.head| && q.head[i].started
    ensures OnceInv(Dequeue(q, i))
  {
    hide OnceInv, IdCount, Weight;
    var q' := Dequeue(q, i);
    forall id: nat ensures InSystem(q', id) == InSystem(q, id) {
      IdRemove(q.head, i, id);
      IdAppend(q.flying, [q.head[i]], id);
      IdOne(q.head[i], id);
    }
    Moved(q, q');
  }

  lemma RequeueOnce(q: Queue, i: nat)
    requires OnceInv(q) && i < |q.flying| && (q.orig.Some? <==> q.ordseq.started)
    ensures OnceInv(Requeue(q, i))
  {
    hide OnceInv, IdCount, Weight;
    var q' := Requeue(q, i);
    var r := q.flying[i];
    var m := r.(started := false, soft := true);
    var q1 := q.(flying := q'.flying, inFlight := q'.inFlight);
    forall id: nat ensures InSystem(q', id) == InSystem(q, id) {
      SameWeight(m, r, id);
      IdRemove(q.flying, i, id);
      IdInsert(q.head, if q.ordseq.started then RequeuePos(q1, m, 0) else 0, m, id);
    }
    forall s | Listed(q', s) && s.kind.Normal? ensures Same(q, q', s) {
      assert s == m || Listed(q, s);
      assert Listed(q, r);
    }
    Moved(q, q');
  }

  lemma ReleaseOnce(q: Queue, i: nat, error: int)
    requires OnceInv(q) && i < |q.flying| && !IsBarrier(q.flying[i])
    ensures OnceInv(Release(q, i, error))
  {
    hide OnceInv, IdCount, Weight;
    var q' := Release(q, i, error);
    var r := q.flying[i];
    forall id: nat ensures InSystem(q, id) == InSystem(q', id) + Weight(r, id) { IdRemove(q.flying, i, id); }
    assert Listed(q, r);
    if r.kind.Normal? {
      Left(q, q', r);
    } else {
      forall id: nat ensures InSystem(q', id) == InSystem(q, id) { ProxyWeight(r, id); }
      if q.orig.Some? { OrigKnown(q); }
      Noted(q, q', ProxyDone(r.kind, r.epoch, error));
    }
  }

  lemma ProxyWeight(r: Request, id: nat)
    requires !r.kind.Normal?
    ensures Weight(r, id) == 0
  {
  }

  lemma SequenceOnce(q: Queue, stage: nat, error: int)
    requires OnceInv(q) && q.orig.Some?
    ensures OnceInv(CompleteSeq(q, stage, error))
  {
    hide OnceInv, IdCount, SetBit, CurSeq;
    var q' := CompleteSeq(q, stage, error);
    OrigKnown(q);
    if q'.orig.Some? {
      Moved(q, q');
    } else {
      EndedCounts(q, q');
      Noted(q, q', Ended(q.orig.value.epoch, if error != 0 && q.orderr == 0 then error else q.orderr));
    }
  }

  lemma EndedCounts(q: Queue, q': Queue)
    requires OnceInv(q) && q.orig.Some? && q'.orig.None?
    requires q'.head == q.head && q'.sorted == q.sorted && q'.flying == q.flying
    ensures forall id: nat :: InSystem(q', id) == InSystem(q, id) || (InSystem(q', id) == 0 && !PlainIn(q.log, id))
  {
    hide IdCount, PlainIn, Once;
    forall id: nat
      ensures InSystem(q', id) == InSystem(q, id) || (InSystem(q', id) == 0 && !PlainIn(q.log, id))
    {
      assert Accounted(q, id);
    }
  }

  lemma CompleteOnce(q: Queue, i: nat, error: int)
    requires OnceInv(q) && Inv(q) && Sane(q) && i < |q.flying|
    ensures OnceInv(Complete(q, i, error))
  {
    hide OnceInv, CompleteSeq, Release, Barriers, HeadOrdered, ProxyCounts;
    assert FlyingRq(q, q.flying[i]);
    ReleaseOnce(q, i, error);
    var q1 := Release(q, i, error);
    SameOrig(q, i, error);
    if q1.orig.Some? {
      SequenceOnce(q1, DRAIN, 0);
      SequenceOnce(CheckDrained(q1), StageOf(q.flying[i].kind), error);
    }
  }

  lemma SameOrig(q: Queue, i: nat, error: int)
    requires i < |q.flying|
    ensures var q1 := Release(q, i, error); q1.orig == q.orig && q1.ordseq == q.ordseq && q1.head == q.head
  {
  }

  lemma SwitchOnce(q: Queue, m: Mode)
    requires OnceInv(q)
    ensures OnceInv(SetMode(q, m))
  {
    hide OnceInv, IdCount;
    if q.orig.Some? { OrigKnown(q); }
    Noted(q, SetMode(q, m), Switched(m));
  }

  lemma NextOnce(q: Queue, s: Step)
    requires OnceInv(q) && Inv(q)
    ensures OnceInv(Next(q, s))
  {
    hide OnceInv, Inv, Submit, Dispatch, Fetch, Dequeue, Requeue, Complete, SetMode;
    InvIsSane(q);
    if Enabled(q, s) {
      match s {
        case Add(fs, hard, soft, write, sector, elvpriv, place, picks) => EnterOnce(q, s);
        case Move(p) => DispatchOnce(q, p);
        case Take => FetchOnce(q);
        case Unlink(i) => DequeueOnce(q, i);
        case PutBack(i) => RequeueOnce(q, i);
        case Done(i, error) => CompleteOnce(q, i, error);
        case Switch(m) => SwitchOnce(q, m);
      }
    }
  }

  lemma {:induction false} RunOnce(q: Queue, steps: seq<Step>)
    requires Inv(q) && LogInv(q) && OnceInv(q) && forall s :: s in steps ==> Legal(s)
    ensures OnceInv(Run(q, steps))
    decreases |steps|
  {
    hide Inv, LogInv, OnceInv, Next, Legal;
    if steps != [] {
      NextKeeps(q, steps[0]);
      NextOnce(q, steps[0]);
      RunOnce(Next(q, steps[0]), steps[1..]);
    }
  }

  lemma InitOnce(mode: Mode, flushFs: bool)
    ensures OnceInv(Init(mode, flushFs))
  {
  }

  /** In every run no request is issued before it came in or after it was finished, none is finished
      twice, and one that came in is finished exactly when it is nowhere any more; until then it is in
      exactly one place. */
  lemma ExactlyOnce(mode: Mode, flushFs: bool, steps: seq<Step>)
    requires mode.Drain? && forall s :: s in steps ==> Legal(s)
    ensures var q := Run(Init(mode, flushFs), steps);
            && Once(q.log)
            && forall id: nat :: PlainIn(q.log, id) ==> InSystem(q, id) == if Finished(id) in q.log then 0 else 1
  {
    hide Inv, LogInv, Run, Legal, InSystem, PlainIn, Entered, Once;
    InitKeeps(mode, flushFs);
    InitOnce(mode, flushFs);
    RunOnce(Init(mode, flushFs), steps);
    var q := Run(Init(mode, flushFs), steps);
    forall id: nat | PlainIn(q.log, id) ensures InSystem(q, id) == if Finished(id) in q.log then 0 else 1 {
      assert Accounted(q, id);
    }
  }
}
