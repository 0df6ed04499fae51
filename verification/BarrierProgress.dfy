/** The barrier protocol never deadlocks: when the driver holds nothing, it is offered what is queued. */
module BarrierProgress {
  import opened BarrierModel
  import opened BarrierSafety
  import opened BarrierRuns

  ghost predicate HasSpecial(s: seq<Request>) { exists r :: r in s && r.kind.Normal? && !r.fs }

  predicate FrontDrains(q: Queue) { q.orig.Some? && q.head != [] && ReqSeq(q, q.head[0]) == DRAIN }

  /** While a sequence waits for the queue to drain and nothing that counts is in flight, something else
      will wake it: a request without file system data at the driver, or one that may still go out. */
  ghost predicate Waking(q: Queue) {
    q.orig.Some? && !q.ordseq.drain && q.inFlight == 0 ==> HasSpecial(q.flying) || FrontDrains(q)
  }

  /** Steps that leave the front of the list and the driver alone. */
  lemma SameFront(q: Queue, q': Queue)
    requires Waking(q) && q'.orig == q.orig && q'.ordseq.drain == q.ordseq.drain && q'.inFlight == q.inFlight
    requires q'.flying == q.flying
    requires q.orig.Some? && q.head != [] ==>
               q'.head != [] && (q'.head[0] == q.head[0] || ReqSeq(q, q'.head[0]) == DRAIN)
    ensures Waking(q')
  {
  }

  /** During a sequence that drains, the barrier proxy keeps sorted requests from the front. */
  lemma PlacedBehind(q: Queue, r: Request, p: Pick)
    requires Inv(q) && q.orig.Some? && !q.ordseq.drain
    ensures q.head != [] && Placed(q.head, r, p) != [] && Placed(q.head, r, p)[0] == q.head[0]
  {
    hide Barriers, HeadOrdered;
    DrainingHead(q);
    CountZero(q.flying, Bar);
    assert Proxies(q, Bar) == 1;
    CountZero(q.head, Bar);
    assert forall x :: x in q.flying ==> FlyingRq(q, x);
    var b :| b in q.head && b.kind == Bar;
    assert HeadRq(q, b);
  }

  lemma DispatchWakes(q: Queue, p: Pick)
    requires Inv(q) && Waking(q) && p.index < |q.sorted|
    ensures Waking(Dispatch(q, p))
  {
    hide Inv, Placed, Insert, Remove;
    if q.orig.Some? && !q.ordseq.drain {
      PlacedBehind(q, q.sorted[p.index], p);
      SameFront(q, Dispatch(q, p));
    }
  }

  lemma {:induction false} DrainWakes(q: Queue, picks: seq<Pick>)
    requires Inv(q) && Waking(q)
    ensures Waking(q.(head := Drained(q.head, q.sorted, picks), sorted := []))
    decreases |q.sorted|
  {
    hide Inv, Waking, Placed, Insert;
    if q.sorted != [] {
      var p := if picks != [] && picks[0].index < |q.sorted| then picks[0] else Tail(0);
      DispatchInv(q, p);
      DispatchWakes(q, p);
      DrainWakes(Dispatch(q, p), if picks == [] then [] else picks[1..]);
    } else {
      assert q.(head := Drained(q.head, q.sorted, picks), sorted := []) == q;
    }
  }

  lemma SubmitWakes(q: Queue, fs: bool, hard: bool, soft: bool, write: bool, sector: nat, elvpriv: bool,
                    place: Where, picks: seq<Pick>)
    requires Inv(q) && Waking(q) && LegalSubmit(fs, hard, soft, elvpriv, place)
    ensures Waking(Submit(q, fs, hard, soft, write, sector, elvpriv, place, picks))
  {
    hide Inv, Drained;
    var q' := Submit(q, fs, hard, soft, write, sector, elvpriv, place, picks);
    var at := if place.Sorted? && (soft || hard || !elvpriv) then Back else place;
    if q.orig.Some? && at.Back? {
      var d := q.(head := Drained(q.head, q.sorted, picks), sorted := []);
      DrainInv(q, picks);
      DrainWakes(q, picks);
      SameFront(d, q');
    }
  }

  lemma FetchWakes(q: Queue)
    requires Inv(q) && Waking(q)
    ensures Waking(Fetch(q))
  {
    hide Barriers, HeadOrdered, ProxyCounts, ProxyList;
  }

  lemma DequeueWakes(q: Queue, i: nat)
    requires Inv(q) && Waking(q) && i < |q.head| && q.head[i].started
    ensures Waking(Dequeue(q, i))
  {
    hide Barriers, HeadOrdered, ProxyCounts;
    var q' := Dequeue(q, i);
    var r := q.head[i];
    assert HeadRq(q, r);
    assert r in q'.flying && forall x :: x in q.flying ==> x in q'.flying;
    FlyingCount(q);
  }

  /** What is in flight is never less than nothing. */
  lemma FlyingCount(q: Queue)
    requires Inv(q)
    ensures q.inFlight >= 0
  {
    hide CountFs;
  }

  lemma RequeueWakes(q: Queue, i: nat)
    requires Inv(q) && Waking(q) && i < |q.flying|
    ensures Waking(Requeue(q, i))
  {
    hide Barriers, HeadOrdered, ProxyCounts;
    var q' := Requeue(q, i);
    var r := q.flying[i];
    assert FlyingRq(q, r);
    var r1 := r.(started := false, soft := true);
    if q.orig.Some? && !q.ordseq.drain {
      assert ReqSeq(q, r1) == DRAIN;
      assert q'.head[0] == r1;
    }
  }

  lemma CheckDrainedWakes(q: Queue)
    requires q.orig.Some? <==> q.ordseq.started
    requires CurSeq(q.ordseq) == DRAIN ==> q.head != [] && !q.ordseq.bar
    ensures Waking(CheckDrained(q))
  {
  }

  lemma CompleteWakes(q: Queue, i: nat, error: int)
    requires Inv(q) && i < |q.flying| && Sane(q)
    ensures Waking(Complete(q, i, error))
  {
    hide Barriers, HeadOrdered, ProxyCounts;
    assert FlyingRq(q, q.flying[i]);
    CheckDrainedWakes(Release(q, i, error));
  }

  lemma NextWakes(q: Queue, s: Step)
    requires Inv(q) && Waking(q) && Legal(s)
    ensures Waking(Next(q, s))
  {
    hide Inv, Waking, Submit, Dispatch, Fetch, Dequeue, Requeue, Complete, LegalSubmit;
    InvIsSane(q);
    if Enabled(q, s) {
      match s {
        case Add(fs, hard, soft, write, sector, elvpriv, place, picks) =>
          SubmitWakes(q, fs, hard, soft, write, sector, elvpriv, place, picks);
        case Move(p) => DispatchWakes(q, p);
        case Take => FetchWakes(q);
        case Unlink(i) => DequeueWakes(q, i);
        case PutBack(i) => RequeueWakes(q, i);
        case Done(i, error) => CompleteWakes(q, i, error);
        case Switch(m) => SameFront(q, SetMode(q, m));
      }
    }
  }

  lemma {:induction false} RunWakes(q: Queue, steps: seq<Step>)
    requires Inv(q) && LogInv(q) && Waking(q) && forall s :: s in steps ==> Legal(s)
    ensures Waking(Run(q, steps))
    decreases |steps|
  {
    hide Inv, LogInv, Waking, Next, Legal;
    if steps != [] {
      NextKeeps(q, steps[0]);
      NextWakes(q, steps[0]);
      RunWakes(Next(q, steps[0]), steps[1..]);
    }
  }

  /** The stage that a sequence has reached has its proxy on the list or at the driver. */
  lemma CurrentProxy(q: Queue) returns (k: Kind)
    requires Inv(q) && q.orig.Some? && q.ordseq.drain
    ensures k != Normal && StageOf(k) == CurSeq(q.ordseq) && Proxies(q, k) == 1
  {
    hide Barriers, HeadOrdered;
    k := if !q.ordseq.pre then PreFlush else if !q.ordseq.bar then Bar else PostFlush;
  }

  lemma Offered(q: Queue)
    requires Inv(q) && Waking(q) && q.flying == [] && q.head != []
    ensures DoOrdered(q).1
  {
    hide Barriers, ProxyCounts, CountKind;
    if q.orig.Some? && Ranked(q.head[0]) {
      HeadStage(q);
      if q.ordseq.drain {
        var k := CurrentProxy(q);
        CountZero(q.head, k);
        CountZero(q.flying, k);
        var x :| x in q.head && x.kind == k;
        var j :| 0 <= j < |q.head| && q.head[j] == x;
        assert j > 0 ==> Ordered(q, q.head[0], q.head[j]);
      }
    }
  }

  lemma FetchHands(q: Queue)
    requires q.head != [] && (q.orig.Some? <==> q.ordseq.started) && DoOrdered(q).1
    ensures Fetch(q).head != [] && Fetch(q).head[0].started
  {
    hide ReqSeq, CurSeq;
  }

  /** In every run, as soon as the driver holds no request, fetching gives it the one at the head: no
      stage of a barrier waits for something that cannot come. */
  lemma NeverStuck(mode: Mode, flushFs: bool, steps: seq<Step>)
    requires mode.Drain? && forall s :: s in steps ==> Legal(s)
    ensures var q := Run(Init(mode, flushFs), steps);
            q.flying == [] && q.head != [] ==> Sane(q) && Fetch(q).head != [] && Fetch(q).head[0].started
  {
    assert Waking(Init(mode, flushFs));
    hide Inv, LogInv, Run, Legal, Waking, Fetch;
    InitKeeps(mode, flushFs);
    RunKeeps(Init(mode, flushFs), steps);
    RunWakes(Init(mode, flushFs), steps);
    var q := Run(Init(mode, flushFs), steps);
    InvIsSane(q);
    if q.flying == [] && q.head != [] {
      Offered(q);
      FetchHands(q);
    }
  }
}
