/** crypto/algapi.c and crypto/cryptd.c: the request queue with a backlog, and its worker. */
module Backlog {
  import opened Options
  import opened SectorTree

  /** struct crypto_queue.  Requests are numbered by submission; None is the list head. */
  datatype Queue = Queue(list: seq<nat>, backlog: Option<nat>, qlen: nat, max: nat)

  datatype Answer = InProgress | Busy | Refused

  /** crypto_init_queue */
  function Init(max: nat): Queue { Queue([], None, 0, max) }

  /** crypto_enqueue_request; Refused is -EBUSY without a place in the queue. */
  function Enqueue(q: Queue, r: nat, mayBacklog: bool): (Queue, Answer) {
    var full := q.qlen >= q.max;
    if full && !mayBacklog then (q, Refused)
    else
      (Queue(q.list + [r], if full && q.backlog.None? then Some(r) else q.backlog, q.qlen + 1, q.max),
       if full then Busy else InProgress)
  }

  /** crypto_dequeue_request: the mark moves on before the first request leaves. */
  function Dequeue(q: Queue): (Queue, Option<nat>)
    requires Inv(q)
  {
    if q.qlen == 0 then (q, None)
    else
      var next := if q.backlog.Some? then NextOf(q.list, q.backlog.value) else None;
      (Queue(q.list[1..], next, q.qlen - 1, q.max), Some(q.list[0]))
  }

  /** The mark is the head of the list as long as the queue is within its limit, and the first request
      beyond the limit otherwise. */
  ghost predicate Inv(q: Queue) {
    && Distinct(q.list) && q.qlen == |q.list|
    && q.backlog == (if q.qlen <= q.max then None else Some(q.list[q.max]))
  }

  lemma EnqueueInv(q: Queue, r: nat, mayBacklog: bool)
    requires Inv(q) && r !in q.list
    ensures Inv(Enqueue(q, r, mayBacklog).0)
  {
  }

  /** A request is turned away exactly when the queue is full and it may not wait; of those that stay,
      the ones beyond the limit are told so. */
  lemma AnswerIs(q: Queue, r: nat, mayBacklog: bool)
    requires Inv(q)
    ensures var (p, a) := Enqueue(q, r, mayBacklog);
            && (a == Refused <==> |q.list| >= q.max && !mayBacklog) && (a == Refused <==> p == q)
            && (a == InProgress <==> |q.list| < q.max) && (a == Busy <==> |p.list| > q.max && p != q)
            && (!mayBacklog && |q.list| <= q.max ==> |p.list| <= q.max)
  {
  }

  lemma {:induction false} PosAt(s: seq<nat>, i: nat)
    requires Distinct(s) && i < |s|
    ensures Pos(s, s[i]) == i
  {
    hide Pos;
    var p := Pos(s, s[i]);
  }

  lemma DequeueInv(q: Queue)
    requires Inv(q)
    ensures Inv(Dequeue(q).0)
  {
    hide Pos;
    if q.qlen > q.max {
      PosAt(q.list, q.max);
    }
  }

  // ---- runs of submitters and the worker ----

  /** What a submitter or a request's owner sees. */
  datatype Event = Answered(r: nat, answer: Answer) | Notified(r: nat) | Completed(r: nat)

  /** The worker between its locked section and its callbacks. */
  datatype Worker = Idle | Calling(backlog: Option<nat>, req: nat)

  datatype State = State(queue: Queue, worker: Worker, log: seq<Event>)

  datatype Step = Submit(r: nat, mayBacklog: bool) | Take | Notify | Complete

  ghost predicate Enabled(s: State, e: Step) {
    match e
    case Submit(r, _) => forall a :: Answered(r, a) !in s.log
    case Take => Inv(s.queue) && s.worker.Idle?
    case Notify => s.worker.Calling? && s.worker.backlog.Some?
    case Complete => s.worker.Calling? && s.worker.backlog.None?
  }

  /** cryptd_thread, one round: read the mark and take a request under the lock, then the callbacks. */
  ghost function Next(s: State, e: Step): State
    requires Enabled(s, e)
  {
    match e
    case Submit(r, may) =>
      var (q, a) := Enqueue(s.queue, r, may);
      State(q, s.worker, s.log + [Answered(r, a)])
    case Take =>
      var (q, r) := Dequeue(s.queue);
      if r.None? then s else State(q, Calling(s.queue.backlog, r.value), s.log)
    case Notify => State(s.queue, Calling(None, s.worker.req), s.log + [Notified(s.worker.backlog.value)])
    case Complete => State(s.queue, Idle, s.log + [Completed(s.worker.req)])
  }

  // ---- what the log says ----

  datatype Sort = IsAccepted | IsBusy | IsNotified | IsCompleted

  predicate Is(k: Sort, e: Event) {
    match k
    case IsAccepted => e.Answered? && e.answer != Refused
    case IsBusy => e.Answered? && e.answer == Busy
    case IsNotified => e.Notified?
    case IsCompleted => e.Completed?
  }

  /** The requests of the events of one sort, in order. */
  function Of(log: seq<Event>, k: Sort): seq<nat> {
    if log == [] then [] else Of(log[..|log| - 1], k) + if Is(k, log[|log| - 1]) then [log[|log| - 1].r] else []
  }

  lemma OfAppend(log: seq<Event>, e: Event, k: Sort)
    ensures Of(log + [e], k) == Of(log, k) + if Is(k, e) then [e.r] else []
  {
    assert (log + [e])[..|log|] == log;
  }

  /** What the worker still has to tell and to complete. */
  function Telling(w: Worker): seq<nat> { if w.Calling? && w.backlog.Some? then [w.backlog.value] else [] }

  function Holding(w: Worker): seq<nat> { if w.Calling? then [w.req] else [] }

  function Beyond(q: Queue): seq<nat> { if q.max <= |q.list| then q.list[q.max..] else [] }

  /** Completions come in the order of acceptance.  The requests told that they were busy are, in order,
      those that have been notified, the one about to be, and those beyond the limit. */
  ghost predicate Accounts(s: State) {
    && Of(s.log, IsAccepted) == Of(s.log, IsCompleted) + Holding(s.worker) + s.queue.list
    && Of(s.log, IsBusy) == Of(s.log, IsNotified) + Telling(s.worker) + Beyond(s.queue)
    && (Telling(s.worker) != [] ==> s.worker.backlog.value in Holding(s.worker) + s.queue.list)
  }

  ghost predicate Good(s: State) {
    && Inv(s.queue) && Accounts(s) && AnsweredAll(s.log)
    && Distinct(Of(s.log, IsAccepted)) && Distinct(Of(s.log, IsBusy))
    && (forall r :: r in Of(s.log, IsBusy) ==> r in Of(s.log, IsAccepted))
  }

  /** Whoever is in a list of the log was answered. */
  ghost predicate AnsweredAll(log: seq<Event>) {
    forall r :: r in Of(log, IsAccepted) ==> exists a :: Answered(r, a) in log
  }

  lemma QueueInAccepted(s: State, r: nat)
    requires Good(s) && r in s.queue.list
    ensures r in Of(s.log, IsAccepted)
  {
    var n := |Of(s.log, IsCompleted) + Holding(s.worker)|;
    var k :| 0 <= k < |s.queue.list| && s.queue.list[k] == r;
    assert Of(s.log, IsAccepted)[n + k] == r;
  }

  lemma SubmitGood(s: State, r: nat, may: bool)
    requires Good(s) && Enabled(s, Submit(r, may))
    ensures Good(Next(s, Submit(r, may)))
  {
    hide Of;
    var (q, a) := Enqueue(s.queue, r, may);
    var e := Answered(r, a);
    assert r !in Of(s.log, IsAccepted);
    if r in s.queue.list {
      QueueInAccepted(s, r);
    }
    OfAppend(s.log, e, IsAccepted);
    OfAppend(s.log, e, IsBusy);
    OfAppend(s.log, e, IsNotified);
    OfAppend(s.log, e, IsCompleted);
    EnqueueInv(s.queue, r, may);
    SubmitAccounts(s, r, may);
    var t := Next(s, Submit(r, may));
    forall x | x in Of(t.log, IsAccepted) ensures exists b :: Answered(x, b) in t.log {
      if x in Of(s.log, IsAccepted) {
        var b :| Answered(x, b) in s.log;
        assert Answered(x, b) in t.log;
      } else {
        assert Answered(x, a) in t.log;
      }
    }
  }

  lemma EnqueueLists(q: Queue, r: nat, may: bool)
    requires Inv(q)
    ensures var (p, a) := Enqueue(q, r, may);
            && p.list == q.list + (if a != Refused then [r] else []) && p.max == q.max
            && Beyond(p) == Beyond(q) + (if a == Busy then [r] else [])
  {
    hide Distinct;
    var (p, a) := Enqueue(q, r, may);
    if a == Busy {
      assert p.list[q.max..] == q.list[q.max..] + [r];
    }
  }

  lemma SubmitAccounts(s: State, r: nat, may: bool)
    requires Good(s) && Enabled(s, Submit(r, may))
    ensures Accounts(Next(s, Submit(r, may)))
  {
    hide Of, Enqueue, Beyond, Inv, Distinct, AnsweredAll;
    var e := Answered(r, Enqueue(s.queue, r, may).1);
    OfAppend(s.log, e, IsAccepted);
    OfAppend(s.log, e, IsBusy);
    OfAppend(s.log, e, IsNotified);
    OfAppend(s.log, e, IsCompleted);
    EnqueueLists(s.queue, r, may);
  }

  /** The mark is the request about to come within the limit. */
  lemma DequeueLists(q: Queue)
    requires Inv(q) && q.qlen > 0
    ensures var (p, r) := Dequeue(q);
            && r.Some? && q.list == [r.value] + p.list && Inv(p)
            && Beyond(q) == (if q.backlog.Some? then [q.backlog.value] else []) + Beyond(p)
            && (q.backlog.Some? ==> q.backlog.value in q.list)
  {
    hide Distinct, Pos;
    DequeueInv(q);
    assert q.list == [q.list[0]] + q.list[1..];
  }

  lemma TakeGood(s: State)
    requires Good(s) && Enabled(s, Take)
    ensures Good(Next(s, Take))
  {
    hide Of, AnsweredAll, Inv, Dequeue, Beyond, Distinct;
    var q := s.queue;
    if q.qlen > 0 {
      DequeueLists(q);
    } else {
      DequeueNone(q);
    }
  }

  lemma DequeueNone(q: Queue)
    requires Inv(q) && q.qlen == 0
    ensures Dequeue(q).1.None?
  {
  }

  lemma CallGood(s: State, e: Step)
    requires Good(s) && Enabled(s, e) && (e.Notify? || e.Complete?)
    ensures Good(Next(s, e))
  {
    hide Of;
    var v := if e.Notify? then Notified(s.worker.backlog.value) else Completed(s.worker.req);
    OfAppend(s.log, v, IsAccepted);
    OfAppend(s.log, v, IsBusy);
    OfAppend(s.log, v, IsNotified);
    OfAppend(s.log, v, IsCompleted);
    var t := Next(s, e);
    forall x | x in Of(t.log, IsAccepted) ensures exists b :: Answered(x, b) in t.log {
      var b :| Answered(x, b) in s.log;
      assert Answered(x, b) in t.log;
    }
  }

  ghost predicate Run(s: State, es: seq<Step>, t: State)
    decreases |es|
  {
    if es == [] then s == t else Enabled(s, es[0]) && Run(Next(s, es[0]), es[1..], t)
  }

  lemma StartGood(max: nat)
    ensures Good(State(Init(max), Idle, []))
  {
  }

  lemma {:induction false} RunGood(s: State, es: seq<Step>, t: State)
    requires Good(s) && Run(s, es, t)
    ensures Good(t)
    decreases |es|
  {
    hide Good, Next, Enabled;
    if es != [] {
      match es[0] {
        case Submit(r, may) => SubmitGood(s, r, may);
        case Take => TakeGood(s);
        case Notify => CallGood(s, Notify);
        case Complete => CallGood(s, Complete);
      }
      RunGood(Next(s, es[0]), es[1..], t);
    }
  }

  lemma Apart(a: seq<nat>, b: seq<nat>, r: nat)
    requires Distinct(a + b) && r in a
    ensures r !in b
  {
    var i :| 0 <= i < |a| && a[i] == r;
    assert (a + b)[i] == r;
    assert forall j :: 0 <= j < |b| ==> (a + b)[|a| + j] == b[j];
  }

  /** A completed request is neither in the queue nor about to be notified. */
  lemma AlreadyTold(t: State, r: nat)
    requires Good(t) && r in Of(t.log, IsCompleted) && r in Of(t.log, IsBusy)
    ensures r in Of(t.log, IsNotified)
  {
    hide Of;
    var rest := Holding(t.worker) + t.queue.list;
    assert Of(t.log, IsAccepted) == Of(t.log, IsCompleted) + rest;
    Apart(Of(t.log, IsCompleted), rest, r);
    assert r !in t.queue.list;
    assert r !in Beyond(t.queue);
    assert r !in Telling(t.worker);
  }

  lemma PrefixDistinct(a: seq<nat>, b: seq<nat>)
    requires Distinct(b) && a <= b
    ensures Distinct(a)
  {
  }

  /** In every run: the mark is where it should be; requests complete in the order they were accepted;
      no request is notified or completed twice; a request that was told it was busy has been notified
      by the time it completes; and nobody else is ever notified. */
  lemma ExactlyOnce(max: nat, es: seq<Step>, t: State)
    requires Run(State(Init(max), Idle, []), es, t)
    ensures Inv(t.queue)
    ensures Of(t.log, IsCompleted) <= Of(t.log, IsAccepted) && Of(t.log, IsNotified) <= Of(t.log, IsBusy)
    ensures Distinct(Of(t.log, IsCompleted)) && Distinct(Of(t.log, IsNotified))
    ensures forall r :: r in Of(t.log, IsCompleted) && r in Of(t.log, IsBusy) ==> r in Of(t.log, IsNotified)
    ensures t.queue.list == [] && t.worker.Idle? ==>
              Of(t.log, IsCompleted) == Of(t.log, IsAccepted) && Of(t.log, IsNotified) == Of(t.log, IsBusy)
  {
    hide Of;
    var s := State(Init(max), Idle, []);
    StartGood(max);
    RunGood(s, es, t);
    PrefixDistinct(Of(t.log, IsCompleted), Of(t.log, IsAccepted));
    PrefixDistinct(Of(t.log, IsNotified), Of(t.log, IsBusy));
    forall r | r in Of(t.log, IsCompleted) && r in Of(t.log, IsBusy) ensures r in Of(t.log, IsNotified) {
      AlreadyTold(t, r);
    }
  }

  // ---- the queue itself ----

  class CryptoQueue {
    var list: seq<nat>
    var backlog: Option<nat>
    var qlen: nat
    const max: nat

    ghost function View(): Queue
      reads this
    {
      Queue(list, backlog, qlen, max)
    }

    constructor (m: nat)
      ensures View() == Init(m) && Inv(View())
    {
      list, backlog, qlen, max := [], None, 0, m;
    }

    /** crypto_enqueue_request */
    method EnqueueRequest(r: nat, mayBacklog: bool) returns (answer: Answer)
      requires Inv(View()) && r !in list
      modifies this
      ensures (View(), answer) == Enqueue(old(View()), r, mayBacklog) && Inv(View())
    {
      EnqueueInv(View(), r, mayBacklog);
      answer := InProgress;
      if qlen >= max {
        answer := Busy;
        if !mayBacklog {
          return Refused;
        }
        if backlog.None? {
          backlog := Some(r);
        }
      }
      qlen := qlen + 1;
      list := list + [r];
    }

    /** crypto_dequeue_request */
    method DequeueRequest() returns (r: Option<nat>)
      requires Inv(View())
      modifies this
      ensures (View(), r) == Dequeue(old(View())) && Inv(View())
    {
      hide Pos;
      DequeueInv(View());
      if qlen == 0 {
        return None;
      }
      qlen := qlen - 1;
      if backlog.Some? {
        backlog := NextOf(list, backlog.value);
      }
      r := Some(list[0]);
      list := list[1..];
    }
  }
}
