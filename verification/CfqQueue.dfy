/** The loops of the CFQ scheduler over struct cfq_data. */
module CfqQueue {
  import opened Options
  import opened SectorTree
  import opened RbTree
  import opened Cfq
  import opened CfqSafety
  import opened CfqRuns
  import opened CfqDrain
  import opened CfqOrder

  lemma InTree(n: Tree<nat>)
    requires n.Node?
    ensures forall i :: i in Inorder(n) <==> i in Inorder(n.left) || i == n.item || i in Inorder(n.right)
  {
    assert Inorder(n) == Inorder(n.left) + [n.item] + Inorder(n.right);
  }

  /** The descent of cfq_service_tree_add with its left flag: the flag is still set exactly when the new
      leaf comes first in order. */
  method ServiceDescent(t: Tree<nat>, qs: seq<Queue>, q: Queue, key: int) returns (p: nat, left: bool)
    requires forall i :: i in Inorder(t) ==> i < |qs|
    ensures p == Descend(t, qs, q, key) <= |Inorder(t)|
    ensures left <==> p == 0
  {
    DescendInside(t, qs, q, key);
    var n := t;
    p, left := 0, true;
    while n.Node?
      invariant p + Descend(n, qs, q, key) == Descend(t, qs, q, key)
      invariant left <==> p == 0
      invariant forall i :: i in Inorder(n) ==> i < |qs|
      decreases n
    {
      InTree(n);
      assert n.item in Inorder(n);
      if TurnsLeft(q, key, qs[n.item]) {
        n := n.left;
      } else {
        p, left := p + |Inorder(n.left)| + 1, false;
        n := n.right;
      }
    }
  }

  /** Everything but queue i holds what it held. */
  ghost predicate Others(c: Data, d: Data, i: nat) {
    |d.queues| == |c.queues| && forall j :: 0 <= j < |c.queues| && j != i ==> d.queues[j].sort == c.queues[j].sort
  }

  /** n requests went to the dispatch list and none was lost. */
  ghost predicate Sent(c: Data, d: Data, n: nat) {
    |d.out| == |c.out| + n && Pending(d.queues) + n == Pending(c.queues) && forall b :: Total(d, b) == Total(c, b)
  }

  lemma SentStep(c: Data, d: Data, n: nat, k: Conf, i: nat, r: Rq)
    requires Inv(d) && Sent(c, d, n) && i < |d.queues| && r in d.queues[i].sort
    ensures r in d.queues[i].fifo && Inv(DispatchInsert(d, k, i, r)) && Sent(c, DispatchInsert(d, k, i, r), n + 1)
    ensures Others(d, DispatchInsert(d, k, i, r), i)
    ensures |DispatchInsert(d, k, i, r).queues[i].sort| == |d.queues[i].sort| - 1
  {
    hide DispatchInsert, Total, Pending, Inv, Without;
    DispatchInsertInv(d, k, i, r);
    SentChange(d, k, i, r);
    ShorterBy(d.queues[i].sort, r);
    forall b ensures Total(DispatchInsert(d, k, i, r), b) == Total(c, b)
      && Pending(DispatchInsert(d, k, i, r).queues) + 1 == Pending(d.queues) {
      SentTotal(d, k, i, r, b);
    }
    SentTotal(d, k, i, r, 0);
  }

  lemma QueueOk(c: Data, i: nat)
    requires Inv(c) && i < |c.queues|
    ensures (c.queues[i].next.None? <==> c.queues[i].sort == [])
      && (c.queues[i].next.Some? ==> c.queues[i].next.value in c.queues[i].sort)
    ensures forall r :: r in c.queues[i].fifo <==> r in c.queues[i].sort
    ensures c.queues[i].fifo == [] <==> c.queues[i].sort == []
  {
    var q := c.queues[i];
    assert WorkInv(q);
    if q.fifo != [] {
      assert q.fifo[0] in q.fifo;
    }
    if q.sort != [] {
      assert q.sort[0] in q.sort;
    }
  }

  lemma Shape(c: Data)
    requires Inv(c)
    ensures c.busy == |c.order| && (c.active.Some? ==> c.active.value < |c.queues|)
    ensures c.order == [] || exists i :: 0 <= i < |c.queues| && c.queues[i].sort != []
  {
    if c.order != [] {
      assert c.order[0] in c.order;
      assert c.queues[c.order[0]].sort != [];
    }
  }

  lemma NothingQueued(c: Data)
    requires Inv(c) && c.order == []
    ensures c.busy == 0 && forall i :: 0 <= i < |c.queues| ==> c.queues[i].sort == [] && c.queues[i].fifo == []
  {
    forall i | 0 <= i < |c.queues| ensures c.queues[i].sort == [] && c.queues[i].fifo == [] {
      QueueOk(c, i);
    }
  }

  lemma FirstInv(c: Data)
    requires Inv(c)
    ensures Inv(First(c)) && First(c).queues == c.queues && First(c).out == c.out && First(c).order == c.order
    ensures c.order != [] ==>
      First(c).left.Some? && First(c).left.value < |c.queues| && c.queues[First(c).left.value].sort != []
  {
    hide WorkInv;
    if c.order != [] {
      assert c.order[0] in c.order;
    }
  }

  // ---- what is sent and when ----

  /** The active queue has time and requests. */
  predicate Running(c: Data, e: Env) {
    && c.active.Some? && c.active.value < |c.queues|
    && !SliceUsed(c.queues[c.active.value], e.now) && c.queues[c.active.value].sort != []
  }

  /** The active queue has time but no request, and one may still come. */
  predicate Awaited(c: Data, e: Env) {
    && c.active.Some? && c.active.value < |c.queues|
    && var q := c.queues[c.active.value];
       !SliceUsed(q, e.now) && q.sort == [] && (c.timer || (q.dispatched != 0 && q.idleWindow))
  }

  /** Only idle-class queues have requests, and the disk was used by others a moment ago. */
  predicate InGrace(c: Data, k: Conf, e: Env) {
    c.order != [] && c.order[0] < |c.queues| && c.queues[c.order[0]].idle && e.now < c.lastEnd + k.idleGrace
  }

  /** Nothing of a queue changes that decides about dispatching. */
  predicate Alive(p: Queue, q: Queue) {
    q.sort == p.sort && q.dispatched == p.dispatched && q.sync == p.sync && q.rt == p.rt && q.idle == p.idle
  }

  /** What selecting a queue does: a running queue goes on, an awaited one is waited for, and otherwise the
      first queue of the tree is made active unless it has to wait out the grace period. */
  ghost predicate Chosen(c: Data, d: Data, k: Conf, e: Env) {
    if Running(c, e) || Awaited(c, e) then d == c
    else
      && |d.queues| == |c.queues| && d.out == c.out && d.syncFlight == c.syncFlight && d.lastEnd == c.lastEnd
      && d.busy == c.busy && (forall j :: 0 <= j < |c.queues| ==> Alive(c.queues[j], d.queues[j]))
      && (d.active.Some? <==> d.order != [] && !InGrace(d, k, e))
      && (d.active.Some? ==> d.active.value == d.order[0])
      && (Served(c) ==> Served(d))
  }

  predicate AtQuota(c: Data, k: Conf, i: nat)
    requires i < |c.queues|
  {
    var q := c.queues[i];
    var max := if q.idle then 1 else k.quantum;
    q.dispatched >= max && (c.busy > 1 || q.dispatched >= 4 * max)
  }

  /** Why nothing more is sent: no queue with requests is to be had, the active one is waited for or has
      enough at the disk, or async requests would join sync ones there. */
  predicate Blocked(c: Data, k: Conf, e: Env) {
    match c.active
    case None => c.order == [] || InGrace(c, k, e)
    case Some(i) =>
      i < |c.queues| &&
      if c.queues[i].sort == [] then Awaited(c, e)
      else AtQuota(c, k, i) || (c.syncFlight != 0 && !c.queues[i].sync)
  }

  /** The state of a slice that ends early, just before its queue is sorted anew. */
  function Ending(c: Data, i: nat): Data
    requires i < |c.queues|
  {
    var q := c.queues[i];
    Set(c, i, q.(mustDispatch := false, waitRequest := false)).(timer := if q.waitRequest then false else c.timer)
  }

  lemma EndingThenSorted(c: Data, e: Env)
    requires EnvOk(e) && c.active.Some? && c.active.value < |c.queues|
    ensures SliceExpired(c, e, false) == Resort(Ending(c, c.active.value), e, c.active.value).(active := None)
  {
    hide Resort;
    var q := c.queues[c.active.value];
    assert q.(mustDispatch := false, waitRequest := false, resid := q.resid) ==
           q.(mustDispatch := false, waitRequest := false);
  }

  lemma EndingInv(c: Data, i: nat)
    requires Inv(c) && i < |c.queues|
    ensures Inv(Ending(c, i))
  {
    hide WorkInv, RrInv;
    var p := c.queues[i].(mustDispatch := false, waitRequest := false);
    TouchInv(c, i, p);
    OutInv(Set(c, i, p), Ending(c, i));
  }

  lemma ExpiredFields(c: Data, e: Env)
    requires Inv(c) && EnvOk(e)
    ensures var d := SliceExpired(c, e, false);
            && |d.queues| == |c.queues| && d.out == c.out && d.syncFlight == c.syncFlight && d.lastEnd == c.lastEnd
            && (forall j :: 0 <= j < |c.queues| ==> Alive(c.queues[j], d.queues[j])) && d.active.None?
  {
    if c.active.Some? {
      var i := c.active.value;
      EndingInv(c, i);
      var t := Ending(c, i);
      ResortRr(t, e, i);
      EndingThenSorted(c, e);
      hide Resort, SliceExpired, WorkInv, RrInv;
    }
  }

  lemma SetActiveFields(c: Data, k: Conf, e: Env)
    requires Inv(c)
    ensures var d := SetActive(c, k, e);
            && |d.queues| == |c.queues| && d.out == c.out && d.syncFlight == c.syncFlight && d.lastEnd == c.lastEnd
            && d.order == c.order && (forall j :: 0 <= j < |c.queues| ==> Alive(c.queues[j], d.queues[j]))
            && (d.active.Some? <==> d.order != [] && !InGrace(d, k, e))
            && (d.active.Some? ==> d.active.value == d.order[0])
  {
    hide WorkInv;
    if c.order != [] { assert c.order[0] in c.order; }
  }

  lemma RenewChosen(c: Data, k: Conf, e: Env)
    requires Inv(c) && EnvOk(e) && !Running(c, e) && !Awaited(c, e)
    ensures Inv(SliceExpired(c, e, false))
    ensures Chosen(c, SetActive(SliceExpired(c, e, false), k, e), k, e)
  {
    hide SliceExpired, SetActive, WorkInv, RrInv, Running, Awaited, Served, InGrace;
    ExpiredFields(c, e);
    ExpiredInv(c, e, false);
    var d := SliceExpired(c, e, false);
    SetActiveFields(d, k, e);
    SetActiveInv(d, k, e);
    Shape(c);
    Shape(d);
    Shape(SetActive(d, k, e));
    SameBusy(c, d);
    if Served(c) {
      ExpiredServed(c, e, false);
      PickServed(d, k, e);
    }
  }

  /** As many queues are busy as have requests. */
  lemma SameBusy(c: Data, d: Data)
    requires Inv(c) && Inv(d) && |d.queues| == |c.queues|
    requires forall j :: 0 <= j < |c.queues| ==> d.queues[j].sort == c.queues[j].sort
    ensures |d.order| == |c.order|
  {
    hide WorkInv;
    assert forall i :: i in c.order <==> i in d.order;
    SameLength(c.order, d.order);
  }

  lemma SameLength(s: seq<nat>, t: seq<nat>)
    requires Distinct(s) && Distinct(t) && forall i :: i in s <==> i in t
    ensures |s| == |t|
  {
    Elements(s);
    Elements(t);
    assert Elems(s) == Elems(t);
  }

  function Elems(s: seq<nat>): set<nat> { if s == [] then {} else {s[0]} + Elems(s[1..]) }

  lemma {:induction false} Elements(s: seq<nat>)
    ensures forall i :: i in Elems(s) <==> i in s
    ensures Distinct(s) ==> |Elems(s)| == |s|
  {
    if s != [] {
      Elements(s[1..]);
      assert forall i :: i in s <==> i == s[0] || i in s[1..];
    }
  }

  /** The request cfq_check_fifo insists on: the oldest, once a slice, when its time has passed. */
  function Overdue(c: Data, k: Conf, e: Env, i: nat): Option<Rq>
    requires i < |c.queues|
  {
    var q := c.queues[i];
    if !q.fifoExpire && q.fifo != [] && q.fifo[0].time + (if q.sync then k.expireSync else k.expireAsync) <= e.now
    then Some(q.fifo[0]) else None
  }

  /** fifo_expire is set. */
  function Asked(c: Data, i: nat): Data
    requires i < |c.queues|
  {
    Set(c, i, c.queues[i].(fifoExpire := true))
  }

  predicate Sendable(c: Data, i: nat) {
    && i < |c.queues| && c.queues[i].next.Some?
    && c.queues[i].next.value in c.queues[i].sort && c.queues[i].next.value in c.queues[i].fifo
  }

  /** m requests go, each time the next one. */
  function SendNext(c: Data, k: Conf, i: nat, m: nat): Data {
    if m == 0 then c
    else
      var d := SendNext(c, k, i, m - 1);
      if Sendable(d, i) then DispatchInsert(d, k, i, d.queues[i].next.value) else d
  }

  /** First the overdue request, if there is one, and then one next request after the other. */
  ghost predicate Went(c: Data, d: Data, k: Conf, e: Env, i: nat, n: nat) {
    && i < |c.queues| && n > 0 && c.queues[i].next.Some?
    && var r := if Overdue(c, k, e, i).Some? then Overdue(c, k, e, i).value else c.queues[i].next.value;
       && r in c.queues[i].sort && r in c.queues[i].fifo
       && d == SendNext(DispatchInsert(Asked(c, i), k, i, r), k, i, n - 1)
  }

  predicate GivesUp(c: Data, e: Env, i: nat, n: nat)
    requires i < |c.queues|
  {
    c.busy > 1 && ((!c.queues[i].sync && n >= e.maxRq(i)) || c.queues[i].idle)
  }

  function Over(c: Data, e: Env, i: nat): Data
    requires i < |c.queues|
  {
    Set(c, i, c.queues[i].(sliceEnd := e.now + 1))
  }

  lemma OneAtLeast(c: Data, d: Data, k: Conf, e: Env, i: nat, n: nat)
    requires Went(c, d, k, e, i, n)
    ensures n >= 1
  {
  }

  lemma KeepsAsked(c: Data, k: Conf, i: nat, r: Rq)
    requires i < |c.queues| && r in c.queues[i].sort && r in c.queues[i].fifo && c.queues[i].fifoExpire
    ensures DispatchInsert(c, k, i, r).queues[i].fifoExpire
  {
    hide Without, FindNext;
  }

  class CfqData {
    var d: Data
    const k: Conf

    constructor (k: Conf)
      ensures d == NO_QUEUES && this.k == k && Inv(d)
    {
      this.k := k;
      d := NO_QUEUES;
    }

    /** __cfq_forced_dispatch_cfqq: the queue ends up empty, list and tree */
    method ForcedDispatchQueue(i: nat) returns (n: nat)
      requires Inv(d) && i < |d.queues|
      modifies `d
      ensures Inv(d) && Others(old(d), d, i) && d.queues[i].sort == [] && d.queues[i].fifo == []
      ensures n == |old(d).queues[i].sort| && Sent(old(d), d, n)
    {
      hide DispatchInsert, Inv, Sent, Total, Pending;
      n := 0;
      SentNone(d);
      QueueOk(d, i);
      while d.queues[i].next.Some?
        invariant Inv(d) && Others(old(d), d, i) && Sent(old(d), d, n)
        invariant (d.queues[i].next.None? <==> d.queues[i].sort == [])
          && (d.queues[i].next.Some? ==> d.queues[i].next.value in d.queues[i].sort)
        invariant n + |d.queues[i].sort| == |old(d).queues[i].sort|
        decreases |d.queues[i].sort|
      {
        SentStep(old(d), d, n, k, i, d.queues[i].next.value);
        d := DispatchInsert(d, k, i, d.queues[i].next.value);
        n := n + 1;
        QueueOk(d, i);
      }
      QueueOk(d, i);
    }

    /** cfq_forced_dispatch: terminates with every queue empty, all that was queued dispatched */
    method ForcedDispatch(e: Env) returns (n: nat)
      requires Inv(d) && EnvOk(e)
      modifies `d
      ensures Inv(d) && d.busy == 0 && d.order == [] && d.active.None?
      ensures forall i :: 0 <= i < |d.queues| ==> d.queues[i].sort == [] && d.queues[i].fifo == []
      ensures n == Pending(old(d).queues) && Sent(old(d), d, n)
    {
      hide Inv, Sent, Total, Pending, SliceExpired, First;
      n := 0;
      SentNone(d);
      FirstInv(d);
      d := First(d);
      SentSame(old(d), old(d), d, n);
      while d.order != []
        invariant Inv(d) && Sent(old(d), d, n)
        invariant d.order != [] ==> d.left.Some? && d.left.value < |d.queues| && d.queues[d.left.value].sort != []
        decreases Pending(d.queues)
      {
        ghost var before := d;
        var m := ForcedDispatchQueue(d.left.value);
        SentTrans(old(d), before, d, n, m);
        n := n + m;
        ghost var drained := d;
        FirstInv(d);
        d := First(d);
        SentSame(old(d), drained, d, n);
        SentFewer(before, drained, m);
      }
      NothingQueued(d);
      ghost var empty := d;
      Shape(d);
      ExpiredInv(d, e, false);
      d := SliceExpired(d, e, false);
      SentSorts(old(d), empty, d, n);
      Inactive(empty, e);
      AllEmpty(d);
      AllSent(old(d), d, n);
    }

    /** cfq_check_fifo */
    method CheckFifo(e: Env, i: nat) returns (r: Option<Rq>)
      requires Inv(d) && i < |d.queues|
      modifies `d
      ensures Inv(d) && Sorts(old(d), d) && d == Asked(old(d), i) && r == Overdue(old(d), k, e, i)
      ensures r.Some? ==> r.value in d.queues[i].sort
    {
      hide WorkInv, RrInv;
      QueueOk(d, i);
      var q := d.queues[i];
      if q.fifoExpire {
        assert d.queues[i := q] == d.queues;
        return None;
      }
      TouchInv(d, i, q.(fifoExpire := true));
      d := Set(d, i, q.(fifoExpire := true));
      if q.fifo == [] || e.now < q.fifo[0].time + (if q.sync then k.expireSync else k.expireAsync) {
        return None;
      }
      return Some(q.fifo[0]);
    }

    /** The loop of __cfq_dispatch_requests: as many as there are and max allows, at least one. */
    method DispatchSome(e: Env, i: nat, max: int) returns (n: nat)
      requires Inv(d) && i < |d.queues| && d.queues[i].sort != []
      modifies `d
      ensures Inv(d) && Sent(old(d), d, n) && |d.queues| == |old(d).queues|
      ensures Went(old(d), d, k, e, i, n)
      ensures n == if |old(d).queues[i].sort| <= max then |old(d).queues[i].sort| else if max < 1 then 1 else max
    {
      hide DispatchInsert, Inv, Sent, Total, Pending;
      n := 0;
      SentNone(d);
      QueueOk(d, i);
      while true
        invariant Inv(d) && Sent(old(d), d, n) && |d.queues| == |old(d).queues| && d.queues[i].sort != []
        invariant n + |d.queues[i].sort| == |old(d).queues[i].sort|
        invariant n > 0 ==> n < max
        invariant if n == 0 then d == old(d) else d.queues[i].fifoExpire && Went(old(d), d, k, e, i, n)
        decreases |d.queues[i].sort|
      {
        ghost var before := d;
        var r := CheckFifo(e, i);
        SentSorts(old(d), before, d, n);
        QueueOk(d, i);
        if r.None? {
          r := d.queues[i].next;
        }
        assert n > 0 ==> Asked(before, i).queues == before.queues;
        SentStep(old(d), d, n, k, i, r.value);
        KeepsAsked(d, k, i, r.value);
        d := DispatchInsert(d, k, i, r.value);
        n := n + 1;
        if d.queues[i].sort == [] || n >= max {
          return;
        }
      }
    }

    /** __cfq_dispatch_requests: with others waiting, an idle-class queue and an async one that has had its
        share give up the slice. */
    method DispatchRound(e: Env, i: nat, max: int) returns (n: nat, ghost sent: Data)
      requires Inv(d) && EnvOk(e) && i < |d.queues| && d.queues[i].sort != []
      modifies `d
      ensures Inv(d) && Sent(old(d), d, n) && n >= 1 && Went(old(d), sent, k, e, i, n) && i < |sent.queues|
      ensures sent.active.Some? ==> sent.active.value < |sent.queues|
      ensures d == if GivesUp(sent, e, i, n) then SliceExpired(Over(sent, e, i), e, false) else sent
      ensures n == if |old(d).queues[i].sort| <= max then |old(d).queues[i].sort| else if max < 1 then 1 else max
    {
      hide Sent, WorkInv, RrInv, SliceExpired, Went;
      n := DispatchSome(e, i, max);
      sent := d;
      OneAtLeast(old(d), d, k, e, i, n);
      if d.busy > 1 && ((!d.queues[i].sync && n >= e.maxRq(i)) || d.queues[i].idle) {
        ghost var before := d;
        TouchInv(d, i, d.queues[i].(sliceEnd := e.now + 1));
        d := Set(d, i, d.queues[i].(sliceEnd := e.now + 1));
        SentSorts(old(d), before, d, n);
        ghost var touched := d;
        ExpiredInv(d, e, false);
        d := SliceExpired(d, e, false);
        SentSorts(old(d), touched, d, n);
      }
    }

    /** cfq_select_queue: a queue it returns has something to send */
    method SelectQueue(e: Env) returns (i: Option<nat>)
      requires Inv(d) && EnvOk(e)
      modifies `d
      ensures Inv(d) && Sorts(old(d), d) && Chosen(old(d), d, k, e)
      ensures i == if d.active.Some? && d.active.value < |d.queues| && d.queues[d.active.value].sort != [] then d.active
                   else None
    {
      hide WorkInv, RrInv, SliceExpired, SetActive;
      match Select(d, e) {
        case Keep => return d.active;
        case Wait => return None;
        case Renew =>
          RenewChosen(d, k, e);
          ExpiredInv(d, e, false);
          d := SliceExpired(d, e, false);
          SetActiveInv(d, k, e);
          d := SetActive(d, k, e);
          return d.active;
      }
    }

    /** A round from the selected queue, no longer waited for. */
    method SendFrom(e: Env, i: nat, max: int) returns (m: nat)
      requires Inv(d) && EnvOk(e) && i < |d.queues| && d.queues[i].sort != []
      modifies `d
      ensures Inv(d) && Sent(old(d), d, m) && m >= 1
    {
      hide Sent, WorkInv, RrInv, Pending, Total, SliceExpired, Went;
      var q := d.queues[i].(mustDispatch := false, waitRequest := false);
      SentNone(d);
      TouchInv(d, i, q);
      d := Set(d, i, q);
      OutInv(d, d.(timer := false));
      d := d.(timer := false);
      SentSorts(old(d), old(d), d, 0);
      ghost var ready := d;
      ghost var sent;
      m, sent := DispatchRound(e, i, max);
      SentTrans(old(d), ready, d, 0, m);
    }

    /** cfq_dispatch_requests: the loop ends, and no branch meets an empty queue.  Unforced, it stops only
        where it has to, and sends nothing exactly when that is so at the first selection. */
    method DispatchRequests(e: Env, force: bool) returns (n: nat, ghost first: Data)
      requires Inv(d) && EnvOk(e)
      modifies `d
      ensures Inv(d) && Sent(old(d), d, n)
      ensures force ==> Pending(d.queues) == 0
      ensures old(d).order == [] ==> n == 0 && d == old(d)
      ensures !force && old(d).order != [] ==>
        Chosen(old(d), first, k, e) && (n == 0 <==> Blocked(first, k, e)) && Blocked(d, k, e)
    {
      hide Sent, WorkInv, RrInv, Pending, Total, Chosen, InGrace, Awaited;
      n, first := 0, d;
      SentNone(d);
      Shape(d);
      if d.busy == 0 {
        NothingQueued(d);
        NonePending(d.queues);
        return;
      }
      if force {
        n := ForcedDispatch(e);
        NonePending(d.queues);
        return;
      }
      while true
        invariant Inv(d) && Sent(old(d), d, n)
        invariant if n == 0 then d == old(d) else Chosen(old(d), first, k, e) && !Blocked(first, k, e)
        decreases Pending(d.queues)
      {
        ghost var before := d;
        var i := SelectQueue(e);
        SentSorts(old(d), before, d, n);
        if n == 0 { first := d; }
        BlockedWhen(before, d, k, e);
        if i.None? {
          return;
        }
        var q := d.queues[i.value];
        var max := if q.idle then 1 else k.quantum;
        if q.dispatched >= max && (d.busy > 1 || q.dispatched >= 4 * max) {
          return;
        }
        if d.syncFlight != 0 && !q.sync {
          return;
        }
        SortsTotal(before, d, 0);
        ghost var chosen := d;
        var m := SendFrom(e, i.value, max);
        SentTrans(old(d), chosen, d, n, m);
        SentFewer(chosen, d, m);
        n := n + m;
      }
    }
  }

  /** A selection that yields no queue to send from has its reason. */
  lemma BlockedWhen(c: Data, d: Data, k: Conf, e: Env)
    requires Inv(d) && Chosen(c, d, k, e)
    ensures d.active.None? || (d.active.value < |d.queues| && d.queues[d.active.value].sort == []) ==> Blocked(d, k, e)
  {
    hide WorkInv;
    if d.active.Some? && !Running(c, e) && !Awaited(c, e) {
      assert d.order[0] in d.order;
    }
  }

  lemma SentNone(c: Data)
    ensures Sent(c, c, 0)
  {
  }

  lemma SentTrans(c: Data, d: Data, f: Data, n: nat, m: nat)
    requires Sent(c, d, n) && Sent(d, f, m)
    ensures Sent(c, f, n + m)
  {
    hide Total;
    forall b ensures Total(f, b) == Total(c, b) {
      assert Total(d, b) == Total(c, b);
    }
  }

  lemma SentSame(c: Data, d: Data, f: Data, n: nat)
    requires Sent(c, d, n) && f.queues == d.queues && f.out == d.out
    ensures Sent(c, f, n)
  {
    forall b ensures Total(f, b) == Total(c, b) {
      assert Total(d, b) == Total(c, b);
    }
  }

  lemma SentSorts(c: Data, d: Data, f: Data, n: nat)
    requires Sent(c, d, n) && Sorts(d, f)
    ensures Sent(c, f, n)
  {
    hide Total, Pending;
    forall b ensures Total(f, b) == Total(c, b) && Pending(f.queues) == Pending(d.queues) {
      SortsTotal(d, f, b);
      assert Total(d, b) == Total(c, b);
    }
    SortsTotal(d, f, 0);
  }

  lemma SentFewer(c: Data, d: Data, n: nat)
    requires Sent(c, d, n) && n > 0
    ensures Pending(d.queues) < Pending(c.queues)
  {
  }

  lemma {:induction false} NonePending(qs: seq<Queue>)
    requires forall i :: 0 <= i < |qs| ==> qs[i].sort == []
    ensures Pending(qs) == 0
  {
    if qs != [] {
      NonePending(qs[1..]);
    }
  }

  lemma AllEmpty(c: Data)
    requires Inv(c) && forall i :: 0 <= i < |c.queues| ==> c.queues[i].sort == []
    ensures c.order == [] && c.busy == 0
    ensures forall i :: 0 <= i < |c.queues| ==> c.queues[i].fifo == []
  {
    Shape(c);
    NothingQueued(c);
  }

  lemma AllSent(c: Data, d: Data, n: nat)
    requires Sent(c, d, n) && forall i :: 0 <= i < |d.queues| ==> d.queues[i].sort == []
    ensures n == Pending(c.queues)
  {
    NonePending(d.queues);
  }

  lemma Inactive(c: Data, e: Env)
    requires Inv(c) && EnvOk(e)
    ensures SliceExpired(c, e, false).active.None?
  {
  }
}
