/** What every operation of the CFQ scheduler keeps. */
module CfqSafety {
  import opened Options
  import opened SectorTree
  import opened Cfq

  // ---- the service tree ----

  /** The service tree is in order for every queue but i. */
  ghost predicate Loose(c: Data, i: nat) {
    && i < |c.queues| && Distinct(c.order) && (forall j :: j in c.order ==> j < |c.queues|)
    && (forall j :: 0 <= j < |c.queues| && j != i ==> (c.queues[j].onRr <==> j in c.order))
    && (c.left.Some? ==> c.order != [] && c.left.value == c.order[0])
  }

  /** Only queue i, the tree and its cache differ. */
  ghost predicate Framed(c: Data, d: Data, i: nat) {
    && i < |c.queues| == |d.queues| && (forall j :: 0 <= j < |c.queues| && j != i ==> d.queues[j] == c.queues[j])
    && d == c.(queues := d.queues, order := d.order, left := d.left, busy := d.busy)
  }

  lemma EraseLoose(c: Data, i: nat)
    requires Loose(c, i) && i in c.order
    ensures Loose(Erase(c, i), i) && i !in Erase(c, i).order && |Erase(c, i).order| == |c.order| - 1
  {
    hide Pos;
    WithoutIn(c.order, i);
    if c.left.Some? && c.left.value != i {
      assert Without(c.order, i)[0] == c.order[0];
    }
  }

  lemma LinkLoose(c: Data, e: Env, i: nat, key: int)
    requires Loose(c, i) && i !in c.order && EnvOk(e)
    ensures var d := LinkQueue(c, e, i, key);
            && Loose(d, i) && i in d.order && |d.order| == |c.order| + 1 && Framed(c, d, i)
            && d.busy == c.busy && d.queues[i] == c.queues[i].(key := key)
  {
    hide Descend;
    var t := e.shape(c.order);
    var p := Descend(t, c.queues, c.queues[i], key);
    DescendInside(t, c.queues, c.queues[i], key);
    InsertIn(c.order, p, i);
    assert p > 0 ==> Insert(c.order, p, i)[0] == c.order[0];
  }

  /** cfq_service_tree_add leaves the queue in the tree, once, and the cache right. */
  lemma TreeAddLoose(c: Data, e: Env, i: nat, front: bool)
    requires Loose(c, i) && EnvOk(e)
    ensures var d := TreeAdd(c, e, i, front);
            && Loose(d, i) && i in d.order && Framed(c, d, i) && d.busy == c.busy
            && |d.order| == |c.order| + (if i in c.order then 0 else 1)
            && d.queues[i] == c.queues[i].(key := d.queues[i].key, resid := d.queues[i].resid)
  {
    hide LinkQueue, Erase;
    var q := c.queues[i];
    var key := if front then 0 else e.offset(c.busy, i) + e.now + q.resid;
    var d := Set(c, i, if front then q else q.(resid := 0));
    if i !in c.order {
      LinkLoose(d, e, i, key);
    } else if key != q.key {
      EraseLoose(d, i);
      EraseFrame(d, i);
      LinkLoose(Erase(d, i), e, i, key);
    }
  }

  lemma EraseFrame(c: Data, i: nat)
    requires i in c.order && i < |c.queues|
    ensures Framed(c, Erase(c, i), i) && Erase(c, i).queues == c.queues && Erase(c, i).busy == c.busy
  {
  }

  lemma LooseRr(c: Data, i: nat)
    requires Loose(c, i) && (c.queues[i].onRr <==> i in c.order) && c.busy == |c.order|
    ensures RrInv(c)
  {
  }

  lemma ResortRr(c: Data, e: Env, i: nat)
    requires RrInv(c) && i < |c.queues| && EnvOk(e)
    ensures var d := Resort(c, e, i);
            && RrInv(d) && Framed(c, d, i)
            && d.queues[i] == c.queues[i].(key := d.queues[i].key, resid := d.queues[i].resid)
  {
    hide TreeAdd;
    if c.queues[i].onRr {
      TreeAddLoose(c, e, i, false);
      LooseRr(TreeAdd(c, e, i, false), i);
    }
  }

  lemma AddRrKeeps(c: Data, e: Env, i: nat)
    requires RrInv(c) && i < |c.queues| && EnvOk(e) && !c.queues[i].onRr
    ensures var d := AddRr(c, e, i);
            && RrInv(d) && Framed(c, d, i)
            && d.queues[i] == c.queues[i].(onRr := true, key := d.queues[i].key, resid := d.queues[i].resid)
  {
    hide TreeAdd;
    var d := Set(c, i, c.queues[i].(onRr := true)).(busy := c.busy + 1);
    TreeAddLoose(d, e, i, false);
    LooseRr(TreeAdd(d, e, i, false), i);
  }

  lemma DelRrKeeps(c: Data, i: nat)
    requires RrInv(c) && i < |c.queues| && c.queues[i].onRr
    ensures RrInv(DelRr(c, i)) && Framed(c, DelRr(c, i), i)
    ensures DelRr(c, i).queues[i] == c.queues[i].(onRr := false)
    ensures |DelRr(c, i).order| == |c.order| - 1
  {
    hide Erase;
    var d := Set(c, i, c.queues[i].(onRr := false)).(busy := c.busy - 1);
    EraseLoose(d, i);
    EraseFrame(d, i);
    LooseRr(Erase(d, i), i);
  }

  // ---- counts ----

  lemma {:induction false} CountAppend(s: seq<Rq>, t: seq<Rq>, k: Kind)
    ensures Count(s + t, k) == Count(s, k) + Count(t, k)
  {
    if s == [] {
      assert s + t == t;
    } else {
      assert (s + t)[1..] == s[1..] + t;
      CountAppend(s[1..], t, k);
    }
  }

  lemma CountInsert(s: seq<Rq>, i: nat, r: Rq, k: Kind)
    requires i <= |s|
    ensures Count(Insert(s, i, r), k) == Count(s, k) + One(k, r)
  {
    hide Count;
    assert s == s[..i] + s[i..];
    CountAppend(s[..i], s[i..], k);
    CountAppend(s[..i], [r], k);
    CountAppend(s[..i] + [r], s[i..], k);
    CountOne(r, k);
  }

  lemma CountOne(r: Rq, k: Kind)
    ensures Count([r], k) == One(k, r)
  {
  }

  lemma CountWithout(s: seq<Rq>, r: Rq, k: Kind)
    requires r in s
    ensures Count(s, k) == Count(Without(s, r), k) + One(k, r)
  {
    hide Count, Pos, Insert, Without;
    Swapped(s, r, r);
    CountInsert(Without(s, r), Pos(s, r), r, k);
  }

  // ---- one queue ----

  /** There is a next request exactly when the last one was not alone, and it is another one. */
  lemma FindNextOther(c: Conf, last: nat, s: seq<Rq>, r: Rq)
    requires r in s && Distinct(s)
    ensures FindNext(c, last, s, r).None? <==> Without(s, r) == []
    ensures FindNext(c, last, s, r).Some? ==> FindNext(c, last, s, r).value in s && FindNext(c, last, s, r).value != r
  {
    hide Pos, Choose;
    var p := Pos(s, r);
    var prev := if p > 0 then Some(s[p - 1]) else None;
    var next := if p + 1 < |s| then Some(s[p + 1]) else if s[0] != r then Some(s[0]) else None;
    ChooseBest(c, last, next, prev);
  }

  lemma TakenInv(c: Conf, last: nat, q: Queue, r: Rq)
    requires WorkInv(q) && r in q.sort
    ensures r in q.fifo && WorkInv(Taken(c, last, q, r))
  {
    hide Without, FindNext, Count, Listed;
    assert r in q.fifo by {
      TakenListed(c, last, q, r);
    }
    TakenListed(c, last, q, r);
    CountWithout(q.sort, r, IsSync);
    CountWithout(q.sort, r, IsAsync);
    CountWithout(q.sort, r, IsMeta);
  }

  lemma TakenListed(c: Conf, last: nat, q: Queue, r: Rq)
    requires Listed(q) && r in q.sort
    ensures r in q.fifo && Listed(Taken(c, last, q, r))
  {
    hide Pos, Without, FindNext, Sorted, Distinct;
    SortedDistinct(q.sort);
    WithoutIn(q.sort, r);
    WithoutIn(q.fifo, r);
    WithoutOrder(q.sort, r);
    FindNextOther(c, last, q.sort, r);
  }

  lemma AppendIn(s: seq<Rq>, r: Rq)
    requires Distinct(s) && r !in s
    ensures Distinct(s + [r]) && forall q :: q in s + [r] <==> q in s || q == r
  {
  }

  /** A request put into an in-order queue: tree first, list afterwards. */
  lemma GivenInv(c: Conf, last: nat, q: Queue, r: Rq)
    requires WorkInv(q) && Alias(q.sort, r.sector).None?
    ensures var g := Given(c, last, q, r); WorkInv(g.(fifo := g.fifo + [r], metas := g.metas + One(IsMeta, r)))
  {
    hide Place, Insert, Count, Sorted, Distinct, Choose;
    var i := Place(q.sort, r.sector);
    SortedInsert(q.sort, r);
    InsertIn(q.sort, i, r);
    AppendIn(q.fifo, r);
    ChooseBest(c, last, q.next, Some(r));
    CountInsert(q.sort, i, r, IsSync);
    CountInsert(q.sort, i, r, IsAsync);
    CountInsert(q.sort, i, r, IsMeta);
  }

  // ---- removal ----

  /** Everything but queue i agrees, and queue i's place in the service tree does. */
  ghost predicate InvBut(c: Data, i: nat) {
    && RrInv(c) && i < |c.queues| && (c.active.Some? ==> c.active.value < |c.queues|)
    && (forall j :: 0 <= j < |c.queues| && j != i ==>
         WorkInv(c.queues[j]) && (c.queues[j].onRr <==> c.queues[j].sort != []))
  }

  lemma InvFrom(c: Data, i: nat)
    requires InvBut(c, i) && WorkInv(c.queues[i]) && (c.queues[i].onRr <==> c.queues[i].sort != [])
    ensures Inv(c)
  {
  }

  /** cfq_remove_request, whatever the rest of queue i is like. */
  lemma RemoveBut(c: Data, k: Conf, i: nat, r: Rq)
    requires InvBut(c, i) && r in c.queues[i].sort && r in c.queues[i].fifo && c.queues[i].onRr
    ensures var d := Remove(c, k, i, r);
            && InvBut(d, i) && Framed(c, d, i)
            && d.queues[i] == Taken(k, c.last, c.queues[i], r).(onRr := d.queues[i].sort != [])
  {
    hide Taken, DelRr, WorkInv;
    var q := Taken(k, c.last, c.queues[i], r);
    TakenOn(k, c.last, c.queues[i], r);
    var d := Set(c, i, q);
    assert RrInv(d);
    if q.sort == [] {
      DelRrKeeps(d, i);
    }
  }

  lemma TakenOn(c: Conf, last: nat, q: Queue, r: Rq)
    requires r in q.sort && r in q.fifo
    ensures Taken(c, last, q, r).onRr == q.onRr && Taken(c, last, q, r).sort == Without(q.sort, r)
    ensures Taken(c, last, q, r).fifo == Without(q.fifo, r) && Taken(c, last, q, r).sync == q.sync
  {
  }

  lemma RemoveInv(c: Data, k: Conf, i: nat, r: Rq)
    requires Inv(c) && i < |c.queues| && r in c.queues[i].sort
    ensures r in c.queues[i].fifo && Inv(Remove(c, k, i, r)) && Framed(c, Remove(c, k, i, r), i)
    ensures Remove(c, k, i, r).queues[i].sort == Without(c.queues[i].sort, r)
  {
    hide Remove, Taken, RrInv, Without;
    assert WorkInv(c.queues[i]);
    TakenInv(k, c.last, c.queues[i], r);
    TakenOn(k, c.last, c.queues[i], r);
    RemoveBut(c, k, i, r);
    var d := Remove(c, k, i, r);
    SameWork(Taken(k, c.last, c.queues[i], r), d.queues[i]);
    InvFrom(d, i);
  }

  /** The same requests, linked and counted the same way. */
  ghost predicate Alike(p: Queue, q: Queue) {
    && q.sort == p.sort && q.fifo == p.fifo && q.next == p.next && q.metas == p.metas
    && q.queuedSync == p.queuedSync && q.queuedAsync == p.queuedAsync
  }

  lemma SameWork(p: Queue, q: Queue)
    requires WorkInv(p) && Alike(p, q)
    ensures WorkInv(q)
  {
  }

  /** A change to a queue that leaves its requests, its tree membership and the rest alone. */
  lemma SetInv(c: Data, i: nat, q: Queue)
    requires Inv(c) && i < |c.queues| && WorkInv(q) && q.onRr == c.queues[i].onRr && q.sort == c.queues[i].sort
    ensures Inv(Set(c, i, q))
  {
    hide WorkInv;
  }

  /** cfq_dispatch_insert */
  lemma DispatchInsertInv(c: Data, k: Conf, i: nat, r: Rq)
    requires Inv(c) && i < |c.queues| && r in c.queues[i].sort
    ensures r in c.queues[i].fifo && Inv(DispatchInsert(c, k, i, r))
    ensures |DispatchInsert(c, k, i, r).queues| == |c.queues|
    ensures DispatchInsert(c, k, i, r).queues[i].sort == Without(c.queues[i].sort, r)
    ensures DispatchInsert(c, k, i, r).last == c.last
    ensures forall j :: 0 <= j < |c.queues| && j != i ==> DispatchInsert(c, k, i, r).queues[j] == c.queues[j]
  {
    hide Remove, WorkInv, RrInv, Without;
    RemoveInv(c, k, i, r);
    var d := Remove(c, k, i, r);
    var q := d.queues[i].(dispatched := d.queues[i].dispatched + 1);
    Work(d, i, q);
    SetInv(d, i, q);
    OutInv(Set(d, i, q), DispatchInsert(c, k, i, r));
  }

  lemma OutInv(c: Data, d: Data)
    requires Inv(c) && d == c.(out := d.out, syncFlight := d.syncFlight, timer := d.timer, lastEnd := d.lastEnd,
      last := d.last)
    ensures Inv(d)
  {
    hide WorkInv;
  }

  lemma Work(c: Data, i: nat, q: Queue)
    requires Inv(c) && i < |c.queues| && Alike(c.queues[i], q)
    ensures WorkInv(q)
  {
    hide RrInv;
    SameWork(c.queues[i], q);
  }
}
