/** Merges in the CFQ scheduler: a request leaves and re-enters the tree of its queue. */
module CfqMerges {
  import opened Options
  import opened SectorTree
  import opened Cfq
  import opened CfqSafety
  import opened CfqRuns

  /** A queue whose request r is on the list but, for the moment, not in the tree. */
  ghost predicate Almost(q: Queue, r: Rq) {
    && Sorted(q.sort) && Distinct(q.fifo) && r in q.fifo && r !in q.sort
    && (forall x :: x in q.fifo <==> x in q.sort || x == r)
    && (q.next.Some? ==> q.next.value in q.sort || q.next.value == r)
    && AlmostCounted(q, r)
  }

  ghost predicate AlmostCounted(q: Queue, r: Rq) {
    && q.queuedSync == Count(q.sort, IsSync) && q.queuedAsync == Count(q.sort, IsAsync)
    && q.metas == Count(q.sort, IsMeta) + One(IsMeta, r)
  }

  lemma UnlinkedAlmost(q: Queue, r: Rq)
    requires WorkInv(q) && r in q.sort
    ensures Almost(Unlinked(q, r), r)
  {
    hide Pos, Without, Count, Sorted, Distinct;
    SortedDistinct(q.sort);
    WithoutIn(q.sort, r);
    WithoutOrder(q.sort, r);
    CountWithout(q.sort, r, IsSync);
    CountWithout(q.sort, r, IsAsync);
    CountWithout(q.sort, r, IsMeta);
  }

  lemma TakenAlmost(c: Conf, last: nat, q: Queue, a: Rq, r: Rq)
    requires Almost(q, r) && a in q.sort
    ensures a in q.fifo && Almost(Taken(c, last, q, a), r)
  {
    hide Pos, Without, Count, Sorted, Distinct, FindNext;
    SortedDistinct(q.sort);
    WithoutIn(q.sort, a);
    WithoutIn(q.fifo, a);
    WithoutOrder(q.sort, a);
    FindNextOther(c, last, q.sort, a);
    CountWithout(q.sort, a, IsSync);
    CountWithout(q.sort, a, IsAsync);
    CountWithout(q.sort, a, IsMeta);
  }

  lemma RelinkWork(c: Conf, last: nat, u: Queue, r: Rq, q: Rq)
    requires Almost(u, r) && Alias(u.sort, q.sector).None? && q.sync == r.sync && q.meta == r.meta
    ensures WorkInv(Given(c, last, Renamed(u, r, q), q))
  {
    hide Place, Insert, Replace, Count, Sorted, Distinct, Choose;
    var i := Place(u.sort, q.sector);
    var n := Renamed(u, r, q);
    SortedInsert(u.sort, q);
    InsertIn(u.sort, i, q);
    ReplaceIn(u.fifo, r, q);
    ChooseBest(c, last, n.next, Some(q));
    CountInsert(u.sort, i, q, IsSync);
    CountInsert(u.sort, i, q, IsAsync);
    CountInsert(u.sort, i, q, IsMeta);
  }

  /** cfq_dispatch_insert in the middle of a reposition. */
  lemma SentBut(c: Data, k: Conf, i: nat, a: Rq)
    requires InvBut(c, i) && a in c.queues[i].sort && a in c.queues[i].fifo && c.queues[i].onRr
    ensures var d := DispatchInsert(c, k, i, a);
            && InvBut(d, i) && Alike(Taken(k, c.last, c.queues[i], a), d.queues[i])
            && (d.queues[i].onRr <==> d.queues[i].sort != [])
  {
    hide Remove, Taken, WorkInv, RrInv;
    RemoveBut(c, k, i, a);
    var d := Remove(c, k, i, a);
    var q := d.queues[i].(dispatched := d.queues[i].dispatched + 1);
    SetBut(d, i, q);
    OutBut(Set(d, i, q), DispatchInsert(c, k, i, a), i);
  }

  lemma OutBut(c: Data, d: Data, i: nat)
    requires InvBut(c, i) && d == c.(out := d.out, syncFlight := d.syncFlight)
    ensures InvBut(d, i)
  {
    hide WorkInv;
  }

  /** cfq_reposition_rq_rb */
  lemma RepositionInv(c: Data, k: Conf, e: Env, i: nat, r: Rq, q: Rq)
    requires Inv(c) && EnvOk(e) && i < |c.queues| && r in c.queues[i].sort && q.sync == r.sync && q.meta == r.meta
    ensures r in c.queues[i].fifo
    ensures Alias(Without(c.queues[i].sort, r), q.sector).Some? ==>
              var a := Alias(Without(c.queues[i].sort, r), q.sector).value; a in c.queues[i].fifo && a != r
    ensures Inv(Reposition(c, k, e, i, r, q))
  {
    hide WorkInv, RrInv, Without, DispatchInsert, LinkRq, Given, Renamed, Alias, Taken, Almost;
    var p := c.queues[i];
    InvToBut(c, i);
    AliasOther(p, r, q.sector);
    UnlinkedAlmost(p, r);
    var u := Unlinked(p, r);
    var c0 := Set(c, i, u);
    SetBut(c, i, u);
    var a := Alias(u.sort, q.sector);
    if a.Some? {
      AlmostAlias(u, r, a.value, q.sector);
      TakenAlmost(k, c0.last, u, a.value, r);
      TakenOn(k, c0.last, u, a.value);
      SentBut(c0, k, i, a.value);
      var d := DispatchInsert(c0, k, i, a.value);
      SameAlmost(Taken(k, c0.last, u, a.value), d.queues[i], r);
      RelinkInv(d, k, e, i, r, q);
    } else {
      RelinkInv(c0, k, e, i, r, q);
    }
  }

  lemma SameAlmost(p: Queue, q: Queue, r: Rq)
    requires Almost(p, r) && Alike(p, q)
    ensures Almost(q, r)
  {
  }

  lemma AlmostAlias(u: Queue, r: Rq, a: Rq, sector: nat)
    requires Almost(u, r) && Alias(u.sort, sector) == Some(a)
    ensures a in u.sort && a in u.fifo && a != r && Alias(Without(u.sort, a), sector).None?
  {
    hide Place, Without;
    NoAlias(u.sort, a, sector);
  }

  lemma AliasOther(p: Queue, r: Rq, sector: nat)
    requires WorkInv(p) && r in p.sort
    ensures r in p.fifo
    ensures Alias(Without(p.sort, r), sector).Some? ==>
              var a := Alias(Without(p.sort, r), sector).value; a in p.fifo && a != r
  {
    hide Place, Without;
    SortedDistinct(p.sort);
    WithoutIn(p.sort, r);
  }

  lemma AlmostFifo(u: Queue, r: Rq)
    requires Almost(u, r)
    ensures r in u.fifo
  {
  }

  lemma RelinkInv(d: Data, k: Conf, e: Env, i: nat, r: Rq, q: Rq)
    requires InvBut(d, i) && EnvOk(e) && Almost(d.queues[i], r) && q.sync == r.sync && q.meta == r.meta
    requires Alias(d.queues[i].sort, q.sector).None?
    ensures r in d.queues[i].fifo && Inv(LinkRq(Set(d, i, Renamed(d.queues[i], r, q)), k, e, i, q))
  {
    hide WorkInv, RrInv, LinkRq, Given, Alias, Almost;
    AlmostFifo(d.queues[i], r);
    var n := Renamed(d.queues[i], r, q);
    RelinkWork(k, d.last, d.queues[i], r, q);
    SetBut(d, i, n);
    var f := Set(d, i, n);
    LinkBut(f, k, e, i, q);
    GivenOn(k, f.last, n, q);
    var l := LinkRq(f, k, e, i, q);
    SameWork(Given(k, f.last, n, q), l.queues[i]);
    InvFrom(l, i);
  }

  // ---- two requests into one ----

  lemma MergedFifoIn(fifo: seq<Rq>, r: Rq, x: Rq, q: Rq)
    requires Distinct(fifo) && r in fifo && x in fifo && r != x && (q !in fifo || q == r)
    ensures Distinct(MergedFifo(fifo, r, x, q))
    ensures forall y :: y in MergedFifo(fifo, r, x, q) <==> y == q || (y in fifo && y != r)
  {
    hide Pos, Without, Insert, Replace, Distinct;
    if x.time < r.time {
      StillThere(fifo, x, r);
      WithoutIn(fifo, r);
      var rest := Without(fifo, r);
      InsertIn(rest, Pos(rest, x) + 1, q);
    } else {
      ReplaceIn(fifo, r, q);
    }
  }

  lemma CountReplace(s: seq<Rq>, r: Rq, q: Rq, k: Kind)
    requires r in s && q.sync == r.sync && q.meta == r.meta
    ensures Count(Replace(s, r, q), k) == Count(s, k)
  {
    hide Count, Pos, Insert, Without, Replace;
    Swapped(s, r, q);
    CountInsert(Without(s, r), Pos(s, r), q, k);
    CountWithout(s, r, k);
  }

  /** The same change to two lists that hold the same requests. */
  lemma StillAgree(f: seq<Rq>, s: seq<Rq>, f2: seq<Rq>, s2: seq<Rq>, r: Rq, q: Rq)
    requires forall y :: y in f <==> y in s
    requires forall y :: y in f2 <==> y == q || (y in f && y != r)
    requires forall y :: y in s2 <==> y == q || (y in s && y != r)
    ensures forall y :: y in f2 <==> y in s2
  {
  }

  lemma ReplacedSort(s: seq<Rq>, r: Rq, q: Rq)
    requires Sorted(s) && r in s && q.sector == r.sector
    ensures Sorted(Replace(s, r, q)) && (q !in s || q == r)
    ensures forall y :: y in Replace(s, r, q) <==> y == q || (y in s && y != r)
  {
    SortedDistinct(s);
    SameSector(s, r);
    ReplaceIn(s, r, q);
    SameSectorOrder(s, r, q);
  }

  lemma MergedListed(p: Queue, r: Rq, x: Rq, q: Rq)
    requires Listed(p) && r in p.sort && x in p.sort && r != x && q.sector == r.sector && r in p.fifo && x in p.fifo
    ensures Listed(Merged(p, r, x, q))
  {
    hide *;
    ListedParts(p);
    ReplacedSort(p.sort, r, q);
    MergedFifoIn(p.fifo, r, x, q);
    StillAgree(p.fifo, p.sort, MergedFifo(p.fifo, r, x, q), Replace(p.sort, r, q), r, q);
    MergedFields(p, r, x, q);
    assert q in Replace(p.sort, r, q);
    PartsListed(Merged(p, r, x, q));
  }

  lemma ListedParts(q: Queue)
    requires Listed(q)
    ensures Sorted(q.sort) && Distinct(q.fifo) && (forall r :: r in q.fifo <==> r in q.sort)
    ensures (q.next.None? <==> q.sort == []) && (q.next.Some? ==> q.next.value in q.sort)
  {
  }

  lemma PartsListed(q: Queue)
    requires Sorted(q.sort) && Distinct(q.fifo) && (forall r :: r in q.fifo <==> r in q.sort)
    requires (q.next.None? <==> q.sort == []) && (q.next.Some? ==> q.next.value in q.sort)
    ensures Listed(q)
  {
  }

  lemma MergedFields(p: Queue, r: Rq, x: Rq, q: Rq)
    requires r in p.sort && x in p.sort && r != x && r in p.fifo && x in p.fifo
    ensures var m := Merged(p, r, x, q);
            && m.fifo == MergedFifo(p.fifo, r, x, q) && m.sort == Replace(p.sort, r, q)
            && m.next == if p.next == Some(r) then Some(q) else p.next
  {
  }

  lemma MergedWork(p: Queue, r: Rq, x: Rq, q: Rq)
    requires WorkInv(p) && r in p.sort && x in p.sort && r != x
    requires q.sector == r.sector && q.sync == r.sync && q.meta == r.meta
    ensures r in p.fifo && x in p.fifo && WorkInv(Merged(p, r, x, q))
  {
    assert r in p.fifo && x in p.fifo;
    hide MergedFifo, Replace, Count, Listed;
    MergedListed(p, r, x, q);
    CountReplace(p.sort, r, q, IsSync);
    CountReplace(p.sort, r, q, IsAsync);
    CountReplace(p.sort, r, q, IsMeta);
  }

  /** cfq_merged_requests */
  lemma MergedInv(c: Data, k: Conf, i: nat, r: Rq, x: Rq, q: Rq)
    requires Inv(c) && i < |c.queues| && r in c.queues[i].sort && x in c.queues[i].sort && r != x
    requires q.sector == r.sector && q.sync == r.sync && q.meta == r.meta
    ensures r in c.queues[i].fifo && x in c.queues[i].fifo && Inv(MergedRequests(c, k, i, r, x, q))
    ensures |MergedRequests(c, k, i, r, x, q).queues| == |c.queues| && MergedRequests(c, k, i, r, x, q).out == c.out
    ensures MergedRequests(c, k, i, r, x, q).queues[i].sort == Without(Replace(c.queues[i].sort, r, q), x)
    ensures forall j :: 0 <= j < |c.queues| && j != i ==> MergedRequests(c, k, i, r, x, q).queues[j] == c.queues[j]
  {
    hide WorkInv, RrInv, Merged, Remove, Without, Replace;
    InvToBut(c, i);
    MergedWork(c.queues[i], r, x, q);
    var m := Merged(c.queues[i], r, x, q);
    MergedOn(c.queues[i], r, x, q);
    SetBut(c, i, m);
    InvFrom(Set(c, i, m), i);
    RemoveInv(Set(c, i, m), k, i, x);
  }

  lemma MergedOn(p: Queue, r: Rq, x: Rq, q: Rq)
    requires r in p.sort && x in p.sort && r != x && r in p.fifo && x in p.fifo
    ensures var m := Merged(p, r, x, q);
            m.onRr == p.onRr && m.sort == Replace(p.sort, r, q) && m.sort != [] && p.sort != [] && x in m.sort
              && x in m.fifo
  {
    MergeKeeps(p, r, x, q);
  }
}
