/** The CFQ scheduler over whole runs. */
module CfqRuns {
  import opened Options
  import opened SectorTree
  import opened Cfq
  import opened CfqSafety

  // ---- insertion ----

  lemma ClearInv(c: Data, k: Conf, i: nat, sector: nat)
    requires Inv(c) && i < |c.queues|
    ensures Alias(c.queues[i].sort, sector).Some? ==> Alias(c.queues[i].sort, sector).value in c.queues[i].fifo
    ensures Inv(Clear(c, k, i, sector)) && Alias(Clear(c, k, i, sector).queues[i].sort, sector).None?
  {
    hide Place, Pos, Without, DispatchInsert;
    var a := Alias(c.queues[i].sort, sector);
    assert WorkInv(c.queues[i]);
    if a.Some? {
      NoAlias(c.queues[i].sort, a.value, sector);
      DispatchInsertInv(c, k, i, a.value);
    }
  }

  /** Linking a request into the tree of a queue that is ready for it. */
  lemma LinkBut(c: Data, k: Conf, e: Env, i: nat, r: Rq)
    requires InvBut(c, i) && EnvOk(e)
    ensures var d := LinkRq(c, k, e, i, r);
            && InvBut(d, i) && d.queues[i].onRr && Framed(c, d, i)
            && d.queues[i] == Given(k, c.last, c.queues[i], r)
                 .(onRr := true, key := d.queues[i].key, resid := d.queues[i].resid)
  {
    hide AddRr, WorkInv, Given;
    var q := Given(k, c.last, c.queues[i], r);
    GivenOn(k, c.last, c.queues[i], r);
    var g := Set(c, i, q);
    assert RrInv(g);
    if !q.onRr {
      AddRrKeeps(g, e, i);
    }
  }

  lemma GivenOn(c: Conf, last: nat, q: Queue, r: Rq)
    ensures Given(c, last, q, r).onRr == q.onRr && Given(c, last, q, r).sort != []
    ensures Given(c, last, q, r).sort == Insert(q.sort, Place(q.sort, r.sector), r)
    ensures Given(c, last, q, r).fifo == q.fifo && Given(c, last, q, r).metas == q.metas
  {
  }

  lemma InvToBut(c: Data, i: nat)
    requires Inv(c) && i < |c.queues|
    ensures InvBut(c, i) && WorkInv(c.queues[i])
  {
  }

  lemma LinkedInv(c: Data, k: Conf, e: Env, i: nat, r: Rq)
    requires Inv(c) && i < |c.queues| && EnvOk(e) && Alias(c.queues[i].sort, r.sector).None?
    ensures var d := LinkRq(c, k, e, i, r); Inv(Set(d, i, Listing(d.queues[i], r)))
  {
    hide LinkRq, Given, WorkInv, RrInv, Alias;
    InvToBut(c, i);
    GivenInv(k, c.last, c.queues[i], r);
    GivenOn(k, c.last, c.queues[i], r);
    LinkBut(c, k, e, i, r);
    var d := LinkRq(c, k, e, i, r);
    var g := Given(k, c.last, c.queues[i], r);
    var f := Set(d, i, Listing(d.queues[i], r));
    SetBut(d, i, Listing(d.queues[i], r));
    SameWork(Listing(g, r), f.queues[i]);
    InvFrom(f, i);
  }

  lemma SetBut(c: Data, i: nat, q: Queue)
    requires InvBut(c, i) && q.onRr == c.queues[i].onRr
    ensures InvBut(Set(c, i, q), i)
  {
    hide WorkInv;
  }

  /** A queue changed only in fields that no other structure has to agree with. */
  lemma TouchInv(c: Data, i: nat, q: Queue)
    requires Inv(c) && i < |c.queues|
    requires Alike(c.queues[i], q) && q.onRr == c.queues[i].onRr
    ensures Inv(Set(c, i, q)) && Sorts(c, Set(c, i, q))
  {
    hide WorkInv;
    Work(c, i, q);
    SetInv(c, i, q);
  }

  lemma SortsTrans(c: Data, d: Data, f: Data)
    requires Sorts(c, d) && Sorts(d, f)
    ensures Sorts(c, f)
  {
  }

  lemma SortsOf(c: Data, d: Data)
    requires d.queues == c.queues && d.out == c.out
    ensures Sorts(c, d)
  {
  }

  // ---- slices ----

  lemma ResortInv(c: Data, e: Env, i: nat)
    requires Inv(c) && i < |c.queues| && EnvOk(e)
    ensures Inv(Resort(c, e, i)) && Framed(c, Resort(c, e, i), i)
    ensures Resort(c, e, i).queues[i].sort == c.queues[i].sort
  {
    hide Resort, WorkInv, RrInv;
    ResortRr(c, e, i);
    var d := Resort(c, e, i);
    Work(c, i, d.queues[i]);
  }

  lemma ExpiredInv(c: Data, e: Env, timedOut: bool)
    requires Inv(c) && EnvOk(e)
    ensures Inv(SliceExpired(c, e, timedOut)) && Sorts(c, SliceExpired(c, e, timedOut))
  {
    hide Resort, WorkInv, RrInv;
    if c.active.Some? {
      var i := c.active.value;
      var q := c.queues[i];
      var p := Ended(q, timedOut, e.now);
      TouchInv(c, i, p);
      var d := Set(c, i, p);
      var t := d.(timer := if q.waitRequest then false else c.timer);
      OutInv(d, t);
      ResortInv(t, e, i);
      IdleInv(Resort(t, e, i));
    }
  }

  lemma IdleInv(c: Data)
    requires Inv(c)
    ensures Inv(c.(active := None))
  {
    hide WorkInv;
  }

  /** The queues hold the same requests as before, and nothing went to the dispatch list. */
  ghost predicate Sorts(c: Data, d: Data) {
    && |d.queues| == |c.queues| && d.out == c.out
    && forall i :: 0 <= i < |c.queues| ==> d.queues[i].sort == c.queues[i].sort
  }

  lemma PreemptInv(c: Data, e: Env, i: nat)
    requires Inv(c) && EnvOk(e) && i < |c.queues| && c.queues[i].onRr
    ensures Inv(Preempt(c, e, i)) && Sorts(c, Preempt(c, e, i))
  {
    hide SliceExpired, TreeAdd, WorkInv;
    ExpiredInv(c, e, true);
    var d := SliceExpired(c, e, true);
    assert d.queues[i].onRr;
    TreeAddLoose(d, e, i, true);
    var f := TreeAdd(d, e, i, true);
    LooseRr(f, i);
    Work(d, i, f.queues[i]);
    assert Inv(f);
    TouchInv(f, i, f.queues[i].(sliceEnd := 0, sliceNew := true));
  }

  lemma MarkInv(c: Data, d: Data, i: nat)
    requires Inv(c) && i < |c.queues|
    requires d == Set(c, i, c.queues[i].(mustDispatch := true)).(timer := d.timer)
    ensures Inv(d) && Sorts(c, d)
  {
    hide WorkInv, RrInv, Sorts;
    var f := Set(c, i, c.queues[i].(mustDispatch := true));
    TouchInv(c, i, c.queues[i].(mustDispatch := true));
    OutInv(f, d);
    SortsOf(f, d);
    SortsTrans(c, f, d);
  }

  lemma EnqueuedInv(c: Data, e: Env, i: nat, preempts: bool, idles: bool)
    requires Inv(c) && EnvOk(e) && i < |c.queues| && c.queues[i].onRr
    ensures Inv(Enqueued(c, e, i, preempts, idles)) && Sorts(c, Enqueued(c, e, i, preempts, idles))
  {
    hide Preempt, WorkInv, RrInv, Sorts;
    var p := c.queues[i].(idleWindow := idles);
    var f := Set(c, i, p);
    TouchInv(c, i, p);
    var r := Enqueued(c, e, i, preempts, idles);
    if c.active == Some(i) {
      if c.queues[i].waitRequest {
        MarkInv(f, r, i);
        SortsTrans(c, f, r);
      }
    } else if preempts {
      PreemptInv(f, e, i);
      var g := Preempt(f, e, i);
      MarkInv(g, r, i);
      SortsTrans(c, f, g);
      SortsTrans(c, g, r);
    }
  }

  /** cfq_insert_request */
  lemma InsertInv(c: Data, k: Conf, e: Env, i: nat, r: Rq, preempts: bool, idles: bool)
    requires Inv(c) && EnvOk(e) && i < |c.queues|
    ensures Alias(c.queues[i].sort, r.sector).Some? ==> Alias(c.queues[i].sort, r.sector).value in c.queues[i].fifo
    ensures Inv(InsertRequest(c, k, e, i, r, preempts, idles))
  {
    hide Clear, LinkRq, Enqueued, WorkInv, RrInv, Alias;
    ClearInv(c, k, i, r.sector);
    var d := Clear(c, k, i, r.sector);
    LinkedInv(d, k, e, i, r);
    InvToBut(d, i);
    LinkBut(d, k, e, i, r);
    var l := LinkRq(d, k, e, i, r);
    EnqueuedInv(Set(l, i, Listing(l.queues[i], r)), e, i, preempts, idles);
  }

  // ---- the other hooks ----

  /** The part of cfq_completed_request for the active queue. */
  lemma ActiveDoneInv(d: Data, e: Env, i: nat, sync: bool, slice: nat, arms: bool)
    requires Inv(d) && EnvOk(e) && d.active == Some(i)
    ensures Inv(ActiveDone(d, e, i, sync, slice, arms)) && Sorts(d, ActiveDone(d, e, i, sync, slice, arms))
  {
    hide SliceExpired, WorkInv, RrInv, Sorts;
    var q := d.queues[i];
    var p := if q.sliceNew then q.(sliceEnd := slice + e.now, sliceNew := false) else q;
    TouchInv(d, i, p);
    var f := Set(d, i, p);
    if SliceUsed(p, e.now) {
      ExpiredInv(f, e, true);
      SortsTrans(d, f, SliceExpired(f, e, true));
    } else {
      var w := p.(mustDispatch := true, waitRequest := true);
      TouchInv(f, i, w);
      var t := Set(f, i, w).(timer := true);
      OutInv(Set(f, i, w), t);
      SortsOf(Set(f, i, w), t);
      SortsTrans(f, Set(f, i, w), t);
      SortsTrans(d, f, t);
    }
  }

  /** cfq_completed_request */
  lemma CompletedInv(c: Data, e: Env, i: nat, sync: bool, slice: nat, arms: bool)
    requires Inv(c) && EnvOk(e) && i < |c.queues|
    ensures Inv(Completed(c, e, i, sync, slice, arms)) && Sorts(c, Completed(c, e, i, sync, slice, arms))
  {
    hide ActiveDone, WorkInv, RrInv, Sorts;
    var q := c.queues[i];
    var p := q.(dispatched := q.dispatched - 1);
    TouchInv(c, i, p);
    var a := Set(c, i, p);
    var d := a.(syncFlight := c.syncFlight - (if q.sync then 1 else 0), lastEnd := if q.idle then c.lastEnd else e.now);
    OutInv(a, d);
    SortsOf(a, d);
    SortsTrans(c, a, d);
    if d.active == Some(i) {
      ActiveDoneInv(d, e, i, sync, slice, arms);
      SortsTrans(c, d, ActiveDone(d, e, i, sync, slice, arms));
    }
  }

  lemma SetClassInv(c: Data, i: nat, rt: bool, idle: bool)
    requires Inv(c) && i < |c.queues|
    ensures Inv(SetClass(c, i, rt, idle)) && Sorts(c, SetClass(c, i, rt, idle))
  {
    hide WorkInv, RrInv;
    TouchInv(c, i, c.queues[i].(rt := rt, idle := idle));
  }

  /** Selecting: cfq_rb_first's cache refill, then the new active queue. */
  lemma SetActiveInv(c: Data, k: Conf, e: Env)
    requires Inv(c)
    ensures var d := SetActive(c, k, e);
            Inv(d) && Sorts(c, d) && (d.active.Some? ==> d.queues[d.active.value].sort != [])
  {
    hide WorkInv;
    if c.order != [] {
      assert c.order[0] in c.order;
      var d := First(c);
      var i := d.left.value;
      assert Inv(d);
      TouchInv(d, i, d.queues[i].(sliceEnd := 0, fifoExpire := false, sliceNew := true));
    }
  }
}
