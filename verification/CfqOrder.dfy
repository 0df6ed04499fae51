/** The order of the CFQ service tree: real-time queues first, idle ones last, by key within a class. */
module CfqOrder {
  import opened Options
  import opened SectorTree
  import opened RbTree
  import opened Cfq
  import opened CfqSafety
  import opened CfqRuns
  import opened CfqMerges
  import opened CfqDrain

  /** p is served before q. */
  predicate Earlier(p: Queue, q: Queue) {
    || (p.rt && !q.rt)
    || (p.rt == q.rt && !p.idle && q.idle)
    || (p.rt == q.rt && p.idle == q.idle && p.key < q.key)
  }

  lemma EarlierLaws(p: Queue, q: Queue, r: Queue)
    ensures Earlier(p, q) ==> !Earlier(q, p)
    ensures Earlier(p, q) && !Earlier(r, q) ==> Earlier(p, r)
    ensures !Earlier(q, p) && !Earlier(r, q) ==> !Earlier(r, p)
  {
  }

  ghost predicate InOrder(s: seq<nat>, qs: seq<Queue>) {
    && (forall a :: 0 <= a < |s| ==> s[a] < |qs|)
    && forall a, b :: 0 <= a < b < |s| ==> !Earlier(qs[s[b]], qs[s[a]])
  }

  /** No queue on the tree stands behind one that it should be served before. */
  ghost predicate Served(c: Data) { Distinct(c.order) && InOrder(c.order, c.queues) }

  /** The descent ends behind everything it does not come before, and before all the rest. */
  lemma {:induction false} DescendsRight(t: Tree<nat>, qs: seq<Queue>, q: Queue, key: int)
    requires InOrder(Inorder(t), qs)
    ensures var (s, p, n) := (Inorder(t), Descend(t, qs, q, key), q.(key := key));
            && p <= |s|
            && (forall a :: 0 <= a < p ==> !Earlier(n, qs[s[a]]))
            && (forall a :: p <= a < |s| ==> Earlier(n, qs[s[a]]))
  {
    match t
    case Leaf =>
    case Node(l, m, r) =>
      var (s, n) := (Inorder(t), q.(key := key));
      assert s == Inorder(l) + [m] + Inorder(r);
      var k := |Inorder(l)|;
      assert s[k] == m && m in s;
      assert forall a :: 0 <= a < k ==> s[a] == Inorder(l)[a];
      assert forall a :: k < a < |s| ==> s[a] == Inorder(r)[a - k - 1];
      PartsInOrder(s, Inorder(l), Inorder(r), m, qs);
      hide Earlier, InOrder;
      TurnsEarlier(q, key, qs[m]);
      if Earlier(n, qs[m]) {
        DescendsRight(l, qs, q, key);
        forall a | k <= a < |s| ensures Earlier(n, qs[s[a]]) {
          BehindIn(s, k, a, qs);
          EarlierLaws(n, qs[m], qs[s[a]]);
        }
      } else {
        DescendsRight(r, qs, q, key);
        forall a | 0 <= a <= k ensures !Earlier(n, qs[s[a]]) {
          BehindIn(s, a, k, qs);
          EarlierLaws(qs[s[a]], qs[m], n);
        }
      }
  }

  lemma TurnsEarlier(q: Queue, key: int, m: Queue)
    ensures TurnsLeft(q, key, m) <==> Earlier(q.(key := key), m)
  {
  }

  lemma BehindIn(s: seq<nat>, a: nat, b: nat, qs: seq<Queue>)
    requires InOrder(s, qs) && a <= b < |s|
    ensures s[a] < |qs| && s[b] < |qs| && !Earlier(qs[s[b]], qs[s[a]])
  {
    EarlierLaws(qs[s[a]], qs[s[a]], qs[s[a]]);
  }

  lemma PartsInOrder(s: seq<nat>, l: seq<nat>, r: seq<nat>, m: nat, qs: seq<Queue>)
    requires InOrder(s, qs) && s == l + [m] + r
    ensures InOrder(l, qs) && InOrder(r, qs) && m < |qs|
  {
    hide Earlier;
    var k := |l|;
    assert s[k] == m;
    forall a | 0 <= a < |l| ensures l[a] < |qs| { assert s[a] == l[a]; }
    forall a | 0 <= a < |r| ensures r[a] < |qs| { assert s[k + 1 + a] == r[a]; }
    forall a, b | 0 <= a < b < |l| ensures !Earlier(qs[l[b]], qs[l[a]]) { assert s[a] == l[a] && s[b] == l[b]; }
    forall a, b | 0 <= a < b < |r| ensures !Earlier(qs[r[b]], qs[r[a]]) {
      assert s[k + 1 + a] == r[a] && s[k + 1 + b] == r[b];
    }
  }

  /** The queues on the tree have the class and key they had. */
  ghost predicate SameKeys(qs: seq<Queue>, rs: seq<Queue>, s: seq<nat>) {
    && |qs| <= |rs|
    && forall i :: i in s ==> i < |qs| && rs[i].rt == qs[i].rt && rs[i].idle == qs[i].idle && rs[i].key == qs[i].key
  }

  lemma KeysServed(c: Data, d: Data)
    requires Served(c) && d.order == c.order && SameKeys(c.queues, d.queues, c.order)
    ensures Served(d)
  {
    var s := c.order;
    forall a, b | 0 <= a < b < |s| ensures !Earlier(d.queues[s[b]], d.queues[s[a]]) {
      assert s[a] in s && s[b] in s;
      assert !Earlier(c.queues[s[b]], c.queues[s[a]]);
    }
  }

  /** A queue is changed in other respects. */
  lemma SetServed(c: Data, i: nat, q: Queue)
    requires Served(c) && i < |c.queues|
    requires i in c.order ==> q.rt == c.queues[i].rt && q.idle == c.queues[i].idle && q.key == c.queues[i].key
    ensures Served(Set(c, i, q))
  {
    KeysServed(c, Set(c, i, q));
  }

  lemma EraseServed(c: Data, i: nat)
    requires Served(c) && i in c.order
    ensures Served(Erase(c, i)) && i !in Erase(c, i).order
  {
    hide Pos, Earlier;
    WithoutIn(c.order, i);
    var (s, t, p) := (c.order, Without(c.order, i), Pos(c.order, i));
    forall a, b | 0 <= a < b < |t| ensures !Earlier(c.queues[t[b]], c.queues[t[a]]) {
      assert t[a] == s[if a < p then a else a + 1] && t[b] == s[if b < p then b else b + 1];
    }
  }

  lemma LinkServed(c: Data, e: Env, i: nat, key: int)
    requires Served(c) && i < |c.queues| && i !in c.order && EnvOk(e)
    ensures Served(LinkQueue(c, e, i, key))
  {
    hide Descend, Earlier;
    var t := e.shape(c.order);
    var q := c.queues[i].(key := key);
    var p := Descend(t, c.queues, c.queues[i], key);
    DescendsRight(t, c.queues, c.queues[i], key);
    DescendInside(t, c.queues, c.queues[i], key);
    var (s, n, rs) := (c.order, Insert(c.order, p, i), c.queues[i := q]);
    InsertIn(s, p, i);
    forall a | 0 <= a < |s| ensures s[a] < |rs| && rs[s[a]] == c.queues[s[a]] { assert s[a] in s; }
    InsertOrder(s, p, i, rs);
  }

  lemma InsertOrder(s: seq<nat>, p: nat, i: nat, qs: seq<Queue>)
    requires InOrder(s, qs) && p <= |s| && i < |qs|
    requires forall a :: 0 <= a < p ==> !Earlier(qs[i], qs[s[a]])
    requires forall a :: p <= a < |s| ==> Earlier(qs[i], qs[s[a]])
    ensures InOrder(Insert(s, p, i), qs)
  {
    hide Earlier;
    var n := Insert(s, p, i);
    forall a | 0 <= a < |n| ensures n[a] == if a < p then s[a] else if a == p then i else s[a - 1] {}
    forall a, b | 0 <= a < b < |n| ensures !Earlier(qs[n[b]], qs[n[a]]) {
      if a == p {
        EarlierLaws(qs[i], qs[n[b]], qs[i]);
      }
    }
  }

  lemma TreeAddServed(c: Data, e: Env, i: nat, front: bool)
    requires Served(c) && i < |c.queues| && EnvOk(e)
    ensures Served(TreeAdd(c, e, i, front))
  {
    hide LinkQueue, Erase, Served;
    var q := c.queues[i];
    var key := if front then 0 else e.offset(c.busy, i) + e.now + q.resid;
    var d := Set(c, i, if front then q else q.(resid := 0));
    SetServed(c, i, d.queues[i]);
    if i !in c.order {
      LinkServed(d, e, i, key);
    } else if key != q.key {
      EraseServed(d, i);
      EraseFrame(d, i);
      LinkServed(Erase(d, i), e, i, key);
    }
  }

  lemma OtherServed(c: Data, d: Data)
    requires Served(c) && d.order == c.order && d.queues == c.queues
    ensures Served(d)
  {
  }

  // ---- the steps ----

  lemma ResortServed(c: Data, e: Env, i: nat)
    requires Served(c) && i < |c.queues| && EnvOk(e)
    ensures Served(Resort(c, e, i))
  {
    hide TreeAdd;
    TreeAddServed(c, e, i, false);
  }

  lemma AddRrServed(c: Data, e: Env, i: nat)
    requires Served(c) && i < |c.queues| && EnvOk(e)
    ensures Served(AddRr(c, e, i))
  {
    hide Resort, Served;
    var d := Set(c, i, c.queues[i].(onRr := true));
    SetServed(c, i, d.queues[i]);
    OtherServed(d, d.(busy := c.busy + 1));
    ResortServed(d.(busy := c.busy + 1), e, i);
  }

  lemma DelRrServed(c: Data, i: nat)
    requires Served(c) && i < |c.queues|
    ensures Served(DelRr(c, i))
  {
    hide Erase, Served;
    var d := Set(c, i, c.queues[i].(onRr := false));
    SetServed(c, i, d.queues[i]);
    var f := d.(busy := c.busy - 1);
    OtherServed(d, f);
    if i in f.order { EraseServed(f, i); }
  }

  lemma RemoveServed(c: Data, k: Conf, i: nat, r: Rq)
    requires Served(c) && i < |c.queues| && r in c.queues[i].sort && r in c.queues[i].fifo
    ensures Served(Remove(c, k, i, r))
  {
    hide DelRr, Served, Without, FindNext;
    var q := Taken(k, c.last, c.queues[i], r);
    SetServed(c, i, q);
    DelRrServed(Set(c, i, q), i);
  }

  lemma SentServed(c: Data, k: Conf, i: nat, r: Rq)
    requires Served(c) && i < |c.queues| && r in c.queues[i].sort && r in c.queues[i].fifo
    ensures Served(DispatchInsert(c, k, i, r))
  {
    hide Remove, Served;
    RemoveServed(c, k, i, r);
    var d := Remove(c, k, i, r);
    var q := d.queues[i].(dispatched := d.queues[i].dispatched + 1);
    SetServed(d, i, q);
    OtherServed(Set(d, i, q), DispatchInsert(c, k, i, r));
  }

  lemma ClearServed(c: Data, k: Conf, i: nat, sector: nat)
    requires Served(c) && i < |c.queues|
    requires Alias(c.queues[i].sort, sector).Some? ==> Alias(c.queues[i].sort, sector).value in c.queues[i].fifo
    ensures Served(Clear(c, k, i, sector))
  {
    hide DispatchInsert, Served, Place;
    if Alias(c.queues[i].sort, sector).Some? { SentServed(c, k, i, Alias(c.queues[i].sort, sector).value); }
  }

  lemma LinkRqServed(c: Data, k: Conf, e: Env, i: nat, r: Rq)
    requires Served(c) && i < |c.queues| && EnvOk(e)
    ensures Served(LinkRq(c, k, e, i, r))
  {
    hide AddRr, Served, Place, Choose;
    var q := Given(k, c.last, c.queues[i], r);
    SetServed(c, i, q);
    AddRrServed(Set(c, i, q), e, i);
  }

  lemma ExpiredServed(c: Data, e: Env, timedOut: bool)
    requires Served(c) && EnvOk(e) && (c.active.Some? ==> c.active.value < |c.queues|)
    ensures Served(SliceExpired(c, e, timedOut))
  {
    hide Resort, Served;
    if c.active.Some? {
      var i := c.active.value;
      var q := c.queues[i];
      var d := Set(c, i, Ended(q, timedOut, e.now));
      SetServed(c, i, d.queues[i]);
      var t := d.(timer := if q.waitRequest then false else c.timer);
      OtherServed(d, t);
      ResortServed(t, e, i);
      OtherServed(Resort(t, e, i), SliceExpired(c, e, timedOut));
    }
  }

  lemma PreemptServed(c: Data, e: Env, i: nat)
    requires Served(c) && EnvOk(e) && i < |c.queues| && (c.active.Some? ==> c.active.value < |c.queues|)
    ensures Served(Preempt(c, e, i))
  {
    hide SliceExpired, TreeAdd, Served;
    ExpiredServed(c, e, true);
    TreeAddServed(SliceExpired(c, e, true), e, i, true);
    var d := TreeAdd(SliceExpired(c, e, true), e, i, true);
    SetServed(d, i, d.queues[i].(sliceEnd := 0, sliceNew := true));
  }

  lemma EnqueuedServed(c: Data, e: Env, i: nat, preempts: bool, idles: bool)
    requires Served(c) && i < |c.queues| && EnvOk(e) && (c.active.Some? ==> c.active.value < |c.queues|)
    ensures Served(Enqueued(c, e, i, preempts, idles))
  {
    hide Preempt, Served;
    var f := Set(c, i, c.queues[i].(idleWindow := idles));
    SetServed(c, i, f.queues[i]);
    var m := Set(f, i, f.queues[i].(mustDispatch := true));
    SetServed(f, i, m.queues[i]);
    OtherServed(m, m.(timer := false));
    PreemptServed(f, e, i);
    var g := Preempt(f, e, i);
    SetServed(g, i, g.queues[i].(mustDispatch := true));
  }

  lemma SubmitServed(c: Data, k: Conf, e: Env, i: nat, r: Rq, preempts: bool, idles: bool)
    requires Served(c) && i < |c.queues| && EnvOk(e) && (c.active.Some? ==> c.active.value < |c.queues|)
    requires Alias(c.queues[i].sort, r.sector).Some? ==> Alias(c.queues[i].sort, r.sector).value in c.queues[i].fifo
    ensures Served(InsertRequest(c, k, e, i, r, preempts, idles))
  {
    hide Clear, LinkRq, Enqueued, Served, Alias;
    ClearServed(c, k, i, r.sector);
    LinkRqServed(Clear(c, k, i, r.sector), k, e, i, r);
    var d := LinkRq(Clear(c, k, i, r.sector), k, e, i, r);
    var f := Set(d, i, Listing(d.queues[i], r));
    SetServed(d, i, f.queues[i]);
    EnqueuedServed(f, e, i, preempts, idles);
  }

  lemma FrontServed(c: Data, k: Conf, e: Env, i: nat, r: Rq, q: Rq)
    requires Served(c) && i < |c.queues| && EnvOk(e) && r in c.queues[i].sort && r in c.queues[i].fifo
    requires Alias(Without(c.queues[i].sort, r), q.sector).Some? ==>
               var a := Alias(Without(c.queues[i].sort, r), q.sector).value; a in c.queues[i].fifo && a != r
    ensures Served(Reposition(c, k, e, i, r, q))
  {
    hide Clear, LinkRq, Served, Alias, Without, Replace;
    var c0 := Set(c, i, Unlinked(c.queues[i], r));
    SetServed(c, i, c0.queues[i]);
    ClearServed(c0, k, i, q.sector);
    var d := Clear(c0, k, i, q.sector);
    ClearFifo(c0, k, i, q.sector, r);
    var f := Set(d, i, Renamed(d.queues[i], r, q));
    SetServed(d, i, f.queues[i]);
    LinkRqServed(f, k, e, i, q);
  }

  lemma ClearFifo(c: Data, k: Conf, i: nat, sector: nat, r: Rq)
    requires i < |c.queues| && r in c.queues[i].fifo
    requires Alias(c.queues[i].sort, sector).Some? ==>
               Alias(c.queues[i].sort, sector).value in c.queues[i].fifo && Alias(c.queues[i].sort, sector).value != r
    ensures r in Clear(c, k, i, sector).queues[i].fifo
  {
    hide Without, FindNext, Place;
    var a := Alias(c.queues[i].sort, sector);
    if a.Some? { StillThere(c.queues[i].fifo, r, a.value); }
  }

  lemma JoinServed(c: Data, k: Conf, i: nat, r: Rq, x: Rq, q: Rq)
    requires Served(c) && i < |c.queues| && r in c.queues[i].sort && x in c.queues[i].sort && r != x
    requires r in c.queues[i].fifo && x in c.queues[i].fifo
    ensures Served(MergedRequests(c, k, i, r, x, q))
  {
    hide Remove, Served, MergedFifo, Replace;
    MergeKeeps(c.queues[i], r, x, q);
    var m := Merged(c.queues[i], r, x, q);
    SetServed(c, i, m);
    RemoveServed(Set(c, i, m), k, i, x);
  }

  lemma DoneServed(c: Data, e: Env, i: nat, sync: bool, slice: nat, arms: bool)
    requires Served(c) && EnvOk(e) && i < |c.queues|
    ensures Served(Completed(c, e, i, sync, slice, arms))
  {
    hide SliceExpired, Served;
    var q := c.queues[i];
    var a := Set(c, i, q.(dispatched := q.dispatched - 1));
    SetServed(c, i, a.queues[i]);
    var d := a.(syncFlight := c.syncFlight - (if q.sync then 1 else 0), lastEnd := if q.idle then c.lastEnd else e.now);
    OtherServed(a, d);
    if d.active == Some(i) {
      var b := d.queues[i];
      var p := if b.sliceNew then b.(sliceEnd := slice + e.now, sliceNew := false) else b;
      var f := Set(d, i, p);
      SetServed(d, i, p);
      ExpiredServed(f, e, true);
      var w := Set(f, i, p.(mustDispatch := true, waitRequest := true));
      SetServed(f, i, w.queues[i]);
      OtherServed(w, w.(timer := true));
    }
  }

  lemma PickServed(c: Data, k: Conf, e: Env)
    requires Served(c) && RrInv(c)
    ensures Served(SetActive(c, k, e))
  {
    hide Served;
    if c.order != [] {
      assert c.order[0] in c.order;
      var d := First(c);
      OtherServed(c, d);
      var i := d.left.value;
      var f := Set(d, i, d.queues[i].(sliceEnd := 0, fifoExpire := false, sliceNew := true));
      SetServed(d, i, f.queues[i]);
      OtherServed(f, f.(active := Some(i)));
      OtherServed(d, d.(active := None));
    } else {
      OtherServed(c, c.(active := None));
    }
  }

  /** With its new class and key, the queue at place a is where it belongs. */
  predicate InPlace(c: Data, a: nat, q: Queue)
    requires a < |c.order| && forall b :: 0 <= b < |c.order| ==> c.order[b] < |c.queues|
  {
    && (forall b :: 0 <= b < a ==> !Earlier(q, c.queues[c.order[b]]))
    && (forall b :: a < b < |c.order| ==> !Earlier(c.queues[c.order[b]], q))
  }

  /** A change of class moves no queue: the tree stays in order exactly when the queue is not on it or
      belongs where it is. */
  lemma ClassServedIff(c: Data, i: nat, rt: bool, idle: bool)
    requires Served(c) && i < |c.queues|
    ensures Served(SetClass(c, i, rt, idle)) <==>
            forall a :: 0 <= a < |c.order| && c.order[a] == i ==> InPlace(c, a, c.queues[i].(rt := rt, idle := idle))
  {
    var q := c.queues[i].(rt := rt, idle := idle);
    var d := SetClass(c, i, rt, idle);
    if i !in c.order {
      SetServed(c, i, q);
    } else {
      var a :| 0 <= a < |c.order| && c.order[a] == i;
      hide Earlier;
      assert forall b :: 0 <= b < |c.order| && b != a ==> d.queues[c.order[b]] == c.queues[c.order[b]];
      assert d.queues[c.order[a]] == q;
      assert forall b :: 0 <= b < |c.order| && c.order[b] == i ==> b == a;
      if InPlace(c, a, q) {
        forall x, y | 0 <= x < y < |c.order| ensures !Earlier(d.queues[c.order[y]], d.queues[c.order[x]]) {
          assert x != a && y != a ==> !Earlier(c.queues[c.order[y]], c.queues[c.order[x]]);
        }
      }
      if Served(d) {
        forall b | 0 <= b < a ensures !Earlier(q, c.queues[c.order[b]]) {
          assert !Earlier(d.queues[c.order[a]], d.queues[c.order[b]]);
        }
        forall b | a < b < |c.order| ensures !Earlier(c.queues[c.order[b]], q) {
          assert !Earlier(d.queues[c.order[b]], d.queues[c.order[a]]);
        }
      }
    }
  }

  /** An idle queue with the smaller key, boosted behind a best-effort one, should come first and does not. */
  lemma BoostBreaksOrder(p: Queue, q: Queue)
    requires !p.rt && !p.idle && !q.rt && q.idle && q.key < p.key
    ensures var c := NO_QUEUES.(queues := [p, q], order := [0, 1]);
            Served(c) && !Served(SetClass(c, 1, false, false))
  {
    var c := NO_QUEUES.(queues := [p, q], order := [0, 1]);
    var d := SetClass(c, 1, false, false);
    assert Earlier(d.queues[d.order[1]], d.queues[d.order[0]]);
  }

  /** A change of class, if s is one, leaves the queue where it belongs. */
  predicate Harmless(c: Data, s: Step) {
    s.Class? && s.queue < |c.queues| && (forall b :: 0 <= b < |c.order| ==> c.order[b] < |c.queues|) ==>
      var q := c.queues[s.queue].(rt := s.newRt, idle := s.newIdle);
      forall a :: 0 <= a < |c.order| && c.order[a] == s.queue ==> InPlace(c, a, q)
  }

  lemma NextServed(c: Data, k: Conf, s: Step, d: Data)
    requires Inv(c) && Served(c) && Enabled(c, s) && Next(c, k, s, d) && Harmless(c, s)
    ensures Served(d)
  {
    hide WorkInv, RrInv, Served, InsertRequest, Reposition, MergedRequests, DispatchInsert, SetActive, SliceExpired,
      Completed, SetClass, Alias, Replace, Harmless, InPlace;
    match s
    case Open(sync, rt, idle) => OpenServed(c, Fresh(sync, rt, idle));
    case Submit(e, i, r, preempts, idles) =>
      InsertInv(c, k, e, i, r, preempts, idles);
      SubmitServed(c, k, e, i, r, preempts, idles);
    case Back(i, r, n, bio) =>
      GrownInv(c, i, r, AtBack(r, n, bio));
      SetServed(c, i, Grown(c.queues[i], r, AtBack(r, n, bio)));
    case Front(e, i, r, n, bio) =>
      RepositionInv(c, k, e, i, r, AtFront(r, n, bio));
      FrontServed(c, k, e, i, r, AtFront(r, n, bio));
    case Join(i, r, x) =>
      MergedInv(c, k, i, r, x, Both(r, x));
      JoinServed(c, k, i, r, x, Both(r, x));
    case Send(i, r) =>
      DispatchInsertInv(c, k, i, r);
      SentServed(c, k, i, r);
    case Pick(e) => PickServed(c, k, e);
    case Expire(e, timedOut) => ExpiredServed(c, e, timedOut);
    case Done(e, i, sync, slice, arms) => DoneServed(c, e, i, sync, slice, arms);
    case Class(i, rt, idle) => ClassServedIff(c, i, rt, idle); StepHarmless(c, s);
    case Seek(last) => OtherServed(c, d);
  }

  lemma StepHarmless(c: Data, s: Step)
    requires Served(c) && s.Class? && s.queue < |c.queues| && Harmless(c, s)
    ensures var q := c.queues[s.queue].(rt := s.newRt, idle := s.newIdle);
            forall a :: 0 <= a < |c.order| && c.order[a] == s.queue ==> InPlace(c, a, q)
  {
    hide InPlace, Earlier;
  }

  lemma OpenServed(c: Data, q: Queue)
    requires Served(c)
    ensures Served(c.(queues := c.queues + [q]))
  {
    hide Earlier;
    assert forall a :: 0 <= a < |c.order| ==> (c.queues + [q])[c.order[a]] == c.queues[c.order[a]];
  }

  /** In every run whose changes of class are those of ClassServedIff the service tree is in order. */
  lemma {:induction false} RunServed(cs: seq<Data>, k: Conf, ss: seq<Step>)
    requires Run(cs, k, ss) && Inv(cs[0]) && Served(cs[0])
    requires forall j :: 0 <= j < |ss| ==> Harmless(cs[j], ss[j])
    ensures Served(cs[|ss|])
  {
    hide Inv, Enabled, Next, Served, Harmless;
    if ss != [] {
      var n := |ss| - 1;
      RunServed(cs[..n + 1], k, ss[..n]);
      NextServed(cs[n], k, ss[n], cs[n + 1]);
    }
  }

  /** So the queue that is picked next is one that no queue with requests should be served before. */
  lemma FirstIsBest(c: Data, i: nat)
    requires Inv(c) && Served(c) && i < |c.queues| && c.queues[i].sort != []
    ensures c.order != [] && c.order[0] < |c.queues| && !Earlier(c.queues[i], c.queues[c.order[0]])
  {
    hide WorkInv, Earlier;
    assert i in c.order;
    var a :| 0 <= a < |c.order| && c.order[a] == i;
    BehindIn(c.order, 0, a, c.queues);
  }
}
