/** Runs of the CFQ scheduler, and the loops that empty it. */
module CfqDrain {
  import opened Options
  import opened SectorTree
  import opened Cfq
  import opened CfqSafety
  import opened CfqRuns
  import opened CfqMerges

  // ---- what is queued ----

  /** How often the queues hold a bio. */
  ghost function HeldQ(qs: seq<Queue>, b: nat): nat {
    if qs == [] then 0 else Held(qs[0].sort, b) + HeldQ(qs[1..], b)
  }

  ghost function Total(c: Data, b: nat): nat { Held(c.out, b) + HeldQ(c.queues, b) }

  /** How many requests are queued. */
  ghost function Pending(qs: seq<Queue>): nat {
    if qs == [] then 0 else |qs[0].sort| + Pending(qs[1..])
  }

  /** Only the tree of queue i changed, to s. */
  ghost predicate Change(qs: seq<Queue>, rs: seq<Queue>, i: nat, s: seq<Rq>) {
    && i < |qs| == |rs| && rs[i].sort == s
    && forall j :: 0 <= j < |qs| && j != i ==> rs[j].sort == qs[j].sort
  }

  lemma {:induction false} HeldSame(qs: seq<Queue>, rs: seq<Queue>, b: nat)
    requires |qs| == |rs| && forall i :: 0 <= i < |qs| ==> rs[i].sort == qs[i].sort
    ensures HeldQ(rs, b) == HeldQ(qs, b) && Pending(rs) == Pending(qs)
  {
    if qs != [] {
      HeldSame(qs[1..], rs[1..], b);
    }
  }

  lemma {:induction false} HeldChange(qs: seq<Queue>, rs: seq<Queue>, i: nat, s: seq<Rq>, b: nat)
    requires Change(qs, rs, i, s)
    ensures HeldQ(rs, b) + Held(qs[i].sort, b) == HeldQ(qs, b) + Held(s, b)
    ensures Pending(rs) + |qs[i].sort| == Pending(qs) + |s|
  {
    if i == 0 {
      HeldSame(qs[1..], rs[1..], b);
    } else {
      HeldChange(qs[1..], rs[1..], i - 1, s, b);
    }
  }

  lemma SortsTotal(c: Data, d: Data, b: nat)
    requires Sorts(c, d)
    ensures Total(d, b) == Total(c, b) && Pending(d.queues) == Pending(c.queues)
  {
    HeldSame(c.queues, d.queues, b);
  }

  /** A dispatch takes one request out of a tree and puts it on the dispatch list. */
  lemma SentChange(c: Data, k: Conf, i: nat, r: Rq)
    requires i < |c.queues| && r in c.queues[i].sort && r in c.queues[i].fifo
    ensures var d := DispatchInsert(c, k, i, r);
            Change(c.queues, d.queues, i, Without(c.queues[i].sort, r)) && d.out == c.out + [r]
  {
    hide Without, FindNext;
  }

  lemma SentTotal(c: Data, k: Conf, i: nat, r: Rq, b: nat)
    requires i < |c.queues| && r in c.queues[i].sort && r in c.queues[i].fifo
    ensures Total(DispatchInsert(c, k, i, r), b) == Total(c, b)
    ensures Pending(DispatchInsert(c, k, i, r).queues) + 1 == Pending(c.queues)
  {
    hide Without, Held, HeldQ, Pending, DispatchInsert;
    SentChange(c, k, i, r);
    HeldChange(c.queues, DispatchInsert(c, k, i, r).queues, i, Without(c.queues[i].sort, r), b);
    HeldWithout(c.queues[i].sort, r, b);
    HeldAppend(c.out, [r], b);
    HeldOne(r, b);
    ShorterBy(c.queues[i].sort, r);
  }

  lemma ShorterBy(s: seq<Rq>, r: Rq)
    requires r in s
    ensures |Without(s, r)| == |s| - 1
  {
  }

  lemma LinkTotal(c: Data, k: Conf, e: Env, i: nat, r: Rq, b: nat)
    requires InvBut(c, i) && EnvOk(e)
    ensures Total(LinkRq(c, k, e, i, r), b) == Total(c, b) + Occurs(r.bios, b)
  {
    hide LinkRq, Given, WorkInv, RrInv, Place, Insert, Held, HeldQ, Pending;
    LinkBut(c, k, e, i, r);
    GivenOn(k, c.last, c.queues[i], r);
    var s := Insert(c.queues[i].sort, Place(c.queues[i].sort, r.sector), r);
    HeldChange(c.queues, LinkRq(c, k, e, i, r).queues, i, s, b);
    HeldInsert(c.queues[i].sort, Place(c.queues[i].sort, r.sector), r, b);
  }

  lemma ClearTotal(c: Data, k: Conf, i: nat, sector: nat, b: nat)
    requires i < |c.queues|
    requires Alias(c.queues[i].sort, sector).Some? ==> Alias(c.queues[i].sort, sector).value in c.queues[i].fifo
    ensures Total(Clear(c, k, i, sector), b) == Total(c, b)
  {
    hide DispatchInsert, Place, Total;
    if Alias(c.queues[i].sort, sector).Some? {
      SentTotal(c, k, i, Alias(c.queues[i].sort, sector).value, b);
    }
  }

  lemma InsertTotal(c: Data, k: Conf, e: Env, i: nat, r: Rq, preempts: bool, idles: bool, b: nat)
    requires Inv(c) && EnvOk(e) && i < |c.queues|
    ensures Alias(c.queues[i].sort, r.sector).Some? ==> Alias(c.queues[i].sort, r.sector).value in c.queues[i].fifo
    ensures Total(InsertRequest(c, k, e, i, r, preempts, idles), b) == Total(c, b) + Occurs(r.bios, b)
  {
    hide Clear, LinkRq, Enqueued, WorkInv, RrInv, Alias, Total;
    ClearInv(c, k, i, r.sector);
    ClearTotal(c, k, i, r.sector, b);
    var d := Clear(c, k, i, r.sector);
    LinkedInv(d, k, e, i, r);
    InvToBut(d, i);
    LinkBut(d, k, e, i, r);
    LinkTotal(d, k, e, i, r, b);
    var l := LinkRq(d, k, e, i, r);
    var m := Set(l, i, Listing(l.queues[i], r));
    SortsTotal(l, m, b);
    EnqueuedInv(m, e, i, preempts, idles);
    SortsTotal(m, Enqueued(m, e, i, preempts, idles), b);
  }

  lemma RepositionTotal(c: Data, k: Conf, e: Env, i: nat, r: Rq, q: Rq, b: nat)
    requires Inv(c) && EnvOk(e) && i < |c.queues| && r in c.queues[i].sort && q.sync == r.sync && q.meta == r.meta
    ensures r in c.queues[i].fifo
    ensures Alias(Without(c.queues[i].sort, r), q.sector).Some? ==>
              var a := Alias(Without(c.queues[i].sort, r), q.sector).value; a in c.queues[i].fifo && a != r
    ensures Total(Reposition(c, k, e, i, r, q), b) + Occurs(r.bios, b) == Total(c, b) + Occurs(q.bios, b)
  {
    hide WorkInv, RrInv, Without, Clear, LinkRq, Alias, Total, Replace;
    RepositionInv(c, k, e, i, r, q);
    InvToBut(c, i);
    var u := Unlinked(c.queues[i], r);
    var c0 := Set(c, i, u);
    UnlinkedTotal(c, i, r, b);
    ClearTotal(c0, k, i, q.sector, b);
    var d := Clear(c0, k, i, q.sector);
    MiddleBut(c, k, i, r, q.sector);
    var f := Set(d, i, Renamed(d.queues[i], r, q));
    SetBut(d, i, Renamed(d.queues[i], r, q));
    SortsTotal(d, f, b);
    LinkTotal(f, k, e, i, q, b);
  }

  lemma UnlinkedTotal(c: Data, i: nat, r: Rq, b: nat)
    requires i < |c.queues| && r in c.queues[i].sort
    ensures Total(Set(c, i, Unlinked(c.queues[i], r)), b) + Occurs(r.bios, b) == Total(c, b)
  {
    hide Held, HeldQ, Without, Occurs, Pending;
    HeldChange(c.queues, Set(c, i, Unlinked(c.queues[i], r)).queues, i, Without(c.queues[i].sort, r), b);
    HeldWithout(c.queues[i].sort, r, b);
  }

  /** The state a reposition passes through, and that its request is still on the list there. */
  lemma MiddleBut(c: Data, k: Conf, i: nat, r: Rq, sector: nat)
    requires Inv(c) && i < |c.queues| && r in c.queues[i].sort
    ensures var c0 := Set(c, i, Unlinked(c.queues[i], r));
            && (Alias(c0.queues[i].sort, sector).Some? ==> Alias(c0.queues[i].sort, sector).value in c0.queues[i].fifo)
            && InvBut(Clear(c0, k, i, sector), i) && r in Clear(c0, k, i, sector).queues[i].fifo
  {
    hide WorkInv, RrInv, Without, DispatchInsert, Alias, Taken, Almost;
    var p := c.queues[i];
    InvToBut(c, i);
    UnlinkedAlmost(p, r);
    var u := Unlinked(p, r);
    AlmostFifo(u, r);
    var c0 := Set(c, i, u);
    SetBut(c, i, u);
    var a := Alias(u.sort, sector);
    if a.Some? {
      AlmostAlias(u, r, a.value, sector);
      SentBut(c0, k, i, a.value);
      TakenOn(k, c0.last, u, a.value);
      StillThere(u.fifo, r, a.value);
    }
  }

  lemma MergedTotal(c: Data, k: Conf, i: nat, r: Rq, x: Rq, q: Rq, b: nat)
    requires Inv(c) && i < |c.queues| && r in c.queues[i].sort && x in c.queues[i].sort && r != x
    requires q.sector == r.sector && q.sync == r.sync && q.meta == r.meta && q.bios == r.bios + x.bios
    ensures r in c.queues[i].fifo && x in c.queues[i].fifo
    ensures Total(MergedRequests(c, k, i, r, x, q), b) == Total(c, b)
  {
    hide MergedRequests, Without, Replace, Held, HeldQ, Occurs, Pending, WorkInv, RrInv;
    MergedInv(c, k, i, r, x, q);
    ChangedKeeps(c.queues[i].sort, r, q, x);
    var s := Without(Replace(c.queues[i].sort, r, q), x);
    HeldChange(c.queues, MergedRequests(c, k, i, r, x, q).queues, i, s, b);
    HeldReplace(c.queues[i].sort, r, q, b);
    HeldWithout(Replace(c.queues[i].sort, r, q), x, b);
    OccursAppend(r.bios, x.bios, b);
  }

  // ---- back merges ----

  /** A bio joined at the back: the hook does nothing. */
  function Grown(p: Queue, r: Rq, q: Rq): Queue
    requires r in p.sort && r in p.fifo
  {
    p.(fifo := Replace(p.fifo, r, q), sort := Replace(p.sort, r, q),
       next := if p.next == Some(r) then Some(q) else p.next)
  }

  lemma GrownListed(p: Queue, r: Rq, q: Rq)
    requires Listed(p) && r in p.sort && r in p.fifo && q.sector == r.sector
    ensures Listed(Grown(p, r, q))
  {
    hide *;
    ListedParts(p);
    ReplacedSort(p.sort, r, q);
    ReplaceIn(p.fifo, r, q);
    StillAgree(p.fifo, p.sort, Replace(p.fifo, r, q), Replace(p.sort, r, q), r, q);
    GrownFields(p, r, q);
    assert q in Replace(p.sort, r, q);
    PartsListed(Grown(p, r, q));
  }

  lemma GrownFields(p: Queue, r: Rq, q: Rq)
    requires r in p.sort && r in p.fifo
    ensures var g := Grown(p, r, q);
            && g.fifo == Replace(p.fifo, r, q) && g.sort == Replace(p.sort, r, q)
            && g.next == if p.next == Some(r) then Some(q) else p.next
  {
  }

  lemma GrownInv(c: Data, i: nat, r: Rq, q: Rq)
    requires Inv(c) && i < |c.queues| && r in c.queues[i].sort
    requires q.sector == r.sector && q.sync == r.sync && q.meta == r.meta
    ensures r in c.queues[i].fifo && Inv(Set(c, i, Grown(c.queues[i], r, q)))
    ensures var d := Set(c, i, Grown(c.queues[i], r, q));
            forall b :: Total(d, b) + Occurs(r.bios, b) == Total(c, b) + Occurs(q.bios, b)
  {
    hide Replace, RrInv, Listed, Count, Held, HeldQ, Occurs, Pending;
    var p := c.queues[i];
    InvToBut(c, i);
    ListedParts(p);
    GrownListed(p, r, q);
    CountReplace(p.sort, r, q, IsSync);
    CountReplace(p.sort, r, q, IsAsync);
    CountReplace(p.sort, r, q, IsMeta);
    var g := Grown(p, r, q);
    SetBut(c, i, g);
    assert g.sort != [] by {
      ReplacedLength(p.sort, r, q);
    }
    InvFrom(Set(c, i, g), i);
    forall b ensures Total(Set(c, i, g), b) + Occurs(r.bios, b) == Total(c, b) + Occurs(q.bios, b) {
      HeldChange(c.queues, Set(c, i, g).queues, i, g.sort, b);
      HeldReplace(p.sort, r, q, b);
    }
  }

  lemma ReplacedLength(s: seq<Rq>, r: Rq, q: Rq)
    requires r in s
    ensures |Replace(s, r, q)| == |s| > 0
  {
  }

  // ---- runs ----

  /** What can happen to the scheduler.  Send and Pick are the steps dispatching is made of. */
  datatype Step =
    | Open(sync: bool, rt: bool, idle: bool)
    | Submit(env: Env, queue: nat, rq: Rq, preempts: bool, idles: bool)
    | Back(queue: nat, rq: Rq, sectors: nat, bio: nat)
    | Front(env: Env, queue: nat, rq: Rq, sectors: nat, bio: nat)
    | Join(queue: nat, rq: Rq, absorbed: Rq)
    | Send(queue: nat, rq: Rq)
    | Pick(env: Env)
    | Expire(env: Env, timedOut: bool)
    | Done(env: Env, queue: nat, ofSync: bool, slice: nat, arms: bool)
    | Class(queue: nat, newRt: bool, newIdle: bool)
    | Seek(last: nat)

  const NO_QUEUES := Data([], [], None, 0, None, false, 0, 0, 0, [])

  /** cfq_get_queue: a new queue. */
  function Fresh(sync: bool, rt: bool, idle: bool): Queue {
    Queue([], [], None, 0, 0, 0, false, 0, rt, idle, sync, 0, 0, 0, false, sync && !idle, false, false, false)
  }

  ghost predicate Holds(c: Data, i: nat, r: Rq) { i < |c.queues| && r in c.queues[i].sort }

  ghost predicate Enabled(c: Data, s: Step) {
    match s
    case Open(_, _, _) => true
    case Submit(e, i, _, _, _) => EnvOk(e) && i < |c.queues|
    case Back(i, r, _, _) => Holds(c, i, r)
    case Front(e, i, r, n, _) => EnvOk(e) && Holds(c, i, r) && n <= r.sector
    case Join(i, r, x) => Holds(c, i, r) && Holds(c, i, x) && r != x
    case Send(i, r) => Holds(c, i, r)
    case Pick(e) => EnvOk(e)
    case Expire(e, _) => EnvOk(e)
    case Done(e, i, _, _, _) => EnvOk(e) && i < |c.queues|
    case Class(i, _, _) => i < |c.queues|
    case Seek(_) => true
  }

  function AtBack(r: Rq, n: nat, bio: nat): Rq { r.(nr := r.nr + n, bios := r.bios + [bio]) }

  function AtFront(r: Rq, n: nat, bio: nat): Rq
    requires n <= r.sector
  {
    r.(sector := r.sector - n, nr := r.nr + n, bios := [bio] + r.bios)
  }

  function Both(r: Rq, x: Rq): Rq { r.(nr := r.nr + x.nr, bios := r.bios + x.bios) }

  ghost predicate Next(c: Data, k: Conf, s: Step, d: Data)
    requires Inv(c) && Enabled(c, s)
  {
    match s
    case Open(sync, rt, idle) => d == c.(queues := c.queues + [Fresh(sync, rt, idle)])
    case Submit(e, i, r, preempts, idles) =>
      InsertInv(c, k, e, i, r, preempts, idles);
      d == InsertRequest(c, k, e, i, r, preempts, idles)
    case Back(i, r, n, bio) =>
      GrownInv(c, i, r, AtBack(r, n, bio));
      d == Set(c, i, Grown(c.queues[i], r, AtBack(r, n, bio)))
    case Front(e, i, r, n, bio) =>
      RepositionInv(c, k, e, i, r, AtFront(r, n, bio));
      d == Reposition(c, k, e, i, r, AtFront(r, n, bio))
    case Join(i, r, x) =>
      MergedInv(c, k, i, r, x, Both(r, x));
      d == MergedRequests(c, k, i, r, x, Both(r, x))
    case Send(i, r) =>
      DispatchInsertInv(c, k, i, r);
      d == DispatchInsert(c, k, i, r)
    case Pick(e) => d == SetActive(c, k, e)
    case Expire(e, timedOut) => d == SliceExpired(c, e, timedOut)
    case Done(e, i, sync, slice, arms) => d == Completed(c, e, i, sync, slice, arms)
    case Class(i, rt, idle) => d == SetClass(c, i, rt, idle)
    case Seek(last) => d == c.(last := last)
  }

  ghost function Brings(s: Step): seq<nat> {
    match s
    case Submit(_, _, r, _, _) => r.bios
    case Back(_, _, _, bio) => [bio]
    case Front(_, _, _, _, bio) => [bio]
    case _ => []
  }

  lemma OpenInv(c: Data, q: Queue)
    requires Inv(c) && q.sort == [] && q.fifo == [] && q.next.None? && !q.onRr
      && q.queuedSync == q.queuedAsync == q.metas == 0
    ensures Inv(c.(queues := c.queues + [q]))
  {
    hide Count;
    assert WorkInv(q) by {
      NoCount(IsSync);
      NoCount(IsAsync);
      NoCount(IsMeta);
    }
  }

  lemma NoCount(k: Kind)
    ensures Count([], k) == 0
  {
  }

  lemma {:induction false} OpenTotal(qs: seq<Queue>, q: Queue, b: nat)
    requires q.sort == []
    ensures HeldQ(qs + [q], b) == HeldQ(qs, b)
  {
    if qs == [] {
      assert [q][1..] == [];
    } else {
      assert (qs + [q])[1..] == qs[1..] + [q];
      OpenTotal(qs[1..], q, b);
    }
  }

  lemma NextInv(c: Data, k: Conf, s: Step, d: Data)
    requires Inv(c) && Enabled(c, s) && Next(c, k, s, d)
    ensures Inv(d)
  {
    hide WorkInv, RrInv, InsertRequest, Reposition, MergedRequests, DispatchInsert, SetActive, SliceExpired,
      Completed, SetClass, Grown;
    match s
    case Open(sync, rt, idle) => OpenInv(c, Fresh(sync, rt, idle));
    case Submit(e, i, r, preempts, idles) => InsertInv(c, k, e, i, r, preempts, idles);
    case Back(i, r, n, bio) => GrownInv(c, i, r, AtBack(r, n, bio));
    case Front(e, i, r, n, bio) => RepositionInv(c, k, e, i, r, AtFront(r, n, bio));
    case Join(i, r, x) => MergedInv(c, k, i, r, x, Both(r, x));
    case Send(i, r) => DispatchInsertInv(c, k, i, r);
    case Pick(e) => SetActiveInv(c, k, e);
    case Expire(e, timedOut) => ExpiredInv(c, e, timedOut);
    case Done(e, i, sync, slice, arms) => CompletedInv(c, e, i, sync, slice, arms);
    case Class(i, rt, idle) => SetClassInv(c, i, rt, idle);
    case Seek(last) => OutInv(c, d);
  }

  lemma NextTotal(c: Data, k: Conf, s: Step, d: Data, b: nat)
    requires Inv(c) && Enabled(c, s) && Next(c, k, s, d)
    ensures Total(d, b) == Total(c, b) + Occurs(Brings(s), b)
  {
    hide WorkInv, RrInv, InsertRequest, Reposition, MergedRequests, DispatchInsert, SetActive, SliceExpired,
      Completed, SetClass, Grown, Total;
    match s
    case Open(sync, rt, idle) =>
      OpenTotal(c.queues, Fresh(sync, rt, idle), b);
      SameOut(c, d, b);
    case Submit(e, i, r, preempts, idles) => InsertTotal(c, k, e, i, r, preempts, idles, b);
    case Back(i, r, n, bio) =>
      GrownInv(c, i, r, AtBack(r, n, bio));
      OccursAppend(r.bios, [bio], b);
    case Front(e, i, r, n, bio) =>
      RepositionTotal(c, k, e, i, r, AtFront(r, n, bio), b);
      OccursAppend([bio], r.bios, b);
    case Join(i, r, x) => MergedTotal(c, k, i, r, x, Both(r, x), b);
    case Send(i, r) =>
      DispatchInsertInv(c, k, i, r);
      SentTotal(c, k, i, r, b);
    case Pick(e) =>
      SetActiveInv(c, k, e);
      SortsTotal(c, d, b);
    case Expire(e, timedOut) =>
      ExpiredInv(c, e, timedOut);
      SortsTotal(c, d, b);
    case Done(e, i, sync, slice, arms) =>
      CompletedInv(c, e, i, sync, slice, arms);
      SortsTotal(c, d, b);
    case Class(i, rt, idle) =>
      SetClassInv(c, i, rt, idle);
      SortsTotal(c, d, b);
    case Seek(last) => SameOut(c, d, b);
  }

  lemma SameOut(c: Data, d: Data, b: nat)
    requires d.out == c.out && HeldQ(d.queues, b) == HeldQ(c.queues, b)
    ensures Total(d, b) == Total(c, b)
  {
  }

  /** The states a run goes through. */
  ghost predicate Run(cs: seq<Data>, k: Conf, ss: seq<Step>) {
    && |cs| == |ss| + 1
    && forall j :: 0 <= j < |ss| ==> Inv(cs[j]) && Enabled(cs[j], ss[j]) && Next(cs[j], k, ss[j], cs[j + 1])
  }

  ghost function Brought(ss: seq<Step>, b: nat): nat {
    if ss == [] then 0 else Brought(ss[..|ss| - 1], b) + Occurs(Brings(ss[|ss| - 1]), b)
  }

  lemma {:induction false} RunInv(cs: seq<Data>, k: Conf, ss: seq<Step>)
    requires Run(cs, k, ss) && Inv(cs[0])
    ensures Inv(cs[|ss|])
    ensures forall b :: Total(cs[|ss|], b) == Total(cs[0], b) + Brought(ss, b)
  {
    hide Inv, Enabled, Next, Total;
    if ss != [] {
      var n := |ss| - 1;
      RunInv(cs[..n + 1], k, ss[..n]);
      NextInv(cs[n], k, ss[n], cs[n + 1]);
      forall b ensures Total(cs[n + 1], b) == Total(cs[0], b) + Brought(ss, b) {
        NextTotal(cs[n], k, ss[n], cs[n + 1], b);
      }
    }
  }

  /** A run can go on with any step that is enabled: asking for the invariant excludes no run. */
  lemma RunExtends(cs: seq<Data>, k: Conf, ss: seq<Step>, s: Step, d: Data)
    requires Run(cs, k, ss) && Inv(cs[0]) && Enabled(cs[|ss|], s)
    ensures Inv(cs[|ss|]) && (Next(cs[|ss|], k, s, d) ==> Run(cs + [d], k, ss + [s]))
  {
    hide Inv, Enabled, Next, Total;
    RunInv(cs, k, ss);
  }

  /** What the structures of one queue and of the service tree say about each other. */
  ghost predicate Agreement(c: Data) {
    && (forall i :: 0 <= i < |c.queues| ==> QueueAgrees(c.queues[i]))
    && c.busy == |c.order| && (forall i :: 0 <= i < |c.queues| ==> (c.queues[i].onRr <==> i in c.order))
    && (c.left.None? || (c.order != [] && c.left.value == c.order[0]))
  }

  ghost predicate QueueAgrees(q: Queue) {
    && (q.next.None? <==> q.sort == []) && (q.next.Some? ==> q.next.value in q.sort)
    && q.queuedSync == Count(q.sort, IsSync) && q.queuedAsync == Count(q.sort, IsAsync)
    && q.metas == Count(q.sort, IsMeta)
    && q.queuedSync + q.queuedAsync == |q.sort| && (q.onRr <==> q.sort != [])
    && (forall r :: r in q.fifo <==> r in q.sort)
  }

  lemma {:induction false} CountAll(s: seq<Rq>)
    ensures Count(s, IsSync) + Count(s, IsAsync) == |s|
  {
    if s != [] {
      CountAll(s[1..]);
    }
  }

  /** In every reachable state the structures agree and no bio has been lost or doubled. */
  lemma CfqAgrees(cs: seq<Data>, k: Conf, ss: seq<Step>)
    requires Run(cs, k, ss) && cs[0] == NO_QUEUES
    ensures Agreement(cs[|ss|])
    ensures forall b :: Total(cs[|ss|], b) == Brought(ss, b)
  {
    hide Brought;
    RunInv(cs, k, ss);
    var c := cs[|ss|];
    forall i | 0 <= i < |c.queues| ensures QueueAgrees(c.queues[i]) {
      CountAll(c.queues[i].sort);
    }
  }
}
