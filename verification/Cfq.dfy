/** block/cfq-iosched.c: the structures of the CFQ scheduler that have to agree. */
module Cfq {
  import opened Options
  import opened SectorTree
  import opened RbTree

  /** struct cfq_queue */
  datatype Queue = Queue(sort: seq<Rq>, fifo: seq<Rq>, next: Option<Rq>, queuedSync: int, queuedAsync: int,
                         metas: int, onRr: bool, key: int, rt: bool, idle: bool, sync: bool, dispatched: int,
                         resid: int, sliceEnd: int, sliceNew: bool, idleWindow: bool, mustDispatch: bool,
                         waitRequest: bool, fifoExpire: bool)

  /** struct cfq_data: the service tree in order and its cached leftmost node, the queues by number, and
      the dispatch list. */
  datatype Data = Data(queues: seq<Queue>, order: seq<nat>, left: Option<nat>, busy: int, active: Option<nat>,
                       timer: bool, syncFlight: int, last: nat, lastEnd: int, out: seq<Rq>)

  datatype Conf = Conf(quantum: int, backMax: nat, backPenalty: nat, expireSync: int, expireAsync: int, idleGrace: int)

  /** What a call finds outside: the clock, the shape the red-black code gives a tree with a given
      order, the slice offset of a queue when so many are busy, the most requests of an async slice. */
  datatype Env = Env(now: int, shape: seq<nat> -> Tree<nat>, offset: (int, nat) -> int, maxRq: nat -> int)

  ghost predicate EnvOk(e: Env) { forall s :: Inorder(e.shape(s)) == s }

  // ---- which request next ----

  datatype Far = Near(d: nat) | Behind

  /** Distance from the head; short backward seeks are allowed at a penalty. */
  function Distance(c: Conf, last: nat, sector: nat): Far {
    if sector >= last then Near(sector - last)
    else if sector + c.backMax * 2 >= last then Near((last - sector) * c.backPenalty)
    else Behind
  }

  /** cfq_choose_req */
  function Choose(c: Conf, last: nat, a: Option<Rq>, b: Option<Rq>): Option<Rq> {
    if a.None? || a == b then b
    else if b.None? then a
    else
      var (x, y) := (a.value, b.value);
      if x.sync && !y.sync then a
      else if y.sync && !x.sync then b
      else if x.meta && !y.meta then a
      else if y.meta && !x.meta then b
      else match (Distance(c, last, x.sector), Distance(c, last, y.sector))
        case (Near(d), Near(e)) => if d < e then a else if e < d then b else if x.sector >= y.sector then a else b
        case (Near(_), Behind) => a
        case (Behind, Near(_)) => b
        case (Behind, Behind) => if x.sector <= y.sector then a else b
  }

  /** The elevator order of requests around the head: sync before async, metadata before data, ahead of
      the head before behind it, nearest first, and the furthest behind first when both are. */
  predicate Before(c: Conf, last: nat, x: Rq, y: Rq) {
    if x.sync != y.sync then x.sync
    else if x.meta != y.meta then x.meta
    else match (Distance(c, last, x.sector), Distance(c, last, y.sector))
      case (Near(d), Near(e)) => d < e || (d == e && x.sector > y.sector)
      case (Near(_), Behind) => true
      case (Behind, Near(_)) => false
      case (Behind, Behind) => x.sector < y.sector
  }

  /** The choice is one of the two, and neither comes before it. */
  lemma ChooseBest(c: Conf, last: nat, a: Option<Rq>, b: Option<Rq>)
    ensures Choose(c, last, a, b) == a || Choose(c, last, a, b) == b
    ensures Choose(c, last, a, b).None? <==> a.None? && b.None?
    ensures var r := Choose(c, last, a, b);
            r.Some? ==>
              (a.Some? ==> !Before(c, last, a.value, r.value)) && (b.Some? ==> !Before(c, last, b.value, r.value))
  {
  }

  /** Sector order decides: of any set of requests, any way of choosing pairwise ends at one that none
      comes before. */
  lemma BeforeTransitive(c: Conf, last: nat, x: Rq, y: Rq, z: Rq)
    requires !Before(c, last, y, x) && !Before(c, last, z, y)
    ensures !Before(c, last, z, x)
  {
    var _ := (Distance(c, last, x.sector), Distance(c, last, y.sector), Distance(c, last, z.sector));
    hide Distance;
  }

  /** cfq_find_next_rq, before the last one is unlinked */
  function FindNext(c: Conf, last: nat, s: seq<Rq>, r: Rq): Option<Rq>
    requires r in s
  {
    var p := Pos(s, r);
    var prev := if p > 0 then Some(s[p - 1]) else None;
    var next := if p + 1 < |s| then Some(s[p + 1]) else if s[0] != r then Some(s[0]) else None;
    Choose(c, last, next, prev)
  }

  // ---- counting ----

  datatype Kind = IsSync | IsAsync | IsMeta

  predicate Is(k: Kind, r: Rq) {
    match k
    case IsSync => r.sync
    case IsAsync => !r.sync
    case IsMeta => r.meta
  }

  function One(k: Kind, r: Rq): nat { if Is(k, r) then 1 else 0 }

  function Count(s: seq<Rq>, k: Kind): nat { if s == [] then 0 else One(k, s[0]) + Count(s[1..], k) }

  // ---- the service tree ----

  function Set(c: Data, i: nat, q: Queue): Data
    requires i < |c.queues|
  {
    c.(queues := c.queues[i := q])
  }

  /** Whether the descent for a queue with this key turns left at queue m. */
  predicate TurnsLeft(q: Queue, key: int, m: Queue) {
    if q.rt != m.rt then q.rt
    else if q.idle != m.idle then m.idle
    else key < m.key
  }

  /** The descent of cfq_service_tree_add: the in-order position of the new leaf. */
  function Descend(t: Tree<nat>, qs: seq<Queue>, q: Queue, key: int): nat {
    match t
    case Leaf => 0
    case Node(l, m, r) =>
      if m < |qs| && TurnsLeft(q, key, qs[m]) then Descend(l, qs, q, key)
      else |Inorder(l)| + 1 + Descend(r, qs, q, key)
  }

  lemma {:induction false} DescendInside(t: Tree<nat>, qs: seq<Queue>, q: Queue, key: int)
    ensures Descend(t, qs, q, key) <= |Inorder(t)|
  {
    match t
    case Leaf =>
    case Node(l, m, r) =>
      DescendInside(l, qs, q, key);
      DescendInside(r, qs, q, key);
  }

  /** cfq_rb_erase */
  function Erase(c: Data, i: nat): Data
    requires i in c.order
  {
    c.(left := if c.left == Some(i) then None else c.left, order := Without(c.order, i))
  }

  /** The insertion of cfq_service_tree_add: a leaf that only turned left is cached. */
  function LinkQueue(c: Data, e: Env, i: nat, key: int): (d: Data)
    requires i < |c.queues| && EnvOk(e)
    ensures |d.queues| == |c.queues| && d.active == c.active && d.last == c.last
  {
    var t := e.shape(c.order);
    var p := Descend(t, c.queues, c.queues[i], key);
    DescendInside(t, c.queues, c.queues[i], key);
    Set(c.(order := Insert(c.order, p, i), left := if p == 0 then Some(i) else c.left), i, c.queues[i].(key := key))
  }

  /** cfq_service_tree_add */
  function TreeAdd(c: Data, e: Env, i: nat, front: bool): (d: Data)
    requires i < |c.queues| && EnvOk(e)
    ensures |d.queues| == |c.queues| && d.active == c.active && d.last == c.last
  {
    var q := c.queues[i];
    var key := if front then 0 else e.offset(c.busy, i) + e.now + q.resid;
    var d := Set(c, i, if front then q else q.(resid := 0));
    if i !in c.order then LinkQueue(d, e, i, key)
    else if key == q.key then d
    else LinkQueue(Erase(d, i), e, i, key)
  }

  /** cfq_resort_rr_list */
  function Resort(c: Data, e: Env, i: nat): (d: Data)
    requires i < |c.queues| && EnvOk(e)
    ensures |d.queues| == |c.queues| && d.active == c.active && d.last == c.last
  {
    if c.queues[i].onRr then TreeAdd(c, e, i, false) else c
  }

  /** cfq_add_cfqq_rr */
  function AddRr(c: Data, e: Env, i: nat): (d: Data)
    requires i < |c.queues| && EnvOk(e)
    ensures |d.queues| == |c.queues| && d.active == c.active && d.last == c.last
  {
    Resort(Set(c, i, c.queues[i].(onRr := true)).(busy := c.busy + 1), e, i)
  }

  /** cfq_del_cfqq_rr */
  function DelRr(c: Data, i: nat): (d: Data)
    requires i < |c.queues|
    ensures |d.queues| == |c.queues| && d.active == c.active && d.last == c.last
  {
    var d := Set(c, i, c.queues[i].(onRr := false)).(busy := c.busy - 1);
    if i in d.order then Erase(d, i) else d
  }

  // ---- requests ----

  /** The queue without a request: cfq_remove_request and cfq_del_rq_rb as far as the queue goes. */
  function Taken(c: Conf, last: nat, q: Queue, r: Rq): Queue
    requires r in q.sort && r in q.fifo
  {
    q.(next := if q.next == Some(r) then FindNext(c, last, q.sort, r) else q.next,
       fifo := Without(q.fifo, r), sort := Without(q.sort, r),
       queuedSync := q.queuedSync - One(IsSync, r), queuedAsync := q.queuedAsync - One(IsAsync, r),
       metas := q.metas - One(IsMeta, r))
  }

  /** cfq_remove_request */
  function Remove(c: Data, k: Conf, i: nat, r: Rq): (d: Data)
    requires i < |c.queues| && r in c.queues[i].sort && r in c.queues[i].fifo
    ensures |d.queues| == |c.queues| && d.active == c.active && d.last == c.last
  {
    var q := Taken(k, c.last, c.queues[i], r);
    var d := Set(c, i, q);
    if q.onRr && q.sort == [] then DelRr(d, i) else d
  }

  /** cfq_dispatch_insert */
  function DispatchInsert(c: Data, k: Conf, i: nat, r: Rq): (d: Data)
    requires i < |c.queues| && r in c.queues[i].sort && r in c.queues[i].fifo
    ensures |d.queues| == |c.queues| && d.active == c.active && d.last == c.last
  {
    var d := Remove(c, k, i, r);
    var q := d.queues[i];
    Set(d, i, q.(dispatched := q.dispatched + 1))
      .(out := d.out + [r], syncFlight := d.syncFlight + if q.sync then 1 else 0)
  }

  /** What cfq_add_rq_rb does to the queue once nothing is in the way. */
  function Given(c: Conf, last: nat, q: Queue, r: Rq): Queue {
    q.(sort := Insert(q.sort, Place(q.sort, r.sector), r), next := Choose(c, last, q.next, Some(r)),
       queuedSync := q.queuedSync + One(IsSync, r), queuedAsync := q.queuedAsync + One(IsAsync, r))
  }

  /** The retry of cfq_add_rq_rb: what sits at the same sector is dispatched. */
  function Clear(c: Data, k: Conf, i: nat, sector: nat): (d: Data)
    requires i < |c.queues|
    requires Alias(c.queues[i].sort, sector).Some? ==> Alias(c.queues[i].sort, sector).value in c.queues[i].fifo
    ensures |d.queues| == |c.queues| && d.active == c.active && d.last == c.last
  {
    match Alias(c.queues[i].sort, sector)
    case None => c
    case Some(a) => DispatchInsert(c, k, i, a)
  }

  /** The rest of cfq_add_rq_rb. */
  function LinkRq(c: Data, k: Conf, e: Env, i: nat, r: Rq): (d: Data)
    requires i < |c.queues| && EnvOk(e)
    ensures |d.queues| == |c.queues| && d.active == c.active && d.last == c.last
  {
    var g := Set(c, i, Given(k, c.last, c.queues[i], r));
    if g.queues[i].onRr then g else AddRr(g, e, i)
  }

  /** cfq_reposition_rq_rb after a front merge made r into q: out of the tree, next_rq still pointing,
      and in again. */
  function Reposition(c: Data, k: Conf, e: Env, i: nat, r: Rq, q: Rq): Data
    requires i < |c.queues| && EnvOk(e) && r in c.queues[i].sort && r in c.queues[i].fifo
    requires Alias(Without(c.queues[i].sort, r), q.sector).Some? ==>
               var a := Alias(Without(c.queues[i].sort, r), q.sector).value; a in c.queues[i].fifo && a != r
  {
    var d := Clear(Set(c, i, Unlinked(c.queues[i], r)), k, i, q.sector);
    if Alias(Without(c.queues[i].sort, r), q.sector).Some? then
      StillThere(c.queues[i].fifo, r, Alias(Without(c.queues[i].sort, r), q.sector).value);
      LinkRq(Set(d, i, Renamed(d.queues[i], r, q)), k, e, i, q)
    else
      LinkRq(Set(d, i, Renamed(d.queues[i], r, q)), k, e, i, q)
  }

  function Unlinked(q: Queue, r: Rq): Queue
    requires r in q.sort
  {
    q.(sort := Without(q.sort, r), queuedSync := q.queuedSync - One(IsSync, r),
       queuedAsync := q.queuedAsync - One(IsAsync, r))
  }

  /** The list entry and the next pointer of a request that changed. */
  function Renamed(q: Queue, r: Rq, r2: Rq): Queue
    requires r in q.fifo
  {
    q.(fifo := Replace(q.fifo, r, r2), next := if q.next == Some(r) then Some(r2) else q.next)
  }

  // ---- slices ----

  /** What is left of a slice that timed out, or how far it was overrun, is kept. */
  function Ended(q: Queue, timedOut: bool, now: int): Queue {
    q.(mustDispatch := false, waitRequest := false,
       resid := if timedOut && !q.sliceNew then q.sliceEnd - now else q.resid)
  }

  /** cfq_slice_expired */
  function SliceExpired(c: Data, e: Env, timedOut: bool): (d: Data)
    requires EnvOk(e) && (c.active.Some? ==> c.active.value < |c.queues|)
    ensures |d.queues| == |c.queues|
  {
    match c.active
    case None => c
    case Some(i) =>
      var q := c.queues[i];
      var d := Set(c, i, Ended(q, timedOut, e.now));
      Resort(d.(timer := if q.waitRequest then false else c.timer), e, i).(active := None)
  }

  /** cfq_preempt_queue */
  function Preempt(c: Data, e: Env, i: nat): (d: Data)
    requires EnvOk(e) && i < |c.queues| && (c.active.Some? ==> c.active.value < |c.queues|)
    ensures |d.queues| == |c.queues|
  {
    var d := TreeAdd(SliceExpired(c, e, true), e, i, true);
    Set(d, i, d.queues[i].(sliceEnd := 0, sliceNew := true))
  }

  /** cfq_rq_enqueued; whether a queue that is not active preempts, and whether it idles, is decided by
      its history. */
  function Enqueued(c: Data, e: Env, i: nat, preempts: bool, idles: bool): Data
    requires i < |c.queues| && EnvOk(e) && (c.active.Some? ==> c.active.value < |c.queues|)
  {
    var f := Set(c, i, c.queues[i].(idleWindow := idles));
    if c.active == Some(i) then
      if c.queues[i].waitRequest then Set(f, i, f.queues[i].(mustDispatch := true)).(timer := false) else f
    else if preempts then
      var g := Preempt(f, e, i);
      Set(g, i, g.queues[i].(mustDispatch := true))
    else f
  }

  /** The list entry that follows the tree entry. */
  function Listing(q: Queue, r: Rq): Queue {
    q.(fifo := q.fifo + [r], metas := q.metas + One(IsMeta, r))
  }

  /** cfq_insert_request */
  function InsertRequest(c: Data, k: Conf, e: Env, i: nat, r: Rq, preempts: bool, idles: bool): Data
    requires i < |c.queues| && EnvOk(e) && (c.active.Some? ==> c.active.value < |c.queues|)
    requires Alias(c.queues[i].sort, r.sector).Some? ==> Alias(c.queues[i].sort, r.sector).value in c.queues[i].fifo
  {
    var d := LinkRq(Clear(c, k, i, r.sector), k, e, i, r);
    Enqueued(Set(d, i, Listing(d.queues[i], r)), e, i, preempts, idles)
  }

  predicate SliceUsed(q: Queue, now: int) { !q.sliceNew && now >= q.sliceEnd }

  /** cfq_rb_first, through the cache */
  function First(c: Data): Data {
    if c.left.None? && c.order != [] then c.(left := Some(c.order[0])) else c
  }

  /** cfq_get_next_queue and __cfq_set_active_queue */
  function SetActive(c: Data, k: Conf, e: Env): Data
    requires RrInv(c)
  {
    if c.order == [] then c.(active := None)
    else
      assert c.order[0] in c.order;
      var d := First(c);
      var i := d.left.value;
      var q := d.queues[i];
      if q.idle && e.now < d.lastEnd + k.idleGrace then d.(active := None)
      else Set(d, i, q.(sliceEnd := 0, fifoExpire := false, sliceNew := true)).(active := Some(i))
  }

  /** cfq_select_queue keeps the active queue, waits, or takes a new one. */
  datatype Selection = Keep | Wait | Renew

  function Select(c: Data, e: Env): Selection
    requires c.active.Some? ==> c.active.value < |c.queues|
  {
    match c.active
    case None => Renew
    case Some(i) =>
      var q := c.queues[i];
      if SliceUsed(q, e.now) then Renew
      else if q.sort != [] then Keep
      else if c.timer || (q.dispatched != 0 && q.idleWindow) then Wait
      else Renew
  }

  /** cfq_completed_request for the active queue: a slice starts with its first completion, a used one
      expires, an empty one may wait for more. */
  function ActiveDone(d: Data, e: Env, i: nat, sync: bool, slice: nat, arms: bool): Data
    requires EnvOk(e) && i < |d.queues| && d.active == Some(i)
  {
    var q := d.queues[i];
    var p := if q.sliceNew then q.(sliceEnd := slice + e.now, sliceNew := false) else q;
    var f := Set(d, i, p);
    if SliceUsed(p, e.now) then SliceExpired(f, e, true)
    else if sync && p.sort == [] && p.idleWindow && arms then
      Set(f, i, p.(mustDispatch := true, waitRequest := true)).(timer := true)
    else f
  }

  /** cfq_completed_request, for a request of queue i */
  function Completed(c: Data, e: Env, i: nat, sync: bool, slice: nat, arms: bool): Data
    requires EnvOk(e) && i < |c.queues|
  {
    var q := c.queues[i];
    var d := Set(c, i, q.(dispatched := q.dispatched - 1))
               .(syncFlight := c.syncFlight - (if q.sync then 1 else 0),
                 lastEnd := if q.idle then c.lastEnd else e.now);
    if d.active != Some(i) then d else ActiveDone(d, e, i, sync, slice, arms)
  }

  /** A queue's class changes (cfq_init_prio_data, cfq_prio_boost), its place in the service tree does not. */
  function SetClass(c: Data, i: nat, rt: bool, idle: bool): Data
    requires i < |c.queues|
  {
    Set(c, i, c.queues[i].(rt := rt, idle := idle))
  }

  /** The list of cfq_merged_requests, for an r that has grown to q by x. */
  function MergedFifo(fifo: seq<Rq>, r: Rq, x: Rq, q: Rq): seq<Rq>
    requires r in fifo && x in fifo && r != x
  {
    if x.time < r.time then
      StillThere(fifo, x, r);
      var rest := Without(fifo, r);
      Insert(rest, Pos(rest, x) + 1, q)
    else Replace(fifo, r, q)
  }

  function Merged(p: Queue, r: Rq, x: Rq, q: Rq): Queue
    requires r in p.sort && x in p.sort && r != x && r in p.fifo && x in p.fifo
  {
    p.(fifo := MergedFifo(p.fifo, r, x, q), sort := Replace(p.sort, r, q),
       next := if p.next == Some(r) then Some(q) else p.next)
  }

  /** cfq_merged_requests */
  function MergedRequests(c: Data, k: Conf, i: nat, r: Rq, x: Rq, q: Rq): Data
    requires i < |c.queues| && r in c.queues[i].sort && x in c.queues[i].sort && r != x
    requires r in c.queues[i].fifo && x in c.queues[i].fifo
  {
    MergeKeeps(c.queues[i], r, x, q);
    Remove(Set(c, i, Merged(c.queues[i], r, x, q)), k, i, x)
  }

  lemma MergeKeeps(p: Queue, r: Rq, x: Rq, q: Rq)
    requires r in p.sort && x in p.sort && r in p.fifo && x in p.fifo && r != x
    ensures x in Merged(p, r, x, q).sort && x in Merged(p, r, x, q).fifo
  {
    hide MergedFifo, Replace;
    ChangedKeeps(p.sort, r, q, x);
    FifoKeeps(p.fifo, r, x, q);
  }

  lemma FifoKeeps(fifo: seq<Rq>, r: Rq, x: Rq, q: Rq)
    requires r in fifo && x in fifo && r != x
    ensures x in MergedFifo(fifo, r, x, q)
  {
    hide Pos, Without, Replace;
    if x.time < r.time {
      StillThere(fifo, x, r);
      var rest := Without(fifo, r);
      var i := Pos(rest, x);
      assert Insert(rest, i + 1, q)[i] == x;
    } else {
      ChangedKeeps(fifo, r, q, x);
    }
  }

  // ---- what every state keeps ----

  /** The list and the tree of a queue hold the same requests; the next request is one of them whenever
      there is one; the counters count them. */
  ghost predicate WorkInv(q: Queue) { Listed(q) && Counted(q) }

  ghost predicate Listed(q: Queue) {
    && Sorted(q.sort) && Distinct(q.fifo) && (forall r :: r in q.fifo <==> r in q.sort)
    && (q.next.None? <==> q.sort == []) && (q.next.Some? ==> q.next.value in q.sort)
  }

  ghost predicate Counted(q: Queue) {
    && q.queuedSync == Count(q.sort, IsSync) && q.queuedAsync == Count(q.sort, IsAsync)
    && q.metas == Count(q.sort, IsMeta)
  }

  /** The service tree holds the queues marked on_rr, once each, busy_queues of them; the cached node is
      missing or the first. */
  ghost predicate RrInv(c: Data) {
    && Distinct(c.order) && (forall i :: i in c.order ==> i < |c.queues|)
    && (forall i :: 0 <= i < |c.queues| ==> (c.queues[i].onRr <==> i in c.order))
    && c.busy == |c.order| && (c.left.Some? ==> c.order != [] && c.left.value == c.order[0])
  }

  ghost predicate Inv(c: Data) {
    && RrInv(c) && (forall i :: 0 <= i < |c.queues| ==> WorkInv(c.queues[i]))
    && (forall i :: 0 <= i < |c.queues| ==> (c.queues[i].onRr <==> c.queues[i].sort != []))
    && (c.active.Some? ==> c.active.value < |c.queues|)
  }
}
