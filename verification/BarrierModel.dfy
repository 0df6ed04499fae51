/** Ordered-flush (barrier) handling of one request queue, drain mode.

    A value-level state machine: `Queue` is everything the kernel keeps in
    request_queue_t for the barrier protocol, plus the requests the driver holds
    and a log of what happened.  Each function below is one critical section of
    block/elevator.c or block/ll_rw_blk.c. */
module BarrierModel {
  import opened Options

  /** A request is an ordinary one or one of the three proxies embedded in the queue. */
  datatype Kind = Normal | PreFlush | Bar | PostFlush

  /** `epoch` is a history stamp: how many barriers had been submitted before this
      request.  The kernel only keeps its parity, in `color` (REQ_ORDERED_COLOR). */
  datatype Request = Request(kind: Kind, id: nat, epoch: nat, fs: bool, hard: bool, soft: bool,
                             started: bool, color: bool, write: bool, sector: nat)

  predicate Ordinary(r: Request) { r.kind.Normal? && r.fs }

  predicate IsBarrier(r: Request) { Ordinary(r) && r.hard }

  predicate Flagged(r: Request) { r.soft || r.hard || r.started }

  /** The bits of q->ordseq. */
  datatype OrdSeq = OrdSeq(started: bool, drain: bool, pre: bool, bar: bool, post: bool)

  const IDLE := OrdSeq(false, false, false, false, false)
  const DRAIN: nat := 0x02
  const PREFLUSH: nat := 0x04
  const BAR: nat := 0x08
  const POSTFLUSH: nat := 0x10
  const DONE: nat := 0x20

  /** QUEUE_ORDERED_NONE, and the drain modes by which flushes they use. */
  datatype Mode = NoOrder | Drain(preFlush: bool, postFlush: bool)

  datatype Event =
    | Submitted(id: nat, epoch: nat, barrier: bool)
    | Special(id: nat)         // submitted without file system data
    | Issued(id: nat, epoch: nat)
    | Finished(id: nat)
    | Began(epoch: nat, needPre: bool, needPost: bool)
    | ProxyIssued(kind: Kind, epoch: nat)
    | ProxyDone(kind: Kind, epoch: nat, error: int)
    | Switched(mode: Mode)
    | Ended(epoch: nat, error: int)

  datatype Queue = Queue(
    head: seq<Request>,      // q->queue_head
    sorted: seq<Request>,    // held by the I/O scheduler
    flying: seq<Request>,    // dequeued by the driver and not completed
    inFlight: int,
    ordcolor: bool,
    ordseq: OrdSeq,
    orderr: int,
    orig: Option<Request>,   // q->orig_bar_rq while ordseq != 0
    mode: Mode,              // q->next_ordered
    flushFs: bool,           // the cmd_type prepare_flush_fn gives flush requests is FS
    nextId: nat,
    epochs: nat,             // barriers submitted so far
    ended: nat,              // barriers ended so far
    log: seq<Event>)

  function Init(mode: Mode, flushFs: bool): Queue {
    Queue([], [], [], 0, false, IDLE, 0, None, mode, flushFs, 0, 0, 0, [Switched(mode)])
  }

  /** blk_queue_ordered */
  function SetMode(q: Queue, mode: Mode): Queue { q.(mode := mode, log := q.log + [Switched(mode)]) }

  // ---- sequences ----

  function Insert(s: seq<Request>, k: nat, r: Request): (t: seq<Request>)
    requires k <= |s|
    ensures |t| == |s| + 1 && t[k] == r
    ensures forall i :: 0 <= i < |t| ==> t[i] == if i < k then s[i] else if i == k then r else s[i - 1]
    ensures forall x :: x in t <==> x in s || x == r
  {
    assert forall i :: k < i <= |s| ==> (s[..k] + [r] + s[k..])[i] == s[i - 1];
    s[..k] + [r] + s[k..]
  }

  function Remove(s: seq<Request>, k: nat): (t: seq<Request>)
    requires k < |s|
    ensures |t| == |s| - 1
    ensures forall i :: 0 <= i < |t| ==> t[i] == if i < k then s[i] else s[i + 1]
    ensures forall x :: x in t ==> x in s
    ensures forall x :: x in s ==> x in t || x == s[k]
  {
    assert forall x :: x in s ==> x in s[..k] || x == s[k] || x in s[k + 1..];
    s[..k] + s[k + 1..]
  }

  // ---- the sequence bits ----

  /** blk_ordered_cur_seq: the lowest clear bit, 0 when idle. */
  function CurSeq(o: OrdSeq): nat {
    if !o.started then 0
    else if !o.drain then DRAIN
    else if !o.pre then PREFLUSH
    else if !o.bar then BAR
    else if !o.post then POSTFLUSH
    else DONE
  }

  /** blk_ordered_req_seq: the stage a request belongs to, judged by its colour. */
  function ReqSeq(q: Queue, r: Request): nat
    requires q.orig.Some?
  {
    match r.kind
    case PreFlush => PREFLUSH
    case Bar => BAR
    case PostFlush => POSTFLUSH
    case Normal =>
      if !r.fs then DRAIN
      else if r.color == q.orig.value.color then DRAIN
      else DONE
  }

  function SetBit(o: OrdSeq, stage: nat): OrdSeq {
    if stage == DRAIN then o.(drain := true)
    else if stage == PREFLUSH then o.(pre := true)
    else if stage == BAR then o.(bar := true)
    else o.(post := true)
  }

  predicate HasBit(o: OrdSeq, stage: nat) {
    if stage == DRAIN then o.drain
    else if stage == PREFLUSH then o.pre
    else if stage == BAR then o.bar
    else o.post
  }

  /** blk_ordered_complete_seq */
  function CompleteSeq(q: Queue, stage: nat, error: int): Queue
    requires q.orig.Some?
  {
    var err := if error != 0 && q.orderr == 0 then error else q.orderr;
    var o := SetBit(q.ordseq, stage);
    if CurSeq(o) != DONE then q.(ordseq := o, orderr := err)
    else q.(ordseq := IDLE, orderr := err, orig := None, ended := q.ended + 1,
            log := q.log + [Ended(q.orig.value.epoch, err)])
  }

  // ---- insertion ----

  /** Where elv_dispatch_sort stops its backward walk; the boundary sector is arbitrary. */
  predicate StopsAt(r: Request, pos: Request, boundary: nat) {
    || r.write != pos.write
    || Flagged(pos)
    || (if r.sector >= boundary then pos.sector >= boundary && r.sector >= pos.sector
        else pos.sector >= boundary || r.sector >= pos.sector)
  }

  function SortPos(h: seq<Request>, n: nat, r: Request, boundary: nat): (k: nat)
    requires n <= |h|
    ensures k <= n
    ensures forall i :: k <= i < n ==> !Flagged(h[i])
  {
    if n == 0 || StopsAt(r, h[n - 1], boundary) then n else SortPos(h, n - 1, r, boundary)
  }

  /** One request leaving the I/O scheduler: which one, and by elv_dispatch_add_tail or
      by elv_dispatch_sort against some boundary. */
  datatype Pick = Tail(index: nat) | Sort(index: nat, boundary: nat)

  function Placed(h: seq<Request>, r: Request, p: Pick): seq<Request> {
    Insert(h, if p.Tail? then |h| else SortPos(h, |h|, r, p.boundary), r)
  }

  function Dispatch(q: Queue, p: Pick): Queue
    requires p.index < |q.sorted|
  {
    q.(sorted := Remove(q.sorted, p.index), head := Placed(q.head, q.sorted[p.index], p))
  }

  /** The dispatch list after elv_drain_elevator: forced dispatch until the scheduler is
      empty, in its own order; once the given choices run out the rest leaves first to last. */
  function Drained(h: seq<Request>, sorted: seq<Request>, picks: seq<Pick>): seq<Request>
    decreases |sorted|
  {
    if sorted == [] then h
    else
      var p := if picks != [] && picks[0].index < |sorted| then picks[0] else Tail(0);
      Drained(Placed(h, sorted[p.index], p), Remove(sorted, p.index), if picks == [] then [] else picks[1..])
  }

  /** Where ELEVATOR_INSERT_REQUEUE puts a request while a sequence is in progress. */
  function RequeuePos(q: Queue, r: Request, k: nat): (n: nat)
    requires q.orig.Some? && k <= |q.head|
    ensures k <= n <= |q.head|
    ensures forall i :: k <= i < n ==> ReqSeq(q, r) > ReqSeq(q, q.head[i])
    ensures n < |q.head| ==> ReqSeq(q, r) <= ReqSeq(q, q.head[n])
    decreases |q.head| - k
  {
    if k == |q.head| || ReqSeq(q, r) <= ReqSeq(q, q.head[k]) then k else RequeuePos(q, r, k + 1)
  }

  datatype Where = Front | Back | Sorted

  /** elv_insert of a new request. */
  function Enter(q: Queue, r: Request, at: Where, picks: seq<Pick>): Queue {
    match at
    case Front => q.(head := Insert(q.head, 0, r.(soft := true)))
    case Back => q.(head := Drained(q.head, q.sorted, picks) + [r.(soft := true)], sorted := [])
    case Sorted => q.(sorted := q.sorted + [r])
  }

  /** A new request is known, and a hard barrier turns the colour. */
  function Admitted(q: Queue, r: Request): Queue {
    q.(ordcolor := if r.hard then !q.ordcolor else q.ordcolor, nextId := q.nextId + 1,
       epochs := if IsBarrier(r) then q.epochs + 1 else q.epochs,
       log := q.log + [if r.fs then Submitted(r.id, r.epoch, r.hard) else Special(r.id)])
  }

  /** __elv_add_request of a new request. */
  function Submit(q: Queue, fs: bool, hard: bool, soft: bool, write: bool, sector: nat, elvpriv: bool,
                  place: Where, picks: seq<Pick>): Queue
  {
    var r := Request(Normal, q.nextId, q.epochs, fs, hard, soft, false, q.ordcolor, write, sector);
    var at := if place.Sorted? && (soft || hard || !elvpriv) then Back else place;
    Enter(Admitted(q, r), r, at, picks)
  }

  // ---- driver side ----

  function Proxy(q: Queue, kind: Kind): Request
    requires q.orig.Some?
  {
    var b := q.orig.value;
    Request(kind, b.id, b.epoch, kind.Bar? || q.flushFs, true, true, false, false, b.write, b.sector)
  }

  /** The proxies start_ordered stacks up, as they end up on the list. */
  function ProxyList(q: Queue): (s: seq<Request>)
    requires q.orig.Some? && q.mode.Drain?
  {
    (if q.mode.preFlush then [Proxy(q, PreFlush)] else [])
    + [Proxy(q, Bar)]
    + (if q.mode.postFlush then [Proxy(q, PostFlush)] else [])
  }

  /** start_ordered, on the barrier at the head of the queue. */
  function StartOrdered(q: Queue): Queue
    requires q.head != [] && q.mode.Drain?
  {
    var q0 := q.(orig := Some(q.head[0]));
    q0.(orderr := 0, head := ProxyList(q0) + q.head[1..],
        ordseq := OrdSeq(true, q.inFlight == 0, !q.mode.preFlush, false, !q.mode.postFlush),
        log := q.log + [Began(q.head[0].epoch, q.mode.preFlush, q.mode.postFlush)])
  }

  /** The NONE branch of blk_do_ordered: the barrier at the head is failed at once. */
  function RefuseBarrier(q: Queue): Queue
    requires q.head != []
  {
    q.(head := q.head[1..], ended := q.ended + 1,
       log := q.log + [Ended(q.head[0].epoch, EOPNOTSUPP)])
  }

  const EOPNOTSUPP: int := -95

  /** blk_do_ordered on a non-empty queue: the new state, and whether the request now at
      the head is offered to the driver. */
  function DoOrdered(q: Queue): (r: (Queue, bool))
    requires q.head != []
    requires q.orig.Some? <==> q.ordseq.started
  {
    var rq := q.head[0];
    if !q.ordseq.started then
      if !(rq.fs && rq.hard) then (q, true)
      else if q.mode.Drain? then (StartOrdered(q), q.inFlight == 0)
      else (RefuseBarrier(q), false)
    else if !rq.fs && rq.kind != PreFlush && rq.kind != PostFlush then (q, true)
    else (q, ReqSeq(q, rq) <= CurSeq(q.ordseq))
  }

  function IssueEvent(r: Request): Event {
    if r.kind.Normal? then Issued(r.id, r.epoch) else ProxyIssued(r.kind, r.epoch)
  }

  /** elv_next_request once blk_do_ordered offers the head: mark it started. */
  function MarkStarted(q: Queue): Queue
    requires q.head != []
  {
    var r := q.head[0];
    if r.started then q
    else q.(head := q.head[0 := r.(started := true)],
            log := if r.fs || !r.kind.Normal? then q.log + [IssueEvent(r)] else q.log)
  }

  function Fetch(q: Queue): Queue
    requires q.orig.Some? <==> q.ordseq.started
  {
    if q.head == [] then q
    else
      var (q1, offered) := DoOrdered(q);
      if offered && q1.head != [] then MarkStarted(q1) else q1
  }

  /** elv_dequeue_request of a request the driver was given. */
  function Dequeue(q: Queue, i: nat): Queue
    requires i < |q.head| && q.head[i].started
  {
    var r := q.head[i];
    q.(head := Remove(q.head, i), flying := q.flying + [r],
       inFlight := if r.fs then q.inFlight + 1 else q.inFlight)
  }

  /** elv_requeue_request */
  function Requeue(q: Queue, i: nat): Queue
    requires i < |q.flying|
    requires q.orig.Some? <==> q.ordseq.started
  {
    var r := q.flying[i];
    var r1 := r.(started := false, soft := true);
    var q1 := q.(flying := Remove(q.flying, i),
                 inFlight := if r.fs && r.started then q.inFlight - 1 else q.inFlight);
    q1.(head := Insert(q1.head, if q1.ordseq.started then RequeuePos(q1, r1, 0) else 0, r1))
  }

  /** The tail of elv_completed_request: has the drain finished?  The head of the list is
      only looked at while the sequence is draining. */
  function CheckDrained(q: Queue): (r: Queue)
    requires q.orig.Some? <==> q.ordseq.started
    requires CurSeq(q.ordseq) == DRAIN ==> q.head != [] && !q.ordseq.bar
    ensures r.orig == q.orig
  {
    if q.ordseq.started && q.inFlight == 0 && CurSeq(q.ordseq) == DRAIN
       && ReqSeq(q, q.head[0]) > DRAIN
    then CompleteSeq(q, DRAIN, 0)
    else q
  }

  function StageOf(k: Kind): nat {
    match k
    case PreFlush => PREFLUSH
    case Bar => BAR
    case PostFlush => POSTFLUSH
    case Normal => DRAIN
  }

  /** The bookkeeping half of a completion, before any sequence bit moves. */
  function Release(q: Queue, i: nat, error: int): Queue
    requires i < |q.flying|
  {
    var r := q.flying[i];
    q.(flying := Remove(q.flying, i),
       inFlight := if r.fs && r.started then q.inFlight - 1 else q.inFlight,
       log := q.log + [if r.kind.Normal? then Finished(r.id) else ProxyDone(r.kind, r.epoch, error)])
  }

  /** end_that_request_last of a request held by the driver: elv_completed_request, then
      for a proxy its end_io reports the stage. */
  function Complete(q: Queue, i: nat, error: int): Queue
    requires i < |q.flying|
    requires q.orig.Some? <==> q.ordseq.started
    requires CurSeq(q.ordseq) == DRAIN ==> q.head != [] && !q.ordseq.bar
    requires !q.flying[i].kind.Normal? ==> q.ordseq.started
  {
    var r := q.flying[i];
    var q1 := CheckDrained(Release(q, i, error));
    if r.kind.Normal? then q1 else CompleteSeq(q1, StageOf(r.kind), error)
  }
}
