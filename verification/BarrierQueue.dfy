/** The request queue as the kernel keeps it: fields updated in place, list walks as loops.
    Every method is proved to take exactly the corresponding step of BarrierModel. */
module BarrierQueue {
  import opened Options
  import opened BarrierModel

  class RequestQueue {
    var head: seq<Request>
    var sorted: seq<Request>
    var flying: seq<Request>
    var inFlight: int
    var ordcolor: bool
    var ordseq: OrdSeq
    var orderr: int
    var orig: Option<Request>
    var mode: Mode
    const flushFs: bool
    var nextId: nat
    var epochs: nat
    var ended: nat
    var log: seq<Event>

    ghost function View(): Queue
      reads this
    {
      Queue(head, sorted, flying, inFlight, ordcolor, ordseq, orderr, orig, mode, flushFs,
            nextId, epochs, ended, log)
    }

    constructor (mode: Mode, flushFs: bool)
      ensures View() == Init(mode, flushFs)
    {
      head, sorted, flying, inFlight := [], [], [], 0;
      ordcolor, ordseq, orderr, orig := false, IDLE, 0, None;
      this.mode, this.flushFs := mode, flushFs;
      nextId, epochs, ended, log := 0, 0, 0, [Switched(mode)];
    }

    /** blk_queue_ordered */
    method SetOrdered(ordered: Mode)
      modifies this`mode, this`log
      ensures View() == SetMode(old(View()), ordered)
    {
      mode := ordered;
      log := log + [Switched(ordered)];
    }

    /** The backward walk of elv_dispatch_sort. */
    method SortPosition(r: Request, boundary: nat) returns (k: nat)
      ensures k == SortPos(head, |head|, r, boundary)
    {
      k := |head|;
      while k > 0 && !StopsAt(r, head[k - 1], boundary)
        invariant k <= |head|
        invariant SortPos(head, k, r, boundary) == SortPos(head, |head|, r, boundary)
      {
        k := k - 1;
      }
    }

    /** elv_dispatch_sort and elv_dispatch_add_tail */
    method DispatchOne(p: Pick)
      requires p.index < |sorted|
      modifies this`head, this`sorted
      ensures View() == Dispatch(old(View()), p)
    {
      var r := sorted[p.index];
      var k := |head|;
      if p.Sort? { k := SortPosition(r, p.boundary); }
      sorted := Remove(sorted, p.index);
      head := Insert(head, k, r);
    }

    /** elv_drain_elevator */
    method DrainElevator(picks: seq<Pick>)
      modifies this`head, this`sorted
      ensures View() == old(View()).(head := Drained(old(head), old(sorted), picks), sorted := [])
    {
      var left := picks;
      while sorted != []
        invariant Drained(head, sorted, left) == Drained(old(head), old(sorted), picks)
        decreases |sorted|
      {
        DispatchOne(if left != [] && left[0].index < |sorted| then left[0] else Tail(0));
        left := if left == [] then [] else left[1..];
      }
    }

    /** elv_insert of a new request. */
    method InsertAt(r: Request, at: Where, picks: seq<Pick>)
      modifies this`head, this`sorted
      ensures View() == Enter(old(View()), r, at, picks)
    {
      match at {
        case Front =>
          head := Insert(head, 0, r.(soft := true));
        case Back =>
          DrainElevator(picks);
          head := head + [r.(soft := true)];
        case Sorted =>
          sorted := sorted + [r];
      }
    }

    /** The request is counted, and a hard barrier turns the colour. */
    method Admit(r: Request)
      modifies this`ordcolor, this`epochs, this`nextId, this`log
      ensures View() == Admitted(old(View()), r)
    {
      if r.hard {
        ordcolor := !ordcolor;
      }
      epochs := if IsBarrier(r) then epochs + 1 else epochs;
      nextId, log := nextId + 1, log + [if r.fs then Submitted(r.id, r.epoch, r.hard) else Special(r.id)];
    }

    /** __elv_add_request */
    method AddRequest(fs: bool, hard: bool, soft: bool, write: bool, sector: nat, elvpriv: bool,
                      place: Where, picks: seq<Pick>)
      modifies this
      ensures View() == Submit(old(View()), fs, hard, soft, write, sector, elvpriv, place, picks)
    {
      hide Enter, Admitted;
      var r := Request(Normal, nextId, epochs, fs, hard, soft, false, ordcolor, write, sector);
      var at := if place == Sorted && (soft || hard || !elvpriv) then Back else place;
      Admit(r);
      InsertAt(r, at, picks);
    }

    /** start_ordered: stack the proxies at the head in reverse order. */
    method Start() returns (ready: bool)
      requires head != [] && mode.Drain?
      modifies this
      ensures View() == StartOrdered(old(View())) && ready == (old(inFlight) == 0)
    {
      var b := head[0];
      var post := if mode.postFlush then [FlushRequest(b, PostFlush)] else [];
      var pre := if mode.preFlush then [FlushRequest(b, PreFlush)] else [];
      var bar := Request(Bar, b.id, b.epoch, true, true, true, false, false, b.write, b.sector);
      var h := post + head[1..];
      h := [bar] + h;
      h := pre + h;
      ready := inFlight == 0;
      assert h == pre + [bar] + post + head[1..];
      orderr, orig, head := 0, Some(b), h;
      ordseq := OrdSeq(true, ready, !mode.preFlush, false, !mode.postFlush);
      log := log + [Began(b.epoch, mode.preFlush, mode.postFlush)];
    }

    function FlushRequest(b: Request, kind: Kind): Request
      reads this
    {
      Request(kind, b.id, b.epoch, flushFs, true, true, false, false, b.write, b.sector)
    }

    /** blk_do_ordered */
    method Order() returns (offered: bool)
      requires head != [] && (orig.Some? <==> ordseq.started)
      modifies this
      ensures (View(), offered) == DoOrdered(old(View()))
      ensures offered ==> head != []
    {
      var first := head[0];
      offered := true;
      if !ordseq.started {
        if first.fs && first.hard {
          if mode.Drain? {
            offered := Start();
          } else {
            log := log + [Ended(first.epoch, EOPNOTSUPP)];
            ended := ended + 1;
            head := head[1..];
            offered := false;
          }
        }
      } else if first.fs || first.kind == PreFlush || first.kind == PostFlush {
        var mine := RequestStage(first);
        if mine > CurSeq(ordseq) { offered := false; }
      }
    }

    /** elv_next_request: ask blk_do_ordered, then mark the offered request started. */
    method NextRequest() returns (rq: Option<Request>)
      requires orig.Some? <==> ordseq.started
      modifies this
      ensures View() == Fetch(old(View()))
      ensures rq.Some? ==> head != [] && rq.value == head[0] && rq.value.started
      ensures rq.Some? <==> old(head) != [] && DoOrdered(old(View())).1
    {
      if head == [] { return None; }
      var offered := Order();
      if !offered { return None; }
      var r := head[0];
      if !r.started {
        if r.fs || r.kind != Normal { log := log + [IssueEvent(r)]; }
        head := head[0 := r.(started := true)];
      }
      rq := Some(head[0]);
    }

    /** blk_ordered_req_seq */
    method RequestStage(r: Request) returns (s: nat)
      requires orig.Some?
      ensures s == ReqSeq(View(), r)
    {
      if r.kind == PreFlush { return PREFLUSH; }
      if r.kind == Bar { return BAR; }
      if r.kind == PostFlush { return POSTFLUSH; }
      if !r.fs { return DRAIN; }
      return if r.color == orig.value.color then DRAIN else DONE;
    }

    /** elv_dequeue_request */
    method DequeueRequest(i: nat)
      requires i < |head| && head[i].started
      modifies this
      ensures View() == Dequeue(old(View()), i)
    {
      var r := head[i];
      head := Remove(head, i);
      flying := flying + [r];
      if r.fs { inFlight := inFlight + 1; }
    }

    /** The walk of ELEVATOR_INSERT_REQUEUE in stage order. */
    method RequeuePosition(r: Request) returns (k: nat)
      requires orig.Some?
      ensures k == RequeuePos(View(), r, 0)
    {
      var mine := RequestStage(r);
      k := 0;
      while k < |head|
        invariant k <= |head|
        invariant RequeuePos(View(), r, 0) == RequeuePos(View(), r, k)
      {
        var theirs := RequestStage(head[k]);
        if mine <= theirs { return; }
        k := k + 1;
      }
    }

    /** elv_requeue_request */
    method RequeueRequest(i: nat)
      requires i < |flying|
      requires orig.Some? <==> ordseq.started
      modifies this
      ensures View() == Requeue(old(View()), i)
    {
      var r := flying[i];
      flying := Remove(flying, i);
      if r.fs && r.started { inFlight := inFlight - 1; }
      r := r.(started := false, soft := true);
      var k := 0;
      if ordseq.started { k := RequeuePosition(r); }
      head := Insert(head, k, r);
    }

    /** blk_ordered_complete_seq */
    method CompleteStage(stage: nat, error: int)
      requires orig.Some?
      modifies this
      ensures View() == CompleteSeq(old(View()), stage, error)
    {
      if error != 0 && orderr == 0 { orderr := error; }
      ordseq := SetBit(ordseq, stage);
      if CurSeq(ordseq) == DONE {
        log := log + [Ended(orig.value.epoch, orderr)];
        ordseq, orig, ended := IDLE, None, ended + 1;
      }
    }

    /** The tail of elv_completed_request. */
    method CheckDrain()
      requires orig.Some? <==> ordseq.started
      requires CurSeq(ordseq) == DRAIN ==> head != [] && !ordseq.bar
      modifies this
      ensures View() == CheckDrained(old(View()))
    {
      if ordseq.started && inFlight == 0 && CurSeq(ordseq) == DRAIN {
        var first := RequestStage(head[0]);
        if first > DRAIN { CompleteStage(DRAIN, 0); }
      }
    }

    /** end_that_request_last on a request the driver holds. */
    method EndRequest(i: nat, error: int)
      requires i < |flying|
      requires orig.Some? <==> ordseq.started
      requires CurSeq(ordseq) == DRAIN ==> head != [] && !ordseq.bar
      requires !flying[i].kind.Normal? ==> ordseq.started
      modifies this
      ensures View() == Complete(old(View()), i, error)
    {
      var r := flying[i];
      flying := Remove(flying, i);
      log := log + [if r.kind != Normal then ProxyDone(r.kind, r.epoch, error) else Finished(r.id)];
      if r.fs && r.started { inFlight := inFlight - 1; }
      assert View() == Release(old(View()), i, error);
      CheckDrain();
      if r.kind != Normal { CompleteStage(StageOf(r.kind), error); }
    }
  }
}
