/** Which submissions keep the ordering, and which break it. */
module BarrierShapes {
  import opened Options
  import opened BarrierModel
  import opened BarrierRuns

  const UNFLUSHED := Drain(false, false)
  const SWITCH := Switch(UNFLUSHED)
  const PLAIN := Add(true, false, false, true, 0, false, Back, [])
  const BARRIER := Add(true, true, false, true, 0, false, Back, [])

  function SpecialHard(place: Where): Step { Add(false, true, false, true, 0, false, place, []) }

  function AtFront(hard: bool): Step { Add(true, hard, false, true, 0, false, Front, []) }

  /** A submission of the given shape.  A request without file system data is never given to the
      scheduler, which elv_insert checks. */
  predicate Shaped(s: Step, fs: bool, hard: bool, place: Where) {
    && s.Add? && s.fs == fs && s.hard == hard && s.place == place
    && (!fs && place.Sorted? ==> s.soft || hard || !s.elvpriv)
  }

  /** Every run of legal steps and submissions of the shape has a safe log. */
  ghost predicate ShapeSafe(mode: Mode, flushFs: bool, fs: bool, hard: bool, place: Where) {
    forall steps :: (forall s :: s in steps ==> Legal(s) || Shaped(s, fs, hard, place)) ==>
      Safe(Run(Init(mode, flushFs), steps).log)
  }

  // ---- steps of the breaking runs ----

  lemma NotSafe(log: seq<Event>, x: Event)
    requires !SafeAfter(log, x)
    ensures !Safe(log + [x])
  {
    assert (log + [x])[..|log|] == log && (log + [x])[|log|] == x;
  }

  lemma RunCons(q: Queue, s: Step, steps: seq<Step>)
    ensures Run(q, [s] + steps) == Run(Next(q, s), steps)
  {
    assert ([s] + steps)[1..] == steps;
  }

  lemma RunFour(q: Queue, a: Step, b: Step, c: Step, d: Step, rest: seq<Step>)
    ensures Run(q, [a, b, c, d] + rest) == Run(Next(Next(Next(Next(q, a), b), c), d), rest)
  {
    assert [a, b, c, d] + rest == [a] + ([b] + ([c] + ([d] + rest)));
    RunCons(q, a, [b] + ([c] + ([d] + rest)));
    RunCons(Next(q, a), b, [c] + ([d] + rest));
    RunCons(Next(Next(q, a), b), c, [d] + rest);
    RunCons(Next(Next(Next(q, a), b), c), d, rest);
  }

  lemma AddAny(q: Queue, fs: bool, hard: bool, place: Where)
    requires q.sorted == [] && Sane(q)
    ensures var r := Request(Normal, q.nextId, q.epochs, fs, hard, true, false, q.ordcolor, true, 0);
            Next(q, Add(fs, hard, false, true, 0, false, place, [])) ==
            q.(head := if place.Front? then [r] + q.head else q.head + [r],
               ordcolor := if hard then !q.ordcolor else q.ordcolor,
               nextId := q.nextId + 1, epochs := if fs && hard then q.epochs + 1 else q.epochs,
               log := q.log + [if fs then Submitted(q.nextId, q.epochs, hard) else Special(q.nextId)])
  {
    var r := Request(Normal, q.nextId, q.epochs, fs, hard, true, false, q.ordcolor, true, 0);
    assert Insert(q.head, 0, r) == [r] + q.head;
  }

  lemma UnlinkFirst(q: Queue, r: Request, rest: seq<Request>)
    requires Sane(q) && q.head == [r] + rest && r.started
    ensures Next(q, Unlink(0)) == q.(head := rest, flying := q.flying + [r],
                                     inFlight := if r.fs then q.inFlight + 1 else q.inFlight)
  {
    assert Remove(q.head, 0) == rest;
  }

  /** elv_next_request when the head is offered. */
  lemma TakeFirst(q: Queue, r: Request, rest: seq<Request>)
    requires Sane(q) && q.head == [r] + rest && !r.started && r.kind.Normal?
    requires if q.orig.Some? then r.fs ==> ReqSeq(q, r) <= CurSeq(q.ordseq) else !IsBarrier(r)
    ensures Next(q, Take) == q.(head := [r.(started := true)] + rest,
                                log := if r.fs then q.log + [Issued(r.id, r.epoch)] else q.log)
  {
    assert q.head[0 := r.(started := true)] == [r.(started := true)] + rest;
  }

  lemma StartThenMark(q: Queue)
    requires q.orig.None? && q.ordseq == IDLE && q.head != [] && IsBarrier(q.head[0]) && Sane(q)
    requires q.mode == UNFLUSHED && q.inFlight == 0
    ensures var b := q.head[0];
      var bar := Request(Bar, b.id, b.epoch, true, true, true, true, false, b.write, b.sector);
      Next(q, Take) == q.(head := [bar] + q.head[1..], orig := Some(b), orderr := 0,
                          ordseq := OrdSeq(true, true, true, false, true),
                          log := q.log + [Began(b.epoch, false, false)] + [ProxyIssued(Bar, b.epoch)])
  {
  }

  // ---- a file system request at the front ----

  const B0 := Request(Normal, 0, 0, true, true, true, false, false, true, 0)

  /** The barrier is queued, nothing else. */
  function Queued(mode: Mode, flushFs: bool): Queue {
    Queue([B0], [], [], 0, true, IDLE, 0, None, UNFLUSHED, flushFs, 1, 1, 0, Switches(mode) + [Submitted(0, 0, true)])
  }

  function Switches(mode: Mode): seq<Event> { [Switched(mode), Switched(UNFLUSHED)] }

  lemma SwitchFirst(mode: Mode, flushFs: bool)
    ensures Next(Init(mode, flushFs), SWITCH) == SetMode(Init(mode, flushFs), UNFLUSHED)
  {
  }

  lemma QueueBarrier(mode: Mode, flushFs: bool)
    ensures Next(Next(Init(mode, flushFs), SWITCH), BARRIER) == Queued(mode, flushFs)
  {
    hide Next;
    SwitchFirst(mode, flushFs);
    AddAny(SetMode(Init(mode, flushFs), UNFLUSHED), true, true, Back);
  }

  /** Put in front of a barrier that was submitted earlier, a file system request, be it a barrier
      itself or not, reaches the driver first. */
  lemma FrontBreaksOrder(mode: Mode, flushFs: bool, hard: bool)
    ensures !Safe(Run(Init(mode, flushFs), [SWITCH, BARRIER, AtFront(hard), Take]).log)
  {
    hide Safe, Next;
    QueueBarrier(mode, flushFs);
    var steps := [SWITCH, BARRIER, AtFront(hard), Take];
    assert steps == steps + [];
    RunFour(Init(mode, flushFs), SWITCH, BARRIER, AtFront(hard), Take, []);
    if hard {
      FrontBarrier(mode, flushFs);
    } else {
      FrontPlain(mode, flushFs);
    }
  }

  lemma FrontBarrier(mode: Mode, flushFs: bool)
    ensures !Safe(Next(Next(Queued(mode, flushFs), AtFront(true)), Take).log)
  {
    hide Safe, Next;
    AddAny(Queued(mode, flushFs), true, true, Front);
    var q := Next(Queued(mode, flushFs), AtFront(true));
    StartThenMark(q);
    var log := q.log + [Began(1, false, false)];
    assert Submitted(0, 0, true) in log && !HasEnded(log, 0);
    NotSafe(log, ProxyIssued(Bar, 1));
  }

  lemma FrontPlain(mode: Mode, flushFs: bool)
    ensures !Safe(Next(Next(Queued(mode, flushFs), AtFront(false)), Take).log)
  {
    hide Safe, Next;
    AddAny(Queued(mode, flushFs), true, false, Front);
    var q := Next(Queued(mode, flushFs), AtFront(false));
    TakeFirst(q, Request(Normal, 1, 1, true, false, true, false, true, true, 0), [B0]);
    assert Submitted(0, 0, true) in q.log && !HasEnded(q.log, 0);
    NotSafe(q.log, Issued(1, 1));
  }

  // ---- a request without file system data that carries REQ_HARDBARRIER ----

  const X1 := Request(Normal, 1, 1, false, true, true, false, true, true, 0)
  const P2 := Request(Normal, 2, 1, true, false, true, false, false, true, 0)
  const BAR0 := Request(Bar, 0, 0, true, true, true, true, false, true, 0)

  function BothSubmitted(mode: Mode): seq<Event> {
    Switches(mode) + [Submitted(0, 0, true)] + [Special(1)] + [Submitted(2, 1, false)]
  }

  function Begun(mode: Mode): seq<Event> {
    BothSubmitted(mode) + [Began(0, false, false)] + [ProxyIssued(Bar, 0)]
  }

  function AllQueued(mode: Mode, flushFs: bool, place: Where): Queue {
    Queued(mode, flushFs).(head := if place.Front? then [X1, B0, P2] else [B0, X1, P2], ordcolor := false, nextId := 3,
                     log := BothSubmitted(mode))
  }

  lemma QueueAll(mode: Mode, flushFs: bool, place: Where)
    ensures Next(Next(Queued(mode, flushFs), SpecialHard(place)), PLAIN) == AllQueued(mode, flushFs, place)
  {
    AddAny(Queued(mode, flushFs), false, true, place);
    AddAny(Next(Queued(mode, flushFs), SpecialHard(place)), true, false, Back);
  }

  /** The barrier and the special request are at the driver, in either order. */
  function BothTaken(mode: Mode, flushFs: bool, place: Where): Queue {
    AllQueued(mode, flushFs, place).(
      head := [P2], flying := if place.Front? then [X1.(started := true), BAR0] else [BAR0, X1.(started := true)],
      inFlight := 1, orig := Some(B0), ordseq := OrdSeq(true, true, true, false, true), log := Begun(mode))
  }

  lemma TakeBoth(mode: Mode, flushFs: bool, place: Where)
    ensures Next(Next(Next(Next(AllQueued(mode, flushFs, place), Take), Unlink(0)), Take), Unlink(0))
         == BothTaken(mode, flushFs, place)
  {
    hide Next;
    var q := AllQueued(mode, flushFs, place);
    var q1 := Next(q, Take);
    var q2 := Next(q1, Unlink(0));
    if place.Front? {
      TakeFirst(q, X1, [B0, P2]);
      UnlinkFirst(q1, X1.(started := true), [B0, P2]);
      StartThenMark(q2);
      UnlinkFirst(Next(q2, Take), BAR0, [P2]);
    } else {
      StartThenMark(q);
      UnlinkFirst(q1, BAR0, [X1, P2]);
      TakeFirst(q2, X1, [P2]);
      UnlinkFirst(Next(q2, Take), X1.(started := true), [P2]);
    }
  }

  function SpecialRun(place: Where): seq<Step> {
    [SWITCH, BARRIER, SpecialHard(place), PLAIN] + ([Take, Unlink(0), Take, Unlink(0)] + [Take])
  }

  /** It flips q->ordcolor without being a barrier; a file system request behind it then passes the
      barrier still at the driver. */
  lemma SpecialHardBreaksOrder(mode: Mode, flushFs: bool, place: Where)
    ensures !Safe(Run(Init(mode, flushFs), SpecialRun(place)).log)
  {
    hide Safe, Next;
    var q := BothTaken(mode, flushFs, place);
    QueueBarrier(mode, flushFs);
    QueueAll(mode, flushFs, place);
    TakeBoth(mode, flushFs, place);
    RunFour(Init(mode, flushFs), SWITCH, BARRIER, SpecialHard(place), PLAIN,
      [Take, Unlink(0), Take, Unlink(0)] + [Take]);
    RunFour(AllQueued(mode, flushFs, place), Take, Unlink(0), Take, Unlink(0), [Take]);
    RunCons(q, Take, []);
    assert [Take] + [] == [Take];
    TakeFirst(q, P2, []);
    assert Submitted(0, 0, true) in Begun(mode) && !HasEnded(Begun(mode), 0);
    NotSafe(Begun(mode), Issued(2, 1));
  }

  // ---- the exact condition ----

  /** Runs with one more shape of submission are all safe exactly when file system requests of that
      shape do not go to the front and other requests of it do not carry REQ_HARDBARRIER. */
  lemma ShapeSafeIff(mode: Mode, flushFs: bool, fs: bool, hard: bool, place: Where)
    requires mode.Drain?
    ensures ShapeSafe(mode, flushFs, fs, hard, place) <==> if fs then place != Front else !hard
  {
    hide Safe, Run;
    if fs && place == Front {
      FrontBreaksOrder(mode, flushFs, hard);
      var steps := [SWITCH, BARRIER, AtFront(hard), Take];
      assert forall s :: s in steps ==> Legal(s) || Shaped(s, fs, hard, place);
    } else if !fs && hard {
      SpecialHardBreaksOrder(mode, flushFs, place);
      var steps := SpecialRun(place);
      assert forall s :: s in steps ==> Legal(s) || Shaped(s, fs, hard, place);
    } else {
      forall steps | forall s :: s in steps ==> Legal(s) || Shaped(s, fs, hard, place)
        ensures Safe(Run(Init(mode, flushFs), steps).log)
      {
        BarrierSafe(mode, flushFs, steps);
      }
    }
  }
}
