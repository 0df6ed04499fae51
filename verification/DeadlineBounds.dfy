/** How long one direction can make the other wait. */
module DeadlineBounds {
  import opened Options
  import opened SectorTree
  import opened Deadline
  import opened DeadlineSafety

  function Mul(n: nat, m: nat): nat { if n == 0 then 0 else m + Mul(n - 1, m) }

  lemma {:induction false} MulIsProduct(n: nat, m: nat)
    ensures Mul(n, m) == n * m
  {
    if n > 0 {
      MulIsProduct(n - 1, m);
      assert n * m == (n - 1) * m + m;
    }
  }

  lemma {:induction false} MulMonotone(a: nat, b: nat, m: nat)
    requires a <= b
    ensures Mul(a, m) <= Mul(b, m)
    decreases b
  {
    if a < b {
      MulMonotone(a, b - 1, m);
    }
  }

  /** What a batch can still send before a direction is chosen again.  A counter past the end of its
      batch is spent, unless charging it for a seek makes it wrap around. */
  function Slack(batching: u32, batch: u31): nat {
    if batching < batch then batch - batching
    else if batching + batch >= WRAP then WRAP - batching
    else 0
  }

  /** An upper bound on what can be sent while the other direction waits. */
  function Rank(batching: u32, choices: nat, batch: u31): nat {
    Slack(batching, batch) + Mul(choices, batch + 1)
  }

  /** What sending one request does to the batch counter and the choices left: the batch goes on, or a
      direction is chosen and the batch may restart. */
  predicate Passed(batching: u32, choices: nat, charged: u32, goes: bool, restart: bool, batch: u31,
                   batching': u32, choices': nat) {
    && (charged == batching || charged == Add32(batching, batch))
    && (goes ==> charged < batch && choices' == choices && batching' == Add32(charged, 1))
    && (!goes ==> (restart || charged >= batch) && choices' + 1 == choices
                  && batching' == Add32(if restart then 0 else charged, 1))
  }

  lemma PassedRank(batching: u32, choices: nat, charged: u32, goes: bool, restart: bool, batch: u31,
                   batching': u32, choices': nat)
    requires Passed(batching, choices, charged, goes, restart, batch, batching', choices')
    ensures Rank(batching', choices', batch) < Rank(batching, choices, batch)
  {
  }

  /** How often the waiting direction w can still be passed over. */
  function Choices(s: Sched, c: Conf, w: bool): nat {
    if w then if s.starved < c.writesStarved then c.writesStarved - s.starved else 0
    else if s.starved >= c.writesStarved then 1 else 0
  }

  function Limit(c: Conf, w: bool): nat { if w then c.writesStarved else 1 }

  ghost function Value(s: Sched, c: Conf, w: bool): nat { Rank(s.batching, Choices(s, c, w), c.fifoBatch) }

  /** Only a dispatch touches the counters. */
  lemma Quiet(s: Sched, c: Conf, e: Step)
    requires Inv(s, c) && Enabled(s, e) && !e.Send?
    ensures Next(s, c, e).batching == s.batching && Next(s, c, e).starved == s.starved
  {
    hide Pos, Without, Insert, Replace, Place, NextOf, Remove;
  }

  /** Direction w waits and a request of the other direction is sent instead. */
  ghost predicate PassedOver(s: Sched, c: Conf, now: nat, w: bool)
    requires Inv(s, c)
  {
    Of(s, w).fifo != [] && Selected(s, c, now).Some? && Selected(s, c, now).value.0 == !w
  }

  lemma Settled(s: Sched, c: Conf, now: nat)
    requires Inv(s, c)
    ensures Dispatch(s, c, now).batching == Counters(s, c, now).0
    ensures Dispatch(s, c, now).starved == Counters(s, c, now).1
  {
    hide Selected, Counters, Pos, Without;
    SelectedLinked(s, c, now);
  }

  lemma SendPassed(s: Sched, c: Conf, now: nat, w: bool) returns (charged: u32, goes: bool, restart: bool)
    requires Inv(s, c) && PassedOver(s, c, now, w) && (w || c.writesStarved > 0)
    ensures var t := Dispatch(s, c, now);
            Passed(s.batching, Choices(s, c, w), charged, goes, restart, c.fifoBatch, t.batching, Choices(t, c, w))
  {
    hide Move, Dispatch;
    Settled(s, c, now);
    charged, goes, restart := Charged(s, c), Continues(s, c), false;
    if !goes {
      SortNotEmpty(Of(s, !w));
      restart := Best(Of(s, !w), now).1;
    }
  }

  /** Being passed over uses up rank. */
  lemma SendRank(s: Sched, c: Conf, now: nat, w: bool)
    requires Inv(s, c) && PassedOver(s, c, now, w) && (w || c.writesStarved > 0)
    ensures Value(Dispatch(s, c, now), c, w) < Value(s, c, w)
  {
    hide Rank, Dispatch, Passed, Choices;
    var charged, goes, restart := SendPassed(s, c, now, w);
    var t := Dispatch(s, c, now);
    PassedRank(s.batching, Choices(s, c, w), charged, goes, restart, c.fifoBatch, t.batching, Choices(t, c, w));
  }

  /** A run in which direction w waits all the time: every dispatch finds it queued and sends the
      other direction. */
  ghost predicate Waits(s: Sched, c: Conf, es: seq<Step>, w: bool)
    decreases |es|
  {
    es != [] ==>
      && Inv(s, c) && Enabled(s, es[0])
      && (es[0].Send? ==> PassedOver(s, c, es[0].now, w))
      && Waits(Next(s, c, es[0]), c, es[1..], w)
  }

  /** Of a run, only that direction w waits is asked: its states are in order anyway. */
  lemma {:induction false} WaitsExtends(s: Sched, c: Conf, es: seq<Step>, w: bool, t: Sched, e: Step)
    requires Inv(s, c) && Run(s, c, es, t) && Waits(s, c, es, w) && Enabled(t, e)
    ensures Inv(t, c)
    ensures (e.Send? ==> PassedOver(t, c, e.now, w)) <==> Waits(s, c, es + [e], w)
    decreases |es|
  {
    hide Inv, Enabled, Next, PassedOver;
    if es != [] {
      NextInv(s, c, es[0]);
      WaitsExtends(Next(s, c, es[0]), c, es[1..], w, t, e);
      assert (es + [e])[1..] == es[1..] + [e];
    } else {
      assert (es + [e])[1..] == [];
    }
  }

  ghost function Sends(es: seq<Step>): nat {
    if es == [] then 0 else (if es[0].Send? then 1 else 0) + Sends(es[1..])
  }

  lemma {:induction false} WaitRank(s: Sched, c: Conf, es: seq<Step>, w: bool)
    requires Waits(s, c, es, w) && (w || c.writesStarved > 0)
    ensures Sends(es) <= Value(s, c, w)
    decreases |es|
  {
    hide Rank, Inv, Next;
    if es != [] {
      if es[0].Send? {
        SendNext(s, c, es[0], w);
      } else {
        Quiet(s, c, es[0]);
      }
      WaitRank(Next(s, c, es[0]), c, es[1..], w);
    }
  }

  lemma SendNext(s: Sched, c: Conf, e: Step, w: bool)
    requires Inv(s, c) && e.Send? && PassedOver(s, c, e.now, w) && (w || c.writesStarved > 0)
    ensures Value(Next(s, c, e), c, w) < Value(s, c, w)
  {
    hide Rank, Selected, Dispatch;
    SendRank(s, c, e.now, w);
  }

  lemma RankLimit(s: Sched, c: Conf, w: bool)
    ensures Value(s, c, w) <= Limit(c, w) * (c.fifoBatch + 1) + c.fifoBatch
  {
    var n := Choices(s, c, w);
    MulMonotone(n, Limit(c, w), c.fifoBatch + 1);
    MulIsProduct(Limit(c, w), c.fifoBatch + 1);
  }

  /** Writes wait for at most writes_starved batches of reads and what is left of a running batch,
      whatever arrives or is merged in between. */
  lemma WritesWaitBounded(s: Sched, c: Conf, es: seq<Step>)
    requires Waits(s, c, es, true)
    ensures Sends(es) <= c.writesStarved * (c.fifoBatch + 1) + c.fifoBatch
  {
    hide Waits, Rank;
    WaitRank(s, c, es, true);
    RankLimit(s, c, true);
  }

  /** Reads wait for at most one batch of writes after the running one, when writes_starved is not 0. */
  lemma ReadsWaitBounded(s: Sched, c: Conf, es: seq<Step>)
    requires Waits(s, c, es, false) && c.writesStarved > 0
    ensures Sends(es) <= 2 * c.fifoBatch + 1
  {
    hide Waits, Rank;
    WaitRank(s, c, es, false);
    RankLimit(s, c, false);
  }

  // ---- a tighter bound, while the batch counter cannot wrap around ----

  /** The longest batch: a request is sent even when batches are of length 0. */
  function Longest(batch: u31): nat { if batch == 0 then 1 else batch }

  /** The counter does not reach its end within the choices left. */
  predicate Fits(c: Conf, w: bool) { Mul(Limit(c, w) + 2, c.fifoBatch + 1) < WRAP }

  function TightRank(batching: u32, choices: nat, batch: u31): nat {
    (if batching < batch then batch - batching
     else if batching + Mul(choices + 1, batch + 1) >= WRAP then batch else 0) + Mul(choices, Longest(batch))
  }

  lemma PassedTight(batching: u32, choices: nat, charged: u32, goes: bool, restart: bool, batch: u31,
                    batching': u32, choices': nat)
    requires Passed(batching, choices, charged, goes, restart, batch, batching', choices')
    requires Mul(choices + 2, batch + 1) < WRAP
    ensures TightRank(batching', choices', batch) < TightRank(batching, choices, batch)
  {
  }

  lemma SendTight(s: Sched, c: Conf, e: Step, w: bool)
    requires Inv(s, c) && e.Send? && PassedOver(s, c, e.now, w) && (w || c.writesStarved > 0) && Fits(c, w)
    ensures var t := Next(s, c, e);
            TightRank(t.batching, Choices(t, c, w), c.fifoBatch) < TightRank(s.batching, Choices(s, c, w), c.fifoBatch)
  {
    hide TightRank, Dispatch, Passed, Selected, Mul;
    var charged, goes, restart := SendPassed(s, c, e.now, w);
    var t := Dispatch(s, c, e.now);
    MulMonotone(Choices(s, c, w) + 2, Limit(c, w) + 2, c.fifoBatch + 1);
    PassedTight(s.batching, Choices(s, c, w), charged, goes, restart, c.fifoBatch, t.batching, Choices(t, c, w));
  }

  lemma {:induction false} WaitTight(s: Sched, c: Conf, es: seq<Step>, w: bool)
    requires Waits(s, c, es, w) && (w || c.writesStarved > 0) && Fits(c, w)
    ensures Sends(es) <= TightRank(s.batching, Choices(s, c, w), c.fifoBatch)
    decreases |es|
  {
    hide TightRank, Inv, Next, Fits;
    if es != [] {
      if es[0].Send? {
        SendTight(s, c, es[0], w);
      } else {
        Quiet(s, c, es[0]);
      }
      WaitTight(Next(s, c, es[0]), c, es[1..], w);
    }
  }

  /** Batches of length fifo_batch, not one more, when the counter cannot wrap around. */
  lemma WaitsTight(s: Sched, c: Conf, es: seq<Step>, w: bool)
    requires Waits(s, c, es, w) && (w || c.writesStarved > 0) && (Limit(c, w) + 2) * (c.fifoBatch + 1) < WRAP
    ensures Sends(es) <= Limit(c, w) * Longest(c.fifoBatch) + c.fifoBatch
  {
    hide Waits;
    MulIsProduct(Limit(c, w) + 2, c.fifoBatch + 1);
    WaitTight(s, c, es, w);
    MulMonotone(Choices(s, c, w), Limit(c, w), Longest(c.fifoBatch));
    MulIsProduct(Limit(c, w), Longest(c.fifoBatch));
  }

  // ---- reads ----

  /** One read queued and nothing else going on. */
  ghost predicate OnlyReads(s: Sched, c: Conf) {
    Inv(s, c) && s.read.fifo != [] && s.read.next.None? && s.write == NO_SIDE
  }

  function OneWrite(): Rq { Rq(0, 1, 0, [], false, false) }

  lemma WriteSent(s: Sched, c: Conf)
    requires OnlyReads(s, c) && c.writesStarved == 0
    ensures var t := Add(s, c, true, OneWrite(), s.clock);
            Inv(t, c) && PassedOver(t, c, s.clock, false) && OnlyReads(Dispatch(t, c, s.clock), c)
            && Dispatch(t, c, s.clock).clock == s.clock
  {
    var t := Add(s, c, true, OneWrite(), s.clock);
    AddInv(s, c, true, OneWrite(), s.clock);
    var q := OneWrite().(time := s.clock + c.writeExpire);
    assert t == s.(write := Side([q], [q], None));
    DispatchInv(t, c, s.clock);
    assert Selected(t, c, s.clock) == Some((true, q));
    assert Without([q], q) == [];
  }

  lemma TwoSteps(s: Sched, c: Conf, rest: seq<Step>)
    requires OnlyReads(s, c) && c.writesStarved == 0
    requires var t := Add(s, c, true, OneWrite(), s.clock);
             Inv(t, c) && PassedOver(t, c, s.clock, false) && Waits(Dispatch(t, c, s.clock), c, rest, false)
    ensures var es := [Submit(true, OneWrite(), s.clock), Send(s.clock)] + rest;
            Waits(s, c, es, false) && Sends(es) == Sends(rest) + 1
  {
    hide Add, Dispatch, Selected, SideInv;
    var send := [Send(s.clock)] + rest;
    var es := [Submit(true, OneWrite(), s.clock), Send(s.clock)] + rest;
    assert send[1..] == rest && es[1..] == send;
    assert Waits(Add(s, c, true, OneWrite(), s.clock), c, send, false);
  }

  /** With writes_starved at 0 reads can be passed over any number of times. */
  lemma {:induction false} ReadsStarve(s: Sched, c: Conf, n: nat) returns (es: seq<Step>)
    requires OnlyReads(s, c) && c.writesStarved == 0
    ensures Waits(s, c, es, false) && Sends(es) == n
    decreases n
  {
    if n == 0 {
      es := [];
    } else {
      hide Waits, Add, Dispatch, PassedOver, SideInv;
      WriteSent(s, c);
      var rest := ReadsStarve(Dispatch(Add(s, c, true, OneWrite(), s.clock), c, s.clock), c, n - 1);
      TwoSteps(s, c, rest);
      es := [Submit(true, OneWrite(), s.clock), Send(s.clock)] + rest;
    }
  }

  ghost predicate ReadsWaitAtMost(c: Conf, n: nat) {
    forall s, es :: Waits(s, c, es, false) ==> Sends(es) <= n
  }

  lemma OneReadQueued(c: Conf) returns (s: Sched)
    ensures OnlyReads(s, c)
  {
    var r := OneWrite();
    AddInv(INIT, c, false, r, 0);
    s := Add(INIT, c, false, r, 0);
  }

  /** There is a bound on how often reads are passed over exactly when writes_starved is not 0. */
  lemma ReadsBoundedIff(c: Conf)
    ensures (exists n: nat :: ReadsWaitAtMost(c, n)) <==> c.writesStarved > 0
  {
    hide Waits, Sends;
    if c.writesStarved > 0 {
      var n := 2 * c.fifoBatch + 1;
      forall s, es | Waits(s, c, es, false) ensures Sends(es) <= n {
        ReadsWaitBounded(s, c, es);
      }
      assert ReadsWaitAtMost(c, n);
    } else {
      forall n: nat ensures !ReadsWaitAtMost(c, n) {
        var s := OneReadQueued(c);
        var es := ReadsStarve(s, c, n + 1);
      }
    }
  }
}
