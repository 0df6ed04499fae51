/** Which request a CFQ queue sends next. */
module CfqChoice {
  import opened Options
  import opened SectorTree
  import opened Cfq

  /** Two requests alike in kind, in plain sectors: ahead of the head the lower one; a backward seek counts
      its length times the penalty; beyond the limit forward wins, and of two beyond it the lower one. */
  lemma ChooseCases(c: Conf, last: nat, x: Rq, y: Rq)
    requires x.sync == y.sync && x.meta == y.meta && x.sector < y.sector
    ensures last <= x.sector ==> Choose(c, last, Some(x), Some(y)) == Choose(c, last, Some(y), Some(x)) == Some(x)
    ensures x.sector < last <= y.sector && last - x.sector <= 2 * c.backMax ==>
              Choose(c, last, Some(x), Some(y)) == Choose(c, last, Some(y), Some(x)) ==
              if (last - x.sector) * c.backPenalty < y.sector - last then Some(x) else Some(y)
    ensures x.sector < last <= y.sector && last - x.sector > 2 * c.backMax ==>
              Choose(c, last, Some(x), Some(y)) == Choose(c, last, Some(y), Some(x)) == Some(y)
    ensures y.sector < last && last - y.sector > 2 * c.backMax ==>
              Choose(c, last, Some(x), Some(y)) == Choose(c, last, Some(y), Some(x)) == Some(x)
    ensures y.sector < last && last - y.sector <= 2 * c.backMax
            && (c.backPenalty > 0 || last - x.sector > 2 * c.backMax) ==>
              Choose(c, last, Some(x), Some(y)) == Choose(c, last, Some(y), Some(x)) == Some(y)
  {
    var (a, b) := (last - x.sector, last - y.sector);
    if y.sector < last && a <= 2 * c.backMax && c.backPenalty > 0 {
      MulMore(a, b, c.backPenalty);
    }
  }

  lemma {:induction false} MulMore(a: int, b: int, p: nat)
    requires a > b && p > 0
    ensures a * p > b * p
  {
    if p > 1 {
      MulMore(a, b, p - 1);
      assert a * p == a * (p - 1) + a && b * p == b * (p - 1) + b;
    }
  }

  /** Sync before async, then metadata before data, wherever they are. */
  lemma ChooseKinds(c: Conf, last: nat, x: Rq, y: Rq)
    requires (x.sync && !y.sync) || (x.sync == y.sync && x.meta && !y.meta)
    ensures Choose(c, last, Some(x), Some(y)) == Choose(c, last, Some(y), Some(x)) == Some(x)
  {
  }

  /** A request that has gone is followed by a neighbour: the one behind it in sector order or the one
      before it, the order closing in a circle, and by the better of the two. */
  lemma NextIsNeighbour(c: Conf, last: nat, s: seq<Rq>, p: nat)
    requires p < |s| && Distinct(s) && |s| > 1
    ensures var n := FindNext(c, last, s, s[p]);
            var behind := s[if p + 1 < |s| then p + 1 else 0];
            && n.Some? && (n.value == behind || (p > 0 && n.value == s[p - 1]))
            && !Before(c, last, behind, n.value) && (p > 0 ==> !Before(c, last, s[p - 1], n.value))
  {
    hide Choose, Before, Pos;
    assert Pos(s, s[p]) == p;
    ChooseBest(c, last, if p + 1 < |s| then Some(s[p + 1]) else Some(s[0]), if p > 0 then Some(s[p - 1]) else None);
  }

  /** A request that comes in becomes the next one exactly when it is better than the one so far. */
  lemma ArrivalIsNext(c: Conf, last: nat, q: Queue, r: Rq)
    requires q.next != Some(r)
    ensures var g := Given(c, last, q, r);
            && (q.next.None? ==> g.next == Some(r))
            && (q.next.Some? && Before(c, last, r, q.next.value) ==> g.next == Some(r))
            && (q.next.Some? && Before(c, last, q.next.value, r) ==> g.next == q.next)
            && (g.next == Some(r) || g.next == q.next)
  {
    hide Choose, Place, Before;
    ChooseBest(c, last, q.next, Some(r));
    if q.next.Some? { NotBoth(c, last, r, q.next.value); }
  }

  lemma NotBoth(c: Conf, last: nat, x: Rq, y: Rq)
    ensures Before(c, last, x, y) ==> !Before(c, last, y, x)
  {
  }

  ghost predicate Fifos(c: Data, d: Data) {
    |d.queues| == |c.queues| && forall j :: 0 <= j < |c.queues| ==> d.queues[j].fifo == c.queues[j].fifo
  }

  lemma TreeAddFifos(c: Data, e: Env, i: nat, front: bool)
    requires i < |c.queues| && EnvOk(e)
    ensures Fifos(c, TreeAdd(c, e, i, front))
  {
    hide Descend, Without;
  }

  lemma ExpiredFifos(c: Data, e: Env, timedOut: bool)
    requires EnvOk(e) && (c.active.Some? ==> c.active.value < |c.queues|)
    ensures Fifos(c, SliceExpired(c, e, timedOut))
  {
    hide TreeAdd;
    if c.active.Some? {
      var (i, q) := (c.active.value, c.queues[c.active.value]);
      var d := Set(c, i, Ended(q, timedOut, e.now));
      TreeAddFifos(d.(timer := if q.waitRequest then false else c.timer), e, i, false);
    }
  }

  lemma EnqueuedFifos(c: Data, e: Env, i: nat, preempts: bool, idles: bool)
    requires i < |c.queues| && EnvOk(e) && (c.active.Some? ==> c.active.value < |c.queues|)
    ensures Fifos(c, Enqueued(c, e, i, preempts, idles))
  {
    hide TreeAdd, SliceExpired;
    var f := Set(c, i, c.queues[i].(idleWindow := idles));
    ExpiredFifos(f, e, true);
    TreeAddFifos(SliceExpired(f, e, true), e, i, true);
  }

  /** A new request goes to the end of its list. */
  lemma ArrivalIsLast(c: Data, k: Conf, e: Env, i: nat, r: Rq, preempts: bool, idles: bool)
    requires i < |c.queues| && EnvOk(e) && Alias(c.queues[i].sort, r.sector).None?
    requires c.active.Some? ==> c.active.value < |c.queues|
    ensures InsertRequest(c, k, e, i, r, preempts, idles).queues[i].fifo == c.queues[i].fifo + [r]
  {
    hide TreeAdd, Enqueued, Choose, Place;
    var g := Set(c, i, Given(k, c.last, c.queues[i], r));
    TreeAddFifos(Set(g, i, g.queues[i].(onRr := true)).(busy := g.busy + 1), e, i, false);
    var d := LinkRq(c, k, e, i, r);
    EnqueuedFifos(Set(d, i, Listing(d.queues[i], r)), e, i, preempts, idles);
  }
}
