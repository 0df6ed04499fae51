/** The queue that builds requests from bios, updated in place. */
module MergeQueue {
  import opened Options
  import opened Merge
  import opened MergeSafety

  class RequestQueue {
    var rqs: map<nat, Req>
    var hash: seq<seq<nat>>
    var last: Option<nat>
    var unused: nat
    var owner: map<nat, nat>
    var refused: set<nat>
    const conf: Conf

    constructor (c: Conf)
      ensures View() == EMPTY && conf == c && Inv(View(), c)
    {
      rqs, hash, last, unused, owner, refused, conf := map[], NO_HASH, None, 0, map[], {}, c;
      new;
      EmptyInv(c);
    }

    function View(): Queue
      reads this
    {
      Queue(rqs, hash, last, unused, owner, refused)
    }

    /** elv_merge */
    method Find(b: Bio, allow: nat -> bool, found: Option<nat>) returns (plan: Plan)
      requires |hash| == ENTRIES
      modifies `hash
      ensures (View(), plan) == ElvMerge(old(View()), conf, b, allow, found)
    {
      hide Scan;
      if last.Some? && last.value in rqs {
        plan := TryMerge(View(), last.value, b, allow);
        if plan != NoMerge {
          return;
        }
      }
      var k := Bucket(conf, b.sector);
      var rest, hit := RqhashFind(hash[k], rqs, b.sector);
      hash := hash[k := rest];
      if hit.Some? && hit.value in rqs && MergeOk(View(), hit.value, b, allow) {
        return Back(hit.value);
      }
      if Held(View(), found) && MergeOk(View(), found.value, b, allow) && rqs[found.value].sector == b.sector + b.nr {
        return Front(found.value);
      }
      return NoMerge;
    }

    /** add_request, which puts the request on the hash and makes it the last merge if there is none */
    method AddRequest(b: Bio)
      requires |hash| == ENTRIES
      modifies this
      ensures View() == AddNew(old(View()), conf, b)
    {
      var x := unused;
      var r := Req(b.sector, b.nr, b.write, !b.barrier, false, b.barrier, [b]);
      rqs, unused, owner := rqs[x := r], x + 1, owner[b.id := x];
      if r.mergeable {
        hash := Hash(hash, Bucket(conf, Key(r)), x);
        if last.None? {
          last := Some(x);
        }
      }
    }

    /** attempt_merge of request y to the end of request x, with elv_merge_requests */
    method AttemptMerge(x: nat, y: nat, fits: bool) returns (joined: bool)
      requires x in rqs && y in rqs && x != y && |hash| == ENTRIES
      modifies this
      ensures joined <==> CanJoin(old(View()), conf, x, y, fits)
      ensures View() == if joined then Join(old(View()), conf, x, y) else old(View())
    {
      hide Join;
      if !rqs[x].mergeable || !rqs[y].mergeable || Key(rqs[x]) != rqs[y].sector {
        return false;
      }
      if rqs[x].write != rqs[y].write || rqs[x].special || rqs[y].special {
        return false;
      }
      if rqs[x].nr + rqs[y].nr > conf.max || !fits {
        return false;
      }
      JoinRequests(x, y);
      return true;
    }

    /** The chains of bios are linked and elv_merge_requests moves the hash entries. */
    method JoinRequests(x: nat, y: nat)
      requires x in rqs && y in rqs && x != y && |hash| == ENTRIES
      modifies this
      ensures View() == Join(old(View()), conf, x, y)
    {
      hide Rehash, Unhash, Moved;
      var r := rqs[x].(nr := rqs[x].nr + rqs[y].nr, bios := rqs[x].bios + rqs[y].bios);
      rqs := rqs[x := r];
      hash := Rehash(conf, hash, x, r);
      hash := Unhash(hash, y);
      last := Some(x);
      rqs, owner := rqs - {y}, Moved(owner, x, y);
    }

    /** A bio joins request x at the back; the request may then join the one behind it. */
    method MergeBack(x: nat, b: Bio, latter: Option<nat>, fits: bool)
      requires x in rqs && |hash| == ENTRIES
      modifies this
      ensures View() == BackMerge(old(View()), conf, x, b, latter, fits)
    {
      hide Rehash, Join, CanJoin;
      rqs, owner := rqs[x := AtBack(rqs[x], b)], owner[b.id := x];
      var joined := false;
      if Held(View(), latter) && latter.value != x {
        joined := AttemptMerge(x, latter.value, fits);
      }
      if !joined {
        hash := Rehash(conf, hash, x, rqs[x]);
        last := Some(x);
      }
    }

    /** A bio joins request x at the front; the request before it may then take it in. */
    method MergeFront(x: nat, b: Bio, former: Option<nat>, fits: bool)
      requires x in rqs && |hash| == ENTRIES
      modifies this
      ensures View() == FrontMerge(old(View()), conf, x, b, former, fits)
    {
      hide Rehash, Join, CanJoin;
      rqs, owner := rqs[x := AtFront(rqs[x], b)], owner[b.id := x];
      var joined := false;
      if Held(View(), former) && former.value != x {
        joined := AttemptMerge(former.value, x, fits);
      }
      if !joined {
        last := Some(x);
      }
    }

    /** ll_back_merge_fn and ll_front_merge_fn: a request that would be too large is not looked at again. */
    method MayTake(x: nat, b: Bio, fits: bool) returns (may: bool)
      requires x in rqs
      modifies `rqs, `last
      ensures may <==> old(rqs)[x].nr + b.nr <= conf.max && fits
      ensures View() == if old(rqs)[x].nr + b.nr > conf.max then NoMore(old(View()), x) else old(View())
    {
      if rqs[x].nr + b.nr > conf.max {
        rqs := rqs[x := rqs[x].(mergeable := false)];
        if last == Some(x) {
          last := None;
        }
        return false;
      }
      return fits;
    }

    /** __make_request up to get_request_wait */
    method TryMake(b: Bio, e: Env) returns (waits: bool)
      requires Inv(View(), conf) && NewBio(View(), b)
      modifies this
      ensures |old(hash)| == ENTRIES && (View(), waits) == Try(old(View()), conf, b, e) && Inv(View(), conf)
      ensures owner.Keys + refused == old(owner.Keys + refused) + if waits then {} else {b.id}
      ensures waits ==> NewBio(View(), b)
    {
      hide Inv, BackMerge, FrontMerge, ElvMerge, NoMore;
      TryInv(View(), conf, b, e);
      InvSize(View(), conf);
      if b.barrier && !conf.ordered {
        refused := refused + {b.id};
        return false;
      }
      var plan := NoMerge;
      if !b.barrier && !e.empty {
        plan := Find(b, e.allow, e.found);
      }
      if plan != NoMerge {
        var may := MayTake(plan.rq, b, e.fits);
        if may {
          if plan.Back? {
            MergeBack(plan.rq, b, e.neighbour, e.joinFits);
          } else {
            MergeFront(plan.rq, b, e.neighbour, e.joinFits);
          }
          return false;
        }
      }
      return true;
    }

    /** __make_request from get_request_wait on, with the lock taken again */
    method FinishMake(b: Bio)
      requires Inv(View(), conf) && NewBio(View(), b)
      modifies this
      ensures |old(hash)| == ENTRIES && View() == AddNew(old(View()), conf, b) && Inv(View(), conf)
      ensures owner.Keys + refused == old(owner.Keys + refused) + {b.id}
    {
      hide Inv, AddNew;
      AddNewInv(View(), conf, b);
      InvSize(View(), conf);
      AddRequest(b);
    }

    /** elv_dispatch_sort or elv_dispatch_add_tail of request x, as far as merging goes */
    method DispatchOut(x: nat)
      requires Inv(View(), conf) && x in rqs
      modifies this
      ensures View() == Dispatch(old(View()), x) && Inv(View(), conf)
    {
      hide Inv, Unhash;
      DispatchInv(View(), conf, x);
      if last == Some(x) {
        last := None;
      }
      hash := Unhash(hash, x);
      rqs := rqs[x := rqs[x].(out := true)];
    }
  }

  lemma InvSize(q: Queue, c: Conf)
    requires Inv(q, c)
    ensures |q.hash| == ENTRIES
  {
  }
}
