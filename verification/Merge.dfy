/** block/ll_rw_blk.c and block/elevator.c: building requests from bios, with the merge hash. */
module Merge {
  import opened Options

  datatype Bio = Bio(id: nat, sector: nat, nr: nat, write: bool, barrier: bool)

  /** A request of the queue; out once it has left the elevator. */
  datatype Req = Req(sector: nat, nr: nat, write: bool, mergeable: bool, special: bool, out: bool, bios: seq<Bio>)

  /** hash: the buckets of the elevator's merge hash.  owner: which request each bio has gone to. */
  datatype Queue = Queue(rqs: map<nat, Req>, hash: seq<seq<nat>>, last: Option<nat>, unused: nat,
                         owner: map<nat, nat>, refused: set<nat>)

  const ENTRIES: nat := 64

  /** max_sectors, the hash function on blocks of eight sectors, and whether barriers are supported. */
  datatype Conf = Conf(max: nat, mix: nat -> nat, ordered: bool)

  function Bucket(c: Conf, key: nat): (b: nat)
    ensures b < ENTRIES
  {
    c.mix(key / 8) % ENTRIES
  }

  /** rq_hash_key: the sector after the request. */
  function Key(r: Req): nat { r.sector + r.nr }

  const NO_HASH: seq<seq<nat>> := seq(ENTRIES, i => [])

  const EMPTY := Queue(map[], NO_HASH, None, 0, map[], {})

  // ---- the hash ----

  function Drop(l: seq<nat>, x: nat): seq<nat> {
    if l == [] then [] else (if l[0] == x then [] else [l[0]]) + Drop(l[1..], x)
  }

  lemma {:induction false} DropIn(l: seq<nat>, x: nat)
    ensures forall y :: y in Drop(l, x) <==> y in l && y != x
  {
    if l != [] {
      DropIn(l[1..], x);
    }
  }

  /** __elv_rqhash_del: off whatever list it is on. */
  function Unhash(h: seq<seq<nat>>, x: nat): (g: seq<seq<nat>>)
    ensures |g| == |h| && forall b :: 0 <= b < |h| ==> g[b] == Drop(h[b], x)
  {
    seq(|h|, b requires 0 <= b < |h| => Drop(h[b], x))
  }

  /** elv_rqhash_add */
  function Hash(h: seq<seq<nat>>, b: nat, x: nat): seq<seq<nat>>
    requires b < |h|
  {
    h[b := [x] + h[b]]
  }

  /** elv_rqhash_reposition */
  function Rehash(c: Conf, h: seq<seq<nat>>, x: nat, r: Req): seq<seq<nat>>
    requires |h| == ENTRIES
  {
    Hash(Unhash(h, x), Bucket(c, Key(r)), x)
  }

  /** elv_rqhash_find over a bucket: requests that cannot be merged any more are dropped on the way. */
  function Scan(l: seq<nat>, rqs: map<nat, Req>, key: nat): (seq<nat>, Option<nat>) {
    if l == [] then ([], None)
    else if l[0] !in rqs || !rqs[l[0]].mergeable then Scan(l[1..], rqs, key)
    else if Key(rqs[l[0]]) == key then (l, Some(l[0]))
    else
      var (rest, found) := Scan(l[1..], rqs, key);
      ([l[0]] + rest, found)
  }

  /** elv_rqhash_find as it walks the list, unhashing as it goes. */
  method RqhashFind(l: seq<nat>, rqs: map<nat, Req>, key: nat) returns (rest: seq<nat>, hit: Option<nat>)
    ensures (rest, hit) == Scan(l, rqs, key)
  {
    rest := [];
    var i := 0;
    assert l[0..] == l;
    while i < |l|
      invariant i <= |l|
      invariant Scan(l, rqs, key).0 == rest + Scan(l[i..], rqs, key).0
      invariant Scan(l, rqs, key).1 == Scan(l[i..], rqs, key).1
    {
      var x := l[i];
      assert l[i..][1..] == l[i + 1..];
      if x in rqs && rqs[x].mergeable {
        if Key(rqs[x]) == key {
          return rest + l[i..], Some(x);
        }
        rest := rest + [x];
      }
      i := i + 1;
    }
    assert l[i..] == [] && Scan(l, rqs, key).0 == rest;
    return rest, None;
  }

  // ---- merging ----

  /** A request the scheduler names: one it holds. */
  predicate Held(q: Queue, x: Option<nat>) { x.Some? && x.value in q.rqs && !q.rqs[x.value].out }

  /** elv_rq_merge_ok; allow is what the scheduler and the disk say. */
  predicate MergeOk(q: Queue, x: nat, b: Bio, allow: nat -> bool)
    requires x in q.rqs
  {
    var r := q.rqs[x];
    r.mergeable && r.write == b.write && !r.special && allow(x)
  }

  datatype Plan = NoMerge | Back(rq: nat) | Front(rq: nat)

  /** elv_try_merge */
  function TryMerge(q: Queue, x: nat, b: Bio, allow: nat -> bool): Plan
    requires x in q.rqs
  {
    if !MergeOk(q, x, b, allow) then NoMerge
    else if Key(q.rqs[x]) == b.sector then Back(x)
    else if q.rqs[x].sector == b.sector + b.nr then Front(x)
    else NoMerge
  }

  /** elv_merge: the last merge, the hash, the scheduler's own search for a front merge. */
  function ElvMerge(q: Queue, c: Conf, b: Bio, allow: nat -> bool, found: Option<nat>): (r: (Queue, Plan))
    requires |q.hash| == ENTRIES
    ensures |r.0.hash| == ENTRIES && r.0.rqs == q.rqs && (r.1 != NoMerge ==> r.1.rq in q.rqs)
  {
    var cached := if q.last.Some? && q.last.value in q.rqs then TryMerge(q, q.last.value, b, allow) else NoMerge;
    if cached != NoMerge then (q, cached)
    else
      var k := Bucket(c, b.sector);
      var (rest, hit) := Scan(q.hash[k], q.rqs, b.sector);
      var p := q.(hash := q.hash[k := rest]);
      if hit.Some? && hit.value in p.rqs && MergeOk(p, hit.value, b, allow) then (p, Back(hit.value))
      else if Held(p, found) && MergeOk(p, found.value, b, allow)
              && p.rqs[found.value].sector == b.sector + b.nr then (p, Front(found.value))
      else (p, NoMerge)
  }

  /** Too large: the request is not to be looked at again. */
  function NoMore(q: Queue, x: nat): Queue
    requires x in q.rqs
  {
    q.(rqs := q.rqs[x := q.rqs[x].(mergeable := false)], last := if q.last == Some(x) then None else q.last)
  }

  /** add_request for a request made of one bio. */
  function AddNew(q: Queue, c: Conf, b: Bio): Queue
    requires |q.hash| == ENTRIES
  {
    var x := q.unused;
    var r := Req(b.sector, b.nr, b.write, !b.barrier, false, b.barrier, [b]);
    var p := q.(rqs := q.rqs[x := r], unused := x + 1, owner := q.owner[b.id := x]);
    if r.mergeable then
      p.(hash := Hash(q.hash, Bucket(c, Key(r)), x), last := if q.last.None? then Some(x) else q.last)
    else p
  }

  /** The owners once request y has been absorbed by x. */
  function Moved(owner: map<nat, nat>, x: nat, y: nat): map<nat, nat> {
    map b | b in owner :: if owner[b] == y then x else owner[b]
  }

  predicate CanJoin(q: Queue, c: Conf, x: nat, y: nat, fits: bool)
    requires x in q.rqs && y in q.rqs
  {
    var (r, n) := (q.rqs[x], q.rqs[y]);
    && r.mergeable && n.mergeable && Key(r) == n.sector && r.write == n.write
    && !r.special && !n.special && r.nr + n.nr <= c.max && fits
  }

  /** attempt_merge where it succeeds, with elv_merge_requests: y's bios go to the end of x. */
  function Join(q: Queue, c: Conf, x: nat, y: nat): Queue
    requires x in q.rqs && y in q.rqs && x != y && |q.hash| == ENTRIES
  {
    var r := q.rqs[x].(nr := q.rqs[x].nr + q.rqs[y].nr, bios := q.rqs[x].bios + q.rqs[y].bios);
    q.(rqs := q.rqs[x := r] - {y}, owner := Moved(q.owner, x, y), last := Some(x),
       hash := Unhash(Rehash(c, q.hash, x, r), y))
  }

  /** The queue once request x has become r by taking the bio in. */
  function Taken(q: Queue, x: nat, r: Req, b: Bio): Queue {
    q.(rqs := q.rqs[x := r], owner := q.owner[b.id := x])
  }

  function AtBack(r: Req, b: Bio): Req { r.(nr := r.nr + b.nr, bios := r.bios + [b]) }

  function AtFront(r: Req, b: Bio): Req { r.(sector := b.sector, nr := r.nr + b.nr, bios := [b] + r.bios) }

  /** attempt_back_merge with the scheduler's latter request, or else elv_merged_request. */
  function AfterBack(q: Queue, c: Conf, x: nat, latter: Option<nat>, fits: bool): Queue
    requires x in q.rqs && |q.hash| == ENTRIES
  {
    if Held(q, latter) && latter.value != x && CanJoin(q, c, x, latter.value, fits) then Join(q, c, x, latter.value)
    else q.(hash := Rehash(c, q.hash, x, q.rqs[x]), last := Some(x))
  }

  /** attempt_front_merge with the former request, or else elv_merged_request, which leaves the hash
      alone. */
  function AfterFront(q: Queue, c: Conf, x: nat, former: Option<nat>, fits: bool): Queue
    requires x in q.rqs && |q.hash| == ENTRIES
  {
    if Held(q, former) && former.value != x && CanJoin(q, c, former.value, x, fits) then Join(q, c, former.value, x)
    else q.(last := Some(x))
  }

  function BackMerge(q: Queue, c: Conf, x: nat, b: Bio, latter: Option<nat>, fits: bool): Queue
    requires x in q.rqs && |q.hash| == ENTRIES
  {
    AfterBack(Taken(q, x, AtBack(q.rqs[x], b), b), c, x, latter, fits)
  }

  function FrontMerge(q: Queue, c: Conf, x: nat, b: Bio, former: Option<nat>, fits: bool): Queue
    requires x in q.rqs && |q.hash| == ENTRIES
  {
    AfterFront(Taken(q, x, AtFront(q.rqs[x], b), b), c, x, former, fits)
  }

  /** What the surroundings answer during one __make_request: whether merges are allowed, the
      scheduler's front-merge candidate, the neighbours it names, and the segment limits. */
  datatype Env = Env(allow: nat -> bool, found: Option<nat>, neighbour: Option<nat>, fits: bool, joinFits: bool,
    empty: bool)

  /** __make_request up to get_request_wait, which drops the queue lock: the bio is refused, merged, or
      still to get a request of its own. */
  function Try(q: Queue, c: Conf, b: Bio, e: Env): (Queue, bool)
    requires |q.hash| == ENTRIES
  {
    if b.barrier && !c.ordered then (q.(refused := q.refused + {b.id}), false)
    else if b.barrier || e.empty then (q, true)
    else
      var (p, plan) := ElvMerge(q, c, b, e.allow, e.found);
      match plan
      case NoMerge => (p, true)
      case Back(x) =>
        if p.rqs[x].nr + b.nr > c.max then (NoMore(p, x), true)
        else if !e.fits then (p, true)
        else (BackMerge(p, c, x, b, e.neighbour, e.joinFits), false)
      case Front(x) =>
        if p.rqs[x].nr + b.nr > c.max then (NoMore(p, x), true)
        else if !e.fits then (p, true)
        else (FrontMerge(p, c, x, b, e.neighbour, e.joinFits), false)
  }

  /** elv_dispatch_sort and elv_dispatch_add_tail, as far as merging goes. */
  function Dispatch(q: Queue, x: nat): Queue
    requires x in q.rqs
  {
    q.(rqs := q.rqs[x := q.rqs[x].(out := true)], hash := Unhash(q.hash, x),
       last := if q.last == Some(x) then None else q.last)
  }
}
