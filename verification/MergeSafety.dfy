/** What every request and the merge hash keep, over all runs. */
module MergeSafety {
  import opened Options
  import opened Merge

  // ---- chains of bios ----

  function Size(bs: seq<Bio>): nat { if bs == [] then 0 else bs[0].nr + Size(bs[1..]) }

  /** Bios that follow each other from a sector on. */
  ghost predicate From(bs: seq<Bio>, sector: nat) {
    bs != [] ==> bs[0].sector == sector && From(bs[1..], sector + bs[0].nr)
  }

  lemma {:induction false} ChainAppend(a: seq<Bio>, b: seq<Bio>, sector: nat)
    ensures Size(a + b) == Size(a) + Size(b)
    ensures From(a, sector) && From(b, sector + Size(a)) ==> From(a + b, sector)
  {
    if a == [] {
      assert a + b == b;
    } else {
      assert (a + b)[1..] == a[1..] + b;
      ChainAppend(a[1..], b, sector + a[0].nr);
    }
  }

  lemma ChainOne(b: Bio)
    ensures Size([b]) == b.nr && From([b], b.sector)
  {
  }

  ghost predicate DistinctIds(bs: seq<Bio>) { forall i, j :: 0 <= i < j < |bs| ==> bs[i].id != bs[j].id }

  /** A request is the contiguous run of its bios, in one direction, within the limit unless a single
      bio is larger. */
  ghost predicate RqOk(r: Req, max: nat) {
    && r.bios != [] && From(r.bios, r.sector) && Size(r.bios) == r.nr && (r.nr <= max || |r.bios| == 1)
    && (forall b :: b in r.bios ==> b.write == r.write) && DistinctIds(r.bios)
  }

  // ---- the hash ----

  /** Everything but x sits in the bucket of its end sector if it can be merged, and nowhere else. */
  ghost predicate HashBut(q: Queue, c: Conf, x: nat) {
    && |q.hash| == ENTRIES
    && (forall b, y :: 0 <= b < ENTRIES && y in q.hash[b] && y != x ==>
          y in q.rqs && !q.rqs[y].out && Bucket(c, Key(q.rqs[y])) == b)
    && (forall y :: y in q.rqs && y != x && !q.rqs[y].out && q.rqs[y].mergeable ==>
         y in q.hash[Bucket(c, Key(q.rqs[y]))])
  }

  ghost predicate HashInv(q: Queue, c: Conf) {
    && |q.hash| == ENTRIES
    && (forall b, y :: 0 <= b < ENTRIES && y in q.hash[b] ==>
         y in q.rqs && !q.rqs[y].out && Bucket(c, Key(q.rqs[y])) == b)
    && (forall y :: y in q.rqs && !q.rqs[y].out && q.rqs[y].mergeable ==> y in q.hash[Bucket(c, Key(q.rqs[y]))])
  }

  lemma {:induction false} ScanFinds(l: seq<nat>, rqs: map<nat, Req>, key: nat)
    ensures var (rest, hit) := Scan(l, rqs, key);
            && (forall y :: y in rest ==> y in l)
            && (forall y :: y in l && y in rqs && rqs[y].mergeable ==> y in rest)
            && (hit.Some? ==>
                  hit.value in l && hit.value in rqs && rqs[hit.value].mergeable && Key(rqs[hit.value]) == key)
            && (hit.None? ==> forall y :: y in l && y in rqs && rqs[y].mergeable ==> Key(rqs[y]) != key)
  {
    if l != [] {
      ScanFinds(l[1..], rqs, key);
    }
  }

  /** elv_rqhash_find finds a mergeable request of the elevator ending at the sector exactly when there
      is one. */
  lemma FindIff(q: Queue, c: Conf, key: nat)
    requires HashInv(q, c)
    ensures var hit := Scan(q.hash[Bucket(c, key)], q.rqs, key).1;
            && (hit.Some? ==>
                  && hit.value in q.rqs && !q.rqs[hit.value].out && q.rqs[hit.value].mergeable
                  && Key(q.rqs[hit.value]) == key)
            && (hit.Some? <==> exists y :: y in q.rqs && !q.rqs[y].out && q.rqs[y].mergeable && Key(q.rqs[y]) == key)
  {
    hide Scan;
    ScanFinds(q.hash[Bucket(c, key)], q.rqs, key);
  }

  /** Dropping dead entries on the way changes nothing that matters. */
  lemma ScanKeeps(q: Queue, c: Conf, key: nat)
    requires HashInv(q, c)
    ensures HashInv(q.(hash := q.hash[Bucket(c, key) := Scan(q.hash[Bucket(c, key)], q.rqs, key).0]), c)
  {
    hide Scan;
    ScanFinds(q.hash[Bucket(c, key)], q.rqs, key);
  }

  lemma UnhashIn(h: seq<seq<nat>>, x: nat)
    ensures forall b, y :: 0 <= b < |h| ==> (y in Unhash(h, x)[b] <==> y in h[b] && y != x)
  {
    forall b, y | 0 <= b < |h| ensures y in Unhash(h, x)[b] <==> y in h[b] && y != x {
      DropIn(h[b], x);
    }
  }

  lemma RehashInv(q: Queue, c: Conf, x: nat)
    requires HashBut(q, c, x) && x in q.rqs && !q.rqs[x].out
    ensures HashInv(q.(hash := Rehash(c, q.hash, x, q.rqs[x])), c)
  {
    hide Unhash;
    UnhashIn(q.hash, x);
  }

  // ---- ownership ----

  /** Every bio that was taken is in the chain of exactly one request. */
  ghost predicate Owned(q: Queue) {
    && (forall x, b :: x in q.rqs && b in q.rqs[x].bios ==> b.id in q.owner && q.owner[b.id] == x)
    && (forall i :: i in q.owner ==> q.owner[i] in q.rqs && HasId(q.rqs[q.owner[i]].bios, i))
    && (forall i :: i in q.owner ==> i !in q.refused)
  }

  ghost predicate HasId(bs: seq<Bio>, i: nat) { exists b :: b in bs && b.id == i }

  ghost predicate Rest(q: Queue, c: Conf) {
    && (forall x :: x in q.rqs ==> x < q.unused && RqOk(q.rqs[x], c.max))
    && (q.last.Some? ==> q.last.value in q.rqs && !q.rqs[q.last.value].out)
  }

  ghost predicate Inv(q: Queue, c: Conf) { HashInv(q, c) && Owned(q) && Rest(q, c) }

  ghost predicate NewBio(q: Queue, b: Bio) { b.id !in q.owner && b.id !in q.refused }

  // ---- a request of its own ----

  lemma AddNewInv(q: Queue, c: Conf, b: Bio)
    requires Inv(q, c) && NewBio(q, b)
    ensures Inv(AddNew(q, c, b), c) && AddNew(q, c, b).owner.Keys == q.owner.Keys + {b.id}
    ensures AddNew(q, c, b).refused == q.refused
  {
    AddNewHash(q, c, b);
    AddNewOwned(q, c, b);
    ChainOne(b);
    var p := AddNew(q, c, b);
    forall x | x in p.rqs ensures x < p.unused && RqOk(p.rqs[x], c.max) {
      assert x == q.unused || x in q.rqs;
    }
  }

  lemma AddNewHash(q: Queue, c: Conf, b: Bio)
    requires Inv(q, c)
    ensures HashInv(AddNew(q, c, b), c)
  {
    hide RqOk, Owned;
    assert q.unused !in q.rqs;
  }

  lemma AddNewOwned(q: Queue, c: Conf, b: Bio)
    requires Owned(q) && Rest(q, c) && NewBio(q, b) && |q.hash| == ENTRIES
    ensures Owned(AddNew(q, c, b))
  {
    hide RqOk, Hash, Bucket;
    var p := AddNew(q, c, b);
    assert q.unused !in q.rqs;
    forall i | i in p.owner ensures p.owner[i] in p.rqs && HasId(p.rqs[p.owner[i]].bios, i) {
      if i == b.id {
        assert b in p.rqs[q.unused].bios;
      }
    }
  }

  /** Flags of a request changed, its bios did not. */
  lemma FlagsOwned(q: Queue, p: Queue, x: nat, r: Req)
    requires Owned(q) && x in q.rqs && r.bios == q.rqs[x].bios
    requires p.rqs == q.rqs[x := r] && p.owner == q.owner && p.refused == q.refused
    ensures Owned(p)
  {
    hide HasId;
  }

  lemma FlagsRest(q: Queue, p: Queue, c: Conf, x: nat, r: Req)
    requires Rest(q, c) && x in q.rqs && p.rqs == q.rqs[x := r] && p.unused == q.unused && RqOk(r, c.max)
    requires r.out == q.rqs[x].out || p.last != Some(x)
    requires p.last == q.last || p.last.None?
    ensures Rest(p, c)
  {
    hide RqOk;
  }

  lemma RestOk(q: Queue, c: Conf, x: nat)
    requires Rest(q, c) && x in q.rqs
    ensures RqOk(q.rqs[x], c.max)
  {
  }

  lemma SameOk(r: Req, n: Req, max: nat)
    requires RqOk(r, max) && n.bios == r.bios && n.sector == r.sector && n.nr == r.nr && n.write == r.write
    ensures RqOk(n, max)
  {
  }

  lemma HashSize(q: Queue, c: Conf)
    requires HashInv(q, c)
    ensures |q.hash| == ENTRIES
  {
  }

  lemma NoMoreInv(q: Queue, c: Conf, x: nat)
    requires Inv(q, c) && x in q.rqs
    ensures Inv(NoMore(q, x), c)
  {
    hide HashInv, Owned, Rest, RqOk;
    NoMoreHash(q, c, x);
    var r := q.rqs[x].(mergeable := false);
    RestOk(q, c, x);
    SameOk(q.rqs[x], r, c.max);
    FlagsOwned(q, NoMore(q, x), x, r);
    FlagsRest(q, NoMore(q, x), c, x, r);
  }

  lemma NoMoreHash(q: Queue, c: Conf, x: nat)
    requires HashInv(q, c) && x in q.rqs
    ensures HashInv(NoMore(q, x), c)
  {
  }

  // ---- growing a request ----

  /** A bio added to either end of a request. */
  lemma GrownOk(r: Req, b: Bio, max: nat)
    requires RqOk(r, max) && b.write == r.write && r.nr + b.nr <= max && (forall x :: x in r.bios ==> x.id != b.id)
    ensures b.sector == Key(r) ==> RqOk(AtBack(r, b), max)
    ensures b.sector + b.nr == r.sector ==> RqOk(AtFront(r, b), max)
  {
    ChainOne(b);
    ChainAppend(r.bios, [b], r.sector);
    ChainAppend([b], r.bios, b.sector);
  }

  lemma TakenOwned(q: Queue, x: nat, r: Req, b: Bio)
    requires Owned(q) && x in q.rqs && NewBio(q, b) && (forall y :: y in r.bios <==> y in q.rqs[x].bios || y == b)
    ensures Owned(Taken(q, x, r, b))
  {
    var p := Taken(q, x, r, b);
    forall i | i in p.owner ensures p.owner[i] in p.rqs && HasId(p.rqs[p.owner[i]].bios, i) {
      if i == b.id {
        assert b in r.bios;
      } else {
        var d :| d in q.rqs[q.owner[i]].bios && d.id == i;
        assert d in p.rqs[p.owner[i]].bios;
      }
    }
  }

  lemma TakenRest(q: Queue, c: Conf, x: nat, r: Req, b: Bio)
    requires Rest(q, c) && x in q.rqs && RqOk(r, c.max) && r.out == q.rqs[x].out
    ensures Rest(Taken(q, x, r, b), c)
  {
    hide RqOk;
  }

  lemma TakenHash(q: Queue, c: Conf, x: nat, r: Req, b: Bio)
    requires HashInv(q, c) && x in q.rqs
    ensures HashBut(Taken(q, x, r, b), c, x)
    ensures r.out == q.rqs[x].out && r.mergeable == q.rqs[x].mergeable && Key(r) == Key(q.rqs[x]) ==>
      HashInv(Taken(q, x, r, b), c)
  {
  }

  // ---- two requests into one ----

  lemma JoinedOk(r: Req, n: Req, max: nat)
    requires RqOk(r, max) && RqOk(n, max) && Key(r) == n.sector && r.write == n.write && r.nr + n.nr <= max
    requires forall x, y :: x in r.bios && y in n.bios ==> x.id != y.id
    ensures RqOk(r.(nr := r.nr + n.nr, bios := r.bios + n.bios), max)
  {
    ChainAppend(r.bios, n.bios, r.sector);
  }

  lemma OwnersApart(q: Queue, x: nat, y: nat)
    requires Owned(q) && x in q.rqs && y in q.rqs && x != y
    ensures forall a, b :: a in q.rqs[x].bios && b in q.rqs[y].bios ==> a.id != b.id
  {
  }

  lemma JoinOwned(q: Queue, c: Conf, x: nat, y: nat)
    requires Owned(q) && x in q.rqs && y in q.rqs && x != y && |q.hash| == ENTRIES
    ensures Owned(Join(q, c, x, y)) && Join(q, c, x, y).owner.Keys == q.owner.Keys
  {
    hide Rehash, Unhash;
    var p := Join(q, c, x, y);
    forall i | i in p.owner ensures p.owner[i] in p.rqs && HasId(p.rqs[p.owner[i]].bios, i) {
      var d :| d in q.rqs[q.owner[i]].bios && d.id == i;
      assert d in p.rqs[p.owner[i]].bios;
    }
  }

  lemma RemovedHash(q: Queue, c: Conf, y: nat)
    requires HashInv(q, c)
    ensures HashInv(q.(rqs := q.rqs - {y}, hash := Unhash(q.hash, y)), c)
  {
    hide Unhash;
    UnhashIn(q.hash, y);
  }

  lemma SameHash(p: Queue, q: Queue, c: Conf)
    requires HashInv(p, c) && q.rqs == p.rqs && q.hash == p.hash
    ensures HashInv(q, c)
  {
  }

  lemma ButGrown(q: Queue, p: Queue, c: Conf, x: nat, r: Req)
    requires HashBut(q, c, x) && x in q.rqs && p.rqs == q.rqs[x := r] && p.hash == q.hash
    ensures HashBut(p, c, x)
  {
  }

  lemma JoinHash(q: Queue, c: Conf, x: nat, y: nat)
    requires HashBut(q, c, x) && x in q.rqs && y in q.rqs && x != y && !q.rqs[x].out
    ensures HashInv(Join(q, c, x, y), c)
  {
    hide HashInv, HashBut, Unhash, Rehash;
    HashButSize(q, c, x);
    var r := q.rqs[x].(nr := q.rqs[x].nr + q.rqs[y].nr, bios := q.rqs[x].bios + q.rqs[y].bios);
    var p := q.(rqs := q.rqs[x := r]);
    ButGrown(q, p, c, x, r);
    RehashInv(p, c, x);
    var g := p.(hash := Rehash(c, p.hash, x, r));
    RemovedHash(g, c, y);
    SameHash(g.(rqs := g.rqs - {y}, hash := Unhash(g.hash, y)), Join(q, c, x, y), c);
  }

  lemma JoinRest(q: Queue, c: Conf, x: nat, y: nat, fits: bool)
    requires Rest(q, c) && Owned(q) && x in q.rqs && y in q.rqs && x != y && CanJoin(q, c, x, y, fits) && !q.rqs[x].out
    requires |q.hash| == ENTRIES
    ensures Rest(Join(q, c, x, y), c)
  {
    hide Rehash, Unhash, RqOk;
    OwnersApart(q, x, y);
    JoinedOk(q.rqs[x], q.rqs[y], c.max);
  }

  /** attempt_merge, on a queue that is in order but for the place of x in the hash. */
  lemma JoinInv(q: Queue, c: Conf, x: nat, y: nat, fits: bool)
    requires HashBut(q, c, x) && Owned(q) && Rest(q, c) && x in q.rqs && y in q.rqs && x != y
    requires CanJoin(q, c, x, y, fits) && !q.rqs[x].out
    ensures Inv(Join(q, c, x, y), c) && Join(q, c, x, y).owner.Keys == q.owner.Keys
  {
    hide Join, Owned, Rest, HashInv;
    JoinHash(q, c, x, y);
    JoinOwned(q, c, x, y);
    JoinRest(q, c, x, y, fits);
  }

  lemma HashToBut(q: Queue, c: Conf, x: nat)
    requires HashInv(q, c)
    ensures HashBut(q, c, x)
  {
  }

  lemma IdsApart(q: Queue, x: nat, b: Bio)
    requires Owned(q) && x in q.rqs && NewBio(q, b)
    ensures forall y :: y in q.rqs[x].bios ==> y.id != b.id
  {
  }

  lemma LastInv(q: Queue, c: Conf, x: nat)
    requires Inv(q, c) && x in q.rqs && !q.rqs[x].out
    ensures Inv(q.(last := Some(x)), c)
  {
    hide RqOk;
  }

  // ---- __make_request ----

  ghost predicate Candidate(q: Queue, b: Bio, x: nat) {
    x in q.rqs && !q.rqs[x].out && q.rqs[x].mergeable && q.rqs[x].write == b.write
  }

  lemma AfterBackInv(p: Queue, c: Conf, x: nat, latter: Option<nat>, fits: bool)
    requires HashBut(p, c, x) && Owned(p) && Rest(p, c) && x in p.rqs && !p.rqs[x].out
    ensures Inv(AfterBack(p, c, x, latter, fits), c)
    ensures AfterBack(p, c, x, latter, fits).owner.Keys == p.owner.Keys
      && AfterBack(p, c, x, latter, fits).refused == p.refused
  {
    hide Owned, Rest, HashInv, Join, Rehash;
    if Held(p, latter) && latter.value != x && CanJoin(p, c, x, latter.value, fits) {
      JoinInv(p, c, x, latter.value, fits);
      JoinFields(p, c, x, latter.value);
    } else {
      RehashInv(p, c, x);
      var g := p.(hash := Rehash(c, p.hash, x, p.rqs[x]));
      SameOwned(p, g);
      SameRest(p, g, c);
      LastInv(g, c, x);
    }
  }

  lemma AfterFrontInv(p: Queue, c: Conf, x: nat, former: Option<nat>, fits: bool)
    requires Inv(p, c) && x in p.rqs && !p.rqs[x].out
    ensures |p.hash| == ENTRIES && Inv(AfterFront(p, c, x, former, fits), c)
    ensures AfterFront(p, c, x, former, fits).owner.Keys == p.owner.Keys
      && AfterFront(p, c, x, former, fits).refused == p.refused
  {
    hide Owned, Rest, HashInv, Join;
    HashSize(p, c);
    if Held(p, former) && former.value != x && CanJoin(p, c, former.value, x, fits) {
      HashToBut(p, c, former.value);
      JoinInv(p, c, former.value, x, fits);
      JoinFields(p, c, former.value, x);
    } else {
      LastInv(p, c, x);
    }
  }

  /** A bio taken in at either end. */
  lemma TakenInv(q: Queue, c: Conf, x: nat, r: Req, b: Bio)
    requires Inv(q, c) && NewBio(q, b) && Candidate(q, b, x) && q.rqs[x].nr + b.nr <= c.max
    requires (r == AtBack(q.rqs[x], b) && Key(q.rqs[x]) == b.sector)
      || (r == AtFront(q.rqs[x], b) && q.rqs[x].sector == b.sector + b.nr)
    ensures var p := Taken(q, x, r, b);
            HashBut(p, c, x) && Owned(p) && Rest(p, c) && p.owner.Keys == q.owner.Keys + {b.id}
              && p.refused == q.refused
    ensures Key(r) == Key(q.rqs[x]) ==> HashInv(Taken(q, x, r, b), c)
  {
    hide Owned, Rest, HashInv, HashBut, RqOk;
    RestOk(q, c, x);
    IdsApart(q, x, b);
    GrownOk(q.rqs[x], b, c.max);
    TakenOwned(q, x, r, b);
    TakenRest(q, c, x, r, b);
    TakenHash(q, c, x, r, b);
  }

  lemma BackInv(q: Queue, c: Conf, x: nat, b: Bio, latter: Option<nat>, fits: bool)
    requires Inv(q, c) && NewBio(q, b) && Candidate(q, b, x) && Key(q.rqs[x]) == b.sector && q.rqs[x].nr + b.nr <= c.max
    ensures |q.hash| == ENTRIES && Inv(BackMerge(q, c, x, b, latter, fits), c)
    ensures BackMerge(q, c, x, b, latter, fits).owner.Keys == q.owner.Keys + {b.id}
    ensures BackMerge(q, c, x, b, latter, fits).refused == q.refused
  {
    hide Owned, Rest, HashInv, HashBut, AfterBack;
    HashSize(q, c);
    var r := AtBack(q.rqs[x], b);
    TakenInv(q, c, x, r, b);
    AfterBackInv(Taken(q, x, r, b), c, x, latter, fits);
  }

  lemma FrontInv(q: Queue, c: Conf, x: nat, b: Bio, former: Option<nat>, fits: bool)
    requires Inv(q, c) && NewBio(q, b) && Candidate(q, b, x) && q.rqs[x].sector == b.sector + b.nr
      && q.rqs[x].nr + b.nr <= c.max
    ensures |q.hash| == ENTRIES && Inv(FrontMerge(q, c, x, b, former, fits), c)
    ensures FrontMerge(q, c, x, b, former, fits).owner.Keys == q.owner.Keys + {b.id}
    ensures FrontMerge(q, c, x, b, former, fits).refused == q.refused
  {
    hide Owned, Rest, HashInv, HashBut, AfterFront;
    HashSize(q, c);
    var r := AtFront(q.rqs[x], b);
    TakenInv(q, c, x, r, b);
    AfterFrontInv(Taken(q, x, r, b), c, x, former, fits);
  }

  lemma HashButSize(q: Queue, c: Conf, x: nat)
    requires HashBut(q, c, x)
    ensures |q.hash| == ENTRIES
  {
  }

  lemma JoinFields(q: Queue, c: Conf, x: nat, y: nat)
    requires x in q.rqs && y in q.rqs && x != y && |q.hash| == ENTRIES
    ensures Join(q, c, x, y).refused == q.refused
  {
  }

  lemma SameOwned(p: Queue, q: Queue)
    requires Owned(p) && q.rqs == p.rqs && q.owner == p.owner && q.refused == p.refused
    ensures Owned(q)
  {
  }

  lemma SameRest(p: Queue, q: Queue, c: Conf)
    requires Rest(p, c) && q.rqs == p.rqs && q.last == p.last && q.unused == p.unused
    ensures Rest(q, c)
  {
  }

  /** elv_merge names a request of the elevator that fits the bio at that end. */
  lemma PlanFits(q: Queue, c: Conf, b: Bio, allow: nat -> bool, found: Option<nat>)
    requires Inv(q, c)
    ensures var (p, plan) := ElvMerge(q, c, b, allow, found);
            && Inv(p, c) && p == q.(hash := p.hash)
            && (plan.Back? ==> Candidate(p, b, plan.rq) && Key(p.rqs[plan.rq]) == b.sector)
            && (plan.Front? ==> Candidate(p, b, plan.rq) && p.rqs[plan.rq].sector == b.sector + b.nr)
  {
    hide Scan, RqOk;
    FindIff(q, c, b.sector);
    ScanKeeps(q, c, b.sector);
    var k := Bucket(c, b.sector);
    var p := q.(hash := q.hash[k := Scan(q.hash[k], q.rqs, b.sector).0]);
    SameOwned(q, p);
    SameRest(q, p, c);
  }

  /** __make_request takes a new bio into exactly one request, refuses it, or leaves it to get a
      request of its own. */
  lemma TryInv(q: Queue, c: Conf, b: Bio, e: Env)
    requires Inv(q, c) && NewBio(q, b)
    ensures |q.hash| == ENTRIES
    ensures var (t, waits) := Try(q, c, b, e);
            && Inv(t, c)
            && (waits ==> t.owner.Keys == q.owner.Keys && t.refused == q.refused)
            && (!waits ==> t.owner.Keys + t.refused == q.owner.Keys + q.refused + {b.id})
  {
    hide Owned, Rest, HashInv, BackMerge, FrontMerge, ElvMerge, NoMore;
    HashSize(q, c);
    if b.barrier && !c.ordered {
      RefusedInv(q, c, b);
    } else if !b.barrier && !e.empty {
      PlanFits(q, c, b, e.allow, e.found);
      var (p, plan) := ElvMerge(q, c, b, e.allow, e.found);
      if !plan.NoMerge? {
        if p.rqs[plan.rq].nr + b.nr > c.max {
          NoMoreInv(p, c, plan.rq);
          NoMoreFields(p, plan.rq);
        } else if e.fits {
          if plan.Back? {
            BackInv(p, c, plan.rq, b, e.neighbour, e.joinFits);
          } else {
            FrontInv(p, c, plan.rq, b, e.neighbour, e.joinFits);
          }
        }
      }
    }
  }

  lemma NoMoreFields(q: Queue, x: nat)
    requires x in q.rqs
    ensures NoMore(q, x).owner == q.owner && NoMore(q, x).refused == q.refused && |NoMore(q, x).hash| == |q.hash|
  {
  }

  lemma RefusedInv(q: Queue, c: Conf, b: Bio)
    requires Inv(q, c) && NewBio(q, b)
    ensures Inv(q.(refused := q.refused + {b.id}), c)
  {
    hide RqOk;
  }

  lemma DispatchInv(q: Queue, c: Conf, x: nat)
    requires Inv(q, c) && x in q.rqs
    ensures Inv(Dispatch(q, x), c) && Dispatch(q, x).owner == q.owner && Dispatch(q, x).refused == q.refused
  {
    hide HashInv, Owned, Rest, RqOk, Unhash;
    DispatchHash(q, c, x);
    var r := q.rqs[x].(out := true);
    RestOk(q, c, x);
    SameOk(q.rqs[x], r, c.max);
    FlagsOwned(q, Dispatch(q, x), x, r);
    FlagsRest(q, Dispatch(q, x), c, x, r);
  }

  lemma DispatchHash(q: Queue, c: Conf, x: nat)
    requires HashInv(q, c) && x in q.rqs
    ensures HashInv(Dispatch(q, x), c)
  {
    hide Unhash;
    UnhashIn(q.hash, x);
  }

  // ---- runs ----

  /** The queue, and the bios whose submitters wait for a free request, the queue lock being dropped. */
  datatype Sys = Sys(q: Queue, held: map<nat, Bio>)

  datatype Step = Submit(bio: Bio, env: Env) | Add(id: nat) | Send(rq: nat)

  /** The bios that wait are known to no request. */
  ghost predicate SysInv(y: Sys, c: Conf) {
    Inv(y.q, c) && forall i :: i in y.held ==> y.held[i].id == i && NewBio(y.q, y.held[i])
  }

  ghost predicate Enabled(y: Sys, s: Step) {
    match s
    case Submit(b, _) => NewBio(y.q, b) && b.id !in y.held
    case Add(i) => i in y.held
    case Send(x) => x in y.q.rqs
  }

  ghost function Next(y: Sys, c: Conf, s: Step): Sys
    requires SysInv(y, c) && Enabled(y, s)
  {
    match s
    case Submit(b, e) =>
      HashSize(y.q, c);
      var (t, waits) := Try(y.q, c, b, e);
      Sys(t, if waits then y.held[b.id := b] else y.held)
    case Add(i) =>
      HashSize(y.q, c);
      Sys(AddNew(y.q, c, y.held[i]), y.held - {i})
    case Send(x) => Sys(Dispatch(y.q, x), y.held)
  }

  /** Every bio that has come in. */
  ghost function Known(y: Sys): set<nat> { y.q.owner.Keys + y.q.refused + y.held.Keys }

  lemma NextInv(y: Sys, c: Conf, s: Step)
    requires SysInv(y, c) && Enabled(y, s)
    ensures SysInv(Next(y, c, s), c)
    ensures Known(Next(y, c, s)) == Known(y) + if s.Submit? then {s.bio.id} else {}
  {
    hide Inv, Try, AddNew, Dispatch;
    match s
    case Submit(b, e) => TryInv(y.q, c, b, e);
    case Add(i) =>
      AddNewInv(y.q, c, y.held[i]);
      assert y.held.Keys == (y.held - {i}).Keys + {i};
    case Send(x) => DispatchInv(y.q, c, x);
  }

  ghost predicate Run(y: Sys, c: Conf, ss: seq<Step>, z: Sys)
    decreases |ss|
  {
    if ss == [] then y == z else SysInv(y, c) && Enabled(y, ss[0]) && Run(Next(y, c, ss[0]), c, ss[1..], z)
  }

  ghost function Submitted(ss: seq<Step>): set<nat> {
    if ss == [] then {} else (if ss[0].Submit? then {ss[0].bio.id} else {}) + Submitted(ss[1..])
  }

  lemma {:induction false} RunInv(y: Sys, c: Conf, ss: seq<Step>, z: Sys)
    requires SysInv(y, c) && Run(y, c, ss, z)
    ensures SysInv(z, c) && Known(z) == Known(y) + Submitted(ss)
    decreases |ss|
  {
    hide SysInv, Enabled, Next, Known;
    if ss != [] {
      NextInv(y, c, ss[0]);
      RunInv(Next(y, c, ss[0]), c, ss[1..], z);
    }
  }

  /** A run can go on with any step that is enabled: asking for the invariant excludes no run. */
  lemma {:induction false} RunExtends(y: Sys, c: Conf, ss: seq<Step>, z: Sys, s: Step)
    requires SysInv(y, c) && Run(y, c, ss, z) && Enabled(z, s)
    ensures SysInv(z, c) && Run(y, c, ss + [s], Next(z, c, s))
    decreases |ss|
  {
    hide SysInv, Enabled, Next, Known;
    if ss != [] {
      NextInv(y, c, ss[0]);
      RunExtends(Next(y, c, ss[0]), c, ss[1..], z, s);
      assert (ss + [s])[1..] == ss[1..] + [s];
    } else {
      assert (ss + [s])[1..] == [];
    }
  }

  /** Merge conservation and hash agreement: in every reachable state each submitted bio was refused,
      waits for a request, or lies in exactly one, each request is the contiguous run of its bios in one
      direction, and the hash finds what a search of all requests would. */
  lemma MergesConserve(c: Conf, ss: seq<Step>, z: Sys)
    requires Run(Sys(EMPTY, map[]), c, ss, z)
    ensures z.q.owner.Keys + z.q.refused + z.held.Keys == Submitted(ss)
    ensures z.q.owner.Keys !! z.q.refused !! z.held.Keys
    ensures forall x :: x in z.q.rqs ==> RqOk(z.q.rqs[x], c.max)
    ensures forall x, b :: x in z.q.rqs && b in z.q.rqs[x].bios ==> b.id in z.q.owner && z.q.owner[b.id] == x
    ensures forall i :: i in z.q.owner ==> z.q.owner[i] in z.q.rqs && HasId(z.q.rqs[z.q.owner[i]].bios, i)
    ensures HashInv(z.q, c)
  {
    hide HashInv, RqOk, Run, Submitted;
    assert Inv(EMPTY, c) by {
      EmptyInv(c);
    }
    RunInv(Sys(EMPTY, map[]), c, ss, z);
  }

  lemma EmptyInv(c: Conf)
    ensures Inv(EMPTY, c)
  {
  }
}
