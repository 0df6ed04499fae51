/** block/elevator.c and block/ll_rw_blk.c: exactly which merges are made. */
module MergePlans {
  import opened Options
  import opened Merge
  import opened MergeSafety

  /** A request that may take the bio in, at one end or the other: not yet handed out, still mergeable,
      of the same direction, not special, and the scheduler does not mind. */
  ghost predicate Open(q: Queue, b: Bio, allow: nat -> bool, x: nat) {
    x in q.rqs && var r := q.rqs[x]; !r.out && r.mergeable && r.write == b.write && !r.special && allow(x)
  }

  ghost predicate FitsBack(q: Queue, b: Bio, allow: nat -> bool, x: nat) {
    Open(q, b, allow, x) && q.rqs[x].sector + q.rqs[x].nr == b.sector
  }

  ghost predicate FitsFront(q: Queue, b: Bio, allow: nat -> bool, x: nat) {
    Open(q, b, allow, x) && b.sector + b.nr == q.rqs[x].sector
  }

  /** The request the hash has for the sector. */
  ghost function Hit(q: Queue, c: Conf, sector: nat): Option<nat>
    requires |q.hash| == ENTRIES
  {
    Scan(q.hash[Bucket(c, sector)], q.rqs, sector).1
  }

  /** What elv_merge decides, among the last merge, the hash hit and the scheduler's candidate. */
  ghost function Decided(q: Queue, c: Conf, b: Bio, allow: nat -> bool, found: Option<nat>): Plan
    requires |q.hash| == ENTRIES
  {
    if q.last.Some? && FitsBack(q, b, allow, q.last.value) then Back(q.last.value)
    else if q.last.Some? && FitsFront(q, b, allow, q.last.value) then Front(q.last.value)
    else if Hit(q, c, b.sector).Some? && FitsBack(q, b, allow, Hit(q, c, b.sector).value) then
      Back(Hit(q, c, b.sector).value)
    else if found.Some? && FitsFront(q, b, allow, found.value) then Front(found.value)
    else NoMerge
  }

  lemma PlanIsDecided(q: Queue, c: Conf, b: Bio, allow: nat -> bool, found: Option<nat>)
    requires Inv(q, c)
    ensures |q.hash| == ENTRIES && ElvMerge(q, c, b, allow, found).1 == Decided(q, c, b, allow, found)
  {
    hide Scan, RqOk, Owned;
    FindIff(q, c, b.sector);
  }

  /** A forbidden merge is never planned. */
  lemma NeverForbidden(q: Queue, c: Conf, b: Bio, allow: nat -> bool, found: Option<nat>)
    requires Inv(q, c)
    ensures |q.hash| == ENTRIES
    ensures match ElvMerge(q, c, b, allow, found).1
            case NoMerge => true
            case Back(x) => FitsBack(q, b, allow, x)
            case Front(x) => FitsFront(q, b, allow, x)
  {
    hide Inv, ElvMerge;
    PlanIsDecided(q, c, b, allow, found);
  }

  /** A merge that is possible is planned: no request is passed over but for the last merge, one that
      ends at the sector but may not take the bio, and front merges the scheduler does not name. */
  lemma NonePassedOver(q: Queue, c: Conf, b: Bio, allow: nat -> bool, found: Option<nat>, x: nat)
    requires Inv(q, c)
    ensures |q.hash| == ENTRIES
    ensures ElvMerge(q, c, b, allow, found).1 == NoMerge && FitsBack(q, b, allow, x) ==>
              exists y :: y in q.rqs && !q.rqs[y].out && q.rqs[y].mergeable && Key(q.rqs[y]) == b.sector
                          && !FitsBack(q, b, allow, y)
    ensures ElvMerge(q, c, b, allow, found).1 == NoMerge && FitsFront(q, b, allow, x) ==>
              found != Some(x) && q.last != Some(x)
  {
    hide Owned, Rest, ElvMerge, Scan;
    PlanIsDecided(q, c, b, allow, found);
    FindIff(q, c, b.sector);
  }

  // ---- __make_request ----

  /** The bio goes to the back or the front of a request, and the request it names has room. */
  ghost predicate Merges(q: Queue, c: Conf, b: Bio, e: Env)
    requires |q.hash| == ENTRIES
  {
    var plan := Decided(q, c, b, e.allow, e.found);
    !b.barrier && !e.empty && e.fits && plan != NoMerge && q.rqs[plan.rq].nr + b.nr <= c.max
  }

  /** A bio is merged exactly when a fitting request with room is found; refused exactly when it is a
      barrier no one supports; and otherwise gets a request of its own. */
  lemma MergedIff(q: Queue, c: Conf, b: Bio, e: Env)
    requires Inv(q, c) && NewBio(q, b)
    ensures |q.hash| == ENTRIES
    ensures var (t, waits) := Try(q, c, b, e);
            && (b.id in t.owner <==> Merges(q, c, b, e))
            && (b.id in t.refused <==> b.barrier && !c.ordered)
            && (waits <==> b.id !in t.owner && b.id !in t.refused)
  {
    hide Owned, Rest, HashInv, BackMerge, FrontMerge, ElvMerge, NoMore, Decided, FitsBack, FitsFront;
    HashSize(q, c);
    PlanIsDecided(q, c, b, e.allow, e.found);
    PlanFits(q, c, b, e.allow, e.found);
    var (p, plan) := ElvMerge(q, c, b, e.allow, e.found);
    if !b.barrier && !e.empty && !plan.NoMerge? {
      if p.rqs[plan.rq].nr + b.nr > c.max {
        NoMoreFields(p, plan.rq);
      } else if e.fits {
        if plan.Back? {
          BackInv(p, c, plan.rq, b, e.neighbour, e.joinFits);
        } else {
          FrontInv(p, c, plan.rq, b, e.neighbour, e.joinFits);
        }
      }
    }
  }

  // ---- neighbours ----

  /** attempt_merge joins y behind x: both may still grow, they meet, and the whole is within limits. */
  ghost predicate Meet(r: Req, n: Req, max: nat) {
    && r.mergeable && n.mergeable && !r.special && !n.special && r.write == n.write
    && r.sector + r.nr == n.sector && r.nr + n.nr <= max
  }

  /** A back merge takes the bio to the end of x, and the latter request after it exactly when the two
      then meet; no other request changes. */
  lemma BackThenJoin(q: Queue, c: Conf, x: nat, b: Bio, latter: Option<nat>, fits: bool, y: nat)
    requires x in q.rqs && y in q.rqs && x != y && |q.hash| == ENTRIES
    ensures var t := BackMerge(q, c, x, b, latter, fits);
            var r := q.rqs[x].(nr := q.rqs[x].nr + b.nr, bios := q.rqs[x].bios + [b]);
            var joins := latter == Some(y) && !q.rqs[y].out && fits && Meet(r, q.rqs[y], c.max);
            && (y in t.rqs <==> !joins) && (!joins ==> t.rqs[y] == q.rqs[y]) && t.last == Some(x) && x in t.rqs
            && (joins ==> t.rqs[x] == r.(nr := r.nr + q.rqs[y].nr, bios := r.bios + q.rqs[y].bios))
  {
    hide Rehash, Unhash, Moved;
  }

  /** A front merge takes the bio to the beginning of x, and x to the end of the former request exactly
      when the two then meet. */
  lemma FrontThenJoin(q: Queue, c: Conf, x: nat, b: Bio, former: Option<nat>, fits: bool, y: nat)
    requires x in q.rqs && y in q.rqs && x != y && |q.hash| == ENTRIES
    ensures var t := FrontMerge(q, c, x, b, former, fits);
            var r := q.rqs[x].(sector := b.sector, nr := q.rqs[x].nr + b.nr, bios := [b] + q.rqs[x].bios);
            var n := q.rqs[y];
            var joins := former == Some(y) && !n.out && fits && Meet(n, r, c.max);
            && y in t.rqs && (!joins ==> t.rqs[y] == n)
            && (joins ==> x !in t.rqs && t.last == Some(y)
                          && t.rqs[y] == n.(nr := n.nr + r.nr, bios := n.bios + r.bios))
  {
    hide Rehash, Unhash, Moved;
  }
}
