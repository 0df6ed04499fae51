/** Requests kept in a tree sorted by start sector (elv_rb_add, elv_rb_del and elv_rb_find of
    block/elevator.c), read here in order, and the lists that go with it. */
module SectorTree {
  import opened Options

  /** A queued request; bios is the chain from bio to biotail. */
  datatype Rq = Rq(sector: nat, nr: nat, time: nat, bios: seq<nat>, sync: bool, meta: bool)

  /** Where elv_rb_add would link a request at this sector. */
  function Place(s: seq<Rq>, sector: nat): (i: nat)
    ensures i <= |s| && (forall j :: 0 <= j < i ==> s[j].sector < sector)
    ensures i < |s| ==> s[i].sector >= sector
  {
    if s == [] || s[0].sector >= sector then 0 else 1 + Place(s[1..], sector)
  }

  function Pos<T(==)>(s: seq<T>, r: T): (i: nat)
    requires r in s
    ensures i < |s| && s[i] == r
  {
    if s[0] == r then 0 else 1 + Pos(s[1..], r)
  }

  function Insert<T>(s: seq<T>, i: nat, r: T): seq<T>
    requires i <= |s|
  {
    s[..i] + [r] + s[i..]
  }

  function Without<T(==)>(s: seq<T>, r: T): seq<T>
    requires r in s
  {
    s[..Pos(s, r)] + s[Pos(s, r) + 1..]
  }

  function Replace<T(==)>(s: seq<T>, r: T, q: T): seq<T>
    requires r in s
  {
    s[Pos(s, r) := q]
  }

  /** The request already in the tree at this sector, elv_rb_add's alias. */
  function Alias(s: seq<Rq>, sector: nat): Option<Rq> {
    var i := Place(s, sector);
    if i < |s| && s[i].sector == sector then Some(s[i]) else None
  }

  /** rb_next */
  function NextOf<T(==)>(s: seq<T>, r: T): Option<T>
    requires r in s
  {
    if Pos(s, r) + 1 < |s| then Some(s[Pos(s, r) + 1]) else None
  }

  // ---- order and membership ----

  ghost predicate Sorted(s: seq<Rq>) { forall i, j :: 0 <= i < j < |s| ==> s[i].sector < s[j].sector }

  ghost predicate Timed(s: seq<Rq>) { forall i, j :: 0 <= i < j < |s| ==> s[i].time <= s[j].time }

  ghost predicate Distinct<T>(s: seq<T>) { forall i, j :: 0 <= i < j < |s| ==> s[i] != s[j] }

  lemma StillThere<T>(s: seq<T>, r: T, a: T)
    requires r in s && a in s && r != a
    ensures r in Without(s, a)
  {
    var i, j := Pos(s, r), Pos(s, a);
    assert Without(s, a)[if i < j then i else i - 1] == r;
  }

  lemma ChangedKeeps(s: seq<Rq>, r: Rq, q: Rq, x: Rq)
    requires r in s && x in s && r != x
    ensures x in Replace(s, r, q)
  {
    assert Replace(s, r, q)[Pos(s, x)] == x;
  }

  lemma WithoutIn<T>(s: seq<T>, r: T)
    requires r in s && Distinct(s)
    ensures forall q :: q in Without(s, r) <==> q in s && q != r
    ensures Distinct(Without(s, r))
  {
    hide Pos;
    var i := Pos(s, r);
    forall q | q in s && q != r ensures q in Without(s, r) {
      StillThere(s, q, r);
    }
  }

  lemma WithoutOrder(s: seq<Rq>, r: Rq)
    requires r in s
    ensures Sorted(s) ==> Sorted(Without(s, r))
    ensures Timed(s) ==> Timed(Without(s, r))
  {
    hide Pos;
  }

  lemma InsertIn<T>(s: seq<T>, i: nat, r: T)
    requires i <= |s|
    ensures forall q :: q in Insert(s, i, r) <==> q in s || q == r
    ensures Distinct(s) && r !in s ==> Distinct(Insert(s, i, r))
  {
    var t := Insert(s, i, r);
    assert t[i] == r;
    forall q | q in s ensures q in t {
      var k :| 0 <= k < |s| && s[k] == q;
      assert t[if k < i then k else k + 1] == q;
    }
    forall q | q in t ensures q in s || q == r {
      var k :| 0 <= k < |t| && t[k] == q;
      assert k == i || t[k] == s[if k < i then k else k - 1];
    }
  }

  lemma SortedInsert(s: seq<Rq>, r: Rq)
    requires Sorted(s) && Alias(s, r.sector).None?
    ensures Sorted(Insert(s, Place(s, r.sector), r)) && r !in s
  {
    hide Place;
    var i := Place(s, r.sector);
    var t := Insert(s, i, r);
    forall j, k | 0 <= j < k < |t| ensures t[j].sector < t[k].sector {
      if k == i {
        assert t[j] == s[j];
      } else if j == i {
        assert t[k] == s[k - 1] && s[i].sector <= s[k - 1].sector;
      }
    }
  }

  lemma SortedDistinct(s: seq<Rq>)
    requires Sorted(s)
    ensures Distinct(s)
  {
  }

  /** No two requests of one direction start at one sector: an alias is unique. */
  lemma NoAlias(s: seq<Rq>, r: Rq, sector: nat)
    requires Sorted(s) && Alias(s, sector) == Some(r)
    ensures r in s && r.sector == sector && Alias(Without(s, r), sector).None?
  {
    hide Pos, Place;
    SortedDistinct(s);
    WithoutIn(s, r);
    SameSector(s, r);
  }

  lemma SameSector(s: seq<Rq>, r: Rq)
    requires Sorted(s) && r in s
    ensures forall q :: q in s && q.sector == r.sector ==> q == r
  {
  }

  lemma Swapped(s: seq<Rq>, r: Rq, q: Rq)
    requires r in s
    ensures Pos(s, r) <= |Without(s, r)| && Replace(s, r, q) == Insert(Without(s, r), Pos(s, r), q)
    ensures s == Insert(Without(s, r), Pos(s, r), r)
  {
    hide Pos;
  }

  lemma NextStays(s: seq<Rq>, r: Rq)
    requires r in s
    ensures NextOf(s, r).Some? ==> NextOf(s, r).value in Without(s, r)
  {
    hide Pos;
    var i := Pos(s, r);
    if i + 1 < |s| {
      assert Without(s, r)[i] == s[i + 1];
    }
  }

  lemma ReplaceIn(s: seq<Rq>, r: Rq, q: Rq)
    requires r in s && Distinct(s) && (q !in s || q == r)
    ensures Distinct(Replace(s, r, q))
    ensures forall x :: x in Replace(s, r, q) <==> x == q || (x in s && x != r)
  {
    hide Pos, Without, Insert, Replace;
    Swapped(s, r, q);
    WithoutIn(s, r);
    InsertIn(Without(s, r), Pos(s, r), q);
  }

  lemma ReplaceOrder(s: seq<Rq>, r: Rq, q: Rq)
    requires r in s && q.time == r.time
    ensures Timed(s) ==> Timed(Replace(s, r, q))
    ensures q.sector == r.sector && Sorted(s) ==> Sorted(Replace(s, r, q))
  {
    hide Pos;
  }

  lemma SameSectorOrder(s: seq<Rq>, r: Rq, q: Rq)
    requires r in s && Sorted(s) && q.sector == r.sector
    ensures Sorted(Replace(s, r, q))
  {
    hide Pos;
  }

  lemma TimedInsert(s: seq<Rq>, x: Rq, q: Rq)
    requires x in s && Timed(s) && q.time == x.time
    ensures Timed(Insert(s, Pos(s, x) + 1, q))
  {
    hide Pos;
    var i := Pos(s, x) + 1;
    var t := Insert(s, i, q);
    forall j, k | 0 <= j < k < |t| ensures t[j].time <= t[k].time {
      assert j != i ==> t[j] == s[if j < i then j else j - 1];
      assert k != i ==> t[k] == s[if k < i then k else k - 1];
    }
  }

  // ---- counting bios ----

  /** How often a bio occurs in a chain. */
  ghost function Occurs(s: seq<nat>, b: nat): nat {
    if s == [] then 0 else (if s[0] == b then 1 else 0) + Occurs(s[1..], b)
  }

  /** How often the requests of a list carry a bio. */
  ghost function Held(s: seq<Rq>, b: nat): nat {
    if s == [] then 0 else Occurs(s[0].bios, b) + Held(s[1..], b)
  }

  lemma {:induction false} OccursAppend(s: seq<nat>, t: seq<nat>, b: nat)
    ensures Occurs(s + t, b) == Occurs(s, b) + Occurs(t, b)
  {
    if s == [] {
      assert s + t == t;
    } else {
      assert (s + t)[1..] == s[1..] + t;
      OccursAppend(s[1..], t, b);
    }
  }

  lemma {:induction false} HeldAppend(s: seq<Rq>, t: seq<Rq>, b: nat)
    ensures Held(s + t, b) == Held(s, b) + Held(t, b)
  {
    if s == [] {
      assert s + t == t;
    } else {
      assert (s + t)[1..] == s[1..] + t;
      HeldAppend(s[1..], t, b);
    }
  }

  lemma HeldOne(r: Rq, b: nat)
    ensures Held([r], b) == Occurs(r.bios, b)
  {
  }

  lemma HeldInsert(s: seq<Rq>, i: nat, r: Rq, b: nat)
    requires i <= |s|
    ensures Held(Insert(s, i, r), b) == Held(s, b) + Occurs(r.bios, b)
  {
    hide Held, Occurs;
    assert s == s[..i] + s[i..];
    HeldAppend(s[..i], s[i..], b);
    HeldAppend(s[..i], [r], b);
    HeldAppend(s[..i] + [r], s[i..], b);
    HeldOne(r, b);
  }

  lemma HeldWithout(s: seq<Rq>, r: Rq, b: nat)
    requires r in s
    ensures Held(s, b) == Held(Without(s, r), b) + Occurs(r.bios, b)
  {
    hide Held, Occurs, Pos, Insert, Without;
    Swapped(s, r, r);
    HeldInsert(Without(s, r), Pos(s, r), r, b);
  }

  lemma HeldReplace(s: seq<Rq>, r: Rq, q: Rq, b: nat)
    requires r in s
    ensures Held(Replace(s, r, q), b) + Occurs(r.bios, b) == Held(s, b) + Occurs(q.bios, b)
  {
    hide Held, Occurs, Pos, Insert, Without, Replace;
    Swapped(s, r, q);
    HeldInsert(Without(s, r), Pos(s, r), q, b);
    HeldWithout(s, r, b);
  }
}
