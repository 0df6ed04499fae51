/** Binary trees of any shape: what the descents of block/elevator.c and block/cfq-iosched.c find in
    them does not depend on how the red-black code has balanced them. */
module RbTree {
  import opened Options
  import opened SectorTree

  datatype Tree<T> = Leaf | Node(left: Tree<T>, item: T, right: Tree<T>)

  function Inorder<T>(t: Tree<T>): seq<T> {
    match t
    case Leaf => []
    case Node(l, x, r) => Inorder(l) + [x] + Inorder(r)
  }

  lemma PlaceIs(s: seq<Rq>, sector: nat, i: nat)
    requires i <= |s| && (forall k :: 0 <= k < i ==> s[k].sector < sector)
    requires i < |s| ==> s[i].sector >= sector
    ensures Place(s, sector) == i
  {
    hide Place;
  }

  lemma SortedParts(a: seq<Rq>, x: Rq, b: seq<Rq>)
    requires Sorted(a + [x] + b)
    ensures Sorted(a) && Sorted(b)
    ensures forall k :: 0 <= k < |a| ==> a[k].sector < x.sector
    ensures forall k :: 0 <= k < |b| ==> x.sector < b[k].sector
  {
    var s := a + [x] + b;
    assert s[|a|] == x;
    assert forall k :: 0 <= k < |a| ==> s[k] == a[k];
    assert forall k :: 0 <= k < |b| ==> s[|a| + 1 + k] == b[k];
  }

  /** The smaller keys of a sorted list are passed over, and nothing after the key matters. */
  lemma PlaceSplit(a: seq<Rq>, x: Rq, b: seq<Rq>, sector: nat)
    requires Sorted(a + [x] + b)
    ensures Sorted(a) && Sorted(b)
    ensures sector < x.sector ==>
      Place(a + [x] + b, sector) == Place(a, sector) && Alias(a + [x] + b, sector) == Alias(a, sector)
    ensures sector > x.sector ==>
      Place(a + [x] + b, sector) == |a| + 1 + Place(b, sector) && Alias(a + [x] + b, sector) == Alias(b, sector)
    ensures sector == x.sector ==> Alias(a + [x] + b, sector) == Some(x)
  {
    hide Place, Sorted;
    SortedParts(a, x, b);
    var s := a + [x] + b;
    if sector < x.sector {
      PlaceIs(s, sector, Place(a, sector));
    } else if sector == x.sector {
      PlaceIs(s, sector, |a|);
    } else {
      PlaceIs(s, sector, |a| + 1 + Place(b, sector));
    }
  }

  /** elv_rb_find: over any tree in sector order the descent finds the request at a sector exactly when
      there is one. */
  method RbFind(t: Tree<Rq>, sector: nat) returns (found: Option<Rq>)
    requires Sorted(Inorder(t))
    ensures found == Alias(Inorder(t), sector)
    ensures found.None? <==> forall r :: r in Inorder(t) ==> r.sector != sector
  {
    var n := t;
    SortedFind(Inorder(t), sector);
    while n.Node?
      invariant Sorted(Inorder(n)) && Alias(Inorder(n), sector) == Alias(Inorder(t), sector)
      decreases n
    {
      PlaceSplit(Inorder(n.left), n.item, Inorder(n.right), sector);
      if sector < n.item.sector {
        n := n.left;
      } else if sector > n.item.sector {
        n := n.right;
      } else {
        return Some(n.item);
      }
    }
    return None;
  }

  lemma SortedFind(s: seq<Rq>, sector: nat)
    requires Sorted(s)
    ensures Alias(s, sector).None? <==> forall r :: r in s ==> r.sector != sector
  {
    hide Place;
    var i := Place(s, sector);
    if Alias(s, sector).None? {
      forall r | r in s ensures r.sector != sector {
        var k :| 0 <= k < |s| && s[k] == r;
        assert k > i ==> s[i].sector < s[k].sector;
      }
    }
  }

  /** elv_rb_add where there is no alias: the new leaf at the end of the descent. */
  function RbLink(t: Tree<Rq>, r: Rq): Tree<Rq> {
    match t
    case Leaf => Node(Leaf, r, Leaf)
    case Node(a, x, b) => if r.sector < x.sector then Node(RbLink(a, r), x, b) else Node(a, x, RbLink(b, r))
  }

  /** The leaf lands where the sorted list has its place. */
  lemma {:induction false} LinkIsInsert(t: Tree<Rq>, r: Rq)
    requires Sorted(Inorder(t)) && Alias(Inorder(t), r.sector).None?
    ensures Inorder(RbLink(t, r)) == Insert(Inorder(t), Place(Inorder(t), r.sector), r)
  {
    match t
    case Leaf =>
    case Node(a, x, b) =>
      hide Place, Insert, Sorted, Alias;
      PlaceSplit(Inorder(a), x, Inorder(b), r.sector);
      if r.sector < x.sector {
        LinkIsInsert(a, r);
        InsertLeft(Inorder(a), x, Inorder(b), Place(Inorder(a), r.sector), r);
      } else {
        LinkIsInsert(b, r);
        InsertRight(Inorder(a), x, Inorder(b), Place(Inorder(b), r.sector), r);
      }
  }

  lemma InsertLeft(a: seq<Rq>, x: Rq, b: seq<Rq>, i: nat, r: Rq)
    requires i <= |a|
    ensures Insert(a + [x] + b, i, r) == Insert(a, i, r) + [x] + b
  {
    var s := a + [x] + b;
    assert s[..i] == a[..i] && s[i..] == a[i..] + [x] + b;
  }

  lemma InsertRight(a: seq<Rq>, x: Rq, b: seq<Rq>, i: nat, r: Rq)
    requires i <= |b|
    ensures Insert(a + [x] + b, |a| + 1 + i, r) == a + [x] + Insert(b, i, r)
  {
    var s := a + [x] + b;
    var j := |a| + 1 + i;
    assert s[..j] == a + [x] + b[..i] && s[j..] == b[i..];
  }
}
