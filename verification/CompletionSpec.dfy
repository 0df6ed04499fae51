/** block/ll_rw_blk.c: what is left of a request after some of its bytes have completed. */
module CompletionSpec {
  /** A bio_vec; off flattens its page and offset into one address. */
  datatype Vec = Vec(off: nat, len: nat)

  /** What remains of a bio: vectors from bi_idx on, bi_size, bi_sector. */
  datatype Left = Left(id: nat, vecs: seq<Vec>, size: nat, sector: nat)

  /** The sector fields of a request. */
  datatype Place = Place(hardSector: nat, hardNr: int, sector: nat, nr: int, hardCur: nat, cur: nat)

  datatype Req = Req(bios: seq<Left>, place: Place)

  /** One call of a bio's end_io. */
  datatype Credit = Credit(id: nat, bytes: nat, error: int)

  function Sum(vs: seq<Vec>): nat { if vs == [] then 0 else vs[0].len + Sum(vs[1..]) }

  function Size(bs: seq<Left>): nat { if bs == [] then 0 else bs[0].size + Size(bs[1..]) }

  /** The addresses a vector list covers, in order. */
  ghost function Bytes(vs: seq<Vec>): seq<nat> {
    if vs == [] then [] else seq(vs[0].len, i requires 0 <= i < vs[0].len => vs[0].off + i) + Bytes(vs[1..])
  }

  ghost function Data(bs: seq<Left>): seq<nat> {
    if bs == [] then [] else Bytes(bs[0].vecs) + Data(bs[1..])
  }

  ghost predicate BioOk(b: Left) {
    && b.size == Sum(b.vecs) > 0 && b.size % 512 == 0
    && forall i :: 0 <= i < |b.vecs| ==> b.vecs[i].len > 0
  }

  ghost predicate BiosOk(bs: seq<Left>) { forall i :: 0 <= i < |bs| ==> BioOk(bs[i]) }

  // ---- dropping bytes ----

  function Drop(vs: seq<Vec>, n: nat): seq<Vec> {
    if vs == [] then []
    else if n >= vs[0].len then Drop(vs[1..], n - vs[0].len)
    else [Vec(vs[0].off + n, vs[0].len - n)] + vs[1..]
  }

  function CutBio(b: Left, n: nat): Left
    requires n <= b.size
  {
    Left(b.id, Drop(b.vecs, n), b.size - n, b.sector + n / 512)
  }

  function Cut(bs: seq<Left>, n: nat): seq<Left> {
    if bs == [] then []
    else if n >= bs[0].size then Cut(bs[1..], n - bs[0].size)
    else [CutBio(bs[0], n)] + bs[1..]
  }

  /** The completions reported for n bytes. */
  function Paid(bs: seq<Left>, n: nat, error: int): seq<Credit> {
    if bs == [] then []
    else if n >= bs[0].size then
      [Credit(bs[0].id, bs[0].size, error)] + Paid(bs[1..], n - bs[0].size, error)
    else if n > 0 then [Credit(bs[0].id, n, error)]
    else []
  }

  /** blk_recalc_rq_sectors for a file system request whose first remaining bio is b. */
  function Recalc(p: Place, k: nat, b: Left): Place
    requires b.vecs != []
  {
    var q := p.(hardSector := p.hardSector + k, hardNr := p.hardNr - k);
    var cur := b.vecs[0].len / 512;
    var r := if q.nr >= q.hardNr && q.sector <= q.hardSector
             then q.(sector := q.hardSector, nr := q.hardNr, hardCur := cur, cur := cur)
             else q;
    if r.nr < r.cur then r.(nr := r.cur) else r
  }

  /** The request after n bytes; the fields of a finished one are left alone. */
  function Complete(r: Req, n: nat): Req
    requires BiosOk(r.bios)
  {
    if n >= Size(r.bios) then Req([], r.place)
    else
      CutOk(r.bios, n);
      CutLeaves(r.bios, n);
      FirstVec(Cut(r.bios, n)[0]);
      Req(Cut(r.bios, n), Recalc(r.place, n / 512, Cut(r.bios, n)[0]))
  }

  // ---- what dropping leaves ----

  lemma {:induction false} DropSum(vs: seq<Vec>, n: nat)
    requires n <= Sum(vs) && forall i :: 0 <= i < |vs| ==> vs[i].len > 0
    ensures Sum(Drop(vs, n)) == Sum(vs) - n
    ensures forall i :: 0 <= i < |Drop(vs, n)| ==> Drop(vs, n)[i].len > 0
  {
    if vs != [] && n >= vs[0].len {
      DropSum(vs[1..], n - vs[0].len);
    }
  }

  lemma {:induction false} DropDrop(vs: seq<Vec>, a: nat, b: nat)
    ensures Drop(Drop(vs, a), b) == Drop(vs, a + b)
  {
    if vs != [] {
      if a >= vs[0].len {
        DropDrop(vs[1..], a - vs[0].len, b);
      } else {
        var d := Drop(vs, a);
        assert d[1..] == vs[1..];
      }
    }
  }

  lemma {:induction false} BytesCount(vs: seq<Vec>)
    ensures |Bytes(vs)| == Sum(vs)
  {
    if vs != [] {
      BytesCount(vs[1..]);
    }
  }

  /** Dropping n bytes leaves exactly the data from byte n on. */
  lemma {:induction false} DropIsSuffix(vs: seq<Vec>, n: nat)
    requires n <= Sum(vs)
    ensures |Bytes(vs)| == Sum(vs) && Bytes(Drop(vs, n)) == Bytes(vs)[n..]
  {
    BytesCount(vs);
    if vs != [] {
      var first := seq(vs[0].len, i requires 0 <= i < vs[0].len => vs[0].off + i);
      if n >= vs[0].len {
        DropIsSuffix(vs[1..], n - vs[0].len);
        assert Bytes(vs)[n..] == Bytes(vs[1..])[n - vs[0].len..];
      } else {
        var d := Drop(vs, n);
        assert d[1..] == vs[1..];
        assert seq(d[0].len, i requires 0 <= i < d[0].len => d[0].off + i) == first[n..];
        assert Bytes(vs)[n..] == first[n..] + Bytes(vs[1..]);
      }
    }
  }

  lemma CutBioOk(b: Left, n: nat)
    requires BioOk(b) && n < b.size && n % 512 == 0
    ensures BioOk(CutBio(b, n))
  {
    DropSum(b.vecs, n);
  }

  lemma FirstVec(b: Left)
    requires b.size == Sum(b.vecs) > 0
    ensures b.vecs != [] && b.vecs[0].len <= b.size
  {
  }

  lemma {:induction false} CutOk(bs: seq<Left>, n: nat)
    requires BiosOk(bs)
    ensures forall i :: 0 <= i < |Cut(bs, n)| ==> Cut(bs, n)[i].size == Sum(Cut(bs, n)[i].vecs) > 0
    ensures n % 512 == 0 ==> BiosOk(Cut(bs, n))
  {
    if bs != [] {
      if n >= bs[0].size {
        CutOk(bs[1..], n - bs[0].size);
      } else {
        hide Sum, Drop;
        DropSum(bs[0].vecs, n);
        if n % 512 == 0 {
          CutBioOk(bs[0], n);
        }
      }
    }
  }

  /** Bytes are lost only by being completed: nothing remains exactly when everything completed. */
  lemma {:induction false} CutLeaves(bs: seq<Left>, n: nat)
    requires BiosOk(bs)
    ensures n <= Size(bs) ==> Size(Cut(bs, n)) == Size(bs) - n
    ensures Cut(bs, n) == [] <==> n >= Size(bs)
  {
    if bs != [] {
      if n >= bs[0].size {
        CutLeaves(bs[1..], n - bs[0].size);
      } else {
        var c := Cut(bs, n);
        assert c[1..] == bs[1..];
      }
    }
  }

  lemma {:induction false} CutCut(bs: seq<Left>, a: nat, b: nat)
    requires BiosOk(bs) && a % 512 == 0
    ensures Cut(Cut(bs, a), b) == Cut(bs, a + b)
  {
    if bs != [] {
      if a >= bs[0].size {
        CutCut(bs[1..], a - bs[0].size, b);
      } else {
        var c := Cut(bs, a);
        assert c[1..] == bs[1..];
        DropDrop(bs[0].vecs, a, b);
      }
    }
  }

  lemma {:induction false} DataCount(bs: seq<Left>)
    requires BiosOk(bs)
    ensures |Data(bs)| == Size(bs)
  {
    if bs != [] {
      BytesCount(bs[0].vecs);
      DataCount(bs[1..]);
    }
  }

  lemma SuffixPast(x: seq<nat>, y: seq<nat>, n: nat)
    requires |x| <= n <= |x| + |y|
    ensures (x + y)[n..] == y[n - |x|..]
  {
  }

  lemma SuffixWithin(x: seq<nat>, y: seq<nat>, n: nat)
    requires n <= |x|
    ensures (x + y)[n..] == x[n..] + y
  {
  }

  /** The remainder is the exact suffix of the request's data. */
  lemma {:induction false} CutIsSuffix(bs: seq<Left>, n: nat)
    requires BiosOk(bs) && n <= Size(bs)
    ensures |Data(bs)| == Size(bs) && Data(Cut(bs, n)) == Data(bs)[n..]
  {
    DataCount(bs);
    if bs != [] {
      hide Bytes, Sum, Drop;
      var first, rest := Bytes(bs[0].vecs), Data(bs[1..]);
      BytesCount(bs[0].vecs);
      DataCount(bs[1..]);
      if n >= bs[0].size {
        CutIsSuffix(bs[1..], n - bs[0].size);
        SuffixPast(first, rest, n);
      } else {
        DropIsSuffix(bs[0].vecs, n);
        var c := Cut(bs, n);
        assert c[1..] == bs[1..];
        SuffixWithin(first, rest, n);
      }
    }
  }

  // ---- completing in pieces ----

  lemma RecalcTwice(p: Place, a: nat, b: nat, x: Left, y: Left)
    requires x.vecs != [] && y.vecs != []
    requires p.cur <= p.nr && x.vecs[0].len / 512 <= p.hardNr - a && y.vecs[0].len / 512 <= p.hardNr - a - b
    ensures Recalc(Recalc(p, a, x), b, y) == Recalc(p, a + b, y)
  {
  }

  /** Fields agree with the bios: the count of sectors is what is left, and the driver has not been
      asked for less than one segment. */
  ghost predicate Counted(r: Req) {
    BiosOk(r.bios) && r.place.hardNr * 512 == Size(r.bios) && r.place.cur <= r.place.nr
  }

  lemma FirstFits(bs: seq<Left>)
    requires BiosOk(bs) && bs != []
    ensures bs[0].vecs != [] && bs[0].vecs[0].len <= Size(bs)
  {
    FirstVec(bs[0]);
  }

  /** The count stays right, and the "request botched" branch is never taken. */
  lemma CompleteCounted(r: Req, n: nat)
    requires Counted(r) && n % 512 == 0 && n < Size(r.bios)
    ensures Counted(Complete(r, n)) && Complete(r, n).bios != []
  {
    hide Cut, Size;
    CutOk(r.bios, n);
    CutLeaves(r.bios, n);
    FirstFits(Cut(r.bios, n));
  }

  /** Completing a bytes and then b leaves what completing a + b at once does. */
  lemma CompleteComposes(r: Req, a: nat, b: nat)
    requires Counted(r) && a % 512 == 0 && b % 512 == 0
    ensures BiosOk(Complete(r, a).bios)
    ensures Complete(Complete(r, a), b).bios == Complete(r, a + b).bios
    ensures a + b < Size(r.bios) ==> Complete(Complete(r, a), b) == Complete(r, a + b)
    ensures Complete(r, a + b).bios == [] <==> a + b >= Size(r.bios)
  {
    hide Cut, Size, Recalc;
    CutOk(r.bios, a);
    CutLeaves(r.bios, a);
    CutCut(r.bios, a, b);
    CutLeaves(r.bios, a + b);
    CutOk(r.bios, a + b);
    NoneLeft();
    if a + b < Size(r.bios) {
      FirstFits(Cut(r.bios, a));
      FirstFits(Cut(r.bios, a + b));
      RecalcTwice(r.place, a / 512, b / 512, Cut(r.bios, a)[0], Cut(r.bios, a + b)[0]);
    }
  }

  lemma NoneLeft()
    ensures Size([]) == 0
  {
  }

  // ---- positions ----

  /** Bios follow each other on the disk from this sector on. */
  ghost predicate From(bs: seq<Left>, sector: nat) {
    bs != [] ==> bs[0].sector == sector && From(bs[1..], sector + bs[0].size / 512)
  }

  lemma {:induction false} CutFrom(bs: seq<Left>, n: nat, sector: nat)
    requires BiosOk(bs) && From(bs, sector) && n % 512 == 0
    ensures From(Cut(bs, n), sector + n / 512)
  {
    if bs != [] {
      assert BioOk(bs[0]);
      if n >= bs[0].size {
        CutFrom(bs[1..], n - bs[0].size, sector + bs[0].size / 512);
      } else {
        hide Drop, Sum;
        var c := Cut(bs, n);
        assert c[1..] == bs[1..];
      }
    }
  }

  /** hard_sector is where the first remaining bio starts; the submission fields follow when they were
      not ahead, and the current segment is then the first that remains. */
  lemma CompletePlaced(r: Req, n: nat)
    requires Counted(r) && From(r.bios, r.place.hardSector) && n % 512 == 0 && n < Size(r.bios)
    ensures var q := Complete(r, n);
            && From(q.bios, q.place.hardSector)
            && (r.place.sector <= r.place.hardSector && r.place.nr >= r.place.hardNr ==>
                  && q.place.sector == q.place.hardSector && q.place.nr == q.place.hardNr
                  && q.bios != [] && q.bios[0].vecs != []
                  && q.place.cur == q.place.hardCur == q.bios[0].vecs[0].len / 512)
  {
    hide Cut, Size, From;
    CutFrom(r.bios, n, r.place.hardSector);
    CutOk(r.bios, n);
    CutLeaves(r.bios, n);
    FirstFits(Cut(r.bios, n));
  }

  // ---- credit ----

  /** Bytes credited to a bio. */
  function Credited(log: seq<Credit>, id: nat): nat {
    if log == [] then 0 else (if log[0].id == id then log[0].bytes else 0) + Credited(log[1..], id)
  }

  /** Bytes still to come for a bio. */
  function Owed(bs: seq<Left>, id: nat): nat {
    if bs == [] then 0 else (if bs[0].id == id then bs[0].size else 0) + Owed(bs[1..], id)
  }

  lemma {:induction false} CreditedAppend(a: seq<Credit>, b: seq<Credit>, id: nat)
    ensures Credited(a + b, id) == Credited(a, id) + Credited(b, id)
  {
    if a == [] {
      assert a + b == b;
    } else {
      assert (a + b)[1..] == a[1..] + b;
      CreditedAppend(a[1..], b, id);
    }
  }

  /** What a bio is credited is what it no longer waits for. */
  lemma {:induction false} PaidIsOwed(bs: seq<Left>, n: nat, error: int, id: nat)
    requires BiosOk(bs)
    ensures Credited(Paid(bs, n, error), id) + Owed(Cut(bs, n), id) == Owed(bs, id)
  {
    if bs != [] {
      var p := Paid(bs, n, error);
      if n >= bs[0].size {
        PaidIsOwed(bs[1..], n - bs[0].size, error, id);
        assert p[1..] == Paid(bs[1..], n - bs[0].size, error);
      } else {
        var c := Cut(bs, n);
        assert c[1..] == bs[1..];
      }
    }
  }

  /** Every completion reported is of some bytes, carries the error, and goes to a bio of the request. */
  lemma {:induction false} PaidCarriesError(bs: seq<Left>, n: nat, error: int, c: Credit)
    requires BiosOk(bs) && c in Paid(bs, n, error)
    ensures c.error == error && c.bytes > 0 && exists i :: 0 <= i < |bs| && bs[i].id == c.id
  {
    assert BioOk(bs[0]);
    if c.id == bs[0].id {
      assert bs[0].id == c.id;
    }
    if n >= bs[0].size && c in Paid(bs[1..], n - bs[0].size, error) {
      PaidCarriesError(bs[1..], n - bs[0].size, error, c);
      var i :| 0 <= i < |bs[1..]| && bs[1..][i].id == c.id;
      assert bs[i + 1].id == c.id;
    }
  }

  /** A request completed piece by piece. */
  function CompleteAll(r: Req, ns: seq<nat>): Req
    requires Counted(r) && forall i :: 0 <= i < |ns| ==> ns[i] % 512 == 0
    decreases |ns|
  {
    if ns == [] || r.bios == [] then r
    else if ns[0] >= Size(r.bios) then Complete(r, ns[0])
    else CompleteCounted(r, ns[0]); CompleteAll(Complete(r, ns[0]), ns[1..])
  }

  function Total(ns: seq<nat>): nat { if ns == [] then 0 else ns[0] + Total(ns[1..]) }

  lemma {:induction false} PiecesLeave(r: Req, ns: seq<nat>)
    requires Counted(r) && forall i :: 0 <= i < |ns| ==> ns[i] % 512 == 0
    ensures CompleteAll(r, ns).bios == Cut(r.bios, Total(ns))
    decreases |ns|
  {
    CutLeaves(r.bios, Total(ns));
    if ns == [] || r.bios == [] {
      CutNone(r.bios);
    } else {
      hide Cut, Complete, Size, BiosOk, Recalc;
      CutLeaves(r.bios, ns[0]);
      if ns[0] < Size(r.bios) {
        CompleteCounted(r, ns[0]);
        CompleteBios(r, ns[0]);
        PiecesLeave(Complete(r, ns[0]), ns[1..]);
        CutCut(r.bios, ns[0], Total(ns[1..]));
      }
    }
  }

  lemma {:induction false} PiecesPlace(r: Req, ns: seq<nat>)
    requires Counted(r) && forall i :: 0 <= i < |ns| ==> ns[i] % 512 == 0
    requires ns != [] && Total(ns) < Size(r.bios)
    ensures CompleteAll(r, ns) == Complete(r, Total(ns))
    decreases |ns|
  {
    hide Cut, Complete, Size, BiosOk, Recalc;
    CutLeaves(r.bios, ns[0]);
    CompleteCounted(r, ns[0]);
    CompleteBios(r, ns[0]);
    NoneLeft();
    if |ns| == 1 {
      assert ns[1..] == [];
    } else {
      PiecesPlace(Complete(r, ns[0]), ns[1..]);
      WholeSectors(ns[1..]);
      CompleteComposes(r, ns[0], Total(ns[1..]));
    }
  }

  /** Only the number of bytes matters, not the pieces they completed in. */
  lemma PiecesDoNotMatter(r: Req, ns: seq<nat>)
    requires Counted(r) && forall i :: 0 <= i < |ns| ==> ns[i] % 512 == 0
    ensures CompleteAll(r, ns).bios == Cut(r.bios, Total(ns))
    ensures CompleteAll(r, ns).bios == [] <==> Total(ns) >= Size(r.bios)
    ensures ns != [] && Total(ns) < Size(r.bios) ==> CompleteAll(r, ns) == Complete(r, Total(ns))
  {
    hide Cut, Complete, CompleteAll, Size, Total, Recalc;
    PiecesLeave(r, ns);
    CutLeaves(r.bios, Total(ns));
    if ns != [] && Total(ns) < Size(r.bios) {
      PiecesPlace(r, ns);
    }
  }

  lemma {:induction false} WholeSectors(ns: seq<nat>)
    requires forall i :: 0 <= i < |ns| ==> ns[i] % 512 == 0
    ensures Total(ns) % 512 == 0
  {
    if ns != [] {
      WholeSectors(ns[1..]);
    }
  }

  lemma CutNone(bs: seq<Left>)
    requires BiosOk(bs)
    ensures Cut(bs, 0) == bs
  {
    if bs != [] {
      FirstVec(bs[0]);
      assert [bs[0]] + bs[1..] == bs;
      assert [bs[0].vecs[0]] + bs[0].vecs[1..] == bs[0].vecs;
      assert BioOk(bs[0]);
    }
  }

  function PaidAll(r: Req, ns: seq<nat>, error: int): seq<Credit>
    requires Counted(r) && forall i :: 0 <= i < |ns| ==> ns[i] % 512 == 0
    decreases |ns|
  {
    if ns == [] || r.bios == [] then []
    else if ns[0] >= Size(r.bios) then Paid(r.bios, ns[0], error)
    else CompleteCounted(r, ns[0]); Paid(r.bios, ns[0], error) + PaidAll(Complete(r, ns[0]), ns[1..], error)
  }

  /** However a request is completed, a bio's credit and what it is owed add up to its size; once the
      request is finished every bio has been credited exactly its size. */
  lemma {:induction false} EveryBioCredited(r: Req, ns: seq<nat>, error: int, id: nat)
    requires Counted(r) && forall i :: 0 <= i < |ns| ==> ns[i] % 512 == 0
    ensures Credited(PaidAll(r, ns, error), id) + Owed(CompleteAll(r, ns).bios, id) == Owed(r.bios, id)
    ensures CompleteAll(r, ns).bios == [] ==> Credited(PaidAll(r, ns, error), id) == Owed(r.bios, id)
    decreases |ns|
  {
    if ns != [] && r.bios != [] {
      var n := ns[0];
      PaidIsOwed(r.bios, n, error, id);
      CutLeaves(r.bios, n);
      if n < Size(r.bios) {
        hide Complete, Cut, Paid, Size;
        CompleteCounted(r, n);
        var q := Complete(r, n);
        CreditedAppend(Paid(r.bios, n, error), PaidAll(q, ns[1..], error), id);
        EveryBioCredited(q, ns[1..], error, id);
        CompleteBios(r, n);
      }
    }
  }

  lemma CompleteBios(r: Req, n: nat)
    requires BiosOk(r.bios)
    ensures Complete(r, n).bios == Cut(r.bios, n)
  {
    CutLeaves(r.bios, n);
  }
}
