/** __end_that_request_first as it walks and updates the bio list. */
module CompletionQueue {
  import opened CompletionSpec

  const EIO := -5

  datatype Bio = Bio(id: nat, vecs: seq<Vec>, idx: nat, size: nat, sector: nat)

  predicate Indexed(b: Bio) { b.idx <= |b.vecs| }

  function Rest(b: Bio): Left
    requires Indexed(b)
  {
    Left(b.id, b.vecs[b.idx..], b.size, b.sector)
  }

  function Rests(bs: seq<Bio>): seq<Left>
    requires forall i :: 0 <= i < |bs| ==> Indexed(bs[i])
  {
    if bs == [] then [] else [Rest(bs[0])] + Rests(bs[1..])
  }

  /** Skipping k whole vectors and then m bytes of the next. */
  lemma {:induction false} DropVecs(vs: seq<Vec>, k: nat, m: nat)
    requires k < |vs| && m < vs[k].len
    ensures Drop(vs, Sum(vs[..k]) + m) == [Vec(vs[k].off + m, vs[k].len - m)] + vs[k + 1..]
  {
    if k > 0 {
      DropVecs(vs[1..], k - 1, m);
      assert vs[1..][..k - 1] == vs[..k][1..];
    }
  }

  lemma {:induction false} SumSplit(vs: seq<Vec>, k: nat)
    requires k <= |vs|
    ensures Sum(vs) == Sum(vs[..k]) + Sum(vs[k..])
  {
    if k > 0 {
      SumSplit(vs[1..], k - 1);
      assert vs[1..][..k - 1] == vs[..k][1..];
    }
  }

  lemma SumStep(vs: seq<Vec>, k: nat)
    requires k < |vs|
    ensures Sum(vs[..k + 1]) == Sum(vs[..k]) + vs[k].len
  {
    SumSplit(vs[..k + 1], k);
    assert vs[..k + 1][..k] == vs[..k];
    assert vs[..k + 1][k..] == [vs[k]];
  }

  ghost predicate AllIndexed(bs: seq<Bio>) { forall i :: 0 <= i < |bs| ==> Indexed(bs[i]) }

  lemma RestsFirst(bs: seq<Bio>)
    requires AllIndexed(bs) && bs != []
    ensures Rests(bs) != [] && Rests(bs)[0] == Rest(bs[0]) && Rests(bs)[1..] == Rests(bs[1..])
  {
  }

  /** The loop's progress: of L0, n bytes are to go; of what is left, L, done have been counted off the
      first bio and nr are still to go. */
  ghost predicate Walking(l0: seq<Left>, n: nat, l: seq<Left>, skip: nat, done: nat, nr: nat) {
    && BiosOk(l) && Cut(l0, n) == Cut(l, done + nr)
    && (n < Size(l0) <==> done + nr < Size(l))
    && (skip == 0 ==> done == 0)
    && (skip > 0 ==> l != [] && done + nr < l[0].size && skip <= |l[0].vecs| && done == Sum(l[0].vecs[..skip]))
  }

  lemma WalkBio(l0: seq<Left>, n: nat, l: seq<Left>, skip: nat, done: nat, nr: nat)
    requires Walking(l0, n, l, skip, done, nr) && l != [] && nr >= l[0].size
    ensures skip == done == 0 && Walking(l0, n, l[1..], 0, 0, nr - l[0].size)
    ensures forall e :: Paid(l, nr, e) == [Credit(l[0].id, l[0].size, e)] + Paid(l[1..], nr - l[0].size, e)
  {
  }

  /** There is a vector to look at. */
  lemma WalkVec(l0: seq<Left>, n: nat, l: seq<Left>, skip: nat, done: nat, nr: nat)
    requires Walking(l0, n, l, skip, done, nr) && l != [] && nr < l[0].size
    ensures skip < |l[0].vecs| && done == Sum(l[0].vecs[..skip]) && done + nr < l[0].size
    ensures l[0].vecs[skip].len > 0 && n < Size(l0)
    ensures l[0].vecs[skip].len <= nr ==>
              Walking(l0, n, l, skip + 1, done + l[0].vecs[skip].len, nr - l[0].vecs[skip].len)
  {
    hide Cut, Size, Sum;
    var vs := l[0].vecs;
    assert BioOk(l[0]);
    NoVecs();
    FirstSize(l);
    if skip == 0 {
      assert vs[..0] == [];
      FirstVec(l[0]);
    } else {
      assert vs[..|vs|] == vs;
    }
    SumStep(vs, skip);
  }

  lemma Finished(n: nat, e: int)
    ensures Size([]) == 0 && Rests([]) == [] && Paid([], n, e) == []
  {
  }

  lemma FirstPositive(l: seq<Left>)
    requires BiosOk(l) && l != []
    ensures l[0].size > 0
  {
    assert BioOk(l[0]);
  }

  lemma SumPositive(l: seq<Left>, k: nat)
    requires BiosOk(l) && l != [] && k <= |l[0].vecs| && Sum(l[0].vecs[..k]) == 0
    ensures k == 0
  {
    assert BioOk(l[0]);
  }

  lemma FirstSize(l: seq<Left>)
    requires l != []
    ensures l[0].size <= Size(l)
  {
  }

  lemma NoVecs()
    ensures Sum([]) == 0
  {
  }

  lemma {:induction false} CutFirst(l: seq<Left>, k: nat, m: nat)
    requires l != [] && k < |l[0].vecs| && m < l[0].vecs[k].len && Sum(l[0].vecs[..k]) + m < l[0].size
    ensures var d := Sum(l[0].vecs[..k]) + m;
            Cut(l, d) == [Left(l[0].id, [Vec(l[0].vecs[k].off + m, l[0].vecs[k].len - m)] + l[0].vecs[k + 1..],
                               l[0].size - d, l[0].sector + d / 512)] + l[1..]
    ensures var d := Sum(l[0].vecs[..k]) + m;
            forall e :: Paid(l, d, e) == if d > 0 then [Credit(l[0].id, d, e)] else []
  {
    DropVecs(l[0].vecs, k, m);
  }

  /** struct request, and the completions its bios have been given. */
  class Request {
    var bios: seq<Bio>
    var place: Place
    var log: seq<Credit>

    ghost predicate Valid()
      reads this
    {
      AllIndexed(bios)
    }

    ghost function View(): Req
      requires Valid()
      reads this
    {
      Req(Rests(bios), place)
    }

    /** bio_endio: credit the bytes and take them off the bio. */
    method BioEndio(b: Bio, bytes: nat, error: int) returns (c: Bio)
      modifies `log
      ensures var k := if bytes > b.size then b.size else bytes;
              && log == old(log) + [Credit(b.id, k, error)]
              && c == b.(size := b.size - k, sector := b.sector + k / 512)
    {
      var k := bytes;
      if k > b.size {
        k := b.size;
      }
      c := b.(size := b.size - k);
      c := c.(sector := c.sector + k / 512);
      log := log + [Credit(c.id, k, error)];
    }

    /** blk_recalc_rq_sectors */
    method RecalcSectors(k: nat)
      requires Valid() && bios != [] && bios[0].idx < |bios[0].vecs|
      modifies `place
      ensures place == Recalc(old(place), k, Rest(bios[0]))
    {
      place := place.(hardSector := place.hardSector + k, hardNr := place.hardNr - k);
      if place.nr >= place.hardNr && place.sector <= place.hardSector {
        place := place.(sector := place.hardSector, nr := place.hardNr,
                        hardCur := bios[0].vecs[bios[0].idx].len / 512);
        place := place.(cur := place.hardCur);
      }
      if place.nr < place.cur {
        place := place.(nr := place.cur);
      }
    }

    /** The loop over bios and vectors.  Of the first unfinished bio it leaves skip whole vectors and nr
        bytes of the next one to be taken off. */
    method WalkBios(n: nat, error: int) returns (skip: nat, nr: nat, done: nat, total: nat)
      requires Valid() && BiosOk(Rests(bios))
      modifies `bios, `log
      ensures Valid() && BiosOk(Rests(bios))
      ensures bios == [] ==> n >= Size(old(Rests(bios))) && log == old(log) + Paid(old(Rests(bios)), n, error)
      ensures bios != [] ==>
                && total == n < Size(old(Rests(bios))) && done < bios[0].size
                && Cut(old(Rests(bios)), n) == Cut(Rests(bios), done)
                && log + Paid(Rests(bios), done, error) == old(log) + Paid(old(Rests(bios)), n, error)
                && bios[0].idx + skip < |bios[0].vecs| && nr < bios[0].vecs[bios[0].idx + skip].len
                && done == Sum(bios[0].vecs[bios[0].idx..][..skip]) + nr
    {
      hide Cut, Size, Sum, BiosOk, Paid, Rests;
      skip, nr, done, total := 0, n, 0, 0;
      ghost var l0 := Rests(bios);
      while bios != []
        invariant Valid() && total + nr == n && Walking(l0, n, Rests(bios), skip, done, nr)
        invariant log + Paid(Rests(bios), done + nr, error) == old(log) + Paid(l0, n, error)
        decreases |bios|, nr
      {
        RestsFirst(bios);
        var b := bios[0];
        var bytes := b.size;
        if nr >= b.size {
          WalkBio(l0, n, Rests(bios), skip, done, nr);
          bios := bios[1..];
          var _ := BioEndio(b, bytes, error);
          skip, done := 0, 0;
        } else {
          WalkVec(l0, n, Rests(bios), skip, done, nr);
          bytes := b.vecs[b.idx + skip].len;
          if bytes > nr {
            done, total := done + nr, total + nr;
            return;
          }
          skip, done := skip + 1, done + bytes;
        }
        total, nr := total + bytes, nr - bytes;
        if bios != [] && nr == 0 {
          break;
        }
      }
      if bios == [] {
        Finished(done + nr, error);
      } else {
        RestsFirst(bios);
        FirstPositive(Rests(bios));
        WalkVec(l0, n, Rests(bios), skip, done, nr);
      }
    }

    /** Bytes of the first unfinished bio, the last of them inside a vector. */
    method TrimFirst(skip: nat, nr: nat, done: nat, error: int)
      requires Valid() && BiosOk(Rests(bios)) && bios != [] && done < bios[0].size
      requires bios[0].idx + skip < |bios[0].vecs| && nr < bios[0].vecs[bios[0].idx + skip].len
      requires done == Sum(bios[0].vecs[bios[0].idx..][..skip]) + nr
      modifies `bios, `log
      ensures Valid() && bios != [] && bios[0].idx < |bios[0].vecs|
      ensures Rests(bios) == Cut(old(Rests(bios)), done) && log == old(log) + Paid(old(Rests(bios)), done, error)
    {
      hide Cut, Size, Sum, BiosOk, Paid, Rests;
      ghost var l := Rests(bios);
      RestsFirst(bios);
      CutFirst(l, skip, nr);
      if done != 0 {
        var b := BioEndio(bios[0], done, error);
        b := b.(idx := b.idx + skip);
        var vec := b.vecs[b.idx];
        vec := vec.(off := vec.off + nr);
        vec := vec.(len := vec.len - nr);
        b := b.(vecs := b.vecs[b.idx := vec]);
        assert b.vecs[b.idx..] == [vec] + bios[0].vecs[bios[0].idx..][skip + 1..];
        bios := bios[0 := b];
      } else {
        SumPositive(l, skip);
        assert bios[0].vecs[bios[0].idx..] == [l[0].vecs[0]] + l[0].vecs[1..];
      }
      RestsFirst(bios);
      assert Rests(bios) == [Rest(bios[0])] + l[1..];
    }

    /** __end_that_request_first for a file system request that is not the barrier in progress */
    method EndThatRequestFirst(n: nat, uptodate: int) returns (more: bool)
      requires Valid() && BiosOk(Rests(bios))
      modifies this
      ensures Valid() && View() == Complete(old(View()), n)
      ensures var error := if uptodate == 0 then EIO else if uptodate < 0 then uptodate else 0;
              log == old(log) + Paid(old(Rests(bios)), n, error)
      ensures more <==> n < Size(old(Rests(bios)))
    {
      hide Cut, Size, Sum, BiosOk, Paid, Rests;
      var error := 0;
      if uptodate <= 0 {
        error := if uptodate == 0 then EIO else uptodate;
      }
      CutLeaves(Rests(bios), n);
      var skip, nr, done, total := WalkBios(n, error);
      if bios == [] {
        Finished(0, error);
        return false;
      }
      TrimFirst(skip, nr, done, error);
      RestsFirst(bios);
      RecalcSectors(total / 512);
      return true;
    }
  }
}
