/** Safety of the ordered-flush protocol over every run of a drain-mode queue. */
module BarrierSafety {
  import opened BarrierModel

  // ---- counting requests in a list ----

  function CountFs(s: seq<Request>): (n: nat) {
    if s == [] then 0 else (if s[0].fs then 1 else 0) + CountFs(s[1..])
  }

  function CountKind(s: seq<Request>, k: Kind): (n: nat) {
    if s == [] then 0 else (if s[0].kind == k then 1 else 0) + CountKind(s[1..], k)
  }

  lemma {:induction false} CountAppend(s: seq<Request>, t: seq<Request>, k: Kind)
    ensures CountFs(s + t) == CountFs(s) + CountFs(t)
    ensures CountKind(s + t, k) == CountKind(s, k) + CountKind(t, k)
  {
    if s == [] {
      assert s + t == t;
    } else {
      assert (s + t)[1..] == s[1..] + t;
      CountAppend(s[1..], t, k);
    }
  }

  lemma CountInsert(s: seq<Request>, i: nat, r: Request, k: Kind)
    requires i <= |s|
    ensures CountFs(Insert(s, i, r)) == CountFs(s) + (if r.fs then 1 else 0)
    ensures CountKind(Insert(s, i, r), k) == CountKind(s, k) + (if r.kind == k then 1 else 0)
  {
    assert Insert(s, i, r) == s[..i] + ([r] + s[i..]);
    CountAppend(s[..i], [r] + s[i..], k);
    CountAppend(s[..i], s[i..], k);
    assert s == s[..i] + s[i..];
  }

  lemma CountRemove(s: seq<Request>, i: nat, k: Kind)
    requires i < |s|
    ensures CountFs(s) == CountFs(Remove(s, i)) + (if s[i].fs then 1 else 0)
    ensures CountKind(s, k) == CountKind(Remove(s, i), k) + (if s[i].kind == k then 1 else 0)
  {
    assert Insert(Remove(s, i), i, s[i]) == s;
    CountInsert(Remove(s, i), i, s[i], k);
  }

  lemma {:induction false} CountZero(s: seq<Request>, k: Kind)
    ensures CountFs(s) == 0 <==> forall r :: r in s ==> !r.fs
    ensures CountKind(s, k) == 0 <==> forall r :: r in s ==> r.kind != k
  {
    if s != [] {
      CountZero(s[1..], k);
      assert forall r :: r in s <==> r == s[0] || r in s[1..];
    }
  }

  // ---- the invariant ----

  predicate Odd(n: nat) { n % 2 == 1 }

  ghost predicate HasBarrier(s: seq<Request>, e: nat) {
    exists r :: r in s && IsBarrier(r) && r.epoch == e
  }

  /** What holds of each request on the dispatch list. */
  ghost predicate HeadRq(q: Queue, r: Request) {
    && (Ordinary(r) ==>
          && q.ended <= r.epoch <= q.epochs
          && r.color == Odd(r.epoch)
          && (r.hard ==> r.epoch < q.epochs && !r.started)
          && (r.hard && q.orig.Some? ==> q.ended < r.epoch)
          && (r.started ==> r.epoch == q.ended)
          && (q.orig.Some? && r.epoch == q.ended ==> r.soft && !q.ordseq.drain))
    && (r.kind.Normal? && !r.fs ==> r.soft && !r.hard)
    && (!r.kind.Normal? ==> ProxyRq(q, r))
  }

  ghost predicate ProxyRq(q: Queue, r: Request) {
    && q.orig.Some?
    && r.epoch == q.ended && r.soft && r.hard
    && (r.kind.Bar? ==> r.fs)
    && !HasBit(q.ordseq, StageOf(r.kind))
    && (r.started ==> CurSeq(q.ordseq) == StageOf(r.kind))
  }

  ghost predicate FlyingRq(q: Queue, r: Request) {
    && r.started
    && (Ordinary(r) ==> r.epoch == q.ended && r.color == Odd(r.epoch) && !r.hard
                        && (q.orig.Some? ==> !q.ordseq.drain))
    && (r.kind.Normal? && !r.fs ==> !r.hard)
    && (!r.kind.Normal? ==> ProxyRq(q, r))
  }

  ghost predicate SortedRq(q: Queue, r: Request) {
    Ordinary(r) && !r.hard && !r.soft && !r.started && r.epoch == q.epochs && r.color == Odd(r.epoch)
  }

  /** Where a request belongs: by true epoch, not by colour. */
  function Rank(q: Queue, r: Request): nat {
    if !r.kind.Normal? then StageOf(r.kind) else if r.epoch == q.ended then DRAIN else DONE
  }

  predicate Ranked(r: Request) { r.fs || !r.kind.Normal? }

  /** Order of two requests on the dispatch list, the first being earlier. */
  ghost predicate Ordered(q: Queue, a: Request, b: Request) {
    && (Ordinary(a) && Ordinary(b) ==> a.epoch <= b.epoch && (a.hard ==> a.epoch < b.epoch))
    && (q.orig.Some? && Ranked(a) && Ranked(b) ==> Rank(q, a) <= Rank(q, b))
  }

  ghost predicate HeadOrdered(q: Queue) {
    forall i, j :: 0 <= i < j < |q.head| ==> Ordered(q, q.head[i], q.head[j])
  }

  predicate Bits(q: Queue) {
    && (q.orig.Some? <==> q.ordseq.started)
    && (!q.ordseq.started ==> q.ordseq == IDLE)
    && (q.ordseq.bar ==> q.ordseq.drain && q.ordseq.pre && !q.ordseq.post)
    && (q.orig.Some? ==>
          && IsBarrier(q.orig.value) && !q.orig.value.started
          && q.orig.value.epoch == q.ended < q.epochs
          && q.orig.value.color == Odd(q.ended))
  }

  function Proxies(q: Queue, k: Kind): nat { CountKind(q.head, k) + CountKind(q.flying, k) }

  ghost predicate ProxyCounts(q: Queue) {
    forall k: Kind :: k != Normal ==>
      Proxies(q, k) == if q.ordseq.started && !HasBit(q.ordseq, StageOf(k)) then 1 else 0
  }

  ghost predicate Barriers(q: Queue) {
    forall e: nat :: q.ended <= e < q.epochs ==> (q.orig.Some? && e == q.ended) || HasBarrier(q.head, e)
  }

  ghost predicate Inv(q: Queue) {
    && q.mode.Drain?
    && q.ended <= q.epochs && q.ordcolor == Odd(q.epochs)
    && Bits(q)
    && q.inFlight == CountFs(q.flying)
    && (forall r :: r in q.head ==> HeadRq(q, r))
    && (forall r :: r in q.flying ==> FlyingRq(q, r))
    && (forall r :: r in q.sorted ==> SortedRq(q, r))
    && HeadOrdered(q)
    && ProxyCounts(q)
    && Barriers(q)
  }

  // ---- every step keeps it ----

  lemma DispatchInv(q: Queue, p: Pick)
    requires Inv(q) && p.index < |q.sorted|
    ensures Inv(Dispatch(q, p))
  {
    var r := q.sorted[p.index];
    var k := if p.Tail? then |q.head| else SortPos(q.head, |q.head|, r, p.boundary);
    var q' := Dispatch(q, p);
    assert SortedRq(q, r);
    assert HeadRq(q', r);
    forall x | x in q.head ensures HeadRq(q', x) { assert HeadRq(q, x); }
    forall i | k <= i < |q.head| ensures Ordinary(q.head[i]) && q.head[i].epoch == q.epochs {
      UnflaggedIsYoung(q, k, i);
    }
    forall x | x in q.head ensures Ordered(q, x, r) { assert HeadRq(q, x); }
    InsertOrdered(q, q', k, r);
    forall kk: Kind | kk != Normal ensures Proxies(q', kk) == Proxies(q, kk) { CountInsert(q.head, k, r, kk); }
    BarriersKept(q, q');
  }

  /** A head that sweeps upwards from the boundary and starts over at the bottom meets sector a no later
      than sector c. */
  predicate NoLater(a: nat, c: nat, boundary: nat) {
    if a >= boundary then c < boundary || a <= c else c < boundary && a <= c
  }

  predicate Swept(h: seq<Request>, a: nat, boundary: nat) {
    forall i, j :: a <= i < j < |h| ==> NoLater(h[i].sector, h[j].sector, boundary)
  }

  /** elv_dispatch_sort keeps the requests that may be sorted, those from a on, in the order of one sweep. */
  lemma SortKeepsSweep(h: seq<Request>, a: nat, r: Request, boundary: nat)
    requires a <= |h| && Swept(h, a, boundary)
    requires forall i :: a <= i < |h| ==> !Flagged(h[i]) && h[i].write == r.write
    requires a > 0 ==> Flagged(h[a - 1]) || h[a - 1].write != r.write
    ensures a <= SortPos(h, |h|, r, boundary) && Swept(Placed(h, r, Sort(0, boundary)), a, boundary)
  {
    SortStops(h, |h|, a, r, boundary);
    var k := SortPos(h, |h|, r, boundary);
    var t := Placed(h, r, Sort(0, boundary));
    forall i, j | a <= i < j < |t| ensures NoLater(t[i].sector, t[j].sector, boundary) {
      if i == k {
        assert t[j] == h[j - 1];
      } else if j == k {
        assert t[i] == h[i] && (i < k - 1 ==> NoLater(h[i].sector, h[k - 1].sector, boundary));
      }
    }
  }

  lemma {:induction false} SortStops(h: seq<Request>, n: nat, a: nat, r: Request, boundary: nat)
    requires a <= n <= |h|
    requires forall i :: a <= i < n ==> !Flagged(h[i]) && h[i].write == r.write
    requires a > 0 ==> Flagged(h[a - 1]) || h[a - 1].write != r.write
    ensures var k := SortPos(h, n, r, boundary);
            && a <= k <= n
            && (k > a ==> NoLater(h[k - 1].sector, r.sector, boundary))
            && forall i :: k <= i < n ==> NoLater(r.sector, h[i].sector, boundary)
  {
    if n > a && !StopsAt(r, h[n - 1], boundary) {
      SortStops(h, n - 1, a, r, boundary);
    }
  }

  lemma BarriersKept(q: Queue, q': Queue)
    requires Barriers(q) && q'.ended == q.ended && q'.epochs == q.epochs
    requires q.orig.Some? ==> q'.orig.Some?
    requires forall r :: r in q.head && IsBarrier(r) ==> r in q'.head
    ensures Barriers(q')
  {
    forall e: nat | q'.ended <= e < q'.epochs && !(q'.orig.Some? && e == q'.ended)
      ensures HasBarrier(q'.head, e)
    {
      assert HasBarrier(q.head, e);
    }
  }

  lemma InsertOrdered(q: Queue, q': Queue, k: nat, r: Request)
    requires HeadOrdered(q) && k <= |q.head| && q'.head == Insert(q.head, k, r)
    requires q'.ended == q.ended && q'.orig.Some? == q.orig.Some?
    requires forall i :: 0 <= i < k ==> Ordered(q, q.head[i], r)
    requires forall i :: k <= i < |q.head| ==> Ordered(q, r, q.head[i])
    ensures HeadOrdered(q')
  {
    forall i, j | 0 <= i < j < |q'.head| ensures Ordered(q', q'.head[i], q'.head[j]) {
      var a := if i < k then i else i - 1;
      var b := if j < k then j else j - 1;
      assert i != k && j != k ==> Ordered(q, q.head[a], q.head[b]);
    }
  }

  /** Before its barrier has gone, a request on the dispatch list has that barrier behind it. */
  lemma BarrierBehind(q: Queue, i: nat) returns (j: nat)
    requires Inv(q) && i < |q.head|
    requires Ordinary(q.head[i]) && q.head[i].epoch < q.epochs
    requires q.orig.Some? ==> q.head[i].epoch != q.ended
    ensures i <= j < |q.head| && IsBarrier(q.head[j]) && q.head[j].epoch == q.head[i].epoch
  {
    assert HeadRq(q, q.head[i]);
    assert HasBarrier(q.head, q.head[i].epoch);
    var b :| b in q.head && IsBarrier(b) && b.epoch == q.head[i].epoch;
    j :| 0 <= j < |q.head| && q.head[j] == b;
    assert forall a :: 0 <= a < i ==> Ordered(q, q.head[a], q.head[i]);
  }

  /** A request that nothing flagged stands behind, all the way to the tail, belongs to the
      current epoch: an older one would still have its barrier behind it. */
  lemma UnflaggedIsYoung(q: Queue, k: nat, i: nat)
    requires Inv(q) && k <= i < |q.head|
    requires forall j :: k <= j < |q.head| ==> !Flagged(q.head[j])
    ensures Ordinary(q.head[i]) && q.head[i].epoch == q.epochs
  {
    assert HeadRq(q, q.head[i]);
    if q.head[i].epoch < q.epochs {
      var j := BarrierBehind(q, i);
    }
  }

  lemma {:induction false} DrainInv(q: Queue, picks: seq<Pick>)
    requires Inv(q)
    ensures Inv(q.(head := Drained(q.head, q.sorted, picks), sorted := []))
    decreases |q.sorted|
  {
    if q.sorted != [] {
      var p := if picks != [] && picks[0].index < |q.sorted| then picks[0] else Tail(0);
      DispatchInv(q, p);
      DrainInv(Dispatch(q, p), if picks == [] then [] else picks[1..]);
    }
  }

  /** What callers of __elv_add_request respect: file system requests never go to the front,
      only they carry REQ_HARDBARRIER, and only they are sorted. */
  predicate LegalSubmit(fs: bool, hard: bool, soft: bool, elvpriv: bool, place: Where) {
    if fs then place != Front else !hard && (place.Sorted? ==> soft || !elvpriv)
  }

  lemma SubmitInv(q: Queue, fs: bool, hard: bool, soft: bool, write: bool, sector: nat, elvpriv: bool,
                  place: Where, picks: seq<Pick>)
    requires Inv(q) && LegalSubmit(fs, hard, soft, elvpriv, place)
    ensures Inv(Submit(q, fs, hard, soft, write, sector, elvpriv, place, picks))
  {
    var r := Request(Normal, q.nextId, q.epochs, fs, hard, soft, false, q.ordcolor, write, sector);
    var q' := Submit(q, fs, hard, soft, write, sector, elvpriv, place, picks);
    var at := if place.Sorted? && (soft || hard || !elvpriv) then Back else place;
    match at {
      case Sorted =>
        forall x | x in q.head ensures HeadRq(q', x) { assert HeadRq(q, x); }
        forall i, j | 0 <= i < j < |q'.head| ensures Ordered(q', q'.head[i], q'.head[j]) {
          assert Ordered(q, q.head[i], q.head[j]);
        }
        forall k: Kind | k != Normal ensures Proxies(q', k) == Proxies(q, k) {}
        BarriersKept(q, q');
      case Front =>
        AddAt(q, q', 0, r.(soft := true));
      case Back =>
        DrainInv(q, picks);
        var d := q.(head := Drained(q.head, q.sorted, picks), sorted := []);
        assert q'.head == Insert(d.head, |d.head|, r.(soft := true));
        AddAt(d, q', |d.head|, r.(soft := true));
    }
  }

  /** A new request put on the dispatch list: a special one anywhere, a file system one at
      the tail once the scheduler is empty. */
  lemma AddAt(q: Queue, q': Queue, k: nat, r: Request)
    requires Inv(q) && k <= |q.head|
    requires q' == q.(head := Insert(q.head, k, r), nextId := q'.nextId, log := q'.log,
                      ordcolor := if IsBarrier(r) then !q.ordcolor else q.ordcolor,
                      epochs := if IsBarrier(r) then q.epochs + 1 else q.epochs)
    requires r.kind.Normal? && r.soft && !r.started && r.epoch == q.epochs && r.color == Odd(r.epoch)
    requires r.hard ==> r.fs
    requires r.fs ==> k == |q.head| && q.sorted == []
    ensures Inv(q')
  {
    forall x | x in q.head ensures HeadRq(q', x) && Ordered(q, x, r) {
      assert HeadRq(q, x);
    }
    assert HeadRq(q', r);
    forall x | x in q.flying ensures FlyingRq(q', x) { assert FlyingRq(q, x); }
    InsertOrdered(q, q', k, r);
    forall kk: Kind | kk != Normal ensures Proxies(q', kk) == Proxies(q, kk) { CountInsert(q.head, k, r, kk); }
    forall e: nat | q'.ended <= e < q'.epochs && !(q'.orig.Some? && e == q'.ended)
      ensures HasBarrier(q'.head, e)
    {
      assert e < q.epochs ==> HasBarrier(q.head, e);
      assert e == q.epochs ==> r in q'.head;
    }
  }

  /** An older barrier still on the list stands before every younger request. */
  lemma FirstIsOldest(q: Queue, e: nat)
    requires Inv(q) && q.head != [] && Ordinary(q.head[0])
    requires HasBarrier(q.head, e)
    ensures q.head[0].epoch <= e
  {
    var b :| b in q.head && IsBarrier(b) && b.epoch == e;
    var j :| 0 <= j < |q.head| && q.head[j] == b;
    assert j > 0 ==> Ordered(q, q.head[0], q.head[j]);
  }

  /** The colour of the request at the head tells its true side of the barrier. */
  lemma HeadStage(q: Queue)
    requires Inv(q) && q.head != []
    ensures Ordinary(q.head[0]) && q.orig.None? ==> q.head[0].epoch == q.ended
    ensures q.orig.Some? && Ranked(q.head[0]) ==> ReqSeq(q, q.head[0]) == Rank(q, q.head[0])
  {
    var r := q.head[0];
    assert HeadRq(q, r);
    if Ordinary(r) {
      var e := if q.orig.Some? then q.ended + 1 else q.ended;
      if e < q.epochs {
        assert HasBarrier(q.head, e);
        FirstIsOldest(q, e);
      }
    }
  }

  ghost predicate Startable(q: Queue) {
    Inv(q) && q.orig.None? && q.head != [] && IsBarrier(q.head[0])
  }

  lemma StartRest(q: Queue, i: nat)
    requires Startable(q) && 0 < i < |q.head|
    ensures q.head[i].kind.Normal? && (Ordinary(q.head[i]) ==> q.head[i].epoch > q.ended)
    ensures HeadRq(StartOrdered(q), q.head[i])
  {
    HeadStage(q);
    assert HeadRq(q, q.head[i]);
    assert Ordered(q, q.head[0], q.head[i]);
  }

  /** Two requests behind the barrier stay in order. */
  lemma StartPair(q: Queue, i: nat, j: nat)
    requires Startable(q) && 0 < i < j < |q.head|
    ensures Ordered(StartOrdered(q), q.head[i], q.head[j])
  {
    hide Barriers, ProxyCounts, FlyingRq, SortedRq, CountFs, HeadRq, Proxy;
    StartRest(q, i);
    StartRest(q, j);
    assert Ordered(q, q.head[i], q.head[j]);
  }

  lemma StartOrder(q: Queue)
    requires Startable(q)
    ensures HeadOrdered(StartOrdered(q))
  {
    hide Barriers, ProxyCounts, FlyingRq, SortedRq, CountFs, HeadRq, HeadOrdered, Bits;
    var q' := StartOrdered(q);
    var n := |ProxyList(q')|;
    forall i, j | 0 <= i < j < |q'.head| ensures Ordered(q', q'.head[i], q'.head[j]) {
      if n <= i {
        StartPair(q, i - n + 1, j - n + 1);
      } else if n <= j {
        StartRest(q, j - n + 1);
      }
    }
    OrderedAll(q');
  }

  lemma OrderedAll(q: Queue)
    requires forall i, j :: 0 <= i < j < |q.head| ==> Ordered(q, q.head[i], q.head[j])
    ensures HeadOrdered(q)
  {
  }

  lemma ProxyListCount(q: Queue, k: Kind)
    requires q.orig.Some? && q.mode.Drain? && k != Normal
    ensures CountKind(ProxyList(q), k) ==
            if (k.PreFlush? && !q.mode.preFlush) || (k.PostFlush? && !q.mode.postFlush) then 0 else 1
  {
    var pre := if q.mode.preFlush then [Proxy(q, PreFlush)] else [];
    var post := if q.mode.postFlush then [Proxy(q, PostFlush)] else [];
    CountAppend(pre + [Proxy(q, Bar)], post, k);
    CountAppend(pre, [Proxy(q, Bar)], k);
  }

  lemma StartCounts(q: Queue, k: Kind)
    requires q.head != [] && q.mode.Drain? && k != Normal && Proxies(q, k) == 0
    ensures Proxies(StartOrdered(q), k) == if HasBit(StartOrdered(q).ordseq, StageOf(k)) then 0 else 1
  {
    var q' := StartOrdered(q);
    ProxyListCount(q', k);
    CountAppend(ProxyList(q'), q.head[1..], k);
  }

  lemma StartInv(q: Queue)
    requires Startable(q)
    ensures Inv(StartOrdered(q))
  {
    var q' := StartOrdered(q);
    HeadStage(q);
    assert HeadRq(q, q.head[0]);
    StartOrder(q);
    forall x | x in q'.head ensures HeadRq(q', x) {
      if x in q.head[1..] {
        var i :| 0 < i < |q.head| && q.head[i] == x;
        StartRest(q, i);
      }
    }
    forall x | x in q.flying ensures FlyingRq(q', x) {
      assert FlyingRq(q, x);
      CountZero(q.flying, Bar);
    }
    forall k: Kind | k != Normal { StartCounts(q, k); }
    forall e: nat | q'.ended < e < q'.epochs ensures HasBarrier(q'.head, e) {
      assert HasBarrier(q.head, e);
      assert forall x :: x in q.head ==> x == q.head[0] || x in q.head[1..];
    }
  }

  /** Changing the flags of one listed request moves neither order nor counts. */
  lemma FlagsOnly(q: Queue, q': Queue, r: Request)
    requires HeadOrdered(q) && Barriers(q) && q.head != [] && !IsBarrier(q.head[0])
    requires q'.head == q.head[0 := r] && r == q.head[0].(started := r.started)
    requires q'.flying == q.flying && q'.orig == q.orig && q'.ended == q.ended && q'.epochs == q.epochs
    ensures HeadOrdered(q') && Barriers(q')
    ensures forall k: Kind :: Proxies(q', k) == Proxies(q, k)
  {
    forall i, j | 0 <= i < j < |q'.head| ensures Ordered(q', q'.head[i], q'.head[j]) {
      assert Ordered(q, q.head[i], q.head[j]);
    }
    forall k: Kind ensures Proxies(q', k) == Proxies(q, k) {
      assert q'.head[1..] == q.head[1..];
    }
    forall x | x in q.head && IsBarrier(x) ensures x in q'.head {
      var i :| 0 <= i < |q.head| && q.head[i] == x;
      assert q'.head[i] == x;
    }
    BarriersKept(q, q');
  }

  lemma MarkInv(q: Queue)
    requires Inv(q) && q.head != []
    requires !IsBarrier(q.head[0])
    requires q.orig.Some? && Ranked(q.head[0]) ==> ReqSeq(q, q.head[0]) <= CurSeq(q.ordseq)
    ensures Inv(MarkStarted(q))
  {
    var q' := MarkStarted(q);
    var r := q.head[0];
    if !r.started {
      HeadStage(q);
      assert HeadRq(q, r);
      assert HeadRq(q', r.(started := true));
      forall x | x in q'.head ensures HeadRq(q', x) { assert x == r.(started := true) || x in q.head; }
      forall x | x in q.flying ensures FlyingRq(q', x) { assert FlyingRq(q, x); }
      FlagsOnly(q, q', r.(started := true));
    }
  }

  lemma FetchInv(q: Queue)
    requires Inv(q)
    ensures Inv(Fetch(q))
  {
    if q.head != [] {
      assert HeadRq(q, q.head[0]);
      var (q1, offered) := DoOrdered(q);
      if !q.ordseq.started && IsBarrier(q.head[0]) {
        StartInv(q);
      }
      if offered {
        HeadStage(q);
        MarkInv(q1);
      }
    }
  }

  lemma RemoveOrdered(q: Queue, q': Queue, k: nat)
    requires HeadOrdered(q) && k < |q.head| && q'.head == Remove(q.head, k)
    requires q'.ended == q.ended && q'.orig.Some? == q.orig.Some?
    ensures HeadOrdered(q')
  {
    forall i, j | 0 <= i < j < |q'.head| ensures Ordered(q', q'.head[i], q'.head[j]) {
      assert Ordered(q, q.head[if i < k then i else i + 1], q.head[if j < k then j else j + 1]);
    }
  }

  lemma DequeueInv(q: Queue, i: nat)
    requires Inv(q) && i < |q.head| && q.head[i].started
    ensures Inv(Dequeue(q, i))
  {
    var q' := Dequeue(q, i);
    var r := q.head[i];
    assert HeadRq(q, r);
    RemoveOrdered(q, q', i);
    forall x | x in q'.head ensures HeadRq(q', x) { assert HeadRq(q, x); }
    forall x | x in q'.flying ensures FlyingRq(q', x) { assert x == r || FlyingRq(q, x); }
    forall k: Kind ensures Proxies(q', k) == Proxies(q, k) {
      CountRemove(q.head, i, k);
      CountAppend(q.flying, [r], k);
    }
    CountAppend(q.flying, [r], Normal);
    BarriersKept(q, q');
  }

  /** During a sequence, a request two epochs on shares the barrier's colour; the next barrier,
      of the other colour, stands before it. */
  lemma NextBarrierBefore(q: Queue, j: nat) returns (m: nat)
    requires Inv(q) && q.orig.Some? && j < |q.head|
    requires Ordinary(q.head[j]) && q.head[j].epoch > q.ended && ReqSeq(q, q.head[j]) == DRAIN
    ensures m < j && ReqSeq(q, q.head[m]) == DONE
  {
    assert HeadRq(q, q.head[j]);
    assert HasBarrier(q.head, q.ended + 1);
    var b :| b in q.head && IsBarrier(b) && b.epoch == q.ended + 1;
    assert HeadRq(q, b);
    m :| 0 <= m < |q.head| && q.head[m] == b;
    assert forall a :: j < a < |q.head| ==> Ordered(q, q.head[j], q.head[a]);
  }

  /** Colour and epoch agree on everything the requeue walk passes. */
  lemma PassedRank(q: Queue, r: Request, n: nat, j: nat)
    requires Inv(q) && q.orig.Some? && j < n <= |q.head| && Ranked(q.head[j])
    requires forall i :: 0 <= i < n ==> ReqSeq(q, r) > ReqSeq(q, q.head[i])
    ensures Rank(q, q.head[j]) == ReqSeq(q, q.head[j])
  {
    assert HeadRq(q, q.head[j]);
    if Ordinary(q.head[j]) && q.head[j].epoch > q.ended && ReqSeq(q, q.head[j]) == DRAIN {
      var m := NextBarrierBefore(q, j);
    }
  }

  lemma RequeueOrder(q: Queue, r: Request, n: nat)
    requires Inv(q) && q.orig.Some? && n == RequeuePos(q, r, 0)
    requires r.kind.Normal? ==> r.fs && r.epoch == q.ended && !r.hard && r.color == Odd(r.epoch)
    ensures forall i :: 0 <= i < n ==> Ordered(q, q.head[i], r)
    ensures forall i :: n <= i < |q.head| ==> Ordered(q, r, q.head[i])
  {
    forall i | 0 <= i < n ensures Ordered(q, q.head[i], r) {
      if Ranked(q.head[i]) { PassedRank(q, r, n, i); }
    }
    forall i | n <= i < |q.head| ensures Ordered(q, r, q.head[i]) {
      assert HeadRq(q, q.head[i]);
      assert HeadRq(q, q.head[n]);
      assert n < i ==> Ordered(q, q.head[n], q.head[i]);
    }
  }

  lemma RequeueInv(q: Queue, i: nat)
    requires Inv(q) && i < |q.flying|
    ensures Inv(Requeue(q, i))
  {
    var q' := Requeue(q, i);
    var r := q.flying[i];
    var r1 := r.(started := false, soft := true);
    assert FlyingRq(q, r);
    var q1 := q.(flying := q'.flying, inFlight := q'.inFlight);
    var n := if q.ordseq.started then RequeuePos(q1, r1, 0) else 0;
    RequeuePosFrame(q, q1, r1, 0);
    forall x | x in q.head ensures HeadRq(q', x) { assert HeadRq(q, x); }
    assert HeadRq(q', r1);
    forall x | x in q'.flying ensures FlyingRq(q', x) { assert FlyingRq(q, x); }
    if q.ordseq.started && Ranked(r1) {
      RequeueOrder(q, r1, n);
    } else {
      forall i | 0 <= i < |q.head| ensures Ordered(q, r1, q.head[i]) { assert HeadRq(q, q.head[i]); }
    }
    InsertOrdered(q, q', n, r1);
    forall k: Kind ensures Proxies(q', k) == Proxies(q, k) {
      CountRemove(q.flying, i, k);
      CountInsert(q.head, n, r1, k);
    }
    CountRemove(q.flying, i, Normal);
    BarriersKept(q, q');
  }

  lemma {:induction false} RequeuePosFrame(q: Queue, q1: Queue, r: Request, k: nat)
    requires k <= |q.head| && q1.head == q.head && q1.orig == q.orig
    ensures q.orig.Some? ==> RequeuePos(q1, r, k) == RequeuePos(q, r, k)
    decreases |q.head| - k
  {
    if k < |q.head| { RequeuePosFrame(q, q1, r, k + 1); }
  }

  /** While the queue drains, the barrier proxy waits on the list. */
  lemma DrainingHead(q: Queue)
    requires Inv(q) && CurSeq(q.ordseq) == DRAIN
    ensures q.head != [] && !q.ordseq.bar
  {
    assert Proxies(q, Bar) == 1;
    CountZero(q.flying, Bar);
  }

  lemma DrainedHead(q: Queue, x: Request)
    requires Inv(q) && x in q.head && CheckDrained(q) != q
    requires CurSeq(q.ordseq) == DRAIN ==> q.head != [] && !q.ordseq.bar
    ensures HeadRq(CheckDrained(q), x)
  {
    hide Barriers, CountFs, CountKind, FlyingRq, SortedRq;
    HeadStage(q);
    assert HeadRq(q, x);
    var j :| 0 <= j < |q.head| && q.head[j] == x;
    assert j > 0 ==> Ordered(q, q.head[0], x);
    assert HeadRq(q, q.head[0]);
  }

  lemma CheckDrainedInv(q: Queue)
    requires Inv(q)
    requires CurSeq(q.ordseq) == DRAIN ==> q.head != [] && !q.ordseq.bar
    ensures Inv(CheckDrained(q))
  {
    hide Barriers, CountFs, CountKind, HeadRq;
    var q' := CheckDrained(q);
    if q' != q {
      CountZero(q.flying, Bar);
      forall x | x in q.head ensures HeadRq(q', x) {
        DrainedHead(q, x);
      }
      forall x | x in q.flying ensures FlyingRq(q', x) { assert FlyingRq(q, x); }
      forall i, j | 0 <= i < j < |q'.head| ensures Ordered(q', q'.head[i], q'.head[j]) {
        assert Ordered(q, q.head[i], q.head[j]);
      }
      forall k: Kind | k != Normal ensures Proxies(q', k) == Proxies(q, k) {}
      BarriersKept(q, q');
    }
  }

  lemma ReleaseInv(q: Queue, i: nat, error: int)
    requires Inv(q) && i < |q.flying| && q.flying[i].kind.Normal?
    ensures Inv(Release(q, i, error))
  {
    var q' := Release(q, i, error);
    assert FlyingRq(q, q.flying[i]);
    forall x | x in q.head ensures HeadRq(q', x) { assert HeadRq(q, x); }
    forall x | x in q'.flying ensures FlyingRq(q', x) { assert FlyingRq(q, x); }
    forall i, j | 0 <= i < j < |q'.head| ensures Ordered(q', q'.head[i], q'.head[j]) {
      assert Ordered(q, q.head[i], q.head[j]);
    }
    forall k: Kind | k != Normal ensures Proxies(q', k) == Proxies(q, k) { CountRemove(q.flying, i, k); }
    CountRemove(q.flying, i, Normal);
    BarriersKept(q, q');
  }

  lemma ProxyGone(q: Queue, i: nat, k: Kind)
    requires ProxyCounts(q) && q.ordseq.started && i < |q.flying| && q.flying[i].kind == k != Normal
    requires !HasBit(q.ordseq, StageOf(k))
    ensures forall x :: x in q.head || x in Remove(q.flying, i) ==> x.kind != k
  {
    CountRemove(q.flying, i, k);
    CountZero(q.head, k);
    CountZero(Remove(q.flying, i), k);
  }

  lemma ProxyDoneCounts(q: Queue, q': Queue, i: nat)
    requires ProxyCounts(q) && q.ordseq.started && i < |q.flying| && !q.flying[i].kind.Normal?
    requires !HasBit(q.ordseq, StageOf(q.flying[i].kind))
    requires q'.head == q.head && q'.flying == Remove(q.flying, i)
    requires q'.ordseq == SetBit(q.ordseq, StageOf(q.flying[i].kind))
             || (q'.ordseq == IDLE && CurSeq(SetBit(q.ordseq, StageOf(q.flying[i].kind))) == DONE)
    ensures ProxyCounts(q') && CountFs(q'.flying) == CountFs(q.flying) - (if q.flying[i].fs then 1 else 0)
  {
    forall k: Kind | k != Normal
      ensures Proxies(q', k) == if q'.ordseq.started && !HasBit(q'.ordseq, StageOf(k)) then 1 else 0
    {
      CountRemove(q.flying, i, k);
    }
    CountRemove(q.flying, i, Normal);
  }

  lemma ProxyDoneInv(q: Queue, i: nat, error: int)
    requires Inv(q) && i < |q.flying| && !q.flying[i].kind.Normal? && q.orig.Some?
    ensures Inv(CompleteSeq(Release(q, i, error), StageOf(q.flying[i].kind), error))
  {
    hide CountFs, CountKind, HasBarrier;
    var r := q.flying[i];
    var q' := CompleteSeq(Release(q, i, error), StageOf(r.kind), error);
    assert FlyingRq(q, r);
    ProxyGone(q, i, r.kind);
    ProxyDoneCounts(q, q', i);
    forall x | x in q.head ensures HeadRq(q', x) { assert HeadRq(q, x); }
    forall x | x in q'.flying ensures FlyingRq(q', x) { assert FlyingRq(q, x); }
    forall i, j | 0 <= i < j < |q'.head| ensures Ordered(q', q'.head[i], q'.head[j]) {
      assert Ordered(q, q.head[i], q.head[j]);
    }
    forall e: nat | q'.ended <= e < q'.epochs && !(q'.orig.Some? && e == q'.ended)
      ensures HasBarrier(q'.head, e)
    {
      assert HasBarrier(q.head, e);
    }
  }

  lemma CompleteInv(q: Queue, i: nat, error: int)
    requires Inv(q) && i < |q.flying|
    requires CurSeq(q.ordseq) == DRAIN ==> q.head != [] && !q.ordseq.bar
    ensures !q.flying[i].kind.Normal? ==> q.ordseq.started
    ensures Inv(Complete(q, i, error))
  {
    var r := q.flying[i];
    assert FlyingRq(q, r);
    if r.kind.Normal? {
      ReleaseInv(q, i, error);
      CheckDrainedInv(Release(q, i, error));
    } else {
      assert CheckDrained(Release(q, i, error)) == Release(q, i, error);
      ProxyDoneInv(q, i, error);
    }
  }
}
