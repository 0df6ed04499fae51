/** The key expansions and the loops. */
module DesCipher {
  import opened WordXor
  import opened Words
  import opened Des

  /** The expansion tables: pc1, the rotation rs, and pc2 as its two sets of four tables. */
  datatype Boxes = Boxes(pc1: word -> int, rs: int -> int, pc2: (bool, int, int) -> word)

  /** PC2 of four sevens of bits with the first or the second set of tables. */
  function Pc2(t: Boxes, second: bool, a: int, b: int, c: int, d: int): word {
    O(O(O(t.pc2(second, 4, d), t.pc2(second, 3, c)), t.pc2(second, 2, b)), t.pc2(second, 1, a))
  }

  /** C or D as four registers: a holds bits 1, 5, .. 25, b those after them, and so on. */
  datatype Quad = Quad(a: int, b: int, c: int, d: int)

  /** C or D turned right by one: each register takes the place of the next, and the last turns. */
  function Right(t: Boxes, q: Quad): Quad { Quad(t.rs(q.d), q.a, q.b, q.c) }

  function Turned(t: Boxes, q: Quad, k: nat): Quad { if k == 0 then q else Right(t, Turned(t, q, k - 1)) }

  /** How far C and D have been turned right, from the last round back, when half subkey i is taken. */
  function TurnsAt(i: int): nat { if i <= 0 then 0 else if i < 8 then 2 * i - 1 else if i < 15 then 2 * i - 2 else 27 }

  function Pc2Of(t: Boxes, second: bool, q: Quad): word { Pc2(t, second, q.a, q.b, q.c, q.d) }

  /** The sixteen half subkeys in the order they are computed, which is from the last round to the first. */
  function Halves(t: Boxes, second: bool, q: Quad): (h: seq<word>)
    ensures |h| == 16
  {
    seq(16, i => Pc2Of(t, second, Turned(t, q, TurnsAt(i))))
  }

  /** The seven bits of C and of D that a pair of key bytes holds, after PC1. */
  function First(t: Boxes, k: seq<word>, i: nat): int
    requires |k| == 8 && i < 4
  {
    t.pc1(((k[i + 4] & 0x0e) << 4) | (k[i] & 0x1e))
  }

  function Second(t: Boxes, k: seq<word>, i: nat): int
    requires |k| == 8 && i < 4
  {
    t.pc1((((k[i] & 0xe0) >> 4) | (k[i + 4] & 0xf0)) + 1)
  }

  function FirstHalves(t: Boxes, k: seq<word>): (h: seq<word>)
    requires |k| == 8
    ensures |h| == 16
  {
    Halves(t, false, Quad(First(t, k, 3), First(t, k, 2), First(t, k, 1), First(t, k, 0)))
  }

  function SecondHalves(t: Boxes, k: seq<word>): (h: seq<word>)
    requires |k| == 8
    ensures |h| == 16
  {
    Halves(t, true, Quad(Second(t, k, 3), Second(t, k, 2), Second(t, k, 1), Second(t, k, 0)))
  }

  /** The fixup: the upper half words change places and the odd word is turned. */
  function Fix(k: Subkey): Subkey {
    var p := Exchange(Pair(k.even, k.odd), 0xffff0000);
    Subkey(p.l, Rol18(p.r))
  }

  /** The subkeys of a key in the order they are computed, which is the order of decryption. */
  function Schedule(t: Boxes, k: seq<word>): (s: seq<Subkey>)
    requires |k| == 8
    ensures |s| == 16
  {
    seq(16, i requires 0 <= i < 16 => Fix(Subkey(FirstHalves(t, k)[i], SecondHalves(t, k)[i])))
  }

  lemma {:induction false} ReverseAt(s: seq<Subkey>, i: nat)
    requires i < |s|
    ensures |Reverse(s)| == |s| && Reverse(s)[i] == s[|s| - 1 - i]
  {
    if |s| > 1 {
      ReverseAt(s[1..], if i < |s| - 1 then i else 0);
    }
  }

  /** The fixup loop both expansions end with. */
  method FixAll(pe: array<Subkey>, base: nat)
    requires base + 16 <= pe.Length
    modifies pe
    ensures forall i :: 0 <= i < pe.Length ==> pe[i] == if base <= i < base + 16 then Fix(old(pe[i])) else old(pe[i])
  {
    hide Fix;
    var d := 0;
    while d < 16
      invariant 0 <= d <= 16
      invariant forall i :: 0 <= i < pe.Length ==> pe[i] == if base <= i < base + d then Fix(old(pe[i])) else old(pe[i])
    {
      pe[base + d] := Fix(pe[base + d]);
      d := d + 1;
    }
  }

  /** The unfixed subkey that ekey stores for round j. */
  function Stored(w: seq<word>, v: seq<word>, j: int): Subkey
    requires |w| == |v| == 16 && 0 <= j < 16
  {
    Subkey(w[15 - j], v[15 - j])
  }

  lemma StoredFixed(t: Boxes, k: seq<word>, j: nat)
    requires |k| == 8 && j < 16
    ensures |Reverse(Schedule(t, k))| == 16
    ensures Fix(Stored(FirstHalves(t, k), SecondHalves(t, k), j)) == Reverse(Schedule(t, k))[j]
  {
    hide Fix, FirstHalves, SecondHalves;
    ReverseAt(Schedule(t, k), j);
  }

  // ---- weak keys ----

  function Six(t: Boxes, x: int): int { t.rs(t.rs(t.rs(t.rs(t.rs(t.rs(x)))))) }

  function Seven(t: Boxes, x: int): int { t.rs(Six(t, x)) }

  /** What ekey tests of one half. */
  predicate WeakHalf(t: Boxes, a: int, b: int, c: int, d: int) {
    a == c && b == d && t.rs(a) == c && b == t.rs(d)
  }

  /** ekey returns zero.  The first half is tested after the expansion has turned a six times and the
      others seven times, the second half before the expansion. */
  predicate ReportsWeak(t: Boxes, k: seq<word>)
    requires |k| == 8
  {
    && WeakHalf(t, Six(t, First(t, k, 3)), Seven(t, First(t, k, 2)), Seven(t, First(t, k, 1)), Seven(t, First(t, k, 0)))
    && WeakHalf(t, Second(t, k, 3), Second(t, k, 2), Second(t, k, 1), Second(t, k, 0))
  }

  /** rs turns the seven bits that pc1 selects by one place. */
  ghost predicate Rotates(t: Boxes) {
    forall v: word {:trigger t.pc1(v)} :: Seven(t, t.pc1(v)) == t.pc1(v)
  }

  /** Seven turns are none, so the two tests are the same test of the two halves. */
  lemma WeakIff(t: Boxes, k: seq<word>)
    requires |k| == 8 && Rotates(t)
    ensures ReportsWeak(t, k) <==>
      && WeakHalf(t, First(t, k, 3), First(t, k, 2), First(t, k, 1), First(t, k, 0))
      && WeakHalf(t, Second(t, k, 3), Second(t, k, 2), Second(t, k, 1), Second(t, k, 0))
  {
  }

  /** The subkeys of a weak or semi-weak key: one, seven times another, seven times the first, the other. */
  function TwoKinds<T>(x: T, y: T): seq<T> {
    seq(16, i => if i == 0 || 8 <= i < 15 then x else y)
  }

  lemma {:induction false} WeakTurned(t: Boxes, q: Quad, k: nat)
    requires WeakHalf(t, q.a, q.b, q.c, q.d)
    ensures Turned(t, q, k) == if k % 2 == 0 then Quad(q.a, q.b, q.a, q.b) else Quad(q.b, q.a, q.b, q.a)
  {
    if k > 0 { WeakTurned(t, q, k - 1); }
  }

  lemma WeakHalves(t: Boxes, second: bool, a: int, b: int, c: int, d: int)
    requires WeakHalf(t, a, b, c, d)
    ensures Halves(t, second, Quad(a, b, c, d)) ==
            TwoKinds(Pc2(t, second, a, b, a, b), Pc2(t, second, b, a, b, a))
  {
    hide Pc2, WeakHalf, Turned;
    var h := Halves(t, second, Quad(a, b, c, d));
    var g := TwoKinds(Pc2(t, second, a, b, a, b), Pc2(t, second, b, a, b, a));
    forall i | 0 <= i < 16 ensures h[i] == g[i] { WeakTurned(t, Quad(a, b, c, d), TurnsAt(i)); }
  }

  /** A key that ekey reports as weak has at most two different subkeys. */
  lemma WeakSchedule(t: Boxes, k: seq<word>) returns (x: Subkey, y: Subkey)
    requires |k| == 8 && Rotates(t) && ReportsWeak(t, k)
    ensures Schedule(t, k) == TwoKinds(x, y)
    ensures First(t, k, 3) == First(t, k, 2) && Second(t, k, 3) == Second(t, k, 2) ==> x == y
  {
    hide Halves, Fix, Pc2, First, Second, ReportsWeak, WeakHalf;
    WeakIff(t, k);
    var (a, b, c, d) := (First(t, k, 3), First(t, k, 2), Second(t, k, 3), Second(t, k, 2));
    WeakHalves(t, false, a, b, First(t, k, 1), First(t, k, 0));
    WeakHalves(t, true, c, d, Second(t, k, 1), Second(t, k, 0));
    x := Fix(Subkey(Pc2(t, false, a, b, a, b), Pc2(t, true, c, d, c, d)));
    y := Fix(Subkey(Pc2(t, false, b, a, b, a), Pc2(t, true, d, c, d, c)));
    TwoKindsPair(FirstHalves(t, k), SecondHalves(t, k), Schedule(t, k), x, y,
      Pc2(t, false, a, b, a, b), Pc2(t, false, b, a, b, a), Pc2(t, true, c, d, c, d), Pc2(t, true, d, c, d, c));
  }

  lemma TwoKindsPair(w: seq<word>, v: seq<word>, s: seq<Subkey>, x: Subkey, y: Subkey, a: word, b: word, c: word,
    d: word)
    requires w == TwoKinds(a, b) && v == TwoKinds(c, d) && |s| == 16
    requires forall i :: 0 <= i < 16 ==> s[i] == Fix(Subkey(w[i], v[i]))
    requires x == Fix(Subkey(a, c)) && y == Fix(Subkey(b, d))
    ensures s == TwoKinds(x, y)
  {
    hide Fix;
  }

  /** When both halves repeat one word, encryption is its own inverse. */
  lemma WeakSelfInverse(t: Boxes, s: Tables, k: seq<word>, p: Pair)
    requires |k| == 8 && Rotates(t) && ReportsWeak(t, k)
    requires First(t, k, 3) == First(t, k, 2) && Second(t, k, 3) == Second(t, k, 2)
    ensures var ks := Reverse(Schedule(t, k)); Cipher(s, ks, Cipher(s, ks, p)) == p
  {
    hide Schedule, ReportsWeak, Cipher, First, Second, TwoKinds;
    var x, y := WeakSchedule(t, k);
    OneKind(x);
    CipherBack(s, Schedule(t, k), p);
  }

  lemma OneKind(x: Subkey)
    ensures Reverse(TwoKinds(x, x)) == TwoKinds(x, x)
  {
    hide Reverse;
    var ks := TwoKinds(x, x);
    forall i | 0 <= i < 16 ensures |Reverse(ks)| == 16 && Reverse(ks)[i] == x {
      ReverseAt(ks, i);
    }
    ReverseAt(ks, 0);
  }

  function Backwards(h: seq<word>): (g: seq<word>)
    requires |h| == 16
    ensures |g| == 16 && forall i :: 0 <= i < 16 ==> g[i] == h[15 - i]
  {
    [h[15], h[14], h[13], h[12], h[11], h[10], h[9], h[8], h[7], h[6], h[5], h[4], h[3], h[2], h[1], h[0]]
  }

  /** The first n half subkeys, in the order they are computed or the other way round. */
  ghost predicate Up(t: Boxes, second: bool, q: Quad, h: seq<word>, n: nat) {
    |h| == n && forall j :: 0 <= j < n ==> h[j] == Pc2Of(t, second, Turned(t, q, TurnsAt(j)))
  }

  ghost predicate Down16(t: Boxes, second: bool, q: Quad, h: seq<word>, n: nat) {
    |h| == n && forall j :: 0 <= j < n ==> h[n - 1 - j] == Pc2Of(t, second, Turned(t, q, TurnsAt(j)))
  }

  lemma NoneTaken(t: Boxes, second: bool, q: Quad)
    ensures Up(t, second, q, [], 0) && Down16(t, second, q, [], 0) && Turned(t, q, TurnsAt(0)) == q
  {
  }

  /** C or D before half subkey n + 1 is taken: one or two places further. */
  function Onward(t: Boxes, r: Quad, n: nat): Quad {
    if n == 0 || n == 7 || n == 14 then Quad(t.rs(r.d), r.a, r.b, r.c) else Quad(t.rs(r.c), t.rs(r.d), r.a, r.b)
  }

  lemma Goes(t: Boxes, q: Quad, n: nat, r: Quad)
    requires n < 15 && Turned(t, q, TurnsAt(n)) == r
    ensures Turned(t, q, TurnsAt(n + 1)) == Onward(t, r, n)
  {
    var k := TurnsAt(n);
    assert Turned(t, q, k + 1) == Right(t, r);
    assert Turned(t, q, k + 2) == Right(t, Right(t, r));
  }

  lemma TakenUp(t: Boxes, second: bool, q: Quad, h: seq<word>, n: nat, r: Quad)
    requires n < 16 && Up(t, second, q, h, n) && Turned(t, q, TurnsAt(n)) == r
    ensures Up(t, second, q, h + [Pc2(t, second, r.a, r.b, r.c, r.d)], n + 1)
    ensures n < 15 ==> Turned(t, q, TurnsAt(n + 1)) == Onward(t, r, n)
  {
    hide Turned, Pc2, Onward;
    if n < 15 { Goes(t, q, n, r); }
  }

  lemma TakenDown(t: Boxes, second: bool, q: Quad, h: seq<word>, n: nat, r: Quad)
    requires n < 16 && Down16(t, second, q, h, n) && Turned(t, q, TurnsAt(n)) == r
    ensures Down16(t, second, q, [Pc2(t, second, r.a, r.b, r.c, r.d)] + h, n + 1)
    ensures n < 15 ==> Turned(t, q, TurnsAt(n + 1)) == Onward(t, r, n)
  {
    hide Turned, Pc2, Onward;
    var g := [Pc2(t, second, r.a, r.b, r.c, r.d)] + h;
    forall j | 0 <= j < n ensures g[n - j] == Pc2Of(t, second, Turned(t, q, TurnsAt(j))) {
      assert g[n - j] == h[n - 1 - j];
    }
    if n < 15 { Goes(t, q, n, r); }
  }

  lemma AllTaken(t: Boxes, second: bool, q: Quad, h: seq<word>)
    ensures Up(t, second, q, h, 16) ==> h == Halves(t, second, q)
    ensures Down16(t, second, q, h, 16) ==> |h| == 16 && Backwards(h) == Halves(t, second, q)
  {
    hide Turned, Pc2Of;
  }

  /** One half of ekey: the half subkeys from the last to the first, and the registers it ends with. */
  method EHalf(t: Boxes, second: bool, a0: int, b0: int, c0: int, d0: int)
    returns (h: seq<word>, a: int, b: int, c: int, d: int)
    ensures |h| == 16 && Backwards(h) == Halves(t, second, Quad(a0, b0, c0, d0))
    ensures a == Six(t, a0) && b == Seven(t, b0) && c == Seven(t, c0) && d == Seven(t, d0)
  {
    hide Pc2, Halves, Turned, Up, Down16;
    ghost var q := Quad(a0, b0, c0, d0);
    NoneTaken(t, second, q);
    h, a, b, c, d := [], a0, b0, c0, d0;
    TakenDown(t, second, q, h, 0, Quad(a, b, c, d));
    h := [Pc2(t, second, a, b, c, d)] + h; d := t.rs(d);
    TakenDown(t, second, q, h, 1, Quad(d, a, b, c));
    h := [Pc2(t, second, d, a, b, c)] + h; c, b := t.rs(c), t.rs(b);
    TakenDown(t, second, q, h, 2, Quad(b, c, d, a));
    h := [Pc2(t, second, b, c, d, a)] + h; a, d := t.rs(a), t.rs(d);
    TakenDown(t, second, q, h, 3, Quad(d, a, b, c));
    h := [Pc2(t, second, d, a, b, c)] + h; c, b := t.rs(c), t.rs(b);
    TakenDown(t, second, q, h, 4, Quad(b, c, d, a));
    h := [Pc2(t, second, b, c, d, a)] + h; a, d := t.rs(a), t.rs(d);
    TakenDown(t, second, q, h, 5, Quad(d, a, b, c));
    h := [Pc2(t, second, d, a, b, c)] + h; c, b := t.rs(c), t.rs(b);
    TakenDown(t, second, q, h, 6, Quad(b, c, d, a));
    h := [Pc2(t, second, b, c, d, a)] + h; a, d := t.rs(a), t.rs(d);
    TakenDown(t, second, q, h, 7, Quad(d, a, b, c));
    h := [Pc2(t, second, d, a, b, c)] + h; c := t.rs(c);
    TakenDown(t, second, q, h, 8, Quad(c, d, a, b));
    h := [Pc2(t, second, c, d, a, b)] + h; b, a := t.rs(b), t.rs(a);
    TakenDown(t, second, q, h, 9, Quad(a, b, c, d));
    h := [Pc2(t, second, a, b, c, d)] + h; d, c := t.rs(d), t.rs(c);
    TakenDown(t, second, q, h, 10, Quad(c, d, a, b));
    h := [Pc2(t, second, c, d, a, b)] + h; b, a := t.rs(b), t.rs(a);
    TakenDown(t, second, q, h, 11, Quad(a, b, c, d));
    h := [Pc2(t, second, a, b, c, d)] + h; d, c := t.rs(d), t.rs(c);
    TakenDown(t, second, q, h, 12, Quad(c, d, a, b));
    h := [Pc2(t, second, c, d, a, b)] + h; b, a := t.rs(b), t.rs(a);
    TakenDown(t, second, q, h, 13, Quad(a, b, c, d));
    h := [Pc2(t, second, a, b, c, d)] + h; d, c := t.rs(d), t.rs(c);
    TakenDown(t, second, q, h, 14, Quad(c, d, a, b));
    h := [Pc2(t, second, c, d, a, b)] + h; b := t.rs(b);
    TakenDown(t, second, q, h, 15, Quad(b, c, d, a));
    h := [Pc2(t, second, b, c, d, a)] + h;
    AllTaken(t, second, q, h);
  }

  /** One half of dkey: the half subkeys from the first to the last. */
  method DHalf(t: Boxes, second: bool, a0: int, b0: int, c0: int, d0: int)
    returns (h: seq<word>)
    ensures h == Halves(t, second, Quad(a0, b0, c0, d0))
  {
    hide Pc2, Halves, Turned, Up, Down16;
    ghost var q := Quad(a0, b0, c0, d0);
    NoneTaken(t, second, q);
    var a, b, c, d := a0, b0, c0, d0;
    h := [];
    TakenUp(t, second, q, h, 0, Quad(a, b, c, d));
    h := h + [Pc2(t, second, a, b, c, d)]; d := t.rs(d);
    TakenUp(t, second, q, h, 1, Quad(d, a, b, c));
    h := h + [Pc2(t, second, d, a, b, c)]; c, b := t.rs(c), t.rs(b);
    TakenUp(t, second, q, h, 2, Quad(b, c, d, a));
    h := h + [Pc2(t, second, b, c, d, a)]; a, d := t.rs(a), t.rs(d);
    TakenUp(t, second, q, h, 3, Quad(d, a, b, c));
    h := h + [Pc2(t, second, d, a, b, c)]; c, b := t.rs(c), t.rs(b);
    TakenUp(t, second, q, h, 4, Quad(b, c, d, a));
    h := h + [Pc2(t, second, b, c, d, a)]; a, d := t.rs(a), t.rs(d);
    TakenUp(t, second, q, h, 5, Quad(d, a, b, c));
    h := h + [Pc2(t, second, d, a, b, c)]; c, b := t.rs(c), t.rs(b);
    TakenUp(t, second, q, h, 6, Quad(b, c, d, a));
    h := h + [Pc2(t, second, b, c, d, a)]; a, d := t.rs(a), t.rs(d);
    TakenUp(t, second, q, h, 7, Quad(d, a, b, c));
    h := h + [Pc2(t, second, d, a, b, c)]; c := t.rs(c);
    TakenUp(t, second, q, h, 8, Quad(c, d, a, b));
    h := h + [Pc2(t, second, c, d, a, b)]; b, a := t.rs(b), t.rs(a);
    TakenUp(t, second, q, h, 9, Quad(a, b, c, d));
    h := h + [Pc2(t, second, a, b, c, d)]; d, c := t.rs(d), t.rs(c);
    TakenUp(t, second, q, h, 10, Quad(c, d, a, b));
    h := h + [Pc2(t, second, c, d, a, b)]; b, a := t.rs(b), t.rs(a);
    TakenUp(t, second, q, h, 11, Quad(a, b, c, d));
    h := h + [Pc2(t, second, a, b, c, d)]; d, c := t.rs(d), t.rs(c);
    TakenUp(t, second, q, h, 12, Quad(c, d, a, b));
    h := h + [Pc2(t, second, c, d, a, b)]; b, a := t.rs(b), t.rs(a);
    TakenUp(t, second, q, h, 13, Quad(a, b, c, d));
    h := h + [Pc2(t, second, a, b, c, d)]; d, c := t.rs(d), t.rs(c);
    TakenUp(t, second, q, h, 14, Quad(c, d, a, b));
    h := h + [Pc2(t, second, c, d, a, b)]; b := t.rs(b);
    TakenUp(t, second, q, h, 15, Quad(b, c, d, a));
    h := h + [Pc2(t, second, b, c, d, a)];
    AllTaken(t, second, q, h);
  }

  /** The two words of every subkey, before the fixup. */
  method Store(pe: array<Subkey>, base: nat, w: seq<word>, v: seq<word>)
    requires base + 16 <= pe.Length && |w| == |v| == 16
    modifies pe
    ensures forall i :: 0 <= i < pe.Length ==>
      pe[i] == if base <= i < base + 16 then Subkey(w[i - base], v[i - base]) else old(pe[i])
  {
    for j := 0 to 16
      invariant forall i :: 0 <= i < pe.Length ==>
        pe[i] == if base <= i < base + j then Subkey(w[i - base], v[i - base]) else old(pe[i])
    {
      pe[base + j] := Subkey(w[j], v[j]);
    }
  }

  /** ekey: the last subkey computed is the first of encryption. */
  method EKey(pe: array<Subkey>, base: nat, t: Boxes, k: seq<word>) returns (weak: bool)
    requires base + 16 <= pe.Length && |k| == 8
    modifies pe
    ensures weak <==> ReportsWeak(t, k)
    ensures pe[base..base + 16] == Reverse(Schedule(t, k))
    ensures forall i :: 0 <= i < pe.Length && !(base <= i < base + 16) ==> pe[i] == old(pe[i])
  {
    hide Fix, Halves, Reverse, Schedule, First, Second, Six, Backwards;
    var w, a, b, c, d := EHalf(t, false, First(t, k, 3), First(t, k, 2), First(t, k, 1), First(t, k, 0));
    weak := a == c && b == d && t.rs(a) == c && b == t.rs(d);
    a, b, c, d := Second(t, k, 3), Second(t, k, 2), Second(t, k, 1), Second(t, k, 0);
    weak := weak && a == c && b == d && t.rs(a) == c && b == t.rs(d);
    var v;
    v, a, b, c, d := EHalf(t, true, a, b, c, d);
    Store(pe, base, w, v);
    FixAll(pe, base);
    StoredFixed(t, k, 0);
    forall j | 0 <= j < 16 ensures |Reverse(Schedule(t, k))| == 16
      && pe[base..base + 16][j] == Reverse(Schedule(t, k))[j] {
      StoredFixed(t, k, j);
      assert pe[base + j] == Fix(Subkey(w[j], v[j]));
    }
  }

  /** dkey: the subkeys of decryption. */
  method DKey(pe: array<Subkey>, base: nat, t: Boxes, k: seq<word>)
    requires base + 16 <= pe.Length && |k| == 8
    modifies pe
    ensures pe[base..base + 16] == Schedule(t, k)
    ensures forall i :: 0 <= i < pe.Length && !(base <= i < base + 16) ==> pe[i] == old(pe[i])
  {
    hide Fix, Halves, First, Second;
    var w := DHalf(t, false, First(t, k, 3), First(t, k, 2), First(t, k, 1), First(t, k, 0));
    var v := DHalf(t, true, Second(t, k, 3), Second(t, k, 2), Second(t, k, 1), Second(t, k, 0));
    Store(pe, base, w, v);
    FixAll(pe, base);
  }

  // ---- the loops ----

  /** Sixteen rounds in place, two at a time, with ascending or descending subkeys. */
  method Sixteen(s: Tables, ks: seq<Subkey>, l0: word, r0: word) returns (l: word, r: word)
    requires |ks| == 16
    ensures Pair(l, r) == Rounds(s, ks, Pair(l0, r0))
  {
    hide F, X;
    l, r := l0, r0;
    var i := 0;
    assert ks[0..] == ks;
    while i < 16
      invariant 0 <= i <= 16 && i % 2 == 0 && Rounds(s, ks[i..], Pair(l, r)) == Rounds(s, ks, Pair(l0, r0))
    {
      assert ks[i..][1..] == ks[i + 1..] && ks[i + 1..][1..] == ks[i + 2..];
      l := X(l, F(s, r, ks[i]));
      r := X(r, F(s, l, ks[i + 1]));
      i := i + 2;
    }
  }

  /** The subkeys read backwards. */
  function Down(ks: seq<Subkey>): (d: seq<Subkey>)
    ensures |d| == |ks|
  {
    seq(|ks|, i requires 0 <= i < |ks| => ks[|ks| - 1 - i])
  }

  lemma DownIsReverse(ks: seq<Subkey>)
    ensures Down(ks) == Reverse(ks)
  {
    if ks != [] {
      forall i | 0 <= i < |ks| ensures |Reverse(ks)| == |ks| && Down(ks)[i] == Reverse(ks)[i] {
        ReverseAt(ks, i);
      }
    }
  }

  /** struct des_ctx */
  class DesCtx {
    const expkey: array<Subkey>
    const boxes: Boxes
    const tables: Tables
    ghost var key: seq<word>

    constructor (t: Boxes, s: Tables)
      ensures boxes == t && tables == s && expkey.Length == 16 && fresh(expkey)
    {
      boxes, tables, key := t, s, [];
      expkey := new Subkey[16](i => Subkey(0, 0));
    }

    ghost predicate Keyed()
      reads this, expkey
    {
      expkey.Length == 16 && |key| == 8 && expkey[..] == Reverse(Schedule(boxes, key))
    }

    /** des_setkey: a weak key is refused only when the caller asked for that */
    method SetKey(k: seq<word>, refuseWeak: bool) returns (ok: bool)
      requires |k| == 8 && expkey.Length == 16
      modifies this, expkey
      ensures ok <==> !(refuseWeak && ReportsWeak(boxes, k))
      ensures if ok then Keyed() && key == k else key == old(key) && expkey[..] == old(expkey[..])
    {
      hide ReportsWeak, Schedule;
      var tmp := new Subkey[16](i => Subkey(0, 0));
      var weak := EKey(tmp, 0, boxes, k);
      if weak && refuseWeak {
        return false;
      }
      forall i | 0 <= i < 16 {
        expkey[i] := tmp[i];
      }
      key := k;
      assert expkey[..] == tmp[0..16];
      return true;
    }

    /** des_encrypt */
    method Encrypt(src: Pair) returns (dst: Pair)
      requires Keyed()
      ensures dst == Cipher(tables, Reverse(Schedule(boxes, key)), src)
    {
      hide Rounds, Initial, Final, Schedule;
      var p := Initial(src);
      var l, r := Sixteen(tables, expkey[..], p.l, p.r);
      dst := Final(Pair(r, l));
    }

    /** des_decrypt */
    method Decrypt(src: Pair) returns (dst: Pair)
      requires Keyed()
      ensures dst == Cipher(tables, Schedule(boxes, key), src)
      ensures forall p :: src == Cipher(tables, Reverse(Schedule(boxes, key)), p) ==> dst == p
    {
      hide Rounds, Initial, Final, Schedule;
      var p := Initial(src);
      DownIsReverse(expkey[..]);
      ReverseTwice(Schedule(boxes, key));
      var l, r := Sixteen(tables, Down(expkey[..]), p.l, p.r);
      dst := Final(Pair(r, l));
      forall q | src == Cipher(tables, Reverse(Schedule(boxes, key)), q) ensures dst == q {
        CipherBack(tables, Reverse(Schedule(boxes, key)), q);
      }
    }
  }

  /** struct des3_ede_ctx */
  class Des3Ctx {
    const expkey: array<Subkey>
    const boxes: Boxes
    const tables: Tables
    ghost var keys: seq<seq<word>>

    constructor (t: Boxes, s: Tables)
      ensures boxes == t && tables == s && expkey.Length == 48 && fresh(expkey)
    {
      boxes, tables, keys := t, s, [];
      expkey := new Subkey[48](i => Subkey(0, 0));
    }

    ghost predicate Keyed()
      reads this, expkey
    {
      && expkey.Length == 48 && |keys| == 3 && (forall i :: 0 <= i < 3 ==> |keys[i]| == 8)
      && expkey[0..16] == Reverse(Schedule(boxes, keys[0])) && expkey[16..32] == Schedule(boxes, keys[1])
      && expkey[32..48] == Reverse(Schedule(boxes, keys[2]))
    }

    /** des3_ede_setkey */
    method SetKey(a: seq<word>, b: seq<word>, c: seq<word>) returns (ok: bool)
      requires |a| == |b| == |c| == 8 && expkey.Length == 48
      modifies this, expkey
      ensures ok <==> a != b && b != c
      ensures ok ==> Keyed() && keys == [a, b, c]
      ensures !ok ==> keys == old(keys) && expkey[..] == old(expkey[..])
    {
      hide Schedule, Reverse;
      if a == b || b == c {
        return false;
      }
      var weak := EKey(expkey, 0, boxes, a);
      ghost var first := expkey[0..16];
      DKey(expkey, 16, boxes, b);
      assert expkey[0..16] == first;
      ghost var second := expkey[16..32];
      weak := EKey(expkey, 32, boxes, c);
      assert expkey[0..16] == first && expkey[16..32] == second;
      keys := [a, b, c];
      return true;
    }

    /** des3_ede_encrypt: encrypt with the first key, decrypt with the second, encrypt with the third */
    method Encrypt(src: Pair) returns (dst: Pair)
      requires Keyed()
      ensures dst == Triple(tables, Reverse(Schedule(boxes, keys[0])), Schedule(boxes, keys[1]),
                            Reverse(Schedule(boxes, keys[2])), src)
    {
      hide Rounds, Initial, Final, Schedule, Reverse;
      var p := Initial(src);
      var l, r := Sixteen(tables, expkey[0..16], p.l, p.r);
      r, l := Sixteen(tables, expkey[16..32], r, l);
      l, r := Sixteen(tables, expkey[32..48], l, r);
      dst := Final(Pair(r, l));
      Fusion(tables, expkey[0..16], expkey[16..32], expkey[32..48], src);
    }

    /** des3_ede_decrypt: the subkeys from the last to the first */
    method Decrypt(src: Pair) returns (dst: Pair)
      requires Keyed()
      ensures dst == Triple(tables, Schedule(boxes, keys[2]), Reverse(Schedule(boxes, keys[1])),
                            Schedule(boxes, keys[0]), src)
      ensures forall p :: (src == Triple(tables, Reverse(Schedule(boxes, keys[0])), Schedule(boxes, keys[1]),
                                         Reverse(Schedule(boxes, keys[2])), p)) ==> dst == p
    {
      hide Rounds, Initial, Final, Schedule, Reverse;
      var p := Initial(src);
      var k := expkey[..];
      DownIsReverse(k[32..48]);
      DownIsReverse(k[16..32]);
      DownIsReverse(k[0..16]);
      ReverseTwice(Schedule(boxes, keys[0]));
      ReverseTwice(Schedule(boxes, keys[2]));
      var l, r := Sixteen(tables, Down(k[32..48]), p.l, p.r);
      r, l := Sixteen(tables, Down(k[16..32]), r, l);
      l, r := Sixteen(tables, Down(k[0..16]), l, r);
      dst := Final(Pair(r, l));
      Fusion(tables, Down(k[32..48]), Down(k[16..32]), Down(k[0..16]), src);
      forall q | src == Triple(tables, k[0..16], k[16..32], k[32..48], q) ensures dst == q {
        TripleBack(tables, k[0..16], k[16..32], k[32..48], q);
      }
    }
  }
}
