/** Fast encryption and decryption with the rewritten key table. */
module CamelliaCipher {
  import opened WordXor
  import opened Words
  import opened CamelliaSpec
  import opened CamelliaMasks
  import opened CamelliaRounds

  function RL1(x: bv32): bv32 { (x << 1) + (x >> 31) }

  lemma RL1IsRotate(x: bv32)
    ensures RL1(x) == RotL1(x)
  {
  }

  /** CAMELLIA_FLS: FL on the left half and its inverse on the right half, interleaved. */
  method FLS(l: Half, r: Half, kl: Half, kr: Half) returns (l': Half, r': Half)
    ensures l' == FL(l, kl) && r' == FLInv(r, kr)
  {
    hide X, A, O, RL1, RotL1;
    var t0 := A(l.l, kl.l);
    var t2 := O(r.r, kr.r);
    var rl := X(r.l, t2);
    var lr := X(l.r, RL1(t0));
    var t3 := A(rl, kr.l);
    var t1 := O(lr, kl.r);
    var ll := X(l.l, t1);
    var rr := X(r.r, RL1(t3));
    l', r' := Half(ll, lr), Half(rl, rr);
    RL1IsRotate(t0);
    RL1IsRotate(t3);
  }

  // ---- what the rewritten table holds ----

  /** The mask on the right half when group j starts, and on the left half when it ends. */
  function MaskIn(t: seq<Half>, j: nat): Half
    requires 8 * j + 1 < |t|
  {
    if j == 0 then t[1] else Through(t[8 * j + 1], t[8 * j - 1])
  }

  function MaskOut(t: seq<Half>, groups: nat, j: nat): Half
    requires Layout(t, groups) && j < groups
  {
    if j + 1 == groups then t[8 * groups + 1] else Through(t[8 * j + 8], t[8 * j + 10])
  }

  /** Keys k of six rounds fit textbook keys t of the same rounds between two masks. */
  predicate SixFit(k: seq<Half>, t: seq<Half>, maskIn: Half, maskOut: Half)
    requires |k| == 6 && |t| == 6
  {
    && Mix(k[0]) == Xor(maskIn, t[1])
    && Mix(k[1]) == Xor(t[0], t[2])
    && Mix(k[2]) == Xor(t[1], t[3])
    && Mix(k[3]) == Xor(t[2], t[4])
    && Mix(k[4]) == Xor(t[3], t[5])
    && Mix(k[5]) == Xor(t[4], maskOut)
  }

  predicate GroupFits(t: seq<Half>, k: seq<Half>, groups: nat, j: nat)
    requires Layout(t, groups) && j < groups && |k| >= if j + 1 < groups then 8 * j + 10 else 8 * j + 8
  {
    && SixFit(k[8 * j + 2..8 * j + 8], t[8 * j + 2..8 * j + 8], MaskIn(t, j), MaskOut(t, groups, j))
    && (j + 1 < groups ==> k[8 * j + 8] == t[8 * j + 8] && k[8 * j + 9] == t[8 * j + 9])
  }

  /** The table k stands for the textbook subkeys t: whitening keys and FL masks are folded into
      the round keys, and each round key is applied after the round function. */
  ghost predicate StandsFor(k: seq<Half>, t: seq<Half>, groups: nat) {
    && Layout(t, groups) && |k| == |t|
    && k[0] == Xor(t[0], t[2])
    && k[8 * groups] == Xor(t[8 * groups], t[8 * groups - 1])
    && forall j :: 0 <= j < groups ==> GroupFits(t, k, groups, j)
  }

  // ---- rounds ----

  /** Adding the next stored key moves the mask on to the next textbook key. */
  lemma NextMask(d: Half, b: Half, f: Half, t: Half)
    ensures Xor(Xor(d, b), Xor(f, Xor(b, t))) == Xor(Xor(d, f), t)
  {
    hide *;
    XorAssoc(f, b, t);
    XorComm(f, b);
    XorAssoc(b, f, t);
    XorAssoc(d, b, Xor(b, Xor(f, t)));
    XorSelf(b, Xor(f, t));
    XorAssoc(d, f, t);
  }

  /** Six fast rounds: halves x and y carry the masks of the textbook state d. */
  method SixFast(s: SBoxes, k: seq<Half>, x: Half, y: Half,
                 ghost t: seq<Half>, ghost maskIn: Half, ghost maskOut: Half, ghost d: Block)
    returns (x': Half, y': Half)
    requires |k| == 6 && |t| == 6 && SixFit(k, t, maskIn, maskOut)
    requires x == Xor(d.d1, t[0]) && y == Xor(d.d2, maskIn)
    ensures var e := TwoRounds(s, t[4], t[5], TwoRounds(s, t[2], t[3], TwoRounds(s, t[0], t[1], d)));
            x' == Xor(e.d1, maskOut) && y' == Xor(e.d2, t[5])
  {
    ghost var d1 := TwoRounds(s, t[0], t[1], d);
    ghost var d2 := TwoRounds(s, t[2], t[3], d1);
    y' := RoundSM(s, x, k[0], y);
    x' := RoundSM(s, y', k[1], x);
    RoundPair(s, d, t[0], t[1], maskIn, t[2], k[0], k[1]);
    var y1, x1 := y', x';
    y' := RoundSM(s, x1, k[2], y1);
    x' := RoundSM(s, y', k[3], x1);
    RoundPair(s, d1, t[2], t[3], t[1], t[4], k[2], k[3]);
    var y2, x2 := y', x';
    y' := RoundSM(s, x2, k[4], y2);
    x' := RoundSM(s, y', k[5], x2);
    RoundPair(s, d2, t[4], t[5], t[3], maskOut, k[4], k[5]);
  }

  /** Two fast rounds against two textbook rounds. */
  lemma RoundPair(s: SBoxes, d: Block, a: Half, b: Half, maskIn: Half, next: Half, k0: Half, k1: Half)
    requires Mix(k0) == Xor(maskIn, b) && Mix(k1) == Xor(a, next)
    ensures var x := Xor(d.d1, a);
            var y := Xor(Xor(d.d2, maskIn), Xor(F0(s, x), Mix(k0)));
            var e := TwoRounds(s, a, b, d);
            y == Xor(e.d2, b) && Xor(x, Xor(F0(s, y), Mix(k1))) == Xor(e.d1, next)
  {
    hide Xor, F, F0, Mix;
    FKey(s, d.d1, a);
    var d2 := TwoRounds(s, a, b, d).d2;
    NextMask(d.d2, maskIn, F0(s, Xor(d.d1, a)), b);
    FKey(s, d2, b);
    NextMask(d.d1, a, F0(s, Xor(d2, b)), next);
  }

  /** Six fast rounds followed by the FL layer. */
  method SixThenFL(s: SBoxes, k: seq<Half>, kl: Half, kr: Half, x: Half, y: Half,
                   ghost t: seq<Half>, ghost maskIn: Half, ghost next: Half, ghost d: Block)
    returns (x': Half, y': Half)
    requires |k| == 6 && |t| == 6 && SixFit(k, t, maskIn, Through(kl, next))
    requires x == Xor(d.d1, t[0]) && y == Xor(d.d2, maskIn)
    ensures var e := TwoRounds(s, t[4], t[5], TwoRounds(s, t[2], t[3], TwoRounds(s, t[0], t[1], d)));
            x' == Xor(FL(e.d1, kl), next) && y' == Xor(FLInv(e.d2, kr), Through(kr, t[5]))
  {
    hide Xor, FL, FLInv, Through, SixFit, TwoRounds;
    ghost var e := TwoRounds(s, t[4], t[5], TwoRounds(s, t[2], t[3], TwoRounds(s, t[0], t[1], d)));
    x', y' := SixFast(s, k, x, y, t, maskIn, Through(kl, next), d);
    MaskFL(e.d1, kl, next);
    MaskFLInv(e.d2, kr, t[5]);
    x', y' := FLS(x', y', kl, kr);
  }

  lemma Whiten(m: Half, a: Half, b: Half)
    ensures Xor(m, Xor(a, b)) == Xor(Xor(m, a), b)
    ensures Xor(Xor(m, b), Xor(a, b)) == Xor(m, a)
    ensures Xor(Xor(m, b), b) == m
  {
    hide *;
    XorAssoc(m, b, b);
    XorSelf(b, b);
    XorSelf(m, m);
    XorAssoc(m, a, b);
    XorComm(a, b);
    XorAssoc(m, b, Xor(b, a));
    XorSelf(b, a);
  }

  /** What one group does to the textbook state, FL layer included. */
  function GroupStep(s: SBoxes, t: seq<Half>, j: nat, d: Block): Block
    requires 8 * j + 9 < |t|
  {
    var e := SixRounds(s, t, j, d);
    Block(FL(e.d1, t[8 * j + 8]), FLInv(e.d2, t[8 * j + 9]))
  }

  /** One group that is not the last, read from the table at its place. */
  method InnerGroup(s: SBoxes, k: seq<Half>, x: Half, y: Half, kl: Half, kr: Half,
                    ghost t: seq<Half>, ghost groups: nat, ghost j: nat, ghost d: Block)
    returns (x': Half, y': Half)
    requires Layout(t, groups) && j + 1 < groups && |k| == 6
    requires SixFit(k, t[8 * j + 2..8 * j + 8], MaskIn(t, j), MaskOut(t, groups, j))
    requires kl == t[8 * j + 8] && kr == t[8 * j + 9]
    requires x == Xor(d.d1, t[8 * j + 2]) && y == Xor(d.d2, MaskIn(t, j))
    ensures var e := GroupStep(s, t, j, d);
            x' == Xor(e.d1, t[8 * j + 10]) && y' == Xor(e.d2, MaskIn(t, j + 1))
  {
    hide Xor, FL, FLInv, Through, SixFit, TwoRounds;
    x', y' := SixThenFL(s, k, kl, kr, x, y, t[8 * j + 2..8 * j + 8], MaskIn(t, j), t[8 * j + 10], d);
  }

  /** The last group and the final whitening. */
  method LastGroup(s: SBoxes, k: seq<Half>, x: Half, y: Half, kw: Half,
                   ghost t: seq<Half>, ghost groups: nat, ghost d: Block)
    returns (r: Block)
    requires Layout(t, groups) && |k| == 6
    requires SixFit(k, t[8 * groups - 6..8 * groups], MaskIn(t, groups - 1), MaskOut(t, groups, groups - 1))
    requires kw == Xor(t[8 * groups], t[8 * groups - 1])
    requires x == Xor(d.d1, t[8 * groups - 6]) && y == Xor(d.d2, MaskIn(t, groups - 1))
    ensures var e := SixRounds(s, t, groups - 1, d);
            r == Block(Xor(e.d2, t[8 * groups]), Xor(e.d1, t[8 * groups + 1]))
  {
    hide Xor, Through, SixFit, TwoRounds;
    var x', y' := SixFast(s, k, x, y, t[8 * groups - 6..8 * groups],
                          MaskIn(t, groups - 1), MaskOut(t, groups, groups - 1), d);
    ghost var e := SixRounds(s, t, groups - 1, d);
    y' := Xor(y', kw);
    Whiten(e.d2, t[8 * groups], t[8 * groups - 1]);
    r := Block(y', x');
  }

  lemma FirstMask(t: seq<Half>)
    requires |t| > 1
    ensures MaskIn(t, 0) == t[1]
  {
  }

  /** camellia_encrypt128 */
  method Encrypt128(s: SBoxes, k: seq<Half>, io: Block, ghost t: seq<Half>) returns (r: Block)
    requires StandsFor(k, t, 3)
    ensures r == Encrypt(s, t, 3, io)
  {
    hide Xor, FL, FLInv, Through, SixFit, SixRounds, MaskIn, MaskOut;
    FirstMask(t);
    assert GroupFits(t, k, 3, 0) && GroupFits(t, k, 3, 1) && GroupFits(t, k, 3, 2);
    ghost var d0 := Block(Xor(io.d1, t[0]), Xor(io.d2, t[1]));
    ghost var d1 := GroupStep(s, t, 0, d0);
    ghost var d2 := GroupStep(s, t, 1, d1);
    Whiten(io.d1, t[0], t[2]);
    Whiten(io.d2, t[1], t[1]);
    var x, y := Xor(io.d1, k[0]), io.d2;
    x, y := InnerGroup(s, k[2..8], x, y, k[8], k[9], t, 3, 0, d0);
    x, y := InnerGroup(s, k[10..16], x, y, k[16], k[17], t, 3, 1, d1);
    r := LastGroup(s, k[18..24], x, y, k[24], t, 3, d2);
  }

  /** camellia_encrypt256 */
  method Encrypt256(s: SBoxes, k: seq<Half>, io: Block, ghost t: seq<Half>) returns (r: Block)
    requires StandsFor(k, t, 4)
    ensures r == Encrypt(s, t, 4, io)
  {
    hide Xor, FL, FLInv, Through, SixFit, SixRounds, MaskIn, MaskOut;
    FirstMask(t);
    assert GroupFits(t, k, 4, 0) && GroupFits(t, k, 4, 1) && GroupFits(t, k, 4, 2) && GroupFits(t, k, 4, 3);
    ghost var d0 := Block(Xor(io.d1, t[0]), Xor(io.d2, t[1]));
    ghost var d1 := GroupStep(s, t, 0, d0);
    ghost var d2 := GroupStep(s, t, 1, d1);
    ghost var d3 := GroupStep(s, t, 2, d2);
    Whiten(io.d1, t[0], t[2]);
    Whiten(io.d2, t[1], t[1]);
    var x, y := Xor(io.d1, k[0]), io.d2;
    x, y := InnerGroup(s, k[2..8], x, y, k[8], k[9], t, 4, 0, d0);
    x, y := InnerGroup(s, k[10..16], x, y, k[16], k[17], t, 4, 1, d1);
    x, y := InnerGroup(s, k[18..24], x, y, k[24], k[25], t, 4, 2, d2);
    r := LastGroup(s, k[26..32], x, y, k[32], t, 4, d3);
  }

  // ---- decryption reads the same table backwards ----

  lemma SixFitReversed(k: seq<Half>, t: seq<Half>, maskIn: Half, maskOut: Half)
    requires |k| == 6 && |t| == 6 && SixFit(k, t, maskIn, maskOut)
    ensures SixFit([k[5], k[4], k[3], k[2], k[1], k[0]], [t[5], t[4], t[3], t[2], t[1], t[0]], maskOut, maskIn)
  {
    hide Xor, Mix;
    XorComm(maskIn, t[1]);
    XorComm(t[0], t[2]);
    XorComm(t[1], t[3]);
    XorComm(t[2], t[4]);
    XorComm(t[3], t[5]);
    XorComm(t[4], maskOut);
  }

  lemma ReversedAt(t: seq<Half>, groups: nat, i: nat)
    requires Layout(t, groups) && 2 <= i < 8 * groups
    ensures Reversed(t, groups)[i] == t[8 * groups + 1 - i]
  {
  }

  lemma MasksReversed(t: seq<Half>, groups: nat, j: nat)
    requires Layout(t, groups) && j < groups
    ensures MaskIn(Reversed(t, groups), j) == MaskOut(t, groups, groups - 1 - j)
  {
    var r := Reversed(t, groups);
    assert r[1] == t[8 * groups + 1];
    if j > 0 {
      ReversedAt(t, groups, 8 * j + 1);
      ReversedAt(t, groups, 8 * j - 1);
    }
    hide Through, Reversed;
  }

  lemma MasksReversedOut(t: seq<Half>, groups: nat, j: nat)
    requires Layout(t, groups) && j < groups
    ensures MaskOut(Reversed(t, groups), groups, j) == MaskIn(t, groups - 1 - j)
  {
    var r := Reversed(t, groups);
    assert r[8 * groups + 1] == t[1];
    if j + 1 < groups {
      ReversedAt(t, groups, 8 * j + 8);
      ReversedAt(t, groups, 8 * j + 10);
    }
    hide Through, Reversed;
  }

  lemma SixReversed(t: seq<Half>, groups: nat, j: nat)
    requires Layout(t, groups) && j < groups
    ensures var i := groups - 1 - j;
            var ts := t[8 * i + 2..8 * i + 8];
            Reversed(t, groups)[8 * j + 2..8 * j + 8] == [ts[5], ts[4], ts[3], ts[2], ts[1], ts[0]]
  {
  }

  lemma GroupReversed(k: seq<Half>, t: seq<Half>, groups: nat, j: nat)
    requires StandsFor(k, t, groups) && j < groups
    ensures GroupFits(Reversed(t, groups), Reversed(k, groups), groups, j)
  {
    hide SixFit, MaskIn, MaskOut, Reversed, Xor;
    var i := groups - 1 - j;
    assert GroupFits(t, k, groups, i);
    var ks, ts := k[8 * i + 2..8 * i + 8], t[8 * i + 2..8 * i + 8];
    SixFitReversed(ks, ts, MaskIn(t, i), MaskOut(t, groups, i));
    SixReversed(t, groups, j);
    SixReversed(k, groups, j);
    MasksReversed(t, groups, j);
    MasksReversedOut(t, groups, j);
    if j + 1 < groups {
      assert GroupFits(t, k, groups, i - 1);
      ReversedAt(t, groups, 8 * j + 8);
      ReversedAt(t, groups, 8 * j + 9);
      ReversedAt(k, groups, 8 * j + 8);
      ReversedAt(k, groups, 8 * j + 9);
    }
  }

  /** Read backwards, the table stands for the textbook decryption subkeys. */
  lemma StandsForReversed(k: seq<Half>, t: seq<Half>, groups: nat)
    requires StandsFor(k, t, groups)
    ensures StandsFor(Reversed(k, groups), Reversed(t, groups), groups)
  {
    hide Xor, GroupFits;
    forall j | 0 <= j < groups ensures GroupFits(Reversed(t, groups), Reversed(k, groups), groups, j) {
      GroupReversed(k, t, groups, j);
    }
  }

  /** camellia_decrypt128 */
  method Decrypt128(s: SBoxes, k: seq<Half>, io: Block, ghost t: seq<Half>) returns (r: Block)
    requires StandsFor(k, t, 3)
    ensures r == Decrypt(s, t, 3, io)
  {
    hide Xor, SixFit, GroupFits, Groups;
    var back := Reversed(k, 3);
    assert back[0] == k[24] && back[24] == k[0] && back[8] == k[17] && back[9] == k[16];
    StandsForReversed(k, t, 3);
    r := Encrypt128(s, back, io, Reversed(t, 3));
  }

  /** camellia_decrypt256 */
  method Decrypt256(s: SBoxes, k: seq<Half>, io: Block, ghost t: seq<Half>) returns (r: Block)
    requires StandsFor(k, t, 4)
    ensures r == Decrypt(s, t, 4, io)
  {
    hide Xor, SixFit, GroupFits, Groups;
    var back := Reversed(k, 4);
    StandsForReversed(k, t, 4);
    r := Encrypt256(s, back, io, Reversed(t, 4));
  }
}
