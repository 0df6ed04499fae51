/** The rewriting half of camellia_setup128 and camellia_setup256.  The kernel unrolls it over
    the three or four groups of six rounds; here each pass is a loop over the groups. */
module CamelliaKeys {
  import opened CamelliaSpec
  import opened CamelliaMasks
  import opened CamelliaRounds
  import opened CamelliaCipher

  /** kw2 as it reaches group j, carried through the FLInv layers before it. */
  function Kw2At(t: seq<Half>, j: nat): Half
    requires 8 * j + 2 <= |t|
  {
    if j == 0 then t[1] else Through(t[8 * j + 1], Kw2At(t, j - 1))
  }

  /** kw4 as it reaches group j from the end, carried back through the FL layers after it. */
  function Kw4At(t: seq<Half>, groups: nat, j: nat): Half
    requires Layout(t, groups) && j < groups
    decreases groups - j
  {
    if j + 1 == groups then t[8 * groups + 1] else Through(t[8 * j + 8], Kw4At(t, groups, j + 1))
  }

  /** Group j of sub is that of t with mask a on rounds 1, 3, 5 and mask b on rounds 2, 4, 6. */
  predicate Masked(sub: seq<Half>, t: seq<Half>, j: nat, a: Half, b: Half)
    requires |sub| == |t| && 8 * j + 10 <= |t|
  {
    && sub[8 * j + 2] == Xor(t[8 * j + 2], a) && sub[8 * j + 3] == Xor(t[8 * j + 3], b)
    && sub[8 * j + 4] == Xor(t[8 * j + 4], a) && sub[8 * j + 5] == Xor(t[8 * j + 5], b)
    && sub[8 * j + 6] == Xor(t[8 * j + 6], a) && sub[8 * j + 7] == Xor(t[8 * j + 7], b)
  }

  const NONE := Half(0, 0)

  /** Two lists agree outside the six round keys of group j. */
  predicate SameOutside(u: seq<Half>, v: seq<Half>, j: nat) {
    |u| == |v| && forall i :: 0 <= i < |u| && !(8 * j + 2 <= i < 8 * j + 8) ==> u[i] == v[i]
  }

  lemma MaskedKept(u: seq<Half>, v: seq<Half>, t: seq<Half>, j: nat, a: nat, x: Half, y: Half)
    requires SameOutside(u, v, j) && |u| == |t| && 8 * a + 10 <= |t| && a != j
    requires Masked(u, t, a, x, y)
    ensures Masked(v, t, a, x, y)
  {
    hide Xor;
  }

  /** Rounds 2, 4 and 6 of group j take up kw2. */
  method MaskEven(sub: seq<Half>, j: nat, kw2: Half, ghost t: seq<Half>) returns (r: seq<Half>)
    requires 8 * j + 10 <= |sub| == |t| && forall i :: 8 * j + 2 <= i < 8 * j + 8 ==> sub[i] == t[i]
    ensures SameOutside(sub, r, j) && Masked(r, t, j, NONE, kw2)
  {
    hide Xor;
    r := sub[8 * j + 3 := Xor(sub[8 * j + 3], kw2)];
    r := r[8 * j + 5 := Xor(r[8 * j + 5], kw2)];
    r := r[8 * j + 7 := Xor(r[8 * j + 7], kw2)];
    XorSelf(t[8 * j + 2], NONE);
    XorSelf(t[8 * j + 4], NONE);
    XorSelf(t[8 * j + 6], NONE);
  }

  /** Rounds 1, 3 and 5 of group j take up kw4. */
  method MaskOdd(sub: seq<Half>, j: nat, kw4: Half, ghost t: seq<Half>, ghost kw2: Half) returns (r: seq<Half>)
    requires 8 * j + 10 <= |sub| == |t| && Masked(sub, t, j, NONE, kw2)
    ensures SameOutside(sub, r, j) && Masked(r, t, j, kw4, kw2)
  {
    hide Xor;
    r := sub[8 * j + 6 := Xor(sub[8 * j + 6], kw4)];
    r := r[8 * j + 4 := Xor(r[8 * j + 4], kw4)];
    r := r[8 * j + 2 := Xor(r[8 * j + 2], kw4)];
    XorSelf(t[8 * j + 2], NONE);
    XorSelf(t[8 * j + 4], NONE);
    XorSelf(t[8 * j + 6], NONE);
  }

  /** Outside the round keys, nothing but kw3 and kw1 ever changes. */
  predicate OthersKept(sub: seq<Half>, t: seq<Half>, groups: nat)
    requires Layout(t, groups)
  {
    |sub| == |t| && forall j :: 0 <= j <= groups ==> PairKept(sub, t, j)
  }

  predicate PairKept(sub: seq<Half>, t: seq<Half>, j: nat)
    requires |sub| == |t| && 8 * j + 2 <= |t|
  {
    sub[8 * j] == t[8 * j] && sub[8 * j + 1] == t[8 * j + 1]
  }

  lemma OthersStep(u: seq<Half>, v: seq<Half>, t: seq<Half>, groups: nat, j: nat)
    requires Layout(t, groups) && OthersKept(u, t, groups) && SameOutside(u, v, j)
    ensures OthersKept(v, t, groups)
  {
    forall a | 0 <= a <= groups ensures PairKept(v, t, a) {
      assert PairKept(u, t, a);
    }
  }

  /** Absorb kw2 into the even rounds; the mask left over goes to kw3. */
  method AbsorbKw2(t: seq<Half>, groups: nat) returns (sub: seq<Half>, kw2: Half)
    requires Layout(t, groups)
    ensures OthersKept(sub, t, groups) && kw2 == Kw2At(t, groups - 1)
    ensures forall j :: 0 <= j < groups ==> Masked(sub, t, j, NONE, Kw2At(t, j))
  {
    hide Xor, Through, Masked;
    sub, kw2 := t, t[1];
    for j := 0 to groups
      invariant OthersKept(sub, t, groups)
      invariant kw2 == Kw2At(t, if j == groups then groups - 1 else j)
      invariant forall i :: 8 * j + 2 <= i < |t| ==> sub[i] == t[i]
      invariant forall a :: 0 <= a < j ==> Masked(sub, t, a, NONE, Kw2At(t, a))
    {
      var next := MaskEven(sub, j, kw2, t);
      OthersStep(sub, next, t, groups, j);
      forall a | 0 <= a < j ensures Masked(next, t, a, NONE, Kw2At(t, a)) {
        MaskedKept(sub, next, t, j, a, NONE, Kw2At(t, a));
      }
      sub := next;
      if j + 1 < groups {
        assert PairKept(sub, t, j + 1);
        kw2 := Through(sub[8 * j + 9], kw2);
      }
    }
  }

  /** Absorb kw4 into the odd rounds, from the last group back; the mask left over goes to kw1. */
  method AbsorbKw4(sub0: seq<Half>, groups: nat, ghost t: seq<Half>) returns (sub: seq<Half>, kw4: Half)
    requires Layout(t, groups) && OthersKept(sub0, t, groups)
    requires forall j :: 0 <= j < groups ==> Masked(sub0, t, j, NONE, Kw2At(t, j))
    ensures OthersKept(sub, t, groups) && kw4 == Kw4At(t, groups, 0)
    ensures forall j :: 0 <= j < groups ==> Masked(sub, t, j, Kw4At(t, groups, j), Kw2At(t, j))
  {
    hide Xor, Through, Masked, Kw2At;
    assert PairKept(sub0, t, groups);
    sub, kw4 := sub0, sub0[8 * groups + 1];
    for j := groups downto 0
      invariant OthersKept(sub, t, groups)
      invariant kw4 == Kw4At(t, groups, if j == 0 then 0 else j - 1)
      invariant forall a :: 0 <= a < j ==> Masked(sub, t, a, NONE, Kw2At(t, a))
      invariant forall a :: j <= a < groups ==> Masked(sub, t, a, Kw4At(t, groups, a), Kw2At(t, a))
    {
      var next := MaskOdd(sub, j, kw4, t, Kw2At(t, j));
      OthersStep(sub, next, t, groups, j);
      forall a | 0 <= a < groups && a != j
        ensures Masked(next, t, a, if a < j then NONE else Kw4At(t, groups, a), Kw2At(t, a))
      {
        MaskedKept(sub, next, t, j, a, if a < j then NONE else Kw4At(t, groups, a), Kw2At(t, a));
      }
      sub := next;
      if j > 0 {
        assert PairKept(sub, t, j);
        kw4 := Through(sub[8 * j], kw4);
      }
    }
  }

  // ---- the stored round keys ----

  lemma Cancel(a: Half, b: Half, m: Half)
    ensures Xor(Xor(a, m), Xor(b, m)) == Xor(a, b)
  {
    hide *;
    Whiten(a, b, m);
  }

  /** The first stored key of group j, and the last, before the inverse of the last half of P. */
  function FirstKey(sub: seq<Half>, j: nat): Half
    requires 8 * j + 4 <= |sub|
  {
    if j == 0 then sub[3] else Xor(Through(sub[8 * j + 1], sub[8 * j - 1]), sub[8 * j + 3])
  }

  function LastKey(sub: seq<Half>, groups: nat, j: nat): Half
    requires Layout(sub, groups) && j < groups
  {
    if j + 1 == groups then sub[8 * j + 6]
    else Xor(sub[8 * j + 6], Through(sub[8 * j + 8], sub[8 * j + 10]))
  }

  ghost predicate Absorbed(sub: seq<Half>, t: seq<Half>, groups: nat) {
    && Layout(t, groups) && OthersKept(sub, t, groups)
    && forall j :: 0 <= j < groups ==> Masked(sub, t, j, Kw4At(t, groups, j), Kw2At(t, j))
  }

  lemma FirstKeyFits(sub: seq<Half>, t: seq<Half>, groups: nat, j: nat)
    requires Absorbed(sub, t, groups) && j < groups
    ensures FirstKey(sub, j) == Xor(MaskIn(t, j), t[8 * j + 3])
  {
    hide Xor, Through, Kw4At;
    assert Masked(sub, t, j, Kw4At(t, groups, j), Kw2At(t, j));
    if j == 0 {
      XorComm(t[3], t[1]);
    } else {
      assert Masked(sub, t, j - 1, Kw4At(t, groups, j - 1), Kw2At(t, j - 1));
      assert PairKept(sub, t, j);
      assert sub[8 * j - 1] == sub[8 * (j - 1) + 7] && t[8 * j - 1] == t[8 * (j - 1) + 7];
      ThroughLinear(t[8 * j + 1], t[8 * j - 1], Kw2At(t, j - 1));
      Cancel(MaskIn(t, j), t[8 * j + 3], Kw2At(t, j));
    }
  }

  lemma LastKeyFits(sub: seq<Half>, t: seq<Half>, groups: nat, j: nat)
    requires Absorbed(sub, t, groups) && j < groups
    ensures LastKey(sub, groups, j) == Xor(t[8 * j + 6], MaskOut(t, groups, j))
  {
    hide Xor, Through, Kw2At;
    assert Masked(sub, t, j, Kw4At(t, groups, j), Kw2At(t, j));
    if j + 1 < groups {
      assert Masked(sub, t, j + 1, Kw4At(t, groups, j + 1), Kw2At(t, j + 1));
      assert PairKept(sub, t, j + 1);
      assert sub[8 * j + 10] == sub[8 * (j + 1) + 2] && t[8 * j + 10] == t[8 * (j + 1) + 2];
      ThroughLinear(t[8 * j + 8], t[8 * j + 10], Kw4At(t, groups, j + 1));
      Cancel(t[8 * j + 6], MaskOut(t, groups, j), Kw4At(t, groups, j));
    }
  }

  /** Stored keys of one group: each takes the key of its own round out and the next one in, and
      goes through the inverse of the last half of P. */
  method StoreGroup(sub: seq<Half>, groups: nat, j: nat, ghost t: seq<Half>) returns (k: seq<Half>)
    requires Absorbed(sub, t, groups) && Layout(sub, groups) && j < groups
    ensures |k| == 6 && SixFit(k, t[8 * j + 2..8 * j + 8], MaskIn(t, j), MaskOut(t, groups, j))
  {
    hide Xor, Through, Unmix, Mix, Kw2At, Kw4At;
    var first := FirstKey(sub, j);
    var last := LastKey(sub, groups, j);
    k := [Unmix(first),
          Unmix(Xor(sub[8 * j + 2], sub[8 * j + 4])),
          Unmix(Xor(sub[8 * j + 3], sub[8 * j + 5])),
          Unmix(Xor(sub[8 * j + 4], sub[8 * j + 6])),
          Unmix(Xor(sub[8 * j + 5], sub[8 * j + 7])),
          Unmix(last)];
    FirstKeyFits(sub, t, groups, j);
    LastKeyFits(sub, t, groups, j);
    assert Masked(sub, t, j, Kw4At(t, groups, j), Kw2At(t, j));
    Cancel(t[8 * j + 2], t[8 * j + 4], Kw4At(t, groups, j));
    Cancel(t[8 * j + 3], t[8 * j + 5], Kw2At(t, j));
    Cancel(t[8 * j + 4], t[8 * j + 6], Kw4At(t, groups, j));
    Cancel(t[8 * j + 5], t[8 * j + 7], Kw2At(t, j));
    MixUnmix(first);
    MixUnmix(Xor(sub[8 * j + 2], sub[8 * j + 4]));
    MixUnmix(Xor(sub[8 * j + 3], sub[8 * j + 5]));
    MixUnmix(Xor(sub[8 * j + 4], sub[8 * j + 6]));
    MixUnmix(Xor(sub[8 * j + 5], sub[8 * j + 7]));
    MixUnmix(last);
  }

  lemma PrefixFits(t: seq<Half>, k: seq<Half>, more: seq<Half>, groups: nat, j: nat)
    requires Layout(t, groups) && j + 1 < groups && |k| >= 8 * j + 10 && GroupFits(t, k, groups, j)
    ensures GroupFits(t, k + more, groups, j)
  {
    hide SixFit, MaskIn, MaskOut;
    assert (k + more)[8 * j + 2..8 * j + 8] == k[8 * j + 2..8 * j + 8];
  }

  lemma GroupMade(t: seq<Half>, k: seq<Half>, six: seq<Half>, rest: seq<Half>, groups: nat, j: nat)
    requires Layout(t, groups) && j < groups && |k| == 8 * j + 2 && |six| == 6
    requires SixFit(six, t[8 * j + 2..8 * j + 8], MaskIn(t, j), MaskOut(t, groups, j))
    requires j + 1 < groups ==> rest == [t[8 * j + 8], t[8 * j + 9]]
    ensures GroupFits(t, k + (six + rest), groups, j)
  {
    hide SixFit, MaskIn, MaskOut;
    assert (k + (six + rest))[8 * j + 2..8 * j + 8] == six;
  }

  method StoreGroups(sub: seq<Half>, groups: nat, first: seq<Half>, ghost t: seq<Half>) returns (k: seq<Half>)
    requires Absorbed(sub, t, groups) && Layout(sub, groups) && |first| == 2
    ensures |k| == 8 * groups && first <= k
    ensures forall a :: 0 <= a < groups ==> GroupFits(t, k, groups, a)
  {
    hide Xor, SixFit, MaskIn, MaskOut, Kw2At, Kw4At, Through, GroupFits, Masked;
    k := first;
    for j := 0 to groups
      invariant |k| == if j < groups then 8 * j + 2 else 8 * groups
      invariant first <= k
      invariant forall a :: 0 <= a < j ==> GroupFits(t, k, groups, a)
    {
      var six := StoreGroup(sub, groups, j, t);
      var rest := if j + 1 < groups then [sub[8 * j + 8], sub[8 * j + 9]] else [];
      assert j + 1 < groups ==> PairKept(sub, t, j + 1);
      forall a | 0 <= a < j ensures GroupFits(t, k + (six + rest), groups, a) {
        PrefixFits(t, k, six + rest, groups, a);
      }
      GroupMade(t, k, six, rest, groups, j);
      k := k + (six + rest);
    }
  }

  lemma TailFits(t: seq<Half>, k: seq<Half>, last: seq<Half>, groups: nat, j: nat)
    requires Layout(t, groups) && j < groups && |k| == 8 * groups && GroupFits(t, k, groups, j)
    ensures GroupFits(t, k + last, groups, j)
  {
    hide SixFit, MaskIn, MaskOut;
    assert (k + last)[8 * j + 2..8 * j + 8] == k[8 * j + 2..8 * j + 8];
  }

  /** The key table from the textbook subkeys.  Entries 1 and 8*groups + 1 are never written by
      the kernel; they are left as the textbook whitening keys here. */
  method Rewrite(t: seq<Half>, groups: nat) returns (k: seq<Half>)
    requires Layout(t, groups)
    ensures StandsFor(k, t, groups)
  {
    hide Xor, GroupFits, Kw2At, Kw4At, Through;
    var sub1, kw2 := AbsorbKw2(t, groups);
    var sub, kw4 := AbsorbKw4(sub1, groups, t);
    assert Absorbed(sub, t, groups);
    assert PairKept(sub, t, 0) && PairKept(sub, t, groups);
    assert Masked(sub, t, 0, Kw4At(t, groups, 0), Kw2At(t, 0));
    assert Masked(sub, t, groups - 1, Kw4At(t, groups, groups - 1), Kw2At(t, groups - 1));
    Cancel(t[0], t[2], kw4);
    Cancel(t[8 * groups], t[8 * groups - 1], kw2);
    k := StoreGroups(sub, groups, [Xor(Xor(sub[0], kw4), sub[2]), sub[1]], t);
    var last := [Xor(Xor(sub[8 * groups], kw2), sub[8 * groups - 1]), sub[8 * groups + 1]];
    forall a | 0 <= a < groups ensures GroupFits(t, k + last, groups, a) {
      TailFits(t, k, last, groups, a);
    }
    k := k + last;
  }
}
