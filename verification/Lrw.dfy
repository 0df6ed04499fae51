/** crypto/lrw.c: the tweak updated one increment at a time. */
module Lrw {
  import opened Gf2
  import opened Gf128Field
  import opened Gf128Tables
  import opened LrwBits

  /** Number of consecutive one bits from the right. */
  function TrailingOnes(v: nat): nat {
    if v % 2 == 0 then 0 else 1 + TrailingOnes(v / 2)
  }

  /** What an increment does to a counter, as a polynomial: it adds a run of ones. */
  lemma {:induction false} IncrementIsRun(v: nat)
    ensures Xor(v, v + 1) == Pow2(TrailingOnes(v) + 1) - 1
  {
    if v % 2 == 0 {
      XorHalf(v, v + 1);
      XorZero(v / 2);
      OnePow();
    } else {
      XorHalf(v, v + 1);
      IncrementIsRun(v / 2);
    }
  }

  lemma OnePow()
    ensures Pow2(0 + 1) == 2
  {
  }

  lemma OnesStep(v: nat, h: nat, b: nat)
    requires b < 2 && v == 2 * h + b
    ensures TrailingOnes(v) == if b == 0 then 0 else 1 + TrailingOnes(h)
  {
  }

  /** A word of k ones is passed over; any other word holds the answer. */
  lemma {:induction false} TrailingWord(v: nat, k: nat)
    ensures Low(v, k) == Pow2(k) - 1 ==> TrailingOnes(v) == k + TrailingOnes(Shr(v, k))
    ensures Low(v, k) != Pow2(k) - 1 ==> TrailingOnes(v) == TrailingOnes(Low(v, k)) < k
    decreases k
  {
    if k == 0 {
      StartShift(v);
    } else {
      hide Shr, Low, TrailingOnes;
      TrailingWord(v / 2, k - 1);
      LowHalf(v, k);
      OnesStep(v, v / 2, v % 2);
      OnesStep(Low(v, k), Low(v / 2, k - 1), v % 2);
    }
  }

  lemma LowHalf(v: nat, k: nat)
    requires k > 0
    ensures Shr(v, k) == Shr(v / 2, k - 1) && Low(v, k) == 2 * Low(v / 2, k - 1) + v % 2
  {
    var q := v / 2;
    var h, l := Shr(q, k - 1), Low(q, k - 1);
    hide Shr, Low;
    ShlLow(h, l, k, v % 2);
    Parts(v, k, h, 2 * l + v % 2);
  }

  lemma ShlLow(h: nat, l: nat, k: nat, b: nat)
    requires k > 0 && b < 2 && l < Pow2(k - 1)
    ensures 2 * (Shl(h, k - 1) + l) + b == Shl(h, k) + (2 * l + b) && 2 * l + b < Pow2(k)
  {
  }

  /** get_index128: look at the four 32-bit words from the lowest up. */
  method GetIndex128(v: nat) returns (x: nat)
    requires Element(v)
    ensures x == TrailingOnes(v)
    ensures x < 128 <==> v != Pow2(128) - 1
  {
    hide Shl, Shr, Low, TrailingOnes;
    x := 0;
    StartShift(v);
    while x < 128
      invariant x <= 128 && x % 32 == 0
      invariant Low(v, x) == Pow2(x) - 1
    {
      var val := Low(Shr(v, x), 32);
      WordAt(v, x);
      if val != Pow2(32) - 1 {
        x := x + TrailingOnes(val);
        return;
      }
      x := x + 32;
    }
    AllOnes(v);
    IndexInTable(v);
  }

  lemma StartShift(v: nat)
    ensures Low(v, 0) == Pow2(0) - 1 && Shr(v, 0) == v
  {
  }

  lemma AllOnes(v: nat)
    requires Element(v)
    ensures Low(v, 128) == v
  {
    hide Shl, Shr, Low;
    ShlZero(128);
    Parts(v, 128, 0, v);
  }

  /** The table of 128 entries has the entry get_index128 selects, except for a counter of all
      ones. */
  lemma IndexInTable(v: nat)
    requires Element(v)
    ensures TrailingOnes(v) < 128 <==> v != Pow2(128) - 1
    ensures TrailingOnes(v) <= 128
  {
    hide Shl, Shr, Low, TrailingOnes;
    AllOnes(v);
    TrailingWord(v, 128);
    ShlZero(128);
    Parts(v, 128, 0, v);
    OnesStep(0, 0, 0);
  }

  /** A number of all ones has all ones in every part. */
  lemma OnesParts(m: nat, k: nat)
    ensures Pow2(m + k) >= 1
    ensures Shr(Pow2(m + k) - 1, k) == Pow2(m) - 1 && Low(Pow2(m + k) - 1, k) == Pow2(k) - 1
  {
    hide Shl, Shr, Low;
    PowPositive(m);
    PowPositive(k);
    ShlSum(Pow2(m) - 1, 1, k);
    ShlShl(1, m, k);
    Parts(Pow2(m + k) - 1, k, Pow2(m) - 1, Pow2(k) - 1);
  }

  lemma LowSum(v: nat, x: nat, y: nat)
    ensures Low(v, x + y) == Shl(Low(Shr(v, x), y), x) + Low(v, x)
  {
    hide Shl, Shr, Low;
    var q, l := Shr(v, x), Low(v, x);
    var h, m := Shr(q, y), Low(q, y);
    ShlSum(Shl(h, y), m, x);
    ShlShl(h, y, x);
    ShlSum(m + 1, Pow2(y) - m - 1, x);
    ShlSum(m, 1, x);
    ShlShl(1, y, x);
    Parts(v, x + y, h, Shl(m, x) + l);
  }

  /** One 32-bit word above x trailing ones. */
  lemma WordAt(v: nat, x: nat)
    requires Element(v) && x + 32 <= 128 && Low(v, x) == Pow2(x) - 1
    ensures var val := Low(Shr(v, x), 32);
            && (val == Pow2(32) - 1 ==> Low(v, x + 32) == Pow2(x + 32) - 1)
            && (val != Pow2(32) - 1 ==> TrailingOnes(v) == x + TrailingOnes(val) && TrailingOnes(val) < 32)
            && (val != Pow2(32) - 1 ==> v != Pow2(128) - 1)
  {
    hide Shl, Shr, Low, TrailingOnes;
    TrailingWord(v, x);
    TrailingWord(Shr(v, x), 32);
    LowSum(v, x, 32);
    PowPositive(32);
    ShlSum(Pow2(32) - 1, 1, x);
    ShlShl(1, 32, x);
    OnesParts(128 - x, x);
    OnesParts(96 - x, 32);
  }

  // ---- key setup ----

  /** struct priv once a key is set: the 64k table of Key2 and its products with runs of ones. */
  ghost predicate Prepared(key2: nat, table: seq<seq<nat>>, mulinc: seq<nat>) {
    && Element(key2) && |table| == 16 && Rows(Bbe, key2, table)
    && |mulinc| == 128 && forall i :: 0 <= i < 128 ==> mulinc[i] == Product(Bbe, Run(i), key2)
  }

  /** Bits 0 to i set. */
  function Run(i: nat): nat
  {
    PowPositive(i + 1);
    Pow2(i + 1) - 1
  }

  lemma RunElement(i: nat)
    requires i < 128
    ensures Element(Run(i)) && (i > 0 ==> Run(i) == Run(i - 1) + Pow2(i)) && Run(0) == 1
  {
    PowGrows(i + 1, 128);
  }

  /** Multiply a 128-bit number by Key2 with the 64k table, through its bytes. */
  method MulByKey(v: nat, table: seq<seq<nat>>, ghost key2: nat) returns (r: nat)
    requires Element(v) && |table| == 16 && Rows(Bbe, key2, table)
    ensures r == Product(Bbe, v, key2)
  {
    hide Product, PolyOf, Shl;
    r := Mul64k(Bbe, BytesOf(v, 16), table, key2);
    PolyOfBytes(v, 16);
  }

  /** setkey: the optimisation table, on a host whose byte order setbit128_bbe is right for. */
  method SetKey(key2: nat, host: Host) returns (table: seq<seq<nat>>, mulinc: seq<nat>)
    requires Element(key2) && HostOk(host) && host.little
    ensures Prepared(key2, table, mulinc)
  {
    hide Product, Rows, Shl, Run, SetBit128, OnesBytes, Spelled;
    table := Init64k(Bbe, key2);
    mulinc := [];
    var tmp := CLEAR;
    NoOnes();
    while |mulinc| < 128
      invariant |mulinc| <= 128 && tmp == OnesBytes(|mulinc|)
      invariant Spelled(tmp) == if |mulinc| == 0 then 0 else Run(|mulinc| - 1)
      invariant forall i :: 0 <= i < |mulinc| ==> mulinc[i] == Product(Bbe, Run(i), key2)
    {
      RunElement(|mulinc|);
      RunElement(0);
      OnesNext(|mulinc|, host);
      tmp := SetBit128(tmp, host, |mulinc|);
      var m := MulByKey(Spelled(tmp), table, key2);
      mulinc := mulinc + [m];
    }
  }

  lemma NoOnes()
    ensures CLEAR == OnesBytes(0) && Spelled(CLEAR) == 0 && Pow2(0) == 1
  {
    assert CLEAR == OnesBytes(0);
    AllClear(CLEAR);
  }

  lemma {:induction false} AllClear(m: seq<nat>)
    requires forall i :: 0 <= i < |m| ==> m[i] == 0
    ensures Spelled(m) == 0
  {
    if m != [] {
      ShlZero(8 * (|m| - 1));
      AllClear(m[1..]);
    }
  }

  // ---- the tweak ----

  /** One more, on a counter of k bits that wraps. */
  function Wrap(v: nat, k: nat): nat { if v + 1 == Pow2(k) then 0 else v + 1 }

  /** inc: the low 64 bits first, the high 64 bits when those come out zero. */
  function Inc(v: nat): nat {
    var b := Wrap(Low(v, 64), 64);
    var a := Shr(v, 64);
    Shl(if b == 0 then Wrap(a, 64) else a, 64) + b
  }

  lemma IncAddsOne(v: nat)
    requires Element(v)
    ensures Inc(v) == Wrap(v, 128)
  {
    hide Shl, Shr, Low;
    var a, b := Shr(v, 64), Low(v, 64);
    PowPositive(64);
    HighHalf(v);
    OnesParts(64, 64);
    ShlSum(a, 1, 64);
    ShlSum(a + 1, Pow2(64) - a - 1, 64);
    ShlShl(1, 64, 64);
    ShlZero(64);
    ShlSum(Pow2(64) - 1, 1, 64);
  }

  lemma HighHalf(v: nat)
    requires Element(v)
    ensures Shr(v, 64) < Pow2(64)
  {
    hide Shl, Shr, Low;
    var a := Shr(v, 64);
    assert v == Shl(a, 64) + Low(v, 64);
    if a >= Pow2(64) {
      ShlSum(Pow2(64), a - Pow2(64), 64);
      ShlShl(1, 64, 64);
    }
  }

  /** Adding the entry the index selects turns the tweak of v into that of v + 1. */
  lemma TweakStep(v: nat, key2: nat)
    ensures Product(Bbe, v + 1, key2) == Xor(Product(Bbe, v, key2), Product(Bbe, Run(TrailingOnes(v)), key2))
  {
    hide Xor, Times, Shl;
    IncrementIsRun(v);
    XorAssoc(v, v, v + 1);
    XorZero(v);
    XorZero(v + 1);
    TimesXor(ByX(Bbe), v, Xor(v, v + 1), key2);
  }

  /** lrw_round: the tweak is added before and after the cipher. */
  method Round(fn: nat -> nat, t: nat, p: nat) returns (r: nat)
    ensures r == Xor(fn(Xor(t, p)), t)
  {
    r := Xor(t, p);
    r := fn(r);
    r := Xor(r, t);
  }

  /** The tweak that a block already carries cancels the one added. */
  lemma TweakCancels(t: nat, x: nat)
    ensures Xor(t, Xor(t, x)) == x && Xor(Xor(x, t), t) == x
  {
    hide Xor;
    XorAssoc(t, t, x);
    XorAssoc(x, t, t);
    XorZero(t);
    XorZero(x);
  }

  /** The cipher sees the block without the tweak. */
  lemma RoundOnTweaked(fn: nat -> nat, t: nat, x: nat)
    ensures Xor(fn(Xor(t, Xor(t, x))), t) == Xor(fn(x), t)
  {
    hide Xor;
    TweakCancels(t, x);
  }

  /** Decryption undoes encryption of a block for any child cipher that is undone. */
  lemma RoundInverse(e: nat -> nat, d: nat -> nat, t: nat, p: nat)
    requires forall x :: d(e(x)) == x
    ensures Xor(d(Xor(t, Xor(e(Xor(t, p)), t))), t) == p
  {
    hide Xor;
    var c := e(Xor(t, p));
    XorComm(c, t);
    TweakCancels(t, c);
    XorComm(t, p);
    TweakCancels(t, p);
  }

  /** The mode as it is defined: block n is the cipher of the block with T added, and T added again, where
      T = (iv + n) * Key2. */
  ghost predicate IsLrw(fn: nat -> nat, key2: nat, iv: nat, src: seq<nat>, dst: seq<nat>) {
    && |dst| == |src|
    && forall n: nat :: n < |src| ==>
         var t := Product(Bbe, iv + n, key2);
         dst[n] == Xor(fn(Xor(t, src[n])), t)
  }

  function Flat(chunks: seq<seq<nat>>): seq<nat> {
    if chunks == [] then [] else chunks[0] + Flat(chunks[1..])
  }

  /** One walk step of crypt: the do-while loop over its blocks.  At the very first block the tweak
      is already there; before every later one it is advanced. */
  method CryptChunk(fn: nat -> nat, src: seq<nat>, mulinc: seq<nat>, first: bool, t0: nat, v0: nat,
                    ghost key2: nat, ghost table: seq<seq<nat>>)
    returns (dst: seq<nat>, t: nat, v: nat)
    requires Prepared(key2, table, mulinc) && Element(v0) && t0 == Product(Bbe, v0, key2) && src != []
    requires v0 + |src| - (if first then 1 else 0) < Pow2(128)
    ensures v == v0 + |src| - (if first then 1 else 0) && t == Product(Bbe, v, key2)
    ensures IsLrw(fn, key2, if first then v0 else v0 + 1, src, dst)
  {
    hide Product, Xor, Shl, Rows, Run, TrailingOnes, Inc;
    dst, t, v := [], t0, v0;
    var skip := first;
    ghost var base := if first then v0 else v0 + 1;
    while |dst| < |src|
      invariant |dst| <= |src| && skip == (first && dst == [])
      invariant v == if skip then base else base + |dst| - 1
      invariant t == Product(Bbe, v, key2)
      invariant IsLrw(fn, key2, base, src[..|dst|], dst)
    {
      if !skip {
        var i := GetIndex128(v);
        IncAddsOne(v);
        TweakStep(v, key2);
        t := Xor(t, mulinc[i]);
        v := Inc(v);
      }
      skip := false;
      var r := Round(fn, t, src[|dst|]);
      dst := dst + [r];
    }
  }

  /** crypt: whatever pieces the walk hands over, block n of the request is processed under
      (iv + n) * Key2, as long as the counter is never all ones before an increment. */
  method Crypt(fn: nat -> nat, chunks: seq<seq<nat>>, table: seq<seq<nat>>, mulinc: seq<nat>, iv: nat,
               ghost key2: nat) returns (out: seq<nat>, v: nat)
    requires Prepared(key2, table, mulinc) && Element(iv)
    requires forall i :: 0 <= i < |chunks| ==> chunks[i] != []
    requires iv + |Flat(chunks)| <= Pow2(128)
    ensures IsLrw(fn, key2, iv, Flat(chunks), out)
    ensures v == if chunks == [] then iv else iv + |Flat(chunks)| - 1
  {
    hide Product, Shl, Rows;
    out, v := [], iv;
    var t := MulByKey(iv, table, key2);
    var i := 0;
    assert chunks[..0] == [];
    while i < |chunks|
      invariant 0 <= i <= |chunks| && (i == 0 <==> out == [])
      invariant v == if i == 0 then iv else iv + |out| - 1
      invariant t == Product(Bbe, v, key2) && Element(v)
      invariant IsLrw(fn, key2, iv, Flat(chunks[..i]), out)
    {
      FlatStep(chunks, i);
      var dst;
      dst, t, v := CryptChunk(fn, chunks[i], mulinc, i == 0, t, v, key2, table);
      LrwAppend(fn, key2, iv, Flat(chunks[..i]), out, chunks[i], dst);
      out := out + dst;
      i := i + 1;
    }
    assert chunks[..i] == chunks;
  }

  lemma {:induction false} FlatAppend(a: seq<seq<nat>>, b: seq<seq<nat>>)
    ensures Flat(a + b) == Flat(a) + Flat(b)
  {
    if a == [] {
      assert a + b == b;
    } else {
      assert (a + b)[1..] == a[1..] + b;
      FlatAppend(a[1..], b);
    }
  }

  lemma FlatStep(chunks: seq<seq<nat>>, i: nat)
    requires i < |chunks|
    ensures Flat(chunks[..i + 1]) == Flat(chunks[..i]) + chunks[i]
    ensures |Flat(chunks[..i])| + |chunks[i]| <= |Flat(chunks)|
  {
    assert chunks[..i + 1] == chunks[..i] + [chunks[i]];
    FlatAppend(chunks[..i], [chunks[i]]);
    var one := [chunks[i]];
    assert one[1..] == [];
    assert chunks == chunks[..i + 1] + chunks[i + 1..];
    FlatAppend(chunks[..i + 1], chunks[i + 1..]);
  }

  lemma LrwAppend(fn: nat -> nat, key2: nat, iv: nat, a: seq<nat>, x: seq<nat>, b: seq<nat>, y: seq<nat>)
    requires IsLrw(fn, key2, iv, a, x) && IsLrw(fn, key2, iv + |a|, b, y)
    ensures IsLrw(fn, key2, iv, a + b, x + y)
  {
    hide Product, Xor;
    forall n: nat | n < |a + b|
      ensures var t := Product(Bbe, iv + n, key2); (x + y)[n] == Xor(fn(Xor(t, (a + b)[n])), t)
    {
      if n >= |a| {
        var m: nat := n - |a|;
        assert y[m] == var t := Product(Bbe, iv + |a| + m, key2); Xor(fn(Xor(t, b[m])), t);
      }
    }
  }

  /** Decryption of the encrypted blocks, from the same counter, gives the blocks back. */
  lemma LrwInverse(e: nat -> nat, d: nat -> nat, key2: nat, iv: nat, src: seq<nat>, mid: seq<nat>, dst: seq<nat>)
    requires (forall x :: d(e(x)) == x) && IsLrw(e, key2, iv, src, mid) && IsLrw(d, key2, iv, mid, dst)
    ensures dst == src
  {
    hide Product, Xor;
    forall n: nat | n < |src| ensures dst[n] == src[n] {
      RoundInverse(e, d, Product(Bbe, iv + n, key2), src[n]);
    }
  }
}
