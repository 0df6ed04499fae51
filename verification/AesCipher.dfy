/** crypto/aes.c: key expansion, encryption, and decryption with transformed keys. */
module AesCipher {
  import opened ByteSums
  import opened AesMix
  import opened AesLayers

  // ---- the cipher and its equivalent inverse ----

  function AddKey(s: State, k: State): State {
    State(Add(s.c0, k.c0), Add(s.c1, k.c1), Add(s.c2, k.c2), Add(s.c3, k.c3))
  }

  /** Every byte substituted and every row shifted, left or right. */
  function ShiftSub(s: State, f: Byte -> Byte): State {
    State(Col(f(s.c0.b0), f(s.c1.b1), f(s.c2.b2), f(s.c3.b3)), Col(f(s.c1.b0), f(s.c2.b1), f(s.c3.b2), f(s.c0.b3)),
          Col(f(s.c2.b0), f(s.c3.b1), f(s.c0.b2), f(s.c1.b3)), Col(f(s.c3.b0), f(s.c0.b1), f(s.c1.b2), f(s.c2.b3)))
  }

  function UnshiftSub(s: State, f: Byte -> Byte): State {
    State(Col(f(s.c0.b0), f(s.c3.b1), f(s.c2.b2), f(s.c1.b3)), Col(f(s.c1.b0), f(s.c0.b1), f(s.c3.b2), f(s.c2.b3)),
          Col(f(s.c2.b0), f(s.c1.b1), f(s.c0.b2), f(s.c3.b3)), Col(f(s.c3.b0), f(s.c2.b1), f(s.c1.b2), f(s.c0.b3)))
  }

  lemma UnshiftShift(b: Box, s: State)
    requires BoxOk(b)
    ensures UnshiftSub(ShiftSub(s, b.sub), b.inv) == s
  {
  }

  function MixState(s: State): State { State(Mix(s.c0), Mix(s.c1), Mix(s.c2), Mix(s.c3)) }

  function InvMixState(s: State): State { State(InvMix(s.c0), InvMix(s.c1), InvMix(s.c2), InvMix(s.c3)) }

  /** The rounds after the first key addition; the last one does not mix. */
  function Rounds(b: Box, ks: seq<State>, s: State): State
    requires ks != []
  {
    var t := ShiftSub(s, b.sub);
    if |ks| == 1 then AddKey(t, ks[0]) else Rounds(b, ks[1..], AddKey(MixState(t), ks[0]))
  }

  /** The state decryption has reached when the keys before ks are still to come. */
  function Unwound(b: Box, ks: seq<State>, c: State): State
    requires ks != []
  {
    if |ks| == 1 then AddKey(c, ks[0])
    else AddKey(InvMixState(UnshiftSub(Unwound(b, ks[1..], c), b.inv)), InvMixState(ks[0]))
  }

  function Encrypt(b: Box, ks: seq<State>, p: State): State
    requires |ks| > 1
  {
    Rounds(b, ks[1..], AddKey(p, ks[0]))
  }

  function Decrypt(b: Box, ks: seq<State>, c: State): State
    requires |ks| > 1
  {
    AddKey(UnshiftSub(Unwound(b, ks[1..], c), b.inv), ks[0])
  }

  lemma KeyBack(s: State, k: State)
    ensures AddKey(AddKey(s, k), k) == s
  {
    hide Add;
    AddBack(s.c0, k.c0);
    AddBack(s.c1, k.c1);
    AddBack(s.c2, k.c2);
    AddBack(s.c3, k.c3);
  }

  /** InvMixColumns undoes a mixed round once its key has been transformed as well. */
  lemma MixBack(s: State, k: State)
    ensures AddKey(InvMixState(AddKey(MixState(s), k)), InvMixState(k)) == s
  {
    hide Add, Mix, InvMix;
    ColumnBack(s.c0, k.c0);
    ColumnBack(s.c1, k.c1);
    ColumnBack(s.c2, k.c2);
    ColumnBack(s.c3, k.c3);
  }

  lemma ColumnBack(c: Col, k: Col)
    ensures Add(InvMix(Add(Mix(c), k)), InvMix(k)) == c
  {
    hide Add, Mix, InvMix;
    InvMixLinear(Mix(c), k);
    InvMixMix(c);
    AddBack(c, InvMix(k));
  }

  lemma {:induction false} UnwindsRounds(b: Box, ks: seq<State>, s: State)
    requires BoxOk(b) && ks != []
    ensures Unwound(b, ks, Rounds(b, ks, s)) == ShiftSub(s, b.sub)
    decreases |ks|
  {
    hide ShiftSub, UnshiftSub, AddKey, MixState, InvMixState;
    var t := ShiftSub(s, b.sub);
    if |ks| == 1 {
      KeyBack(t, ks[0]);
    } else {
      var u := AddKey(MixState(t), ks[0]);
      UnwindsRounds(b, ks[1..], u);
      UnshiftShift(b, u);
      MixBack(t, ks[0]);
    }
  }

  /** The equivalent inverse cipher undoes the cipher, for any number of rounds and any keys. */
  lemma DecryptEncrypt(b: Box, ks: seq<State>, p: State)
    requires BoxOk(b) && |ks| > 1
    ensures Decrypt(b, ks, Encrypt(b, ks, p)) == p
  {
    hide ShiftSub, UnshiftSub, AddKey, Rounds, Unwound;
    var s := AddKey(p, ks[0]);
    UnwindsRounds(b, ks[1..], s);
    UnshiftShift(b, s);
    KeyBack(p, ks[0]);
  }

  // ---- key expansion (section 5.2 of FIPS 197) ----

  function Mod(i: nat, nk: nat): nat { if nk == 4 then i % 4 else if nk == 6 then i % 6 else i % 8 }

  function Div(i: nat, nk: nat): nat { if nk == 4 then i / 4 else if nk == 6 then i / 6 else i / 8 }

  /** ls_box */
  function SubWord(b: Box, c: Col): Col { Col(b.sub(c.b0), b.sub(c.b1), b.sub(c.b2), b.sub(c.b3)) }

  /** rco_tab: the powers of x. */
  function Rcon(i: nat): Byte { if i == 0 then Byte(1) else M2(Rcon(i - 1)) }

  /** Word i of the expanded key. */
  function W(b: Box, key: seq<Col>, i: nat): Col
    requires |key| == 4 || |key| == 6 || |key| == 8
  {
    var nk := |key|;
    if i < nk then key[i]
    else
      var t := W(b, key, i - 1);
      var u := if Mod(i, nk) == 0 then Add(SubWord(b, Ror8(t)), Last(Rcon(Div(i, nk) - 1)))
               else if nk == 8 && Mod(i, nk) == 4 then SubWord(b, t)
               else t;
      Add(u, W(b, key, i - nk))
  }

  /** The loop4, loop6 and loop8 steps: word j of the next block. */
  lemma NextWord(b: Box, key: seq<Col>, i: nat, j: nat)
    requires |key| == 4 || |key| == 6 || |key| == 8
    requires j < |key|
    ensures var nk := |key|;
            var k := (if nk == 4 then 4 * i else if nk == 6 then 6 * i else 8 * i) + nk + j;
            var t := W(b, key, k - 1);
            var u := if j == 0 then Add(SubWord(b, Ror8(t)), Last(Rcon(i)))
                     else if nk == 8 && j == 4 then SubWord(b, t) else t;
            W(b, key, k) == Add(u, W(b, key, k - nk))
  {
    hide Add, SubWord, Rcon, Last;
    var nk := |key|;
    var k := (if nk == 4 then 4 * i else if nk == 6 then 6 * i else 8 * i) + nk + j;
    assert Mod(k, nk) == j && Div(k, nk) == i + 1;
  }
}
