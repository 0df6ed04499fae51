/** Textbook decryption undoes textbook encryption. */
module CamelliaInverse {
  import opened CamelliaSpec
  import opened CamelliaMasks
  import opened CamelliaCipher

  function Swap(d: Block): Block { Block(d.d2, d.d1) }

  lemma TwoRoundsBack(s: SBoxes, a: Half, b: Half, d: Block)
    ensures TwoRounds(s, b, a, Swap(TwoRounds(s, a, b, d))) == Swap(d)
  {
    hide Xor, F;
    var e := TwoRounds(s, a, b, d);
    Whiten(d.d2, e.d2, F(s, d.d1, a));
    Whiten(d.d1, e.d1, F(s, e.d2, b));
  }

  lemma SixBack(s: SBoxes, t: seq<Half>, groups: nat, j: nat, d: Block)
    requires Layout(t, groups) && j < groups
    ensures SixRounds(s, Reversed(t, groups), groups - 1 - j, Swap(SixRounds(s, t, j, d))) == Swap(d)
  {
    hide TwoRounds;
    var d1 := TwoRounds(s, t[8 * j + 2], t[8 * j + 3], d);
    var d2 := TwoRounds(s, t[8 * j + 4], t[8 * j + 5], d1);
    TwoRoundsBack(s, t[8 * j + 6], t[8 * j + 7], d2);
    TwoRoundsBack(s, t[8 * j + 4], t[8 * j + 5], d1);
    TwoRoundsBack(s, t[8 * j + 2], t[8 * j + 3], d);
  }

  /** The state after the six rounds of group j, from the start. */
  function Upto(s: SBoxes, t: seq<Half>, groups: nat, j: nat, d: Block): Block
    requires Layout(t, groups) && j < groups
    decreases j
  {
    SixRounds(s, t, j, if j == 0 then d else Layer(t, j - 1, Upto(s, t, groups, j - 1, d)))
  }

  function Layer(t: seq<Half>, j: nat, e: Block): Block
    requires 8 * j + 9 < |t|
  {
    Block(FL(e.d1, t[8 * j + 8]), FLInv(e.d2, t[8 * j + 9]))
  }

  lemma {:induction false} GroupsUpto(s: SBoxes, t: seq<Half>, groups: nat, j: nat, d: Block)
    requires Layout(t, groups) && j < groups
    ensures Groups(s, t, groups, j, if j == 0 then d else Layer(t, j - 1, Upto(s, t, groups, j - 1, d)))
            == Upto(s, t, groups, groups - 1, d)
    decreases groups - j
  {
    hide FL, FLInv, SixRounds;
    if j + 1 < groups {
      GroupsUpto(s, t, groups, j + 1, d);
    }
  }

  lemma LayerBack(t: seq<Half>, groups: nat, j: nat, e: Block)
    requires Layout(t, groups) && 0 < j < groups
    ensures Layer(Reversed(t, groups), groups - 1 - j, Swap(Layer(t, j - 1, e))) == Swap(e)
  {
    hide FL, FLInv;
    FLInverse(e.d1, t[8 * j]);
    FLInverse(e.d2, t[8 * j + 1]);
    assert Reversed(t, groups)[8 * (groups - 1 - j) + 8] == t[8 * j + 1];
    assert Reversed(t, groups)[8 * (groups - 1 - j) + 9] == t[8 * j];
  }

  lemma {:induction false} GroupsBack(s: SBoxes, t: seq<Half>, groups: nat, j: nat, d: Block)
    requires Layout(t, groups) && j < groups
    ensures Groups(s, Reversed(t, groups), groups, groups - 1 - j, Swap(Upto(s, t, groups, j, d))) == Swap(d)
    decreases j
  {
    hide FL, FLInv, SixRounds, Reversed;
    var r := Reversed(t, groups);
    if j == 0 {
      SixBack(s, t, groups, 0, d);
    } else {
      var e := Upto(s, t, groups, j - 1, d);
      SixBack(s, t, groups, j, Layer(t, j - 1, e));
      LayerBack(t, groups, j, e);
      assert Groups(s, r, groups, groups - 1 - j, Swap(Upto(s, t, groups, j, d)))
             == Groups(s, r, groups, groups - j, Layer(r, groups - 1 - j, Swap(Layer(t, j - 1, e))));
      GroupsBack(s, t, groups, j - 1, d);
    }
  }

  /** Decryption inverts encryption, for any subkeys, S-boxes and number of groups. */
  lemma DecryptEncrypt(s: SBoxes, t: seq<Half>, groups: nat, m: Block)
    requires Layout(t, groups)
    ensures Decrypt(s, t, groups, Encrypt(s, t, groups, m)) == m
  {
    hide Xor, Groups, Upto;
    var d := Block(Xor(m.d1, t[0]), Xor(m.d2, t[1]));
    var e := Groups(s, t, groups, 0, d);
    GroupsUpto(s, t, groups, 0, d);
    GroupsBack(s, t, groups, groups - 1, d);
    Whiten(e.d2, e.d2, t[8 * groups]);
    Whiten(e.d1, e.d1, t[8 * groups + 1]);
    Whiten(m.d1, m.d1, t[0]);
    Whiten(m.d2, m.d2, t[1]);
  }

  lemma ReversedTwice(t: seq<Half>, groups: nat)
    requires Layout(t, groups)
    ensures Reversed(Reversed(t, groups), groups) == t
  {
  }

  lemma EncryptDecrypt(s: SBoxes, t: seq<Half>, groups: nat, c: Block)
    requires Layout(t, groups)
    ensures Encrypt(s, t, groups, Decrypt(s, t, groups, c)) == c
  {
    hide Encrypt;
    ReversedTwice(t, groups);
    DecryptEncrypt(s, Reversed(t, groups), groups, c);
  }
}
