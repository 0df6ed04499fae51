/** camellia_setup128 and camellia_setup256: the subkeys by stepwise rotation, then the table. */
module CamelliaSetup {
  import opened WordXor
  import opened Words
  import opened CamelliaSpec
  import opened CamelliaMasks
  import opened CamelliaRounds
  import opened CamelliaCipher
  import opened CamelliaKeys
  import opened CamelliaInverse

  /** (a << n) + (b >> (32 - n)), for the shifts used. */
  function Funnel(a: bv32, b: bv32, n: nat): bv32 {
    match n
    case 2 => (a << 2) + (b >> 30)
    case 13 => (a << 13) + (b >> 19)
    case 15 => (a << 15) + (b >> 17)
    case 17 => (a << 17) + (b >> 15)
    case 19 => (a << 19) + (b >> 13)
    case 30 => (a << 30) + (b >> 2)
    case _ => a
  }

  /** CAMELLIA_ROLDQ */
  function Roldq(k: Block, n: nat): Block {
    Block(Half(Funnel(k.d1.l, k.d1.r, n), Funnel(k.d1.r, k.d2.l, n)),
          Half(Funnel(k.d2.l, k.d2.r, n), Funnel(k.d2.r, k.d1.l, n)))
  }

  /** The four words moved up by one. */
  function Roldq32(k: Block): Block { Block(Half(k.d1.r, k.d2.l), Half(k.d2.r, k.d1.l)) }

  /** CAMELLIA_ROLDQo32, for 32 <= n < 64. */
  function RoldqO32(k: Block, n: nat): Block
    requires n >= 32
  {
    Roldq(Roldq32(k), n - 32)
  }

  function Whole(k: Block): bv128 { Join(k.d1, k.d2) }

  lemma RoldqTurns(k: Block)
    ensures Whole(Roldq(k, 15)) == Rotate(Whole(k), 15)
  {
  }

  lemma RoldqTurns17(k: Block)
    ensures Whole(Roldq(k, 17)) == Rotate(Whole(k), 17)
  {
  }

  lemma RoldqTurns30(k: Block)
    ensures Whole(Roldq(k, 30)) == Rotate(Whole(k), 30)
  {
  }

  lemma Roldq32Turns(k: Block)
    ensures Whole(Roldq32(k)) == Rotate(Whole(k), 32)
  {
  }

  lemma RoldqTurns34(k: Block)
    ensures Whole(RoldqO32(k, 34)) == Rotate(Whole(k), 34)
  {
  }

  lemma RoldqTurns45(k: Block)
    ensures Whole(RoldqO32(k, 45)) == Rotate(Whole(k), 45)
  {
  }

  lemma RoldqTurns49(k: Block)
    ensures Whole(RoldqO32(k, 49)) == Rotate(Whole(k), 49)
  {
  }

  lemma RoldqTurns51(k: Block)
    ensures Whole(RoldqO32(k, 51)) == Rotate(Whole(k), 51)
  {
  }

  lemma HalvesOfWhole(k: Block)
    ensures High(Whole(k)) == k.d1 && Low(Whole(k)) == k.d2
  {
  }

  lemma Turn15By30(v: bv128)
    ensures Rotate(Rotate(v, 15), 30) == Rotate(v, 45)
  {
  }

  lemma Turn45By15(v: bv128)
    ensures Rotate(Rotate(v, 45), 15) == Rotate(v, 60)
  {
  }

  lemma Turn60By17(v: bv128)
    ensures Rotate(Rotate(v, 60), 17) == Rotate(v, 77)
  {
  }

  lemma Turn77By17(v: bv128)
    ensures Rotate(Rotate(v, 77), 17) == Rotate(v, 94)
  {
  }

  lemma Turn94By17(v: bv128)
    ensures Rotate(Rotate(v, 94), 17) == Rotate(v, 111)
  {
  }

  lemma Turn15By15(v: bv128)
    ensures Rotate(Rotate(v, 15), 15) == Rotate(v, 30)
  {
  }

  lemma Turn30By15(v: bv128)
    ensures Rotate(Rotate(v, 30), 15) == Rotate(v, 45)
  {
  }

  lemma Turn60By34(v: bv128)
    ensures Rotate(Rotate(v, 60), 34) == Rotate(v, 94)
  {
  }

  lemma Turn77By34(v: bv128)
    ensures Rotate(Rotate(v, 77), 34) == Rotate(v, 111)
  {
  }

  lemma Turn30By30(v: bv128)
    ensures Rotate(Rotate(v, 30), 30) == Rotate(v, 60)
  {
  }

  lemma Turn94By34(v: bv128)
    ensures Rotate(Rotate(v, 94), 34) == Rotate(v, 0)
  {
  }

  lemma Turn45By32(v: bv128)
    ensures Rotate(Rotate(v, 45), 32) == Rotate(v, 77)
  {
  }

  lemma Turn45By49(v: bv128)
    ensures Rotate(Rotate(v, 45), 49) == Rotate(v, 94)
  {
  }

  lemma Turn60By51(v: bv128)
    ensures Rotate(Rotate(v, 60), 51) == Rotate(v, 111)
  {
  }

  /** k, as four words, is the 128-bit key v turned by n. */
  predicate Turned(k: Block, v: bv128, n: nat) { Whole(k) == Rotate(v, n) }

  lemma TurnedHalves(k: Block, v: Block, n: nat)
    requires Turned(k, Whole(v), n)
    ensures k.d1 == Hi(v, n) && k.d2 == Lo(v, n)
  {
    hide Rotate, High, Low, Join;
    HalvesOfWhole(k);
  }

  /** CAMELLIA_F */
  method RoundF(s: SBoxes, x: Half, k: Half) returns (y: Half)
    ensures y == F(s, x, k)
  {
    hide X, RR8, F, F0, Left, Right;
    var z := Xor(x, k);
    var yl := Right(s, z);
    var yr := Left(s, z);
    XComm(yl, yr);
    yl := X(yl, yr);
    yr := RR8(yr);
    yr := X(yr, yl);
    y := Half(yl, yr);
    FKey(s, x, k);
    TableF(s, z);
  }

  /** KA of a 128-bit key, with the cancelled additions of KL left out. */
  method MakeKA128(s: SBoxes, kl: Block) returns (ka: Block)
    ensures ka == KA(s, kl, ZERO)
  {
    hide Xor, F;
    XorSelf(kl.d1, kl.d1);
    XorSelf(kl.d2, kl.d2);
    var w := RoundF(s, kl.d1, SIGMA1);
    var d2 := Xor(kl.d2, w);
    var d1 := RoundF(s, d2, SIGMA2);
    XorComm(kl.d1, d1);
    Whiten(d1, d1, kl.d1);
    XorComm(kl.d2, w);
    Whiten(w, w, kl.d2);
    d2 := RoundF(s, d1, SIGMA3);
    XorComm(d2, w);
    d2 := Xor(d2, w);
    w := RoundF(s, d2, SIGMA4);
    d1 := Xor(d1, w);
    ka := Block(d1, d2);
  }

  /** KA and KB of a 256-bit key. */
  method MakeKAKB(s: SBoxes, kl: Block, kr: Block) returns (ka: Block, kb: Block)
    ensures ka == KA(s, kl, kr) && kb == KB(s, ka, kr)
  {
    hide Xor, F;
    var d1, d2 := Xor(kl.d1, kr.d1), Xor(kl.d2, kr.d2);
    var w := RoundF(s, d1, SIGMA1);
    d2 := Xor(d2, w);
    d1 := RoundF(s, d2, SIGMA2);
    Drop(kl.d1, kr.d1, d1);
    Drop(kl.d2, kr.d2, w);
    d1 := Xor(d1, kr.d1);
    d2 := RoundF(s, d1, SIGMA3);
    XorComm(d2, Xor(w, kr.d2));
    d2 := Xor(d2, Xor(w, kr.d2));
    w := RoundF(s, d2, SIGMA4);
    d1 := Xor(d1, w);
    ka := Block(d1, d2);
    var e1, e2 := Xor(kr.d1, d1), Xor(kr.d2, d2);
    XorComm(kr.d1, d1);
    XorComm(kr.d2, d2);
    w := RoundF(s, e1, SIGMA5);
    e2 := Xor(e2, w);
    w := RoundF(s, e2, SIGMA6);
    e1 := Xor(e1, w);
    kb := Block(e1, e2);
  }

  lemma Drop(a: Half, b: Half, c: Half)
    ensures Xor(Xor(Xor(a, b), c), a) == Xor(c, b)
  {
    hide *;
    XorAssoc(a, b, c);
    XorComm(a, Xor(b, c));
    Whiten(Xor(b, c), a, a);
    XorComm(b, c);
  }

  /** The subkeys of a 128-bit key, turning KL and KA step by step. */
  method Generate128(s: SBoxes, kl: Block) returns (t: seq<Half>)
    ensures t == Subkeys128(s, kl)
  {
    hide Rotate, Join, High, Low, KA, Roldq, Roldq32, RoldqO32, Hi, Lo, Turned, Whole;
    var l15, l45, l60, l77, l94, l111 := TurnKL128(kl);
    var a := MakeKA128(s, kl);
    var a15, a30, a45, a60, a94, a111 := TurnKA128(a);
    NotTurned(kl);
    NotTurned(a);
    t := [kl.d1, kl.d2,
          a.d1, a.d2, l15.d1, l15.d2, a15.d1, a15.d2,
          a30.d1, a30.d2,
          l45.d1, l45.d2, a45.d1, l60.d2, a60.d1, a60.d2,
          l77.d1, l77.d2,
          l94.d1, l94.d2, a94.d1, a94.d2, l111.d1, l111.d2,
          a111.d1, a111.d2];
  }

  lemma NotTurned(k: Block)
    ensures Hi(k, 0) == k.d1 && Lo(k, 0) == k.d2
  {
    hide High, Low, Join;
    HalvesOfWhole(k);
  }

  predicate IsTurn(k: Block, v: Block, n: nat) { k.d1 == Hi(v, n) && k.d2 == Lo(v, n) }

  method TurnKL128(k: Block) returns (t15: Block, t45: Block, t60: Block, t77: Block, t94: Block, t111: Block)
    ensures IsTurn(t15, k, 15) && IsTurn(t45, k, 45) && IsTurn(t60, k, 60)
    ensures IsTurn(t77, k, 77) && IsTurn(t94, k, 94) && IsTurn(t111, k, 111)
  {
    hide Rotate, Join, High, Low, Roldq, Hi, Lo, Whole;
    t15 := Roldq(k, 15);
    t45 := Roldq(t15, 30);
    t60 := Roldq(t45, 15);
    t77 := Roldq(t60, 17);
    t94 := Roldq(t77, 17);
    t111 := Roldq(t94, 17);
    RoldqTurns(k);
    RoldqTurns30(t15);
    Turn15By30(Whole(k));
    RoldqTurns(t45);
    Turn45By15(Whole(k));
    RoldqTurns17(t60);
    Turn60By17(Whole(k));
    RoldqTurns17(t77);
    Turn77By17(Whole(k));
    RoldqTurns17(t94);
    Turn94By17(Whole(k));
    TurnedHalves(t15, k, 15);
    TurnedHalves(t45, k, 45);
    TurnedHalves(t60, k, 60);
    TurnedHalves(t77, k, 77);
    TurnedHalves(t94, k, 94);
    TurnedHalves(t111, k, 111);
  }

  method TurnKA128(k: Block) returns (t15: Block, t30: Block, t45: Block, t60: Block, t94: Block, t111: Block)
    ensures IsTurn(t15, k, 15) && IsTurn(t30, k, 30) && IsTurn(t45, k, 45)
    ensures IsTurn(t60, k, 60) && IsTurn(t94, k, 94) && IsTurn(t111, k, 111)
  {
    hide Rotate, Join, High, Low, Roldq, RoldqO32, Hi, Lo, Whole;
    t15 := Roldq(k, 15);
    t30 := Roldq(t15, 15);
    t45 := Roldq(t30, 15);
    t60 := Roldq(t45, 15);
    t94 := RoldqO32(t60, 34);
    t111 := Roldq(t94, 17);
    RoldqTurns(k);
    RoldqTurns(t15);
    Turn15By15(Whole(k));
    RoldqTurns(t30);
    Turn30By15(Whole(k));
    RoldqTurns(t45);
    Turn45By15(Whole(k));
    RoldqTurns34(t60);
    Turn60By34(Whole(k));
    RoldqTurns17(t94);
    Turn94By17(Whole(k));
    TurnedHalves(t15, k, 15);
    TurnedHalves(t30, k, 30);
    TurnedHalves(t45, k, 45);
    TurnedHalves(t60, k, 60);
    TurnedHalves(t94, k, 94);
    TurnedHalves(t111, k, 111);
  }

  /** The subkeys of a 256-bit key. */
  method Generate256(s: SBoxes, kl: Block, kr: Block) returns (t: seq<Half>)
    ensures t == Subkeys256(s, kl, kr)
  {
    hide Rotate, Join, High, Low, KA, KB, Roldq, Roldq32, RoldqO32, Hi, Lo, Turned, Whole;
    var l45, l60, l77, l111 := TurnKL256(kl);
    var r15, r30, r60, r94, r0 := TurnKR256(kr);
    NotTurned(kr);
    NotTurned(kl);
    var a, b := MakeKAKB(s, kl, r0);
    var a15, a45, a77, a94 := TurnKA256(a);
    var b30, b60, b111 := TurnKB256(b);
    NotTurned(b);
    t := [kl.d1, kl.d2,
          b.d1, b.d2, r15.d1, r15.d2, a15.d1, a15.d2,
          r30.d1, r30.d2,
          b30.d1, b30.d2, l45.d1, l45.d2, a45.d1, a45.d2,
          l60.d1, l60.d2,
          r60.d1, r60.d2, b60.d1, b60.d2, l77.d1, l77.d2,
          a77.d1, a77.d2,
          r94.d1, r94.d2, a94.d1, a94.d2, l111.d1, l111.d2,
          b111.d1, b111.d2];
  }

  method TurnKL256(k: Block) returns (t45: Block, t60: Block, t77: Block, t111: Block)
    ensures IsTurn(t45, k, 45) && IsTurn(t60, k, 60) && IsTurn(t77, k, 77) && IsTurn(t111, k, 111)
  {
    hide Rotate, Join, High, Low, Roldq, RoldqO32, Hi, Lo, Whole;
    t45 := RoldqO32(k, 45);
    t60 := Roldq(t45, 15);
    t77 := Roldq(t60, 17);
    t111 := RoldqO32(t77, 34);
    RoldqTurns45(k);
    RoldqTurns(t45);
    Turn45By15(Whole(k));
    RoldqTurns17(t60);
    Turn60By17(Whole(k));
    RoldqTurns34(t77);
    Turn77By34(Whole(k));
    TurnedHalves(t45, k, 45);
    TurnedHalves(t60, k, 60);
    TurnedHalves(t77, k, 77);
    TurnedHalves(t111, k, 111);
  }

  /** KR comes back to itself after 15 + 15 + 30 + 34 + 34 bits. */
  method TurnKR256(k: Block) returns (t15: Block, t30: Block, t60: Block, t94: Block, t128: Block)
    ensures IsTurn(t15, k, 15) && IsTurn(t30, k, 30) && IsTurn(t60, k, 60) && IsTurn(t94, k, 94)
    ensures IsTurn(t128, k, 0)
  {
    hide Rotate, Join, High, Low, Roldq, RoldqO32, Hi, Lo, Whole;
    t15 := Roldq(k, 15);
    t30 := Roldq(t15, 15);
    t60 := Roldq(t30, 30);
    t94 := RoldqO32(t60, 34);
    t128 := RoldqO32(t94, 34);
    RoldqTurns(k);
    RoldqTurns(t15);
    Turn15By15(Whole(k));
    RoldqTurns30(t30);
    Turn30By30(Whole(k));
    RoldqTurns34(t60);
    Turn60By34(Whole(k));
    RoldqTurns34(t94);
    Turn94By34(Whole(k));
    TurnedHalves(t15, k, 15);
    TurnedHalves(t30, k, 30);
    TurnedHalves(t60, k, 60);
    TurnedHalves(t94, k, 94);
    TurnedHalves(t128, k, 0);
  }

  method TurnKA256(k: Block) returns (t15: Block, t45: Block, t77: Block, t94: Block)
    ensures IsTurn(t15, k, 15) && IsTurn(t45, k, 45) && IsTurn(t77, k, 77) && IsTurn(t94, k, 94)
  {
    hide Rotate, Join, High, Low, Roldq, Roldq32, RoldqO32, Hi, Lo, Whole;
    t15 := Roldq(k, 15);
    t45 := Roldq(t15, 30);
    t77 := Roldq32(t45);
    t94 := RoldqO32(t45, 49);
    RoldqTurns(k);
    RoldqTurns30(t15);
    Turn15By30(Whole(k));
    Roldq32Turns(t45);
    Turn45By32(Whole(k));
    RoldqTurns49(t45);
    Turn45By49(Whole(k));
    TurnedHalves(t15, k, 15);
    TurnedHalves(t45, k, 45);
    TurnedHalves(t77, k, 77);
    TurnedHalves(t94, k, 94);
  }

  method TurnKB256(k: Block) returns (t30: Block, t60: Block, t111: Block)
    ensures IsTurn(t30, k, 30) && IsTurn(t60, k, 60) && IsTurn(t111, k, 111)
  {
    hide Rotate, Join, High, Low, Roldq, RoldqO32, Hi, Lo, Whole;
    t30 := Roldq(k, 30);
    t60 := Roldq(t30, 30);
    t111 := RoldqO32(t60, 51);
    RoldqTurns30(k);
    RoldqTurns30(t30);
    Turn30By30(Whole(k));
    RoldqTurns51(t60);
    Turn60By51(Whole(k));
    TurnedHalves(t30, k, 30);
    TurnedHalves(t60, k, 60);
    TurnedHalves(t111, k, 111);
  }

  // ---- the whole cipher ----

  /** camellia_setup128 */
  method Setup128(s: SBoxes, key: Block) returns (k: seq<Half>)
    ensures StandsFor(k, Subkeys128(s, key), 3)
  {
    hide StandsFor, Subkeys128;
    var t := Generate128(s, key);
    k := Rewrite(t, 3);
  }

  /** camellia_setup256 */
  method Setup256(s: SBoxes, kl: Block, kr: Block) returns (k: seq<Half>)
    ensures StandsFor(k, Subkeys256(s, kl, kr), 4)
  {
    hide StandsFor, Subkeys256;
    var t := Generate256(s, kl, kr);
    k := Rewrite(t, 4);
  }

  function Complement(h: Half): Half { Half(N(h.l), N(h.r)) }

  /** camellia_setup192: the missing quarter is the complement of the third. */
  method Setup192(s: SBoxes, kl: Block, kr: Half) returns (k: seq<Half>)
    ensures StandsFor(k, Subkeys256(s, kl, Block(kr, Complement(kr))), 4)
  {
    hide StandsFor, Subkeys256;
    k := Setup256(s, kl, Block(kr, Complement(kr)));
  }

  function HalfAt(key: seq<bv8>, i: nat): Half
    requires i + 8 <= |key|
  {
    Half(Word(key[i], key[i + 1], key[i + 2], key[i + 3]), Word(key[i + 4], key[i + 5], key[i + 6], key[i + 7]))
  }

  function BlockAt(key: seq<bv8>, i: nat): Block
    requires i + 16 <= |key|
  {
    Block(HalfAt(key, i), HalfAt(key, i + 8))
  }

  predicate KeyLength(n: nat) { n == 16 || n == 24 || n == 32 }

  /** The subkeys RFC 3713 gives for a key of 16, 24 or 32 bytes. */
  function Schedule(s: SBoxes, key: seq<bv8>): (t: seq<Half>)
    requires KeyLength(|key|)
    ensures Layout(t, Size(|key|))
  {
    if |key| == 16 then Subkeys128(s, BlockAt(key, 0))
    else if |key| == 24 then
      Subkeys256(s, BlockAt(key, 0), Block(HalfAt(key, 16), Complement(HalfAt(key, 16))))
    else Subkeys256(s, BlockAt(key, 0), BlockAt(key, 16))
  }

  function Size(n: nat): nat { if n == 16 then 3 else 4 }

  const EINVAL: int := -22

  /** struct camellia_ctx with its three entry points. */
  class Context {
    const boxes: SBoxes
    var keyLength: nat
    var keyTable: seq<Half>
    ghost var key: seq<bv8>   // the key last set

    ghost predicate Ready()
      reads this
    {
      KeyLength(|key|) && keyLength == |key| && StandsFor(keyTable, Schedule(boxes, key), Size(|key|))
    }

    constructor (s: SBoxes)
      ensures boxes == s
    {
      boxes, keyLength, keyTable := s, 0, [];
    }

    /** The setup for the length of the key. */
    method MakeTable(newKey: seq<bv8>) returns (k: seq<Half>)
      requires KeyLength(|newKey|)
      ensures StandsFor(k, Schedule(boxes, newKey), Size(|newKey|))
    {
      hide StandsFor, Subkeys128, Subkeys256, Word, Complement;
      if |newKey| == 16 {
        k := Setup128(boxes, BlockAt(newKey, 0));
      } else if |newKey| == 24 {
        k := Setup192(boxes, BlockAt(newKey, 0), HalfAt(newKey, 16));
      } else {
        k := Setup256(boxes, BlockAt(newKey, 0), BlockAt(newKey, 16));
      }
    }

    /** camellia_set_key */
    method SetKey(newKey: seq<bv8>) returns (err: int)
      modifies this
      ensures KeyLength(|newKey|) ==> err == 0 && Ready() && key == newKey
      ensures !KeyLength(|newKey|) ==> err == EINVAL && unchanged(this)
    {
      hide StandsFor, Schedule;
      if !KeyLength(|newKey|) {
        return EINVAL;
      }
      var t := MakeTable(newKey);
      keyTable, keyLength, key := t, |newKey|, newKey;
      return 0;
    }

    /** camellia_encrypt */
    method EncryptBlock(m: Block) returns (c: Block)
      requires Ready()
      ensures c == Encrypt(boxes, Schedule(boxes, key), Size(|key|), m)
    {
      hide StandsFor, Schedule, Encrypt;
      if keyLength == 16 {
        c := Encrypt128(boxes, keyTable, m, Schedule(boxes, key));
      } else {
        c := Encrypt256(boxes, keyTable, m, Schedule(boxes, key));
      }
    }

    /** camellia_decrypt: undoes camellia_encrypt under the same key. */
    method DecryptBlock(c: Block) returns (m: Block)
      requires Ready()
      ensures m == Decrypt(boxes, Schedule(boxes, key), Size(|key|), c)
      ensures Encrypt(boxes, Schedule(boxes, key), Size(|key|), m) == c
    {
      hide StandsFor, Schedule, Encrypt, Decrypt;
      EncryptDecrypt(boxes, Schedule(boxes, key), Size(|key|), c);
      if keyLength == 16 {
        m := Decrypt128(boxes, keyTable, c, Schedule(boxes, key));
      } else {
        m := Decrypt256(boxes, keyTable, c, Schedule(boxes, key));
      }
    }
  }
}
