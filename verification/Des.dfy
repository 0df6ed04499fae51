/** crypto/des.c: DES as 16 Feistel rounds between two permutations, and triple DES with the inner
    permutations left out. */
module Des {
  import opened WordXor

  type word = bv32

  /** A block or the pair of working halves. */
  datatype Pair = Pair(l: word, r: word)

  function Flip(p: Pair): Pair { Pair(p.r, p.l) }

  // ---- the permutations ----

  /** Exchange the masked bits of two words: the xor-and-xor steps of IP and FP. */
  function Exchange(p: Pair, m: word): Pair {
    var x := A(X(p.l, p.r), m);
    Pair(X(p.l, x), X(p.r, x))
  }

  lemma ExchangeTwice(p: Pair, m: word)
    ensures Exchange(Exchange(p, m), m) == p
  {
    hide X, A;
    var x := A(X(p.l, p.r), m);
    Cancel(p.l, p.r, x);
    XorBack(p.l, x);
    XorBack(p.r, x);
  }

  lemma Cancel(a: word, b: word, x: word)
    ensures X(X(a, x), X(b, x)) == X(a, b)
  {
    hide X;
    XComm(b, x);
    XAssoc(X(a, x), x, b);
    XorBack(a, x);
  }

  lemma XorBack(a: word, b: word)
    ensures X(X(a, b), b) == a
  {
  }

  function Rol1(x: word): word { (x << 1) | (x >> 31) }
  function Ror1(x: word): word { (x >> 1) | (x << 31) }
  function Rol4(x: word): word { (x << 4) | (x >> 28) }
  function Ror4(x: word): word { (x >> 4) | (x << 28) }
  function Rol6(x: word): word { (x << 6) | (x >> 26) }
  function Ror6(x: word): word { (x >> 6) | (x << 26) }
  function Rol7(x: word): word { (x << 7) | (x >> 25) }
  function Ror7(x: word): word { (x >> 7) | (x << 25) }
  function Rol12(x: word): word { (x << 12) | (x >> 20) }
  function Ror12(x: word): word { (x >> 12) | (x << 20) }
  function Rol14(x: word): word { (x << 14) | (x >> 18) }
  function Ror14(x: word): word { (x >> 14) | (x << 18) }
  function Rol18(x: word): word { (x << 18) | (x >> 14) }

  lemma Turns(x: word)
    ensures Ror1(Rol1(x)) == x && Rol1(Ror1(x)) == x
    ensures Ror4(Rol4(x)) == x && Ror6(Rol6(x)) == x && Rol7(Ror7(x)) == x
    ensures Ror12(Rol12(x)) == x && Rol14(Ror14(x)) == x
    ensures Rol4(Ror4(x)) == x && Rol6(Ror6(x)) == x && Ror7(Rol7(x)) == x
    ensures Rol12(Ror12(x)) == x && Ror14(Rol14(x)) == x
  {
  }

  /** IP */
  function Initial(p: Pair): Pair {
    var a := Exchange(Pair(p.l, Rol4(p.r)), 0xf0f0f0f0);
    var b := Exchange(Pair(a.l, Rol12(a.r)), 0xffff0000);
    var c := Exchange(Pair(b.l, Ror14(b.r)), 0xcccccccc);
    var d := Exchange(Pair(c.l, Rol6(c.r)), 0xff00ff00);
    var e := Exchange(Pair(d.l, Ror7(d.r)), 0xaaaaaaaa);
    Pair(Rol1(e.l), e.r)
  }

  /** FP */
  function Final(p: Pair): Pair {
    var e := Exchange(Pair(Ror1(p.l), p.r), 0xaaaaaaaa);
    var d := Exchange(Pair(e.l, Rol7(e.r)), 0xff00ff00);
    var c := Exchange(Pair(d.l, Ror6(d.r)), 0xcccccccc);
    var b := Exchange(Pair(c.l, Rol14(c.r)), 0xffff0000);
    var a := Exchange(Pair(b.l, Ror12(b.r)), 0xf0f0f0f0);
    Pair(a.l, Ror4(a.r))
  }

  /** FP undoes IP. */
  lemma FinalInitial(p: Pair)
    ensures Final(Initial(p)) == p
  {
    hide Exchange, Rol1, Ror1, Rol4, Ror4, Rol6, Ror6, Rol7, Ror7, Rol12, Ror12, Rol14, Ror14;
    var a0 := Pair(p.l, Rol4(p.r));
    var a := Exchange(a0, 0xf0f0f0f0);
    var b0 := Pair(a.l, Rol12(a.r));
    var b := Exchange(b0, 0xffff0000);
    var c0 := Pair(b.l, Ror14(b.r));
    var c := Exchange(c0, 0xcccccccc);
    var d0 := Pair(c.l, Rol6(c.r));
    var d := Exchange(d0, 0xff00ff00);
    var e0 := Pair(d.l, Ror7(d.r));
    var e := Exchange(e0, 0xaaaaaaaa);
    Turns(e.l);
    ExchangeTwice(e0, 0xaaaaaaaa);
    Turns(d.r);
    ExchangeTwice(d0, 0xff00ff00);
    Turns(c.r);
    ExchangeTwice(c0, 0xcccccccc);
    Turns(b.r);
    ExchangeTwice(b0, 0xffff0000);
    Turns(a.r);
    ExchangeTwice(a0, 0xf0f0f0f0);
    Turns(p.r);
  }

  /** IP undoes FP, which is what lets triple DES leave both out in the middle. */
  lemma InitialFinal(p: Pair)
    ensures Initial(Final(p)) == p
  {
    hide Exchange, Rol1, Ror1, Rol4, Ror4, Rol6, Ror6, Rol7, Ror7, Rol12, Ror12, Rol14, Ror14;
    var e0 := Pair(Ror1(p.l), p.r);
    var e := Exchange(e0, 0xaaaaaaaa);
    var d0 := Pair(e.l, Rol7(e.r));
    var d := Exchange(d0, 0xff00ff00);
    var c0 := Pair(d.l, Ror6(d.r));
    var c := Exchange(c0, 0xcccccccc);
    var b0 := Pair(c.l, Rol14(c.r));
    var b := Exchange(b0, 0xffff0000);
    var a0 := Pair(b.l, Ror12(b.r));
    var a := Exchange(a0, 0xf0f0f0f0);
    Turns(a.r);
    ExchangeTwice(a0, 0xf0f0f0f0);
    Turns(b.r);
    ExchangeTwice(b0, 0xffff0000);
    Turns(c.r);
    ExchangeTwice(c0, 0xcccccccc);
    Turns(d.r);
    ExchangeTwice(d0, 0xff00ff00);
    Turns(e.r);
    ExchangeTwice(e0, 0xaaaaaaaa);
    Turns(p.l);
  }

  // ---- rounds ----

  /** The two words of one round's subkey. */
  datatype Subkey = Subkey(even: word, odd: word)

  /** The eight S tables, each of 64 entries, are a parameter: table number and index. */
  type Tables = (int, word) -> word

  function Byte0(w: word): word { 0xff & w }
  function Byte1(w: word): word { 0xff & (w >> 8) }
  function Byte2(w: word): word { 0xff & (w >> 16) }
  function Byte3(w: word): word { 0xff & (w >> 24) }

  /** The round function. */
  function F(s: Tables, x: word, k: Subkey): word {
    var b := A(X(k.even, x), 0x3f3f3f3f);
    var a := A(Ror4(X(k.odd, x)), 0x3f3f3f3f);
    X(X(X(X(X(X(X(s(8, Byte0(b)), s(6, Byte1(b))), s(7, Byte0(a))), s(5, Byte1(a))),
      s(4, Byte2(b))), s(2, Byte3(b))), s(3, Byte2(a))), s(1, Byte3(a)))
  }

  /** One Feistel round. */
  function Round(s: Tables, k: Subkey, p: Pair): Pair { Pair(p.r, X(p.l, F(s, p.r, k))) }

  function Rounds(s: Tables, ks: seq<Subkey>, p: Pair): Pair {
    if ks == [] then p else Rounds(s, ks[1..], Round(s, ks[0], p))
  }

  /** DES of a block under a list of subkeys. */
  function Cipher(s: Tables, ks: seq<Subkey>, p: Pair): Pair { Final(Flip(Rounds(s, ks, Initial(p)))) }

  function Reverse(ks: seq<Subkey>): seq<Subkey> { if ks == [] then [] else Reverse(ks[1..]) + [ks[0]] }

  lemma {:induction false} RoundsAppend(s: Tables, a: seq<Subkey>, b: seq<Subkey>, p: Pair)
    ensures Rounds(s, a + b, p) == Rounds(s, b, Rounds(s, a, p))
  {
    hide Round;
    if a == [] {
      assert a + b == b;
    } else {
      assert (a + b)[1..] == a[1..] + b;
      RoundsAppend(s, a[1..], b, Round(s, a[0], p));
    }
  }

  lemma RoundBack(s: Tables, k: Subkey, p: Pair)
    ensures Round(s, k, Flip(Round(s, k, p))) == Flip(p)
  {
    hide F, X;
    XorBack(p.l, F(s, p.r, k));
  }

  /** The same rounds with the subkeys reversed, from the flipped end, lead back to the flipped start. */
  lemma {:induction false} RoundsBack(s: Tables, ks: seq<Subkey>, p: Pair)
    ensures Rounds(s, Reverse(ks), Flip(Rounds(s, ks, p))) == Flip(p)
  {
    hide Round;
    if ks != [] {
      var q := Round(s, ks[0], p);
      RoundsBack(s, ks[1..], q);
      RoundsAppend(s, Reverse(ks[1..]), [ks[0]], Flip(Rounds(s, ks, p)));
      RoundBack(s, ks[0], p);
      var one := [ks[0]];
      assert Rounds(s, one, Flip(q)) == Rounds(s, one[1..], Round(s, ks[0], Flip(q)));
    }
  }

  /** Decryption undoes encryption, for any S tables and any list of subkeys. */
  lemma CipherBack(s: Tables, ks: seq<Subkey>, p: Pair)
    ensures Cipher(s, Reverse(ks), Cipher(s, ks, p)) == p
  {
    hide Initial, Final, Rounds;
    var q := Flip(Rounds(s, ks, Initial(p)));
    InitialFinal(q);
    RoundsBack(s, ks, Initial(p));
    FinalInitial(p);
  }

  // ---- triple DES ----

  /** Three groups of rounds between one pair of permutations, the halves flipped in between. */
  function Fused(s: Tables, a: seq<Subkey>, b: seq<Subkey>, c: seq<Subkey>, p: Pair): Pair {
    Final(Flip(Rounds(s, c, Flip(Rounds(s, b, Flip(Rounds(s, a, Initial(p))))))))
  }

  /** Three ciphers one after the other. */
  function Triple(s: Tables, a: seq<Subkey>, b: seq<Subkey>, c: seq<Subkey>, p: Pair): Pair {
    Cipher(s, c, Cipher(s, b, Cipher(s, a, p)))
  }

  /** The fused cipher is the composition of three. */
  lemma Fusion(s: Tables, a: seq<Subkey>, b: seq<Subkey>, c: seq<Subkey>, p: Pair)
    ensures Fused(s, a, b, c, p) == Triple(s, a, b, c, p)
  {
    hide Initial, Final, Rounds;
    InitialFinal(Flip(Rounds(s, a, Initial(p))));
    InitialFinal(Flip(Rounds(s, b, Flip(Rounds(s, a, Initial(p))))));
  }

  /** Triple DES decryption undoes encryption. */
  lemma TripleBack(s: Tables, a: seq<Subkey>, b: seq<Subkey>, c: seq<Subkey>, p: Pair)
    ensures Triple(s, Reverse(c), Reverse(b), Reverse(a), Triple(s, a, b, c, p)) == p
  {
    hide Cipher;
    var x := Cipher(s, a, p);
    CipherBack(s, c, Cipher(s, b, x));
    CipherBack(s, b, x);
    CipherBack(s, a, p);
  }

  lemma {:induction false} ReverseAppend(a: seq<Subkey>, b: seq<Subkey>)
    ensures Reverse(a + b) == Reverse(b) + Reverse(a)
  {
    if a == [] {
      assert a + b == b;
    } else {
      assert (a + b)[1..] == a[1..] + b;
      ReverseAppend(a[1..], b);
    }
  }

  lemma {:induction false} ReverseTwice(a: seq<Subkey>)
    ensures Reverse(Reverse(a)) == a
  {
    if a != [] {
      ReverseTwice(a[1..]);
      ReverseAppend(Reverse(a[1..]), [a[0]]);
      assert Reverse([a[0]]) == [a[0]];
    }
  }

  /** The two key triples des3_ede_setkey refuses are the ones that leave single DES. */
  lemma DegenerateTriples(s: Tables, a: seq<Subkey>, c: seq<Subkey>, p: Pair)
    ensures Fused(s, a, Reverse(a), c, p) == Cipher(s, c, p)
    ensures Fused(s, a, Reverse(c), c, p) == Cipher(s, a, p)
  {
    hide Fused, Cipher;
    Fusion(s, a, Reverse(a), c, p);
    CipherBack(s, a, p);
    Fusion(s, a, Reverse(c), c, p);
    ReverseTwice(c);
    CipherBack(s, Reverse(c), Cipher(s, a, p));
  }
}
