/** crypto/aes.c: struct aes_ctx, whose one buffer holds the encryption keys and, 60 words on, the
    decryption keys. */
module AesContext {
  import opened ByteSums
  import opened AesLayers
  import opened AesCipher
  import opened AesTables

  const D: nat := 60

  /** Number of steps of the expansion loop, and of round keys after the first. */
  function Steps(nk: nat): nat { if nk == 4 then 10 else if nk == 6 then 8 else 7 }

  function LastRound(nk: nat): nat { if nk == 4 then 10 else if nk == 6 then 12 else 14 }

  predicate KeyLen(nk: nat) { nk == 4 || nk == 6 || nk == 8 }

  /** The words of a key, least significant byte first. */
  function KeyWords(bytes: seq<Byte>): (k: seq<Col>)
    ensures |k| == |bytes| / 4
  {
    seq(|bytes| / 4, i requires 0 <= i < |bytes| / 4 =>
      Col(bytes[4 * i], bytes[4 * i + 1], bytes[4 * i + 2], bytes[4 * i + 3]))
  }

  /** The bytes of words in the order the standard numbers them. */
  function Bytes(k: seq<Col>): seq<Byte> {
    if k == [] then [] else [k[0].b0, k[0].b1, k[0].b2, k[0].b3] + Bytes(k[1..])
  }

  /** Taking a key apart into words loses nothing and keeps the order of its bytes. */
  lemma {:induction false} WordsKeepBytes(bytes: seq<Byte>)
    requires |bytes| % 4 == 0
    ensures Bytes(KeyWords(bytes)) == bytes
    decreases |bytes|
  {
    if bytes != [] {
      WordsKeepBytes(bytes[4..]);
      assert KeyWords(bytes)[1..] == KeyWords(bytes[4..]);
    }
  }

  /** Round key r of a key. */
  function RoundKey(b: Box, key: seq<Col>, r: nat): State
    requires KeyLen(|key|)
  {
    State(W(b, key, 4 * r), W(b, key, 4 * r + 1), W(b, key, 4 * r + 2), W(b, key, 4 * r + 3))
  }

  function RoundKeys(b: Box, key: seq<Col>): (ks: seq<State>)
    requires KeyLen(|key|)
    ensures |ks| == LastRound(|key|) + 1
  {
    seq(LastRound(|key|) + 1, r requires 0 <= r => RoundKey(b, key, r))
  }

  // ---- rounds by table ----

  /** The tables hold what they should for every byte. */
  ghost predicate TabsOk(b: Box, t: Tabs) { forall x :: EntryOk(b, t, x) }

  ghost predicate Full(m: map<Byte, Turned>) { forall x :: x in m }

  lemma TabsFull(b: Box, t: Tabs)
    requires TabsOk(b, t)
    ensures Full(t.fl) && Full(t.ft) && Full(t.il) && Full(t.it)
  {
    forall x ensures x in t.fl && x in t.ft && x in t.il && x in t.it {
      assert EntryOk(b, t, x);
    }
  }

  /** One lookup in each of four tables. */
  function FourOf(m: map<Byte, Turned>, x0: Byte, x1: Byte, x2: Byte, x3: Byte): Col
    requires Full(m)
  {
    Add(Add(Add(m[x0].t0, m[x1].t1), m[x2].t2), m[x3].t3)
  }

  /** The bytes that f_rn, and those that i_rn, look up for each column. */
  function Forwards(m: map<Byte, Turned>, s: State): State
    requires Full(m)
  {
    State(FourOf(m, s.c0.b0, s.c1.b1, s.c2.b2, s.c3.b3),
          FourOf(m, s.c1.b0, s.c2.b1, s.c3.b2, s.c0.b3),
          FourOf(m, s.c2.b0, s.c3.b1, s.c0.b2, s.c1.b3),
          FourOf(m, s.c3.b0, s.c0.b1, s.c1.b2, s.c2.b3))
  }

  function Backwards(m: map<Byte, Turned>, s: State): State
    requires Full(m)
  {
    State(FourOf(m, s.c0.b0, s.c3.b1, s.c2.b2, s.c1.b3),
          FourOf(m, s.c1.b0, s.c0.b1, s.c3.b2, s.c2.b3),
          FourOf(m, s.c2.b0, s.c1.b1, s.c0.b2, s.c3.b3),
          FourOf(m, s.c3.b0, s.c2.b1, s.c1.b2, s.c0.b3))
  }

  lemma FourIsMix(b: Box, t: Tabs, x0: Byte, x1: Byte, x2: Byte, x3: Byte)
    requires TabsOk(b, t)
    ensures Full(t.ft) && FourOf(t.ft, x0, x1, x2, x3) == Mix(Col(b.sub(x0), b.sub(x1), b.sub(x2), b.sub(x3)))
    ensures Full(t.it) && FourOf(t.it, x0, x1, x2, x3) == InvMix(Col(b.inv(x0), b.inv(x1), b.inv(x2), b.inv(x3)))
    ensures Full(t.fl) && FourOf(t.fl, x0, x1, x2, x3) == Col(b.sub(x0), b.sub(x1), b.sub(x2), b.sub(x3))
    ensures Full(t.il) && FourOf(t.il, x0, x1, x2, x3) == Col(b.inv(x0), b.inv(x1), b.inv(x2), b.inv(x3))
  {
    TabsFull(b, t);
    assert EntryOk(b, t, x0) && EntryOk(b, t, x1) && EntryOk(b, t, x2) && EntryOk(b, t, x3);
    hide Mix, InvMix, Add, Forward, Inverse, Last, Rol8;
    ForwardIsMix(b, x0, x1, x2, x3);
    InverseIsInvMix(b, x0, x1, x2, x3);
    LastIsPlain(b.sub(x0), b.sub(x1), b.sub(x2), b.sub(x3));
    LastIsPlain(b.inv(x0), b.inv(x1), b.inv(x2), b.inv(x3));
  }

  /** f_nround on the stored tables is a round of the cipher, f_lround the last one. */
  lemma TableRoundIs(b: Box, t: Tabs, s: State)
    requires TabsOk(b, t)
    ensures Full(t.ft) && Forwards(t.ft, s) == MixState(ShiftSub(s, b.sub))
    ensures Full(t.fl) && Forwards(t.fl, s) == ShiftSub(s, b.sub)
  {
    hide TabsOk, FourOf, Full, Mix;
    FourIsMix(b, t, s.c0.b0, s.c1.b1, s.c2.b2, s.c3.b3);
    FourIsMix(b, t, s.c1.b0, s.c2.b1, s.c3.b2, s.c0.b3);
    FourIsMix(b, t, s.c2.b0, s.c3.b1, s.c0.b2, s.c1.b3);
    FourIsMix(b, t, s.c3.b0, s.c0.b1, s.c1.b2, s.c2.b3);
  }

  /** i_nround and i_lround. */
  lemma TableUnroundIs(b: Box, t: Tabs, s: State)
    requires TabsOk(b, t)
    ensures Full(t.it) && Backwards(t.it, s) == InvMixState(UnshiftSub(s, b.inv))
    ensures Full(t.il) && Backwards(t.il, s) == UnshiftSub(s, b.inv)
  {
    hide TabsOk, FourOf, Full, InvMix;
    FourIsMix(b, t, s.c0.b0, s.c3.b1, s.c2.b2, s.c1.b3);
    FourIsMix(b, t, s.c1.b0, s.c0.b1, s.c3.b2, s.c2.b3);
    FourIsMix(b, t, s.c2.b0, s.c1.b1, s.c0.b2, s.c3.b3);
    FourIsMix(b, t, s.c3.b0, s.c2.b1, s.c1.b2, s.c0.b3);
  }

  /** ls_box */
  function LsBox(t: Tabs, c: Col): Col
    requires Full(t.fl)
  {
    FourOf(t.fl, c.b0, c.b1, c.b2, c.b3)
  }

  lemma LsBoxIs(b: Box, t: Tabs, c: Col)
    requires TabsOk(b, t)
    ensures Full(t.fl) && LsBox(t, c) == SubWord(b, c)
  {
    hide TabsOk, FourOf, Full;
    FourIsMix(b, t, c.b0, c.b1, c.b2, c.b3);
  }

  class AesCtx {
    ghost const box: Box        // what the tables stand for
    const tabs: Tabs
    const rco: seq<Byte>
    const buf: array<Col>
    var nk: nat
    ghost var key: seq<Col>

    /** The tables are those of gen_tabs. */
    ghost predicate Tabled() {
      && BoxOk(box) && TabsOk(box, tabs) && buf.Length == 120
      && |rco| == 10 && forall i :: 0 <= i < 10 ==> rco[i] == Rcon(i)
    }

    constructor (ghost b: Box, t: Tabs, r: seq<Byte>)
      requires BoxOk(b) && TabsOk(b, t) && |r| == 10 && forall i :: 0 <= i < 10 ==> r[i] == Rcon(i)
      ensures box == b && Tabled() && fresh(buf)
    {
      box, tabs, rco, nk, key := b, t, r, 0, [];
      buf := new Col[120](i => Col(ZERO, ZERO, ZERO, ZERO));
    }

    /** Every word of the encryption keys, and every transformed word of the decryption keys, that the
        rounds use. */
    ghost predicate Keyed()
      reads this, buf
    {
      && Tabled() && KeyLen(nk) && |key| == nk
      && (forall i :: 0 <= i < 4 * nk + 28 ==> buf[i] == W(box, key, i))
      && (forall i :: D <= i < D + 4 ==> buf[i] == W(box, key, i - D))
      && (forall i :: D + 4 <= i < D + 4 * nk + 24 ==> buf[i] == InvMix(W(box, key, i - D)))
    }

    /** One loop4, loop6 or loop8 step: the block of words after pos. */
    method ExpandStep(k: seq<Col>, i: nat, pos: nat)
      requires KeyLen(|k|) && Tabled() && i < Steps(|k|)
      requires pos == if |k| == 4 then 4 * i else if |k| == 6 then 6 * i else 8 * i
      requires forall j :: 0 <= j < pos + |k| ==> buf[j] == W(box, k, j)
      modifies buf
      ensures forall j :: 0 <= j < pos + |k| + |k| ==> buf[j] == W(box, k, j)
    {
      hide W, Add, SubWord, Rcon, Last, Ror8, BoxOk, TabsOk, FourOf, LsBox;
      var n := |k|;
      var t := buf[pos + n - 1];
      var j := 0;
      while j < n
        invariant 0 <= j <= n && t == W(box, k, pos + n + j - 1)
        invariant forall m :: 0 <= m < pos + n + j ==> buf[m] == W(box, k, m)
      {
        NextWord(box, k, i, j);
        if j == 0 {
          LsBoxIs(box, tabs, Ror8(t));
          t := Add(LsBox(tabs, Ror8(t)), Last(rco[i]));
        } else if n == 8 && j == 4 {
          LsBoxIs(box, tabs, t);
          t := LsBox(tabs, t);
        }
        t := Add(t, buf[pos + j]);
        buf[pos + n + j] := t;
        j := j + 1;
      }
    }

    /** The expansion.  With eight key words the last step writes four words past the 60 of the
        encryption keys. */
    method Expand(k: seq<Col>)
      requires KeyLen(|k|) && Tabled()
      modifies buf
      ensures forall j :: 0 <= j < 4 * |k| + 28 ==> buf[j] == W(box, k, j)
    {
      hide W, BoxOk, TabsOk;
      var n := |k|;
      var i := 0;
      while i < n
        invariant 0 <= i <= n && forall j :: 0 <= j < i ==> buf[j] == k[j]
      {
        buf[i] := k[i];
        i := i + 1;
      }
      FirstWords(box, k);
      var step, pos := 0, 0;
      while step < Steps(n)
        invariant 0 <= step <= Steps(n) && pos == if n == 4 then 4 * step else if n == 6 then 6 * step else 8 * step
        invariant forall j :: 0 <= j < pos + n ==> buf[j] == W(box, k, j)
      {
        ExpandStep(k, step, pos);
        step, pos := step + 1, pos + n;
      }
    }

    /** aes_set_key for a key of 16 to 32 bytes, the least and the most the algorithm registers */
    method SetKey(bytes: seq<Byte>) returns (ok: bool)
      requires 16 <= |bytes| <= 32 && Tabled()
      modifies this, buf
      ensures ok <==> |bytes| % 8 == 0
      ensures if ok then Keyed() && key == KeyWords(bytes) && Bytes(key) == bytes
              else nk == old(nk) && key == old(key) && buf[..] == old(buf[..])
    {
      hide W, Imix, InvMix, BoxOk, TabsOk, Rcon, Bytes;
      ok := |bytes| % 8 == 0;
      if !ok {
        return;
      }
      var k := KeyWords(bytes);
      WordsKeepBytes(bytes);
      Expand(k);
      nk, key := |k|, k;
      buf[D], buf[D + 1], buf[D + 2], buf[D + 3] := buf[0], buf[1], buf[2], buf[3];
      var i := 4;
      while i < 4 * nk + 24
        invariant 4 <= i <= 4 * nk + 24 && nk == |k| && key == k
        invariant forall j :: 0 <= j < 4 * nk + 28 ==> buf[j] == W(box, key, j)
        invariant forall j :: D <= j < D + 4 ==> buf[j] == W(box, key, j - D)
        invariant forall j :: D + 4 <= j < D + i ==> buf[j] == InvMix(W(box, key, j - D))
      {
        ImixIsInvMix(buf[i]);
        buf[D + i] := Imix(buf[i]);
        i := i + 1;
      }
    }

    /** The four words at a position of the buffer. */
    function KeyAt(i: nat): State
      requires i + 4 <= buf.Length
      reads buf
    {
      State(buf[i], buf[i + 1], buf[i + 2], buf[i + 3])
    }

    lemma EncryptionKey(r: nat)
      requires Keyed() && r <= LastRound(nk)
      ensures KeyAt(4 * r) == RoundKeys(box, key)[r]
    {
      hide W;
    }

    lemma DecryptionKey(r: nat)
      requires Keyed() && r < LastRound(nk)
      ensures KeyAt(D + 4 * r) == if r == 0 then RoundKeys(box, key)[0] else InvMixState(RoundKeys(box, key)[r])
    {
      hide W, InvMix;
    }

    /** aes_encrypt */
    method EncryptBlock(src: State) returns (dst: State)
      requires Keyed()
      ensures dst == Encrypt(box, RoundKeys(box, key), src)
    {
      hide RoundKeys, AddKey, Forwards, ShiftSub, MixState, Keyed, AesCtx.KeyAt, TabsOk, Full;
      KeySizes();
      ghost var ks := RoundKeys(box, key);
      EncryptionKey(0);
      dst := AddKey(src, KeyAt(0));
      var r, last := 1, LastRound(nk);
      while r < last
        invariant 1 <= r <= last && Rounds(box, ks[r..], dst) == Encrypt(box, ks, src)
      {
        EncryptionKey(r);
        TableRoundIs(box, tabs, dst);
        assert ks[r..][1..] == ks[r + 1..];
        dst := AddKey(Forwards(tabs.ft, dst), KeyAt(4 * r));
        r := r + 1;
      }
      EncryptionKey(last);
      TableRoundIs(box, tabs, dst);
      dst := AddKey(Forwards(tabs.fl, dst), KeyAt(4 * last));
    }

    lemma KeySizes()
      requires Keyed()
      ensures BoxOk(box) && TabsOk(box, tabs) && KeyLen(nk) && |key| == nk && buf.Length == 120 && LastRound(nk) >= 10
        && 4 * LastRound(nk) + 4 <= D
    {
    }

    /** aes_decrypt: it undoes aes_encrypt */
    method DecryptBlock(src: State) returns (dst: State)
      requires Keyed()
      ensures dst == Decrypt(box, RoundKeys(box, key), src)
      ensures forall p :: src == Encrypt(box, RoundKeys(box, key), p) ==> dst == p
    {
      hide RoundKeys, AddKey, Backwards, UnshiftSub, InvMixState, Keyed, AesCtx.KeyAt, Encrypt, BoxOk, TabsOk, Full;
      KeySizes();
      ghost var ks := RoundKeys(box, key);
      var last := LastRound(nk);
      EncryptionKey(last);
      dst := AddKey(src, KeyAt(4 * last));
      var r := last;
      assert ks[last..] == [ks[last]];
      while r > 1
        invariant 1 <= r <= last && dst == Unwound(box, ks[r..], src)
      {
        r := r - 1;
        DecryptionKey(r);
        TableUnroundIs(box, tabs, dst);
        assert ks[r..][1..] == ks[r + 1..];
        dst := AddKey(Backwards(tabs.it, dst), KeyAt(D + 4 * r));
      }
      DecryptionKey(0);
      TableUnroundIs(box, tabs, dst);
      dst := AddKey(Backwards(tabs.il, dst), KeyAt(D));
      forall p | src == Encrypt(box, ks, p) ensures dst == p {
        DecryptEncrypt(box, ks, p);
      }
    }
  }

  /** aes_init and a context: the tables that gen_tabs builds, which the rounds then look up, make the
      cipher that of the standard's S-box. */
  method NewContext() returns (ctx: AesCtx)
    ensures fresh(ctx) && fresh(ctx.buf) && ctx.Tabled() && forall x :: IsSub(x, ctx.box.sub(x))
  {
    hide IsSub, EntryOk, BoxOk;
    var b, t, rco := GenTabs();
    ctx := new AesCtx(b, t, rco);
  }

  lemma FirstWords(b: Box, k: seq<Col>)
    requires KeyLen(|k|)
    ensures forall j :: 0 <= j < |k| ==> W(b, k, j) == k[j]
  {
  }
}
