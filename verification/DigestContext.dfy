/** crypto/md5.c and crypto/sha1.c: contexts with a 64-byte buffer. */
module DigestContext {
  import opened DigestSpec

  /** memcpy into a block. */
  method Copy(block: array<byte>, at: nat, data: seq<byte>)
    requires at + |data| <= block.Length
    modifies block
    ensures block[..] == old(block[..at]) + data + old(block[at + |data|..])
  {
    var i := 0;
    while i < |data|
      invariant i <= |data|
      invariant block[..] == old(block[..at]) + data[..i] + old(block[at + i..])
    {
      block[at + i] := data[i];
      i := i + 1;
    }
  }

  class HashCtx {
    const alg: Alg
    var hash: Hash
    const block: array<byte>
    var count: nat
    ghost var message: seq<byte>

    constructor (a: Alg)
      ensures alg == a && fresh(block)
    {
      alg := a;
      block := new byte[64](i => 0);
      hash, count, message := a.iv, 0, [];
    }

    /** The chaining value and the front of the buffer hold the message. */
    ghost predicate Holds()
      reads `hash, `message, block
    {
      block.Length == 64 && hash == Fold(alg, alg.iv, message) && block[..|message| % 64] == Tail(message)
    }

    ghost predicate Valid()
      reads this, block
    {
      Holds() && count == |message| % LONG
    }

    /** md5_init, sha1_init */
    method Init()
      requires block.Length == 64
      modifies this
      ensures Valid() && message == []
    {
      hash, count, message := alg.iv, 0, [];
    }

    /** Bytes that only wait in the buffer. */
    method Wait(at: nat, d: seq<byte>)
      requires Holds() && at == |message| % 64 && at + |d| < 64
      modifies block, `message
      ensures Holds() && message == old(message) + d
    {
      hide Fold, Tail;
      TailSize(message);
      Copy(block, at, d);
      assert block[..at + |d|] == Tail(message) + d;
      AbsorbShort(alg, message, d);
      TailAppend(message, d);
      message := message + d;
    }

    /** Bytes that complete the buffer, and its transformation. */
    method Finish(at: nat, d: seq<byte>)
      requires Holds() && at == |message| % 64 && at + |d| == 64
      modifies block, `hash, `message
      ensures Holds() && message == old(message) + d && |message| % 64 == 0
    {
      hide Fold, Tail, Step;
      TailSize(message);
      Copy(block, at, d);
      assert block[..] == Tail(message) + d;
      AbsorbBlock(alg, message, d);
      hash := Step(alg, hash, block[..]);
      message := message + d;
    }

    /** A block taken straight from the input. */
    method Direct(d: seq<byte>)
      requires Holds() && |message| % 64 == 0 && |d| == 64
      modifies `hash, `message
      ensures Holds() && message == old(message) + d && |message| % 64 == 0
    {
      hide Fold, Tail, Step;
      WholeTail(message);
      assert Tail(message) + d == d;
      AbsorbBlock(alg, message, d);
      hash := Step(alg, hash, d);
      message := message + d;
    }

    /** md5_update */
    method UpdateMd5(data: seq<byte>)
      requires Valid() && |data| < WORD
      modifies this, block
      ensures Valid() && message == old(message) + data
    {
      hide Fold, Tail, Holds;
      Sized();
      CountLow(|message|);
      CountAdds(|message|, |data|);
      var avail := 64 - count % 64;
      count := (count + |data|) % LONG;
      if avail > |data| {
        Wait(64 - avail, data);
        return;
      }
      Finish(64 - avail, data[..avail]);
      var at := avail;
      while |data| - at >= 64
        invariant Holds() && avail <= at <= |data| && message == old(message) + data[..at] && |message| % 64 == 0
        invariant count == |old(message) + data| % LONG
      {
        Finish(0, data[at..at + 64]);
        assert data[..at + 64] == data[..at] + data[at..at + 64];
        at := at + 64;
      }
      Wait(0, data[at..]);
      assert data == data[..at] + data[at..];
    }

    lemma Sized()
      requires Holds()
      ensures block.Length == 64
    {
    }

    /** sha1_update, for lengths at which partial + len stays within 32 bits */
    method UpdateSha1(data: seq<byte>)
      requires Valid() && |message| % 64 + |data| < WORD
      modifies this, block
      ensures Valid() && message == old(message) + data
    {
      hide Fold, Tail, Holds;
      Sized();
      CountLow(|message|);
      CountAdds(|message|, |data|);
      var partial := count % 64;
      count := (count + |data|) % LONG;
      var done := 0;
      if partial + |data| > 63 {
        var first := true;
        if partial != 0 {
          done := -partial;
          Finish(partial, data[..done + 64]);
          done := done + 64;
          first := false;
        }
        while first || done + 63 < |data|
          invariant Holds() && 0 <= done <= |data| && message == old(message) + data[..done] && |message| % 64 == 0
          invariant count == |old(message) + data| % LONG && (first ==> done == 0 && 64 <= |data|)
          decreases |data| - done
        {
          Direct(data[done..done + 64]);
          assert data[..done + 64] == data[..done] + data[done..done + 64];
          done, first := done + 64, false;
        }
        partial := 0;
      }
      Wait(partial, data[done..]);
      assert data == data[..done] + data[done..];
    }

    /** memset of the buffer from a position on. */
    method Clear(at: nat, n: nat)
      requires block.Length == 64 && at + n <= 64
      modifies block
      ensures block[..] == old(block[..at]) + Zeros(n) + old(block[at + n..])
    {
      Copy(block, at, Zeros(n));
    }

    /** md5_final: the marker, zeros, and the length as two words; the bytes of the digest come out. */
    method FinalMd5() returns (out: seq<byte>)
      requires Valid() && alg.little
      modifies this, block
      ensures out == Digest(alg, old(message))
    {
      hide Fold, Tail, Step, Words, Zeros;
      ghost var m := message;
      CountLow(|m|);
      TailSize(m);
      var offset := count % 64;
      block[offset] := 0x80;
      assert block[..offset + 1] == Tail(m) + [0x80];
      var padding := 55 - offset;
      var at := offset + 1;
      if padding < 0 {
        Clear(at, padding + 8);
        ZerosSize(padding + 8);
        assert block[..] == Tail(m) + [0x80] + Zeros(63 - offset);
        hash := Step(alg, hash, block[..]);
        at, padding := 0, 56;
      }
      ghost var front := block[..at];
      Clear(at, padding);
      ZerosSize(padding);
      assert block[..56] == front + Zeros(padding);
      LastWords(alg, hash, block[..56], |m|);
      var words := Words(true, block[..56]) + [8 * count % WORD, count / 0x2000_0000 % WORD];
      hash := alg.g(hash, words);
      if |m| % 64 < 56 {
        LastBlock(alg, m);
      } else {
        LastTwoBlocks(alg, m);
        assert front + Zeros(56) == Zeros(56);
      }
      out := Out(true, hash);
      hash, count := [], 0;
    }

    /** sha1_final: the padding and the length go through sha1_update. */
    method FinalSha1() returns (out: seq<byte>)
      requires Valid() && !alg.little
      modifies this, block
      ensures out == Digest(alg, old(message))
    {
      hide Fold, Tail, Zeros, LongBytes, Holds;
      ghost var m := message;
      CountLow(|m|);
      BitsAgree(|m|);
      var bits := LongBytes(false, 8 * count % LONG);
      LongSize(false, 8 * count % LONG);
      var index := count % 64;
      var padlen := if index < 56 then 56 - index else 120 - index;
      ZerosSize(padlen - 1);
      UpdateSha1([0x80] + Zeros(padlen - 1));
      UpdateSha1(bits);
      assert message == Padded(false, m);
      HoldsFold();
      out := Out(false, hash);
      hash, count := [], 0;
    }

    lemma HoldsFold()
      requires Holds()
      ensures hash == Fold(alg, alg.iv, message)
    {
    }

    /** dia_update and dia_final of the algorithm. */
    method Update(data: seq<byte>)
      requires Valid() && |data| < WORD - 64
      modifies this, block
      ensures Valid() && message == old(message) + data
    {
      hide Holds;
      if alg.little {
        UpdateMd5(data);
      } else {
        UpdateSha1(data);
      }
    }

    method Final() returns (out: seq<byte>)
      requires Valid()
      modifies this, block
      ensures out == Digest(alg, old(message))
    {
      hide Holds, Digest;
      if alg.little {
        out := FinalMd5();
      } else {
        out := FinalSha1();
      }
    }
  }

  /** sha1_update decides on a 32-bit sum.  Below 64 it copies everything behind the waiting bytes, and
      that fits the block exactly when the sum has not wrapped around. */
  lemma ShortFitsIff(partial: nat, len: nat)
    requires partial < 64 && len < WORD
    ensures ((partial + len) % WORD < 64 ==> partial + len <= 64) <==> partial + len < WORD
  {
  }

  lemma TailSize(m: seq<byte>)
    ensures |Tail(m)| == |m| % 64
  {
  }

  lemma ZerosSize(n: nat)
    ensures |Zeros(n)| == n
  {
  }

  /** The two words md5_final writes are those of the padding's length bytes. */
  lemma LastWords(a: Alg, h: Hash, front: seq<byte>, n: nat)
    requires a.little && |front| == 56
    ensures a.g(h, Words(true, front) + [8 * (n % LONG) % WORD, n % LONG / 0x2000_0000 % WORD])
         == Step(a, h, front + LongBytes(true, 8 * n % LONG))
  {
    hide Words, LongBytes;
    BitCount(n);
    WordsAppend(true, front, LongBytes(true, 8 * n % LONG));
    LongWords(8 * n % LONG);
    SmallMod(8 * n % LONG);
  }

  lemma SmallMod(v: nat)
    requires v < LONG
    ensures v / WORD % WORD == v / WORD
  {
  }
}
