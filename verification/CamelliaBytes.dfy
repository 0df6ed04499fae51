/** crypto/camellia.c: the bytes of a key as the 128-bit quantities RFC 3713 speaks of. */
module CamelliaBytes {
  import opened CamelliaSpec
  import opened CamelliaSetup

  /** The number the bytes spell, most significant first. */
  function Big(s: seq<bv8>): bv128 {
    if s == [] then 0 else Then8(Big(s[..|s| - 1]), s[|s| - 1])
  }

  function Then8(v: bv128, x: bv8): bv128 { (v << 8) | (x as bv128) }

  function Then32(v: bv128, w: bv32): bv128 { (v << 32) | (w as bv128) }

  lemma BigNext(s: seq<bv8>, x: bv8)
    ensures Big(s + [x]) == Then8(Big(s), x)
  {
    hide Then8;
    assert (s + [x])[..|s|] == s;
  }

  lemma FourShifts(v: bv128, a: bv8, b: bv8, c: bv8, d: bv8)
    ensures Then8(Then8(Then8(Then8(v, a), b), c), d) == Then32(v, Word(a, b, c, d))
  {
  }

  /** Four bytes make a word. */
  lemma BigWord(s: seq<bv8>, a: bv8, b: bv8, c: bv8, d: bv8)
    ensures Big(s + [a, b, c, d]) == Then32(Big(s), Word(a, b, c, d))
  {
    hide Word, Then8, Then32, Big;
    BigNext(s, a);
    BigNext(s + [a], b);
    BigNext(s + [a] + [b], c);
    BigNext(s + [a] + [b] + [c], d);
    assert s + [a, b, c, d] == s + [a] + [b] + [c] + [d];
    FourShifts(Big(s), a, b, c, d);
  }

  lemma FourWords(a: bv32, b: bv32, c: bv32, d: bv32)
    ensures Then32(Then32(Then32(Then32(Big([]), a), b), c), d) == Join(Half(a, b), Half(c, d))
  {
  }

  /** GETU32 four times over: KL and KR are the numbers the key bytes spell, in the order they come. */
  lemma BlockIsBytes(key: seq<bv8>, i: nat)
    requires i + 16 <= |key|
    ensures Join(BlockAt(key, i).d1, BlockAt(key, i).d2) == Big(key[i..i + 16])
  {
    hide Word, Join, Big, Then32;
    var k := key[i..i + 16];
    var (s1, s2, s3) := (k[..4], k[..8], k[..12]);
    assert [] + [k[0], k[1], k[2], k[3]] == s1;
    assert s1 + [k[4], k[5], k[6], k[7]] == s2;
    assert s2 + [k[8], k[9], k[10], k[11]] == s3;
    assert s3 + [k[12], k[13], k[14], k[15]] == k;
    BigWord([], k[0], k[1], k[2], k[3]);
    BigWord(s1, k[4], k[5], k[6], k[7]);
    BigWord(s2, k[8], k[9], k[10], k[11]);
    BigWord(s3, k[12], k[13], k[14], k[15]);
    FourWords(Word(k[0], k[1], k[2], k[3]), Word(k[4], k[5], k[6], k[7]),
              Word(k[8], k[9], k[10], k[11]), Word(k[12], k[13], k[14], k[15]));
  }
}
