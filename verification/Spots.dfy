/** Where crypto/blkcipher.c puts its scratch blocks in the buffer it has allocated. */
module Spots {
  import opened CbcSpec
  import opened Scatter

  /** What crypto_check_alg demands of block size and alignment; the alignment is a power of two. */
  predicate AlgSizes(bs: nat, align: nat) {
    0 < bs && 8 * bs <= PAGE && 0 < align && PAGE % align == 0 && bs % align == 0
  }

  /** ALIGN */
  function Aligned(a: nat, align: nat): (r: nat)
    requires align > 0
    ensures a <= r < a + align
  {
    if a % align == 0 then a else a + align - a % align
  }

  /** blkcipher_get_spot: a block that would reach the end of its page starts on the next one. */
  function Spot(start: nat, len: nat): (r: nat)
    ensures start <= r <= start + len
  {
    if (start + len) % PAGE < len then start + len - (start + len) % PAGE else start
  }

  /** The output and the input block of blkcipher_next_slow, and the initial vector of
      blkcipher_copy_iv behind them. */
  function OutSpot(buffer: nat, bs: nat, align: nat): nat
    requires align > 0
  {
    Spot(Aligned(buffer, align), bs)
  }

  function InSpot(buffer: nat, bs: nat, align: nat): nat
    requires align > 0
  {
    Spot(OutSpot(buffer, bs, align) + bs, bs)
  }

  function IvSpot(buffer: nat, bs: nat, align: nat): nat
    requires align > 0
  {
    Spot(InSpot(buffer, bs, align) + bs, bs)
  }

  /** The blocks lie in the size bytes of the buffer. */
  predicate SpotsFit(buffer: nat, size: nat, bs: nat, align: nat)
    requires align > 0
  {
    InSpot(buffer, bs, align) + bs <= buffer + size
  }

  predicate IvFits(buffer: nat, size: nat, bs: nat, align: nat)
    requires align > 0
  {
    IvSpot(buffer, bs, align) + bs <= buffer + size
  }

  /** They are in this order and share no byte. */
  lemma SpotsApart(buffer: nat, bs: nat, align: nat)
    requires align > 0
    ensures buffer <= OutSpot(buffer, bs, align)
    ensures OutSpot(buffer, bs, align) + bs <= InSpot(buffer, bs, align)
    ensures InSpot(buffer, bs, align) + bs <= IvSpot(buffer, bs, align)
  {
  }

  /** What is skipped of the page when two blocks are laid out from page offset o on: nothing if both
      end before it does, else what the blocks that do so leave of it. */
  function SkippedByTwo(o: nat, bs: nat): int {
    if o + 2 * bs < PAGE then 0 else if o + bs < PAGE then PAGE - (o + bs) else PAGE - o
  }

  function SkippedByThree(o: nat, bs: nat): int {
    if o + 3 * bs < PAGE then 0 else if o + 2 * bs < PAGE then PAGE - (o + 2 * bs) else SkippedByTwo(o, bs)
  }

  /** Two blocks fit exactly when the padding and what is skipped at a page end fit in what was
      allocated beyond them. */
  lemma SpotsFitIff(buffer: nat, bs: nat, align: nat, slack: nat)
    requires AlgSizes(bs, align)
    ensures SpotsFit(buffer, 2 * bs + slack, bs, align) <==>
            Aligned(buffer, align) - buffer + SkippedByTwo(Aligned(buffer, align) % PAGE, bs) <= slack
  {
    var a := Aligned(buffer, align);
    var o := a % PAGE;
    SpotSkips(a, o, bs);
  }

  /** The same for the two blocks and the initial vector. */
  lemma IvFitsIff(buffer: nat, bs: nat, align: nat, slack: nat)
    requires AlgSizes(bs, align)
    ensures IvFits(buffer, 3 * bs + slack, bs, align) <==>
            Aligned(buffer, align) - buffer + SkippedByThree(Aligned(buffer, align) % PAGE, bs) <= slack
  {
    var a := Aligned(buffer, align);
    var o := a % PAGE;
    SpotSkips(a, o, bs);
  }

  lemma SpotSkips(a: nat, o: nat, bs: nat)
    requires 0 < bs && 8 * bs <= PAGE && o == a % PAGE
    ensures Spot(Spot(a, bs) + bs, bs) == a + bs + SkippedByTwo(o, bs)
    ensures Spot(Spot(Spot(a, bs) + bs, bs) + bs, bs) == a + 2 * bs + SkippedByThree(o, bs)
  {
    var p := a / PAGE;
    assert a == p * PAGE + o;
    SpotAt(p, o, bs);
    if o + bs < PAGE {
      SpotAt(p, o + bs, bs);
      if o + 2 * bs < PAGE {
        SpotAt(p, o + 2 * bs, bs);
      } else {
        SpotAt(p + 1, bs, bs);
      }
    } else {
      SpotAt(p + 1, bs, bs);
      SpotAt(p + 1, 2 * bs, bs);
    }
  }

  lemma SpotAt(p: nat, o: nat, bs: nat)
    requires 0 < bs && 8 * bs <= PAGE && o < PAGE
    ensures Spot(p * PAGE + o, bs) == if o + bs < PAGE then p * PAGE + o else (p + 1) * PAGE
  {
    var e := o + bs;
    if e < PAGE {
      assert (p * PAGE + e) % PAGE == e;
    } else {
      assert ((p + 1) * PAGE + (e - PAGE)) % PAGE == e - PAGE;
    }
  }

  /** Without slack, on a buffer that is aligned: exactly when both blocks end before the page does. */
  lemma PlainFitsIff(buffer: nat, bs: nat, align: nat)
    requires AlgSizes(bs, align) && buffer % align == 0
    ensures SpotsFit(buffer, 2 * bs, bs, align) <==> buffer % PAGE + 2 * bs < PAGE
  {
    SpotsFitIff(buffer, bs, align, 0);
  }

  /** A buffer whose second block ends with the page: AES blocks of 16 bytes, alignment 4. */
  lemma EndOfPageMisses()
    ensures AlgSizes(16, 4) && !SpotsFit(4064, 2 * 16, 16, 4) && InSpot(4064, 16, 4) == 4064 + 2 * 16
  {
  }

  /** A page of its own holds the blocks wherever it is. */
  lemma PageFits(p: nat, bs: nat, align: nat)
    requires AlgSizes(bs, align)
    ensures SpotsFit(p * PAGE, PAGE, bs, align)
  {
    MultipleAligned(p, PAGE / align, align);
    assert (p * PAGE) % PAGE == 0;
    SpotsFitIff(p * PAGE, bs, align, PAGE - 2 * bs);
  }

  lemma MultipleAligned(p: nat, k: nat, align: nat)
    requires align > 0 && PAGE == k * align
    ensures (p * PAGE) % align == 0
  {
    assert p * PAGE == (p * k) * align;
    ModUnique(p * PAGE, align, p * k, 0);
  }
}
