/** Machine words as the sets of their one bits: `|` is union, `&` is intersection, and a
    number is the word of its binary digits. */
module Words {
  import opened Positions

  type Word = set<nat>

  function Pow2(k: nat): (r: nat)
    ensures r > 0
  {
    if k == 0 then 1 else 2 * Pow2(k - 1)
  }

  function Up(w: Word): Word {
    set k | k in w :: k + 1
  }

  function Down(w: Word): Word {
    set k | k in w && k > 0 :: k - 1
  }

  /** The lowest `width` binary digits of `n`. */
  function Bits(n: nat, width: nat): Word
    decreases width
  {
    if width == 0 then {}
    else (if n % 2 == 1 then {0} else {}) + Up(Bits(n / 2, width - 1))
  }

  /** The number with the digits `w`, read up to `width`. */
  function Number(w: Word, width: nat): nat
    decreases width
  {
    if width == 0 then 0
    else (if 0 in w then 1 else 0) + 2 * Number(Down(w), width - 1)
  }

  function Shl(w: Word, k: nat, width: nat): Word {
    set i | i in w && i + k < width :: i + k
  }

  function Shr(w: Word, k: nat): Word {
    set i | i in w && k <= i :: i - k
  }

  function Not(w: Word, width: nat): Word {
    Range(0, width) - w
  }

  /** The width of a word less its leading zeros. */
  function BitLength(n: nat): nat {
    if n == 0 then 0 else 1 + BitLength(n / 2)
  }

  lemma BitsStep(n: nat, width: nat)
    requires width > 0
    ensures 0 in Bits(n, width) <==> n % 2 == 1
    ensures Down(Bits(n, width)) == Bits(n / 2, width - 1)
  {
    var up := Up(Bits(n / 2, width - 1));
    forall k | k in Bits(n / 2, width - 1)
      ensures k in Down(Bits(n, width))
    {
      assert k + 1 in up;
    }
  }

  /** Writing a number in binary and reading it back gives the number. */
  lemma {:induction false} NumberOfBits(n: nat, width: nat)
    requires n < Pow2(width)
    ensures Number(Bits(n, width), width) == n
    decreases width
  {
    if width > 0 {
      BitsStep(n, width);
      NumberOfBits(n / 2, width - 1);
    }
  }

  lemma {:induction false} BitsBelow(n: nat, width: nat, b: nat)
    requires b <= width
    ensures n < Pow2(b) ==> Bits(n, width) <= Range(0, b)
    decreases width
  {
    if b > 0 {
      BitsBelow(n / 2, width - 1, b - 1);
    } else if n == 0 {
      BitsOfZero(width);
    }
  }

  lemma {:induction false} BitsOfZero(width: nat)
    ensures Bits(0, width) == {}
  {
    if width > 0 {
      BitsOfZero(width - 1);
    }
  }

  lemma {:induction false} BitsWithin(n: nat, width: nat)
    ensures Bits(n, width) <= Range(0, width)
  {
    if width > 0 {
      BitsWithin(n / 2, width - 1);
    }
  }

  /** A multiple of `Pow2(p)` has no digit below `p`. */
  lemma {:induction false} BitsOfMultiple(q: nat, p: nat, width: nat)
    requires p <= width
    ensures Bits(q * Pow2(p), width) !! Range(0, p)
    decreases width
  {
    if p > 0 {
      var half := q * Pow2(p - 1);
      assert q * Pow2(p) == 2 * half;
      BitsOfMultiple(q, p - 1, width - 1);
    }
  }

  lemma FromDown(w: Word, p: nat)
    requires p > 0 && 0 in w && Down(w) == Range(0, p - 1)
    ensures w == Range(0, p)
  {
    forall k: nat ensures k in w <==> k in Range(0, p) {
      if k > 0 {
        assert k in w <==> k - 1 in Down(w);
      }
    }
  }

  predicate AreOnes(n: nat, p: nat, width: nat) {
    Bits(n, width) == Range(0, p)
  }

  lemma NoOnes(width: nat)
    ensures AreOnes(0, 0, width)
  {
    BitsOfZero(width);
  }

  /** Doubling a word of ones and adding one gives one more. */
  lemma OneMore(m: nat, n: nat, p: nat, width: nat)
    requires 0 < p && 0 < width && AreOnes(m, p - 1, width - 1) && n == 2 * m + 1
    ensures AreOnes(n, p, width)
  {
    BitsStep(n, width);
    assert n / 2 == m;
    FromDown(Bits(n, width), p);
  }

  /** `Pow2(p) - 1` is the word of `p` ones. */
  lemma {:induction false} BitsOfOnes(p: nat, width: nat)
    requires p <= width
    ensures AreOnes(Pow2(p) - 1, p, width)
    decreases width
  {
    if p == 0 {
      NoOnes(width);
    } else {
      var m, n := Pow2(p - 1) - 1, Pow2(p) - 1;
      assert n == 2 * m + 1;
      BitsOfOnes(p - 1, width - 1);
      OneMore(m, n, p, width);
    }
  }

  lemma {:induction false} BitLengthFits(n: nat, b: nat)
    ensures n < Pow2(BitLength(n))
    ensures n < Pow2(b) ==> BitLength(n) <= b
    decreases n
  {
    if n > 0 {
      BitLengthFits(n / 2, SatSub(b, 1));
    }
  }
}

/** The packed head word: a page-aligned block pointer, a slot index and the `has_next`
    hint share one word. */
module HeadCodec {
  import opened Positions
  import opened Words

  datatype Codec = Codec(width: nat, blockLength: nat, pointerMask: Word, indexMask: Word, hasNextMask: Word)

  /** A decoded head: the address of a block, 0 for none, an index and the hint. */
  datatype Head = Head(block: nat, index: nat, hasNext: bool)

  /** `HeadCodec::new` for words of `width` bits and pages of `Pow2(pageBits)` bytes; `None` if
      the assertion on the width of the tag fails. */
  function New(width: nat, pageBits: nat, blockLength: nat): Option<Codec> {
    var indexBits := BitLength(blockLength);
    if indexBits > pageBits then None
    else Some(Codec(width, blockLength,
                    Not(Bits(Pow2(pageBits) - 1, width), width),
                    Shr(Range(0, width), SatSub(width, indexBits)),
                    if indexBits < pageBits then Shl({0}, indexBits, width) else {}))
  }

  function FromUsize(word: Word, c: Codec): Head {
    Head(Number(word * c.pointerMask, c.width), Number(word * c.indexMask, c.width),
         c.hasNextMask != {} && word * c.hasNextMask != {})
  }

  function ToUsize(h: Head, c: Codec): Word {
    Bits(h.block, c.width) + (Bits(h.index, c.width) * c.indexMask) + (if h.hasNext then c.hasNextMask else {})
  }

  predicate IsZero(h: Head) {
    h.block == 0 && h.index == 0 && !h.hasNext
  }

  // ---------- the codec of a block ----------

  /** The masks of a codec with `b` index bits. */
  ghost predicate Fields(c: Codec, pageBits: nat, b: nat) {
    && 0 < b <= pageBits <= c.width && c.blockLength < Pow2(b)
    && c.pointerMask == Range(pageBits, c.width)
    && c.indexMask == Range(0, b)
    && c.hasNextMask == (if b < pageBits then {b} else {})
  }

  /** A block with fewer slots than its page has bytes never trips the assertion on the width
      of the tag; its masks are the page bits, the index bits and, if there is room, one more. */
  lemma NewSucceeds(width: nat, pageBits: nat, blockLength: nat)
    requires pageBits <= width && 0 < blockLength < Pow2(pageBits)
    ensures New(width, pageBits, blockLength).Some?
    ensures var c := New(width, pageBits, blockLength).value;
            && c.width == width && c.blockLength == blockLength
            && Fields(c, pageBits, BitLength(blockLength))
  {
    var b := BitLength(blockLength);
    BitLengthFits(blockLength, pageBits);
    BitsOfOnes(pageBits, width);
    assert Shr(Range(0, width), width - b) == Range(0, b) by {
      forall k | k in Range(0, b)
        ensures k in Shr(Range(0, width), width - b)
      {
        assert k + (width - b) in Range(0, width);
      }
    }
    assert b < pageBits ==> Shl({0}, b, width) == {b};
  }

  /** The heads the queue stores: a page-aligned address and an index up to and including the
      block length. */
  ghost predicate Storable(h: Head, c: Codec, pageBits: nat) {
    && h.block < Pow2(c.width) && (exists q: nat :: h.block == q * Pow2(pageBits))
    && h.index <= c.blockLength
  }

  lemma StoredFields(h: Head, c: Codec, pageBits: nat, b: nat)
    requires Fields(c, pageBits, b) && Storable(h, c, pageBits)
    ensures Bits(h.block, c.width) <= c.pointerMask && Number(Bits(h.block, c.width), c.width) == h.block
    ensures Bits(h.index, c.width) <= c.indexMask && Number(Bits(h.index, c.width), c.width) == h.index
  {
    var q: nat :| h.block == q * Pow2(pageBits);
    BitsOfMultiple(q, pageBits, c.width);
    BitsWithin(h.block, c.width);
    NumberOfBits(h.block, c.width);
    BitsBelow(h.index, c.width, b);
    PowMono(b, c.width);
    NumberOfBits(h.index, c.width);
  }

  lemma {:induction false} PowMono(a: nat, b: nat)
    requires a <= b
    ensures Pow2(a) <= Pow2(b)
  {
    if a < b {
      PowMono(a, b - 1);
    }
  }

  // ---------- the laws ----------

  /** Packing and unpacking gives back the block and every index up to the block length; the
      hint comes back too unless the word has no room for it. */
  lemma RoundTrip(h: Head, c: Codec, pageBits: nat, b: nat)
    requires Fields(c, pageBits, b) && Storable(h, c, pageBits)
    ensures FromUsize(ToUsize(h, c), c) == h.(hasNext := h.hasNext && c.hasNextMask != {})
  {
    StoredFields(h, c, pageBits, b);
    var w := ToUsize(h, c);
    assert w * c.pointerMask == Bits(h.block, c.width);
    assert w * c.indexMask == Bits(h.index, c.width);
    assert w * c.hasNextMask == if h.hasNext then c.hasNextMask else {};
  }

  /** Two stored heads have the same word exactly when they agree on block and index, and on
      the hint if the word has room for it. */
  lemma PackInjective(g: Head, h: Head, c: Codec, pageBits: nat, b: nat)
    requires Fields(c, pageBits, b) && Storable(g, c, pageBits) && Storable(h, c, pageBits)
    ensures ToUsize(g, c) == ToUsize(h, c) <==>
              g.block == h.block && g.index == h.index && (c.hasNextMask == {} || g.hasNext == h.hasNext)
  {
    RoundTrip(g, c, pageBits, b);
    RoundTrip(h, c, pageBits, b);
  }

  /** The word zero is the null head and no other. */
  lemma ZeroIsNull(h: Head, c: Codec, pageBits: nat, b: nat)
    requires Fields(c, pageBits, b) && Storable(h, c, pageBits) && (h.hasNext ==> c.hasNextMask != {})
    ensures ToUsize(h, c) == {} <==> IsZero(h)
  {
    var none := Head(0, 0, false);
    assert 0 == 0 * Pow2(pageBits);
    BitsOfZero(c.width);
    RoundTrip(h, c, pageBits, b);
    RoundTrip(none, c, pageBits, b);
    assert ToUsize(none, c) == {};
  }
}
