/** The layout of a block in one page. */
module BlockLayout {
  import opened Positions
  import opened Words
  import HeadCodec

  /** A Rust type layout: a size and the binary logarithm of an alignment, with the size a
      multiple of the alignment. */
  datatype TypeLayout = TypeLayout(size: nat, alignBits: nat)

  ghost predicate IsLayout(t: TypeLayout) {
    exists q: nat :: t.size == q * Pow2(t.alignBits)
  }

  function RoundUp(n: nat, align: nat): nat
    requires align > 0
  {
    (n + align - 1) / align * align
  }

  /** `SLOTS_OFFSET`: where the first slot starts behind the header. */
  function SlotsOffset(header: TypeLayout, slot: TypeLayout): nat {
    RoundUp(header.size, Pow2(slot.alignBits))
  }

  /** Zero-sized values still get distinct, aligned slots. */
  function SlotStride(slot: TypeLayout): (r: nat)
    ensures r > 0
  {
    if slot.size > Pow2(slot.alignBits) then slot.size else Pow2(slot.alignBits)
  }

  /** `slots_len` as a function of the cache key. */
  function SlotsLen(page: nat, offset: nat, stride: nat): nat
    requires stride > 0
  {
    SatSub(page, offset) / stride
  }

  /** `BlockLayout::new`: the number of slots, or `None` if one of its assertions fails. */
  function New(pageBits: nat, header: TypeLayout, slot: TypeLayout): Option<nat> {
    var page, offset, stride := Pow2(pageBits), SlotsOffset(header, slot), SlotStride(slot);
    if header.alignBits > pageBits || slot.alignBits > pageBits then None
    else if offset >= page then None
    else if SlotsLen(page, offset, stride) == 0 then None
    else Some(SlotsLen(page, offset, stride))
  }

  /** `slot_ptr`: the address of slot `i` of a block at `base`. */
  function SlotPtr(base: nat, header: TypeLayout, slot: TypeLayout, i: nat): nat {
    base + SlotsOffset(header, slot) + i * SlotStride(slot)
  }

  ghost predicate Multiple(n: nat, a: nat) {
    exists q: nat :: n == q * a
  }

  lemma MultipleSum(m: nat, n: nat, a: nat)
    requires Multiple(m, a) && Multiple(n, a)
    ensures Multiple(m + n, a)
  {
    var p: nat, q: nat :| m == p * a && n == q * a;
    assert m + n == (p + q) * a;
  }

  lemma MultipleTimes(n: nat, a: nat, i: nat)
    requires Multiple(n, a)
    ensures Multiple(i * n, a)
  {
    var q: nat :| n == q * a;
    assert i * n == (i * q) * a;
  }

  lemma {:induction false} PowDivides(a: nat, b: nat)
    requires a <= b
    ensures Multiple(Pow2(b), Pow2(a))
  {
    if a == b {
      assert Pow2(b) == 1 * Pow2(a);
    } else {
      PowDivides(a, b - 1);
      MultipleTimes(Pow2(b - 1), Pow2(a), 2);
    }
  }

  lemma RoundUpIsLeast(n: nat, a: nat)
    requires a > 0
    ensures Multiple(RoundUp(n, a), a) && n <= RoundUp(n, a) < n + a
  {
    var q := (n + a - 1) / a;
    assert n + a - 1 == q * a + (n + a - 1) % a;
  }

  lemma QuotientBounds(n: nat, d: nat)
    requires d > 0
    ensures (n / d) * d <= n < (n / d + 1) * d
  {
    assert n == (n / d) * d + n % d;
  }

  lemma TimesMono(a: nat, b: nat, d: nat)
    requires a <= b
    ensures a * d <= b * d
  {
  }

  /** The slots of a page-aligned block are aligned, disjoint, inside the page, and as many as
      the page can hold. */
  lemma SlotsAreSound(pageBits: nat, header: TypeLayout, slot: TypeLayout, base: nat, i: nat)
    requires IsLayout(slot) && New(pageBits, header, slot).Some?
    requires Multiple(base, Pow2(pageBits)) && i < New(pageBits, header, slot).value
    ensures Multiple(SlotPtr(base, header, slot, i), Pow2(slot.alignBits))
    ensures base + header.size <= SlotPtr(base, header, slot, i)
    ensures SlotPtr(base, header, slot, i) + slot.size <= SlotPtr(base, header, slot, i + 1) <= base + Pow2(pageBits)
    ensures base + Pow2(pageBits) < SlotPtr(base, header, slot, New(pageBits, header, slot).value + 1)
  {
    var align, offset, stride := Pow2(slot.alignBits), SlotsOffset(header, slot), SlotStride(slot);
    var len := New(pageBits, header, slot).value;
    RoundUpIsLeast(header.size, align);
    assert align == 1 * align;
    SlotAligned(pageBits, header, slot, base, i);
    QuotientBounds(Pow2(pageBits) - offset, stride);
    TimesMono(i + 1, len, stride);
    assert (i + 1) * stride == i * stride + stride;
  }

  lemma SlotAligned(pageBits: nat, header: TypeLayout, slot: TypeLayout, base: nat, i: nat)
    requires IsLayout(slot) && slot.alignBits <= pageBits && Multiple(base, Pow2(pageBits))
    ensures Multiple(SlotPtr(base, header, slot, i), Pow2(slot.alignBits))
  {
    var align := Pow2(slot.alignBits);
    PowDivides(slot.alignBits, pageBits);
    var q: nat :| base == q * Pow2(pageBits);
    MultipleTimes(Pow2(pageBits), align, q);
    RoundUpIsLeast(header.size, align);
    MultipleSum(base, SlotsOffset(header, slot), align);
    assert align == 1 * align;
    assert Multiple(SlotStride(slot), align);
    MultipleTimes(SlotStride(slot), align, i);
    MultipleSum(base + SlotsOffset(header, slot), i * SlotStride(slot), align);
  }

  // ---------- no other layout holds more slots ----------

  lemma Difference(m: nat, n: nat, a: nat)
    requires Multiple(m, a) && Multiple(n, a) && m <= n && a > 0
    ensures Multiple(n - m, a)
  {
    var p: nat, q: nat :| m == p * a && n == q * a;
    if q < p {
      TimesMono(q + 1, p, a);
    }
    assert n - m == (q - p) * a;
  }

  /** Two multiples of `a` are at least `a` apart, or equal. */
  lemma NextMultiple(m: nat, n: nat, a: nat)
    requires Multiple(m, a) && Multiple(n, a) && m < n && a > 0
    ensures m + a <= n
  {
    Difference(m, n, a);
    var q: nat :| n - m == q * a;
    if q > 0 {
      TimesMono(1, q, a);
    }
  }

  /** The first aligned address behind the header. */
  lemma OffsetIsLeast(header: TypeLayout, slot: TypeLayout, offset: nat)
    requires Multiple(offset, Pow2(slot.alignBits)) && header.size <= offset
    ensures SlotsOffset(header, slot) <= offset
  {
    RoundUpIsLeast(header.size, Pow2(slot.alignBits));
    if offset < SlotsOffset(header, slot) {
      NextMultiple(offset, SlotsOffset(header, slot), Pow2(slot.alignBits));
    }
  }

  /** The bytes that a slot has to itself: its size, and at least one, so that slots are distinct. */
  function Room(slot: TypeLayout): nat {
    if slot.size > 0 then slot.size else 1
  }

  /** The smallest distance between two aligned slots. */
  lemma StrideIsLeast(slot: TypeLayout, m: nat, n: nat)
    requires Multiple(m, Pow2(slot.alignBits)) && Multiple(n, Pow2(slot.alignBits)) && m + Room(slot) <= n
    ensures m + SlotStride(slot) <= n
  {
    NextMultiple(m, n, Pow2(slot.alignBits));
  }

  /** Slots at aligned offsets in the page, behind the header, each with its bytes to itself. */
  ghost predicate Placed(page: nat, header: TypeLayout, slot: TypeLayout, at: seq<nat>) {
    && (forall i :: 0 <= i < |at| ==> Multiple(at[i], Pow2(slot.alignBits)))
    && (|at| > 0 ==> header.size <= at[0] && at[|at| - 1] + Room(slot) <= page)
    && forall i, j :: 0 <= i < j < |at| && j == i + 1 ==> at[i] + Room(slot) <= at[j]
  }

  lemma {:induction false} PlacedBehind(page: nat, header: TypeLayout, slot: TypeLayout, at: seq<nat>, i: nat)
    requires Placed(page, header, slot, at) && i < |at|
    ensures SlotsOffset(header, slot) + i * SlotStride(slot) <= at[i]
  {
    if i == 0 {
      OffsetIsLeast(header, slot, at[0]);
    } else {
      PlacedBehind(page, header, slot, at, i - 1);
      StrideIsLeast(slot, at[i - 1], at[i]);
      assert i * SlotStride(slot) == (i - 1) * SlotStride(slot) + SlotStride(slot);
    }
  }

  lemma FitsByQuotient(room: nat, stride: nat, n: nat)
    requires stride > 0 && n * stride <= room
    ensures n <= room / stride
  {
    QuotientBounds(room, stride);
    if room / stride < n {
      TimesMono(room / stride + 1, n, stride);
    }
  }

  /** However slots are placed in a page, it holds no more of them than `BlockLayout::new` says,
      and none at all if its assertions about room fail. */
  lemma NoLayoutHoldsMore(pageBits: nat, header: TypeLayout, slot: TypeLayout, at: seq<nat>)
    requires header.alignBits <= pageBits && slot.alignBits <= pageBits
    requires Placed(Pow2(pageBits), header, slot, at)
    ensures |at| <= if New(pageBits, header, slot).Some? then New(pageBits, header, slot).value else 0
  {
    if at != [] {
      var page, offset, stride, n := Pow2(pageBits), SlotsOffset(header, slot), SlotStride(slot), |at|;
      PlacedBehind(page, header, slot, at, n - 1);
      PowDivides(slot.alignBits, pageBits);
      StrideIsLeast(slot, at[n - 1], page);
      assert n * stride == (n - 1) * stride + stride;
      FitsByQuotient(page - offset, stride, n);
    }
  }

  /** The offsets at which `slot_ptr` places the slots of a block. */
  function Offsets(header: TypeLayout, slot: TypeLayout, n: nat): seq<nat> {
    seq(n, i requires 0 <= i => SlotPtr(0, header, slot, i))
  }

  lemma OffsetIsPlaced(pageBits: nat, header: TypeLayout, slot: TypeLayout, i: nat)
    requires IsLayout(slot) && New(pageBits, header, slot).Some? && i < New(pageBits, header, slot).value
    ensures Multiple(SlotPtr(0, header, slot, i), Pow2(slot.alignBits)) && header.size <= SlotPtr(0, header, slot, i)
    ensures SlotPtr(0, header, slot, i) + Room(slot) <= SlotPtr(0, header, slot, i + 1) <= Pow2(pageBits)
  {
    assert 0 == 0 * Pow2(pageBits);
    SlotsAreSound(pageBits, header, slot, 0, i);
    assert (i + 1) * SlotStride(slot) == i * SlotStride(slot) + SlotStride(slot);
  }

  /** The slots of a block are one such placement, so it has as many as a page can hold. */
  lemma SlotsArePlaced(pageBits: nat, header: TypeLayout, slot: TypeLayout)
    requires IsLayout(slot) && New(pageBits, header, slot).Some?
    ensures Placed(Pow2(pageBits), header, slot, Offsets(header, slot, New(pageBits, header, slot).value))
  {
    var at := Offsets(header, slot, New(pageBits, header, slot).value);
    forall i | 0 <= i < |at| ensures Multiple(at[i], Pow2(slot.alignBits)) {
      OffsetIsPlaced(pageBits, header, slot, i);
    }
    forall i, j | 0 <= i < j < |at| && j == i + 1 ensures at[i] + Room(slot) <= at[j] {
      OffsetIsPlaced(pageBits, header, slot, i);
    }
    OffsetIsPlaced(pageBits, header, slot, 0);
    OffsetIsPlaced(pageBits, header, slot, |at| - 1);
  }

  /** The constructor succeeds exactly when alignments are within the page and one slot fits. */
  lemma FitsIffOneSlotFits(pageBits: nat, header: TypeLayout, slot: TypeLayout)
    ensures New(pageBits, header, slot).Some? <==>
              && header.alignBits <= pageBits && slot.alignBits <= pageBits
              && SlotsOffset(header, slot) + SlotStride(slot) <= Pow2(pageBits)
  {
    var offset, stride := SlotsOffset(header, slot), SlotStride(slot);
    QuotientBounds(SatSub(Pow2(pageBits), offset), stride);
    if SatSub(Pow2(pageBits), offset) / stride >= 1 {
      TimesMono(1, SatSub(Pow2(pageBits), offset) / stride, stride);
    }
  }

  /** A block holds fewer slots than its page has bytes, so its packed head always has room
      for the index: the assertion in `HeadCodec::new` cannot fail. */
  lemma CodecAlwaysFits(width: nat, pageBits: nat, header: TypeLayout, slot: TypeLayout)
    requires header.size > 0 && pageBits <= width && New(pageBits, header, slot).Some?
    ensures New(pageBits, header, slot).value < Pow2(pageBits)
    ensures HeadCodec.New(width, pageBits, New(pageBits, header, slot).value).Some?
  {
    var len := New(pageBits, header, slot).value;
    RoundUpIsLeast(header.size, Pow2(slot.alignBits));
    QuotientBounds(Pow2(pageBits) - SlotsOffset(header, slot), SlotStride(slot));
    TimesMono(1, SlotStride(slot), len);
    HeadCodec.NewSucceeds(width, pageBits, len);
  }
}
