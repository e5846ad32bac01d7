/** Global slot positions.

    Blocks are numbered in the order in which they are linked (their serial
    number) and every block holds `L` slots.  Slot `i` of block `k` has global
    position `Base(L, k) + i`.  `Base` is the product `k * L`, written as a
    recursion so that proofs stay within linear arithmetic.
 */
module Positions {

  datatype Option<+T> = None | Some(value: T)

  /** The position of slot 0 of block `k`. */
  function Base(L: nat, k: nat): nat {
    if k == 0 then 0 else Base(L, k - 1) + L
  }

  function Min(a: int, b: int): int {
    if a <= b then a else b
  }

  /** Rust's `saturating_sub` on `usize`. */
  function SatSub(a: nat, b: nat): nat {
    if a <= b then 0 else a - b
  }

  lemma {:induction false} BaseIsProduct(L: nat, k: nat)
    ensures Base(L, k) == k * L
  {
    if k > 0 {
      BaseIsProduct(L, k - 1);
      assert (k - 1) * L + L == k * L;
    }
  }

  lemma {:induction false} BaseMono(L: nat, j: nat, k: nat)
    requires j <= k
    ensures Base(L, j) <= Base(L, k)
    ensures j < k ==> Base(L, j) + L <= Base(L, k)
  {
    if j < k {
      BaseMono(L, j, k - 1);
    }
  }

  lemma {:induction false} BaseAdd(L: nat, j: nat, k: nat)
    ensures Base(L, j + k) == Base(L, j) + Base(L, k)
  {
    if k > 0 {
      BaseAdd(L, j, k - 1);
      assert j + k - 1 == j + (k - 1);
    }
  }

  lemma {:induction false} BaseGrows(L: nat, n: nat)
    requires L > 0
    ensures n <= Base(L, n)
  {
    if n > 0 {
      BaseGrows(L, n - 1);
    }
  }

  /** A position below `Base(L, k)` lies in a block before `k`. */
  lemma BlockBefore(L: nat, j: nat, i: nat, k: nat)
    requires Base(L, j) + i < Base(L, k)
    ensures j < k
  {
    if k <= j {
      BaseMono(L, k, j);
    }
  }

  /** A position determines its block and its index. */
  lemma PositionUnique(L: nat, j: nat, i: nat, k: nat, m: nat)
    requires i < L && m < L
    requires Base(L, j) + i == Base(L, k) + m
    ensures j == k && i == m
  {
    if j < k {
      BaseMono(L, j, k);
    } else if k < j {
      BaseMono(L, k, j);
    }
  }

  /** The blocks `BlockChain::new(size)` allocates. */
  function PagesFor(L: nat, size: nat): nat
    requires L > 0
  {
    (size + L - 1) / L
  }

  /** `BlockChain::new` allocates the fewest blocks that hold `size` slots. */
  lemma PagesForIsExact(L: nat, size: nat)
    requires L > 0
    ensures size <= Base(L, PagesFor(L, size))
    ensures size > 0 ==> PagesFor(L, size) > 0 && Base(L, PagesFor(L, size) - 1) < size
    ensures size == 0 ==> PagesFor(L, size) == 0
  {
    var n := PagesFor(L, size);
    BaseIsProduct(L, n);
    assert size + L - 1 == n * L + (size + L - 1) % L;
    assert n == 0 ==> n * L == 0;
    assert n > 0 ==> Base(L, n) == Base(L, n - 1) + L;
  }

  predicate Within(lo: nat, p: nat, hi: nat) {
    lo <= p < hi
  }

  /** The positions `lo, ..., hi - 1`. */
  function Range(lo: nat, hi: nat): (r: set<nat>)
    ensures forall p :: p in r <==> lo <= p < hi
  {
    set p | 0 <= p < hi && Within(lo, p, hi)
  }

  lemma {:induction false} RangeSize(lo: nat, hi: nat)
    requires lo <= hi
    ensures |Range(lo, hi)| == hi - lo
    decreases hi - lo
  {
    if lo < hi {
      RangeSize(lo, hi - 1);
      assert Range(lo, hi) == Range(lo, hi - 1) + {hi - 1};
    }
  }

  lemma {:induction false} SubsetSize<A>(a: set<A>, b: set<A>)
    requires a <= b
    ensures |a| <= |b|
    ensures |a| == |b| ==> a == b
  {
    assert b == a + (b - a);
    assert |b| == |a| + |b - a|;
  }

  /** The positions of `spent` that lie in block `k`. */
  function Part(L: nat, spent: set<nat>, k: nat): (r: set<nat>)
    ensures forall p :: p in r <==> p in spent && Base(L, k) <= p < Base(L, k) + L
  {
    set p | p in spent && Base(L, k) <= p < Base(L, k) + L
  }

  lemma PartFull(L: nat, spent: set<nat>, k: nat)
    ensures |Part(L, spent, k)| <= L
    ensures |Part(L, spent, k)| == L <==> Range(Base(L, k), Base(L, k) + L) <= spent
  {
    var full := Range(Base(L, k), Base(L, k) + L);
    RangeSize(Base(L, k), Base(L, k) + L);
    SubsetSize(Part(L, spent, k), full);
    if full <= spent {
      assert Part(L, spent, k) == full;
    }
  }

  /** Adding a fresh range inside block `k` adds its length to block `k` only. */
  lemma PartAdd(L: nat, spent: set<nat>, k: nat, lo: nat, hi: nat)
    requires Base(L, k) <= lo <= hi <= Base(L, k) + L
    requires Range(lo, hi) !! spent
    ensures |Part(L, spent + Range(lo, hi), k)| == |Part(L, spent, k)| + (hi - lo)
    ensures forall j: nat :: j != k ==> Part(L, spent + Range(lo, hi), j) == Part(L, spent, j)
  {
    RangeSize(lo, hi);
    assert Part(L, spent + Range(lo, hi), k) == Part(L, spent, k) + Range(lo, hi);
    forall j: nat | j != k
      ensures Part(L, spent + Range(lo, hi), j) == Part(L, spent, j)
    {
      if j < k {
        BaseMono(L, j, k);
      } else {
        BaseMono(L, k, j);
      }
    }
  }
}
