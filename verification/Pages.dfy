/** Slots, blocks and private chains as one thread of control works on them.

    Pages are reached through addresses, as the source reaches them through raw pointers: every
    dereference is a lookup in the map of allocated pages, so it verifies only if the page is
    still allocated there.
 */
module Pages {
  import opened Positions

  type Value(==, !new)

  /** What a slot receives: a value (`write`) or nothing (`skip`). */
  type Entry = Option<Value>

  /** A raw pointer to a page. */
  datatype Addr = Null | Page(number: nat)

  /** A slot's state byte together with its value cell. */
  datatype Slot = Vacant | Written(value: Value) | Skipped
  {
    /** What `read` yields once it stops waiting. */
    function Content(): Entry {
      if Written? then Some(value) else None
    }
  }

  /** `run` names the multi-page allocation a block belongs to, by its first page; a block without
      one stands alone. */
  datatype Block = Block(slots: seq<Slot>, next: Addr, consumed: nat, run: Option<nat>)

  type Heap = map<Addr, Block>

  /** The values among some entries, in order. */
  function Values(entries: seq<Entry>): seq<Value> {
    if entries == [] then [] else (if entries[0].Some? then [entries[0].value] else []) + Values(entries[1..])
  }

  function Contents(slots: seq<Slot>): seq<Entry> {
    seq(|slots|, i requires 0 <= i < |slots| => slots[i].Content())
  }

  lemma {:induction false} ValuesAppend(a: seq<Entry>, b: seq<Entry>)
    ensures Values(a + b) == Values(a) + Values(b)
  {
    if a == [] {
      assert a + b == b;
    } else {
      ValuesAppend(a[1..], b);
      assert (a + b)[1..] == a[1..] + b;
    }
  }

  predicate Clean(L: nat, b: Block) {
    |b.slots| == L && b.consumed == 0 && forall i :: 0 <= i < L ==> b.slots[i] == Vacant
  }

  predicate Differ(l: seq<Addr>, i: int, j: int) {
    0 <= i < j < |l| ==> l[i] != l[j]
  }

  ghost predicate Distinct(l: seq<Addr>) {
    forall i, j :: Differ(l, i, j)
  }

  /** The link of the page at place `j`: its successor, or null at the end. */
  predicate LinkAt(h: Heap, l: seq<Addr>, j: int) {
    0 <= j < |l| ==> l[j] in h && l[j] != Null && h[l[j]].next == if j + 1 < |l| then l[j + 1] else Null
  }

  ghost predicate Linked(h: Heap, l: seq<Addr>) {
    forall j :: LinkAt(h, l, j)
  }

  predicate CleanAt(L: nat, h: Heap, l: seq<Addr>, j: int) {
    0 <= j < |l| ==> l[j] in h && Clean(L, h[l[j]])
  }

  ghost predicate AllClean(L: nat, h: Heap, l: seq<Addr>) {
    forall j :: CleanAt(L, h, l, j)
  }

  predicate RunAt(h: Heap, l: seq<Addr>, run: Option<nat>, j: int) {
    0 <= j < |l| && l[j] in h ==> h[l[j]].run == run
  }

  /** All pages belong to the same allocation, or all stand alone. */
  ghost predicate AllOfRun(h: Heap, l: seq<Addr>, run: Option<nat>) {
    forall j :: RunAt(h, l, run, j)
  }

  /** The pages follow each other in memory, from page `base` on. */
  predicate Contiguous(l: seq<Addr>, base: nat) {
    forall j :: 0 <= j < |l| ==> l[j] == Page(base + j)
  }

  /** A terminally linked sequence of distinct pages that are as good as new.  (An equation, so
      that it is proved as a whole.) */
  ghost predicate Detached(L: nat, h: Heap, l: seq<Addr>) {
    (Distinct(l) && Linked(h, l) && AllClean(L, h, l)) == true
  }

  ghost function Of(l: seq<Addr>): set<Addr> {
    set a | a in l
  }

  lemma OfJoin(a: seq<Addr>, b: seq<Addr>)
    ensures Of(a + b) == Of(a) + Of(b)
  {
  }

  lemma EndsJoin(L: nat, a: seq<Addr>, b: seq<Addr>)
    requires a != [] && b != []
    ensures (a + b)[0] == a[0] && (a + b)[|a + b| - 1] == b[|b| - 1]
    ensures Base(L, |a + b|) == Base(L, |a|) + Base(L, |b|)
  {
    BaseAdd(L, |a|, |b|);
  }

  lemma MinusTwice(h: Heap, s: set<Addr>)
    ensures (h - s) - s == h - s
  {
  }

  lemma OutsideUpdate(h: Heap, a: Addr, b: Block, s: set<Addr>)
    requires a in s
    ensures h[a := b] - s == h - s
  {
  }

  lemma OutsideTwice(h0: Heap, h1: Heap, h2: Heap, s: set<Addr>, t: set<Addr>)
    requires h1 - s == h0 - s && h2 - t == h1 - t && s <= t
    ensures h2 - t == h0 - t
  {
    forall a | a !in t ensures (a in h2 <==> a in h0) && (a in h0 ==> h2[a] == h0[a]) {
      assert a in h2 <==> a in h2 - t;
      assert a in h1 <==> a in h1 - t;
      assert a in h1 <==> a in h1 - s;
      assert a in h0 <==> a in h0 - s;
      assert a in h0 ==> (h0 - s)[a] == h0[a] && (h1 - s)[a] == h1[a] && (h1 - t)[a] == h1[a] && (h2 - t)[a] == h2[a];
    }
  }

  /** A page fit for reuse. */
  predicate Spare(L: nat, h: Heap, a: Addr) {
    a != Null && a in h && Clean(L, h[a]) && h[a].next == Null && h[a].run == None
  }

  lemma DistinctJoin(a: seq<Addr>, b: seq<Addr>)
    requires Distinct(a) && Distinct(b) && Of(a) !! Of(b)
    ensures Distinct(a + b)
  {
    var c := a + b;
    forall i, j ensures Differ(c, i, j) {
      if 0 <= i < j < |c| {
        assert i < |a| <= j ==> a[i] in Of(a) && b[j - |a|] in Of(b);
        assert Differ(a, i, j) && Differ(b, i - |a|, j - |a|);
      }
    }
  }

  /** Setting the link of the last page of `a` to the first of `b` joins the two sequences. */
  lemma Joined(L: nat, h: Heap, a: seq<Addr>, b: seq<Addr>)
    requires Detached(L, h, a) && Detached(L, h, b) && Of(a) !! Of(b) && a != [] && b != []
    ensures var last := a[|a| - 1];
            last in h && Detached(L, h[last := h[last].(next := b[0])], a + b)
  {
    var last, c := a[|a| - 1], a + b;
    assert LinkAt(h, a, |a| - 1);
    var h' := h[last := h[last].(next := b[0])];
    DistinctJoin(a, b);
    LinkedJoin(h, a, b);
    forall j ensures CleanAt(L, h', c, j) {
      assert CleanAt(L, h, a, j) && CleanAt(L, h, b, j - |a|) && CleanAt(L, h, a, |a| - 1);
    }
  }

  lemma LinkedJoin(h: Heap, a: seq<Addr>, b: seq<Addr>)
    requires Linked(h, a) && Linked(h, b) && Distinct(a) && Of(a) !! Of(b) && a != [] && b != []
    ensures var last := a[|a| - 1];
            last in h && Linked(h[last := h[last].(next := b[0])], a + b)
  {
    var last, c := a[|a| - 1], a + b;
    assert LinkAt(h, a, |a| - 1);
    var h' := h[last := h[last].(next := b[0])];
    forall j ensures LinkAt(h', c, j) {
      if 0 <= j < |a| {
        assert c[j] == a[j] && LinkAt(h, a, j) && LinkAt(h, b, 0) && Differ(a, j, |a| - 1);
        assert c[j + 1] == if j + 1 < |a| then a[j + 1] else b[0];
      } else if |a| <= j < |c| {
        assert c[j] == b[j - |a|] && LinkAt(h, b, j - |a|);
        assert last in Of(a) && b[j - |a|] in Of(b);
        assert j + 1 < |c| ==> c[j + 1] == b[j + 1 - |a|];
      }
    }
  }

  lemma SamePage(h: Heap, h': Heap, l: seq<Addr>, s: set<Addr>, j: int)
    requires h' - s == h - s && Of(l) !! s && 0 <= j < |l| && l[j] in h
    ensures l[j] in h' && h'[l[j]] == h[l[j]]
  {
    assert l[j] in Of(l) && l[j] in h - s && (h - s)[l[j]] == h[l[j]] && (h' - s)[l[j]] == h'[l[j]];
  }

  lemma LinkedElsewhere(h: Heap, h': Heap, l: seq<Addr>, s: set<Addr>)
    requires Linked(h, l) && h' - s == h - s && Of(l) !! s
    ensures Linked(h', l)
  {
    forall j ensures LinkAt(h', l, j) {
      assert LinkAt(h, l, j);
      if 0 <= j < |l| {
        SamePage(h, h', l, s, j);
      }
    }
  }

  /** A sequence of pages does not feel changes elsewhere. */
  lemma DetachedElsewhere(L: nat, h: Heap, h': Heap, l: seq<Addr>, s: set<Addr>)
    requires Detached(L, h, l) && h' - s == h - s && Of(l) !! s
    ensures Detached(L, h', l)
  {
    LinkedElsewhere(h, h', l, s);
    forall j ensures CleanAt(L, h', l, j) {
      assert CleanAt(L, h, l, j);
      if 0 <= j < |l| {
        SamePage(h, h', l, s, j);
      }
    }
  }

  lemma DetachedOne(L: nat, h: Heap, a: Addr)
    requires a != Null && a in h && Clean(L, h[a]) && h[a].next == Null
    ensures Detached(L, h, [a])
  {
    assert Distinct([a]) && Linked(h, [a]) && AllClean(L, h, [a]);
  }

  lemma Allocated(L: nat, h: Heap, l: seq<Addr>)
    requires Detached(L, h, l)
    ensures Of(l) <= h.Keys
  {
    forall a | a in l ensures a in h {
      var j :| 0 <= j < |l| && l[j] == a;
      assert LinkAt(h, l, j);
    }
  }

  lemma {:induction false} NoValues(entries: seq<Entry>)
    requires forall i :: 0 <= i < |entries| ==> entries[i] == None
    ensures Values(entries) == []
  {
    if entries != [] {
      NoValues(entries[1..]);
    }
  }

  lemma NothingToDrop(L: nat, b: Block)
    requires Clean(L, b)
    ensures Values(Contents(b.slots[b.consumed..])) == []
  {
    NoValues(Contents(b.slots));
    assert b.slots[0..] == b.slots;
  }

  lemma Associative(a: seq<Addr>, b: seq<Addr>, c: seq<Addr>)
    ensures (a + b) + c == a + (b + c)
  {
  }

  /** The next page of an allocation is still free. */
  lemma StillFree(h: Heap, h': Heap, l: seq<Addr>, base: nat, a: Addr)
    requires Contiguous(l, base) && a == Page(base + |l|) && a !in h && h' - Of(l) == h
    ensures a !in h' && a !in Of(l)
  {
    assert a !in Of(l);
    assert a in h' ==> a in h' - Of(l);
  }

  /** `f` pooled blocks, taken only if needed, and the fewest new ones for what is then lacking
      overshoot by less than one block. */
  lemma LackIsMet(L: nat, n: nat, f: nat, k: nat, want: nat)
    requires f <= 1 && (f == 1 ==> Base(L, n) < want)
    requires if Base(L, n + f) < want then k > 0 && Base(L, k - 1) < want - Base(L, n + f) else k == 0
    ensures f + k > 0 ==> Base(L, n + f + k - 1) < want
  {
    if k > 0 {
      BaseAdd(L, n + f, k - 1);
      assert n + f + (k - 1) == n + f + k - 1;
    }
  }

  /** The allocated pages, and the values that freeing pages has dropped so far. */
  class Memory {
    var blocks: Heap
    var dropped: seq<Value>

    constructor ()
      ensures blocks == map[] && dropped == []
    {
      blocks := map[];
      dropped := [];
    }

    /** The first of `count` neighbouring pages that are free; which ones they are stays open. */
    method Alloc(count: nat) returns (base: nat)
      ensures forall n :: base <= n < base + count ==> Page(n) !in blocks
    {
      base := 0;
      var todo := blocks.Keys;
      while todo != {}
        invariant todo <= blocks.Keys
        invariant forall n :: base <= n && Page(n) in blocks ==> Page(n) in todo
      {
        var a :| a in todo;
        if a.Page? && a.number >= base {
          base := a.number + 1;
        }
        todo := todo - {a};
      }
    }

    /** `Block::new`. */
    method New(L: nat) returns (a: Addr)
      modifies this`blocks
      ensures a != Null && a !in old(blocks) && a in blocks && blocks == old(blocks)[a := blocks[a]]
      ensures Clean(L, blocks[a]) && blocks[a].next == Null && blocks[a].run == None
    {
      var n := Alloc(1);
      a := Page(n);
      InitAt(L, a, None);
    }

    /** `Block::initialize` and its slots, on a free page. */
    method InitAt(L: nat, a: Addr, run: Option<nat>)
      requires a !in blocks
      modifies this`blocks
      ensures a in blocks && blocks == old(blocks)[a := blocks[a]]
      ensures Clean(L, blocks[a]) && blocks[a].next == Null && blocks[a].run == run
    {
      blocks := blocks[a := Block(seq(L, _ => Vacant), Null, 0, run)];
    }

    method SetNext(a: Addr, next: Addr)
      requires a in blocks
      modifies this`blocks
      ensures blocks == old(blocks)[a := old(blocks)[a].(next := next)]
    {
      blocks := blocks[a := blocks[a].(next := next)];
    }

    /** `Slot::write` and `Slot::skip`. */
    method Put(a: Addr, i: nat, slot: Slot)
      requires a in blocks && i < |blocks[a].slots|
      modifies this`blocks
      ensures blocks == old(blocks)[a := old(blocks)[a].(slots := old(blocks)[a].slots[i := slot])]
    {
      blocks := blocks[a := blocks[a].(slots := blocks[a].slots[i := slot])];
    }

    /** `Block::reset`, slot by slot. */
    method Reset(L: nat, a: Addr)
      requires a in blocks && |blocks[a].slots| == L
      modifies this`blocks
      ensures a in blocks && blocks == old(blocks)[a := blocks[a]]
      ensures Clean(L, blocks[a]) && blocks[a].next == Null && blocks[a].run == old(blocks[a].run)
    {
      var slots, i := blocks[a].slots, 0;
      while i < L
        invariant 0 <= i <= L == |slots|
        invariant forall j :: 0 <= j < i ==> slots[j] == Vacant
      {
        slots := slots[i := Vacant];
        i := i + 1;
      }
      blocks := blocks[a := blocks[a].(slots := slots, next := Null, consumed := 0)];
    }

    /** `Block::consume`: true exactly when this call completes the block. */
    method Consume(L: nat, a: Addr, quantity: nat) returns (complete: bool)
      requires a in blocks
      modifies this`blocks
      ensures blocks == old(blocks)[a := old(blocks)[a].(consumed := old(blocks)[a].consumed + quantity)]
      ensures complete <==> blocks[a].consumed == L
    {
      var count := blocks[a].consumed + quantity;
      blocks := blocks[a := blocks[a].(consumed := count)];
      complete := count == L;
    }

    /** `Block::free`: drops the values written at or above the counter and gives the page back. */
    method Free(L: nat, a: Addr)
      requires a in blocks && |blocks[a].slots| == L && blocks[a].consumed <= L
      modifies this
      ensures blocks == old(blocks) - {a}
      ensures dropped == old(dropped) + Values(Contents(old(blocks[a].slots[blocks[a].consumed..])))
    {
      var b := blocks[a];
      var i := b.consumed;
      while i < L
        invariant b.consumed <= i <= L && blocks == old(blocks)
        invariant dropped + Values(Contents(b.slots[i..])) == old(dropped) + Values(Contents(b.slots[b.consumed..]))
      {
        assert Contents(b.slots[i..])[1..] == Contents(b.slots[i + 1..]);
        if b.slots[i].Written? {
          dropped := dropped + [b.slots[i].value];
        }
        i := i + 1;
      }
      blocks := blocks - {a};
    }
  }

  /** The blocks that one call holds for itself, in the order in which it would link them. */
  class BlockChain {
    const memory: Memory
    var root: Addr
    var tail: Addr
    var size: nat
    ghost var pages: seq<Addr>

    ghost predicate Ends(L: nat)
      reads this
    {
      && size == Base(L, |pages|)
      && (if pages == [] then root == Null && tail == Null
          else root != Null && root == pages[0] && tail == pages[|pages| - 1])
    }

    ghost predicate Valid(L: nat)
      reads this, memory`blocks
    {
      (Ends(L) && Detached(L, memory.blocks, pages)) == true
    }

    /** `BlockChain::zero`. */
    constructor (memory: Memory)
      ensures this.memory == memory && pages == [] && forall L :: Valid(L)
    {
      this.memory := memory;
      root, tail, size := Null, Null, 0;
      pages := [];
    }

    /** `BlockChain::new_with`: a chain of one block. */
    constructor With(L: nat, memory: Memory, a: Addr)
      requires a != Null && a in memory.blocks && Clean(L, memory.blocks[a]) && memory.blocks[a].next == Null
      ensures this.memory == memory && Valid(L) && pages == [a]
    {
      this.memory := memory;
      root, tail, size := a, a, L;
      pages := [a];
      DetachedOne(L, memory.blocks, a);
      assert Base(L, 1) == L;
    }

    /** `BlockChain::new`: the fewest new blocks that hold `size` slots; only a single one may
        later be pooled. */
    constructor New(L: nat, memory: Memory, size: nat)
      requires L > 0
      modifies memory`blocks
      ensures this.memory == memory && Valid(L) && size <= this.size
      ensures size > 0 ==> pages != [] && Base(L, |pages| - 1) < size
      ensures Of(pages) !! old(memory.blocks).Keys && memory.blocks - Of(pages) == old(memory.blocks)
      ensures size == 0 ==> pages == []
      ensures |pages| == 1 ==> AllOfRun(memory.blocks, pages, None)
      ensures |pages| > 1 ==> exists base :: Contiguous(pages, base) && AllOfRun(memory.blocks, pages, Some(base))
    {
      this.memory := memory;
      root, tail, this.size := Null, Null, 0;
      pages := [];
      new;
      PagesForIsExact(L, size);
      if size != 0 {
        var count := (size + L - 1) / L;
        if count == 1 {
          var a := memory.New(L);
          root, tail := a, a;
          pages := [a];
          DetachedOne(L, memory.blocks, a);
        } else {
          var base := NewRun(L, count);
        }
        this.size := count * L;
        BaseIsProduct(L, count);
      }
    }

    /** `Block::new_run`: `count` linked neighbouring pages of one allocation. */
    method NewRun(L: nat, count: nat) returns (base: nat)
      requires Valid(L) && pages == [] && count > 1
      modifies this, memory`blocks
      ensures Detached(L, memory.blocks, pages) && |pages| == count
      ensures root != Null && root == pages[0] && tail == pages[count - 1]
      ensures Of(pages) !! old(memory.blocks).Keys && memory.blocks - Of(pages) == old(memory.blocks)
      ensures Contiguous(pages, base) && AllOfRun(memory.blocks, pages, Some(base))
    {
      base := memory.Alloc(count);
      var i := 0;
      while i < count
        invariant i == |pages| <= count && Detached(L, memory.blocks, pages) && Contiguous(pages, base)
        invariant i > 0 ==> root != Null && root == pages[0] && tail == pages[i - 1]
        invariant Of(pages) !! old(memory.blocks).Keys && memory.blocks - Of(pages) == old(memory.blocks)
        invariant AllOfRun(memory.blocks, pages, Some(base))
      {
        ghost var before := memory.blocks;
        var a := Page(base + i);
        StillFree(old(memory.blocks), before, pages, base, a);
        Allocated(L, before, pages);
        memory.InitAt(L, a, Some(base));
        DetachedElsewhere(L, before, memory.blocks, pages, {a});
        DetachedOne(L, memory.blocks, a);
        OfJoin(pages, [a]);
        assert memory.blocks - Of(pages + [a]) == old(memory.blocks);
        if i == 0 {
          root := a;
        } else {
          Joined(L, memory.blocks, pages, [a]);
          OutsideUpdate(memory.blocks, tail, memory.blocks[tail].(next := a), Of(pages + [a]));
          memory.SetNext(tail, a);
        }
        tail := a;
        ghost var l := pages;
        pages := pages + [a];
        forall j ensures RunAt(memory.blocks, pages, Some(base), j) {
          assert RunAt(before, l, Some(base), j) && LinkAt(before, l, j);
        }
        i := i + 1;
      }
    }

    /** `give`: moves the blocks of `other` behind those of this chain. */
    method Give(L: nat, other: BlockChain)
      requires Valid(L) && other.Valid(L) && this != other && memory == other.memory
      requires Of(pages) !! Of(other.pages)
      modifies this, other, memory`blocks
      ensures Valid(L) && pages == old(pages) + old(other.pages) && size == old(size) + old(other.size)
      ensures other.pages == [] && other.Ends(L)
      ensures memory.blocks.Keys == old(memory.blocks.Keys) && memory.blocks - Of(pages) == old(memory.blocks) - Of(pages)
    {
      if other.root == Null {
        return;
      }
      if root == Null {
        root, tail, size := other.root, other.tail, other.size;
        pages := other.pages;
      } else {
        Append(L, other);
      }
      other.root, other.tail, other.size := Null, Null, 0;
      other.pages := [];
    }

    method Append(L: nat, other: BlockChain)
      requires Valid(L) && other.Valid(L) && this != other && memory == other.memory
      requires Of(pages) !! Of(other.pages) && pages != [] && other.pages != []
      modifies this, memory`blocks
      ensures Valid(L) && pages == old(pages) + other.pages && size == old(size) + other.size
      ensures memory.blocks.Keys == old(memory.blocks.Keys) && memory.blocks - Of(pages) == old(memory.blocks) - Of(pages)
    {
      EndsJoin(L, pages, other.pages);
      Joined(L, memory.blocks, pages, other.pages);
      OutsideUpdate(memory.blocks, tail, memory.blocks[tail].(next := other.root), Of(pages + other.pages));
      memory.SetNext(tail, other.root);
      tail := other.tail;
      size := size + other.size;
      pages := pages + other.pages;
    }

    /** Takes the pooled page if the chain is too short. */
    method TakePooled(L: nat, want: nat, pool: Addr) returns (left: Addr)
      requires Valid(L) && (pool != Null ==> Spare(L, memory.blocks, pool) && pool !in pages)
      modifies this, memory`blocks
      ensures Valid(L) && left == (if old(size) < want then Null else pool)
      ensures pages == old(pages) + if old(size) < want && pool != Null then [pool] else []
      ensures memory.blocks.Keys == old(memory.blocks.Keys) && memory.blocks - Of(pages) == old(memory.blocks) - Of(pages)
    {
      left := pool;
      if size < want {
        left := Null;
        if pool != Null {
          var single := new BlockChain.With(L, memory, pool);
          Give(L, single);
        }
      }
    }

    /** Allocates what the chain still lacks. */
    method Extend(L: nat, want: nat) returns (ghost more: seq<Addr>)
      requires Valid(L) && L > 0
      modifies this, memory`blocks
      ensures Valid(L) && pages == old(pages) + more && want <= size
      ensures if old(size) < want then more != [] && Base(L, |more| - 1) < want - old(size) else more == []
      ensures Of(more) !! old(memory.blocks).Keys
      ensures memory.blocks - Of(pages) == old(memory.blocks) - Of(pages)
    {
      more := [];
      if size < want {
        ghost var before := memory.blocks;
        var extra := new BlockChain.New(L, memory, want - size);
        more := extra.pages;
        Allocated(L, before, pages);
        DetachedElsewhere(L, before, memory.blocks, pages, Of(more));
        ghost var mid := memory.blocks;
        Give(L, extra);
        OfJoin(old(pages), more);
        OutsideTwice(before, mid, memory.blocks, Of(more), Of(pages));
      }
    }

    /** `grow_to_fit_with`: capacity for `want` slots, from the pool first, and no block more than
        that takes. */
    method GrowToFitWith(L: nat, want: nat, pool: Addr) returns (left: Addr, ghost more: seq<Addr>)
      requires Valid(L) && L > 0 && (pool != Null ==> Spare(L, memory.blocks, pool) && pool !in pages)
      modifies this, memory`blocks
      ensures Valid(L) && pages == old(pages) + more
      ensures want <= size && (old(size) >= want ==> more == [])
      ensures left == (if old(size) < want then Null else pool) && (left != pool ==> more != [] && more[0] == pool)
      ensures more != [] ==> Base(L, |pages| - 1) < want
      ensures Of(more) * old(memory.blocks).Keys == if left != pool then {pool} else {}
      ensures memory.blocks - Of(pages) == old(memory.blocks) - Of(pages)
    {
      left := TakePooled(L, want, pool);
      ghost var h, l := memory.blocks, pages;
      ghost var first := if left != pool then [pool] else [];
      more := Extend(L, want);
      OfJoin(l, more);
      OutsideTwice(old(memory.blocks), h, memory.blocks, Of(l), Of(pages));
      Associative(old(pages), first, more);
      LackIsMet(L, |old(pages)|, |first|, |more|, want);
      more := first + more;
    }

    /** Empties the chain and hands out its parts. */
    method Take(L: nat) returns (r: Addr, t: Addr, n: nat, ghost taken: seq<Addr>)
      requires Ends(L)
      modifies this
      ensures pages == [] && Ends(L) && taken == old(pages)
      ensures (r, t, n) == old((root, tail, size))
    {
      r, t, n, taken := root, tail, size, pages;
      root, tail, size := Null, Null, 0;
      pages := [];
    }

    /** Undoes `Take`. */
    method GiveBack(r: Addr, t: Addr, n: nat, ghost taken: seq<Addr>)
      requires pages == []
      modifies this
      ensures root == r && tail == t && size == n && pages == taken
    {
      root, tail, size := r, t, n;
      pages := taken;
    }

    /** `Drop for BlockChain`: frees every page of the chain; none of them holds a value. */
    method Drop(L: nat)
      requires Valid(L)
      modifies this, memory
      ensures memory.dropped == old(memory.dropped) && pages == [] && Ends(L)
      ensures memory.blocks == old(memory.blocks) - Of(old(pages))
    {
      var at := root;
      root, tail, size := Null, Null, 0;
      ghost var i, l, h, gone: set<Addr> := 0, pages, memory.blocks, {};
      pages := [];
      while at != Null
        invariant 0 <= i <= |l| && if i < |l| then at == l[i] else at == Null
        invariant memory.dropped == old(memory.dropped) && pages == [] && Ends(L)
        invariant memory.blocks == h - gone
        invariant forall j :: 0 <= j < |l| ==> (l[j] in gone <==> j < i)
        invariant forall a :: a in gone ==> a in l
        decreases |l| - i
      {
        assert LinkAt(h, l, i) && LinkAt(h, l, i + 1) && CleanAt(L, h, l, i);
        forall j | 0 <= j < |l| && j != i ensures l[j] != l[i] {
          assert Differ(l, i, j) && Differ(l, j, i);
        }
        var next := memory.blocks[at].next;
        NothingToDrop(L, memory.blocks[l[i]]);
        memory.Free(L, at);
        gone := gone + {l[i]};
        at := next;
        i := i + 1;
      }
      assert LinkAt(h, l, i);
      assert gone == Of(l);
    }
  }
}
