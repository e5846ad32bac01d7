/** One bucket of the lock-free layout cache, under any interleaving of any number of lookups. */
module LayoutCache {
  import opened Positions
  import opened Words
  import opened BlockLayout

  /** The cache key of a block type. */
  datatype Key = Key(offset: nat, stride: nat)

  /** A pointer to a published node: 0 is null, `p` is the `p`-th node ever published. */
  type Ptr = nat

  datatype Node = Node(key: Key, slotsLen: nat, next: Ptr)

  /** The program points of `Block::layout`. */
  datatype Lookup =
    | Begin(key: Key)
    | Scan(key: Key, head: Ptr, cached: Ptr)
    | Push(key: Key, head: Ptr, mine: Node)
    | Rescan(key: Key, head: Ptr, mine: Node, current: Ptr, cached: Ptr)
    | Found(key: Key, slotsLen: nat)
    | Panicked(key: Key)

  datatype Bucket = Bucket(pageBits: nat, nodes: seq<Node>, head: Ptr, lookups: seq<Lookup>)

  /** The number of slots as the key alone gives it; 0 if not one fits. */
  function Fresh(pageBits: nat, key: Key): nat {
    if key.stride == 0 then 0 else SlotsLen(Pow2(pageBits), key.offset, key.stride)
  }

  function KeyOf(header: TypeLayout, slot: TypeLayout): Key {
    Key(SlotsOffset(header, slot), SlotStride(slot))
  }

  /** The key decides what `BlockLayout::new` returns for a block type, and whether one of its
      assertions fails, those on the alignments included. */
  lemma KeyDecides(pageBits: nat, header: TypeLayout, slot: TypeLayout)
    requires IsLayout(header) && header.size > 0
    ensures New(pageBits, header, slot) ==
            var n := Fresh(pageBits, KeyOf(header, slot)); if n > 0 then Some(n) else None
  {
    var page, offset, stride := Pow2(pageBits), SlotsOffset(header, slot), SlotStride(slot);
    RoundUpIsLeast(header.size, Pow2(slot.alignBits));
    if header.alignBits > pageBits {
      TooWide(pageBits, header);
    }
    if slot.alignBits > pageBits {
      PowGrows(pageBits, slot.alignBits);
    }
    if offset >= page || stride > page {
      NoSlot(page, offset, stride);
    }
  }

  /** A type aligned to more than a page is larger than a page. */
  lemma TooWide(pageBits: nat, t: TypeLayout)
    requires IsLayout(t) && t.size > 0 && t.alignBits > pageBits
    ensures t.size > Pow2(pageBits)
  {
    PowGrows(pageBits, t.alignBits);
    var q: nat :| t.size == q * Pow2(t.alignBits);
    TimesMono(1, q, Pow2(t.alignBits));
  }

  lemma NoSlot(page: nat, offset: nat, stride: nat)
    requires stride > 0 && (offset >= page || stride > page)
    ensures SlotsLen(page, offset, stride) == 0
  {
  }

  lemma {:induction false} PowGrows(a: nat, b: nat)
    requires a < b
    ensures Pow2(a) < Pow2(b)
  {
    if a + 1 < b {
      PowGrows(a, b - 1);
    }
  }

  /** Dereferences a published node. */
  predicate Published(b: Bucket, p: Ptr) {
    0 < p <= |b.nodes|
  }

  function Set(b: Bucket, id: nat, l: Lookup): Bucket
    requires id < |b.lookups|
  {
    b.(lookups := b.lookups[id := l])
  }

  /** One atomic step of lookup `id`. */
  function Step(b: Bucket, id: nat): Bucket
    requires id < |b.lookups|
  {
    match b.lookups[id]
    case Begin(key) => Set(b, id, Scan(key, b.head, b.head))
    case Scan(key, head, cached) =>
      if cached == 0 then
        Set(b, id, if Fresh(b.pageBits, key) == 0 then Panicked(key)
                   else Push(key, head, Node(key, Fresh(b.pageBits, key), head)))
      else if !Published(b, cached) then b
      else if b.nodes[cached - 1].key == key then
        Set(b, id, Found(key, b.nodes[cached - 1].slotsLen))
      else
        Set(b, id, Scan(key, head, b.nodes[cached - 1].next))
    case Push(key, head, mine) =>
      if b.head == head then
        Set(b.(nodes := b.nodes + [mine], head := |b.nodes| + 1), id, Found(key, mine.slotsLen))
      else
        Set(b, id, Rescan(key, head, mine, b.head, b.head))
    case Rescan(key, head, mine, current, cached) =>
      if cached == head then
        Set(b, id, Push(key, current, mine.(next := current)))
      else if !Published(b, cached) then b
      else if b.nodes[cached - 1].key == key then
        Set(b, id, Found(key, b.nodes[cached - 1].slotsLen))
      else
        Set(b, id, Rescan(key, head, mine, current, b.nodes[cached - 1].next))
    case Found(_, _) => b
    case Panicked(_) => b
  }

  ghost predicate Next(b: Bucket, b': Bucket) {
    || (exists key :: b' == b.(lookups := b.lookups + [Begin(key)]))
    || (exists id :: 0 <= id < |b.lookups| && b' == Step(b, id))
  }

  predicate Initial(b: Bucket) {
    b.nodes == [] && b.head == 0 && b.lookups == []
  }

  // ---------- the invariant ----------

  /** No node among the `lo`-th up to the `hi`-th published has the key. */
  predicate Absent(b: Bucket, key: Key, lo: Ptr, hi: Ptr) {
    forall j :: lo <= j < hi && j < |b.nodes| ==> b.nodes[j].key != key
  }

  ghost predicate LookupOk(b: Bucket, l: Lookup) {
    match l
    case Begin(_) => true
    case Scan(key, head, cached) => cached <= head <= |b.nodes| && Absent(b, key, cached, head)
    case Push(key, head, mine) =>
      && head <= |b.nodes| && Absent(b, key, 0, head)
      && mine == Node(key, Fresh(b.pageBits, key), head) && mine.slotsLen > 0
    case Rescan(key, head, mine, current, cached) =>
      && head <= cached <= current <= |b.nodes| && Absent(b, key, 0, head) && Absent(b, key, cached, current)
      && mine == Node(key, Fresh(b.pageBits, key), head) && mine.slotsLen > 0
    case Found(key, slotsLen) => slotsLen == Fresh(b.pageBits, key) > 0
    case Panicked(key) => Fresh(b.pageBits, key) == 0
  }

  ghost predicate Inv(b: Bucket) {
    && b.head == |b.nodes|
    && (forall j :: 0 <= j < |b.nodes| ==>
          b.nodes[j].next == j && b.nodes[j].slotsLen == Fresh(b.pageBits, b.nodes[j].key) > 0)
    && (forall i, j :: 0 <= i < j < |b.nodes| ==> b.nodes[i].key != b.nodes[j].key)
    && (forall id :: 0 <= id < |b.lookups| ==> LookupOk(b, b.lookups[id]))
  }

  /** What lookups know stays true when nodes are only added. */
  lemma Stable(b: Bucket, b': Bucket, l: Lookup)
    requires LookupOk(b, l) && b.nodes <= b'.nodes && b'.pageBits == b.pageBits
    ensures LookupOk(b', l)
  {
  }

  lemma Stays(b: Bucket, b': Bucket, id: nat)
    requires Inv(b) && id < |b.lookups| == |b'.lookups| && b.nodes <= b'.nodes && b'.pageBits == b.pageBits
    requires forall j :: 0 <= j < |b.lookups| && j != id ==> b'.lookups[j] == b.lookups[j]
    requires LookupOk(b', b'.lookups[id])
    ensures forall j :: 0 <= j < |b'.lookups| ==> LookupOk(b', b'.lookups[j])
  {
    forall j | 0 <= j < |b'.lookups|
      ensures LookupOk(b', b'.lookups[j])
    {
      if j != id {
        Stable(b, b', b.lookups[j]);
      }
    }
  }

  lemma PublishKeeps(b: Bucket, id: nat)
    requires Inv(b) && id < |b.lookups| && b.lookups[id].Push? && b.head == b.lookups[id].head
    ensures Inv(Step(b, id))
  {
    assert LookupOk(b, b.lookups[id]);
    Stays(b, Step(b, id), id);
  }

  lemma QuietKeeps(b: Bucket, id: nat)
    requires Inv(b) && id < |b.lookups| && (b.lookups[id].Push? ==> b.head != b.lookups[id].head)
    ensures Inv(Step(b, id)) && Step(b, id).nodes == b.nodes
  {
    assert LookupOk(b, b.lookups[id]);
    Stays(b, Step(b, id), id);
  }

  lemma StepKeeps(b: Bucket, id: nat)
    requires Inv(b) && id < |b.lookups|
    ensures Inv(Step(b, id)) && b.nodes <= Step(b, id).nodes && Step(b, id).pageBits == b.pageBits
  {
    if b.lookups[id].Push? && b.head == b.lookups[id].head {
      PublishKeeps(b, id);
    } else {
      QuietKeeps(b, id);
    }
  }

  ghost predicate IsRun(run: seq<Bucket>) {
    && |run| > 0 && Initial(run[0])
    && forall i :: 0 < i < |run| ==> Next(run[i - 1], run[i])
  }

  lemma NextKeeps(b: Bucket, b': Bucket)
    requires Inv(b) && Next(b, b')
    ensures Inv(b') && b.nodes <= b'.nodes && b'.pageBits == b.pageBits
  {
    if id :| 0 <= id < |b.lookups| && b' == Step(b, id) {
      StepKeeps(b, id);
    } else {
      forall j | 0 <= j < |b'.lookups|
        ensures LookupOk(b', b'.lookups[j])
      {
        if j < |b.lookups| {
          assert LookupOk(b, b.lookups[j]);
        }
      }
    }
  }

  lemma {:induction false} RunKeeps(run: seq<Bucket>, i: nat)
    requires IsRun(run) && i < |run|
    ensures Inv(run[i]) && run[i].pageBits == run[0].pageBits
  {
    if i > 0 {
      RunKeeps(run, i - 1);
      NextKeeps(run[i - 1], run[i]);
    }
  }

  lemma {:induction false} NodesStay(run: seq<Bucket>, i: nat, j: nat)
    requires IsRun(run) && i <= j < |run|
    ensures run[i].nodes <= run[j].nodes
  {
    if i < j {
      NodesStay(run, i, j - 1);
      RunKeeps(run, j - 1);
      NextKeeps(run[j - 1], run[j]);
    }
  }

  // ---------- the list behind the bucket pointer ----------

  /** Following the links from `p` visits exactly the nodes of `chain`, in this order, and ends. */
  ghost predicate IsChain(b: Bucket, p: Ptr, chain: seq<Ptr>)
    decreases |chain|
  {
    if chain == [] then p == 0
    else chain[0] == p && Published(b, p) && IsChain(b, b.nodes[p - 1].next, chain[1..])
  }

  /** Each pointer starts at most one chain. */
  lemma {:induction false} ChainUnique(b: Bucket, p: Ptr, chain: seq<Ptr>, other: seq<Ptr>)
    requires IsChain(b, p, chain) && IsChain(b, p, other)
    ensures chain == other
    decreases |chain|
  {
    if chain != [] {
      ChainUnique(b, b.nodes[p - 1].next, chain[1..], other[1..]);
      assert chain == [p] + chain[1..] && other == [p] + other[1..];
    }
  }

  function Countdown(p: Ptr): (c: seq<Ptr>)
    ensures |c| == p && forall k :: 0 <= k < p ==> c[k] == p - k
  {
    if p == 0 then [] else [p] + Countdown(p - 1)
  }

  lemma CountdownSuffix(p: Ptr, q: Ptr)
    requires p <= q
    ensures Countdown(p) == Countdown(q)[q - p..]
    ensures forall k :: k in Countdown(p) ==> 0 < k <= p
  {
  }

  lemma {:induction false} CountdownIsChain(b: Bucket, p: Ptr)
    requires Inv(b) && p <= |b.nodes|
    ensures IsChain(b, p, Countdown(p))
  {
    if p > 0 {
      CountdownIsChain(b, p - 1);
      assert Countdown(p)[1..] == Countdown(p - 1);
    }
  }

  /** The list behind the bucket pointer ends, and it holds every node ever published, once. */
  lemma ListIsComplete(run: seq<Bucket>, i: nat) returns (chain: seq<Ptr>)
    requires IsRun(run) && i < |run|
    ensures IsChain(run[i], run[i].head, chain)
    ensures forall p :: p in chain <==> Published(run[i], p)
    ensures forall k, m :: 0 <= k < m < |chain| ==> chain[k] != chain[m]
  {
    RunKeeps(run, i);
    chain := Countdown(run[i].head);
    CountdownIsChain(run[i], run[i].head);
    forall p | Published(run[i], p) ensures p in chain {
      assert chain[run[i].head - p] == p;
    }
  }

  /** Nothing is ever removed from it: the list at one moment is a suffix of the list at any later
      moment, and its nodes are the same. */
  lemma ListOnlyGrows(run: seq<Bucket>, i: nat, j: nat, chain: seq<Ptr>, later: seq<Ptr>)
    requires IsRun(run) && i <= j < |run|
    requires IsChain(run[i], run[i].head, chain) && IsChain(run[j], run[j].head, later)
    ensures |chain| <= |later| && chain == later[|later| - |chain|..]
    ensures forall p :: p in chain ==> Published(run[i], p) && Published(run[j], p) && run[j].nodes[p - 1] == run[i].nodes[p - 1]
  {
    ChainOfRun(run, i, chain);
    ChainOfRun(run, j, later);
    NodesStay(run, i, j);
    SuffixAndNodes(run[i].nodes, run[j].nodes, chain, later);
  }

  lemma SuffixAndNodes(nodes: seq<Node>, more: seq<Node>, chain: seq<Ptr>, later: seq<Ptr>)
    requires nodes <= more && chain == Countdown(|nodes|) && later == Countdown(|more|)
    ensures |chain| <= |later| && chain == later[|later| - |chain|..]
    ensures forall p :: p in chain ==> 0 < p <= |nodes| && more[p - 1] == nodes[p - 1]
  {
    CountdownSuffix(|nodes|, |more|);
  }

  lemma ChainOfRun(run: seq<Bucket>, i: nat, chain: seq<Ptr>)
    requires IsRun(run) && i < |run| && IsChain(run[i], run[i].head, chain)
    ensures chain == Countdown(|run[i].nodes|)
  {
    RunKeeps(run, i);
    CountdownIsChain(run[i], run[i].head);
    ChainUnique(run[i], run[i].head, chain, Countdown(run[i].head));
  }

  /** No two nodes of the list have the same key. */
  lemma KeysUnique(run: seq<Bucket>, i: nat, p: Ptr, q: Ptr)
    requires IsRun(run) && i < |run| && Published(run[i], p) && Published(run[i], q) && p != q
    ensures run[i].nodes[p - 1].key != run[i].nodes[q - 1].key
  {
    RunKeeps(run, i);
    assert p < q ==> run[i].nodes[p - 1].key != run[i].nodes[q - 1].key;
  }

  /** Every lookup for a block type returns what `BlockLayout::new` computes for that type, and
      panics exactly if that fails an assertion, although the node it finds may come from another
      type and after a failed exchange it rescans only the nodes published since. */
  lemma LookupIsFresh(run: seq<Bucket>, i: nat, id: nat, header: TypeLayout, slot: TypeLayout)
    requires IsRun(run) && i < |run| && id < |run[i].lookups|
    requires IsLayout(header) && header.size > 0 && run[i].lookups[id].key == KeyOf(header, slot)
    ensures var l := run[i].lookups[id];
            && (l.Found? ==> New(run[0].pageBits, header, slot) == Some(l.slotsLen))
            && (l.Panicked? ==> New(run[0].pageBits, header, slot) == None)
  {
    RunKeeps(run, i);
    assert LookupOk(run[i], run[i].lookups[id]);
    KeyDecides(run[0].pageBits, header, slot);
  }
}
