/** The queue in one thread of control, refined to a sequence of entries. */
module Queue {
  import opened Positions
  import opened Pages

  datatype Head = Zero | At(block: Addr, index: nat, hint: bool)

  // ---------- the linked list and what its slots hold ----------

  /** Position `p` holds its entry if it is between `from` and the end, and nothing beyond. */
  predicate CellOk(slot: Slot, p: nat, from: nat, entries: seq<Entry>) {
    && (from <= p < from + |entries| ==> slot != Vacant && slot.Content() == entries[p - from])
    && (p >= from + |entries| ==> slot == Vacant)
  }

  predicate CellAt(L: nat, h: Heap, list: seq<Addr>, from: nat, entries: seq<Entry>, j: int, i: int) {
    0 <= j < |list| && list[j] in h && 0 <= i < L && i < |h[list[j]].slots| ==>
      CellOk(h[list[j]].slots[i], Base(L, j) + i, from, entries)
  }

  ghost predicate Cells(L: nat, h: Heap, list: seq<Addr>, from: nat, entries: seq<Entry>) {
    forall j, i :: CellAt(L, h, list, from, entries, j, i)
  }

  /** Only the first block has been read from, `done` slots of it. */
  predicate CountAt(L: nat, h: Heap, list: seq<Addr>, done: nat, j: int) {
    0 <= j < |list| ==> list[j] in h && |h[list[j]].slots| == L && h[list[j]].consumed == if j == 0 then done else 0
  }

  ghost predicate Counted(L: nat, h: Heap, list: seq<Addr>, done: nat) {
    forall j :: CountAt(L, h, list, done, j)
  }

  /** From position `from` the list holds exactly `entries`; `done` slots of its first block are
      counted as consumed.  (An equation, so that it is proved as a whole.) */
  ghost predicate Holds(L: nat, h: Heap, list: seq<Addr>, from: nat, entries: seq<Entry>, done: nat) {
    (Distinct(list) && Linked(h, list) && Counted(L, h, list, done) && Cells(L, h, list, from, entries)) == true
  }

  lemma HoldsElsewhere(L: nat, h: Heap, h': Heap, list: seq<Addr>, from: nat, entries: seq<Entry>, done: nat, s: set<Addr>)
    requires Holds(L, h, list, from, entries, done)
    requires h' - s == h - s && Of(list) !! s
    ensures Holds(L, h', list, from, entries, done)
  {
    LinkedElsewhere(h, h', list, s);
    forall j ensures CountAt(L, h', list, done, j) {
      assert CountAt(L, h, list, done, j);
      if 0 <= j < |list| {
        SamePage(h, h', list, s, j);
      }
    }
    forall j, i ensures CellAt(L, h', list, from, entries, j, i) {
      assert CellAt(L, h, list, from, entries, j, i) && CountAt(L, h, list, done, j);
      if 0 <= j < |list| {
        SamePage(h, h', list, s, j);
      }
    }
  }

  /** Writing the slot at the end appends its content. */
  lemma Write(L: nat, h: Heap, list: seq<Addr>, from: nat, entries: seq<Entry>, done: nat, k: nat, i: nat, slot: Slot)
    requires Holds(L, h, list, from, entries, done) && k < |list| && i < L
    requires Base(L, k) + i == from + |entries| && slot != Vacant
    ensures list[k] in h && |h[list[k]].slots| == L
    ensures var b := h[list[k]];
            Holds(L, h[list[k] := b.(slots := b.slots[i := slot])], list, from, entries + [slot.Content()], done)
  {
    assert CountAt(L, h, list, done, k);
    var b, more := h[list[k]], entries + [slot.Content()];
    var h' := h[list[k] := b.(slots := b.slots[i := slot])];
    forall j, m ensures CellAt(L, h', list, from, more, j, m) {
      assert CellAt(L, h, list, from, entries, j, m) && CountAt(L, h, list, done, j);
      if 0 <= j < |list| && 0 <= m < L {
        assert Differ(list, j, k) && Differ(list, k, j);
        if Base(L, j) + m == from + |entries| {
          PositionUnique(L, j, m, k, i);
        }
      }
    }
    forall j ensures LinkAt(h', list, j) && CountAt(L, h', list, done, j) {
      assert LinkAt(h, list, j) && CountAt(L, h, list, done, j);
    }
  }

  /** Linking clean pages behind the last block only adds room. */
  lemma Link(L: nat, h: Heap, list: seq<Addr>, from: nat, entries: seq<Entry>, done: nat, more: seq<Addr>)
    requires Holds(L, h, list, from, entries, done) && list != [] && from + |entries| <= Base(L, |list|)
    requires Detached(L, h, more) && more != [] && Of(list) !! Of(more)
    ensures var last := list[|list| - 1];
            && last in h
            && Holds(L, h[last := h[last].(next := more[0])], list + more, from, entries, done)
  {
    var last := list[|list| - 1];
    assert LinkAt(h, list, |list| - 1) && CountAt(L, h, list, done, |list| - 1);
    var h', l := h[last := h[last].(next := more[0])], list + more;
    DistinctJoin(list, more);
    LinkedJoin(h, list, more);
    forall j ensures CountAt(L, h', l, done, j) {
      assert CountAt(L, h, list, done, j) && CleanAt(L, h, more, j - |list|);
    }
    forall j, i ensures CellAt(L, h', l, from, entries, j, i) {
      if 0 <= j < |list| {
        assert CellAt(L, h, list, from, entries, j, i);
      } else if |list| <= j < |l| {
        BaseMono(L, |list|, j);
        assert CleanAt(L, h, more, j - |list|);
        assert last in Of(list) && more[j - |list|] in Of(more);
      }
    }
  }

  /** Without its first block the list holds the entries behind that block. */
  lemma Behind(L: nat, h: Heap, h': Heap, list: seq<Addr>, from: nat, entries: seq<Entry>, done: nat)
    requires Holds(L, h, list, from, entries, done) && list != [] && from <= L
    requires h' - {list[0]} == h - {list[0]}
    ensures Holds(L, h', list[1..], 0, entries[Min(L - from, |entries|)..], 0)
  {
    var l, rest := list[1..], entries[Min(L - from, |entries|)..];
    forall i, j ensures Differ(l, i, j) {
      assert Differ(list, i + 1, j + 1);
    }
    forall j ensures LinkAt(h', l, j) && CountAt(L, h', l, 0, j) {
      if 0 <= j < |l| {
        Later(h, h', list, j);
        assert LinkAt(h, list, j + 1) && CountAt(L, h, list, done, j + 1);
      }
    }
    forall j, i ensures CellAt(L, h', l, 0, rest, j, i) {
      if 0 <= j < |l| {
        Later(h, h', list, j);
        assert CellAt(L, h, list, from, entries, j + 1, i) && CountAt(L, h, list, done, j + 1);
      }
    }
  }

  lemma Later(h: Heap, h': Heap, list: seq<Addr>, j: nat)
    requires j + 1 < |list| && Distinct(list) && Linked(h, list) && h' - {list[0]} == h - {list[0]}
    ensures list[1..][j] == list[j + 1] && list[j + 1] in h && list[j + 1] in h' && h'[list[j + 1]] == h[list[j + 1]]
  {
    var a, s := list[j + 1], {list[0]};
    assert Differ(list, 0, j + 1) && LinkAt(h, list, j + 1);
    assert a in h - s && (h - s)[a] == h[a] && (h' - s)[a] == h'[a];
  }

  /** Reading an entry leaves the ones behind it. */
  lemma Advanced(L: nat, h: Heap, list: seq<Addr>, from: nat, entries: seq<Entry>, done: nat)
    requires Holds(L, h, list, from, entries, done) && entries != [] && list != [] && from < L
    ensures list[0] in h && |h[list[0]].slots| == L
    ensures h[list[0]].slots[from] != Vacant && h[list[0]].slots[from].Content() == entries[0]
    ensures Holds(L, h, list, from + 1, entries[1..], done)
  {
    assert CountAt(L, h, list, done, 0) && CellAt(L, h, list, from, entries, 0, from);
    var next, rest := from + 1, entries[1..];
    forall j, i ensures CellAt(L, h, list, next, rest, j, i) {
      assert CellAt(L, h, list, from, entries, j, i);
    }
  }

  /** Counting slots of the first block as consumed. */
  lemma Consumed(L: nat, h: Heap, list: seq<Addr>, from: nat, entries: seq<Entry>, done: nat, done': nat)
    requires Holds(L, h, list, from, entries, done) && list != []
    ensures list[0] in h && |h[list[0]].slots| == L && h[list[0]].consumed == done
    ensures Holds(L, h[list[0] := h[list[0]].(consumed := done')], list, from, entries, done')
  {
    assert CountAt(L, h, list, done, 0);
    var h' := h[list[0] := h[list[0]].(consumed := done')];
    forall j ensures LinkAt(h', list, j) && CountAt(L, h', list, done', j) {
      assert LinkAt(h, list, j) && CountAt(L, h, list, done, j) && Differ(list, 0, j);
    }
    forall j, i ensures CellAt(L, h', list, from, entries, j, i) {
      assert CellAt(L, h, list, from, entries, j, i) && CountAt(L, h, list, done, j);
    }
  }

  /** The values that freeing the first block drops. */
  lemma DroppedWithBlock(L: nat, h: Heap, list: seq<Addr>, from: nat, entries: seq<Entry>)
    requires Holds(L, h, list, from, entries, from) && list != [] && from <= L
    ensures list[0] in h && |h[list[0]].slots| == L && h[list[0]].consumed == from
    ensures Values(Contents(h[list[0]].slots[from..])) == Values(entries[..Min(L - from, |entries|)])
  {
    assert CountAt(L, h, list, from, 0);
    FirstBlockHolds(L, h, list, from, entries);
    ValuesThenNone(Contents(h[list[0]].slots[from..]), entries, Min(L - from, |entries|));
  }

  lemma FirstBlockHolds(L: nat, h: Heap, list: seq<Addr>, from: nat, entries: seq<Entry>)
    requires Holds(L, h, list, from, entries, from) && list != [] && from <= L
    requires list[0] in h && |h[list[0]].slots| == L
    ensures var all, n := Contents(h[list[0]].slots[from..]), Min(L - from, |entries|);
            |all| == L - from && forall i :: 0 <= i < |all| ==> all[i] == if i < n then entries[i] else None
  {
    var all, n := Contents(h[list[0]].slots[from..]), Min(L - from, |entries|);
    forall i | 0 <= i < L - from ensures all[i] == if i < n then entries[i] else None {
      assert CellAt(L, h, list, from, entries, 0, from + i);
    }
  }

  lemma ValuesThenNone(all: seq<Entry>, entries: seq<Entry>, n: nat)
    requires n <= |all| && n <= |entries|
    requires forall i :: 0 <= i < |all| ==> all[i] == if i < n then entries[i] else None
    ensures Values(all) == Values(entries[..n])
  {
    assert all == entries[..n] + all[n..];
    ValuesAppend(entries[..n], all[n..]);
    NoValues(all[n..]);
  }

  /** Clean pages hold nothing. */
  lemma HoldsNothing(L: nat, h: Heap, l: seq<Addr>)
    requires Detached(L, h, l)
    ensures Holds(L, h, l, 0, [], 0)
  {
    forall j ensures CountAt(L, h, l, 0, j) {
      assert CleanAt(L, h, l, j);
    }
    forall j, i ensures CellAt(L, h, l, 0, [], j, i) {
      assert CleanAt(L, h, l, j);
    }
  }

  /** The entries a batch of reported length `len` puts into its slots. */
  function Batch(len: nat, items: seq<Value>): seq<Entry> {
    seq(len, j requires 0 <= j => if j < |items| then Some(items[j]) else None)
  }

  /** A batch holds the items in order, as far as they go. */
  lemma BatchAdds(before: seq<Entry>, len: nat, items: seq<Value>)
    ensures |before + Batch(len, items)| == |before| + len
    ensures Values(before + Batch(len, items)) == Values(before) + items[..Min(len, |items|)]
  {
    var n := Min(len, |items|);
    var all := Batch(len, items);
    assert all == all[..n] + all[n..];
    ValuesAppend(all[..n], all[n..]);
    NoValues(all[n..]);
    ValuesOfItems(all[..n], items[..n]);
    ValuesAppend(before, all);
  }

  lemma {:induction false} ValuesOfItems(entries: seq<Entry>, items: seq<Value>)
    requires |entries| == |items| && forall i :: 0 <= i < |items| ==> entries[i] == Some(items[i])
    ensures Values(entries) == items
  {
    if items != [] {
      ValuesOfItems(entries[1..], items[1..]);
      assert items == [items[0]] + items[1..];
    }
  }

  lemma BatchStep(before: seq<Entry>, len: nat, items: seq<Value>, j: nat)
    requires j < len
    ensures before + Batch(len, items)[..j + 1] == before + Batch(len, items)[..j] + [Batch(len, items)[j]]
  {
  }

  lemma ValuesStep(entries: seq<Entry>, i: nat)
    requires i < |entries|
    ensures Values(entries[..i + 1]) == Values(entries[..i]) + if entries[i].Some? then [entries[i].value] else []
    ensures entries[i..][0] == entries[i] && entries[i..][1..] == entries[i + 1..]
  {
    assert entries[..i + 1] == entries[..i] + [entries[i]];
    ValuesAppend(entries[..i], [entries[i]]);
    assert [entries[i]][1..] == [];
  }

  lemma ValuesSplit(entries: seq<Entry>, n: nat)
    requires n <= |entries|
    ensures Values(entries[..n]) + Values(entries[n..]) == Values(entries)
  {
    ValuesJoin(entries[..n], entries[n..], entries);
  }

  lemma ValuesJoin(a: seq<Entry>, b: seq<Entry>, all: seq<Entry>)
    requires a + b == all
    ensures Values(a) + Values(b) == Values(all)
  {
    ValuesAppend(a, b);
  }

  ghost function Pooled(pool: Addr): set<Addr> {
    if pool == Null then {} else {pool}
  }

  // ---------- the queue's state ----------

  /** The fields of a queue, the pages it owns, and the blocks from the consumers' to the last. */
  datatype View = View(L: nat, h: Heap, list: seq<Addr>, phead: Head, chead: Head, pool: Addr, pk: nat)

  ghost predicate OwnsFacts(v: View, extra: set<Addr>) {
    && v.L > 0 && (v.pool != Null ==> Spare(v.L, v.h, v.pool))
    && Of(v.list) !! Pooled(v.pool) !! extra
    && v.h.Keys == Of(v.list) + Pooled(v.pool) + extra
  }

  /** Every allocated page is in exactly one place: the list, the pool, or `extra`. */
  ghost predicate Owns(v: View, extra: set<Addr>) {
    OwnsFacts(v, extra) == true
  }

  ghost predicate Stands(v: View, head: Head, k: nat, p: nat) {
    head.At? && k < |v.list| && head.block == v.list[k] && head.index < v.L && Base(v.L, k) + head.index == p
  }

  ghost predicate BusyFacts(v: View, front: nat, log: seq<Entry>, done: nat, ck: nat, taken: nat, due: nat) {
    && Holds(v.L, v.h, v.list, front, log, done)
    && ck <= v.pk && taken <= |log|
    && Stands(v, v.chead, ck, front + taken) && Stands(v, v.phead, v.pk, front + |log| + due)
    && (v.phead.hint ==> v.pk + 1 < |v.list|) && (v.chead.hint ==> ck < v.pk)
  }

  /** `taken` of the `log` entries from slot `front` of the first block are reserved by a
      consumer, and `due` slots behind the log by a producer. */
  ghost predicate Busy(v: View, front: nat, log: seq<Entry>, done: nat, ck: nat, taken: nat, due: nat) {
    BusyFacts(v, front, log, done, ck, taken, due) == true
  }

  ghost predicate QuietFacts(v: View, contents: seq<Entry>) {
    if v.phead.Zero? then v.chead.Zero? && v.list == [] && contents == []
    else v.chead.At? && Busy(v, v.chead.index, contents, v.chead.index, 0, 0, 0)
  }

  /** No call is under way and the queue holds `contents`. */
  ghost predicate Quiet(v: View, contents: seq<Entry>) {
    QuietFacts(v, contents) == true
  }

  /** Growing a chain moves the pooled page and new pages into it, and nothing else. */
  lemma Grown(v: View, v': View, before: set<Addr>, more: set<Addr>)
    requires Owns(v, before) && v' == v.(h := v'.h, pool := v'.pool)
    requires v'.h - (before + more) == v.h - (before + more) && before + more <= v'.h.Keys
    requires v'.pool == v.pool || v'.pool == Null
    requires more * v.h.Keys == if v'.pool != v.pool then {v.pool} else {}
    ensures Owns(v', before + more) && Of(v.list) !! before + more
  {
    var s := before + more;
    assert (v'.h - s).Keys == v'.h.Keys - s && (v.h - s).Keys == v.h.Keys - s;
    assert v'.h.Keys == (v'.h.Keys - s) + s;
    if v'.pool != Null {
      assert v.pool in v.h.Keys && v.pool !in more * v.h.Keys;
      assert Of([v.pool]) == {v.pool};
      SamePage(v.h, v'.h, [v.pool], s, 0);
    }
  }

  lemma QuietElsewhere(v: View, v': View, contents: seq<Entry>, s: set<Addr>)
    requires Quiet(v, contents) && v' == v.(h := v'.h, pool := v'.pool)
    requires v'.h - s == v.h - s && Of(v.list) !! s
    ensures Quiet(v', contents)
  {
    if !v.phead.Zero? {
      var i := v.chead.index;
      HoldsElsewhere(v.L, v.h, v'.h, v.list, i, contents, i, s);
      assert BusyFacts(v, i, contents, i, 0, 0, 0);
      assert BusyFacts(v', i, contents, i, 0, 0, 0);
    }
  }

  /** The first blocks of a queue. */
  lemma Installed(v: View, v': View, l: seq<Addr>)
    requires Owns(v, Of(l)) && v.list == [] && Detached(v.L, v.h, l) && l != []
    requires v' == View(v.L, v.h, l, At(l[0], 0, false), At(l[0], 0, false), v.pool, 0)
    ensures Owns(v', {}) && Quiet(v', [])
  {
    HoldsNothing(v.L, v.h, l);
    assert OwnsFacts(v', {});
    assert BusyFacts(v', 0, [], 0, 0, 0, 0);
  }

  ghost predicate FillingFacts(v: View, contents: seq<Entry>, extra: seq<Addr>, k: nat, index: nat, rest: nat) {
    && Owns(v, Of(extra)) && Detached(v.L, v.h, extra)
    && v.chead.At? && Holds(v.L, v.h, v.list, v.chead.index, contents, v.chead.index)
    && v.chead.index + |contents| <= Base(v.L, |v.list|)
    && k < |v.list| && index < v.L && Base(v.L, k) + index + rest < Base(v.L, |v.list|) + Base(v.L, |extra|)
  }

  /** A producer with `rest` slots to go stands at slot `index` of block `k`; the private pages
      `extra` and the list have room for all of them and one more. */
  ghost predicate Filling(v: View, contents: seq<Entry>, extra: seq<Addr>, k: nat, index: nat, rest: nat) {
    FillingFacts(v, contents, extra, k, index, rest) == true
  }

  /** The last block's link is set to the first private page. */
  lemma Extended(v: View, contents: seq<Entry>, extra: seq<Addr>, k: nat, index: nat, rest: nat, v': View)
    requires Filling(v, contents, extra, k, index, rest) && extra != []
    requires var last := v.list[|v.list| - 1];
             last in v.h && v' == v.(list := v.list + extra, h := v.h[last := v.h[last].(next := extra[0])])
    ensures Filling(v', contents, [], k, index, rest)
  {
    Link(v.L, v.h, v.list, v.chead.index, contents, v.chead.index, extra);
    OfJoin(v.list, extra);
    BaseAdd(v.L, |v.list|, |extra|);
    assert v.pool != Null ==> v.pool !in Of(v.list);
    assert v'.h.Keys == v.h.Keys;
    assert OwnsFacts(v', Of([]));
  }

  lemma LastLink(v: View, contents: seq<Entry>, extra: seq<Addr>, k: nat, index: nat, rest: nat)
    requires Filling(v, contents, extra, k, index, rest)
    ensures v.list[k] in v.h && v.h[v.list[k]].next == if k + 1 < |v.list| then v.list[k + 1] else Null
    ensures k + 1 < |v.list| ==> v.list[k + 1] != Null
    ensures k + 1 == |v.list| && extra == [] ==> rest < v.L - index
  {
    assert LinkAt(v.h, v.list, k) && LinkAt(v.h, v.list, k + 1);
  }

  /** The walk moves on to the next block. */
  lemma Crossed(v: View, contents: seq<Entry>, extra: seq<Addr>, k: nat, index: nat, rest: nat)
    requires Filling(v, contents, extra, k, index, rest) && k + 1 < |v.list| && v.L - index <= rest
    ensures Filling(v, contents, extra, k + 1, 0, rest - (v.L - index))
  {
    assert Base(v.L, k + 1) == Base(v.L, k) + v.L;
  }

  ghost predicate LandedFacts(v: View, contents: seq<Entry>, extra: seq<Addr>, k0: nat, p: nat) {
    && Stands(v, v.phead, v.pk, p) && k0 <= v.pk && (v.phead.hint ==> v.pk + 1 < |v.list|)
    && Filling(v, contents, extra, v.pk, v.phead.index, 0)
  }

  /** The producer has moved its head from block `k0` to position `p`. */
  ghost predicate Landed(v: View, contents: seq<Entry>, extra: seq<Addr>, k0: nat, p: nat) {
    LandedFacts(v, contents, extra, k0, p) == true
  }

  lemma Filled(v: View, contents: seq<Entry>, extra: seq<Addr>, k0: nat, k: nat, index: nat, rest: nat, head: Head)
    requires Filling(v, contents, extra, k, index, rest) && rest < v.L - index && k0 <= k
    requires head.At? && head.block == v.list[k] && head.index == index + rest && (head.hint ==> k + 1 < |v.list|)
    ensures Landed(v.(phead := head, pk := k), contents, extra, k0, Base(v.L, k) + index + rest)
  {
    assert FillingFacts(v, contents, extra, k, index, rest);
    assert OwnsFacts(v.(phead := head, pk := k), Of(extra));
  }

  /** `grow_to_fit_with` is asked for enough: the slots of the batch and one more. */
  lemma NeedSuffices(v: View, contents: seq<Entry>, extra: seq<Addr>, len: nat)
    requires Quiet(v, contents) && v.phead.At? && Owns(v, Of(extra)) && Detached(v.L, v.h, extra)
    requires SatSub(len + 1, v.L - v.phead.index + if v.phead.hint then v.L else 0) <= Base(v.L, |extra|)
    ensures Filling(v, contents, extra, v.pk, v.phead.index, len)
  {
    var i := v.chead.index;
    assert BusyFacts(v, i, contents, i, 0, 0, 0);
    BaseMono(v.L, v.pk + if v.phead.hint then 2 else 1, |v.list|);
    assert Base(v.L, v.pk + 1) == Base(v.L, v.pk) + v.L;
    assert Base(v.L, v.pk + 2) == Base(v.L, v.pk + 1) + v.L;
    assert FillingFacts(v, contents, extra, v.pk, v.phead.index, len);
  }

  /** After the walk the batch is due: its slots are behind the contents and not yet written. */
  lemma Due(v: View, contents: seq<Entry>, extra: seq<Addr>, k0: nat, len: nat, before: View)
    requires Quiet(before, contents) && before.phead.At?
    requires Landed(v, contents, extra, k0, Base(v.L, k0) + before.phead.index + len)
    requires before.pk == k0 && v.L == before.L && v.chead == before.chead && v.list[0] == before.list[0]
    ensures Busy(v, v.chead.index, contents, v.chead.index, 0, 0, len)
  {
    var i := v.chead.index;
    assert BusyFacts(before, i, contents, i, 0, 0, 0);
    assert BusyFacts(v, i, contents, i, 0, 0, len);
  }

  /** A change to a page of the list that keeps the pool and the private pages. */
  lemma OwnsUpdate(v: View, extra: set<Addr>, k: nat, b: Block)
    requires Owns(v, extra) && k < |v.list|
    ensures Owns(v.(h := v.h[v.list[k] := b]), extra)
  {
    assert v.list[k] in Of(v.list);
    assert OwnsFacts(v.(h := v.h[v.list[k] := b]), extra);
  }

  /** Writing one slot that is due. */
  lemma Wrote(v: View, contents: seq<Entry>, due: nat, k: nat, i: nat, slot: Slot)
    requires v.chead.At? && Busy(v, v.chead.index, contents, v.chead.index, 0, 0, due) && due > 0
    requires k < |v.list| && i < v.L && Base(v.L, k) + i == v.chead.index + |contents| && slot != Vacant
    ensures v.list[k] in v.h && |v.h[v.list[k]].slots| == v.L
    ensures var b := v.h[v.list[k]];
            var v' := v.(h := v.h[v.list[k] := b.(slots := b.slots[i := slot])]);
            Busy(v', v.chead.index, contents + [slot.Content()], v.chead.index, 0, 0, due - 1)
    ensures i + 1 == v.L ==> k + 1 < |v.list| && v.h[v.list[k]].next == v.list[k + 1] && Base(v.L, k + 1) == Base(v.L, k) + v.L
  {
    var c := v.chead.index;
    assert BusyFacts(v, c, contents, c, 0, 0, due);
    Write(v.L, v.h, v.list, c, contents, c, k, i, slot);
    var b := v.h[v.list[k]];
    var v' := v.(h := v.h[v.list[k] := b.(slots := b.slots[i := slot])]);
    assert BusyFacts(v', c, contents + [slot.Content()], c, 0, 0, due - 1);
    if i + 1 == v.L {
      assert Base(v.L, k + 1) == Base(v.L, k) + v.L;
      if v.pk <= k {
        BaseMono(v.L, v.pk, k);
      }
      assert LinkAt(v.h, v.list, k);
    }
  }

  /** Freeing the private pages ends the call. */
  lemma Released(v: View, v': View, contents: seq<Entry>, extra: set<Addr>)
    requires v.chead.At? && Busy(v, v.chead.index, contents, v.chead.index, 0, 0, 0) && Owns(v, extra)
    requires v' == v.(h := v.h - extra)
    ensures Owns(v', {}) && Quiet(v', contents)
  {
    var i := v.chead.index;
    assert BusyFacts(v, i, contents, i, 0, 0, 0);
    MinusTwice(v.h, extra);
    HoldsElsewhere(v.L, v.h, v'.h, v.list, i, contents, i, extra);
    assert BusyFacts(v', i, contents, i, 0, 0, 0);
    assert OwnsFacts(v', {});
  }

  /** Both heads stand in the same block exactly when they have the same place in the list. */
  lemma SameBlock(v: View, contents: seq<Entry>, k: nat)
    requires v.chead.At? && Busy(v, v.chead.index, contents, v.chead.index, 0, 0, 0) && k < |v.list|
    ensures v.phead.block == v.list[k] <==> v.pk == k
    ensures v.list[k] in v.h && (k + 1 < |v.list| ==> v.h[v.list[k]].next == v.list[k + 1])
  {
    var i := v.chead.index;
    assert BusyFacts(v, i, contents, i, 0, 0, 0);
    assert Differ(v.list, k, v.pk) && Differ(v.list, v.pk, k) && LinkAt(v.h, v.list, k);
  }

  /** The consumers' head moves to block `k`, behind `taken` entries. */
  lemma Reserved(v: View, contents: seq<Entry>, k: nat, taken: nat, head: Head)
    requires v.chead.At? && Busy(v, v.chead.index, contents, v.chead.index, 0, 0, 0) && Owns(v, {})
    requires k <= v.pk && taken <= |contents| && (head.At? && head.hint ==> k < v.pk)
    requires Stands(v, head, k, v.chead.index + taken)
    ensures var v' := v.(chead := head);
            Busy(v', v.chead.index, contents, v.chead.index, k, taken, 0) && Owns(v', {})
  {
    var i, v' := v.chead.index, v.(chead := head);
    assert BusyFacts(v, i, contents, i, 0, 0, 0);
    assert BusyFacts(v', i, contents, i, k, taken, 0);
    assert OwnsFacts(v', {});
  }

  /** An iterator reads the next entry it has reserved. */
  lemma Took(v: View, front: nat, log: seq<Entry>, done: nat, ck: nat, taken: nat)
    requires Busy(v, front, log, done, ck, taken, 0) && front < v.L && taken > 0
    ensures |v.list| > 0 && v.list[0] != Null && v.list[0] in v.h && |v.h[v.list[0]].slots| == v.L
    ensures v.h[v.list[0]].slots[front] != Vacant && v.h[v.list[0]].slots[front].Content() == log[0]
    ensures Busy(v, front + 1, log[1..], done, ck, taken - 1, 0)
    ensures front + 1 == v.L ==> |v.list| > 1 && v.h[v.list[0]].next == v.list[1] && ck > 0
  {
    assert BusyFacts(v, front, log, done, ck, taken, 0);
    Advanced(v.L, v.h, v.list, front, log, done);
    assert BusyFacts(v, front + 1, log[1..], done, ck, taken - 1, 0);
    assert LinkAt(v.h, v.list, 0);
  }

  /** A segment is counted as consumed. */
  lemma Finished(v: View, front: nat, log: seq<Entry>, done: nat, ck: nat, taken: nat)
    requires Busy(v, front, log, done, ck, taken, 0) && Owns(v, {})
    ensures |v.list| > 0 && v.list[0] in v.h && v.h[v.list[0]].consumed == done && |v.h[v.list[0]].slots| == v.L
    ensures var v' := v.(h := v.h[v.list[0] := v.h[v.list[0]].(consumed := front)]);
            Busy(v', front, log, front, ck, taken, 0) && Owns(v', {})
  {
    assert BusyFacts(v, front, log, done, ck, taken, 0);
    Consumed(v.L, v.h, v.list, front, log, done, front);
    var b := v.h[v.list[0]].(consumed := front);
    OwnsUpdate(v, {}, 0, b);
    assert BusyFacts(v.(h := v.h[v.list[0] := b]), front, log, front, ck, taken, 0);
  }

  /** A complete block leaves the list. */
  lemma Retired(v: View, v': View, log: seq<Entry>, done: nat, ck: nat, taken: nat)
    requires Busy(v, v.L, log, done, ck, taken, 0) && ck > 0 && |v.list| > 1
    requires v' == v.(h := v'.h, list := v.list[1..], pool := v'.pool, pk := v'.pk) && v'.pk == v.pk - 1
    requires v'.h - {v.list[0]} == v.h - {v.list[0]}
    ensures Busy(v', 0, log, 0, ck - 1, taken, 0)
  {
    assert BusyFacts(v, v.L, log, done, ck, taken, 0);
    Behind(v.L, v.h, v'.h, v.list, v.L, log, done);
    assert log[0..] == log;
    assert Base(v.L, ck) == Base(v.L, ck - 1) + v.L && Base(v.L, v.pk) == Base(v.L, v.pk - 1) + v.L;
    assert BusyFacts(v', 0, log, 0, ck - 1, taken, 0);
  }

  lemma FirstApart(l: seq<Addr>)
    requires Distinct(l) && l != []
    ensures Of(l) == {l[0]} + Of(l[1..]) && l[0] !in Of(l[1..])
  {
    forall j | 1 <= j < |l| ensures l[j] != l[0] {
      assert Differ(l, 0, j);
    }
    assert l == [l[0]] + l[1..];
  }

  /** It is freed, or put into the empty pool. */
  lemma Recycled(v: View, v': View)
    requires Owns(v, {}) && Distinct(v.list) && v.list != [] && v'.list == v.list[1..] && v'.L == v.L
    requires var a := v.list[0];
             || (v'.h == v.h - {a} && v'.pool == v.pool)
             || (v.pool == Null && v'.pool == a && a in v'.h && v'.h == v.h[a := v'.h[a]] && Spare(v.L, v'.h, a))
    ensures Owns(v', {})
  {
    FirstApart(v.list);
    assert v'.pool != Null && v'.pool == v.pool ==> v.pool in v'.h && v'.h[v.pool] == v.h[v.pool];
    assert OwnsFacts(v', {});
  }

  /** When nothing is reserved any more the queue is quiet. */
  lemma Drained(v: View, front: nat, log: seq<Entry>, ck: nat)
    requires Busy(v, front, log, front, ck, 0, 0) && front < v.L
    ensures Quiet(v, log)
  {
    assert BusyFacts(v, front, log, front, ck, 0, 0);
    BaseMono(v.L, 0, ck);
    assert BusyFacts(v, front, log, front, 0, 0, 0);
  }

  ghost predicate DroppingFacts(v: View, rest: seq<Addr>, from: nat, entries: seq<Entry>) {
    && Owns(v.(list := rest), {}) && Holds(v.L, v.h, rest, from, entries, from) && from <= v.L
    && from + |entries| <= if rest == [] then from else Base(v.L, |rest|)
  }

  /** The blocks `rest` are still to be freed, and `entries` are in them. */
  ghost predicate Dropping(v: View, rest: seq<Addr>, from: nat, entries: seq<Entry>) {
    DroppingFacts(v, rest, from, entries) == true
  }

  lemma StartsDropping(v: View, contents: seq<Entry>)
    requires Owns(v, {}) && Quiet(v, contents)
    ensures Dropping(v, v.list, if v.chead.At? then v.chead.index else 0, contents)
    ensures v.chead.At? ==> v.chead.index <= v.L
    ensures if v.chead.At? then v.list != [] && v.list[0] == v.chead.block && v.list[0] != Null else v.list == []
  {
    assert v.(list := v.list) == v;
    if v.chead.At? {
      var i := v.chead.index;
      assert BusyFacts(v, i, contents, i, 0, 0, 0);
      BaseMono(v.L, v.pk + 1, |v.list|);
      assert Base(v.L, v.pk + 1) == Base(v.L, v.pk) + v.L && LinkAt(v.h, v.list, 0);
      assert DroppingFacts(v, v.list, i, contents);
    } else {
      assert Holds(v.L, v.h, [], 0, [], 0);
      assert DroppingFacts(v, v.list, 0, contents);
    }
  }

  lemma DroppedValues(v: View, rest: seq<Addr>, from: nat, entries: seq<Entry>)
    requires Dropping(v, rest, from, entries) && rest != []
    ensures rest[0] in v.h && |v.h[rest[0]].slots| == v.L && v.h[rest[0]].consumed == from <= v.L
    ensures var n := Min(v.L - from, |entries|);
            Values(Contents(v.h[rest[0]].slots[from..])) + Values(entries[n..]) == Values(entries)
    ensures v.h[rest[0]].next == if |rest| > 1 then rest[1] else Null
    ensures |rest| > 1 ==> rest[1] != Null
  {
    DroppedWithBlock(v.L, v.h, rest, from, entries);
    ValuesSplit(entries, Min(v.L - from, |entries|));
    assert LinkAt(v.h, rest, 0) && LinkAt(v.h, rest, 1);
  }

  lemma DroppedRest(v: View, rest: seq<Addr>, from: nat, entries: seq<Entry>)
    requires Dropping(v, rest, from, entries) && rest != [] && from <= v.L
    ensures Dropping(v.(h := v.h - {rest[0]}), rest[1..], 0, entries[Min(v.L - from, |entries|)..])
  {
    var left, v' := entries[Min(v.L - from, |entries|)..], v.(h := v.h - {rest[0]});
    MinusTwice(v.h, {rest[0]});
    Behind(v.L, v.h, v'.h, rest, from, entries, from);
    Recycled(v.(list := rest), v'.(list := rest[1..]));
    assert DroppingFacts(v', rest[1..], 0, left);
  }

  class UBQ {
    const L: nat
    const memory: Memory
    var phead: Head
    var chead: Head
    var pool: Addr
    ghost var list: seq<Addr>
    ghost var contents: seq<Entry>
    ghost var pk: nat

    ghost function V(): View
      reads this, memory`blocks
    {
      View(L, memory.blocks, list, phead, chead, pool, pk)
    }

    ghost predicate Valid()
      reads this, memory`blocks
    {
      Owns(V(), {}) && Quiet(V(), contents)
    }

    constructor (L: nat)
      requires L > 0
      ensures Valid() && contents == [] && this.L == L && memory.blocks == map[] && memory.dropped == []
    {
      this.L := L;
      memory := new Memory();
      phead, chead, pool := Zero, Zero, Null;
      list, contents, pk := [], [], 0;
      new;
      assert OwnsFacts(V(), {});
    }

    // ---------- push ----------

    /** `grow_to_fit_with` on a chain of this queue. */
    method Grow(chain: BlockChain, want: nat)
      requires chain.memory == memory && chain.Valid(L) && Owns(V(), Of(chain.pages)) && Quiet(V(), contents)
      modifies this`pool, memory`blocks, chain
      ensures chain.Valid(L) && Owns(V(), Of(chain.pages)) && Quiet(V(), contents)
      ensures want <= chain.size && (want <= old(chain.size) ==> pool == old(pool) && chain.pages == old(chain.pages))
    {
      ghost var v, before := V(), Of(chain.pages);
      ghost var more;
      pool, more := chain.GrowToFitWith(L, want, pool);
      OfJoin(old(chain.pages), more);
      Allocated(L, memory.blocks, chain.pages);
      Grown(v, V(), before, Of(more));
      QuietElsewhere(v, V(), contents, Of(chain.pages));
    }

    /** Installs the first block. */
    method Initialise(chain: BlockChain)
      requires chain.memory == memory && chain.Valid(L) && chain.pages == [] && Valid() && phead.Zero?
      modifies this, memory`blocks, chain
      ensures chain.Ends(L) && chain.pages == [] && Valid() && phead.At? && contents == []
    {
      Grow(chain, 1);
      var root, _, _, taken := chain.Take(L);
      ghost var v := V();
      assert v.list == [] && contents == [] && taken != [];
      phead := At(root, 0, false);
      chead := At(root, 0, false);
      list, pk := taken, 0;
      Installed(v, V(), taken);
    }

    /** One visit of the filling walk: links the private pages if the block has no successor. */
    method LinkRoot(block: Addr, root: Addr, ghost extra: seq<Addr>, ghost k: nat, ghost index: nat, ghost rest: nat,
                    ghost k0: nat)
      returns (next: Addr, root': Addr, ghost left: seq<Addr>)
      requires Filling(V(), contents, extra, k, index, rest) && block == list[k] && k0 <= k
      requires if extra == [] then root == Null else root == extra[0] && root != Null
      modifies this`list, memory`blocks
      ensures Filling(V(), contents, left, k, index, rest) && list[0] == old(list[0]) && list[k0] == old(list[k0]) && list[k] == block
      ensures next == if k + 1 < |list| then list[k + 1] else Null
      ensures if left == [] then root' == Null else left == extra && root' == root
      ensures (next != Null <==> k + 1 < |list|) && (next != Null || rest < L - index)
    {
      LastLink(V(), contents, extra, k, index, rest);
      next, root', left := memory.blocks[block].next, root, extra;
      if next == Null && root != Null {
        ghost var v := V();
        memory.SetNext(block, root);
        list := list + extra;
        Extended(v, contents, extra, k, index, rest, V());
        next, root', left := root, Null, [];
      }
    }

    /** The filling walk: advances the locked head by `len` slots, linking pages as it goes. */
    method Walk(start: Head, len: nat, first: Addr, ghost extra: seq<Addr>, ghost k0: nat)
      returns (root: Addr, ghost left: seq<Addr>)
      requires start.At? && k0 < |list| && start.block == list[k0]
      requires Filling(V(), contents, extra, k0, start.index, len)
      requires if extra == [] then first == Null else first == extra[0] && first != Null
      modifies this`phead, this`list, this`pk, memory`blocks
      ensures Landed(V(), contents, left, k0, Base(L, k0) + start.index + len) && (phead.hint <==> pk + 1 < |list|)
      ensures list[0] == old(list[0]) && list[k0] == start.block
      ensures if left == [] then root == Null else left == extra && root == first
    {
      ghost var k := k0;
      var remaining: nat, block, index: nat, next := len, start.block, start.index, Null;
      next, root, left := LinkRoot(block, first, extra, k, index, remaining, k0);
      while remaining >= L - index
        invariant k0 <= k && Filling(V(), contents, left, k, index, remaining)
        invariant list[0] == old(list[0]) && list[k0] == start.block && block == list[k]
        invariant if left == [] then root == Null else left == extra && root == first
        invariant next == (if k + 1 < |list| then list[k + 1] else Null) && (next != Null || remaining < L - index)
        invariant next != Null <==> k + 1 < |list|
        invariant Base(L, k) + index + remaining == Base(L, k0) + start.index + len
        decreases remaining
      {
        Crossed(V(), contents, left, k, index, remaining);
        remaining := remaining - (L - index);
        block, index, k := next, 0, k + 1;
        next, root, left := LinkRoot(block, root, left, k, index, remaining, k0);
      }
      var head := At(block, index + remaining, next != Null);
      Filled(V(), contents, left, k0, k, index, remaining, head);
      phead, pk := head, k;
    }

    /** Fills from the private chain, which keeps the pages that were not linked. */
    method Fill(chain: BlockChain, start: Head, len: nat, ghost k0: nat)
      requires chain.memory == memory && chain.Valid(L) && start.At? && k0 < |list| && start.block == list[k0]
      requires Filling(V(), contents, chain.pages, k0, start.index, len)
      modifies this`phead, this`list, this`pk, memory`blocks, chain
      ensures chain.Valid(L) && Landed(V(), contents, chain.pages, k0, Base(L, k0) + start.index + len)
      ensures list[0] == old(list[0]) && list[k0] == start.block
    {
      var root, tail, size, extra := chain.Take(L);
      var r, left := Walk(start, len, root, extra, k0);
      if r != Null {
        chain.GiveBack(r, tail, size, extra);
      }
    }

    /** Claims `len` slots and moves the producers' head behind them. */
    method Advance(chain: BlockChain, len: nat) returns (start: Head, ghost k0: nat)
      requires chain.memory == memory && chain.Valid(L) && Owns(V(), Of(chain.pages)) && Quiet(V(), contents) && phead.At?
      requires SatSub(len + 1, L - phead.index + if phead.hint then L else 0) <= chain.size
      modifies this`phead, this`list, this`pk, memory`blocks, chain
      ensures chain.Valid(L) && Owns(V(), Of(chain.pages))
      ensures chead.At? && Busy(V(), chead.index, contents, chead.index, 0, 0, len)
      ensures Stands(V(), start, k0, chead.index + |contents|)
    {
      ghost var v := V();
      start, k0 := phead, pk;
      NeedSuffices(v, contents, chain.pages, len);
      if phead.index + len < L {
        phead := At(phead.block, phead.index + len, false);
        assert BusyFacts(V(), chead.index, contents, chead.index, 0, 0, len);
        assert OwnsFacts(V(), Of(chain.pages));
      } else {
        phead := At(phead.block, L, false);
        Fill(chain, start, len, k0);
        Due(V(), contents, chain.pages, k0, len, v);
      }
    }

    /** Writes the claimed slots one by one; a short iterator leaves skips. */
    method WriteBatch(start: Head, len: nat, items: seq<Value>, ghost k0: nat, ghost extra: set<Addr>)
      requires chead.At? && Busy(V(), chead.index, contents, chead.index, 0, 0, len) && Owns(V(), extra)
      requires Stands(V(), start, k0, chead.index + |contents|)
      modifies this`contents, memory`blocks
      ensures Busy(V(), chead.index, contents, chead.index, 0, 0, 0) && Owns(V(), extra)
      ensures contents == old(contents) + Batch(len, items)
      ensures memory.blocks - Of(list) == old(memory.blocks) - Of(list)
    {
      var block, index: nat := start.block, start.index;
      ghost var k: nat := k0;
      for j := 0 to len
        invariant Busy(V(), chead.index, contents, chead.index, 0, 0, len - j) && Owns(V(), extra)
        invariant contents == old(contents) + Batch(len, items)[..j]
        invariant memory.blocks - Of(list) == old(memory.blocks) - Of(list)
        invariant k < |list| && block == list[k] && index < L && Base(L, k) + index == chead.index + |contents|
      {
        var slot := if j < |items| then Written(items[j]) else Skipped;
        Wrote(V(), contents, len - j, k, index, slot);
        OwnsUpdate(V(), extra, k, memory.blocks[block].(slots := memory.blocks[block].slots[index := slot]));
        OutsideUpdate(memory.blocks, block, memory.blocks[block].(slots := memory.blocks[block].slots[index := slot]), Of(list));
        var at, i := block, index;
        index := index + 1;
        if index == L {
          block, index := memory.blocks[block].next, 0;
          k := k + 1;
        }
        memory.Put(at, i, slot);
        contents := contents + [slot.Content()];
        BatchStep(old(contents), len, items, j);
      }
      assert Batch(len, items)[..len] == Batch(len, items);
    }

    /** Appends `len` entries: the items, and skips if there are too few of them.  What this adds
        to the values in the queue is the items, in order, as far as they go. */
    method PushBatch(len: nat, items: seq<Value>)
      requires Valid()
      modifies this, memory
      ensures Valid() && contents == old(contents) + Batch(len, items) && memory.dropped == old(memory.dropped)
      ensures |contents| == |old(contents)| + len
      ensures Values(contents) == Values(old(contents)) + items[..Min(len, |items|)]
      ensures len == 0 || (old(phead).At? && len < L - old(phead).index + if old(phead).hint then L else 0) ==> pool == old(pool)
    {
      BatchAdds(contents, len, items);
      if len > 0 {
        PushSome(len, items);
      }
    }

    method PushSome(len: nat, items: seq<Value>)
      requires Valid() && len > 0
      modifies this, memory
      ensures Valid() && contents == old(contents) + Batch(len, items) && memory.dropped == old(memory.dropped)
      ensures old(phead).At? && len < L - old(phead).index + (if old(phead).hint then L else 0) ==> pool == old(pool)
    {
      var chain := new BlockChain(memory);
      if phead.Zero? {
        Initialise(chain);
      }
      Grow(chain, SatSub(len + 1, L - phead.index + if phead.hint then L else 0));
      var start, k0 := Advance(chain, len);
      ghost var h, extra := memory.blocks, Of(chain.pages);
      WriteBatch(start, len, items, k0, extra);
      DetachedElsewhere(L, h, memory.blocks, chain.pages, Of(list));
      ghost var v := V();
      chain.Drop(L);
      Released(v, V(), contents, extra);
    }

    // ---------- pop ----------

    /** The consumers' walk: where the head lands that starts at `chead` and wants `want` slots. */
    method Seek(want: nat) returns (head: Head, len: nat, ghost k: nat)
      requires chead.At? && Busy(V(), chead.index, contents, chead.index, 0, 0, 0) && L > 0
      requires chead.index + want >= L && pk > 0
      ensures len == Min(want, |contents|)
      ensures k <= pk && Stands(V(), head, k, chead.index + len) && (head.hint <==> k < pk)
    {
      ghost var v := V();
      len, k := want, 0;
      var remaining: nat, block, index: nat := want, chead.block, chead.index;
      SameBlock(v, contents, k);
      while phead.block != block && remaining >= L - index
        invariant k <= pk && block == list[k] && index < L
        invariant Base(L, k) + index + remaining == chead.index + want
        invariant (phead.block == list[k] <==> pk == k) && (k == pk ==> index <= phead.index)
        invariant list[k] in memory.blocks && (k + 1 < |list| ==> memory.blocks[list[k]].next == list[k + 1])
        decreases remaining
      {
        remaining := remaining - (L - index);
        block, index, k := memory.blocks[block].next, 0, k + 1;
        SameBlock(v, contents, k);
      }
      if phead.block == block {
        head := At(block, Min(phead.index, index + remaining), false);
        remaining := remaining - Min(SatSub(phead.index, index), remaining);
        len := len - remaining;
      } else {
        head := At(block, index + remaining, true);
        BaseMono(L, k, pk);
      }
    }

    /** Claims up to `size` entries and moves the consumers' head behind them.  `repairs` is the
        outcome of the re-check after the exchange, which would undo the claim. */
    method Reserve(size: nat) returns (len: nat, repairs: bool, ghost ck: nat)
      requires chead.At? && Owns(V(), {}) && Quiet(V(), contents) && size > 0
      modifies this`chead
      ensures len == Min(size, |contents|) && !repairs && Owns(V(), {})
      ensures Busy(V(), old(chead.index), contents, old(chead.index), ck, len, 0)
    {
      ghost var v := V();
      SameBlock(v, contents, 0);
      len, repairs, ck := size, false, 0;
      var hint := chead.hint;
      if !hint {
        if phead.block == chead.block {
          len := Min(SatSub(phead.index, chead.index), len);
          if len == 0 {
            return;
          }
        } else {
          hint := true;
        }
      }
      var index := Min(L, chead.index + len);
      repairs := !chead.hint && phead.block == chead.block && phead.index < index;
      var head := At(chead.block, index, hint);
      if index == L {
        head, len, ck := Seek(len);
      }
      Reserved(v, contents, ck, len, head);
      chead := head;
    }

    /** A completed block goes to the empty pool if it stands alone, and is freed otherwise.  Its
        slots are still WRITTEN, but the counter keeps their values from being dropped again. */
    method Recycle(block: Addr)
      requires block != Null && block in memory.blocks
      requires |memory.blocks[block].slots| == L == memory.blocks[block].consumed
      modifies this`pool, memory
      ensures memory.dropped == old(memory.dropped)
      ensures if old(memory.blocks[block].run) == None && old(pool) == Null then
                && pool == block && block in memory.blocks && memory.blocks == old(memory.blocks)[block := memory.blocks[block]]
                && Spare(L, memory.blocks, block)
              else pool == old(pool) && memory.blocks == old(memory.blocks) - {block}
    {
      if memory.blocks[block].run.None? {
        memory.Reset(L, block);
        if pool == Null {
          pool := block;
        } else {
          NothingToDrop(L, memory.blocks[block]);
          memory.Free(L, block);
        }
      } else {
        assert memory.blocks[block].slots[L..] == [];
        memory.Free(L, block);
      }
    }

    /** `finish_block_segment`: counts the slots read and recycles the block if they complete it. */
    method FinishSegment(block: Addr, quantity: nat, ghost front: nat, ghost log: seq<Entry>, ghost ck: nat, ghost taken: nat)
      requires quantity <= front && Busy(V(), front, log, front - quantity, ck, taken, 0) && Owns(V(), {})
      requires front <= L && block == list[0] && block != Null && block in memory.blocks
      requires front == L ==> |list| > 1 && ck > 0
      modifies this`pool, this`list, this`pk, memory
      ensures Owns(V(), {})
      ensures if front < L then list == old(list) && Busy(V(), front, log, front, ck, taken, 0)
              else list == old(list[1..]) && Busy(V(), 0, log, 0, ck - 1, taken, 0)
      ensures pool == if front == L && old(memory.blocks[block].run) == None && old(pool) == Null then block else old(pool)
      ensures memory.dropped == old(memory.dropped)
    {
      Finished(V(), front, log, front - quantity, ck, taken);
      var complete := memory.Consume(L, block, quantity);
      if complete {
        ghost var v := V();
        assert BusyFacts(v, front, log, front, ck, taken, 0);
        Recycle(block);
        list, pk := list[1..], pk - 1;
        Recycled(v, V());
        Retired(v, V(), log, front, ck, taken);
      }
    }

    /** One turn of `UBQIter::next`: reads a slot and finishes the segment at its end. */
    method Visit(block: Addr, index: nat, pending: nat, len: nat, ghost log: seq<Entry>, ghost ck: nat)
      returns (entry: Entry, block': Addr, index': nat, pending': nat, ghost ck': nat)
      requires len > 0 && pending <= index < L && Busy(V(), index, log, index - pending, ck, len, 0) && Owns(V(), {})
      requires |list| > 0 && block == list[0]
      modifies this`pool, this`list, this`pk, memory
      ensures |log| > 0 && entry == log[0] && pending' <= index' < L && (len == 1 ==> pending' == 0)
      ensures Busy(V(), index', log[1..], index' - pending', ck', len - 1, 0) && Owns(V(), {})
      ensures |list| > 0 && (len > 1 ==> block' == list[0]) && memory.dropped == old(memory.dropped)
    {
      Took(V(), index, log, index - pending, ck, len);
      entry, block', index', pending', ck' := memory.blocks[block].slots[index].Content(), block, index + 1, pending + 1, ck;
      var finished := index' == L;
      if finished {
        block', index' := memory.blocks[block].next, 0;
      }
      if finished || len == 1 {
        FinishSegment(block, pending', index + 1, log[1..], ck, len - 1);
        pending' := 0;
      }
      ck' := if finished then ck - 1 else ck;
    }

    /** Runs an iterator over `reserved` entries from `start` to its end. */
    method Drain(start: Head, reserved: nat, ghost ck0: nat) returns (values: seq<Value>)
      requires start.At? && Owns(V(), {}) && Busy(V(), start.index, contents, start.index, ck0, reserved, 0)
      requires |list| > 0 && start.block == list[0] && start.index < L
      modifies this`pool, this`list, this`pk, this`contents, memory
      ensures Owns(V(), {}) && Quiet(V(), contents)
      ensures reserved <= |old(contents)| && memory.dropped == old(memory.dropped)
      ensures contents == old(contents)[reserved..] && values == Values(old(contents)[..reserved])
    {
      values := [];
      var block, index: nat, len: nat, pending: nat := start.block, start.index, reserved, 0;
      ghost var log, ck: nat := contents, ck0;
      assert BusyFacts(V(), index, log, index, ck, len, 0);
      while len != 0
        invariant pending <= index < L && (len == 0 ==> pending == 0)
        invariant Busy(V(), index, log, index - pending, ck, len, 0) && Owns(V(), {})
        invariant |list| > 0 && (len > 0 ==> block == list[0]) && memory.dropped == old(memory.dropped)
        invariant len <= reserved <= |contents| && log == contents[reserved - len..]
        invariant contents == old(contents) && values == Values(contents[..reserved - len])
      {
        ValuesStep(contents, reserved - len);
        var entry;
        entry, block, index, pending, ck := Visit(block, index, pending, len, log, ck);
        if entry.Some? {
          values := values + [entry.value];
        }
        len, log := len - 1, log[1..];
      }
      contents := log;
      Drained(V(), index, log, ck);
    }

    /** Removes the first `size` entries, or all of them, and yields their values; recycling their
        blocks drops none of them a second time. */
    method PopBatch(size: nat) returns (values: seq<Value>)
      requires Valid()
      modifies this, memory
      ensures Valid() && memory.dropped == old(memory.dropped)
      ensures var n := Min(size, |old(contents)|);
              contents == old(contents)[n..] && values == Values(old(contents)[..n])
    {
      if size == 0 || chead.Zero? {
        return [];
      }
      var start := chead;
      var len, _, ck := Reserve(size);
      values := Drain(start, len, ck);
    }

    // ---------- the empty test and the end of the queue ----------

    method IsEmpty() returns (empty: bool)
      requires Valid()
      ensures empty <==> contents == []
    {
      if phead.Zero? {
        return true;
      }
      SameBlock(V(), contents, 0);
      empty := phead.block == chead.block && phead.index == chead.index;
      BaseMono(L, 0, pk);
    }

    /** Frees the first of the blocks that are left. */
    method DropFirst(block: Addr, ghost rest: seq<Addr>, ghost from: nat, ghost entries: seq<Entry>) returns (next: Addr)
      requires Dropping(V(), rest, from, entries) && rest != [] && block == rest[0] && from <= L
      modifies memory
      ensures var left := entries[Min(L - from, |entries|)..];
              && Dropping(V(), rest[1..], 0, left)
              && memory.dropped + Values(left) == old(memory.dropped) + Values(entries)
      ensures if |rest| == 1 then next == Null else next == rest[1] && next != Null
    {
      DroppedValues(V(), rest, from, entries);
      DroppedRest(V(), rest, from, entries);
      next := memory.blocks[block].next;
      memory.Free(L, block);
    }

    /** Frees the blocks from `chead` on, following the links. */
    method DropList()
      requires Valid()
      modifies memory
      ensures Owns(V().(list := []), {}) && memory.dropped == old(memory.dropped) + Values(contents)
    {
      StartsDropping(V(), contents);
      var block := if chead.At? then chead.block else Null;
      ghost var rest, from: nat, entries := list, if chead.At? then chead.index else 0, contents;
      while block != Null
        invariant Dropping(V(), rest, from, entries) && from <= L
        invariant memory.dropped + Values(entries) == old(memory.dropped) + Values(contents)
        invariant if rest == [] then block == Null else block == rest[0] && block != Null
        decreases |rest|
      {
        block := DropFirst(block, rest, from, entries);
        rest, from, entries := rest[1..], 0, entries[Min(L - from, |entries|)..];
      }
      assert DroppingFacts(V(), [], from, entries);
    }

    /** `Drop for UBQ`: frees every page and drops exactly the values that are still inside. */
    method Drop()
      requires Valid()
      modifies memory
      ensures memory.blocks == map[] && memory.dropped == old(memory.dropped) + Values(contents)
    {
      DropList();
      assert OwnsFacts(V().(list := []), {});
      if pool != Null {
        NothingToDrop(L, memory.blocks[pool]);
        memory.Free(L, pool);
      }
    }
  }
}
