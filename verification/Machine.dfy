/** The UBQ protocol as a transition system: one step per atomic access.

    Every call of `push_batch` or `pop_batch` is a process of its own, so any
    number of threads making any number of calls is covered.  Memory is
    sequentially consistent.  A block is named by its serial number, which is
    fresh each time a block is linked; two head words are therefore equal only
    if they name the same incarnation of a block.

    Every dereference is checked: a process that follows a null link, touches a
    block that is not live, or reaches past the end of a block becomes `Fault`.
 */
module Machine {
  import opened Positions

  type Value(==, !new)

  /** What one slot receives: a value (`write`) or nothing (`skip`). */
  type Entry = Option<Value>

  /** The name of a call. */
  type Id = nat

  /** A decoded head word: block, index and the `has_next` hint. */
  datatype Head = Zero | At(block: nat, index: nat, hint: bool)

  datatype SlotState = Vacant | Written | Skip

  datatype Slot = Slot(state: SlotState, value: Entry)

  /** `Held`: fully consumed and in the hands of the call that completed it.
      `Gone`: handed to the pool or to the allocator. */
  datatype Status = Live | Held(owner: Id) | Gone

  /** A block header; the slots of block `k` are `slots[Base(L, k)..Base(L, k) + L]`. */
  datatype Block = Block(next: Option<nat>, consumed: nat, status: Status)

  /** A slot reached through a block pointer. */
  datatype Place = Place(block: nat, index: nat)

  /** `UBQIter`: the cursor, the slots left, the slots not yet accounted for, and what was read. */
  datatype Iter = Iter(start: nat, at: Place, len: nat, pending: nat, got: seq<Entry>)

  /** The local variables of `push_batch` while it holds the `phead` lock; `root` counts
      the blocks of the private chain. */
  datatype Fill = Fill(start: nat, from: Place, at: Place, remaining: nat, root: nat)

  /** The local variables of `pop_batch` while it holds the `chead` lock. */
  datatype Walk = Walk(start: nat, from: Place, len: nat, ph: Head, at: Place, remaining: nat)

  /** Program points of the `phead` lock holder, of the write loop, of the `chead` lock
      holder and of the iterator. */
  datatype FillPc = LoadLink | StoreRoot | Advance(next: Option<nat>)
  datatype WritePc = Pick(at: Place) | WaitNext(slot: Place) | Put(slot: Place, at: Place) | Commit(slot: Place, at: Place)
  datatype WalkPc = LoadNext | Move(next: Option<nat>) | Reload
  datatype IterPc = Read | Follow | Consume(block: nat) | Reclaim(block: nat)

  datatype Op =
      // push_batch
    | PLoad(items: seq<Entry>)
    | PInit(items: seq<Entry>)
    | PPublish(items: seq<Entry>)
    | PLoop(items: seq<Entry>, seen: Head, chain: nat)
    | PTry(items: seq<Entry>, seen: Head, chain: nat)
    | PFill(items: seq<Entry>, f: Fill, fpc: FillPc)
    | PWrite(items: seq<Entry>, start: nat, done: nat, wpc: WritePc)
    | PDone(items: seq<Entry>, start: nat)
      // pop_batch
    | CCheck(size: nat)
    | CLoad(size: nat)
    | CLoop(len: nat, seen: Head)
    | CTry(len: nat, seen: Head, goal: Head)
    | CRecheck(len: nat, seen: Head, goal: Head)
    | CWalkLoad(len: nat, from: Place, start: nat)
    | CWalk(w: Walk, cpc: WalkPc)
    | CRepair
    | CEmpty
      // the iterator returned by pop_batch
    | CIter(it: Iter, ipc: IterPc)
    | CDone(start: nat, got: seq<Entry>)
      // a null, dangling or out-of-bounds dereference
    | Fault

  /** `perItem` is the `probe_item_completion` feature.  The last seven fields are
      history: the entry, the producer and the consumer of every claimed
      position, the positions whose consumption has been counted, and the calls
      that hold the two locks and the right to publish `chead`. */
  datatype State = State(
    L: nat, perItem: bool,
    phead: Head, chead: Head,
    blocks: seq<Block>, slots: seq<Slot>, ops: seq<Op>,
    input: seq<Entry>, producer: seq<Id>, consumer: seq<Id>, spent: set<nat>,
    plock: Option<Id>, clock: Option<Id>, init: Option<Id>)

  /** What a step may choose: how many blocks the private chain has after growing,
      and whether a weak compare-and-exchange fails spuriously. */
  datatype Choice = Choice(chain: nat, spurious: bool)

  // ---------- heads and positions ----------

  /** The position a head word stands for. */
  function Pos(L: nat, h: Head): nat {
    match h
    case Zero => 0
    case At(k, i, _) => Base(L, k) + i
  }

  function PosAt(L: nat, p: Place): nat {
    Base(L, p.block) + p.index
  }

  /** The lexicographic order of head words. */
  predicate Le(a: Head, b: Head) {
    a.Zero? || (b.At? && (a.block < b.block || (a.block == b.block && a.index <= b.index)))
  }

  predicate Lt(a: Head, b: Head) {
    b.At? && (a.Zero? || a.block < b.block || (a.block == b.block && a.index < b.index))
  }

  // ---------- building blocks of steps ----------

  function Set(s: State, id: Id, op: Op): State
    requires id < |s.ops|
  {
    s.(ops := s.ops[id := op])
  }

  predicate IsLive(s: State, k: nat) {
    k < |s.blocks| && s.blocks[k].status.Live?
  }

  predicate InBounds(s: State, p: Place) {
    IsLive(s, p.block) && p.index < s.L && PosAt(s.L, p) < |s.slots|
  }

  function FreshBlocks(first: nat, n: nat): seq<Block>
    decreases n
  {
    if n == 0 then []
    else [Block(if n == 1 then None else Some(first + 1), 0, Live)] + FreshBlocks(first + 1, n - 1)
  }

  function VacantSlots(n: nat): (r: seq<Slot>)
    ensures |r| == n && forall p :: 0 <= p < n ==> r[p] == Slot(Vacant, None)
  {
    seq(n, _ => Slot(Vacant, None))
  }

  /** Hangs a private chain of `n` blocks behind the last linked block. */
  function Link(s: State, n: nat): State {
    var tail := |s.blocks|;
    var before := if tail == 0 || n == 0 then s.blocks
                  else s.blocks[tail - 1 := s.blocks[tail - 1].(next := Some(tail))];
    s.(blocks := before + FreshBlocks(tail, n), slots := s.slots + VacantSlots(Base(s.L, n)))
  }

  function Copies(id: Id, n: nat): (r: seq<Id>)
    ensures |r| == n && forall p :: 0 <= p < n ==> r[p] == id
  {
    seq(n, _ => id)
  }

  /** Records that `id` claimed positions `|s.input|, ...` for `entries`. */
  function ClaimPush(s: State, id: Id, entries: seq<Entry>): State {
    s.(input := s.input + entries, producer := s.producer + Copies(id, |entries|))
  }

  /** Records that `id` claimed all positions below `upto` not yet claimed by a consumer. */
  function ClaimPop(s: State, id: Id, upto: nat): State {
    s.(consumer := s.consumer + Copies(id, SatSub(upto, |s.consumer|)))
  }

  // ---------- push_batch ----------

  /** The capacity that `grow_to_fit_with` is asked for. */
  function Need(L: nat, seen: Head, len: nat): nat {
    match seen
    case Zero => SatSub(len + 1, L)
    case At(_, i, hint) => SatSub(len + 1, SatSub(L, i) + if hint then L else 0)
  }

  function StepPLoad(s: State, id: Id): State
    requires id < |s.ops| && s.ops[id].PLoad?
  {
    var op := s.ops[id];
    Set(s, id, if s.phead.Zero? then PInit(op.items) else PLoop(op.items, s.phead, 0))
  }

  /** The exchange that installs the very first block; a loser keeps its block and its stale zero head. */
  function StepPInit(s: State, id: Id): State
    requires id < |s.ops| && s.ops[id].PInit?
  {
    var op := s.ops[id];
    if s.phead.Zero? then
      Set(Link(s, 1).(phead := At(|s.blocks|, 0, false), init := Some(id)), id, PPublish(op.items))
    else
      Set(s, id, PLoop(op.items, Zero, 1))
  }

  function StepPPublish(s: State, id: Id): State
    requires id < |s.ops| && s.ops[id].PPublish?
  {
    var op := s.ops[id];
    Set(s.(chead := At(0, 0, false), init := None), id, PLoop(op.items, At(0, 0, false), 0))
  }

  function StepPLoop(s: State, id: Id, c: Choice): State
    requires id < |s.ops| && s.ops[id].PLoop?
  {
    var op := s.ops[id];
    if op.seen.At? && op.seen.index >= s.L then
      Set(s, id, PLoop(op.items, s.phead, op.chain))
    else if op.chain <= c.chain && Need(s.L, op.seen, |op.items|) <= Base(s.L, c.chain) then
      Set(s, id, PTry(op.items, op.seen, c.chain))
    else
      s
  }

  /** The claiming exchange: inside the block, or up to its end, which locks `phead`. */
  function StepPTry(s: State, id: Id, c: Choice): State
    requires id < |s.ops| && s.ops[id].PTry?
  {
    var op := s.ops[id];
    if s.phead != op.seen || c.spurious then
      Set(s, id, PLoop(op.items, s.phead, op.chain))
    else if op.seen.Zero? || op.seen.index > s.L then
      Set(s, id, Fault)
    else
      var k, i := op.seen.block, op.seen.index;
      var start := Pos(s.L, op.seen);
      if i + |op.items| < s.L then
        Set(ClaimPush(s.(phead := At(k, i + |op.items|, false)), id, op.items),
            id, PWrite(op.items, start, 0, Pick(Place(k, i))))
      else
        Set(ClaimPush(s.(phead := At(k, s.L, false), plock := Some(id)), id, op.items[..s.L - i]),
            id, PFill(op.items, Fill(start, Place(k, i), Place(k, i), |op.items|, op.chain), LoadLink))
  }

  /** The lock holder loads the successor link. */
  function StepPFill(s: State, id: Id): State
    requires id < |s.ops| && s.ops[id].PFill? && s.ops[id].fpc.LoadLink?
  {
    var op := s.ops[id];
    if !IsLive(s, op.f.at.block) then
      Set(s, id, Fault)
    else if s.blocks[op.f.at.block].next.None? then
      Set(s, id, PFill(op.items, op.f, StoreRoot))
    else
      Set(s, id, PFill(op.items, op.f, Advance(s.blocks[op.f.at.block].next)))
  }

  /** The link was null: the lock holder stores the root of its chain, which may itself be null. */
  function StepPLink(s: State, id: Id): State
    requires id < |s.ops| && s.ops[id].PFill? && s.ops[id].fpc.StoreRoot?
  {
    var op := s.ops[id];
    if !IsLive(s, op.f.at.block) || op.f.at.block + 1 != |s.blocks| then
      Set(s, id, Fault)
    else
      Set(Link(s, op.f.root), id,
          PFill(op.items, op.f.(root := 0), Advance(if op.f.root == 0 then None else Some(|s.blocks|))))
  }

  /** Either the batch ends in this block and the lock is released, or the walk moves on. */
  function StepPMove(s: State, id: Id): State
    requires id < |s.ops| && s.ops[id].PFill? && s.ops[id].fpc.Advance?
  {
    var op := s.ops[id];
    var f := op.f;
    var available := SatSub(s.L, f.at.index);
    if f.remaining < available then
      var claimed := Min(SatSub(|s.input|, f.start), |op.items|);
      Set(ClaimPush(s.(phead := At(f.at.block, f.at.index + f.remaining, op.fpc.next.Some?), plock := None),
                    id, op.items[claimed..]),
          id, PWrite(op.items, f.start, 0, Pick(f.from)))
    else if op.fpc.next.None? then
      Set(s, id, Fault)
    else
      Set(s, id, PFill(op.items, f.(at := Place(op.fpc.next.value, 0), remaining := f.remaining - available), LoadLink))
  }

  /** The head of the write loop: picks the next slot and advances past it. */
  function StepPick(s: State, id: Id): State
    requires id < |s.ops| && s.ops[id].PWrite? && s.ops[id].wpc.Pick?
  {
    var op := s.ops[id];
    var at := op.wpc.at;
    if op.done >= |op.items| then
      Set(s, id, PDone(op.items, op.start))
    else if at.index + 1 == s.L then
      Set(s, id, PWrite(op.items, op.start, op.done, WaitNext(at)))
    else
      Set(s, id, PWrite(op.items, op.start, op.done, Put(at, at.(index := at.index + 1))))
  }

  /** `wait_next`, called before the last slot of a block is written. */
  function StepWaitNext(s: State, id: Id): State
    requires id < |s.ops| && s.ops[id].PWrite? && s.ops[id].wpc.WaitNext?
  {
    var op := s.ops[id];
    var slot := op.wpc.slot;
    if !IsLive(s, slot.block) then
      Set(s, id, Fault)
    else if s.blocks[slot.block].next.None? then
      s
    else
      Set(s, id, PWrite(op.items, op.start, op.done, Put(slot, Place(s.blocks[slot.block].next.value, 0))))
  }

  /** The plain store of the value, or the release store of SKIP. */
  function StepPut(s: State, id: Id): State
    requires id < |s.ops| && s.ops[id].PWrite? && s.ops[id].wpc.Put?
  {
    var op := s.ops[id];
    var slot, at := op.wpc.slot, op.wpc.at;
    if !InBounds(s, slot) || op.done >= |op.items| then
      Set(s, id, Fault)
    else
      var p := PosAt(s.L, slot);
      match op.items[op.done]
      case Some(v) =>
        Set(s.(slots := s.slots[p := s.slots[p].(value := Some(v))]), id,
            PWrite(op.items, op.start, op.done, Commit(slot, at)))
      case None =>
        Set(s.(slots := s.slots[p := s.slots[p].(state := Skip)]), id,
            PWrite(op.items, op.start, op.done + 1, Pick(at)))
  }

  /** The release store of WRITTEN. */
  function StepCommit(s: State, id: Id): State
    requires id < |s.ops| && s.ops[id].PWrite? && s.ops[id].wpc.Commit?
  {
    var op := s.ops[id];
    if !InBounds(s, op.wpc.slot) then
      Set(s, id, Fault)
    else
      var p := PosAt(s.L, op.wpc.slot);
      Set(s.(slots := s.slots[p := s.slots[p].(state := Written)]), id,
          PWrite(op.items, op.start, op.done + 1, Pick(op.wpc.at)))
  }

  // ---------- pop_batch ----------

  function StepCCheck(s: State, id: Id): State
    requires id < |s.ops| && s.ops[id].CCheck?
  {
    var op := s.ops[id];
    Set(s, id, if op.size == 0 || s.chead.Zero? then CEmpty else CLoad(op.size))
  }

  function StepCLoad(s: State, id: Id): State
    requires id < |s.ops| && s.ops[id].CLoad?
  {
    Set(s, id, CLoop(s.ops[id].size, s.chead))
  }

  /** Reloads a locked head, or computes the claim, clamped against `phead` unless the hint is set. */
  function StepCLoop(s: State, id: Id): State
    requires id < |s.ops| && s.ops[id].CLoop?
  {
    var op := s.ops[id];
    if op.seen.Zero? then
      Set(s, id, Fault)
    else if op.seen.index == s.L then
      Set(s, id, CLoop(op.len, s.chead))
    else if op.seen.hint then
      Set(s, id, CTry(op.len, op.seen, op.seen.(index := Min(s.L, op.seen.index + op.len))))
    else if s.phead.At? && s.phead.block == op.seen.block then
      var len := Min(SatSub(s.phead.index, op.seen.index), op.len);
      if len == 0 then
        Set(s, id, CEmpty)
      else
        Set(s, id, CTry(len, op.seen, At(op.seen.block, Min(s.L, op.seen.index + len), false)))
    else
      Set(s, id, CTry(op.len, op.seen, At(op.seen.block, Min(s.L, op.seen.index + op.len), true)))
  }

  /** What follows a successful claim: the walk if the claim locked `chead`, else the iterator. */
  function AfterClaim(s: State, len: nat, seen: Head, goal: Head): Op
    requires seen.At? && goal.At?
  {
    var start := Pos(s.L, seen);
    var from := Place(seen.block, seen.index);
    if goal.index == s.L then CWalkLoad(len, from, start) else CIter(Iter(start, from, len, 0, []), Read)
  }

  function StepCTry(s: State, id: Id, c: Choice): State
    requires id < |s.ops| && s.ops[id].CTry?
  {
    var op := s.ops[id];
    if s.chead != op.seen || c.spurious then
      Set(s, id, CLoop(op.len, s.chead))
    else if op.seen.Zero? || op.goal.Zero? then
      Set(s, id, Fault)
    else
      var s1 := ClaimPop(s.(chead := op.goal, clock := if op.goal.index == s.L then Some(id) else s.clock),
                         id, Pos(s.L, op.goal));
      Set(s1, id, if op.seen.hint then AfterClaim(s, op.len, op.seen, op.goal)
                  else CRecheck(op.len, op.seen, op.goal))
  }

  /** The second load of `phead`, which guards the revert and the false fill. */
  function StepCRecheck(s: State, id: Id): State
    requires id < |s.ops| && s.ops[id].CRecheck?
  {
    var op := s.ops[id];
    if op.seen.Zero? || op.goal.Zero? then
      Set(s, id, Fault)
    else if s.phead.At? && s.phead.block == op.seen.block && s.phead.index < op.goal.index then
      Set(s, id, CRepair)
    else
      Set(s, id, AfterClaim(s, op.len, op.seen, op.goal))
  }

  function StepCWalkLoad(s: State, id: Id): State
    requires id < |s.ops| && s.ops[id].CWalkLoad?
  {
    var op := s.ops[id];
    Set(s, id, CWalk(Walk(op.start, op.from, op.len, s.phead, op.from, op.len), LoadNext))
  }

  /** The load of a block's link, at the top of the walk and after a wait for `phead`. */
  function StepCNext(s: State, id: Id): State
    requires id < |s.ops| && s.ops[id].CWalk? && !s.ops[id].cpc.Move?
  {
    var w := s.ops[id].w;
    if !IsLive(s, w.at.block) then Set(s, id, Fault)
    else Set(s, id, CWalk(w, Move(s.blocks[w.at.block].next)))
  }

  /** Releases `chead` and hands out an iterator over `len` slots. */
  function Release(s: State, id: Id, w: Walk, index: nat, hint: bool, len: nat): State
    requires id < |s.ops|
  {
    Set(ClaimPop(s.(chead := At(w.at.block, index, hint), clock := None), id, Base(s.L, w.at.block) + index),
        id, CIter(Iter(w.start, w.from, len, 0, []), Read))
  }

  function StepCMove(s: State, id: Id): State
    requires id < |s.ops| && s.ops[id].CWalk? && s.ops[id].cpc.Move?
  {
    var w, next := s.ops[id].w, s.ops[id].cpc.next;
    var available := SatSub(s.L, w.at.index);
    if w.ph.At? && w.ph.block == w.at.block && w.ph.index == s.L then
      // wait for the producer that holds the phead lock
      if s.phead.At? && s.phead.block == w.at.block then Set(s, id, CWalk(w.(ph := s.phead), Move(next)))
      else Set(s, id, CWalk(w.(ph := s.phead), Reload))
    else if w.ph.At? && w.ph.block == w.at.block then
      var left := w.remaining - Min(SatSub(w.ph.index, w.at.index), w.remaining);
      Release(s, id, w, Min(w.ph.index, w.at.index + w.remaining), false, SatSub(w.len, left))
    else if w.remaining < available then
      Release(s, id, w, w.at.index + w.remaining, true, w.len)
    else if next.None? then
      Set(s, id, Fault)
    else
      Set(s, id, CWalk(w.(at := Place(next.value, 0), remaining := w.remaining - available), LoadNext))
  }

  // ---------- UBQIter ----------

  /** The entry a slot yields to `Slot::read` once it is no longer vacant. */
  function Content(slot: Slot): Entry {
    if slot.state.Written? then slot.value else None
  }

  /** The iterator after it has read one slot: a segment ends with its block or with the claim. */
  function AfterRead(s: State, it: Iter, e: Entry): Op
    requires it.len > 0
  {
    var it' := it.(at := it.at.(index := it.at.index + 1), len := it.len - 1,
                   pending := it.pending + 1, got := it.got + [e]);
    CIter(it', if it'.at.index == s.L then Follow
               else if it'.len == 0 || s.perItem then Consume(it.at.block)
               else Read)
  }

  /** One `Slot::read`; it spins while the slot is vacant. */
  function StepRead(s: State, id: Id): State
    requires id < |s.ops| && s.ops[id].CIter? && s.ops[id].ipc.Read?
  {
    var it := s.ops[id].it;
    if it.len == 0 then
      Set(s, id, CDone(it.start, it.got))
    else if !InBounds(s, it.at) then
      Set(s, id, Fault)
    else
      var slot := s.slots[PosAt(s.L, it.at)];
      if slot.state.Vacant? then s else Set(s, id, AfterRead(s, it, Content(slot)))
  }

  /** The cursor leaves a finished block before the block can become recyclable. */
  function StepFollow(s: State, id: Id): State
    requires id < |s.ops| && s.ops[id].CIter? && s.ops[id].ipc.Follow?
  {
    var it := s.ops[id].it;
    if !IsLive(s, it.at.block) || s.blocks[it.at.block].next.None? then
      Set(s, id, Fault)
    else
      Set(s, id, CIter(it.(at := Place(s.blocks[it.at.block].next.value, 0)), Consume(it.at.block)))
  }

  /** `finish_block_segment`: one fetch-and-add accounts for the pending slots of one block. */
  function StepConsume(s: State, id: Id): State
    requires id < |s.ops| && s.ops[id].CIter? && s.ops[id].ipc.Consume?
  {
    var it, k := s.ops[id].it, s.ops[id].ipc.block;
    if !IsLive(s, k) then
      Set(s, id, Fault)
    else
      var upto := it.start + |it.got|;
      var total := s.blocks[k].consumed + it.pending;
      var b := s.blocks[k].(consumed := total, status := if total == s.L then Held(id) else Live);
      var s1 := s.(blocks := s.blocks[k := b], spent := s.spent + Range(SatSub(upto, it.pending), upto));
      Set(s1, id, CIter(it.(pending := 0), if total == s.L then Reclaim(k) else Read))
  }

  /** Hands the completed block to the pool or to the allocator. */
  function StepReclaim(s: State, id: Id): State
    requires id < |s.ops| && s.ops[id].CIter? && s.ops[id].ipc.Reclaim?
  {
    var it, k := s.ops[id].it, s.ops[id].ipc.block;
    if k >= |s.blocks| || s.blocks[k].status != Held(id) then
      Set(s, id, Fault)
    else
      Set(s.(blocks := s.blocks[k := s.blocks[k].(status := Gone)]), id, CIter(it, Read))
  }

  // ---------- the transition relation ----------

  predicate Finished(op: Op) {
    op.PDone? || op.CEmpty? || op.CDone?
  }

  /** The next step of call `id`.  Finished calls, and calls that went wrong, take none. */
  function Act(s: State, id: Id, c: Choice): (r: State)
    requires id < |s.ops|
    ensures |r.ops| == |s.ops| && forall j :: 0 <= j < |s.ops| && j != id ==> r.ops[j] == s.ops[j]
  {
    match s.ops[id]
    case PLoad(_) => StepPLoad(s, id)
    case PInit(_) => StepPInit(s, id)
    case PPublish(_) => StepPPublish(s, id)
    case PLoop(_, _, _) => StepPLoop(s, id, c)
    case PTry(_, _, _) => StepPTry(s, id, c)
    case PFill(_, _, LoadLink) => StepPFill(s, id)
    case PFill(_, _, StoreRoot) => StepPLink(s, id)
    case PFill(_, _, Advance(_)) => StepPMove(s, id)
    case PWrite(_, _, _, Pick(_)) => StepPick(s, id)
    case PWrite(_, _, _, WaitNext(_)) => StepWaitNext(s, id)
    case PWrite(_, _, _, Put(_, _)) => StepPut(s, id)
    case PWrite(_, _, _, Commit(_, _)) => StepCommit(s, id)
    case CCheck(_) => StepCCheck(s, id)
    case CLoad(_) => StepCLoad(s, id)
    case CLoop(_, _) => StepCLoop(s, id)
    case CTry(_, _, _) => StepCTry(s, id, c)
    case CRecheck(_, _, _) => StepCRecheck(s, id)
    case CWalkLoad(_, _, _) => StepCWalkLoad(s, id)
    case CWalk(_, Move(_)) => StepCMove(s, id)
    case CWalk(_, _) => StepCNext(s, id)
    case CIter(_, Read) => StepRead(s, id)
    case CIter(_, Follow) => StepFollow(s, id)
    case CIter(_, Consume(_)) => StepConsume(s, id)
    case CIter(_, Reclaim(_)) => StepReclaim(s, id)
    case _ => s
  }

  /** A call of `push_batch` whose iterator announces `|items|` entries, or of `pop_batch`. */
  datatype Call = Push(items: seq<Entry>) | Pop(size: nat)

  function Begin(s: State, call: Call): State {
    s.(ops := s.ops + [match call
                       case Push(items) => if items == [] then PDone([], 0) else PLoad(items)
                       case Pop(size) => CCheck(size)])
  }

  function ClearHint(h: Head): Head {
    if h.At? then h.(hint := false) else h
  }

  /** The hint may disappear from either head at any moment.  This covers codecs that
      have no room for it. */
  function DropHint(s: State, producers: bool): State {
    if producers then s.(phead := ClearHint(s.phead)) else s.(chead := ClearHint(s.chead))
  }

  datatype Step = Start(call: Call) | Run(id: Id, c: Choice) | Forget(producers: bool)

  predicate Enabled(s: State, step: Step) {
    step.Run? ==> step.id < |s.ops|
  }

  function Apply(s: State, step: Step): State
    requires Enabled(s, step)
  {
    match step
    case Start(call) => Begin(s, call)
    case Run(id, c) => Act(s, id, c)
    case Forget(producers) => DropHint(s, producers)
  }

  /** Capacity that the next step of call `id` requests from its private chain. */
  function Request(s: State, id: Id): nat
    requires id < |s.ops|
  {
    match s.ops[id]
    case PLoad(_) => if s.phead.Zero? then 1 else 0
    case PLoop(items, seen, _) => if seen.At? && seen.index >= s.L then 0 else Need(s.L, seen, |items|)
    case _ => 0
  }

  /** A producer in its loop brings its chain to the length `grow_to_fit_with` does: the chain it
      has, or the fewest blocks with the requested capacity. */
  predicate Exact(s: State, step: Step)
    requires Enabled(s, step) && s.L > 0
  {
    step.Run? && s.ops[step.id].PLoop? ==>
      var had, needed := s.ops[step.id].chain, PagesFor(s.L, Request(s, step.id));
      step.c.chain == if had < needed then needed else had
  }

  ghost predicate Next(s: State, s': State) {
    exists step :: Enabled(s, step) && s' == Apply(s, step)
  }

  /** A new queue: no block is allocated until the first push. */
  predicate Initial(s: State) {
    && s.L > 0
    && s.phead == Zero && s.chead == Zero
    && s.blocks == [] && s.slots == [] && s.ops == []
    && s.input == [] && s.producer == [] && s.consumer == [] && s.spent == {}
    && s.plock == None && s.clock == None && s.init == None
  }

  /** A run: a finite sequence of states from a new queue, each one step after the previous. */
  ghost predicate IsRun(run: seq<State>) {
    && |run| > 0
    && Initial(run[0])
    && forall i :: 0 < i < |run| ==> Next(run[i - 1], run[i])
  }
}
