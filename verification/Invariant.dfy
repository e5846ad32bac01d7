/** The invariant of the protocol: what is true of the shared state, and what every
    call may rely on at each of its program points. */
module Invariant {
  import opened Positions
  import opened Machine

  // ---------- the shared state ----------

  ghost predicate Shape(s: State) {
    && s.L > 0
    && |s.slots| == Base(s.L, |s.blocks|)
    && (forall k :: 0 <= k < |s.blocks| ==>
          s.blocks[k].next == if k + 1 < |s.blocks| then Some(k + 1) else None)
  }

  ghost predicate Heads(s: State) {
    && (s.phead.Zero? ==> s.blocks == [] && s.chead.Zero?)
    && (s.phead.At? ==>
          && s.phead.block < |s.blocks| && s.phead.index <= s.L
          && (s.phead.hint ==> s.phead.block + 1 < |s.blocks|))
    && (s.chead.At? ==>
          && s.chead.index <= s.L
          && (s.chead.hint ==> s.phead.At? && s.chead.block < s.phead.block))
    && Le(s.chead, s.phead)
    && |s.input| == |s.producer| == Pos(s.L, s.phead)
    && |s.consumer| == Pos(s.L, s.chead)
  }

  /** The program points of the holder of the `chead` lock. */
  predicate Walking(L: nat, op: Op) {
    (op.CRecheck? && op.goal.At? && op.goal.index == L) || op.CWalkLoad? || op.CWalk?
  }

  /** A parked head is a lock, and a lock has a holder that is at work on it. */
  ghost predicate Locks(s: State) {
    && (s.plock.Some? <==> s.phead.At? && s.phead.index == s.L)
    && (s.plock.Some? ==> s.plock.value < |s.ops| && s.ops[s.plock.value].PFill?)
    && (s.clock.Some? <==> s.chead.At? && s.chead.index == s.L)
    && (s.clock.Some? ==> s.clock.value < |s.ops| && Walking(s.L, s.ops[s.clock.value]))
    && (s.init.Some? <==> s.phead.At? && s.chead.Zero?)
    && (s.init.Some? ==> s.init.value < |s.ops| && s.ops[s.init.value].PPublish?)
  }

  /** Position `p`, claimed by `op`, has not been published yet. */
  predicate Pending(op: Op, p: nat) {
    || (op.PFill? && op.f.start <= p)
    || (op.PWrite? && op.start + op.done <= p < op.start + |op.items|)
  }

  /** Position `p` belongs to the batch of producer `op`. */
  predicate InBatch(op: Op, p: nat) {
    if op.PFill? then op.f.start <= p < op.f.start + |op.items|
    else (op.PWrite? || op.PDone?) && op.start <= p < op.start + |op.items|
  }

  ghost predicate SlotOk(s: State, p: nat)
    requires p < |s.slots| && p < |s.producer| && p < |s.input|
  {
    && s.producer[p] < |s.ops| && InBatch(s.ops[s.producer[p]], p)
    && (s.slots[p].state.Vacant? <==> Pending(s.ops[s.producer[p]], p))
    && (!s.slots[p].state.Vacant? ==> Content(s.slots[p]) == s.input[p])
    && (s.slots[p].state.Written? ==> s.slots[p].value.Some?)
  }

  /** Claimed slots are vacant exactly while their producer still has to publish them,
      and then hold what the producer claimed them for; unclaimed slots are vacant. */
  ghost predicate Slots(s: State) {
    forall p :: 0 <= p < |s.slots| ==>
      if p < |s.producer| && p < |s.input| then SlotOk(s, p) else s.slots[p].state.Vacant?
  }

  /** Position `p` belongs to the batch of consumer `op`. */
  predicate InTake(L: nat, op: Op, p: nat) {
    match op
    case CRecheck(_, seen, goal) => Pos(L, seen) <= p < Pos(L, goal)
    case CWalkLoad(_, from, start) => start <= p < Base(L, from.block) + L
    case CWalk(w, _) => w.start <= p < Base(L, w.from.block) + L
    case CIter(it, _) => it.start <= p < it.start + |it.got| + it.len
    case CDone(start, got) => start <= p < start + |got|
    case _ => false
  }

  /** Consumer `op` has read position `p`. */
  predicate HasRead(op: Op, p: nat) {
    if op.CIter? then op.it.start <= p < op.it.start + |op.it.got|
    else op.CDone? && op.start <= p < op.start + |op.got|
  }

  /** Consumer `op` has accounted for position `p`. */
  predicate HasSpent(op: Op, p: nat) {
    if op.CIter? then op.it.start <= p < op.it.start + |op.it.got| - op.it.pending
    else op.CDone? && op.start <= p < op.start + |op.got|
  }

  ghost predicate ReadOk(s: State, p: nat)
    requires p < |s.consumer|
  {
    && s.consumer[p] < |s.ops| && InTake(s.L, s.ops[s.consumer[p]], p)
    && (p in s.spent <==> HasSpent(s.ops[s.consumer[p]], p))
    && (HasRead(s.ops[s.consumer[p]], p) ==> p < |s.slots| && !s.slots[p].state.Vacant?)
  }

  /** A position counts as consumed exactly when its consumer has accounted for it. */
  ghost predicate Reads(s: State) {
    && (forall p :: 0 <= p < |s.consumer| ==> ReadOk(s, p))
    && (forall p :: p in s.spent ==> p < |s.consumer|)
  }

  ghost predicate BlockOk(s: State, k: nat)
    requires k < |s.blocks|
  {
    && s.blocks[k].consumed == |Part(s.L, s.spent, k)|
    && (s.blocks[k].status.Live? <==> s.blocks[k].consumed < s.L)
    && (s.blocks[k].status.Held? ==>
          && s.blocks[k].status.owner < |s.ops|
          && s.ops[s.blocks[k].status.owner].CIter?
          && s.ops[s.blocks[k].status.owner].ipc == Reclaim(k))
  }

  /** A block leaves the live state exactly when all its slots are accounted for. */
  ghost predicate Blocks(s: State) {
    forall k :: 0 <= k < |s.blocks| ==> BlockOk(s, k)
  }

  // ---------- what each call relies on ----------

  ghost predicate Produced(s: State, id: Id, items: seq<Entry>, lo: nat, hi: nat) {
    && lo <= hi <= |s.producer| && hi <= |s.input| && hi - lo <= |items|
    && (forall p :: lo <= p < hi ==> s.producer[p] == id)
    && (forall p :: lo <= p < hi ==> s.input[p] == items[p - lo])
  }

  ghost predicate Consumes(s: State, id: Id, lo: nat, hi: nat) {
    && lo <= hi <= |s.consumer|
    && forall p :: lo <= p < hi ==> s.consumer[p] == id
  }

  /** The chain and the successors already linked are enough for the batch. */
  predicate Enough(L: nat, seen: Head, len: nat, chain: nat) {
    seen.At? ==> seen.index + len < Base(L, chain + 1 + if seen.hint then 1 else 0)
  }

  ghost predicate FillOk(s: State, id: Id, items: seq<Entry>, f: Fill) {
    && s.plock == Some(id)
    && s.phead.At? && s.phead.index == s.L && s.phead.block == f.from.block
    && f.from.index < s.L && f.start == PosAt(s.L, f.from)
    && f.from.block <= f.at.block < |s.blocks|
    && (if f.at.block == f.from.block then f.at == f.from else f.at.index == 0)
    && PosAt(s.L, f.at) + f.remaining == f.start + |items|
    && Base(s.L, f.from.block) + s.L <= f.start + |items| < Base(s.L, |s.blocks| + f.root)
    && Produced(s, id, items, f.start, Base(s.L, f.from.block) + s.L)
  }

  ghost predicate WriteOk(s: State, id: Id, items: seq<Entry>, start: nat, done: nat) {
    && done <= |items|
    && start + |items| < Base(s.L, |s.blocks|)
    && Produced(s, id, items, start, start + |items|)
  }

  ghost predicate PlaceOk(s: State, at: Place, p: nat) {
    at.index < s.L && at.block < |s.blocks| && PosAt(s.L, at) == p
  }

  ghost predicate TryOk(s: State, len: nat, seen: Head, goal: Head) {
    && len > 0
    && seen.At? && seen.index < s.L
    && goal.At? && goal.block == seen.block && goal.index == Min(s.L, seen.index + len)
    && Le(goal, s.phead)
    && (goal.hint ==> s.phead.At? && goal.block < s.phead.block)
    && (!goal.hint ==> seen.index + len <= s.L)
  }

  ghost predicate ClaimOk(s: State, id: Id, len: nat, from: Place, start: nat, upto: nat) {
    && len > 0
    && from.index < s.L && start == PosAt(s.L, from)
    && start < upto <= Base(s.L, from.block) + s.L
    && Consumes(s, id, start, upto)
    && upto == Min(Base(s.L, from.block) + s.L, start + len)
    && s.phead.At? && Le(At(from.block, upto - Base(s.L, from.block), false), s.phead)
  }

  ghost predicate HoldsC(s: State, id: Id, from: Place) {
    && s.clock == Some(id)
    && s.chead.At? && s.chead.index == s.L && s.chead.block == from.block
  }

  ghost predicate WalkOk(s: State, id: Id, w: Walk) {
    && ClaimOk(s, id, w.len, w.from, w.start, Base(s.L, w.from.block) + s.L)
    && HoldsC(s, id, w.from)
    && w.ph.At? && Le(w.ph, s.phead) && w.ph.index <= s.L
    && Le(At(w.from.block, s.L, false), w.ph)
    && w.from.block <= w.at.block <= w.ph.block
    && (if w.at.block == w.from.block then w.at == w.from else w.at.index == 0)
    && PosAt(s.L, w.at) + w.remaining == w.start + w.len
  }

  ghost predicate IterOk(s: State, id: Id, it: Iter) {
    && it.start + |it.got| + it.len < Base(s.L, |s.blocks|)
    && Consumes(s, id, it.start, it.start + |it.got| + it.len)
    && it.start + |it.got| <= |s.input|
    && (forall j :: 0 <= j < |it.got| ==> it.got[j] == s.input[it.start + j])
    && it.pending <= |it.got|
  }

  /** The pending slots of the iterator lie in block `k`. */
  ghost predicate Segment(s: State, it: Iter, k: nat) {
    && k < |s.blocks|
    && Base(s.L, k) + it.pending <= it.start + |it.got| <= Base(s.L, k) + s.L
  }

  /** Where an iterator that has slots left stands. */
  ghost predicate Cursor(s: State, it: Iter) {
    it.len > 0 ==> PlaceOk(s, it.at, it.start + |it.got|)
  }

  ghost predicate FillingOk(s: State, id: Id, items: seq<Entry>, f: Fill, pc: FillPc) {
    && FillOk(s, id, items, f)
    && (pc.StoreRoot? ==> f.at.block + 1 == |s.blocks|)
    && (pc.Advance? ==>
          && pc.next == (if f.at.block + 1 < |s.blocks| then Some(f.at.block + 1) else None)
          && (pc.next.None? ==> f.root == 0))
  }

  ghost predicate WritingOk(s: State, id: Id, items: seq<Entry>, start: nat, done: nat, pc: WritePc) {
    && WriteOk(s, id, items, start, done)
    && match pc
       case Pick(at) => PlaceOk(s, at, start + done)
       case WaitNext(slot) =>
         done < |items| && PlaceOk(s, slot, start + done) && slot.index + 1 == s.L
       case Put(slot, at) =>
         done < |items| && PlaceOk(s, slot, start + done) && PlaceOk(s, at, start + done + 1)
       case Commit(slot, at) =>
         && done < |items| && PlaceOk(s, slot, start + done) && PlaceOk(s, at, start + done + 1)
         && start + done < |s.slots| && items[done].Some?
         && s.slots[start + done].value == items[done]
  }

  ghost predicate RecheckOk(s: State, id: Id, len: nat, seen: Head, goal: Head) {
    && TryOk(s, len, seen, goal)
    && ClaimOk(s, id, len, Place(seen.block, seen.index), Pos(s.L, seen), Pos(s.L, goal))
    && (goal.index == s.L ==> HoldsC(s, id, Place(seen.block, seen.index)))
  }

  ghost predicate WalkLoadOk(s: State, id: Id, len: nat, from: Place, start: nat) {
    && ClaimOk(s, id, len, from, start, Base(s.L, from.block) + s.L)
    && HoldsC(s, id, from)
  }

  ghost predicate WalkingOk(s: State, id: Id, w: Walk, pc: WalkPc) {
    && WalkOk(s, id, w)
    && (pc.Move? && w.at.block < w.ph.block ==> pc.next == Some(w.at.block + 1))
    && (pc.Reload? ==> w.at.block < w.ph.block)
  }

  ghost predicate ReadingOk(s: State, id: Id, it: Iter, pc: IterPc) {
    && IterOk(s, id, it)
    && match pc
       case Read =>
         && Cursor(s, it)
         && if it.len == 0 then it.pending == 0 else Segment(s, it, it.at.block)
       case Follow =>
         && it.at.index == s.L && it.start + |it.got| == PosAt(s.L, it.at)
         && it.pending > 0 && Segment(s, it, it.at.block)
       case Consume(k) => Cursor(s, it) && it.pending > 0 && Segment(s, it, k)
       case Reclaim(k) =>
         Cursor(s, it) && it.pending == 0 && k < |s.blocks| && s.blocks[k].status == Held(id)
  }

  ghost predicate OpFacts(s: State, id: Id, op: Op) {
    match op
    case PLoad(items) => |items| > 0
    case PInit(items) => |items| > 0
    case PPublish(items) => |items| > 0 && s.init == Some(id)
    case PLoop(items, seen, chain) => |items| > 0 && s.phead.At?
    case PTry(items, seen, chain) =>
      && |items| > 0 && s.phead.At?
      && (seen.At? ==> seen.index < s.L)
      && Enough(s.L, seen, |items|, chain)
    case PFill(items, f, pc) => FillingOk(s, id, items, f, pc)
    case PWrite(items, start, done, pc) => WritingOk(s, id, items, start, done, pc)
    case PDone(items, start) => |items| > 0 ==> Produced(s, id, items, start, start + |items|)
    case CCheck(size) => true
    case CLoad(size) => size > 0 && s.chead.At?
    case CLoop(len, seen) =>
      && len > 0 && seen.At? && seen.index <= s.L && Le(seen, s.chead)
      && (seen.hint ==> s.phead.At? && seen.block < s.phead.block)
    case CTry(len, seen, goal) => TryOk(s, len, seen, goal) && s.chead.At?
    case CRecheck(len, seen, goal) => RecheckOk(s, id, len, seen, goal)
    case CWalkLoad(len, from, start) => WalkLoadOk(s, id, len, from, start)
    case CWalk(w, pc) => WalkingOk(s, id, w, pc)
    case CEmpty => true
    case CIter(it, pc) => ReadingOk(s, id, it, pc)
    case CDone(start, got) =>
      && Consumes(s, id, start, start + |got|)
      && start + |got| <= |s.input|
      && (forall j :: 0 <= j < |got| ==> got[j] == s.input[start + j])
    case CRepair => false
    case Fault => false
  }

  // `OpOk` and `Inv` equate their conjunctions with `true` so that the verifier handles
  // each of them as one fact where a lemma passes it on.

  ghost predicate OpOk(s: State, id: Id, op: Op) {
    OpFacts(s, id, op) == true
  }

  ghost predicate Ops(s: State) {
    forall id :: 0 <= id < |s.ops| ==> OpOk(s, id, s.ops[id])
  }

  ghost predicate Facts(s: State) {
    Shape(s) && Heads(s) && Locks(s) && Slots(s) && Reads(s) && Blocks(s) && Ops(s)
  }

  ghost predicate Inv(s: State) {
    Facts(s) == true
  }

  // ---------- interference ----------

  predicate Extends<A(==)>(a: seq<A>, b: seq<A>) {
    |a| <= |b| && forall p :: 0 <= p < |a| ==> b[p] == a[p]
  }

  predicate SamePlace(a: Head, b: Head) {
    a.At? && b.At? && a.block == b.block && a.index == b.index
  }

  ghost predicate Untouched(s: State, s': State, id: Id) {
    && s'.L == s.L && |s.blocks| <= |s'.blocks|
    && Le(s.phead, s'.phead) && Le(s.chead, s'.chead)
    && Extends(s.input, s'.input) && Extends(s.producer, s'.producer) && Extends(s.consumer, s'.consumer)
    && (s.plock == Some(id) ==>
          s'.plock == Some(id) && SamePlace(s.phead, s'.phead) && |s'.blocks| == |s.blocks|)
    && (s.clock == Some(id) ==> s'.clock == Some(id) && SamePlace(s.chead, s'.chead))
    && (s.init == Some(id) ==> s'.init == Some(id))
    && |s.slots| <= |s'.slots|
    && (forall p :: 0 <= p < |s.slots| && p < |s.producer| && s.producer[p] == id ==> s'.slots[p] == s.slots[p])
    && (forall k :: 0 <= k < |s.blocks| && s.blocks[k].status == Held(id) ==> s'.blocks[k].status == Held(id))
  }

  /** What a step of another call leaves for call `id`. */
  ghost predicate Rely(s: State, s': State, id: Id) {
    Untouched(s, s', id) == true
  }

  lemma StableFilling(s: State, s': State, id: Id, items: seq<Entry>, f: Fill, pc: FillPc)
    requires FillingOk(s, id, items, f, pc) && Rely(s, s', id)
    ensures FillingOk(s', id, items, f, pc)
  {
  }

  lemma StableWriting(s: State, s': State, id: Id, items: seq<Entry>, start: nat, done: nat, pc: WritePc)
    requires WritingOk(s, id, items, start, done, pc) && Rely(s, s', id)
    ensures WritingOk(s', id, items, start, done, pc)
  {
    BaseMono(s.L, |s.blocks|, |s'.blocks|);
  }

  lemma StableClaim(s: State, s': State, id: Id, len: nat, from: Place, start: nat, upto: nat)
    requires ClaimOk(s, id, len, from, start, upto) && Rely(s, s', id)
    ensures ClaimOk(s', id, len, from, start, upto)
  {
  }

  lemma StableRecheck(s: State, s': State, id: Id, len: nat, seen: Head, goal: Head)
    requires RecheckOk(s, id, len, seen, goal) && Rely(s, s', id)
    ensures RecheckOk(s', id, len, seen, goal)
  {
    StableClaim(s, s', id, len, Place(seen.block, seen.index), Pos(s.L, seen), Pos(s.L, goal));
  }

  lemma StableWalking(s: State, s': State, id: Id, w: Walk, pc: WalkPc)
    requires WalkingOk(s, id, w, pc) && Rely(s, s', id)
    ensures WalkingOk(s', id, w, pc)
  {
    StableClaim(s, s', id, w.len, w.from, w.start, Base(s.L, w.from.block) + s.L);
  }

  lemma StableReading(s: State, s': State, id: Id, it: Iter, pc: IterPc)
    requires ReadingOk(s, id, it, pc) && Rely(s, s', id)
    ensures ReadingOk(s', id, it, pc)
  {
    BaseMono(s.L, |s.blocks|, |s'.blocks|);
  }

  lemma StableRest(s: State, s': State, id: Id, op: Op)
    requires !op.PFill? && !op.PWrite? && !op.CRecheck? && !op.CWalkLoad? && !op.CWalk? && !op.CIter?
    requires OpFacts(s, id, op) && Rely(s, s', id)
    ensures OpFacts(s', id, op)
  {
  }

  lemma StablePush(s: State, s': State, id: Id, op: Op)
    requires op.PFill? || op.PWrite?
    requires OpOk(s, id, op) && Rely(s, s', id)
    ensures OpOk(s', id, op)
  {
    if op.PFill? {
      StableFilling(s, s', id, op.items, op.f, op.fpc);
    } else {
      StableWriting(s, s', id, op.items, op.start, op.done, op.wpc);
    }
  }

  lemma StablePop(s: State, s': State, id: Id, op: Op)
    requires op.CRecheck? || op.CWalkLoad? || op.CWalk?
    requires OpOk(s, id, op) && Rely(s, s', id)
    ensures OpOk(s', id, op)
  {
    if op.CRecheck? {
      StableRecheck(s, s', id, op.len, op.seen, op.goal);
    } else if op.CWalkLoad? {
      StableClaim(s, s', id, op.len, op.from, op.start, Base(s.L, op.from.block) + s.L);
    } else {
      StableWalking(s, s', id, op.w, op.cpc);
    }
  }

  /** No step of another call invalidates what a call relies on. */
  lemma Stable(s: State, s': State, id: Id, op: Op)
    requires OpOk(s, id, op) && Rely(s, s', id)
    ensures OpOk(s', id, op)
  {
    if op.PFill? || op.PWrite? {
      StablePush(s, s', id, op);
    } else if op.CRecheck? || op.CWalkLoad? || op.CWalk? {
      StablePop(s, s', id, op);
    } else if op.CIter? {
      StableReading(s, s', id, op.it, op.ipc);
    } else {
      StableRest(s, s', id, op);
    }
  }
}
