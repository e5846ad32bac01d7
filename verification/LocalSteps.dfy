/** The steps that change nothing but their own call keep the invariant. */
module LocalSteps {
  import opened Positions
  import opened Machine
  import opened Invariant

  // ---------- facts used by several steps ----------

  /** Whatever block `id` holds, it is about to reclaim. */
  ghost predicate HoldOk(s: State, id: Id, op: Op) {
    forall k :: 0 <= k < |s.blocks| && s.blocks[k].status == Held(id) ==> op.CIter? && op.ipc == Reclaim(k)
  }

  /** The roles of call `id` in the shared state fit its next program point. */
  ghost predicate Roles(s: State, id: Id, op: Op) {
    && (s.plock == Some(id) ==> op.PFill?)
    && (s.clock == Some(id) ==> Walking(s.L, op))
    && (s.init == Some(id) ==> op.PPublish?)
    && HoldOk(s, id, op)
  }

  /** The claims of call `id` stay as published and as consumed as they were. */
  ghost predicate SameProgress(s: State, id: Id, op: Op, op': Op) {
    && (forall p :: 0 <= p < |s.producer| && s.producer[p] == id ==> (Pending(op, p) <==> Pending(op', p)))
    && (forall p :: 0 <= p < |s.producer| && s.producer[p] == id && InBatch(op, p) ==> InBatch(op', p))
    && (forall p :: 0 <= p < |s.consumer| && s.consumer[p] == id && InTake(s.L, op, p) ==> InTake(s.L, op', p))
    && (forall p :: 0 <= p < |s.consumer| && s.consumer[p] == id ==> (HasSpent(op, p) <==> HasSpent(op', p)))
    && (forall p :: 0 <= p < |s.consumer| && s.consumer[p] == id && HasRead(op', p) ==>
          HasRead(op, p) || (p < |s.slots| && !s.slots[p].state.Vacant?))
  }

  /** A step that changes nothing but the program point of its own call. */
  lemma LocalStep(s: State, id: Id, op': Op)
    requires Inv(s) && id < |s.ops|
    requires OpOk(s, id, op') && Roles(s, id, op') && SameProgress(s, id, s.ops[id], op')
    ensures Inv(Set(s, id, op'))
  {
    var s' := Set(s, id, op');
    forall j | 0 <= j < |s'.ops|
      ensures OpOk(s', j, s'.ops[j])
    {
      Stable(s, s', j, s'.ops[j]);
    }
    SameLedger(s, s', id);
    SameBlocks(s, s', id);
  }

  ghost predicate OnlyOp(s: State, s': State, id: Id) {
    && id < |s.ops| == |s'.ops|
    && (forall j :: 0 <= j < |s.ops| && j != id ==> s'.ops[j] == s.ops[j])
    && s'.L == s.L && s'.input == s.input && s'.producer == s.producer && s'.consumer == s.consumer
    && s'.slots == s.slots && s'.spent == s.spent
  }

  /** A step that moves neither claims nor slots. */
  lemma SameLedger(s: State, s': State, id: Id)
    requires Inv(s) && OnlyOp(s, s', id) && SameProgress(s, id, s.ops[id], s'.ops[id])
    ensures Slots(s') && Reads(s')
  {
    forall p | 0 <= p < |s'.slots|
      ensures if p < |s'.producer| && p < |s'.input| then SlotOk(s', p) else s'.slots[p].state.Vacant?
    {
      assert p < |s.producer| && p < |s.input| ==> SlotOk(s, p);
    }
    forall p | 0 <= p < |s'.consumer|
      ensures ReadOk(s', p)
    {
      assert ReadOk(s, p);
    }
  }

  lemma SameBlocks(s: State, s': State, id: Id)
    requires Inv(s) && OnlyOp(s, s', id) && s'.blocks == s.blocks && HoldOk(s, id, s'.ops[id])
    ensures Shape(s') && Blocks(s')
  {
    forall k | 0 <= k < |s'.blocks|
      ensures BlockOk(s', k)
    {
      assert BlockOk(s, k);
    }
  }

  /** Only a call about to reclaim a block holds one. */
  lemma NoHold(s: State, id: Id, op': Op)
    requires Inv(s) && id < |s.ops|
    requires s.ops[id].CIter? ==> !s.ops[id].ipc.Reclaim?
    ensures HoldOk(s, id, op')
  {
    forall k | 0 <= k < |s.blocks|
      ensures s.blocks[k].status != Held(id)
    {
      assert BlockOk(s, k);
    }
  }

  /** A call outside the critical regions holds nothing. */
  lemma NoRoles(s: State, id: Id, op': Op)
    requires Inv(s) && id < |s.ops|
    requires !s.ops[id].PFill? && !Walking(s.L, s.ops[id]) && !s.ops[id].PPublish?
    requires s.ops[id].CIter? ==> !s.ops[id].ipc.Reclaim?
    ensures Roles(s, id, op')
  {
    NoHold(s, id, op');
  }

  /** Consumers never overtake producers. */
  lemma Bounds(s: State)
    requires Shape(s) && Heads(s)
    ensures |s.consumer| <= |s.producer| <= |s.slots|
  {
    if s.phead.At? {
      BaseMono(s.L, s.phead.block + 1, |s.blocks|);
      if s.chead.At? {
        BaseMono(s.L, s.chead.block, s.phead.block);
      }
    }
  }

  lemma VacantIsUnspent(s: State, p: nat)
    requires Reads(s) && p < |s.slots| && s.slots[p].state.Vacant?
    ensures p !in s.spent
  {
    assert p < |s.consumer| ==> ReadOk(s, p);
  }

  /** A block with a slot that is not accounted for is live. */
  lemma UnspentIsLive(s: State, k: nat, p: nat)
    requires Blocks(s) && k < |s.blocks|
    requires Base(s.L, k) <= p < Base(s.L, k) + s.L && p !in s.spent
    ensures IsLive(s, k)
  {
    assert BlockOk(s, k);
    PartFull(s.L, s.spent, k);
    assert p in Range(Base(s.L, k), Base(s.L, k) + s.L);
  }

  lemma FillLive(s: State, id: Id)
    requires Inv(s) && id < |s.ops| && s.ops[id].PFill?
    ensures IsLive(s, s.ops[id].f.at.block)
  {
    var op := s.ops[id];
    assert OpOk(s, id, op);
    var f := op.f;
    Bounds(s);
    if f.at.block == f.from.block {
      assert SlotOk(s, f.start);
      VacantIsUnspent(s, f.start);
      UnspentIsLive(s, f.at.block, f.start);
    } else {
      BaseMono(s.L, f.from.block, f.at.block);
      UnspentIsLive(s, f.at.block, Base(s.L, f.at.block));
    }
  }

  lemma WriteLive(s: State, id: Id, slot: Place)
    requires Inv(s) && id < |s.ops| && s.ops[id].PWrite?
    requires s.ops[id].done < |s.ops[id].items|
    requires PlaceOk(s, slot, s.ops[id].start + s.ops[id].done)
    ensures InBounds(s, slot)
  {
    var op := s.ops[id];
    assert OpOk(s, id, op);
    var p := op.start + op.done;
    Bounds(s);
    assert SlotOk(s, p);
    VacantIsUnspent(s, p);
    UnspentIsLive(s, slot.block, p);
  }

  lemma WalkLive(s: State, id: Id)
    requires Inv(s) && id < |s.ops| && s.ops[id].CWalk?
    ensures IsLive(s, s.ops[id].w.at.block)
  {
    var w := s.ops[id].w;
    assert OpOk(s, id, s.ops[id]);
    if w.at.block == w.from.block {
      assert ReadOk(s, w.start);
      UnspentIsLive(s, w.at.block, w.start);
    } else {
      BaseMono(s.L, w.from.block, w.at.block);
      UnspentIsLive(s, w.at.block, Base(s.L, w.at.block));
    }
  }

  lemma IterLive(s: State, id: Id, k: nat, p: nat)
    requires Inv(s) && id < |s.ops| && s.ops[id].CIter?
    requires s.ops[id].it.start <= p < s.ops[id].it.start + |s.ops[id].it.got| + s.ops[id].it.len
    requires !HasSpent(s.ops[id], p)
    requires k < |s.blocks| && Base(s.L, k) <= p < Base(s.L, k) + s.L
    ensures IsLive(s, k) && p !in s.spent
  {
    assert OpOk(s, id, s.ops[id]);
    assert ReadOk(s, p);
    UnspentIsLive(s, k, p);
  }

  // ---------- steps that change only their own call ----------

  lemma PLoadKeeps(s: State, id: Id)
    requires Inv(s) && id < |s.ops| && s.ops[id].PLoad?
    ensures Inv(StepPLoad(s, id))
  {
    var op := s.ops[id];
    assert OpOk(s, id, op);
    var op' := if s.phead.Zero? then PInit(op.items) else PLoop(op.items, s.phead, 0);
    NoRoles(s, id, op');
    LocalStep(s, id, op');
  }

  /** The growth rule asks for what the batch will need. */
  lemma NeedIsEnough(L: nat, seen: Head, len: nat, chain: nat)
    requires seen.At? && seen.index < L && Need(L, seen, len) <= Base(L, chain)
    ensures Enough(L, seen, len, chain)
  {
    assert Base(L, chain + 1) == Base(L, chain) + L;
    assert Base(L, chain + 2) == Base(L, chain + 1) + L;
  }

  /** It asks for no more: with less the walk would not end inside the chain. */
  lemma NeedIsLeast(L: nat, seen: Head, len: nat, chain: nat)
    requires seen.At? && seen.index < L && Enough(L, seen, len, chain)
    ensures Need(L, seen, len) <= Base(L, chain)
  {
    assert Base(L, chain + 1) == Base(L, chain) + L;
    assert Base(L, chain + 2) == Base(L, chain + 1) + L;
  }

  lemma PLoopOp(s: State, id: Id, c: Choice)
    requires Heads(s) && id < |s.ops| && s.ops[id].PLoop? && OpOk(s, id, s.ops[id])
    ensures var s' := StepPLoop(s, id, c); s' == Set(s, id, s'.ops[id]) && OpOk(s, id, s'.ops[id])
    ensures var op' := StepPLoop(s, id, c).ops[id]; op'.PLoop? || op'.PTry?
  {
    var op := s.ops[id];
    if op.seen.At? && op.seen.index < s.L && Need(s.L, op.seen, |op.items|) <= Base(s.L, c.chain) {
      NeedIsEnough(s.L, op.seen, |op.items|, c.chain);
    }
  }

  lemma PLoopKeeps(s: State, id: Id, c: Choice)
    requires Inv(s) && id < |s.ops| && s.ops[id].PLoop?
    ensures Inv(StepPLoop(s, id, c))
  {
    PLoopOp(s, id, c);
    var op' := StepPLoop(s, id, c).ops[id];
    NoRoles(s, id, op');
    LocalStep(s, id, op');
  }

  lemma PFillKeeps(s: State, id: Id)
    requires Inv(s) && id < |s.ops| && s.ops[id].PFill? && s.ops[id].fpc.LoadLink?
    ensures Inv(StepPFill(s, id))
  {
    var op := s.ops[id];
    assert OpOk(s, id, op);
    FillLive(s, id);
    var next := s.blocks[op.f.at.block].next;
    var op' := PFill(op.items, op.f, if next.None? then StoreRoot else Advance(next));
    FillRoles(s, id, op');
    LocalStep(s, id, op');
  }

  lemma FillRoles(s: State, id: Id, op': Op)
    requires Inv(s) && id < |s.ops| && s.ops[id].PFill? && op'.PFill?
    ensures Roles(s, id, op')
  {
    NoHold(s, id, op');
  }

  /** The walk moves on: the chain was long enough, so the link is not null. */
  lemma PMoveOnOp(s: State, id: Id, items: seq<Entry>, f: Fill, next: Option<nat>)
    requires FillingOk(s, id, items, f, Advance(next))
    requires s.L - f.at.index <= f.remaining
    ensures next == Some(f.at.block + 1)
    ensures FillOk(s, id, items, f.(at := Place(f.at.block + 1, 0), remaining := f.remaining - (s.L - f.at.index)))
  {
    BlockBefore(s.L, f.at.block + 1, 0, |s.blocks| + f.root);
  }

  lemma PMoveOnKeeps(s: State, id: Id)
    requires Inv(s) && id < |s.ops| && s.ops[id].PFill? && s.ops[id].fpc.Advance?
    requires s.L - s.ops[id].f.at.index <= s.ops[id].f.remaining
    ensures Inv(StepPMove(s, id))
  {
    var op := s.ops[id];
    assert OpOk(s, id, op);
    PMoveOnOp(s, id, op.items, op.f, op.fpc.next);
    var op' := StepPMove(s, id).ops[id];
    FillRoles(s, id, op');
    LocalStep(s, id, op');
  }

  lemma PickOp(s: State, id: Id)
    requires id < |s.ops| && s.ops[id].PWrite? && s.ops[id].wpc.Pick? && OpOk(s, id, s.ops[id])
    ensures var s' := StepPick(s, id);
            s' == Set(s, id, s'.ops[id]) && OpOk(s, id, s'.ops[id]) && SameProgress(s, id, s.ops[id], s'.ops[id])
  {
  }

  lemma PickKeeps(s: State, id: Id)
    requires Inv(s) && id < |s.ops| && s.ops[id].PWrite? && s.ops[id].wpc.Pick?
    ensures Inv(StepPick(s, id))
  {
    PickOp(s, id);
    var op' := StepPick(s, id).ops[id];
    NoRoles(s, id, op');
    LocalStep(s, id, op');
  }

  /** `wait_next` finds the link set: it never waits. */
  lemma NextIsLinked(s: State, id: Id)
    requires Inv(s) && id < |s.ops| && s.ops[id].PWrite? && s.ops[id].wpc.WaitNext?
    ensures var k := s.ops[id].wpc.slot.block;
            IsLive(s, k) && k + 1 < |s.blocks| && s.blocks[k].next == Some(k + 1)
  {
    var op := s.ops[id];
    assert OpOk(s, id, op);
    WriteLive(s, id, op.wpc.slot);
    BlockBefore(s.L, op.wpc.slot.block + 1, 0, |s.blocks|);
  }

  lemma WaitNextOp(s: State, id: Id, items: seq<Entry>, start: nat, done: nat, slot: Place)
    requires WritingOk(s, id, items, start, done, WaitNext(slot)) && slot.block + 1 < |s.blocks|
    ensures WritingOk(s, id, items, start, done, Put(slot, Place(slot.block + 1, 0)))
  {
  }

  lemma WaitNextKeeps(s: State, id: Id)
    requires Inv(s) && id < |s.ops| && s.ops[id].PWrite? && s.ops[id].wpc.WaitNext?
    ensures Inv(StepWaitNext(s, id))
  {
    var op := s.ops[id];
    assert OpOk(s, id, op);
    NextIsLinked(s, id);
    WaitNextOp(s, id, op.items, op.start, op.done, op.wpc.slot);
    var op' := StepWaitNext(s, id).ops[id];
    NoRoles(s, id, op');
    LocalStep(s, id, op');
  }

  lemma CCheckKeeps(s: State, id: Id)
    requires Inv(s) && id < |s.ops| && s.ops[id].CCheck?
    ensures Inv(StepCCheck(s, id))
  {
    var op' := if s.ops[id].size == 0 || s.chead.Zero? then CEmpty else CLoad(s.ops[id].size);
    NoRoles(s, id, op');
    LocalStep(s, id, op');
  }

  lemma CLoadKeeps(s: State, id: Id)
    requires Inv(s) && id < |s.ops| && s.ops[id].CLoad?
    ensures Inv(StepCLoad(s, id))
  {
    assert OpOk(s, id, s.ops[id]);
    var op' := CLoop(s.ops[id].size, s.chead);
    NoRoles(s, id, op');
    LocalStep(s, id, op');
  }

  lemma CLoopOp(s: State, id: Id)
    requires Heads(s) && id < |s.ops| && s.ops[id].CLoop? && OpOk(s, id, s.ops[id])
    ensures var s' := StepCLoop(s, id); s' == Set(s, id, s'.ops[id]) && OpOk(s, id, s'.ops[id])
    ensures var op' := StepCLoop(s, id).ops[id]; op'.CLoop? || op'.CTry? || op'.CEmpty?
  {
  }

  lemma CLoopKeeps(s: State, id: Id)
    requires Inv(s) && id < |s.ops| && s.ops[id].CLoop?
    ensures Inv(StepCLoop(s, id))
  {
    CLoopOp(s, id);
    var op' := StepCLoop(s, id).ops[id];
    NoRoles(s, id, op');
    LocalStep(s, id, op');
  }

  lemma CNextKeeps(s: State, id: Id)
    requires Inv(s) && id < |s.ops| && s.ops[id].CWalk? && !s.ops[id].cpc.Move?
    ensures Inv(StepCNext(s, id))
  {
    var w := s.ops[id].w;
    assert OpOk(s, id, s.ops[id]);
    WalkLive(s, id);
    var op' := CWalk(w, Move(s.blocks[w.at.block].next));
    WalkRoles(s, id, op');
    LocalStep(s, id, op');
  }

  lemma WalkRoles(s: State, id: Id, op': Op)
    requires Inv(s) && id < |s.ops| && (Walking(s.L, s.ops[id]) || s.ops[id].CRecheck?)
    requires s.clock == Some(id) ==> Walking(s.L, op')
    ensures Roles(s, id, op')
  {
    NoHold(s, id, op');
  }

  lemma CWalkLoadKeeps(s: State, id: Id)
    requires Inv(s) && id < |s.ops| && s.ops[id].CWalkLoad?
    ensures Inv(StepCWalkLoad(s, id))
  {
    var op := s.ops[id];
    assert OpOk(s, id, op);
    var op' := CWalk(Walk(op.start, op.from, op.len, s.phead, op.from, op.len), LoadNext);
    WalkRoles(s, id, op');
    LocalStep(s, id, op');
  }

  /** With unique serials the second look at `phead` never finds it behind the claim. */
  lemma CRecheckOp(s: State, id: Id, len: nat, seen: Head, goal: Head)
    requires Shape(s) && Heads(s) && RecheckOk(s, id, len, seen, goal)
    ensures s.phead.block == seen.block ==> goal.index <= s.phead.index
    ensures OpOk(s, id, AfterClaim(s, len, seen, goal))
  {
    Bounds(s);
    BaseMono(s.L, goal.block + 1, |s.blocks|);
  }

  lemma CRecheckKeeps(s: State, id: Id)
    requires Inv(s) && id < |s.ops| && s.ops[id].CRecheck?
    ensures Inv(StepCRecheck(s, id))
  {
    var op := s.ops[id];
    assert OpOk(s, id, op);
    CRecheckOp(s, id, op.len, op.seen, op.goal);
    var op' := AfterClaim(s, op.len, op.seen, op.goal);
    WalkRoles(s, id, op');
    LocalStep(s, id, op');
  }

  lemma CWaitKeeps(s: State, id: Id)
    requires Inv(s) && id < |s.ops| && s.ops[id].CWalk? && s.ops[id].cpc.Move?
    requires s.ops[id].w.ph.block == s.ops[id].w.at.block && s.ops[id].w.ph.index == s.L
    ensures Inv(StepCMove(s, id))
  {
    var op := s.ops[id];
    assert OpOk(s, id, op);
    var w := op.w;
    var op' := if s.phead.block == w.at.block then CWalk(w.(ph := s.phead), op.cpc)
               else CWalk(w.(ph := s.phead), Reload);
    WalkRoles(s, id, op');
    LocalStep(s, id, op');
  }

  lemma CMoveOnOp(s: State, id: Id, w: Walk, next: Option<nat>)
    requires WalkingOk(s, id, w, Move(next)) && w.ph.block != w.at.block
    requires s.L - w.at.index <= w.remaining
    ensures next == Some(w.at.block + 1)
    ensures WalkOk(s, id, w.(at := Place(w.at.block + 1, 0), remaining := w.remaining - (s.L - w.at.index)))
  {
  }

  lemma CMoveOnKeeps(s: State, id: Id)
    requires Inv(s) && id < |s.ops| && s.ops[id].CWalk? && s.ops[id].cpc.Move?
    requires s.ops[id].w.ph.block != s.ops[id].w.at.block
    requires s.L - s.ops[id].w.at.index <= s.ops[id].w.remaining
    ensures Inv(StepCMove(s, id))
  {
    var op := s.ops[id];
    assert OpOk(s, id, op);
    CMoveOnOp(s, id, op.w, op.cpc.next);
    var op' := StepCMove(s, id).ops[id];
    WalkRoles(s, id, op');
    LocalStep(s, id, op');
  }

  lemma ReadOp(s: State, id: Id, it: Iter, e: Entry)
    requires ReadingOk(s, id, it, Read) && it.len > 0
    requires it.start + |it.got| < |s.input| && e == s.input[it.start + |it.got|]
    ensures OpFacts(s, id, AfterRead(s, it, e))
  {
  }

  lemma ReadProgress(s: State, id: Id, it: Iter, e: Entry)
    requires it.len > 0 && it.pending <= |it.got|
    requires it.start + |it.got| < |s.slots| && !s.slots[it.start + |it.got|].state.Vacant?
    ensures SameProgress(s, id, CIter(it, Read), AfterRead(s, it, e))
  {
  }

  lemma ReadKeeps(s: State, id: Id)
    requires Inv(s) && id < |s.ops| && s.ops[id].CIter? && s.ops[id].ipc.Read?
    ensures Inv(StepRead(s, id))
  {
    var it := s.ops[id].it;
    assert OpOk(s, id, s.ops[id]);
    if it.len == 0 {
      NoRoles(s, id, CDone(it.start, it.got));
      LocalStep(s, id, CDone(it.start, it.got));
    } else {
      var p := it.start + |it.got|;
      Bounds(s);
      IterLive(s, id, it.at.block, p);
      ReadSomeKeeps(s, id, p);
    }
  }

  lemma ReadSomeKeeps(s: State, id: Id, p: nat)
    requires Inv(s) && id < |s.ops| && s.ops[id].CIter? && s.ops[id].ipc.Read? && s.ops[id].it.len > 0
    requires InBounds(s, s.ops[id].it.at) && p == PosAt(s.L, s.ops[id].it.at) < |s.input|
    ensures Inv(StepRead(s, id))
  {
    var it := s.ops[id].it;
    if !s.slots[p].state.Vacant? {
      assert OpOk(s, id, s.ops[id]);
      assert SlotOk(s, p);
      var e := Content(s.slots[p]);
      ReadOp(s, id, it, e);
      ReadProgress(s, id, it, e);
      NoRoles(s, id, AfterRead(s, it, e));
      LocalStep(s, id, AfterRead(s, it, e));
    }
  }

  lemma FollowOp(s: State, id: Id, it: Iter)
    requires ReadingOk(s, id, it, Follow)
    ensures it.at.block + 1 < |s.blocks|
    ensures ReadingOk(s, id, it.(at := Place(it.at.block + 1, 0)), Consume(it.at.block))
  {
    BlockBefore(s.L, it.at.block + 1, 0, |s.blocks|);
  }

  lemma FollowKeeps(s: State, id: Id)
    requires Inv(s) && id < |s.ops| && s.ops[id].CIter? && s.ops[id].ipc.Follow?
    ensures Inv(StepFollow(s, id))
  {
    var it := s.ops[id].it;
    assert OpOk(s, id, s.ops[id]);
    IterLive(s, id, it.at.block, it.start + |it.got| - 1);
    FollowOp(s, id, it);
    var op' := StepFollow(s, id).ops[id];
    NoRoles(s, id, op');
    LocalStep(s, id, op');
  }
}
