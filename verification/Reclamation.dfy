/** When blocks are reclaimed, how their slots are accounted for, and what dropping the
    queue drops. */
module Reclamation {
  import opened Positions
  import opened Machine
  import opened Invariant
  import opened LocalSteps
  import opened PushSteps
  import opened PopSteps
  import opened Safety

  // ---------- reclamation is safe ----------

  /** Position `p` has been read and accounted for by the consumer that claimed it. */
  ghost predicate DrainedAt(s: State, p: nat) {
    && p < |s.consumer| && s.consumer[p] < |s.ops| && p < |s.slots| && p in s.spent
    && HasRead(s.ops[s.consumer[p]], p) && HasSpent(s.ops[s.consumer[p]], p)
    && !s.slots[p].state.Vacant?
  }

  ghost predicate Drained(s: State, k: nat) {
    forall p :: Base(s.L, k) <= p < Base(s.L, k) + s.L ==> DrainedAt(s, p)
  }

  lemma CompleteIsDrained(s: State, k: nat)
    requires Inv(s) && k < |s.blocks| && !IsLive(s, k)
    ensures Drained(s, k)
  {
    assert BlockOk(s, k);
    PartFull(s.L, s.spent, k);
    forall p | Base(s.L, k) <= p < Base(s.L, k) + s.L
      ensures DrainedAt(s, p)
    {
      assert p in Range(Base(s.L, k), Base(s.L, k) + s.L);
      assert ReadOk(s, p);
    }
  }

  /** The consumer that has parked `chead` still owes the last slot of that block. */
  lemma ParkedOwesLast(s: State)
    requires Inv(s) && s.clock.Some?
    ensures Base(s.L, s.chead.block) + s.L - 1 !in s.spent
  {
    var id := s.clock.value;
    assert OpOk(s, id, s.ops[id]);
    assert ReadOk(s, Base(s.L, s.chead.block) + s.L - 1);
  }

  lemma CompleteIsBehind(s: State, k: nat)
    requires Inv(s) && k < |s.blocks| && !IsLive(s, k)
    ensures s.chead.At? && k < s.chead.block
  {
    CompleteIsDrained(s, k);
    var last := Base(s.L, k) + s.L - 1;
    assert DrainedAt(s, last);
    if s.clock.Some? {
      ParkedOwesLast(s);
    }
    if s.chead.block < k {
      BaseMono(s.L, s.chead.block, k);
    }
  }

  /** A block is handed to the pool or to the allocator only when all its slots have been read
      and accounted for and `chead` is in a later block. */
  lemma ReclaimedIsDead(run: seq<State>, i: nat, k: nat)
    requires IsRun(run) && i < |run| && k < |run[i].blocks| && !IsLive(run[i], k)
    ensures Drained(run[i], k) && run[i].chead.At? && k < run[i].chead.block
  {
    RunKeeps(run, i);
    CompleteIsDrained(run[i], k);
    CompleteIsBehind(run[i], k);
  }

  // ---------- each block completes once ----------

  /** Blocks are never removed, and a complete block stays complete. */
  ghost predicate BlocksAge(s: State, s': State) {
    && |s.blocks| <= |s'.blocks|
    && forall k :: 0 <= k < |s.blocks| && !s.blocks[k].status.Live? ==> !s'.blocks[k].status.Live?
  }

  lemma PushAges(s: State, id: Id, c: Choice)
    requires Inv(s) && id < |s.ops| && PushOp(s.ops[id])
    ensures BlocksAge(s, Act(s, id, c))
  {
    if s.ops[id].PFill? && s.ops[id].fpc.StoreRoot? {
      assert OpOk(s, id, s.ops[id]);
      LinkShape(s, s.ops[id].f.root);
    } else if s.ops[id].PInit? {
    } else {
      PushLeavesBlocks(s, id, c);
    }
  }

  lemma PushLeavesBlocks(s: State, id: Id, c: Choice)
    requires id < |s.ops| && PushOp(s.ops[id]) && !s.ops[id].PInit?
    requires s.ops[id].PFill? ==> !s.ops[id].fpc.StoreRoot?
    ensures Act(s, id, c).blocks == s.blocks
  {
  }

  lemma PopAges(s: State, id: Id, c: Choice)
    requires id < |s.ops| && !PushOp(s.ops[id])
    ensures BlocksAge(s, Act(s, id, c))
  {
  }

  lemma StepAges(s: State, step: Step)
    requires Inv(s) && Enabled(s, step)
    ensures BlocksAge(s, Apply(s, step))
  {
    if step.Run? {
      if PushOp(s.ops[step.id]) {
        PushAges(s, step.id, step.c);
      } else {
        PopAges(s, step.id, step.c);
      }
    }
  }

  lemma RunStepAges(run: seq<State>, j: nat)
    requires IsRun(run) && 0 < j < |run|
    ensures BlocksAge(run[j - 1], run[j])
  {
    RunKeeps(run, j - 1);
    assert Next(run[j - 1], run[j]);
    var step :| Enabled(run[j - 1], step) && run[j] == Apply(run[j - 1], step);
    StepAges(run[j - 1], step);
  }

  ghost predicate AgesAt(run: seq<State>, j: nat) {
    0 < j < |run| && BlocksAge(run[j - 1], run[j])
  }

  lemma {:induction false} StaysDead(run: seq<State>, i: nat, j: nat, k: nat)
    requires i <= j < |run| && k < |run[i].blocks| && !IsLive(run[i], k)
    requires forall t :: i < t <= j ==> AgesAt(run, t)
    ensures k < |run[j].blocks| && !IsLive(run[j], k)
  {
    if i < j {
      StaysDead(run, i, j - 1, k);
      assert AgesAt(run, j);
    }
  }

  lemma RunAges(run: seq<State>, i: nat, j: nat, k: nat)
    requires IsRun(run) && i <= j < |run| && k < |run[i].blocks| && !IsLive(run[i], k)
    ensures k < |run[j].blocks| && !IsLive(run[j], k)
  {
    forall t | i < t <= j ensures AgesAt(run, t) {
      RunStepAges(run, t);
    }
    StaysDead(run, i, j, k);
  }

  /** Block `k` completes between states `i` and `i + 1`. */
  ghost predicate Completes(run: seq<State>, i: nat, k: nat)
    requires i + 1 < |run|
  {
    && k < |run[i].blocks| && k < |run[i + 1].blocks|
    && IsLive(run[i], k) && !IsLive(run[i + 1], k)
  }

  /** No block completes twice in a run. */
  lemma CompletesOnce(run: seq<State>, i: nat, j: nat, k: nat)
    requires IsRun(run) && i < j && j + 1 < |run| && Completes(run, i, k)
    ensures !Completes(run, j, k)
  {
    RunAges(run, i + 1, j, k);
  }

  // ---------- accounting ----------

  /** However far an iterator got before it was dropped, a drained claim is accounted for slot by slot. */
  lemma DrainedIsAccounted(run: seq<State>, i: nat, id: Id)
    requires IsRun(run) && i < |run| && id < |run[i].ops| && run[i].ops[id].CDone?
    ensures var op := run[i].ops[id];
            forall p :: op.start <= p < op.start + |op.got| ==> p in run[i].spent
  {
    var s, op := run[i], run[i].ops[id];
    RunKeeps(run, i);
    assert OpOk(s, id, op);
    forall p | op.start <= p < op.start + |op.got|
      ensures p in s.spent
    {
      assert ReadOk(s, p);
    }
  }

  /** At quiescence the counters record exactly the claimed slots, whether they were updated
      per slot or per segment. */
  lemma QuietSpent(s: State)
    requires Inv(s) && Quiescent(s)
    ensures s.spent == Range(0, |s.consumer|)
  {
    forall p | 0 <= p < |s.consumer|
      ensures p in s.spent
    {
      assert ReadOk(s, p);
      assert Finished(s.ops[s.consumer[p]]);
    }
  }

  /** Slots `0, ..., FirstUnread(s, k) - 1` of block `k` lie before `chead`. */
  function FirstUnread(s: State, k: nat): nat
    requires s.chead.At?
  {
    if k < s.chead.block then s.L else if k == s.chead.block then s.chead.index else 0
  }

  /** The part of a block that lies before `chead`. */
  lemma PartBefore(s: State, k: nat)
    requires s.chead.At? && s.chead.index <= s.L
    ensures |Part(s.L, Range(0, Pos(s.L, s.chead)), k)| == FirstUnread(s, k)
  {
    var lo, n := Base(s.L, k), FirstUnread(s, k);
    if k < s.chead.block {
      BaseMono(s.L, k, s.chead.block);
    } else {
      BaseMono(s.L, s.chead.block, k);
    }
    assert Part(s.L, Range(0, Pos(s.L, s.chead)), k) == Range(lo, lo + n);
    RangeSize(lo, lo + n);
  }

  lemma QuietCounters(s: State, k: nat)
    requires Inv(s) && Quiescent(s) && k < |s.blocks|
    ensures s.chead.At? && s.chead.index < s.L
    ensures s.blocks[k].consumed == FirstUnread(s, k)
    ensures s.blocks[k].status.Gone? <==> k < s.chead.block
  {
    assert BlockOk(s, k);
    QuietHeads(s);
    QuietSpent(s);
    PartBefore(s, k);
    assert s.blocks[k].status.Held? ==> Finished(s.ops[s.blocks[k].status.owner]);
  }

  lemma QuietHeads(s: State)
    requires Inv(s) && Quiescent(s) && s.blocks != []
    ensures s.chead.At? && s.chead.index < s.L && s.phead.At? && s.phead.index < s.L
  {
    assert s.init.Some? ==> Finished(s.ops[s.init.value]);
    assert s.clock.Some? ==> Finished(s.ops[s.clock.value]);
    assert s.plock.Some? ==> Finished(s.ops[s.plock.value]);
  }

  // ---------- dropping the queue ----------

  /** The positions whose values `Block::free` drops: those at or above the counter that are WRITTEN. */
  ghost function FreeDrops(s: State, k: nat): (r: set<nat>)
    requires k < |s.blocks|
  {
    set p | p in Range(Base(s.L, k) + s.blocks[k].consumed, Base(s.L, k) + s.L)
            && p < |s.slots| && s.slots[p].state.Written?
  }

  /** `Drop for UBQ`: frees the blocks from `chead` on, following the links. */
  ghost function DropFrom(s: State, k: nat): (r: set<nat>)
    requires k < |s.blocks|
    decreases |s.blocks| - k
  {
    FreeDrops(s, k) +
    match s.blocks[k].next
    case Some(n) => if k < n < |s.blocks| then DropFrom(s, n) else {}
    case None => {}
  }

  ghost function DropQueue(s: State): set<nat> {
    if s.chead.At? && s.chead.block < |s.blocks| then DropFrom(s, s.chead.block) else {}
  }

  lemma FreeDropsUnread(s: State, k: nat, p: nat)
    requires Inv(s) && Quiescent(s) && k < |s.blocks| && s.chead.At? && s.chead.block <= k
    requires Base(s.L, k) <= p < Base(s.L, k) + s.L
    ensures p in FreeDrops(s, k) <==> |s.consumer| <= p < |s.input| && s.input[p].Some?
  {
    QuietCounters(s, k);
    Bounds(s);
    BaseMono(s.L, k + 1, |s.blocks|);
    BaseMono(s.L, s.chead.block, k);
    if p < |s.input| {
      NothingIsLost(s, p);
      assert SlotOk(s, p);
    }
  }

  lemma {:induction false} DropFromUnread(s: State, k: nat, p: nat)
    requires Inv(s) && Quiescent(s) && k < |s.blocks| && s.chead.At? && s.chead.block <= k
    ensures p in DropFrom(s, k) <==> Base(s.L, k) <= p && |s.consumer| <= p < |s.input| && s.input[p].Some?
    decreases |s.blocks| - k
  {
    if Base(s.L, k) <= p < Base(s.L, k) + s.L {
      FreeDropsUnread(s, k, p);
    }
    if k + 1 < |s.blocks| {
      DropFromUnread(s, k + 1, p);
    } else {
      Bounds(s);
    }
  }

  /** Dropping a quiescent queue drops exactly the values that were pushed and not popped. */
  lemma DropDropsTheUnread(s: State, p: nat)
    requires Inv(s) && Quiescent(s)
    ensures p in DropQueue(s) <==> |s.consumer| <= p < |s.input| && s.input[p].Some?
  {
    if s.blocks != [] {
      QuietHeads(s);
      DropFromUnread(s, s.chead.block, p);
    }
  }

  /** Freeing a completed block drops nothing, although all its slots are still WRITTEN: its
      counter is the block length. */
  lemma CompletedDropsNothing(s: State, k: nat)
    requires Inv(s) && k < |s.blocks| && !IsLive(s, k)
    ensures FreeDrops(s, k) == {}
  {
    assert BlockOk(s, k);
    PartFull(s.L, s.spent, k);
  }

  /** In the step from state `t` block `k` is handed to the pool or to the allocator. */
  ghost predicate Reclaims(run: seq<State>, t: nat, k: nat) {
    && t + 1 < |run| && k < |run[t].blocks| && k < |run[t + 1].blocks|
    && run[t].blocks[k].status.Held? && run[t + 1].blocks[k].status.Gone?
  }

  /** Freeing a block that was reclaimed up to state `i` drops the value at position `p`. */
  ghost predicate DroppedEarly(run: seq<State>, i: nat, p: nat) {
    exists t, k :: 0 <= t < i && Reclaims(run, t, k) && p in FreeDrops(run[t], k)
  }

  lemma NothingDropsEarly(run: seq<State>, i: nat, p: nat)
    requires IsRun(run) && i < |run|
    ensures !DroppedEarly(run, i, p)
  {
    forall t, k | 0 <= t < i && Reclaims(run, t, k) ensures p !in FreeDrops(run[t], k) {
      RunKeeps(run, t);
      CompletedDropsNothing(run[t], k);
    }
  }

  /** Over a whole lifetime every pushed value leaves once: it is moved out by one pop, or it is
      dropped by a free, and never both.  The frees are those of the blocks reclaimed on the way
      and those of dropping the queue. */
  lemma EachValueLeavesOnce(run: seq<State>, i: nat, p: nat)
    requires IsRun(run) && i < |run| && Quiescent(run[i])
    requires p < |run[i].input| && run[i].input[p].Some?
    ensures var s := run[i];
            var popped := p < |s.consumer|;
            && ((DroppedEarly(run, i, p) || p in DropQueue(s)) <==> !popped)
            && (popped ==>
                  && s.consumer[p] < |s.ops| && s.ops[s.consumer[p]].CDone?
                  && var op := s.ops[s.consumer[p]];
                     op.start <= p < op.start + |op.got| && op.got[p - op.start] == s.input[p])
  {
    RunKeeps(run, i);
    NothingDropsEarly(run, i, p);
    DropDropsTheUnread(run[i], p);
    NothingIsLost(run[i], p);
  }
}
