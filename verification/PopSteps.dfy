/** The steps of `pop_batch` and of its iterator that change shared memory keep the invariant. */
module PopSteps {
  import opened Positions
  import opened Machine
  import opened Invariant
  import opened LocalSteps
  import opened PushSteps

  // ---------- claims ----------

  /** The state after `id` claims everything below `upto`, moves to `op'` and leaves `chead` at `h`. */
  function Taken(s: State, id: Id, upto: nat, h: Head, lock: Option<Id>, op': Op): State
    requires id < |s.ops|
  {
    Set(ClaimPop(s.(chead := h, clock := lock), id, upto), id, op')
  }

  /** A call that has claimed slots but has not read any. */
  predicate Unread(op: Op) {
    op.CTry? || op.CRecheck? || op.CWalkLoad? || op.CWalk? || (op.CIter? && op.it.got == [] && op.ipc.Read?)
  }

  lemma TakeShared(s: State, id: Id, upto: nat, h: Head, lock: Option<Id>, op': Op)
    requires Inv(s) && id < |s.ops| && Unread(s.ops[id]) && Unread(op')
    requires forall p :: 0 <= p < |s.consumer| && s.consumer[p] == id && InTake(s.L, s.ops[id], p) ==> InTake(s.L, op', p)
    requires forall p :: |s.consumer| <= p < upto ==> InTake(s.L, op', p)
    ensures var s' := Taken(s, id, upto, h, lock, op'); Shape(s') && Slots(s') && Reads(s') && Blocks(s')
  {
    var s' := Taken(s, id, upto, h, lock, op');
    assert Slots(s') by {
      forall p | 0 <= p < |s'.slots| && p < |s'.producer| && p < |s'.input|
        ensures SlotOk(s', p)
      {
        assert SlotOk(s, p);
      }
    }
    assert Reads(s') by {
      forall p | 0 <= p < |s'.consumer|
        ensures ReadOk(s', p)
      {
        assert p < |s.consumer| ==> ReadOk(s, p);
      }
    }
    assert Blocks(s') by {
      forall k | 0 <= k < |s'.blocks|
        ensures BlockOk(s', k)
      {
        assert BlockOk(s, k);
      }
    }
  }

  lemma TakeOthers(s: State, id: Id, upto: nat, h: Head, lock: Option<Id>, op': Op)
    requires Inv(s) && id < |s.ops|
    requires Le(s.chead, h) && s.chead.At? && (s.clock == None || s.clock == Some(id)) && h.At?
    ensures var s' := Taken(s, id, upto, h, lock, op');
            forall j :: 0 <= j < |s.ops| && j != id ==> Rely(s, s', j)
  {
  }

  lemma CTryKeeps(s: State, id: Id, c: Choice)
    requires Inv(s) && id < |s.ops| && s.ops[id].CTry?
    ensures Inv(StepCTry(s, id, c))
  {
    var op := s.ops[id];
    assert OpOk(s, id, op);
    if s.chead != op.seen || c.spurious {
      NoRoles(s, id, CLoop(op.len, s.chead));
      LocalStep(s, id, CLoop(op.len, s.chead));
    } else {
      CTakeKeeps(s, id, c);
    }
  }

  lemma CTakeKeeps(s: State, id: Id, c: Choice)
    requires Inv(s) && id < |s.ops| && s.ops[id].CTry?
    requires s.chead == s.ops[id].seen && !c.spurious
    ensures Inv(StepCTry(s, id, c))
  {
    var op := s.ops[id];
    assert OpOk(s, id, op);
    var lock := if op.goal.index == s.L then Some(id) else s.clock;
    var op' := if op.seen.hint then AfterClaim(s, op.len, op.seen, op.goal) else CRecheck(op.len, op.seen, op.goal);
    var upto := Pos(s.L, op.goal);
    var s' := Taken(s, id, upto, op.goal, lock, op');
    TakeShared(s, id, upto, op.goal, lock, op');
    TakeOthers(s, id, upto, op.goal, lock, op');
    TakeOk(s, id, op.len, op.seen, op.goal, s');
    OthersKeep(s, s', id);
  }

  lemma TakeOk(s: State, id: Id, len: nat, seen: Head, goal: Head, s': State)
    requires Inv(s) && id < |s.ops| && s.ops[id] == CTry(len, seen, goal) && s.chead == seen
    requires TryOk(s, len, seen, goal)
    requires s' == Taken(s, id, Pos(s.L, goal), goal, if goal.index == s.L then Some(id) else s.clock,
                         if seen.hint then AfterClaim(s, len, seen, goal) else CRecheck(len, seen, goal))
    ensures Heads(s') && Locks(s') && OpOk(s', id, s'.ops[id])
  {
    assert RecheckOk(s', id, len, seen, goal);
    CRecheckOp(s', id, len, seen, goal);
  }

  // ---------- the lock holder ----------

  /** `chead` may be released at `index` of the walker's block with `len` slots handed out. */
  ghost predicate ReleaseAt(s: State, id: Id, w: Walk, index: nat, hint: bool, len: nat) {
    && id < |s.ops| && s.ops[id].CWalk? && s.ops[id].w == w && WalkOk(s, id, w)
    && w.from.block < w.at.block && index < s.L && 0 < len <= w.len
    && Base(s.L, w.at.block) + index == w.start + len
    && Le(At(w.at.block, index, hint), s.phead) && (hint ==> w.at.block < s.phead.block)
  }

  /** The release: `chead` lands inside a block, exactly behind the slots handed out. */
  lemma CReleaseKeeps(s: State, id: Id, w: Walk, index: nat, hint: bool, len: nat)
    requires Inv(s) && ReleaseAt(s, id, w, index, hint, len)
    ensures Inv(Release(s, id, w, index, hint, len))
  {
    var h := At(w.at.block, index, hint);
    var op' := CIter(Iter(w.start, w.from, len, 0, []), Read);
    var upto := Base(s.L, w.at.block) + index;
    ReleasedTake(s, id, w, index, hint, len, op');
    TakeShared(s, id, upto, h, None, op');
    TakeOthers(s, id, upto, h, None, op');
    ReleasedOk(s, id, w, index, hint, len, Taken(s, id, upto, h, None, op'));
    OthersKeep(s, Taken(s, id, upto, h, None, op'), id);
  }

  /** The slots handed out cover everything the walker has claimed and claims now. */
  lemma ReleasedTake(s: State, id: Id, w: Walk, index: nat, hint: bool, len: nat, op': Op)
    requires Heads(s) && ReleaseAt(s, id, w, index, hint, len) && op' == CIter(Iter(w.start, w.from, len, 0, []), Read)
    ensures Unread(s.ops[id]) && Unread(op') && Le(s.chead, At(w.at.block, index, hint)) && s.chead.At?
    ensures s.clock == Some(id)
    ensures forall p :: InTake(s.L, s.ops[id], p) ==> InTake(s.L, op', p)
    ensures forall p :: |s.consumer| <= p < Base(s.L, w.at.block) + index ==> InTake(s.L, op', p)
  {
    BaseMono(s.L, w.from.block + 1, w.at.block);
  }

  lemma ReleasedHeads(s: State, id: Id, w: Walk, index: nat, hint: bool, len: nat, s': State)
    requires Inv(s) && ReleaseAt(s, id, w, index, hint, len)
    requires s' == Taken(s, id, Base(s.L, w.at.block) + index, At(w.at.block, index, hint), None,
                         CIter(Iter(w.start, w.from, len, 0, []), Read))
    ensures Heads(s') && Locks(s')
  {
    BaseMono(s.L, w.from.block, w.at.block);
    BaseMono(s.L, w.at.block + 1, |s.blocks|);
    Bounds(s);
  }

  lemma ReleasedOp(s: State, id: Id, w: Walk, index: nat, hint: bool, len: nat, s': State)
    requires Inv(s) && ReleaseAt(s, id, w, index, hint, len)
    requires s' == Taken(s, id, Base(s.L, w.at.block) + index, At(w.at.block, index, hint), None,
                         CIter(Iter(w.start, w.from, len, 0, []), Read))
    ensures OpOk(s', id, s'.ops[id])
  {
    BaseMono(s.L, w.from.block, w.at.block);
    BaseMono(s.L, w.at.block + 1, |s.blocks|);
    Bounds(s);
  }

  lemma ReleasedOk(s: State, id: Id, w: Walk, index: nat, hint: bool, len: nat, s': State)
    requires Inv(s) && ReleaseAt(s, id, w, index, hint, len)
    requires s' == Taken(s, id, Base(s.L, w.at.block) + index, At(w.at.block, index, hint), None,
                         CIter(Iter(w.start, w.from, len, 0, []), Read))
    ensures Heads(s') && Locks(s') && OpOk(s', id, s'.ops[id])
  {
    ReleasedHeads(s, id, w, index, hint, len, s');
    ReleasedOp(s, id, w, index, hint, len, s');
  }

  lemma CMoveKeeps(s: State, id: Id)
    requires Inv(s) && id < |s.ops| && s.ops[id].CWalk? && s.ops[id].cpc.Move?
    ensures Inv(StepCMove(s, id))
  {
    var op := s.ops[id];
    assert OpOk(s, id, op);
    var w := op.w;
    if w.ph.block == w.at.block && w.ph.index == s.L {
      CWaitKeeps(s, id);
    } else if w.ph.block == w.at.block {
      CatchUpKeeps(s, id, w);
    } else if s.L - w.at.index <= w.remaining {
      CMoveOnKeeps(s, id);
    } else {
      CReleaseKeeps(s, id, w, w.at.index + w.remaining, true, w.len);
    }
  }

  /** The walk has caught up with `phead`: it takes what is there. */
  lemma CatchUpKeeps(s: State, id: Id, w: Walk)
    requires Inv(s) && id < |s.ops| && s.ops[id].CWalk? && s.ops[id].cpc.Move? && s.ops[id].w == w
    requires WalkOk(s, id, w) && w.ph.block == w.at.block && w.ph.index < s.L
    ensures Inv(StepCMove(s, id))
  {
    var taken := Min(w.ph.index, w.remaining);
    CatchUpReleases(s, id, w, taken);
    CReleaseKeeps(s, id, w, taken, false, w.len - (w.remaining - taken));
  }

  lemma CatchUpReleases(s: State, id: Id, w: Walk, taken: nat)
    requires id < |s.ops| && s.ops[id].CWalk? && s.ops[id].cpc.Move? && s.ops[id].w == w
    requires WalkOk(s, id, w) && w.ph.block == w.at.block && w.ph.index < s.L && taken == Min(w.ph.index, w.remaining)
    ensures w.remaining - taken <= w.len && ReleaseAt(s, id, w, taken, false, w.len - (w.remaining - taken))
    ensures StepCMove(s, id) == Release(s, id, w, taken, false, w.len - (w.remaining - taken))
  {
    BaseMono(s.L, w.from.block + 1, w.at.block);
  }

  // ---------- accounting ----------

  lemma ConsumeKeeps(s: State, id: Id)
    requires Inv(s) && id < |s.ops| && s.ops[id].CIter? && s.ops[id].ipc.Consume?
    ensures Inv(StepConsume(s, id))
  {
    ConsumeCount(s, id);
    var s' := StepConsume(s, id);
    ConsumeBlocks(s, id, s');
    ConsumeReads(s, id, s');
    ConsumeOp(s, id, s');
    ConsumeOthers(s, id, s');
    OthersKeep(s, s', id);
  }

  /** One fetch-and-add brings the counter of the block, and of no other block, up to date. */
  lemma ConsumeCount(s: State, id: Id)
    requires Inv(s) && id < |s.ops| && s.ops[id].CIter? && s.ops[id].ipc.Consume?
    ensures IsConsume(s, id, StepConsume(s, id))
    ensures var it, k, s' := s.ops[id].it, s.ops[id].ipc.block, StepConsume(s, id);
            && |Part(s.L, s'.spent, k)| == |Part(s.L, s.spent, k)| + it.pending <= s.L
            && forall j: nat :: j != k ==> Part(s.L, s'.spent, j) == Part(s.L, s.spent, j)
  {
    var it, k := s.ops[id].it, s.ops[id].ipc.block;
    assert OpOk(s, id, s.ops[id]);
    var hi := it.start + |it.got|;
    var lo := hi - it.pending;
    SegmentUnspent(s, id, lo, hi);
    UnspentIsLive(s, k, lo);
    PartAdd(s.L, s.spent, k, lo, hi);
    PartFull(s.L, s.spent + Range(lo, hi), k);
  }

  /** The slots about to be accounted for have not been accounted for. */
  lemma SegmentUnspent(s: State, id: Id, lo: nat, hi: nat)
    requires Inv(s) && id < |s.ops| && s.ops[id].CIter? && s.ops[id].ipc.Consume?
    requires hi == s.ops[id].it.start + |s.ops[id].it.got| && lo == hi - s.ops[id].it.pending
    ensures lo < hi && Range(lo, hi) !! s.spent
  {
    assert OpOk(s, id, s.ops[id]);
    forall p | p in Range(lo, hi)
      ensures p !in s.spent
    {
      assert ReadOk(s, p);
    }
  }

  ghost predicate IsConsume(s: State, id: Id, s': State) {
    && Inv(s) && id < |s.ops| && s.ops[id].CIter? && s.ops[id].ipc.Consume?
    && s' == StepConsume(s, id) && IsLive(s, s.ops[id].ipc.block)
  }

  lemma ConsumeBlocks(s: State, id: Id, s': State)
    requires IsConsume(s, id, s')
    requires var it, k := s.ops[id].it, s.ops[id].ipc.block;
             && |Part(s.L, s'.spent, k)| == |Part(s.L, s.spent, k)| + it.pending <= s.L
             && forall j: nat :: j != k ==> Part(s.L, s'.spent, j) == Part(s.L, s.spent, j)
    ensures Blocks(s') && Shape(s')
  {
    forall j | 0 <= j < |s'.blocks|
      ensures BlockOk(s', j)
    {
      assert BlockOk(s, j);
    }
  }

  lemma ConsumeReads(s: State, id: Id, s': State)
    requires IsConsume(s, id, s')
    ensures Reads(s') && Slots(s')
  {
    assert OpOk(s, id, s.ops[id]);
    forall p | 0 <= p < |s'.consumer|
      ensures ReadOk(s', p)
    {
      assert ReadOk(s, p);
    }
    forall p | 0 <= p < |s'.slots|
      ensures if p < |s'.producer| && p < |s'.input| then SlotOk(s', p) else s'.slots[p].state.Vacant?
    {
      assert p < |s.producer| && p < |s.input| ==> SlotOk(s, p);
    }
  }

  lemma ConsumeOp(s: State, id: Id, s': State)
    requires IsConsume(s, id, s')
    ensures OpOk(s', id, s'.ops[id])
  {
    assert OpOk(s, id, s.ops[id]);
  }

  lemma ConsumeOthers(s: State, id: Id, s': State)
    requires IsConsume(s, id, s')
    ensures forall j :: 0 <= j < |s.ops| && j != id ==> Rely(s, s', j)
  {
  }

  lemma ReclaimKeeps(s: State, id: Id)
    requires Inv(s) && id < |s.ops| && s.ops[id].CIter? && s.ops[id].ipc.Reclaim?
    ensures Inv(StepReclaim(s, id))
  {
    assert OpOk(s, id, s.ops[id]);
    var s' := StepReclaim(s, id);
    ReclaimIs(s, id, s');
    ReclaimHeads(s, id, s');
    ReclaimBlocks(s, id, s');
    SameLedger(s, s', id);
    ReclaimOthers(s, id, s');
    OthersKeep(s, s', id);
  }

  lemma ReclaimIs(s: State, id: Id, s': State)
    requires Heads(s) && Locks(s) && id < |s.ops| && s.ops[id].CIter? && s.ops[id].ipc.Reclaim?
    requires OpOk(s, id, s.ops[id]) && s' == StepReclaim(s, id)
    ensures OnlyOp(s, s', id) && SameProgress(s, id, s.ops[id], s'.ops[id])
  {
  }

  lemma ReclaimHeads(s: State, id: Id, s': State)
    requires Heads(s) && Locks(s) && id < |s.ops| && s.ops[id].CIter? && s.ops[id].ipc.Reclaim?
    requires OpOk(s, id, s.ops[id]) && s' == StepReclaim(s, id)
    ensures Heads(s') && Locks(s')
  {
  }

  lemma ReclaimOthers(s: State, id: Id, s': State)
    requires Inv(s) && id < |s.ops| && s.ops[id].CIter? && s.ops[id].ipc.Reclaim?
    requires OpOk(s, id, s.ops[id]) && s' == StepReclaim(s, id)
    ensures forall j :: 0 <= j < |s.ops| && j != id ==> Rely(s, s', j)
    ensures OpOk(s', id, s'.ops[id])
  {
  }

  lemma ReclaimBlocks(s: State, id: Id, s': State)
    requires Inv(s) && id < |s.ops| && s.ops[id].CIter? && s.ops[id].ipc.Reclaim?
    requires OpOk(s, id, s.ops[id]) && s' == StepReclaim(s, id)
    ensures Shape(s') && Blocks(s')
  {
    forall j | 0 <= j < |s'.blocks|
      ensures BlockOk(s', j)
    {
      assert BlockOk(s, j);
    }
  }
}
