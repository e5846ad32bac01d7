/** The steps of `push_batch` that change shared memory keep the invariant. */
module PushSteps {
  import opened Positions
  import opened Machine
  import opened Invariant
  import opened LocalSteps

  /** Every other call finds what it relies on untouched. */
  lemma OthersKeep(s: State, s': State, id: Id)
    requires Inv(s) && id < |s.ops| == |s'.ops|
    requires forall j :: 0 <= j < |s.ops| && j != id ==> s'.ops[j] == s.ops[j]
    requires forall j :: 0 <= j < |s.ops| && j != id ==> Rely(s, s', j)
    requires OpOk(s', id, s'.ops[id])
    ensures Ops(s')
  {
    forall j | 0 <= j < |s'.ops|
      ensures OpOk(s', j, s'.ops[j])
    {
      if j != id {
        assert OpOk(s, j, s.ops[j]);
        Stable(s, s', j, s.ops[j]);
      }
    }
  }

  predicate PushOp(op: Op) {
    op.PLoad? || op.PInit? || op.PPublish? || op.PLoop? || op.PTry? || op.PFill? || op.PWrite? || op.PDone?
  }

  // ---------- the first block ----------

  lemma PInitKeeps(s: State, id: Id)
    requires Inv(s) && id < |s.ops| && s.ops[id].PInit?
    ensures Inv(StepPInit(s, id))
  {
    var op := s.ops[id];
    assert OpOk(s, id, op);
    if s.phead.At? {
      NoRoles(s, id, PLoop(op.items, Zero, 1));
      LocalStep(s, id, PLoop(op.items, Zero, 1));
    } else {
      FirstBlockKeeps(s, id);
    }
  }

  lemma FirstBlockKeeps(s: State, id: Id)
    requires Inv(s) && id < |s.ops| && s.ops[id].PInit? && s.phead.Zero?
    ensures Inv(StepPInit(s, id))
  {
    var s' := StepPInit(s, id);
    assert OpOk(s, id, s.ops[id]);
    assert s'.blocks == [Block(None, 0, Live)];
    assert Base(s.L, 1) == s.L;
    assert Blocks(s') by {
      assert Part(s'.L, s'.spent, 0) == {};
    }
    OthersKeep(s, s', id);
  }

  lemma PPublishKeeps(s: State, id: Id)
    requires Inv(s) && id < |s.ops| && s.ops[id].PPublish?
    ensures Inv(StepPPublish(s, id))
  {
    var s' := StepPPublish(s, id);
    assert OpOk(s, id, s.ops[id]);
    NoHold(s, id, s'.ops[id]);
    SameLedger(s, s', id);
    SameBlocks(s, s', id);
    OthersKeep(s, s', id);
  }

  // ---------- claims ----------

  /** The state after `id` claims `entries`, moves to `op'` and leaves `phead` at `h`. */
  function Claimed(s: State, id: Id, entries: seq<Entry>, h: Head, lock: Option<Id>, op': Op): State
    requires id < |s.ops|
  {
    Set(ClaimPush(s.(phead := h, plock := lock), id, entries), id, op')
  }

  lemma ClaimShared(s: State, id: Id, entries: seq<Entry>, h: Head, lock: Option<Id>, op': Op)
    requires Inv(s) && id < |s.ops| && PushOp(s.ops[id]) && PushOp(op')
    requires |s.producer| + |entries| <= |s.slots|
    requires forall p :: 0 <= p < |s.producer| && s.producer[p] == id ==> (Pending(s.ops[id], p) <==> Pending(op', p))
    requires forall p :: 0 <= p < |s.producer| && s.producer[p] == id && InBatch(s.ops[id], p) ==> InBatch(op', p)
    requires forall p :: |s.producer| <= p < |s.producer| + |entries| ==> Pending(op', p) && InBatch(op', p)
    ensures var s' := Claimed(s, id, entries, h, lock, op'); Shape(s') && Slots(s') && Reads(s') && Blocks(s')
  {
    var s' := Claimed(s, id, entries, h, lock, op');
    assert Slots(s') by {
      forall p | 0 <= p < |s'.slots| && p < |s'.producer| && p < |s'.input|
        ensures SlotOk(s', p)
      {
        if p < |s.producer| {
          assert SlotOk(s, p);
        }
      }
    }
    assert Reads(s') by {
      forall p | 0 <= p < |s'.consumer|
        ensures ReadOk(s', p)
      {
        assert ReadOk(s, p);
      }
    }
    assert Blocks(s') by {
      forall k | 0 <= k < |s'.blocks|
        ensures BlockOk(s', k)
      {
        assert BlockOk(s, k);
      }
    }
  }

  /** Claims move `phead` forward and leave every other call alone. */
  lemma ClaimOthers(s: State, id: Id, entries: seq<Entry>, h: Head, lock: Option<Id>, op': Op)
    requires Inv(s) && id < |s.ops|
    requires Le(s.phead, h) && s.phead.At? && (s.plock == None || s.plock == Some(id)) && h.At?
    ensures var s' := Claimed(s, id, entries, h, lock, op');
            forall j :: 0 <= j < |s.ops| && j != id ==> Rely(s, s', j)
  {
  }

  ghost predicate ClaimFacts(s: State, id: Id, entries: seq<Entry>, h: Head, op': Op) {
    && id < |s.ops| && PushOp(s.ops[id]) && PushOp(op') && |s.producer| + |entries| <= |s.slots|
    && (forall p :: 0 <= p < |s.producer| && s.producer[p] == id ==> (Pending(s.ops[id], p) <==> Pending(op', p)))
    && (forall p :: 0 <= p < |s.producer| && s.producer[p] == id && InBatch(s.ops[id], p) ==> InBatch(op', p))
    && (forall p :: |s.producer| <= p < |s.producer| + |entries| ==> Pending(op', p) && InBatch(op', p))
    && Le(s.phead, h) && s.phead.At? && h.At? && (s.plock == None || s.plock == Some(id))
  }

  /** The claim is the call's to make. */
  ghost predicate MayClaim(s: State, id: Id, entries: seq<Entry>, h: Head, op': Op) {
    ClaimFacts(s, id, entries, h, op') == true
  }

  /** The new heads, locks and program point are in order. */
  ghost predicate Lands(s': State, id: Id) {
    (id < |s'.ops| && Heads(s') && Locks(s') && OpOk(s', id, s'.ops[id])) == true
  }

  lemma ClaimKeeps(s: State, id: Id, entries: seq<Entry>, h: Head, lock: Option<Id>, op': Op)
    requires Inv(s) && MayClaim(s, id, entries, h, op') && Lands(Claimed(s, id, entries, h, lock, op'), id)
    ensures Inv(Claimed(s, id, entries, h, lock, op'))
  {
    ClaimShared(s, id, entries, h, lock, op');
    ClaimOthers(s, id, entries, h, lock, op');
    OthersKeep(s, Claimed(s, id, entries, h, lock, op'), id);
  }

  lemma PTryKeeps(s: State, id: Id, c: Choice)
    requires Inv(s) && id < |s.ops| && s.ops[id].PTry?
    ensures Inv(StepPTry(s, id, c))
  {
    var op := s.ops[id];
    assert OpOk(s, id, op);
    if s.phead != op.seen || c.spurious {
      NoRoles(s, id, PLoop(op.items, s.phead, op.chain));
      LocalStep(s, id, PLoop(op.items, s.phead, op.chain));
    } else if op.seen.index + |op.items| < s.L {
      PTryInsideKeeps(s, id, c);
    } else {
      PTryLockKeeps(s, id, c);
    }
  }

  /** The batch fits in the block. */
  lemma PTryInsideKeeps(s: State, id: Id, c: Choice)
    requires Inv(s) && id < |s.ops| && s.ops[id].PTry?
    requires s.phead == s.ops[id].seen && s.phead.At? && !c.spurious
    requires s.phead.index + |s.ops[id].items| < s.L
    ensures Inv(StepPTry(s, id, c))
  {
    var op, k, i := s.ops[id], s.phead.block, s.phead.index;
    assert OpOk(s, id, op);
    var h := At(k, i + |op.items|, false);
    var op' := PWrite(op.items, Pos(s.L, s.phead), 0, Pick(Place(k, i)));
    Bounds(s);
    InsideOk(s, id, op.items, h, op');
    ClaimKeeps(s, id, op.items, h, s.plock, op');
    InsideIs(s, id, c, h, op');
  }

  lemma InsideIs(s: State, id: Id, c: Choice, h: Head, op': Op)
    requires id < |s.ops| && s.ops[id].PTry? && s.phead == s.ops[id].seen && s.phead.At? && !c.spurious
    requires s.phead.index + |s.ops[id].items| < s.L
    requires h == At(s.phead.block, s.phead.index + |s.ops[id].items|, false)
    requires op' == PWrite(s.ops[id].items, Pos(s.L, s.phead), 0, Pick(Place(s.phead.block, s.phead.index)))
    ensures StepPTry(s, id, c) == Claimed(s, id, s.ops[id].items, h, s.plock, op')
  {
  }

  lemma InsideOk(s: State, id: Id, items: seq<Entry>, h: Head, op': Op)
    requires Shape(s) && Heads(s) && Locks(s) && id < |s.ops| && s.ops[id].PTry?
    requires s.phead.At? && s.phead.index + |items| < s.L && |items| > 0
    requires h == At(s.phead.block, s.phead.index + |items|, false)
    requires op' == PWrite(items, Pos(s.L, s.phead), 0, Pick(Place(s.phead.block, s.phead.index)))
    ensures MayClaim(s, id, items, h, op') && Lands(Claimed(s, id, items, h, s.plock, op'), id)
  {
    BaseMono(s.L, s.phead.block + 1, |s.blocks|);
    assert ClaimFacts(s, id, items, h, op');
  }

  /** The batch reaches the end of the block: the claim locks `phead`. */
  lemma PTryLockKeeps(s: State, id: Id, c: Choice)
    requires Inv(s) && id < |s.ops| && s.ops[id].PTry?
    requires s.phead == s.ops[id].seen && s.phead.At? && !c.spurious
    requires s.L <= s.phead.index + |s.ops[id].items|
    ensures Inv(StepPTry(s, id, c))
  {
    var op, k, i := s.ops[id], s.phead.block, s.phead.index;
    assert OpOk(s, id, op);
    var h, entries := At(k, s.L, false), op.items[..s.L - i];
    var op' := PFill(op.items, Fill(Pos(s.L, s.phead), Place(k, i), Place(k, i), |op.items|, op.chain), LoadLink);
    Bounds(s);
    LockMay(s, id, op.items, op.chain, entries, h, op');
    LockLands(s, id, op.items, op.chain, entries, h, op');
    ClaimKeeps(s, id, entries, h, Some(id), op');
    LockIs(s, id, c, entries, h, op');
  }

  lemma LockIs(s: State, id: Id, c: Choice, entries: seq<Entry>, h: Head, op': Op)
    requires id < |s.ops| && s.ops[id].PTry? && s.phead == s.ops[id].seen && s.phead.At? && !c.spurious
    requires s.phead.index < s.L <= s.phead.index + |s.ops[id].items|
    requires var op, at := s.ops[id], Place(s.phead.block, s.phead.index);
             && h == At(at.block, s.L, false) && entries == op.items[..s.L - at.index]
             && op' == PFill(op.items, Fill(Pos(s.L, s.phead), at, at, |op.items|, op.chain), LoadLink)
    ensures StepPTry(s, id, c) == Claimed(s, id, entries, h, Some(id), op')
  {
  }

  lemma LockMay(s: State, id: Id, items: seq<Entry>, chain: nat, entries: seq<Entry>, h: Head, op': Op)
    requires Shape(s) && Heads(s) && Locks(s) && id < |s.ops| && s.ops[id].PTry?
    requires s.phead.At? && s.phead.index < s.L <= s.phead.index + |items|
    requires Enough(s.L, s.phead, |items|, chain)
    requires var at := Place(s.phead.block, s.phead.index);
             && entries == items[..s.L - at.index] && h == At(at.block, s.L, false)
             && op' == PFill(items, Fill(Pos(s.L, s.phead), at, at, |items|, chain), LoadLink)
    ensures MayClaim(s, id, entries, h, op')
  {
    EnoughBlocks(s.L, s.phead, |items|, chain, |s.blocks|);
    BaseMono(s.L, s.phead.block + 1, |s.blocks|);
    assert ClaimFacts(s, id, entries, h, op');
  }

  lemma LockLands(s: State, id: Id, items: seq<Entry>, chain: nat, entries: seq<Entry>, h: Head, op': Op)
    requires Shape(s) && Heads(s) && Locks(s) && id < |s.ops| && s.ops[id].PTry?
    requires s.phead.At? && s.phead.index < s.L <= s.phead.index + |items|
    requires Enough(s.L, s.phead, |items|, chain)
    requires var at := Place(s.phead.block, s.phead.index);
             && entries == items[..s.L - at.index] && h == At(at.block, s.L, false)
             && op' == PFill(items, Fill(Pos(s.L, s.phead), at, at, |items|, chain), LoadLink)
    ensures Lands(Claimed(s, id, entries, h, Some(id), op'), id)
  {
    EnoughBlocks(s.L, s.phead, |items|, chain, |s.blocks|);
    BaseMono(s.L, s.phead.block + 1, |s.blocks|);
  }

  /** The chain was sized from the hint alone, but every linked successor helps. */
  lemma EnoughBlocks(L: nat, seen: Head, len: nat, chain: nat, linked: nat)
    requires seen.At? && Enough(L, seen, len, chain)
    requires seen.block + (if seen.hint then 1 else 0) < linked
    ensures Base(L, seen.block) + seen.index + len < Base(L, linked + chain)
  {
    var n := chain + 1 + if seen.hint then 1 else 0;
    BaseAdd(L, seen.block, n);
    BaseMono(L, seen.block + n, linked + chain);
  }

  // ---------- the lock holder ----------

  /** The release: `phead` lands exactly at the end of the batch, inside a block. */
  lemma PReleaseKeeps(s: State, id: Id)
    requires Inv(s) && id < |s.ops| && s.ops[id].PFill? && s.ops[id].fpc.Advance?
    requires s.ops[id].f.remaining < s.L - s.ops[id].f.at.index
    ensures Inv(StepPMove(s, id))
  {
    var op, f := s.ops[id], s.ops[id].f;
    assert OpOk(s, id, op);
    Bounds(s);
    var h := At(f.at.block, f.at.index + f.remaining, op.fpc.next.Some?);
    var op' := PWrite(op.items, f.start, 0, Pick(f.from));
    var rest := op.items[|s.input| - f.start..];
    ReleaseMay(s, id, op.items, f, op.fpc.next, rest, h, op');
    ReleaseLands(s, id, op.items, f, op.fpc.next, rest, h, op');
    ClaimKeeps(s, id, rest, h, None, op');
    ReleaseIs(s, id, rest, h, op');
  }

  lemma ReleaseIs(s: State, id: Id, rest: seq<Entry>, h: Head, op': Op)
    requires id < |s.ops| && s.ops[id].PFill? && s.ops[id].fpc.Advance?
    requires s.ops[id].f.start <= |s.input| <= s.ops[id].f.start + |s.ops[id].items|
    requires var op, f := s.ops[id], s.ops[id].f;
             && f.remaining < s.L - f.at.index && rest == op.items[|s.input| - f.start..]
             && h == At(f.at.block, f.at.index + f.remaining, op.fpc.next.Some?)
             && op' == PWrite(op.items, f.start, 0, Pick(f.from))
    ensures StepPMove(s, id) == Claimed(s, id, rest, h, None, op')
  {
  }

  /** The walk of a producer has reached the block its batch ends in: the release claims `rest`,
      publishes `h` and leaves the call at `op'`. */
  ghost predicate AtRelease(s: State, id: Id, items: seq<Entry>, f: Fill, next: Option<nat>, rest: seq<Entry>, h: Head, op': Op) {
    && Shape(s) && Heads(s) && Locks(s) && id < |s.ops| && s.ops[id] == PFill(items, f, Advance(next))
    && FillingOk(s, id, items, f, Advance(next)) && f.remaining < s.L - f.at.index && |s.producer| <= |s.slots|
    && f.start <= |s.input| <= f.start + |items| && rest == items[|s.input| - f.start..]
    && h == At(f.at.block, f.at.index + f.remaining, next.Some?) && op' == PWrite(items, f.start, 0, Pick(f.from))
  }

  lemma ReleaseMay(s: State, id: Id, items: seq<Entry>, f: Fill, next: Option<nat>, rest: seq<Entry>, h: Head, op': Op)
    requires AtRelease(s, id, items, f, next, rest, h, op')
    ensures MayClaim(s, id, rest, h, op')
  {
    BaseMono(s.L, f.at.block + 1, |s.blocks|);
    BaseMono(s.L, f.from.block, f.at.block);
    assert ClaimFacts(s, id, rest, h, op');
  }

  lemma ReleaseHeads(s: State, id: Id, items: seq<Entry>, f: Fill, next: Option<nat>, rest: seq<Entry>, h: Head, op': Op)
    requires AtRelease(s, id, items, f, next, rest, h, op')
    ensures Heads(Claimed(s, id, rest, h, None, op')) && Locks(Claimed(s, id, rest, h, None, op'))
  {
    BaseMono(s.L, f.at.block + 1, |s.blocks|);
    BaseMono(s.L, f.from.block, f.at.block);
  }

  lemma ReleaseOp(s: State, id: Id, items: seq<Entry>, f: Fill, next: Option<nat>, rest: seq<Entry>, h: Head, op': Op)
    requires AtRelease(s, id, items, f, next, rest, h, op')
    ensures OpOk(Claimed(s, id, rest, h, None, op'), id, op')
  {
    BaseMono(s.L, f.at.block + 1, |s.blocks|);
    BaseMono(s.L, f.from.block, f.at.block);
  }

  lemma ReleaseLands(s: State, id: Id, items: seq<Entry>, f: Fill, next: Option<nat>, rest: seq<Entry>, h: Head, op': Op)
    requires AtRelease(s, id, items, f, next, rest, h, op')
    ensures Lands(Claimed(s, id, rest, h, None, op'), id)
  {
    ReleaseHeads(s, id, items, f, next, rest, h, op');
    ReleaseOp(s, id, items, f, next, rest, h, op');
  }

  lemma {:induction false} FreshShape(first: nat, n: nat)
    ensures |FreshBlocks(first, n)| == n
    ensures forall j :: 0 <= j < n ==>
              FreshBlocks(first, n)[j] == Block(if j + 1 < n then Some(first + j + 1) else None, 0, Live)
    decreases n
  {
    if n > 0 {
      FreshShape(first + 1, n - 1);
    }
  }

  /** Linking appends live blocks with vacant slots and leaves the others as they are. */
  lemma LinkShape(s: State, n: nat)
    requires Shape(s) && |s.blocks| > 0
    ensures var s' := Link(s, n);
            && Shape(s') && |s'.blocks| == |s.blocks| + n
            && (forall k :: 0 <= k < |s.blocks| ==>
                  s'.blocks[k].consumed == s.blocks[k].consumed && s'.blocks[k].status == s.blocks[k].status)
            && (forall k :: |s.blocks| <= k < |s'.blocks| ==>
                  s'.blocks[k].consumed == 0 && s'.blocks[k].status == Live)
  {
    FreshShape(|s.blocks|, n);
    BaseAdd(s.L, |s.blocks|, n);
  }

  lemma LinkBlocks(s: State, id: Id, n: nat, op': Op, s': State)
    requires Inv(s) && id < |s.ops| && s.ops[id].PFill? && |s.blocks| > 0
    requires s' == Set(Link(s, n), id, op')
    ensures Blocks(s')
  {
    LinkShape(s, n);
    Bounds(s);
    forall k | 0 <= k < |s'.blocks|
      ensures BlockOk(s', k)
    {
      if k < |s.blocks| {
        assert BlockOk(s, k);
      } else {
        BaseMono(s.L, |s.blocks|, k);
        assert Part(s.L, s.spent, k) == {};
      }
    }
  }

  lemma PLinkKeeps(s: State, id: Id)
    requires Inv(s) && id < |s.ops| && s.ops[id].PFill? && s.ops[id].fpc.StoreRoot?
    ensures Inv(StepPLink(s, id))
  {
    var op := s.ops[id];
    assert OpOk(s, id, op);
    FillLive(s, id);
    var op' := PFill(op.items, op.f.(root := 0), Advance(if op.f.root == 0 then None else Some(|s.blocks|)));
    LinkIs(s, id, op');
    LinkedKeeps(s, id, op');
  }

  lemma LinkIs(s: State, id: Id, op': Op)
    requires id < |s.ops| && s.ops[id].PFill? && s.ops[id].fpc.StoreRoot?
    requires IsLive(s, s.ops[id].f.at.block) && s.ops[id].f.at.block + 1 == |s.blocks|
    requires var op := s.ops[id];
             op' == PFill(op.items, op.f.(root := 0), Advance(if op.f.root == 0 then None else Some(|s.blocks|)))
    ensures StepPLink(s, id) == Set(Link(s, s.ops[id].f.root), id, op')
  {
  }

  lemma LinkedKeeps(s: State, id: Id, op': Op)
    requires Inv(s) && id < |s.ops| && s.ops[id].PFill? && s.ops[id].fpc.StoreRoot? && OpOk(s, id, s.ops[id])
    requires IsLive(s, s.ops[id].f.at.block) && s.ops[id].f.at.block + 1 == |s.blocks|
    requires var op := s.ops[id];
             op' == PFill(op.items, op.f.(root := 0), Advance(if op.f.root == 0 then None else Some(|s.blocks|)))
    ensures Inv(Set(Link(s, s.ops[id].f.root), id, op'))
  {
    var op := s.ops[id];
    var s' := Set(Link(s, op.f.root), id, op');
    LinkShape(s, op.f.root);
    LinkBlocks(s, id, op.f.root, op', s');
    LinkLedger(s, id, op.f.root, op');
    LinkOp(s, id, op.items, op.f, s');
    LinkOthers(s, id, op.f.root, op');
    OthersKeep(s, s', id);
  }

  lemma LinkOp(s: State, id: Id, items: seq<Entry>, f: Fill, s': State)
    requires FillingOk(s, id, items, f, StoreRoot)
    requires s' == s.(blocks := s'.blocks, slots := s'.slots, ops := s'.ops) && |s'.blocks| == |s.blocks| + f.root
    ensures OpFacts(s', id, PFill(items, f.(root := 0), Advance(if f.root == 0 then None else Some(|s.blocks|))))
  {
    assert |s.blocks| + f.root == |s'.blocks| + 0;
  }

  lemma LinkOthers(s: State, id: Id, n: nat, op': Op)
    requires Shape(s) && Heads(s) && Locks(s) && id < |s.ops| && |s.blocks| > 0 && s.plock == Some(id)
    ensures var s' := Set(Link(s, n), id, op');
            forall j :: 0 <= j < |s.ops| && j != id ==> Rely(s, s', j)
  {
    LinkShape(s, n);
    Bounds(s);
  }

  lemma LinkLedger(s: State, id: Id, n: nat, op': Op)
    requires Inv(s) && id < |s.ops| && s.ops[id].PFill? && |s.blocks| > 0
    requires op'.PFill? && op'.f.start == s.ops[id].f.start && op'.items == s.ops[id].items
    ensures var s' := Set(Link(s, n), id, op'); Slots(s') && Reads(s')
  {
    var s' := Set(Link(s, n), id, op');
    Bounds(s);
    forall p | 0 <= p < |s'.slots|
      ensures if p < |s'.producer| && p < |s'.input| then SlotOk(s', p) else s'.slots[p].state.Vacant?
    {
      assert p < |s.producer| ==> SlotOk(s, p);
    }
    forall p | 0 <= p < |s'.consumer|
      ensures ReadOk(s', p)
    {
      assert ReadOk(s, p);
    }
  }

  // ---------- writing a slot ----------

  /** One store to the slot at `p`, which `id` has claimed and not published. */
  lemma StoreKeeps(s: State, id: Id, p: nat, slot: Slot, op': Op)
    requires Inv(s) && id < |s.ops| && s.ops[id].PWrite? && op'.PWrite?
    requires p == s.ops[id].start + s.ops[id].done < |s.slots| && s.ops[id].done < |s.ops[id].items|
    requires op'.items == s.ops[id].items && op'.start == s.ops[id].start
    requires if slot.state.Vacant? then op'.done == s.ops[id].done
             else op'.done == s.ops[id].done + 1 && Content(slot) == s.ops[id].items[s.ops[id].done]
    requires slot.state.Written? ==> slot.value.Some?
    requires OpOk(s.(slots := s.slots[p := slot]), id, op')
    ensures Inv(Set(s.(slots := s.slots[p := slot]), id, op'))
  {
    var s' := Set(s.(slots := s.slots[p := slot]), id, op');
    var op := s.ops[id];
    assert OpOk(s, id, op);
    NoHold(s, id, op');
    Bounds(s);
    StoreLedger(s, id, p, slot, op');
    assert Blocks(s') by {
      forall k | 0 <= k < |s'.blocks|
        ensures BlockOk(s', k)
      {
        assert BlockOk(s, k);
      }
    }
    Stable(s.(slots := s.slots[p := slot]), s', id, op');
    OthersKeep(s, s', id);
  }

  lemma StoreLedger(s: State, id: Id, p: nat, slot: Slot, op': Op)
    requires Inv(s) && id < |s.ops| && s.ops[id].PWrite? && op'.PWrite?
    requires p == s.ops[id].start + s.ops[id].done < |s.slots| && s.ops[id].done < |s.ops[id].items|
    requires op'.items == s.ops[id].items && op'.start == s.ops[id].start
    requires if slot.state.Vacant? then op'.done == s.ops[id].done
             else op'.done == s.ops[id].done + 1 && Content(slot) == s.ops[id].items[s.ops[id].done]
    requires slot.state.Written? ==> slot.value.Some?
    requires OpOk(s, id, s.ops[id])
    ensures var s' := Set(s.(slots := s.slots[p := slot]), id, op'); Slots(s') && Reads(s')
  {
    var s' := Set(s.(slots := s.slots[p := slot]), id, op');
    assert SlotOk(s, p);
    forall q | 0 <= q < |s'.slots|
      ensures if q < |s'.producer| && q < |s'.input| then SlotOk(s', q) else s'.slots[q].state.Vacant?
    {
      assert q < |s.producer| && q < |s.input| ==> SlotOk(s, q);
    }
    forall q | 0 <= q < |s'.consumer|
      ensures ReadOk(s', q)
    {
      assert ReadOk(s, q);
    }
  }

  lemma PutKeeps(s: State, id: Id)
    requires Inv(s) && id < |s.ops| && s.ops[id].PWrite? && s.ops[id].wpc.Put?
    ensures Inv(StepPut(s, id))
  {
    var op := s.ops[id];
    assert OpOk(s, id, op);
    var slot, at := op.wpc.slot, op.wpc.at;
    WriteLive(s, id, slot);
    var p := PosAt(s.L, slot);
    Bounds(s);
    assert SlotOk(s, p);
    match op.items[op.done]
    case Some(v) =>
      StoreKeeps(s, id, p, s.slots[p].(value := Some(v)), PWrite(op.items, op.start, op.done, Commit(slot, at)));
    case None =>
      StoreKeeps(s, id, p, s.slots[p].(state := Skip), PWrite(op.items, op.start, op.done + 1, Pick(at)));
  }

  lemma CommitKeeps(s: State, id: Id)
    requires Inv(s) && id < |s.ops| && s.ops[id].PWrite? && s.ops[id].wpc.Commit?
    ensures Inv(StepCommit(s, id))
  {
    var op := s.ops[id];
    assert OpOk(s, id, op);
    WriteLive(s, id, op.wpc.slot);
    var p := PosAt(s.L, op.wpc.slot);
    StoreKeeps(s, id, p, s.slots[p].(state := Written), PWrite(op.items, op.start, op.done + 1, Pick(op.wpc.at)));
  }
}
