/** What holds in every run of the protocol. */
module Safety {
  import opened Positions
  import opened Machine
  import opened Invariant
  import opened LocalSteps
  import opened PushSteps
  import opened PopSteps

  // ---------- the invariant holds in every run ----------

  lemma InitialOk(s: State)
    requires Initial(s)
    ensures Inv(s)
  {
  }

  lemma PushActKeeps(s: State, id: Id, c: Choice)
    requires Inv(s) && id < |s.ops| && PushOp(s.ops[id])
    ensures Inv(Act(s, id, c))
  {
    match s.ops[id] {
      case PLoad(_) => PLoadKeeps(s, id);
      case PInit(_) => PInitKeeps(s, id);
      case PPublish(_) => PPublishKeeps(s, id);
      case PLoop(_, _, _) => PLoopKeeps(s, id, c);
      case PTry(_, _, _) => PTryKeeps(s, id, c);
      case PFill(_, _, _) => PFillActKeeps(s, id, c);
      case PWrite(_, _, _, Pick(_)) => PickKeeps(s, id);
      case PWrite(_, _, _, WaitNext(_)) => WaitNextKeeps(s, id);
      case PWrite(_, _, _, Put(_, _)) => PutKeeps(s, id);
      case PWrite(_, _, _, Commit(_, _)) => CommitKeeps(s, id);
      case _ =>
    }
  }

  lemma PFillActKeeps(s: State, id: Id, c: Choice)
    requires Inv(s) && id < |s.ops| && s.ops[id].PFill?
    ensures Inv(Act(s, id, c))
  {
    assert OpOk(s, id, s.ops[id]);
    var f := s.ops[id].f;
    match s.ops[id].fpc
    case LoadLink => PFillKeeps(s, id);
    case StoreRoot => PLinkKeeps(s, id);
    case Advance(_) =>
      if f.remaining < s.L - f.at.index {
        PReleaseKeeps(s, id);
      } else {
        PMoveOnKeeps(s, id);
      }
  }

  lemma PopActKeeps(s: State, id: Id, c: Choice)
    requires Inv(s) && id < |s.ops| && !PushOp(s.ops[id])
    ensures Inv(Act(s, id, c))
  {
    match s.ops[id] {
      case CCheck(_) => CCheckKeeps(s, id);
      case CLoad(_) => CLoadKeeps(s, id);
      case CLoop(_, _) => CLoopKeeps(s, id);
      case CTry(_, _, _) => CTryKeeps(s, id, c);
      case CRecheck(_, _, _) => CRecheckKeeps(s, id);
      case CWalkLoad(_, _, _) => CWalkLoadKeeps(s, id);
      case CWalk(_, Move(_)) => CMoveKeeps(s, id);
      case CWalk(_, _) => CNextKeeps(s, id);
      case CIter(_, Read) => ReadKeeps(s, id);
      case CIter(_, Follow) => FollowKeeps(s, id);
      case CIter(_, Consume(_)) => ConsumeKeeps(s, id);
      case CIter(_, Reclaim(_)) => ReclaimKeeps(s, id);
      case _ =>
    }
  }

  lemma BeginKeeps(s: State, call: Call)
    requires Inv(s)
    ensures Inv(Begin(s, call))
  {
    var s' := Begin(s, call);
    assert forall p :: 0 <= p < |s.slots| && p < |s.producer| && p < |s.input| && SlotOk(s, p) ==> SlotOk(s', p);
    assert forall p :: 0 <= p < |s.consumer| && ReadOk(s, p) ==> ReadOk(s', p);
    assert forall k :: 0 <= k < |s.blocks| && BlockOk(s, k) ==> BlockOk(s', k);
    forall j | 0 <= j < |s'.ops|
      ensures OpOk(s', j, s'.ops[j])
    {
      if j < |s.ops| {
        assert OpOk(s, j, s.ops[j]);
        Stable(s, s', j, s.ops[j]);
      }
    }
  }

  lemma DropHintKeepsOps(s: State, producers: bool)
    requires Inv(s)
    ensures forall j :: 0 <= j < |s.ops| ==> OpOk(DropHint(s, producers), j, s.ops[j])
  {
    var s' := DropHint(s, producers);
    forall j | 0 <= j < |s.ops|
      ensures OpOk(s', j, s.ops[j])
    {
      assert OpOk(s, j, s.ops[j]);
      Stable(s, s', j, s.ops[j]);
    }
  }

  lemma DropHintKeeps(s: State, producers: bool)
    requires Inv(s)
    ensures Inv(DropHint(s, producers))
  {
    var s' := DropHint(s, producers);
    assert forall p :: 0 <= p < |s.slots| && p < |s.producer| && p < |s.input| && SlotOk(s, p) ==> SlotOk(s', p);
    assert forall p :: 0 <= p < |s.consumer| && ReadOk(s, p) ==> ReadOk(s', p);
    assert forall k :: 0 <= k < |s.blocks| && BlockOk(s, k) ==> BlockOk(s', k);
    DropHintKeepsOps(s, producers);
  }

  /** Every step keeps the invariant. */
  lemma StepKeeps(s: State, step: Step)
    requires Inv(s) && Enabled(s, step)
    ensures Inv(Apply(s, step))
  {
    match step
    case Start(call) => BeginKeeps(s, call);
    case Run(id, c) =>
      if PushOp(s.ops[id]) {
        PushActKeeps(s, id, c);
      } else {
        PopActKeeps(s, id, c);
      }
    case Forget(producers) => DropHintKeeps(s, producers);
  }

  /** Every state of every run satisfies the invariant. */
  lemma {:induction false} RunKeeps(run: seq<State>, i: nat)
    requires IsRun(run) && i < |run|
    ensures Inv(run[i])
  {
    if i == 0 {
      InitialOk(run[0]);
    } else {
      RunKeeps(run, i - 1);
      assert Next(run[i - 1], run[i]);
      var step :| Enabled(run[i - 1], step) && run[i] == Apply(run[i - 1], step);
      StepKeeps(run[i - 1], step);
    }
  }

  // ---------- no call ever goes wrong ----------

  /** No call in any run dereferences a null, dangling or out-of-bounds pointer, and none
      enters a repair branch: with unique serials both are unreachable. */
  lemma NoFault(run: seq<State>, i: nat, id: Id)
    requires IsRun(run) && i < |run| && id < |run[i].ops|
    ensures run[i].ops[id] != Fault && run[i].ops[id] != CRepair
  {
    RunKeeps(run, i);
    assert OpOk(run[i], id, run[i].ops[id]);
  }

  /** A hint is never wrong, although either may be cleared at any moment: in `chead` it means
      that `phead` is in a later block, in `phead` that its block has a successor. */
  lemma HintIsTrue(run: seq<State>, i: nat)
    requires IsRun(run) && i < |run|
    ensures var s := run[i];
            && (s.chead.At? && s.chead.hint ==> s.phead.At? && s.chead.block < s.phead.block)
            && (s.phead.At? && s.phead.hint ==> s.phead.block + 1 < |s.blocks|)
  {
    RunKeeps(run, i);
    assert Heads(run[i]);
  }

  /** The successor link that the write loop asks for is always there: `wait_next` never waits. */
  lemma WaitNextNeverWaits(run: seq<State>, i: nat, id: Id)
    requires IsRun(run) && i < |run| && id < |run[i].ops|
    requires run[i].ops[id].PWrite? && run[i].ops[id].wpc.WaitNext?
    ensures var k := run[i].ops[id].wpc.slot.block;
            k < |run[i].blocks| && run[i].blocks[k].next == Some(k + 1)
  {
    RunKeeps(run, i);
    NextIsLinked(run[i], id);
  }

  // ---------- exactly once ----------

  function StartOf(op: Op): nat
    requires op.PFill? || op.PWrite? || op.PDone?
  {
    if op.PFill? then op.f.start else op.start
  }

  /** `id` is the one producer of position `p`, and `e` is the entry of its batch for `p`. */
  ghost predicate ProducedBy(s: State, p: nat, id: Id, e: Entry) {
    && p < |s.producer| && s.producer[p] == id < |s.ops|
    && var op := s.ops[id];
       && (op.PFill? || op.PWrite? || op.PDone?)
       && StartOf(op) <= p < StartOf(op) + |op.items| && op.items[p - StartOf(op)] == e
  }

  lemma ProducerOf(s: State, p: nat)
    requires Inv(s) && p < |s.input|
    ensures ProducedBy(s, p, s.producer[p], s.input[p])
  {
    Bounds(s);
    assert SlotOk(s, p);
    var id := s.producer[p];
    assert OpOk(s, id, s.ops[id]);
  }

  /** A finished push owns exactly the consecutive positions of its batch. */
  lemma PushOwnsItsBatch(run: seq<State>, i: nat, id: Id)
    requires IsRun(run) && i < |run| && id < |run[i].ops| && run[i].ops[id].PDone? && run[i].ops[id].items != []
    ensures var s, op := run[i], run[i].ops[id];
            && op.start + |op.items| <= |s.input| == |s.producer|
            && s.input[op.start..op.start + |op.items|] == op.items
            && (forall p :: 0 <= p < |s.producer| ==> (s.producer[p] == id <==> op.start <= p < op.start + |op.items|))
  {
    var s, op := run[i], run[i].ops[id];
    RunKeeps(run, i);
    assert OpOk(s, id, op);
    Bounds(s);
    forall p | 0 <= p < |s.producer| && s.producer[p] == id
      ensures op.start <= p < op.start + |op.items|
    {
      assert SlotOk(s, p);
    }
  }

  /** A `pop_batch` that has returned: what is left of the call is its iterator. */
  predicate PopReturned(op: Op) {
    op.CIter? || op.CDone?
  }

  function First(op: Op): nat
    requires PopReturned(op)
  {
    if op.CIter? then op.it.start else op.start
  }

  /** What the iterator has yielded so far. */
  function Got(op: Op): seq<Entry>
    requires PopReturned(op)
  {
    if op.CIter? then op.it.got else op.got
  }

  function End(op: Op): nat
    requires PopReturned(op)
  {
    First(op) + |Got(op)| + if op.CIter? then op.it.len else 0
  }

  /** The positions of a returned pop. */
  lemma PopTook(s: State, id: Id)
    requires Inv(s) && id < |s.ops| && PopReturned(s.ops[id])
    ensures var op := s.ops[id];
            && End(op) <= |s.consumer| <= |s.input| == |s.producer| <= |s.slots|
            && (forall p :: 0 <= p < |s.consumer| ==> (s.consumer[p] == id <==> First(op) <= p < End(op)))
  {
    var op := s.ops[id];
    assert OpOk(s, id, op);
    Bounds(s);
    forall p | 0 <= p < |s.consumer| && s.consumer[p] == id
      ensures First(op) <= p < End(op)
    {
      assert ReadOk(s, p);
    }
  }

  /** What a returned pop reports for its `j`-th position. */
  ghost predicate Delivered(s: State, op: Op, j: nat)
    requires PopReturned(op) && j < |Got(op)| && End(op) <= |s.producer| <= |s.slots|
  {
    && ProducedBy(s, First(op) + j, s.producer[First(op) + j], Got(op)[j])
    && !s.slots[First(op) + j].state.Vacant?
  }

  lemma GotIsLogged(s: State, id: Id, op: Op)
    requires OpOk(s, id, op) && PopReturned(op) && First(op) + |Got(op)| <= |s.input|
    ensures forall k :: 0 <= k < |Got(op)| ==> Got(op)[k] == s.input[First(op) + k]
  {
  }

  lemma ReadIsWritten(s: State, id: Id, p: nat)
    requires Reads(s) && p < |s.consumer| && s.consumer[p] == id < |s.ops| && PopReturned(s.ops[id])
    requires First(s.ops[id]) <= p < First(s.ops[id]) + |Got(s.ops[id])|
    ensures p < |s.slots| && !s.slots[p].state.Vacant?
  {
    assert ReadOk(s, p);
  }

  lemma PopDelivered(s: State, id: Id, j: nat)
    requires Inv(s) && id < |s.ops| && PopReturned(s.ops[id]) && j < |Got(s.ops[id])|
    ensures var op := s.ops[id];
            End(op) <= |s.producer| <= |s.slots| && Delivered(s, op, j)
  {
    var op := s.ops[id];
    PopTook(s, id);
    ProducerOf(s, First(op) + j);
    assert OpOk(s, id, op);
    GotIsLogged(s, id, op);
    ReadIsWritten(s, id, First(op) + j);
  }

  /** From its return on a pop owns exactly consecutive positions, drained or not, and every
      entry its iterator has yielded is the one its producer put at that position. */
  lemma PopDeliversWhatWasPushed(run: seq<State>, i: nat, id: Id)
    requires IsRun(run) && i < |run| && id < |run[i].ops| && PopReturned(run[i].ops[id])
    ensures var s, op := run[i], run[i].ops[id];
            && End(op) <= |s.consumer| <= |s.input| == |s.producer| <= |s.slots|
            && (forall p :: 0 <= p < |s.consumer| ==> (s.consumer[p] == id <==> First(op) <= p < End(op)))
            && (forall j :: 0 <= j < |Got(op)| ==> Delivered(s, op, j))
  {
    RunKeeps(run, i);
    PopTook(run[i], id);
    forall j | 0 <= j < |Got(run[i].ops[id])| ensures Delivered(run[i], run[i].ops[id], j) {
      PopDelivered(run[i], id, j);
    }
  }

  /** All calls have returned and all iterators have been dropped. */
  ghost predicate Quiescent(s: State) {
    forall id :: 0 <= id < |s.ops| ==> Finished(s.ops[id])
  }

  /** At quiescence nothing is lost: every claimed position is published with the entry of its
      producer, and every position handed to a consumer was reported by that consumer. */
  lemma NothingIsLost(s: State, p: nat)
    requires Inv(s) && Quiescent(s) && p < |s.input|
    ensures p < |s.slots| && !s.slots[p].state.Vacant? && Content(s.slots[p]) == s.input[p]
    ensures p < |s.consumer| ==>
              && s.consumer[p] < |s.ops| && s.ops[s.consumer[p]].CDone?
              && var op := s.ops[s.consumer[p]];
                 op.start <= p < op.start + |op.got| && op.got[p - op.start] == s.input[p]
  {
    Bounds(s);
    assert SlotOk(s, p);
    if p < |s.consumer| {
      assert ReadOk(s, p);
      var id := s.consumer[p];
      assert OpOk(s, id, s.ops[id]);
      assert s.ops[id].got[p - s.ops[id].start] == s.input[s.ops[id].start + (p - s.ops[id].start)];
    }
  }

  // ---------- an empty answer ----------

  lemma PushNeverEmpty(s: State, id: Id, c: Choice)
    requires id < |s.ops| && PushOp(s.ops[id])
    ensures !Act(s, id, c).ops[id].CEmpty?
  {
  }

  lemma ClaimNeverEmpty(s: State, id: Id, c: Choice)
    requires id < |s.ops| && !PushOp(s.ops[id])
    requires !s.ops[id].CEmpty? && !s.ops[id].CCheck? && !s.ops[id].CLoop?
    ensures !Act(s, id, c).ops[id].CEmpty?
  {
  }

  /** A call answers "empty" in its first test or after comparing the two heads. */
  lemma WaysToBeEmpty(s: State, id: Id, c: Choice)
    requires id < |s.ops| && !s.ops[id].CEmpty? && Act(s, id, c).ops[id].CEmpty?
    ensures s.ops[id].CLoop? || (s.ops[id].CCheck? && (s.ops[id].size == 0 || s.chead.Zero?))
  {
    if PushOp(s.ops[id]) {
      PushNeverEmpty(s, id, c);
    } else if !s.ops[id].CCheck? && !s.ops[id].CLoop? {
      ClaimNeverEmpty(s, id, c);
    }
  }

  lemma EmptyStep(s: State, id: Id)
    requires Inv(s) && id < |s.ops| && s.ops[id].CLoop? && StepCLoop(s, id).ops[id].CEmpty?
    ensures |s.consumer| == |s.input| && s.plock == None
  {
    assert OpOk(s, id, s.ops[id]);
    Bounds(s);
  }

  /** Once `chead` is published, a `pop_batch` of positive size answers "empty" only at an
      instant at which every claimed item had been claimed by a consumer. */
  lemma EmptyMeansEmpty(run: seq<State>, i: nat, id: Id, c: Choice)
    requires IsRun(run) && i < |run| && id < |run[i].ops| && !run[i].ops[id].CEmpty?
    requires Act(run[i], id, c).ops[id].CEmpty?
    requires run[i].chead.At? && (run[i].ops[id].CCheck? ==> run[i].ops[id].size > 0)
    ensures |run[i].consumer| == |run[i].input| && run[i].plock == None
  {
    WaysToBeEmpty(run[i], id, c);
    RunKeeps(run, i);
    EmptyStep(run[i], id);
  }

  /** The exact condition for an "empty" answer of a pop of positive size to be right: the first
      block has been published, or nothing has been pushed at all. */
  lemma EmptyExactly(run: seq<State>, i: nat, id: Id, c: Choice)
    requires IsRun(run) && i < |run| && id < |run[i].ops| && !run[i].ops[id].CEmpty?
    requires Act(run[i], id, c).ops[id].CEmpty? && (run[i].ops[id].CCheck? ==> run[i].ops[id].size > 0)
    ensures |run[i].consumer| == |run[i].input| <==> run[i].chead.At? || run[i].input == []
  {
    if run[i].chead.At? {
      EmptyMeansEmpty(run, i, id, c);
    } else {
      RunKeeps(run, i);
      assert Heads(run[i]);
    }
  }
}
