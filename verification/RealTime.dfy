/** The queue order respects the order of calls that do not overlap. */
module RealTime {
  import opened Machine
  import opened Invariant
  import opened LocalSteps
  import opened Safety
  import opened Refinement

  /** The call has returned to its caller; a pop returns its iterator. */
  predicate Returned(op: Op) {
    Finished(op) || op.CIter?
  }

  /** What stays of a returned call: all of it, except that an iterator goes on yielding the
      positions the call was given. */
  ghost predicate Settled(op: Op, op': Op) {
    && (Finished(op) ==> op' == op)
    && (op.CIter? ==> PopReturned(op') && First(op') == First(op) && End(op') == End(op) && Got(op) <= Got(op'))
  }

  /** Claims are never withdrawn, calls are never forgotten, and returned calls claim nothing more. */
  ghost predicate Continues(s: State, s': State) {
    && s.producer <= s'.producer && s.consumer <= s'.consumer && |s.ops| <= |s'.ops|
    && (forall id :: 0 <= id < |s.ops| ==> Settled(s.ops[id], s'.ops[id]))
  }

  lemma IterSettled(s: State, id: Id, c: Choice)
    requires Inv(s) && id < |s.ops| && s.ops[id].CIter?
    ensures Settled(s.ops[id], Act(s, id, c).ops[id])
  {
    StepKeeps(s, Run(id, c));
    var s' := Act(s, id, c);
    assert OpOk(s', id, s'.ops[id]);
    StaysOrFaults(s, id, c);
  }

  lemma StaysOrFaults(s: State, id: Id, c: Choice)
    requires id < |s.ops| && s.ops[id].CIter?
    ensures Settled(s.ops[id], Act(s, id, c).ops[id]) || Act(s, id, c).ops[id].Fault?
  {
  }

  lemma StepContinues(s: State, step: Step)
    requires Inv(s) && Enabled(s, step)
    ensures Continues(s, Apply(s, step))
  {
    if step.Run? {
      ActContinues(s, step.id, step.c);
    }
  }

  lemma ActContinues(s: State, id: Id, c: Choice)
    requires Inv(s) && id < |s.ops|
    ensures Continues(s, Act(s, id, c))
  {
    ActForward(s, id, c);
    if s.ops[id].CIter? {
      IterSettled(s, id, c);
    }
  }

  lemma {:induction false} RunContinues(run: seq<State>, i: nat, j: nat)
    requires IsRun(run) && i <= j < |run|
    ensures Continues(run[i], run[j])
    decreases j - i
  {
    if i < j {
      RunKeeps(run, i);
      assert Next(run[i], run[i + 1]);
      var step :| Enabled(run[i], step) && run[i + 1] == Apply(run[i], step);
      StepContinues(run[i], step);
      RunContinues(run, i + 1, j);
    }
  }

  /** Claims belong to calls that have begun, and those of a returned call are complete. */
  lemma ProducersHaveBegun(s: State, p: nat)
    requires Inv(s) && p < |s.producer|
    ensures s.producer[p] < |s.ops| && InBatch(s.ops[s.producer[p]], p)
  {
    Bounds(s);
    assert SlotOk(s, p);
  }

  lemma ConsumersHaveBegun(s: State, p: nat)
    requires Inv(s) && p < |s.consumer|
    ensures s.consumer[p] < |s.ops| && InTake(s.L, s.ops[s.consumer[p]], p)
  {
    assert ReadOk(s, p);
  }

  lemma ReturnedIsComplete(s: State, id: Id)
    requires Inv(s) && id < |s.ops|
    ensures s.ops[id].PDone? && s.ops[id].items != [] ==> s.ops[id].start + |s.ops[id].items| <= |s.producer|
    ensures PopReturned(s.ops[id]) ==> End(s.ops[id]) <= |s.consumer|
  {
    assert OpOk(s, id, s.ops[id]);
  }

  /** If one push returned before another began, all its items are ahead of the other's. */
  lemma PushesInOrder(run: seq<State>, i: nat, j: nat, a: Id, b: Id, p: nat, q: nat)
    requires IsRun(run) && i <= j < |run| && a < |run[i].ops| <= b && Finished(run[i].ops[a])
    requires p < |run[j].producer| && q < |run[j].producer| && run[j].producer[p] == a && run[j].producer[q] == b
    ensures p < q
  {
    RunKeeps(run, i);
    RunKeeps(run, j);
    RunContinues(run, i, j);
    ProducersHaveBegun(run[j], p);
    ReturnedIsComplete(run[i], a);
    if q < |run[i].producer| {
      ProducersHaveBegun(run[i], q);
      assert false;
    }
  }

  /** If one pop returned before another began, drained or not, everything it is given is ahead
      of what the other is given. */
  lemma PopsInOrder(run: seq<State>, i: nat, j: nat, a: Id, b: Id, p: nat, q: nat)
    requires IsRun(run) && i <= j < |run| && a < |run[i].ops| <= b && Returned(run[i].ops[a])
    requires p < |run[j].consumer| && q < |run[j].consumer| && run[j].consumer[p] == a && run[j].consumer[q] == b
    ensures p < q
  {
    RunKeeps(run, i);
    RunKeeps(run, j);
    RunContinues(run, i, j);
    ConsumersHaveBegun(run[j], p);
    ReturnedIsComplete(run[i], a);
    if q < |run[i].consumer| {
      ConsumersHaveBegun(run[i], q);
      assert false;
    }
  }
}
