/** The two packed heads, with their lock phases, refine a log and a counter. */
module Refinement {
  import opened Positions
  import opened Machine
  import opened Invariant
  import opened LocalSteps
  import opened PushSteps
  import opened PopSteps
  import opened Safety

  // ---------- heads only move forward, and claims only grow ----------

  predicate Moves(a: Head, b: Head) {
    a == b || Lt(a, b)
  }

  /** What one step of call `id` does to the heads and to the claims. */
  ghost predicate Forward(s: State, s': State, id: Id) {
    && Moves(s.phead, s'.phead) && Moves(s.chead, s'.chead)
    && s.input <= s'.input && s.producer <= s'.producer && s.consumer <= s'.consumer
    && (forall p :: |s.producer| <= p < |s'.producer| ==> s'.producer[p] == id)
    && (forall p :: |s.consumer| <= p < |s'.consumer| ==> s'.consumer[p] == id)
    && (s'.consumer == s.consumer || (s'.input == s.input && s'.producer == s.producer))
  }

  ghost predicate SameHeads(s: State, s': State) {
    && s'.phead == s.phead && s'.chead == s.chead
    && s'.input == s.input && s'.producer == s.producer && s'.consumer == s.consumer
  }

  lemma QuietPush(s: State, id: Id, c: Choice)
    requires id < |s.ops| && PushOp(s.ops[id])
    requires !s.ops[id].PInit? && !s.ops[id].PPublish? && !s.ops[id].PTry? && !s.ops[id].PFill?
    ensures SameHeads(s, Act(s, id, c))
  {
  }

  lemma QuietPop(s: State, id: Id, c: Choice)
    requires id < |s.ops| && !PushOp(s.ops[id]) && !s.ops[id].CTry? && !s.ops[id].CWalk?
    ensures SameHeads(s, Act(s, id, c))
  {
  }

  lemma QuietFill(s: State, id: Id, c: Choice)
    requires id < |s.ops| && s.ops[id].PFill?
    requires s.ops[id].fpc.Advance? ==> SatSub(s.L, s.ops[id].f.at.index) <= s.ops[id].f.remaining
    ensures SameHeads(s, Act(s, id, c))
  {
  }

  lemma QuietWalk(s: State, id: Id, c: Choice)
    requires id < |s.ops| && s.ops[id].CWalk? && !Releases(s, s.ops[id])
    ensures SameHeads(s, Act(s, id, c))
  {
  }

  lemma PFillForward(s: State, id: Id, c: Choice)
    requires Inv(s) && id < |s.ops| && s.ops[id].PFill?
    ensures Forward(s, Act(s, id, c), id)
  {
    assert OpOk(s, id, s.ops[id]);
    if s.ops[id].fpc.Advance? && s.ops[id].f.remaining < s.L - s.ops[id].f.at.index {
      FillRelease(s, id);
    } else {
      QuietFill(s, id, c);
    }
  }

  lemma InitForward(s: State, id: Id, c: Choice)
    requires Inv(s) && id < |s.ops| && (s.ops[id].PInit? || s.ops[id].PPublish?)
    ensures Forward(s, Act(s, id, c), id)
  {
    assert OpOk(s, id, s.ops[id]);
  }

  lemma PTryForward(s: State, id: Id, c: Choice)
    requires Heads(s) && id < |s.ops| && s.ops[id].PTry? && OpOk(s, id, s.ops[id])
    ensures Forward(s, Act(s, id, c), id)
  {
    assert OpOk(s, id, s.ops[id]);
  }

  lemma CTryForward(s: State, id: Id, c: Choice)
    requires Inv(s) && id < |s.ops| && s.ops[id].CTry?
    ensures Forward(s, Act(s, id, c), id)
  {
    assert OpOk(s, id, s.ops[id]);
  }

  lemma CWalkForward(s: State, id: Id, c: Choice)
    requires Inv(s) && id < |s.ops| && s.ops[id].CWalk?
    ensures Forward(s, Act(s, id, c), id)
  {
    assert OpOk(s, id, s.ops[id]);
    if Releases(s, s.ops[id]) {
      WalkRelease(s, id);
    } else {
      QuietWalk(s, id, c);
    }
  }

  /** Every step of a call moves at most one head, and only forward; the positions it claims,
      if any, go to that call and follow those already claimed. */
  lemma ActForward(s: State, id: Id, c: Choice)
    requires Inv(s) && id < |s.ops|
    ensures Forward(s, Act(s, id, c), id)
  {
    var op := s.ops[id];
    if op.PFill? {
      PFillForward(s, id, c);
    } else if op.PInit? || op.PPublish? {
      InitForward(s, id, c);
    } else if op.PTry? {
      assert OpOk(s, id, op);
      PTryForward(s, id, c);
    } else if op.CTry? {
      CTryForward(s, id, c);
    } else if op.CWalk? {
      CWalkForward(s, id, c);
    } else if PushOp(op) {
      QuietPush(s, id, c);
    } else {
      QuietPop(s, id, c);
    }
  }

  // ---------- lock releases ----------

  lemma FillRelease(s: State, id: Id)
    requires Heads(s) && id < |s.ops| && s.ops[id].PFill? && s.ops[id].fpc.Advance? && OpOk(s, id, s.ops[id])
    requires s.ops[id].f.remaining < s.L - s.ops[id].f.at.index
    ensures var s', start, items := StepPMove(s, id), s.ops[id].f.start, s.ops[id].items;
            && s'.phead.At? && s'.phead.index < s.L && Lt(s.phead, s'.phead)
            && (s'.phead.hint <==> s'.phead.block + 1 < |s'.blocks|)
            && Pos(s.L, s'.phead) == start + |items| == |s'.input|
            && s'.input == s.input + items[|s.input| - start..]
            && s'.producer == s.producer + Copies(id, start + |items| - |s.input|)
            && s'.chead == s.chead && s'.consumer == s.consumer
  {
  }

  /** A producer that releases `phead` leaves it exactly behind its batch, inside a block, with a
      hint exactly if a successor is linked. */
  lemma PushReleaseExact(s: State, id: Id, c: Choice)
    requires Inv(s) && id < |s.ops| && s.plock == Some(id) && Act(s, id, c).plock == None
    ensures s.ops[id].PFill?
    ensures var s' := Act(s, id, c);
            && s'.phead.At? && s'.phead.index < s.L && (s'.phead.hint <==> s'.phead.block + 1 < |s'.blocks|)
            && Pos(s.L, s'.phead) == s.ops[id].f.start + |s.ops[id].items| == |s'.input|
            && Lt(s.phead, s'.phead)
  {
    assert OpOk(s, id, s.ops[id]);
    FillRelease(s, id);
  }

  /** The walker is about to store `chead`. */
  predicate Releases(s: State, op: Op)
    requires op.CWalk?
  {
    && op.cpc.Move?
    && var w := op.w;
       if w.ph.At? && w.ph.block == w.at.block then w.ph.index != s.L
       else w.remaining < SatSub(s.L, w.at.index)
  }

  /** What the store of `chead` leaves behind. */
  ghost predicate ReleasedAt(s: State, id: Id, s': State)
    requires id < |s.ops| && s.ops[id].CWalk?
  {
    var w := s.ops[id].w;
    && id < |s'.ops| && s'.chead.At? && s'.chead.index < s.L && s'.ops[id].CIter?
    && s'.ops[id].it.start == w.start && s'.ops[id].it.len <= w.len
    && Pos(s.L, s'.chead) == w.start + s'.ops[id].it.len == |s'.consumer|
    && Lt(s.chead, s'.chead)
    && |s.consumer| <= |s'.consumer| && s'.consumer == s.consumer + Copies(id, |s'.consumer| - |s.consumer|)
    && s'.phead == s.phead && s'.input == s.input && s'.producer == s.producer
  }

  lemma ReleaseLeaves(s: State, id: Id, index: nat, hint: bool, len: nat)
    requires Heads(s) && id < |s.ops| && s.ops[id].CWalk? && ReleaseAt(s, id, s.ops[id].w, index, hint, len)
    ensures ReleasedAt(s, id, Release(s, id, s.ops[id].w, index, hint, len))
  {
    var w := s.ops[id].w;
    BaseMono(s.L, w.from.block + 1, w.at.block);
  }

  lemma WalkRelease(s: State, id: Id)
    requires Heads(s) && id < |s.ops| && s.ops[id].CWalk? && Releases(s, s.ops[id]) && OpOk(s, id, s.ops[id])
    ensures ReleasedAt(s, id, StepCMove(s, id))
  {
    var w := s.ops[id].w;
    if w.ph.block == w.at.block {
      var taken := Min(w.ph.index, w.remaining);
      CatchUpReleases(s, id, w, taken);
      ReleaseLeaves(s, id, taken, false, w.len - (w.remaining - taken));
    } else {
      ReleaseLeaves(s, id, w.at.index + w.remaining, true, w.len);
    }
  }

  /** A consumer that releases `chead` leaves it exactly behind the slots it hands out,
      which are no more than it asked for, inside a block, with a hint exactly if the producers'
      head it last loaded is in a later block. */
  lemma PopReleaseExact(s: State, id: Id, c: Choice)
    requires Inv(s) && id < |s.ops| && s.ops[id].CWalk? && s.clock == Some(id) && Act(s, id, c).clock == None
    ensures var s', w := Act(s, id, c), s.ops[id].w;
            && s'.chead.At? && s'.chead.index < s.L && s'.ops[id].CIter?
            && s'.ops[id].it.start == w.start && s'.ops[id].it.len <= w.len
            && Pos(s.L, s'.chead) == w.start + s'.ops[id].it.len == |s'.consumer|
            && Lt(s.chead, s'.chead) && w.ph.At? && (s'.chead.hint <==> s'.chead.block < w.ph.block)
  {
    assert OpOk(s, id, s.ops[id]);
    WalkRelease(s, id);
    WalkHint(s, id);
  }

  lemma WalkHint(s: State, id: Id)
    requires id < |s.ops| && s.ops[id].CWalk? && Releases(s, s.ops[id]) && OpOk(s, id, s.ops[id])
    ensures var s', w := StepCMove(s, id), s.ops[id].w;
            s'.chead.At? && w.ph.At? && (s'.chead.hint <==> s'.chead.block < w.ph.block)
  {
  }

  // ---------- the abstract queue ----------

  /** A log of entries in the order of their positions, and how many have been taken. */
  datatype Fifo = Fifo(log: seq<Entry>, taken: nat)

  function Abstract(s: State): Fifo {
    Fifo(s.input, |s.consumer|)
  }

  /** The entries that are in the queue. */
  function Contents(q: Fifo): seq<Entry>
    requires q.taken <= |q.log|
  {
    q.log[q.taken..]
  }

  /** One step appends entries at the back, takes entries from the front, or does neither. */
  ghost predicate FifoStep(q: Fifo, q': Fifo) {
    && q.taken <= |q.log| && q'.taken <= |q'.log|
    && (|| (exists back :: Contents(q') == Contents(q) + back)
        || (exists n :: 0 <= n <= |Contents(q)| && Contents(q') == Contents(q)[n..]))
  }

  lemma GrowsAtOneEnd(q: Fifo, q': Fifo)
    requires q.taken <= |q.log| && q'.taken <= |q'.log|
    requires (q'.taken == q.taken && q.log <= q'.log) || (q'.log == q.log && q.taken <= q'.taken)
    ensures FifoStep(q, q')
  {
    if q'.taken == q.taken {
      assert Contents(q') == Contents(q) + q'.log[|q.log|..];
    } else {
      assert Contents(q') == Contents(q)[q'.taken - q.taken..];
    }
  }

  lemma StepRefines(s: State, step: Step)
    requires Inv(s) && Enabled(s, step)
    ensures FifoStep(Abstract(s), Abstract(Apply(s, step)))
  {
    Bounds(s);
    StepKeeps(s, step);
    Bounds(Apply(s, step));
    if step.Run? {
      ActForward(s, step.id, step.c);
    }
    GrowsAtOneEnd(Abstract(s), Abstract(Apply(s, step)));
  }

  /** Every run of the protocol is a run of the abstract queue. */
  lemma RunRefines(run: seq<State>, i: nat)
    requires IsRun(run) && i + 1 < |run|
    ensures FifoStep(Abstract(run[i]), Abstract(run[i + 1]))
  {
    RunKeeps(run, i);
    assert Next(run[i], run[i + 1]);
    var step :| Enabled(run[i], step) && run[i + 1] == Apply(run[i], step);
    StepRefines(run[i], step);
  }
}
