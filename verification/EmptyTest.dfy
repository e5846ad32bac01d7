/** `is_empty` beside other calls: it loads `phead` first and `chead` later. */
module EmptyTest {
  import opened Positions
  import opened Machine
  import opened Invariant
  import LocalSteps
  import Progress
  import opened Safety
  import opened Refinement

  /** What `is_empty` answers after loading `p` and then `c`. */
  predicate SaysEmpty(p: Head, c: Head) {
    p.Zero? || (c.At? && p.block == c.block && p.index == c.index)
  }

  ghost predicate IsEmpty(s: State) {
    |s.consumer| == |s.input|
  }

  /** Claims only grow, and a consumer's claim takes an item that is there. */
  ghost predicate Grows(s: State, s': State) {
    && |s.input| <= |s'.input| && |s.consumer| <= |s'.consumer|
    && (|s.consumer| < |s'.consumer| ==> !IsEmpty(s))
  }

  lemma StepGrows(s: State, step: Step)
    requires Inv(s) && Enabled(s, step)
    ensures Grows(s, Apply(s, step))
  {
    if step.Run? {
      ActForward(s, step.id, step.c);
    }
    StepKeeps(s, step);
    LocalSteps.Bounds(Apply(s, step));
  }

  /** Every step from state `i` up to state `j` is of this kind. */
  ghost predicate AllGrow(run: seq<State>, i: nat, j: nat) {
    j < |run| && forall t :: i <= t < j ==> Grows(run[t], run[t + 1])
  }

  lemma RunGrows(run: seq<State>, i: nat, j: nat)
    requires IsRun(run) && i <= j < |run|
    ensures AllGrow(run, i, j)
  {
    forall t | i <= t < j ensures Grows(run[t], run[t + 1]) {
      RunKeeps(run, t);
      assert Next(run[t], run[t + 1]);
      var step :| Enabled(run[t], step) && run[t + 1] == Apply(run[t], step);
      StepGrows(run[t], step);
    }
  }

  lemma {:induction false} GrowsOn(run: seq<State>, i: nat, j: nat)
    requires i <= j && AllGrow(run, i, j)
    ensures |run[i].input| <= |run[j].input| && |run[i].consumer| <= |run[j].consumer|
    decreases j - i
  {
    if i < j {
      GrowsOn(run, i + 1, j);
    }
  }

  lemma Monotone(run: seq<State>, i: nat, j: nat)
    requires IsRun(run) && i <= j < |run|
    ensures |run[i].input| <= |run[j].input| && |run[i].consumer| <= |run[j].consumer|
  {
    RunGrows(run, i, j);
    GrowsOn(run, i, j);
  }

  /** If it answers "empty", every item claimed before its first load was taken before its
      second; the queue is empty at the second load exactly when no producer claimed a slot in
      between. */
  lemma TrueMeans(run: seq<State>, i: nat, j: nat)
    requires IsRun(run) && i <= j < |run| && SaysEmpty(run[i].phead, run[j].chead)
    ensures run[i].phead.At? ==> |run[j].consumer| == |run[i].input|
    ensures run[i].phead.At? ==> (IsEmpty(run[j]) <==> |run[j].input| == |run[i].input|)
    ensures run[i].phead.Zero? ==> IsEmpty(run[i])
  {
    RunKeeps(run, i);
    RunKeeps(run, j);
    StaysTheSame(run, i, j);
    assert Heads(run[i]) && Heads(run[j]);
  }

  /** In the step from state `t` a producer claims the first slot since state `i`. */
  ghost predicate ClaimsFirst(run: seq<State>, i: nat, t: nat)
    requires i < |run|
  {
    t + 1 < |run| && |run[t].input| == |run[i].input| < |run[t + 1].input|
  }

  lemma {:induction false} FirstClaim(run: seq<State>, i: nat, j: nat) returns (t: nat)
    requires i <= j && AllGrow(run, i, j) && |run[i].input| < |run[j].input|
    ensures i <= t < j && ClaimsFirst(run, i, t)
    decreases j - i
  {
    if |run[i].input| < |run[i + 1].input| {
      t := i;
    } else {
      assert Grows(run[i], run[i + 1]);
      t := FirstClaim(run, i + 1, j);
    }
  }

  /** If it answers "empty", the queue was empty at some instant of the call exactly when the
      first slot that a producer claimed after the first load, if any, was claimed while the
      queue was empty. */
  lemma TrueExactly(run: seq<State>, i: nat, j: nat)
    requires IsRun(run) && i <= j < |run| && SaysEmpty(run[i].phead, run[j].chead) && run[i].phead.At?
    ensures (exists t :: i <= t <= j && IsEmpty(run[t])) <==>
            (forall t :: i <= t < j && ClaimsFirst(run, i, t) ==> IsEmpty(run[t]))
  {
    TrueMeans(run, i, j);
    if t0: nat :| i <= t0 <= j && IsEmpty(run[t0]) {
      forall t | i <= t < j && ClaimsFirst(run, i, t) ensures IsEmpty(run[t]) {
        EmptyBeforeClaim(run, i, j, t0, t);
      }
    }
    Monotone(run, i, j);
    if |run[i].input| < |run[j].input| {
      RunGrows(run, i, j);
      var t := FirstClaim(run, i, j);
    }
  }

  lemma EmptyBeforeClaim(run: seq<State>, i: nat, j: nat, t0: nat, t: nat)
    requires IsRun(run) && i <= t0 <= j < |run| && IsEmpty(run[t0]) && i <= t < j && ClaimsFirst(run, i, t)
    requires |run[j].consumer| == |run[i].input|
    ensures IsEmpty(run[t])
  {
    NeverOvertakes(run, t);
    Monotone(run, i, t0);
    Monotone(run, t0, j);
    if t < t0 {
      Monotone(run, t + 1, t0);
      assert false;
    }
    Monotone(run, t0, t);
  }

  lemma NeverOvertakes(run: seq<State>, i: nat)
    requires IsRun(run) && i < |run|
    ensures |run[i].consumer| <= |run[i].input|
  {
    RunKeeps(run, i);
    LocalSteps.Bounds(run[i]);
  }

  lemma {:induction false} StaysTheSame(run: seq<State>, i: nat, j: nat)
    requires IsRun(run) && i <= j < |run|
    ensures run[j].L == run[i].L
    decreases j - i
  {
    if i < j {
      assert Next(run[i], run[i + 1]);
      var step :| Enabled(run[i], step) && run[i + 1] == Apply(run[i], step);
      if step.Run? {
        Progress.ActKeepsL(run[i], step.id, step.c);
      }
      StaysTheSame(run, i + 1, j);
    }
  }

  /** A step between the two instants takes an item, so the queue held one. */
  lemma {:induction false} SomethingWasThere(run: seq<State>, i: nat, j: nat) returns (t: nat)
    requires i <= j && AllGrow(run, i, j) && |run[i].consumer| < |run[j].consumer|
    ensures i <= t <= j && !IsEmpty(run[t])
    decreases j - i
  {
    if IsEmpty(run[i]) {
      assert Grows(run[i], run[i + 1]);
      t := SomethingWasThere(run, i + 1, j);
    } else {
      t := i;
    }
  }

  /** The loaded words stand for different positions: an item was there. */
  lemma HeldBetween(run: seq<State>, i: nat, j: nat) returns (t: nat)
    requires IsRun(run) && i <= j < |run| && |run[i].input| != |run[j].consumer|
    ensures i <= t <= j && !IsEmpty(run[t])
  {
    NeverOvertakes(run, i);
    Monotone(run, i, j);
    if |run[i].consumer| < |run[i].input| {
      t := i;
    } else {
      RunGrows(run, i, j);
      t := SomethingWasThere(run, i, j);
    }
  }

  /** One word is parked at the end of a block and the other is at the start of the next. */
  predicate Neighbours(L: nat, a: Head, b: Head) {
    && a.At? && b.At?
    && (|| (a.index == L && b.block == a.block + 1 && b.index == 0)
        || (b.index == L && a.block == b.block + 1 && a.index == 0))
  }

  /** Two words that `is_empty` tells apart stand for the same position exactly if they are neighbours. */
  lemma SamePosition(L: nat, a: Head, b: Head)
    requires L > 0 && a.At? && b.At? && a.index <= L && b.index <= L && !(a.block == b.block && a.index == b.index)
    ensures Pos(L, a) == Pos(L, b) <==> Neighbours(L, a, b)
  {
    if a.block < b.block {
      StartOfNext(L, a, b);
    } else if b.block < a.block {
      StartOfNext(L, b, a);
    }
  }

  lemma StartOfNext(L: nat, a: Head, b: Head)
    requires L > 0 && a.At? && b.At? && a.index <= L && a.block < b.block
    ensures Pos(L, a) == Pos(L, b) <==> a.index == L && b.block == a.block + 1 && b.index == 0
  {
    BaseMono(L, a.block + 1, b.block);
    assert Base(L, a.block + 1) == Base(L, a.block) + L;
  }

  /** If it answers "not empty" and the loaded words are not neighbours, in particular if neither
      is parked, the queue held an item at some instant of the call.  If they are neighbours, the
      answer is wrong exactly when the queue was empty at the first load and no producer claimed a
      slot before the second. */
  lemma FalseMeans(run: seq<State>, i: nat, j: nat)
    requires IsRun(run) && i <= j < |run| && !SaysEmpty(run[i].phead, run[j].chead) && run[j].chead.At?
    ensures !Neighbours(run[i].L, run[i].phead, run[j].chead) ==> exists t :: i <= t <= j && !IsEmpty(run[t])
    ensures run[i].phead.index < run[i].L && run[j].chead.index < run[i].L ==> exists t :: i <= t <= j && !IsEmpty(run[t])
    ensures Neighbours(run[i].L, run[i].phead, run[j].chead) ==>
              ((exists t :: i <= t <= j && !IsEmpty(run[t])) <==> !(IsEmpty(run[i]) && |run[j].input| == |run[i].input|))
  {
    PositionsOf(run, i, j);
    SamePosition(run[i].L, run[i].phead, run[j].chead);
    if |run[i].input| != |run[j].consumer| {
      var t := HeldBetween(run, i, j);
    } else if IsEmpty(run[i]) && |run[j].input| == |run[i].input| {
      forall t | i <= t <= j ensures IsEmpty(run[t]) {
        Monotone(run, i, t);
        Monotone(run, t, j);
      }
    } else {
      Monotone(run, i, j);
      assert !IsEmpty(run[i]) || !IsEmpty(run[j]);
    }
  }

  lemma PositionsOf(run: seq<State>, i: nat, j: nat)
    requires IsRun(run) && i <= j < |run|
    ensures Pos(run[i].L, run[i].phead) == |run[i].input| && Pos(run[i].L, run[j].chead) == |run[j].consumer|
    ensures run[i].L > 0 && (run[i].phead.At? ==> run[i].phead.index <= run[i].L)
    ensures run[j].chead.At? ==> run[j].chead.index <= run[i].L
  {
    RunKeeps(run, i);
    RunKeeps(run, j);
    StaysTheSame(run, i, j);
    assert Heads(run[i]) && Heads(run[j]);
  }

  // ---------- it can answer "empty" although the queue was never empty ----------

  ghost predicate Reached(run: seq<State>) {
    IsRun(run) == true
  }

  /** Extends a run by one step. */
  lemma Extend(run: seq<State>, step: Step) returns (run': seq<State>)
    requires Reached(run) && Enabled(run[|run| - 1], step)
    ensures run' == run + [Apply(run[|run| - 1], step)] && Reached(run')
  {
    var last := run[|run| - 1];
    run' := run + [Apply(last, step)];
    assert Next(last, run'[|run|]);
  }

  /** A call of `push_batch` for one entry, up to its loop. */
  lemma PushBegins(run: seq<State>, e: Entry) returns (run': seq<State>)
    requires Reached(run) && run[|run| - 1].phead.At?
    ensures run <= run' && Reached(run') && |run'| == |run| + 2
    ensures var s := run[|run| - 1]; run'[|run'| - 1] == s.(ops := s.ops + [PLoop([e], s.phead, 0)])
    ensures forall t :: |run| <= t < |run'| ==> SameClaims(run[|run| - 1], run'[t])
  {
    var s := run[|run| - 1];
    var r1 := Extend(run, Start(Push([e])));
    assert r1[|run|] == s.(ops := s.ops + [PLoad([e])]);
    run' := Extend(r1, Run(|s.ops|, Choice(0, false)));
    assert s.ops + [PLoop([e], s.phead, 0)] == (s.ops + [PLoad([e])])[|s.ops| := PLoop([e], s.phead, 0)];
  }

  predicate SameClaims(s: State, s': State) {
    s'.input == s.input && s'.producer == s.producer && s'.consumer == s.consumer && s.ops <= s'.ops
  }

  /** What the steps of producer `id` leave alone. */
  predicate Mild(s: State, s': State, id: Id) {
    && s'.consumer == s.consumer && s.producer <= s'.producer
    && |s'.input| - |s.input| == |s'.producer| - |s.producer| && |s.ops| == |s'.ops|
    && forall j :: 0 <= j < |s.ops| && j != id ==> s'.ops[j] == s.ops[j]
  }

  /** A call of `push_batch` for one entry claims its slot inside the current block. */
  lemma PushClaims(run: seq<State>, id: Id, e: Entry) returns (run': seq<State>)
    requires Reached(run)
    requires var s := run[|run| - 1];
             s.phead.At? && s.phead.index + 1 < s.L && id < |s.ops| && s.ops[id] == PLoop([e], s.phead, 0)
    ensures run <= run' && Reached(run') && |run'| == |run| + 2
    ensures var s, s' := run[|run| - 1], run'[|run'| - 1];
            && s'.phead == At(s.phead.block, s.phead.index + 1, false) && s'.chead == s.chead && s'.L == s.L
            && s'.blocks == s.blocks && s'.slots == s.slots && s'.producer == s.producer + [id]
            && id < |s'.ops| && s'.ops[id] == PWrite([e], Pos(s.L, s.phead), 0, Pick(Place(s.phead.block, s.phead.index)))
    ensures forall t :: |run| <= t < |run'| ==> Mild(run[|run| - 1], run'[t], id)
  {
    var s, c := run[|run| - 1], Choice(0, false);
    var r3 := Extend(run, Run(id, c));
    assert r3[|run|].ops[id] == PTry([e], s.phead, 0);
    run' := Extend(r3, Run(id, c));
    assert run'[|run| + 1].producer == s.producer + [id];
  }

  /** It writes the slot and returns. */
  lemma PushWrites(run: seq<State>, id: Id, v: Value, start: nat, at: Place) returns (run': seq<State>)
    requires Reached(run)
    requires var s := run[|run| - 1];
             && id < |s.ops| && s.ops[id] == PWrite([Some(v)], start, 0, Pick(at)) && at.index + 1 < s.L && InBounds(s, at)
    ensures run <= run' && Reached(run') && |run'| == |run| + 4
    ensures var s, s' := run[|run| - 1], run'[|run'| - 1];
            && s'.phead == s.phead && s'.chead == s.chead && s'.L == s.L
            && s'.blocks == s.blocks && |s'.slots| == |s.slots| && s'.producer == s.producer
            && id < |s'.ops| && s'.ops[id] == PDone([Some(v)], start)
    ensures forall t :: |run| <= t < |run'| ==> Mild(run[|run| - 1], run'[t], id)
  {
    var c, next := Choice(0, false), at.(index := at.index + 1);
    var r1 := Extend(run, Run(id, c));
    assert r1[|run|].ops[id] == PWrite([Some(v)], start, 0, Put(at, next));
    var r2 := Extend(r1, Run(id, c));
    assert r2[|run| + 1].ops[id] == PWrite([Some(v)], start, 0, Commit(at, next));
    var r3 := Extend(r2, Run(id, c));
    assert r3[|run| + 2].ops[id] == PWrite([Some(v)], start, 1, Pick(next));
    run' := Extend(r3, Run(id, c));
  }

  lemma OnePush(run: seq<State>, id: Id, v: Value) returns (run': seq<State>)
    requires Reached(run)
    requires var s := run[|run| - 1];
             && s.phead.At? && s.phead.index + 1 < s.L && id < |s.ops| && s.ops[id] == PLoop([Some(v)], s.phead, 0)
             && InBounds(s, Place(s.phead.block, s.phead.index))
    ensures run <= run' && Reached(run') && |run'| == |run| + 6
    ensures var s, s' := run[|run| - 1], run'[|run'| - 1];
            && s'.phead == At(s.phead.block, s.phead.index + 1, false) && s'.chead == s.chead && s'.L == s.L
            && s'.blocks == s.blocks && |s'.slots| == |s.slots| && s'.producer == s.producer + [id]
            && id < |s'.ops| && s'.ops[id].PDone?
    ensures forall t :: |run| <= t < |run'| ==> Mild(run[|run| - 1], run'[t], id)
  {
    var s := run[|run| - 1];
    var r2 := PushClaims(run, id, Some(v));
    run' := PushWrites(r2, id, v, Pos(s.L, s.phead), Place(s.phead.block, s.phead.index));
    forall t | |run| <= t < |run'| ensures Mild(s, run'[t], id) {
      assert t < |r2| ==> run'[t] == r2[t];
      assert Mild(s, r2[|r2| - 1], id);
    }
  }

  /** A call of `pop_batch(1)`, up to its loop. */
  lemma PopBegins(run: seq<State>) returns (run': seq<State>)
    requires Reached(run) && run[|run| - 1].chead.At?
    ensures run <= run' && Reached(run') && |run'| == |run| + 3
    ensures var s := run[|run| - 1]; run'[|run'| - 1] == s.(ops := s.ops + [CLoop(1, s.chead)])
    ensures forall t :: |run| <= t < |run'| ==> SameClaims(run[|run| - 1], run'[t])
  {
    var s, c := run[|run| - 1], Choice(0, false);
    var id := |s.ops|;
    var r1 := Extend(run, Start(Pop(1)));
    assert r1[|run|] == s.(ops := s.ops + [CCheck(1)]);
    var r2 := Extend(r1, Run(id, c));
    assert s.ops + [CLoad(1)] == (s.ops + [CCheck(1)])[id := CLoad(1)];
    assert r2[|run| + 1] == s.(ops := s.ops + [CLoad(1)]);
    run' := Extend(r2, Run(id, c));
    assert s.ops + [CLoop(1, s.chead)] == (s.ops + [CLoad(1)])[id := CLoop(1, s.chead)];
  }

  /** What a consumer that claims one slot leaves alone. */
  predicate Takes(s: State, s': State) {
    && s'.input == s.input && s'.producer == s.producer && |s.consumer| <= |s'.consumer| <= |s.consumer| + 1
    && s.ops <= s'.ops
  }

  /** The same call up to its claim. */
  lemma OnePop(run: seq<State>) returns (run': seq<State>)
    requires Reached(run)
    requires var s := run[|run| - 1];
             && s.phead.At? && s.chead.At? && s.phead.block == s.chead.block && !s.chead.hint
             && s.chead.index + 1 <= s.phead.index < s.L && |s.consumer| == Pos(s.L, s.chead)
    ensures run <= run' && Reached(run') && |run'| == |run| + 5
    ensures var s, s' := run[|run| - 1], run'[|run'| - 1];
            && s'.chead == At(s.chead.block, s.chead.index + 1, false) && s'.input == s.input
            && |s'.consumer| == |s.consumer| + 1
    ensures forall t :: |run| <= t < |run'| ==> Takes(run[|run| - 1], run'[t])
  {
    var s, c := run[|run| - 1], Choice(0, false);
    var id := |s.ops|;
    var r3 := PopBegins(run);
    var r4 := Extend(r3, Run(id, c));
    assert r4[|run| + 3].ops[id] == CTry(1, s.chead, At(s.chead.block, s.chead.index + 1, false));
    run' := Extend(r4, Run(id, c));
  }

  /** A queue whose first block is installed and not yet published to consumers. */
  lemma Installed(L: nat, e: Entry) returns (run: seq<State>)
    requires L > 0
    ensures Reached(run) && var s := run[|run| - 1];
            && s.phead.At? && !s.phead.hint && s.phead.block == s.phead.index && s.phead.index + L == s.L == L && s.chead.Zero?
            && s.consumer == [] && s.input == [] && s.producer == [] && s.ops == [PPublish([e])]
            && |s.blocks| == s.phead.block + 1 && s.blocks[s.phead.block] == Block(None, 0, Live)
            && |s.slots| == Base(s.L, s.phead.block) + s.L
  {
    var s, c := State(L, false, Zero, Zero, [], [], [], [], [], [], {}, None, None, None), Choice(0, false);
    var r1 := Extend([s], Start(Push([e])));
    assert r1[1].ops == [PLoad([e])];
    var r2 := Extend(r1, Run(0, c));
    assert r2[2].ops == [PInit([e])];
    run := Extend(r2, Run(0, c));
    assert run[3].ops == [PPublish([e])];
    assert run[3].blocks == [Block(None, 0, Live)];
  }

  /** A queue whose first block has just been published. */
  lemma Opened(L: nat, e: Entry) returns (run: seq<State>)
    requires L > 0
    ensures Reached(run) && var s := run[|run| - 1];
            && s.phead.At? && s.chead.At? && s.phead.block == s.chead.block && !s.chead.hint && !s.phead.hint
            && s.phead.index == s.chead.index && s.phead.index + L == s.L
            && |s.consumer| == Pos(s.L, s.chead) && s.consumer == [] && s.input == [] && s.producer == []
            && |s.blocks| == s.phead.block + 1 && s.blocks[s.phead.block] == Block(None, 0, Live)
            && |s.slots| == Base(s.L, s.phead.block) + s.L && s.ops == [PLoop([e], s.phead, 0)]
  {
    var r := Installed(L, e);
    run := Extend(r, Run(0, Choice(0, false)));
  }

  /** The queue holds an item whose push has returned. */
  ghost predicate HoldsReturned(s: State) {
    && |s.consumer| < |s.input| == |s.producer| && s.producer[|s.consumer|] < |s.ops|
    && s.ops[s.producer[|s.consumer|]].PDone?
  }

  lemma StillHeld(s: State, s': State, id: Id)
    requires HoldsReturned(s) && s.producer[|s.consumer|] != id && Mild(s, s', id)
    ensures HoldsReturned(s')
  {
  }

  /** With two returned items, taking one leaves one. */
  lemma OneLeft(s: State, s': State)
    requires |s.consumer| + 2 == |s.producer| == |s.input| && Takes(s, s')
    requires forall p :: |s.consumer| <= p < |s.producer| ==> s.producer[p] < |s.ops| && s.ops[s.producer[p]].PDone?
    ensures HoldsReturned(s')
  {
  }

  /** A queue with one returned item, and a second push about to begin. */
  lemma OneItem(v: Value) returns (run: seq<State>)
    ensures Reached(run) && var s := run[|run| - 1];
            && s.phead.At? && s.chead.At? && s.phead.block == s.chead.block && !s.chead.hint
            && s.phead.index == s.chead.index + 1 && s.phead.index + 1 < s.L && |s.consumer| == Pos(s.L, s.chead)
            && s.consumer == [] && InBounds(s, Place(s.phead.block, s.phead.index))
            && |s.input| == 1 && |s.ops| == 1 && s.producer == [0] && s.ops[0].PDone?
  {
    var r0 := Opened(3, Some(v));
    run := OnePush(r0, 0, v);
    assert Mild(r0[|r0| - 1], run[|run| - 1], 0);
  }

  lemma SecondItem(r1: seq<State>, v: Value) returns (r2: seq<State>)
    requires Reached(r1)
    requires var s := r1[|r1| - 1];
             && s.phead.At? && s.phead.index + 1 < s.L && InBounds(s, Place(s.phead.block, s.phead.index))
             && s.consumer == [] && |s.input| == 1 && |s.ops| == 1 && s.producer == [0] && s.ops[0].PDone?
    ensures r1 <= r2 && Reached(r2) && |r1| < |r2|
    ensures var s, s' := r1[|r1| - 1], r2[|r2| - 1];
            && s'.phead == At(s.phead.block, s.phead.index + 1, false) && s'.chead == s.chead && s'.L == s.L
            && s'.consumer == [] && |s'.input| == 2 && s'.producer == [0, 1]
            && |s'.ops| == 2 && s'.ops[0].PDone? && s'.ops[1].PDone?
    ensures forall t :: |r1| - 1 <= t < |r2| ==> HoldsReturned(r2[t])
  {
    var s := r1[|r1| - 1];
    var rb := PushBegins(r1, Some(v));
    var sb := rb[|rb| - 1];
    r2 := OnePush(rb, 1, v);
    assert Mild(sb, r2[|r2| - 1], 1);
    forall t | |r1| - 1 <= t < |r2| ensures HoldsReturned(r2[t]) {
      assert t < |rb| ==> r2[t] == rb[t];
      assert t < |r1| ==> rb[t] == r1[t];
      if t >= |rb| {
        StillHeld(sb, r2[t], 1);
      }
    }
  }

  // ---------- a pop can answer "empty" although a push has returned ----------

  /** While the first block is installed and not published, a push by another thread can return,
      and a `pop_batch(1)` that begins after that answers "empty".  (`EmptyExactly` says when
      such an answer is right.) */
  lemma ReturnedYetMissed(v: Value) returns (run: seq<State>, n: nat, id: Id)
    ensures IsRun(run) && |run| == n + 3 && HoldsReturned(run[n]) && id == |run[n].ops|
    ensures id < |run[n + 1].ops| && run[n + 1].ops[id] == CCheck(1)
    ensures id < |run[n + 2].ops| && run[n + 2].ops[id].CEmpty? && HoldsReturned(run[n + 2])
  {
    var r0 := Installed(2, Some(v));
    var rb := PushBegins(r0, Some(v));
    var r1 := OnePush(rb, 1, v);
    assert Mild(rb[|rb| - 1], r1[|r1| - 1], 1);
    n := |r1| - 1;
    id := |r1[n].ops|;
    var r2 := Extend(r1, Start(Pop(1)));
    assert r2[n + 1].ops[id] == CCheck(1);
    run := Extend(r2, Run(id, Choice(0, false)));
    assert run[n] == r1[n];
  }

  /** A producer and a consumer between its two loads make `is_empty` answer "empty" although at
      every instant of the call the queue holds an item whose push has returned. */
  lemma NeverEmptyYetTrue(v: Value) returns (run: seq<State>, i: nat, j: nat)
    ensures IsRun(run) && i < j < |run| && SaysEmpty(run[i].phead, run[j].chead)
    ensures forall t :: i <= t <= j ==> HoldsReturned(run[t])
  {
    var r1 := OneItem(v);
    i := |r1| - 1;
    var r2 := SecondItem(r1, v);
    run := OnePop(r2);
    j := |run| - 1;
    assert run[i] == r2[i] == r1[i];
    forall t | i <= t <= j ensures HoldsReturned(run[t]) {
      assert t < |r2| ==> run[t] == r2[t];
      if t >= |r2| {
        OneLeft(r2[|r2| - 1], run[t]);
      }
    }
  }

  // ---------- it can answer "not empty" although the queue is empty throughout ----------

  /** A call of `push_batch` claims the last slot of the last block and locks `phead`. */
  lemma LastPush(run: seq<State>, e: Entry) returns (run': seq<State>)
    requires Reached(run)
    requires var s := run[|run| - 1]; s.phead.At? && s.phead.index + 1 == s.L && !s.phead.hint
    ensures Reached(run')
    ensures var s, s', k, i := run[|run| - 1], run'[|run'| - 1], run[|run| - 1].phead.block, run[|run| - 1].phead.index;
            && s'.L == s.L && s'.blocks == s.blocks && s'.chead == s.chead && s'.consumer == s.consumer
            && s'.input == s.input + [e] && |s'.ops| == |s.ops| + 1
            && s'.ops[|s.ops|] == PFill([e], Fill(Pos(s.L, s.phead), Place(k, i), Place(k, i), 1, 1), LoadLink)
  {
    var s, c := run[|run| - 1], Choice(1, false);
    var id := |s.ops|;
    var r2 := PushBegins(run, e);
    assert Base(s.L, 1) == s.L;
    var r3 := Extend(r2, Run(id, c));
    assert r3[|run| + 2].ops[id] == PTry([e], s.phead, 1);
    run' := Extend(r3, Run(id, c));
    assert [e][..1] == [e];
  }

  /** The lock holder links its one block and walks into it. */
  lemma FillsOn(run: seq<State>, id: Id, e: Entry, start: nat, from: Place) returns (run': seq<State>)
    requires Reached(run)
    requires var s := run[|run| - 1];
             && id < |s.ops| && s.ops[id] == PFill([e], Fill(start, from, from, 1, 1), LoadLink)
             && from.index + 1 == s.L && |s.blocks| == from.block + 1 && s.blocks[from.block] == Block(None, 0, Live)
    ensures Reached(run')
    ensures var s, s' := run[|run| - 1], run'[|run'| - 1];
            && s'.L == s.L && s'.chead == s.chead && s'.consumer == s.consumer && s'.input == s.input
            && |s'.blocks| == from.block + 2 && s'.blocks[from.block + 1] == Block(None, 0, Live)
            && |s'.ops| == |s.ops| && s'.ops[id] == PFill([e], Fill(start, from, Place(from.block + 1, 0), 0, 0), LoadLink)
  {
    var s, c := run[|run| - 1], Choice(0, false);
    var r1 := Extend(run, Run(id, c));
    assert r1[|run|].ops[id] == PFill([e], Fill(start, from, from, 1, 1), StoreRoot);
    var r2 := Extend(r1, Run(id, c));
    assert r2[|run| + 1].ops[id] == PFill([e], Fill(start, from, from, 1, 0), Advance(Some(from.block + 1)));
    assert FreshBlocks(from.block + 1, 1) == [Block(None, 0, Live)];
    run' := Extend(r2, Run(id, c));
  }

  /** It finds no further block and releases `phead` at the start of the new one. */
  lemma FillsUp(run: seq<State>, id: Id, e: Entry, start: nat, from: Place, k: nat) returns (run': seq<State>)
    requires Reached(run)
    requires var s := run[|run| - 1];
             && id < |s.ops| && s.ops[id] == PFill([e], Fill(start, from, Place(k, 0), 0, 0), LoadLink)
             && s.L > 0 && |s.blocks| == k + 1 && s.blocks[k] == Block(None, 0, Live) && |s.input| == start + 1
    ensures Reached(run')
    ensures var s, s' := run[|run| - 1], run'[|run'| - 1];
            && s'.L == s.L && s'.phead.At? && s'.phead.block == k && s'.chead == s.chead
            && s'.consumer == s.consumer && s'.input == s.input
  {
    var s, c := run[|run| - 1], Choice(0, false);
    var r1 := Extend(run, Run(id, c));
    assert r1[|run|].ops[id] == PFill([e], Fill(start, from, Place(k, 0), 0, 0), StoreRoot);
    var r2 := Extend(r1, Run(id, c));
    assert r2[|run| + 1].ops[id] == PFill([e], Fill(start, from, Place(k, 0), 0, 0), Advance(None));
    run' := Extend(r2, Run(id, c));
    assert [e][1..] == [];
  }

  /** A call of `pop_batch(1)` claims the last slot of a block that is not the last and locks `chead`. */
  lemma LastPop(run: seq<State>) returns (run': seq<State>)
    requires Reached(run)
    requires var s := run[|run| - 1];
             && s.phead.At? && s.chead.At? && s.phead.block != s.chead.block && !s.chead.hint
             && s.chead.index + 1 == s.L && |s.consumer| == Pos(s.L, s.chead)
    ensures Reached(run')
    ensures var s, s' := run[|run| - 1], run'[|run'| - 1];
            && s'.chead.At? && s'.chead.block == s.chead.block && s'.phead == s.phead
            && s'.input == s.input && |s'.consumer| == |s.consumer| + 1
  {
    var s, c := run[|run| - 1], Choice(0, false);
    var id := |s.ops|;
    var r3 := PopBegins(run);
    var r4 := Extend(r3, Run(id, c));
    assert r4[|run| + 3].ops[id] == CTry(1, s.chead, At(s.chead.block, s.L, true));
    run' := Extend(r4, Run(id, c));
  }

  /** A queue whose first block has one slot only. */
  lemma OpenedLast(e: Entry) returns (run: seq<State>)
    ensures Reached(run) && var s := run[|run| - 1];
            && s.phead.At? && s.chead.At? && s.phead.block == s.chead.block && !s.chead.hint && !s.phead.hint
            && s.phead.index == s.chead.index && s.phead.index + 1 == s.L
            && |s.consumer| == Pos(s.L, s.chead) == Pos(s.L, s.phead) == |s.input| && s.input == []
            && |s.blocks| == s.phead.block + 1 && s.blocks[s.phead.block] == Block(None, 0, Live)
  {
    run := Opened(1, e);
  }

  lemma Parked(e: Entry) returns (run: seq<State>)
    ensures Reached(run) && var s := run[|run| - 1];
            && s.phead.At? && s.chead.At? && s.phead.block != s.chead.block && s.input == [e] && |s.consumer| == |s.input|
  {
    var r0 := OpenedLast(e);
    var s := r0[|r0| - 1];
    var start, from := Pos(s.L, s.phead), Place(s.phead.block, s.phead.index);
    var r1 := LastPush(r0, e);
    var r2 := FillsOn(r1, |s.ops|, e, start, from);
    var r3 := FillsUp(r2, |s.ops|, e, start, from, from.block + 1);
    run := LastPop(r3);
  }

  /** With `chead` parked at the end of a block and `phead` at the start of the next, `is_empty`
      answers "not empty" although nothing happens between its loads and the queue is empty. */
  lemma EmptyYetFalse(e: Entry) returns (run: seq<State>, i: nat)
    ensures IsRun(run) && i < |run| && run[i].chead.At? && !SaysEmpty(run[i].phead, run[i].chead)
    ensures Neighbours(run[i].L, run[i].phead, run[i].chead) && IsEmpty(run[i]) && run[i].input == [e]
  {
    run := Parked(e);
    i := |run| - 1;
    PositionsOf(run, i, i);
    SamePosition(run[i].L, run[i].phead, run[i].chead);
  }
}
