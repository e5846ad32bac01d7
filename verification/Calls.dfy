/** What a call was asked for, and what it gets: a push keeps the items it was given, and a pop
    gets the number it asked for, or at some instant of the call there was no more to be had. */
module Calls {
  import opened Positions
  import opened Machine
  import opened Invariant
  import opened LocalSteps
  import opened PushSteps
  import opened PopSteps
  import opened Safety
  import opened Refinement
  import opened RealTime
  import Progress

  // ---------- the beginning of a call ----------

  /** Call `id` is `call`, and step `b` begins it. */
  ghost predicate BegunBy(run: seq<State>, b: nat, id: Id, call: Call) {
    b + 1 < |run| && id == |run[b].ops| && run[b + 1] == Begin(run[b], call)
  }

  lemma StepBegins(s: State, step: Step, id: Id)
    requires Enabled(s, step) && |s.ops| <= id < |Apply(s, step).ops|
    ensures step.Start? && id == |s.ops|
  {
  }

  lemma BeginsIn(run: seq<State>, j: nat, id: Id) returns (call: Call)
    requires IsRun(run) && j + 1 < |run| && |run[j].ops| <= id < |run[j + 1].ops|
    ensures BegunBy(run, j, id, call)
  {
    assert Next(run[j], run[j + 1]);
    var step :| Enabled(run[j], step) && run[j + 1] == Apply(run[j], step);
    StepBegins(run[j], step, id);
    call := step.call;
  }

  /** Every call has begun. */
  lemma {:induction false} HasBegun(run: seq<State>, j: nat, id: Id) returns (b: nat, call: Call)
    requires IsRun(run) && j < |run| && id < |run[j].ops|
    ensures b < j && BegunBy(run, b, id, call)
    decreases j
  {
    assert j > 0;
    if id < |run[j - 1].ops| {
      b, call := HasBegun(run, j - 1, id);
    } else {
      b := j - 1;
      call := BeginsIn(run, b, id);
    }
  }

  // ---------- one step of a call ----------

  /** The step from state `t` is one of call `id`, or leaves its op alone. */
  ghost predicate StepAt(run: seq<State>, t: nat, id: Id) {
    && t + 1 < |run| && id < |run[t].ops| && id < |run[t + 1].ops|
    && (|| run[t + 1].ops[id] == run[t].ops[id]
        || exists c :: run[t + 1].ops[id] == Act(run[t], id, c).ops[id])
  }

  lemma EveryStep(run: seq<State>, t: nat, id: Id)
    requires IsRun(run) && t + 1 < |run| && id < |run[t].ops|
    ensures StepAt(run, t, id)
  {
    assert Next(run[t], run[t + 1]);
    var step :| Enabled(run[t], step) && run[t + 1] == Apply(run[t], step);
    match step
    case Start(_) => assert run[t + 1].ops[id] == run[t].ops[id];
    case Forget(_) => assert run[t + 1].ops[id] == run[t].ops[id];
    case Run(i, c) => assert i == id ==> run[t + 1].ops[id] == Act(run[t], id, c).ops[id];
  }

  // ---------- a push keeps its items ----------

  /** The op is at another point of a push of the same items, or it has gone wrong. */
  predicate SameItems(op: Op, op': Op)
    requires PushOp(op)
  {
    op'.Fault? || (PushOp(op') && op'.items == op.items)
  }

  lemma WriteKeepsItems(s: State, id: Id, c: Choice)
    requires id < |s.ops| && s.ops[id].PWrite?
    ensures SameItems(s.ops[id], Act(s, id, c).ops[id])
  {
  }

  lemma FillKeepsItems(s: State, id: Id, c: Choice)
    requires id < |s.ops| && s.ops[id].PFill?
    ensures SameItems(s.ops[id], Act(s, id, c).ops[id])
  {
  }

  lemma KeepsItems(s: State, id: Id, c: Choice)
    requires id < |s.ops| && PushOp(s.ops[id])
    ensures SameItems(s.ops[id], Act(s, id, c).ops[id])
  {
    if s.ops[id].PWrite? {
      WriteKeepsItems(s, id, c);
    } else if s.ops[id].PFill? {
      FillKeepsItems(s, id, c);
    }
  }

  /** In state `j` call `id` is a push of `items`. */
  ghost predicate Pushes(run: seq<State>, j: nat, id: Id, items: seq<Entry>) {
    j < |run| && id < |run[j].ops| && PushOp(run[j].ops[id]) && run[j].ops[id].items == items
  }

  ghost predicate PushGoesOn(run: seq<State>, t: nat, id: Id, items: seq<Entry>) {
    Pushes(run, t, id, items) ==> Pushes(run, t + 1, id, items)
  }

  lemma ItemsKept(run: seq<State>, t: nat, id: Id, items: seq<Entry>)
    requires IsRun(run) && t + 1 < |run|
    ensures PushGoesOn(run, t, id, items)
  {
    if Pushes(run, t, id, items) {
      EveryStep(run, t, id);
      NoFault(run, t + 1, id);
      if c :| run[t + 1].ops[id] == Act(run[t], id, c).ops[id] {
        KeepsItems(run[t], id, c);
      }
    }
  }

  lemma {:induction false} PushesThroughout(run: seq<State>, a: nat, j: nat, id: Id, items: seq<Entry>)
    requires a <= j && Pushes(run, a, id, items) && forall t :: a <= t < j ==> PushGoesOn(run, t, id, items)
    ensures Pushes(run, j, id, items)
    decreases j
  {
    if a < j {
      PushesThroughout(run, a, j - 1, id, items);
      assert PushGoesOn(run, j - 1, id, items);
    }
  }

  /** From its first step to its last a push is about the items it was given. */
  lemma PushKeepsItems(run: seq<State>, b: nat, j: nat, id: Id, items: seq<Entry>)
    requires IsRun(run) && b < j < |run| && BegunBy(run, b, id, Push(items))
    ensures Pushes(run, j, id, items)
  {
    FirstOp(run, b, id, Push(items));
    forall t | b < t < j ensures PushGoesOn(run, t, id, items) {
      ItemsKept(run, t, id, items);
    }
    PushesThroughout(run, b + 1, j, id, items);
  }

  lemma FirstOp(run: seq<State>, b: nat, id: Id, call: Call)
    requires BegunBy(run, b, id, call)
    ensures id < |run[b + 1].ops|
    ensures call.Push? ==> PushOp(run[b + 1].ops[id]) && run[b + 1].ops[id].items == call.items
    ensures call.Pop? ==> run[b + 1].ops[id] == CCheck(call.size)
  {
  }

  // ---------- what there is for a pop ----------

  /** How many of the claims belong to other calls. */
  function Others(owners: seq<Id>, id: Id): nat {
    if owners == [] then 0
    else Others(owners[..|owners| - 1], id) + if owners[|owners| - 1] == id then 0 else 1
  }

  lemma {:induction false} OthersBelow(owners: seq<Id>, id: Id, a: nat)
    requires a <= |owners| && forall p :: 0 <= p < |owners| ==> (owners[p] == id <==> a <= p)
    ensures Others(owners, id) == a
    decreases |owners|
  {
    if owners != [] {
      var n := |owners| - 1;
      OthersBelow(owners[..n], id, if a <= n then a else n);
    }
  }

  /** The entries pushed so far that no other call has taken. */
  function Available(s: State, id: Id): int {
    |s.input| - Others(s.consumer, id)
  }

  predicate PopOp(op: Op) {
    op.CCheck? || op.CLoad? || op.CLoop? || op.CTry? || op.CRecheck? || op.CWalkLoad? || op.CWalk? || PopReturned(op)
  }

  /** How many entries a pop is after, or has been given. */
  function Asked(op: Op): nat
    requires PopOp(op)
  {
    match op
    case CCheck(size) => size
    case CLoad(size) => size
    case CLoop(len, _) => len
    case CTry(len, _, _) => len
    case CRecheck(len, _, _) => len
    case CWalkLoad(len, _, _) => len
    case CWalk(w, _) => w.len
    case CIter(_, _) => End(op) - First(op)
    case CDone(_, _) => End(op) - First(op)
  }

  /** What the walker last knew to be available. */
  function Known(L: nat, w: Walk): int {
    Pos(L, w.ph) - w.start
  }

  /** What one step of a pop does to the number it is after: nothing, or it comes down to what is
      available, or to what the walker knew to be available. */
  ghost predicate Narrows(s: State, id: Id, op: Op, op': Op)
    requires PopOp(op) && PopOp(op')
  {
    && Asked(op') <= Asked(op)
    && (|| Asked(op') == Asked(op)
        || (!Returned(op) && Available(s, id) <= Asked(op'))
        || (op.CWalk? && Known(s.L, op.w) <= Asked(op')))
    && (op'.CWalk? ==>
          || (op.CWalk? && op'.w.ph == op.w.ph && op'.w.start == op.w.start)
          || (!Returned(op) && Available(s, id) <= Known(s.L, op'.w)))
  }

  /** A call without a claim finds available what lies between the heads. */
  lemma NothingMine(s: State, id: Id)
    requires Inv(s) && id < |s.ops| && (s.ops[id].CLoop? || s.ops[id].CLoad? || s.ops[id].CTry? || s.ops[id].CCheck?)
    ensures Available(s, id) == |s.input| - |s.consumer|
  {
    forall p | 0 <= p < |s.consumer| ensures s.consumer[p] != id {
      ConsumersHaveBegun(s, p);
    }
    OthersBelow(s.consumer, id, |s.consumer|);
  }

  /** The holder of the `chead` lock owns what was claimed last. */
  lemma MineIsLast(s: State, id: Id, start: nat)
    requires Inv(s) && id < |s.ops|
    requires (s.ops[id].CWalkLoad? && start == s.ops[id].start) || (s.ops[id].CWalk? && start == s.ops[id].w.start)
    ensures Available(s, id) == Pos(s.L, s.phead) - start
  {
    assert OpOk(s, id, s.ops[id]);
    forall p | 0 <= p < |s.consumer| ensures s.consumer[p] == id <==> start <= p {
      if s.consumer[p] == id {
        ConsumersHaveBegun(s, p);
      }
    }
    OthersBelow(s.consumer, id, start);
  }

  lemma LoopNarrows(s: State, id: Id)
    requires Heads(s) && id < |s.ops| && s.ops[id].CLoop? && OpOk(s, id, s.ops[id])
    requires Available(s, id) == |s.input| - |s.consumer|
    ensures var op' := StepCLoop(s, id).ops[id];
            op'.CEmpty? || (PopOp(op') && Narrows(s, id, s.ops[id], op'))
  {
  }

  lemma WalkNarrows(s: State, id: Id)
    requires Heads(s) && id < |s.ops| && s.ops[id].CWalk? && OpOk(s, id, s.ops[id])
    requires Available(s, id) == Pos(s.L, s.phead) - s.ops[id].w.start
    ensures var op' := (if s.ops[id].cpc.Move? then StepCMove(s, id) else StepCNext(s, id)).ops[id];
            op'.Fault? || (PopOp(op') && Narrows(s, id, s.ops[id], op'))
  {
  }

  lemma WalkLoadNarrows(s: State, id: Id)
    requires id < |s.ops| && s.ops[id].CWalkLoad? && Available(s, id) == Pos(s.L, s.phead) - s.ops[id].start
    ensures PopOp(StepCWalkLoad(s, id).ops[id]) && Narrows(s, id, s.ops[id], StepCWalkLoad(s, id).ops[id])
  {
  }

  lemma PlainNarrows(s: State, id: Id, c: Choice)
    requires id < |s.ops| && (s.ops[id].CCheck? || s.ops[id].CLoad? || s.ops[id].CTry? || s.ops[id].CRecheck?)
    ensures var op' := Act(s, id, c).ops[id];
            op'.CEmpty? || op'.Fault? || op'.CRepair? || (PopOp(op') && Narrows(s, id, s.ops[id], op'))
  {
  }

  lemma ReturnedNarrows(s: State, id: Id, c: Choice)
    requires Inv(s) && id < |s.ops| && PopReturned(s.ops[id])
    ensures var op' := Act(s, id, c).ops[id];
            PopReturned(op') && Narrows(s, id, s.ops[id], op')
  {
    if s.ops[id].CIter? {
      IterSettled(s, id, c);
    }
  }

  /** One step of a pop. */
  lemma PopNarrows(s: State, id: Id, c: Choice)
    requires Inv(s) && id < |s.ops| && PopOp(s.ops[id])
    ensures var op' := Act(s, id, c).ops[id];
            op'.CEmpty? || op'.Fault? || op'.CRepair? || (PopOp(op') && Narrows(s, id, s.ops[id], op'))
  {
    var op := s.ops[id];
    assert OpOk(s, id, op);
    if op.CLoop? {
      NothingMine(s, id);
      LoopNarrows(s, id);
    } else if op.CWalk? {
      MineIsLast(s, id, op.w.start);
      WalkNarrows(s, id);
    } else if op.CWalkLoad? {
      MineIsLast(s, id, op.start);
      WalkLoadNarrows(s, id);
    } else if PopReturned(op) {
      ReturnedNarrows(s, id, c);
    } else {
      PlainNarrows(s, id, c);
    }
  }

  // ---------- what a pop gets ----------

  /** At state `t` the call had not returned, and there were no more than `n` entries for it. */
  ghost predicate ScarceAt(run: seq<State>, t: nat, id: Id, n: int) {
    t < |run| && id < |run[t].ops| && !Returned(run[t].ops[id]) && Available(run[t], id) <= n
  }

  ghost predicate Scarce(run: seq<State>, b: nat, j: nat, id: Id, n: int) {
    exists t :: b < t <= j && ScarceAt(run, t, id, n)
  }

  /** The pop is after what it was asked for, or at some instant there was no more. */
  ghost predicate Fair(run: seq<State>, b: nat, j: nat, id: Id, size: nat) {
    && j < |run| && id < |run[j].ops|
    && var op := run[j].ops[id];
    && (op.CEmpty? || PopOp(op))
    && (PopOp(op) ==>
          && Asked(op) <= size && (Asked(op) == size || Scarce(run, b, j, id, Asked(op)))
          && (op.CWalk? ==> Scarce(run, b, j, id, Known(run[j].L, op.w))))
  }

  lemma ScarceLater(run: seq<State>, b: nat, j: nat, j': nat, id: Id, n: int, n': int)
    requires Scarce(run, b, j, id, n) && j <= j' && n <= n'
    ensures Scarce(run, b, j', id, n')
  {
    var t :| b < t <= j && ScarceAt(run, t, id, n);
    assert ScarceAt(run, t, id, n');
  }

  lemma FairStays(run: seq<State>, b: nat, j: nat, id: Id, size: nat)
    requires Fair(run, b, j, id, size) && j + 1 < |run| && id < |run[j + 1].ops|
    requires run[j + 1].ops[id] == run[j].ops[id] && run[j + 1].L == run[j].L
    ensures Fair(run, b, j + 1, id, size)
  {
    var op := run[j].ops[id];
    if PopOp(op) && Asked(op) != size {
      ScarceLater(run, b, j, j + 1, id, Asked(op), Asked(op));
    }
    if op.CWalk? {
      ScarceLater(run, b, j, j + 1, id, Known(run[j].L, op.w), Known(run[j].L, op.w));
    }
  }

  lemma FairNarrows(run: seq<State>, b: nat, j: nat, id: Id, size: nat)
    requires Fair(run, b, j, id, size) && b < j && j + 1 < |run| && id < |run[j + 1].ops| && run[j + 1].L == run[j].L
    requires PopOp(run[j].ops[id]) && PopOp(run[j + 1].ops[id])
    requires Narrows(run[j], id, run[j].ops[id], run[j + 1].ops[id])
    ensures Fair(run, b, j + 1, id, size)
  {
    var s, op, op' := run[j], run[j].ops[id], run[j + 1].ops[id];
    if Asked(op') != size {
      if Asked(op') == Asked(op) {
        ScarceLater(run, b, j, j + 1, id, Asked(op), Asked(op'));
      } else if !Returned(op) && Available(s, id) <= Asked(op') {
        assert ScarceAt(run, j, id, Asked(op'));
      } else {
        ScarceLater(run, b, j, j + 1, id, Known(s.L, op.w), Asked(op'));
      }
    }
    if op'.CWalk? {
      if op.CWalk? && op'.w.ph == op.w.ph && op'.w.start == op.w.start {
        ScarceLater(run, b, j, j + 1, id, Known(s.L, op.w), Known(s.L, op'.w));
      } else {
        assert ScarceAt(run, j, id, Known(s.L, op'.w));
      }
    }
  }

  /** What is known of a step of a run. */
  ghost predicate GoodStep(run: seq<State>, j: nat, id: Id) {
    && StepAt(run, j, id) && run[j + 1].L == run[j].L && Inv(run[j])
    && !run[j + 1].ops[id].Fault? && !run[j + 1].ops[id].CRepair?
  }

  lemma StepsAreGood(run: seq<State>, j: nat, id: Id)
    requires IsRun(run) && j + 1 < |run| && id < |run[j].ops|
    ensures GoodStep(run, j, id)
  {
    EveryStep(run, j, id);
    SameLength(run, j);
    RunKeeps(run, j);
    NoFault(run, j + 1, id);
  }

  lemma FairNext(run: seq<State>, b: nat, j: nat, id: Id, size: nat)
    requires Fair(run, b, j, id, size) && b < j && GoodStep(run, j, id)
    ensures Fair(run, b, j + 1, id, size)
  {
    if run[j + 1].ops[id] == run[j].ops[id] {
      FairStays(run, b, j, id, size);
    } else {
      var c :| run[j + 1].ops[id] == Act(run[j], id, c).ops[id];
      FairAct(run, b, j, id, size, c);
    }
  }

  lemma SameLength(run: seq<State>, j: nat)
    requires IsRun(run) && j + 1 < |run|
    ensures run[j + 1].L == run[j].L
  {
    assert Next(run[j], run[j + 1]);
    var step :| Enabled(run[j], step) && run[j + 1] == Apply(run[j], step);
    if step.Run? {
      Progress.ActKeepsL(run[j], step.id, step.c);
    }
  }

  lemma FairAct(run: seq<State>, b: nat, j: nat, id: Id, size: nat, c: Choice)
    requires Fair(run, b, j, id, size) && b < j && j + 1 < |run| && id < |run[j + 1].ops| && run[j + 1].L == run[j].L
    requires Inv(run[j]) && run[j + 1].ops[id] == Act(run[j], id, c).ops[id]
    requires !run[j + 1].ops[id].Fault? && !run[j + 1].ops[id].CRepair?
    ensures Fair(run, b, j + 1, id, size)
  {
    if PopOp(run[j].ops[id]) {
      PopNarrows(run[j], id, c);
      if !run[j + 1].ops[id].CEmpty? {
        FairNarrows(run, b, j, id, size);
      }
    }
  }

  ghost predicate FairGoesOn(run: seq<State>, b: nat, t: nat, id: Id, size: nat) {
    Fair(run, b, t, id, size) ==> Fair(run, b, t + 1, id, size)
  }

  lemma {:induction false} FairThroughout(run: seq<State>, b: nat, j: nat, id: Id, size: nat)
    requires b < j && Fair(run, b, b + 1, id, size) && forall t :: b < t < j ==> FairGoesOn(run, b, t, id, size)
    ensures Fair(run, b, j, id, size)
    decreases j
  {
    if b + 1 < j {
      FairThroughout(run, b, j - 1, id, size);
      assert FairGoesOn(run, b, j - 1, id, size);
    }
  }

  lemma StaysFair(run: seq<State>, b: nat, j: nat, id: Id, size: nat)
    requires IsRun(run) && b < j < |run| && BegunBy(run, b, id, Pop(size))
    ensures Fair(run, b, j, id, size)
  {
    FirstOp(run, b, id, Pop(size));
    forall t | b < t < j ensures FairGoesOn(run, b, t, id, size) {
      if Fair(run, b, t, id, size) {
        StepsAreGood(run, t, id);
        FairNext(run, b, t, id, size);
      }
    }
    FairThroughout(run, b, j, id, size);
  }

  /** The pop that began in step `b` was given `n` entries: as many as it asked for, or at some
      instant of the call the entries that no other call had taken were no more than that. */
  ghost predicate GivenEnough(run: seq<State>, b: nat, j: nat, id: Id, size: nat, n: nat) {
    n <= size && (n == size || exists t :: b < t <= j && ScarceAt(run, t, id, n))
  }

  /** A pop is given as many entries as it asked for and never more; it is given fewer only if at
      some instant of the call the entries that other calls had not taken were no more than that. */
  lemma PopGetsItsShare(run: seq<State>, b: nat, j: nat, id: Id, size: nat)
    requires IsRun(run) && b < j < |run| && BegunBy(run, b, id, Pop(size))
    requires id < |run[j].ops| && PopReturned(run[j].ops[id])
    ensures GivenEnough(run, b, j, id, size, End(run[j].ops[id]) - First(run[j].ops[id]))
  {
    StaysFair(run, b, j, id, size);
  }

  // ---------- a pop by itself ----------

  /** The step from state `t` is one of call `id`, or the loss of a hint. */
  ghost predicate AloneAt(run: seq<State>, t: nat, id: Id) {
    && t + 1 < |run| && id < |run[t].ops|
    && ((exists c :: run[t + 1] == Act(run[t], id, c)) || (exists p :: run[t + 1] == DropHint(run[t], p)))
  }

  /** Since state `b` nothing was pushed, and nothing was taken but by call `id`. */
  ghost predicate Solo(s0: State, s: State, id: Id) {
    && s.input == s0.input && s0.consumer <= s.consumer && s.chead.At?
    && forall p :: |s0.consumer| <= p < |s.consumer| ==> s.consumer[p] == id
  }

  lemma PopPushesNothing(s: State, id: Id, c: Choice)
    requires Inv(s) && id < |s.ops| && PopOp(s.ops[id])
    ensures Act(s, id, c).input == s.input
  {
    var s' := Act(s, id, c);
    ActForward(s, id, c);
    StepKeeps(s, Run(id, c));
    PopNarrows(s, id, c);
    assert OpOk(s', id, s'.ops[id]);
    if |s.producer| < |s'.producer| {
      ProducersHaveBegun(s', |s.producer|);
    }
  }

  lemma SoloStep(s0: State, s: State, id: Id, c: Choice)
    requires Inv(s) && id < |s.ops| && (s.ops[id].CEmpty? || PopOp(s.ops[id])) && Solo(s0, s, id)
    ensures Solo(s0, Act(s, id, c), id)
  {
    if PopOp(s.ops[id]) {
      PopPushesNothing(s, id, c);
      ActForward(s, id, c);
    }
  }

  ghost predicate SoloGoesOn(run: seq<State>, b: nat, t: nat, id: Id) {
    b < t && t + 1 < |run| && (Solo(run[b], run[t], id) ==> Solo(run[b], run[t + 1], id))
  }

  lemma {:induction false} SoloThroughout(run: seq<State>, b: nat, j: nat, id: Id)
    requires b < j < |run| && Solo(run[b], run[b + 1], id)
    requires forall t :: b < t < j ==> SoloGoesOn(run, b, t, id)
    ensures Solo(run[b], run[j], id)
    decreases j
  {
    if j > b + 1 {
      SoloThroughout(run, b, j - 1, id);
      assert SoloGoesOn(run, b, j - 1, id);
    }
  }

  lemma StaysSolo(run: seq<State>, b: nat, j: nat, id: Id, size: nat)
    requires IsRun(run) && b < j < |run| && BegunBy(run, b, id, Pop(size)) && run[b].chead.At?
    requires forall t :: b < t < j ==> AloneAt(run, t, id)
    ensures Solo(run[b], run[j], id)
  {
    SoloBegins(run[b], Pop(size), id);
    forall t | b < t < j ensures SoloGoesOn(run, b, t, id) {
      assert AloneAt(run, t, id);
      if Solo(run[b], run[t], id) {
        SoloOn(run, b, t, id, size);
      }
    }
    SoloThroughout(run, b, j, id);
  }

  lemma SoloBegins(s: State, call: Call, id: Id)
    requires s.chead.At?
    ensures Solo(s, Begin(s, call), id)
  {
  }

  lemma SoloOn(run: seq<State>, b: nat, j: nat, id: Id, size: nat)
    requires IsRun(run) && b < j && j + 1 < |run| && BegunBy(run, b, id, Pop(size))
    requires Solo(run[b], run[j], id) && AloneAt(run, j, id)
    ensures Solo(run[b], run[j + 1], id)
  {
    StaysFair(run, b, j, id, size);
    RunKeeps(run, j);
    SoloNext(run[b], run[j], run[j + 1], id);
  }

  lemma SoloNext(s0: State, s: State, s': State, id: Id)
    requires Inv(s) && id < |s.ops| && (s.ops[id].CEmpty? || PopOp(s.ops[id])) && Solo(s0, s, id)
    requires (exists c :: s' == Act(s, id, c)) || (exists p :: s' == DropHint(s, p))
    ensures Solo(s0, s', id)
  {
    if c :| s' == Act(s, id, c) {
      SoloStep(s0, s, id, c);
    }
  }

  /** By itself a pop has available what was in the queue when it began. */
  lemma SoloAvailable(s0: State, s: State, id: Id)
    requires Inv(s0) && Inv(s) && Solo(s0, s, id) && |s0.ops| <= id
    ensures Available(s, id) == |s0.input| - |s0.consumer|
  {
    forall p | 0 <= p < |s.consumer| ensures s.consumer[p] == id <==> |s0.consumer| <= p {
      if p < |s0.consumer| {
        ConsumersHaveBegun(s0, p);
      }
    }
    OthersBelow(s.consumer, id, |s0.consumer|);
  }

  lemma SoloAtMost(s0: State, s: State, id: Id)
    requires Inv(s0) && Inv(s) && Solo(s0, s, id) && |s0.ops| <= id < |s.ops| && PopReturned(s.ops[id])
    ensures End(s.ops[id]) - First(s.ops[id]) <= |s0.input| - |s0.consumer|
  {
    PopTook(s, id);
    var a := First(s.ops[id]);
    if a < End(s.ops[id]) && a < |s0.consumer| {
      ConsumersHaveBegun(s0, a);
    }
    Bounds(s0);
  }

  /** A `pop_batch(size)` that nobody disturbs, on a queue whose first block is published, is given
      exactly the smaller of `size` and the number of entries in the queue. */
  lemma AlonePopGetsMin(run: seq<State>, b: nat, j: nat, id: Id, size: nat)
    requires IsRun(run) && b < j < |run| && BegunBy(run, b, id, Pop(size)) && run[b].chead.At?
    requires forall t :: b < t < j ==> AloneAt(run, t, id)
    requires id < |run[j].ops| && PopReturned(run[j].ops[id])
    ensures End(run[j].ops[id]) - First(run[j].ops[id]) == Min(size, |run[b].input| - |run[b].consumer|)
  {
    var n := End(run[j].ops[id]) - First(run[j].ops[id]);
    PopGetsItsShare(run, b, j, id, size);
    AloneAtMost(run, b, j, id, size);
    if n != size {
      var t :| b < t <= j && ScarceAt(run, t, id, n);
      AloneAvailable(run, b, t, id, size);
    }
  }

  lemma AloneAtMost(run: seq<State>, b: nat, j: nat, id: Id, size: nat)
    requires IsRun(run) && b < j < |run| && BegunBy(run, b, id, Pop(size)) && run[b].chead.At?
    requires forall t :: b < t < j ==> AloneAt(run, t, id)
    requires id < |run[j].ops| && PopReturned(run[j].ops[id])
    ensures End(run[j].ops[id]) - First(run[j].ops[id]) <= |run[b].input| - |run[b].consumer|
  {
    RunKeeps(run, b);
    RunKeeps(run, j);
    StaysSolo(run, b, j, id, size);
    SoloAtMost(run[b], run[j], id);
  }

  lemma AloneAvailable(run: seq<State>, b: nat, t: nat, id: Id, size: nat)
    requires IsRun(run) && b < t < |run| && BegunBy(run, b, id, Pop(size)) && run[b].chead.At?
    requires forall i :: b < i < t ==> AloneAt(run, i, id)
    ensures Available(run[t], id) == |run[b].input| - |run[b].consumer|
  {
    RunKeeps(run, b);
    RunKeeps(run, t);
    StaysSolo(run, b, t, id, size);
    SoloAvailable(run[b], run[t], id);
  }

  ghost predicate EmptyAt(run: seq<State>, t: nat, id: Id) {
    t < |run| && id < |run[t].ops| && run[t].ops[id].CEmpty?
  }

  lemma {:induction false} TurnsEmptyBetween(run: seq<State>, a: nat, j: nat, id: Id) returns (t: nat)
    requires a <= j && !EmptyAt(run, a, id) && EmptyAt(run, j, id)
    ensures a <= t < j && !EmptyAt(run, t, id) && EmptyAt(run, t + 1, id)
    decreases j
  {
    if EmptyAt(run, j - 1, id) {
      t := TurnsEmptyBetween(run, a, j - 1, id);
    } else {
      t := j - 1;
    }
  }

  lemma EmptiesIn(run: seq<State>, b: nat, j: nat, id: Id, size: nat) returns (t: nat, c: Choice)
    requires IsRun(run) && b < j < |run| && BegunBy(run, b, id, Pop(size))
    requires forall t :: b < t < j ==> AloneAt(run, t, id)
    requires EmptyAt(run, j, id)
    ensures b < t < j && id < |run[t].ops| && PopOp(run[t].ops[id]) && Act(run[t], id, c).ops[id].CEmpty?
  {
    FirstOp(run, b, id, Pop(size));
    t := TurnsEmptyBetween(run, b + 1, j, id);
    StaysFair(run, b, t, id, size);
    c := AloneTurnsEmpty(run, t, id);
  }

  lemma AloneTurnsEmpty(run: seq<State>, t: nat, id: Id) returns (c: Choice)
    requires AloneAt(run, t, id) && !EmptyAt(run, t, id) && EmptyAt(run, t + 1, id)
    ensures Act(run[t], id, c).ops[id].CEmpty?
  {
    c :| run[t + 1] == Act(run[t], id, c);
  }

  /** Such a pop answers "empty" only if there is nothing to give. */
  lemma AlonePopEmpty(run: seq<State>, b: nat, j: nat, id: Id, size: nat)
    requires IsRun(run) && b < j < |run| && BegunBy(run, b, id, Pop(size)) && run[b].chead.At?
    requires forall t :: b < t < j ==> AloneAt(run, t, id)
    requires EmptyAt(run, j, id)
    ensures Min(size, |run[b].input| - |run[b].consumer|) == 0
  {
    var t, c := EmptiesIn(run, b, j, id, size);
    RunKeeps(run, b);
    RunKeeps(run, t);
    StaysSolo(run, b, t, id, size);
    AloneAvailable(run, b, t, id, size);
    WaysToBeEmpty(run[t], id, c);
    Bounds(run[b]);
    if run[t].ops[id] == CCheck(0) {
      ZeroAsked(run, b, t, id, size);
    } else {
      EmptyMeansEmpty(run, t, id, c);
      NothingMine(run[t], id);
    }
  }

  lemma ZeroAsked(run: seq<State>, b: nat, t: nat, id: Id, size: nat)
    requires IsRun(run) && b < t < |run| && BegunBy(run, b, id, Pop(size)) && run[b].chead.At?
    requires forall i :: b < i < t ==> AloneAt(run, i, id)
    requires id < |run[t].ops| && run[t].ops[id] == CCheck(0)
    ensures size == 0 || |run[b].input| <= |run[b].consumer|
  {
    StaysFair(run, b, t, id, size);
    if size > 0 {
      var i :| b < i <= t && ScarceAt(run, i, id, 0);
      AloneAvailable(run, b, i, id, size);
    }
  }
}
