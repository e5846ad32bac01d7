/** Every run is a run of one sequential queue: each step is labelled with the call that takes
    effect in it and with what that call appends, takes or finds, and the labels of a call add
    up to what it was given or returns. */
module Linearizable {
  import opened Positions
  import opened Machine
  import opened Invariant
  import opened LocalSteps
  import opened PushSteps
  import opened Safety
  import opened Refinement
  import opened RealTime
  import opened Calls

  // ---------- what takes effect in a step ----------

  datatype Event = Append(id: Id, back: seq<Entry>) | Take(id: Id, front: seq<Entry>) | Nothing(id: Id) | Silent

  /** The step from `s` to `s'` answers "empty" to call `id`. */
  predicate TurnsEmpty(s: State, s': State, id: Id) {
    id < |s'.ops| && s'.ops[id].CEmpty? && (id < |s.ops| ==> !s.ops[id].CEmpty?)
  }

  ghost function EventOf(s: State, s': State): Event {
    if |s.producer| < |s'.producer| && |s.input| <= |s'.input| then
      Append(s'.producer[|s.producer|], s'.input[|s.input|..])
    else if |s.consumer| < |s'.consumer| <= |s'.input| then
      Take(s'.consumer[|s.consumer|], s'.input[|s.consumer|..|s'.consumer|])
    else if exists id: Id :: TurnsEmpty(s, s', id) then
      var id: Id :| TurnsEmpty(s, s', id);
      Nothing(id)
    else
      Silent
  }

  /** The event as an operation of the abstract queue. */
  ghost predicate Performs(q: Fifo, e: Event, q': Fifo) {
    && q.taken <= |q.log| && q'.taken <= |q'.log|
    && match e
       case Append(_, back) => Contents(q') == Contents(q) + back
       case Take(_, front) => Contents(q) == front + Contents(q')
       case _ => Contents(q') == Contents(q)
  }

  /** "Empty" is the answer of a queue whose first block is not published, of a `pop_batch(0)`,
      and otherwise of an empty queue only. */
  ghost predicate FindsNothing(s: State, op: Op) {
    s.chead.Zero? || op == CCheck(0) || |s.consumer| == |s.input|
  }

  /** The step from `s` to `s'` does to the queue what its label says, and the labelled call has
      begun and has not returned. */
  ghost predicate Labelled(s: State, s': State) {
    var e := EventOf(s, s');
    && Performs(Abstract(s), e, Abstract(s'))
    && (!e.Silent? ==> e.id < |s.ops| && !Returned(s.ops[e.id]))
    && (e.Nothing? ==> FindsNothing(s, s.ops[e.id]))
    && (forall id :: TurnsEmpty(s, s', id) ==> e == Nothing(id))
  }

  ghost predicate LabelledAt(run: seq<State>, i: nat) {
    i + 1 < |run| && Labelled(run[i], run[i + 1])
  }

  lemma ReturnedClaimsNothing(s: State, id: Id, c: Choice)
    requires id < |s.ops| && Returned(s.ops[id])
    ensures SameHeads(s, Act(s, id, c)) && !TurnsEmpty(s, Act(s, id, c), id)
  {
    if s.ops[id].CIter? {
      QuietPop(s, id, c);
      ClaimNeverEmpty(s, id, c);
    }
  }

  /** A step that answers "empty" claims nothing, and finds nothing. */
  lemma EmptyFindsNothing(s: State, id: Id, c: Choice)
    requires Inv(s) && id < |s.ops| && TurnsEmpty(s, Act(s, id, c), id)
    ensures SameHeads(s, Act(s, id, c)) && !Returned(s.ops[id]) && FindsNothing(s, s.ops[id])
  {
    WaysToBeEmpty(s, id, c);
    QuietPop(s, id, c);
    if s.ops[id].CLoop? {
      EmptyStep(s, id);
    }
  }

  lemma EmptyEvent(s: State, id: Id, c: Choice)
    requires Inv(s) && id < |s.ops| && TurnsEmpty(s, Act(s, id, c), id)
    ensures EventOf(s, Act(s, id, c)) == Nothing(id)
  {
    EmptyFindsNothing(s, id, c);
    assert forall j: Id :: TurnsEmpty(s, Act(s, id, c), j) ==> j == id;
  }

  /** What one step of call `id` puts on its label. */
  lemma ActLabelled(s: State, id: Id, c: Choice)
    requires Inv(s) && id < |s.ops|
    ensures Labelled(s, Act(s, id, c))
  {
    var s' := Act(s, id, c);
    Bounds(s);
    StepKeeps(s, Run(id, c));
    Bounds(s');
    ActForward(s, id, c);
    if Returned(s.ops[id]) {
      ReturnedClaimsNothing(s, id, c);
    }
    ForwardPerforms(s, s', id);
    if TurnsEmpty(s, s', id) {
      EmptyEvent(s, id, c);
      EmptyFindsNothing(s, id, c);
    }
  }

  lemma ForwardPerforms(s: State, s': State, id: Id)
    requires |s.consumer| <= |s.input| == |s.producer| && |s'.consumer| <= |s'.input| == |s'.producer|
    requires Forward(s, s', id)
    ensures Performs(Abstract(s), EventOf(s, s'), Abstract(s'))
    ensures var e := EventOf(s, s'); e.Append? || e.Take? ==> e.id == id && !SameHeads(s, s')
  {
    var e := EventOf(s, s');
    if e.Append? {
      assert s'.input[|s.consumer|..] == s.input[|s.consumer|..] + s'.input[|s.input|..];
    } else if e.Take? {
      assert s.input[|s.consumer|..] == s.input[|s.consumer|..|s'.consumer|] + s.input[|s'.consumer|..];
    }
  }

  lemma StepLabelled(s: State, step: Step)
    requires Inv(s) && Enabled(s, step)
    ensures Labelled(s, Apply(s, step))
  {
    if step.Run? {
      ActLabelled(s, step.id, step.c);
    } else {
      Bounds(s);
      assert EventOf(s, Apply(s, step)).Silent?;
    }
  }

  // ---------- what the labels of one call add up to ----------

  /** What call `id` has appended and taken in the first `j` steps. */
  ghost function Appended(run: seq<State>, id: Id, j: nat): seq<Entry>
    requires j < |run|
  {
    if j == 0 then []
    else
      var e := EventOf(run[j - 1], run[j]);
      Appended(run, id, j - 1) + if e.Append? && e.id == id then e.back else []
  }

  ghost function Taken(run: seq<State>, id: Id, j: nat): seq<Entry>
    requires j < |run|
  {
    if j == 0 then []
    else
      var e := EventOf(run[j - 1], run[j]);
      Taken(run, id, j - 1) + if e.Take? && e.id == id then e.front else []
  }

  /** The entries at the positions that belong to `id`. */
  function Owned(log: seq<Entry>, owners: seq<Id>, id: Id): seq<Entry>
    requires |log| == |owners|
  {
    if log == [] then []
    else
      var n := |log| - 1;
      Owned(log[..n], owners[..n], id) + if owners[n] == id then [log[n]] else []
  }

  lemma {:induction false} OwnedGrows(log: seq<Entry>, owners: seq<Id>, log': seq<Entry>, owners': seq<Id>, who: Id, id: Id)
    requires |log| == |owners| && |log'| == |owners'| && log <= log' && owners <= owners'
    requires forall p :: |owners| <= p < |owners'| ==> owners'[p] == who
    ensures Owned(log', owners', id) == Owned(log, owners, id) + if who == id then log'[|log|..] else []
    decreases |log'|
  {
    if |log'| == |log| {
      assert log' == log && owners' == owners;
    } else {
      var n := |log'| - 1;
      OwnedGrows(log, owners, log'[..n], owners'[..n], who, id);
      assert log'[|log|..] == log'[..n][|log|..] + [log'[n]];
    }
  }

  lemma {:induction false} OwnedRange(log: seq<Entry>, owners: seq<Id>, id: Id, a: nat, b: nat)
    requires |log| == |owners| && a <= b <= |log|
    requires forall p :: 0 <= p < |owners| ==> (owners[p] == id <==> a <= p < b)
    ensures Owned(log, owners, id) == log[a..b]
    decreases |log|
  {
    if log != [] {
      var n := |log| - 1;
      var a', b' := if a <= n then a else n, if b <= n then b else n;
      OwnedRange(log[..n], owners[..n], id, a', b');
      assert log[a..b] == log[..n][a'..b'] + if owners[n] == id then [log[n]] else [];
    }
  }

  /** The step from `s` to `s'` adds to what `id` owns what its label says. */
  ghost predicate Owns(s: State, s': State, id: Id) {
    var e := EventOf(s, s');
    && |s.consumer| <= |s.input| == |s.producer| && |s'.consumer| <= |s'.input| == |s'.producer|
    && Owned(s'.input, s'.producer, id) ==
       Owned(s.input, s.producer, id) + (if e.Append? && e.id == id then e.back else [])
    && Owned(s'.input[..|s'.consumer|], s'.consumer, id) ==
       Owned(s.input[..|s.consumer|], s.consumer, id) + (if e.Take? && e.id == id then e.front else [])
  }

  lemma StepOwns(s: State, step: Step, id: Id)
    requires Inv(s) && Enabled(s, step)
    ensures Owns(s, Apply(s, step), id)
  {
    if step.Run? {
      ActOwns(s, step.id, step.c, id);
    } else {
      Bounds(s);
      SameOwns(s, Apply(s, step), id);
    }
  }

  lemma ActOwns(s: State, who: Id, c: Choice, id: Id)
    requires Inv(s) && who < |s.ops|
    ensures Owns(s, Act(s, who, c), id)
  {
    var s' := Act(s, who, c);
    Bounds(s);
    StepKeeps(s, Run(who, c));
    Bounds(s');
    ActForward(s, who, c);
    ForwardOwns(s, s', who, id);
  }

  lemma SameOwns(s: State, s': State, id: Id)
    requires s'.input == s.input && s'.producer == s.producer && s'.consumer == s.consumer
    requires |s.consumer| <= |s.input| == |s.producer|
    ensures Owns(s, s', id)
  {
  }

  lemma ForwardOwns(s: State, s': State, who: Id, id: Id)
    requires |s.consumer| <= |s.input| == |s.producer| && |s'.consumer| <= |s'.input| == |s'.producer|
    requires Forward(s, s', who)
    ensures Owns(s, s', id)
  {
    var l, l' := s.input[..|s.consumer|], s'.input[..|s'.consumer|];
    assert l <= l';
    OwnedGrows(s.input, s.producer, s'.input, s'.producer, who, id);
    OwnedGrows(l, s.consumer, l', s'.consumer, who, id);
    assert l'[|l|..] == s'.input[|s.consumer|..|s'.consumer|];
    assert |s.producer| == |s'.producer| ==> s'.input[|s.input|..] == [];
  }

  lemma {:induction false} LabelsAddUp(run: seq<State>, id: Id, j: nat)
    requires IsRun(run) && j < |run|
    ensures var s := run[j];
            && |s.consumer| <= |s.input| == |s.producer|
            && Appended(run, id, j) == Owned(s.input, s.producer, id)
            && Taken(run, id, j) == Owned(s.input[..|s.consumer|], s.consumer, id)
  {
    if j > 0 {
      LabelsAddUp(run, id, j - 1);
      RunOwns(run, id, j);
    }
  }

  lemma RunOwns(run: seq<State>, id: Id, j: nat)
    requires IsRun(run) && 0 < j < |run|
    ensures Owns(run[j - 1], run[j], id)
  {
    RunKeeps(run, j - 1);
    assert Next(run[j - 1], run[j]);
    var step :| Enabled(run[j - 1], step) && run[j] == Apply(run[j - 1], step);
    StepOwns(run[j - 1], step, id);
  }

  // ---------- results ----------

  /** Step `i` answers "empty" to call `id`. */
  ghost predicate AnsweredAt(run: seq<State>, i: nat, id: Id) {
    i + 1 < |run| && EventOf(run[i], run[i + 1]) == Nothing(id)
  }

  /** What a call has returned is what its labels say, and that is what it was called for. */
  ghost predicate Accounted(run: seq<State>, b: nat, call: Call, j: nat, id: Id)
    requires j < |run| && id < |run[j].ops|
  {
    match run[j].ops[id]
    case PDone(items, _) => call == Push(items) && Appended(run, id, j) == items && Taken(run, id, j) == []
    case CDone(_, got) =>
      && Taken(run, id, j) == got && Appended(run, id, j) == []
      && call.Pop? && GivenEnough(run, b, j, id, call.size, |got|)
    case CIter(it, _) =>
      && it.got <= Taken(run, id, j) && |Taken(run, id, j)| == |it.got| + it.len
      && Appended(run, id, j) == []
      && call.Pop? && GivenEnough(run, b, j, id, call.size, |it.got| + it.len)
    case CEmpty =>
      && Taken(run, id, j) == [] && Appended(run, id, j) == []
      && call.Pop? && exists i :: b < i < j && AnsweredAt(run, i, id)
    case _ => true
  }

  ghost predicate AccountedAt(run: seq<State>, b: nat, call: Call, j: nat, id: Id) {
    j < |run| && id < |run[j].ops| && Accounted(run, b, call, j, id)
  }

  /** Call `id` has begun before state `j`. */
  ghost predicate Begun(run: seq<State>, j: nat, id: Id) {
    exists b: nat, call :: b < j && BegunBy(run, b, id, call)
  }

  lemma PushAccounted(run: seq<State>, j: nat, id: Id)
    requires IsRun(run) && j < |run| && id < |run[j].ops| && run[j].ops[id].PDone?
    ensures Appended(run, id, j) == run[j].ops[id].items
  {
    var s, op := run[j], run[j].ops[id];
    LabelsAddUp(run, id, j);
    if op.items == [] {
      RunKeeps(run, j);
      forall p | 0 <= p < |s.producer| ensures s.producer[p] != id {
        ProducersHaveBegun(s, p);
      }
      OwnedRange(s.input, s.producer, id, 0, 0);
    } else {
      PushOwnsItsBatch(run, j, id);
      OwnedRange(s.input, s.producer, id, op.start, op.start + |op.items|);
    }
  }

  lemma PopAccounted(run: seq<State>, j: nat, id: Id)
    requires IsRun(run) && j < |run| && id < |run[j].ops| && PopReturned(run[j].ops[id])
    ensures var op := run[j].ops[id];
            Got(op) <= Taken(run, id, j) && |Taken(run, id, j)| == End(op) - First(op)
  {
    RunKeeps(run, j);
    LabelsAddUp(run, id, j);
    PopOwns(run[j], id);
  }

  lemma PopOwns(s: State, id: Id)
    requires Inv(s) && id < |s.ops| && PopReturned(s.ops[id]) && |s.consumer| <= |s.input|
    ensures var op, mine := s.ops[id], Owned(s.input[..|s.consumer|], s.consumer, id);
            Got(op) <= mine && |mine| == End(op) - First(op)
  {
    var op := s.ops[id];
    PopTook(s, id);
    assert OpOk(s, id, op);
    GotIsLogged(s, id, op);
    OwnedStarts(s.input[..|s.consumer|], s.consumer, id, First(op), End(op), Got(op));
  }

  lemma OwnedStarts(log: seq<Entry>, owners: seq<Id>, id: Id, a: nat, b: nat, got: seq<Entry>)
    requires |log| == |owners| && a + |got| <= b <= |log|
    requires forall p :: 0 <= p < |owners| ==> (owners[p] == id <==> a <= p < b)
    requires forall k :: 0 <= k < |got| ==> got[k] == log[a + k]
    ensures got <= Owned(log, owners, id) && |Owned(log, owners, id)| == b - a
  {
    OwnedRange(log, owners, id, a, b);
  }

  lemma NoAppends(run: seq<State>, j: nat, id: Id)
    requires IsRun(run) && j < |run| && id < |run[j].ops| && !PushOp(run[j].ops[id])
    ensures Appended(run, id, j) == []
  {
    var s := run[j];
    RunKeeps(run, j);
    LabelsAddUp(run, id, j);
    forall p | 0 <= p < |s.producer| ensures s.producer[p] != id {
      ProducersHaveBegun(s, p);
    }
    OwnedRange(s.input, s.producer, id, 0, 0);
  }

  lemma NoTakes(run: seq<State>, j: nat, id: Id)
    requires IsRun(run) && j < |run| && id < |run[j].ops| && (PushOp(run[j].ops[id]) || run[j].ops[id].CEmpty?)
    ensures Taken(run, id, j) == []
  {
    var s := run[j];
    RunKeeps(run, j);
    LabelsAddUp(run, id, j);
    forall p | 0 <= p < |s.consumer| ensures s.consumer[p] != id {
      ConsumersHaveBegun(s, p);
    }
    OwnedRange(s.input[..|s.consumer|], s.consumer, id, 0, 0);
  }

  /** An empty answer was given in some step. */
  lemma EmptyWasAnswered(run: seq<State>, a: nat, j: nat, id: Id) returns (i: nat)
    requires a < j < |run| && !EmptyAt(run, a, id) && id < |run[j].ops| && run[j].ops[id].CEmpty?
    requires forall i :: 0 <= i < j ==> LabelledAt(run, i)
    ensures a <= i < j && AnsweredAt(run, i, id)
  {
    i := TurnsEmptyBetween(run, a, j, id);
    assert LabelledAt(run, i) && TurnsEmpty(run[i], run[i + 1], id);
  }

  /** Linearizability.  In every run each step does to a sequential queue what its label says,
      at a moment between the begin and the return of the labelled call; every call has begun;
      and what it was given or has returned is exactly what its labels appended, took or found. */
  lemma RunIsLinearizable(run: seq<State>, j: nat)
    requires IsRun(run) && j < |run|
    ensures forall i :: 0 <= i < j ==> LabelledAt(run, i)
    ensures forall id: Id :: id < |run[j].ops| ==> Begun(run, j, id)
    ensures forall b: nat, id: Id, call :: b < j && BegunBy(run, b, id, call) ==> AccountedAt(run, b, call, j, id)
  {
    forall i | 0 <= i < j ensures LabelledAt(run, i) {
      RunLabelled(run, i);
    }
    forall id: Id | id < |run[j].ops| ensures Begun(run, j, id) {
      var b, call := HasBegun(run, j, id);
    }
    forall b: nat, id: Id, call | b < j && BegunBy(run, b, id, call) ensures AccountedAt(run, b, call, j, id) {
      CallAccounted(run, b, call, j, id);
    }
  }

  lemma RunLabelled(run: seq<State>, i: nat)
    requires IsRun(run) && i + 1 < |run|
    ensures LabelledAt(run, i)
  {
    RunKeeps(run, i);
    assert Next(run[i], run[i + 1]);
    var step :| Enabled(run[i], step) && run[i + 1] == Apply(run[i], step);
    StepLabelled(run[i], step);
  }

  lemma CallAccounted(run: seq<State>, b: nat, call: Call, j: nat, id: Id)
    requires IsRun(run) && b < j < |run| && BegunBy(run, b, id, call)
    requires forall i :: 0 <= i < j ==> LabelledAt(run, i)
    ensures AccountedAt(run, b, call, j, id)
  {
    match call
    case Push(items) => PushCallAccounted(run, b, items, j, id);
    case Pop(size) => PopCallAccounted(run, b, size, j, id);
  }

  lemma PushCallAccounted(run: seq<State>, b: nat, items: seq<Entry>, j: nat, id: Id)
    requires IsRun(run) && b < j < |run| && BegunBy(run, b, id, Push(items))
    ensures AccountedAt(run, b, Push(items), j, id)
  {
    PushKeepsItems(run, b, j, id, items);
    if run[j].ops[id].PDone? {
      PushAccounted(run, j, id);
      NoTakes(run, j, id);
    }
  }

  lemma PopCallAccounted(run: seq<State>, b: nat, size: nat, j: nat, id: Id)
    requires IsRun(run) && b < j < |run| && BegunBy(run, b, id, Pop(size))
    requires forall i :: 0 <= i < j ==> LabelledAt(run, i)
    ensures AccountedAt(run, b, Pop(size), j, id)
  {
    StaysFair(run, b, j, id, size);
    var op := run[j].ops[id];
    if PopReturned(op) {
      ReturnedPopAccounted(run, b, size, j, id);
    } else if op.CEmpty? {
      EmptyPopAccounted(run, b, size, j, id);
    }
  }

  lemma ReturnedPopAccounted(run: seq<State>, b: nat, size: nat, j: nat, id: Id)
    requires IsRun(run) && b < j < |run| && BegunBy(run, b, id, Pop(size))
    requires id < |run[j].ops| && PopReturned(run[j].ops[id])
    ensures AccountedAt(run, b, Pop(size), j, id)
  {
    PopAccounted(run, j, id);
    NoAppends(run, j, id);
    PopGetsItsShare(run, b, j, id, size);
    PopAccount(run, b, size, j, id);
  }

  lemma PopAccount(run: seq<State>, b: nat, size: nat, j: nat, id: Id)
    requires j < |run| && id < |run[j].ops| && PopReturned(run[j].ops[id]) && Appended(run, id, j) == []
    requires Got(run[j].ops[id]) <= Taken(run, id, j)
    requires |Taken(run, id, j)| == End(run[j].ops[id]) - First(run[j].ops[id])
    requires GivenEnough(run, b, j, id, size, End(run[j].ops[id]) - First(run[j].ops[id]))
    ensures AccountedAt(run, b, Pop(size), j, id)
  {
  }

  lemma EmptyPopAccounted(run: seq<State>, b: nat, size: nat, j: nat, id: Id)
    requires IsRun(run) && b < j < |run| && BegunBy(run, b, id, Pop(size)) && EmptyAt(run, j, id)
    requires forall i :: 0 <= i < j ==> LabelledAt(run, i)
    ensures AccountedAt(run, b, Pop(size), j, id)
  {
    NoTakes(run, j, id);
    NoAppends(run, j, id);
    FirstOp(run, b, id, Pop(size));
    var i := EmptyWasAnswered(run, b + 1, j, id);
  }
}
