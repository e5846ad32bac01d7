/** How often a consumer updates the counter of a block: once per item in the builds that probe
    it, and otherwise once per block of its claim. */
module Counting {
  import opened Positions
  import opened Machine
  import opened Invariant
  import opened LocalSteps
  import opened PushSteps
  import opened PopSteps
  import opened Safety
  import opened Calls
  import RealTime

  /** The first position of a claim that starts at `start` in block `k`. */
  function SegmentStart(L: nat, start: nat, k: nat): nat {
    if start < Base(L, k) then Base(L, k) else start
  }

  /** What an iterator has read and not counted: at most the item it has just read, or else all it
      has read in the current block.  It counts at the end of the block and of the claim. */
  ghost predicate Tally(L: nat, perItem: bool, it: Iter, pc: IterPc) {
    var upto := it.start + |it.got|;
    if perItem then it.pending == if pc.Read? || pc.Reclaim? then 0 else 1
    else
      match pc
      case Read => it.len > 0 ==> upto - it.pending == SegmentStart(L, it.start, it.at.block)
      case Reclaim(_) => it.len > 0 ==> upto - it.pending == SegmentStart(L, it.start, it.at.block)
      case Follow => upto - it.pending == SegmentStart(L, it.start, it.at.block)
      case Consume(k) =>
        && upto - it.pending == SegmentStart(L, it.start, k)
        && (it.len == 0 || (upto == Base(L, k) + L && upto == Base(L, it.at.block)))
  }

  ghost predicate TallyOk(s: State, op: Op) {
    op.CIter? ==> Tally(s.L, s.perItem, op.it, op.ipc)
  }

  // ---------- every step keeps it ----------

  lemma ReadTallies(s: State, id: Id)
    requires id < |s.ops| && s.ops[id].CIter? && s.ops[id].ipc.Read? && OpOk(s, id, s.ops[id]) && TallyOk(s, s.ops[id])
    ensures TallyOk(s, StepRead(s, id).ops[id])
  {
  }

  lemma FollowTallies(s: State, id: Id)
    requires Shape(s) && id < |s.ops| && s.ops[id].CIter? && s.ops[id].ipc.Follow?
    requires OpOk(s, id, s.ops[id]) && TallyOk(s, s.ops[id])
    ensures TallyOk(s, StepFollow(s, id).ops[id])
  {
    FollowOp(s, id, s.ops[id].it);
    assert Base(s.L, s.ops[id].it.at.block + 1) == Base(s.L, s.ops[id].it.at.block) + s.L;
  }

  lemma CountTallies(s: State, id: Id)
    requires id < |s.ops| && s.ops[id].CIter? && TallyOk(s, s.ops[id])
    ensures s.ops[id].ipc.Consume? ==> TallyOk(s, StepConsume(s, id).ops[id])
    ensures s.ops[id].ipc.Reclaim? ==> TallyOk(s, StepReclaim(s, id).ops[id])
  {
  }

  lemma IterTallies(s: State, id: Id, c: Choice)
    requires Inv(s) && id < |s.ops| && s.ops[id].CIter? && TallyOk(s, s.ops[id])
    ensures TallyOk(s, Act(s, id, c).ops[id])
  {
    assert OpOk(s, id, s.ops[id]);
    match s.ops[id].ipc
    case Read => ReadTallies(s, id);
    case Follow => FollowTallies(s, id);
    case Consume(_) => CountTallies(s, id);
    case Reclaim(_) => CountTallies(s, id);
  }

  lemma PushNeverIterates(s: State, id: Id, c: Choice)
    requires id < |s.ops| && PushOp(s.ops[id])
    ensures !Act(s, id, c).ops[id].CIter?
  {
    KeepsItems(s, id, c);
  }

  /** A new iterator has read nothing. */
  lemma NewTallies(s: State, id: Id, c: Choice)
    requires id < |s.ops| && OpOk(s, id, s.ops[id])
    requires s.ops[id].CTry? || s.ops[id].CRecheck? || s.ops[id].CWalk?
    ensures TallyOk(s, Act(s, id, c).ops[id])
  {
    if s.ops[id].CWalk? {
      ReleaseTallies(s, id);
    } else if s.ops[id].CTry? {
      assert TallyOk(s, StepCTry(s, id, c).ops[id]);
    }
  }

  lemma ReleaseTallies(s: State, id: Id)
    requires id < |s.ops| && OpOk(s, id, s.ops[id]) && s.ops[id].CWalk?
    ensures s.ops[id].cpc.Move? ==> TallyOk(s, StepCMove(s, id).ops[id])
    ensures !s.ops[id].cpc.Move? ==> TallyOk(s, StepCNext(s, id).ops[id])
  {
  }

  lemma EarlyTallies(s: State, id: Id, c: Choice)
    requires id < |s.ops| && !PushOp(s.ops[id]) && !s.ops[id].CIter?
    requires !s.ops[id].CTry? && !s.ops[id].CRecheck? && !s.ops[id].CWalk?
    ensures !Act(s, id, c).ops[id].CIter?
  {
  }

  lemma ActTallies(s: State, id: Id, c: Choice)
    requires Inv(s) && id < |s.ops| && TallyOk(s, s.ops[id])
    ensures TallyOk(s, Act(s, id, c).ops[id])
  {
    var op := s.ops[id];
    assert OpOk(s, id, op);
    if op.CIter? {
      IterTallies(s, id, c);
    } else if PushOp(op) {
      PushNeverIterates(s, id, c);
    } else if op.CTry? || op.CRecheck? || op.CWalk? {
      NewTallies(s, id, c);
    } else {
      EarlyTallies(s, id, c);
    }
  }

  // ---------- in every run ----------

  lemma KeepsBuild(s: State, step: Step)
    requires Enabled(s, step)
    ensures Apply(s, step).perItem == s.perItem && Apply(s, step).L == s.L
  {
  }

  ghost predicate TallyGoesOn(run: seq<State>, t: nat, id: Id) {
    t + 1 < |run| && id < |run[t].ops| && id < |run[t + 1].ops|
    && (TallyOk(run[t], run[t].ops[id]) ==> TallyOk(run[t + 1], run[t + 1].ops[id]))
  }

  lemma StepTallies(run: seq<State>, t: nat, id: Id)
    requires IsRun(run) && t + 1 < |run| && id < |run[t].ops|
    ensures TallyGoesOn(run, t, id)
  {
    EveryStep(run, t, id);
    RunKeeps(run, t);
    assert Next(run[t], run[t + 1]);
    var step :| Enabled(run[t], step) && run[t + 1] == Apply(run[t], step);
    KeepsBuild(run[t], step);
    if TallyOk(run[t], run[t].ops[id]) && run[t + 1].ops[id] != run[t].ops[id] {
      var c :| run[t + 1].ops[id] == Act(run[t], id, c).ops[id];
      ActTallies(run[t], id, c);
    }
  }

  lemma {:induction false} TallyThroughout(run: seq<State>, a: nat, j: nat, id: Id)
    requires a <= j < |run| && id < |run[a].ops| && TallyOk(run[a], run[a].ops[id])
    requires forall t :: a <= t < j ==> TallyGoesOn(run, t, id)
    ensures id < |run[j].ops| && TallyOk(run[j], run[j].ops[id])
    decreases j
  {
    if a < j {
      TallyThroughout(run, a, j - 1, id);
      assert TallyGoesOn(run, j - 1, id);
    }
  }

  lemma CallsStay(run: seq<State>, a: nat, t: nat, id: Id)
    requires IsRun(run) && a <= t < |run| && id < |run[a].ops|
    ensures id < |run[t].ops|
  {
    RealTime.RunContinues(run, a, t);
  }

  /** In every run each iterator counts as the build says. */
  lemma CountsAsBuilt(run: seq<State>, j: nat, id: Id)
    requires IsRun(run) && j < |run| && id < |run[j].ops| && run[j].ops[id].CIter?
    ensures Tally(run[j].L, run[j].perItem, run[j].ops[id].it, run[j].ops[id].ipc)
  {
    var b, call := HasBegun(run, j, id);
    FirstOp(run, b, id, call);
    forall t | b < t < j ensures TallyGoesOn(run, t, id) {
      CallsStay(run, b + 1, t, id);
      StepTallies(run, t, id);
    }
    TallyThroughout(run, b + 1, j, id);
  }
}
