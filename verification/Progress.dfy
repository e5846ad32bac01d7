/** No deadlock: from every reachable state the pending calls can be completed. */
module Progress {
  import opened Positions
  import opened Machine
  import opened Invariant
  import opened LocalSteps
  import opened PushSteps
  import opened PopSteps
  import opened Safety

  // ---------- how far a call is from its end ----------

  /** Calls that have not claimed anything weigh more than calls that have. */
  function Weight(op: Op): nat {
    match op
    case PLoad(_) => 3
    case PInit(_) => 3
    case PPublish(_) => 2
    case PLoop(_, _, _) => 1
    case PTry(_, _, _) => 1
    case CCheck(_) => 1
    case CLoad(_) => 1
    case CLoop(_, _) => 1
    case CTry(_, _, _) => 1
    case _ => 0
  }

  function WriteRank(left: nat, pc: WritePc): nat {
    4 * left + match pc
               case Pick(_) => 4
               case WaitNext(_) => 3
               case Put(_, _) => 2
               case Commit(_, _) => 1
  }

  function IterRank(len: nat, pc: IterPc): nat {
    5 * len + match pc
              case Read => 1
              case Follow => 5
              case Consume(_) => 4
              case Reclaim(_) => 3
  }

  predicate WaitsForProducer(L: nat, w: Walk) {
    w.ph.At? && w.ph.block == w.at.block && w.ph.index == L
  }

  function WalkRank(L: nat, w: Walk, pc: WalkPc): nat {
    4 * w.remaining + match pc
                      case LoadNext => 5
                      case Move(_) => if WaitsForProducer(L, w) then 4 else 2
                      case Reload => 3
  }

  /** The work left to a call that has claimed its slots. */
  function Rank(L: nat, op: Op): nat {
    match op
    case PFill(items, f, pc) =>
      4 * |items| + 4 + 3 * f.remaining + (match pc case LoadLink => 3 case StoreRoot => 2 case Advance(_) => 1)
    case PWrite(items, start, done, pc) => WriteRank(SatSub(|items|, done), pc)
    case CRecheck(len, _, _) => 5 * len + 1 + 4 * len + 7
    case CWalkLoad(len, _, _) => 5 * len + 1 + 4 * len + 6
    case CWalk(w, pc) => 5 * w.len + 1 + WalkRank(L, w, pc)
    case CIter(it, pc) => IterRank(it.len, pc)
    case _ => 0
  }

  /** How far a call without a claim is from a successful exchange if nobody interferes. */
  function Retries(L: nat, phead: Head, chead: Head, op: Op): nat {
    match op
    case PLoad(_) => 2
    case PInit(_) => 1
    case PLoop(_, seen, _) =>
      if seen.At? && seen.index >= L then 5 else if seen == phead then 2 else 4
    case PTry(_, seen, _) => if seen == phead then 1 else 3
    case CCheck(_) => 7
    case CLoad(_) => 6
    case CLoop(_, seen) =>
      if seen.At? && seen.index == L then 5 else if seen == chead then 2 else 4
    case CTry(_, seen, _) => if seen == chead then 1 else 3
    case _ => 0
  }

  datatype Meter = ByWeight | ByRank(L: nat) | ByRetries(L: nat, phead: Head, chead: Head)

  function Gauge(m: Meter, op: Op): nat {
    match m
    case ByWeight => Weight(op)
    case ByRank(L) => Rank(L, op)
    case ByRetries(L, phead, chead) => Retries(L, phead, chead, op)
  }

  function Sum(m: Meter, ops: seq<Op>): nat {
    if ops == [] then 0 else Gauge(m, ops[0]) + Sum(m, ops[1..])
  }

  lemma {:induction false} SumUpdate(m: Meter, ops: seq<Op>, ops': seq<Op>, id: nat)
    requires id < |ops| == |ops'| && forall j :: 0 <= j < |ops| && j != id ==> ops'[j] == ops[j]
    ensures Sum(m, ops') + Gauge(m, ops[id]) == Sum(m, ops) + Gauge(m, ops'[id])
  {
    if id == 0 {
      assert ops'[1..] == ops[1..];
    } else {
      SumUpdate(m, ops[1..], ops'[1..], id - 1);
    }
  }

  /** The step brings its own call closer to its end. */
  ghost predicate Closer(s: State, s': State, id: Id)
    requires id < |s.ops| == |s'.ops|
  {
    var op, op' := s.ops[id], s'.ops[id];
    || Weight(op') < Weight(op)
    || (Weight(op') == Weight(op) && Rank(s.L, op') < Rank(s.L, op))
    || (&& Weight(op') == Weight(op) && Rank(s.L, op') == Rank(s.L, op)
        && s'.phead == s.phead && s'.chead == s.chead
        && Retries(s.L, s.phead, s.chead, op') < Retries(s.L, s.phead, s.chead, op))
  }

  // ---------- who can move ----------

  lemma FillMoves(s: State, id: Id)
    requires id < |s.ops| && s.ops[id].PFill? && OpOk(s, id, s.ops[id]) && IsLive(s, s.ops[id].f.at.block)
    ensures s.ops[id].fpc.LoadLink? ==> Closer(s, StepPFill(s, id), id)
    ensures s.ops[id].fpc.StoreRoot? ==> Closer(s, StepPLink(s, id), id)
  {
  }

  lemma AdvanceMoves(s: State, id: Id)
    requires id < |s.ops| && s.ops[id].PFill? && s.ops[id].fpc.Advance? && OpOk(s, id, s.ops[id])
    ensures Closer(s, StepPMove(s, id), id)
  {
    if s.L - s.ops[id].f.at.index <= s.ops[id].f.remaining {
      PMoveOnOp(s, id, s.ops[id].items, s.ops[id].f, s.ops[id].fpc.next);
    }
  }

  lemma PickMoves(s: State, id: Id)
    requires id < |s.ops| && s.ops[id].PWrite? && s.ops[id].wpc.Pick?
    ensures Closer(s, StepPick(s, id), id)
  {
  }

  lemma WaitNextMoves(s: State, id: Id)
    requires Inv(s) && id < |s.ops| && s.ops[id].PWrite? && s.ops[id].wpc.WaitNext?
    ensures Closer(s, StepWaitNext(s, id), id)
  {
    NextIsLinked(s, id);
  }

  lemma PutMoves(s: State, id: Id)
    requires id < |s.ops| && s.ops[id].PWrite? && s.ops[id].done < |s.ops[id].items|
    ensures s.ops[id].wpc.Put? && InBounds(s, s.ops[id].wpc.slot) ==> Closer(s, StepPut(s, id), id)
    ensures s.ops[id].wpc.Commit? && InBounds(s, s.ops[id].wpc.slot) ==> Closer(s, StepCommit(s, id), id)
  {
  }

  lemma WriteMoves(s: State, id: Id, c: Choice)
    requires Inv(s) && id < |s.ops| && s.ops[id].PWrite?
    ensures Closer(s, Act(s, id, c), id)
  {
    var op := s.ops[id];
    assert OpOk(s, id, op);
    match op.wpc
    case Pick(_) => PickMoves(s, id);
    case WaitNext(_) => WaitNextMoves(s, id);
    case Put(slot, _) => WriteLive(s, id, slot); PutMoves(s, id);
    case Commit(slot, _) => WriteLive(s, id, slot); PutMoves(s, id);
  }

  lemma NextMoves(s: State, id: Id)
    requires id < |s.ops| && s.ops[id].CWalk? && !s.ops[id].cpc.Move?
    requires OpOk(s, id, s.ops[id]) && IsLive(s, s.ops[id].w.at.block)
    ensures Closer(s, StepCNext(s, id), id)
  {
  }

  /** The holder of the `chead` lock waits for nobody but the holder of the `phead` lock. */
  lemma WaitMoves(s: State, id: Id)
    requires Heads(s) && id < |s.ops| && s.ops[id].CWalk? && s.ops[id].cpc.Move? && OpOk(s, id, s.ops[id])
    requires s.phead.index < s.L && WaitsForProducer(s.L, s.ops[id].w)
    ensures Closer(s, StepCMove(s, id), id)
  {
  }

  lemma MoveMoves(s: State, id: Id)
    requires Heads(s) && id < |s.ops| && s.ops[id].CWalk? && s.ops[id].cpc.Move? && OpOk(s, id, s.ops[id])
    requires !WaitsForProducer(s.L, s.ops[id].w)
    ensures Closer(s, StepCMove(s, id), id)
  {
    var w, next := s.ops[id].w, s.ops[id].cpc.next;
    if w.ph.block != w.at.block && s.L - w.at.index <= w.remaining {
      CMoveOnOp(s, id, w, next);
    }
  }

  lemma ClaimMoves(s: State, id: Id)
    requires Shape(s) && Heads(s) && id < |s.ops| && OpOk(s, id, s.ops[id])
    ensures s.ops[id].CRecheck? ==> Closer(s, StepCRecheck(s, id), id)
    ensures s.ops[id].CWalkLoad? ==> Closer(s, StepCWalkLoad(s, id), id)
  {
    var op := s.ops[id];
    if op.CRecheck? {
      CRecheckOp(s, id, op.len, op.seen, op.goal);
    }
  }

  /** The slot under the cursor is claimed by a producer and reachable. */
  lemma CursorOk(s: State, id: Id)
    requires Inv(s) && id < |s.ops| && s.ops[id].CIter? && s.ops[id].ipc.Read? && s.ops[id].it.len > 0
    ensures var it, p := s.ops[id].it, Cursor(s.ops[id]);
            && p < |s.producer| && s.producer[p] < |s.ops| && p < |s.slots|
            && PosAt(s.L, it.at) == p && InBounds(s, it.at)
            && (s.slots[p].state.Vacant? <==> Pending(s.ops[s.producer[p]], p))
  {
    var p := Cursor(s.ops[id]);
    assert OpOk(s, id, s.ops[id]);
    Bounds(s);
    IterLive(s, id, s.ops[id].it.at.block, p);
    assert SlotOk(s, p);
  }

  function Cursor(op: Op): nat
    requires op.CIter?
  {
    op.it.start + |op.it.got|
  }

  /** A reader waits for nobody but the producer of the slot under its cursor, and for that one
      only until it has published this slot. */
  lemma ReadMoves(s: State, id: Id)
    requires Inv(s) && id < |s.ops| && s.ops[id].CIter? && s.ops[id].ipc.Read?
    requires var p := Cursor(s.ops[id]);
             s.ops[id].it.len > 0 && p < |s.producer| && s.producer[p] < |s.ops| ==> !Pending(s.ops[s.producer[p]], p)
    ensures Closer(s, StepRead(s, id), id)
  {
    assert OpOk(s, id, s.ops[id]);
    if s.ops[id].it.len > 0 {
      CursorOk(s, id);
    }
  }

  /** A reader with slots left waits exactly while that producer has the slot to publish. */
  lemma ReadWaitsExactly(s: State, id: Id)
    requires Inv(s) && id < |s.ops| && s.ops[id].CIter? && s.ops[id].ipc.Read? && s.ops[id].it.len > 0
    ensures var p := Cursor(s.ops[id]);
            p < |s.producer| && s.producer[p] < |s.ops| && (StepRead(s, id) == s <==> Pending(s.ops[s.producer[p]], p))
  {
    var p := Cursor(s.ops[id]);
    CursorOk(s, id);
    if !Pending(s.ops[s.producer[p]], p) {
      ReadMoves(s, id);
    }
  }

  lemma FollowMoves(s: State, id: Id)
    requires Inv(s) && id < |s.ops| && s.ops[id].CIter? && s.ops[id].ipc.Follow?
    ensures Closer(s, StepFollow(s, id), id)
  {
    var it := s.ops[id].it;
    assert OpOk(s, id, s.ops[id]);
    IterLive(s, id, it.at.block, it.start + |it.got| - 1);
    FollowOp(s, id, it);
  }

  lemma ConsumeMoves(s: State, id: Id)
    requires Inv(s) && id < |s.ops| && s.ops[id].CIter? && s.ops[id].ipc.Consume?
    ensures Closer(s, StepConsume(s, id), id)
  {
    var it := s.ops[id].it;
    assert OpOk(s, id, s.ops[id]);
    IterLive(s, id, s.ops[id].ipc.block, it.start + |it.got| - 1);
  }

  lemma ReclaimMoves(s: State, id: Id)
    requires id < |s.ops| && s.ops[id].CIter? && s.ops[id].ipc.Reclaim? && OpOk(s, id, s.ops[id])
    ensures Closer(s, StepReclaim(s, id), id)
  {
  }

  lemma EarlyMoves(s: State, id: Id)
    requires Heads(s) && Locks(s) && id < |s.ops| && s.plock == None && OpOk(s, id, s.ops[id])
    ensures s.ops[id].PLoad? ==> Closer(s, StepPLoad(s, id), id)
    ensures s.ops[id].PInit? ==> Closer(s, StepPInit(s, id), id)
    ensures s.ops[id].PPublish? ==> Closer(s, StepPPublish(s, id), id)
    ensures s.ops[id].PTry? ==> Closer(s, StepPTry(s, id, Choice(0, false)), id)
  {
  }

  lemma PLoopMoves(s: State, id: Id) returns (c: Choice)
    requires Heads(s) && Locks(s) && id < |s.ops| && s.plock == None && s.ops[id].PLoop? && OpOk(s, id, s.ops[id]) && s.L > 0
    ensures Closer(s, StepPLoop(s, id, c), id) && Exact(s, Run(id, c))
  {
    var had, needed := s.ops[id].chain, PagesFor(s.L, Request(s, id));
    c := Choice(if had < needed then needed else had, false);
    PagesForIsExact(s.L, Request(s, id));
    BaseMono(s.L, needed, c.chain);
  }

  /** Without a lock holder, a producer gets on. */
  lemma PushMoves(s: State, id: Id) returns (c: Choice)
    requires Inv(s) && id < |s.ops| && s.plock == None && s.init == None
    requires PushOp(s.ops[id]) && Weight(s.ops[id]) > 0
    ensures Closer(s, Act(s, id, c), id) && Exact(s, Run(id, c))
  {
    var op := s.ops[id];
    assert OpOk(s, id, op);
    c := Choice(0, false);
    if op.PLoop? {
      c := PLoopMoves(s, id);
    } else if op.PWrite? {
      WriteMoves(s, id, c);
    } else if op.PFill? {
      FillActs(s, id, c);
    } else {
      EarlyMoves(s, id);
    }
  }

  lemma PopMoves(s: State, id: Id)
    requires Heads(s) && id < |s.ops| && OpOk(s, id, s.ops[id])
    requires s.chead.At? ==> s.chead.index < s.L
    ensures s.ops[id].CCheck? ==> Closer(s, StepCCheck(s, id), id)
    ensures s.ops[id].CLoad? ==> Closer(s, StepCLoad(s, id), id)
    ensures s.ops[id].CTry? ==> Closer(s, StepCTry(s, id, Choice(0, false)), id)
  {
  }

  lemma CLoopMoves(s: State, id: Id)
    requires Heads(s) && id < |s.ops| && OpOk(s, id, s.ops[id]) && s.ops[id].CLoop?
    requires s.chead.At? ==> s.chead.index < s.L
    ensures Closer(s, StepCLoop(s, id), id)
  {
  }

  // ---------- somebody can always move ----------

  lemma FillActs(s: State, id: Id, c: Choice)
    requires Inv(s) && id < |s.ops| && s.ops[id].PFill?
    ensures Closer(s, Act(s, id, c), id)
  {
    assert OpOk(s, id, s.ops[id]);
    FillLive(s, id);
    FillMoves(s, id);
    if s.ops[id].fpc.Advance? {
      AdvanceMoves(s, id);
    }
  }

  lemma WalkActs(s: State, id: Id, c: Choice)
    requires Inv(s) && id < |s.ops| && s.plock == None
    requires s.ops[id].CRecheck? || s.ops[id].CWalkLoad? || s.ops[id].CWalk?
    ensures Closer(s, Act(s, id, c), id)
  {
    var op := s.ops[id];
    assert OpOk(s, id, op);
    if !op.CWalk? {
      ClaimMoves(s, id);
    } else if !op.cpc.Move? {
      WalkLive(s, id);
      NextMoves(s, id);
    } else if WaitsForProducer(s.L, op.w) {
      WaitMoves(s, id);
    } else {
      MoveMoves(s, id);
    }
  }

  lemma IterActs(s: State, id: Id, c: Choice)
    requires Inv(s) && id < |s.ops| && s.ops[id].CIter?
    requires forall j :: 0 <= j < |s.ops| ==> !s.ops[j].PFill? && !s.ops[j].PWrite?
    ensures Closer(s, Act(s, id, c), id)
  {
    assert OpOk(s, id, s.ops[id]);
    match s.ops[id].ipc
    case Read => ReadMoves(s, id);
    case Follow => FollowMoves(s, id);
    case Consume(_) => ConsumeMoves(s, id);
    case Reclaim(_) => ReclaimMoves(s, id);
  }

  lemma PopActs(s: State, id: Id)
    requires Inv(s) && id < |s.ops| && s.clock == None && !PushOp(s.ops[id]) && Weight(s.ops[id]) > 0
    ensures Closer(s, Act(s, id, Choice(0, false)), id)
  {
    assert OpOk(s, id, s.ops[id]);
    PopMoves(s, id);
    if s.ops[id].CLoop? {
      CLoopMoves(s, id);
    }
  }

  /** In every reachable state with a pending call, some pending call has a step that is not
      a wait: it brings that call strictly closer to its end, and its chain, if it grows, to the
      length `grow_to_fit_with` brings it to. */
  lemma SomeoneMoves(s: State) returns (id: Id, c: Choice)
    requires Inv(s) && !Quiescent(s)
    ensures id < |s.ops| && !Finished(s.ops[id]) && Closer(s, Act(s, id, c), id) && Exact(s, Run(id, c))
  {
    c := Choice(0, false);
    if j :| 0 <= j < |s.ops| && s.ops[j].PFill? {
      id := j;
      FillActs(s, id, c);
    } else if j :| 0 <= j < |s.ops| && s.ops[j].PWrite? {
      id := j;
      WriteMoves(s, id, c);
    } else {
      assert s.plock == None;
      id, c := RestMoves(s);
    }
  }

  lemma RestMoves(s: State) returns (id: Id, c: Choice)
    requires Inv(s) && !Quiescent(s) && s.plock == None
    requires forall j :: 0 <= j < |s.ops| ==> !s.ops[j].PFill? && !s.ops[j].PWrite?
    ensures id < |s.ops| && !Finished(s.ops[id]) && Closer(s, Act(s, id, c), id) && Exact(s, Run(id, c))
  {
    c := Choice(0, false);
    if j :| 0 <= j < |s.ops| && s.ops[j].PPublish? {
      id := j;
    } else if j :| 0 <= j < |s.ops| && (s.ops[j].CRecheck? || s.ops[j].CWalkLoad? || s.ops[j].CWalk?) {
      id := j;
      WalkActs(s, id, c);
    } else if j :| 0 <= j < |s.ops| && s.ops[j].CIter? {
      id := j;
      IterActs(s, id, c);
    } else {
      id :| 0 <= id < |s.ops| && !Finished(s.ops[id]);
      assert OpOk(s, id, s.ops[id]);
      assert s.init == None && s.clock == None;
      if PushOp(s.ops[id]) {
        c := PushMoves(s, id);
      } else {
        PopActs(s, id);
      }
    }
  }

  // ---------- every pending call can be completed ----------

  /** Which hints are lost after a step: that of `phead` and that of `chead`. */
  datatype Loss = Loss(producers: bool, consumers: bool)

  function Lose(s: State, l: Loss): State {
    var s1 := if l.producers then DropHint(s, true) else s;
    if l.consumers then DropHint(s1, false) else s1
  }

  /** The states reached by a sequence of steps of the calls already begun, the first of them at
      time `n`; after each step hints may be lost, as `lose` decides. */
  ghost predicate Schedule(s: State, n: nat, lose: (nat, State) -> Loss, steps: seq<(Id, Choice)>, end: State)
    decreases |steps|
  {
    if steps == [] then end == s
    else
      && steps[0].0 < |s.ops| && s.L > 0 && Exact(s, Run(steps[0].0, steps[0].1))
      && var s' := Act(s, steps[0].0, steps[0].1);
         Schedule(Lose(s', lose(n, s')), n + 1, lose, steps[1..], end)
  }

  function Hints(s: State): nat {
    (if s.phead.At? && s.phead.hint then 1 else 0) + if s.chead.At? && s.chead.hint then 1 else 0
  }

  /** Losing a hint moves nothing but the heads, and uses up a hint if it does. */
  lemma LoseKeeps(s: State, l: Loss)
    requires Inv(s)
    ensures var s' := Lose(s, l);
            && Inv(s') && s'.L == s.L && s'.ops == s.ops
            && ((s'.phead == s.phead && s'.chead == s.chead) || Hints(s') < Hints(s))
  {
    StepKeeps(s, Forget(true));
    StepKeeps(s, Forget(false));
    StepKeeps(DropHint(s, true), Forget(false));
  }

  lemma CloserSums(s: State, s': State, id: Id)
    requires id < |s.ops| == |s'.ops| && (forall j :: 0 <= j < |s.ops| && j != id ==> s'.ops[j] == s.ops[j])
    requires Closer(s, s', id)
    ensures || Sum(ByWeight, s'.ops) < Sum(ByWeight, s.ops)
            || (Sum(ByWeight, s'.ops) == Sum(ByWeight, s.ops) && Sum(ByRank(s.L), s'.ops) < Sum(ByRank(s.L), s.ops))
            || (&& Sum(ByWeight, s'.ops) == Sum(ByWeight, s.ops) && Sum(ByRank(s.L), s'.ops) == Sum(ByRank(s.L), s.ops)
                && s'.phead == s.phead && s'.chead == s.chead
                && Sum(ByRetries(s.L, s.phead, s.chead), s'.ops) < Sum(ByRetries(s.L, s.phead, s.chead), s.ops))
  {
    SumUpdate(ByWeight, s.ops, s'.ops, id);
    SumUpdate(ByRank(s.L), s.ops, s'.ops, id);
    SumUpdate(ByRetries(s.L, s.phead, s.chead), s.ops, s'.ops, id);
  }

  /** The lexicographic measure that the steps of `CanFinish` bring down. */
  ghost predicate Below(s': State, s: State) {
    var w', w := Sum(ByWeight, s'.ops), Sum(ByWeight, s.ops);
    var r', r := Sum(ByRank(s'.L), s'.ops), Sum(ByRank(s.L), s.ops);
    var t', t := Sum(ByRetries(s'.L, s'.phead, s'.chead), s'.ops), Sum(ByRetries(s.L, s.phead, s.chead), s.ops);
    || w' < w
    || (w' == w && r' < r)
    || (w' == w && r' == r && Hints(s') < Hints(s))
    || (w' == w && r' == r && Hints(s') == Hints(s) && t' < t)
  }

  lemma StepsDown(s: State, id: Id, c: Choice, l: Loss)
    requires Inv(s) && id < |s.ops| && Closer(s, Act(s, id, c), id)
    ensures Inv(Lose(Act(s, id, c), l)) && Below(Lose(Act(s, id, c), l), s)
  {
    var s' := Act(s, id, c);
    CloserSums(s, s', id);
    StepKeeps(s, Run(id, c));
    ActKeepsL(s, id, c);
    LoseKeeps(s', l);
  }

  /** From every reachable state, and however hints get lost, there is a schedule of the pending
      calls alone, with no new call, after which all of them have returned and all iterators are
      drained. */
  lemma {:induction false} CanFinish(s: State, n: nat, lose: (nat, State) -> Loss) returns (steps: seq<(Id, Choice)>, end: State)
    requires Inv(s)
    ensures Schedule(s, n, lose, steps, end) && Inv(end) && Quiescent(end)
    decreases Sum(ByWeight, s.ops), Sum(ByRank(s.L), s.ops), Hints(s), Sum(ByRetries(s.L, s.phead, s.chead), s.ops)
  {
    if Quiescent(s) {
      steps, end := [], s;
    } else {
      var id, c := SomeoneMoves(s);
      var s' := Act(s, id, c);
      StepsDown(s, id, c, lose(n, s'));
      var rest;
      rest, end := CanFinish(Lose(s', lose(n, s')), n + 1, lose);
      steps := [(id, c)] + rest;
      assert steps[1..] == rest;
    }
  }

  lemma ActKeepsL(s: State, id: Id, c: Choice)
    requires id < |s.ops|
    ensures Act(s, id, c).L == s.L
  {
  }

  /** No run ever deadlocks. */
  lemma RunCanFinish(run: seq<State>, i: nat, lose: (nat, State) -> Loss) returns (steps: seq<(Id, Choice)>, end: State)
    requires IsRun(run) && i < |run|
    ensures Schedule(run[i], i, lose, steps, end) && Quiescent(end)
  {
    RunKeeps(run, i);
    steps, end := CanFinish(run[i], i, lose);
  }
}
