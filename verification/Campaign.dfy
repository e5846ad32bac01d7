/** The controller's submission loops, step by step over the files and the scheduler. */
module Campaign {
  import opened Positions
  import opened Scheduling
  import opened Submission
  import opened Words

  /** How a call to the scheduler ends; after `Error` and `Lost` the controller stops. */
  datatype Reply = Accepted | Quota | Error | Lost

  const BATCH := 300

  /** The scheduler takes whatever it is given. */
  ghost predicate Willing(replies: nat -> Reply) {
    forall c: nat :: replies(c) == Accepted
  }

  /** The batch size after `n` refusals. */
  function Halved(size: nat, n: nat): nat {
    if n == 0 then size else Halved(size / 2, n - 1)
  }

  lemma {:induction false} HalvedStep(size: nat, n: nat)
    ensures Halved(size, n + 1) == Halved(size, n) / 2
  {
    if n > 0 {
      HalvedStep(size / 2, n - 1);
    }
  }

  lemma Doubled(h: nat, p: nat, half: nat)
    requires h * p <= half < (h + 1) * p
    ensures h * (2 * p) <= 2 * half && 2 * half + 1 < (h + 1) * (2 * p)
  {
    assert h * (2 * p) == 2 * (h * p);
    assert (h + 1) * (2 * p) == 2 * ((h + 1) * p);
  }

  /** Each refusal halves the batch. */
  lemma {:induction false} HalvedIs(size: nat, n: nat)
    ensures Halved(size, n) * Pow2(n) <= size < (Halved(size, n) + 1) * Pow2(n)
  {
    if n > 0 {
      HalvedIs(size / 2, n - 1);
      Doubled(Halved(size / 2, n - 1), Pow2(n - 1), size / 2);
    }
  }

  function Statuses(jobs: map<Id, Entry>): (r: Jobs)
    ensures r.Keys == jobs.Keys
  {
    map id | id in jobs :: jobs[id].status
  }

  function Lookup(jobs: Jobs, id: Id): Option<Status> {
    if id in jobs then Some(jobs[id]) else None
  }

  ghost predicate SweptFacts(plan: seq<Job>, start: Jobs, jobs: Jobs, schedules: set<Id>,
                             buildOk: bool, buildFailed: bool, late: set<Id>, n: nat) {
    && n <= |plan| && Extends(start, jobs)
    && (forall id :: id in jobs && id !in start ==> exists k :: 0 <= k < n && plan[k].id == id)
    && (forall k :: 0 <= k < n && plan[k].id !in start ==>
          Lookup(jobs, plan[k].id) == Decision(plan[k], jobs, schedules, buildOk, buildFailed, late))
  }

  /** Of the first `n` jobs, `jobs` decides those that `start` left open and for which, as `jobs`
      stands, a decision is due; and it decides no other job. */
  ghost predicate Swept(plan: seq<Job>, start: Jobs, jobs: Jobs, schedules: set<Id>,
                        buildOk: bool, buildFailed: bool, late: set<Id>, n: nat) {
    SweptFacts(plan, start, jobs, schedules, buildOk, buildFailed, late, n) == true
  }

  lemma SweptOn(plan: seq<Job>, start: Jobs, before: Jobs, jobs: Jobs, schedules: set<Id>,
                buildOk: bool, buildFailed: bool, late: set<Id>, i: nat)
    requires Ordered(plan) && i < |plan| && Swept(plan, start, before, schedules, buildOk, buildFailed, late, i)
    requires var d := Decision(plan[i], before, schedules, buildOk, buildFailed, late);
             jobs == if plan[i].id in before || d.None? then before else before[plan[i].id := d.value]
    ensures Swept(plan, start, jobs, schedules, buildOk, buildFailed, late, i + 1)
  {
    forall k | 0 <= k <= i && plan[k].id !in start
      ensures Lookup(jobs, plan[k].id) == Decision(plan[k], jobs, schedules, buildOk, buildFailed, late)
    {
      EarlierUnmoved(plan, before, jobs, schedules, k, i);
      assert k == i ==> plan[i].id !in before;
    }
    assert SweptFacts(plan, start, jobs, schedules, buildOk, buildFailed, late, i + 1);
  }

  /** A job the sweep decides is not admitted if the build failed or it is late, and skipped
      otherwise, because of a need that will never be met. */
  lemma SweptDecides(plan: seq<Job>, start: Jobs, jobs: Jobs, schedules: set<Id>,
                     buildOk: bool, buildFailed: bool, late: set<Id>, id: Id)
    requires Swept(plan, start, jobs, schedules, buildOk, buildFailed, late, |plan|) && id in jobs && id !in start
    ensures jobs[id] == if buildFailed || id in late then NotAdmitted else Skipped
    ensures jobs[id] == Skipped ==>
              exists k, j: nat :: 0 <= k < |plan| && plan[k].id == id
                && Reaches(plan[k], jobs, schedules, j) && Fails(plan[k], plan[k].needs[j], jobs, schedules)
  {
    var k :| 0 <= k < |plan| && plan[k].id == id;
    assert Lookup(jobs, plan[k].id) == Decision(plan[k], jobs, schedules, buildOk, buildFailed, late);
    DecisionMeans(plan[k], jobs, schedules, buildOk, buildFailed, late);
  }

  /** `ready`: the jobs of a kind that are not in the record and are eligible, in plan order. */
  function ReadyIds(plan: seq<Job>, kind: Kind, jobs: Jobs, schedules: set<Id>): seq<Id> {
    if plan == [] then []
    else
      (if plan[0].kind == kind && plan[0].id !in jobs && Eligible(plan[0], jobs, schedules).Ready? then [plan[0].id] else [])
      + ReadyIds(plan[1..], kind, jobs, schedules)
  }

  lemma {:induction false} ReadyIdsAreReady(plan: seq<Job>, kind: Kind, jobs: Jobs, schedules: set<Id>, id: Id)
    ensures id in ReadyIds(plan, kind, jobs, schedules) <==>
            exists k :: 0 <= k < |plan| && plan[k].id == id && plan[k].kind == kind && id !in jobs
                        && Eligible(plan[k], jobs, schedules).Ready?
  {
    if plan != [] {
      ReadyIdsAreReady(plan[1..], kind, jobs, schedules, id);
      if k :| 0 <= k < |plan| && plan[k].id == id && plan[k].kind == kind && id !in jobs
              && Eligible(plan[k], jobs, schedules).Ready? {
        assert k > 0 ==> plan[k] == plan[1..][k - 1];
      }
    }
  }

  lemma {:induction false} ReadyIdsDistinct(plan: seq<Job>, kind: Kind, jobs: Jobs, schedules: set<Id>)
    requires forall i, j :: 0 <= i < j < |plan| ==> plan[i].id != plan[j].id
    ensures Distinct(ReadyIds(plan, kind, jobs, schedules))
  {
    if plan != [] {
      var rest := plan[1..];
      ReadyIdsDistinct(rest, kind, jobs, schedules);
      ReadyIdsAreReady(rest, kind, jobs, schedules, plan[0].id);
      var ids := ReadyIds(rest, kind, jobs, schedules);
      assert plan[0].id !in ids;
      assert forall k :: 0 <= k < |ids| ==> ids[k] in ids;
    }
  }

  // ---------- the order of submissions ----------

  /** The ids of the submissions from number `from` on, in the order of their submission. */
  function Submitted(log: seq<Request>, from: nat): seq<Id> {
    if |log| <= from then [] else Submitted(log[..|log| - 1], from) + log[|log| - 1].ids
  }

  lemma {:induction false} SubmittedSplit(log: seq<Request>, log': seq<Request>, from: nat)
    requires from <= |log| && log <= log'
    ensures Submitted(log', from) == Submitted(log, from) + Submitted(log', |log|)
    decreases |log'|
  {
    if |log'| == |log| {
      assert log' == log;
    } else {
      var before := log'[..|log'| - 1];
      SubmittedSplit(log, before, from);
      Regroup(Submitted(log, from), Submitted(before, |log|), log'[|log'| - 1].ids);
    }
  }

  lemma Regroup(a: seq<Id>, b: seq<Id>, c: seq<Id>)
    ensures (a + b) + c == a + (b + c)
  {
  }

  lemma SubmittedNext(log: seq<Request>, log': seq<Request>)
    requires |log| <= |log'| <= |log| + 1
    ensures Submitted(log', |log|) == if |log'| == |log| then [] else log'[|log|].ids
  {
  }

  function Ids(ids: seq<Id>): set<Id> {
    set id | id in ids
  }

  /** Submissions of a list, one after the other: what is done is a prefix of the list. */
  lemma Advance(log: seq<Request>, log': seq<Request>, from: nat, rest: seq<Id>, all: seq<Id>)
    requires from <= |log| && log <= log' && Submitted(log, from) + rest == all && Submitted(log', |log|) <= rest
    ensures Submitted(log', from) <= all
    ensures Submitted(log', from) + rest[|Submitted(log', |log|)|..] == all
    ensures Ids(Submitted(log', from)) == Ids(Submitted(log, from)) + Ids(Submitted(log', |log|))
  {
    SubmittedSplit(log, log', from);
  }

  /** Of these ids, exactly the first `n` are in the record. */
  ghost predicate FirstIn(ids: seq<Id>, jobs: Jobs, n: nat) {
    n <= |ids| && forall i :: 0 <= i < |ids| ==> (ids[i] in jobs <==> i < n)
  }

  lemma FirstInTail(x: Id, rest: seq<Id>, jobs: Jobs, n: nat)
    requires FirstIn([x] + rest, jobs, n)
    ensures (x in jobs <==> n > 0) && FirstIn(rest, jobs, if n == 0 then 0 else n - 1)
    ensures ([x] + rest)[n..] == if n == 0 then [x] + rest else rest[n - 1..]
  {
    var ids := [x] + rest;
    assert ids[0] == x;
    assert forall i :: 0 <= i < |rest| ==> rest[i] == ids[i + 1];
  }

  /** Of the ready jobs of a kind, recording the first `n` leaves the others, in their order. */
  lemma {:induction false} ReadyIdsDrop(plan: seq<Job>, kind: Kind, jobs: Jobs, jobs': Jobs, schedules: set<Id>, n: nat)
    requires Adds(jobs, jobs') && FirstIn(ReadyIds(plan, kind, jobs, schedules), jobs', n)
    ensures ReadyIds(plan, kind, jobs', schedules) == ReadyIds(plan, kind, jobs, schedules)[n..]
    decreases |plan|
  {
    if plan != [] {
      var rest := ReadyIds(plan[1..], kind, jobs, schedules);
      SubmittingChangesNoVerdict(plan[0], jobs, jobs', schedules);
      if plan[0].kind == kind && plan[0].id !in jobs && Eligible(plan[0], jobs, schedules).Ready? {
        FirstInTail(plan[0].id, rest, jobs', n);
        ReadyIdsDrop(plan[1..], kind, jobs, jobs', schedules, if n == 0 then 0 else n - 1);
      } else {
        assert [] + rest == rest;
        ReadyIdsDrop(plan[1..], kind, jobs, jobs', schedules, n);
      }
    }
  }

  lemma FirstRecorded(jobs: Jobs, jobs': Jobs, ready: seq<Id>, n: nat)
    requires Distinct(ready) && n <= |ready| && jobs'.Keys == jobs.Keys + Ids(ready[..n])
    requires forall id :: id in ready ==> id !in jobs
    ensures FirstIn(ready, jobs', n)
  {
    forall i | 0 <= i < |ready| ensures ready[i] in ready[..n] <==> i < n {
      assert i < n ==> ready[..n][i] == ready[i];
    }
  }

  /** The ready jobs of one kind come in the order of the plan. */
  lemma {:induction false} ReadyIdsInPlanOrder(plan: seq<Job>, kind: Kind, jobs: Jobs, schedules: set<Id>, i: nat, j: nat)
    returns (a: nat, b: nat)
    requires i < j < |ReadyIds(plan, kind, jobs, schedules)|
    ensures a < b < |plan| && plan[a].kind == plan[b].kind == kind
    ensures plan[a].id == ReadyIds(plan, kind, jobs, schedules)[i] && plan[b].id == ReadyIds(plan, kind, jobs, schedules)[j]
    decreases |plan|
  {
    var first := |ReadyIds(plan, kind, jobs, schedules)| - |ReadyIds(plan[1..], kind, jobs, schedules)|;
    if first <= i {
      a, b := ReadyIdsInPlanOrder(plan[1..], kind, jobs, schedules, i - first, j - first);
      a, b := a + 1, b + 1;
    } else {
      a := 0;
      b := ReadyIdAt(plan[1..], kind, jobs, schedules, j - first);
      b := b + 1;
    }
  }

  lemma ReadyIdAt(plan: seq<Job>, kind: Kind, jobs: Jobs, schedules: set<Id>, i: nat) returns (a: nat)
    requires i < |ReadyIds(plan, kind, jobs, schedules)|
    ensures a < |plan| && plan[a].kind == kind && plan[a].id == ReadyIds(plan, kind, jobs, schedules)[i]
  {
    var id := ReadyIds(plan, kind, jobs, schedules)[i];
    ReadyIdsAreReady(plan, kind, jobs, schedules, id);
    a :| 0 <= a < |plan| && plan[a].id == id && plan[a].kind == kind;
  }

  /** All ready jobs: wave after wave, and in each wave in the order of the plan. */
  function ByPriority(plan: seq<Job>, kinds: seq<Kind>, jobs: Jobs, schedules: set<Id>): seq<Id> {
    if kinds == [] then [] else ReadyIds(plan, kinds[0], jobs, schedules) + ByPriority(plan, kinds[1..], jobs, schedules)
  }

  /** `jobs'` adds only jobs of the plan that are of this kind. */
  ghost predicate OnlyKind(plan: seq<Job>, kind: Kind, jobs: Jobs, jobs': Jobs) {
    forall id :: id in jobs' && id !in jobs ==> exists k :: 0 <= k < |plan| && plan[k].id == id && plan[k].kind == kind
  }

  /** Recording jobs of one kind leaves the waves of other kinds alone. */
  lemma {:induction false} OtherWavesKeep(plan: seq<Job>, kind: Kind, kinds: seq<Kind>, jobs: Jobs, jobs': Jobs, schedules: set<Id>)
    requires (forall i, j :: 0 <= i < j < |plan| ==> plan[i].id != plan[j].id) && kind !in kinds
    requires Adds(jobs, jobs') && OnlyKind(plan, kind, jobs, jobs')
    ensures ByPriority(plan, kinds, jobs', schedules) == ByPriority(plan, kinds, jobs, schedules)
    decreases |kinds|
  {
    if kinds != [] {
      var ids := ReadyIds(plan, kinds[0], jobs, schedules);
      forall i | 0 <= i < |ids| ensures ids[i] !in jobs' {
        ReadyIdsAreReady(plan, kinds[0], jobs, schedules, ids[i]);
      }
      ReadyIdsDrop(plan, kinds[0], jobs, jobs', schedules, 0);
      OtherWavesKeep(plan, kind, kinds[1..], jobs, jobs', schedules);
    }
  }

  /** The place of a kind in the order of the waves. */
  function Rank(kind: Kind): nat {
    match kind
    case Gate => 0
    case Capability => 1
    case Core => 2
    case Memory => 3
    case Ab => 4
    case Deep => 5
  }

  /** Every id of a list of waves belongs to a job of one of these kinds. */
  lemma {:induction false} PriorityKind(plan: seq<Job>, kinds: seq<Kind>, jobs: Jobs, schedules: set<Id>, i: nat) returns (a: nat)
    requires i < |ByPriority(plan, kinds, jobs, schedules)|
    ensures a < |plan| && plan[a].id == ByPriority(plan, kinds, jobs, schedules)[i] && plan[a].kind in kinds
    decreases |kinds|
  {
    var ids := ReadyIds(plan, kinds[0], jobs, schedules);
    if i < |ids| {
      a := ReadyIdAt(plan, kinds[0], jobs, schedules, i);
    } else {
      a := PriorityKind(plan, kinds[1..], jobs, schedules, i - |ids|);
    }
  }

  ghost predicate Ranked(kinds: seq<Kind>) {
    forall i, j :: 0 <= i < j < |kinds| ==> Rank(kinds[i]) < Rank(kinds[j])
  }

  /** Of two ready jobs the one of the earlier kind comes first, and of two of the same kind the
      one that is earlier in the plan. */
  lemma {:induction false} PriorityOrder(plan: seq<Job>, kinds: seq<Kind>, jobs: Jobs, schedules: set<Id>, i: nat, j: nat)
    returns (a: nat, b: nat)
    requires Ranked(kinds) && i < j < |ByPriority(plan, kinds, jobs, schedules)|
    ensures a < |plan| && plan[a].id == ByPriority(plan, kinds, jobs, schedules)[i]
    ensures b < |plan| && plan[b].id == ByPriority(plan, kinds, jobs, schedules)[j]
    ensures Rank(plan[a].kind) < Rank(plan[b].kind) || (plan[a].kind == plan[b].kind && a < b)
    decreases |kinds|
  {
    var ids := ReadyIds(plan, kinds[0], jobs, schedules);
    if j < |ids| {
      a, b := ReadyIdsInPlanOrder(plan, kinds[0], jobs, schedules, i, j);
    } else if i < |ids| {
      a := ReadyIdAt(plan, kinds[0], jobs, schedules, i);
      b := PriorityKind(plan, kinds[1..], jobs, schedules, j - |ids|);
    } else {
      a, b := PriorityOrder(plan, kinds[1..], jobs, schedules, i - |ids|, j - |ids|);
    }
  }

  lemma {:induction false} PriorityHasAll(plan: seq<Job>, kinds: seq<Kind>, jobs: Jobs, schedules: set<Id>, k: nat)
    requires k < |plan| && plan[k].id !in jobs && Eligible(plan[k], jobs, schedules).Ready? && plan[k].kind in kinds
    ensures plan[k].id in ByPriority(plan, kinds, jobs, schedules)
    decreases |kinds|
  {
    if plan[k].kind == kinds[0] {
      ReadyIdsAreReady(plan, kinds[0], jobs, schedules, plan[k].id);
    } else {
      PriorityHasAll(plan, kinds[1..], jobs, schedules, k);
    }
  }

  /** The waves are in the order of the kinds, and there is one for each. */
  lemma KindsAreRanked()
    ensures Ranked(KINDS) && forall kind: Kind :: kind in KINDS
  {
    forall kind: Kind ensures kind in KINDS {
      assert KINDS[Rank(kind)] == kind;
    }
  }

  /** A job is submitted only after every ready job of an earlier kind, and after every ready job
      of its own kind that is earlier in the plan. */
  lemma NoneEarlierLeft(plan: seq<Job>, jobs: Jobs, schedules: set<Id>, done: seq<Id>, j: nat, b: nat, k: nat)
    requires Ordered(plan) && done <= ByPriority(plan, KINDS, jobs, schedules) && j < |done|
    requires b < |plan| && plan[b].id == done[j]
    requires k < |plan| && plan[k].id !in jobs && Eligible(plan[k], jobs, schedules).Ready?
    requires Rank(plan[k].kind) < Rank(plan[b].kind) || (plan[k].kind == plan[b].kind && k < b)
    ensures plan[k].id in done[..j]
  {
    KindsAreRanked();
    PriorityHasAll(plan, KINDS, jobs, schedules, k);
    var all := ByPriority(plan, KINDS, jobs, schedules);
    var i :| 0 <= i < |all| && all[i] == plan[k].id;
    if j < i {
      var x, y := PriorityOrder(plan, KINDS, jobs, schedules, j, i);
    }
    assert done[..j][i] == plan[k].id;
  }

  /** `jobs'` records some more jobs as submitted. */
  predicate Adds(jobs: Jobs, jobs': Jobs) {
    Extends(jobs, jobs') && forall id :: id in jobs' && id !in jobs ==> jobs'[id] == Pending
  }

  lemma WithAdds(store: Store, r: Request, slurm: nat)
    requires Proper(r.ids) && r.ids != [BUILD] && forall id :: id in r.ids ==> id !in store.jobs
    ensures Adds(Statuses(store.jobs), Statuses(With(store, r, slurm).jobs))
    ensures With(store, r, slurm).jobs.Keys == store.jobs.Keys + set id | id in r.ids
  {
  }

  /** Distinct ids, none of which is the build. */
  ghost predicate ProperPlan(plan: seq<Job>) {
    Ordered(plan) && forall k :: 0 <= k < |plan| ==> plan[k].id != BUILD
  }

  /** The ready jobs of a kind are distinct jobs of the plan that are not in the record. */
  lemma ReadyFacts(plan: seq<Job>, kind: Kind, jobs: Jobs, schedules: set<Id>, ready: seq<Id>)
    requires ProperPlan(plan) && ready == ReadyIds(plan, kind, jobs, schedules)
    ensures Distinct(ready) && BUILD !in ready
    ensures forall id :: id in ready ==> id !in jobs && ReadyIn(plan, jobs, schedules, id)
  {
    ReadyIdsDistinct(plan, kind, jobs, schedules);
    forall id | id in ready ensures id != BUILD && id !in jobs && ReadyIn(plan, jobs, schedules, id) {
      ReadyIdsAreReady(plan, kind, jobs, schedules, id);
    }
  }

  /** What recording the first `n` ready jobs of a kind leaves. */
  lemma ReadyRecorded(plan: seq<Job>, kind: Kind, schedules: set<Id>, store: Store, r: Request, slurm: nat, ready: seq<Id>, n: nat)
    requires ProperPlan(plan) && ready == ReadyIds(plan, kind, Statuses(store.jobs), schedules)
    requires 0 < n <= |ready| && r.ids == ready[..n]
    ensures var jobs, jobs' := Statuses(store.jobs), Statuses(With(store, r, slurm).jobs);
            && Adds(jobs, jobs') && OnlyReady(plan, jobs, jobs', schedules) && ready[0] in jobs'
            && jobs'.Keys == jobs.Keys + Ids(ready[..n]) && ReadyIds(plan, kind, jobs', schedules) == ready[n..]
  {
    var jobs, jobs' := Statuses(store.jobs), Statuses(With(store, r, slurm).jobs);
    ReadyFacts(plan, kind, jobs, schedules, ready);
    PrefixOf(ready, n);
    WithAdds(store, r, slurm);
    ReadyLeft(plan, kind, schedules, jobs, jobs', ready, n);
  }

  lemma PrefixOf(ids: seq<Id>, n: nat)
    requires n <= |ids| && Distinct(ids) && BUILD !in ids
    ensures Distinct(ids[..n]) && BUILD !in ids[..n] && forall id :: id in ids[..n] ==> id in ids
    ensures n > 0 ==> ids[0] in ids[..n]
  {
    assert n > 0 ==> ids[..n][0] == ids[0];
  }

  lemma ReadyLeft(plan: seq<Job>, kind: Kind, schedules: set<Id>, jobs: Jobs, jobs': Jobs, ready: seq<Id>, n: nat)
    requires ready == ReadyIds(plan, kind, jobs, schedules) && Distinct(ready) && 0 < n <= |ready|
    requires forall id :: id in ready ==> id !in jobs && ReadyIn(plan, jobs, schedules, id)
    requires Adds(jobs, jobs') && jobs'.Keys == jobs.Keys + Ids(ready[..n])
    ensures OnlyReady(plan, jobs, jobs', schedules) && ReadyIds(plan, kind, jobs', schedules) == ready[n..]
  {
    FirstRecorded(jobs, jobs', ready, n);
    ReadyIdsDrop(plan, kind, jobs, jobs', schedules, n);
    forall id | id in jobs' && id !in jobs ensures ReadyIn(plan, jobs, schedules, id) {
      assert id in ready[..n];
    }
  }

  /** Some job of the plan with this id is eligible. */
  ghost predicate ReadyIn(plan: seq<Job>, jobs: Jobs, schedules: set<Id>, id: Id) {
    exists k :: 0 <= k < |plan| && plan[k].id == id && Eligible(plan[k], jobs, schedules).Ready?
  }

  /** Whatever `jobs'` records in addition was ready according to `jobs`. */
  ghost predicate OnlyReady(plan: seq<Job>, jobs: Jobs, jobs': Jobs, schedules: set<Id>) {
    forall id :: id in jobs' && id !in jobs ==> ReadyIn(plan, jobs, schedules, id)
  }

  lemma OnlyReadyTwice(plan: seq<Job>, jobs: Jobs, mid: Jobs, jobs': Jobs, schedules: set<Id>)
    requires Adds(jobs, mid) && Adds(mid, jobs')
    requires OnlyReady(plan, jobs, mid, schedules) && OnlyReady(plan, mid, jobs', schedules)
    ensures Adds(jobs, jobs') && OnlyReady(plan, jobs, jobs', schedules)
  {
    forall id | id in jobs' && id !in jobs ensures ReadyIn(plan, jobs, schedules, id) {
      if id !in mid {
        assert ReadyIn(plan, mid, schedules, id);
        var k :| 0 <= k < |plan| && plan[k].id == id && Eligible(plan[k], mid, schedules).Ready?;
        SubmittingChangesNoVerdict(plan[k], jobs, mid, schedules);
      }
    }
  }

  /** A kind with nothing left to submit has nothing left after other submissions either. */
  lemma StillNone(plan: seq<Job>, kind: Kind, jobs: Jobs, jobs': Jobs, schedules: set<Id>)
    requires Adds(jobs, jobs') && ReadyIds(plan, kind, jobs, schedules) == []
    ensures ReadyIds(plan, kind, jobs', schedules) == []
  {
    var ids := ReadyIds(plan, kind, jobs', schedules);
    if ids != [] {
      ReadyIdsAreReady(plan, kind, jobs', schedules, ids[0]);
      ReadyIdsAreReady(plan, kind, jobs, schedules, ids[0]);
      var k :| 0 <= k < |plan| && plan[k].id == ids[0] && plan[k].kind == kind && ids[0] !in jobs'
               && Eligible(plan[k], jobs', schedules).Ready?;
      SubmittingChangesNoVerdict(plan[k], jobs, jobs', schedules);
      assert false;
    }
  }

  /** The jobs of the plan that are not in the record. */
  function Open(plan: seq<Job>, jobs: Jobs): set<nat> {
    set k: nat | k < |plan| && plan[k].id !in jobs
  }


  /** No job is live, as the controller computes it. */
  predicate Quiet(jobs: Jobs)
    ensures Quiet(jobs) <==> NothingLive(jobs)
  {
    forall id <- jobs.Keys :: jobs[id].Terminal()
  }

  /** `jobs'` adds no job that is not in the plan. */
  ghost predicate OnlyPlanned(plan: seq<Job>, jobs: Jobs, jobs': Jobs) {
    forall id :: id in jobs' && id !in jobs ==> exists k :: 0 <= k < |plan| && plan[k].id == id
  }

  lemma NoneOpen(plan: seq<Job>, jobs: Jobs)
    requires Open(plan, jobs) == {}
    ensures forall k :: 0 <= k < |plan| ==> plan[k].id in jobs
  {
    assert forall k: nat :: k < |plan| && plan[k].id !in jobs ==> k in Open(plan, jobs);
  }

  /** `known` holds the jobs of the plan and those in the record. */
  ghost predicate Knows(plan: seq<Job>, jobs: Jobs, known: set<Id>) {
    jobs.Keys <= known && forall k :: 0 <= k < |plan| ==> plan[k].id in known
  }

  ghost function AllKnown(plan: seq<Job>, jobs: Jobs): (known: set<Id>)
    ensures Knows(plan, jobs, known)
  {
    jobs.Keys + set k | 0 <= k < |plan| :: plan[k].id
  }

  /** A turn keeps to the jobs that are known, and opens none. */
  lemma ComesDown(plan: seq<Job>, jobs: Jobs, jobs': Jobs, known: set<Id>)
    requires jobs.Keys <= jobs'.Keys && OnlyPlanned(plan, jobs, jobs') && Knows(plan, jobs, known)
    ensures Open(plan, jobs') <= Open(plan, jobs) && Knows(plan, jobs', known)
  {
  }

  /** With no job of the plan left open, a turn records nothing. */
  lemma NothingToRecord(plan: seq<Job>, jobs: Jobs, jobs': Jobs)
    requires Extends(jobs, jobs') && OnlyPlanned(plan, jobs, jobs') && Open(plan, jobs) == {}
    ensures jobs' == jobs
  {
    NoneOpen(plan, jobs);
    assert forall id :: id in jobs' ==> id in jobs;
  }

  lemma OpenShrinks(plan: seq<Job>, jobs: Jobs, jobs': Jobs, id: Id)
    requires Extends(jobs, jobs') && id in jobs' && id !in jobs && exists k :: 0 <= k < |plan| && plan[k].id == id
    ensures Open(plan, jobs') < Open(plan, jobs)
  {
    var k: nat :| k < |plan| && plan[k].id == id;
    assert k in Open(plan, jobs) && k !in Open(plan, jobs');
  }

  /** The priority waves, in order. */
  const KINDS: seq<Kind> := [Gate, Capability, Core, Memory, Ab, Deep]

  /** No job of the first `n` waves is ready. */
  ghost predicate NoneLeft(plan: seq<Job>, kinds: seq<Kind>, n: nat, jobs: Jobs, schedules: set<Id>) {
    forall j :: 0 <= j < n && j < |kinds| ==> ReadyIds(plan, kinds[j], jobs, schedules) == []
  }

  lemma StillNoneLeft(plan: seq<Job>, kinds: seq<Kind>, n: nat, jobs: Jobs, jobs': Jobs, schedules: set<Id>)
    requires Adds(jobs, jobs') && NoneLeft(plan, kinds, n, jobs, schedules)
    requires n < |kinds| && ReadyIds(plan, kinds[n], jobs', schedules) == []
    ensures NoneLeft(plan, kinds, n + 1, jobs', schedules)
  {
    forall j | 0 <= j < n ensures ReadyIds(plan, kinds[j], jobs', schedules) == [] {
      StillNone(plan, kinds[j], jobs, jobs', schedules);
    }
  }

  lemma NoneReady(plan: seq<Job>, jobs: Jobs, schedules: set<Id>, k: nat)
    requires NoneLeft(plan, KINDS, |KINDS|, jobs, schedules)
    requires k < |plan| && plan[k].id !in jobs
    ensures !Eligible(plan[k], jobs, schedules).Ready?
  {
    var kind := plan[k].kind;
    var j := match kind case Gate => 0 case Capability => 1 case Core => 2 case Memory => 3 case Ab => 4 case Deep => 5;
    assert KINDS[j] == kind;
    ReadyIdsAreReady(plan, kind, jobs, schedules, plan[k].id);
  }

  /** The jobs that a turn leaves open all wait for a job that is live. */
  lemma LeftoversWait(plan: seq<Job>, mid: Jobs, jobs: Jobs, schedules: set<Id>, late: set<Id>, k: nat)
    requires Adds(mid, jobs) && k < |plan| && plan[k].id !in jobs
    requires Decision(plan[k], mid, schedules, true, false, late) == None
    requires !Eligible(plan[k], jobs, schedules).Ready?
    ensures Eligible(plan[k], jobs, schedules).Wait?
  {
    SubmittingChangesNoVerdict(plan[k], mid, jobs, schedules);
  }

  /** If nothing was live, a turn that leaves only waiting jobs has recorded one more. */
  lemma TurnMoves(plan: seq<Job>, before: Jobs, jobs: Jobs, schedules: set<Id>, left: nat)
    requires Ordered(plan) && NothingLive(before) && left < |plan| && plan[left].id !in before && Extends(before, jobs)
    requires forall k :: 0 <= k < |plan| ==> plan[k].id in jobs || Eligible(plan[k], jobs, schedules).Wait?
    ensures Open(plan, jobs) < Open(plan, before)
  {
    var k := SomeJobMoves(plan, before, schedules, left);
    VerdictIsFinal(plan[k], plan[k].needs, before, jobs, schedules, schedules);
    OpenShrinks(plan, before, jobs, plan[k].id);
  }

  /** A turn records only jobs of the plan. */
  lemma TurnPlanned(plan: seq<Job>, before: Jobs, swept: Jobs, jobs: Jobs, schedules: set<Id>, late: set<Id>)
    requires Swept(plan, before, swept, schedules, true, false, late, |plan|)
    requires Adds(swept, jobs) && OnlyReady(plan, swept, jobs, schedules)
    ensures OnlyPlanned(plan, before, jobs) && Extends(before, jobs)
  {
    forall id | id in jobs && id !in before ensures exists k :: 0 <= k < |plan| && plan[k].id == id {
      assert id !in swept ==> ReadyIn(plan, swept, schedules, id);
    }
  }

  /** A turn that was not stopped leaves only waiting jobs open. */
  lemma TurnSettles(plan: seq<Job>, before: Jobs, swept: Jobs, jobs: Jobs, schedules: set<Id>, late: set<Id>)
    requires Ordered(plan) && Swept(plan, before, swept, schedules, true, false, late, |plan|)
    requires Adds(swept, jobs) && NoneLeft(plan, KINDS, |KINDS|, jobs, schedules)
    ensures forall k :: 0 <= k < |plan| ==> plan[k].id in jobs || Eligible(plan[k], jobs, schedules).Wait?
    ensures NothingLive(before) && Open(plan, before) != {} ==> Open(plan, jobs) < Open(plan, before)
  {
    forall k | 0 <= k < |plan| && plan[k].id !in jobs ensures Eligible(plan[k], jobs, schedules).Wait? {
      NoneReady(plan, jobs, schedules, k);
      LeftoversWait(plan, swept, jobs, schedules, late, k);
    }
    if NothingLive(before) && Open(plan, before) != {} {
      var left: nat :| left in Open(plan, before);
      TurnMoves(plan, before, jobs, schedules, left);
    }
  }

  // ---------- what accounting says ----------

  /** The scheduler's states as `reconcile` tells them apart; `Ended` is any terminal one but
      COMPLETED, `Odd` any that it does not know. */
  datatype Phase = Queued | Active | Done | Ended | Odd

  datatype Account = Account(phase: Phase, clean: bool)

  type Accounts = map<(nat, nat), Account>

  /** The status of a submitted job; a missing account is never taken for an end. */
  function Observed(id: Id, slurm: (nat, nat), accounts: Accounts, artifacts: set<Id>): Status {
    if slurm !in accounts then Unknown
    else
      var a := accounts[slurm];
      match a.phase
      case Done => if a.clean && id in artifacts then Completed else Failed
      case Ended => Failed
      case Active => Running
      case Queued => Pending
      case Odd => Unknown
  }

  predicate Over(accounts: Accounts, slurm: (nat, nat)) {
    slurm in accounts && (accounts[slurm].phase.Done? || accounts[slurm].phase.Ended?)
  }

  /** What a status says about the account of its job. */
  predicate Shows(id: Id, status: Status, slurm: (nat, nat), accounts: Accounts, artifacts: set<Id>) {
    var good := slurm in accounts && accounts[slurm] == Account(Done, true) && id in artifacts;
    && (status == Completed <==> good)
    && (status == Failed <==> slurm in accounts && (accounts[slurm].phase == Done || accounts[slurm].phase == Ended) && !good)
    && (status == Running <==> slurm in accounts && accounts[slurm].phase == Active)
    && (status == Pending <==> slurm in accounts && accounts[slurm].phase == Queued)
    && (status == Unknown <==> slurm !in accounts || accounts[slurm].phase == Odd)
  }

  function Reconciled(id: Id, e: Entry, accounts: Accounts, artifacts: set<Id>): Entry {
    if e.slurm.None? then e else e.(status := Observed(id, e.slurm.value, accounts, artifacts))
  }

  lemma ReconciledShows(jobs: map<Id, Entry>, jobs': map<Id, Entry>, accounts: Accounts, artifacts: set<Id>)
    requires jobs'.Keys == jobs.Keys
    requires forall id :: id in jobs ==> jobs'[id] == Reconciled(id, jobs[id], accounts, artifacts)
    ensures forall id :: id in jobs && jobs[id].slurm.Some? ==>
              jobs'[id].slurm == jobs[id].slurm && Shows(id, jobs'[id].status, jobs[id].slurm.value, accounts, artifacts)
  {
  }

  /** A job that was over keeps its status at the next reconciliation exactly when accounting
      still shows it over, and with the same outcome: a vanished account reopens it. */
  lemma StatusSurvives(id: Id, slurm: (nat, nat), accounts: Accounts, accounts': Accounts, artifacts: set<Id>, artifacts': set<Id>)
    requires Over(accounts, slurm)
    ensures Observed(id, slurm, accounts', artifacts') == Observed(id, slurm, accounts, artifacts) <==>
            && Over(accounts', slurm)
            && ((accounts'[slurm] == Account(Done, true) && id in artifacts')
                <==> (accounts[slurm] == Account(Done, true) && id in artifacts))
  {
  }

  /** Accounting that forgets no end, and results that do not change after it. */
  ghost predicate Steady(jobs: map<Id, Entry>, accounts: Accounts, accounts': Accounts, artifacts: set<Id>, artifacts': set<Id>) {
    forall id :: id in jobs && jobs[id].slurm.Some? && Over(accounts, jobs[id].slurm.value) ==>
      && jobs[id].slurm.value in accounts' && accounts'[jobs[id].slurm.value] == accounts[jobs[id].slurm.value]
      && (id in artifacts <==> id in artifacts')
  }

  /** Under such accounting reconciliation never reopens a decided job, so verdicts are final. */
  lemma ReconcilingIsStable(jobs: map<Id, Entry>, jobs': map<Id, Entry>, accounts: Accounts, accounts': Accounts,
                            artifacts: set<Id>, artifacts': set<Id>, schedules: set<Id>)
    requires Steady(jobs, accounts, accounts', artifacts, artifacts') && jobs'.Keys == jobs.Keys
    requires forall id :: id in jobs ==> jobs[id] == Reconciled(id, jobs[id], accounts, artifacts)
    requires forall id :: id in jobs ==> jobs'[id] == Reconciled(id, jobs[id], accounts', artifacts')
    ensures Later(Statuses(jobs), Statuses(jobs'), schedules, schedules)
  {
    forall id | Decided(Statuses(jobs), id) ensures id in jobs' && jobs'[id].status == jobs[id].status {
      if jobs[id].slurm.Some? {
        assert jobs[id] == Reconciled(id, jobs[id], accounts, artifacts);
        StatusSurvives(id, jobs[id].slurm.value, accounts, accounts', artifacts, artifacts');
      }
    }
  }

  /** What accounting answers in each round to the records it is asked for. */
  type Answering = (nat, map<Id, Entry>) -> Accounts

  /** Every submitted job ends: from round `ends(id)` on, accounting shows `id` over. */
  ghost predicate AllEnd(accounting: Answering, ends: Id -> nat) {
    forall n: nat, jobs: map<Id, Entry>, id :: ends(id) <= n && id in jobs && jobs[id].slurm.Some? ==>
      Over(accounting(n, jobs), jobs[id].slurm.value)
  }

  /** A round by which all of these jobs have ended. */
  lemma {:induction false} LastEnd(ids: set<Id>, ends: Id -> nat) returns (last: nat)
    ensures forall id :: id in ids ==> ends(id) <= last
    decreases |ids|
  {
    if ids == {} {
      last := 0;
    } else {
      var id :| id in ids;
      last := LastEnd(ids - {id}, ends);
      last := if last < ends(id) then ends(id) else last;
      assert forall j :: j in ids ==> j == id || j in ids - {id};
    }
  }

  /** Once every submitted job is over, reconciliation leaves nothing live. */
  lemma ReconcilingSettles(w: World, jobs: map<Id, Entry>, accounts: Accounts, artifacts: set<Id>)
    requires True(w, w.memory) && jobs.Keys == w.memory.jobs.Keys
    requires forall id :: id in jobs ==> jobs[id] == Reconciled(id, w.memory.jobs[id], accounts, artifacts)
    requires forall id :: id in jobs && w.memory.jobs[id].slurm.Some? ==> Over(accounts, w.memory.jobs[id].slurm.value)
    ensures NothingLive(Statuses(jobs))
  {
    forall id | id in jobs ensures jobs[id].status.Terminal() {
      assert RecordOk(w, id, w.memory.jobs[id]);
    }
  }

  ghost predicate WavingFacts(plan: seq<Job>, kind: Kind, schedules: set<Id>, start: Jobs, jobs: Jobs, from: nat, log: seq<Request>) {
    && from <= |log| && Adds(start, jobs) && OnlyReady(plan, start, jobs, schedules)
    && jobs.Keys == start.Keys + Ids(Submitted(log, from))
    && Submitted(log, from) + ReadyIds(plan, kind, jobs, schedules) == ReadyIds(plan, kind, start, schedules)
  }

  /** Within a wave: what has been submitted, and what is still ready, make up what was ready. */
  ghost predicate Waving(plan: seq<Job>, kind: Kind, schedules: set<Id>, start: Jobs, jobs: Jobs, from: nat, log: seq<Request>) {
    WavingFacts(plan, kind, schedules, start, jobs, from, log) == true
  }

  lemma WavePrefix(plan: seq<Job>, kind: Kind, schedules: set<Id>, start: Jobs, jobs: Jobs, from: nat,
                   log: seq<Request>, log': seq<Request>)
    requires Waving(plan, kind, schedules, start, jobs, from, log) && log <= log'
    requires Submitted(log', |log|) <= ReadyIds(plan, kind, jobs, schedules)
    ensures Submitted(log', from) <= ReadyIds(plan, kind, start, schedules)
  {
    Advance(log, log', from, ReadyIds(plan, kind, jobs, schedules), ReadyIds(plan, kind, start, schedules));
  }

  lemma WaveOn(plan: seq<Job>, kind: Kind, schedules: set<Id>, start: Jobs, before: Jobs, jobs: Jobs, from: nat,
               log: seq<Request>, log': seq<Request>, n: nat)
    requires Waving(plan, kind, schedules, start, before, from, log) && log <= log'
    requires Adds(before, jobs) && OnlyReady(plan, before, jobs, schedules)
    requires var ready := ReadyIds(plan, kind, before, schedules);
             && n <= |ready| && Submitted(log', |log|) == ready[..n] && jobs.Keys == before.Keys + Ids(ready[..n])
             && ReadyIds(plan, kind, jobs, schedules) == ready[n..]
    ensures Waving(plan, kind, schedules, start, jobs, from, log')
  {
    OnlyReadyTwice(plan, start, before, jobs, schedules);
    Advance(log, log', from, ReadyIds(plan, kind, before, schedules), ReadyIds(plan, kind, start, schedules));
  }

  /** Before wave `i`: what has been submitted, and what the waves from `i` on would submit, make
      up all that was ready. */
  ghost predicate AtWave(plan: seq<Job>, kinds: seq<Kind>, i: nat, schedules: set<Id>, jobs: Jobs,
                         from: nat, log: seq<Request>, all: seq<Id>) {
    i <= |kinds| && from <= |log| && Submitted(log, from) + ByPriority(plan, kinds[i..], jobs, schedules) == all
  }

  lemma FirstWave(plan: seq<Job>, kinds: seq<Kind>, schedules: set<Id>, jobs: Jobs, log: seq<Request>)
    ensures AtWave(plan, kinds, 0, schedules, jobs, |log|, log, ByPriority(plan, kinds, jobs, schedules))
  {
    assert kinds[0..] == kinds;
  }

  lemma LastWave(plan: seq<Job>, kinds: seq<Kind>, schedules: set<Id>, jobs: Jobs, from: nat, log: seq<Request>, all: seq<Id>)
    requires AtWave(plan, kinds, |kinds|, schedules, jobs, from, log, all)
    ensures Submitted(log, from) == all
  {
  }

  /** A wave submits a prefix of what is left of all waves. */
  lemma WaveAdvances(plan: seq<Job>, kinds: seq<Kind>, i: nat, jobs: Jobs, schedules: set<Id>,
                     log: seq<Request>, log': seq<Request>, from: nat, all: seq<Id>)
    requires i < |kinds| && log <= log' && AtWave(plan, kinds, i, schedules, jobs, from, log, all)
    requires Submitted(log', |log|) <= ReadyIds(plan, kinds[i], jobs, schedules)
    ensures Submitted(log', from) <= all
    ensures Submitted(log', |log|) == ReadyIds(plan, kinds[i], jobs, schedules) ==>
              AtWave(plan, kinds, i + 1, schedules, jobs, from, log', all)
  {
    var rest := ByPriority(plan, kinds[i..], jobs, schedules);
    assert kinds[i..][1..] == kinds[i + 1..];
    assert rest == ReadyIds(plan, kinds[i], jobs, schedules) + ByPriority(plan, kinds[i + 1..], jobs, schedules);
    Advance(log, log', from, rest, all);
  }

  /** What a completed wave recorded leaves the later waves alone. */
  lemma NextWave(plan: seq<Job>, kinds: seq<Kind>, i: nat, jobs: Jobs, jobs': Jobs, schedules: set<Id>, ids: seq<Id>,
                 from: nat, log: seq<Request>, all: seq<Id>)
    requires ProperPlan(plan) && Ranked(kinds) && i < |kinds| && Adds(jobs, jobs')
    requires jobs'.Keys == jobs.Keys + Ids(ids) && ids == ReadyIds(plan, kinds[i], jobs, schedules)
    requires AtWave(plan, kinds, i + 1, schedules, jobs, from, log, all)
    ensures AtWave(plan, kinds, i + 1, schedules, jobs', from, log, all)
  {
    forall id | id in jobs' && id !in jobs
      ensures exists k :: 0 <= k < |plan| && plan[k].id == id && plan[k].kind == kinds[i]
    {
      ReadyIdsAreReady(plan, kinds[i], jobs, schedules, id);
    }
    OtherWavesKeep(plan, kinds[i], kinds[i + 1..], jobs, jobs', schedules);
  }

  /** Accounting shows that the job ended well, and it left its artifact. */
  predicate ShownGood(id: Id, jobs: map<Id, Entry>, accounts: Accounts, artifacts: set<Id>) {
    && id in jobs && jobs[id].slurm.Some? && id in artifacts
    && jobs[id].slurm.value in accounts && accounts[jobs[id].slurm.value] == Account(Done, true)
  }

  ghost predicate NeedShown(need: Need, jobs: map<Id, Entry>, accounts: Accounts, artifacts: set<Id>) {
    match need
    case One(id) => ShownGood(id, jobs, accounts, artifacts)
    case AnyOf(ids) => exists i :: 0 <= i < |ids| && ShownGood(ids[i], jobs, accounts, artifacts)
  }

  /** If the job has been submitted, and cannot do without any of its needs, accounting showed
      each of them to have ended well. */
  ghost predicate Earned(job: Job, before: map<Id, Entry>, after: map<Id, Entry>, accounts: Accounts, artifacts: set<Id>) {
    Strict(job) && job.id in after && job.id !in before && after[job.id].status == Pending ==>
      forall j :: 0 <= j < |job.needs| ==> NeedShown(job.needs[j], before, accounts, artifacts)
  }

  /** Only accounting makes a job completed: neither the sweep nor a submission does. */
  lemma CompletedIsShown(plan: seq<Job>, schedules: set<Id>, late: set<Id>, w: World, reconciled: map<Id, Entry>,
                         swept: Jobs, accounts: Accounts, artifacts: set<Id>, id: Id)
    requires True(w, w.memory) && reconciled.Keys == w.memory.jobs.Keys
    requires forall id :: id in reconciled ==> reconciled[id] == Reconciled(id, w.memory.jobs[id], accounts, artifacts)
    requires Swept(plan, Statuses(reconciled), swept, schedules, true, false, late, |plan|)
    requires id in swept && swept[id] == Completed
    ensures ShownGood(id, w.memory.jobs, accounts, artifacts)
  {
    if id !in reconciled {
      SweptDecides(plan, Statuses(reconciled), swept, schedules, true, false, late, id);
    }
    assert RecordOk(w, id, w.memory.jobs[id]);
  }

  lemma SubmittedOnSuccess(plan: seq<Job>, schedules: set<Id>, late: set<Id>, w: World, reconciled: map<Id, Entry>,
                           after: map<Id, Entry>, swept: Jobs, accounts: Accounts, artifacts: set<Id>)
    requires Ordered(plan) && True(w, w.memory) && reconciled.Keys == w.memory.jobs.Keys
    requires forall id :: id in reconciled ==> reconciled[id] == Reconciled(id, w.memory.jobs[id], accounts, artifacts)
    requires Swept(plan, Statuses(reconciled), swept, schedules, true, false, late, |plan|)
    requires Adds(swept, Statuses(after)) && OnlyReady(plan, swept, Statuses(after), schedules)
    ensures forall k :: 0 <= k < |plan| ==> Earned(plan[k], w.memory.jobs, after, accounts, artifacts)
  {
    forall k, j | 0 <= k < |plan| && Strict(plan[k]) && plan[k].id in after && plan[k].id !in w.memory.jobs
                  && after[plan[k].id].status == Pending && 0 <= j < |plan[k].needs|
      ensures NeedShown(plan[k].needs[j], w.memory.jobs, accounts, artifacts)
    {
      NewIsReady(plan, schedules, late, Statuses(reconciled), swept, Statuses(after), k);
      ReadyNeedsSuccess(plan[k], swept, schedules, j);
      var need := plan[k].needs[j];
      match need
      case One(id) =>
        CompletedIsShown(plan, schedules, late, w, reconciled, swept, accounts, artifacts, id);
      case AnyOf(ids) =>
        var i :| 0 <= i < |ids| && ids[i] in swept && swept[ids[i]] == Completed;
        CompletedIsShown(plan, schedules, late, w, reconciled, swept, accounts, artifacts, ids[i]);
    }
  }

  /** A job that is new in the record and pending was ready after the sweep. */
  lemma NewIsReady(plan: seq<Job>, schedules: set<Id>, late: set<Id>, start: Jobs, swept: Jobs, jobs: Jobs, k: nat)
    requires Ordered(plan) && Swept(plan, start, swept, schedules, true, false, late, |plan|)
    requires Adds(swept, jobs) && OnlyReady(plan, swept, jobs, schedules)
    requires k < |plan| && plan[k].id in jobs && plan[k].id !in start && jobs[plan[k].id] == Pending
    ensures Eligible(plan[k], swept, schedules).Ready?
  {
    DecisionMeans(plan[k], swept, schedules, true, false, late);
    assert Lookup(swept, plan[k].id) == Decision(plan[k], swept, schedules, true, false, late);
    assert ReadyIn(plan, swept, schedules, plan[k].id);
  }

  class Controller {
    var world: World
    var calls: nat

    constructor (world: World)
      requires Inv(world)
      ensures this.world == world && calls == 0
    {
      this.world := world;
      calls := 0;
    }

    method Do(e: Event)
      requires Inv(world) && Enabled(world, e)
      modifies this`world
      ensures Inv(world) && world == Apply(old(world), e)
    {
      StepKeeps(world, e);
      world := Apply(world, e);
    }

    /** One submission: intent, call, and what the reply asks for. */
    method Attempt(ids: seq<Id>, reply: Reply) returns (taken: bool, raised: bool)
      requires Inv(world) && Enabled(world, Intend(ids))
      modifies this
      ensures Inv(world) && calls == old(calls) + 1 && world.clock == old(world.clock) + 1
      ensures taken == reply.Accepted? && raised == (reply.Error? || reply.Lost?)
      ensures raised ==> world.pc.Down? && world.intent == Some(Request(ids, old(world.clock))) && world.store == old(world.store)
      ensures world.log == old(world.log) + if reply.Accepted? || reply.Lost? then [Request(ids, old(world.clock))] else []
      ensures !raised ==> world.pc.Idle? && world.intent == None
      ensures taken ==>
                var r := Request(ids, old(world.clock));
                && world.log == old(world.log) + [r]
                && world.memory == With(old(world.memory), r, |old(world.log)|) && world.store == world.memory
      ensures reply.Quota? ==> world.memory == old(world.memory) && world.store == old(world.store) && world.log == old(world.log)
    {
      Do(Intend(ids));
      calls := calls + 1;
      taken, raised := false, false;
      match reply
      case Accepted =>
        Do(Accept(true));
        Do(Record);
        Do(Unlink);
        taken := true;
      case Quota =>
        Do(Refuse);
        Do(Unlink);
      case Error =>
        Do(Fail);
        raised := true;
      case Lost =>
        Do(Accept(false));
        raised := true;
    }

    /** `submit`: halves the batch until the scheduler takes it.  It records exactly a prefix of
        the ready jobs, or nothing. */
    method Submit(ids: seq<Id>, replies: nat -> Reply) returns (n: nat, raised: bool, ghost refused: nat)
      requires Inv(world) && world.pc.Idle? && Distinct(ids) && BUILD !in ids
      requires forall id :: id in ids ==> id !in world.memory.jobs
      modifies this
      ensures Inv(world) && (if raised then world.pc.Down? else world.pc.Idle?)
      ensures n <= |ids| && forall c :: old(calls) <= c < old(calls) + refused ==> replies(c) == Quota
      ensures !raised ==> n == Halved(Min(BATCH, |ids|), refused) && (n > 0 ==> replies(old(calls) + refused) == Accepted)
      ensures !raised && n > 0 ==>
                var r := Request(ids[..n], old(world.clock) + refused);
                && world.log == old(world.log) + [r]
                && world.memory == With(old(world.memory), r, |old(world.log)|) && world.store == world.memory
      ensures !raised && n == 0 ==>
                world.memory == old(world.memory) && world.store == old(world.store) && world.log == old(world.log)
      ensures raised ==>
                var size, reply := Halved(Min(BATCH, |ids|), refused), replies(old(calls) + refused);
                && 0 < size <= |ids| && (reply.Error? || reply.Lost?)
                && var r := Request(ids[..size], old(world.clock) + refused);
                && world.intent == Some(r) && world.store == old(world.store)
                && world.log == old(world.log) + if reply.Lost? then [r] else []
      ensures Willing(replies) ==> !raised && (ids != [] ==> n > 0)
    {
      var size: nat := Min(BATCH, |ids|);
      n, raised, refused := 0, false, 0;
      while size > 0
        invariant Inv(world) && world.pc.Idle? && size <= |ids| && !raised && n == 0
        invariant calls == old(calls) + refused && world.clock == old(world.clock) + refused
        invariant size == Halved(Min(BATCH, |ids|), refused) && (Willing(replies) ==> refused == 0)
        invariant forall c :: old(calls) <= c < calls ==> replies(c) == Quota
        invariant world.memory == old(world.memory) && world.store == old(world.store) && world.log == old(world.log)
        decreases size
      {
        HalvedStep(Min(BATCH, |ids|), refused);
        var taken;
        taken, raised := Attempt(ids[..size], replies(calls));
        if raised {
          return;
        }
        if taken {
          n := size;
          return;
        }
        size, refused := size / 2, refused + 1;
      }
    }

    /** `recover_intent` after a restart: finishes a submission that accounting shows, and stops
        for an operator if an intent stays unresolved. */
    method Restart(found: seq<nat>) returns (raised: bool)
      requires Inv(world) && world.pc.Down? && (world.intent.Some? ==> Reported(world, world.intent.value.token, found))
      modifies this`world
      ensures Inv(world) && world.log == old(world.log)
      ensures raised <==> old(world.intent).Some? && forall s :: 0 <= s < |world.log| && world.log[s] == old(world.intent).value ==> found != [s]
      ensures if raised then world.pc.Down? && world.intent == old(world.intent) && world.store == old(world.store)
              else world.pc.Idle? && forall i, id :: 0 <= i < |world.log| && id in world.log[i].ids ==> Known(world.store, id)
    {
      Do(Boot);
      RestartsExactly(world, found);
      Do(Recover(found));
      raised := world.pc.Down?;
      if world.pc.Answered? {
        Do(Record);
        Do(Unlink);
      }
      assert Covered(world);
    }

    /** The build, submitted before the deadline unless the record already has it. */
    method Build(late: bool, reply: Reply) returns (raised: bool)
      requires Inv(world) && world.pc.Idle?
      modifies this
      ensures Inv(world) && (if raised then world.pc.Down? else world.pc.Idle?)
      ensures late || old(world.memory.build).Some? ==> world == old(world) && !raised
      ensures !late && old(world.memory.build).None? ==>
                var r := Request([BUILD], old(world.clock));
                && raised == (reply.Error? || reply.Lost?)
                && world.log == old(world.log) + (if reply.Accepted? || reply.Lost? then [r] else [])
                && world.store == (if reply.Accepted? then old(world.memory).(build := Some(|old(world.log)|)) else old(world.store))
                && world.intent == if raised then Some(r) else None
    {
      raised := false;
      if !late && world.memory.build.None? {
        var _, r := Attempt([BUILD], reply);
        raised := r;
      }
    }

    ghost function Jobs(): Scheduling.Jobs
      reads this
    {
      Statuses(world.memory.jobs)
    }

    /** `reconcile`: gives every submitted job the status that accounting shows. */
    method Reconcile(accounts: Accounts, artifacts: set<Id>)
      requires Inv(world) && world.pc.Idle?
      modifies this`world
      ensures Inv(world) && world.pc.Idle? && world.store == old(world.store) && world.log == old(world.log)
      ensures world.memory.build == old(world.memory.build) && world.memory.jobs.Keys == old(world.memory.jobs.Keys)
      ensures forall id :: id in world.memory.jobs ==>
                world.memory.jobs[id] == Reconciled(id, old(world.memory.jobs)[id], accounts, artifacts)
      ensures forall id :: id in world.memory.jobs && old(world.memory.jobs)[id].slurm.Some? ==>
                && world.memory.jobs[id].slurm == old(world.memory.jobs)[id].slurm
                && Shows(id, world.memory.jobs[id].status, world.memory.jobs[id].slurm.value, accounts, artifacts)
    {
      var todo := world.memory.jobs.Keys;
      while todo != {}
        invariant Inv(world) && world.pc.Idle? && world.store == old(world.store) && world.log == old(world.log)
        invariant world.memory.build == old(world.memory.build) && world.memory.jobs.Keys == old(world.memory.jobs.Keys)
        invariant todo <= world.memory.jobs.Keys
        invariant forall id :: id in world.memory.jobs ==>
                    world.memory.jobs[id] == if id in todo then old(world.memory.jobs)[id]
                                             else Reconciled(id, old(world.memory.jobs)[id], accounts, artifacts)
      {
        var id :| id in todo;
        var e := world.memory.jobs[id];
        if e.slurm.Some? {
          Do(Observe(id, Observed(id, e.slurm.value, accounts, artifacts)));
        }
        todo := todo - {id};
      }
      ReconciledShows(old(world.memory.jobs), world.memory.jobs, accounts, artifacts);
    }

    /** What the sweep does about one job. */
    method DecideOne(job: Job, schedules: set<Id>, buildOk: bool, buildFailed: bool, late: set<Id>)
      requires Inv(world) && world.pc.Idle? && job.id != BUILD
      modifies this`world
      ensures Inv(world) && world.pc.Idle? && world.store == old(world.store) && world.log == old(world.log)
      ensures var d := Decision(job, old(Jobs()), schedules, buildOk, buildFailed, late);
              Jobs() == if job.id in old(Jobs()) || d.None? then old(Jobs()) else old(Jobs())[job.id := d.value]
    {
      if job.id !in world.memory.jobs {
        var d := Decision(job, Statuses(world.memory.jobs), schedules, buildOk, buildFailed, late);
        if d.Some? {
          Do(Decide(job.id, d.value));
        }
      }
    }

    /** The sweep over the plan.  It decides exactly the jobs for which a decision is due, and one
        pass is enough: with the record it leaves behind the decisions are still the same. */
    method Sweep(plan: seq<Job>, schedules: set<Id>, buildOk: bool, buildFailed: bool, late: set<Id>)
      requires ProperPlan(plan) && Inv(world) && world.pc.Idle?
      modifies this`world
      ensures Inv(world) && world.pc.Idle? && world.store == old(world.store) && world.log == old(world.log)
      ensures Swept(plan, old(Jobs()), Jobs(), schedules, buildOk, buildFailed, late, |plan|)
    {
      for i := 0 to |plan|
        invariant Inv(world) && world.pc.Idle? && world.store == old(world.store) && world.log == old(world.log)
        invariant Swept(plan, old(Jobs()), Jobs(), schedules, buildOk, buildFailed, late, i)
      {
        ghost var before := Jobs();
        DecideOne(plan[i], schedules, buildOk, buildFailed, late);
        SweptOn(plan, old(Jobs()), before, Jobs(), schedules, buildOk, buildFailed, late, i);
      }
    }

    /** Submits what it can of the ready jobs of one kind, in the order of the plan. */
    method SubmitReady(plan: seq<Job>, kind: Kind, schedules: set<Id>, ready: seq<Id>, replies: nat -> Reply)
      returns (n: nat, raised: bool)
      requires ProperPlan(plan) && Inv(world) && world.pc.Idle? && ready == ReadyIds(plan, kind, Jobs(), schedules)
      modifies this
      ensures Inv(world) && n <= |ready| && (!raised ==> world.pc.Idle? && Adds(old(Jobs()), Jobs()))
      ensures !raised ==> OnlyReady(plan, old(Jobs()), Jobs(), schedules)
      ensures !raised && n > 0 ==> ready[0] in Jobs()
      ensures Willing(replies) ==> !raised && (ready != [] ==> n > 0)
      ensures old(world.log) <= world.log && Submitted(world.log, |old(world.log)|) <= ready
      ensures !raised ==> Submitted(world.log, |old(world.log)|) == ready[..n] && Jobs().Keys == old(Jobs()).Keys + Ids(ready[..n])
      ensures !raised ==> ReadyIds(plan, kind, Jobs(), schedules) == ready[n..]
    {
      ghost var store, log := world.memory, world.log;
      ReadyFacts(plan, kind, Jobs(), schedules, ready);
      ghost var refused;
      n, raised, refused := Submit(ready, replies);
      SubmittedNext(log, world.log);
      if !raised && n > 0 {
        ReadyRecorded(plan, kind, schedules, store, world.log[|log|], |log|, ready, n);
      }
    }

    /** Submits the ready jobs of one kind, in the order of the plan, until none is left or the
        quota is full. */
    method Wave(plan: seq<Job>, kind: Kind, schedules: set<Id>, replies: nat -> Reply) returns (full: bool, raised: bool)
      requires ProperPlan(plan) && Inv(world) && world.pc.Idle?
      modifies this
      ensures Inv(world) && (!raised ==> world.pc.Idle? && Adds(old(Jobs()), Jobs()))
      ensures !raised ==> OnlyReady(plan, old(Jobs()), Jobs(), schedules)
      ensures !raised && !full ==> ReadyIds(plan, kind, Jobs(), schedules) == []
      ensures Willing(replies) ==> !raised && !full
      ensures old(world.log) <= world.log
      ensures Submitted(world.log, |old(world.log)|) <= ReadyIds(plan, kind, old(Jobs()), schedules)
      ensures !raised ==> Jobs().Keys == old(Jobs()).Keys + Ids(Submitted(world.log, |old(world.log)|))
      ensures !raised && !full ==> Submitted(world.log, |old(world.log)|) == ReadyIds(plan, kind, old(Jobs()), schedules)
    {
      full, raised := false, false;
      var ready := ReadyIds(plan, kind, Statuses(world.memory.jobs), schedules);
      while ready != []
        invariant Inv(world) && world.pc.Idle? && !raised && !full
        invariant old(world.log) <= world.log && ready == ReadyIds(plan, kind, Jobs(), schedules)
        invariant Waving(plan, kind, schedules, old(Jobs()), Jobs(), |old(world.log)|, world.log)
        decreases Open(plan, Jobs())
      {
        ghost var before, log := Jobs(), world.log;
        var n;
        n, raised := SubmitReady(plan, kind, schedules, ready, replies);
        WavePrefix(plan, kind, schedules, old(Jobs()), before, |old(world.log)|, log, world.log);
        if !raised {
          WaveOn(plan, kind, schedules, old(Jobs()), before, Jobs(), |old(world.log)|, log, world.log, n);
        }
        if raised || n == 0 {
          full := n == 0;
          return;
        }
        ReadyIdsAreReady(plan, kind, before, schedules, ready[0]);
        OpenShrinks(plan, before, Jobs(), ready[0]);
        ready := ReadyIds(plan, kind, Statuses(world.memory.jobs), schedules);
      }
    }

    /** All waves; unless the quota is full, no ready job is left behind. */
    method Waves(plan: seq<Job>, kinds: seq<Kind>, schedules: set<Id>, replies: nat -> Reply)
      returns (full: bool, raised: bool)
      requires ProperPlan(plan) && Ranked(kinds) && Inv(world) && world.pc.Idle?
      modifies this
      ensures Inv(world) && (!raised ==> world.pc.Idle? && Adds(old(Jobs()), Jobs()))
      ensures !raised ==> OnlyReady(plan, old(Jobs()), Jobs(), schedules)
      ensures !raised && !full ==> NoneLeft(plan, kinds, |kinds|, Jobs(), schedules)
      ensures Willing(replies) ==> !raised && !full
      ensures old(world.log) <= world.log
      ensures Submitted(world.log, |old(world.log)|) <= ByPriority(plan, kinds, old(Jobs()), schedules)
      ensures !raised && !full ==> Submitted(world.log, |old(world.log)|) == ByPriority(plan, kinds, old(Jobs()), schedules)
    {
      full, raised := false, false;
      ghost var all := ByPriority(plan, kinds, Jobs(), schedules);
      FirstWave(plan, kinds, schedules, Jobs(), world.log);
      for i := 0 to |kinds|
        invariant Inv(world) && world.pc.Idle? && Adds(old(Jobs()), Jobs())
        invariant OnlyReady(plan, old(Jobs()), Jobs(), schedules)
        invariant NoneLeft(plan, kinds, i, Jobs(), schedules) && !full && !raised
        invariant old(world.log) <= world.log
        invariant AtWave(plan, kinds, i, schedules, Jobs(), |old(world.log)|, world.log, all)
      {
        ghost var before, log := Jobs(), world.log;
        full, raised := Wave(plan, kinds[i], schedules, replies);
        WaveAdvances(plan, kinds, i, before, schedules, log, world.log, |old(world.log)|, all);
        if raised {
          return;
        }
        OnlyReadyTwice(plan, old(Jobs()), before, Jobs(), schedules);
        if full {
          return;
        }
        StillNoneLeft(plan, kinds, i, before, Jobs(), schedules);
        NextWave(plan, kinds, i, before, Jobs(), schedules, Submitted(world.log, |log|), |old(world.log)|, world.log, all);
      }
      LastWave(plan, kinds, schedules, Jobs(), |old(world.log)|, world.log, all);
    }

    /** One turn of the controller after a successful build: decisions, waves, and the state file.
        With the decisions made, it submits the ready jobs by priority until the quota is full.
        Unless it is, every job it leaves open waits, and if nothing was live and a job was open,
        it has recorded at least one more. */
    method Turn(plan: seq<Job>, schedules: set<Id>, late: set<Id>, replies: nat -> Reply)
      returns (full: bool, raised: bool, ghost swept: Scheduling.Jobs)
      requires ProperPlan(plan) && Inv(world) && world.pc.Idle?
      modifies this
      ensures Inv(world) && (!raised ==> world.pc.Idle? && world.store == world.memory && Extends(old(Jobs()), Jobs()))
      ensures Swept(plan, old(Jobs()), swept, schedules, true, false, late, |plan|)
      ensures old(world.log) <= world.log
      ensures Submitted(world.log, |old(world.log)|) <= ByPriority(plan, KINDS, swept, schedules)
      ensures !raised && !full ==> Submitted(world.log, |old(world.log)|) == ByPriority(plan, KINDS, swept, schedules)
      ensures !raised ==> Adds(swept, Jobs()) && OnlyReady(plan, swept, Jobs(), schedules)
      ensures !raised && !full ==>
                forall k :: 0 <= k < |plan| ==> plan[k].id in Jobs() || Eligible(plan[k], Jobs(), schedules).Wait?
      ensures !raised && !full && NothingLive(old(Jobs())) && Open(plan, old(Jobs())) != {} ==>
                Open(plan, Jobs()) < Open(plan, old(Jobs()))
      ensures !raised ==> OnlyPlanned(plan, old(Jobs()), Jobs())
      ensures Willing(replies) ==> !raised && !full
    {
      Sweep(plan, schedules, true, false, late);
      swept := Jobs();
      KindsAreRanked();
      full, raised := Waves(plan, KINDS, schedules, replies);
      if raised {
        return;
      }
      Do(Flush);
      TurnPlanned(plan, old(Jobs()), swept, Jobs(), schedules, late);
      if !full {
        TurnSettles(plan, old(Jobs()), swept, Jobs(), schedules, late);
      }
    }

    /** One round: reconciliation and a turn.  Once all submitted jobs are over, it records one
        more job or leaves nothing open and nothing live. */
    method Round(plan: seq<Job>, n: nat, schedules: set<Id>, late: set<Id>, artifacts: set<Id>, accounting: Answering,
                 replies: nat -> Reply, ghost ends: Id -> nat, ghost known: set<Id>, ghost last: nat)
      requires ProperPlan(plan) && Inv(world) && world.pc.Idle? && Willing(replies) && AllEnd(accounting, ends)
      requires Knows(plan, Jobs(), known) && forall id :: id in known ==> ends(id) <= last
      modifies this
      ensures Inv(world) && world.pc.Idle? && world.store == world.memory
      ensures Knows(plan, Jobs(), known) && Open(plan, Jobs()) <= Open(plan, old(Jobs()))
      ensures last <= n ==>
                || Open(plan, Jobs()) < Open(plan, old(Jobs()))
                || (Open(plan, Jobs()) == {} && NothingLive(Jobs()))
      ensures forall k :: 0 <= k < |plan| ==>
                Earned(plan[k], old(world.memory.jobs), world.memory.jobs, accounting(n, old(world.memory.jobs)), artifacts)
    {
      ghost var w := world;
      Reconcile(accounting(n, world.memory.jobs), artifacts);
      ghost var mid := Jobs();
      ghost var reconciled := world.memory.jobs;
      if last <= n {
        ReconcilingSettles(w, world.memory.jobs, accounting(n, w.memory.jobs), artifacts);
      }
      var full, raised, swept := Turn(plan, schedules, late, replies);
      SubmittedOnSuccess(plan, schedules, late, w, reconciled, world.memory.jobs, swept, accounting(n, w.memory.jobs), artifacts);
      if Open(plan, mid) == {} {
        NothingToRecord(plan, mid, Jobs());
      }
      ComesDown(plan, mid, Jobs(), known);
    }

    /** The controller's loop after a successful build.  If every submitted job ends, and the
        scheduler refuses and loses nothing, it comes to its end: every job of the plan is in the
        state file, and none is live. */
    method Finish(plan: seq<Job>, schedules: nat -> set<Id>, late: nat -> set<Id>, artifacts: nat -> set<Id>,
                  accounting: Answering, replies: nat -> Reply, ghost ends: Id -> nat) returns (n: nat)
      requires ProperPlan(plan) && Inv(world) && world.pc.Idle? && Willing(replies) && AllEnd(accounting, ends)
      modifies this
      ensures Inv(world) && world.pc.Idle? && world.store == world.memory
      ensures (forall k :: 0 <= k < |plan| ==> plan[k].id in Jobs()) && NothingLive(Jobs())
    {
      ghost var known := AllKnown(plan, Jobs());
      ghost var last := LastEnd(known, ends);
      n := 0;
      var done := false;
      while !done
        invariant Inv(world) && world.pc.Idle? && Knows(plan, Jobs(), known)
        invariant done ==> world.store == world.memory && Open(plan, Jobs()) == {} && NothingLive(Jobs())
        decreases !done, Open(plan, Jobs()), SatSub(last, n)
      {
        Round(plan, n, schedules(n), late(n), artifacts(n), accounting, replies, ends, known, last);
        done := Open(plan, Statuses(world.memory.jobs)) == {} && Quiet(Statuses(world.memory.jobs));
        n := n + 1;
      }
      NoneOpen(plan, Jobs());
    }
  }
}
