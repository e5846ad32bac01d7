/** Which jobs of a campaign may be submitted, must wait, or are skipped. */
module Scheduling {
  import opened Positions

  type Id = string

  datatype Kind = Gate | Capability | Core | Memory | Ab | Deep

  /** One job, or a group of which any may succeed. */
  datatype Need = One(id: Id) | AnyOf(ids: seq<Id>)

  datatype Job = Job(id: Id, kind: Kind, needs: seq<Need>, scheduleParent: Option<Id>)

  datatype Status = Pending | Running | Unknown | Completed | Failed | Skipped | NotAdmitted
  {
    predicate Terminal() {
      Completed? || Failed? || Skipped? || NotAdmitted?
    }
  }

  /** The status of every job that is submitted or decided. */
  type Jobs = map<Id, Status>

  datatype Verdict = Wait | Skip | Ready

  predicate Decided(jobs: Jobs, id: Id) {
    id in jobs && jobs[id].Terminal()
  }

  predicate Succeeded(jobs: Jobs, id: Id) {
    id in jobs && jobs[id] == Completed
  }

  /** Kinds whose unprofiled measurement stands without a collector. */
  predicate StandsAlone(job: Job) {
    job.kind.Core? || job.kind.Ab?
  }

  /** What `eligible` says about one need; a need that passes yields `Ready`. */
  function Check(job: Job, need: Need, jobs: Jobs, schedules: set<Id>): Verdict {
    match need
    case AnyOf(ids) =>
      if exists i :: 0 <= i < |ids| && !Decided(jobs, ids[i]) then Wait
      else if exists i :: 0 <= i < |ids| && Succeeded(jobs, ids[i]) then Ready
      else if StandsAlone(job) then Ready
      else Skip
    case One(id) =>
      if !Decided(jobs, id) then Wait
      else if Succeeded(jobs, id) then Ready
      else if StandsAlone(job) && "cap-" <= id then Ready
      else if Some(id) == job.scheduleParent && id in schedules then Ready
      else Skip
  }

  /** `eligible`: the first need that does not pass decides. */
  function EligibleBy(job: Job, needs: seq<Need>, jobs: Jobs, schedules: set<Id>): Verdict {
    if needs == [] then Ready
    else
      var v := Check(job, needs[0], jobs, schedules);
      if v.Ready? then EligibleBy(job, needs[1..], jobs, schedules) else v
  }

  function Eligible(job: Job, jobs: Jobs, schedules: set<Id>): Verdict {
    EligibleBy(job, job.needs, jobs, schedules)
  }

  // ---------- what a verdict means ----------

  /** The job has come to its end without success. */
  predicate Missed(jobs: Jobs, id: Id) {
    id in jobs && (jobs[id] == Failed || jobs[id] == Skipped || jobs[id] == NotAdmitted)
  }

  /** The job has not come to its end. */
  predicate Ongoing(jobs: Jobs, id: Id) {
    id in jobs ==> jobs[id] == Pending || jobs[id] == Running || jobs[id] == Unknown
  }

  predicate Unprofiled(kind: Kind) {
    kind == Core || kind == Ab
  }

  /** A job that is not missed if it is lost: a collector of a measurement that stands without
      one, or the schedule parent, if it left a schedule. */
  predicate Excused(job: Job, id: Id, schedules: set<Id>) {
    (Unprofiled(job.kind) && "cap-" <= id) || (job.scheduleParent == Some(id) && id in schedules)
  }

  predicate Passes(job: Job, need: Need, jobs: Jobs, schedules: set<Id>) {
    match need
    case One(id) => Succeeded(jobs, id) || (Missed(jobs, id) && Excused(job, id, schedules))
    case AnyOf(ids) =>
      && (forall i :: 0 <= i < |ids| ==> Succeeded(jobs, ids[i]) || Missed(jobs, ids[i]))
      && ((exists i :: 0 <= i < |ids| && Succeeded(jobs, ids[i])) || Unprofiled(job.kind))
  }

  /** The need will never be met. */
  predicate Fails(job: Job, need: Need, jobs: Jobs, schedules: set<Id>) {
    match need
    case One(id) => Missed(jobs, id) && !Excused(job, id, schedules)
    case AnyOf(ids) => (forall i :: 0 <= i < |ids| ==> Missed(jobs, ids[i])) && !Unprofiled(job.kind)
  }

  predicate Undecided(need: Need, jobs: Jobs) {
    match need
    case One(id) => Ongoing(jobs, id)
    case AnyOf(ids) => exists i :: 0 <= i < |ids| && Ongoing(jobs, ids[i])
  }

  /** What `eligible` says about one need, in terms of statuses. */
  lemma CheckMeans(job: Job, need: Need, jobs: Jobs, schedules: set<Id>)
    ensures Check(job, need, jobs, schedules).Ready? <==> Passes(job, need, jobs, schedules)
    ensures Check(job, need, jobs, schedules).Skip? <==> Fails(job, need, jobs, schedules)
    ensures Check(job, need, jobs, schedules).Wait? <==> Undecided(need, jobs)
  {
    match need
    case One(_) =>
    case AnyOf(ids) =>
      assert forall i :: 0 <= i < |ids| ==> (Decided(jobs, ids[i]) <==> Succeeded(jobs, ids[i]) || Missed(jobs, ids[i]));
      assert forall i :: 0 <= i < |ids| ==> (Decided(jobs, ids[i]) <==> !Ongoing(jobs, ids[i]));
  }

  /** A verdict other than `Ready` is that of a need all of whose predecessors pass. */
  lemma {:induction false} FirstDecides(job: Job, needs: seq<Need>, jobs: Jobs, schedules: set<Id>)
    returns (k: nat)
    ensures k <= |needs| && forall j :: 0 <= j < k ==> Passes(job, needs[j], jobs, schedules)
    ensures k == |needs| <==> EligibleBy(job, needs, jobs, schedules).Ready?
    ensures k < |needs| ==> Check(job, needs[k], jobs, schedules) == EligibleBy(job, needs, jobs, schedules)
  {
    if needs != [] {
      CheckMeans(job, needs[0], jobs, schedules);
    }
    if needs == [] || !Passes(job, needs[0], jobs, schedules) {
      k := 0;
    } else {
      var m := FirstDecides(job, needs[1..], jobs, schedules);
      k := m + 1;
      forall j | 0 <= j < k ensures Passes(job, needs[j], jobs, schedules) {
        assert j > 0 ==> needs[j] == needs[1..][j - 1];
      }
    }
  }

  /** All needs before the `k`-th pass. */
  ghost predicate Reaches(job: Job, jobs: Jobs, schedules: set<Id>, k: nat) {
    k < |job.needs| && forall j :: 0 <= j < k ==> Passes(job, job.needs[j], jobs, schedules)
  }

  /** A job is ready exactly when every need passes, skipped exactly when the first that does not
      will never be met, and waits exactly when the first that does not is undecided. */
  lemma ReadyMeansAllPass(job: Job, jobs: Jobs, schedules: set<Id>)
    ensures Eligible(job, jobs, schedules).Ready? <==>
            forall j :: 0 <= j < |job.needs| ==> Passes(job, job.needs[j], jobs, schedules)
    ensures Eligible(job, jobs, schedules).Skip? <==>
            exists k: nat :: Reaches(job, jobs, schedules, k) && Fails(job, job.needs[k], jobs, schedules)
    ensures Eligible(job, jobs, schedules).Wait? <==>
            exists k: nat :: Reaches(job, jobs, schedules, k) && Undecided(job.needs[k], jobs)
  {
    var k := FirstDecides(job, job.needs, jobs, schedules);
    if k < |job.needs| {
      CheckMeans(job, job.needs[k], jobs, schedules);
      assert Reaches(job, jobs, schedules, k);
    }
    forall j: nat | Reaches(job, jobs, schedules, j) && !Passes(job, job.needs[j], jobs, schedules) ensures j == k {
    }
    forall j: nat | j < |job.needs| ensures Passes(job, job.needs[j], jobs, schedules) ==>
      !Fails(job, job.needs[j], jobs, schedules) && !Undecided(job.needs[j], jobs)
    {
      CheckMeans(job, job.needs[j], jobs, schedules);
    }
  }

  /** A job all of whose named jobs have completed is ready. */
  lemma AllCompletedIsReady(job: Job, jobs: Jobs, schedules: set<Id>)
    requires forall id :: Names(job, id) ==> id in jobs && jobs[id] == Completed
    requires forall j :: 0 <= j < |job.needs| && job.needs[j].AnyOf? ==> job.needs[j].ids != []
    ensures Eligible(job, jobs, schedules).Ready?
  {
    forall j | 0 <= j < |job.needs| ensures Passes(job, job.needs[j], jobs, schedules) {
      var need := job.needs[j];
      match need
      case One(id) =>
        assert Mentions(need, id) && Names(job, id);
      case AnyOf(ids) =>
        assert forall i :: 0 <= i < |ids| ==> Mentions(need, ids[i]) && Names(job, ids[i]);
        assert Succeeded(jobs, ids[0]);
    }
    ReadyMeansAllPass(job, jobs, schedules);
  }

  /** The need is met by success: the job has completed, or one of the group has. */
  ghost predicate Met(need: Need, jobs: Jobs) {
    match need
    case One(id) => id in jobs && jobs[id] == Completed
    case AnyOf(ids) => exists i :: 0 <= i < |ids| && ids[i] in jobs && jobs[ids[i]] == Completed
  }

  /** A job that cannot do without any of its needs. */
  predicate Strict(job: Job) {
    !job.kind.Core? && !job.kind.Ab? && job.scheduleParent.None?
  }

  /** Such a job is ready only if each of its needs is met by success. */
  lemma ReadyNeedsSuccess(job: Job, jobs: Jobs, schedules: set<Id>, j: nat)
    requires Strict(job) && Eligible(job, jobs, schedules).Ready? && j < |job.needs|
    ensures Met(job.needs[j], jobs)
  {
    ReadyMeansAllPass(job, jobs, schedules);
    assert Passes(job, job.needs[j], jobs, schedules);
  }

  /** A job is skipped only because of a need all of whose jobs have ended without success. */
  lemma SkipNeedsFailure(job: Job, jobs: Jobs, schedules: set<Id>) returns (k: nat)
    requires Eligible(job, jobs, schedules).Skip?
    ensures k < |job.needs| && !Met(job.needs[k], jobs)
    ensures forall id :: Mentions(job.needs[k], id) ==>
              id in jobs && (jobs[id] == Failed || jobs[id] == Skipped || jobs[id] == NotAdmitted)
  {
    k := FirstDecides(job, job.needs, jobs, schedules);
    CheckMeans(job, job.needs[k], jobs, schedules);
  }

  // ---------- which statuses a verdict depends on ----------

  predicate Mentions(need: Need, id: Id) {
    match need
    case One(i) => i == id
    case AnyOf(ids) => id in ids
  }

  /** `required_ids`. */
  ghost predicate Names(job: Job, id: Id) {
    exists j :: 0 <= j < |job.needs| && Mentions(job.needs[j], id)
  }

  /** As far as a job with this status is decided, the two records say the same about it. */
  predicate SameVerdict(jobs: Jobs, jobs': Jobs, schedules: set<Id>, schedules': set<Id>, id: Id) {
    && (Decided(jobs, id) <==> Decided(jobs', id))
    && (Decided(jobs, id) ==> jobs[id] == jobs'[id] && (id in schedules <==> id in schedules'))
  }

  lemma CheckLocal(job: Job, need: Need, jobs: Jobs, jobs': Jobs, schedules: set<Id>, schedules': set<Id>)
    requires forall id :: Mentions(need, id) ==> SameVerdict(jobs, jobs', schedules, schedules', id)
    ensures Check(job, need, jobs, schedules) == Check(job, need, jobs', schedules')
  {
    match need
    case One(id) =>
      assert Mentions(need, id);
    case AnyOf(ids) =>
      forall i | 0 <= i < |ids|
        ensures Decided(jobs, ids[i]) == Decided(jobs', ids[i]) && Succeeded(jobs, ids[i]) == Succeeded(jobs', ids[i])
      {
        assert Mentions(need, ids[i]);
      }
  }

  /** A verdict depends only on the decided jobs among those the job names. */
  lemma {:induction false} EligibleLocal(job: Job, needs: seq<Need>, jobs: Jobs, jobs': Jobs,
                                         schedules: set<Id>, schedules': set<Id>)
    requires forall j, id :: 0 <= j < |needs| && Mentions(needs[j], id) ==>
               SameVerdict(jobs, jobs', schedules, schedules', id)
    ensures EligibleBy(job, needs, jobs, schedules) == EligibleBy(job, needs, jobs', schedules')
  {
    if needs != [] {
      assert forall id :: Mentions(needs[0], id) ==> SameVerdict(jobs, jobs', schedules, schedules', id);
      CheckLocal(job, needs[0], jobs, jobs', schedules, schedules');
      forall j, id | 0 <= j < |needs[1..]| && Mentions(needs[1..][j], id)
        ensures SameVerdict(jobs, jobs', schedules, schedules', id)
      {
        assert needs[1..][j] == needs[j + 1];
      }
      EligibleLocal(job, needs[1..], jobs, jobs', schedules, schedules');
    }
  }

  /** Terminal statuses never change, and neither does whether such a job left a schedule. */
  ghost predicate Later(jobs: Jobs, jobs': Jobs, schedules: set<Id>, schedules': set<Id>) {
    forall id :: Decided(jobs, id) ==> id in jobs' && jobs'[id] == jobs[id] && (id in schedules <==> id in schedules')
  }

  lemma CheckFinal(job: Job, need: Need, jobs: Jobs, jobs': Jobs, schedules: set<Id>, schedules': set<Id>)
    requires Later(jobs, jobs', schedules, schedules') && !Check(job, need, jobs, schedules).Wait?
    ensures Check(job, need, jobs', schedules') == Check(job, need, jobs, schedules)
  {
    forall id | Mentions(need, id) ensures SameVerdict(jobs, jobs', schedules, schedules', id) {
      assert Decided(jobs, id);
    }
    CheckLocal(job, need, jobs, jobs', schedules, schedules');
  }

  /** A verdict other than `Wait` is final: a ready job stays ready, a skipped one stays skipped. */
  lemma {:induction false} VerdictIsFinal(job: Job, needs: seq<Need>, jobs: Jobs, jobs': Jobs,
                                          schedules: set<Id>, schedules': set<Id>)
    requires Later(jobs, jobs', schedules, schedules') && !EligibleBy(job, needs, jobs, schedules).Wait?
    ensures EligibleBy(job, needs, jobs', schedules') == EligibleBy(job, needs, jobs, schedules)
  {
    if needs != [] {
      CheckFinal(job, needs[0], jobs, jobs', schedules, schedules');
      if Passes(job, needs[0], jobs, schedules) {
        VerdictIsFinal(job, needs[1..], jobs, jobs', schedules, schedules');
      }
    }
  }

  /** Recording submitted jobs changes no verdict: what they were waited for, they still are. */
  lemma SubmittingChangesNoVerdict(job: Job, jobs: Jobs, jobs': Jobs, schedules: set<Id>)
    requires Extends(jobs, jobs') && forall id :: id in jobs' && id !in jobs ==> !jobs'[id].Terminal()
    ensures Eligible(job, jobs', schedules) == Eligible(job, jobs, schedules)
  {
    EligibleLocal(job, job.needs, jobs, jobs', schedules, schedules);
  }

  // ---------- plans ----------

  /** Job ids are distinct, and every id a job names belongs to an earlier job. */
  ghost predicate Ordered(plan: seq<Job>) {
    && (forall i, j :: 0 <= i < j < |plan| ==> plan[i].id != plan[j].id)
    && (forall k, id :: 0 <= k < |plan| && Names(plan[k], id) ==> exists j :: 0 <= j < k && plan[j].id == id)
  }

  ghost predicate NothingLive(jobs: Jobs) {
    forall id :: id in jobs ==> jobs[id].Terminal()
  }

  /** A job whose named jobs are all decided does not wait. */
  lemma SettledDoesNotWait(job: Job, jobs: Jobs, schedules: set<Id>)
    requires forall id :: Names(job, id) ==> Decided(jobs, id)
    ensures !Eligible(job, jobs, schedules).Wait?
  {
    var k := FirstDecides(job, job.needs, jobs, schedules);
    if k < |job.needs| {
      forall id | Mentions(job.needs[k], id) ensures Decided(jobs, id) {
        assert Names(job, id);
      }
      var need := job.needs[k];
      assert need.One? ==> Mentions(need, need.id);
    }
  }

  /** The campaign never stalls: with nothing live and a job left, some job that is left is ready
      or is to be skipped. */
  lemma {:induction false} SomeJobMoves(plan: seq<Job>, jobs: Jobs, schedules: set<Id>, left: nat) returns (k: nat)
    requires Ordered(plan) && NothingLive(jobs) && left < |plan| && plan[left].id !in jobs
    ensures k <= left && plan[k].id !in jobs && !Eligible(plan[k], jobs, schedules).Wait?
    decreases left
  {
    if j: nat :| j < left && plan[j].id !in jobs {
      k := SomeJobMoves(plan, jobs, schedules, j);
    } else {
      k := left;
      forall id | Names(plan[left], id) ensures Decided(jobs, id) {
        var j :| 0 <= j < left && plan[j].id == id;
      }
      SettledDoesNotWait(plan[left], jobs, schedules);
    }
  }

  // ---------- the decision sweep ----------

  /** The record grows, and what is in it stays. */
  predicate Extends(jobs: Jobs, jobs': Jobs) {
    forall id :: id in jobs ==> id in jobs' && jobs'[id] == jobs[id]
  }

  /** What the sweep does about one job. */
  function Decision(job: Job, jobs: Jobs, schedules: set<Id>, buildOk: bool, buildFailed: bool, late: set<Id>): Option<Status> {
    if buildFailed || job.id in late then Some(NotAdmitted)
    else if buildOk && Eligible(job, jobs, schedules).Skip? then Some(Skipped)
    else None
  }

  /** A job is not admitted if the build failed or it is too late for it; otherwise it is skipped
      if the build succeeded and the first need it fails to pass will never be met. */
  lemma DecisionMeans(job: Job, jobs: Jobs, schedules: set<Id>, buildOk: bool, buildFailed: bool, late: set<Id>)
    ensures var d := Decision(job, jobs, schedules, buildOk, buildFailed, late);
            && (d == Some(NotAdmitted) <==> buildFailed || job.id in late)
            && (d == Some(Skipped) <==>
                  && !buildFailed && job.id !in late && buildOk
                  && exists k: nat :: Reaches(job, jobs, schedules, k) && Fails(job, job.needs[k], jobs, schedules))
            && (d.Some? ==> d == Some(NotAdmitted) || d == Some(Skipped))
  {
    ReadyMeansAllPass(job, jobs, schedules);
  }

  /** Deciding a job changes no earlier verdict, nor its own. */
  lemma EarlierUnmoved(plan: seq<Job>, jobs: Jobs, jobs': Jobs, schedules: set<Id>, k: nat, i: nat)
    requires Ordered(plan) && k <= i < |plan| && Extends(jobs, jobs')
    requires forall id :: id in jobs' && id !in jobs ==> id == plan[i].id
    ensures Eligible(plan[k], jobs', schedules) == Eligible(plan[k], jobs, schedules)
  {
    forall j, id | 0 <= j < |plan[k].needs| && Mentions(plan[k].needs[j], id)
      ensures SameVerdict(jobs, jobs', schedules, schedules, id)
    {
      assert Names(plan[k], id);
    }
    EligibleLocal(plan[k], plan[k].needs, jobs, jobs', schedules, schedules);
  }
}
