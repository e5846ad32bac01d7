/** The controller's submissions, with a crash possible between any two steps.

    `state.json` and `submit-intent.json` survive a crash, the controller's memory does not.  The
    scheduler's answers are free: it may accept, refuse for quota, fail, or accept without the
    answer ever arriving; its accounting may lag.
 */
module Submission {
  import opened Positions
  import opened Scheduling

  const BUILD: Id := "build"

  /** A job's record; `slurm` is the submission that holds it and its index there. */
  datatype Entry = Entry(slurm: Option<(nat, nat)>, status: Status)

  datatype Store = Store(jobs: map<Id, Entry>, build: Option<nat>)

  datatype Request = Request(ids: seq<Id>, token: nat)

  /** Where the controller is. */
  datatype Pc =
    | Down
    | Booted
    | Idle
    | Intended(request: Request)
    | Refused(request: Request)
    | Answered(request: Request, slurm: nat)
    | Saved(request: Request)

  /** `store` and `intent` are the files; `log` lists the submissions the scheduler accepted, a
      submission's number being its place there; `clock` is above every token used so far. */
  datatype World = World(store: Store, intent: Option<Request>, memory: Store, pc: Pc, log: seq<Request>, clock: nat)

  datatype Event =
    | Crash
    | Boot
    | Recover(found: seq<nat>)
    | Decide(id: Id, status: Status)
    | Observe(id: Id, status: Status)
    | Flush
    | Intend(ids: seq<Id>)
    | Accept(heard: bool)
    | Refuse
    | Fail
    | Record
    | Unlink

  predicate Distinct(ids: seq<Id>) {
    forall i, j :: 0 <= i < j < |ids| ==> ids[i] != ids[j]
  }

  predicate Known(store: Store, id: Id) {
    if id == BUILD then store.build.Some? else id in store.jobs
  }

  /** Well-formed requests: the build alone, or some jobs. */
  predicate Proper(ids: seq<Id>) {
    ids == [BUILD] || (ids != [] && Distinct(ids) && BUILD !in ids)
  }

  /** The accepted submissions that carry a token. */
  ghost function Answers(w: World, token: nat): set<nat> {
    set i | 0 <= i < |w.log| && w.log[i].token == token
  }

  /** What accounting may report for a token: some of its submissions, each once. */
  ghost predicate Reported(w: World, token: nat, found: seq<nat>) {
    && (forall i :: 0 <= i < |found| ==> found[i] in Answers(w, token))
    && (forall i, j :: 0 <= i < j < |found| ==> found[i] != found[j])
  }

  /** `accepted`, without the files. */
  function With(store: Store, request: Request, slurm: nat): Store {
    if request.ids == [BUILD] then store.(build := Some(slurm))
    else store.(jobs := store.jobs + Entries(request.ids, slurm))
  }

  function Entries(ids: seq<Id>, slurm: nat): (m: map<Id, Entry>)
    ensures forall id :: id in m <==> id in ids
    ensures forall id :: id in m ==> exists k: nat :: k < |ids| && ids[k] == id && m[id] == Entry(Some((slurm, k)), Pending)
  {
    if ids == [] then map[]
    else Entries(ids[..|ids| - 1], slurm)[ids[|ids| - 1] := Entry(Some((slurm, |ids| - 1)), Pending)]
  }

  ghost predicate Enabled(w: World, e: Event) {
    match e
    case Crash => true
    case Boot => w.pc.Down?
    case Recover(found) => w.pc.Booted? && (w.intent.Some? ==> Reported(w, w.intent.value.token, found))
    case Decide(id, status) =>
      w.pc.Idle? && id !in w.memory.jobs && id != BUILD && (status.Skipped? || status.NotAdmitted?)
    case Observe(id, _) => w.pc.Idle? && id in w.memory.jobs && w.memory.jobs[id].slurm.Some?
    case Flush => w.pc.Idle?
    case Intend(ids) => w.pc.Idle? && Proper(ids) && forall id :: id in ids ==> !Known(w.memory, id)
    case Accept(_) => w.pc.Intended?
    case Refuse => w.pc.Intended?
    case Fail => w.pc.Intended?
    case Record => w.pc.Answered?
    case Unlink => w.pc.Saved? || w.pc.Refused?
  }

  function Apply(w: World, e: Event): World
    requires Enabled(w, e)
  {
    match e
    case Crash => w.(pc := Down)
    case Boot => w.(pc := Booted, memory := w.store)
    case Recover(found) =>
      if w.intent.None? then w.(pc := Idle)
      else if |found| == 1 then w.(pc := Answered(w.intent.value, found[0]))
      else w.(pc := Down)
    case Decide(id, status) => w.(memory := w.memory.(jobs := w.memory.jobs[id := Entry(None, status)]))
    case Observe(id, status) => w.(memory := w.memory.(jobs := w.memory.jobs[id := w.memory.jobs[id].(status := status)]))
    case Flush => w.(store := w.memory)
    case Intend(ids) =>
      var r := Request(ids, w.clock);
      w.(pc := Intended(r), intent := Some(r), clock := w.clock + 1)
    case Accept(heard) => w.(log := w.log + [w.pc.request], pc := if heard then Answered(w.pc.request, |w.log|) else Down)
    case Refuse => w.(pc := Refused(w.pc.request))
    case Fail => w.(pc := Down)
    case Record =>
      var m := With(w.memory, w.pc.request, w.pc.slurm);
      w.(memory := m, store := m, pc := Saved(w.pc.request))
    case Unlink => w.(pc := Idle, intent := None)
  }

  ghost predicate Initial(w: World) {
    w.store == Store(map[], None) && w.intent == None && w.pc.Down? && w.log == []
  }

  ghost predicate IsRun(ws: seq<World>, es: seq<Event>) {
    && |ws| == |es| + 1 && Initial(ws[0])
    && forall i :: 0 <= i < |es| ==> Enabled(ws[i], es[i]) && ws[i + 1] == Apply(ws[i], es[i])
  }

  // ---------- what every step keeps ----------

  predicate Disjoint(a: Request, b: Request) {
    forall i, j :: 0 <= i < |a.ids| && 0 <= j < |b.ids| ==> a.ids[i] != b.ids[j]
  }

  /** No id is in two submissions, none is in one submission twice. */
  ghost predicate Exclusive(w: World) {
    && (forall i :: 0 <= i < |w.log| ==> Proper(w.log[i].ids) && w.log[i].token < w.clock)
    && (forall i, j :: 0 <= i < j < |w.log| ==> Disjoint(w.log[i], w.log[j]) && w.log[i].token != w.log[j].token)
  }

  /** Every accepted id is in the state file, or the intent file covers its submission. */
  ghost predicate Covered(w: World) {
    forall i, id :: 0 <= i < |w.log| && id in w.log[i].ids ==>
      Known(w.store, id) || w.intent == Some(w.log[i])
  }

  /** The request of the intent file is new to the scheduler, or it is one that was accepted. */
  ghost predicate IntentOk(w: World) {
    w.intent.Some? ==>
      var r := w.intent.value;
      && Proper(r.ids) && r.token < w.clock
      && forall i :: 0 <= i < |w.log| ==> w.log[i] == r || (Disjoint(w.log[i], r) && w.log[i].token != r.token)
  }

  /** A record names the submission that holds the job; one without it was decided instead. */
  ghost predicate True(w: World, store: Store) {
    && (forall id :: id in store.jobs ==> RecordOk(w, id, store.jobs[id]))
    && (store.build.Some? ==> store.build.value < |w.log| && w.log[store.build.value].ids == [BUILD])
  }

  ghost predicate RecordOk(w: World, id: Id, e: Entry) {
    && id != BUILD
    && (e.slurm.None? ==> e.status.Skipped? || e.status.NotAdmitted?)
    && (e.slurm.Some? ==> var (s, k) := e.slurm.value; s < |w.log| && k < |w.log[s].ids| && w.log[s].ids[k] == id)
  }

  ghost predicate PcOk(w: World) {
    match w.pc
    case Down => true
    case Booted => true
    case Idle => w.intent == None
    case Intended(r) => w.intent == Some(r) && forall i :: 0 <= i < |w.log| ==> w.log[i] != r
    case Refused(r) => w.intent == Some(r) && forall i :: 0 <= i < |w.log| ==> w.log[i] != r
    case Answered(r, s) => w.intent == Some(r) && s < |w.log| && w.log[s] == r
    case Saved(r) => w.intent == Some(r) && forall id :: id in r.ids ==> Known(w.store, id)
  }

  /** A running controller knows at least what the state file says. */
  ghost predicate MemoryOk(w: World) {
    !w.pc.Down? ==> True(w, w.memory) && forall id :: Known(w.store, id) ==> Known(w.memory, id)
  }

  ghost predicate Facts(w: World) {
    Exclusive(w) && Covered(w) && IntentOk(w) && True(w, w.store) && PcOk(w) && MemoryOk(w)
  }

  /** (An equation, so that it is proved as a whole.) */
  ghost predicate Inv(w: World) {
    Facts(w) == true
  }

  lemma AcceptKeeps(w: World, heard: bool)
    requires Inv(w) && Enabled(w, Accept(heard))
    ensures Inv(Apply(w, Accept(heard)))
  {
    var w' := Apply(w, Accept(heard));
    forall id | id in w.store.jobs ensures RecordOk(w', id, w.store.jobs[id]) {
      assert RecordOk(w, id, w.store.jobs[id]);
    }
    forall id | id in w.memory.jobs ensures RecordOk(w', id, w.memory.jobs[id]) {
      assert RecordOk(w, id, w.memory.jobs[id]);
    }
  }

  /** What `With` records is true if the submission holds the request. */
  lemma WithIsTrue(w: World, w': World, store: Store, r: Request, s: nat)
    requires True(w, store) && w'.log == w.log && s < |w.log| && w.log[s] == r && Proper(r.ids)
    ensures True(w', With(store, r, s))
    ensures forall id :: Known(store, id) || id in r.ids ==> Known(With(store, r, s), id)
  {
    var jobs := With(store, r, s).jobs;
    forall id | id in jobs ensures RecordOk(w', id, jobs[id]) {
      assert id in store.jobs ==> RecordOk(w, id, store.jobs[id]);
    }
  }

  lemma RecordKeeps(w: World)
    requires Inv(w) && Enabled(w, Record)
    ensures Inv(Apply(w, Record))
  {
    var w' := Apply(w, Record);
    WithIsTrue(w, w', w.memory, w.pc.request, w.pc.slurm);
  }

  lemma IntendKeeps(w: World, ids: seq<Id>)
    requires Inv(w) && Enabled(w, Intend(ids))
    ensures Inv(Apply(w, Intend(ids)))
  {
    var r := Request(ids, w.clock);
    forall i | 0 <= i < |w.log| ensures Disjoint(w.log[i], r) {
      forall k, m | 0 <= k < |w.log[i].ids| && 0 <= m < |ids| ensures w.log[i].ids[k] != ids[m] {
        assert w.log[i].ids[k] in w.log[i].ids && ids[m] in ids;
      }
    }
  }

  lemma LocalKeeps(w: World, e: Event)
    requires Inv(w) && Enabled(w, e) && (e.Decide? || e.Observe? || e.Flush?)
    ensures Inv(Apply(w, e))
  {
    var w' := Apply(w, e);
    assert forall id :: Known(w.memory, id) ==> Known(w'.memory, id);
    forall id | id in w'.memory.jobs ensures RecordOk(w', id, w'.memory.jobs[id]) {
      assert id in w.memory.jobs ==> RecordOk(w, id, w.memory.jobs[id]);
    }
    assert True(w', w'.memory);
  }

  lemma OtherKeeps(w: World, e: Event)
    requires Inv(w) && Enabled(w, e)
    requires e.Crash? || e.Boot? || e.Recover? || e.Refuse? || e.Fail? || e.Unlink?
    ensures Inv(Apply(w, e))
  {
  }

  lemma StepKeeps(w: World, e: Event)
    requires Inv(w) && Enabled(w, e)
    ensures Inv(Apply(w, e))
  {
    match e
    case Accept(heard) => AcceptKeeps(w, heard);
    case Record => RecordKeeps(w);
    case Intend(ids) => IntendKeeps(w, ids);
    case Decide(_, _) => LocalKeeps(w, e);
    case Observe(_, _) => LocalKeeps(w, e);
    case Flush => LocalKeeps(w, e);
    case _ => OtherKeeps(w, e);
  }

  lemma {:induction false} RunKeeps(ws: seq<World>, es: seq<Event>, n: nat)
    requires IsRun(ws, es) && n < |ws|
    ensures Inv(ws[n])
  {
    if n > 0 {
      RunKeeps(ws, es, n - 1);
      StepKeeps(ws[n - 1], es[n - 1]);
    }
  }

  // ---------- what holds in every run ----------

  /** No id, nor the build, is ever accepted twice: not by two submissions, not within one. */
  lemma NeverTwice(ws: seq<World>, es: seq<Event>, n: nat, i: nat, j: nat, a: nat, b: nat)
    requires IsRun(ws, es) && n < |ws| && i < |ws[n].log| && j < |ws[n].log|
    requires a < |ws[n].log[i].ids| && b < |ws[n].log[j].ids| && ws[n].log[i].ids[a] == ws[n].log[j].ids[b]
    ensures i == j && a == b
  {
    RunKeeps(ws, es, n);
    var log := ws[n].log;
    assert (i < j ==> Disjoint(log[i], log[j])) && (j < i ==> Disjoint(log[j], log[i]));
    assert Proper(log[i].ids);
  }

  /** Every accepted id is in the state file, or its submission is in the intent file. */
  lemma NeverForgotten(ws: seq<World>, es: seq<Event>, n: nat, i: nat, id: Id)
    requires IsRun(ws, es) && n < |ws| && i < |ws[n].log| && id in ws[n].log[i].ids
    ensures Known(ws[n].store, id) || ws[n].intent == Some(ws[n].log[i])
    ensures ws[n].pc.Idle? ==> Known(ws[n].store, id) && Known(ws[n].memory, id)
  {
    RunKeeps(ws, es, n);
    assert Covered(ws[n]);
  }

  /** A record in the state file names the one submission that holds the job. */
  lemma RecordsAreTrue(ws: seq<World>, es: seq<Event>, n: nat, id: Id)
    requires IsRun(ws, es) && n < |ws| && id in ws[n].store.jobs && ws[n].store.jobs[id].slurm.Some?
    ensures var (s, k) := ws[n].store.jobs[id].slurm.value;
            && s < |ws[n].log| && k < |ws[n].log[s].ids| && ws[n].log[s].ids[k] == id
            && forall i :: 0 <= i < |ws[n].log| && id in ws[n].log[i].ids ==> i == s
  {
    RunKeeps(ws, es, n);
    var w := ws[n];
    assert RecordOk(w, id, w.store.jobs[id]);
    var (s, k) := w.store.jobs[id].slurm.value;
    forall i | 0 <= i < |w.log| && id in w.log[i].ids ensures i == s {
      var a :| 0 <= a < |w.log[i].ids| && w.log[i].ids[a] == id;
      NeverTwice(ws, es, n, i, s, a, k);
    }
  }

  /** A restart gets past recovery exactly when there is no intent, or its submission was
      accepted and accounting shows it; in every other case it stops for an operator. */
  lemma RestartsExactly(w: World, found: seq<nat>)
    requires Inv(w) && Enabled(w, Recover(found))
    ensures !Apply(w, Recover(found)).pc.Down? <==>
            w.intent.None? || (exists s :: 0 <= s < |w.log| && w.log[s] == w.intent.value && found == [s])
  {
    if w.intent.Some? && |found| == 1 {
      assert found[0] in Answers(w, w.intent.value.token) && found == [found[0]];
      assert w.log[found[0]] == w.intent.value;
    }
  }

  /** Such a restart records the submission under its own number and clears the intent. */
  lemma RecoveryCompletes(w: World, s: nat)
    requires Inv(w) && w.pc.Booted? && s < |w.log| && w.intent == Some(w.log[s])
    ensures Enabled(w, Recover([s]))
    ensures var w1 := Apply(w, Recover([s]));
            && Enabled(w1, Record) && Enabled(Apply(w1, Record), Unlink)
            && var w2 := Apply(Apply(w1, Record), Unlink);
            && w2.pc.Idle? && w2.intent == None && w2.log == w.log
            && w2.store == With(w.memory, w.log[s], s) && forall id :: id in w.log[s].ids ==> Known(w2.store, id)
  {
    var w1 := Apply(w, Recover([s]));
    StepKeeps(w, Recover([s]));
    StepKeeps(w1, Record);
  }
}
