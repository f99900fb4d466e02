/**
 The scheduled task manager (cmd/scheduler/src/scheduled_task_manager.rs) with the
 scripts that create and delete tasks behind its back: a cached next task time,
 cleared by every event that could make it too late.  Times are milliseconds.
 */
module ScheduledTasks {
  import opened Common

  const RETRY_DELAY := 10_000

  /** A stored task.  `version` numbers the creations; the program never reads it. */
  datatype Task = Task(name: string, key: Option<string>, at: int, version: nat)

  /** A run of a task from its start to its ack: which version was read, and
      whether its event was written to a worker. */
  datatype Started = Started(id: nat, version: nat, dispatched: bool)

  /** `next` is the cached time (None if not fetched, Some(None) if nothing is
      left), `failed` says that it stands for a failed fetch, `unread` are the
      tasks whose creation notice the session has not handled, in order, and
      `runs` the runs in flight. */
  datatype State = State(
    clock: int,
    store: map<nat, Task>,
    next: Option<Option<int>>,
    failed: bool,
    pending: set<nat>,
    names: set<string>,
    unread: seq<nat>,
    runs: map<nat, Started>,
    nextRun: nat,
    nextVersion: nat)

  /** A task the store's queries consider. */
  predicate Candidate(s: State, id: nat) {
    id in s.store && s.store[id].name in s.names && id !in s.pending
  }

  /** The answer of `get_next_task_time`. */
  ghost predicate IsNextTime(s: State, r: Option<int>) {
    && (r.None? ==> forall id :: !Candidate(s, id))
    && (r.Some? ==> exists id :: Candidate(s, id) && s.store[id].at == r.value)
    && (r.Some? ==> forall id :: Candidate(s, id) ==> r.value <= s.store[id].at)
  }

  predicate Triggered(s: State, id: nat) {
    Candidate(s, id) && s.store[id].at < s.clock
  }

  /** The answer of `get_triggered_tasks`. */
  ghost predicate ListsTriggered(s: State, ids: seq<nat>) {
    && Distinct(ids)
    && (forall k :: 0 <= k < |ids| ==> Triggered(s, ids[k]))
    && (forall id :: Triggered(s, id) ==> id in ids)
  }

  /** `create_task`: a keyed task replaces the one with its name and key. */
  ghost predicate Upserts(s: State, id: nat, name: string, key: Option<string>) {
    if id in s.store then key.Some? && s.store[id].name == name && s.store[id].key == key
    else key.Some? ==> forall o :: o in s.store ==> !(s.store[o].name == name && s.store[o].key == key)
  }

  // ----- steps -----

  datatype Step =
    | Tick(now: int)
    | Init(ok: bool, answer: Option<int>)
    | StartTriggered(ok: bool, ids: seq<nat>)
    | Dispatch(run: nat, sent: bool)
    | AckTask(run: nat)
    | ScriptStarted(taskNames: seq<string>)
    | Reset(noticesLost: bool)
    | Create(id: nat, name: string, key: Option<string>, at: int)
    | Notice
    | Delete(gone: set<nat>)

  ghost predicate Enabled(s: State, step: Step) {
    match step
    case Tick(now) => now >= s.clock
    case Init(ok, answer) => ok ==> IsNextTime(s, answer)
    case StartTriggered(ok, ids) => ok ==> ListsTriggered(s, ids)
    case Dispatch(run, _) => run in s.runs && !s.runs[run].dispatched
    case AckTask(run) => run in s.runs && s.runs[run].dispatched
    case Create(id, name, key, _) => Upserts(s, id, name, key)
    case Notice => s.unread != []
    case _ => true
  }

  function ClearNext(s: State): State { s.(next := None, failed := false) }

  /** A run for each started task, in order. */
  function StartRuns(runs: map<nat, Started>, next: nat, store: map<nat, Task>, ids: seq<nat>): map<nat, Started>
    requires forall k :: 0 <= k < |ids| ==> ids[k] in store
    decreases |ids|
  {
    if ids == [] then runs
    else StartRuns(runs[next := Started(ids[0], store[ids[0]].version, false)], next + 1, store, ids[1..])
  }

  /** A run of the result is an old one, or a new one of a stored task. */
  lemma {:induction false} StartRunsAdds(runs: map<nat, Started>, next: nat, store: map<nat, Task>, ids: seq<nat>,
      r: nat)
    requires (forall k :: 0 <= k < |ids| ==> ids[k] in store) && (forall q :: q in runs ==> q < next)
    requires r in StartRuns(runs, next, store, ids)
    ensures var n := StartRuns(runs, next, store, ids)[r];
      if r < next then r in runs && n == runs[r]
      else r < next + |ids| && n.id in store && n.version == store[n.id].version
    decreases |ids|
  {
    if ids != [] {
      StartRunsAdds(runs[next := Started(ids[0], store[ids[0]].version, false)], next + 1, store, ids[1..], r);
    }
  }

  /** What a reset keeps: the runs whose event has still to be written. */
  function Undispatched(runs: map<nat, Started>): map<nat, Started> {
    map r | r in runs && !runs[r].dispatched :: runs[r]
  }

  /** An ack deletes whatever is stored under the id it ran. */
  function Finish(s: State, run: nat, id: nat): State {
    s.(pending := s.pending - {id}, store := s.store - {id}, runs := s.runs - {run})
  }

  function Next(s: State, step: Step): State
    requires Enabled(s, step)
  {
    match step
    case Tick(now) => s.(clock := now)
    case Init(ok, answer) =>
      if s.next.Some? then s
      else if ok then s.(next := Some(answer), failed := false)
      else s.(next := Some(Some(s.clock + RETRY_DELAY)), failed := true)
    case StartTriggered(ok, ids) =>
      if !ok then s
      else ClearNext(s.(pending := s.pending + (set id | id in ids),
                        runs := StartRuns(s.runs, s.nextRun, s.store, ids),
                        nextRun := s.nextRun + |ids|))
    case Dispatch(run, sent) =>
      s.(runs := if sent then s.runs[run := s.runs[run].(dispatched := true)] else s.runs - {run})
    case AckTask(run) => Finish(s, run, s.runs[run].id)
    case ScriptStarted(ns) => ClearNext(s.(names := s.names + set n | n in ns))
    case Reset(lost) =>
      ClearNext(s.(pending := {}, names := {}, unread := if lost then [] else s.unread, runs := Undispatched(s.runs)))
    case Create(id, name, key, at) =>
      s.(store := s.store[id := Task(name, key, at, s.nextVersion)], unread := s.unread + [id],
          nextVersion := s.nextVersion + 1)
    case Notice => ClearNext(s.(unread := s.unread[1..]))
    case Delete(ids) => s.(store := s.store - ids)
  }

  function Fresh(store: map<nat, Task>, now: int, nextVersion: nat): State {
    State(now, store, None, false, {}, {}, [], map[], 0, nextVersion)
  }

  ghost predicate ValidRun(states: seq<State>, steps: seq<Step>) {
    && |states| == |steps| + 1
    && states[0] == Fresh(states[0].store, states[0].clock, states[0].nextVersion)
    && (forall id :: id in states[0].store ==> states[0].store[id].version < states[0].nextVersion)
    && forall i :: 0 <= i < |steps| ==> Enabled(states[i], steps[i]) && states[i + 1] == Next(states[i], steps[i])
  }

  // ----- the cache never oversleeps -----

  /** A cached time that was really fetched is no later than `id`'s, unless the
      notice of its creation is still on its way. */
  ghost predicate Covers(s: State, id: nat)
    requires s.next.Some?
  {
    Candidate(s, id) && id !in s.unread ==> s.next.value.Some? && s.next.value.value <= s.store[id].at
  }

  ghost predicate Inv(s: State) {
    s.next.Some? && !s.failed ==> forall id :: Covers(s, id)
  }

  lemma {:induction false} NextOk(s: State, step: Step)
    requires Inv(s) && Enabled(s, step)
    ensures Inv(Next(s, step))
  {
    var t := Next(s, step);
    if t.next.Some? && !t.failed {
      forall id ensures Covers(t, id) {
        if s.next.Some? {
          assert Covers(s, id);
        }
        if step.Init? {
          assert Candidate(s, id) == Candidate(t, id);
        }
        if step.Create? {
          assert t.unread[|s.unread|] == step.id;
          assert forall x :: x in s.unread ==> x in t.unread;
        }
      }
    }
  }

  lemma {:induction false} RunOk(states: seq<State>, steps: seq<Step>, n: nat)
    requires ValidRun(states, steps) && n < |states|
    ensures Inv(states[n])
  {
    if n > 0 {
      RunOk(states, steps, n - 1);
      NextOk(states[n - 1], steps[n - 1]);
    }
  }

  /** In every reachable state, a cached time fetched without error is no later
      than any stored task with a registered name that is not pending and whose
      creation has been noticed. */
  lemma {:induction false} NeverOversleeps(states: seq<State>, steps: seq<Step>, n: nat, id: nat)
    requires ValidRun(states, steps) && n < |states| && states[n].next.Some? && !states[n].failed
    requires Candidate(states[n], id) && id !in states[n].unread
    ensures states[n].next.value.Some? && states[n].next.value.value <= states[n].store[id].at
  {
    RunOk(states, steps, n);
    assert Covers(states[n], id);
  }

  datatype Action = Idle | Wait(until: int) | Run

  function NextAction(s: State): Action {
    if s.next.None? || s.next.value.None? then Idle
    else if s.clock > s.next.value.value then Run else Wait(s.next.value.value)
  }

  /** So a due task makes the session run, and any other wakes it in time. */
  lemma {:induction false} DueTasksRun(states: seq<State>, steps: seq<Step>, n: nat, id: nat)
    requires ValidRun(states, steps) && n < |states| && states[n].next.Some? && !states[n].failed
    requires Candidate(states[n], id) && id !in states[n].unread
    ensures var a := NextAction(states[n]);
      if Triggered(states[n], id) then a.Run? else a.Run? || (a.Wait? && a.until <= states[n].store[id].at)
  {
    NeverOversleeps(states, steps, n, id);
  }

  /** Starting tasks leaves none that is due, and starts no other. */
  lemma {:induction false} StartsExactlyDue(s: State, ids: seq<nat>)
    requires Enabled(s, StartTriggered(true, ids))
    ensures var t := Next(s, StartTriggered(true, ids));
      && (forall id :: !Triggered(t, id))
      && (forall id :: id in t.pending <==> id in s.pending || Triggered(s, id))
  {}

  // ----- which version an ack deletes -----

  ghost predicate Holds(s: State, id: nat, v: nat) {
    id in s.store && s.store[id].version == v
  }

  ghost predicate Numbered(s: State) {
    && (forall id :: id in s.store ==> s.store[id].version < s.nextVersion)
    && (forall r :: r in s.runs ==> r < s.nextRun && s.runs[r].version < s.nextVersion)
  }

  lemma {:induction false} NextNumbered(s: State, step: Step)
    requires Numbered(s) && Enabled(s, step)
    ensures Numbered(Next(s, step))
  {
    var t := Next(s, step);
    if step.StartTriggered? && step.ok {
      hide StartRuns;
      forall r | r in t.runs ensures r < t.nextRun && t.runs[r].version < t.nextVersion {
        StartRunsAdds(s.runs, s.nextRun, s.store, step.ids, r);
      }
    }
  }

  lemma {:induction false} RunNumbered(states: seq<State>, steps: seq<Step>, n: nat)
    requires ValidRun(states, steps) && n < |states|
    ensures Numbered(states[n])
  {
    if n > 0 {
      RunNumbered(states, steps, n - 1);
      NextNumbered(states[n - 1], steps[n - 1]);
    }
  }

  /** State `s` seen from state `base`, in which version `v` had just been stored
      under `id`: older runs read an older version, and as long as `v` is stored
      every newer run of `id` read `v`. */
  ghost predicate Since(base: State, s: State, id: nat, v: nat) {
    && v < s.nextVersion && base.nextRun <= s.nextRun
    && (forall o :: o in s.store && s.store[o].version == v ==> o == id)
    && (forall r :: r in s.runs && r < base.nextRun ==>
          r in base.runs && s.runs[r].id == base.runs[r].id && s.runs[r].version == base.runs[r].version < v)
    && (forall r :: r in s.runs && r >= base.nextRun && s.runs[r].id == id && Holds(s, id, v) ==>
      s.runs[r].version == v)
  }

  lemma {:induction false} StartSince(base: State, s: State, id: nat, v: nat, ids: seq<nat>)
    requires Since(base, s, id, v) && Numbered(s) && ListsTriggered(s, ids)
    ensures Since(base, Next(s, StartTriggered(true, ids)), id, v)
  {
    var t := Next(s, StartTriggered(true, ids));
    hide StartRuns;
    forall r | r in t.runs
      ensures if r < s.nextRun then r in s.runs && t.runs[r] == s.runs[r]
              else t.runs[r].id in s.store && t.runs[r].version == s.store[t.runs[r].id].version
    {
      StartRunsAdds(s.runs, s.nextRun, s.store, ids, r);
    }
  }

  lemma {:induction false} NextSince(base: State, s: State, id: nat, v: nat, step: Step)
    requires Since(base, s, id, v) && Numbered(s) && Enabled(s, step)
    ensures Since(base, Next(s, step), id, v)
  {
    if step.StartTriggered? && step.ok {
      StartSince(base, s, id, v, step.ids);
    } else {
      var t := Next(s, step);
      forall r | r in t.runs
        ensures r in s.runs && t.runs[r].id == s.runs[r].id && t.runs[r].version == s.runs[r].version
      {}
      assert Holds(t, id, v) ==> Holds(s, id, v);
    }
  }

  /** Step `m - 1` created version `v` under `id`. */
  ghost predicate CreatedAt(states: seq<State>, steps: seq<Step>, m: nat, id: nat, v: nat) {
    0 < m <= |steps| && |states| == |steps| + 1 && steps[m - 1].Create? && steps[m - 1].id == id
      && v == states[m - 1].nextVersion
  }

  lemma {:induction false} RunSince(states: seq<State>, steps: seq<Step>, m: nat, n: nat, id: nat, v: nat)
    requires ValidRun(states, steps) && CreatedAt(states, steps, m, id, v) && m <= n < |states|
    ensures Since(states[m], states[n], id, v)
  {
    if m == n {
      RunNumbered(states, steps, m - 1);
    } else {
      RunSince(states, steps, m, n - 1, id, v);
      RunNumbered(states, steps, n - 1);
      NextSince(states[m], states[n - 1], id, v, steps[n - 1]);
    }
  }

  /** Step `k` is the ack of a run of `id`. */
  ghost predicate AcksIdAt(states: seq<State>, steps: seq<Step>, k: nat, id: nat) {
    && k < |steps| <= |states| && steps[k].AckTask?
    && steps[k].run in states[k].runs && states[k].runs[steps[k].run].id == id
  }

  /** An ack that arrives while version `v` is stored deletes it, whatever it ran;
      and it did not run `v` exactly when its run was in flight when `v` was
      created. */
  lemma {:induction false} AckDeletesUnrunExactly(states: seq<State>, steps: seq<Step>, m: nat, k: nat, id: nat, v: nat)
    requires ValidRun(states, steps) && CreatedAt(states, steps, m, id, v) && m <= k
    requires AcksIdAt(states, steps, k, id) && Holds(states[k], id, v)
    ensures !Holds(states[k + 1], id, v)
    ensures states[k].runs[steps[k].run].version != v <==> steps[k].run in states[m].runs
  {
    RunSince(states, steps, m, k, id, v);
    RunNumbered(states, steps, m);
  }

  /** A script deletes the task under `id` or replaces it. */
  ghost predicate ScriptTouches(step: Step, id: nat) {
    (step.Delete? && id in step.gone) || (step.Create? && step.id == id)
  }

  lemma {:induction false} HoldsStep(s: State, step: Step, id: nat, v: nat)
    requires Enabled(s, step) && v < s.nextVersion && !ScriptTouches(step, id)
    ensures Holds(Next(s, step), id, v) <==> Holds(s, id, v) && !(step.AckTask? && s.runs[step.run].id == id)
  {
  }

  /** As long as no script touches it, a created version is stored until the first
      ack of a run of its id. */
  lemma {:induction false} StoredUntilAck(states: seq<State>, steps: seq<Step>, m: nat, n: nat, id: nat, v: nat)
    requires ValidRun(states, steps) && CreatedAt(states, steps, m, id, v) && m <= n < |states|
    requires forall k :: m <= k < n ==> !ScriptTouches(steps[k], id)
    ensures Holds(states[n], id, v) <==> forall k :: m <= k < n ==> !AcksIdAt(states, steps, k, id)
  {
    if m < n {
      StoredUntilAck(states, steps, m, n - 1, id, v);
      RunSince(states, steps, m, n - 1, id, v);
      HoldsStep(states[n - 1], steps[n - 1], id, v);
      assert AcksIdAt(states, steps, n - 1, id) <==>
        steps[n - 1].AckTask? && states[n - 1].runs[steps[n - 1].run].id == id;
      hide Next, Holds, Since, ScriptTouches, Enabled;
    }
  }

  /** Some ack before `n` deletes version `v` without having run it. */
  ghost predicate DeletedUnrun(states: seq<State>, steps: seq<Step>, m: nat, n: nat, id: nat, v: nat) {
    exists k :: m <= k < n && AcksIdAt(states, steps, k, id) && Holds(states[k], id, v)
             && states[k].runs[steps[k].run].version != v
  }

  /** The first ack of `id` since step `m` is of a run in flight then. */
  ghost predicate OlderRunAckedFirst(states: seq<State>, steps: seq<Step>, m: nat, n: nat, id: nat)
    requires m < |states|
  {
    exists k :: m <= k < n && AcksIdAt(states, steps, k, id) && steps[k].run in states[m].runs
             && forall i :: m <= i < k ==> !AcksIdAt(states, steps, i, id)
  }

  /** Without script deletes, a task created under `id` is deleted before it ran
      exactly when the first ack of `id` afterwards is of a run that was in flight
      when it was created; with no such run in flight it is never. */
  lemma {:induction false} RescheduledTaskLostExactly(states: seq<State>, steps: seq<Step>, m: nat, n: nat, id: nat,
      v: nat)
    requires ValidRun(states, steps) && CreatedAt(states, steps, m, id, v) && m <= n < |states|
    requires forall k :: m <= k < n ==> !ScriptTouches(steps[k], id)
    ensures DeletedUnrun(states, steps, m, n, id, v) <==> OlderRunAckedFirst(states, steps, m, n, id)
    ensures (forall r :: r in states[m].runs ==>
          states[m].runs[r].id != id) ==> !DeletedUnrun(states, steps, m, n, id, v)
  {
    forall k | m <= k < n && AcksIdAt(states, steps, k, id)
      ensures Holds(states[k], id, v) <==> forall i :: m <= i < k ==> !AcksIdAt(states, steps, i, id)
      ensures Holds(states[k], id, v) ==>
            (states[k].runs[steps[k].run].version != v <==> steps[k].run in states[m].runs)
      ensures steps[k].run in states[m].runs ==> states[m].runs[steps[k].run].id == id
    {
      StoredUntilAck(states, steps, m, k, id, v);
      if Holds(states[k], id, v) { AckDeletesUnrunExactly(states, steps, m, k, id, v); }
      RunSince(states, steps, m, k, id, v);
      RunNumbered(states, steps, m);
    }
    hide ValidRun, Holds, Since, Numbered;
  }

  const ONCE := Task("t", Some("k"), 0, 0)
  const AGAIN := Task("t", Some("k"), 9, 1)

  /** The states of the run below. */
  function Lost(k: nat): State {
    var s0 := Fresh(map[7 := ONCE], 1, 1);
    var ran := s0.(nextRun := 1);
    if k == 0 then s0
    else if k == 1 then s0.(names := {"t"})
    else if k == 2 then ran.(names := {"t"}, pending := {7}, runs := map[0 := Started(7, 0, false)])
    else if k == 3 then ran.(runs := map[0 := Started(7, 0, false)])
    else if k == 4 then ran.(runs := map[0 := Started(7, 0, true)])
    else if k == 5 then ran.(runs := map[0 := Started(7, 0, true)], store := map[7 := AGAIN], unread := [7],
        nextVersion := 2)
    else ran.(store := map[], unread := [7], nextVersion := 2)
  }

  function LostStep(k: nat): Step {
    if k == 0 then ScriptStarted(["t"])
    else if k == 1 then StartTriggered(true, [7])
    else if k == 2 then Reset(true)
    else if k == 3 then Dispatch(0, true)
    else if k == 4 then Create(7, "t", Some("k"), 9)
    else AckTask(0)
  }

  lemma {:induction false} LostSteps(k: nat)
    requires k < 6
    ensures Enabled(Lost(k), LostStep(k)) && Next(Lost(k), LostStep(k)) == Lost(k + 1)
  {
    if k == 1 {
    } else if k == 0 {
      assert (set n | n in ["t"]) == {"t"};
    } else if k == 2 {
      assert Undispatched(Lost(2).runs) == Lost(2).runs;
    } else if k == 5 {
      assert Lost(5).store - {7} == map[] && Lost(5).runs - {0} == map[];
    }
  }

  /** A task is started, a reset empties the pending list, its event is written, it is
      scheduled again under its key, and the ack of the first run deletes it. */
  lemma {:induction false} RescheduledTaskIsLost()
    ensures exists states: seq<State>, steps: seq<Step>, m: nat, n: nat ::
              && ValidRun(states, steps) && m <= n < |states| && 7 !in states[m].pending
              && CreatedAt(states, steps, m, 7, 1) && DeletedUnrun(states, steps, m, n, 7, 1)
  {
    var states, steps := seq(7, k requires 0 <= k => Lost(k)), seq(6, k requires 0 <= k => LostStep(k));
    forall k | 0 <= k < 6 ensures Enabled(states[k], steps[k]) && states[k + 1] == Next(states[k], steps[k]) {
      LostSteps(k);
    }
    assert ValidRun(states, steps);
    assert states[5] == Lost(5) && states[4] == Lost(4);
    assert AcksIdAt(states, steps, 5, 7) && Holds(states[5], 7, 1);
    assert DeletedUnrun(states, steps, 5, 6, 7, 1);
  }

  // ----- the manager -----

  class Manager {
    var clock: int
    var store: map<nat, Task>
    var nextTaskTime: Option<Option<int>>
    var pending: seq<nat>
    var taskNames: seq<string>
    ghost var failed: bool
    ghost var unread: seq<nat>
    ghost var runs: map<nat, Started>
    ghost var nextRun: nat
    ghost var nextVersion: nat

    ghost function Model(): State
      reads this
    {
      State(clock, store, nextTaskTime, failed, (set id | id in pending), (set n | n in taskNames), unread,
            runs, nextRun, nextVersion)
    }

    ghost predicate Valid()
      reads this
    {
      Distinct(pending) && Distinct(taskNames) && Inv(Model())
    }

    constructor (store: map<nat, Task>, now: int, ghost versions: nat)
      ensures Valid() && Model() == Fresh(store, now, versions)
    {
      clock, this.store, nextTaskTime := now, store, None;
      pending, taskNames, failed, unread := [], [], false, [];
      runs, nextRun, nextVersion := map[], 0, versions;
    }

    /** The store's query for the next task time. */
    method QueryNextTaskTime() returns (r: Option<int>)
      ensures IsNextTime(Model(), r)
    {
      r := None;
      var left := store.Keys;
      while left != {}
        invariant left <= store.Keys
        invariant r.None? ==> forall id :: Candidate(Model(), id) ==> id in left
        invariant r.Some? ==> exists id :: Candidate(Model(), id) && store[id].at == r.value
        invariant r.Some? ==> forall id :: Candidate(Model(), id) && id !in left ==> r.value <= store[id].at
        decreases left
      {
        var id :| id in left;
        left := left - {id};
        if store[id].name in taskNames && id !in pending && (r.None? || store[id].at < r.value) {
          assert Candidate(Model(), id);
          r := Some(store[id].at);
        }
      }
    }

    /** The store's query for the triggered tasks. */
    method QueryTriggeredTasks() returns (ids: seq<nat>)
      ensures ListsTriggered(Model(), ids)
    {
      ids := [];
      var left := store.Keys;
      while left != {}
        invariant left <= store.Keys && Distinct(ids)
        invariant forall k :: 0 <= k < |ids| ==> ids[k] !in left && Triggered(Model(), ids[k])
        invariant forall id :: Triggered(Model(), id) && id !in left ==> id in ids
        decreases left
      {
        var id :| id in left;
        left := left - {id};
        if store[id].name in taskNames && id !in pending && store[id].at < clock {
          assert Triggered(Model(), id) && id !in ids;
          ids := ids + [id];
        }
      }
    }

    /** `init_next_task_time`. */
    method InitNextTaskTime(ok: bool) returns (ghost answer: Option<int>)
      requires Valid()
      modifies this`nextTaskTime, this`failed
      ensures Enabled(old(Model()), Init(ok, answer))
      ensures Valid() && Model() == Next(old(Model()), Init(ok, answer)) && nextTaskTime.Some?
      ensures old(nextTaskTime).None? ==> nextTaskTime.value == if ok then answer else Some(clock + 10_000)
    {
      var r := QueryNextTaskTime();
      answer := r;
      ghost var was := Model();
      NextOk(was, Init(ok, answer));
      if nextTaskTime.Some? {
        return;
      }
      if ok {
        nextTaskTime, failed := Some(r), false;
      } else {
        nextTaskTime, failed := Some(Some(clock + RETRY_DELAY)), true;
      }
    }

    /** `next_action`. */
    method NextTaskAction() returns (a: Action)
      requires Valid()
      ensures a == NextAction(Model())
      ensures nextTaskTime.Some? && !failed ==> forall id :: Triggered(Model(), id) && id !in unread ==> a.Run?
    {
      forall id | nextTaskTime.Some? && !failed && Triggered(Model(), id) && id !in unread
        ensures nextTaskTime.value.Some? && nextTaskTime.value.value < clock
      {
        assert Covers(Model(), id);
      }
      match nextTaskTime {
        case None => return Idle;
        case Some(None) => return Idle;
        case Some(Some(t)) =>
          if clock > t {
            return Run;
          }
          return Wait(t);
      }
    }

    /** The loop of `start_triggered_tasks`. */
    method MarkPending(ids: seq<nat>)
      requires Distinct(pending) && Distinct(ids) && forall k :: 0 <= k < |ids| ==> ids[k] !in pending
      modifies this`pending
      ensures Distinct(pending) && pending == old(pending) + ids
    {
      for i := 0 to |ids|
        invariant Distinct(pending) && pending == old(pending) + ids[..i]
      {
        assert ids[i] !in pending;
        pending := pending + [ids[i]];
      }
      assert ids[..|ids|] == ids;
    }

    /** `start_triggered_tasks`. */
    method StartTriggeredTasks(ok: bool) returns (ids: seq<nat>)
      requires Valid()
      modifies this`pending, this`nextTaskTime, this`failed, this`runs, this`nextRun
      ensures if ok then ListsTriggered(old(Model()), ids) else ids == []
      ensures Valid() && Model() == Next(old(Model()), StartTriggered(ok, ids))
    {
      if !ok {
        return [];
      }
      ids := QueryTriggeredTasks();
      ghost var was := Model();
      NextOk(was, StartTriggered(true, ids));
      assert Distinct(ids) && forall k :: 0 <= k < |ids| ==> ids[k] !in pending;
      hide StartRuns, Inv, ListsTriggered, Distinct;
      MarkPending(ids);
      nextTaskTime, failed := None, false;
      runs, nextRun := StartRuns(runs, nextRun, store, ids), nextRun + |ids|;
      assert Model().pending == was.pending + set id | id in ids;
    }

    /** `ack_triggered_task`.  `answers` are the store's answers to the deletion, which
        is retried until it succeeds; while none has, the call has not returned. */
    method AckTriggeredTask(id: nat, ghost run: nat, answers: seq<bool>) returns (done: bool)
      requires Valid() && Enabled(Model(), AckTask(run)) && runs[run].id == id
      modifies this`pending, this`store, this`runs
      ensures done <==> true in answers
      ensures done ==> Valid() && Model() == Next(old(Model()), AckTask(run))
      ensures !done ==> Model() == old(Model()).(pending := old(Model()).pending - {id})
    {
      ghost var was := Model();
      NextOk(was, AckTask(run));
      var index := 0;
      while index < |pending| && pending[index] != id
        invariant index <= |pending| && id !in pending[..index]
      {
        index := index + 1;
      }
      if index < |pending| {
        SwapRemoved(pending, index);
        pending := pending[index := pending[|pending| - 1]][..|pending| - 1];
      } else {
        assert pending[..index] == pending;
      }
      assert Model().pending == was.pending - {id};
      var attempt := 0;
      while attempt < |answers|
        invariant attempt <= |answers| && true !in answers[..attempt]
      {
        if answers[attempt] {
          store := store - {id};
          runs := runs - {run};
          return true;
        }
        attempt := attempt + 1;
      }
      assert answers[..attempt] == answers;
      return false;
    }

    /** `script_started`. */
    method OnScriptStarted(names: seq<string>)
      requires Valid()
      modifies this`taskNames, this`nextTaskTime, this`failed
      ensures Valid() && Model() == Next(old(Model()), ScriptStarted(names))
    {
      ghost var was := Model();
      NextOk(was, ScriptStarted(names));
      for i := 0 to |names|
        invariant nextTaskTime == was.next && failed == was.failed && Distinct(taskNames)
        invariant forall n :: n in taskNames <==> n in was.names || n in names[..i]
      {
        assert names[..i + 1] == names[..i] + [names[i]];
        if names[i] in taskNames {
          continue;
        }
        taskNames := taskNames + [names[i]];
      }
      assert names[..|names|] == names;
      nextTaskTime, failed := None, false;
      assert Model().names == was.names + set n | n in names;
    }

    /** The task part of `reset_contribs`. */
    method ResetContribs(ghost noticesLost: bool)
      requires Valid()
      modifies this`pending, this`taskNames, this`nextTaskTime, this`failed, this`unread, this`runs
      ensures Valid() && Model() == Next(old(Model()), Reset(noticesLost))
    {
      pending := [];
      taskNames := [];
      nextTaskTime, failed := None, false;
      unread, runs := if noticesLost then [] else unread, Undispatched(runs);
    }
  }
}
