/**
 The scheduled task manager's state as a function of the run that led to it: which
 task names are registered, which tasks are pending, and what the cached next task
 time is.
 */
module TaskHistory {
  import opened Common
  import opened ScheduledTasks

  // ----- registered names -----

  /** A script that started at step `j` registered `n`, and no reset came since. */
  ghost predicate NamedAt(steps: seq<Step>, j: nat, k: nat, n: string)
    requires k <= |steps|
  {
    j < k && steps[j].ScriptStarted? && n in steps[j].taskNames && forall i :: j < i < k ==> !steps[i].Reset?
  }

  ghost predicate Named(steps: seq<Step>, k: nat, n: string)
    requires k <= |steps|
  {
    exists j: nat :: NamedAt(steps, j, k, n)
  }

  lemma {:induction false} NamedStep(steps: seq<Step>, k: nat, n: string)
    requires 0 < k <= |steps|
    ensures Named(steps, k, n) <==>
      || (steps[k - 1].ScriptStarted? && n in steps[k - 1].taskNames)
      || (!steps[k - 1].Reset? && Named(steps, k - 1, n))
  {
    if Named(steps, k, n) {
      var j: nat :| NamedAt(steps, j, k, n);
      assert j < k - 1 ==> NamedAt(steps, j, k - 1, n);
    }
    if steps[k - 1].ScriptStarted? && n in steps[k - 1].taskNames {
      assert NamedAt(steps, k - 1, k, n);
    }
    var was := k - 1;
    if !steps[was].Reset? && Named(steps, was, n) {
      var j: nat :| NamedAt(steps, j, was, n);
      assert NamedAt(steps, j, k, n);
    }
  }

  /** In every run, a task name is registered exactly when a script that contributes it
      started since the last reset. */
  lemma {:induction false} NamesExactly(states: seq<State>, steps: seq<Step>, k: nat, n: string)
    requires ValidRun(states, steps) && k < |states|
    ensures n in states[k].names <==> Named(steps, k, n)
  {
    if k > 0 {
      NamesExactly(states, steps, k - 1, n);
      NamedStep(steps, k, n);
      hide Named;
    }
  }

  // ----- pending tasks -----

  /** The pending tasks are cleared, or `id` is acknowledged. */
  ghost predicate Ends(s: State, step: Step, id: nat) {
    step.Reset? || (step.AckTask? && step.run in s.runs && s.runs[step.run].id == id)
  }

  /** `id` was started at step `j` and neither acknowledged nor reset since. */
  ghost predicate StartedAt(states: seq<State>, steps: seq<Step>, j: nat, k: nat, id: nat)
    requires k <= |steps| <= |states|
  {
    && j < k && steps[j].StartTriggered? && steps[j].ok && id in steps[j].ids
    && forall i :: j < i < k ==> !Ends(states[i], steps[i], id)
  }

  ghost predicate Outstanding(states: seq<State>, steps: seq<Step>, k: nat, id: nat)
    requires k <= |steps| <= |states|
  {
    exists j: nat :: StartedAt(states, steps, j, k, id)
  }

  lemma {:induction false} StartedStep(states: seq<State>, steps: seq<Step>, k: nat, id: nat)
    requires 0 < k <= |steps| <= |states|
    ensures Outstanding(states, steps, k, id) <==>
      || (steps[k - 1].StartTriggered? && steps[k - 1].ok && id in steps[k - 1].ids)
      || (!Ends(states[k - 1], steps[k - 1], id) && Outstanding(states, steps, k - 1, id))
  {
    hide Ends;
    var was := k - 1;
    if Outstanding(states, steps, k, id) {
      var j: nat :| StartedAt(states, steps, j, k, id);
      assert j < k - 1 ==> StartedAt(states, steps, j, k - 1, id);
    }
    if steps[k - 1].StartTriggered? && steps[k - 1].ok && id in steps[k - 1].ids {
      assert StartedAt(states, steps, k - 1, k, id);
    }
    if !Ends(states[was], steps[was], id) && Outstanding(states, steps, was, id) {
      var j: nat :| StartedAt(states, steps, j, was, id);
      assert StartedAt(states, steps, j, k, id);
    }
  }

  /** In every run, a task is pending exactly when it was started and since then no
      run of it was acknowledged and no reset came. */
  lemma {:induction false} PendingExactly(states: seq<State>, steps: seq<Step>, k: nat, id: nat)
    requires ValidRun(states, steps) && k < |states|
    ensures id in states[k].pending <==> Outstanding(states, steps, k, id)
  {
    if k > 0 {
      PendingExactly(states, steps, k - 1, id);
      StartedStep(states, steps, k, id);
      hide Outstanding, StartRuns;
    }
  }

  lemma {:induction false} RunForEach(runs: map<nat, Started>, next: nat, store: map<nat, Task>, ids: seq<nat>, r: nat)
    requires forall k :: 0 <= k < |ids| ==> ids[k] in store
    ensures var after := StartRuns(runs, next, store, ids);
      && (next <= r < next + |ids| ==>
            r in after && after[r] == Started(ids[r - next], store[ids[r - next]].version, false))
      && (!(next <= r < next + |ids|) ==> (r in after <==> r in runs) && (r in runs ==> after[r] == runs[r]))
    decreases |ids|
  {
    if ids != [] {
      RunForEach(runs[next := Started(ids[0], store[ids[0]].version, false)], next + 1, store, ids[1..], r);
    }
  }

  /** Whenever due tasks are started, each gets one run of the version stored then, and
      other runs are left alone. */
  lemma {:induction false} RunsStartedExactly(states: seq<State>, steps: seq<Step>, k: nat, r: nat)
    requires ValidRun(states, steps) && k < |steps| && steps[k].StartTriggered? && steps[k].ok
    ensures var ids, s, t := steps[k].ids, states[k], states[k + 1];
      if s.nextRun <= r < s.nextRun + |ids| then
        r in t.runs && ids[r - s.nextRun] in s.store
        && t.runs[r] == Started(ids[r - s.nextRun], s.store[ids[r - s.nextRun]].version, false)
      else (r in t.runs <==> r in s.runs) && (r in s.runs ==> t.runs[r] == s.runs[r])
  {
    RunForEach(states[k].runs, states[k].nextRun, states[k].store, steps[k].ids, r);
  }

  // ----- the cached time -----

  /** The events after which the cached time is fetched again. */
  predicate Clears(step: Step) {
    step.ScriptStarted? || step.Reset? || step.Notice? || (step.StartTriggered? && step.ok)
  }

  /** The cache was filled at step `j` and is still valid. */
  ghost predicate FetchedAt(states: seq<State>, steps: seq<Step>, j: nat, k: nat)
    requires k <= |steps| <= |states|
  {
    j < k && steps[j].Init? && states[j].next.None? && forall i :: j < i < k ==> !Clears(steps[i])
  }

  ghost predicate Fetched(states: seq<State>, steps: seq<Step>, k: nat)
    requires k <= |steps| <= |states|
  {
    exists j: nat :: FetchedAt(states, steps, j, k)
  }

  /** What the cache holds after being filled at step `j`. */
  ghost predicate CacheFrom(states: seq<State>, steps: seq<Step>, j: nat, s: State)
    requires j < |steps| <= |states| && steps[j].Init?
  {
    && s.failed == !steps[j].ok
    && s.next == Some(if steps[j].ok then steps[j].answer else Some(states[j].clock + 10_000))
    && (steps[j].ok ==> IsNextTime(states[j], steps[j].answer))
  }

  lemma {:induction false} FetchedStep(states: seq<State>, steps: seq<Step>, k: nat)
    requires 0 < k <= |steps| <= |states|
    ensures Fetched(states, steps, k) <==>
      || (steps[k - 1].Init? && states[k - 1].next.None?)
      || (!Clears(steps[k - 1]) && Fetched(states, steps, k - 1))
  {
    hide Clears;
    var was := k - 1;
    if Fetched(states, steps, k) {
      var j: nat :| FetchedAt(states, steps, j, k);
      assert j < was ==> FetchedAt(states, steps, j, was);
    }
    if steps[was].Init? && states[was].next.None? {
      assert FetchedAt(states, steps, was, k);
    }
    if !Clears(steps[was]) && Fetched(states, steps, was) {
      var j: nat :| FetchedAt(states, steps, j, was);
      assert FetchedAt(states, steps, j, k);
    }
  }

  lemma {:induction false} CacheHolds(states: seq<State>, steps: seq<Step>, j: nat, k: nat)
    requires ValidRun(states, steps) && k < |states| && FetchedAt(states, steps, j, k)
    ensures CacheFrom(states, steps, j, states[k])
  {
    hide StartRuns, IsNextTime;
    if j + 1 < k {
      CacheHolds(states, steps, j, k - 1);
      assert !Clears(steps[k - 1]);
    }
  }

  /** In every run, the cache is filled exactly when it was fetched since the last event
      that clears it, and then it holds the answer, or ten seconds from then if the
      fetch failed. */
  lemma {:induction false} CacheExactly(states: seq<State>, steps: seq<Step>, k: nat)
    requires ValidRun(states, steps) && k < |states|
    ensures states[k].next.Some? <==> Fetched(states, steps, k)
    ensures forall j: nat :: FetchedAt(states, steps, j, k) ==> CacheFrom(states, steps, j, states[k])
  {
    forall j: nat | FetchedAt(states, steps, j, k)
      ensures CacheFrom(states, steps, j, states[k])
    {
      CacheHolds(states, steps, j, k);
    }
    if k > 0 {
      CacheExactly(states, steps, k - 1);
      FetchedStep(states, steps, k);
      hide Fetched, StartRuns, IsNextTime, CacheFrom, FetchedAt;
    }
  }
}
