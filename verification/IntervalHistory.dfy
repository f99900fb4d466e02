/**
 The interval timer manager's steps pinned from outside: what scripts that start leave
 loaded and stored, what an ack reschedules, and which firings are pending.
 */
module IntervalHistory {
  import opened Common
  import opened IntervalTimers
  import opened IntervalRuns

  // ----- scripts that start -----

  /** The last run of a contributed timer: what the store remembers, else now. */
  function LastRunOf(s: State, x: string): int {
    if x in s.store then s.store[x].lastRun else s.clock
  }

  /** `i` is the last contribution named `x`. */
  ghost predicate LastNamed(cs: seq<Contrib>, i: nat, x: string) {
    i < |cs| && cs[i].name == x && forall j :: i < j < |cs| ==> cs[j].name != x
  }

  /** The contribution can be scheduled: its cron expression has a next time. */
  predicate Schedulable(cron: CronTable, c: Contrib, lastRun: int) {
    c.interval.Minutes? || cron(c.interval.expr, lastRun).Then?
  }

  /** `i` is the last schedulable contribution named `x`. */
  ghost predicate LastSchedulable(cron: CronTable, cs: seq<Contrib>, i: nat, x: string, lastRun: int) {
    && i < |cs| && cs[i].name == x && Schedulable(cron, cs[i], lastRun)
    && forall j :: i < j < |cs| ==> cs[j].name != x || !Schedulable(cron, cs[j], lastRun)
  }

  /** Loaded from the contribution: asked for as contributed, kept as the store returns
      it, and due one interval after its last run. */
  ghost predicate LoadedFrom(cron: CronTable, t: State, c: Contrib, lastRun: int) {
    && c.name in t.loaded && t.loaded[c.name].asked == c.interval && t.loaded[c.name].lastRun == lastRun
    && (match c.interval
        case Minutes(m) =>
          && t.loaded[c.name].interval == Minutes(Narrow(m))
          && t.loaded[c.name].nextRun == lastRun + Signed(Narrow(m)) * 60_000
        case Cron(e) => t.loaded[c.name].interval == Cron(e) && cron(e, lastRun) == Then(t.loaded[c.name].nextRun))
  }

  lemma {:induction false} OthersStay(cron: CronTable, s: State, cs: seq<Contrib>, rows: map<string, Stored>, x: string)
    ensures var t := InitTimers(cron, s, cs, rows);
      && t.clock == s.clock && t.pending == s.pending
      && ((forall i :: 0 <= i < |cs| ==> cs[i].name != x) ==>
            (x in t.store <==> x in s.store) && (x in s.store ==> t.store[x] == s.store[x]))
    decreases |cs|
  {
    if cs != [] {
      OthersStay(cron, InitTimer(cron, s, cs[0], rows), cs[1..], rows, x);
    }
  }

  lemma {:induction false} StoredLast(cron: CronTable, s: State, cs: seq<Contrib>, rows: map<string, Stored>, i: nat,
      x: string)
    requires LastNamed(cs, i, x)
    ensures var t := InitTimers(cron, s, cs, rows);
      && x in t.store && t.store[x].interval == Returned(cs[i].interval)
      && t.store[x].lastRun == if x in rows then rows[x].lastRun else s.clock
    decreases |cs|
  {
    var u := InitTimer(cron, s, cs[0], rows);
    if i == 0 {
      OthersStay(cron, u, cs[1..], rows, x);
    } else {
      StoredLast(cron, u, cs[1..], rows, i - 1, x);
    }
  }

  /** None of the contributions loads `x`. */
  ghost predicate NoneLoads(cron: CronTable, cs: seq<Contrib>, x: string, lastRun: int) {
    forall i :: 0 <= i < |cs| ==> cs[i].name != x || !Schedulable(cron, cs[i], lastRun)
  }

  lemma {:induction false} LoadedStay(cron: CronTable, s: State, cs: seq<Contrib>, rows: map<string, Stored>, x: string)
    requires NoneLoads(cron, cs, x, if x in rows then rows[x].lastRun else s.clock)
    ensures var t := InitTimers(cron, s, cs, rows);
      (x in t.loaded <==> x in s.loaded) && (x in s.loaded ==> t.loaded[x] == s.loaded[x])
    decreases |cs|
  {
    if cs != [] {
      var u := InitTimer(cron, s, cs[0], rows);
      assert (x in u.loaded <==> x in s.loaded) && (x in s.loaded ==> u.loaded[x] == s.loaded[x]) && u.clock == s.clock;
      LoadedStay(cron, u, cs[1..], rows, x);
    }
  }

  lemma {:induction false} LoadedLast(cron: CronTable, s: State, cs: seq<Contrib>, rows: map<string, Stored>, i: nat,
      x: string)
    requires LastSchedulable(cron, cs, i, x, if x in rows then rows[x].lastRun else s.clock)
    ensures var lastRun := if x in rows then rows[x].lastRun else s.clock;
      LoadedFrom(cron, InitTimers(cron, s, cs, rows), cs[i], lastRun)
    decreases |cs|
  {
    var u := InitTimer(cron, s, cs[0], rows);
    if i == 0 {
      LoadedStay(cron, u, cs[1..], rows, x);
    } else {
      LoadedLast(cron, u, cs[1..], rows, i - 1, x);
    }
  }

  /** Scripts that start leave in the store, for every timer name, the last contribution
      with the last run stored before or else now, or what was there if there is none. */
  lemma {:induction false} StoredExactly(cron: CronTable, s: State, cs: seq<Contrib>, x: string)
    ensures var t := Next(cron, s, ScriptStarted(cs));
      && (forall i: nat :: LastNamed(cs, i, x) ==>
            x in t.store && t.store[x] == Stored(Returned(cs[i].interval), LastRunOf(s, x)))
      && ((forall i :: 0 <= i < |cs| ==> cs[i].name != x) ==>
            (x in t.store <==> x in s.store) && (x in s.store ==> t.store[x] == s.store[x]))
      && t.pending == s.pending && t.clock == s.clock
  {
    hide InitTimers;
    OthersStay(cron, s, cs, s.store, x);
    forall i: nat | LastNamed(cs, i, x)
      ensures var t := InitTimers(cron, s, cs, s.store);
        x in t.store && t.store[x] == Stored(Returned(cs[i].interval), LastRunOf(s, x))
    {
      StoredLast(cron, s, cs, s.store, i, x);
    }
  }

  /** They leave loaded, for every timer name, the last contribution that can be
      scheduled, due one interval after that last run, or what was there if there is
      none. */
  lemma {:induction false} LoadedExactly(cron: CronTable, s: State, cs: seq<Contrib>, x: string)
    ensures var t, lastRun := Next(cron, s, ScriptStarted(cs)), LastRunOf(s, x);
      && (forall i: nat :: LastSchedulable(cron, cs, i, x, lastRun) ==> LoadedFrom(cron, t, cs[i], lastRun))
      && (NoneLoads(cron, cs, x, lastRun) ==>
            (x in t.loaded <==> x in s.loaded) && (x in s.loaded ==> t.loaded[x] == s.loaded[x]))
  {
    hide InitTimers, LoadedFrom, NoneLoads;
    forall i: nat | LastSchedulable(cron, cs, i, x, LastRunOf(s, x))
      ensures LoadedFrom(cron, InitTimers(cron, s, cs, s.store), cs[i], LastRunOf(s, x))
    {
      LoadedLast(cron, s, cs, s.store, i, x);
    }
    if NoneLoads(cron, cs, x, LastRunOf(s, x)) {
      LoadedStay(cron, s, cs, s.store, x);
    }
  }

  // ----- acks -----

  /** When a timer runs again after it ran at `now`: a cron expression without a next
      time puts it off by 1000 hours. */
  ghost predicate RunsAgain(cron: CronTable, i: Interval, now: int, next: int) {
    match i
    case Minutes(m) => next == now + Signed(m) * 60_000
    case Cron(e) => if cron(e, now).Then? then cron(e, now) == Then(next) else next == now + 3_600_000_000
  }

  /** The ack of a pending timer removes it from the pending ones, and if it is loaded
      makes now its last run, in the store too if the write succeeds; any other ack and
      any other timer change nothing. */
  lemma {:induction false} AckExactly(cron: CronTable, s: State, x: string, ok: bool, y: string)
    ensures var t := Next(cron, s, TimerAck(x, ok));
      && (x !in s.pending ==> t == s) && t.pending == s.pending - {x}
      && (y in t.loaded <==> y in s.loaded) && t.clock == s.clock
      && (y in s.loaded && (y != x || x !in s.pending) ==> t.loaded[y] == s.loaded[y])
      && (x in s.pending && x in s.loaded ==>
            && t.loaded[x].lastRun == s.clock && t.loaded[x].interval == s.loaded[x].interval
            && RunsAgain(cron, t.loaded[x].interval, s.clock, t.loaded[x].nextRun))
      && t.store == if x in s.pending && x in s.loaded && ok
                    then s.store[x := Stored(Returned(s.loaded[x].interval), s.clock)] else s.store
  {
    var t := Next(cron, s, TimerAck(x, ok));
    if x in s.pending && x in s.loaded {
      assert t.loaded[x].nextRun == NextOrFar(cron, s.loaded[x].interval, s.clock);
    }
  }

  // ----- firings -----

  /** Triggering makes the named timers pending, records one firing for each, and
      changes nothing else. */
  lemma {:induction false} FiresExactly(s: State, names: seq<string>)
    requires forall i :: 0 <= i < |names| ==> names[i] in s.loaded
    ensures var t := Fire(s, names);
      && t == s.(pending := t.pending, log := t.log)
      && (forall x :: x in t.pending <==> x in s.pending || x in names)
      && |t.log| == |s.log| + |names| && t.log[..|s.log|] == s.log
      && forall i :: 0 <= i < |names| ==>
           var e, w := t.log[|s.log| + i], s.loaded[names[i]];
           e == Fired(names[i], s.clock, w.asked, w.interval, w.lastRun)
    decreases |names|
  {
    if names != [] {
      assert names == [names[0]] + names[1..];
      var u := FireOne(s, names[0]);
      FiresExactly(u, names[1..]);
      var t := Fire(s, names);
      assert t.log[..|s.log|] == t.log[..|u.log|][..|s.log|] == s.log;
      assert t.log[|s.log|] == t.log[..|u.log|][|s.log|];
      forall i | 0 < i < |names|
        ensures var e, w := t.log[|s.log| + i], s.loaded[names[i]];
           e == Fired(names[i], s.clock, w.asked, w.interval, w.lastRun)
      {
        assert names[i] == names[1..][i - 1] && |s.log| + i == |u.log| + (i - 1);
      }
    }
  }

  predicate EndsFiring(step: Step, x: string) {
    step.ClearPending? || (step.TimerAck? && step.name == x)
  }

  /** `x` fired at step `j` and was neither acknowledged nor cleared since. */
  ghost predicate FiredAt(steps: seq<Step>, j: nat, k: nat, x: string)
    requires k <= |steps|
  {
    j < k && steps[j].Trigger? && x in steps[j].names && forall i :: j < i < k ==> !EndsFiring(steps[i], x)
  }

  ghost predicate Unanswered(steps: seq<Step>, k: nat, x: string)
    requires k <= |steps|
  {
    exists j: nat :: FiredAt(steps, j, k, x)
  }

  lemma {:induction false} UnansweredStep(steps: seq<Step>, k: nat, x: string)
    requires 0 < k <= |steps|
    ensures Unanswered(steps, k, x) <==>
      || (steps[k - 1].Trigger? && x in steps[k - 1].names)
      || (!EndsFiring(steps[k - 1], x) && Unanswered(steps, k - 1, x))
  {
    hide EndsFiring;
    var was := k - 1;
    if Unanswered(steps, k, x) {
      var j: nat :| FiredAt(steps, j, k, x);
      assert j < was ==> FiredAt(steps, j, was, x);
    }
    if steps[was].Trigger? && x in steps[was].names {
      assert FiredAt(steps, was, k, x);
    }
    if !EndsFiring(steps[was], x) && Unanswered(steps, was, x) {
      var j: nat :| FiredAt(steps, j, was, x);
      assert FiredAt(steps, j, k, x);
    }
  }

  lemma {:induction false} StepPending(cron: CronTable, s: State, step: Step, x: string)
    requires Enabled(s, step)
    ensures x in Next(cron, s, step).pending <==>
      (step.Trigger? && x in step.names) || (!EndsFiring(step, x) && x in s.pending)
  {
    match step {
      case Trigger(names) => FiresExactly(s, names);
      case ScriptStarted(cs) => OthersStay(cron, s, cs, s.store, x);
      case TimerAck(y, ok) => AckExactly(cron, s, y, ok, x);
      case _ =>
    }
  }

  /** In every run, a timer is pending exactly when it fired and was neither
      acknowledged nor cleared since. */
  lemma {:induction false} PendingExactly(cron: CronTable, states: seq<State>, steps: seq<Step>, k: nat, x: string)
    requires ValidRun(cron, states, steps) && k < |states|
    ensures x in states[k].pending <==> Unanswered(steps, k, x)
  {
    if k > 0 {
      PendingExactly(cron, states, steps, k - 1, x);
      UnansweredStep(steps, k, x);
      StepPending(cron, states[k - 1], steps[k - 1], x);
      hide Unanswered, Next, EndsFiring;
    }
  }
}
