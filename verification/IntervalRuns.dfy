/**
 Interval spacing over every run of the interval timer manager, through resets
 that clear and reload the timers.
 */
module IntervalRuns {
  import opened Common
  import opened IntervalTimers

  datatype Step =
    | Tick(now: int)
    | Trigger(names: seq<string>)
    | TimerAck(name: string, writeOk: bool)
    | ScriptStarted(timers: seq<Contrib>)
    | ClearLoaded
    | ClearPending

  ghost predicate Enabled(s: State, step: Step) {
    match step
    case Tick(now) => now >= s.clock
    case Trigger(names) => ListsDue(s, names)
    case _ => true
  }

  function Next(cron: CronTable, s: State, step: Step): State
    requires Enabled(s, step)
  {
    match step
    case Tick(now) => s.(clock := now)
    case Trigger(names) => Fire(s, names)
    case TimerAck(x, ok) => Ack(cron, s, x, ok)
    case ScriptStarted(cs) => InitTimers(cron, s, cs, s.store)
    case ClearLoaded => s.(loaded := map[])
    case ClearPending => s.(pending := {}, log := s.log + [PendingCleared])
  }

  ghost predicate ValidRun(cron: CronTable, states: seq<State>, steps: seq<Step>) {
    && |states| == |steps| + 1
    && states[0] == State(states[0].clock, states[0].store, map[], {}, [])
    && forall i :: 0 <= i < |steps| ==> Enabled(states[i], steps[i]) && states[i + 1] == Next(cron, states[i], steps[i])
  }

  // ----- reading the history -----

  ghost predicate IsAck(e: Entry, x: string) { e.Acked? && e.name == x && e.accepted }
  ghost predicate IsStoredAck(e: Entry, x: string) { IsAck(e, x) && e.stored }

  /** Some accepted ack of `x` from position `i` on reached the store. */
  ghost predicate Secure(log: seq<Entry>, x: string, i: nat) {
    exists k :: i <= k < |log| && IsStoredAck(log[k], x)
  }

  /** `x` was not loaded again after position `i`. */
  ghost predicate Untouched(log: seq<Entry>, x: string, i: nat) {
    forall k :: i < k < |log| ==> log[k] != Loaded(x)
  }

  ghost predicate Covered(log: seq<Entry>, x: string, i: nat) {
    Secure(log, x, i) || Untouched(log, x, i)
  }

  lemma {:induction false} Extend(log: seq<Entry>, e: Entry, x: string, i: nat)
    requires i < |log|
    ensures Secure(log + [e], x, i) <==> Secure(log, x, i) || IsStoredAck(e, x)
    ensures Untouched(log + [e], x, i) <==> Untouched(log, x, i) && e != Loaded(x)
  {
    var l := log + [e];
    assert l[|log|] == e && forall k :: 0 <= k < |log| ==> l[k] == log[k];
    if Secure(log, x, i) {
      var k :| i <= k < |log| && IsStoredAck(log[k], x);
      assert IsStoredAck(l[k], x);
    }
    if Untouched(l, x, i) {
      forall k | i < k < |log| ensures log[k] != Loaded(x) { assert l[k] != Loaded(x); }
      assert l[|log|] != Loaded(x);
    }
  }

  // ----- the invariant -----

  ghost predicate NextRunsOk(cron: CronTable, s: State) {
    forall x :: x in s.loaded ==>
      && s.loaded[x].nextRun == NextOrFar(cron, s.loaded[x].interval, s.loaded[x].lastRun)
      && s.loaded[x].interval == Returned(s.loaded[x].asked)
  }

  /** What the store and the loaded timer know of the ack at position `i`. */
  ghost predicate Remembers(s: State, i: nat)
    requires i < |s.log| && s.log[i].Acked?
  {
    var x, at := s.log[i].name, s.log[i].at;
    && at <= s.clock
    && (Secure(s.log, x, i) ==> x in s.store && s.store[x].lastRun >= at)
    && (Covered(s.log, x, i) && x in s.loaded ==> s.loaded[x].lastRun >= at)
  }

  ghost predicate AcksOk(s: State) {
    forall i :: 0 <= i < |s.log| && s.log[i].Acked? && s.log[i].accepted ==> Remembers(s, i)
  }

  ghost predicate AcksOrdered(log: seq<Entry>) {
    forall i, k :: 0 <= i < k < |log| && log[i].Acked? && log[i].accepted && log[k].Acked? && log[k].accepted ==>
      log[i].at <= log[k].at
  }

  /** The firing at `j` came after its next run time, whose last run is no
      earlier than any ack it had to respect. */
  ghost predicate FiringOk(cron: CronTable, log: seq<Entry>, j: nat)
    requires j < |log| && log[j].Fired?
  {
    && log[j].at > NextOrFar(cron, log[j].interval, log[j].lastRun) && log[j].interval == Returned(log[j].asked)
    && forall i :: 0 <= i < j && IsAck(log[i], log[j].name) && Covered(log[..j], log[j].name, i) ==>
      log[i].at <= log[j].lastRun
  }

  ghost predicate FiringsOk(cron: CronTable, log: seq<Entry>) {
    forall j :: 0 <= j < |log| && log[j].Fired? ==> FiringOk(cron, log, j)
  }

  ghost predicate Clears(e: Entry, x: string) { (e.Acked? && e.name == x) || e.PendingCleared? }

  /** Nothing cleared `x` between positions `i` and `j`. */
  ghost predicate Uncleared(log: seq<Entry>, x: string, i: nat, j: nat)
    requires j <= |log|
  {
    forall k :: i < k < j ==> !Clears(log[k], x)
  }

  ghost predicate PendingOk(s: State) {
    forall i :: 0 <= i < |s.log| && s.log[i].Fired? && Uncleared(s.log, s.log[i].name, i, |s.log|) ==>
      s.log[i].name in s.pending
  }

  ghost predicate SingleFirings(log: seq<Entry>) {
    forall i, j :: 0 <= i < j < |log| && log[i].Fired? && log[j].Fired? && log[i].name == log[j].name ==>
      !Uncleared(log, log[i].name, i, j)
  }

  ghost predicate Inv(cron: CronTable, s: State) {
    && NextRunsOk(cron, s) && AcksOk(s) && AcksOrdered(s.log)
    && FiringsOk(cron, s.log) && PendingOk(s) && SingleFirings(s.log)
  }

  // ----- appending one entry -----

  lemma {:induction false} FiringsExtend(cron: CronTable, log: seq<Entry>, e: Entry)
    requires FiringsOk(cron, log)
    requires e.Fired? ==> FiringOk(cron, log + [e], |log|)
    ensures FiringsOk(cron, log + [e])
  {
    var l := log + [e];
    forall j | 0 <= j < |l| && l[j].Fired? ensures FiringOk(cron, l, j) {
      if j < |log| {
        assert FiringOk(cron, log, j) && l[..j] == log[..j];
      }
    }
  }

  lemma {:induction false} UnclearedExtend(log: seq<Entry>, e: Entry, x: string, i: nat, j: nat)
    requires i < |log| && j <= |log|
    ensures Uncleared(log + [e], x, i, j) <==> Uncleared(log, x, i, j)
    ensures Uncleared(log + [e], x, i, |log| + 1) <==> Uncleared(log, x, i, |log|) && !Clears(e, x)
  {
    var l := log + [e];
    assert l[|log|] == e && forall k :: 0 <= k < |log| ==> l[k] == log[k];
    if Uncleared(l, x, i, |log| + 1) {
      assert !Clears(l[|log|], x);
      assert forall k :: i < k < |log| ==> !Clears(l[k], x);
    }
  }

  lemma {:induction false} SinglesExtend(s: State, e: Entry)
    requires SingleFirings(s.log) && PendingOk(s) && (e.Fired? ==> e.name !in s.pending)
    ensures SingleFirings(s.log + [e])
  {
    var l := s.log + [e];
    forall i, j | 0 <= i < j < |l| && l[i].Fired? && l[j].Fired? && l[i].name == l[j].name
      ensures !Uncleared(l, l[i].name, i, j)
    {
      UnclearedExtend(s.log, e, l[i].name, i, j);
    }
  }

  lemma {:induction false} PendingExtend(s: State, e: Entry, pending: set<string>)
    requires PendingOk(s)
    requires forall x :: x in s.pending && x !in pending ==> Clears(e, x)
    requires e.Fired? ==> e.name in pending
    ensures PendingOk(s.(log := s.log + [e], pending := pending))
  {
    var t := s.(log := s.log + [e], pending := pending);
    forall i | 0 <= i < |t.log| && t.log[i].Fired? && Uncleared(t.log, t.log[i].name, i, |t.log|)
      ensures t.log[i].name in pending
    {
      if i < |s.log| { UnclearedExtend(s.log, e, t.log[i].name, i, |s.log|); }
    }
  }

  // ----- steps -----

  lemma {:induction false} FireOneOk(cron: CronTable, s: State, x: string)
    requires Inv(cron, s) && Due(s, x)
    ensures Inv(cron, FireOne(s, x))
  {
    var t := FireOne(s, x);
    var e := t.log[|s.log|];
    assert t.log == s.log + [e] && t.log[..|s.log|] == s.log;
    forall i | 0 <= i < |s.log| && IsAck(s.log[i], x) && Covered(s.log, x, i)
      ensures s.log[i].at <= s.loaded[x].lastRun
    {
      assert Remembers(s, i);
    }
    assert FiringOk(cron, t.log, |s.log|);
    FiringsExtend(cron, s.log, e);
    SinglesExtend(s, e);
    PendingExtend(s, e, t.pending);
    AcksExtend(s, t, e);
  }

  /** An entry that is neither an ack nor a load leaves what is remembered alone. */
  lemma {:induction false} AcksExtend(s: State, t: State, e: Entry)
    requires AcksOk(s) && t.log == s.log + [e] && !e.Acked? && !e.Loaded?
    requires t.clock >= s.clock && t.store == s.store
    requires forall x :: x in t.loaded ==> x in s.loaded && t.loaded[x] == s.loaded[x]
    ensures AcksOk(t)
  {
    forall i | 0 <= i < |t.log| && t.log[i].Acked? && t.log[i].accepted ensures Remembers(t, i) {
      assert Remembers(s, i);
      Extend(s.log, e, t.log[i].name, i);
    }
  }

  lemma {:induction false} FireOk(cron: CronTable, s: State, names: seq<string>)
    requires Inv(cron, s) && Distinct(names) && forall k :: 0 <= k < |names| ==>
          names[k] in s.loaded && Due(s, names[k])
    ensures Inv(cron, Fire(s, names))
    decreases |names|
  {
    hide Inv;
    if names != [] {
      FireOneOk(cron, s, names[0]);
      FireOk(cron, FireOne(s, names[0]), names[1..]);
    }
  }

  lemma {:induction false} AckRemembered(cron: CronTable, s: State, x: string, ok: bool)
    requires AcksOk(s) && x in s.pending
    ensures AcksOk(Ack(cron, s, x, ok))
  {
    var t := Ack(cron, s, x, ok);
    var e := Acked(x, s.clock, x in s.loaded, ok);
    assert t.log == s.log + [e];
    forall i | 0 <= i < |t.log| && t.log[i].Acked? && t.log[i].accepted ensures Remembers(t, i) {
      if i < |s.log| {
        assert Remembers(s, i);
        Extend(s.log, e, t.log[i].name, i);
      } else {
        assert Secure(t.log, x, i) ==> ok;
      }
    }
  }

  lemma {:induction false} AckOk(cron: CronTable, s: State, x: string, ok: bool)
    requires Inv(cron, s)
    ensures Inv(cron, Ack(cron, s, x, ok))
  {
    if x in s.pending {
      var t := Ack(cron, s, x, ok);
      var e := Acked(x, s.clock, x in s.loaded, ok);
      assert t.log == s.log + [e];
      AckRemembered(cron, s, x, ok);
      FiringsExtend(cron, s.log, e);
      SinglesExtend(s, e);
      PendingExtend(s, e, t.pending);
    }
  }

  /** Rows read from the store remember every stored ack. */
  ghost predicate RowsOk(s: State, rows: map<string, Stored>) {
    forall i :: 0 <= i < |s.log| && s.log[i].Acked? && s.log[i].accepted && Secure(s.log, s.log[i].name, i) ==>
      s.log[i].name in rows && rows[s.log[i].name].lastRun >= s.log[i].at
  }

  lemma {:induction false} InitRemembered(cron: CronTable, s: State, c: Contrib, rows: map<string, Stored>)
    requires AcksOk(s) && RowsOk(s, rows)
    ensures AcksOk(InitTimer(cron, s, c, rows)) && RowsOk(InitTimer(cron, s, c, rows), rows)
  {
    var t := InitTimer(cron, s, c, rows);
    var e := Loaded(c.name);
    forall i | 0 <= i < |t.log| && t.log[i].Acked? && t.log[i].accepted
      ensures Remembers(t, i)
      ensures Secure(t.log, t.log[i].name, i) ==> t.log[i].name in rows && rows[t.log[i].name].lastRun >= t.log[i].at
    {
      assert Remembers(s, i);
      if t.log != s.log { Extend(s.log, e, t.log[i].name, i); }
    }
  }

  lemma {:induction false} InitOk(cron: CronTable, s: State, c: Contrib, rows: map<string, Stored>)
    requires Inv(cron, s) && RowsOk(s, rows)
    ensures Inv(cron, InitTimer(cron, s, c, rows)) && RowsOk(InitTimer(cron, s, c, rows), rows)
  {
    var t := InitTimer(cron, s, c, rows);
    InitRemembered(cron, s, c, rows);
    if t.log != s.log {
      var e := Loaded(c.name);
      FiringsExtend(cron, s.log, e);
      SinglesExtend(s, e);
      PendingExtend(s, e, t.pending);
    }
  }

  lemma {:induction false} InitAllOk(cron: CronTable, s: State, cs: seq<Contrib>, rows: map<string, Stored>)
    requires Inv(cron, s) && RowsOk(s, rows)
    ensures Inv(cron, InitTimers(cron, s, cs, rows))
    decreases |cs|
  {
    hide Inv, RowsOk, InitTimer;
    if cs != [] {
      InitOk(cron, s, cs[0], rows);
      InitAllOk(cron, InitTimer(cron, s, cs[0], rows), cs[1..], rows);
    }
  }

  lemma {:induction false} NextOk(cron: CronTable, s: State, step: Step)
    requires Inv(cron, s) && Enabled(s, step)
    ensures Inv(cron, Next(cron, s, step))
  {
    var t := Next(cron, s, step);
    match step
    case Trigger(names) => FireOk(cron, s, names);
    case TimerAck(x, ok) => AckOk(cron, s, x, ok);
    case ScriptStarted(cs) =>
      InitAllOk(cron, s, cs, s.store);
    case Tick(_) =>
    case ClearLoaded =>
    case ClearPending =>
      AcksExtend(s, t, PendingCleared);
      FiringsExtend(cron, s.log, PendingCleared);
      SinglesExtend(s, PendingCleared);
      PendingExtend(s, PendingCleared, {});
  }

  lemma {:induction false} RunOk(cron: CronTable, states: seq<State>, steps: seq<Step>, n: nat)
    requires ValidRun(cron, states, steps) && n < |states|
    ensures Inv(cron, states[n])
  {
    if n > 0 {
      RunOk(cron, states, steps, n - 1);
      NextOk(cron, states[n - 1], steps[n - 1]);
    }
  }

  // ----- the theorems -----

  /** Accepted acks are recorded in the order of their times. */
  lemma {:induction false} AcksInOrder(cron: CronTable, states: seq<State>, steps: seq<Step>, n: nat, i: nat, k: nat)
    requires ValidRun(cron, states, steps) && n < |states| && i <= k < |states[n].log|
    requires states[n].log[i].Acked? && states[n].log[i].accepted && states[n].log[k].Acked?
          && states[n].log[k].accepted
    ensures states[n].log[i].at <= states[n].log[k].at
  {
    RunOk(cron, states, steps, n);
  }

  /** A firing's last run is no earlier than any accepted ack whose time the store
      received (with that ack or a later one) or that happened since the timer was
      last loaded, and the firing comes after the next run computed from it. */
  lemma {:induction false} FiringAfterNextRun(cron: CronTable, states: seq<State>, steps: seq<Step>, n: nat, i: nat,
      j: nat)
    requires ValidRun(cron, states, steps) && n < |states| && i < j < |states[n].log|
    requires states[n].log[j].Fired? && IsAck(states[n].log[i], states[n].log[j].name)
    ensures var log := states[n].log;
      && log[j].at > NextOrFar(cron, log[j].interval, log[j].lastRun) && log[j].interval == Returned(log[j].asked)
      && (Covered(log[..j], log[j].name, i) ==> log[j].lastRun >= log[i].at)
  {
    RunOk(cron, states, steps, n);
    assert FiringOk(cron, states[n].log, j);
  }

  /** No timer fires twice without an ack for it or a reset in between. */
  lemma {:induction false} NoDoubleFiring(cron: CronTable, states: seq<State>, steps: seq<Step>, n: nat, i: nat, j: nat)
    requires ValidRun(cron, states, steps) && n < |states| && i < j < |states[n].log|
    requires states[n].log[i].Fired? && states[n].log[j].Fired? && states[n].log[i].name == states[n].log[j].name
    ensures exists k :: i < k < j && Clears(states[n].log[k], states[n].log[i].name)
  {
    RunOk(cron, states, steps, n);
    assert !Uncleared(states[n].log, states[n].log[i].name, i, j);
  }

  // ----- where the spacing fails -----

  /** A run by its steps. */
  ghost predicate Runs(cron: CronTable, s: State, steps: seq<Step>, t: State)
    decreases |steps|
  {
    if steps == [] then s == t else Enabled(s, steps[0]) && Runs(cron, Next(cron, s, steps[0]), steps[1..], t)
  }

  const TIMER := "t"
  const EMPTY := State(0, map[], map[], {}, [])
  const ROWS := map[TIMER := Stored(Minutes(1), 0)]
  const STARTED := map[TIMER := Wrapped(Minutes(1), Minutes(1), 0, MINUTE)]
  const FIRING := Fired(TIMER, 100_000, Minutes(1), Minutes(1), 0)
  const ACK := Acked(TIMER, 100_000, true, false)
  const FIRED_ONCE := State(100_000, ROWS, STARTED, {TIMER}, [Loaded(TIMER), FIRING])
  const FIRED_TWICE := State(100_000, ROWS, STARTED, {TIMER}, [Loaded(TIMER), FIRING, ACK, Loaded(TIMER), FIRING])

  lemma {:induction false} StartTimer(cron: CronTable, s: State)
    requires s.store == map[] || s.store == ROWS
    requires s.store == map[] ==> s.clock == 0
    ensures Next(cron, s, ScriptStarted([Contrib(TIMER, Minutes(1))]))
      == s.(store := ROWS, loaded := s.loaded[TIMER := Wrapped(Minutes(1), Minutes(1), 0, MINUTE)],
            log := s.log + [Loaded(TIMER)])
  {
    var c := Contrib(TIMER, Minutes(1));
    var t := InitTimer(cron, s, c, s.store);
    assert [c][1..] == [];
    assert InitTimers(cron, s, [c], s.store) == InitTimers(cron, t, [], s.store) == t;
    assert s.store[TIMER := Stored(Minutes(1), 0)] == ROWS;
  }

  lemma {:induction false} FireTimer(cron: CronTable, s: State)
    requires s.clock == 100_000 && s.loaded == STARTED && s.pending == {}
    ensures Enabled(s, Trigger([TIMER])) && Next(cron, s, Trigger([TIMER])) == s.(pending := {TIMER},
        log := s.log + [FIRING])
  {
    assert Due(s, TIMER) && [TIMER][0] == TIMER;
    assert [TIMER][1..] == [];
    assert Fire(s, [TIMER]) == Fire(FireOne(s, TIMER), []);
  }

  lemma {:induction false} FirstFiring(cron: CronTable)
    ensures Runs(cron, EMPTY, [ScriptStarted([Contrib(TIMER, Minutes(1))]), Tick(100_000), Trigger([TIMER])],
        FIRED_ONCE)
  {
    var c := ScriptStarted([Contrib(TIMER, Minutes(1))]);
    StartTimer(cron, EMPTY);
    var s1 := State(0, ROWS, STARTED, {}, [Loaded(TIMER)]);
    assert Next(cron, EMPTY, c) == s1;
    var s2 := s1.(clock := 100_000);
    FireTimer(cron, s2);
    hide Next, Enabled;
    assert Runs(cron, FIRED_ONCE, [], FIRED_ONCE);
    assert Next(cron, s2, Trigger([TIMER])) == FIRED_ONCE;
    OneStep(cron, s2, Trigger([TIMER]), [], FIRED_ONCE);
    OneStep(cron, s1, Tick(100_000), [Trigger([TIMER])], FIRED_ONCE);
    OneStep(cron, EMPTY, c, [Tick(100_000), Trigger([TIMER])], FIRED_ONCE);
    assert [Trigger([TIMER])] == [Trigger([TIMER])] + [];
    assert [Tick(100_000), Trigger([TIMER])] == [Tick(100_000)] + [Trigger([TIMER])];
    assert [c, Tick(100_000), Trigger([TIMER])] == [c] + [Tick(100_000), Trigger([TIMER])];
  }

  lemma {:induction false} SecondFiring(cron: CronTable)
    ensures Runs(cron, FIRED_ONCE, [TimerAck(TIMER, false), ClearLoaded, ScriptStarted([Contrib(TIMER, Minutes(1))]),
        Trigger([TIMER])], FIRED_TWICE)
  {
    var c := ScriptStarted([Contrib(TIMER, Minutes(1))]);
    var s4 := Next(cron, FIRED_ONCE, TimerAck(TIMER, false));
    var s5 := s4.(loaded := map[]);
    assert TIMER in ROWS;
    StartTimer(cron, s5);
    var s6 := s5.(loaded := STARTED, log := [Loaded(TIMER), FIRING, ACK, Loaded(TIMER)]);
    assert Next(cron, s5, c) == s6;
    FireTimer(cron, s6);
    assert Next(cron, s6, Trigger([TIMER])) == FIRED_TWICE;
    hide Next, Enabled;
    assert Runs(cron, FIRED_TWICE, [], FIRED_TWICE);
    OneStep(cron, s6, Trigger([TIMER]), [], FIRED_TWICE);
    OneStep(cron, s5, c, [Trigger([TIMER])], FIRED_TWICE);
    OneStep(cron, s4, ClearLoaded, [c, Trigger([TIMER])], FIRED_TWICE);
    OneStep(cron, FIRED_ONCE, TimerAck(TIMER, false), [ClearLoaded, c, Trigger([TIMER])], FIRED_TWICE);
    assert [Trigger([TIMER])] == [Trigger([TIMER])] + [];
    assert [c, Trigger([TIMER])] == [c] + [Trigger([TIMER])];
    assert [ClearLoaded, c, Trigger([TIMER])] == [ClearLoaded] + [c, Trigger([TIMER])];
    assert [TimerAck(TIMER, false), ClearLoaded, c, Trigger([TIMER])] == [TimerAck(TIMER, false)] + [ClearLoaded, c,
        Trigger([TIMER])];
  }

  lemma {:induction false} OneStep(cron: CronTable, s: State, step: Step, rest: seq<Step>, t: State)
    ensures Enabled(s, step) && Runs(cron, Next(cron, s, step), rest, t) ==> Runs(cron, s, [step] + rest, t)
  {}

  lemma {:induction false} RunsAppend(cron: CronTable, s: State, a: seq<Step>, t: State, b: seq<Step>, u: State)
    requires Runs(cron, s, a, t) && Runs(cron, t, b, u)
    ensures Runs(cron, s, a + b, u)
    decreases |a|
  {
    if a == [] {
      assert a + b == b;
    } else {
      assert (a + b)[1..] == a[1..] + b;
      RunsAppend(cron, Next(cron, s, a[0]), a[1..], t, b, u);
    }
  }

  /** A store write that fails, followed by a reload, lets a one-minute timer fire
      again at the very instant of its ack. */
  lemma {:induction false} FailedWriteBreaksSpacing(cron: CronTable)
    ensures exists steps :: Runs(cron, EMPTY, steps, FIRED_TWICE)
    ensures IsAck(FIRED_TWICE.log[2], TIMER) && FIRED_TWICE.log[4].Fired? && FIRED_TWICE.log[4].interval == Minutes(1)
    ensures FIRED_TWICE.log[4].at == FIRED_TWICE.log[2].at
  {
    FirstFiring(cron);
    SecondFiring(cron);
    RunsAppend(cron, EMPTY, [ScriptStarted([Contrib(TIMER, Minutes(1))]), Tick(100_000), Trigger([TIMER])], FIRED_ONCE,
               [TimerAck(TIMER, false), ClearLoaded, ScriptStarted([Contrib(TIMER, Minutes(1))]), Trigger([TIMER])],
                   FIRED_TWICE);
  }

  // ----- intervals that do not fit the store -----

  /** A number of minutes survives the store exactly when it is below 2^31, and comes
      back negative exactly when its lower 32 bits are not. */
  lemma {:induction false} NarrowExactly(m: u64)
    ensures Signed(Narrow(m)) == m <==> m < 0x8000_0000
    ensures Signed(Narrow(m)) >= 0 <==> m % 0x1_0000_0000 < 0x8000_0000
    ensures Narrow(Narrow(m)) == Narrow(m)
  {
    var r := m % 0x1_0000_0000;
    if r >= 0x8000_0000 {
      assert r + 0xFFFF_FFFF_0000_0000 == r + 0xFFFF_FFFF * 0x1_0000_0000;
    }
  }

  /** In every state, of every loaded timer: its next run lies the contributed number
      of minutes after its last run exactly when that number is below 2^31, and lies
      before its last run exactly when the number's lower 32 bits are 2^31 or more. */
  lemma {:induction false} NextRunAsAskedExactly(
    cron: CronTable, states: seq<State>, steps: seq<Step>, n: nat, x: string)
    requires ValidRun(cron, states, steps) && n < |states|
    requires x in states[n].loaded && states[n].loaded[x].asked.Minutes?
    ensures var t := states[n].loaded[x];
      && (t.nextRun == t.lastRun + t.asked.m * 60_000 <==> t.asked.m < 0x8000_0000)
      && (t.nextRun < t.lastRun <==> t.asked.m % 0x1_0000_0000 >= 0x8000_0000)
  {
    RunOk(cron, states, steps, n);
    NarrowExactly(states[n].loaded[x].asked.m);
  }

  /** An interval of 2^31 minutes makes a timer due the moment it is loaded. */
  lemma {:induction false} HugeIntervalIsDueAtOnce(cron: CronTable)
    ensures exists steps, t ::
              && Runs(cron, EMPTY, steps, t) && TIMER in t.loaded && t.loaded[TIMER].asked == Minutes(0x8000_0000)
              && t.loaded[TIMER].nextRun < t.loaded[TIMER].lastRun && Due(t, TIMER)
  {
    var c := Contrib(TIMER, Minutes(0x8000_0000));
    var t := InitTimer(cron, EMPTY, c, map[]);
    assert [c][1..] == [];
    assert InitTimers(cron, EMPTY, [c], map[]) == InitTimers(cron, t, [], map[]) == t;
    assert Runs(cron, t, [], t);
    OneStep(cron, EMPTY, ScriptStarted([c]), [], t);
    assert Runs(cron, EMPTY, [ScriptStarted([c])] + [], t);
  }
}
