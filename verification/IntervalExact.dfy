/**
 Which acks a firing of an interval timer respects, exactly, when store writes may
 fail: the spacing theorems, and what happens to the acks that were forgotten.
 */
module IntervalExact {
  import opened Common
  import opened IntervalTimers
  import opened IntervalRuns

  /** Some accepted ack of `x` from position `i` on reached the store, or was not
      followed by a reload. */
  ghost predicate Respected(log: seq<Entry>, x: string, i: nat) {
    exists k :: i <= k < |log| && IsAck(log[k], x) && Covered(log, x, k)
  }

  // ----- the invariant: nothing is remembered that did not happen -----

  ghost predicate Timely(s: State) {
    && (forall x :: x in s.loaded ==> x in s.store && s.loaded[x].lastRun <= s.clock)
    && (forall x :: x in s.store ==> s.store[x].lastRun <= s.clock)
  }

  /** An ack that never reached the store left there what was known before it; one
      not respected left that in the loaded timer too. */
  ghost predicate Forgets(s: State, i: nat)
    requires i < |s.log| && s.log[i].Acked?
  {
    var x, at := s.log[i].name, s.log[i].at;
    && (!Secure(s.log, x, i) ==> x in s.store && s.store[x].lastRun <= at)
    && (!Respected(s.log, x, i) && x in s.loaded ==> s.loaded[x].lastRun <= at)
  }

  ghost predicate ForgetsAll(s: State) {
    forall i :: 0 <= i < |s.log| && s.log[i].Acked? && s.log[i].accepted ==> Forgets(s, i)
  }

  ghost predicate ForgottenBefore(log: seq<Entry>, j: nat)
    requires j < |log| && log[j].Fired?
  {
    forall i :: 0 <= i < j && IsAck(log[i], log[j].name) && !Respected(log[..j], log[j].name, i) ==>
      log[j].lastRun <= log[i].at
  }

  ghost predicate FiringsForgetful(log: seq<Entry>) {
    forall j :: 0 <= j < |log| && log[j].Fired? ==> ForgottenBefore(log, j)
  }

  ghost predicate Upper(s: State) {
    Timely(s) && ForgetsAll(s) && FiringsForgetful(s.log)
  }

  // ----- appending one entry -----

  /** An ack stays respected until the timer is loaded again. */
  lemma {:induction false} StaysRespected(log: seq<Entry>, e: Entry, x: string, i: nat)
    requires Respected(log, x, i) && e != Loaded(x)
    ensures Respected(log + [e], x, i)
  {
    var k :| i <= k < |log| && IsAck(log[k], x) && Covered(log, x, k);
    Extend(log, e, x, k);
    assert (log + [e])[k] == log[k];
  }

  /** A new ack respects all earlier ones. */
  lemma {:induction false} NewAckRespects(log: seq<Entry>, e: Entry, x: string, i: nat)
    requires IsAck(e, x) && i <= |log|
    ensures Respected(log + [e], x, i)
  {
    var l := log + [e];
    assert l[|log|] == e && Untouched(l, x, |log|);
  }

  lemma {:induction false} FiringsStay(log: seq<Entry>, e: Entry)
    requires FiringsForgetful(log) && (e.Fired? ==> ForgottenBefore(log + [e], |log|))
    ensures FiringsForgetful(log + [e])
  {
    var l := log + [e];
    forall j | 0 <= j < |l| && l[j].Fired? ensures ForgottenBefore(l, j) {
      if j < |log| {
        assert ForgottenBefore(log, j) && l[..j] == log[..j];
      }
    }
  }

  // ----- steps -----

  /** Entries that are neither acks nor loads, and clearing loaded timers. */
  lemma {:induction false} NeutralForgets(s: State, t: State, e: Entry)
    requires ForgetsAll(s) && t.log == s.log + [e] && !e.Acked? && !e.Loaded? && t.store == s.store
    requires forall x :: x in t.loaded ==> x in s.loaded && t.loaded[x] == s.loaded[x]
    ensures ForgetsAll(t)
  {
    forall i | 0 <= i < |t.log| && t.log[i].Acked? && t.log[i].accepted ensures Forgets(t, i) {
      assert Forgets(s, i);
      Extend(s.log, e, t.log[i].name, i);
      if Respected(s.log, t.log[i].name, i) { StaysRespected(s.log, e, t.log[i].name, i); }
    }
  }

  lemma {:induction false} FireOneUpper(s: State, x: string)
    requires Upper(s) && x in s.loaded
    ensures Upper(FireOne(s, x))
  {
    var t := FireOne(s, x);
    var e := t.log[|s.log|];
    assert t.log == s.log + [e] && t.log[..|s.log|] == s.log;
    forall i | 0 <= i < |s.log| && IsAck(s.log[i], x) && !Respected(s.log, x, i)
      ensures s.loaded[x].lastRun <= s.log[i].at
    {
      assert Forgets(s, i);
    }
    assert ForgottenBefore(t.log, |s.log|);
    FiringsStay(s.log, e);
    NeutralForgets(s, t, e);
  }

  lemma {:induction false} FireUpper(s: State, names: seq<string>)
    requires Upper(s) && forall k :: 0 <= k < |names| ==> names[k] in s.loaded
    ensures Upper(Fire(s, names))
    decreases |names|
  {
    hide Upper;
    if names != [] {
      FireOneUpper(s, names[0]);
      FireUpper(FireOne(s, names[0]), names[1..]);
    }
  }

  lemma {:induction false} AckForgets(cron: CronTable, s: State, x: string, ok: bool)
    requires ForgetsAll(s) && Timely(s) && x in s.pending
    ensures ForgetsAll(Ack(cron, s, x, ok))
  {
    var t := Ack(cron, s, x, ok);
    var e := Acked(x, s.clock, x in s.loaded, ok);
    assert t.log == s.log + [e];
    forall i | 0 <= i < |t.log| && t.log[i].Acked? && t.log[i].accepted ensures Forgets(t, i) {
      var y := t.log[i].name;
      if IsAck(e, y) {
        NewAckRespects(s.log, e, y, i);
      }
      if i < |s.log| {
        assert Forgets(s, i);
        Extend(s.log, e, y, i);
        if Respected(s.log, y, i) { StaysRespected(s.log, e, y, i); }
      } else {
        assert ok ==> IsStoredAck(t.log[i], x);
      }
    }
  }

  lemma {:induction false} AckUpper(cron: CronTable, s: State, x: string, ok: bool)
    requires Upper(s)
    ensures Upper(Ack(cron, s, x, ok))
  {
    if x in s.pending {
      var e := Acked(x, s.clock, x in s.loaded, ok);
      var t := Ack(cron, s, x, ok);
      AckForgets(cron, s, x, ok);
      FiringsStay(s.log, e);
    }
  }

  /** Rows read from the store know nothing of an ack that never reached it. */
  ghost predicate RowsForget(s: State, rows: map<string, Stored>) {
    && (forall x :: x in rows ==> rows[x].lastRun <= s.clock)
    && forall i :: 0 <= i < |s.log| && s.log[i].Acked? && s.log[i].accepted && !Secure(s.log, s.log[i].name, i) ==>
         s.log[i].name in rows && rows[s.log[i].name].lastRun <= s.log[i].at
  }

  lemma {:induction false} InitForgets(cron: CronTable, s: State, c: Contrib, rows: map<string, Stored>)
    requires ForgetsAll(s) && RowsForget(s, rows)
    ensures ForgetsAll(InitTimer(cron, s, c, rows)) && RowsForget(InitTimer(cron, s, c, rows), rows)
  {
    var t := InitTimer(cron, s, c, rows);
    var e := Loaded(c.name);
    forall i | 0 <= i < |t.log| && t.log[i].Acked? && t.log[i].accepted
      ensures Forgets(t, i)
      ensures !Secure(t.log, t.log[i].name, i) ==> t.log[i].name in rows && rows[t.log[i].name].lastRun <= t.log[i].at
    {
      var y := t.log[i].name;
      assert Forgets(s, i);
      if t.log != s.log {
        Extend(s.log, e, y, i);
        if Secure(t.log, y, i) {
        } else if y != c.name && Respected(s.log, y, i) {
          StaysRespected(s.log, e, y, i);
        }
      }
    }
  }

  lemma {:induction false} InitUpper(cron: CronTable, s: State, c: Contrib, rows: map<string, Stored>)
    requires Upper(s) && RowsForget(s, rows)
    ensures Upper(InitTimer(cron, s, c, rows)) && RowsForget(InitTimer(cron, s, c, rows), rows)
  {
    var t := InitTimer(cron, s, c, rows);
    InitForgets(cron, s, c, rows);
    if t.log != s.log {
      FiringsStay(s.log, Loaded(c.name));
    }
  }

  lemma {:induction false} InitAllUpper(cron: CronTable, s: State, cs: seq<Contrib>, rows: map<string, Stored>)
    requires Upper(s) && RowsForget(s, rows)
    ensures Upper(InitTimers(cron, s, cs, rows))
    decreases |cs|
  {
    hide Upper, RowsForget, InitTimer;
    if cs != [] {
      InitUpper(cron, s, cs[0], rows);
      InitAllUpper(cron, InitTimer(cron, s, cs[0], rows), cs[1..], rows);
    }
  }

  lemma {:induction false} NextUpper(cron: CronTable, s: State, step: Step)
    requires Upper(s) && Enabled(s, step)
    ensures Upper(Next(cron, s, step))
  {
    var t := Next(cron, s, step);
    match step
    case Trigger(names) => FireUpper(s, names);
    case TimerAck(x, ok) => AckUpper(cron, s, x, ok);
    case ScriptStarted(cs) =>
      InitAllUpper(cron, s, cs, s.store);
    case Tick(_) =>
    case ClearLoaded =>
    case ClearPending =>
      NeutralForgets(s, t, PendingCleared);
      FiringsStay(s.log, PendingCleared);
  }

  /** The rows a run starts with are not in the future. */
  ghost predicate RowsNotAhead(states: seq<State>) {
    states != [] && forall x :: x in states[0].store ==> states[0].store[x].lastRun <= states[0].clock
  }

  lemma {:induction false} RunUpper(cron: CronTable, states: seq<State>, steps: seq<Step>, n: nat)
    requires ValidRun(cron, states, steps) && n < |states|
    requires RowsNotAhead(states)
    ensures Upper(states[n])
  {
    if n > 0 {
      RunUpper(cron, states, steps, n - 1);
      NextUpper(cron, states[n - 1], steps[n - 1]);
    }
  }

  // ----- the theorems -----

  lemma {:induction false} RespectedAck(cron: CronTable, states: seq<State>, steps: seq<Step>, n: nat, i: nat, j: nat)
    requires ValidRun(cron, states, steps) && n < |states| && i < j < |states[n].log|
    requires states[n].log[j].Fired? && IsAck(states[n].log[i], states[n].log[j].name)
    requires Respected(states[n].log[..j], states[n].log[j].name, i)
    ensures states[n].log[j].lastRun >= states[n].log[i].at
  {
    hide ValidRun, Covered;
    var log := states[n].log;
    var k :| i <= k < |log[..j]| && IsAck(log[..j][k], log[j].name) && Covered(log[..j], log[j].name, k);
    assert log[..j][k] == log[k];
    AcksInOrder(cron, states, steps, n, i, k);
    FiringAfterNextRun(cron, states, steps, n, k, j);
  }

  /** The last run from which a firing was computed is at or after a respected ack,
      and at or before one that is not respected. */
  lemma {:induction false} AcksRespectedExactly(cron: CronTable, states: seq<State>, steps: seq<Step>, n: nat,
      i: nat, j: nat)
    requires ValidRun(cron, states, steps) && n < |states| && i < j < |states[n].log| && RowsNotAhead(states)
    requires states[n].log[j].Fired? && IsAck(states[n].log[i], states[n].log[j].name)
    ensures var log := states[n].log;
      if Respected(log[..j], log[j].name, i) then log[j].lastRun >= log[i].at else log[j].lastRun <= log[i].at
  {
    var log := states[n].log;
    hide Respected, ValidRun, RowsNotAhead;
    if Respected(log[..j], log[j].name, i) {
      RespectedAck(cron, states, steps, n, i, j);
    } else {
      RunUpper(cron, states, steps, n);
      assert ForgottenBefore(log, j);
    }
  }

  /** A firing comes more than its interval after every respected ack. */
  lemma {:induction false} IntervalSpacing(cron: CronTable, states: seq<State>, steps: seq<Step>, n: nat, i: nat,
      j: nat)
    requires ValidRun(cron, states, steps) && n < |states| && i < j < |states[n].log|
    requires states[n].log[j].Fired? && states[n].log[j].interval.Minutes?
          && IsAck(states[n].log[i], states[n].log[j].name)
    requires Respected(states[n].log[..j], states[n].log[j].name, i)
    ensures states[n].log[j].at > states[n].log[i].at + Signed(states[n].log[j].interval.m) * 60_000
  {
    RespectedAck(cron, states, steps, n, i, j);
    FiringAfterNextRun(cron, states, steps, n, i, j);
  }

  /** With successful writes, more than the contributed number of minutes after every
      earlier accepted ack, for every number that survives the store. */
  lemma {:induction false} SpacingWhenWritesSucceed(
    cron: CronTable, states: seq<State>, steps: seq<Step>, n: nat, i: nat, j: nat)
    requires ValidRun(cron, states, steps) && n < |states| && i < j < |states[n].log|
    requires forall k :: 0 <= k < |states[n].log| && states[n].log[k].Acked? ==> states[n].log[k].stored
    requires states[n].log[j].Fired? && IsAck(states[n].log[i], states[n].log[j].name)
    requires states[n].log[j].asked.Minutes? && states[n].log[j].asked.m < 0x8000_0000
    ensures states[n].log[j].at > states[n].log[i].at + states[n].log[j].asked.m * 60_000
  {
    var log := states[n].log;
    assert IsStoredAck(log[..j][i], log[j].name);
    FiringAfterNextRun(cron, states, steps, n, i, j);
    NarrowExactly(log[j].asked.m);
  }

  /** A cron firing is strictly after every respected ack. */
  lemma {:induction false} CronSpacing(cron: CronTable, states: seq<State>, steps: seq<Step>, n: nat, i: nat, j: nat)
    requires ValidRun(cron, states, steps) && n < |states| && i < j < |states[n].log|
    requires states[n].log[j].Fired? && states[n].log[j].interval.Cron?
          && IsAck(states[n].log[i], states[n].log[j].name)
    requires Respected(states[n].log[..j], states[n].log[j].name, i)
    requires forall e, t :: cron(e, t).Then? ==> cron(e, t).time > t
    ensures states[n].log[j].at > states[n].log[i].at
  {
    RespectedAck(cron, states, steps, n, i, j);
    FiringAfterNextRun(cron, states, steps, n, i, j);
  }
}
