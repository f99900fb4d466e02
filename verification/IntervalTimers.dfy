/**
 The interval timer manager (cmd/scheduler/src/interval_timer_manager.rs): timers
 contributed by scripts, their last run persisted in a store, and the list of
 firings not yet acknowledged.  Times are milliseconds.
 */
module IntervalTimers {
  import opened Common

  const MINUTE := 60_000
  const FAR := 1000 * 60 * MINUTE

  type u64 = x: int | 0 <= x < 0x1_0000_0000_0000_0000

  datatype Interval = Minutes(m: u64) | Cron(expr: string)

  /** What the cron library says of an expression and an instant. */
  datatype CronAnswer = ParseError | Never | Then(time: int)
  type CronTable = (string, int) -> CronAnswer

  datatype Action = Idle | Wait(until: int) | Run

  datatype Stored = Stored(interval: Interval, lastRun: int)

  /** A loaded timer.  `asked` is the interval the script contributed, which the
      program does not keep; `interval` is what the store gave back. */
  datatype Wrapped = Wrapped(asked: Interval, interval: Interval, lastRun: int, nextRun: int)
  datatype Contrib = Contrib(name: string, interval: Interval)

  /** History: firings, acks (`accepted` if the timer was loaded, `stored` if the
      store took the new last run), timers loaded, and clearings of the pending
      list. */
  datatype Entry =
    | Fired(name: string, at: int, asked: Interval, interval: Interval, lastRun: int)
    | Acked(name: string, at: int, accepted: bool, stored: bool)
    | Loaded(name: string)
    | PendingCleared

  datatype State = State(clock: int, store: map<string, Stored>, loaded: map<string, Wrapped>, pending: set<string>,
      log: seq<Entry>)

  // ----- the operations on values -----

  /** `minutes as i64`. */
  function Signed(m: u64): int {
    if m < 0x8000_0000_0000_0000 then m else m - 0x1_0000_0000_0000_0000
  }

  /** What the store gives back for a number of minutes: `m as i32` in the row, then
      `as u64`, which extends the sign. */
  function Narrow(m: u64): u64 {
    var r := m % 0x1_0000_0000;
    if r < 0x8000_0000 then r else r + 0xFFFF_FFFF_0000_0000
  }

  function Returned(i: Interval): Interval {
    match i
    case Minutes(m) => Minutes(Narrow(m))
    case Cron(_) => i
  }

  function NextRunTime(cron: CronTable, i: Interval, t: int): CronAnswer {
    match i
    case Minutes(m) => Then(t + Signed(m) * MINUTE)
    case Cron(e) => cron(e, t)
  }

  function NextOrFar(cron: CronTable, i: Interval, t: int): int {
    var n := NextRunTime(cron, i, t);
    if n.Then? then n.time else t + FAR
  }

  predicate Due(s: State, x: string) {
    x in s.loaded && x !in s.pending && s.clock > s.loaded[x].nextRun
  }

  /** `names` lists the due timers, each once. */
  ghost predicate ListsDue(s: State, names: seq<string>) {
    && Distinct(names)
    && (forall k :: 0 <= k < |names| ==> Due(s, names[k]))
    && (forall x :: Due(s, x) ==> x in names)
  }

  function FireOne(s: State, x: string): State
    requires x in s.loaded
  {
    var t := s.loaded[x];
    s.(pending := s.pending + {x}, log := s.log + [Fired(x, s.clock, t.asked, t.interval, t.lastRun)])
  }

  function Fire(s: State, names: seq<string>): State
    requires forall i :: 0 <= i < |names| ==> names[i] in s.loaded
    decreases |names|
  {
    if names == [] then s else Fire(FireOne(s, names[0]), names[1..])
  }

  function UpdateNextRun(cron: CronTable, s: State, x: string, writeOk: bool): State {
    if x !in s.loaded then s
    else
      var t := s.loaded[x].(lastRun := s.clock, nextRun := NextOrFar(cron, s.loaded[x].interval, s.clock));
      s.(loaded := s.loaded[x := t],
         store := if writeOk then s.store[x := Stored(Returned(t.interval), t.lastRun)] else s.store)
  }

  function Ack(cron: CronTable, s: State, x: string, writeOk: bool): State {
    if x !in s.pending then s
    else
      var acked := s.(pending := s.pending - {x}, log := s.log + [Acked(x, s.clock, x in s.loaded, writeOk)]);
      UpdateNextRun(cron, acked, x, writeOk)
  }

  /** `init_timer`; the last run comes from the rows read when the scripts started. */
  function InitTimer(cron: CronTable, s: State, c: Contrib, rows: map<string, Stored>): State {
    var lastRun := if c.name in rows then rows[c.name].lastRun else s.clock;
    var given := Returned(c.interval);
    var t := s.(store := s.store[c.name := Stored(given, lastRun)]);
    var next := NextRunTime(cron, given, lastRun);
    if !next.Then? then t
    else t.(loaded := t.loaded[c.name := Wrapped(c.interval, given, lastRun, next.time)],
            log := t.log + [Loaded(c.name)])
  }

  function InitTimers(cron: CronTable, s: State, cs: seq<Contrib>, rows: map<string, Stored>): State
    decreases |cs|
  {
    if cs == [] then s else InitTimers(cron, InitTimer(cron, s, cs[0], rows), cs[1..], rows)
  }

  // ----- the manager -----

  class Manager {
    const cron: CronTable
    var clock: int
    var store: map<string, Stored>
    var loadedIntervals: map<string, Wrapped>
    var pending: seq<string>
    ghost var log: seq<Entry>

    ghost function Model(): State
      reads this
    {
      State(clock, store, loadedIntervals, (set x | x in pending), log)
    }

    ghost predicate Valid()
      reads this
    {
      Distinct(pending)
    }

    constructor (cron: CronTable, store: map<string, Stored>, now: int)
      ensures Valid() && Model() == State(now, store, map[], {}, [])
    {
      this.cron, this.store, clock := cron, store, now;
      loadedIntervals, pending, log := map[], [], [];
    }

    /** `next_event_time`: the least next run among timers that are not pending. */
    method NextEventTime() returns (t: Option<int>)
      ensures t.None? <==> forall x :: x in loadedIntervals ==> x in pending
      ensures t.Some? ==> exists x :: x in loadedIntervals && x !in pending && loadedIntervals[x].nextRun == t.value
      ensures t.Some? ==> forall x :: x in loadedIntervals && x !in pending ==> t.value <= loadedIntervals[x].nextRun
    {
      t := None;
      var left := loadedIntervals.Keys;
      while left != {}
        invariant left <= loadedIntervals.Keys
        invariant t.None? <==> forall x :: x in loadedIntervals.Keys - left ==> x in pending
        invariant t.Some? ==> exists x :: x in loadedIntervals && x !in pending && loadedIntervals[x].nextRun == t.value
        invariant t.Some? ==>
              forall x :: x in loadedIntervals.Keys - left && x !in pending ==> t.value <= loadedIntervals[x].nextRun
        decreases left
      {
        var x :| x in left;
        left := left - {x};
        if x !in pending && (t.None? || loadedIntervals[x].nextRun < t.value) {
          t := Some(loadedIntervals[x].nextRun);
        }
      }
    }

    /** `next_action`: run exactly when some timer is due, else wait for the first. */
    method NextTimerAction() returns (a: Action)
      ensures a.Run? <==> exists x :: Due(Model(), x)
      ensures a.Idle? <==> forall x :: x in loadedIntervals ==> x in pending
      ensures a.Wait? ==> forall x :: x in loadedIntervals && x !in pending ==> a.until <= loadedIntervals[x].nextRun
    {
      var next := NextEventTime();
      if next.None? {
        return Idle;
      }
      if clock > next.value {
        var x :| x in loadedIntervals && x !in pending && loadedIntervals[x].nextRun == next.value;
        assert Due(Model(), x);
        return Run;
      }
      return Wait(next.value);
    }

    /** `get_triggered_timers`, in whatever order the map is walked. */
    method GetTriggeredTimers() returns (names: seq<string>)
      ensures ListsDue(Model(), names)
    {
      names := [];
      var left := loadedIntervals.Keys;
      while left != {}
        invariant left <= loadedIntervals.Keys && Distinct(names)
        invariant forall k :: 0 <= k < |names| ==> names[k] !in left && Due(Model(), names[k])
        invariant forall x :: Due(Model(), x) && x !in left ==> x in names
        decreases left
      {
        var x :| x in left;
        left := left - {x};
        if x !in pending && clock > loadedIntervals[x].nextRun {
          assert x !in names;
          names := names + [x];
        }
      }
    }

    /** `trigger_timers`: exactly the timers that are due, each once. */
    method TriggerTimers() returns (names: seq<string>)
      requires Valid()
      modifies this`pending, this`log
      ensures Valid() && ListsDue(old(Model()), names)
      ensures Model() == Fire(old(Model()), names)
    {
      var next := NextEventTime();
      if next.None? {
        return [];
      }
      if clock > next.value {
        names := GetTriggeredTimers();
        ghost var was := Model();
        assert names[0..] == names;
        for i := 0 to |names|
          invariant Distinct(pending)
          invariant forall k :: i <= k < |names| ==> names[k] !in pending
          invariant forall k :: 0 <= k < |names| ==> names[k] in loadedIntervals
          invariant Fire(was, names) == Fire(Model(), names[i..])
        {
          ghost var before := Model();
          assert names[i..][0] == names[i] && names[i..][1..] == names[i + 1..];
          var t := loadedIntervals[names[i]];
          log := log + [Fired(names[i], clock, t.asked, t.interval, t.lastRun)];
          pending := pending + [names[i]];
          assert Model() == FireOne(before, names[i]);
        }
      } else {
        return [];
      }
    }

    /** `timer_ack`, which removes by swapping in the last element. */
    method TimerAck(timer: string, writeOk: bool)
      requires Valid()
      modifies this
      ensures Valid() && Model() == Ack(cron, old(Model()), timer, writeOk)
    {
      var index := 0;
      while index < |pending| && pending[index] != timer
        invariant index <= |pending| && timer !in pending[..index]
      {
        index := index + 1;
      }
      if index == |pending| {
        assert pending[..index] == pending;
        return;
      }
      ghost var was := pending;
      pending := pending[index := pending[|pending| - 1]][..|pending| - 1];
      SwapRemoved(was, index);
      log := log + [Acked(timer, clock, timer in loadedIntervals, writeOk)];
      if timer in loadedIntervals {
        var t := loadedIntervals[timer];
        t := t.(lastRun := clock);
        var next := NextRunTime(cron, t.interval, clock);
        if next.Then? {
          t := t.(nextRun := next.time);
        } else {
          t := t.(nextRun := clock + FAR);
        }
        loadedIntervals := loadedIntervals[timer := t];
        if writeOk {
          store := store[timer := Stored(Returned(t.interval), t.lastRun)];
        }
      }
    }

    /** `script_started`. */
    method ScriptStarted(timers: seq<Contrib>)
      requires Valid()
      modifies this`store, this`loadedIntervals, this`log
      ensures Valid() && Model() == InitTimers(cron, old(Model()), timers, old(store))
    {
      if timers == [] {
        return;
      }
      var rows := store;
      ghost var was := Model();
      assert timers[0..] == timers;
      for i := 0 to |timers|
        invariant InitTimers(cron, was, timers, rows) == InitTimers(cron, Model(), timers[i..], rows)
      {
        ghost var before := Model();
        var c := timers[i];
        assert timers[i..][0] == c && timers[i..][1..] == timers[i + 1..];
        var lastRun := clock;
        if c.name in rows {
          lastRun := rows[c.name].lastRun;
        }
        var given := Returned(c.interval);
        store := store[c.name := Stored(given, lastRun)];
        var next := NextRunTime(cron, given, lastRun);
        if next.Then? {
          loadedIntervals := loadedIntervals[c.name := Wrapped(c.interval, given, lastRun, next.time)];
          log := log + [Loaded(c.name)];
        }
        assert Model() == InitTimer(cron, before, c, rows);
      }
    }

    /** `clear_loaded_timers` and `clear_pending_acks`. */
    method ClearLoadedTimers()
      modifies this`loadedIntervals
      ensures Model() == old(Model()).(loaded := map[])
    {
      loadedIntervals := map[];
    }

    method ClearPendingAcks()
      modifies this`pending, this`log
      ensures Valid() && Model() == old(Model()).(pending := {}, log := old(log) + [PendingCleared])
    {
      pending := [];
      log := log + [PendingCleared];
    }
  }
}
