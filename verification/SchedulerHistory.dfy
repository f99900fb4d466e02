/**
 The guild scheduler's state as a function of the run that led to it: when a guild may
 run, which of its events are kept, and which handlers are registered, open and
 waiting to be restarted.
 */
module SchedulerHistory {
  import opened Common
  import opened GuildScheduler
  import opened SchedulerRuns

  // ----- when a guild may run -----

  /** 15 seconds for too much CPU, 10 minutes for too many invalid requests. */
  predicate Over(reason: Reason, at: nat, now: nat) {
    at + (if reason.ExcessCpu? then 15_000 else 600_000) < now
  }

  /** The session event read by a step, as a suspension. */
  function ReadBy(s: State, step: Timed): seq<SuspensionRecord> {
    match step.step
    case HandlerReport(g) =>
      if g in s.guilds && s.guilds[g].report.Some?
      then [SuspensionRecord(g, Suspension(s.guilds[g].report.value, step.now))] else []
    case _ => []
  }

  /** The session events read by the first `k` steps. */
  ghost function Reports(states: seq<State>, steps: seq<Timed>, k: nat): seq<SuspensionRecord>
    requires k <= |steps| <= |states|
  {
    if k == 0 then [] else Reports(states, steps, k - 1) + ReadBy(states[k - 1], steps[k - 1])
  }

  /** No session event read so far still keeps `g` suspended. */
  ghost predicate Free(states: seq<State>, steps: seq<Timed>, k: nat, g: Guild, now: nat)
    requires k <= |steps| <= |states|
  {
    forall r :: r in Reports(states, steps, k) && r.guild == g ==>
      Over(r.suspension.reason, r.suspension.suspendedAt, now)
  }

  /** `suspended` holds entries of `before` and of `added` only. */
  ghost predicate From(suspended: map<Guild, Suspension>, before: map<Guild, Suspension>,
      added: seq<SuspensionRecord>)
  {
    forall g :: g in suspended ==>
      (g in before && suspended[g] == before[g]) || SuspensionRecord(g, suspended[g]) in added
  }

  lemma {:induction false} SendSuspends(s: State, e: Event, alive: bool)
    ensures SendOrQueue(s, e, alive).suspensions == s.suspensions
    ensures SendOrQueue(s, e, alive).suspendedGuilds == s.suspendedGuilds
  {
    var t := GetOrStart(s, e.guild);
    assert t.suspensions == s.suspensions && t.suspendedGuilds == s.suspendedGuilds;
    var u := ExitHandler(t, e.guild);
    assert u.suspensions == s.suspensions && u.suspendedGuilds == s.suspendedGuilds;
    hide GetOrStart, ExitHandler, Accepts;
  }

  lemma {:induction false} SendAllSuspends(s: State, evts: seq<Event>, alive: nat)
    ensures SendAll(s, evts, alive).suspensions == s.suspensions
    ensures SendAll(s, evts, alive).suspendedGuilds == s.suspendedGuilds
    decreases |evts|
  {
    if evts != [] {
      SendSuspends(s, evts[0], alive > 0);
      hide SendOrQueue;
      SendAllSuspends(SendOrQueue(s, evts[0], alive > 0), evts[1..], if alive > 0 then alive - 1 else 0);
    }
  }

  lemma {:induction false} StartConnectedSuspends(s: State, gs: seq<Guild>)
    ensures StartConnected(s, gs).suspensions == s.suspensions
    ensures From(StartConnected(s, gs).suspendedGuilds, s.suspendedGuilds, [])
    decreases |gs|
  {
    if gs != [] {
      StartConnectedSuspends(Connect(s, gs[0]), gs[1..]);
    }
  }

  lemma {:induction false} CheckQueueSuspends(s: State, g: Guild, alive: nat)
    ensures CheckQueue(s, g, alive).suspensions == s.suspensions
    ensures CheckQueue(s, g, alive).suspendedGuilds == s.suspendedGuilds
  {
    var t := if g in s.pendingStarts then GetOrStart(s.(pendingStarts := RemoveFirst(s.pendingStarts, g)), g) else s;
    SendAllSuspends(t.(queuedEvents := Except(t.queuedEvents, g)), Only(t.queuedEvents, g), alive);
  }

  /** Only a session event adds a suspension. */
  lemma {:induction false} StepSuspends(s: State, step: Timed)
    requires s.clock == step.now && Enabled(s, step.step)
    ensures Next(s, step.step).suspensions == s.suspensions + ReadBy(s, step)
    ensures From(Next(s, step.step).suspendedGuilds, s.suspendedGuilds, ReadBy(s, step))
  {
    hide CheckQueue, StartConnected, Only, Except, ExceptGuild, SendOrQueue;
    match step.step {
      case Hello(gs) => StartConnectedSuspends(ShutdownAll(s).(pendingStarts := []), gs);
      case HandlerClosed(g, alive) => CheckQueueSuspends(TryUnsuspend(s.(guilds := s.guilds - {g}), g), g, alive);
      case Discord(e, alive) => SendSuspends(TryUnsuspend(s.(arrivals := s.arrivals + [e]), e.guild), e, alive);
      case _ =>
    }
  }

  lemma {:induction false} RunReported(states: seq<State>, steps: seq<Timed>, k: nat)
    requires ValidRun(states, steps) && k < |states|
    ensures states[k].suspensions == Reports(states, steps, k)
    ensures From(states[k].suspendedGuilds, map[], states[k].suspensions)
  {
    if k > 0 {
      RunReported(states, steps, k - 1);
      var s := states[k - 1].(clock := steps[k - 1].now);
      StepSuspends(s, steps[k - 1]);
      assert ReadBy(s, steps[k - 1]) == ReadBy(states[k - 1], steps[k - 1]);
      hide Next, Enabled, ReadBy;
    }
  }

  /** In every run, a guild may run exactly when each session event read for it so far
      lies further back than its suspension lasts. */
  lemma {:induction false} MayRunExactly(states: seq<State>, steps: seq<Timed>, k: nat, g: Guild, now: nat)
    requires ValidRun(states, steps) && k < |states| && states[k].clock <= now
    ensures MayRun(states[k].(clock := now), g) <==> Free(states, steps, k, g, now)
  {
    RunReported(states, steps, k);
    RunOk(states, steps, k);
    hide Quiet, Stuck, Ordered, OneHandler, StartsOk, Next, Enabled, Reports;
  }

  // ----- which events are kept -----

  /** What `g`'s handlers were given, then what is queued for it. */
  function Mine(s: State, g: Guild): seq<Event> {
    Only(s.delivered, g) + Only(s.queuedEvents, g)
  }

  function WithoutLast(q: seq<Event>, n: nat): seq<Event> {
    if n <= |q| then q[..|q| - n] else []
  }

  /** An event is kept if its guild may run; a session event takes back those queued. */
  ghost function Keep(kept: seq<Event>, s: State, step: Step, mayRun: bool, g: Guild): seq<Event> {
    match step
    case Discord(e, _) => if e.guild == g && mayRun then kept + [e] else kept
    case HandlerReport(h) => if h == g then WithoutLast(kept, |Only(s.queuedEvents, g)|) else kept
    case _ => kept
  }

  /** The events of `g` that arrived while it might run and that no suspension found
      queued. */
  ghost function Kept(states: seq<State>, steps: seq<Timed>, k: nat, g: Guild): seq<Event>
    requires k <= |steps| <= |states|
  {
    if k == 0 then []
    else
      var mayRun := Free(states, steps, k - 1, g, steps[k - 1].now);
      Keep(Kept(states, steps, k - 1, g), states[k - 1], steps[k - 1].step, mayRun, g)
  }

  lemma {:induction false} StartConnectedQueues(s: State, gs: seq<Guild>)
    ensures StartConnected(s, gs).delivered == s.delivered
    ensures StartConnected(s, gs).queuedEvents == s.queuedEvents
    decreases |gs|
  {
    if gs != [] {
      StartConnectedQueues(Connect(s, gs[0]), gs[1..]);
    }
  }

  lemma {:induction false} MineIsTotal(s: State, g: Guild, h: Guild)
    ensures Total(s, g, h, []) == Mine(s, g)
  {
    hide Only;
  }

  lemma {:induction false} DiscordKeeps(s: State, e: Event, alive: bool, g: Guild)
    requires Inv(s)
    ensures Mine(Next(s, Discord(e, alive)), g) == Keep(Mine(s, g), s, Discord(e, alive), MayRun(s, g), g)
  {
    var t := s.(arrivals := s.arrivals + [e]);
    assert Mine(t, g) == Mine(s, g);
    if MayRun(s, e.guild) {
      hide Only, InvWith, SendOrQueue;
      AnyGuild(s, 0, e.guild);
      ArriveOk(s, e);
      UnsuspendOk(t, e.guild, [e]);
      var u := TryUnsuspend(t, e.guild);
      assert Mine(u, g) == Mine(t, g) && [e] + [] == [e];
      SendTotal(u, e, alive, [], g);
      MineIsTotal(SendOrQueue(u, e, alive), g, e.guild);
      MineIsTotal(u, g, e.guild);
    }
  }

  lemma {:induction false} ReportKeeps(s: State, h: Guild, g: Guild)
    requires Enabled(s, HandlerReport(h))
    ensures Mine(Next(s, HandlerReport(h)), g) == Keep(Mine(s, g), s, HandlerReport(h), true, g)
  {
    OnlyExcept(s.queuedEvents, h, g);
    hide Only, Except, ExceptGuild;
  }

  lemma {:induction false} ClosedKeeps(s: State, h: Guild, alive: nat, g: Guild)
    requires Inv(s) && Enabled(s, HandlerClosed(h, alive))
    ensures Mine(Next(s, HandlerClosed(h, alive)), g) == Mine(s, g)
  {
    hide Only, InvWith, CheckQueue;
    var t := s.(guilds := s.guilds - {h});
    if MayRun(s, h) {
      AnyGuild(s, 0, h);
      RestartOk(s, h, alive);
      MineIsTotal(s, g, h);
      MineIsTotal(CheckQueue(TryUnsuspend(t, h), h, alive), g, h);
    }
  }

  lemma {:induction false} StepKeeps(s: State, step: Step, g: Guild)
    requires Inv(s) && Enabled(s, step)
    ensures Mine(Next(s, step), g) == Keep(Mine(s, g), s, step, MayRun(s, g), g)
  {
    match step {
      case Hello(gs) => StartConnectedQueues(ShutdownAll(s).(pendingStarts := []), gs);
      case Discord(e, alive) => DiscordKeeps(s, e, alive, g);
      case HandlerReport(h) => ReportKeeps(s, h, g);
      case HandlerClosed(h, alive) => ClosedKeeps(s, h, alive, g);
      case _ => hide Only;
    }
  }

  /** In every run, what a guild's handlers were given and then what is queued for it
      are exactly its events in order of arrival, without those that came while it was
      suspended and those a suspension found queued. */
  lemma {:induction false} EventsKeptExactly(states: seq<State>, steps: seq<Timed>, k: nat, g: Guild)
    requires ValidRun(states, steps) && k < |states|
    ensures Mine(states[k], g) == Kept(states, steps, k, g)
  {
    if k > 0 {
      var s := states[k - 1].(clock := steps[k - 1].now);
      EventsKeptExactly(states, steps, k - 1, g);
      RunOk(states, steps, k - 1);
      hide Inv, Next, Only, Free, Keep, Mine;
      TickOk(states[k - 1], steps[k - 1].now);
      StepKeeps(s, steps[k - 1].step, g);
      MayRunExactly(states, steps, k - 1, g, steps[k - 1].now);
      SameKeep(states[k - 1], steps[k - 1], g);
    }
  }

  lemma {:induction false} SameKeep(s: State, step: Timed, g: Guild)
    ensures Mine(s.(clock := step.now), g) == Mine(s, g)
    ensures forall kept, mayRun ::
      Keep(kept, s.(clock := step.now), step.step, mayRun, g) == Keep(kept, s, step.step, mayRun, g)
  {
  }

  /** The events of `g` among the commands so far. */
  function Came(steps: seq<Timed>, k: nat, g: Guild): seq<Event>
    requires k <= |steps|
  {
    if k == 0 then []
    else Came(steps, k - 1, g) +
         match steps[k - 1].step { case Discord(e, _) => if e.guild == g then [e] else [] case _ => [] }
  }

  /** Without a session event of the guild, none of its events is lost. */
  lemma {:induction false} NothingLostUnlessSuspended(states: seq<State>, steps: seq<Timed>, k: nat, g: Guild)
    requires ValidRun(states, steps) && k < |states|
    requires forall j :: 0 <= j < k ==> steps[j].step != HandlerReport(g)
    ensures Only(states[k].delivered, g) + Only(states[k].queuedEvents, g) == Came(steps, k, g)
  {
    EventsKeptExactly(states, steps, k, g);
    AllKept(states, steps, k, g);
  }

  lemma {:induction false} AllKept(states: seq<State>, steps: seq<Timed>, k: nat, g: Guild)
    requires k <= |steps| <= |states| && forall j :: 0 <= j < k ==> steps[j].step != HandlerReport(g)
    ensures Kept(states, steps, k, g) == Came(steps, k, g)
    ensures forall r :: r in Reports(states, steps, k) ==> r.guild != g
  {
    if k > 0 {
      AllKept(states, steps, k - 1, g);
    }
  }

  // ----- which handlers there are -----

  /** The step starts a handler of `g` unless one stays registered. */
  ghost predicate Starts(s: State, step: Step, mayRun: bool, g: Guild) {
    mayRun &&
    match step
    case Hello(gs) => g in gs
    case Discord(e, _) => e.guild == g
    case Reload(h) => h == g
    case HandlerClosed(h, _) => h == g && (g in s.pendingStarts || Only(s.queuedEvents, g) != [])
    case _ => false
  }

  /** A handler of `g` was registered and is not found closed. */
  ghost predicate Stays(s: State, step: Step, g: Guild) {
    g in s.guilds && !(step.HandlerClosed? && step.g == g)
  }

  /** The step tells the handler of `g` to stop. */
  predicate Stops(step: Step, mayRun: bool, g: Guild) {
    match step
    case Hello(_) | BrokerDisconnected => true
    case GuildDelete(h) => h == g && mayRun
    case _ => false
  }

  predicate IsOpen(s: State, g: Guild) { g in s.guilds && s.guilds[g].open }

  /** How often a start of `g` is pending after the step. */
  ghost function Pending(s: State, step: Step, mayRun: bool, g: Guild): nat {
    var n := multiset(s.pendingStarts)[g];
    match step
    case Hello(gs) => if mayRun && g in s.guilds then multiset(gs)[g] else 0
    case HandlerReport(h) => if h == g then 0 else n
    case HandlerClosed(h, _) => if h == g && mayRun && n > 0 then n - 1 else n
    case _ => n
  }

  ghost predicate Follows(s: State, step: Step, mayRun: bool, g: Guild, t: State) {
    && (g in t.guilds <==> Stays(s, step, g) || Starts(s, step, mayRun, g))
    && (IsOpen(t, g) <==>
          if Stays(s, step, g) then IsOpen(s, g) && !Stops(step, mayRun, g) else Starts(s, step, mayRun, g))
    && multiset(t.pendingStarts)[g] == Pending(s, step, mayRun, g)
  }

  lemma {:induction false} SendHandlers(s: State, e: Event, alive: bool, h: Guild)
    ensures var t := SendOrQueue(s, e, alive);
      && (h in t.guilds <==> h in s.guilds || h == e.guild) && t.pendingStarts == s.pendingStarts
      && (IsOpen(t, h) <==> if h in s.guilds then IsOpen(s, h) else h == e.guild)
  {
    var t := GetOrStart(s, e.guild);
    assert (h in t.guilds <==> h in s.guilds || h == e.guild) && t.pendingStarts == s.pendingStarts;
    assert IsOpen(t, h) <==> if h in s.guilds then IsOpen(s, h) else h == e.guild;
    var u := ExitHandler(t, e.guild);
    assert (h in u.guilds <==> h in t.guilds) && (IsOpen(u, h) <==> IsOpen(t, h)) && u.pendingStarts == t.pendingStarts;
    hide GetOrStart, ExitHandler, Accepts;
  }

  lemma {:induction false} SendAllHandlers(s: State, g: Guild, evts: seq<Event>, alive: nat, h: Guild)
    requires forall i :: 0 <= i < |evts| ==> evts[i].guild == g
    ensures var t := SendAll(s, evts, alive);
      && (h in t.guilds <==> h in s.guilds || (h == g && evts != [])) && t.pendingStarts == s.pendingStarts
      && (IsOpen(t, h) <==> if h in s.guilds then IsOpen(s, h) else h == g && evts != [])
    decreases |evts|
  {
    if evts != [] {
      SendHandlers(s, evts[0], alive > 0, h);
      hide SendOrQueue, IsOpen;
      SendAllHandlers(SendOrQueue(s, evts[0], alive > 0), g, evts[1..], if alive > 0 then alive - 1 else 0, h);
    }
  }

  lemma {:induction false} RemoveFirstCounts(q: seq<Guild>, g: Guild, h: Guild)
    ensures var n := multiset(q)[h];
      multiset(RemoveFirst(q, g))[h] == if h == g && n > 0 then n - 1 else n
  {
    if q != [] {
      assert q == [q[0]] + q[1..];
      RemoveFirstCounts(q[1..], g, h);
    }
  }

  lemma {:induction false} ExceptGuildCounts(q: seq<Guild>, g: Guild, h: Guild)
    ensures multiset(ExceptGuild(q, g))[h] == if h == g then 0 else multiset(q)[h]
  {
    if q != [] {
      assert q == [q[0]] + q[1..];
      ExceptGuildCounts(q[1..], g, h);
    }
  }

  lemma {:induction false} CheckQueueHandlers(s: State, g: Guild, alive: nat, h: Guild)
    requires g !in s.guilds
    ensures var t, n := CheckQueue(s, g, alive), multiset(s.pendingStarts)[h];
      var started := h == g && (g in s.pendingStarts || Only(s.queuedEvents, g) != []);
      && (h in t.guilds <==> h in s.guilds || started)
      && (IsOpen(t, h) <==> if h in s.guilds then IsOpen(s, h) else started)
      && multiset(t.pendingStarts)[h] == if h == g && n > 0 then n - 1 else n
  {
    var t := if g in s.pendingStarts then GetOrStart(s.(pendingStarts := RemoveFirst(s.pendingStarts, g)), g) else s;
    RemoveFirstCounts(s.pendingStarts, g, h);
    OnlyIsOnly(t.queuedEvents, g);
    SendAllHandlers(t.(queuedEvents := Except(t.queuedEvents, g)), g, Only(t.queuedEvents, g), alive, h);
    hide SendAll, Only, Except, RemoveFirst;
  }

  lemma {:induction false} StartHandlers(s: State, h: Guild, g: Guild)
    requires MayRun(s, h)
    ensures var t := GetOrStart(TryUnsuspend(s, h), h);
      && (g in t.guilds <==> g in s.guilds || g == h) && h in t.guilds
      && (IsOpen(t, g) <==> if g in s.guilds then IsOpen(s, g) else g == h)
      && t.pendingStarts == s.pendingStarts && MayRun(t, g) == MayRun(s, g)
  {
  }

  lemma {:induction false} ConnectHandlers(s: State, h: Guild, g: Guild)
    ensures var t, mayRun := Connect(s, h), MayRun(s, g);
      && (g in t.guilds <==> g in s.guilds || (mayRun && g == h)) && MayRun(t, g) == mayRun
      && (IsOpen(t, g) <==> if g in s.guilds then IsOpen(s, g) else mayRun && g == h)
      && multiset(t.pendingStarts)[g] == multiset(s.pendingStarts)[g] +
           if mayRun && g in s.guilds && !IsOpen(s, g) && g == h then 1 else 0
  {
    if MayRun(s, h) {
      StartHandlers(s, h, g);
      assert IsOpen(GetOrStart(TryUnsuspend(s, h), h), h) <==> GetOrStart(TryUnsuspend(s, h), h).guilds[h].open;
      hide GetOrStart, TryUnsuspend;
    }
  }

  lemma {:induction false} StartConnectedHandlers(s: State, gs: seq<Guild>, g: Guild)
    ensures var t, mayRun := StartConnected(s, gs), MayRun(s, g);
      && (g in t.guilds <==> g in s.guilds || (mayRun && g in gs))
      && (IsOpen(t, g) <==> if g in s.guilds then IsOpen(s, g) else mayRun && g in gs)
      && multiset(t.pendingStarts)[g] == multiset(s.pendingStarts)[g] +
           if mayRun && g in s.guilds && !IsOpen(s, g) then multiset(gs)[g] else 0
    decreases |gs|
  {
    if gs != [] {
      assert gs == [gs[0]] + gs[1..];
      hide Connect, MayRun, IsOpen;
      ConnectHandlers(s, gs[0], g);
      StartConnectedHandlers(Connect(s, gs[0]), gs[1..], g);
    }
  }

  lemma {:induction false} HelloFollows(s: State, gs: seq<Guild>, g: Guild)
    ensures Follows(s, Hello(gs), MayRun(s, g), g, Next(s, Hello(gs)))
  {
    var t := ShutdownAll(s).(pendingStarts := []);
    assert (g in t.guilds <==> g in s.guilds) && !IsOpen(t, g) && MayRun(t, g) == MayRun(s, g);
    hide MayRun, ShutdownAll, StartConnected;
    StartConnectedHandlers(t, gs, g);
  }

  lemma {:induction false} DiscordFollows(s: State, e: Event, alive: bool, g: Guild)
    ensures Follows(s, Discord(e, alive), MayRun(s, g), g, Next(s, Discord(e, alive)))
  {
    hide SendOrQueue;
    SendHandlers(TryUnsuspend(s.(arrivals := s.arrivals + [e]), e.guild), e, alive, g);
  }

  lemma {:induction false} ClosedFollows(s: State, h: Guild, alive: nat, g: Guild)
    requires Enabled(s, HandlerClosed(h, alive))
    ensures Follows(s, HandlerClosed(h, alive), MayRun(s, g), g, Next(s, HandlerClosed(h, alive)))
  {
    hide CheckQueue, Only;
    CheckQueueHandlers(TryUnsuspend(s.(guilds := s.guilds - {h}), h), h, alive, g);
  }

  lemma {:induction false} ReloadFollows(s: State, h: Guild, g: Guild)
    ensures Follows(s, Reload(h), MayRun(s, g), g, Next(s, Reload(h)))
  {
    if MayRun(s, h) {
      StartHandlers(s, h, g);
      hide GetOrStart, TryUnsuspend, MayRun;
    }
  }

  lemma {:induction false} DeleteFollows(s: State, h: Guild, g: Guild)
    ensures Follows(s, GuildDelete(h), MayRun(s, g), g, Next(s, GuildDelete(h)))
  {
    hide MayRun;
  }

  lemma {:induction false} StepFollows(s: State, step: Step, g: Guild)
    requires Enabled(s, step)
    ensures Follows(s, step, MayRun(s, g), g, Next(s, step))
  {
    match step {
      case Hello(gs) => HelloFollows(s, gs, g);
      case Discord(e, alive) => DiscordFollows(s, e, alive, g);
      case HandlerReport(h) => ExceptGuildCounts(s.pendingStarts, h, g);
      case HandlerClosed(h, alive) => ClosedFollows(s, h, alive, g);
      case Reload(h) => ReloadFollows(s, h, g);
      case GuildDelete(h) => DeleteFollows(s, h, g);
      case BrokerDisconnected | Report(_, _) | Exit(_) =>
    }
  }

  /** In every run, after every step: which guilds have a handler registered, which of
      these have not been told to stop, and which starts are pending. */
  lemma {:induction false} HandlersExactly(states: seq<State>, steps: seq<Timed>, k: nat, g: Guild)
    requires ValidRun(states, steps) && k < |steps|
    ensures Follows(states[k], steps[k].step, Free(states, steps, k, g, steps[k].now), g, states[k + 1])
  {
    MayRunExactly(states, steps, k, g, steps[k].now);
    StepFollows(states[k].(clock := steps[k].now), steps[k].step, g);
    hide Next, MayRun, Free;
  }
}
