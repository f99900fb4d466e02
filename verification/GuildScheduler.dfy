/**
 The guild scheduler (cmd/scheduler/src/scheduler.rs) with the life cycle of its
 guild handlers (cmd/scheduler/src/guild_handler.rs): handlers are started on
 demand, may report at most one session event before they exit, suspend their
 guild by doing so, and leave events queued while they wind down.

 Scope: the main loop of `run`.
 */
module GuildScheduler {
  import opened Common

  type Guild = nat

  datatype Event = Event(guild: Guild, n: nat)

  datatype Reason = ExcessCpu | ExcessInvalidDiscordRequests

  /** Milliseconds. */
  function Duration(r: Reason): nat {
    match r
    case ExcessCpu => 15_000
    case ExcessInvalidDiscordRequests => 600_000
  }

  datatype Suspension = Suspension(reason: Reason, suspendedAt: nat)

  /** A guild handler as the scheduler sees it.  `open`: the scheduler has not
      signalled shutdown; `exited`: its task has ended, so sends fail and its
      event channel is closed; `report`: a session event not yet read; `spent`:
      the handler has reported and will not report again. */
  datatype Handler = Handler(open: bool, exited: bool, spent: bool, report: Option<Reason>)

  const NEW_HANDLER := Handler(true, false, false, None)

  datatype SuspensionRecord = SuspensionRecord(guild: Guild, suspension: Suspension)

  /** A handler start, and how many suspensions had been recorded by then. */
  datatype StartRecord = StartRecord(guild: Guild, at: nat, suspensionsBefore: nat)

  /** The scheduler's fields and clock, then history: events in arrival order,
      events handed to handlers, suspensions, starts, and the handler tasks
      running now. */
  datatype State = State(
    guilds: map<Guild, Handler>,
    pendingStarts: seq<Guild>,
    queuedEvents: seq<Event>,
    suspendedGuilds: map<Guild, Suspension>,
    clock: nat,
    arrivals: seq<Event>,
    delivered: seq<Event>,
    suspensions: seq<SuspensionRecord>,
    starts: seq<StartRecord>,
    running: multiset<Guild>)

  const INIT := State(map[], [], [], map[], 0, [], [], [], [], multiset{})

  // ----- filters -----

  function Only(q: seq<Event>, g: Guild): seq<Event> {
    if q == [] then [] else (if q[0].guild == g then [q[0]] else []) + Only(q[1..], g)
  }

  function Except(q: seq<Event>, g: Guild): seq<Event> {
    if q == [] then [] else (if q[0].guild != g then [q[0]] else []) + Except(q[1..], g)
  }

  function ExceptGuild(q: seq<Guild>, g: Guild): seq<Guild> {
    if q == [] then [] else (if q[0] != g then [q[0]] else []) + ExceptGuild(q[1..], g)
  }

  // ----- the scheduler's operations -----

  /** `can_remove`: strictly more than the duration has passed. */
  predicate Elapsed(u: Suspension, now: nat) {
    Duration(u.reason) + u.suspendedAt < now
  }

  predicate MayRun(s: State, g: Guild) {
    g !in s.suspendedGuilds || Elapsed(s.suspendedGuilds[g], s.clock)
  }

  function TryUnsuspend(s: State, g: Guild): State {
    if g in s.suspendedGuilds && Elapsed(s.suspendedGuilds[g], s.clock)
    then s.(suspendedGuilds := s.suspendedGuilds - {g}) else s
  }

  function GetOrStart(s: State, g: Guild): State {
    if g in s.guilds then s
    else s.(guilds := s.guilds[g := NEW_HANDLER],
            starts := s.starts + [StartRecord(g, s.clock, |s.suspensions|)],
            running := s.running + multiset{g})
  }

  /** The handler task of `g` ends. */
  function ExitHandler(s: State, g: Guild): State {
    if g in s.guilds && !s.guilds[g].exited
    then s.(guilds := s.guilds[g := s.guilds[g].(exited := true)], running := s.running - multiset{g}) else s
  }

  predicate Accepts(s: State, g: Guild) {
    g in s.guilds && s.guilds[g].open && !s.guilds[g].exited
  }

  /** `send_or_queue_broker_evt`; unless `alive`, the handler ends before the send. */
  function SendOrQueue(s: State, e: Event, alive: bool): State {
    var t := GetOrStart(s, e.guild);
    var u := if alive then t else ExitHandler(t, e.guild);
    if Accepts(u, e.guild) then u.(delivered := u.delivered + [e])
    else u.(queuedEvents := u.queuedEvents + [e])
  }

  /** Sends in order; the handler survives the first `alive` of them. */
  function SendAll(s: State, evts: seq<Event>, alive: nat): State
    decreases |evts|
  {
    if evts == [] then s
    else SendAll(SendOrQueue(s, evts[0], alive > 0), evts[1..], if alive > 0 then alive - 1 else 0)
  }

  function RemoveFirst(q: seq<Guild>, g: Guild): seq<Guild> {
    if q == [] then [] else if q[0] == g then q[1..] else [q[0]] + RemoveFirst(q[1..], g)
  }

  /** `check_queue_start_worker`. */
  function CheckQueue(s: State, g: Guild, alive: nat): State {
    var t := if g in s.pendingStarts then GetOrStart(s.(pendingStarts := RemoveFirst(s.pendingStarts, g)), g) else s;
    SendAll(t.(queuedEvents := Except(t.queuedEvents, g)), Only(t.queuedEvents, g), alive)
  }

  function Suspend(s: State, g: Guild, r: Reason): State {
    s.(suspendedGuilds := s.suspendedGuilds[g := Suspension(r, s.clock)],
       suspensions := s.suspensions + [SuspensionRecord(g, Suspension(r, s.clock))],
       pendingStarts := ExceptGuild(s.pendingStarts, g),
       queuedEvents := Except(s.queuedEvents, g))
  }

  function Closed(h: Handler): Handler { h.(open := false) }

  function ShutdownAll(s: State): State {
    s.(guilds := map g | g in s.guilds :: Closed(s.guilds[g]))
  }

  /** BrokerHello for one connected guild. */
  function Connect(s: State, g: Guild): State {
    if !MayRun(s, g) then s
    else
      var t := GetOrStart(TryUnsuspend(s, g), g);
      if t.guilds[g].open then t else t.(pendingStarts := t.pendingStarts + [g])
  }

  /** The loop of BrokerHello over the connected guilds. */
  function StartConnected(s: State, gs: seq<Guild>): State
    decreases |gs|
  {
    if gs == [] then s else StartConnected(Connect(s, gs[0]), gs[1..])
  }

  // ----- steps of the main loop and of the handlers -----

  datatype Step =
    | Hello(connected: seq<Guild>)
    | BrokerDisconnected
    | Discord(e: Event, alive: bool)
    | GuildDelete(g: Guild)
    | Reload(g: Guild)
    | HandlerReport(g: Guild)
    | HandlerClosed(g: Guild, survives: nat)
    | Report(g: Guild, reason: Reason)
    | Exit(g: Guild)

  predicate Enabled(s: State, step: Step) {
    match step
    case HandlerReport(g) => g in s.guilds && s.guilds[g].report.Some?
    case HandlerClosed(g, _) => g in s.guilds && s.guilds[g].exited && s.guilds[g].report.None?
    case Report(g, _) => g in s.guilds && !s.guilds[g].spent && !s.guilds[g].exited
    case Exit(g) => g in s.guilds && !s.guilds[g].exited
    case _ => true
  }

  function Next(s: State, step: Step): State
    requires Enabled(s, step)
  {
    match step
    case Hello(gs) => StartConnected(ShutdownAll(s).(pendingStarts := []), gs)
    case BrokerDisconnected => ShutdownAll(s)
    case Discord(e, alive) =>
      var t := s.(arrivals := s.arrivals + [e]);
      if MayRun(s, e.guild) then SendOrQueue(TryUnsuspend(t, e.guild), e, alive) else t
    case GuildDelete(g) =>
      if !MayRun(s, g) then s
      else
        var t := TryUnsuspend(s, g);
        if g in t.guilds then t.(guilds := t.guilds[g := Closed(t.guilds[g])]) else t
    case Reload(g) => if MayRun(s, g) then GetOrStart(TryUnsuspend(s, g), g) else s
    case HandlerReport(g) =>
      Suspend(s.(guilds := s.guilds[g := s.guilds[g].(report := None)]), g, s.guilds[g].report.value)
    case HandlerClosed(g, alive) =>
      var t := s.(guilds := s.guilds - {g});
      if MayRun(t, g) then CheckQueue(TryUnsuspend(t, g), g, alive) else t
    case Report(g, r) => s.(guilds := s.guilds[g := s.guilds[g].(spent := true, report := Some(r))])
    case Exit(g) => ExitHandler(s, g)
  }
}
