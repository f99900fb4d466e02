/**
 Guild scheduler over whole runs: suspension windows, one handler per guild, and
 per-guild event order across handler restarts.
 */
module SchedulerRuns {
  import opened Common
  import opened GuildScheduler

  // ----- filters -----

  lemma {:induction false} OnlyAppend(a: seq<Event>, b: seq<Event>, g: Guild)
    ensures Only(a + b, g) == Only(a, g) + Only(b, g)
  {
    if a == [] {
      assert a + b == b;
    } else {
      var front := if a[0].guild == g then [a[0]] else [];
      assert (a + b)[1..] == a[1..] + b && (a + b)[0] == a[0];
      assert Only(a + b, g) == front + Only(a[1..] + b, g) && Only(a, g) == front + Only(a[1..], g);
      hide Only;
      OnlyAppend(a[1..], b, g);
    }
  }

  lemma {:induction false} OnlyOne(e: Event, g: Guild)
    ensures Only([e], g) == if e.guild == g then [e] else []
  {}

  lemma {:induction false} OnlyExcept(q: seq<Event>, h: Guild, g: Guild)
    ensures Only(Except(q, h), g) == if g == h then [] else Only(q, g)
  {
    if q != [] {
      OnlyExcept(q[1..], h, g);
      var front := if q[0].guild != h then [q[0]] else [];
      OnlyAppend(front, Except(q[1..], h), g);
      OnlyOne(q[0], g);
    }
  }

  lemma {:induction false} ExceptGuildDrops(q: seq<Guild>, h: Guild)
    ensures forall g :: g in ExceptGuild(q, h) <==> g in q && g != h
  {
    if q != [] {
      ExceptGuildDrops(q[1..], h);
      assert q == [q[0]] + q[1..];
    }
  }

  lemma {:induction false} RemoveFirstKeeps(q: seq<Guild>, h: Guild)
    ensures forall g :: g in RemoveFirst(q, h) ==> g in q
  {
    if q != [] {
      RemoveFirstKeeps(q[1..], h);
      assert q == [q[0]] + q[1..];
    }
  }

  // ----- invariants -----

  /** A suspended guild has nothing queued, no start pending, and no handler that
      could still report. */
  ghost predicate Quiet(s: State) {
    forall g :: g in s.suspendedGuilds ==>
      && Only(s.queuedEvents, g) == [] && g !in s.pendingStarts
      && (g in s.guilds ==> s.guilds[g].spent && s.guilds[g].report.None?)
  }

  /** Events are queued for a guild only while its handler takes no more. */
  ghost predicate Stuck(s: State) {
    forall g :: Only(s.queuedEvents, g) != [] ==> g in s.guilds && !Accepts(s, g)
  }

  /** What `h` was handed, then what it has queued, then what of it is in hand. */
  function Total(s: State, h: Guild, g: Guild, inHand: seq<Event>): seq<Event> {
    Only(s.delivered, h) + Only(s.queuedEvents, h) + if h == g then inHand else []
  }

  ghost predicate OrderedFor(s: State, h: Guild, g: Guild, inHand: seq<Event>) {
    Subsequence(Total(s, h, g, inHand), Only(s.arrivals, h))
  }

  ghost predicate Ordered(s: State, g: Guild, inHand: seq<Event>) {
    forall h :: OrderedFor(s, h, g, inHand)
  }

  /** A suspension is over once its time has passed, and not before. */
  ghost predicate Windows(s: State) {
    forall i :: 0 <= i < |s.suspensions| ==>
      var r := s.suspensions[i];
      (r.guild in s.suspendedGuilds && s.suspendedGuilds[r.guild] == r.suspension) || Elapsed(r.suspension, s.clock)
  }

  ghost predicate StartOk(s: State, st: StartRecord) {
    && st.suspensionsBefore <= |s.suspensions|
    && forall i :: 0 <= i < st.suspensionsBefore && s.suspensions[i].guild == st.guild ==>
         Elapsed(s.suspensions[i].suspension, st.at)
  }

  ghost predicate StartsOk(s: State) {
    forall k :: 0 <= k < |s.starts| ==> StartOk(s, s.starts[k])
  }

  ghost predicate OneHandler(s: State) {
    && (forall g :: s.running[g] == if g in s.guilds && !s.guilds[g].exited then 1 else 0)
    && (forall g :: g in s.guilds && s.guilds[g].report.Some? ==> s.guilds[g].spent)
  }

  ghost predicate Timely(s: State) { Windows(s) && StartsOk(s) }

  /** The invariant with events of `g` in hand, neither queued nor delivered. */
  ghost predicate InvWith(s: State, g: Guild, inHand: seq<Event>) {
    Quiet(s) && Stuck(s) && Ordered(s, g, inHand) && Timely(s) && OneHandler(s)
  }

  ghost predicate Inv(s: State) { InvWith(s, 0, []) }

  lemma {:induction false} AnyGuild(s: State, g: Guild, h: Guild)
    requires InvWith(s, g, [])
    ensures InvWith(s, h, [])
  {
    forall k
      ensures OrderedFor(s, k, h, [])
    {
      assert OrderedFor(s, k, g, []);
    }
    hide Quiet, Stuck, OrderedFor, Timely, OneHandler;
  }

  // ----- small steps -----

  lemma {:induction false} SameOrder(s: State, t: State, g: Guild, inHand: seq<Event>)
    requires Ordered(s, g, inHand)
    requires t.delivered == s.delivered && t.queuedEvents == s.queuedEvents && t.arrivals == s.arrivals
    ensures Ordered(t, g, inHand)
  {
    forall h
      ensures OrderedFor(t, h, g, inHand)
    {
      assert OrderedFor(s, h, g, inHand);
    }
  }

  lemma {:induction false} SameStarts(s: State, t: State)
    requires StartsOk(s) && t.starts == s.starts && s.suspensions <= t.suspensions
    ensures StartsOk(t)
  {}

  lemma {:induction false} TickOk(s: State, now: nat)
    requires Inv(s) && s.clock <= now
    ensures Inv(s.(clock := now))
  {
    SameOrder(s, s.(clock := now), 0, []);
    SameStarts(s, s.(clock := now));
    hide Ordered, StartsOk;
  }

  lemma {:induction false} UnsuspendOk(s: State, g: Guild, inHand: seq<Event>)
    requires InvWith(s, g, inHand) && MayRun(s, g)
    ensures InvWith(TryUnsuspend(s, g), g, inHand) && g !in TryUnsuspend(s, g).suspendedGuilds
  {
    SameOrder(s, TryUnsuspend(s, g), g, inHand);
    SameStarts(s, TryUnsuspend(s, g));
    hide Ordered, StartsOk;
  }

  lemma {:induction false} StartOkay(s: State, g: Guild, h: Guild, inHand: seq<Event>)
    requires InvWith(s, h, inHand) && g !in s.suspendedGuilds
    ensures InvWith(GetOrStart(s, g), h, inHand) && g in GetOrStart(s, g).guilds
  {
    SameOrder(s, GetOrStart(s, g), h, inHand);
    hide Timely, Ordered, Only;
  }

  lemma {:induction false} ExitOk(s: State, g: Guild, h: Guild, inHand: seq<Event>)
    requires InvWith(s, h, inHand)
    ensures InvWith(ExitHandler(s, g), h, inHand)
  {
    SameOrder(s, ExitHandler(s, g), h, inHand);
    SameStarts(s, ExitHandler(s, g));
    hide Ordered, StartsOk, Only;
  }

  /** The first event in hand is handed over, or queued. */
  function Place(s: State, e: Event): State {
    if Accepts(s, e.guild) then s.(delivered := s.delivered + [e]) else s.(queuedEvents := s.queuedEvents + [e])
  }

  lemma {:induction false} PlaceTotal(s: State, e: Event, rest: seq<Event>, g: Guild)
    requires Accepts(s, e.guild) ==> Only(s.queuedEvents, e.guild) == []
    ensures Total(Place(s, e), g, e.guild, rest) == Total(s, g, e.guild, [e] + rest)
    ensures g != e.guild ==> Only(Place(s, e).queuedEvents, g) == Only(s.queuedEvents, g)
  {
    hide Only;
    OnlyAppend(s.delivered, [e], g);
    OnlyAppend(s.queuedEvents, [e], g);
    OnlyOne(e, g);
    assert Only(s.delivered, g) + [] == Only(s.delivered, g);
    assert Only(s.queuedEvents, g) + [] == Only(s.queuedEvents, g);
  }

  lemma {:induction false} PlaceOk(s: State, e: Event, rest: seq<Event>)
    requires InvWith(s, e.guild, [e] + rest) && e.guild in s.guilds && e.guild !in s.suspendedGuilds
    ensures InvWith(Place(s, e), e.guild, rest)
  {
    SameStarts(s, Place(s, e));
    hide StartsOk, OrderedFor, Only, OneHandler;
    forall g
      ensures OrderedFor(Place(s, e), g, e.guild, rest)
      ensures g != e.guild ==> Only(Place(s, e).queuedEvents, g) == Only(s.queuedEvents, g)
    {
      assert OrderedFor(s, g, e.guild, [e] + rest);
      PlaceTotal(s, e, rest, g);
      assert Place(s, e).arrivals == s.arrivals;
    }
    assert OneHandler(Place(s, e)) by {
    }
  }

  lemma {:induction false} SendOk(s: State, e: Event, alive: bool, rest: seq<Event>)
    requires InvWith(s, e.guild, [e] + rest) && e.guild !in s.suspendedGuilds
    ensures InvWith(SendOrQueue(s, e, alive), e.guild, rest)
    ensures SendOrQueue(s, e, alive).suspendedGuilds == s.suspendedGuilds
  {
    StartOkay(s, e.guild, e.guild, [e] + rest);
    var t := GetOrStart(s, e.guild);
    ExitOk(t, e.guild, e.guild, [e] + rest);
    var u := if alive then t else ExitHandler(t, e.guild);
    hide InvWith;
    PlaceOk(u, e, rest);
  }

  lemma {:induction false} SendAllOk(s: State, g: Guild, evts: seq<Event>, alive: nat)
    requires InvWith(s, g, evts) && g !in s.suspendedGuilds && forall i :: 0 <= i < |evts| ==> evts[i].guild == g
    ensures InvWith(SendAll(s, evts, alive), g, [])
    decreases |evts|
  {
    if evts != [] {
      assert evts == [evts[0]] + evts[1..];
      hide InvWith;
      SendOk(s, evts[0], alive > 0, evts[1..]);
      SendAllOk(SendOrQueue(s, evts[0], alive > 0), g, evts[1..], if alive > 0 then alive - 1 else 0);
    }
  }

  lemma {:induction false} SendTotal(s: State, e: Event, alive: bool, rest: seq<Event>, h: Guild)
    requires InvWith(s, e.guild, [e] + rest) && e.guild !in s.suspendedGuilds
    ensures Total(SendOrQueue(s, e, alive), h, e.guild, rest) == Total(s, h, e.guild, [e] + rest)
  {
    StartOkay(s, e.guild, e.guild, [e] + rest);
    var t := GetOrStart(s, e.guild);
    ExitOk(t, e.guild, e.guild, [e] + rest);
    var u := if alive then t else ExitHandler(t, e.guild);
    PlaceTotal(u, e, rest, h);
    assert u.delivered == s.delivered && u.queuedEvents == s.queuedEvents;
    assert SendOrQueue(s, e, alive) == Place(u, e);
    hide Place, GetOrStart, ExitHandler;
  }

  lemma {:induction false} SendAllTotal(s: State, g: Guild, evts: seq<Event>, alive: nat, h: Guild)
    requires InvWith(s, g, evts) && g !in s.suspendedGuilds && forall i :: 0 <= i < |evts| ==> evts[i].guild == g
    ensures Total(SendAll(s, evts, alive), h, g, []) == Total(s, h, g, evts)
    decreases |evts|
  {
    if evts != [] {
      assert evts == [evts[0]] + evts[1..];
      hide InvWith, Total, SendOrQueue;
      SendOk(s, evts[0], alive > 0, evts[1..]);
      SendTotal(s, evts[0], alive > 0, evts[1..], h);
      SendAllTotal(SendOrQueue(s, evts[0], alive > 0), g, evts[1..], if alive > 0 then alive - 1 else 0, h);
    }
  }

  lemma {:induction false} OnlyIsOnly(q: seq<Event>, g: Guild)
    ensures forall i :: 0 <= i < |Only(q, g)| ==> Only(q, g)[i].guild == g
  {
    if q != [] {
      OnlyIsOnly(q[1..], g);
    }
  }

  lemma {:induction false} TakenTotal(s: State, g: Guild, h: Guild)
    ensures var t := s.(queuedEvents := Except(s.queuedEvents, g));
      Total(t, h, g, Only(s.queuedEvents, g)) == Total(s, h, g, [])
  {
    OnlyExcept(s.queuedEvents, g, h);
    hide Only, Except;
    if h == g {
      assert Only(s.delivered, g) + [] + Only(s.queuedEvents, g) == Only(s.delivered, g) + Only(s.queuedEvents, g) + [];
    }
  }

  lemma {:induction false} TakenQuiet(s: State, g: Guild)
    requires Quiet(s) && Stuck(s)
    ensures Quiet(s.(queuedEvents := Except(s.queuedEvents, g))) && Stuck(s.(queuedEvents := Except(s.queuedEvents, g)))
  {
    forall h ensures Only(Except(s.queuedEvents, g), h) == if g == h then [] else Only(s.queuedEvents, h) {
      OnlyExcept(s.queuedEvents, g, h);
    }
    hide Only, Except;
  }

  /** The queue without the events of `g`, which are now in hand. */
  lemma {:induction false} TakeQueued(s: State, g: Guild)
    requires InvWith(s, g, [])
    ensures InvWith(s.(queuedEvents := Except(s.queuedEvents, g)), g, Only(s.queuedEvents, g))
  {
    var t := s.(queuedEvents := Except(s.queuedEvents, g));
    SameStarts(s, t);
    TakenQuiet(s, g);
    assert OneHandler(t) && Windows(t);
    hide Only, Except, StartsOk, Windows, Quiet, Stuck, OneHandler, OrderedFor;
    forall h ensures OrderedFor(t, h, g, Only(s.queuedEvents, g)) {
      assert OrderedFor(s, h, g, []);
      TakenTotal(s, g, h);
      assert OrderedFor(t, h, g, Only(s.queuedEvents, g)) by {
      }
    }
  }

  lemma {:induction false} PendingOk(s: State, pending: seq<Guild>, h: Guild, inHand: seq<Event>)
    requires InvWith(s, h, inHand)
    requires forall k :: k in pending ==> k in s.pendingStarts || k !in s.suspendedGuilds
    ensures InvWith(s.(pendingStarts := pending), h, inHand)
  {
    SameOrder(s, s.(pendingStarts := pending), h, inHand);
    SameStarts(s, s.(pendingStarts := pending));
    hide Ordered, StartsOk;
  }

  lemma {:induction false} SuspendOk(s: State, g: Guild, r: Reason)
    requires InvWith(s, g, []) && g !in s.suspendedGuilds
    requires g in s.guilds && s.guilds[g].spent && s.guilds[g].report.None?
    ensures InvWith(Suspend(s, g, r), g, [])
  {
    TakeQueued(s, g);
    ExceptGuildDrops(s.pendingStarts, g);
    OnlyExcept(s.queuedEvents, g, g);
    var t := Suspend(s, g, r);
    SameStarts(s, t);
    var u := s.(queuedEvents := Except(s.queuedEvents, g));
    forall h
      ensures OrderedFor(t, h, g, [])
    {
      assert OrderedFor(u, h, g, Only(s.queuedEvents, g));
      if h == g {
        SubsequencePrefix(Only(u.delivered, g) + Only(u.queuedEvents, g), Only(s.queuedEvents, g), Only(s.arrivals, g));
        assert Only(t.delivered, g) + Only(t.queuedEvents, g) + [] == Only(u.delivered, g) + Only(u.queuedEvents, g);
      }
    }
    hide StartsOk, OrderedFor, Only, Except;
  }

  lemma {:induction false} ArriveOk(s: State, e: Event)
    requires InvWith(s, e.guild, [])
    ensures InvWith(s.(arrivals := s.arrivals + [e]), e.guild, [e])
    ensures InvWith(s.(arrivals := s.arrivals + [e]), e.guild, [])
  {
    var t := s.(arrivals := s.arrivals + [e]);
    SameStarts(s, t);
    forall h
      ensures OrderedFor(t, h, e.guild, [e]) && OrderedFor(t, h, e.guild, [])
    {
      assert OrderedFor(s, h, e.guild, []);
      OnlyAppend(s.arrivals, [e], h);
      OnlyOne(e, h);
      var had := Only(s.delivered, h) + Only(s.queuedEvents, h);
      assert had + [] == had;
      if h == e.guild {
        SubsequenceGrows(had, Only(s.arrivals, h), e);
      } else {
        assert Only(t.arrivals, h) == Only(s.arrivals, h);
      }
    }
    hide StartsOk, OrderedFor, Only;
  }

  lemma {:induction false} ShutdownOk(s: State)
    requires InvWith(s, 0, [])
    ensures InvWith(ShutdownAll(s), 0, [])
  {
    SameOrder(s, ShutdownAll(s), 0, []);
    SameStarts(s, ShutdownAll(s));
    hide Ordered, StartsOk, Only;
  }

  lemma {:induction false} ConnectOk(s: State, g: Guild)
    requires InvWith(s, 0, [])
    ensures InvWith(Connect(s, g), 0, [])
  {
    if MayRun(s, g) {
      AnyGuild(s, 0, g);
      UnsuspendOk(s, g, []);
      var t := TryUnsuspend(s, g);
      AnyGuild(t, g, 0);
      hide InvWith;
      StartOkay(t, g, 0, []);
      var u := GetOrStart(t, g);
      assert g !in u.suspendedGuilds;
      PendingOk(u, u.pendingStarts + [g], 0, []);
    }
  }

  lemma {:induction false} StartConnectedOk(s: State, gs: seq<Guild>)
    requires InvWith(s, 0, [])
    ensures InvWith(StartConnected(s, gs), 0, [])
    decreases |gs|
  {
    if gs != [] {
      hide InvWith, Connect;
      ConnectOk(s, gs[0]);
      StartConnectedOk(Connect(s, gs[0]), gs[1..]);
    }
  }

  /** Marking a handler changes nothing the order or the clock depends on. */
  lemma {:induction false} HandlerOk(s: State, g: Guild, h: Handler)
    requires InvWith(s, 0, []) && g in s.guilds && h.exited == s.guilds[g].exited && (h.open ==> s.guilds[g].open)
    requires h.report.Some? ==> h.spent
    requires g in s.suspendedGuilds ==> h.spent && h.report.None?
    ensures InvWith(s.(guilds := s.guilds[g := h]), 0, [])
  {
    SameOrder(s, s.(guilds := s.guilds[g := h]), 0, []);
    SameStarts(s, s.(guilds := s.guilds[g := h]));
    hide Ordered, StartsOk, Only;
  }

  /** An exited handler with nothing queued for it may be forgotten. */
  lemma {:induction false} RemoveOk(s: State, g: Guild, inHand: seq<Event>)
    requires InvWith(s, g, inHand) && g in s.guilds && s.guilds[g].exited && Only(s.queuedEvents, g) == []
    ensures InvWith(s.(guilds := s.guilds - {g}), g, inHand)
  {
    SameOrder(s, s.(guilds := s.guilds - {g}), g, inHand);
    SameStarts(s, s.(guilds := s.guilds - {g}));
    hide Ordered, StartsOk, Only;
  }

  /** The handler of a runnable guild is gone: what was queued for it goes to a
      new handler, in order. */
  lemma {:induction false} RestartOk(s: State, g: Guild, alive: nat)
    requires InvWith(s, g, []) && g in s.guilds && s.guilds[g].exited && MayRun(s, g)
    ensures InvWith(CheckQueue(TryUnsuspend(s.(guilds := s.guilds - {g}), g), g, alive), g, [])
    ensures var t := CheckQueue(TryUnsuspend(s.(guilds := s.guilds - {g}), g), g, alive);
      forall h :: Total(t, h, g, []) == Total(s, h, g, [])
  {
    var evts := Only(s.queuedEvents, g);
    TakeQueued(s, g);
    OnlyIsOnly(s.queuedEvents, g);
    OnlyExcept(s.queuedEvents, g, g);
    RemoveFirstKeeps(s.pendingStarts, g);
    hide InvWith, Only, Except, RemoveFirst, Elapsed;
    var t := s.(queuedEvents := Except(s.queuedEvents, g));
    RemoveOk(t, g, evts);
    t := t.(guilds := s.guilds - {g});
    UnsuspendOk(t, g, evts);
    t := TryUnsuspend(t, g);
    if g in s.pendingStarts {
      PendingOk(t, RemoveFirst(s.pendingStarts, g), g, evts);
      t := t.(pendingStarts := RemoveFirst(s.pendingStarts, g));
      StartOkay(t, g, g, evts);
      t := GetOrStart(t, g);
    }
    SendAllOk(t, g, evts, alive);
    assert CheckQueue(TryUnsuspend(s.(guilds := s.guilds - {g}), g), g, alive) == SendAll(t, evts, alive);
    forall h ensures Total(SendAll(t, evts, alive), h, g, []) == Total(s, h, g, []) {
      TakenTotal(s, g, h);
      SendAllTotal(t, g, evts, alive, h);
    }
  }

  lemma {:induction false} HandlerClosedOk(s: State, g: Guild, alive: nat)
    requires Inv(s) && Enabled(s, HandlerClosed(g, alive))
    ensures Inv(Next(s, HandlerClosed(g, alive)))
  {
    AnyGuild(s, 0, g);
    if MayRun(s, g) {
      RestartOk(s, g, alive);
    } else {
      RemoveOk(s, g, []);
    }
    hide InvWith;
    AnyGuild(Next(s, HandlerClosed(g, alive)), g, 0);
  }

  lemma {:induction false} DiscordOk(s: State, e: Event, alive: bool)
    requires Inv(s)
    ensures Inv(Next(s, Discord(e, alive)))
  {
    AnyGuild(s, 0, e.guild);
    hide InvWith;
    ArriveOk(s, e);
    var t := s.(arrivals := s.arrivals + [e]);
    if MayRun(s, e.guild) {
      UnsuspendOk(t, e.guild, [e]);
      assert [e] + [] == [e];
      SendOk(TryUnsuspend(t, e.guild), e, alive, []);
    }
    AnyGuild(Next(s, Discord(e, alive)), e.guild, 0);
  }

  lemma {:induction false} HandlerReportOk(s: State, g: Guild)
    requires Inv(s) && Enabled(s, HandlerReport(g))
    ensures Inv(Next(s, HandlerReport(g)))
  {
    var t := s.(guilds := s.guilds[g := s.guilds[g].(report := None)]);
    HandlerOk(s, g, s.guilds[g].(report := None));
    assert g !in s.suspendedGuilds && s.guilds[g].spent;
    AnyGuild(t, 0, g);
    hide InvWith;
    SuspendOk(t, g, s.guilds[g].report.value);
    AnyGuild(Next(s, HandlerReport(g)), g, 0);
  }

  /** GuildDelete and ReloadGuildScripts. */
  lemma {:induction false} DeleteOrReloadOk(s: State, step: Step)
    requires Inv(s) && (step.GuildDelete? || step.Reload?)
    ensures Inv(Next(s, step))
  {
    var g := step.g;
    if MayRun(s, g) {
      AnyGuild(s, 0, g);
      UnsuspendOk(s, g, []);
      var t := TryUnsuspend(s, g);
      AnyGuild(t, g, 0);
      if step.Reload? {
        StartOkay(t, g, 0, []);
      } else if g in t.guilds {
        HandlerOk(t, g, Closed(t.guilds[g]));
      }
    }
  }

  lemma {:induction false} NextOk(s: State, step: Step)
    requires Inv(s) && Enabled(s, step)
    ensures Inv(Next(s, step))
  {
    match step {
      case Hello(gs) =>
        ShutdownOk(s);
        PendingOk(ShutdownAll(s), [], 0, []);
        StartConnectedOk(ShutdownAll(s).(pendingStarts := []), gs);
      case BrokerDisconnected => ShutdownOk(s);
      case Discord(e, alive) => DiscordOk(s, e, alive);
      case GuildDelete(_) | Reload(_) => DeleteOrReloadOk(s, step);
      case HandlerReport(g) => HandlerReportOk(s, g);
      case HandlerClosed(g, alive) => HandlerClosedOk(s, g, alive);
      case Report(g, r) => HandlerOk(s, g, s.guilds[g].(spent := true, report := Some(r)));
      case Exit(g) => ExitOk(s, g, 0, []);
    }
  }

  // ----- runs -----

  /** Each step happens at a time not before the previous one. */
  datatype Timed = Timed(now: nat, step: Step)

  ghost predicate ValidRun(states: seq<State>, steps: seq<Timed>) {
    && |states| == |steps| + 1 && states[0] == INIT
    && forall i :: 0 <= i < |steps| ==>
         && states[i].clock <= steps[i].now
         && Enabled(states[i].(clock := steps[i].now), steps[i].step)
         && states[i + 1] == Next(states[i].(clock := steps[i].now), steps[i].step)
  }

  lemma {:induction false} RunOk(states: seq<State>, steps: seq<Timed>, k: nat)
    requires ValidRun(states, steps) && k < |states|
    ensures Inv(states[k])
  {
    if k == 0 {
      assert forall g :: OrderedFor(INIT, g, 0, []);
    } else {
      hide Inv;
      RunOk(states, steps, k - 1);
      TickOk(states[k - 1], steps[k - 1].now);
      NextOk(states[k - 1].(clock := steps[k - 1].now), steps[k - 1].step);
    }
  }

  /** In every run, whenever a handler starts, each suspension recorded for its
      guild until then lies further back than its duration. */
  lemma {:induction false} SuspensionWindow(states: seq<State>, steps: seq<Timed>, k: nat, start: nat, i: nat)
    requires ValidRun(states, steps) && k < |states| && start < |states[k].starts|
    requires i < states[k].starts[start].suspensionsBefore
    ensures i < |states[k].suspensions|
    ensures var r, st := states[k].suspensions[i], states[k].starts[start];
            var length := if r.suspension.reason.ExcessCpu? then 15_000 else 600_000;
            r.guild == st.guild ==> r.suspension.suspendedAt + length < st.at
  {
    RunOk(states, steps, k);
    assert StartOk(states[k], states[k].starts[start]);
  }

  /** In every state of every run, a suspended guild has no queued event and no
      pending start, and no guild has two handler tasks running. */
  lemma {:induction false} SuspendedIsQuietAndHandlersSingle(states: seq<State>, steps: seq<Timed>, k: nat, g: Guild)
    requires ValidRun(states, steps) && k < |states|
    ensures states[k].running[g] <= 1
    ensures g in states[k].suspendedGuilds ==> Only(states[k].queuedEvents, g) == [] && g !in states[k].pendingStarts
  {
    RunOk(states, steps, k);
  }

  /** In every state of every run, the events handed to a guild's successive
      handlers followed by those still queued for it keep the arrival order, and
      events are queued only while its handler takes no more. */
  lemma {:induction false} PerGuildOrder(states: seq<State>, steps: seq<Timed>, k: nat, g: Guild)
    requires ValidRun(states, steps) && k < |states|
    ensures Subsequence(Only(states[k].delivered, g) + Only(states[k].queuedEvents, g), Only(states[k].arrivals, g))
    ensures Only(states[k].queuedEvents, g) != [] ==> g in states[k].guilds && !Accepts(states[k], g)
  {
    RunOk(states, steps, k);
    assert OrderedFor(states[k], g, 0, []);
    var had := Only(states[k].delivered, g) + Only(states[k].queuedEvents, g);
    assert had + [] == had;
  }
}
