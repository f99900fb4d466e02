/**
 The scheduler object of cmd/scheduler/src/scheduler.rs: its fields are updated in
 place, and each method is proved equal to the step function of the same name in
 GuildScheduler, about which SchedulerRuns proves the theorems.
 */
module SchedulerLoop {
  import opened Common
  import opened GuildScheduler
  import opened SchedulerRuns

  /** `reverse` of a vector. */
  function Backwards<T>(s: seq<T>): seq<T> {
    seq(|s|, k requires 0 <= k < |s| => s[|s| - 1 - k])
  }

  ghost predicate NoneOf(q: seq<Event>, g: Guild) {
    forall i :: 0 <= i < |q| ==> q[i].guild != g
  }

  lemma {:induction false} ExceptAppend(a: seq<Event>, b: seq<Event>, g: Guild)
    ensures Except(a + b, g) == Except(a, g) + Except(b, g)
  {
    if a == [] {
      assert a + b == b;
    } else {
      assert (a + b)[1..] == a[1..] + b;
      ExceptAppend(a[1..], b, g);
    }
  }

  lemma {:induction false} NoneSplit(a: seq<Event>, g: Guild)
    requires NoneOf(a, g)
    ensures Except(a, g) == a && Only(a, g) == []
  {
    if a != [] {
      NoneSplit(a[1..], g);
    }
  }

  lemma {:induction false} ExceptGuildAppend(a: seq<Guild>, v: Guild, g: Guild)
    ensures ExceptGuild(a + [v], g) == ExceptGuild(a, g) + if v != g then [v] else []
  {
    if a == [] {
      assert a + [v] == [v] && [v][1..] == [];
    } else {
      assert (a + [v])[1..] == a[1..] + [v];
      ExceptGuildAppend(a[1..], v, g);
    }
  }

  lemma {:induction false} RemoveFirstAt(q: seq<Guild>, g: Guild, i: nat)
    requires i < |q| && q[i] == g && g !in q[..i]
    ensures RemoveFirst(q, g) == q[..i] + q[i + 1..]
  {
    if i > 0 {
      assert q[0] != g by { assert q[0] in q[..i]; }
      assert q[1..][..i - 1] == q[..i][1..];
      RemoveFirstAt(q[1..], g, i - 1);
      assert q[..i] == [q[0]] + q[1..][..i - 1];
      assert q[1..][i..] == q[i + 1..];
    }
  }

  /** `idx` lists, ascending, the positions of `g`'s events in `q[..n]`. */
  ghost predicate Positions(q: seq<Event>, g: Guild, n: nat, idx: seq<nat>)
    requires n <= |q|
  {
    && (forall a :: 0 <= a < |idx| ==> idx[a] < n && q[idx[a]].guild == g)
    && (forall a, b :: 0 <= a < b < |idx| ==> idx[a] < idx[b])
    && (forall i :: 0 <= i < n && q[i].guild == g ==> i in idx)
  }

  /** Everything from `c` on has been split into the events of `g` and the rest. */
  ghost predicate SplitFrom(q: seq<Event>, g: Guild, c: nat, rest: seq<Event>, taken: seq<Event>)
    requires c <= |q|
  {
    rest == q[..c] + Except(q[c..], g) && Backwards(taken) == Only(q[c..], g)
  }

  lemma {:induction false} SplitStart(q: seq<Event>, g: Guild)
    ensures SplitFrom(q, g, |q|, q, [])
  {
    assert q[..|q|] == q && q[|q|..] == [];
  }

  /** The split point may move down over events of other guilds. */
  lemma {:induction false} SplitDown(q: seq<Event>, g: Guild, lo: nat, c: nat, rest: seq<Event>, taken: seq<Event>)
    requires lo <= c <= |q| && SplitFrom(q, g, c, rest, taken) && NoneOf(q[lo..c], g)
    ensures SplitFrom(q, g, lo, rest, taken)
  {
    assert q[lo..] == q[lo..c] + q[c..];
    NoneSplit(q[lo..c], g);
    ExceptAppend(q[lo..c], q[c..], g);
    OnlyAppend(q[lo..c], q[c..], g);
    assert q[..c] == q[..lo] + q[lo..c];
  }

  /** Removing the event of `g` just below the split point. */
  lemma {:induction false} SplitTake(q: seq<Event>, g: Guild, i: nat, rest: seq<Event>, taken: seq<Event>)
    requires i < |q| && q[i].guild == g && SplitFrom(q, g, i + 1, rest, taken)
    ensures i < |rest| && rest[i] == q[i]
    ensures SplitFrom(q, g, i, rest[..i] + rest[i + 1..], taken + [q[i]])
  {
    assert q[i..][1..] == q[i + 1..];
    assert rest[..i] == q[..i];
    assert rest[i + 1..] == Except(q[i + 1..], g);
  }

  class Scheduler {
    var guilds: map<Guild, Handler>
    var pendingStarts: seq<Guild>
    var queuedEvents: seq<Event>
    var suspendedGuilds: map<Guild, Suspension>
    var clock: nat

    ghost var arrivals: seq<Event>
    ghost var delivered: seq<Event>
    ghost var suspensions: seq<SuspensionRecord>
    ghost var starts: seq<StartRecord>
    ghost var running: multiset<Guild>

    ghost function Model(): State
      reads this
    {
      State(guilds, pendingStarts, queuedEvents, suspendedGuilds, clock, arrivals, delivered, suspensions, starts,
          running)
    }

    constructor ()
      ensures Model() == INIT
    {
      guilds, pendingStarts, queuedEvents, suspendedGuilds, clock := map[], [], [], map[], 0;
      arrivals, delivered, suspensions, starts, running := [], [], [], [], multiset{};
    }

    /** `try_unsuspend_guild`. */
    method TryUnsuspendGuild(g: Guild) returns (ok: bool)
      modifies this`suspendedGuilds
      ensures ok == MayRun(old(Model()), g) && Model() == TryUnsuspend(old(Model()), g)
    {
      if g in suspendedGuilds {
        if Elapsed(suspendedGuilds[g], clock) {
          suspendedGuilds := suspendedGuilds - {g};
        } else {
          return false;
        }
      }
      return true;
    }

    /** `get_or_start_guild`. */
    method GetOrStartGuild(g: Guild) returns (h: Handler)
      modifies this`guilds, this`starts, this`running
      ensures Model() == GetOrStart(old(Model()), g) && g in guilds && h == guilds[g]
    {
      if g !in guilds {
        guilds := guilds[g := NEW_HANDLER];
        starts := starts + [StartRecord(g, clock, |suspensions|)];
        running := running + multiset{g};
      }
      return guilds[g];
    }

    /** `send_or_queue_broker_evt`; unless `alive`, the handler task ends before the send. */
    method SendOrQueueBrokerEvt(e: Event, alive: bool)
      modifies this`guilds, this`starts, this`running, this`delivered, this`queuedEvents
      ensures Model() == SendOrQueue(old(Model()), e, alive)
    {
      hide GetOrStart;
      var worker := GetOrStartGuild(e.guild);
      if !alive && !worker.exited {
        worker := worker.(exited := true);
        guilds := guilds[e.guild := worker];
        running := running - multiset{e.guild};
      }
      if worker.open {
        if worker.exited {
          queuedEvents := queuedEvents + [e];
        } else {
          delivered := delivered + [e];
        }
      } else {
        queuedEvents := queuedEvents + [e];
      }
    }

    /** The index collection of `check_queue_start_worker`. */
    method CollectIndexes(g: Guild) returns (idx: seq<nat>)
      ensures Positions(queuedEvents, g, |queuedEvents|, idx)
    {
      idx := [];
      for i := 0 to |queuedEvents|
        invariant Positions(queuedEvents, g, i, idx)
      {
        if queuedEvents[i].guild == g {
          idx := idx + [i];
        }
      }
    }

    /** The reversed removal of `check_queue_start_worker`: a stable partition. */
    method DrainGuild(g: Guild) returns (evts: seq<Event>)
      modifies this`queuedEvents
      ensures evts == Only(old(queuedEvents), g) && queuedEvents == Except(old(queuedEvents), g)
    {
      hide SplitFrom, Positions, Only, Except;
      ghost var q := queuedEvents;
      var idx := CollectIndexes(g);
      var indexes := Backwards(idx);
      evts := [];
      ghost var c := |q|;
      SplitStart(q, g);
      for j := 0 to |indexes|
        invariant c == if j == 0 then |q| else idx[|idx| - j]
        invariant c <= |q| && SplitFrom(q, g, c, queuedEvents, evts)
      {
        ghost var k := |idx| - 1 - j;
        var i := indexes[j];
        SplitDown(q, g, i + 1, c, queuedEvents, evts);
        SplitTake(q, g, i, queuedEvents, evts);
        evts := evts + [queuedEvents[i]];
        queuedEvents := queuedEvents[..i] + queuedEvents[i + 1..];
        c := i;
      }
      SplitDown(q, g, 0, c, queuedEvents, evts);
      evts := Backwards(evts);
    }

    /** `check_queue_start_worker`; the handler survives the first `survives` sends. */
    method CheckQueueStartWorker(g: Guild, survives: nat)
      modifies this`guilds, this`starts, this`running, this`delivered, this`queuedEvents, this`pendingStarts
      ensures Model() == CheckQueue(old(Model()), g, survives)
    {
      hide GetOrStart, SendOrQueue, RemoveFirst, Only, Except;
      var index := 0;
      while index < |pendingStarts| && pendingStarts[index] != g
        invariant index <= |pendingStarts| && g !in pendingStarts[..index]
      {
        index := index + 1;
      }
      if index < |pendingStarts| {
        RemoveFirstAt(pendingStarts, g, index);
        pendingStarts := pendingStarts[..index] + pendingStarts[index + 1..];
        var _ := GetOrStartGuild(g);
      } else {
        assert pendingStarts[..index] == pendingStarts;
      }
      var evts := DrainGuild(g);
      ghost var start := Model();
      assert evts[0..] == evts;
      for i := 0 to |evts|
        invariant SendAll(start, evts, survives) == SendAll(Model(), evts[i..],
            if survives > i then survives - i else 0)
      {
        assert evts[i..][0] == evts[i] && evts[i..][1..] == evts[i + 1..];
        SendOrQueueBrokerEvt(evts[i], survives > i);
      }
    }

    /** The queued starts of the other guilds. */
    method StartsWithout(g: Guild) returns (kept: seq<Guild>)
      ensures kept == ExceptGuild(pendingStarts, g)
    {
      kept := [];
      for i := 0 to |pendingStarts|
        invariant kept == ExceptGuild(pendingStarts[..i], g)
      {
        assert pendingStarts[..i + 1] == pendingStarts[..i] + [pendingStarts[i]];
        ExceptGuildAppend(pendingStarts[..i], pendingStarts[i], g);
        if pendingStarts[i] != g {
          kept := kept + [pendingStarts[i]];
        }
      }
      assert pendingStarts[..|pendingStarts|] == pendingStarts;
    }

    /** The queued events of the other guilds. */
    method EventsWithout(g: Guild) returns (kept: seq<Event>)
      ensures kept == Except(queuedEvents, g)
    {
      kept := [];
      for i := 0 to |queuedEvents|
        invariant kept == Except(queuedEvents[..i], g)
      {
        assert queuedEvents[..i + 1] == queuedEvents[..i] + [queuedEvents[i]];
        ExceptAppend(queuedEvents[..i], [queuedEvents[i]], g);
        if queuedEvents[i].guild != g {
          kept := kept + [queuedEvents[i]];
        }
      }
      assert queuedEvents[..|queuedEvents|] == queuedEvents;
    }

    /** `mark_guild_as_suspended`. */
    method MarkGuildAsSuspended(g: Guild, reason: Reason)
      modifies this`suspendedGuilds, this`suspensions, this`pendingStarts, this`queuedEvents
      ensures Model() == Suspend(old(Model()), g, reason)
    {
      suspendedGuilds := suspendedGuilds[g := Suspension(reason, clock)];
      suspensions := suspensions + [SuspensionRecord(g, Suspension(reason, clock))];
      pendingStarts := StartsWithout(g);
      queuedEvents := EventsWithout(g);
    }

    /** `shutdown_all`. */
    method ShutdownHandlers()
      modifies this`guilds
      ensures Model() == ShutdownAll(old(Model()))
    {
      ghost var was := guilds;
      var left := guilds.Keys;
      while left != {}
        invariant left <= was.Keys == guilds.Keys
        invariant forall g :: g in guilds ==> guilds[g] == if g in left then was[g] else Closed(was[g])
        decreases left
      {
        var g :| g in left;
        left := left - {g};
        guilds := guilds[g := guilds[g].(open := false)];
      }
    }

    /** The BrokerHello arm of `handle_scheduler_command`. */
    method BrokerHello(connected: seq<Guild>)
      modifies this`guilds, this`starts, this`running, this`pendingStarts, this`suspendedGuilds
      ensures Model() == Next(old(Model()), Hello(connected))
    {
      ShutdownHandlers();
      pendingStarts := [];
      ghost var start := Model();
      assert connected[0..] == connected;
      for i := 0 to |connected|
        invariant StartConnected(start, connected) == StartConnected(Model(), connected[i..])
      {
        var g := connected[i];
        assert connected[i..][0] == g && connected[i..][1..] == connected[i + 1..];
        var ok := TryUnsuspendGuild(g);
        if !ok {
          continue;
        }
        var worker := GetOrStartGuild(g);
        if !worker.open {
          pendingStarts := pendingStarts + [g];
        }
      }
    }

    /** The DiscordEvent arm for everything but GuildDelete. */
    method DiscordEvent(e: Event, alive: bool)
      modifies this
      ensures Model() == Next(old(Model()), Discord(e, alive))
    {
      arrivals := arrivals + [e];
      var ok := TryUnsuspendGuild(e.guild);
      if ok {
        SendOrQueueBrokerEvt(e, alive);
      }
    }

    /** The DiscordEvent arm for GuildDelete. */
    method DiscordGuildDelete(g: Guild)
      modifies this`guilds, this`suspendedGuilds
      ensures Model() == Next(old(Model()), GuildDelete(g))
    {
      var ok := TryUnsuspendGuild(g);
      if ok && g in guilds {
        guilds := guilds[g := guilds[g].(open := false)];
      }
    }

    /** The ReloadGuildScripts arm; the reload is forwarded to a handler that has not
        been told to stop. */
    method ReloadGuildScripts(g: Guild) returns (forwarded: bool)
      modifies this`guilds, this`starts, this`running, this`suspendedGuilds
      ensures Model() == Next(old(Model()), Reload(g))
      ensures forwarded <==> MayRun(old(Model()), g) && g in guilds && guilds[g].open
    {
      var ok := TryUnsuspendGuild(g);
      if ok {
        var _ := GetOrStartGuild(g);
      } else {
        return false;
      }
      return g in guilds && guilds[g].open;
    }

    /** `run`, a handler's event channel closed. */
    method HandlerFinished(g: Guild, survives: nat)
      requires Enabled(Model(), HandlerClosed(g, survives))
      modifies this
      ensures Model() == Next(old(Model()), HandlerClosed(g, survives))
    {
      guilds := guilds - {g};
      var ok := TryUnsuspendGuild(g);
      if ok {
        CheckQueueStartWorker(g, survives);
      }
    }

    /** `run`, a handler's session event. */
    method HandleGuildHandlerEvent(g: Guild)
      requires Enabled(Model(), HandlerReport(g))
      modifies this`guilds, this`suspendedGuilds, this`suspensions, this`pendingStarts, this`queuedEvents
      ensures Model() == Next(old(Model()), HandlerReport(g))
    {
      var reason := guilds[g].report.value;
      guilds := guilds[g := guilds[g].(report := None)];
      MarkGuildAsSuspended(g, reason);
    }
  }
}
