/**
 The broker's delivery queue (cmd/discordbroker/src/broker.rs): events are sent
 one at a time and each waits for its ack; while no scheduler is connected they
 queue up, and the queue expires when it has grown too old.

 What the network does is a parameter: whether the Hello is acknowledged and how
 many events the connection acknowledges before it fails.
 */
module Broker {
  import opened Common

  /** A queued gateway event with its guild. */
  type Event = nat

  const EXPIRY := 60_000

  /** `acked` and `dispatched` record history, `expired` whether the queue was
      ever thrown away, `lostAt` when a scheduler was last lost and `byHello`
      whether that was an unanswered Hello.  Times are in milliseconds. */
  datatype State = State(
    connected: bool,
    queued: seq<Event>,
    disconnectedAt: nat,
    acked: seq<Event>,
    dispatched: seq<Event>,
    expired: bool,
    lostAt: nat,
    byHello: bool)

  /** A broker started at `now`. */
  function Fresh(now: nat): State { State(false, [], now, [], [], false, now, false) }

  /** A scheduler connects: Hello, then the queue until the connection fails. */
  function OnConnect(b: State, helloOk: bool, accepts: nat, now: nat): State {
    if !helloOk then b.(connected := false, lostAt := now, byHello := true)
    else
      var n := Min(accepts, |b.queued|);
      b.(connected := n == |b.queued|,
         queued := b.queued[n..],
         acked := b.acked + b.queued[..n],
         disconnectedAt := if n < |b.queued| then now else b.disconnectedAt,
         lostAt := if n < |b.queued| then now else b.lostAt,
         byHello := n == |b.queued| && b.byHello)
  }

  function Queue(b: State, e: Event, now: nat): State {
    if now > b.disconnectedAt + EXPIRY then b.(queued := [], expired := true)
    else b.(queued := b.queued + [e])
  }

  /** An event arrives from the gateway. */
  function OnEvent(b: State, e: Event, sendOk: bool, now: nat): State {
    var c := b.(dispatched := b.dispatched + [e]);
    if b.connected && sendOk then c.(acked := b.acked + [e])
    else if b.connected then Queue(c.(connected := false, disconnectedAt := now, lostAt := now, byHello := false), e,
        now)
    else Queue(c, e, now)
  }

  // ----- the invariant -----

  /** A connected scheduler leaves nothing queued; acked followed by queued events
      keep the dispatch order, and lose none as long as nothing expired. */
  ghost predicate Inv(b: State) {
    && (b.connected ==> b.queued == [])
    && Subsequence(b.acked + b.queued, b.dispatched)
    && (!b.expired ==> b.acked + b.queued == b.dispatched)
  }

  lemma {:induction false} QueueOk(b: State, e: Event, now: nat)
    requires !b.connected && Subsequence(b.acked + b.queued, b.dispatched)
    requires !b.expired ==> b.acked + b.queued == b.dispatched
    ensures Inv(Queue(b.(dispatched := b.dispatched + [e]), e, now))
  {
    SubsequenceGrows(b.acked + b.queued, b.dispatched, e);
    if now > b.disconnectedAt + EXPIRY {
      SubsequencePrefix(b.acked, b.queued, b.dispatched + [e]);
      assert b.acked + [] == b.acked;
    } else {
      assert b.acked + (b.queued + [e]) == (b.acked + b.queued) + [e];
    }
  }

  lemma {:induction false} OnEventOk(b: State, e: Event, sendOk: bool, now: nat)
    requires Inv(b)
    ensures Inv(OnEvent(b, e, sendOk, now))
    ensures OnEvent(b, e, sendOk, now).connected <==> b.connected && sendOk
    ensures OnEvent(b, e, sendOk, now).acked == b.acked + if b.connected && sendOk then [e] else []
  {
    if b.connected && sendOk {
      assert b.acked + b.queued == b.acked;
      SubsequenceGrows(b.acked, b.dispatched, e);
      assert (b.acked + [e]) + [] == b.acked + [e];
    } else if b.connected {
      QueueOk(b.(connected := false, disconnectedAt := now, lostAt := now, byHello := false), e, now);
    } else {
      QueueOk(b, e, now);
    }
  }

  lemma {:induction false} OnConnectOk(b: State, helloOk: bool, accepts: nat, now: nat)
    requires Inv(b)
    ensures Inv(OnConnect(b, helloOk, accepts, now))
    ensures OnConnect(b, helloOk, accepts, now).acked + OnConnect(b, helloOk, accepts, now).queued == b.acked + b.queued
    ensures OnConnect(b, helloOk, accepts, now).connected <==> helloOk && |b.queued| <= accepts
    ensures |OnConnect(b, helloOk, accepts, now).acked| == |b.acked| + if helloOk then Min(accepts, |b.queued|) else 0
  {
    var n := Min(accepts, |b.queued|);
    assert (b.acked + b.queued[..n]) + b.queued[n..] == b.acked + b.queued;
  }

  // ----- runs -----

  datatype Step =
    | Connect(helloOk: bool, accepts: nat, now: nat)
    | Gateway(e: Event, sendOk: bool, now: nat)

  function Next(b: State, step: Step): State {
    match step
    case Connect(helloOk, accepts, now) => OnConnect(b, helloOk, accepts, now)
    case Gateway(e, sendOk, now) => OnEvent(b, e, sendOk, now)
  }

  function Run(b: State, steps: seq<Step>): State
    decreases |steps|
  {
    if steps == [] then b else Run(Next(b, steps[0]), steps[1..])
  }

  /** After every sequence of connections and events, at any times. */
  lemma {:induction false} QueueInvariant(b: State, steps: seq<Step>)
    requires Inv(b)
    ensures Inv(Run(b, steps))
    decreases |steps|
  {
    if steps != [] {
      match steps[0] {
        case Connect(helloOk, accepts, now) => OnConnectOk(b, helloOk, accepts, now);
        case Gateway(e, sendOk, now) => OnEventOk(b, e, sendOk, now);
      }
      QueueInvariant(Next(b, steps[0]), steps[1..]);
    }
  }

  // ----- when events are lost -----

  /** Something the broker was to deliver is gone after event `e`. */
  ghost predicate Loses(b: State, e: Event, sendOk: bool, now: nat) {
    var c := OnEvent(b, e, sendOk, now);
    c.acked + c.queued != b.acked + b.queued + [e]
  }

  /** An event is lost exactly when no scheduler is connected and the recorded
      disconnect is more than a minute old. */
  lemma {:induction false} LossExactly(b: State, e: Event, sendOk: bool, now: nat)
    requires Inv(b)
    ensures Loses(b, e, sendOk, now) <==> !b.connected && now > b.disconnectedAt + 60_000
  {
    var c := OnEvent(b, e, sendOk, now);
    if b.connected {
      assert b.acked + b.queued == b.acked;
      assert c.acked + c.queued == b.acked + [e];
    } else if now > b.disconnectedAt + EXPIRY {
      assert |c.acked + c.queued| < |b.acked + b.queued + [e]|;
    } else {
      assert c.acked + c.queued == b.acked + b.queued + [e];
    }
  }

  function TimeOf(step: Step): nat { step.now }

  /** The clock does not run backwards. */
  ghost predicate Timed(steps: seq<Step>, from: nat, to: nat)
    decreases |steps|
  {
    if steps == [] then from <= to else from <= TimeOf(steps[0]) && Timed(steps[1..], TimeOf(steps[0]), to)
  }

  /** Only an unanswered Hello makes the recorded disconnect older than the loss. */
  ghost predicate Recorded(b: State, now: nat) {
    b.disconnectedAt <= b.lostAt <= now && (!b.byHello ==> b.lostAt == b.disconnectedAt)
  }

  lemma {:induction false} RunRecorded(b: State, steps: seq<Step>, from: nat, to: nat)
    requires Recorded(b, from) && Timed(steps, from, to)
    ensures Recorded(Run(b, steps), to)
    decreases |steps|
  {
    if steps != [] {
      RunRecorded(Next(b, steps[0]), steps[1..], TimeOf(steps[0]), to);
    }
  }

  /** After any run: unless the last scheduler was lost by an unanswered Hello,
      events are lost exactly when that loss is more than a minute old; otherwise
      they are also lost within the minute, exactly when the disconnect recorded
      before the Hello is more than a minute old. */
  lemma {:induction false} LostWithinAMinuteExactly(start: nat, steps: seq<Step>, e: Event, sendOk: bool, now: nat)
    requires Timed(steps, start, now)
    ensures var b := Run(Fresh(start), steps);
      && (!b.byHello ==> (Loses(b, e, sendOk, now) <==> !b.connected && now > b.lostAt + 60_000))
      && (Loses(b, e, sendOk, now) && now <= b.lostAt + 60_000 <==>
            !b.connected && b.byHello && b.disconnectedAt + 60_000 < now <= b.lostAt + 60_000)
  {
    var b := Run(Fresh(start), steps);
    QueueInvariant(Fresh(start), steps);
    RunRecorded(Fresh(start), steps, start, now);
    LossExactly(b, e, sendOk, now);
  }

  /** A scheduler connects, an event to it fails and is queued, and a minute later
      another connects but does not answer the Hello: one millisecond after that
      the queue is thrown away. */
  lemma {:induction false} FailedHelloKeepsOldDeadline()
    ensures var before := [Connect(true, 0, 0), Gateway(1, false, 0), Connect(false, 0, EXPIRY)];
      && Timed(before, 0, EXPIRY + 1)
      && Run(Fresh(0), before).queued == [1] && Run(Fresh(0), before).lostAt == EXPIRY
      && OnEvent(Run(Fresh(0), before), 2, true, EXPIRY + 1).queued == []
      && Loses(Run(Fresh(0), before), 2, true, EXPIRY + 1)
  {
    var s0, s1, s2 := Connect(true, 0, 0), Gateway(1, false, 0), Connect(false, 0, EXPIRY);
    assert [s0, s1, s2][1..] == [s1, s2] && [s1, s2][1..] == [s2] && [s2][1..] == [];
    assert Timed([], EXPIRY, EXPIRY + 1) && Timed([s2], 0, EXPIRY + 1) && Timed([s1, s2], 0, EXPIRY + 1);
    var b1 := Next(Fresh(0), s0);
    var b2 := Next(b1, s1);
    var b3 := Next(b2, s2);
    assert b1.connected && b1.queued == [];
    assert b2.queued == [1] && b2.acked == [] && b2.dispatched == [1];
    assert Run(Fresh(0), [s0, s1, s2]) == Run(b1, [s1, s2]) == Run(b2, [s2]) == Run(b3, []) == b3;
    assert Inv(b3) by { QueueInvariant(Fresh(0), [s0, s1, s2]); }
    LossExactly(b3, 2, true, EXPIRY + 1);
  }

  // ----- the object -----

  class Broker {
    var connectedScheduler: bool
    var queuedEvents: seq<Event>
    var schedulerDisconnectedAt: nat

    ghost var acked: seq<Event>
    ghost var dispatched: seq<Event>
    ghost var expired: bool
    ghost var lostAt: nat
    ghost var byHello: bool

    ghost function Model(): State
      reads this
    {
      State(connectedScheduler, queuedEvents, schedulerDisconnectedAt, acked, dispatched, expired, lostAt, byHello)
    }

    ghost predicate Valid()
      reads this
    {
      Inv(Model())
    }

    ghost predicate LostNow(now: nat)
      reads this
    {
      schedulerDisconnectedAt == lostAt == now && !byHello
    }

    ghost predicate KeptTimes(b: State)
      reads this
    {
      schedulerDisconnectedAt == b.disconnectedAt && lostAt == b.lostAt && byHello == b.byHello
    }

    constructor (now: nat)
      ensures Valid() && Model() == Fresh(now)
    {
      connectedScheduler, queuedEvents, schedulerDisconnectedAt := false, [], now;
      acked, dispatched, expired, lostAt, byHello := [], [], false, now, false;
    }

    /** The requeue loop of `handle_new_scheduler_connected`: the events from the
        first that is not acknowledged are queued again, in order. */
    method SendPending(pending: seq<Event>, accepts: nat, now: nat)
      requires queuedEvents == []
      modifies this
      ensures dispatched == old(dispatched) && expired == old(expired)
      ensures var n := if old(connectedScheduler) then Min(accepts, |pending|) else 0;
        && queuedEvents == pending[n..] && acked == old(acked) + pending[..n]
        && connectedScheduler == (old(connectedScheduler) && n == |pending|)
        && (if old(connectedScheduler) && n < |pending| then LostNow(now) else KeptTimes(old(Model())))
    {
      ghost var n := if connectedScheduler then Min(accepts, |pending|) else 0;
      ghost var ok := connectedScheduler;
      for i := 0 to |pending|
        invariant dispatched == old(dispatched) && expired == old(expired)
        invariant acked == old(acked) + pending[..Min(i, n)] && queuedEvents == pending[Min(i, n)..i]
        invariant connectedScheduler == (ok && i <= n)
        invariant if ok && i > n then LostNow(now) else KeptTimes(old(Model()))
      {
        if connectedScheduler {
          if i < accepts {
            assert pending[..i + 1] == pending[..i] + [pending[i]];
            acked := acked + [pending[i]];
          } else {
            queuedEvents := queuedEvents + [pending[i]];
            connectedScheduler := false;
            schedulerDisconnectedAt := now;
            lostAt, byHello := now, false;
          }
        } else {
          queuedEvents := queuedEvents + [pending[i]];
        }
      }
      assert pending[n..|pending|] == pending[n..];
    }

    /** `handle_new_scheduler_connected`. */
    method HandleNewSchedulerConnected(helloOk: bool, accepts: nat, now: nat)
      requires Valid()
      modifies this
      ensures Valid() && Model() == OnConnect(old(Model()), helloOk, accepts, now)
    {
      OnConnectOk(Model(), helloOk, accepts, now);
      hide Inv;
      connectedScheduler := true;
      if !helloOk {
        connectedScheduler := false;
        lostAt, byHello := now, true;
      }
      var oldQueued := queuedEvents;
      queuedEvents := [];
      SendPending(oldQueued, accepts, now);
      assert !helloOk ==> acked == old(acked) && queuedEvents == oldQueued;
    }

    method QueueEvent(e: Event, now: nat)
      modifies this`queuedEvents, this`expired
      ensures Model() == Queue(old(Model()), e, now)
    {
      if now > schedulerDisconnectedAt + EXPIRY {
        queuedEvents := [];
        expired := true;
        return;
      }
      queuedEvents := queuedEvents + [e];
    }

    method DispatchOrQueueEvent(e: Event, sendOk: bool, now: nat)
      requires Valid()
      modifies this
      ensures Valid() && Model() == OnEvent(old(Model()), e, sendOk, now)
    {
      OnEventOk(Model(), e, sendOk, now);
      hide Inv;
      dispatched := dispatched + [e];
      if connectedScheduler {
        if sendOk {
          acked := acked + [e];
        } else {
          connectedScheduler := false;
          schedulerDisconnectedAt := now;
          lostAt, byHello := now, false;
          QueueEvent(e, now);
        }
      } else {
        QueueEvent(e, now);
      }
    }
  }
}
