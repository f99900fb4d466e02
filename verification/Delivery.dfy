/**
 End-to-end delivery between the broker and one reconnecting scheduler client
 (cmd/discordbroker/src/broker.rs, cmd/scheduler/src/broker_client.rs), step by
 step over connections that may fail at any moment, with either end noticing
 first or much later.

 Events are numbered in dispatch order: event n is the n-th the gateway
 delivered.  The queue does not expire here.
 */
module Delivery {
  import opened Common

  datatype Message = Hello | Event(n: nat)

  /** One connection: messages on their way to the client, acks to the broker. */
  datatype Wire = Wire(toClient: seq<Message>, acks: nat)

  datatype Phase = Idle | AwaitHello | AwaitEvent

  /** `acked` events are settled; `todo` are those in hand or queued; `log` is
      what the client forwarded to the scheduler.  Connections are numbered as
      the client opens them and accepted by the broker in that order. */
  datatype State = State(
    dispatched: nat,
    acked: nat,
    todo: seq<nat>,
    phase: Phase,
    brokerConn: Option<nat>,
    accepted: nat,
    wires: seq<Wire>,
    clientConn: Option<nat>,
    owesAck: bool,
    log: seq<nat>)

  const INIT := State(0, 0, [], Idle, None, 0, [], None, false, [])

  datatype Step = ClientConnect | ClientDrop | ClientRead | ClientAck
                | BrokerAccept | BrokerFail | BrokerAck | Gateway

  ghost predicate Enabled(s: State, step: Step) {
    match step
    case ClientConnect => s.clientConn.None?
    case ClientDrop => s.clientConn.Some?
    case ClientRead =>
      s.clientConn.Some? && s.clientConn.value < |s.wires| && !s.owesAck && s.wires[s.clientConn.value].toClient != []
    case ClientAck => s.clientConn.Some? && s.clientConn.value < |s.wires| && s.owesAck
    case BrokerAccept => s.phase.Idle? && s.accepted < |s.wires|
    case BrokerFail => !s.phase.Idle?
    case BrokerAck =>
      !s.phase.Idle? && s.brokerConn.Some? && s.brokerConn.value < |s.wires| && s.wires[s.brokerConn.value].acks > 0
    case Gateway => s.phase.Idle? && (s.brokerConn.Some? ==> s.brokerConn.value < |s.wires|)
  }

  function Put(w: Wire, m: Message): Wire { w.(toClient := w.toClient + [m]) }

  /** The broker writes the next event of `todo`, or goes idle. */
  function SendNext(s: State, conn: nat): State
    requires conn < |s.wires|
  {
    if s.todo == [] then s.(phase := Idle)
    else s.(phase := AwaitEvent, wires := s.wires[conn := Put(s.wires[conn], Event(s.todo[0]))])
  }

  ghost function Next(s: State, step: Step): State
    requires Enabled(s, step)
  {
    match step
    case ClientConnect => s.(clientConn := Some(|s.wires|), owesAck := false, wires := s.wires + [Wire([], 0)])
    case ClientDrop => s.(clientConn := None, owesAck := false)
    case ClientRead =>
      var c := s.clientConn.value;
      var w := s.wires[c];
      s.(wires := s.wires[c := w.(toClient := w.toClient[1..])], owesAck := true,
         log := if w.toClient[0].Event? then s.log + [w.toClient[0].n] else s.log)
    case ClientAck =>
      var c := s.clientConn.value;
      s.(wires := s.wires[c := s.wires[c].(acks := s.wires[c].acks + 1)], owesAck := false)
    case BrokerAccept =>
      var b := s.accepted;
      s.(brokerConn := Some(b), accepted := b + 1, phase := AwaitHello, wires := s.wires[b := Put(s.wires[b], Hello)])
    case BrokerFail => s.(brokerConn := None, phase := Idle)
    case BrokerAck =>
      var b := s.brokerConn.value;
      var t := s.(wires := s.wires[b := s.wires[b].(acks := s.wires[b].acks - 1)]);
      if s.phase.AwaitHello? || s.todo == [] then SendNext(t, b)
      else SendNext(t.(acked := s.acked + 1, todo := s.todo[1..]), b)
    case Gateway =>
      var t := s.(dispatched := s.dispatched + 1, todo := s.todo + [s.dispatched]);
      if s.brokerConn.Some? then SendNext(t, s.brokerConn.value) else t
  }

  // ----- what the client's log looks like -----

  function Upto(n: nat): seq<nat> { seq(n, i => i) }

  /** Adjacent duplicates collapsed. */
  function Collapse(log: seq<nat>): seq<nat> {
    if log == [] then []
    else
      var r, x := Collapse(log[..|log| - 1]), log[|log| - 1];
      if r != [] && r[|r| - 1] == x then r else r + [x]
  }

  /** How many different events the log holds. */
  ghost function Logged(s: State): nat { |Collapse(s.log)| }

  // ----- the invariant -----

  ghost predicate QueueOk(s: State) {
    && s.acked + |s.todo| == s.dispatched
    && (forall i :: 0 <= i < |s.todo| ==> s.todo[i] == s.acked + i)
    && (s.phase.Idle? && s.brokerConn.Some? ==> s.todo == [])
    && (!s.phase.Idle? ==> s.brokerConn.Some?)
    && (s.phase.AwaitEvent? ==> s.todo != [])
  }

  ghost predicate ConnsOk(s: State) {
    && s.accepted <= |s.wires|
    && (s.brokerConn.Some? ==> s.brokerConn.value < s.accepted)
    && (s.clientConn.Some? ==> s.clientConn.value == |s.wires| - 1)
    && (s.clientConn.Some? && s.clientConn.value < s.accepted && s.brokerConn.Some? ==> s.brokerConn == s.clientConn)
    && (s.owesAck ==> s.clientConn.Some? && s.clientConn.value < s.accepted)
    && (forall c :: s.accepted <= c < |s.wires| ==> s.wires[c] == Wire([], 0))
  }

  ghost function Owed(s: State, c: nat): nat {
    if s.clientConn == Some(c) && s.owesAck then 1 else 0
  }

  /** Stop and wait: at most one message per connection is somewhere on its way
      there and back, and none while the broker is idle. */
  ghost predicate OneOutstanding(s: State)
    requires ConnsOk(s)
  {
    && (forall c :: 0 <= c < |s.wires| ==> |s.wires[c].toClient| + Owed(s, c) + s.wires[c].acks <= 1)
    && (s.phase.Idle? && s.brokerConn.Some? ==>
          var b := s.brokerConn.value; s.wires[b].toClient == [] && Owed(s, b) == 0 && s.wires[b].acks == 0)
  }

  /** The log runs through the acked events in order, and at most one further:
      the event the broker is still waiting for. */
  ghost predicate LogOk(s: State)
    requires ConnsOk(s)
  {
    && Collapse(s.log) == Upto(Logged(s))
    && s.acked <= Logged(s) <= s.acked + 1 && Logged(s) <= s.dispatched
    && (s.clientConn.Some? ==>
          forall m :: m in s.wires[s.clientConn.value].toClient && m.Event? ==> m.n == s.acked && m.n < s.dispatched)
    && (s.phase.AwaitEvent? ==>
          var b := s.brokerConn;
          b.Some? && Hello !in s.wires[b.value].toClient && (s.wires[b.value].acks > 0 || Owed(s, b.value) > 0 ==>
            Logged(s) == s.acked + 1))
  }

  ghost predicate Inv(s: State) {
    QueueOk(s) && ConnsOk(s) && OneOutstanding(s) && LogOk(s)
  }

  lemma {:induction false} ClientReadOk(s: State)
    requires Inv(s) && Enabled(s, ClientRead)
    ensures Inv(Next(s, ClientRead))
  {}

  lemma {:induction false} BrokerAckOk(s: State)
    requires Inv(s) && Enabled(s, BrokerAck)
    ensures Inv(Next(s, BrokerAck))
  {
  }

  lemma {:induction false} GatewayOk(s: State)
    requires Inv(s) && Enabled(s, Gateway)
    ensures Inv(Next(s, Gateway))
  {
  }

  lemma {:induction false} NextOk(s: State, step: Step)
    requires Inv(s) && Enabled(s, step)
    ensures Inv(Next(s, step))
  {
    match step {
      case ClientRead => ClientReadOk(s);
      case BrokerAck => BrokerAckOk(s);
      case Gateway => GatewayOk(s);
      case _ =>
    }
  }

  // ----- runs -----

  ghost predicate ValidRun(states: seq<State>, steps: seq<Step>) {
    && |states| == |steps| + 1 && states[0] == INIT
    && forall i :: 0 <= i < |steps| ==> Enabled(states[i], steps[i]) && states[i + 1] == Next(states[i], steps[i])
  }

  lemma {:induction false} RunOk(states: seq<State>, steps: seq<Step>, k: nat)
    requires ValidRun(states, steps) && k < |states|
    ensures Inv(states[k])
  {
    if k > 0 {
      RunOk(states, steps, k - 1);
      NextOk(states[k - 1], steps[k - 1]);
    }
  }

  /** In every state of every run, the client's log with adjacent duplicates
      collapsed is a prefix of the dispatch order; it contains every acked event
      and at most one more. */
  lemma {:induction false} EndToEndDelivery(states: seq<State>, steps: seq<Step>, k: nat)
    requires ValidRun(states, steps) && k < |states|
    ensures var s := states[k];
            && Collapse(s.log) <= Upto(s.dispatched)
            && Upto(s.acked) <= Collapse(s.log)
            && |Collapse(s.log)| <= s.acked + 1
  {
    RunOk(states, steps, k);
  }

  /** Acked events followed by those in hand or queued are always exactly the
      dispatched ones, in order. */
  lemma {:induction false} NothingForgotten(states: seq<State>, steps: seq<Step>, k: nat)
    requires ValidRun(states, steps) && k < |states|
    ensures Upto(states[k].acked) + states[k].todo == Upto(states[k].dispatched)
  {
    RunOk(states, steps, k);
  }
}
