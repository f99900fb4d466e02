/**
 The client object in the delivery protocol: along every run of Delivery, the log of
 forwarded events is the transcript that the client object produces from the
 connections of that run.
 */
module ClientRuns {
  import opened Common
  import opened BrokerClient
  import D = Delivery

  function AsMessage(m: D.Message): Message {
    match m
    case Hello => Message.Hello
    case Event(n) => DiscordEvent(n)
  }

  /** The connections a run has made: what the client read on each, and how many acks
      it wrote. */
  ghost function Connections(states: seq<D.State>, steps: seq<D.Step>, k: nat): seq<Connection>
    requires k <= |steps| <= |states|
  {
    if k == 0 then []
    else Recorded(Connections(states, steps, k - 1), states[k - 1], steps[k - 1])
  }

  ghost function Recorded(cs: seq<Connection>, s: D.State, step: D.Step): seq<Connection> {
    if step.ClientConnect? then cs + [Connection([], 0)]
    else if cs == [] || s.clientConn.None? || s.clientConn.value >= |s.wires| then cs
    else
      var c, w := cs[|cs| - 1], s.wires[s.clientConn.value];
      if step.ClientRead? && w.toClient != [] then
        cs[|cs| - 1 := c.(incoming := c.incoming + [AsMessage(w.toClient[0])])]
      else if step.ClientAck? then cs[|cs| - 1 := c.(writes := c.writes + 1)]
      else cs
  }

  /** The events among the commands a scheduler received. */
  function Events(cs: seq<Command>): seq<nat> {
    if cs == [] then []
    else Events(cs[..|cs| - 1]) + match cs[|cs| - 1] { case Forwarded(DiscordEvent(n)) => [n] case _ => [] }
  }

  lemma {:induction false} EventsAppend(a: seq<Command>, b: seq<Command>)
    ensures Events(a + b) == Events(a) + Events(b)
    decreases |b|
  {
    if b == [] {
      assert a + b == a;
    } else {
      assert (a + b)[..|a + b| - 1] == a + b[..|b| - 1];
      EventsAppend(a, b[..|b| - 1]);
    }
  }

  /** The events read on a series of connections. */
  function Read(cs: seq<Connection>): seq<nat> {
    if cs == [] then [] else Read(cs[..|cs| - 1]) + Events(Forward(cs[|cs| - 1].incoming))
  }

  /** On every connection at most the last message read is not acked. */
  ghost predicate Answered(cs: seq<Connection>) {
    forall i :: 0 <= i < |cs| ==> cs[i].writes <= |cs[i].incoming| <= cs[i].writes + 1
  }

  /** On the open connection exactly when an ack is owed, and the log is what was read. */
  ghost predicate Agree(s: D.State, cs: seq<Connection>) {
    && |cs| == |s.wires| && (s.clientConn.Some? ==> s.clientConn.value == |cs| - 1)
    && Answered(cs)
    && (s.clientConn.Some? ==> |cs[|cs| - 1].incoming| == cs[|cs| - 1].writes + if s.owesAck then 1 else 0)
    && s.log == Read(cs)
  }

  lemma {:induction false} ReadGrows(cs: seq<Connection>, m: Message)
    requires cs != []
    ensures var c := cs[|cs| - 1];
      Read(cs[|cs| - 1 := c.(incoming := c.incoming + [m])]) == Read(cs) + if m.DiscordEvent? then [m.n] else []
  {
    var c, n := cs[|cs| - 1], |cs| - 1;
    var ds := cs[n := c.(incoming := c.incoming + [m])];
    assert ds[..n] == cs[..n];
    assert Forward(c.incoming + [m]) == Forward(c.incoming) + [Forwarded(m)];
    EventsAppend(Forward(c.incoming), [Forwarded(m)]);
    assert [Forwarded(m)][..0] == [];
  }

  lemma {:induction false} ConnectAgrees(s: D.State, cs: seq<Connection>)
    requires D.Enabled(s, D.ClientConnect) && Agree(s, cs)
    ensures Agree(D.Next(s, D.ClientConnect), Recorded(cs, s, D.ClientConnect))
  {
    assert Recorded(cs, s, D.ClientConnect)[..|cs|] == cs && Forward([]) == [];
  }

  lemma {:induction false} StepAgrees(s: D.State, cs: seq<Connection>, step: D.Step)
    requires D.Enabled(s, step) && D.ConnsOk(s) && Agree(s, cs)
    ensures Agree(D.Next(s, step), Recorded(cs, s, step))
  {
    if step.ClientConnect? {
      ConnectAgrees(s, cs);
    } else if step.ClientRead? {
      ReadGrows(cs, AsMessage(s.wires[s.clientConn.value].toClient[0]));
      hide Read;
    } else if step.ClientAck? {
      assert Recorded(cs, s, step)[..|cs| - 1] == cs[..|cs| - 1];
    } else {
      hide Read;
    }
  }

  lemma {:induction false} RunAgrees(states: seq<D.State>, steps: seq<D.Step>, k: nat)
    requires D.ValidRun(states, steps) && k < |states|
    ensures Agree(states[k], Connections(states, steps, k))
  {
    if k > 0 {
      RunAgrees(states, steps, k - 1);
      D.RunOk(states, steps, k - 1);
      StepAgrees(states[k - 1], Connections(states, steps, k - 1), steps[k - 1]);
    }
  }

  // ----- the object's transcript -----

  function Attempts(cs: seq<Connection>): (r: seq<Option<Connection>>)
    ensures |r| == |cs| && forall i :: 0 <= i < |cs| ==> r[i] == Some(cs[i])
  {
    seq(|cs|, i requires 0 <= i < |cs| => Some(cs[i]))
  }

  /** Enough for all that is read on the connections, with their brackets. */
  function Needed(cs: seq<Connection>): nat {
    if cs == [] then 1 else |cs[0].incoming| + 2 + Needed(cs[1..])
  }

  lemma {:induction false} ReadFront(c: Connection, cs: seq<Connection>)
    ensures Read([c] + cs) == Events(Forward(c.incoming)) + Read(cs)
    decreases |cs|
  {
    if cs == [] {
      assert [c] + cs == [c] && [c][..0] == [];
    } else {
      assert ([c] + cs)[..|cs|] == [c] + cs[..|cs| - 1];
      ReadFront(c, cs[..|cs| - 1]);
    }
  }

  lemma {:induction false} TranscriptFirst(cs: seq<Connection>, room: nat)
    requires cs != [] && |cs[0].incoming| <= cs[0].writes + 1 && room >= |cs[0].incoming| + 3
    ensures Transcript(Attempts(cs), room) == [BrokerConnected] + Forward(cs[0].incoming) +
      ([BrokerDisconnected] + Transcript(Attempts(cs[1..]), room - 2 - |cs[0].incoming|))
  {
    var c, k := cs[0], |cs[0].incoming|;
    assert Attempts(cs)[1..] == Attempts(cs[1..]) && Attempts(cs)[0] == Some(c);
    assert Taken(c, room - 1) == k && c.incoming[..k] == c.incoming;
  }

  lemma {:induction false} BracketEvents(a: seq<Command>, b: seq<Command>)
    ensures Events([BrokerConnected] + a + ([BrokerDisconnected] + b)) == Events(a) + Events(b)
  {
    assert [BrokerConnected][..0] == [] && [BrokerDisconnected][..0] == [];
    assert Events([BrokerConnected]) == [] && Events([BrokerDisconnected]) == [];
    hide Events;
    EventsAppend([BrokerConnected] + a, [BrokerDisconnected] + b);
    EventsAppend([BrokerConnected], a);
    EventsAppend([BrokerDisconnected], b);
  }

  lemma {:induction false} FirstOf(cs: seq<Connection>)
    requires cs != [] && Answered(cs)
    ensures cs == [cs[0]] + cs[1..] && Answered(cs[1..])
    ensures |cs[0].incoming| <= cs[0].writes + 1
    ensures Needed(cs) == |cs[0].incoming| + 2 + Needed(cs[1..]) && Needed(cs[1..]) >= 1
  {
  }

  lemma {:induction false} NothingRead(room: nat)
    ensures Events(Transcript(Attempts([]), room)) == Read([])
  {
  }

  lemma {:induction false} TranscriptReads(cs: seq<Connection>, room: nat)
    requires Answered(cs) && room >= Needed(cs)
    ensures Events(Transcript(Attempts(cs), room)) == Read(cs)
    decreases |cs|
  {
    hide *;
    if cs == [] {
      NothingRead(room);
    } else {
      FirstOf(cs);
      var c, rest, left := cs[0], cs[1..], room - 2 - |cs[0].incoming|;
      TranscriptFirst(cs, room);
      TranscriptReads(rest, left);
      ReadFront(c, rest);
      BracketEvents(Forward(c.incoming), Transcript(Attempts(rest), left));
    }
  }

  /** In every state of every run of the delivery protocol, the events forwarded so far
      are those in the transcript the client object makes of the run's connections, as
      long as the scheduler takes commands. */
  lemma {:induction false} TranscriptIsLog(states: seq<D.State>, steps: seq<D.Step>, k: nat, room: nat)
    requires D.ValidRun(states, steps) && k < |states| && room >= Needed(Connections(states, steps, k))
    ensures Events(Transcript(Attempts(Connections(states, steps, k)), room)) == states[k].log
  {
    RunAgrees(states, steps, k);
    TranscriptReads(Connections(states, steps, k), room);
  }
}
