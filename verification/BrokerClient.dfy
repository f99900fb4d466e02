/**
 The client half of the broker connection (cmd/scheduler/src/broker_client.rs):
 forward each message to the scheduler, then ack it, until the stream or the
 scheduler is gone; then reconnect.  Delivery interleaves the same steps with the
 broker's.
 */
module BrokerClient {
  import opened Common

  datatype Message = Hello | DiscordEvent(n: nat)

  datatype Command = BrokerConnected | BrokerDisconnected | Forwarded(m: Message)

  /** A connection: the messages that can be read before the stream fails and the
      number of acks that can be written before it does. */
  datatype Connection = Connection(incoming: seq<Message>, writes: nat)

  /** The messages forwarded over a connection when the scheduler takes `room` more. */
  function Taken(c: Connection, room: nat): nat {
    Min(|c.incoming|, Min(room, c.writes + 1))
  }

  function Forward(ms: seq<Message>): (r: seq<Command>)
    ensures |r| == |ms| && forall i :: 0 <= i < |ms| ==> r[i] == Forwarded(ms[i])
  {
    seq(|ms|, i requires 0 <= i < |ms| => Forwarded(ms[i]))
  }

  /** What the scheduler receives from a series of connection attempts while it
      takes `room` commands. */
  function Transcript(conns: seq<Option<Connection>>, room: nat): seq<Command>
    decreases |conns|
  {
    if conns == [] || room == 0 then []
    else if conns[0].None? then Transcript(conns[1..], room)
    else
      var c := conns[0].value;
      var k := Taken(c, room - 1);
      [BrokerConnected] + Forward(c.incoming[..k]) +
      if room - 1 - k == 0 then [] else [BrokerDisconnected] + Transcript(conns[1..], room - 2 - k)
  }

  /** Messages arrive only between a connected and the next disconnected notice. */
  ghost predicate Bracketed(cs: seq<Command>, open: bool) {
    if cs == [] then true
    else match cs[0]
      case BrokerConnected => !open && Bracketed(cs[1..], true)
      case BrokerDisconnected => open && Bracketed(cs[1..], false)
      case Forwarded(_) => open && Bracketed(cs[1..], true)
  }

  lemma {:induction false} ForwardBracketed(ms: seq<Message>, tail: seq<Command>)
    requires Bracketed(tail, true)
    ensures Bracketed(Forward(ms) + tail, true)
  {
    if ms == [] {
      assert Forward(ms) + tail == tail;
    } else {
      assert (Forward(ms) + tail)[1..] == Forward(ms[1..]) + tail;
      ForwardBracketed(ms[1..], tail);
    }
  }

  lemma {:induction false} SessionBracketed(ms: seq<Message>, tail: seq<Command>)
    requires tail != [] ==> tail[0].BrokerDisconnected? && Bracketed(tail[1..], false)
    ensures Bracketed([BrokerConnected] + Forward(ms) + tail, false)
  {
    ForwardBracketed(ms, tail);
    assert ([BrokerConnected] + Forward(ms) + tail)[1..] == Forward(ms) + tail;
  }

  lemma {:induction false} TranscriptBracketed(conns: seq<Option<Connection>>, room: nat)
    ensures Bracketed(Transcript(conns, room), false)
    decreases |conns|
  {
    if conns != [] && room > 0 {
      hide Bracketed, Forward, Taken;
      if conns[0].None? {
        TranscriptBracketed(conns[1..], room);
      } else {
        var c := conns[0].value;
        var k := Taken(c, room - 1);
        if room - 1 - k == 0 {
          SessionBracketed(c.incoming[..k], []);
        } else {
          var next := Transcript(conns[1..], room - 2 - k);
          TranscriptBracketed(conns[1..], room - 2 - k);
          assert ([BrokerDisconnected] + next)[1..] == next;
          SessionBracketed(c.incoming[..k], [BrokerDisconnected] + next);
        }
      }
    }
  }

  class Client {
    var commands: seq<Command>
    /** How many commands the scheduler takes before its receiver is gone. */
    var room: nat

    constructor (room: nat)
      ensures commands == [] && this.room == room
    {
      commands, this.room := [], room;
    }

    method Send(c: Command) returns (ok: bool)
      modifies this
      ensures ok == (old(room) > 0)
      ensures if ok then commands == old(commands) + [c] && room == old(room) - 1
              else commands == old(commands) && room == old(room)
    {
      if room == 0 {
        return false;
      }
      commands, room := commands + [c], room - 1;
      return true;
    }

    /** `BrokerConn::run`: a prefix of the stream is forwarded, and every message
        of it is acked but possibly the last.  The prefix ends before the stream does
        only when the scheduler takes no more or an ack cannot be written. */
    method Run(conn: Connection) returns (forwarded: nat, acks: nat)
      requires room > 0
      modifies this
      ensures forwarded <= |conn.incoming| && acks <= forwarded <= acks + 1 && acks <= conn.writes
      ensures commands == old(commands) + [BrokerConnected] + Forward(conn.incoming[..forwarded])
      ensures room == old(room) - 1 - forwarded
      ensures forwarded < |conn.incoming| ==> room == 0 || (forwarded == acks + 1 && acks == conn.writes)
      ensures acks < forwarded ==> acks == conn.writes
      ensures forwarded == Taken(conn, old(room) - 1)
    {
      var _ := Send(BrokerConnected);
      ghost var start := commands;
      acks, forwarded := 0, 0;
      while forwarded < |conn.incoming|
        invariant forwarded == acks <= Min(|conn.incoming|, Min(old(room) - 1, conn.writes))
        invariant room == old(room) - 1 - forwarded
        invariant commands == start + Forward(conn.incoming[..forwarded])
      {
        var next := conn.incoming[forwarded];
        var ok := Send(Forwarded(next));
        if !ok {
          return;
        }
        forwarded := forwarded + 1;
        assert conn.incoming[..forwarded] == conn.incoming[..forwarded - 1] + [next];
        if acks == conn.writes {
          return;
        }
        acks := acks + 1;
      }
    }

    /** `broker_client` over a series of connection attempts. */
    method BrokerClient(conns: seq<Option<Connection>>)
      modifies this
      ensures commands == old(commands) + Transcript(conns, old(room))
      ensures Bracketed(Transcript(conns, old(room)), false)
    {
      TranscriptBracketed(conns, room);
      ghost var total := Transcript(conns, room);
      assert conns[0..] == conns;
      for i := 0 to |conns|
        invariant old(commands) + total == commands + Transcript(conns[i..], room)
      {
        assert conns[i..][0] == conns[i] && conns[i..][1..] == conns[i + 1..];
        if room == 0 {
          return;
        }
        if conns[i].Some? {
          ghost var before, had := commands, room;
          var k, _ := Run(conns[i].value);
          ghost var sent := [BrokerConnected] + Forward(conns[i].value.incoming[..k]);
          assert commands == before + sent;
          var ok := Send(BrokerDisconnected);
          assert !ok ==> Transcript(conns[i..], had) == sent;
          assert ok ==> Transcript(conns[i..], had) == sent + ([BrokerDisconnected] + Transcript(conns[i + 1..], room));
        }
      }
    }
  }
}
