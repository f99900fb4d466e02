/**
 Quiescent return: a worker that suffered no forced shutdown, no session shutdown
 and no reload while it was held, and is given back as healthy, has nothing left
 to do and nothing left to say, whatever happened to other workers.

 The proof reads each worker's channels as one line of tokens, oldest first:
 what the session will hear, then what the VM is doing, then what the worker
 has still to handle.
 */
module Quiescence {
  import opened Common
  import opened Protocol
  import opened Isolation
  import opened Bookkeeping
  import opened Tokens

  function OutToken(m: WorkerMessage, opener: nat): Token {
    match m
    case Ack(n) => if n == opener then Inert else Work(n)
    case NonePending => Done
    case _ => Note
  }

  function EvtToken(e: GuildVmEvent): Token {
    match e.evt
    case DispatchedEvent(n) => Work(n)
    case VmFinished => Done
    case VmShutdown(_) => Note
  }

  function CmdToken(c: VmCommand): Token {
    if c.DispatchEvent? then Work(c.seqNo) else Scripts
  }

  function InToken(m: SchedulerMessage): Token {
    match m
    case Dispatch(_, n) => Work(n)
    case CreateScriptsVm(_, _) => Scripts
    case Complete => Note
  }

  function Outs(ms: seq<WorkerMessage>, opener: nat): seq<Token> {
    seq(|ms|, i requires 0 <= i < |ms| => OutToken(ms[i], opener))
  }

  function Notes(es: seq<RuntimeEvent>): seq<Token> {
    seq(|es|, _ => Note)
  }

  function Evts(es: seq<GuildVmEvent>): seq<Token> {
    seq(|es|, i requires 0 <= i < |es| => EvtToken(es[i]))
  }

  function Cmds(cs: seq<VmCommand>): seq<Token> {
    seq(|cs|, i requires 0 <= i < |cs| => CmdToken(cs[i]))
  }

  function Ins(ms: seq<SchedulerMessage>): seq<Token> {
    seq(|ms|, i requires 0 <= i < |ms| => InToken(ms[i]))
  }

  function RunningToken(p: VmPhase): seq<Token> {
    if p.Busy? then [Running] else []
  }

  function VmTokens(vm: Option<Vm>): seq<Token> {
    if vm.None? then []
    else Evts(vm.value.evts) + RunningToken(vm.value.phase) + Cmds(vm.value.cmds)
  }

  function Line(w: Worker): seq<Token> {
    Outs(w.outbox, w.opener) + Notes(w.runtime) + VmTokens(w.vm) + Ins(w.inbox)
  }

  // ----- what the session still owes: dispatched and not yet taken -----

  function Works(f: seq<Token>): seq<nat> {
    if f == [] then [] else (if f[0].Work? then [f[0].n] else []) + Works(f[1..])
  }

  lemma {:induction false} WorksAppend(f: seq<Token>, n: nat)
    ensures Works(f + [Work(n)]) == Works(f) + [n]
  {
    if f != [] {
      assert (f + [Work(n)])[1..] == f[1..] + [Work(n)];
      WorksAppend(f[1..], n);
    }
  }

  function TakenNumbers(ts: seq<Taken>): seq<nat> {
    seq(|ts|, i requires 0 <= i < |ts| => ts[i].seqNo)
  }

  function Upstream(w: Worker): seq<Token> {
    (if w.vm.Some? then Cmds(w.vm.value.cmds) else []) + Ins(w.inbox)
  }

  // ----- the invariant -----

  /** No shutdown is under way. */
  ghost predicate Calm(w: Worker) {
    && (forall i :: 0 <= i < |w.inbox| ==> !w.inbox[i].Complete?)
    && (forall i :: 0 <= i < |w.outbox| ==> !w.outbox[i].Shutdown?)
    && (forall i :: 0 <= i < |w.runtime| ==> !w.runtime[i].InvalidRequestsExceeded?)
    && (w.vm.Some? ==>
          && !w.vm.value.phase.Terminated?
          && forall i :: 0 <= i < |w.vm.value.evts| ==> !w.vm.value.evts[i].evt.VmShutdown?)
  }

  /** Everything dispatched was taken, in order, or waits in order to be taken. */
  ghost predicate Accounted(w: Worker) {
    w.sent == TakenNumbers(w.taken) + Works(Upstream(w))
  }

  /** Pending acks are exactly the Work tokens on the line. */
  ghost predicate Pends(f: seq<Token>, s: Session) {
    && (forall t :: t in f && t.Work? ==> t.n in s.pending && t.n <= s.idGen)
    && (forall n :: n in s.pending ==> Work(n) in f)
  }

  /** The opening CreateScriptsVm is the only one a held worker gets. */
  ghost predicate Opened(w: Worker) {
    && (w.vm.None? ==> w.inbox != [] && w.inbox[0].CreateScriptsVm?)
    && (forall i :: 0 <= i < |w.inbox| && w.inbox[i].CreateScriptsVm? ==> w.inbox[i].seqNo == w.opener)
  }

  ghost predicate HeldOk(w: Worker, s: Session) {
    && WorkerIsolated(w) && Calm(w) && Opened(w) && Accounted(w)
    && Good(Line(w)) && Pends(Line(w), s)
    && w.opener <= s.idGen && w.opener !in s.pending
  }

  /** Nothing left to do and nothing left to say. */
  ghost predicate Quiescent(w: Worker) {
    && w.inbox == [] && w.outbox == [] && w.runtime == []
    && (w.vm.Some? ==> w.vm.value.cmds == [] && w.vm.value.evts == [] && w.vm.value.phase.Idle?)
    && TakenNumbers(w.taken) == w.sent
  }

  ghost predicate FreeOk(w: Worker) {
    WorkerIsolated(w) && Quiescent(w) && (w.vm.None? ==> w.lastActive.None?)
  }

  // ----- steps of the worker and its VM -----

  ghost function Before(w: Worker): seq<Token> {
    Outs(w.outbox, w.opener) + Notes(w.runtime)
  }

  /** The worker steps of a run without shutdowns. */
  predicate Ordinary(step: Step) {
    match step
    case OnMessage(_) | OnVmEvent(_) | OnRuntime(_) | Take(_) | Finish(_) => true
    case Emit(_, e) => !e.InvalidRequestsExceeded?
    case _ => false
  }

  lemma {:induction false} StepCalm(w: Worker, step: Step)
    requires Calm(w) && WorkerCan(w, step) && Ordinary(step)
    ensures Calm(WorkerStep(w, step))
  {
  }

  lemma {:induction false} StepOpened(w: Worker, step: Step)
    requires Opened(w) && Calm(w) && WorkerIsolated(w) && WorkerCan(w, step) && Ordinary(step)
    ensures Opened(WorkerStep(w, step))
  {
  }

  lemma {:induction false} DispatchMoves(w: Worker)
    requires w.vm.Some? && w.inbox != [] && w.inbox[0].Dispatch?
    ensures Line(WorkerOnMessage(w)) == Line(w) && Upstream(WorkerOnMessage(w)) == Upstream(w)
  {
    var v := WorkerOnMessage(w);
    assert Ins(w.inbox) == [InToken(w.inbox[0])] + Ins(v.inbox);
    assert Cmds(v.vm.value.cmds) == Cmds(w.vm.value.cmds) + [InToken(w.inbox[0])];
  }

  /** What is on its way to the session. */
  lemma {:induction false} LeadsOut(w: Worker, es: seq<GuildVmEvent>)
    ensures Outgoing(Before(w) + Evts(es)) && Outgoing(Outs(w.outbox, w.opener))
    ensures forall t :: t in Notes(w.runtime) ==> t == Note
  {
  }

  /** Two lines with the same Work tokens leave the same acks pending. */
  lemma {:induction false} SamePends(f: seq<Token>, g: seq<Token>, s: Session)
    requires Pends(f, s) && forall t: Token :: t.Work? ==> (t in f <==> t in g)
    ensures Pends(g, s)
  {
    forall n | n in s.pending
      ensures Work(n) in g
    {
      assert Work(n) in f;
    }
  }

  /** A VM with something on its channels, or busy, shows on the line. */
  lemma {:induction false} VmShows(vm: Vm)
    requires vm.evts != [] || vm.cmds != [] || vm.phase.Busy?
    ensures exists t :: t in VmTokens(Some(vm)) && t != Inert
  {
    var x := VmTokens(Some(vm));
    if vm.evts != [] {
      assert x[0] == EvtToken(vm.evts[0]) && x[0] in x;
    } else if vm.phase.Busy? {
      assert x[0] == Running && x[0] in x;
    } else {
      assert x[0] == CmdToken(vm.cmds[0]) && x[0] in x;
    }
  }

  /** When scripts are about to be loaded, all earlier traffic is over. */
  lemma {:induction false} NothingBeforeCreate(w: Worker)
    requires Good(Line(w)) && w.inbox != [] && w.inbox[0].CreateScriptsVm?
    ensures Line(w) == Outs(w.outbox, w.opener) + ([Scripts] + Ins(w.inbox[1..]))
    ensures w.runtime == []
    ensures w.vm.Some? ==> w.vm.value.evts == [] && w.vm.value.cmds == [] && !w.vm.value.phase.Busy?
  {
    var o, n, x, b := Outs(w.outbox, w.opener), Notes(w.runtime), VmTokens(w.vm), Ins(w.inbox[1..]);
    assert Ins(w.inbox) == [Scripts] + b;
    assert Line(w) == (o + n + x) + ([Scripts] + b);
    assert forall t :: t in n || t in x ==> t in o + n + x;
    assert w.runtime != [] ==> n[0] in n;
    if w.vm.Some? && (w.vm.value.evts != [] || w.vm.value.cmds != [] || w.vm.value.phase.Busy?) {
      VmShows(w.vm.value);
    }
    OnlyInertBefore(o + n + x, b);
  }

  /** Replacing tokens that are not Work leaves the same acks pending. */
  lemma {:induction false} PendsSwap(a: seq<Token>, x: seq<Token>, y: seq<Token>, b: seq<Token>, s: Session)
    requires Pends(a + (x + b), s) && forall t: Token :: t.Work? ==> t !in x && t !in y
    ensures Pends(a + (y + b), s)
  {
    SamePends(a + (x + b), a + (y + b), s);
  }

  lemma {:induction false} CreateLine(w: Worker, k: Token)
    requires w.inbox != [] && w.inbox[0].CreateScriptsVm? && w.inbox[0].seqNo == w.opener && w.runtime == []
    requires w.vm.Some? ==> w.vm.value.evts == [] && w.vm.value.cmds == [] && !w.vm.value.phase.Busy?
    requires k == if w.vm.Some? && w.vm.value.guild == w.inbox[0].guild then Scripts else Running
    ensures Line(WorkerOnMessage(w)) == Outs(w.outbox, w.opener) + ([Inert, k] + Ins(w.inbox[1..]))
  {
    var v := WorkerOnMessage(w);
    assert Outs(v.outbox, v.opener) == Outs(w.outbox, w.opener) + [Inert];
    assert VmTokens(v.vm) == [k];
  }

  lemma {:induction false} CreateMoves(w: Worker, s: Session)
    requires Good(Line(w)) && Pends(Line(w), s)
    requires w.inbox != [] && w.inbox[0].CreateScriptsVm? && w.inbox[0].seqNo == w.opener
    ensures var v := WorkerOnMessage(w); Good(Line(v)) && Pends(Line(v), s)
  {
    hide Good, Pends, Line, Outs, Ins, WorkerOnMessage;
    var a, b := Outs(w.outbox, w.opener), Ins(w.inbox[1..]);
    var k := if w.vm.Some? && w.vm.value.guild == w.inbox[0].guild then Scripts else Running;
    NothingBeforeCreate(w);
    CreateLine(w, k);
    GoodOpen(a, b, k);
    assert [Inert] + ([k] + b) == [Inert, k] + b;
    PendsSwap(a, [Scripts], [Inert, k], b, s);
  }

  lemma {:induction false} CreateUpstream(w: Worker)
    requires w.inbox != [] && w.inbox[0].CreateScriptsVm?
    requires w.vm.Some? ==> w.vm.value.evts == [] && w.vm.value.cmds == [] && !w.vm.value.phase.Busy?
    ensures var b := Ins(w.inbox[1..]);
      Upstream(w) == [Scripts] + b
        && (Upstream(WorkerOnMessage(w)) == [Scripts] + b || Upstream(WorkerOnMessage(w)) == b)
  {
    var v, b := WorkerOnMessage(w), Ins(w.inbox[1..]);
    assert Ins(w.inbox) == [Scripts] + b;
    assert v.vm.value.cmds == [] || Cmds(v.vm.value.cmds) == [Scripts];
  }

  lemma {:induction false} CreateKeepsCounts(w: Worker)
    requires w.inbox != [] && w.inbox[0].CreateScriptsVm?
    ensures WorkerOnMessage(w).sent == w.sent && WorkerOnMessage(w).taken == w.taken
  {
  }

  lemma {:induction false} CreateAccounted(w: Worker)
    requires Good(Line(w)) && Accounted(w) && w.inbox != [] && w.inbox[0].CreateScriptsVm?
    ensures Accounted(WorkerOnMessage(w))
  {
    hide Good, Line, Ins, Upstream, TakenNumbers, WorkerOnMessage;
    var b := Ins(w.inbox[1..]);
    NothingBeforeCreate(w);
    CreateUpstream(w);
    CreateKeepsCounts(w);
    assert ([Scripts] + b)[1..] == b;
  }

  lemma {:induction false} EvtsFirst(es: seq<GuildVmEvent>)
    requires es != []
    ensures Evts(es) == [EvtToken(es[0])] + Evts(es[1..])
  {
  }

  /** A line seen from its oldest VM event. */
  lemma {:induction false} EventFirst(w: Worker)
    requires w.vm.Some? && w.vm.value.evts != []
    ensures Line(w) == Outs(w.outbox, w.opener) + (Notes(w.runtime) + ([EvtToken(w.vm.value.evts[0])]
                       + (VmTokens(Some(w.vm.value.(evts := w.vm.value.evts[1..]))) + Ins(w.inbox))))
  {
    hide Outs, Notes, Evts, Cmds, Ins, EvtToken;
    EvtsFirst(w.vm.value.evts);
  }

  lemma {:induction false} AckForwarded(a: seq<Token>, notes: seq<Token>, n: nat, b: seq<Token>, s: Session)
    requires Outgoing(a) && forall t :: t in notes ==> t == Note
    requires var f := a + (notes + ([Work(n)] + b)); Good(f) && Pends(f, s)
    ensures var f := a + ([Work(n)] + (notes + b)); Good(f) && Pends(f, s)
  {
    GoodForwardAck(a, notes, n, b);
    SamePends(a + (notes + ([Work(n)] + b)), a + ([Work(n)] + (notes + b)), s);
  }

  lemma {:induction false} AckLine(w: Worker)
    requires w.vm.Some? && w.vm.value.evts != [] && w.vm.value.evts[0].guild == w.vm.value.guild
    requires w.vm.value.evts[0].evt.DispatchedEvent? && w.vm.value.evts[0].evt.seqNo != w.opener
    ensures var v := WorkerOnVmEvent(w);
            Line(v) == Outs(w.outbox, w.opener) + ([EvtToken(w.vm.value.evts[0])]
                       + (Notes(w.runtime) + (VmTokens(v.vm) + Ins(w.inbox))))
  {
    var v := WorkerOnVmEvent(w);
    assert Outs(v.outbox, v.opener) == Outs(w.outbox, w.opener) + [EvtToken(w.vm.value.evts[0])];
  }

  lemma {:induction false} FirstEventPends(w: Worker, s: Session)
    requires Pends(Line(w), s) && w.vm.Some? && w.vm.value.evts != [] && w.vm.value.evts[0].evt.DispatchedEvent?
    ensures w.vm.value.evts[0].evt.seqNo in s.pending
  {
    var t := EvtToken(w.vm.value.evts[0]);
    assert Line(w)[|w.outbox| + |w.runtime|] == t && t in Line(w);
  }

  lemma {:induction false} AckMoves(w: Worker, s: Session)
    requires Good(Line(w)) && Pends(Line(w), s) && w.opener !in s.pending
    requires w.vm.Some? && w.vm.value.evts != [] && w.vm.value.evts[0].guild == w.vm.value.guild
    requires w.vm.value.evts[0].evt.DispatchedEvent?
    ensures var v := WorkerOnVmEvent(w); Good(Line(v)) && Pends(Line(v), s)
  {
    var rest := VmTokens(WorkerOnVmEvent(w).vm) + Ins(w.inbox);
    LeadsOut(w, []);
    FirstEventPends(w, s);
    hide Good, Pends, Line, Outs, Notes, VmTokens, Ins, Outgoing;
    EventFirst(w);
    AckLine(w);
    AckForwarded(Outs(w.outbox, w.opener), Notes(w.runtime), w.vm.value.evts[0].evt.seqNo, rest, s);
  }

  lemma {:induction false} DoneMoves(w: Worker)
    requires Calm(w)
    requires w.vm.Some? && w.vm.value.evts != [] && w.vm.value.evts[0].guild == w.vm.value.guild
    requires w.vm.value.evts[0].evt.VmFinished?
    ensures Line(WorkerOnVmEvent(w)) == Line(w)
  {
    var v := WorkerOnVmEvent(w);
    EventFirst(w);
    assert Outs(v.outbox, v.opener) == Outs(w.outbox, w.opener) + Notes(w.runtime) + [Done];
  }

  lemma {:induction false} RuntimeMoves(w: Worker)
    requires w.runtime != [] && Calm(w)
    ensures Line(WorkerOnRuntime(w)) == Line(w)
  {
    var v := WorkerOnRuntime(w);
    assert Outs(v.outbox, v.opener) == Outs(w.outbox, w.opener) + [Note];
    assert Notes(w.runtime) == [Note] + Notes(v.runtime);
  }

  lemma {:induction false} EmitMoves(w: Worker, e: RuntimeEvent, s: Session)
    requires Good(Line(w)) && Pends(Line(w), s) && w.vm.Some? && w.vm.value.phase.Busy?
    ensures var f := Line(w.(runtime := w.runtime + [e])); Good(f) && Pends(f, s)
  {
    var v := w.(runtime := w.runtime + [e]);
    var a, x := Before(w), VmTokens(w.vm) + Ins(w.inbox);
    assert Line(w) == a + x;
    assert x[|w.vm.value.evts|] == Running && Running in x;
    GoodEmit(a, x);
    assert Notes(v.runtime) == Notes(w.runtime) + [Note];
    assert Line(v) == a + ([Note] + x);
    SamePends(Line(w), Line(v), s);
  }

  lemma {:induction false} FinishLine(w: Worker)
    requires w.vm.Some? && w.vm.value.phase.Busy?
    ensures var a, b := Before(w) + Evts(w.vm.value.evts), Cmds(w.vm.value.cmds) + Ins(w.inbox);
      Line(w) == a + ([Running] + b) && Line(VmFinish(w)) == a + ([Done] + b) && Upstream(VmFinish(w)) == Upstream(w)
  {
    var v := VmFinish(w);
    assert Evts(v.vm.value.evts) == Evts(w.vm.value.evts) + [Done];
    hide Outs, Notes, Evts, Cmds, Ins;
  }

  lemma {:induction false} FinishMoves(w: Worker, s: Session)
    requires Good(Line(w)) && Pends(Line(w), s) && w.vm.Some? && w.vm.value.phase.Busy?
    ensures var v := VmFinish(w); Good(Line(v)) && Pends(Line(v), s) && Upstream(v) == Upstream(w)
  {
    hide Good, Pends, Line, Before, Evts, Cmds, Ins, VmFinish, Upstream;
    var a, b := Before(w) + Evts(w.vm.value.evts), Cmds(w.vm.value.cmds) + Ins(w.inbox);
    FinishLine(w);
    GoodFinish(a, b);
    PendsSwap(a, [Running], [Done], b, s);
  }

  lemma {:induction false} UpstreamIsWork(w: Worker, b: seq<Token>)
    requires w.vm.Some? && w.vm.value.cmds != [] && Calm(w) && Scripts !in b
    requires b == Cmds(w.vm.value.cmds[1..]) + Ins(w.inbox)
    ensures AllWork(b)
  {
    forall t | t in b
      ensures t.Work?
    {
      var i :| 0 <= i < |b| && b[i] == t;
    }
  }

  /** A line seen from the VM's oldest command. */
  lemma {:induction false} CommandFirst(w: Worker)
    requires w.vm.Some? && w.vm.value.cmds != []
    ensures Line(w) == (Before(w) + Evts(w.vm.value.evts)) + (RunningToken(w.vm.value.phase)
                       + ([CmdToken(w.vm.value.cmds[0])] + (Cmds(w.vm.value.cmds[1..]) + Ins(w.inbox))))
    ensures Upstream(w) == [CmdToken(w.vm.value.cmds[0])] + (Cmds(w.vm.value.cmds[1..]) + Ins(w.inbox))
  {
    assert Cmds(w.vm.value.cmds) == [CmdToken(w.vm.value.cmds[0])] + Cmds(w.vm.value.cmds[1..]);
  }

  lemma {:induction false} WorkTaken(a: seq<Token>, busy: seq<Token>, n: nat, b: seq<Token>, s: Session)
    requires Outgoing(a) && (busy == [] || busy == [Running])
    requires var f := a + (busy + ([Work(n)] + b)); Good(f) && Pends(f, s)
    requires Scripts !in b ==> AllWork(b)
    ensures var f := a + ([Work(n)] + ([Running] + b)); Good(f) && Pends(f, s)
  {
    GoodSuffix(a, busy + ([Work(n)] + b));
    GoodSuffix(busy, [Work(n)] + b);
    assert ([Work(n)] + b)[1..] == b;
    GoodTake(a, busy, n, b);
    SamePends(a + (busy + ([Work(n)] + b)), a + ([Work(n)] + ([Running] + b)), s);
  }

  lemma {:induction false} ScriptsTaken(a: seq<Token>, busy: seq<Token>, b: seq<Token>, s: Session)
    requires busy == [] || busy == [Running]
    requires var f := a + (busy + ([Scripts] + b)); Good(f) && Pends(f, s)
    ensures var f := a + ([Running] + b); Good(f) && Pends(f, s)
  {
    var f := a + (busy + ([Scripts] + b));
    assert f == (a + busy) + ([Scripts] + b);
    assert busy != [] ==> (a + busy)[|a|] == Running && Running in a + busy;
    OnlyInertBefore(a + busy, b);
    assert f == a + ([Scripts] + b);
    GoodRestart(a, b);
    SamePends(f, a + ([Running] + b), s);
  }

  lemma {:induction false} TakeEventLine(w: Worker)
    requires w.vm.Some? && w.vm.value.cmds != [] && w.vm.value.cmds[0].DispatchEvent?
    ensures Line(VmTake(w)) == (Before(w) + Evts(w.vm.value.evts)) + ([CmdToken(w.vm.value.cmds[0])]
                               + ([Running] + (Cmds(w.vm.value.cmds[1..]) + Ins(w.inbox))))
  {
    var v := VmTake(w);
    assert Evts(v.vm.value.evts) == Evts(w.vm.value.evts) + [CmdToken(w.vm.value.cmds[0])];
  }

  lemma {:induction false} TakeEventMoves(w: Worker, s: Session)
    requires Good(Line(w)) && Pends(Line(w), s) && Calm(w)
    requires w.vm.Some? && w.vm.value.cmds != [] && w.vm.value.cmds[0].DispatchEvent?
    ensures var v := VmTake(w); Good(Line(v)) && Pends(Line(v), s)
  {
    var vm := w.vm.value;
    var b := Cmds(vm.cmds[1..]) + Ins(w.inbox);
    if Scripts !in b {
      UpstreamIsWork(w, b);
    }
    LeadsOut(w, vm.evts);
    hide Good, Pends, Line, Before, Evts, Cmds, Ins, Outgoing;
    CommandFirst(w);
    TakeEventLine(w);
    WorkTaken(Before(w) + Evts(vm.evts), RunningToken(vm.phase), vm.cmds[0].seqNo, b, s);
  }

  lemma {:induction false} TakeRestartLine(w: Worker)
    requires w.vm.Some? && w.vm.value.cmds != [] && w.vm.value.cmds[0].Restart?
    ensures Line(VmTake(w)) == (Before(w) + Evts(w.vm.value.evts))
                               + ([Running] + (Cmds(w.vm.value.cmds[1..]) + Ins(w.inbox)))
  {
  }

  lemma {:induction false} TakeRestartMoves(w: Worker, s: Session)
    requires Good(Line(w)) && Pends(Line(w), s)
    requires w.vm.Some? && w.vm.value.cmds != [] && w.vm.value.cmds[0].Restart?
    ensures var v := VmTake(w); Good(Line(v)) && Pends(Line(v), s)
  {
    var vm := w.vm.value;
    hide Good, Pends, Line, Before, Evts, Cmds, Ins;
    CommandFirst(w);
    TakeRestartLine(w);
    ScriptsTaken(Before(w) + Evts(vm.evts), RunningToken(vm.phase), Cmds(vm.cmds[1..]) + Ins(w.inbox), s);
  }

  lemma {:induction false} TakeAccounted(w: Worker)
    requires Accounted(w) && w.vm.Some? && w.vm.value.cmds != []
    ensures Accounted(VmTake(w))
  {
    var v := VmTake(w);
    var c := w.vm.value.cmds[0];
    CommandFirst(w);
    assert Upstream(w)[1..] == Upstream(v);
    assert TakenNumbers(v.taken) == TakenNumbers(w.taken) + if c.DispatchEvent? then [c.seqNo] else [];
    hide Upstream, TakenNumbers;
  }

  // ----- a held worker, a free worker -----

  lemma {:induction false} WorkerStepOk(w: Worker, s: Session, step: Step)
    requires HeldOk(w, s) && WorkerCan(w, step) && Ordinary(step)
    ensures HeldOk(WorkerStep(w, step), s)
  {
    WorkerStepIsolated(w, step);
    StepCalm(w, step);
    StepOpened(w, step);
    match step {
      case OnMessage(_) =>
        if w.inbox[0].Dispatch? {
          DispatchMoves(w);
        } else {
          CreateMoves(w, s);
          CreateAccounted(w);
        }
      case OnVmEvent(_) =>
        if w.vm.value.evts[0].evt.DispatchedEvent? {
          AckMoves(w, s);
        } else {
          DoneMoves(w);
        }
      case OnRuntime(_) => RuntimeMoves(w);
      case Emit(_, e) => EmitMoves(w, e, s);
      case Finish(_) => FinishMoves(w, s);
      case Take(_) =>
        TakeAccounted(w);
        if w.vm.value.cmds[0].DispatchEvent? {
          TakeEventMoves(w, s);
        } else {
          TakeRestartMoves(w, s);
        }
    }
  }

  /** A quiescent worker stays as it is until someone claims it. */
  lemma {:induction false} FreeIsStill(w: Worker, step: Step)
    requires FreeOk(w) && Ordinary(step)
    ensures !WorkerCan(w, step)
  {
  }

  lemma {:induction false} ClaimOk(w: Worker, g: Guild, s: Session, id: WorkerId)
    requires FreeOk(w) && s.pending == map[]
    ensures HeldOk(ClaimWorker(w, g, s), SessionClaim(s, id, SessionSendsScripts(s, g, w)))
  {
    var v := ClaimWorker(w, g, s);
    ClaimIsolated(w, g, s);
    if SessionSendsScripts(s, g, w) {
      assert Line(v) == [Scripts];
      assert Upstream(v) == [Scripts];
    } else {
      assert Line(v) == [];
      assert Upstream(v) == [];
    }
  }

  lemma {:induction false} DispatchOk(w: Worker, g: Guild, s: Session, ack: PendingAck)
    requires HeldOk(w, s) && w.holder == Some(g)
    ensures HeldOk(DispatchTo(w, g, s.idGen + 1), SessionDispatch(s, ack))
  {
    var n := s.idGen + 1;
    var v := DispatchTo(w, g, n);
    SendIsolated(w, g, Dispatch(g, n));
    assert Ins(v.inbox) == Ins(w.inbox) + [Work(n)];
    assert Upstream(v) == Upstream(w) + [Work(n)];
    WorksAppend(Upstream(w), n);
    assert Line(v) == Line(w) + [Work(n)];
    GoodAppendWork(Line(w), n);
    assert Line(v)[|Line(w)|] == Work(n);
  }

  /** The heart of the matter: if nothing is pending when NonePending is read,
      then NonePending was the last token on the line. */
  lemma {:induction false} NonePendingIsLast(w: Worker, s: Session)
    requires HeldOk(w, s) && w.outbox != [] && w.outbox[0].NonePending? && s.pending == map[]
    ensures Line(w) == [Done]
  {
    var f := Line(w);
    assert f[0] == OutToken(w.outbox[0], w.opener) == Done;
    assert forall t :: t in f[1..] ==> t in f;
  }

  lemma {:induction false} ReleaseOk(w: Worker, s: Session)
    requires HeldOk(w, s) && w.outbox != [] && w.outbox[0].NonePending? && s.pending == map[]
    ensures FreeOk(ReadFrom(w, true)) && w.vm.Some?
  {
    NonePendingIsLast(w, s);
    assert |w.outbox| + |w.runtime| + |VmTokens(w.vm)| + |w.inbox| == 1;
    assert Upstream(w) == [];
    assert w.outbox[1..] == [];
  }

  lemma {:induction false} PendsTail(f: seq<Token>, s: Session)
    requires f != [] && Good(f) && Pends(f, s)
    ensures Pends(f[1..], if f[0].Work? then s.(pending := s.pending - {f[0].n}) else s)
  {
    assert forall t :: t in f[1..] ==> t in f;
    assert forall t :: t in f ==> t == f[0] || t in f[1..] by {
      assert f == [f[0]] + f[1..];
    }
  }

  lemma {:induction false} ReadLine(w: Worker)
    requires w.outbox != []
    ensures Line(w) != [] && Line(w)[0] == OutToken(w.outbox[0], w.opener) && Line(w)[1..] == Line(ReadFrom(w, false))
  {
    assert Outs(w.outbox, w.opener) == [OutToken(w.outbox[0], w.opener)] + Outs(w.outbox[1..], w.opener);
  }

  lemma {:induction false} ReadPends(f: seq<Token>, s: Session, m: WorkerMessage, opener: nat)
    requires f != [] && f[0] == OutToken(m, opener) && Good(f) && Pends(f, s)
    requires opener !in s.pending && !m.Shutdown? && SessionOnMessage(s, m).current == s.current
    ensures Pends(f[1..], SessionOnMessage(s, m))
  {
    PendsTail(f, s);
    assert f[0] in f;
  }

  lemma {:induction false} ReadKeeps(w: Worker)
    requires w.outbox != [] && WorkerIsolated(w) && Calm(w) && Opened(w) && Accounted(w)
    ensures var v := ReadFrom(w, false); WorkerIsolated(v) && Calm(v) && Opened(v) && Accounted(v)
    ensures !w.outbox[0].Shutdown?
  {
    assert Upstream(ReadFrom(w, false)) == Upstream(w);
    hide Upstream, FinalGuild, Routed;
  }

  lemma {:induction false} ReadOk(w: Worker, s: Session)
    requires HeldOk(w, s) && w.outbox != [] && SessionOnMessage(s, w.outbox[0]).current == s.current
    ensures HeldOk(ReadFrom(w, false), SessionOnMessage(s, w.outbox[0]))
  {
    ReadLine(w);
    ReadKeeps(w);
    ReadPends(Line(w), s, w.outbox[0], w.opener);
    hide Line, WorkerIsolated, Calm, Opened, Accounted, Pends;
  }

  // ----- runs -----

  /** Worker `id` is not shut down, not asked to complete and sent no reload while
      it is held.  Other workers and sessions may do as they like. */
  ghost predicate Steady(sys: System, step: Step, id: WorkerId) {
    match step
    case RequestComplete(g) => g in sys.sessions ==> sys.sessions[g].current != Some(id)
    case Reload(g, _) => g in sys.sessions ==> sys.sessions[g].current != Some(id)
    case Connect(_) | StartSession(_) | EndSession(_) | AbortSession(_) => true
    case Claim(_, _) | ClaimFails(_, _) | SendDispatch(_, _) | Receive(_) | Break(_, _, _) => true
    case _ => step.id == id ==> Ordinary(step)
  }

  ghost predicate WorkerOk(sys: System, id: WorkerId) {
    id in sys.workers ==>
      var w := sys.workers[id];
      if w.holder.None? then FreeOk(w) else w.holder.value in sys.sessions && HeldOk(w, sys.sessions[w.holder.value])
  }

  lemma {:induction false} HolderOk(sys: System, g: Guild)
    requires Linked(sys) && Holds(sys, g) && WorkerOk(sys, sys.sessions[g].current.value)
    ensures HeldOk(Held(sys, g), sys.sessions[g]) && Held(sys, g).holder == Some(g)
  {
  }

  /** The session that takes a step, if it is one of a session. */
  ghost function Mover(step: Step): Option<Guild> {
    match step
    case StartSession(g) => Some(g)
    case EndSession(g) => Some(g)
    case AbortSession(g) => Some(g)
    case Claim(g, _) => Some(g)
    case ClaimFails(g, _) => Some(g)
    case SendDispatch(g, _) => Some(g)
    case Reload(g, _) => Some(g)
    case RequestComplete(g) => Some(g)
    case Receive(g) => Some(g)
    case Break(g, _, _) => Some(g)
    case _ => None
  }

  /** The step claims worker `id`, is the worker's own, or its holder's. */
  ghost predicate Concerns(sys: System, step: Step, id: WorkerId) {
    match Mover(step)
    case None => step.id == id
    case Some(g) =>
      (g in sys.sessions && sys.sessions[g].current == Some(id)) || ((step.Claim? || step.ClaimFails?) && step.id == id)
  }

  /** Any other step leaves the worker, and the session that holds it, alone. */
  lemma {:induction false} LeftAlone(sys: System, step: Step, id: WorkerId)
    requires Linked(sys) && Enabled(sys, step) && !Concerns(sys, step, id) && id in Next(sys, step).workers
    ensures id in sys.workers && Next(sys, step).workers[id] == sys.workers[id]
    ensures sys.workers[id].holder.Some? ==>
      var h := sys.workers[id].holder.value;
      h in sys.sessions && h in Next(sys, step).sessions && Next(sys, step).sessions[h] == sys.sessions[h]
  {
    hide SessionBroken, SessionReload, SessionDispatch, SessionOnMessage, SessionClaim, WorkerStep;
  }

  lemma {:induction false} AloneOk(sys: System, step: Step, id: WorkerId)
    requires Linked(sys) && Enabled(sys, step) && !Concerns(sys, step, id) && WorkerOk(sys, id)
    ensures WorkerOk(Next(sys, step), id)
  {
    if id in Next(sys, step).workers {
      LeftAlone(sys, step, id);
      hide Next, HeldOk, FreeOk;
    }
  }

  lemma {:induction false} ReceiveOk(sys: System, g: Guild)
    requires Linked(sys) && Enabled(sys, Receive(g)) && WorkerOk(sys, sys.sessions[g].current.value)
    ensures WorkerOk(Next(sys, Receive(g)), sys.sessions[g].current.value)
    ensures Next(sys, Receive(g)).sessions[g].current.None? ==>
      var w := Next(sys, Receive(g)).workers[sys.sessions[g].current.value];
      w.holder.None? && Quiescent(w) && w.vm.Some? && w.vm.value.guild == g
  {
    var s, w := sys.sessions[g], Held(sys, g);
    HolderOk(sys, g);
    if SessionOnMessage(s, w.outbox[0]).current.None? {
      ReleaseOk(w, s);
    } else {
      ReadOk(w, s);
      hide HeldOk;
    }
  }

  lemma {:induction false} ClaimStepOk(sys: System, g: Guild, id: WorkerId)
    requires Enabled(sys, Claim(g, id)) && WorkerOk(sys, id) && sys.sessions[g].pending == map[]
    ensures WorkerOk(Next(sys, Claim(g, id)), id)
  {
    hide HeldOk, FreeOk;
    ClaimOk(sys.workers[id], g, sys.sessions[g], id);
  }

  lemma {:induction false} DispatchStepOk(sys: System, g: Guild, ack: PendingAck)
    requires Linked(sys) && Enabled(sys, SendDispatch(g, ack)) && WorkerOk(sys, sys.sessions[g].current.value)
    ensures WorkerOk(Next(sys, SendDispatch(g, ack)), sys.sessions[g].current.value)
  {
    hide HeldOk, FreeOk;
    HolderOk(sys, g);
    DispatchOk(Held(sys, g), g, sys.sessions[g], ack);
  }

  lemma {:induction false} HolderStepOk(sys: System, step: Step, id: WorkerId)
    requires Booked(sys) && Enabled(sys, step) && Steady(sys, step, id) && WorkerOk(sys, id) && Concerns(sys, step, id)
    requires Mover(step).Some?
    ensures WorkerOk(Next(sys, step), id)
  {
    match step {
      case Claim(g, _) =>
        assert sys.sessions[g].pending == map[];
        hide HeldOk, FreeOk, WorkerOk, Linked;
        ClaimStepOk(sys, g, id);
      case SendDispatch(g, ack) =>
        hide HeldOk, FreeOk, WorkerOk, Linked;
        DispatchStepOk(sys, g, ack);
      case Receive(g) =>
        hide HeldOk, FreeOk, WorkerOk, Linked;
        ReceiveOk(sys, g);
      case _ =>
        hide HeldOk, FreeOk, Linked;
    }
  }

  lemma {:induction false} OwnStepOk(sys: System, step: Step, id: WorkerId)
    requires Linked(sys) && Enabled(sys, step) && Ordinary(step) && step.id == id && WorkerOk(sys, id)
    ensures WorkerOk(Next(sys, step), id)
  {
    var w := sys.workers[id];
    hide HeldOk, FreeOk;
    if w.holder.None? {
      FreeIsStill(w, step);
    } else {
      WorkerStepOk(w, sys.sessions[w.holder.value], step);
      assert WorkerStep(w, step).holder == w.holder;
      hide WorkerStep;
    }
  }

  lemma {:induction false} ConnectOk(sys: System, id: WorkerId)
    requires Enabled(sys, Connect(id))
    ensures WorkerOk(Next(sys, Connect(id)), id)
  {
    FreshIsolated();
  }

  lemma {:induction false} NextOk(sys: System, step: Step, id: WorkerId)
    requires Booked(sys) && Enabled(sys, step) && Steady(sys, step, id) && WorkerOk(sys, id)
    ensures WorkerOk(Next(sys, step), id)
  {
    hide WorkerOk, Next, Linked;
    if !Concerns(sys, step, id) {
      AloneOk(sys, step, id);
    } else if Mover(step).Some? {
      HolderStepOk(sys, step, id);
    } else if step.Connect? {
      ConnectOk(sys, id);
    } else {
      OwnStepOk(sys, step, id);
    }
  }

  /** Worker `id` is free and quiescent, with a VM unless it never had one; or it has
      not connected yet. */
  ghost predicate Settled(sys: System, id: WorkerId) {
    id in sys.workers ==>
      var w := sys.workers[id];
      w.holder.None? && Quiescent(w) && (w.vm.None? ==> w.lastActive.None?)
  }

  /** Worker `id` was settled in state `b` and steady from there to state `k`. */
  ghost predicate SteadySince(states: seq<System>, steps: seq<Step>, b: nat, k: nat, id: WorkerId) {
    && ValidRun(states, steps) && b <= k < |states| && Settled(states[b], id)
    && forall i :: b <= i < k ==> Steady(states[i], steps[i], id)
  }

  lemma {:induction false} SteadyShorter(states: seq<System>, steps: seq<Step>, b: nat, k: nat, id: WorkerId)
    requires SteadySince(states, steps, b, k, id) && b < k
    ensures SteadySince(states, steps, b, k - 1, id) && Steady(states[k - 1], steps[k - 1], id)
    ensures Enabled(states[k - 1], steps[k - 1]) && states[k] == Next(states[k - 1], steps[k - 1])
    ensures Booked(states[k - 1]) && Linked(states[k - 1])
  {
    hide Settled, Steady, Linked, Enabled, Next, SessionOk;
    RunBooked(states, steps, k - 1);
  }

  lemma {:induction false} RunOk(states: seq<System>, steps: seq<Step>, b: nat, k: nat, id: WorkerId)
    requires SteadySince(states, steps, b, k, id)
    ensures WorkerOk(states[k], id)
  {
    if b == k {
      RunIsolated(states, steps, k);
    } else {
      SteadyShorter(states, steps, b, k, id);
      hide SteadySince, Steady, Booked, WorkerOk, Next, Enabled;
      RunOk(states, steps, b, k - 1, id);
      NextOk(states[k - 1], steps[k - 1], id);
    }
  }

  /** A worker given back as healthy has had every dispatched event taken by its
      VM, exactly once and in order, its VM belongs to the returning guild and is
      idle, and no Ack, NonePending, ScriptStarted, TaskScheduled or Shutdown, and no
      command, is still on its way; provided it was steady since it was last settled. */
  lemma {:induction false} QuiescentReturn(states: seq<System>, steps: seq<Step>, b: nat, k: nat, g: Guild)
    requires ValidRun(states, steps) && k < |steps| && steps[k] == Receive(g) && g in states[k].sessions
    requires states[k].sessions[g].current.Some? && states[k + 1].sessions[g].current.None?
    requires SteadySince(states, steps, b, k, states[k].sessions[g].current.value)
    ensures var id := states[k].sessions[g].current.value;
            && id in states[k + 1].workers
            && states[k + 1].workers[id].holder.None?
            && Quiescent(states[k + 1].workers[id])
            && states[k + 1].workers[id].vm.Some? && states[k + 1].workers[id].vm.value.guild == g
  {
    RunOk(states, steps, b, k, states[k].sessions[g].current.value);
    RunBooked(states, steps, k);
    ReceiveOk(states[k], g);
  }

  /** No ack is lost: what a session waits for is on its worker's line, either as
      a dispatch still to be taken or as an ack still to be read. */
  lemma {:induction false} PendingIsOnTheLine(
    states: seq<System>, steps: seq<Step>, b: nat, k: nat, g: Guild, n: nat)
    requires ValidRun(states, steps) && k < |states| && g in states[k].sessions && n in states[k].sessions[g].pending
    requires states[k].sessions[g].current.Some? ==>
      SteadySince(states, steps, b, k, states[k].sessions[g].current.value)
    ensures Holds(states[k], g) && Work(n) in Line(Held(states[k], g))
  {
    RunBooked(states, steps, k);
    assert states[k].sessions[g].current.Some?;
    RunOk(states, steps, b, k, states[k].sessions[g].current.value);
    HolderOk(states[k], g);
  }

  ghost predicate Reachable(sys: System) {
    exists states: seq<System>, steps: seq<Step> :: ValidRun(states, steps) && states[|steps|] == sys
  }

  lemma {:induction false} Reaches(sys: System, step: Step, next: System)
    requires Reachable(sys) && Enabled(sys, step) && next == Next(sys, step)
    ensures Reachable(next)
  {
    var states: seq<System>, steps: seq<Step> :| ValidRun(states, steps) && states[|steps|] == sys;
    var more, longer := states + [next], steps + [step];
    hide Enabled, Next;
    assert forall i :: 0 <= i < |longer| ==> Enabled(more[i], longer[i]) && more[i + 1] == Next(more[i], longer[i]);
    assert ValidRun(more, longer) && more[|longer|] == next;
  }

  function Pair(id: WorkerId, w: Worker, g: Guild, s: Session): System {
    System(map[id := w], map[g := s])
  }

  function LoadingWorker(g: Guild): Worker {
    FRESH_WORKER.(inbox := [CreateScriptsVm(g, 2)], lastActive := Some(g), holder := Some(g), opener := 2)
  }

  function DoneWorker(g: Guild): Worker {
    LoadingWorker(g).(inbox := [], vm := Some(Vm(g, [], [], Idle)), outbox := [Ack(2), NonePending])
  }

  function LoadingSession(id: WorkerId): Session {
    FRESH_SESSION.(current := Some(id), idGen := 2, issued := [2])
  }

  lemma {:induction false} LoadingReachable(g: Guild, id: WorkerId)
    ensures Reachable(Pair(id, LoadingWorker(g), g, LoadingSession(id)))
  {
    var none: seq<Step> := [];
    assert ValidRun([INIT], none) && [INIT][|none|] == INIT;
    var s1 := System(map[id := FRESH_WORKER], map[]);
    Reaches(INIT, Connect(id), s1);
    var s2 := Pair(id, FRESH_WORKER, g, FRESH_SESSION);
    Reaches(s1, StartSession(g), s2);
    var w, s := ClaimWorker(FRESH_WORKER, g, FRESH_SESSION), SessionClaim(FRESH_SESSION, id, true);
    assert w == LoadingWorker(g) && s == LoadingSession(id);
    Reaches(s2, Claim(g, id), Pair(id, w, g, s));
  }

  lemma {:induction false} WorkerReaches(g: Guild, id: WorkerId, w: Worker, s: Session, step: Step)
    requires Reachable(Pair(id, w, g, s)) && WorkerCan(w, step) && step.id == id
    ensures Reachable(Pair(id, WorkerStep(w, step), g, s))
  {
    Reaches(Pair(id, w, g, s), step, Pair(id, WorkerStep(w, step), g, s));
  }

  lemma {:induction false} ReadReaches(g: Guild, id: WorkerId, w: Worker, s: Session)
    requires Reachable(Pair(id, w, g, s)) && s.current == Some(id) && w.outbox != []
    ensures var t := SessionOnMessage(s, w.outbox[0]); Reachable(Pair(id, ReadFrom(w, t.current.None?), g, t))
  {
    var t := SessionOnMessage(s, w.outbox[0]);
    Reaches(Pair(id, w, g, s), Receive(g), Pair(id, ReadFrom(w, t.current.None?), g, t));
  }

  lemma {:induction false} DoneReachable(g: Guild, id: WorkerId)
    ensures Reachable(Pair(id, DoneWorker(g), g, LoadingSession(id)))
  {
    LoadingReachable(g, id);
    hide Reachable, Pair;
    var w0, s := LoadingWorker(g), LoadingSession(id);
    WorkerReaches(g, id, w0, s, OnMessage(id));
    var w1 := WorkerOnMessage(w0);
    WorkerReaches(g, id, w1, s, Finish(id));
    var w2 := VmFinish(w1);
    WorkerReaches(g, id, w2, s, OnVmEvent(id));
    var w3 := WorkerOnVmEvent(w2);
    assert w3.outbox == [Ack(2), NonePending] && w3.inbox == [] && w3.vm.value.evts == [];
  }

  /** Without the exclusion of reloads the return is not quiescent: here a reload
      reaches a held worker whose NonePending is already on its way, and the
      worker is given back with the new scripts still unread. */
  lemma {:induction false} ReloadToHeldWorkerBreaksIt(g: Guild, id: WorkerId)
    ensures exists sys ::
              && Reachable(sys) && Enabled(sys, Receive(g)) && sys.sessions[g].current == Some(id)
              && Next(sys, Receive(g)).sessions[g].current.None?
              && Next(sys, Receive(g)).workers[id].inbox == [CreateScriptsVm(g, 3)]
  {
    DoneReachable(g, id);
    var w0, s0 := DoneWorker(g), LoadingSession(id);
    var w1, s1 := ReloadTo(w0, g, 3), SessionIssue(s0);
    Reaches(Pair(id, w0, g, s0), Reload(g, true), Pair(id, w1, g, s1));
    var w2 := ReadFrom(w1, false);
    Reaches(Pair(id, w1, g, s1), Receive(g), Pair(id, w2, g, s1));
    var sys := Pair(id, w2, g, s1);
    assert w2.outbox == [NonePending] && Enabled(sys, Receive(g));
    assert Next(sys, Receive(g)).workers[id].inbox == w1.inbox == [CreateScriptsVm(g, 3)];
  }

  /** Nor is it when the session that holds the worker shuts down: here it asks for
      completion while NonePending is on its way, and the worker is given back with
      the request unread. */
  lemma {:induction false} ShutdownOfSessionBreaksIt(g: Guild, id: WorkerId)
    ensures exists sys ::
              && Reachable(sys) && Enabled(sys, Receive(g)) && sys.sessions[g].current == Some(id)
              && Next(sys, Receive(g)).sessions[g].current.None?
              && Next(sys, Receive(g)).workers[id].inbox == [Complete]
  {
    DoneReachable(g, id);
    var w0, s := DoneWorker(g), LoadingSession(id);
    var w1 := w0.(inbox := [Complete]);
    assert w0.inbox + [Complete] == [Complete];
    Reaches(Pair(id, w0, g, s), RequestComplete(g), Pair(id, w1, g, s));
    var w2 := ReadFrom(w1, false);
    Reaches(Pair(id, w1, g, s), Receive(g), Pair(id, w2, g, s));
    var sys := Pair(id, w2, g, s);
    assert w2.outbox == [NonePending] && Enabled(sys, Receive(g));
  }
}
