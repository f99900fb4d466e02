/**
 The scheduler/worker protocol as steps over explicit FIFO channels.

 One session per guild (cmd/scheduler/src/vm_session.rs), any number of worker
 processes (cmd/vmworker/src/main.rs), and in each worker at most one VM
 (components/vm/src/vm.rs).  A session claims a free worker, writes to its
 inbox, reads from its outbox and gives it back.  Which free worker a claim
 obtains is left open, so everything proved here holds for any pool policy.
 */
module Protocol {
  import opened Common

  type Guild = nat
  type WorkerId = nat

  // ----- messages -----

  /** Scheduler to worker.  `origin` names the session that wrote a dispatch;
      the program never reads it. */
  datatype SchedulerMessage =
    | Dispatch(origin: Guild, seqNo: nat)
    | CreateScriptsVm(guild: Guild, seqNo: nat)
    | Complete

  datatype ShutdownReason = Runaway | OutOfMemory | Other | TooManyInvalidRequests

  /** Worker to scheduler. */
  datatype WorkerMessage =
    | Ack(seqNo: nat)
    | NonePending
    | ScriptStarted
    | TaskScheduled
    | Shutdown(reason: ShutdownReason)

  /** Worker to VM. */
  datatype VmCommand = DispatchEvent(origin: Guild, seqNo: nat) | Restart

  /** VM to worker, tagged with the guild the VM was created for. */
  datatype VmEvent = DispatchedEvent(seqNo: nat) | VmFinished | VmShutdown(reason: ShutdownReason)
  datatype GuildVmEvent = GuildVmEvent(guild: Guild, evt: VmEvent)

  /** Script runtime to worker, over a channel that outlives the VM. */
  datatype RuntimeEvent = RtScriptStarted | NewTaskScheduled | InvalidRequestsExceeded

  // ----- actors -----

  datatype VmPhase = Busy | Idle | Terminated

  datatype Vm = Vm(guild: Guild, cmds: seq<VmCommand>, evts: seq<GuildVmEvent>, phase: VmPhase)

  /** An event a VM took from its command channel. */
  datatype Taken = Taken(vmGuild: Guild, origin: Guild, seqNo: nat)

  /** A worker with its two channels.  `lastActive` and `holder` live on the
      scheduler side of the handle.  `opener` is the sequence number of the
      CreateScriptsVm that opened the current hold (0 if none was sent) and
      `inHold` the numbers dispatched since; `sent` and `taken` record history. */
  datatype Worker = Worker(
    inbox: seq<SchedulerMessage>,
    outbox: seq<WorkerMessage>,
    runtime: seq<RuntimeEvent>,
    vm: Option<Vm>,
    lastActive: Option<Guild>,
    holder: Option<Guild>,
    opener: nat,
    inHold: set<nat>,
    sent: seq<nat>,
    taken: seq<Taken>)

  datatype PendingAck = BrokerDispatch | ScheduledTask(taskId: nat) | IntervalTimer(name: string)

  /** A stored task deleted by the session, and the ack that caused it. */
  datatype Deletion = Deletion(seqNo: nat, taskId: nat)

  /** `issued` and `dispatched` record the sequence numbers used so far and what
      each dispatch was for; `deletions` the stored tasks deleted. */
  datatype Session = Session(
    current: Option<WorkerId>,
    pending: map<nat, PendingAck>,
    idGen: nat,
    force: bool,
    issued: seq<nat>,
    dispatched: map<nat, PendingAck>,
    deletions: seq<Deletion>)

  const FRESH_SESSION := Session(None, map[], 1, false, [], map[], [])
  const FRESH_WORKER := Worker([], [], [], None, None, None, 0, {}, [], [])

  // ----- worker process: cmd/vmworker/src/main.rs -----

  function RuntimeMessage(e: RuntimeEvent): WorkerMessage {
    match e
    case RtScriptStarted => ScriptStarted
    case NewTaskScheduled => TaskScheduled
    case InvalidRequestsExceeded => Shutdown(TooManyInvalidRequests)
  }

  function RuntimeMessages(es: seq<RuntimeEvent>): (r: seq<WorkerMessage>)
    ensures |r| == |es|
    ensures forall i :: 0 <= i < |es| ==> r[i] == RuntimeMessage(es[i])
  {
    seq(|es|, i requires 0 <= i < |es| => RuntimeMessage(es[i]))
  }

  /** The worker handles the oldest scheduler message. */
  function WorkerOnMessage(w: Worker): Worker
    requires w.inbox != []
  {
    var rest := w.(inbox := w.inbox[1..]);
    match w.inbox[0]
    case Dispatch(origin, n) =>
      (match w.vm
       case None => rest
       case Some(vm) => rest.(vm := Some(vm.(cmds := vm.cmds + [DispatchEvent(origin, n)]))))
    case CreateScriptsVm(g, n) =>
      if w.vm.Some? && w.vm.value.guild == g then
        rest.(vm := Some(w.vm.value.(cmds := w.vm.value.cmds + [Restart])), outbox := w.outbox + [Ack(n)])
      else
        rest.(vm := Some(Vm(g, [], [], Busy)), outbox := w.outbox + [Ack(n)])
    case Complete => rest
  }

  /** The worker handles the oldest event of its VM. */
  function WorkerOnVmEvent(w: Worker): Worker
    requires w.vm.Some? && w.vm.value.evts != []
  {
    var vm := w.vm.value;
    var e := vm.evts[0];
    var rest := w.(vm := Some(vm.(evts := vm.evts[1..])));
    if e.guild != vm.guild then rest
    else
      match e.evt
      case DispatchedEvent(n) => rest.(outbox := w.outbox + [Ack(n)])
      case VmFinished =>
        rest.(outbox := w.outbox + RuntimeMessages(w.runtime) + [NonePending], runtime := [])
      case VmShutdown(reason) =>
        w.(vm := None,
           outbox := w.outbox + RuntimeMessages(w.runtime) + [Shutdown(reason), NonePending],
           runtime := [])
  }

  function WorkerOnVmClosed(w: Worker): Worker {
    w.(vm := None, outbox := w.outbox + [Shutdown(Other)])
  }

  function WorkerOnRuntime(w: Worker): Worker
    requires w.runtime != []
  {
    w.(runtime := w.runtime[1..], outbox := w.outbox + [RuntimeMessage(w.runtime[0])])
  }

  // ----- VM: components/vm/src/vm.rs -----

  function VmTake(w: Worker): Worker
    requires w.vm.Some? && w.vm.value.cmds != []
  {
    var vm := w.vm.value;
    match vm.cmds[0]
    case DispatchEvent(origin, n) =>
      w.(vm := Some(vm.(cmds := vm.cmds[1..],
                        evts := vm.evts + [GuildVmEvent(vm.guild, DispatchedEvent(n))],
                        phase := Busy)),
         taken := w.taken + [Taken(vm.guild, origin, n)])
    case Restart =>
      w.(vm := Some(vm.(cmds := vm.cmds[1..], phase := Busy)))
  }

  /** The event loop ran dry: report once and set the `completed` flag. */
  function VmFinish(w: Worker): Worker
    requires w.vm.Some?
  {
    var vm := w.vm.value;
    w.(vm := Some(vm.(evts := vm.evts + [GuildVmEvent(vm.guild, VmFinished)], phase := Idle)))
  }

  function VmTerminate(w: Worker, announced: Option<ShutdownReason>): Worker
    requires w.vm.Some?
  {
    var vm := w.vm.value;
    var tail := if announced.Some? then [GuildVmEvent(vm.guild, VmShutdown(announced.value))] else [];
    w.(vm := Some(vm.(evts := vm.evts + tail, phase := Terminated)))
  }

  // ----- session: cmd/scheduler/src/vm_session.rs -----

  /** One worker message, as `handle_action` and `handle_worker_msg` treat it. */
  function SessionOnMessage(s: Session, m: WorkerMessage): Session {
    match m
    case Ack(n) =>
      if n !in s.pending then s
      else
        s.(pending := s.pending - {n},
           deletions := s.deletions +
             (if s.pending[n].ScheduledTask? then [Deletion(n, s.pending[n].taskId)] else []))
    case NonePending => if s.pending == map[] then s.(current := None) else s
    case Shutdown(_) => s.(pending := map[])
    case _ => s
  }

  function SessionDrain(s: Session, ms: seq<WorkerMessage>): Session
    decreases |ms|
  {
    if ms == [] then s else SessionDrain(SessionOnMessage(s, ms[0]), ms[1..])
  }

  /** The worker is gone: handle what it still said, then forget it. */
  function SessionBroken(s: Session, ms: seq<WorkerMessage>): Session {
    SessionDrain(s.(current := None), ms).(pending := map[])
  }

  function SessionSendsScripts(s: Session, g: Guild, w: Worker): bool {
    s.force || w.lastActive != Some(g)
  }

  /** `idGen` after gen_id, recorded as issued. */
  function SessionIssue(s: Session): Session {
    s.(idGen := s.idGen + 1, issued := s.issued + [s.idGen + 1])
  }

  function SessionClaim(s: Session, id: WorkerId, sends: bool): Session {
    (if sends then SessionIssue(s).(pending := map[]) else s).(force := false, current := Some(id))
  }

  /** `load_contribs` while no worker is held, up to the claim it leads to. */
  function SessionReload(s: Session, hasScripts: bool): Session {
    SessionIssue(s).(force := s.force || hasScripts)
  }

  function SessionDispatch(s: Session, ack: PendingAck): Session {
    var t := SessionIssue(s);
    t.(pending := s.pending[t.idGen := ack], dispatched := s.dispatched[t.idGen := ack])
  }

  // ----- the whole system -----

  datatype System = System(workers: map<WorkerId, Worker>, sessions: map<Guild, Session>)

  const INIT := System(map[], map[])

  datatype Step =
    | Connect(id: WorkerId)
    | StartSession(g: Guild)
    | EndSession(g: Guild)
    | AbortSession(g: Guild)
    | Claim(g: Guild, id: WorkerId)
    | ClaimFails(g: Guild, id: WorkerId)
    | SendDispatch(g: Guild, ack: PendingAck)
    | Reload(g: Guild, hasScripts: bool)
    | RequestComplete(g: Guild)
    | Receive(g: Guild)
    | Break(g: Guild, delivered: nat, onSend: bool)
    | OnMessage(id: WorkerId)
    | OnVmEvent(id: WorkerId)
    | OnVmClosed(id: WorkerId)
    | OnRuntime(id: WorkerId)
    | Take(id: WorkerId)
    | Emit(id: WorkerId, e: RuntimeEvent)
    | Finish(id: WorkerId)
    | Wake(id: WorkerId)
    | Terminate(id: WorkerId, announced: Option<ShutdownReason>)

  ghost predicate Holds(sys: System, g: Guild) {
    g in sys.sessions && sys.sessions[g].current.Some? && sys.sessions[g].current.value in sys.workers
  }

  ghost function Held(sys: System, g: Guild): Worker
    requires Holds(sys, g)
  {
    sys.workers[sys.sessions[g].current.value]
  }

  ghost predicate Claimable(sys: System, g: Guild, id: WorkerId) {
    && g in sys.sessions && sys.sessions[g].current.None?
    && id in sys.workers && sys.workers[id].holder.None?
  }

  /** The steps a worker and its VM take on their own. */
  predicate WorkerCan(w: Worker, step: Step) {
    match step
    case OnMessage(_) => w.inbox != []
    case OnVmEvent(_) => w.vm.Some? && w.vm.value.evts != []
    case OnVmClosed(_) => w.vm.Some? && w.vm.value.evts == [] && w.vm.value.phase.Terminated?
    case OnRuntime(_) => w.runtime != []
    case Take(_) => w.vm.Some? && w.vm.value.cmds != [] && !w.vm.value.phase.Terminated?
    case Emit(_, _) => w.vm.Some? && w.vm.value.phase.Busy?
    case Finish(_) => w.vm.Some? && w.vm.value.phase.Busy?
    case Wake(_) => w.vm.Some? && w.vm.value.phase.Idle?
    case Terminate(_, _) => w.vm.Some? && !w.vm.value.phase.Terminated?
    case _ => false
  }

  function WorkerStep(w: Worker, step: Step): Worker
    requires WorkerCan(w, step)
  {
    match step
    case OnMessage(_) => WorkerOnMessage(w)
    case OnVmEvent(_) => WorkerOnVmEvent(w)
    case OnVmClosed(_) => WorkerOnVmClosed(w)
    case OnRuntime(_) => WorkerOnRuntime(w)
    case Take(_) => VmTake(w)
    case Emit(_, e) => w.(runtime := w.runtime + [e])
    case Finish(_) => VmFinish(w)
    case Wake(_) => w.(vm := Some(w.vm.value.(phase := Busy)))
    case Terminate(_, announced) => VmTerminate(w, announced)
  }

  ghost predicate Enabled(sys: System, step: Step) {
    match step
    case Connect(id) => id !in sys.workers
    case StartSession(g) => g !in sys.sessions
    case EndSession(g) => g in sys.sessions && sys.sessions[g].current.None?
    case AbortSession(g) => Holds(sys, g)
    case Claim(g, id) => Claimable(sys, g, id)
    case ClaimFails(g, id) => Claimable(sys, g, id) && SessionSendsScripts(sys.sessions[g], g, sys.workers[id])
    case SendDispatch(g, _) => Holds(sys, g)
    case Reload(g, _) => g in sys.sessions && (sys.sessions[g].current.Some? ==> Holds(sys, g))
    case RequestComplete(g) => Holds(sys, g)
    case Receive(g) => Holds(sys, g) && Held(sys, g).outbox != []
    case Break(g, n, _) => Holds(sys, g) && n <= |Held(sys, g).outbox|
    case _ => step.id in sys.workers && WorkerCan(sys.workers[step.id], step)
  }

  /** The worker side of a claim. */
  function ClaimWorker(w: Worker, g: Guild, s: Session): Worker {
    var sends := SessionSendsScripts(s, g, w);
    w.(lastActive := Some(g), holder := Some(g),
       opener := if sends then s.idGen + 1 else 0,
       inHold := {},
       inbox := w.inbox + if sends then [CreateScriptsVm(g, s.idGen + 1)] else [])
  }

  function DispatchTo(w: Worker, g: Guild, n: nat): Worker {
    w.(inbox := w.inbox + [Dispatch(g, n)], sent := w.sent + [n], inHold := w.inHold + {n})
  }

  function ReloadTo(w: Worker, g: Guild, n: nat): Worker {
    w.(inbox := w.inbox + [CreateScriptsVm(g, n)])
  }

  /** The worker side of reading one message; the hold ends when the session lets go. */
  function ReadFrom(w: Worker, released: bool): Worker
    requires w.outbox != []
  {
    w.(outbox := w.outbox[1..], holder := if released then None else w.holder)
  }

  ghost function Next(sys: System, step: Step): System
    requires Enabled(sys, step)
  {
    match step
    case Connect(id) => sys.(workers := sys.workers[id := FRESH_WORKER])
    case StartSession(g) => sys.(sessions := sys.sessions[g := FRESH_SESSION])
    case EndSession(g) => sys.(sessions := sys.sessions - {g})
    case AbortSession(g) =>
      System(sys.workers - {sys.sessions[g].current.value}, sys.sessions - {g})
    case Claim(g, id) =>
      var s, w := sys.sessions[g], sys.workers[id];
      System(sys.workers[id := ClaimWorker(w, g, s)],
             sys.sessions[g := SessionClaim(s, id, SessionSendsScripts(s, g, w))])
    case ClaimFails(g, id) =>
      System(sys.workers - {id}, sys.sessions[g := SessionIssue(sys.sessions[g]).(pending := map[])])
    case SendDispatch(g, ack) =>
      var s := sys.sessions[g];
      System(sys.workers[s.current.value := DispatchTo(Held(sys, g), g, s.idGen + 1)],
             sys.sessions[g := SessionDispatch(s, ack)])
    case Reload(g, hasScripts) =>
      var s := sys.sessions[g];
      if s.current.None? then sys.(sessions := sys.sessions[g := SessionReload(s, hasScripts)])
      else System(sys.workers[s.current.value := ReloadTo(Held(sys, g), g, s.idGen + 1)],
                  sys.sessions[g := SessionIssue(s)])
    case RequestComplete(g) =>
      var w := Held(sys, g);
      sys.(workers := sys.workers[sys.sessions[g].current.value := w.(inbox := w.inbox + [Complete])])
    case Receive(g) =>
      var s, w := sys.sessions[g], Held(sys, g);
      var s' := SessionOnMessage(s, w.outbox[0]);
      System(sys.workers[s.current.value := ReadFrom(w, s'.current.None?)], sys.sessions[g := s'])
    case Break(g, n, onSend) =>
      var s := sys.sessions[g];
      System(sys.workers - {s.current.value},
             sys.sessions[g := SessionBroken(if onSend then SessionIssue(s) else s, Held(sys, g).outbox[..n])])
    case _ =>
      sys.(workers := sys.workers[step.id := WorkerStep(sys.workers[step.id], step)])
  }

  // ----- runs -----

  ghost predicate ValidRun(states: seq<System>, steps: seq<Step>) {
    && |states| == |steps| + 1
    && states[0] == INIT
    && forall i :: 0 <= i < |steps| ==> Enabled(states[i], steps[i]) && states[i + 1] == Next(states[i], steps[i])
  }

  // ----- who holds what -----

  /** Sessions and workers agree on who holds whom. */
  ghost predicate Linked(sys: System) {
    && (forall g :: g in sys.sessions && sys.sessions[g].current.Some? ==>
          Holds(sys, g) && Held(sys, g).holder == Some(g))
    && (forall id :: id in sys.workers && sys.workers[id].holder.Some? ==>
          var g := sys.workers[id].holder.value;
          g in sys.sessions && sys.sessions[g].current == Some(id))
  }

  lemma {:induction false} DrainKeepsLoose(s: Session, ms: seq<WorkerMessage>)
    requires s.current.None?
    ensures SessionDrain(s, ms).current.None?
    decreases |ms|
  {
    if ms != [] {
      DrainKeepsLoose(SessionOnMessage(s, ms[0]), ms[1..]);
    }
  }

  lemma {:induction false} WorkerStepKeepsLinked(sys: System, id: WorkerId, step: Step)
    requires Linked(sys) && id in sys.workers && WorkerCan(sys.workers[id], step)
    ensures Linked(sys.(workers := sys.workers[id := WorkerStep(sys.workers[id], step)]))
  {
    assert WorkerStep(sys.workers[id], step).holder == sys.workers[id].holder;
  }

  /** A session and the worker it holds may change together, as long as both or
      neither let go. */
  lemma {:induction false} PairKeepsLinked(sys: System, g: Guild, s: Session, w: Worker)
    requires Linked(sys) && Holds(sys, g) && s.current.None? == w.holder.None?
    requires s.current.Some? ==> s.current == sys.sessions[g].current && w.holder == Some(g)
    ensures Linked(System(sys.workers[sys.sessions[g].current.value := w], sys.sessions[g := s]))
  {
  }

  lemma {:induction false} SendKeepsLinked(sys: System, step: Step)
    requires Enabled(sys, step) && Linked(sys)
    requires step.SendDispatch? || step.RequestComplete?
    ensures Linked(Next(sys, step))
  {
  }

  lemma {:induction false} ReloadKeepsLinked(sys: System, g: Guild, hasScripts: bool)
    requires Enabled(sys, Reload(g, hasScripts)) && Linked(sys)
    ensures Linked(Next(sys, Reload(g, hasScripts)))
  {
  }

  lemma {:induction false} ReceiveKeepsLinked(sys: System, g: Guild)
    requires Enabled(sys, Receive(g)) && Linked(sys)
    ensures Linked(Next(sys, Receive(g)))
  {
    var s, w := sys.sessions[g], Held(sys, g);
    var t := SessionOnMessage(s, w.outbox[0]);
    assert w.holder == Some(g) && (t.current == s.current || t.current.None?);
    PairKeepsLinked(sys, g, t, ReadFrom(w, t.current.None?));
    hide Linked, SessionOnMessage;
  }

  lemma {:induction false} ClaimKeepsLinked(sys: System, step: Step)
    requires Enabled(sys, step) && Linked(sys)
    requires step.Claim? || step.ClaimFails?
    ensures Linked(Next(sys, step))
  {
  }

  lemma {:induction false} LeaveKeepsLinked(sys: System, step: Step)
    requires Enabled(sys, step) && Linked(sys)
    requires step.Break? || step.AbortSession?
    ensures Linked(Next(sys, step))
  {
    if step.Break? {
      var s := sys.sessions[step.g];
      DrainKeepsLoose((if step.onSend then SessionIssue(s) else s).(current := None), Held(sys,
          step.g).outbox[..step.delivered]);
    }
  }

  lemma {:induction false} ArriveKeepsLinked(sys: System, step: Step)
    requires Enabled(sys, step) && Linked(sys)
    requires step.Connect? || step.StartSession? || step.EndSession?
    ensures Linked(Next(sys, step))
  {
  }

  lemma {:induction false} NextKeepsLinked(sys: System, step: Step)
    requires Enabled(sys, step) && Linked(sys)
    ensures Linked(Next(sys, step))
  {
    hide Linked, WorkerStep;
    match step {
      case Break(_, _, _) | AbortSession(_) => LeaveKeepsLinked(sys, step);
      case Connect(_) | StartSession(_) | EndSession(_) => ArriveKeepsLinked(sys, step);
      case Claim(_, _) | ClaimFails(_, _) => ClaimKeepsLinked(sys, step);
      case SendDispatch(_, _) | RequestComplete(_) => SendKeepsLinked(sys, step);
      case Reload(g, hasScripts) => ReloadKeepsLinked(sys, g, hasScripts);
      case Receive(g) => ReceiveKeepsLinked(sys, g);
      case _ => WorkerStepKeepsLinked(sys, step.id, step);
    }
  }
}
