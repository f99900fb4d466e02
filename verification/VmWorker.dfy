/**
 The worker process (cmd/vmworker/src/main.rs) and the VM's tick loop
 (components/vm/src/vm.rs) as objects updated in place, each method proved
 against the worker and VM functions of `Protocol`.
 */
module VmWorker {
  import opened Common
  import opened Protocol

  class Worker {
    var schedulerRx: seq<SchedulerMessage>
    var schedulerTx: seq<WorkerMessage>
    var runtimeRx: seq<RuntimeEvent>
    var currentState: Option<Vm>

    /** The process knows nothing of the scheduler's side of the handle. */
    ghost function Model(): Protocol.Worker
      reads this
    {
      Protocol.Worker(schedulerRx, schedulerTx, runtimeRx, currentState, None, None, 0, {}, [], [])
    }

    constructor ()
      ensures Model() == FRESH_WORKER
    {
      schedulerRx, schedulerTx, runtimeRx, currentState := [], [], [], None;
    }

    method WriteMessage(m: WorkerMessage)
      modifies this`schedulerTx
      ensures schedulerTx == old(schedulerTx) + [m]
    {
      schedulerTx := schedulerTx + [m];
    }

    method HandleRuntimeEvt(e: RuntimeEvent)
      modifies this`schedulerTx
      ensures schedulerTx == old(schedulerTx) + [RuntimeMessage(e)]
      ensures e.RtScriptStarted? ==> schedulerTx[|schedulerTx| - 1] == ScriptStarted
      ensures e.NewTaskScheduled? ==> schedulerTx[|schedulerTx| - 1] == TaskScheduled
      ensures e.InvalidRequestsExceeded? ==> schedulerTx[|schedulerTx| - 1] == Shutdown(TooManyInvalidRequests)
    {
      match e {
        case RtScriptStarted => WriteMessage(ScriptStarted);
        case NewTaskScheduled => WriteMessage(TaskScheduled);
        case InvalidRequestsExceeded => WriteMessage(Shutdown(TooManyInvalidRequests));
      }
    }

    /** The `try_recv` loop that empties the runtime channel. */
    method DrainRuntime()
      modifies this`schedulerTx, this`runtimeRx
      ensures runtimeRx == [] && schedulerTx == old(schedulerTx) + RuntimeMessages(old(runtimeRx))
    {
      ghost var all, sent := runtimeRx, 0;
      while runtimeRx != []
        invariant 0 <= sent <= |all| && runtimeRx == all[sent..]
        invariant schedulerTx == old(schedulerTx) + RuntimeMessages(all[..sent])
        decreases |runtimeRx|
      {
        var e := runtimeRx[0];
        runtimeRx := runtimeRx[1..];
        HandleRuntimeEvt(e);
        assert RuntimeMessages(all[..sent + 1]) == RuntimeMessages(all[..sent]) + [RuntimeMessage(e)];
        sent := sent + 1;
      }
      assert all[..sent] == all;
    }

    method WaitShutdownCurrentVm()
      modifies this`currentState
      ensures currentState.None?
    {
      currentState := None;
    }

    method HandleCreateScriptsVm(guild: Guild, seqNo: nat)
      modifies this`currentState, this`schedulerTx
      ensures schedulerTx == old(schedulerTx) + [Ack(seqNo)]
      ensures currentState.Some? && currentState.value.guild == guild
      ensures old(currentState).Some? && old(currentState).value.guild == guild ==>
                currentState == Some(old(currentState).value.(cmds := old(currentState).value.cmds + [Restart]))
      ensures !(old(currentState).Some? && old(currentState).value.guild == guild) ==>
                currentState == Some(Vm(guild, [], [], Busy))
    {
      if currentState.Some? {
        if currentState.value.guild != guild {
          WaitShutdownCurrentVm();
        }
      }
      if currentState.Some? {
        currentState := Some(currentState.value.(cmds := currentState.value.cmds + [Restart]));
        WriteMessage(Ack(seqNo));
        return;
      }
      currentState := Some(Vm(guild, [], [], Busy));
      WriteMessage(Ack(seqNo));
    }

    /** One scheduler message: the first arm of the select loop. */
    method HandleSchedulerCmd()
      requires schedulerRx != []
      modifies this
      ensures Model() == WorkerOnMessage(old(Model()))
    {
      var cmd := schedulerRx[0];
      schedulerRx := schedulerRx[1..];
      match cmd {
        case Dispatch(origin, n) =>
          if currentState.Some? {
            currentState := Some(currentState.value.(cmds := currentState.value.cmds + [DispatchEvent(origin, n)]));
          }
        case CreateScriptsVm(guild, n) => HandleCreateScriptsVm(guild, n);
        case Complete =>
      }
    }

    /** One VM event: the third arm of the select loop. */
    method HandleVmEvt()
      requires currentState.Some? && currentState.value.evts != []
      modifies this`currentState, this`schedulerTx, this`runtimeRx
      ensures Model() == WorkerOnVmEvent(old(Model()))
    {
      var e := currentState.value.evts[0];
      currentState := Some(currentState.value.(evts := currentState.value.evts[1..]));
      if currentState.value.guild != e.guild {
        return;
      }
      match e.evt {
        case VmShutdown(reason) =>
          WaitShutdownCurrentVm();
          DrainRuntime();
          WriteMessage(Shutdown(reason));
          WriteMessage(NonePending);
        case DispatchedEvent(n) => WriteMessage(Ack(n));
        case VmFinished =>
          DrainRuntime();
          WriteMessage(NonePending);
      }
    }
  }

  /** What polling the JavaScript event loop reports. */
  datatype Poll = Pending | ReadyOk | ReadyErr

  /** The VM's `run` loop with its `completed` flag. */
  class TickLoop {
    const guild: Guild
    var rx: seq<VmCommand>
    var tx: seq<GuildVmEvent>
    var completed: bool
    var stopped: bool

    ghost function Model(): Vm
      reads this
    {
      Vm(guild, rx, tx, if stopped then Terminated else if completed then Idle else Busy)
    }

    constructor (guild: Guild)
      ensures Model() == Vm(guild, [], [], Busy) && !stopped
    {
      this.guild := guild;
      rx, tx, completed, stopped := [], [], false, false;
    }

    /** One turn: the termination check, then a wake-up, else a command (or the end of
        the command channel, when `closed`), else the event loop.  The loop reports
        VmFinished exactly when no command waits, the event loop is dry and it has not
        reported since it last had something to do; otherwise it takes the oldest
        command, or keeps its phase. */
    method Tick(terminated: Option<ShutdownReason>, wakeup: bool, closed: bool, poll: Poll)
      requires !stopped
      modifies this`rx, this`tx, this`completed, this`stopped
      ensures stopped == terminated.Some?
      ensures terminated.Some? ==>
                forall w: Protocol.Worker :: w.vm == Some(old(Model())) ==>
                  VmTerminate(w, terminated).vm == Some(Model())
      ensures terminated.None? && wakeup ==> Model() == old(Model()).(phase := Busy)
      ensures terminated.None? && !wakeup && old(rx) != [] ==>
                forall w: Protocol.Worker :: w.vm == Some(old(Model())) ==> VmTake(w).vm == Some(Model())
      ensures terminated.None? && !wakeup && old(rx) == [] ==>
                if closed || poll.ReadyErr? then Model() == old(Model()).(phase := Busy)
                else if poll.ReadyOk? && !old(completed) then
                  forall w: Protocol.Worker :: w.vm == Some(old(Model())) ==> VmFinish(w).vm == Some(Model())
                else Model() == old(Model())
    {
      if terminated.Some? {
        tx := tx + [GuildVmEvent(guild, VmShutdown(terminated.value))];
        stopped := true;
        return;
      }
      var wasCompleted := completed;
      if wakeup {
        completed := false;
        return;
      }
      if rx != [] {
        completed := false;
        var cmd := rx[0];
        rx := rx[1..];
        match cmd {
          case DispatchEvent(_, n) => tx := tx + [GuildVmEvent(guild, DispatchedEvent(n))];
          case Restart =>
        }
        return;
      }
      if closed {
        completed := false;
        return;
      }
      match poll {
        case Pending =>
        case ReadyOk =>
          if !wasCompleted {
            tx := tx + [GuildVmEvent(guild, VmFinished)];
            completed := true;
          }
        case ReadyErr => completed := false;
      }
    }
  }
}
