/**
 Guild isolation over every run: no VM is ever handed an event that another
 guild's session dispatched, although workers pass between guilds, a claim by
 the guild that used the worker last skips CreateScriptsVm, VMs die at any
 moment, and sessions reload, abort and restart.
 */
module Isolation {
  import opened Common
  import opened Protocol

  function VmGuild(w: Worker): Option<Guild> {
    if w.vm.Some? then Some(w.vm.value.guild) else None
  }

  /** The guild of the VM that will be running once `q` has been handled. */
  ghost function FinalGuild(running: Option<Guild>, q: seq<SchedulerMessage>): Option<Guild>
    decreases |q|
  {
    if q == [] then running
    else FinalGuild(if q[0].CreateScriptsVm? then Some(q[0].guild) else running, q[1..])
  }

  /** Every dispatch in `q` reaches the VM of the guild it came from, or none. */
  ghost predicate Routed(running: Option<Guild>, q: seq<SchedulerMessage>)
    decreases |q|
  {
    q == [] ||
    ((q[0].Dispatch? && running.Some? ==> running.value == q[0].origin) &&
     Routed(if q[0].CreateScriptsVm? then Some(q[0].guild) else running, q[1..]))
  }

  lemma {:induction false} AppendMessage(running: Option<Guild>, q: seq<SchedulerMessage>, m: SchedulerMessage)
    requires Routed(running, q)
    requires m.Dispatch? && FinalGuild(running, q).Some? ==> FinalGuild(running, q).value == m.origin
    ensures Routed(running, q + [m])
    ensures FinalGuild(running, q + [m]) == if m.CreateScriptsVm? then Some(m.guild) else FinalGuild(running, q)
    decreases |q|
  {
    if q == [] {
      assert (q + [m])[1..] == [];
    } else {
      assert (q + [m])[1..] == q[1..] + [m];
      AppendMessage(if q[0].CreateScriptsVm? then Some(q[0].guild) else running, q[1..], m);
    }
  }

  /** Losing the VM only makes routing safer. */
  lemma {:induction false} LoseVm(running: Option<Guild>, q: seq<SchedulerMessage>)
    requires Routed(running, q)
    ensures Routed(None, q)
    ensures FinalGuild(None, q) == FinalGuild(running, q) || FinalGuild(None, q).None?
    decreases |q|
  {
    if q != [] && !q[0].CreateScriptsVm? {
      LoseVm(running, q[1..]);
    }
  }

  ghost predicate VmIsolated(vm: Vm) {
    && (forall i :: 0 <= i < |vm.cmds| && vm.cmds[i].DispatchEvent? ==> vm.cmds[i].origin == vm.guild)
    && (forall i :: 0 <= i < |vm.evts| ==> vm.evts[i].guild == vm.guild)
  }

  ghost predicate WorkerIsolated(w: Worker) {
    && Routed(VmGuild(w), w.inbox)
    && (w.vm.Some? ==> VmIsolated(w.vm.value))
    && (forall i :: 0 <= i < |w.taken| ==> w.taken[i].origin == w.taken[i].vmGuild)
    && (FinalGuild(VmGuild(w), w.inbox).Some? ==> w.lastActive == FinalGuild(VmGuild(w), w.inbox))
    && (w.holder.Some? ==> w.lastActive == w.holder)
  }

  lemma {:induction false} OnMessageIsolated(w: Worker)
    requires WorkerIsolated(w) && w.inbox != []
    ensures WorkerIsolated(WorkerOnMessage(w))
  {
  }

  lemma {:induction false} OnVmEventIsolated(w: Worker)
    requires WorkerIsolated(w) && w.vm.Some? && w.vm.value.evts != []
    ensures WorkerIsolated(WorkerOnVmEvent(w))
  {
    LoseVm(VmGuild(w), w.inbox);
  }

  lemma {:induction false} WorkerStepIsolated(w: Worker, step: Step)
    requires WorkerIsolated(w) && WorkerCan(w, step)
    ensures WorkerIsolated(WorkerStep(w, step))
  {
    match step {
      case OnMessage(_) => OnMessageIsolated(w);
      case OnVmEvent(_) => OnVmEventIsolated(w);
      case OnVmClosed(_) => LoseVm(VmGuild(w), w.inbox);
      case _ =>
    }
  }

  lemma {:induction false} ClaimIsolated(w: Worker, g: Guild, s: Session)
    requires WorkerIsolated(w)
    ensures WorkerIsolated(ClaimWorker(w, g, s))
  {
    if SessionSendsScripts(s, g, w) {
      AppendMessage(VmGuild(w), w.inbox, CreateScriptsVm(g, s.idGen + 1));
    } else {
      assert w.inbox + [] == w.inbox;
    }
  }

  lemma {:induction false} SendIsolated(w: Worker, g: Guild, m: SchedulerMessage)
    requires WorkerIsolated(w) && w.holder == Some(g)
    requires m.Dispatch? ==> m.origin == g
    requires m.CreateScriptsVm? ==> m.guild == g
    ensures WorkerIsolated(w.(inbox := w.inbox + [m]))
  {
    AppendMessage(VmGuild(w), w.inbox, m);
  }

  ghost predicate Isolated(sys: System) {
    Linked(sys) && forall id :: id in sys.workers ==> WorkerIsolated(sys.workers[id])
  }

  /** The steps in which a session sends to the worker it holds. */
  lemma {:induction false} SendsIsolated(sys: System, step: Step, id: WorkerId)
    requires Enabled(sys, step) && Isolated(sys) && id in Next(sys, step).workers
    requires step.SendDispatch? || step.Reload? || step.RequestComplete?
    ensures WorkerIsolated(Next(sys, step).workers[id])
  {
    var g := step.g;
    var s := sys.sessions[g];
    assert s.current.Some? ==> Held(sys, g).holder == Some(g);
    hide Linked, WorkerIsolated, SessionReload, SessionDispatch;
    if s.current.Some? {
      SendIsolated(Held(sys, g), g, Dispatch(g, s.idGen + 1));
      SendIsolated(Held(sys, g), g, CreateScriptsVm(g, s.idGen + 1));
      SendIsolated(Held(sys, g), g, Complete);
    }
  }

  lemma {:induction false} OthersIsolated(sys: System, step: Step, id: WorkerId)
    requires Enabled(sys, step) && Isolated(sys) && id in Next(sys, step).workers
    requires !step.SendDispatch? && !step.Reload? && !step.RequestComplete?
    ensures WorkerIsolated(Next(sys, step).workers[id])
  {
    hide Linked, Routed, FinalGuild, VmIsolated, SessionOnMessage, SessionBroken, SessionClaim, WorkerStep, ClaimWorker;
    match step {
      case Connect(_) => FreshIsolated();
      case StartSession(_) | EndSession(_) | AbortSession(_) | ClaimFails(_, _) | Break(_, _, _) | Receive(_) =>
      case SendDispatch(_, _) | Reload(_, _) | RequestComplete(_) =>
      case Claim(g, claimed) => ClaimIsolated(sys.workers[claimed], g, sys.sessions[g]);
      case _ => WorkerStepIsolated(sys.workers[step.id], step);
    }
  }

  lemma {:induction false} FreshIsolated()
    ensures WorkerIsolated(FRESH_WORKER)
  {}

  lemma {:induction false} NextIsolated(sys: System, step: Step)
    requires Enabled(sys, step) && Isolated(sys)
    ensures Isolated(Next(sys, step))
  {
    NextKeepsLinked(sys, step);
    var next := Next(sys, step);
    hide Linked, WorkerIsolated, Next;
    forall id | id in next.workers ensures WorkerIsolated(next.workers[id]) {
      if step.SendDispatch? || step.Reload? || step.RequestComplete? {
        SendsIsolated(sys, step, id);
      } else {
        OthersIsolated(sys, step, id);
      }
    }
  }

  lemma {:induction false} RunIsolated(states: seq<System>, steps: seq<Step>, k: nat)
    requires ValidRun(states, steps) && k < |states|
    ensures Isolated(states[k])
  {
    if k > 0 {
      RunIsolated(states, steps, k - 1);
      NextIsolated(states[k - 1], steps[k - 1]);
    }
  }

  /** In every state of every run, every event any VM has taken, and every event
      queued for it, came from the session of the guild that VM was created for. */
  lemma {:induction false} GuildIsolation(states: seq<System>, steps: seq<Step>, k: nat, id: WorkerId)
    requires ValidRun(states, steps) && k < |states| && id in states[k].workers
    ensures forall t :: t in states[k].workers[id].taken ==> t.origin == t.vmGuild
    ensures states[k].workers[id].vm.Some? ==>
              var vm := states[k].workers[id].vm.value;
              forall c :: c in vm.cmds && c.DispatchEvent? ==> c.origin == vm.guild
  {
    RunIsolated(states, steps, k);
    assert WorkerIsolated(states[k].workers[id]);
  }

  /** The guild check on VM events never discards one: no worker ever sees an
      event of a VM other than the one it is running. */
  lemma {:induction false} NoForeignVmEvent(states: seq<System>, steps: seq<Step>, k: nat, id: WorkerId)
    requires ValidRun(states, steps) && k < |states| && id in states[k].workers && states[k].workers[id].vm.Some?
    ensures var vm := states[k].workers[id].vm.value;
            forall e :: e in vm.evts ==> e.guild == vm.guild
  {
    RunIsolated(states, steps, k);
    assert WorkerIsolated(states[k].workers[id]);
  }
}
