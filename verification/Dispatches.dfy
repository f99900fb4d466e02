/**
 What becomes of dispatched events on any worker, steady or not: all that were sent were
 taken by a VM in order, or wait in order, exactly as long as no VM went away with
 events still to take and no event found the worker without one.
 */
module Dispatches {
  import opened Common
  import opened Protocol
  import opened Bookkeeping
  import opened Quiescence

  function CmdNumbers(cs: seq<VmCommand>): seq<nat> {
    if cs == [] then [] else (if cs[0].DispatchEvent? then [cs[0].seqNo] else []) + CmdNumbers(cs[1..])
  }

  function InNumbers(ms: seq<SchedulerMessage>): seq<nat> {
    if ms == [] then [] else (if ms[0].Dispatch? then [ms[0].seqNo] else []) + InNumbers(ms[1..])
  }

  /** The events waiting for the VM. */
  function Waiting(vm: Option<Vm>): seq<nat> {
    if vm.None? then [] else CmdNumbers(vm.value.cmds)
  }

  /** The events taken, then those waiting for the VM, then those unread. */
  function Kept(w: Worker): seq<nat> {
    TakenNumbers(w.taken) + Waiting(w.vm) + InNumbers(w.inbox)
  }

  lemma {:induction false} CmdAppend(cs: seq<VmCommand>, c: VmCommand)
    ensures CmdNumbers(cs + [c]) == CmdNumbers(cs) + if c.DispatchEvent? then [c.seqNo] else []
  {
    if cs == [] {
      assert cs + [c] == [c] && [c][1..] == [];
    } else {
      var front := if cs[0].DispatchEvent? then [cs[0].seqNo] else [];
      assert (cs + [c])[1..] == cs[1..] + [c];
      assert CmdNumbers(cs + [c]) == front + CmdNumbers(cs[1..] + [c]);
      assert CmdNumbers(cs) == front + CmdNumbers(cs[1..]);
      hide CmdNumbers;
      CmdAppend(cs[1..], c);
    }
  }

  lemma {:induction false} InAppend(ms: seq<SchedulerMessage>, m: SchedulerMessage)
    ensures InNumbers(ms + [m]) == InNumbers(ms) + if m.Dispatch? then [m.seqNo] else []
  {
    if ms == [] {
      assert ms + [m] == [m] && [m][1..] == [];
    } else {
      var front := if ms[0].Dispatch? then [ms[0].seqNo] else [];
      assert (ms + [m])[1..] == ms[1..] + [m];
      assert InNumbers(ms + [m]) == front + InNumbers(ms[1..] + [m]);
      assert InNumbers(ms) == front + InNumbers(ms[1..]);
      hide InNumbers;
      InAppend(ms[1..], m);
    }
  }

  /** The step of the worker loses an event: one arrives when there is no VM, or the VM
      is replaced, shut down or found closed with events still to take. */
  ghost predicate Drops(w: Worker, step: Step)
    requires WorkerCan(w, step)
  {
    match step
    case OnMessage(_) =>
      (match w.inbox[0]
       case Dispatch(_, _) => w.vm.None?
       case CreateScriptsVm(g, _) => w.vm.Some? && w.vm.value.guild != g && Waiting(w.vm) != []
       case Complete => false)
    case OnVmEvent(_) =>
      var e := w.vm.value.evts[0];
      e.guild == w.vm.value.guild && e.evt.VmShutdown? && Waiting(w.vm) != []
    case OnVmClosed(_) => Waiting(w.vm) != []
    case _ => false
  }

  lemma {:induction false} MessageKeeps(w: Worker)
    requires w.inbox != []
    ensures var v := WorkerOnMessage(w);
      if Drops(w, OnMessage(0)) then |Kept(v)| < |Kept(w)| else Kept(v) == Kept(w)
  {
    var v, m := WorkerOnMessage(w), w.inbox[0];
    assert InNumbers(w.inbox) == (if m.Dispatch? then [m.seqNo] else []) + InNumbers(v.inbox);
    match m {
      case Dispatch(origin, n) =>
        if w.vm.Some? {
          CmdAppend(w.vm.value.cmds, DispatchEvent(origin, n));
        }
      case CreateScriptsVm(g, n) =>
        if w.vm.Some? && w.vm.value.guild == g {
          CmdAppend(w.vm.value.cmds, Restart);
        }
      case Complete =>
    }
    hide InNumbers, CmdNumbers, TakenNumbers;
  }

  lemma {:induction false} TakeKeeps(w: Worker)
    requires w.vm.Some? && w.vm.value.cmds != []
    ensures Kept(VmTake(w)) == Kept(w)
  {
    var v, c := VmTake(w), w.vm.value.cmds[0];
    var now := if c.DispatchEvent? then [c.seqNo] else [];
    assert CmdNumbers(w.vm.value.cmds) == now + CmdNumbers(v.vm.value.cmds);
    assert TakenNumbers(v.taken) == TakenNumbers(w.taken) + now;
    hide InNumbers, CmdNumbers, TakenNumbers;
  }

  lemma {:induction false} StepKeeps(w: Worker, step: Step)
    requires WorkerCan(w, step)
    ensures WorkerStep(w, step).sent == w.sent
    ensures var v := WorkerStep(w, step);
      if Drops(w, step) then |Kept(v)| < |Kept(w)| else Kept(v) == Kept(w)
  {
    match step {
      case OnMessage(_) => MessageKeeps(w);
      case Take(_) => TakeKeeps(w);
      case _ => hide InNumbers, CmdNumbers, TakenNumbers;
    }
  }

  // ----- runs -----

  /** Worker `id` loses an event by this step. */
  ghost predicate Loses(sys: System, step: Step, id: WorkerId)
    requires Enabled(sys, step)
  {
    Mover(step).None? && step.id == id && !step.Connect? && Drops(sys.workers[id], step)
  }

  /** What the worker was sent against what it kept. */
  ghost predicate Tally(w: Worker, lost: bool) {
    if lost then |Kept(w)| < |w.sent| else Kept(w) == w.sent
  }

  lemma {:induction false} WrittenTally(w: Worker, m: SchedulerMessage, lost: bool)
    requires Tally(w, lost)
    ensures var v := w.(inbox := w.inbox + [m]);
      Tally(if m.Dispatch? then v.(sent := w.sent + [m.seqNo]) else v, lost)
  {
    InAppend(w.inbox, m);
    hide InNumbers, TakenNumbers, Waiting;
    var v := w.(inbox := w.inbox + [m]);
    assert m.Dispatch? ==> Kept(v) == Kept(w) + [m.seqNo];
    assert !m.Dispatch? ==> Kept(v) == Kept(w);
  }

  /** Two workers that differ only in what the tally does not read. */
  lemma {:induction false} SameTally(w: Worker, v: Worker, lost: bool)
    requires Tally(w, lost) && v.sent == w.sent && v.taken == w.taken && v.vm == w.vm && v.inbox == w.inbox
    ensures Tally(v, lost)
  {
  }

  lemma {:induction false} HolderTally(sys: System, step: Step, id: WorkerId, lost: bool)
    requires Linked(sys) && Enabled(sys, step) && Concerns(sys, step, id) && Mover(step).Some?
    requires id in sys.workers && id in Next(sys, step).workers && Tally(sys.workers[id], lost)
    ensures Tally(Next(sys, step).workers[id], lost)
  {
    hide Tally, SessionBroken, SessionOnMessage, SessionClaim, SessionDispatch, SessionReload;
    var w, v := sys.workers[id], Next(sys, step).workers[id];
    match step {
      case Claim(g, _) =>
        var s := sys.sessions[g];
        if SessionSendsScripts(s, g, w) {
          WrittenTally(w, CreateScriptsVm(g, s.idGen + 1), lost);
          SameTally(w.(inbox := w.inbox + [CreateScriptsVm(g, s.idGen + 1)]), v, lost);
        } else {
          assert w.inbox + [] == w.inbox;
          SameTally(w, v, lost);
        }
      case SendDispatch(g, _) =>
        var n := sys.sessions[g].idGen + 1;
        WrittenTally(w, Dispatch(g, n), lost);
        SameTally(w.(inbox := w.inbox + [Dispatch(g, n)], sent := w.sent + [n]), v, lost);
      case Reload(g, _) => WrittenTally(w, CreateScriptsVm(g, sys.sessions[g].idGen + 1), lost);
      case RequestComplete(g) => WrittenTally(w, Complete, lost);
      case Receive(g) => SameTally(w, v, lost);
      case _ =>
    }
  }

  lemma {:induction false} NextTally(sys: System, step: Step, id: WorkerId, lost: bool)
    requires Linked(sys) && Enabled(sys, step)
    requires id in sys.workers && id in Next(sys, step).workers && Tally(sys.workers[id], lost)
    ensures Tally(Next(sys, step).workers[id], lost || Loses(sys, step, id))
  {
    if !Concerns(sys, step, id) {
      LeftAlone(sys, step, id);
    } else if Mover(step).Some? {
      HolderTally(sys, step, id, lost);
    } else {
      StepKeeps(sys.workers[id], step);
      hide WorkerStep, Kept;
    }
  }

  /** Worker `id` connected at step `c` and has been there up to state `k`. */
  ghost predicate ThereSince(states: seq<System>, steps: seq<Step>, c: nat, k: nat, id: WorkerId) {
    && ValidRun(states, steps) && c < k < |states| && steps[c] == Connect(id)
    && forall i :: c < i <= k ==> id in states[i].workers
  }

  /** Some step since the worker connected lost an event. */
  ghost predicate LostSince(states: seq<System>, steps: seq<Step>, c: nat, k: nat, id: WorkerId)
    requires ThereSince(states, steps, c, k, id)
  {
    exists i :: c < i < k && Loses(states[i], steps[i], id)
  }

  lemma {:induction false} ThereShorter(states: seq<System>, steps: seq<Step>, c: nat, k: nat, id: WorkerId)
    requires ThereSince(states, steps, c, k, id) && c + 1 < k
    ensures ThereSince(states, steps, c, k - 1, id) && id in states[k - 1].workers && id in states[k].workers
    ensures Enabled(states[k - 1], steps[k - 1]) && states[k] == Next(states[k - 1], steps[k - 1])
    ensures LostSince(states, steps, c, k, id) <==>
      LostSince(states, steps, c, k - 1, id) || Loses(states[k - 1], steps[k - 1], id)
  {
    hide Loses, Enabled, Next;
    assert ThereSince(states, steps, c, k - 1, id);
    if LostSince(states, steps, c, k, id) {
      var i :| c < i < k && Loses(states[i], steps[i], id);
      assert i < k - 1 ==> LostSince(states, steps, c, k - 1, id);
    }
  }

  lemma {:induction false} FreshTally(states: seq<System>, steps: seq<Step>, c: nat, id: WorkerId)
    requires ThereSince(states, steps, c, c + 1, id)
    ensures id in states[c + 1].workers && Tally(states[c + 1].workers[id], LostSince(states, steps, c, c + 1, id))
  {
    assert !LostSince(states, steps, c, c + 1, id);
    assert states[c + 1] == Next(states[c], Connect(id));
    hide LostSince;
    assert states[c + 1].workers[id] == FRESH_WORKER;
  }

  lemma {:induction false} RunLinked(states: seq<System>, steps: seq<Step>, k: nat)
    requires ValidRun(states, steps) && k < |states|
    ensures Linked(states[k])
  {
    RunBooked(states, steps, k);
  }

  lemma {:induction false} TallyStep(states: seq<System>, steps: seq<Step>, c: nat, k: nat, id: WorkerId)
    requires ThereSince(states, steps, c, k, id) && c + 1 < k && ThereSince(states, steps, c, k - 1, id)
    requires Tally(states[k - 1].workers[id], LostSince(states, steps, c, k - 1, id))
    ensures Tally(states[k].workers[id], LostSince(states, steps, c, k, id))
  {
    ThereShorter(states, steps, c, k, id);
    RunLinked(states, steps, k - 1);
    hide *;
    NextTally(states[k - 1], steps[k - 1], id, LostSince(states, steps, c, k - 1, id));
  }

  lemma {:induction false} RunTally(states: seq<System>, steps: seq<Step>, c: nat, k: nat, id: WorkerId)
    requires ThereSince(states, steps, c, k, id)
    ensures Tally(states[k].workers[id], LostSince(states, steps, c, k, id))
  {
    hide ValidRun, LostSince, Tally;
    if k == c + 1 {
      FreshTally(states, steps, c, id);
    } else {
      RunTally(states, steps, c, k - 1, id);
      TallyStep(states, steps, c, k, id);
    }
  }

  /** In every run and for every worker since it connected: the events sent to it are
      those its VMs took and then those waiting, in order and without a gap, exactly
      when no step lost one. */
  lemma {:induction false} DispatchesKeptExactly(states: seq<System>, steps: seq<Step>, c: nat, k: nat, id: WorkerId)
    requires ThereSince(states, steps, c, k, id)
    ensures var w := states[k].workers[id];
      w.sent == TakenNumbers(w.taken) + Waiting(w.vm) + InNumbers(w.inbox) <==> !LostSince(states, steps, c, k, id)
  {
    RunTally(states, steps, c, k, id);
    hide LostSince, InNumbers, Waiting, TakenNumbers;
  }
}
