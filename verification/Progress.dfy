/**
 A steady worker that a session has given something to do comes back: as long as it is
 held, the worker, its VM or its session can take a step, and such steps are bounded by
 what is on the worker's channels.
 */
module Progress {
  import opened Common
  import opened Protocol
  import opened Isolation
  import opened Bookkeeping
  import opened Tokens
  import opened Quiescence

  /** The steps that handle what is there: all but new dispatches and runtime events. */
  predicate Handles(step: Step, g: Guild, id: WorkerId) {
    match step
    case OnMessage(i) => i == id
    case OnVmEvent(i) => i == id
    case OnRuntime(i) => i == id
    case Take(i) => i == id
    case Finish(i) => i == id
    case Receive(h) => h == g
    case _ => false
  }

  /** The holder wrote to the worker in this hold. */
  ghost predicate Used(w: Worker) { w.opener > 0 || w.inHold != {} }

  /** The last thing on its way to the session is NonePending. */
  ghost predicate EndsDone(w: Worker) {
    if w.vm.Some? && w.vm.value.evts != [] then w.vm.value.evts[|w.vm.value.evts| - 1].evt.VmFinished?
    else w.runtime == [] && w.outbox != [] && w.outbox[|w.outbox| - 1].NonePending?
  }

  /** The worker or its VM has something to handle, or has said that it has not. */
  ghost predicate Alive(w: Worker) {
    || w.inbox != [] || (w.vm.Some? && (w.vm.value.cmds != [] || w.vm.value.phase.Busy?))
    || EndsDone(w)
  }

  // ----- one worker -----

  lemma {:induction false} VmEventAlive(w: Worker)
    requires WorkerIsolated(w) && Calm(w) && Alive(w) && w.vm.Some? && w.vm.value.evts != []
    ensures Alive(WorkerOnVmEvent(w))
  {
    var e := w.vm.value.evts[0];
    assert e.guild == w.vm.value.guild && !e.evt.VmShutdown?;
    var v := WorkerOnVmEvent(w);
    if |w.vm.value.evts| > 1 {
      assert v.vm.value.evts[|v.vm.value.evts| - 1] == w.vm.value.evts[|w.vm.value.evts| - 1];
    }
  }

  lemma {:induction false} StepAlive(w: Worker, s: Session, step: Step)
    requires HeldOk(w, s) && Alive(w) && WorkerCan(w, step) && Ordinary(step)
    ensures Alive(WorkerStep(w, step))
  {
    hide Good, Pends, Line, Accounted;
    match step {
      case OnVmEvent(_) => VmEventAlive(w);
      case OnMessage(_) => assert !w.inbox[0].Complete?;
      case Finish(_) => assert WorkerStep(w, step).vm.value.evts != [];
      case _ =>
    }
  }

  lemma {:induction false} QuietLine(w: Worker)
    requires w.inbox == [] && w.runtime == [] && w.outbox == [NonePending]
    requires w.vm.Some? ==> w.vm.value.evts == [] && w.vm.value.cmds == [] && !w.vm.value.phase.Busy?
    ensures forall n :: Work(n) !in Line(w)
  {
    assert VmTokens(w.vm) == [];
    assert Outs(w.outbox, w.opener) == [Done] && Notes(w.runtime) == [] && Ins(w.inbox) == [];
    assert Line(w) == [Done];
  }

  /** While acks are pending, NonePending is not all there is. */
  lemma {:induction false} NotJustDone(w: Worker, s: Session)
    requires Pends(Line(w), s) && s.pending != map[] && w.inbox == [] && w.runtime == [] && w.outbox == [NonePending]
    requires w.vm.Some? ==> w.vm.value.evts == []
    ensures w.vm.Some? && (w.vm.value.cmds != [] || w.vm.value.phase.Busy?)
  {
    hide Line;
    var n :| n in s.pending;
    assert Work(n) in Line(w);
    hide Pends;
    if w.vm.None? || (w.vm.value.cmds == [] && !w.vm.value.phase.Busy?) {
      QuietLine(w);
    }
  }

  lemma {:induction false} ReadAlive(w: Worker, s: Session)
    requires HeldOk(w, s) && Alive(w) && w.outbox != [] && SessionOnMessage(s, w.outbox[0]).current == s.current
    requires s.current.Some?
    ensures Alive(ReadFrom(w, false))
  {
    hide Good, Pends, Line, Accounted;
    if w.outbox == [NonePending] && w.inbox == [] && w.runtime == [] && (w.vm.Some? ==> w.vm.value.evts == []) {
      NotJustDone(w, s);
    } else if |w.outbox| > 1 {
      assert w.outbox[1..][|w.outbox| - 2] == w.outbox[|w.outbox| - 1];
    }
  }

  // ----- runs -----

  ghost predicate WorkerAlive(sys: System, id: WorkerId) {
    id in sys.workers && sys.workers[id].holder.Some? && Used(sys.workers[id]) ==> Alive(sys.workers[id])
  }

  lemma {:induction false} HolderStepAlive(sys: System, step: Step, id: WorkerId)
    requires Booked(sys) && Linked(sys) && Enabled(sys, step) && Steady(sys, step, id) && Concerns(sys, step, id)
    requires WorkerOk(sys, id) && WorkerAlive(sys, id) && Mover(step).Some?
    ensures WorkerAlive(Next(sys, step), id)
  {
    hide HeldOk, FreeOk, Booked;
    match step {
      case Receive(g) =>
        HolderOk(sys, g);
        hide WorkerOk, Linked;
        var s, w := sys.sessions[g], Held(sys, g);
        if SessionOnMessage(s, w.outbox[0]).current.Some? && Used(w) {
          ReadAlive(w, s);
        }
      case _ =>
    }
  }

  lemma {:induction false} OwnStepAlive(sys: System, step: Step, id: WorkerId)
    requires Enabled(sys, step) && Ordinary(step) && step.id == id && WorkerOk(sys, id) && WorkerAlive(sys, id)
    ensures WorkerAlive(Next(sys, step), id)
  {
    var w := sys.workers[id];
    hide HeldOk, FreeOk, Alive;
    var v := WorkerStep(w, step);
    assert v.holder == w.holder && v.opener == w.opener && v.inHold == w.inHold;
    hide WorkerStep;
    if w.holder.Some? && Used(w) {
      StepAlive(w, sys.sessions[w.holder.value], step);
    }
  }

  lemma {:induction false} NextAlive(sys: System, step: Step, id: WorkerId)
    requires Booked(sys) && Linked(sys) && Enabled(sys, step) && Steady(sys, step, id)
    requires WorkerOk(sys, id) && WorkerAlive(sys, id)
    ensures WorkerAlive(Next(sys, step), id)
  {
    if !Concerns(sys, step, id) {
      if id in Next(sys, step).workers {
        LeftAlone(sys, step, id);
        hide Next, Booked, Linked, WorkerOk, Alive;
      }
    } else {
      hide WorkerOk, Booked, Linked, Alive;
      if Mover(step).Some? {
        HolderStepAlive(sys, step, id);
      } else if !step.Connect? {
        OwnStepAlive(sys, step, id);
      }
    }
  }

  lemma {:induction false} SteadyBounds(states: seq<System>, steps: seq<Step>, b: nat, k: nat, id: WorkerId)
    requires SteadySince(states, steps, b, k, id)
    ensures |states| == |steps| + 1 && b <= k < |states| && WorkerAlive(states[b], id)
  {
  }

  lemma {:induction false} RunAlive(states: seq<System>, steps: seq<Step>, b: nat, k: nat, id: WorkerId)
    requires SteadySince(states, steps, b, k, id)
    ensures WorkerAlive(states[k], id)
  {
    hide *;
    SteadyBounds(states, steps, b, k, id);
    if b < k {
      SteadyShorter(states, steps, b, k, id);
      RunAlive(states, steps, b, k - 1, id);
      RunOk(states, steps, b, k - 1, id);
      NextAlive(states[k - 1], steps[k - 1], id);
    }
  }

  /** No hold gets stuck: a steady worker that its session wrote to can be taken a step
      further by handling what is there, until the session gives it back. */
  lemma {:induction false} HoldMovesOn(states: seq<System>, steps: seq<Step>, b: nat, k: nat, g: Guild)
    requires ValidRun(states, steps) && k < |states| && Holds(states[k], g) && Used(Held(states[k], g))
    requires SteadySince(states, steps, b, k, states[k].sessions[g].current.value)
    ensures exists step :: Handles(step, g, states[k].sessions[g].current.value) && Enabled(states[k], step)
  {
    var id := states[k].sessions[g].current.value;
    RunBooked(states, steps, k);
    RunOk(states, steps, b, k, id);
    RunAlive(states, steps, b, k, id);
    HolderOk(states[k], g);
    CanHandle(states[k], g);
  }

  lemma {:induction false} CanHandle(sys: System, g: Guild)
    requires Holds(sys, g) && Calm(Held(sys, g)) && Alive(Held(sys, g))
    ensures exists step :: Handles(step, g, sys.sessions[g].current.value) && Enabled(sys, step)
  {
    var id, w := sys.sessions[g].current.value, Held(sys, g);
    var step :=
      if w.inbox != [] then OnMessage(id)
      else if w.vm.Some? && w.vm.value.cmds != [] then Take(id)
      else if w.vm.Some? && w.vm.value.phase.Busy? then Finish(id)
      else if w.vm.Some? && w.vm.value.evts != [] then OnVmEvent(id)
      else Receive(g);
    assert Handles(step, g, id) && Enabled(sys, step);
  }

  // ----- how long it takes -----

  /** What is on the worker's channels, weighted by how far it has to go. */
  function Load(w: Worker): nat {
    10 * |w.inbox| + 2 * |w.runtime| + |w.outbox| +
    if w.vm.None? then 0
    else 8 * |w.vm.value.cmds| + 3 * |w.vm.value.evts| + if w.vm.value.phase.Busy? then 4 else 0
  }

  lemma {:induction false} StepShrinks(w: Worker, step: Step)
    requires WorkerCan(w, step)
    requires step.OnMessage? || step.OnVmEvent? || step.OnRuntime? || step.Take? || step.Finish?
    ensures Load(WorkerStep(w, step)) < Load(w)
  {
  }

  lemma {:induction false} SteadyLonger(states: seq<System>, steps: seq<Step>, b: nat, k: nat, id: WorkerId)
    requires SteadySince(states, steps, b, k, id) && k < |steps| && Steady(states[k], steps[k], id)
    ensures SteadySince(states, steps, b, k + 1, id)
  {
    hide Steady, Settled;
  }

  /** Handling what is there keeps the worker used and steady, and lightens its load. */
  lemma {:induction false} HandlingShrinks(sys: System, step: Step, g: Guild, id: WorkerId)
    requires g in sys.sessions && sys.sessions[g].current == Some(id) && id in sys.workers && Used(sys.workers[id])
    requires Enabled(sys, step) && Handles(step, g, id)
    ensures Steady(sys, step, id) && id in Next(sys, step).workers
    ensures Used(Next(sys, step).workers[id]) && Load(Next(sys, step).workers[id]) < Load(sys.workers[id])
  {
    if !step.Receive? {
      StepShrinks(Held(sys, g), step);
      assert WorkerStep(Held(sys, g), step).opener == Held(sys, g).opener;
      assert WorkerStep(Held(sys, g), step).inHold == Held(sys, g).inHold;
      hide WorkerStep, Load;
    }
  }

  /** From state `k` to state `m`, `g` holds worker `id` and only what is there is
      handled. */
  ghost predicate Handling(states: seq<System>, steps: seq<Step>, k: nat, m: nat, g: Guild, id: WorkerId) {
    && ValidRun(states, steps) && k <= m < |states|
    && (forall i :: k <= i < m ==> Handles(steps[i], g, id))
    && forall i :: k <= i <= m ==> g in states[i].sessions && states[i].sessions[g].current == Some(id)
  }

  lemma {:induction false} HandlingShorter(states: seq<System>, steps: seq<Step>, k: nat, m: nat, g: Guild,
      id: WorkerId)
    requires Handling(states, steps, k, m, g, id) && k < m
    ensures |states| == |steps| + 1 && m < |states|
    ensures Handling(states, steps, k, m - 1, g, id) && Handles(steps[m - 1], g, id)
    ensures g in states[m - 1].sessions && states[m - 1].sessions[g].current == Some(id)
    ensures Enabled(states[m - 1], steps[m - 1]) && states[m] == Next(states[m - 1], steps[m - 1])
  {
    hide Handles, Enabled, Next;
  }

  /** The worker is used, and `left` bounds its load. */
  ghost predicate Lighter(sys: System, id: WorkerId, left: int) {
    id in sys.workers && Used(sys.workers[id]) && Load(sys.workers[id]) <= left
  }

  lemma {:induction false} LighterStep(sys: System, step: Step, g: Guild, id: WorkerId, left: int)
    requires g in sys.sessions && sys.sessions[g].current == Some(id) && Lighter(sys, id, left)
    requires Enabled(sys, step) && Handles(step, g, id)
    ensures Steady(sys, step, id) && Lighter(Next(sys, step), id, left - 1)
  {
    hide Used, Load, Enabled, Handles, Next, Steady;
    HandlingShrinks(sys, step, g, id);
  }

  /** The hold goes on as steadily, and the load shrinks with each step. */
  lemma {:induction false} HeldOn(states: seq<System>, steps: seq<Step>, b: nat, k: nat, m: nat, g: Guild,
      id: WorkerId, left: int)
    requires SteadySince(states, steps, b, k, id) && Handling(states, steps, k, m, g, id)
    requires Lighter(states[k], id, left)
    ensures SteadySince(states, steps, b, m, id) && Lighter(states[m], id, left - (m - k))
    decreases m
  {
    if k < m {
      HandlingShorter(states, steps, k, m, g, id);
      hide *;
      HeldOn(states, steps, b, k, m - 1, g, id, left);
      LighterStep(states[m - 1], steps[m - 1], g, id, left - (m - 1 - k));
      SteadyLonger(states, steps, b, m - 1, id);
    }
  }

  /** Whenever, from a state in which `g` holds a steady worker that it wrote to, only
      what is there is handled: the worker is given back within its load of steps,
      because until then another step can be taken and each lightens the load. */
  lemma {:induction false} HoldEnds(states: seq<System>, steps: seq<Step>, b: nat, k: nat, m: nat, g: Guild,
      id: WorkerId)
    requires SteadySince(states, steps, b, k, id) && Handling(states, steps, k, m, g, id)
    requires id in states[k].workers && Used(states[k].workers[id])
    ensures m - k <= Load(states[k].workers[id])
    ensures exists step :: Handles(step, g, id) && Enabled(states[m], step)
  {
    HeldOn(states, steps, b, k, m, g, id, Load(states[k].workers[id]));
    hide Load, Used, SteadySince, Enabled, Handles;
    HoldMovesOn(states, steps, b, m, g);
  }
}
