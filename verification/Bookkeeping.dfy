/**
 Ack bookkeeping of a session, over every run (cmd/scheduler/src/vm_session.rs):
 sequence numbers are never reused, every pending ack belongs to a dispatch
 written to the worker now held, and a stored task is deleted only by the ack
 of a dispatch that carried it, at most once per dispatch.
 */
module Bookkeeping {
  import opened Common
  import opened Protocol

  ghost predicate Increasing(s: seq<nat>) {
    forall i, j :: 0 <= i < j < |s| ==> s[i] < s[j]
  }

  ghost predicate DeletionsOk(s: Session) {
    && (forall d :: d in s.deletions ==>
          d.seqNo in s.dispatched && s.dispatched[d.seqNo] == ScheduledTask(d.taskId) && d.seqNo !in s.pending)
    && (forall i, j :: 0 <= i < j < |s.deletions| ==> s.deletions[i].seqNo != s.deletions[j].seqNo)
  }

  /** What holds even while a broken worker's last messages are read. */
  ghost predicate Tidy(s: Session) {
    && Increasing(s.issued) && (forall n :: n in s.issued ==> n <= s.idGen)
    && (forall n :: n in s.dispatched ==> n in s.issued)
    && (forall n :: n in s.pending ==> n in s.dispatched && s.pending[n] == s.dispatched[n])
    && DeletionsOk(s)
  }

  ghost predicate SessionOk(s: Session) {
    Tidy(s) && (s.current.None? ==> s.pending == map[])
  }

  lemma {:induction false} IssueTidy(s: Session)
    requires Tidy(s)
    ensures Tidy(SessionIssue(s)) && SessionIssue(s).idGen !in s.issued
  {
    assert forall i :: 0 <= i < |s.issued| ==> s.issued[i] in s.issued;
  }

  lemma {:induction false} MessageTidy(s: Session, m: WorkerMessage)
    requires Tidy(s)
    ensures Tidy(SessionOnMessage(s, m))
    ensures SessionOk(s) ==> SessionOk(SessionOnMessage(s, m))
  {
  }

  lemma {:induction false} DrainTidy(s: Session, ms: seq<WorkerMessage>)
    requires Tidy(s)
    ensures Tidy(SessionDrain(s, ms))
    decreases |ms|
  {
    if ms != [] {
      MessageTidy(s, ms[0]);
      DrainTidy(SessionOnMessage(s, ms[0]), ms[1..]);
    }
  }

  lemma {:induction false} BrokenOk(s: Session, ms: seq<WorkerMessage>)
    requires Tidy(s)
    ensures SessionOk(SessionBroken(s, ms))
  {
    DrainTidy(s.(current := None), ms);
  }

  lemma {:induction false} DispatchKeepsOk(s: Session, ack: PendingAck)
    requires SessionOk(s) && s.current.Some?
    ensures SessionOk(SessionDispatch(s, ack))
  {
    IssueTidy(s);
  }

  // ----- runs -----

  ghost predicate Booked(sys: System) {
    && Linked(sys)
    && (forall g :: g in sys.sessions ==> SessionOk(sys.sessions[g]))
    && (forall g :: g in sys.sessions && sys.sessions[g].current.Some? ==>
          sys.sessions[g].pending.Keys <= Held(sys, g).inHold)
  }

  lemma {:induction false} SessionAfter(sys: System, step: Step, g: Guild)
    requires Enabled(sys, step) && Booked(sys) && g in Next(sys, step).sessions
    ensures SessionOk(Next(sys, step).sessions[g])
  {
    if g in sys.sessions {
      IssueTidy(sys.sessions[g]);
    }
    match step {
      case SendDispatch(h, ack) => DispatchKeepsOk(sys.sessions[h], ack);
      case Receive(h) => MessageTidy(sys.sessions[h], Held(sys, h).outbox[0]);
      case Break(h, n, onSend) =>
        if h == g {
          BrokenOk(if onSend then SessionIssue(sys.sessions[h]) else sys.sessions[h], Held(sys, h).outbox[..n]);
        }
      case _ =>
    }
  }

  /** The hold of `g` after a step of its own. */
  lemma {:induction false} OwnHoldAfter(sys: System, step: Step, g: Guild)
    requires Enabled(sys, step) && g in sys.sessions && SessionOk(sys.sessions[g])
    requires step.Claim? || step.SendDispatch? || step.Reload? || step.RequestComplete? || step.Receive?
    requires step.g == g && Next(sys, step).sessions[g].current.Some?
    requires Holds(sys, g) ==> sys.sessions[g].pending.Keys <= Held(sys, g).inHold
    ensures Next(sys, step).sessions[g].pending.Keys <= Held(Next(sys, step), g).inHold
  {
  }

  lemma {:induction false} HoldAfterBreak(sys: System, step: Step, g: Guild)
    requires Enabled(sys, step) && Booked(sys) && step.Break?
    requires g in Next(sys, step).sessions && Next(sys, step).sessions[g].current.Some?
    ensures Holds(Next(sys, step), g) && Next(sys, step).sessions[g].pending.Keys <= Held(Next(sys, step), g).inHold
  {
    var h, s := step.g, sys.sessions[step.g];
    DrainKeepsLoose((if step.onSend then SessionIssue(s) else s).(current := None), Held(sys,
        h).outbox[..step.delivered]);
    assert g != h;
  }

  lemma {:induction false} HoldAfterOwn(sys: System, step: Step, g: Guild)
    requires Enabled(sys, step) && Booked(sys)
    requires step.EndSession? || step.AbortSession? || step.Claim? || step.ClaimFails? || step.SendDispatch?
             || step.Reload? || step.RequestComplete? || step.Receive?
    requires g in Next(sys, step).sessions && Next(sys, step).sessions[g].current.Some? && Holds(Next(sys, step), g)
    ensures Next(sys, step).sessions[g].pending.Keys <= Held(Next(sys, step), g).inHold
  {
    if step.g != g {
      assert g in sys.sessions && sys.sessions[g].current.Some?;
      hide Next, SessionOk;
    } else if step.Claim? || step.SendDispatch? || step.Reload? || step.RequestComplete? || step.Receive? {
      OwnHoldAfter(sys, step, g);
    }
  }

  lemma {:induction false} WorkerKeepsHold(w: Worker, step: Step)
    requires WorkerCan(w, step)
    ensures WorkerStep(w, step).inHold == w.inHold
  {
  }

  lemma {:induction false} HoldAfterWorker(sys: System, step: Step, g: Guild)
    requires Enabled(sys, step) && Booked(sys)
    requires step.OnMessage? || step.OnVmEvent? || step.OnVmClosed? || step.OnRuntime? || step.Take? || step.Emit?
             || step.Finish? || step.Wake? || step.Terminate? || step.Connect? || step.StartSession?
    requires g in Next(sys, step).sessions && Next(sys, step).sessions[g].current.Some? && Holds(Next(sys, step), g)
    ensures Next(sys, step).sessions[g].pending.Keys <= Held(Next(sys, step), g).inHold
  {
    hide SessionOk, WorkerStep, WorkerCan;
    if !step.Connect? && !step.StartSession? {
      WorkerKeepsHold(sys.workers[step.id], step);
    }
  }

  lemma {:induction false} HoldAfter(sys: System, step: Step, g: Guild)
    requires Enabled(sys, step) && Booked(sys)
    requires g in Next(sys, step).sessions && Next(sys, step).sessions[g].current.Some?
    ensures Holds(Next(sys, step), g)
    ensures Next(sys, step).sessions[g].pending.Keys <= Held(Next(sys, step), g).inHold
  {
    NextKeepsLinked(sys, step);
    assert Holds(Next(sys, step), g);
    hide Linked, SessionOk, Next, Booked, Enabled, Holds, Held;
    match step {
      case Claim(_, _) | SendDispatch(_, _) | Reload(_, _) | RequestComplete(_) | Receive(_) => HoldAfterOwn(sys,
          step, g);
      case EndSession(_) | AbortSession(_) | ClaimFails(_, _) => HoldAfterOwn(sys, step, g);
      case Break(_, _, _) => HoldAfterBreak(sys, step, g);
      case _ => HoldAfterWorker(sys, step, g);
    }
  }

  lemma {:induction false} NextBooked(sys: System, step: Step)
    requires Enabled(sys, step) && Booked(sys)
    ensures Booked(Next(sys, step))
  {
    NextKeepsLinked(sys, step);
    var next := Next(sys, step);
    hide SessionOk, Linked, Next;
    forall g | g in next.sessions
      ensures SessionOk(next.sessions[g])
    {
      SessionAfter(sys, step, g);
    }
    forall g | g in next.sessions && next.sessions[g].current.Some?
      ensures next.sessions[g].pending.Keys <= Held(next, g).inHold
    {
      HoldAfter(sys, step, g);
    }
  }

  lemma {:induction false} RunBooked(states: seq<System>, steps: seq<Step>, k: nat)
    requires ValidRun(states, steps) && k < |states|
    ensures Booked(states[k])
  {
    if k > 0 {
      RunBooked(states, steps, k - 1);
      NextBooked(states[k - 1], steps[k - 1]);
    }
  }

  /** In every state of every run: a session that holds no worker awaits no ack;
      every ack it awaits is for a number it dispatched to the worker it holds
      now; no number was issued twice; and each deleted task was the one
      dispatched under the number whose ack deleted it. */
  lemma {:induction false} AckBookkeeping(states: seq<System>, steps: seq<Step>, k: nat, g: Guild)
    requires ValidRun(states, steps) && k < |states| && g in states[k].sessions
    ensures var s := states[k].sessions[g];
            && (s.current.None? ==> s.pending == map[])
            && (s.current.Some? ==> Holds(states[k], g) && s.pending.Keys <= Held(states[k], g).inHold)
            && Distinct(s.issued)
            && DeletionsOk(s)
  {
    RunBooked(states, steps, k);
  }
}
