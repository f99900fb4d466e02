/**
 Isolation in the other direction: whose VM produced the messages a session reads.

 Each message on its way carries a tag naming the guild of the VM it came from (for
 the ack of CreateScriptsVm, the guild of the VM created).  What a session reads from
 a worker while it holds it comes from its own guild exactly when the worker it
 claimed carried nothing of another guild: no message, no scripts, and no VM that was
 not at rest.  The program does not ensure that, as the two runs at the end show.
 */
module Replies {
  import opened Common
  import opened Protocol
  import opened Isolation
  import opened Bookkeeping
  import opened Quiescence

  /** The origins of the messages in a worker's outbox and of its runtime events, and
      whether its VM has been told to complete. */
  datatype Tag = Tag(out: seq<Guild>, rt: seq<Guild>, told: bool)

  type Tags = map<WorkerId, Tag>

  function Tail(s: seq<Guild>): seq<Guild> { if s == [] then [] else s[1..] }

  /** What one step of a worker adds to its channels, and on whose behalf. */
  function TagStep(w: Worker, t: Tag, step: Step): Tag
    requires WorkerCan(w, step)
  {
    match step
    case OnMessage(_) =>
      (match w.inbox[0]
       case Dispatch(_, _) => t
       case CreateScriptsVm(g, _) => Tag(t.out + [g], t.rt, t.told && VmGuild(w) == Some(g))
       case Complete => t.(told := w.vm.Some?))
    case OnVmEvent(_) =>
      var vm := w.vm.value;
      var e := vm.evts[0];
      if e.guild != vm.guild then t
      else (match e.evt
            case DispatchedEvent(_) => t.(out := t.out + [vm.guild])
            case VmFinished => Tag(t.out + t.rt + [vm.guild], [], t.told)
            case VmShutdown(_) => Tag(t.out + t.rt + [vm.guild, vm.guild], [], false))
    case OnVmClosed(_) => Tag(t.out + [w.vm.value.guild], t.rt, false)
    case OnRuntime(_) => Tag(t.out + t.rt[..Min(1, |t.rt|)], Tail(t.rt), t.told)
    case Emit(_, _) => t.(rt := t.rt + [w.vm.value.guild])
    case _ => t
  }

  ghost function TagNext(sys: System, tags: Tags, step: Step): Tags
    requires Enabled(sys, step)
  {
    match step
    case Connect(id) => tags[id := Tag([], [], false)]
    case Receive(g) =>
      var id := sys.sessions[g].current.value;
      if id in tags then tags[id := tags[id].(out := Tail(tags[id].out))] else tags
    case StartSession(_) | EndSession(_) | AbortSession(_) | Claim(_, _) | ClaimFails(_, _) => tags
    case SendDispatch(_, _) | Reload(_, _) | RequestComplete(_) | Break(_, _, _) => tags
    case _ =>
      if step.id in tags then tags[step.id := TagStep(sys.workers[step.id], tags[step.id], step)] else tags
  }

  // ----- there is a tag for every message -----

  ghost predicate Matched(w: Worker, t: Tag) { |t.out| == |w.outbox| && |t.rt| == |w.runtime| }

  /** The state is one a run can reach, and worker `id` has its tags. */
  ghost predicate Sane(sys: System, tags: Tags, id: WorkerId) {
    Isolated(sys) && (id in sys.workers ==> id in tags && Matched(sys.workers[id], tags[id]))
  }

  lemma {:induction false} StepMatched(w: Worker, t: Tag, step: Step)
    requires Matched(w, t) && WorkerCan(w, step)
    ensures Matched(WorkerStep(w, step), TagStep(w, t, step))
  {
  }

  /** A step that does not concern a worker leaves its tags alone. */
  lemma {:induction false} TagsAlone(sys: System, tags: Tags, step: Step, id: WorkerId)
    requires Enabled(sys, step) && !Concerns(sys, step, id) && id in tags
    ensures id in TagNext(sys, tags, step) && TagNext(sys, tags, step)[id] == tags[id]
  {
    hide TagStep;
  }

  lemma {:induction false} NextSane(sys: System, tags: Tags, step: Step, id: WorkerId)
    requires Enabled(sys, step) && Sane(sys, tags, id)
    ensures Sane(Next(sys, step), TagNext(sys, tags, step), id)
  {
    NextIsolated(sys, step);
    hide Isolated, WorkerIsolated;
    if id in Next(sys, step).workers {
      if !Concerns(sys, step, id) {
        IsolatedIsLinked(sys);
        LeftAlone(sys, step, id);
        TagsAlone(sys, tags, step, id);
        hide Next, TagNext;
      } else {
        ConcernedMatched(sys, tags, step, id);
      }
    }
  }

  lemma {:induction false} IsolatedIsLinked(sys: System)
    requires Isolated(sys)
    ensures Linked(sys)
  {
  }

  lemma {:induction false} ConcernedMatched(sys: System, tags: Tags, step: Step, id: WorkerId)
    requires Enabled(sys, step) && Concerns(sys, step, id) && id in Next(sys, step).workers
    requires id in sys.workers ==> id in tags && Matched(sys.workers[id], tags[id])
    ensures id in TagNext(sys, tags, step)
    ensures Matched(Next(sys, step).workers[id], TagNext(sys, tags, step)[id])
  {
    if Mover(step).None? && !step.Connect? {
      StepMatched(sys.workers[id], tags[id], step);
      hide WorkerStep, TagStep, Matched;
    } else {
      hide WorkerStep, TagStep, SessionOnMessage, SessionBroken, SessionReload;
    }
  }

  // ----- the condition -----

  ghost predicate AllFrom(s: seq<Guild>, g: Guild) { forall i :: 0 <= i < |s| ==> s[i] == g }

  ghost predicate CreatesFor(q: seq<SchedulerMessage>, g: Guild) {
    forall i :: 0 <= i < |q| && q[i].CreateScriptsVm? ==> q[i].guild == g
  }

  ghost predicate AtRest(vm: Vm) { vm.phase.Idle? && vm.cmds == [] && vm.evts == [] }

  ghost predicate ForeignVm(w: Worker, h: Guild) { w.vm.Some? && w.vm.value.guild != h }

  /** The worker carries nothing of another guild: every message and every script on
      the way is `h`'s, and a VM of another guild is at rest, has not been told to
      complete, and will be replaced before it is handed anything. */
  ghost predicate CarriesOnly(w: Worker, t: Tag, h: Guild) {
    && AllFrom(t.out, h) && AllFrom(t.rt, h) && CreatesFor(w.inbox, h)
    && (ForeignVm(w, h) ==> AtRest(w.vm.value) && !t.told && (w.inbox == [] || w.inbox[0].CreateScriptsVm?))
  }

  /** The same while `h` holds the worker: its scripts are then on the way. */
  ghost predicate HeldOnly(w: Worker, t: Tag, h: Guild) {
    CarriesOnly(w, t, h) && (ForeignVm(w, h) ==> w.inbox != [])
  }

  /** A VM of another guild that is at rest, and not told to complete, is neither woken
      nor terminated: nothing runs in it. */
  ghost predicate Undisturbed(sys: System, tags: Tags, step: Step, h: Guild) {
    (step.Wake? || step.Terminate?) && step.id in sys.workers && step.id in tags ==>
      var w := sys.workers[step.id];
      ForeignVm(w, h) && AtRest(w.vm.value) ==> tags[step.id].told
  }

  ghost predicate Kept(sys: System, h: Guild, id: WorkerId) {
    id in sys.workers && sys.workers[id].holder == Some(h)
  }

  // ----- it is kept as long as the hold lasts -----

  lemma {:induction false} ClaimHolds(w: Worker, t: Tag, h: Guild, s: Session)
    requires WorkerIsolated(w) && CarriesOnly(w, t, h)
    ensures HeldOnly(ClaimWorker(w, h, s), t, h)
  {
    if ForeignVm(w, h) && w.inbox == [] {
      assert FinalGuild(VmGuild(w), w.inbox) == VmGuild(w);
    }
    hide WorkerIsolated, FinalGuild, Routed;
  }

  lemma {:induction false} OwnStepHolds(w: Worker, t: Tag, h: Guild, step: Step)
    requires HeldOnly(w, t, h) && WorkerCan(w, step)
    requires (step.Wake? || step.Terminate?) && ForeignVm(w, h) && AtRest(w.vm.value) ==> t.told
    ensures HeldOnly(WorkerStep(w, step), TagStep(w, t, step), h)
  {
  }

  lemma {:induction false} SendHolds(w: Worker, t: Tag, h: Guild, m: SchedulerMessage)
    requires HeldOnly(w, t, h) && (m.CreateScriptsVm? ==> m.guild == h)
    ensures HeldOnly(w.(inbox := w.inbox + [m]), t, h)
  {
  }

  lemma {:induction false} HolderStepHolds(sys: System, tags: Tags, step: Step, h: Guild, id: WorkerId)
    requires Linked(sys) && Enabled(sys, step) && Concerns(sys, step, id) && Mover(step).Some?
    requires Kept(sys, h, id) && Kept(Next(sys, step), h, id) && id in tags && HeldOnly(sys.workers[id], tags[id], h)
    ensures id in TagNext(sys, tags, step) && HeldOnly(Next(sys, step).workers[id], TagNext(sys, tags, step)[id], h)
  {
    var w, t := sys.workers[id], tags[id];
    var n := sys.sessions[h].idGen + 1;
    assert Mover(step) == Some(h) && sys.sessions[h].current == Some(id);
    SendHolds(w, t, h, Dispatch(h, n));
    SendHolds(w, t, h, CreateScriptsVm(h, n));
    SendHolds(w, t, h, Complete);
    hide Linked, SessionOnMessage, SessionBroken, SessionDispatch;
  }

  lemma {:induction false} NextHolds(sys: System, tags: Tags, step: Step, h: Guild, id: WorkerId)
    requires Linked(sys) && Enabled(sys, step) && Undisturbed(sys, tags, step, h)
    requires Kept(sys, h, id) && Kept(Next(sys, step), h, id) && id in tags && HeldOnly(sys.workers[id], tags[id], h)
    ensures id in TagNext(sys, tags, step) && HeldOnly(Next(sys, step).workers[id], TagNext(sys, tags, step)[id], h)
  {
    if !Concerns(sys, step, id) {
      LeftAlone(sys, step, id);
      TagsAlone(sys, tags, step, id);
      hide Next, TagNext, HeldOnly;
    } else if Mover(step).Some? {
      HolderStepHolds(sys, tags, step, h, id);
    } else if !step.Connect? {
      OwnStepHolds(sys.workers[id], tags[id], h, step);
      hide WorkerStep, TagStep, HeldOnly;
    }
  }

  // ----- runs within a hold -----

  /** `steps` lead from one state to another while `h` holds worker `id`. */
  ghost predicate HoldRun(
    sys: System, tags: Tags, steps: seq<Step>, h: Guild, id: WorkerId, sys2: System, tags2: Tags)
    decreases |steps|
  {
    && Kept(sys, h, id)
    && if steps == [] then sys == sys2 && tags == tags2
       else
         && Enabled(sys, steps[0]) && Undisturbed(sys, tags, steps[0], h)
         && HoldRun(Next(sys, steps[0]), TagNext(sys, tags, steps[0]), steps[1..], h, id, sys2, tags2)
  }

  /** The next message `h` reads from the worker is another guild's. */
  ghost predicate ForeignNext(sys: System, tags: Tags, h: Guild, id: WorkerId) {
    Kept(sys, h, id) && id in tags && sys.workers[id].outbox != [] && tags[id].out != [] && tags[id].out[0] != h
  }

  /** Within this hold `h` can come to read a message of another guild. */
  ghost predicate CanReadForeign(sys: System, tags: Tags, h: Guild, id: WorkerId) {
    exists steps, sys2, tags2 :: HoldRun(sys, tags, steps, h, id, sys2, tags2) && ForeignNext(sys2, tags2, h, id)
  }

  lemma {:induction false} HoldRunHolds(
    sys: System, tags: Tags, steps: seq<Step>, h: Guild, id: WorkerId, sys2: System, tags2: Tags)
    requires Isolated(sys) && id in tags && Kept(sys, h, id) && HeldOnly(sys.workers[id], tags[id], h)
    requires HoldRun(sys, tags, steps, h, id, sys2, tags2)
    ensures Kept(sys2, h, id) && id in tags2 && HeldOnly(sys2.workers[id], tags2[id], h)
    decreases |steps|
  {
    if steps != [] {
      NextIsolated(sys, steps[0]);
      IsolatedIsLinked(sys);
      hide Isolated, HeldOnly, Enabled, Next, TagNext, Undisturbed;
      assert Kept(Next(sys, steps[0]), h, id);
      NextHolds(sys, tags, steps[0], h, id);
      HoldRunHolds(Next(sys, steps[0]), TagNext(sys, tags, steps[0]), steps[1..], h, id, sys2, tags2);
    }
  }

  // ----- without the condition a foreign message can be read -----

  lemma {:induction false} Then(sys: System, tags: Tags, step: Step, h: Guild, id: WorkerId)
    requires Kept(sys, h, id) && Enabled(sys, step) && Undisturbed(sys, tags, step, h)
    requires CanReadForeign(Next(sys, step), TagNext(sys, tags, step), h, id)
    ensures CanReadForeign(sys, tags, h, id)
  {
    var steps, sys2, tags2 :|
      HoldRun(Next(sys, step), TagNext(sys, tags, step), steps, h, id, sys2, tags2) && ForeignNext(sys2, tags2, h, id);
    hide Next, TagNext, Enabled, Undisturbed, ForeignNext;
    assert ([step] + steps)[1..] == steps;
    assert HoldRun(sys, tags, [step] + steps, h, id, sys2, tags2);
  }

  /** The holder can keep the worker by dispatching before it reads. */
  lemma {:induction false} DispatchThenRead(sys: System, tags: Tags, h: Guild, id: WorkerId)
    requires Sane(sys, tags, id) && Kept(sys, h, id) && tags[id].out != []
    ensures var step := SendDispatch(h, BrokerDispatch);
      && Enabled(sys, step) && Kept(Next(sys, step), h, id) && TagNext(sys, tags, step) == tags
      && Enabled(Next(sys, step), Receive(h)) && Kept(Next(Next(sys, step), Receive(h)), h, id)
      && TagNext(Next(sys, step), tags, Receive(h)) == tags[id := tags[id].(out := tags[id].out[1..])]
  {
    assert Holds(sys, h) && sys.sessions[h].current == Some(id);
    hide Isolated, Linked, WorkerIsolated;
    var mid := Next(sys, SendDispatch(h, BrokerDispatch));
    assert mid.sessions[h].pending != map[] by { assert mid.sessions[h].idGen in mid.sessions[h].pending; }
  }

  lemma {:induction false} ForeignMessage(sys: System, tags: Tags, h: Guild, id: WorkerId)
    requires Sane(sys, tags, id) && Kept(sys, h, id) && !AllFrom(tags[id].out, h)
    ensures CanReadForeign(sys, tags, h, id)
    decreases |tags[id].out|
  {
    if tags[id].out[0] != h {
      assert HoldRun(sys, tags, [], h, id, sys, tags) && ForeignNext(sys, tags, h, id);
    } else {
      var step := SendDispatch(h, BrokerDispatch);
      DispatchThenRead(sys, tags, h, id);
      NextSane(sys, tags, step, id);
      NextSane(Next(sys, step), tags, Receive(h), id);
      var i :| 0 <= i < |tags[id].out| && tags[id].out[i] != h;
      assert tags[id].out[1..][i - 1] != h;
      hide Next, TagNext, Enabled, Sane, CanReadForeign;
      ForeignMessage(Next(Next(sys, step), Receive(h)), TagNext(Next(sys, step), tags, Receive(h)), h, id);
      Then(Next(sys, step), tags, Receive(h), h, id);
      Then(sys, tags, step, h, id);
    }
  }

  /** One step of the held worker itself. */
  lemma {:induction false} OwnStep(sys: System, tags: Tags, h: Guild, id: WorkerId, step: Step)
    requires Sane(sys, tags, id) && Kept(sys, h, id) && WorkerCan(sys.workers[id], step) && step.id == id
    ensures Enabled(sys, step) && Kept(Next(sys, step), h, id)
    ensures Next(sys, step).workers[id] == WorkerStep(sys.workers[id], step)
    ensures id in TagNext(sys, tags, step) && TagNext(sys, tags, step)[id] == TagStep(sys.workers[id], tags[id], step)
    ensures Sane(Next(sys, step), TagNext(sys, tags, step), id)
  {
    NextSane(sys, tags, step, id);
    assert WorkerStep(sys.workers[id], step).holder == sys.workers[id].holder;
    hide Sane, WorkerStep, TagStep;
  }

  lemma {:induction false} ForeignRuntime(sys: System, tags: Tags, h: Guild, id: WorkerId)
    requires Sane(sys, tags, id) && Kept(sys, h, id) && !AllFrom(tags[id].rt, h)
    ensures CanReadForeign(sys, tags, h, id)
    decreases |tags[id].rt|
  {
    var step, t := OnRuntime(id), tags[id];
    assert WorkerCan(sys.workers[id], step);
    OwnStep(sys, tags, h, id, step);
    var i :| 0 <= i < |t.rt| && t.rt[i] != h;
    if i == 0 {
      assert (t.out + t.rt[..1])[|t.out|] != h;
    } else {
      assert Tail(t.rt)[i - 1] != h;
    }
    hide Next, TagNext, Enabled, Sane, CanReadForeign;
    if i == 0 {
      ForeignMessage(Next(sys, step), TagNext(sys, tags, step), h, id);
    } else {
      ForeignRuntime(Next(sys, step), TagNext(sys, tags, step), h, id);
    }
    Then(sys, tags, step, h, id);
  }

  lemma {:induction false} ForeignScripts(sys: System, tags: Tags, h: Guild, id: WorkerId)
    requires Sane(sys, tags, id) && Kept(sys, h, id) && !CreatesFor(sys.workers[id].inbox, h)
    ensures CanReadForeign(sys, tags, h, id)
    decreases |sys.workers[id].inbox|
  {
    var step, w, t := OnMessage(id), sys.workers[id], tags[id];
    OwnStep(sys, tags, h, id, step);
    var i :| 0 <= i < |w.inbox| && w.inbox[i].CreateScriptsVm? && w.inbox[i].guild != h;
    if i == 0 {
      assert TagStep(w, t, step).out[|t.out|] != h;
    } else {
      assert WorkerStep(w, step).inbox == w.inbox[1..] && w.inbox[1..][i - 1] == w.inbox[i];
    }
    hide Next, TagNext, Enabled, Sane, CanReadForeign;
    if i == 0 {
      ForeignMessage(Next(sys, step), TagNext(sys, tags, step), h, id);
    } else {
      ForeignScripts(Next(sys, step), TagNext(sys, tags, step), h, id);
    }
    Then(sys, tags, step, h, id);
  }

  /** A VM of another guild that has spoken. */
  lemma {:induction false} ForeignEvent(sys: System, tags: Tags, h: Guild, id: WorkerId)
    requires Sane(sys, tags, id) && Kept(sys, h, id) && ForeignVm(sys.workers[id], h)
    requires sys.workers[id].vm.value.evts != [] || sys.workers[id].vm.value.phase.Terminated?
    ensures CanReadForeign(sys, tags, h, id)
  {
    var w, t := sys.workers[id], tags[id];
    var step := if w.vm.value.evts != [] then OnVmEvent(id) else OnVmClosed(id);
    OwnStep(sys, tags, h, id, step);
    SpeaksForeign(w, t, h, step);
    hide Next, TagNext, Enabled, Sane, CanReadForeign;
    ForeignMessage(Next(sys, step), TagNext(sys, tags, step), h, id);
    Then(sys, tags, step, h, id);
  }

  lemma {:induction false} SpeaksForeign(w: Worker, t: Tag, h: Guild, step: Step)
    requires WorkerIsolated(w) && ForeignVm(w, h) && WorkerCan(w, step) && (step.OnVmEvent? || step.OnVmClosed?)
    ensures !AllFrom(TagStep(w, t, step).out, h)
  {
    var out := TagStep(w, t, step).out;
    assert out[|out| - 1] == w.vm.value.guild;
  }

  lemma {:induction false} ForeignBusy(sys: System, tags: Tags, h: Guild, id: WorkerId)
    requires Sane(sys, tags, id) && Kept(sys, h, id) && ForeignVm(sys.workers[id], h)
    requires sys.workers[id].vm.value.phase.Busy?
    ensures CanReadForeign(sys, tags, h, id)
  {
    OwnStep(sys, tags, h, id, Finish(id));
    hide Next, TagNext, Enabled, Sane, CanReadForeign;
    ForeignEvent(Next(sys, Finish(id)), TagNext(sys, tags, Finish(id)), h, id);
    Then(sys, tags, Finish(id), h, id);
  }

  /** A VM of another guild that was told something. */
  lemma {:induction false} ForeignCommanded(sys: System, tags: Tags, h: Guild, id: WorkerId)
    requires Sane(sys, tags, id) && Kept(sys, h, id) && ForeignVm(sys.workers[id], h)
    requires !AtRest(sys.workers[id].vm.value) || tags[id].told
    ensures CanReadForeign(sys, tags, h, id)
  {
    var vm := sys.workers[id].vm.value;
    if vm.evts != [] || vm.phase.Terminated? {
      ForeignEvent(sys, tags, h, id);
    } else if vm.phase.Busy? {
      ForeignBusy(sys, tags, h, id);
    } else {
      var step := if vm.cmds != [] then Take(id) else Terminate(id, Some(Other));
      OwnStep(sys, tags, h, id, step);
      hide Next, TagNext, Enabled, Sane, CanReadForeign;
      if vm.cmds != [] && vm.cmds[0].Restart? {
        ForeignBusy(Next(sys, step), TagNext(sys, tags, step), h, id);
      } else {
        ForeignEvent(Next(sys, step), TagNext(sys, tags, step), h, id);
      }
      Then(sys, tags, step, h, id);
    }
  }

  /** A VM of another guild that is about to be told something. */
  lemma {:induction false} ForeignAddressed(sys: System, tags: Tags, h: Guild, id: WorkerId)
    requires Sane(sys, tags, id) && Kept(sys, h, id) && ForeignVm(sys.workers[id], h)
    requires sys.workers[id].inbox != [] && !sys.workers[id].inbox[0].CreateScriptsVm?
    ensures CanReadForeign(sys, tags, h, id)
  {
    OwnStep(sys, tags, h, id, OnMessage(id));
    hide Next, TagNext, Enabled, Sane, CanReadForeign;
    ForeignCommanded(Next(sys, OnMessage(id)), TagNext(sys, tags, OnMessage(id)), h, id);
    Then(sys, tags, OnMessage(id), h, id);
  }

  lemma {:induction false} CarriesForeign(sys: System, tags: Tags, h: Guild, id: WorkerId)
    requires Sane(sys, tags, id) && Kept(sys, h, id)
    requires !CarriesOnly(sys.workers[id], tags[id], h)
    ensures CanReadForeign(sys, tags, h, id)
  {
    var w, t := sys.workers[id], tags[id];
    hide Sane, CanReadForeign, Kept;
    if !AllFrom(t.out, h) {
      ForeignMessage(sys, tags, h, id);
    } else if !AllFrom(t.rt, h) {
      ForeignRuntime(sys, tags, h, id);
    } else if !CreatesFor(w.inbox, h) {
      ForeignScripts(sys, tags, h, id);
    } else if !AtRest(w.vm.value) || t.told {
      ForeignCommanded(sys, tags, h, id);
    } else {
      ForeignAddressed(sys, tags, h, id);
    }
  }

  /** What a worker carries is not changed by claiming it. */
  lemma {:induction false} ClaimCarries(w: Worker, t: Tag, h: Guild, s: Session)
    requires CarriesOnly(ClaimWorker(w, h, s), t, h)
    ensures CarriesOnly(w, t, h)
  {
    var v := ClaimWorker(w, h, s);
    assert forall i :: 0 <= i < |w.inbox| ==> v.inbox[i] == w.inbox[i];
  }

  // ----- the theorems -----

  ghost predicate TaggedRun(states: seq<System>, tags: seq<Tags>, steps: seq<Step>) {
    && ValidRun(states, steps) && |tags| == |states| && tags[0] == map[]
    && forall i :: 0 <= i < |steps| ==> tags[i + 1] == TagNext(states[i], tags[i], steps[i])
  }

  lemma {:induction false} RunSane(states: seq<System>, tags: seq<Tags>, steps: seq<Step>, k: nat, id: WorkerId)
    requires TaggedRun(states, tags, steps) && k < |states|
    ensures Sane(states[k], tags[k], id)
  {
    if k == 0 {
      RunIsolated(states, steps, 0);
    } else {
      RunSane(states, tags, steps, k - 1, id);
      NextSane(states[k - 1], tags[k - 1], steps[k - 1], id);
    }
  }

  /** In every run, of every claim: the session can come to read a message of another
      guild from the worker it claims exactly when that worker carries something of
      another guild.  Reloads and shutdowns within the hold make no difference. */
  lemma {:induction false} ForeignRepliesExactly(
    states: seq<System>, tags: seq<Tags>, steps: seq<Step>, k: nat, h: Guild, id: WorkerId)
    requires TaggedRun(states, tags, steps) && k < |states| && Enabled(states[k], Claim(h, id))
    ensures id in tags[k]
    ensures CanReadForeign(Next(states[k], Claim(h, id)), tags[k], h, id)
       <==> !CarriesOnly(states[k].workers[id], tags[k][id], h)
  {
    var sys, s, w, t := states[k], states[k].sessions[h], states[k].workers[id], tags[k];
    var next := Next(sys, Claim(h, id));
    RunSane(states, tags, steps, k, id);
    NextSane(sys, t, Claim(h, id), id);
    assert TagNext(sys, t, Claim(h, id)) == t && next.workers[id] == ClaimWorker(w, h, s) && Kept(next, h, id);
    assert WorkerIsolated(w) && Isolated(next);
    hide TaggedRun, WorkerIsolated, Isolated, Next, Enabled;
    if CarriesOnly(w, t[id], h) {
      ClaimHolds(w, t[id], h, s);
      forall steps', sys2, tags2 | HoldRun(next, t, steps', h, id, sys2, tags2)
        ensures !ForeignNext(sys2, tags2, h, id)
      {
        HoldRunHolds(next, t, steps', h, id, sys2, tags2);
      }
    } else {
      if CarriesOnly(next.workers[id], t[id], h) { ClaimCarries(w, t[id], h, s); }
      CarriesForeign(next, t, h, id);
    }
  }

  /** `h` holds the worker, and all that is on its way is `h`'s. */
  ghost predicate OwnHold(sys: System, tags: Tags, h: Guild, id: WorkerId) {
    Kept(sys, h, id) && id in tags && HeldOnly(sys.workers[id], tags[id], h)
  }

  lemma {:induction false} ClaimOwn(sys: System, tags: Tags, h: Guild, id: WorkerId)
    requires Isolated(sys) && Enabled(sys, Claim(h, id))
    requires id in tags && CarriesOnly(sys.workers[id], tags[id], h)
    ensures OwnHold(Next(sys, Claim(h, id)), TagNext(sys, tags, Claim(h, id)), h, id)
  {
    ClaimHolds(sys.workers[id], tags[id], h, sys.sessions[h]);
    hide Isolated, CarriesOnly, HeldOnly;
  }

  lemma {:induction false} NextOwn(sys: System, tags: Tags, step: Step, h: Guild, id: WorkerId)
    requires Isolated(sys) && Enabled(sys, step) && Undisturbed(sys, tags, step, h)
    requires OwnHold(sys, tags, h, id) && Kept(Next(sys, step), h, id)
    ensures OwnHold(Next(sys, step), TagNext(sys, tags, step), h, id)
  {
    IsolatedIsLinked(sys);
    NextHolds(sys, tags, step, h, id);
  }

  /** As long as a hold that began so lasts, whatever is still to be read is the
      holder's own. */
  lemma {:induction false} RepliesAreOwn(
    states: seq<System>, tags: seq<Tags>, steps: seq<Step>, c: nat, k: nat, h: Guild, id: WorkerId)
    requires TaggedRun(states, tags, steps) && c < k < |states| && steps[c] == Claim(h, id)
    requires id in tags[c] && CarriesOnly(states[c].workers[id], tags[c][id], h)
    requires forall i :: c < i <= k ==> Kept(states[i], h, id)
    requires forall i :: c < i < k ==> Undisturbed(states[i], tags[i], steps[i], h)
    ensures OwnHold(states[k], tags[k], h, id)
  {
    var n := k - 1;
    RunIsolated(states, steps, n);
    assert Enabled(states[n], steps[n]) && states[k] == Next(states[n], steps[n]);
    assert tags[k] == TagNext(states[n], tags[n], steps[n]) && Kept(states[k], h, id);
    if n == c {
      hide TaggedRun, ValidRun, Isolated, CarriesOnly, Next, TagNext, Enabled, Kept;
      ClaimOwn(states[c], tags[c], h, id);
    } else {
      assert Undisturbed(states[n], tags[n], steps[n], h);
      hide Isolated, Undisturbed, CarriesOnly, Next, TagNext, Enabled, Kept, OwnHold;
      RepliesAreOwn(states, tags, steps, c, n, h, id);
      NextOwn(states[n], tags[n], steps[n], h, id);
    }
  }

  lemma {:induction false} NextUntold(sys: System, tags: Tags, step: Step, id: WorkerId)
    requires Linked(sys) && WorkerOk(sys, id) && Enabled(sys, step) && id in Next(sys, step).workers
    requires id in sys.workers ==> id in tags && !tags[id].told
    ensures id in TagNext(sys, tags, step) && !TagNext(sys, tags, step)[id].told
  {
    if !Concerns(sys, step, id) {
      hide WorkerOk;
      LeftAlone(sys, step, id);
      TagsAlone(sys, tags, step, id);
    } else if Mover(step).None? && !step.Connect? {
      StaysUntold(sys, tags, step, id);
    } else {
      hide WorkerOk, Linked;
    }
  }

  lemma {:induction false} SteadyBounds(states: seq<System>, steps: seq<Step>, b: nat, k: nat, id: WorkerId)
    requires SteadySince(states, steps, b, k, id)
    ensures b <= k < |states|
  {
  }

  lemma {:induction false} LastTags(states: seq<System>, tags: seq<Tags>, steps: seq<Step>, k: nat)
    requires TaggedRun(states, tags, steps) && 0 < k < |states|
    ensures |tags| == |states| == |steps| + 1 && Enabled(states[k - 1], steps[k - 1])
    ensures tags[k] == TagNext(states[k - 1], tags[k - 1], steps[k - 1])
  {
    hide Enabled, TagNext, Next;
    assert k == (k - 1) + 1;
  }

  lemma {:induction false} NeverTold(
    states: seq<System>, tags: seq<Tags>, steps: seq<Step>, b: nat, k: nat, id: WorkerId)
    requires TaggedRun(states, tags, steps) && SteadySince(states, steps, b, k, id) && id in states[k].workers
    requires id in states[b].workers ==> id in tags[b] && !tags[b][id].told
    ensures id in tags[k] && !tags[k][id].told
  {
    hide TaggedRun, SteadySince, ValidRun, WorkerOk, Booked, Steady, Linked, Next, TagNext, Enabled;
    SteadyBounds(states, steps, b, k, id);
    if b < k {
      SteadyShorter(states, steps, b, k, id);
      LastTags(states, tags, steps, k);
      RunOk(states, steps, b, k - 1, id);
      if id in states[k - 1].workers { NeverTold(states, tags, steps, b, k - 1, id); }
      NextUntold(states[k - 1], tags[k - 1], steps[k - 1], id);
    }
  }

  /** A worker in order handles no Complete. */
  lemma {:induction false} StaysUntold(sys: System, tags: Tags, step: Step, id: WorkerId)
    requires WorkerOk(sys, id) && Enabled(sys, step) && Mover(step).None? && !step.Connect? && step.id == id
    requires id in tags && !tags[id].told
    ensures id in TagNext(sys, tags, step) && !TagNext(sys, tags, step)[id].told
  {
    var w := sys.workers[id];
    if step.OnMessage? {
      assert !w.inbox[0].Complete?;
    }
    hide WorkerOk, WorkerStep, Next;
  }

  /** A worker that was steady since it was last settled carries nothing when it is
      free, whoever claims it. */
  lemma {:induction false} SteadyWorkerCarriesNothing(
    states: seq<System>, tags: seq<Tags>, steps: seq<Step>, b: nat, k: nat, h: Guild, id: WorkerId)
    requires TaggedRun(states, tags, steps) && SteadySince(states, steps, b, k, id)
    requires id in states[b].workers ==> id in tags[b] && !tags[b][id].told
    requires Enabled(states[k], Claim(h, id))
    ensures id in tags[k] && CarriesOnly(states[k].workers[id], tags[k][id], h)
  {
    RunSane(states, tags, steps, k, id);
    RunOk(states, steps, b, k, id);
    NeverTold(states, tags, steps, b, k, id);
    assert FreeOk(states[k].workers[id]);
  }

  // ----- the program does not ensure it -----

  function Two(id: WorkerId, w: Worker, g: Guild, s: Session, h: Guild, r: Session): System {
    System(map[id := w], map[g := s, h := r])
  }

  /** A second session starts and claims the worker that `g` has just given back. */
  lemma {:induction false} NextGuildClaims(g: Guild, h: Guild, id: WorkerId, w: Worker, s: Session)
    requires g != h && Reachable(Pair(id, w, g, s)) && w.holder.None? && w.lastActive != Some(h)
    ensures Reachable(Two(id, ClaimWorker(w, h, FRESH_SESSION), g, s, h, LoadingSession(id)))
  {
    var s1 := Two(id, w, g, s, h, FRESH_SESSION);
    Reaches(Pair(id, w, g, s), StartSession(h), s1);
    assert SessionClaim(FRESH_SESSION, id, true) == LoadingSession(id);
    Reaches(s1, Claim(h, id), Two(id, ClaimWorker(w, h, FRESH_SESSION), g, s, h, LoadingSession(id)));
  }

  /** The worker after a reload that outlived its hold. */
  function ReloadedWorker(g: Guild): Worker {
    DoneWorker(g).(outbox := [Ack(3)], vm := Some(Vm(g, [Restart], [], Idle)), holder := None)
  }

  lemma {:induction false} ReloadOutlivesHold(g: Guild, id: WorkerId)
    ensures Reachable(Pair(id, ReloadedWorker(g), g, SessionIssue(LoadingSession(id)).(current := None)))
  {
    DoneReachable(g, id);
    var w0, s0 := DoneWorker(g), LoadingSession(id);
    var w1, s1 := ReloadTo(w0, g, 3), SessionIssue(s0);
    Reaches(Pair(id, w0, g, s0), Reload(g, true), Pair(id, w1, g, s1));
    ReloadReturned(g, id, w1, s1);
  }

  lemma {:induction false} ReloadReturned(g: Guild, id: WorkerId, w: Worker, s: Session)
    requires Reachable(Pair(id, w, g, s)) && w == DoneWorker(g).(inbox := [CreateScriptsVm(g, 3)])
    requires s.current == Some(id) && s.pending == map[]
    ensures Reachable(Pair(id, ReloadedWorker(g), g, s.(current := None)))
  {
    hide Reachable, Pair;
    ReadReaches(g, id, w, s);
    var w1 := w.(outbox := [NonePending]);
    assert SessionOnMessage(s, Ack(2)) == s && ReadFrom(w, false) == w1;
    ReadReaches(g, id, w1, s);
    var w2 := w.(outbox := [], holder := None);
    assert ReadFrom(w1, true) == w2;
    WorkerReaches(g, id, w2, s.(current := None), OnMessage(id));
    assert w2.vm.value.cmds + [Restart] == [Restart] && w2.inbox[1..] == [] && w2.outbox + [Ack(3)] == [Ack(3)];
    assert WorkerOnMessage(w2) == ReloadedWorker(g);
  }

  /** The ack of that reload carries a number the next guild's session uses for a task
      of its own: the task is deleted although its event is still unread and no VM has
      taken anything. */
  lemma {:induction false} ForeignAckDeletesTask(g: Guild, h: Guild, id: WorkerId, task: nat)
    requires g != h
    ensures exists sys ::
              && Reachable(sys) && Holds(sys, h) && sys.sessions[h].deletions == [Deletion(3, task)]
              && Held(sys, h).inbox == [CreateScriptsVm(h, 2), Dispatch(h, 3)] && Held(sys, h).taken == []
  {
    var s := SessionIssue(LoadingSession(id)).(current := None);
    ReloadOutlivesHold(g, id);
    NextGuildClaims(g, h, id, ReloadedWorker(g), s);
    var w1, r1 := ClaimWorker(ReloadedWorker(g), h, FRESH_SESSION), LoadingSession(id);
    var w2, r2 := DispatchTo(w1, h, 3), SessionDispatch(r1, ScheduledTask(task));
    assert w2.inbox == [CreateScriptsVm(h, 2), Dispatch(h, 3)];
    Reaches(Two(id, w1, g, s, h, r1), SendDispatch(h, ScheduledTask(task)), Two(id, w2, g, s, h, r2));
    TaskDeleted(g, s, h, id, w2, r2, task);
  }

  lemma {:induction false} TaskDeleted(
    g: Guild, s: Session, h: Guild, id: WorkerId, w: Worker, r: Session, task: nat)
    requires g != h && Reachable(Two(id, w, g, s, h, r)) && r.current == Some(id) && r.deletions == []
    requires r.pending == map[3 := ScheduledTask(task)] && w.outbox == [Ack(3)] && w.taken == []
    requires w.inbox == [CreateScriptsVm(h, 2), Dispatch(h, 3)]
    ensures exists sys ::
              && Reachable(sys) && Holds(sys, h) && sys.sessions[h].deletions == [Deletion(3, task)]
              && Held(sys, h).inbox == [CreateScriptsVm(h, 2), Dispatch(h, 3)] && Held(sys, h).taken == []
  {
    var w2, r2 := ReadFrom(w, false), SessionOnMessage(r, Ack(3));
    Reaches(Two(id, w, g, s, h, r), Receive(h), Two(id, w2, g, s, h, r2));
    assert r2.deletions == [Deletion(3, task)] && Holds(Two(id, w2, g, s, h, r2), h);
  }

  /** A session shutdown that outlives its hold ends the next guild's session: the VM
      told to complete reports its shutdown to the guild that has claimed the worker,
      whose own scripts are still unread. */
  lemma {:induction false} ForeignShutdownIsRead(g: Guild, h: Guild, id: WorkerId)
    requires g != h
    ensures exists sys ::
              && Reachable(sys) && Holds(sys, h) && Held(sys, h).outbox == [Shutdown(Other), NonePending]
              && Held(sys, h).inbox == [CreateScriptsVm(h, 2)] && Held(sys, h).taken == []
  {
    DoneReachable(g, id);
    var w0, s0 := DoneWorker(g), LoadingSession(id);
    var w1 := w0.(inbox := [Complete]);
    assert w0.inbox + [Complete] == [Complete];
    Reaches(Pair(id, w0, g, s0), RequestComplete(g), Pair(id, w1, g, s0));
    hide Reachable, Pair, Two;
    ReadReaches(g, id, w1, s0);
    var w2 := ReadFrom(w1, false);
    assert w2.outbox == [NonePending];
    ReadReaches(g, id, w2, s0);
    var w3, s := ReadFrom(w2, true), s0.(current := None);
    NextGuildClaims(g, h, id, w3, s);
    ToldVmReports(g, h, id, ClaimWorker(w3, h, FRESH_SESSION), s);
  }

  lemma {:induction false} ToldVmReports(g: Guild, h: Guild, id: WorkerId, w: Worker, s: Session)
    requires g != h && Reachable(Two(id, w, g, s, h, LoadingSession(id)))
    requires w.inbox == [Complete, CreateScriptsVm(h, 2)] && w.outbox == [] && w.runtime == [] && w.taken == []
    requires w.vm == Some(Vm(g, [], [], Idle)) && w.holder == Some(h)
    ensures exists sys ::
              && Reachable(sys) && Holds(sys, h) && Held(sys, h).outbox == [Shutdown(Other), NonePending]
              && Held(sys, h).inbox == [CreateScriptsVm(h, 2)] && Held(sys, h).taken == []
  {
    var r := LoadingSession(id);
    hide Reachable;
    SecondReaches(id, w, g, s, h, r, OnMessage(id));
    var w1 := WorkerOnMessage(w);
    SecondReaches(id, w1, g, s, h, r, Terminate(id, Some(Other)));
    var w2 := VmTerminate(w1, Some(Other));
    SecondReaches(id, w2, g, s, h, r, OnVmEvent(id));
    var w3 := WorkerOnVmEvent(w2);
    assert w3.outbox == [Shutdown(Other), NonePending] && w3.inbox == [CreateScriptsVm(h, 2)];
    assert Holds(Two(id, w3, g, s, h, r), h);
  }

  lemma {:induction false} SecondReaches(
    id: WorkerId, w: Worker, g: Guild, s: Session, h: Guild, r: Session, step: Step)
    requires Reachable(Two(id, w, g, s, h, r)) && WorkerCan(w, step) && step.id == id
    ensures Reachable(Two(id, WorkerStep(w, step), g, s, h, r))
  {
    Reaches(Two(id, w, g, s, h, r), step, Two(id, WorkerStep(w, step), g, s, h, r));
  }
}
