/**
 The session object's retry loops are runs of the protocol: whatever the pool offers
 and however many workers break, claiming, dispatching and loading scripts take the
 protocol's steps, and what the object writes is what the workers' inboxes gain.  So
 the theorems about protocol runs are about the object.
 */
module SessionRuns {
  import opened Common
  import opened Protocol
  import opened Isolation
  import opened VmSession

  // ----- what a claim comes to -----

  /** The messages written to worker `id`, in order. */
  function WrittenTo(es: seq<Effect>, id: WorkerId): seq<SchedulerMessage> {
    if es == [] then []
    else WrittenTo(es[..|es| - 1], id) +
         if es[|es| - 1].Wrote? && es[|es| - 1].id == id then [es[|es| - 1].msg] else []
  }

  lemma {:induction false} WrittenAppend(a: seq<Effect>, b: seq<Effect>, id: WorkerId)
    ensures WrittenTo(a + b, id) == WrittenTo(a, id) + WrittenTo(b, id)
    decreases |b|
  {
    if b == [] {
      assert a + b == a;
    } else {
      assert (a + b)[..|a + b| - 1] == a + b[..|b| - 1];
      WrittenAppend(a, b[..|b| - 1], id);
    }
  }

  ghost predicate NoWrites(es: seq<Effect>) { forall i :: 0 <= i < |es| ==> !es[i].Wrote? }

  lemma {:induction false} NothingWritten(es: seq<Effect>, id: WorkerId)
    requires NoWrites(es)
    ensures WrittenTo(es, id) == []
  {
    if es != [] { NothingWritten(es[..|es| - 1], id); }
  }

  lemma {:induction false} OneWritten(w: WorkerId, m: SchedulerMessage, id: WorkerId)
    ensures WrittenTo([Wrote(w, m)], id) == if id == w then [m] else []
  {
    var es := [Wrote(w, m)];
    assert es[..0] == [];
  }

  /** A claim that succeeds takes one of the offers.  Either that worker served this
      guild last, no load was forced and nothing was written to anyone, or the last
      effect is the guild's scripts, written to it under the newest number; and a
      forced load is forced only once. */
  lemma {:induction false} ClaimOutcome(s: Session, g: Guild, offers: seq<Offer>)
    requires s.current.None? && ClaimFrom(s, g, offers).current.Some?
    ensures var t, es := ClaimFrom(s, g, offers), ClaimEffects(s, g, offers);
      && !t.force
      && exists i :: 0 <= i < |offers| && offers[i].id == t.current.value &&
           if offers[i].lastActive == Some(g) && !s.force then NoWrites(es)
           else
             && es != [] && es[|es| - 1] == Wrote(offers[i].id, CreateScriptsVm(g, t.idGen))
             && NoWrites(es[..|es| - 1]) && t.pending == map[]
    decreases |offers|
  {
    if Useless(s, g, offers[0]) {
      var s1 := SessionIssue(s).(pending := map[]);
      ClaimOutcome(s1, g, offers[1..]);
      var t, rest := ClaimFrom(s, g, offers), ClaimEffects(s1, g, offers[1..]);
      var es := ClaimEffects(s, g, offers);
      var head := [ResetContribs, GaveBack(offers[0].id, true)];
      assert es == head + rest;
      assert rest != [] ==> es[..|es| - 1] == head + rest[..|rest| - 1];
      var i :| 0 <= i < |offers[1..]| && offers[1..][i].id == t.current.value &&
        if offers[1..][i].lastActive == Some(g) && !s1.force then NoWrites(rest)
        else
          && rest != [] && rest[|rest| - 1] == Wrote(offers[1..][i].id, CreateScriptsVm(g, t.idGen))
          && NoWrites(rest[..|rest| - 1]) && t.pending == map[];
      assert offers[i + 1] == offers[1..][i];
    }
  }

  /** Loading scripts while no worker is held sends them to the worker claimed, even
      one that served this guild last. */
  lemma {:induction false} LoadSendsScripts(s: Session, g: Guild, offers: seq<Offer>)
    requires s.current.None? && ClaimFrom(SessionReload(s, true), g, offers).current.Some?
    ensures var t, es := ClaimFrom(SessionReload(s, true), g, offers), ClaimEffects(SessionReload(s, true), g, offers);
      es != [] && es[|es| - 1] == Wrote(t.current.value, CreateScriptsVm(g, t.idGen))
  {
    ClaimOutcome(SessionReload(s, true), g, offers);
  }

  /** What a message makes the session do to its managers and to the pool. */
  lemma {:induction false} MessageEffectsExactly(s: Session, m: WorkerMessage)
    ensures var es, t := MessageEffects(s, m), SessionOnMessage(s, m);
      && |es| <= 1
      && (forall id: nat :: AckedTask(id) in es <==>
            m.Ack? && m.seqNo in s.pending && s.pending[m.seqNo] == ScheduledTask(id))
      && (forall n :: AckedTimer(n) in es <==> m.Ack? && m.seqNo in s.pending && s.pending[m.seqNo] == IntervalTimer(n))
      && (forall id: WorkerId, b :: GaveBack(id, b) in es <==> s.current == Some(id) && t.current.None? && !b)
      && (LoadedScript in es <==> m.ScriptStarted?) && (TasksChanged in es <==> m.TaskScheduled?)
      && (ResetContribs in es <==> m.Shutdown?) && (m.Shutdown? ==> t.pending == map[])
      && (m.Ack? ==> t.pending == s.pending - {m.seqNo})
      && NoWrites(es)
  {
    assert m.Ack? && m.seqNo !in s.pending ==> s.pending - {m.seqNo} == s.pending;
  }

  // ----- the protocol's steps -----

  ghost predicate AllEnabled(sys: System, steps: seq<Step>)
    decreases |steps|
  {
    steps == [] || (Enabled(sys, steps[0]) && AllEnabled(Next(sys, steps[0]), steps[1..]))
  }

  ghost function Exec(sys: System, steps: seq<Step>): System
    decreases |steps|
  {
    if steps == [] || !Enabled(sys, steps[0]) then sys else Exec(Next(sys, steps[0]), steps[1..])
  }

  lemma {:induction false} ExecAppend(sys: System, a: seq<Step>, b: seq<Step>)
    requires AllEnabled(sys, a) && AllEnabled(Exec(sys, a), b)
    ensures AllEnabled(sys, a + b) && Exec(sys, a + b) == Exec(Exec(sys, a), b)
    decreases |a|
  {
    hide Enabled, Next;
    if a == [] {
      assert a + b == b;
    } else {
      assert (a + b)[1..] == a[1..] + b;
      ExecAppend(Next(sys, a[0]), a[1..], b);
    }
  }

  /** The offers are free workers as the pool keeps them, each offered once. */
  ghost predicate OffersMatch(sys: System, offers: seq<Offer>) {
    && (forall i :: 0 <= i < |offers| ==>
          && offers[i].id in sys.workers && sys.workers[offers[i].id].holder.None?
          && sys.workers[offers[i].id].lastActive == offers[i].lastActive)
    && (forall i, j :: 0 <= i < j < |offers| ==> offers[i].id != offers[j].id)
  }

  /** From `sys` to `next`, the workers lost are those given back as broken, and the
      inboxes of the others gain what was written to them. */
  ghost predicate Carried(sys: System, next: System, es: seq<Effect>) {
    && (forall id :: id in next.workers ==>
          id in sys.workers && next.workers[id].inbox == sys.workers[id].inbox + WrittenTo(es, id))
    && (forall id :: id in sys.workers ==> (id !in next.workers <==> GaveBack(id, true) in es))
  }

  /** Nothing but `es` happened; the session of `g` is now `s`, other sessions as before. */
  ghost predicate RunsAs(sys: System, steps: seq<Step>, g: Guild, s: Session, es: seq<Effect>) {
    && AllEnabled(sys, steps) && g in Exec(sys, steps).sessions && Exec(sys, steps).sessions[g] == s
    && Exec(sys, steps).sessions == sys.sessions[g := s]
    && Carried(sys, Exec(sys, steps), es)
  }

  lemma {:induction false} CarriedTwice(a: System, b: System, c: System, es: seq<Effect>, fs: seq<Effect>)
    requires Carried(a, b, es) && Carried(b, c, fs)
    requires forall id: WorkerId :: GaveBack(id, true) in fs ==> id in b.workers
    ensures Carried(a, c, es + fs)
  {
    forall id | id in c.workers ensures c.workers[id].inbox == a.workers[id].inbox + WrittenTo(es + fs, id) {
      WrittenAppend(es, fs, id);
      assert b.workers[id].inbox == a.workers[id].inbox + WrittenTo(es, id);
    }
  }

  lemma {:induction false} RunsTwice(
    sys: System, a: seq<Step>, b: seq<Step>, g: Guild, s: Session, t: Session, es: seq<Effect>, fs: seq<Effect>)
    requires RunsAs(sys, a, g, s, es) && RunsAs(Exec(sys, a), b, g, t, fs)
    requires forall id: WorkerId :: GaveBack(id, true) in fs ==> id in Exec(sys, a).workers
    ensures RunsAs(sys, a + b, g, t, es + fs)
  {
    ExecAppend(sys, a, b);
    CarriedTwice(sys, Exec(sys, a), Exec(Exec(sys, a), b), es, fs);
    hide Carried, AllEnabled, Exec;
    assert sys.sessions[g := s][g := t] == sys.sessions[g := t];
  }

  lemma {:induction false} OneStep(sys: System, step: Step, g: Guild, s: Session, es: seq<Effect>)
    requires Enabled(sys, step) && g in sys.sessions && Next(sys, step).sessions == sys.sessions[g := s]
    requires Carried(sys, Next(sys, step), es)
    ensures RunsAs(sys, [step], g, s, es)
  {
    hide Enabled, Next, Carried;
    assert [step][1..] == [];
    assert AllEnabled(Next(sys, step), []) && AllEnabled(sys, [step]);
    assert Exec(sys, [step]) == Exec(Next(sys, step), []);
  }

  /** The session exists, and the worker it holds does. */
  ghost predicate Fine(sys: System, g: Guild) {
    g in sys.sessions && (sys.sessions[g].current.Some? ==> Holds(sys, g))
  }

  // ----- claiming -----

  function ClaimSteps(s: Session, g: Guild, offers: seq<Offer>): seq<Step>
    decreases |offers|
  {
    if offers == [] then []
    else if Useless(s, g, offers[0]) then
      [ClaimFails(g, offers[0].id)] + ClaimSteps(SessionIssue(s).(pending := map[]), g, offers[1..])
    else [Claim(g, offers[0].id)]
  }

  lemma {:induction false} FailedClaim(sys: System, g: Guild, o: Offer)
    requires Claimable(sys, g, o.id) && sys.workers[o.id].lastActive == o.lastActive && Useless(sys.sessions[g], g, o)
    ensures RunsAs(sys, [ClaimFails(g, o.id)], g, SessionIssue(sys.sessions[g]).(pending := map[]),
                   [ResetContribs, GaveBack(o.id, true)])
  {
    var es := [ResetContribs, GaveBack(o.id, true)];
    var next := Next(sys, ClaimFails(g, o.id));
    forall id | id in next.workers ensures next.workers[id].inbox == sys.workers[id].inbox + WrittenTo(es, id) {
      NothingWritten(es, id);
    }
    assert es[1] == GaveBack(o.id, true);
    OneStep(sys, ClaimFails(g, o.id), g, SessionIssue(sys.sessions[g]).(pending := map[]), es);
  }

  lemma {:induction false} GoodClaim(sys: System, g: Guild, o: Offer)
    requires Claimable(sys, g, o.id) && sys.workers[o.id].lastActive == o.lastActive && !Useless(sys.sessions[g], g, o)
    ensures var s := sys.sessions[g];
      RunsAs(sys, [Claim(g, o.id)], g, ClaimFrom(s, g, [o]), ClaimEffects(s, g, [o]))
  {
    var s := sys.sessions[g];
    var es := ClaimEffects(s, g, [o]);
    var next := Next(sys, Claim(g, o.id));
    assert [o][0] == o;
    forall id | id in next.workers ensures next.workers[id].inbox == sys.workers[id].inbox + WrittenTo(es, id) {
      if Sends(s, g, o) {
        NothingWritten(es[..1], id);
      }
    }
    OneStep(sys, Claim(g, o.id), g, ClaimFrom(s, g, [o]), es);
  }

  lemma {:induction false} ClaimIsRun(sys: System, g: Guild, offers: seq<Offer>)
    requires g in sys.sessions && sys.sessions[g].current.None? && OffersMatch(sys, offers)
    ensures var s := sys.sessions[g];
      RunsAs(sys, ClaimSteps(s, g, offers), g, ClaimFrom(s, g, offers), ClaimEffects(s, g, offers))
    ensures forall id: WorkerId :: GaveBack(id, true) in ClaimEffects(sys.sessions[g], g, offers) ==> id in sys.workers
    ensures Fine(Exec(sys, ClaimSteps(sys.sessions[g], g, offers)), g)
    decreases |offers|
  {
    var s := sys.sessions[g];
    if offers == [] {
      assert sys.sessions[g := s] == sys.sessions;
    } else {
      var o := offers[0];
      assert Claimable(sys, g, o.id);
      if Useless(s, g, o) {
        var s1, mid := SessionIssue(s).(pending := map[]), Next(sys, ClaimFails(g, o.id));
        FailedClaim(sys, g, o);
        assert [ClaimFails(g, o.id)][1..] == [] && Exec(sys, [ClaimFails(g, o.id)]) == mid;
        assert OffersMatch(mid, offers[1..]) by {
          assert forall i :: 0 <= i < |offers[1..]| ==> offers[1..][i] == offers[i + 1];
        }
        ClaimIsRun(mid, g, offers[1..]);
        ExecAppend(sys, [ClaimFails(g, o.id)], ClaimSteps(s1, g, offers[1..]));
        RunsTwice(sys, [ClaimFails(g, o.id)], ClaimSteps(s1, g, offers[1..]), g, s1, ClaimFrom(s1, g, offers[1..]),
                  [ResetContribs, GaveBack(o.id, true)], ClaimEffects(s1, g, offers[1..]));
      } else {
        GoodClaim(sys, g, o);
        assert [Claim(g, o.id)][1..] == [] && Exec(sys, [Claim(g, o.id)]) == Next(sys, Claim(g, o.id));
      }
    }
  }

  // ----- dispatching -----

  function EnsureSteps(s: Session, g: Guild, offers: seq<Offer>): seq<Step> {
    if s.current.Some? then [] else ClaimSteps(s, g, offers)
  }

  lemma {:induction false} EnsureIsRun(sys: System, g: Guild, offers: seq<Offer>)
    requires Fine(sys, g) && (sys.sessions[g].current.None? ==> OffersMatch(sys, offers))
    ensures var s := sys.sessions[g];
      RunsAs(sys, EnsureSteps(s, g, offers), g, EnsureClaimed(s, g, offers), EnsureEffects(s, g, offers))
    ensures Fine(Exec(sys, EnsureSteps(sys.sessions[g], g, offers)), g)
  {
    var s := sys.sessions[g];
    if s.current.None? {
      ClaimIsRun(sys, g, offers);
    } else {
      assert sys.sessions[g := s] == sys.sessions;
    }
  }

  /** Reading a dead worker's last words writes nothing and gives nothing back. */
  lemma {:induction false} LastWordsAreQuiet(s: Session, ms: seq<WorkerMessage>)
    requires s.current.None?
    ensures NoWrites(DrainEffects(s, ms)) && forall id: WorkerId :: GaveBack(id, true) !in DrainEffects(s, ms)
    decreases |ms|
  {
    if ms != [] {
      LastWordsAreQuiet(SessionOnMessage(s, ms[0]), ms[1..]);
    }
  }

  lemma {:induction false} BrokenIsRun(sys: System, g: Guild, lastWords: seq<WorkerMessage>)
    requires Fine(sys, g) && sys.sessions[g].current.Some? && lastWords <= Held(sys, g).outbox
    ensures var s := SessionIssue(sys.sessions[g]);
      && RunsAs(sys, [Break(g, |lastWords|, true)], g, SessionBroken(s, lastWords), BrokenEffects(s, lastWords))
      && (forall id: WorkerId :: GaveBack(id, true) in BrokenEffects(s, lastWords) ==> id in sys.workers)
      && Fine(Exec(sys, [Break(g, |lastWords|, true)]), g)
  {
    var s, step := SessionIssue(sys.sessions[g]), Break(g, |lastWords|, true);
    var loose, w := s.(current := None), s.current.value;
    var es := BrokenEffects(s, lastWords);
    var drained := DrainEffects(loose, lastWords);
    LastWordsAreQuiet(loose, lastWords);
    assert es == drained + [GaveBack(w, true), ResetContribs] && NoWrites(es);
    assert es[|drained|] == GaveBack(w, true);
    assert Held(sys, g).outbox[..|lastWords|] == lastWords;
    hide DrainEffects, SessionBroken, BrokenEffects, SessionDrain;
    var next := Next(sys, step);
    forall id | id in next.workers ensures next.workers[id].inbox == sys.workers[id].inbox + WrittenTo(es, id) {
      NothingWritten(es, id);
    }
    OneStep(sys, step, g, SessionBroken(s, lastWords), es);
    assert [step][1..] == [] && Exec(sys, [step]) == next;
    BrokenIsLoose(s, lastWords);
  }

  lemma {:induction false} BrokenIsLoose(s: Session, ms: seq<WorkerMessage>)
    ensures SessionBroken(s, ms).current.None?
  {
    DrainKeepsLoose(s.(current := None), ms);
  }

  lemma {:induction false} SentIsRun(sys: System, g: Guild, ack: PendingAck)
    requires Fine(sys, g) && sys.sessions[g].current.Some?
    ensures var s := sys.sessions[g];
      RunsAs(sys, [SendDispatch(g, ack)], g, SessionDispatch(s, ack),
        [Wrote(s.current.value, Dispatch(g, s.idGen + 1))])
  {
    var s := sys.sessions[g];
    var es := [Wrote(s.current.value, Dispatch(g, s.idGen + 1))];
    var next := Next(sys, SendDispatch(g, ack));
    hide WrittenTo, SessionDispatch;
    forall id | id in next.workers ensures next.workers[id].inbox == sys.workers[id].inbox + WrittenTo(es, id) {
      OneWritten(s.current.value, Dispatch(g, s.idGen + 1), id);
    }
    OneStep(sys, SendDispatch(g, ack), g, SessionDispatch(s, ack), es);
  }

  function DispatchSteps(s: Session, g: Guild, ack: PendingAck, turns: seq<Turn>): seq<Step>
    decreases |turns|
  {
    if turns == [] then []
    else
      var t := EnsureClaimed(s, g, turns[0].offers);
      EnsureSteps(s, g, turns[0].offers) +
      if t.current.None? then []
      else if turns[0].writable then [SendDispatch(g, ack)]
      else [Break(g, |turns[0].lastWords|, true)]
           + DispatchSteps(SessionBroken(SessionIssue(t), turns[0].lastWords), g, ack, turns[1..])
  }

  /** What the turns say of the pool and of dying workers is so. */
  ghost predicate TurnsFit(sys: System, g: Guild, turns: seq<Turn>)
    requires Fine(sys, g)
    decreases |turns|
  {
    turns == [] ||
    var s := sys.sessions[g];
    var mid := Exec(sys, EnsureSteps(s, g, turns[0].offers));
    && (s.current.None? ==> OffersMatch(sys, turns[0].offers))
    && (Fine(mid, g) && mid.sessions[g].current.Some? && !turns[0].writable ==>
          && turns[0].lastWords <= Held(mid, g).outbox
          && var end := Exec(mid, [Break(g, |turns[0].lastWords|, true)]);
             Fine(end, g) ==> TurnsFit(end, g, turns[1..]))
  }

  /** A dispatch, with all its claims and broken workers, is a run of the protocol from
      any state, and the workers' inboxes gain exactly what it wrote. */
  lemma {:induction false} DispatchIsRun(sys: System, g: Guild, ack: PendingAck, turns: seq<Turn>)
    requires Fine(sys, g) && TurnsFit(sys, g, turns)
    ensures var s := sys.sessions[g];
      RunsAs(sys, DispatchSteps(s, g, ack, turns), g, DispatchOver(s, g, ack, turns), DispatchEffects(s, g, ack, turns))
    ensures GivesBackKnown(sys, DispatchEffects(sys.sessions[g], g, ack, turns))
    decreases |turns|
  {
    var s := sys.sessions[g];
    if turns == [] {
      NothingRuns(sys, g);
    } else {
      var offers := turns[0].offers;
      hide Fine, TurnsFit, OffersMatch, DispatchSteps, DispatchOver, DispatchEffects, RunsAs;
      hide EnsureSteps, EnsureEffects, EnsureClaimed, SessionBroken, BrokenEffects, Exec;
      hide Protocol.Enabled, Protocol.Next, Carried, GivesBackKnown;
      FirstTurnFits(sys, g, turns);
      DispatchTurn(s, g, ack, turns);
      EnsureIsRun(sys, g, offers);
      EnsureGivesBack(sys, g, offers);
      var a, es, t := EnsureSteps(s, g, offers), EnsureEffects(s, g, offers), EnsureClaimed(s, g, offers);
      if t.current.Some? && turns[0].writable {
        LastTurn(sys, g, ack, a, t, es);
        StillKnown(sys, es, t.current.value, Dispatch(g, t.idGen + 1));
      } else if t.current.Some? {
        BrokenTurn(sys, g, ack, turns, a, t, es);
      }
    }
  }

  lemma {:induction false} FirstTurnFits(sys: System, g: Guild, turns: seq<Turn>)
    requires Fine(sys, g) && TurnsFit(sys, g, turns) && turns != []
    ensures sys.sessions[g].current.None? ==> OffersMatch(sys, turns[0].offers)
    ensures g in sys.sessions
  {
    hide Exec, OffersMatch, EnsureSteps;
  }

  lemma {:induction false} NothingRuns(sys: System, g: Guild)
    requires g in sys.sessions
    ensures RunsAs(sys, [], g, sys.sessions[g], [])
  {
    assert sys.sessions[g := sys.sessions[g]] == sys.sessions;
  }

  /** One turn of the dispatch specifications. */
  lemma {:induction false} DispatchTurn(s: Session, g: Guild, ack: PendingAck, turns: seq<Turn>)
    requires turns != []
    ensures var offers, lastWords := turns[0].offers, turns[0].lastWords;
      var a, es, t := EnsureSteps(s, g, offers), EnsureEffects(s, g, offers), EnsureClaimed(s, g, offers);
      if t.current.None? then
        && DispatchSteps(s, g, ack, turns) == a && DispatchOver(s, g, ack, turns) == t
        && DispatchEffects(s, g, ack, turns) == es
      else if turns[0].writable then
        && DispatchSteps(s, g, ack, turns) == a + [SendDispatch(g, ack)]
        && DispatchOver(s, g, ack, turns) == SessionDispatch(t, ack)
        && DispatchEffects(s, g, ack, turns) == es + [Wrote(t.current.value, Dispatch(g, t.idGen + 1))]
      else
        var u := SessionBroken(SessionIssue(t), lastWords);
        && DispatchSteps(s, g, ack, turns)
           == a + ([Break(g, |lastWords|, true)] + DispatchSteps(u, g, ack, turns[1..]))
        && DispatchOver(s, g, ack, turns) == DispatchOver(u, g, ack, turns[1..])
        && DispatchEffects(s, g, ack, turns)
           == es + (BrokenEffects(SessionIssue(t), lastWords) + DispatchEffects(u, g, ack, turns[1..]))
  {
    hide EnsureSteps, EnsureEffects, EnsureClaimed, SessionBroken, BrokenEffects, SessionDispatch;
  }

  /** Only workers there are given back as broken. */
  ghost predicate GivesBackKnown(sys: System, es: seq<Effect>) {
    forall id: WorkerId :: GaveBack(id, true) in es ==> id in sys.workers
  }

  lemma {:induction false} EnsureGivesBack(sys: System, g: Guild, offers: seq<Offer>)
    requires Fine(sys, g) && (sys.sessions[g].current.None? ==> OffersMatch(sys, offers))
    ensures GivesBackKnown(sys, EnsureEffects(sys.sessions[g], g, offers))
  {
    if sys.sessions[g].current.None? { ClaimIsRun(sys, g, offers); }
  }

  lemma {:induction false} StillKnown(sys: System, es: seq<Effect>, w: WorkerId, m: SchedulerMessage)
    requires GivesBackKnown(sys, es)
    ensures GivesBackKnown(sys, es + [Wrote(w, m)])
  {
  }

  lemma {:induction false} RunsAsGives(sys: System, a: seq<Step>, g: Guild, t: Session, es: seq<Effect>)
    requires RunsAs(sys, a, g, t, es)
    ensures g in Exec(sys, a).sessions && Exec(sys, a).sessions[g] == t
  {
    hide Exec, AllEnabled, Carried;
  }

  lemma {:induction false} LastTurn(sys: System, g: Guild, ack: PendingAck, a: seq<Step>, t: Session, es: seq<Effect>)
    requires RunsAs(sys, a, g, t, es) && t.current.Some? && Fine(Exec(sys, a), g)
    ensures RunsAs(sys, a + [SendDispatch(g, ack)], g, SessionDispatch(t, ack),
                   es + [Wrote(t.current.value, Dispatch(g, t.idGen + 1))])
  {
    hide Exec, AllEnabled, Carried, Protocol.Enabled, Protocol.Next, RunsAs, Fine;
    RunsAsGives(sys, a, g, t, es);
    SentIsRun(Exec(sys, a), g, ack);
    RunsTwice(sys, a, [SendDispatch(g, ack)], g, t, SessionDispatch(t, ack), es,
              [Wrote(t.current.value, Dispatch(g, t.idGen + 1))]);
  }

  lemma {:induction false} BrokenTurn(
    sys: System, g: Guild, ack: PendingAck, turns: seq<Turn>, a: seq<Step>, t: Session, es: seq<Effect>)
    requires Fine(sys, g) && turns != [] && TurnsFit(sys, g, turns) && !turns[0].writable
    requires a == EnsureSteps(sys.sessions[g], g, turns[0].offers)
    requires es == EnsureEffects(sys.sessions[g], g, turns[0].offers)
    requires RunsAs(sys, a, g, t, es) && t.current.Some? && Fine(Exec(sys, a), g)
    requires GivesBackKnown(sys, es)
    ensures var u := SessionBroken(SessionIssue(t), turns[0].lastWords);
      var fs := es + (BrokenEffects(SessionIssue(t), turns[0].lastWords) + DispatchEffects(u, g, ack, turns[1..]));
      && RunsAs(sys, a + ([Break(g, |turns[0].lastWords|, true)] + DispatchSteps(u, g, ack, turns[1..])), g,
                DispatchOver(u, g, ack, turns[1..]), fs)
      && GivesBackKnown(sys, fs)
    decreases |turns|, 0
  {
    var lastWords, mid := turns[0].lastWords, Exec(sys, a);
    var b := [Break(g, |lastWords|, true)];
    var end, u := Exec(mid, b), SessionBroken(SessionIssue(t), lastWords);
    var gs, rest := BrokenEffects(SessionIssue(t), lastWords), DispatchEffects(u, g, ack, turns[1..]);
    BrokenIsRun(mid, g, lastWords);
    assert mid.sessions[g] == t && Fine(end, g) && TurnsFit(end, g, turns[1..]);
    hide TurnsFit, AllEnabled, Exec, SessionBroken, BrokenEffects;
    assert end.sessions[g] == u && forall id :: id in end.workers ==> id in mid.workers;
    DispatchIsRun(end, g, ack, turns[1..]);
    var c := DispatchSteps(u, g, ack, turns[1..]);
    RunsTwice(mid, b, c, g, u, DispatchOver(u, g, ack, turns[1..]), gs, rest);
    RunsTwice(sys, a, b + c, g, t, DispatchOver(u, g, ack, turns[1..]), es, gs + rest);
  }

  // ----- loading scripts -----

  /** Loading scripts is a run of the protocol too: the reload reaches the worker held,
      or finds it broken, or a claim follows. */
  lemma {:induction false} LoadIsRun(
    sys: System, g: Guild, writable: bool, lastWords: seq<WorkerMessage>, offers: seq<Offer>)
    requires Fine(sys, g)
    requires sys.sessions[g].current.Some? && !writable ==> lastWords <= Held(sys, g).outbox
    requires sys.sessions[g].current.None? ==> OffersMatch(sys, offers)
    ensures var s, t := sys.sessions[g], SessionIssue(sys.sessions[g]);
      if s.current.Some? && writable then
        RunsAs(sys, [Reload(g, true)], g, t, [Wrote(s.current.value, CreateScriptsVm(g, t.idGen))])
      else if s.current.Some? then
        RunsAs(sys, [Break(g, |lastWords|, true)], g, SessionBroken(t, lastWords), BrokenEffects(t, lastWords))
      else
        RunsAs(sys, [Reload(g, true)] + ClaimSteps(SessionReload(s, true), g, offers), g,
               EnsureClaimed(SessionReload(s, true), g, offers),
               [ResetContribs] + EnsureEffects(SessionReload(s, true), g, offers))
  {
    var s, t := sys.sessions[g], SessionIssue(sys.sessions[g]);
    if s.current.Some? && writable {
      var es := [Wrote(s.current.value, CreateScriptsVm(g, t.idGen))];
      var next := Next(sys, Reload(g, true));
      forall id | id in next.workers ensures next.workers[id].inbox == sys.workers[id].inbox + WrittenTo(es, id) {
        OneWritten(s.current.value, CreateScriptsVm(g, t.idGen), id);
      }
      OneStep(sys, Reload(g, true), g, t, es);
    } else if s.current.Some? {
      BrokenIsRun(sys, g, lastWords);
    } else {
      var r, mid := SessionReload(s, true), Next(sys, Reload(g, true));
      forall id | id in mid.workers ensures WrittenTo([ResetContribs], id) == [] {
        NothingWritten([ResetContribs], id);
      }
      OneStep(sys, Reload(g, true), g, r, [ResetContribs]);
      assert [Reload(g, true)][1..] == [] && Exec(sys, [Reload(g, true)]) == mid;
      ClaimIsRun(mid, g, offers);
      RunsTwice(sys, [Reload(g, true)], ClaimSteps(r, g, offers), g, r, ClaimFrom(r, g, offers), [ResetContribs],
                ClaimEffects(r, g, offers));
    }
  }

  // ----- isolation of the object -----

  lemma {:induction false} ExecIsolated(sys: System, steps: seq<Step>)
    requires Isolated(sys)
    ensures Isolated(Exec(sys, steps))
    decreases |steps|
  {
    hide Isolated, Next, Enabled;
    if steps != [] && Enabled(sys, steps[0]) {
      NextIsolated(sys, steps[0]);
      ExecIsolated(Next(sys, steps[0]), steps[1..]);
    }
  }

  /** After any dispatch of the object, from any state that protocol runs can reach,
      every worker is still routed to its guilds. */
  lemma {:induction false} DispatchKeepsIsolation(sys: System, g: Guild, ack: PendingAck, turns: seq<Turn>)
    requires Isolated(sys) && Fine(sys, g) && TurnsFit(sys, g, turns)
    ensures exists next ::
              && Isolated(next) && g in next.sessions
              && next.sessions[g] == DispatchOver(sys.sessions[g], g, ack, turns)
              && Carried(sys, next, DispatchEffects(sys.sessions[g], g, ack, turns))
  {
    hide Isolated, Carried, TurnsFit, DispatchOver, DispatchEffects, DispatchSteps;
    DispatchIsRun(sys, g, ack, turns);
    ExecIsolated(sys, DispatchSteps(sys.sessions[g], g, ack, turns));
  }
}
