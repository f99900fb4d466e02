/**
 The session object of one guild (cmd/scheduler/src/vm_session.rs), written the
 way the program is: fields updated in place and retry loops.  Each method is
 proved against the session functions of `Protocol`, so the run theorems about
 those functions are theorems about this object.

 What the outside world answers is a parameter: the workers the pool hands out
 and whether each can still be written to, and the messages a dead worker left
 behind.  A loop that has used up its answers is still waiting.
 */
module VmSession {
  import opened Common
  import opened Protocol
  import opened Bookkeeping

  /** What the session did to the rest of the program, in order. */
  datatype Effect =
    | Wrote(id: WorkerId, msg: SchedulerMessage)
    | GaveBack(id: WorkerId, broken: bool)
    | ResetContribs
    | AckedTask(taskId: nat)
    | AckedTimer(name: string)
    | TasksChanged
    | LoadedScript

  /** A worker handed out by the pool. */
  datatype Offer = Offer(id: WorkerId, lastActive: Option<Guild>, writable: bool)

  /** One turn of the dispatch loop: what the pool offers, whether the write
      succeeds, and otherwise what the dead worker had still said. */
  datatype Turn = Turn(offers: seq<Offer>, writable: bool, lastWords: seq<WorkerMessage>)

  predicate Sends(s: Session, g: Guild, o: Offer) {
    s.force || o.lastActive != Some(g)
  }

  /** The offer is of no use: scripts must be sent and cannot be. */
  predicate Useless(s: Session, g: Guild, o: Offer) {
    Sends(s, g, o) && !o.writable
  }

  /** A session going through the pool's offers until one can be used. */
  function ClaimFrom(s: Session, g: Guild, offers: seq<Offer>): Session
    decreases |offers|
  {
    if offers == [] then s
    else if Useless(s, g, offers[0]) then ClaimFrom(SessionIssue(s).(pending := map[]), g, offers[1..])
    else SessionClaim(s, offers[0].id, Sends(s, g, offers[0]))
  }

  function ClaimEffects(s: Session, g: Guild, offers: seq<Offer>): seq<Effect>
    decreases |offers|
  {
    if offers == [] then []
    else if Useless(s, g, offers[0]) then
      [ResetContribs, GaveBack(offers[0].id, true)]
      + ClaimEffects(SessionIssue(s).(pending := map[]), g, offers[1..])
    else if Sends(s, g, offers[0]) then
      [ResetContribs, Wrote(offers[0].id, CreateScriptsVm(g, s.idGen + 1))]
    else []
  }

  function EnsureClaimed(s: Session, g: Guild, offers: seq<Offer>): Session {
    if s.current.Some? then s else ClaimFrom(s, g, offers)
  }

  function EnsureEffects(s: Session, g: Guild, offers: seq<Offer>): seq<Effect> {
    if s.current.Some? then [] else ClaimEffects(s, g, offers)
  }

  function DispatchOver(s: Session, g: Guild, ack: PendingAck, turns: seq<Turn>): Session
    decreases |turns|
  {
    if turns == [] then s
    else
      var t := EnsureClaimed(s, g, turns[0].offers);
      if t.current.None? then t
      else if turns[0].writable then SessionDispatch(t, ack)
      else DispatchOver(SessionBroken(SessionIssue(t), turns[0].lastWords), g, ack, turns[1..])
  }

  function DispatchEffects(s: Session, g: Guild, ack: PendingAck, turns: seq<Turn>): seq<Effect>
    decreases |turns|
  {
    if turns == [] then []
    else
      var t := EnsureClaimed(s, g, turns[0].offers);
      EnsureEffects(s, g, turns[0].offers) +
      if t.current.None? then []
      else if turns[0].writable then [Wrote(t.current.value, Dispatch(g, t.idGen + 1))]
      else BrokenEffects(SessionIssue(t), turns[0].lastWords)
           + DispatchEffects(SessionBroken(SessionIssue(t), turns[0].lastWords), g, ack, turns[1..])
  }

  /** What one turn leaves to the remaining turns. */
  lemma {:induction false} DispatchUnfolds(s: Session, g: Guild, ack: PendingAck, turns: seq<Turn>, said: seq<Effect>)
    requires turns != []
    ensures var t, es := EnsureClaimed(s, g, turns[0].offers), said + EnsureEffects(s, g, turns[0].offers);
            var all := said + DispatchEffects(s, g, ack, turns);
            if t.current.None? then DispatchOver(s, g, ack, turns) == t && all == es
            else if turns[0].writable then
              && DispatchOver(s, g, ack, turns) == SessionDispatch(t, ack)
              && all == es + [Wrote(t.current.value, Dispatch(g, t.idGen + 1))]
            else
              var u := SessionBroken(SessionIssue(t), turns[0].lastWords);
              && DispatchOver(s, g, ack, turns) == DispatchOver(u, g, ack, turns[1..])
              && all == (es + BrokenEffects(SessionIssue(t), turns[0].lastWords)) + DispatchEffects(u, g, ack,
                  turns[1..])
  {
    hide SessionBroken, SessionDispatch, EnsureClaimed, EnsureEffects, BrokenEffects;
  }

  lemma {:induction false} ClaimFromOk(s: Session, g: Guild, offers: seq<Offer>)
    requires SessionOk(s) && s.current.None?
    ensures SessionOk(ClaimFrom(s, g, offers))
    decreases |offers|
  {
    if offers != [] {
      IssueTidy(s);
      if Useless(s, g, offers[0]) {
        ClaimFromOk(SessionIssue(s).(pending := map[]), g, offers[1..]);
      }
    }
  }

  lemma {:induction false} DispatchOverOk(s: Session, g: Guild, ack: PendingAck, turns: seq<Turn>)
    requires SessionOk(s)
    ensures SessionOk(DispatchOver(s, g, ack, turns))
    decreases |turns|
  {
    if turns != [] {
      if s.current.None? {
        ClaimFromOk(s, g, turns[0].offers);
      }
      var t := EnsureClaimed(s, g, turns[0].offers);
      if t.current.Some? {
        IssueTidy(t);
        DispatchKeepsOk(t, ack);
        BrokenOk(SessionIssue(t), turns[0].lastWords);
        DispatchOverOk(SessionBroken(SessionIssue(t), turns[0].lastWords), g, ack, turns[1..]);
      }
    }
  }

  /** A finished dispatch ended with the event written to the worker now held,
      under a number that is pending for exactly that event. */
  lemma {:induction false} DispatchOutcome(s: Session, g: Guild, ack: PendingAck, turns: seq<Turn>)
    requires turns != [] && turns[|turns| - 1].writable
    requires DispatchOver(s, g, ack, turns).current.Some?
    ensures var t, es := DispatchOver(s, g, ack, turns), DispatchEffects(s, g, ack, turns);
            && t.idGen in t.pending && t.pending[t.idGen] == ack
            && es != [] && es[|es| - 1] == Wrote(t.current.value, Dispatch(g, t.idGen))
    decreases |turns|
  {
    var t := EnsureClaimed(s, g, turns[0].offers);
    if t.current.Some? && !turns[0].writable {
      var u := SessionBroken(SessionIssue(t), turns[0].lastWords);
      assert turns[1..][|turns| - 2] == turns[|turns| - 1];
      DispatchOutcome(u, g, ack, turns[1..]);
    }
  }

  function AckEffects(ack: PendingAck): seq<Effect> {
    match ack
    case BrokerDispatch => []
    case ScheduledTask(id) => [AckedTask(id)]
    case IntervalTimer(name) => [AckedTimer(name)]
  }

  function MessageEffects(s: Session, m: WorkerMessage): seq<Effect> {
    match m
    case Ack(n) => if n in s.pending then AckEffects(s.pending[n]) else []
    case NonePending =>
      if s.pending == map[] && s.current.Some? then [GaveBack(s.current.value, false)] else []
    case ScriptStarted => [LoadedScript]
    case TaskScheduled => [TasksChanged]
    case Shutdown(_) => [ResetContribs]
  }

  function DrainEffects(s: Session, ms: seq<WorkerMessage>): seq<Effect>
    decreases |ms|
  {
    if ms == [] then [] else MessageEffects(s, ms[0]) + DrainEffects(SessionOnMessage(s, ms[0]), ms[1..])
  }

  function BrokenEffects(s: Session, lastWords: seq<WorkerMessage>): seq<Effect>
    requires s.current.Some?
  {
    DrainEffects(s.(current := None), lastWords) + [GaveBack(s.current.value, true), ResetContribs]
  }

  lemma {:induction false} DrainSnoc(s: Session, ms: seq<WorkerMessage>, m: WorkerMessage)
    ensures SessionDrain(s, ms + [m]) == SessionOnMessage(SessionDrain(s, ms), m)
    ensures DrainEffects(s, ms + [m]) == DrainEffects(s, ms) + MessageEffects(SessionDrain(s, ms), m)
    decreases |ms|
  {
    if ms == [] {
      assert (ms + [m])[1..] == [];
    } else {
      assert (ms + [m])[1..] == ms[1..] + [m];
      DrainSnoc(SessionOnMessage(s, ms[0]), ms[1..], m);
    }
  }

  class VmSession {
    const guild: Guild
    var currentWorker: Option<WorkerId>
    var pendingAcks: map<nat, PendingAck>
    var idGen: nat
    var forceLoadScriptsNext: bool
    var scripts: seq<nat>
    var effects: seq<Effect>

    ghost var issued: seq<nat>
    ghost var dispatched: map<nat, PendingAck>
    ghost var deletions: seq<Deletion>

    ghost function Model(): Session
      reads this
    {
      Session(currentWorker, pendingAcks, idGen, forceLoadScriptsNext, issued, dispatched, deletions)
    }

    ghost predicate Valid()
      reads this
    {
      SessionOk(Model())
    }

    constructor (guild: Guild)
      ensures Valid() && Model() == FRESH_SESSION && this.guild == guild && scripts == [] && effects == []
    {
      this.guild := guild;
      currentWorker, pendingAcks, idGen, forceLoadScriptsNext := None, map[], 1, false;
      scripts, effects, issued, dispatched, deletions := [], [], [], map[], [];
    }

    method GenId() returns (n: nat)
      modifies this`idGen, this`issued
      ensures Model() == SessionIssue(old(Model())) && n == idGen
    {
      idGen := idGen + 1;
      n := idGen;
      issued := issued + [n];
    }

    /** `handle_worker_msg`, and the Shutdown arm of `handle_action`. */
    method HandleWorkerMsg(m: WorkerMessage)
      modifies this`currentWorker, this`pendingAcks, this`effects, this`deletions
      ensures Model() == SessionOnMessage(old(Model()), m)
      ensures effects == old(effects) + MessageEffects(old(Model()), m)
      ensures old(Valid()) ==> Valid()
    {
      ghost var was := Model();
      match m {
        case Ack(n) =>
          if n in pendingAcks {
            var item := pendingAcks[n];
            pendingAcks := pendingAcks - {n};
            match item {
              case BrokerDispatch =>
              case ScheduledTask(id) =>
                effects := effects + [AckedTask(id)];
                deletions := deletions + [Deletion(n, id)];
              case IntervalTimer(name) => effects := effects + [AckedTimer(name)];
            }
          }
        case NonePending =>
          if pendingAcks == map[] {
            if currentWorker.Some? {
              effects := effects + [GaveBack(currentWorker.value, false)];
              currentWorker := None;
            }
          }
        case ScriptStarted => effects := effects + [LoadedScript];
        case TaskScheduled => effects := effects + [TasksChanged];
        case Shutdown(_) =>
          effects := effects + [ResetContribs];
          pendingAcks := map[];
      }
      if SessionOk(was) {
        MessageTidy(was, m);
      }
      hide Tidy;
    }

    /** `broken_worker`: read what is left, give the worker back, start over. */
    method BrokenWorker(lastWords: seq<WorkerMessage>)
      modifies this`currentWorker, this`pendingAcks, this`effects, this`deletions
      ensures old(currentWorker).None? ==> Model() == old(Model()) && effects == old(effects)
      ensures old(currentWorker).Some? ==>
                && Model() == SessionBroken(old(Model()), lastWords)
                && effects == old(effects) + BrokenEffects(old(Model()), lastWords)
    {
      hide SessionOk, SessionOnMessage, MessageEffects;
      if currentWorker.Some? {
        var worker := currentWorker.value;
        ghost var said := effects;
        currentWorker := None;
        ghost var loose := Model();
        var i := 0;
        while i < |lastWords|
          invariant 0 <= i <= |lastWords|
          invariant Model() == SessionDrain(loose, lastWords[..i])
          invariant effects == said + DrainEffects(loose, lastWords[..i])
        {
          DrainSnoc(loose, lastWords[..i], lastWords[i]);
          assert lastWords[..i + 1] == lastWords[..i] + [lastWords[i]];
          HandleWorkerMsg(lastWords[i]);
          i := i + 1;
        }
        assert lastWords[..i] == lastWords;
        effects := effects + [GaveBack(worker, true)];
        effects := effects + [ResetContribs];
        pendingAcks := map[];
      }
    }

    /** One round of the claim loop. */
    method TryOffer(offer: Offer) returns (claimed: bool)
      modifies this`currentWorker, this`pendingAcks, this`effects, this`idGen, this`issued, this`forceLoadScriptsNext
      ensures claimed == !Useless(old(Model()), guild, offer)
      ensures var s, sends := old(Model()), Sends(old(Model()), guild, offer);
              if claimed then
                && Model() == SessionClaim(s, offer.id, sends)
                && effects == old(effects) + if sends then
                                               [ResetContribs, Wrote(offer.id, CreateScriptsVm(guild, s.idGen + 1))]
                                             else []
              else
                && Model() == SessionIssue(s).(pending := map[])
                && effects == old(effects) + [ResetContribs, GaveBack(offer.id, true)]
    {
      if forceLoadScriptsNext || offer.lastActive != Some(guild) {
        pendingAcks := map[];
        effects := effects + [ResetContribs];
        var seqNo := GenId();
        if !offer.writable {
          effects := effects + [GaveBack(offer.id, true)];
          return false;
        }
        effects := effects + [Wrote(offer.id, CreateScriptsVm(guild, seqNo))];
      }
      forceLoadScriptsNext := false;
      currentWorker := Some(offer.id);
      return true;
    }

    /** `ensure_claim_worker`. */
    method EnsureClaimWorker(offers: seq<Offer>)
      modifies this`currentWorker, this`pendingAcks, this`effects, this`idGen, this`issued, this`forceLoadScriptsNext
      ensures Model() == EnsureClaimed(old(Model()), guild, offers)
      ensures effects == old(effects) + EnsureEffects(old(Model()), guild, offers)
      ensures old(Valid()) ==> Valid()
    {
      hide SessionOk, Sends, SessionIssue, SessionClaim;
      ghost var was, said := Model(), effects;
      if currentWorker.None? {
        if SessionOk(was) {
          ClaimFromOk(was, guild, offers);
        }
        var i, claimed := 0, false;
        while i < |offers| && !claimed
          invariant 0 <= i <= |offers|
          invariant if claimed then
                      Model() == ClaimFrom(was, guild, offers) && effects == said + ClaimEffects(was, guild, offers)
                    else
                      && ClaimFrom(Model(), guild, offers[i..]) == ClaimFrom(was, guild, offers)
                      && effects + ClaimEffects(Model(), guild, offers[i..]) == said + ClaimEffects(was, guild, offers)
          decreases |offers| - i, !claimed
        {
          assert offers[i..][0] == offers[i] && offers[i..][1..] == offers[i + 1..];
          claimed := TryOffer(offers[i]);
          i := i + 1;
        }
      }
    }

    /** One round of the dispatch loop. */
    method TryTurn(ack: PendingAck, turn: Turn) returns (again: bool)
      modifies this`currentWorker, this`pendingAcks, this`effects, this`idGen, this`issued, this`forceLoadScriptsNext,
               this`dispatched, this`deletions
      ensures var t := EnsureClaimed(old(Model()), guild, turn.offers);
              var es := old(effects) + EnsureEffects(old(Model()), guild, turn.offers);
              && again == (t.current.Some? && !turn.writable)
              && if t.current.None? then Model() == t && effects == es
                 else if turn.writable then
                   Model() == SessionDispatch(t, ack)
                     && effects == es + [Wrote(t.current.value, Dispatch(guild, t.idGen + 1))]
                 else
                   && Model() == SessionBroken(SessionIssue(t), turn.lastWords)
                   && effects == es + BrokenEffects(SessionIssue(t), turn.lastWords)
    {
      hide SessionOk, SessionBroken, EnsureClaimed, EnsureEffects, BrokenEffects;
      EnsureClaimWorker(turn.offers);
      if currentWorker.None? {
        return false;
      }
      var evtId := GenId();
      if turn.writable {
        effects := effects + [Wrote(currentWorker.value, Dispatch(guild, evtId))];
        pendingAcks := pendingAcks[evtId := ack];
        dispatched := dispatched[evtId := ack];
        return false;
      }
      BrokenWorker(turn.lastWords);
      return true;
    }

    /** `dispatch_worker_evt`. */
    method DispatchWorkerEvt(ack: PendingAck, turns: seq<Turn>)
      modifies this`currentWorker, this`pendingAcks, this`effects, this`idGen, this`issued, this`forceLoadScriptsNext,
               this`dispatched, this`deletions
      ensures scripts == [] ==> Model() == old(Model()) && effects == old(effects)
      ensures scripts != [] ==>
                && Model() == DispatchOver(old(Model()), guild, ack, turns)
                && effects == old(effects) + DispatchEffects(old(Model()), guild, ack, turns)
      ensures old(Valid()) ==> Valid()
    {
      hide SessionOk, SessionBroken, SessionIssue, SessionDispatch, EnsureClaimed, EnsureEffects, BrokenEffects;
      if scripts == [] {
        return;
      }
      ghost var was, said := Model(), effects;
      if SessionOk(was) {
        DispatchOverOk(was, guild, ack, turns);
      }
      assert turns[..] == turns;
      var i, again := 0, true;
      while i < |turns| && again
        invariant 0 <= i <= |turns|
        invariant if again then
                    && DispatchOver(Model(), guild, ack, turns[i..]) == DispatchOver(was, guild, ack, turns)
                    && effects + DispatchEffects(Model(), guild, ack, turns[i..])
                       == said + DispatchEffects(was, guild, ack, turns)
                  else
                    && Model() == DispatchOver(was, guild, ack, turns)
                    && effects == said + DispatchEffects(was, guild, ack, turns)
        decreases |turns| - i, again
      {
        assert turns[i..][0] == turns[i] && turns[i..][1..] == turns[i + 1..];
        DispatchUnfolds(Model(), guild, ack, turns[i..], effects);
        again := TryTurn(ack, turns[i]);
        i := i + 1;
      }
      assert turns[|turns|..] == [];
    }

    /** `load_contribs`: reload a held worker, or claim one with fresh scripts. */
    method LoadContribs(writable: bool, lastWords: seq<WorkerMessage>, offers: seq<Offer>)
      modifies this`currentWorker, this`pendingAcks, this`effects, this`idGen, this`issued, this`forceLoadScriptsNext,
               this`deletions
      ensures var s, t := old(Model()), SessionIssue(old(Model()));
              if s.current.Some? && writable then
                Model() == t && effects == old(effects) + [Wrote(s.current.value, CreateScriptsVm(guild, t.idGen))]
              else if s.current.Some? then
                Model() == SessionBroken(t, lastWords) && effects == old(effects) + BrokenEffects(t, lastWords)
              else if scripts == [] then
                Model() == SessionReload(s, false) && effects == old(effects) + [ResetContribs]
              else
                && Model() == EnsureClaimed(SessionReload(s, true), guild, offers)
                && effects == old(effects) + [ResetContribs] + EnsureEffects(SessionReload(s, true), guild, offers)
      ensures old(Valid()) ==> Valid()
    {
      ghost var was := Model();
      if SessionOk(was) {
        IssueTidy(was);
        BrokenOk(SessionIssue(was), lastWords);
      }
      hide Tidy, SessionBroken, EnsureClaimed, EnsureEffects, BrokenEffects;
      var evtId := GenId();
      if currentWorker.Some? {
        if writable {
          effects := effects + [Wrote(currentWorker.value, CreateScriptsVm(guild, evtId))];
        } else {
          BrokenWorker(lastWords);
        }
      } else {
        effects := effects + [ResetContribs];
        if scripts == [] {
          return;
        }
        forceLoadScriptsNext := true;
        EnsureClaimWorker(offers);
      }
    }
  }
}
