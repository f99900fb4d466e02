/**
 The storage quota check (components/runtime/src/extensions/storage.rs) under any
 interleaving of calls: the async function is split at its await points into
 entering, finishing the usage query, and one poll of the waiting loop.
 */
module StorageLimiter {
  import opened Common

  const BUDGET := 10

  /** Where a suspended call is: running the usage query, or waiting for it. */
  datatype Phase = Checking | Waiting

  datatype Answer = QueryFailed | Usage(used: nat, limit: nat)

  /** How the last finished query ended. */
  datatype Outcome = Failed | Over | Passed

  /** The shared fields, then the suspended calls and history: passed checks,
      calls admitted without and with waiting, the last query's outcome and
      whether a delete removed an entry since. */
  datatype State = State(
    requestsUntilLimitCheck: nat,
    doingLimitCheck: bool,
    hitLimit: bool,
    calls: map<nat, Phase>,
    passed: nat,
    direct: nat,
    waited: nat,
    last: Option<Outcome>,
    lifted: bool)

  const INIT := State(0, false, false, map[], 0, 0, 0, None, false)

  datatype Reply = Admitted | Rejected | Suspended

  // ----- the code between two await points -----

  function Enter(s: State, id: nat): (State, Reply) {
    if !s.doingLimitCheck then
      if s.hitLimit then (s, Rejected)
      else if s.requestsUntilLimitCheck >= 1
      then (s.(requestsUntilLimitCheck := s.requestsUntilLimitCheck - 1, direct := s.direct + 1), Admitted)
      else (s.(doingLimitCheck := true, calls := s.calls[id := Checking]), Suspended)
    else (s.(calls := s.calls[id := Waiting]), Suspended)
  }

  function Finish(s: State, id: nat, a: Answer): (State, Reply) {
    var t := s.(doingLimitCheck := false, calls := s.calls - {id}, lifted := false);
    match a
    case QueryFailed => (t.(last := Some(Failed)), Rejected)
    case Usage(used, limit) =>
      if used >= limit then (t.(hitLimit := true, last := Some(Over)), Rejected)
      else (t.(requestsUntilLimitCheck := BUDGET, passed := t.passed + 1, direct := t.direct + 1,
          last := Some(Passed)), Admitted)
  }

  function Poll(s: State, id: nat): (State, Reply) {
    if s.doingLimitCheck then (s, Suspended)
    else
      var t := s.(calls := s.calls - {id});
      if s.hitLimit then (t, Rejected) else (t.(waited := t.waited + 1), Admitted)
  }

  /** The end of the delete operations. */
  function Deleted(s: State, removed: bool): State {
    if removed then s.(hitLimit := false, lifted := true) else s
  }

  // ----- runs -----

  datatype Step = Call(id: nat) | QueryDone(id: nat, answer: Answer) | Wake(id: nat) | DeleteDone(removed: bool)

  predicate Enabled(s: State, step: Step) {
    match step
    case Call(id) => id !in s.calls
    case QueryDone(id, _) => id in s.calls && s.calls[id].Checking?
    case Wake(id) => id in s.calls && s.calls[id].Waiting?
    case DeleteDone(_) => true
  }

  function Next(s: State, step: Step): State
    requires Enabled(s, step)
  {
    match step
    case Call(id) => Enter(s, id).0
    case QueryDone(id, a) => Finish(s, id, a).0
    case Wake(id) => Poll(s, id).0
    case DeleteDone(removed) => Deleted(s, removed)
  }

  ghost predicate ValidRun(states: seq<State>, steps: seq<Step>) {
    && |states| == |steps| + 1 && states[0] == INIT
    && forall i :: 0 <= i < |steps| ==> Enabled(states[i], steps[i]) && states[i + 1] == Next(states[i], steps[i])
  }

  ghost predicate InFlight(s: State, id: nat) {
    id in s.calls && s.calls[id].Checking?
  }

  ghost predicate Inv(s: State) {
    && (forall a, b :: InFlight(s, a) && InFlight(s, b) ==> a == b)
    && (s.doingLimitCheck <==> exists id :: InFlight(s, id))
    && s.direct + s.requestsUntilLimitCheck == (BUDGET + 1) * s.passed
    && s.requestsUntilLimitCheck <= BUDGET
    && (s.doingLimitCheck ==> s.requestsUntilLimitCheck == 0)
    && (s.hitLimit ==> s.requestsUntilLimitCheck == 0 && !s.doingLimitCheck && s.last == Some(Over) && !s.lifted)
    && (s.calls != map[] && !s.doingLimitCheck ==> s.last.Some?)
    && (s.last == Some(Over) && !s.doingLimitCheck && !s.hitLimit ==> s.lifted)
  }

  lemma {:induction false} FinishOk(s: State, id: nat, a: Answer)
    requires Inv(s) && InFlight(s, id)
    ensures Inv(Finish(s, id, a).0)
  {
    var t := Finish(s, id, a).0;
    forall x ensures !InFlight(t, x) {
      assert InFlight(s, x) ==> x == id;
    }
  }

  lemma {:induction false} EnterOk(s: State, id: nat)
    requires Inv(s) && id !in s.calls
    ensures Inv(Enter(s, id).0)
  {
    var t := Enter(s, id).0;
    forall x ensures InFlight(t, x) <==> InFlight(s, x) || (x == id && !s.doingLimitCheck && t.doingLimitCheck) {}
    if t.doingLimitCheck && !s.doingLimitCheck {
      assert InFlight(t, id);
    }
  }

  lemma {:induction false} NextOk(s: State, step: Step)
    requires Inv(s) && Enabled(s, step)
    ensures Inv(Next(s, step))
  {
    match step
    case Call(id) => EnterOk(s, id);
    case QueryDone(id, a) => FinishOk(s, id, a);
    case Wake(id) =>
      var t := Next(s, step);
      assert forall x :: InFlight(t, x) <==> InFlight(s, x);
      assert s.calls != map[];
    case DeleteDone(_) =>
      assert forall x :: InFlight(Next(s, step), x) <==> InFlight(s, x);
  }

  lemma {:induction false} RunOk(states: seq<State>, steps: seq<Step>, n: nat)
    requires ValidRun(states, steps) && n < |states|
    ensures Inv(states[n])
  {
    if n > 0 {
      RunOk(states, steps, n - 1);
      NextOk(states[n - 1], steps[n - 1]);
    }
  }

  // ----- the theorems -----

  /** At most one usage query is in flight; every passed check pays for itself and
      ten further calls, exactly; the limit flag excludes both. */
  lemma {:induction false} BudgetExactly(states: seq<State>, steps: seq<Step>, n: nat, a: nat, b: nat)
    requires ValidRun(states, steps) && n < |states|
    ensures InFlight(states[n], a) && InFlight(states[n], b) ==> a == b
    ensures states[n].direct + states[n].requestsUntilLimitCheck == 11 * states[n].passed
    ensures states[n].hitLimit ==> states[n].requestsUntilLimitCheck == 0 && !InFlight(states[n], a)
  {
    RunOk(states, steps, n);
  }

  /** What the caller that takes a step is answered; a delete answers nobody here. */
  function ReplyOf(s: State, step: Step): Option<Reply>
    requires Enabled(s, step)
  {
    match step
    case Call(id) => Some(Enter(s, id).1)
    case QueryDone(id, a) => Some(Finish(s, id, a).1)
    case Wake(id) => Some(Poll(s, id).1)
    case DeleteDone(_) => None
  }

  /** In every run, the counters count the answers: a call is admitted exactly when the
      number of admitted calls rises, by one; and a finished query admits its caller
      exactly when it returned a usage below the limit, and is never left suspended. */
  lemma {:induction false} AnswersAreCounted(states: seq<State>, steps: seq<Step>, n: nat)
    requires ValidRun(states, steps) && n < |steps|
    ensures var s, t, r := states[n], states[n + 1], ReplyOf(states[n], steps[n]);
      && t.direct + t.waited == s.direct + s.waited + (if r == Some(Admitted) then 1 else 0)
      && (r == Some(Suspended) ==> exists id :: InFlight(t, id))
      && (steps[n].QueryDone? ==> r != Some(Suspended))
      && (steps[n].QueryDone? ==>
            (r == Some(Admitted) <==> steps[n].answer.Usage? && steps[n].answer.used < steps[n].answer.limit))
  {
    RunOk(states, steps, n);
    RunOk(states, steps, n + 1);
  }

  /** A call that enters while no query runs is turned away if the limit is hit, else
      admitted if budget is left, else starts a query; while one runs it waits. */
  lemma {:induction false} CallAnsweredExactly(states: seq<State>, steps: seq<Step>, n: nat, id: nat)
    requires ValidRun(states, steps) && n < |steps| && steps[n] == Call(id)
    ensures var s, r := states[n], ReplyOf(states[n], steps[n]).value;
      if exists q :: InFlight(s, q) then r == Suspended && !InFlight(states[n + 1], id)
      else if s.hitLimit then r == Rejected
      else if s.direct < 11 * s.passed then r == Admitted
      else r == Suspended && InFlight(states[n + 1], id)
  {
    RunOk(states, steps, n);
  }

  /** Once the limit is hit, every call that enters or wakes is turned away, until a
      delete removes an entry. */
  lemma {:induction false} ClosedUntilDelete(states: seq<State>, steps: seq<Step>, m: nat, n: nat)
    requires ValidRun(states, steps) && m <= n < |states| && states[m].hitLimit
    requires forall k :: m <= k < n ==> steps[k] != DeleteDone(true)
    ensures states[n].hitLimit
    ensures n < |steps| && (steps[n].Call? || steps[n].Wake?) ==> ReplyOf(states[n], steps[n]) == Some(Rejected)
    ensures n < |steps| ==> ReplyOf(states[n], steps[n]) != Some(Admitted)
  {
    if m < n {
      ClosedUntilDelete(states, steps, m, n - 1);
      RunOk(states, steps, n - 1);
      var s, step := states[n - 1], steps[n - 1];
      assert step != DeleteDone(true);
      if step.QueryDone? {
        assert InFlight(s, step.id);
      }
    }
    RunOk(states, steps, n);
    if n < |steps| && steps[n].QueryDone? {
      assert InFlight(states[n], steps[n].id);
    }
  }

  /** A waiting call is turned to once no query runs, and is then admitted exactly
      when the last query passed, failed, or found the limit reached before a
      delete lifted it. */
  lemma {:induction false} WaitersAdmittedExactly(states: seq<State>, steps: seq<Step>, n: nat, id: nat)
    requires ValidRun(states, steps) && n < |states| && Enabled(states[n], Wake(id))
    ensures Poll(states[n], id).1 == Suspended <==> exists q :: InFlight(states[n], q)
    ensures (forall q :: !InFlight(states[n], q)) ==>
      (Poll(states[n], id).1 == Admitted <==>
        || states[n].last == Some(Passed)
        || states[n].last == Some(Failed)
        || (states[n].last == Some(Over) && states[n].lifted))
  {
    RunOk(states, steps, n);
    assert id in states[n].calls;
    if !states[n].doingLimitCheck {
      var o := states[n].last.value;
      assert o == Failed || o == Over || o == Passed;
    }
  }

  /** Waiting is a way round the budget: after a failed query the caller is turned
      away, but whoever waited for it is admitted, with no check ever passed. */
  lemma {:induction false} WaiterAdmittedAfterFailedQuery()
    ensures exists states: seq<State>, steps: seq<Step> ::
          ValidRun(states, steps) && |steps| == 4 && states[4].passed == 0 && states[4].waited == 1
  {
    var s1 := INIT.(doingLimitCheck := true, calls := map[0 := Checking]);
    var s2 := s1.(calls := map[0 := Checking, 1 := Waiting]);
    var s3 := s2.(doingLimitCheck := false, calls := map[1 := Waiting], last := Some(Failed));
    var s4 := s3.(calls := map[], waited := 1);
    var steps := [Call(0), Call(1), QueryDone(0, QueryFailed), Wake(1)];
    var states := [INIT, s1, s2, s3, s4];
    assert s2.calls - {0} == map[1 := Waiting];
    assert s3.calls - {1} == map[];
    assert ValidRun(states, steps);
  }

  // ----- the shared object -----

  class StorageState {
    var requestsUntilLimitCheck: nat
    var doingLimitCheck: bool
    var hitLimit: bool

    ghost var calls: map<nat, Phase>
    ghost var passed: nat
    ghost var direct: nat
    ghost var waited: nat
    ghost var last: Option<Outcome>
    ghost var lifted: bool

    ghost function Model(): State
      reads this
    {
      State(requestsUntilLimitCheck, doingLimitCheck, hitLimit, calls, passed, direct, waited, last, lifted)
    }

    constructor ()
      ensures Model() == INIT && Inv(Model())
    {
      requestsUntilLimitCheck, doingLimitCheck, hitLimit := 0, false, false;
      calls, passed, direct, waited, last, lifted := map[], 0, 0, 0, None, false;
    }

    /** `check_validate_storage_usage` up to its first await. */
    method Begin(ghost id: nat) returns (r: Reply)
      requires Inv(Model()) && id !in calls
      modifies this
      ensures Inv(Model()) && (Model(), r) == Enter(old(Model()), id)
    {
      EnterOk(Model(), id);
      if !doingLimitCheck {
        if hitLimit {
          return Rejected;
        } else if requestsUntilLimitCheck >= 1 {
          requestsUntilLimitCheck := requestsUntilLimitCheck - 1;
          direct := direct + 1;
          return Admitted;
        }
        doingLimitCheck := true;
        calls := calls[id := Checking];
      } else {
        calls := calls[id := Waiting];
      }
      return Suspended;
    }

    /** The part after the usage query. */
    method QueryReturned(ghost id: nat, answer: Answer) returns (r: Reply)
      requires Inv(Model()) && InFlight(Model(), id)
      modifies this
      ensures Inv(Model()) && (Model(), r) == Finish(old(Model()), id, answer)
    {
      FinishOk(Model(), id, answer);
      doingLimitCheck := false;
      calls, lifted := calls - {id}, false;
      if answer.QueryFailed? {
        last := Some(Failed);
        return Rejected;
      }
      if answer.used >= answer.limit {
        hitLimit := true;
        last := Some(Over);
        return Rejected;
      }
      requestsUntilLimitCheck := 10;
      passed, direct, last := passed + 1, direct + 1, Some(Passed);
      return Admitted;
    }

    /** One turn of the waiting loop. */
    method WaitTurn(ghost id: nat) returns (r: Reply)
      requires Inv(Model()) && id in calls && calls[id] == Waiting
      modifies this
      ensures Inv(Model()) && (Model(), r) == Poll(old(Model()), id)
    {
      NextOk(Model(), Wake(id));
      if doingLimitCheck {
        return Suspended;
      }
      calls := calls - {id};
      if hitLimit {
        return Rejected;
      }
      waited := waited + 1;
      return Admitted;
    }

    /** The end of a delete that removed `count` entries. */
    method AfterDelete(count: nat)
      requires Inv(Model())
      modifies this
      ensures Inv(Model()) && Model() == Deleted(old(Model()), count > 0)
    {
      NextOk(Model(), DeleteDone(count > 0));
      if count > 0 {
        hitLimit := false;
        lifted := true;
      }
    }
  }
}
