/**
 What the worker pool remembers, over whole runs: an idle worker carries the guild of
 its last grant and the time it came in, a guild gets a worker it used last whenever
 one is idle for it, and the queues hold exactly the requests not served yet.
 */
module PoolHistory {
  import opened Common
  import opened WorkerPool
  import opened PoolRuns

  /** For each worker granted so far, the guild of its last grant. */
  ghost function LastGrant(worlds: seq<World>, steps: seq<Step>, k: nat): map<nat, Guild>
    requires ValidRun(worlds, steps) && k <= |steps|
  {
    if k == 0 then map[]
    else Noted(LastGrant(worlds, steps, k - 1), GrantOf(worlds[k - 1], steps[k - 1]))
  }

  function Noted(last: map<nat, Guild>, grant: Option<Grant>): map<nat, Guild> {
    if grant.None? then last else last[grant.value.worker.id := grant.value.request.guild]
  }

  /** For each worker that connected or was returned healthy, when it last did. */
  function CameIn(steps: seq<Step>, k: nat): map<nat, nat>
    requires k <= |steps|
  {
    if k == 0 then map[] else Stamped(CameIn(steps, k - 1), steps[k - 1])
  }

  function Stamped(came: map<nat, nat>, step: Step): map<nat, nat> {
    match step
    case GiveBack(id, false, now) => came[id := now]
    case Connected(id, now) => came[id := now]
    case _ => came
  }

  function Lookup<V>(m: map<nat, V>, id: nat): Option<V> {
    if id in m then Some(m[id]) else None
  }

  /** An idle worker carries its last grant and the time it came in. */
  ghost predicate IdleRemembers(pool: seq<WorkerHandle>, last: map<nat, Guild>, came: map<nat, nat>) {
    forall k :: 0 <= k < |pool| ==>
      pool[k].lastActive == Lookup(last, pool[k].id) && Some(pool[k].returnedAt) == Lookup(came, pool[k].id)
  }

  ghost predicate Remembers(w: World, last: map<nat, Guild>, came: map<nat, nat>) {
    && (forall t :: 0 <= t < |w.pool.pools| ==> IdleRemembers(w.pool.pools[t], last, came))
    && (forall id :: id in w.claimed ==> id in last && w.claimed[id].lastActive == Some(last[id]))
    && (forall id :: id in w.pool.starting ==> id !in last)
    && (forall id :: id in last ==> id <= w.pool.idGen)
  }

  /** Histories that agree but for one worker that is not in the pool. */
  lemma {:induction false} OtherIdle(pool: seq<WorkerHandle>, last: map<nat, Guild>, came: map<nat, nat>,
      last': map<nat, Guild>, came': map<nat, nat>, id: nat)
    requires IdleRemembers(pool, last, came) && forall k :: 0 <= k < |pool| ==> pool[k].id != id
    requires forall j: nat :: j != id ==> Lookup(last, j) == Lookup(last', j) && Lookup(came, j) == Lookup(came', j)
    ensures IdleRemembers(pool, last', came')
  {
  }

  lemma {:induction false} AskRemembers(w: World, g: Guild, tier: nat, t: nat, k: nat, last: map<nat, Guild>,
      came: map<nat, nat>)
    requires Sound(w) && Remembers(w, last, came) && Enabled(w, AskIdle(g, tier, t, k))
    ensures Remembers(Next(w, AskIdle(g, tier, t, k)), last[w.pool.pools[t][k].id := g], came)
  {
    var h, v := w.pool.pools[t][k], Next(w, AskIdle(g, tier, t, k));
    TakeOut(w, t, k);
    forall u | 0 <= u < TIERS
      ensures IdleRemembers(v.pool.pools[u], last[h.id := g], came)
    {
      OtherIdle(v.pool.pools[u], last, came, last[h.id := g], came, h.id);
    }
  }

  /** A worker that is out comes in, remembering its last grant. */
  lemma {:induction false} AdmitRemembers(w: World, h: WorkerHandle, last: map<nat, Guild>, came: map<nat, nat>)
    requires Out(w, h) && Remembers(w, last, came)
    requires h.lastActive == Lookup(last, h.id) && h.id in came && h.returnedAt == came[h.id]
    ensures Remembers(Admit(w, h), Noted(last, HandOver(w.pool, h)), came)
  {
    var v, r := Admit(w, h), HandOver(w.pool, h);
    if r.Some? {
      forall u | 0 <= u < TIERS
        ensures IdleRemembers(v.pool.pools[u], Noted(last, r), came)
      {
        OtherIdle(w.pool.pools[u], last, came, Noted(last, r), came, h.id);
      }
    }
  }

  lemma {:induction false} LeaveRemembers(w: World, step: Step, last: map<nat, Guild>, came: map<nat, nat>)
    requires Sound(w) && Remembers(w, last, came) && Enabled(w, step)
    requires step.Connected? || (step.GiveBack? && !step.broken)
    ensures Remembers(Leaves(w, step.id), last, came[step.id := step.now])
    ensures Returning(w, step).lastActive == Lookup(last, step.id)
  {
    var v := Leaves(w, step.id);
    forall u | 0 <= u < TIERS
      ensures IdleRemembers(v.pool.pools[u], last, came[step.id := step.now])
    {
      OtherIdle(w.pool.pools[u], last, came, last, came[step.id := step.now], step.id);
    }
  }

  lemma {:induction false} StepRemembers(w: World, step: Step, last: map<nat, Guild>, came: map<nat, nat>)
    requires Inv(w) && Remembers(w, last, came) && Enabled(w, step)
    ensures Remembers(Next(w, step), Noted(last, GrantOf(w, step)), Stamped(came, step))
  {
    match step {
      case AskIdle(g, tier, t, k) => AskRemembers(w, g, tier, t, k, last, came);
      case AskWait(_, _) =>
      case GiveBack(id, broken, now) =>
        if !broken {
          LeaveOut(w, step);
          LeaveRemembers(w, step, last, came);
          AdmitRemembers(Leaves(w, id), Returning(w, step), last, came[id := now]);
        }
      case Connected(id, now) =>
        LeaveOut(w, step);
        LeaveRemembers(w, step, last, came);
        AdmitRemembers(Leaves(w, id), Returning(w, step), last, came[id := now]);
      case SpawnOne(_) =>
    }
  }

  /** In every state of every run: an idle worker's last guild is the guild of its last
      grant and its return time is when it last came in; a worker out with a session
      carries the guild it was granted to. */
  lemma {:induction false} PoolRemembers(worlds: seq<World>, steps: seq<Step>, k: nat)
    requires ValidRun(worlds, steps) && k < |worlds|
    ensures Remembers(worlds[k], LastGrant(worlds, steps, k), CameIn(steps, k))
  {
    if k > 0 {
      PoolRemembers(worlds, steps, k - 1);
      RunOk(worlds, steps, k - 1);
      hide Remembers, Inv;
      StepRemembers(worlds[k - 1], steps[k - 1], LastGrant(worlds, steps, k - 1), CameIn(steps, k - 1));
    }
  }

  // ----- what a guild that asks gets -----

  /** An idle worker at or below the tier was granted to the guild last. */
  ghost predicate HasOwn(pools: seq<seq<WorkerHandle>>, last: map<nat, Guild>, g: Guild, tier: nat)
    requires tier < |pools|
  {
    exists t, k :: 0 <= t <= tier && 0 <= k < |pools[t]| && Lookup(last, pools[t][k].id) == Some(g)
  }

  /** `h` came in before all other idle workers of its tier, and no tier between it
      and `tier` has one. */
  ghost predicate WaitedLongest(pools: seq<seq<WorkerHandle>>, came: map<nat, nat>, h: WorkerHandle, tier: nat)
    requires h.tier <= tier < |pools|
  {
    && (forall k :: 0 <= k < |pools[h.tier]| ==>
          var id := pools[h.tier][k].id; h.id in came && id in came && came[h.id] <= came[id])
    && forall u :: h.tier < u <= tier ==> pools[u] == []
  }

  /** In every run, a guild that asks gets a worker that was granted to it last exactly
      when such a worker is idle at or below its tier; otherwise, if it gets one at
      once, it is the one that came in first among the highest tier's. */
  lemma {:induction false} OwnWorkerExactly(worlds: seq<World>, steps: seq<Step>, k: nat)
    requires ValidRun(worlds, steps) && k < |steps| && (steps[k].AskIdle? || steps[k].AskWait?)
    ensures var last, grant := LastGrant(worlds, steps, k), GrantOf(worlds[k], steps[k]);
            var pools, own := worlds[k].pool.pools, HasOwn(worlds[k].pool.pools, last, steps[k].guild, steps[k].tier);
            && (own <==> grant.Some? && Lookup(last, grant.value.worker.id) == Some(steps[k].guild))
            && (grant.Some? ==> grant.value.worker.tier <= steps[k].tier)
            && (grant.Some? && !own ==>
                  WaitedLongest(pools, CameIn(steps, k), grant.value.worker, steps[k].tier))
  {
    PoolRemembers(worlds, steps, k);
    RunOk(worlds, steps, k);
    AskedOwn(worlds[k], steps[k], LastGrant(worlds, steps, k), CameIn(steps, k));
  }

  lemma {:induction false} AskedOwn(w: World, step: Step, last: map<nat, Guild>, came: map<nat, nat>)
    requires Inv(w) && Remembers(w, last, came) && Enabled(w, step) && (step.AskIdle? || step.AskWait?)
    ensures var pools, grant := w.pool.pools, GrantOf(w, step);
            var own := HasOwn(pools, last, step.guild, step.tier);
            && (own <==> grant.Some? && Lookup(last, grant.value.worker.id) == Some(step.guild))
            && (grant.Some? ==> grant.value.worker.tier <= step.tier)
            && (grant.Some? && !own ==> WaitedLongest(pools, came, grant.value.worker, step.tier))
  {
    hide OnePlace, Conserved, NoIdleWait, InArrivalOrder;
    var pools, g := w.pool.pools, step.guild;
    assert forall t, k :: 0 <= t < TIERS && 0 <= k < |pools[t]| ==>
      (Affine(pools[t][k], g) <==> Lookup(last, pools[t][k].id) == Some(g));
    if step.AskIdle? {
      var h := pools[step.from][step.k];
      assert h.tier == step.from;
      if !Affine(h, g) {
        assert LongestIdle(pools[step.from], step.k);
      }
    }
  }

  // ----- requests -----

  /** The request that a step puts in tier `t`'s queue. */
  function AskedNow(w: World, step: Step, t: nat): seq<Request> {
    if step.AskWait? && step.tier == t then [NewRequest(w, step.guild, t)] else []
  }

  /** The request of tier `t` that a step hands a worker after waiting. */
  ghost function HandedNow(w: World, step: Step, t: nat): seq<Request>
    requires Enabled(w, step)
  {
    var grant := GrantOf(w, step);
    if !step.AskIdle? && grant.Some? && grant.value.request.tier == t then [grant.value.request] else []
  }

  /** The requests of one tier that had to wait, in order. */
  ghost function Waited(worlds: seq<World>, steps: seq<Step>, k: nat, t: nat): seq<Request>
    requires k <= |steps| <= |worlds|
  {
    if k == 0 then [] else Waited(worlds, steps, k - 1, t) + AskedNow(worlds[k - 1], steps[k - 1], t)
  }

  /** The requests of one tier that were handed a worker after waiting, in order. */
  ghost function HandedOver(worlds: seq<World>, steps: seq<Step>, k: nat, t: nat): seq<Request>
    requires ValidRun(worlds, steps) && k <= |steps|
  {
    if k == 0 then [] else HandedOver(worlds, steps, k - 1, t) + HandedNow(worlds[k - 1], steps[k - 1], t)
  }

  lemma {:induction false} QueueStep(w: World, step: Step, t: nat)
    requires Sound(w) && Enabled(w, step) && t < TIERS
    ensures |Next(w, step).pool.queues| == TIERS
    ensures w.pool.queues[t] + AskedNow(w, step, t) == HandedNow(w, step, t) + Next(w, step).pool.queues[t]
  {
  }

  /** The requests of a tier that waited, as served and queued. */
  lemma {:induction false} ServeOrQueue(waited: seq<Request>, handed: seq<Request>, queue: seq<Request>,
      asked: seq<Request>, served: seq<Request>, queue': seq<Request>)
    requires waited == handed + queue && queue + asked == served + queue'
    ensures waited + asked == handed + served + queue'
  {
    assert waited + asked == handed + (queue + asked);
  }

  /** In every run the requests of a tier that had to wait are those handed a worker
      since, in their order of arrival, and then those in the queue: none is lost,
      none is served twice and none overtakes another. */
  lemma {:induction false} RequestsServedInOrder(worlds: seq<World>, steps: seq<Step>, k: nat, t: nat)
    requires ValidRun(worlds, steps) && k < |worlds| && t < TIERS
    ensures |worlds[k].pool.queues| == TIERS
    ensures Waited(worlds, steps, k, t) == HandedOver(worlds, steps, k, t) + worlds[k].pool.queues[t]
  {
    if k > 0 {
      var w, step := worlds[k - 1], steps[k - 1];
      RequestsServedInOrder(worlds, steps, k - 1, t);
      RunOk(worlds, steps, k - 1);
      QueueStep(w, step, t);
      ServeOrQueue(Waited(worlds, steps, k - 1, t), HandedOver(worlds, steps, k - 1, t), w.pool.queues[t],
        AskedNow(w, step, t), HandedNow(w, step, t), worlds[k].pool.queues[t]);
      hide Inv, Next, AskedNow, HandedNow, Enabled;
    }
  }
}
