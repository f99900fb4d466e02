/**
 The tiered worker pool (cmd/scheduler/src/vmworkerpool.rs): three idle pools,
 three request queues, guild affinity, least recently used, and replacement of
 broken workers.
 */
module WorkerPool {
  import opened Common

  type Guild = nat

  const TIERS := 3

  datatype WorkerHandle = WorkerHandle(id: nat, tier: nat, lastActive: Option<Guild>, returnedAt: nat)

  /** A queued `req_worker` call; `id` grows with arrival. */
  datatype Request = Request(id: nat, guild: Guild, tier: nat)

  datatype Pool = Pool(
    pools: seq<seq<WorkerHandle>>,
    queues: seq<seq<Request>>,
    starting: map<nat, nat>,
    idGen: nat)

  ghost predicate Shaped(p: Pool) {
    && |p.pools| == TIERS && |p.queues| == TIERS
    && (forall t, k :: 0 <= t < TIERS && 0 <= k < |p.pools[t]| ==> p.pools[t][k].tier == t)
    && (forall t, k :: 0 <= t < TIERS && 0 <= k < |p.queues[t]| ==> p.queues[t][k].tier == t)
    && (forall id :: id in p.starting ==> p.starting[id] < TIERS)
  }

  // ----- choosing an idle worker -----

  ghost predicate Affine(w: WorkerHandle, g: Guild) { w.lastActive == Some(g) }

  /** `k` is the first worker of the pool that served guild `g` last. */
  ghost predicate FirstAffine(pool: seq<WorkerHandle>, g: Guild, k: nat) {
    k < |pool| && Affine(pool[k], g) && forall j :: 0 <= j < k ==> !Affine(pool[j], g)
  }

  ghost predicate NoneAffine(pool: seq<WorkerHandle>, g: Guild) {
    forall j :: 0 <= j < |pool| ==> !Affine(pool[j], g)
  }

  /** `k` is the first of the workers that have been idle longest. */
  ghost predicate LongestIdle(pool: seq<WorkerHandle>, k: nat) {
    && k < |pool|
    && (forall j :: 0 <= j < |pool| ==> pool[k].returnedAt <= pool[j].returnedAt)
    && (forall j :: 0 <= j < k ==> pool[k].returnedAt < pool[j].returnedAt)
  }

  /** The worker at (t, k) is the one a request of guild `g` and tier `top` must
      get: from the highest tier holding a worker that served `g` last, else the
      longest idle of the highest tier holding any worker, never above `top`. */
  ghost predicate Chosen(pools: seq<seq<WorkerHandle>>, g: Guild, top: nat, t: nat, k: nat)
    requires |pools| == TIERS && top < TIERS
  {
    && t <= top && k < |pools[t]|
    && ((FirstAffine(pools[t], g, k) && forall u :: t < u <= top ==> NoneAffine(pools[u], g)) ||
        (LongestIdle(pools[t], k) && (forall u :: 0 <= u <= top ==> NoneAffine(pools[u], g))
         && forall u :: t < u <= top ==> pools[u] == []))
  }

  /** There is only one such worker. */
  lemma {:induction false} ChosenIsUnique(pools: seq<seq<WorkerHandle>>, g: Guild, top: nat, t: nat, k: nat, u: nat,
      j: nat)
    requires |pools| == TIERS && top < TIERS && Chosen(pools, g, top, t, k) && Chosen(pools, g, top, u, j)
    ensures t == u && k == j
  {
  }

  function Without<T>(s: seq<T>, k: nat): seq<T>
    requires k < |s|
  {
    s[..k] + s[k + 1..]
  }

  // ----- the pool's operations as functions of its state -----

  function TakeIdle(p: Pool, t: nat, k: nat): Pool
    requires t < |p.pools| && k < |p.pools[t]|
  {
    p.(pools := p.pools[t := Without(p.pools[t], k)])
  }

  function Enqueue(p: Pool, r: Request): Pool
    requires r.tier < |p.queues|
  {
    p.(queues := p.queues[r.tier := p.queues[r.tier] + [r]])
  }

  /** The queue that a worker of tier `t` is handed over to: the highest
      non-empty one not below `t`. */
  function NextQueue(queues: seq<seq<Request>>, t: nat): (q: Option<nat>)
    requires |queues| == TIERS && t < TIERS
    ensures q.Some? ==> t <= q.value < TIERS && queues[q.value] != []
                        && forall u :: q.value < u < TIERS ==> queues[u] == []
    ensures q.None? ==> forall u :: t <= u < TIERS ==> queues[u] == []
  {
    if queues[2] != [] then Some(2)
    else if t <= 1 && queues[1] != [] then Some(1)
    else if t == 0 && queues[0] != [] then Some(0)
    else None
  }

  function AddWorker(p: Pool, w: WorkerHandle): (Pool, Option<Request>)
    requires |p.pools| == TIERS && |p.queues| == TIERS && w.tier < TIERS
  {
    var q := NextQueue(p.queues, w.tier);
    if q.Some? then (p.(queues := p.queues[q.value := p.queues[q.value][1..]]), Some(p.queues[q.value][0]))
    else (p.(pools := p.pools[w.tier := p.pools[w.tier] + [w]]), None)
  }

  function SpawnWorker(p: Pool, tier: nat): Pool {
    p.(idGen := p.idGen + 1, starting := p.starting[p.idGen + 1 := tier])
  }

  // ----- the object -----

  class VmWorkerPool {
    var pools: seq<seq<WorkerHandle>>
    var reqQueues: seq<seq<Request>>
    var pendingStarts: map<nat, nat>
    var workerIdGen: nat

    ghost function Model(): Pool
      reads this
    {
      Pool(pools, reqQueues, pendingStarts, workerIdGen)
    }

    constructor ()
      ensures Model() == Pool([[], [], []], [[], [], []], map[], 1)
    {
      pools, reqQueues, pendingStarts, workerIdGen := [[], [], []], [[], [], []], map[], 1;
    }

    /** The first worker of one pool that served `g` last. */
    method FindAffine(t: nat, g: Guild) returns (k: Option<nat>)
      requires t < |pools|
      ensures k.Some? ==> FirstAffine(pools[t], g, k.value)
      ensures k.None? ==> NoneAffine(pools[t], g)
    {
      for j := 0 to |pools[t]|
        invariant forall i :: 0 <= i < j ==> !Affine(pools[t][i], g)
      {
        if pools[t][j].lastActive == Some(g) {
          return Some(j);
        }
      }
      return None;
    }

    /** The scan for the longest idle worker of one pool at time `now`. */
    method FindLongestIdle(t: nat, now: nat) returns (k: Option<nat>)
      requires t < |pools| && forall j :: 0 <= j < |pools[t]| ==> pools[t][j].returnedAt <= now
      ensures k.Some? ==> LongestIdle(pools[t], k.value)
      ensures k.None? ==> pools[t] == []
    {
      k := None;
      var age := 0;
      for j := 0 to |pools[t]|
        invariant k.None? <==> j == 0
        invariant k.Some? ==> k.value < j && age == now - pools[t][k.value].returnedAt
        invariant k.Some? ==> forall i :: 0 <= i < j ==> pools[t][k.value].returnedAt <= pools[t][i].returnedAt
        invariant k.Some? ==> forall i :: 0 <= i < k.value ==> pools[t][k.value].returnedAt < pools[t][i].returnedAt
      {
        var elapsed := now - pools[t][j].returnedAt;
        if k.None? || elapsed > age {
          k, age := Some(j), elapsed;
        }
      }
    }

    /** `inner_get_worker`: an idle worker, or a place in the queue. */
    method InnerGetWorker(r: Request, now: nat) returns (worker: Option<WorkerHandle>)
      requires Shaped(Model()) && r.tier < TIERS
      requires forall t, k :: 0 <= t < TIERS && 0 <= k < |pools[t]| ==> pools[t][k].returnedAt <= now
      modifies this`pools, this`reqQueues
      ensures worker.Some? ==>
                exists t: nat, k: nat :: && Chosen(old(pools), r.guild, r.tier, t, k)
                          && worker.value == old(pools)[t][k] && Model() == TakeIdle(old(Model()), t, k)
      ensures worker.None? ==>
                && Model() == Enqueue(old(Model()), r)
                && forall u :: 0 <= u <= r.tier ==> old(pools)[u] == []
    {
      for t := r.tier + 1 downto 0
        invariant Model() == old(Model())
        invariant forall u :: t <= u <= r.tier ==> NoneAffine(pools[u], r.guild)
      {
        var k := FindAffine(t, r.guild);
        if k.Some? {
          assert Chosen(pools, r.guild, r.tier, t, k.value);
          worker := Some(pools[t][k.value]);
          pools := pools[t := pools[t][..k.value] + pools[t][k.value + 1..]];
          return;
        }
      }
      for t := r.tier + 1 downto 0
        invariant Model() == old(Model())
        invariant forall u :: t <= u <= r.tier ==> pools[u] == []
      {
        var k := FindLongestIdle(t, now);
        if k.Some? {
          assert Chosen(pools, r.guild, r.tier, t, k.value);
          worker := Some(pools[t][k.value]);
          pools := pools[t := pools[t][..k.value] + pools[t][k.value + 1..]];
          return;
        }
      }
      reqQueues := reqQueues[r.tier := reqQueues[r.tier] + [r]];
      worker := None;
    }

    /** `req_worker`, until it waits: the worker is claimed for the guild, and `same`
        says whether it served that guild last. */
    method ReqWorker(r: Request, now: nat) returns (worker: Option<WorkerHandle>, same: bool)
      requires Shaped(Model()) && r.tier < TIERS
      requires forall t, k :: 0 <= t < TIERS && 0 <= k < |pools[t]| ==> pools[t][k].returnedAt <= now
      modifies this`pools, this`reqQueues
      ensures same <==> exists u :: 0 <= u <= r.tier && !NoneAffine(old(pools)[u], r.guild)
      ensures worker.Some? ==>
                exists t: nat, k: nat :: && Chosen(old(pools), r.guild, r.tier, t, k)
                          && worker.value == old(pools)[t][k].(lastActive := Some(r.guild))
                          && Model() == TakeIdle(old(Model()), t, k)
      ensures worker.None? ==>
                && Model() == Enqueue(old(Model()), r)
                && forall u :: 0 <= u <= r.tier ==> old(pools)[u] == []
    {
      worker := InnerGetWorker(r, now);
      same := worker.Some? && worker.value.lastActive == Some(r.guild);
      if worker.Some? {
        worker := Some(worker.value.(lastActive := Some(r.guild)));
      }
    }

    /** `add_worker_to_pool`: hand the worker over, or keep it idle. */
    method AddWorkerToPool(w: WorkerHandle) returns (handedTo: Option<Request>)
      requires |pools| == TIERS && |reqQueues| == TIERS && w.tier < TIERS
      modifies this`pools, this`reqQueues
      ensures (Model(), handedTo) == AddWorker(old(Model()), w)
    {
      for i := TIERS downto w.tier
        invariant Model() == old(Model())
        invariant forall u :: i <= u < TIERS ==> reqQueues[u] == []
      {
        if reqQueues[i] != [] {
          handedTo := Some(reqQueues[i][0]);
          reqQueues := reqQueues[i := reqQueues[i][1..]];
          return;
        }
      }
      pools := pools[w.tier := pools[w.tier] + [w]];
      handedTo := None;
    }

    method Spawn(tier: nat)
      modifies this`pendingStarts, this`workerIdGen
      ensures Model() == SpawnWorker(old(Model()), tier)
    {
      workerIdGen := workerIdGen + 1;
      pendingStarts := pendingStarts[workerIdGen := tier];
    }

    method ReturnWorker(w: WorkerHandle, broken: bool, now: nat) returns (handedTo: Option<Request>)
      requires |pools| == TIERS && |reqQueues| == TIERS && w.tier < TIERS
      modifies this
      ensures broken ==> Model() == SpawnWorker(old(Model()), w.tier) && handedTo.None?
      ensures !broken ==> (Model(), handedTo) == AddWorker(old(Model()), w.(returnedAt := now))
    {
      if broken {
        Spawn(w.tier);
        handedTo := None;
      } else {
        handedTo := AddWorkerToPool(w.(returnedAt := now));
      }
    }

    method WorkerConnected(id: nat, now: nat) returns (handedTo: Option<Request>)
      requires Shaped(Model())
      modifies this`pools, this`reqQueues, this`pendingStarts
      ensures id !in old(pendingStarts) ==> Model() == old(Model()) && handedTo.None?
      ensures id in old(pendingStarts) ==>
                (Model(), handedTo) == AddWorker(old(Model()).(starting := old(pendingStarts) - {id}),
                                                 WorkerHandle(id, old(pendingStarts)[id], None, now))
    {
      handedTo := None;
      if id in pendingStarts {
        var tier := pendingStarts[id];
        pendingStarts := pendingStarts - {id};
        handedTo := AddWorkerToPool(WorkerHandle(id, tier, None, now));
      }
    }
  }
}
