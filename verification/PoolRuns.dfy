/**
 The worker pool together with the workers it has handed out, over whole runs:
 no request waits while a worker it may have is idle, grants follow tier and
 arrival order, and no worker is lost or duplicated.
 */
module PoolRuns {
  import opened Common
  import opened WorkerPool

  /** `claimed` are the workers out with sessions, `capacity` the workers ever
      asked for per tier, `asked` the number of requests so far, `tierOf` the
      tier each worker id was spawned for. */
  datatype World = World(
    pool: Pool,
    claimed: map<nat, WorkerHandle>,
    capacity: seq<nat>,
    asked: nat,
    tierOf: map<nat, nat>)

  const INIT := World(Pool([[], [], []], [[], [], []], map[], 1), map[], [0, 0, 0], 0, map[])

  datatype Step =
    | AskIdle(guild: Guild, tier: nat, from: nat, k: nat)
    | AskWait(guild: Guild, tier: nat)
    | GiveBack(id: nat, broken: bool, now: nat)
    | Connected(id: nat, now: nat)
    | SpawnOne(tier: nat)

  /** Worker `worker` goes to request `request`. */
  datatype Grant = Grant(request: Request, worker: WorkerHandle)

  function NewRequest(w: World, g: Guild, tier: nat): Request {
    Request(w.asked, g, tier)
  }

  /** Three pools and three queues, and no tier beyond them. */
  ghost predicate Typed(w: World) {
    Shaped(w.pool) && |w.capacity| == TIERS && forall id :: id in w.claimed ==> w.claimed[id].tier < TIERS
  }

  ghost predicate Enabled(w: World, step: Step) {
    Typed(w) &&
    match step
    case AskIdle(g, tier, t, k) => tier < TIERS && Chosen(w.pool.pools, g, tier, t, k)
    case AskWait(g, tier) => tier < TIERS && forall u :: 0 <= u <= tier ==> w.pool.pools[u] == []
    case GiveBack(id, _, _) => id in w.claimed
    case Connected(id, _) => id in w.pool.starting
    case SpawnOne(tier) => tier < TIERS
  }

  /** A worker that is neither idle, claimed nor starting comes (back) in. */
  function Admit(w: World, h: WorkerHandle): World
    requires |w.pool.pools| == TIERS && |w.pool.queues| == TIERS && h.tier < TIERS
  {
    var (p, r) := AddWorker(w.pool, h);
    if r.Some? then w.(pool := p, claimed := w.claimed[h.id := h.(lastActive := Some(r.value.guild))])
    else w.(pool := p)
  }

  /** The worker admitted by a step, and the world it is admitted to. */
  function Leaves(w: World, id: nat): World {
    w.(claimed := w.claimed - {id}, pool := w.pool.(starting := w.pool.starting - {id}))
  }

  function Returning(w: World, step: Step): WorkerHandle
    requires (step.GiveBack? && step.id in w.claimed) || (step.Connected? && step.id in w.pool.starting)
  {
    if step.GiveBack? then w.claimed[step.id].(returnedAt := step.now)
    else WorkerHandle(step.id, w.pool.starting[step.id], None, step.now)
  }

  function Spawned(w: World, tier: nat): World {
    w.(pool := SpawnWorker(w.pool, tier), tierOf := w.tierOf[w.pool.idGen + 1 := tier])
  }

  ghost function Next(w: World, step: Step): World
    requires Enabled(w, step)
  {
    match step
    case AskIdle(g, tier, t, k) =>
      var h := w.pool.pools[t][k];
      w.(pool := TakeIdle(w.pool, t, k), claimed := w.claimed[h.id := h.(lastActive := Some(g))], asked := w.asked + 1)
    case AskWait(g, tier) => w.(pool := Enqueue(w.pool, NewRequest(w, g, tier)), asked := w.asked + 1)
    case GiveBack(id, broken, now) =>
      if broken then Spawned(w, w.claimed[id].tier).(claimed := w.claimed - {id})
      else Admit(Leaves(w, id), Returning(w, step))
    case Connected(id, now) => Admit(Leaves(w, id), Returning(w, step))
    case SpawnOne(tier) => Spawned(w, tier).(capacity := w.capacity[tier := w.capacity[tier] + 1])
  }

  // ----- invariants -----

  /** No request waits while a worker it may have is idle. */
  ghost predicate NoIdleWait(p: Pool)
    requires Shaped(p)
  {
    forall t, u :: 0 <= u <= t < TIERS && p.queues[t] != [] ==> p.pools[u] == []
  }

  ghost predicate InArrivalOrder(w: World)
    requires Shaped(w.pool)
  {
    forall t, i :: 0 <= t < TIERS && 0 <= i < |w.pool.queues[t]| ==>
      && w.pool.queues[t][i].id < w.asked
      && forall j :: i < j < |w.pool.queues[t]| ==> w.pool.queues[t][i].id < w.pool.queues[t][j].id
  }

  /** The id was generated here, for a worker of that tier. */
  ghost predicate Known(w: World, id: nat, tier: nat) {
    id <= w.pool.idGen && id in w.tierOf && w.tierOf[id] == tier && tier < TIERS
  }

  /** Every worker is idle, claimed or starting, and in one place only. */
  ghost predicate OnePlace(w: World)
    requires Shaped(w.pool)
  {
    && (forall t, k :: 0 <= t < TIERS && 0 <= k < |w.pool.pools[t]| ==>
          var id := w.pool.pools[t][k].id; Known(w, id, t) && id !in w.claimed && id !in w.pool.starting)
    && (forall t, k, j :: 0 <= t < TIERS && 0 <= k < j < |w.pool.pools[t]| ==>
          w.pool.pools[t][k].id != w.pool.pools[t][j].id)
    && (forall id :: id in w.claimed ==>
          id !in w.pool.starting && w.claimed[id].id == id && Known(w, id, w.claimed[id].tier))
    && (forall id :: id in w.pool.starting ==> Known(w, id, w.pool.starting[id]))
  }

  ghost predicate Sound(w: World) {
    Shaped(w.pool) && NoIdleWait(w.pool) && InArrivalOrder(w) && OnePlace(w)
  }

  ghost function ClaimedOf(claimed: map<nat, WorkerHandle>, t: nat): set<nat> {
    set id | id in claimed && claimed[id].tier == t
  }

  ghost function StartingOf(starting: map<nat, nat>, t: nat): set<nat> {
    set id | id in starting && starting[id] == t
  }

  lemma {:induction false} ClaimedAdds(claimed: map<nat, WorkerHandle>, id: nat, h: WorkerHandle, t: nat)
    requires id !in claimed
    ensures |ClaimedOf(claimed[id := h], t)| == |ClaimedOf(claimed, t)| + if t == h.tier then 1 else 0
  {
    assert ClaimedOf(claimed[id := h], t) == ClaimedOf(claimed, t) + if t == h.tier then {id} else {};
  }

  lemma {:induction false} ClaimedDrops(claimed: map<nat, WorkerHandle>, id: nat, t: nat)
    requires id in claimed
    ensures |ClaimedOf(claimed, t)| == |ClaimedOf(claimed - {id}, t)| + if t == claimed[id].tier then 1 else 0
  {
    assert claimed == (claimed - {id})[id := claimed[id]];
    ClaimedAdds(claimed - {id}, id, claimed[id], t);
  }

  lemma {:induction false} StartingAdds(starting: map<nat, nat>, id: nat, tier: nat, t: nat)
    requires id !in starting
    ensures |StartingOf(starting[id := tier], t)| == |StartingOf(starting, t)| + if t == tier then 1 else 0
  {
    assert StartingOf(starting[id := tier], t) == StartingOf(starting, t) + if t == tier then {id} else {};
  }

  lemma {:induction false} StartingDrops(starting: map<nat, nat>, id: nat, t: nat)
    requires id in starting
    ensures |StartingOf(starting, t)| == |StartingOf(starting - {id}, t)| + if t == starting[id] then 1 else 0
  {
    assert starting == (starting - {id})[id := starting[id]];
    StartingAdds(starting - {id}, id, starting[id], t);
  }

  ghost function Count(w: World, t: nat): nat
    requires |w.pool.pools| == TIERS && t < TIERS
  {
    |w.pool.pools[t]| + |ClaimedOf(w.claimed, t)| + |StartingOf(w.pool.starting, t)|
  }

  /** Per tier, idle plus claimed plus starting workers are those asked for. */
  ghost predicate Conserved(w: World) {
    |w.pool.pools| == TIERS && |w.capacity| == TIERS && forall t: nat :: t < TIERS ==> Count(w, t) == w.capacity[t]
  }

  ghost predicate Inv(w: World) { Sound(w) && Conserved(w) }

  // ----- one worker moves -----

  /** A worker that is nowhere in `w`. */
  ghost predicate Out(w: World, h: WorkerHandle) {
    && Sound(w) && Known(w, h.id, h.tier) && h.id !in w.claimed && h.id !in w.pool.starting
    && forall k :: 0 <= k < |w.pool.pools[h.tier]| ==> w.pool.pools[h.tier][k].id != h.id
  }

  /** Exactly the worker `h` is missing from the count. */
  ghost predicate Missing(w: World, h: WorkerHandle) {
    && |w.pool.pools| == TIERS && |w.capacity| == TIERS
    && forall t: nat :: t < TIERS ==> Count(w, t) + (if t == h.tier then 1 else 0) == w.capacity[t]
  }

  function Claiming(w: World, h: WorkerHandle, g: Guild): World {
    w.(claimed := w.claimed[h.id := h.(lastActive := Some(g))])
  }

  lemma {:induction false} ClaimOut(w: World, h: WorkerHandle, g: Guild)
    requires Out(w, h)
    ensures Sound(Claiming(w, h, g))
  {
  }

  lemma {:induction false} ClaimCounts(w: World, h: WorkerHandle, g: Guild)
    requires h.id !in w.claimed && Missing(w, h)
    ensures Conserved(Claiming(w, h, g))
  {
    var v := Claiming(w, h, g);
    forall t: nat | t < TIERS
      ensures Count(v, t) == w.capacity[t]
    {
      ClaimedAdds(w.claimed, h.id, h.(lastActive := Some(g)), t);
    }
  }

  /** The head of a queue taken off. */
  function Served(w: World, q: nat): World
    requires q < |w.pool.queues| && w.pool.queues[q] != []
  {
    w.(pool := w.pool.(queues := w.pool.queues[q := w.pool.queues[q][1..]]))
  }

  lemma {:induction false} ServeOut(w: World, h: WorkerHandle, q: nat)
    requires Out(w, h) && q < TIERS && w.pool.queues[q] != []
    ensures Out(Served(w, q), h)
  {
  }

  lemma {:induction false} AdmitOk(w: World, h: WorkerHandle)
    requires Out(w, h) && Missing(w, h)
    ensures Inv(Admit(w, h))
  {
    var q := NextQueue(w.pool.queues, h.tier);
    if q.Some? {
      ServeOut(w, h, q.value);
      assert Missing(Served(w, q.value), h);
      hide Sound, Missing;
      ClaimOut(Served(w, q.value), h, w.pool.queues[q.value][0].guild);
      ClaimCounts(Served(w, q.value), h, w.pool.queues[q.value][0].guild);
    } else {
      hide Sound, Missing;
    }
  }

  lemma {:induction false} LeaveOut(w: World, step: Step)
    requires Sound(w) && Enabled(w, step) && (step.Connected? || (step.GiveBack? && !step.broken))
    ensures Out(Leaves(w, step.id), Returning(w, step))
  {
  }

  lemma {:induction false} LeaveMissing(w: World, step: Step)
    requires step.Connected? || (step.GiveBack? && !step.broken)
    requires if step.Connected? then step.id in w.pool.starting && step.id !in w.claimed
             else step.id in w.claimed && step.id !in w.pool.starting
    requires Conserved(w)
    ensures Missing(Leaves(w, step.id), Returning(w, step))
  {
    var v, h := Leaves(w, step.id), Returning(w, step);
    forall t: nat | t < TIERS
      ensures Count(v, t) + (if t == h.tier then 1 else 0) == w.capacity[t]
    {
      if step.GiveBack? {
        ClaimedDrops(w.claimed, step.id, t);
        assert w.pool.starting - {step.id} == w.pool.starting;
      } else {
        StartingDrops(w.pool.starting, step.id, t);
        assert w.claimed - {step.id} == w.claimed;
      }
    }
  }

  lemma {:induction false} TakeOut(w: World, t: nat, k: nat)
    requires Sound(w) && t < TIERS && k < |w.pool.pools[t]|
    ensures Out(w.(pool := TakeIdle(w.pool, t, k), asked := w.asked + 1), w.pool.pools[t][k])
  {
    var rest := Without(w.pool.pools[t], k);
    assert forall i :: 0 <= i < |rest| ==> rest[i] == w.pool.pools[t][if i < k then i else i + 1];
  }

  lemma {:induction false} SpawnSound(w: World, tier: nat)
    requires Sound(w) && tier < TIERS
    ensures Sound(Spawned(w, tier))
  {
  }

  lemma {:induction false} SpawnCounts(w: World, tier: nat, t: nat)
    requires Sound(w) && tier < TIERS && t < TIERS
    ensures Count(Spawned(w, tier), t) == Count(w, t) + if t == tier then 1 else 0
  {
    assert w.pool.idGen + 1 !in w.pool.starting;
    StartingAdds(w.pool.starting, w.pool.idGen + 1, tier, t);
  }

  lemma {:induction false} BrokenOk(w: World, id: nat, now: nat)
    requires Inv(w) && Enabled(w, GiveBack(id, true, now))
    ensures Inv(Next(w, GiveBack(id, true, now)))
  {
    var tier := w.claimed[id].tier;
    var u := Spawned(w, tier);
    var v := u.(claimed := w.claimed - {id});
    SpawnSound(w, tier);
    assert Sound(v);
    forall t: nat | t < TIERS
      ensures Count(v, t) == w.capacity[t]
    {
      SpawnCounts(w, tier, t);
      hide Sound;
      ClaimedDrops(w.claimed, id, t);
    }
  }

  lemma {:induction false} SpawnOk(w: World, tier: nat)
    requires Inv(w) && Enabled(w, SpawnOne(tier))
    ensures Inv(Next(w, SpawnOne(tier)))
  {
    var v := Next(w, SpawnOne(tier));
    SpawnSound(w, tier);
    assert Sound(v);
    forall t: nat | t < TIERS
      ensures Count(v, t) == v.capacity[t]
    {
      SpawnCounts(w, tier, t);
    }
  }

  lemma {:induction false} WaitOk(w: World, g: Guild, tier: nat)
    requires Inv(w) && Enabled(w, AskWait(g, tier))
    ensures Inv(Next(w, AskWait(g, tier)))
  {
  }

  lemma {:induction false} NextOk(w: World, step: Step)
    requires Inv(w) && Enabled(w, step)
    ensures Inv(Next(w, step))
  {
    match step {
      case AskIdle(g, tier, t, k) =>
        TakeOut(w, t, k);
        hide Sound, Conserved;
        var v := w.(pool := TakeIdle(w.pool, t, k), asked := w.asked + 1);
        ClaimOut(v, w.pool.pools[t][k], g);
        ClaimCounts(v, w.pool.pools[t][k], g);
      case AskWait(g, tier) => WaitOk(w, g, tier);
      case GiveBack(id, broken, now) =>
        if broken {
          BrokenOk(w, id, now);
        } else {
          LeaveOut(w, step);
          LeaveMissing(w, step);
          AdmitOk(Leaves(w, id), Returning(w, step));
        }
      case Connected(id, now) =>
        LeaveOut(w, step);
        LeaveMissing(w, step);
        AdmitOk(Leaves(w, id), Returning(w, step));
      case SpawnOne(tier) => SpawnOk(w, tier);
    }
  }

  // ----- runs -----

  ghost predicate ValidRun(worlds: seq<World>, steps: seq<Step>) {
    && |worlds| == |steps| + 1 && worlds[0] == INIT
    && forall i :: 0 <= i < |steps| ==> Enabled(worlds[i], steps[i]) && worlds[i + 1] == Next(worlds[i], steps[i])
  }

  lemma {:induction false} InitConserved()
    ensures Conserved(INIT)
  {
    forall t: nat | t < TIERS
      ensures Count(INIT, t) == INIT.capacity[t]
    {
      assert ClaimedOf(map[], t) == {} && StartingOf(map[], t) == {};
    }
  }

  lemma {:induction false} InitOk()
    ensures Inv(INIT)
  {
    InitConserved();
    hide Conserved;
    assert Sound(INIT) by {
      assert forall t: nat :: t < TIERS ==> INIT.pool.pools[t] == [] && INIT.pool.queues[t] == [];
    }
  }

  lemma {:induction false} RunOk(worlds: seq<World>, steps: seq<Step>, k: nat)
    requires ValidRun(worlds, steps) && k < |worlds|
    ensures Inv(worlds[k])
  {
    hide Inv;
    if k == 0 {
      InitOk();
    } else {
      RunOk(worlds, steps, k - 1);
      NextOk(worlds[k - 1], steps[k - 1]);
    }
  }

  function HandOver(p: Pool, h: WorkerHandle): Option<Grant>
    requires |p.pools| == TIERS && |p.queues| == TIERS && h.tier < TIERS
  {
    var r := AddWorker(p, h).1;
    if r.Some? then Some(Grant(r.value, h)) else None
  }

  /** The grant made by a step, if any: at once from an idle pool, or by handing
      over a worker that comes in. */
  ghost function GrantOf(w: World, step: Step): Option<Grant>
    requires Enabled(w, step)
  {
    match step
    case AskIdle(g, tier, t, k) => Some(Grant(NewRequest(w, g, tier), w.pool.pools[t][k]))
    case AskWait(_, _) | SpawnOne(_) => None
    case GiveBack(id, broken, _) => if broken then None else HandOver(Leaves(w, id).pool, Returning(w, step))
    case Connected(id, _) => HandOver(Leaves(w, id).pool, Returning(w, step))
  }

  /** Grant order, in every run: whoever gets a worker, at once or by hand-over,
      no request of a higher tier and no older request of its own tier is
      waiting, and the worker's tier does not exceed the request's. */
  lemma {:induction false} GrantOrder(worlds: seq<World>, steps: seq<Step>, k: nat)
    requires ValidRun(worlds, steps) && k < |steps| && GrantOf(worlds[k], steps[k]).Some?
    ensures var r, h := GrantOf(worlds[k], steps[k]).value.request, GrantOf(worlds[k], steps[k]).value.worker;
            var queues := worlds[k].pool.queues;
            && h.tier <= r.tier < TIERS
            && (forall t :: r.tier < t < TIERS ==> queues[t] == [])
            && (forall q :: q in queues[r.tier] ==> r.id <= q.id)
            && (forall q :: q in worlds[k + 1].pool.queues[r.tier] ==> q.id != r.id)
            && h.id in worlds[k + 1].claimed && worlds[k + 1].claimed[h.id].lastActive == Some(r.guild)
  {
    RunOk(worlds, steps, k);
    RunOk(worlds, steps, k + 1);
    hide OnePlace, Conserved;
  }

  /** In every state of every run: a request waits only while every pool it may
      draw from is empty; each worker is in exactly one place; and per tier, idle
      plus claimed plus starting workers are exactly those that were asked for,
      however many broke and were replaced. */
  lemma {:induction false} PoolConservation(worlds: seq<World>, steps: seq<Step>, k: nat)
    requires ValidRun(worlds, steps) && k < |worlds|
    ensures Shaped(worlds[k].pool) && NoIdleWait(worlds[k].pool) && OnePlace(worlds[k]) && Conserved(worlds[k])
  {
    RunOk(worlds, steps, k);
  }
}
