/**
 The render loop: frames in flight, the timeline, deferred destruction and command pool reuse.

 The render thread and the GPU interleave. The GPU completes submissions in the order they were made;
 completing one signals its fence and raises the timeline semaphore to the value it carries. The render
 thread waits on the fence of the current slot, records a command buffer, submits it, counts the timeline
 up, moves to the next slot and presents. Acquiring or presenting may fail and rebuild the swapchain,
 which may add slots. Resources and command pools that are no longer wanted are put on lists stamped with
 the timeline, and swept at the start of a frame.
 */
module RenderLoop {
  import opened Wrappers
  import opened DiscardPool

  datatype Fence = Signaled | Reset | Attached(k: nat)

  datatype Submission = Submission(slot: nat, pool: nat, cmd: nat, uses: set<nat>, signals: nat)

  /** What the render thread is about to do. */
  datatype Phase =
    | Begin                                          // count the frame in the discard monitor
    | Acquire                                        // wait for the slot's fence and acquire an image
    | Record                                         // the fence is reset; get a command buffer and record
    | Submit(pool: nat, cmd: nat, uses: set<nat>)
    | Advance                                        // count the timeline up and move to the next slot
    | Present
  {
    predicate Recording() { Record? || Submit? }
  }

  /** The slots and the GPU. */
  datatype Flight = Flight(
    timeline: nat,
    frameIndex: nat,
    fences: seq<Fence>,               // one per slot
    semaphore: nat,                   // the timeline semaphore's counter
    completed: nat,                   // how many submissions the GPU has completed
    submissions: seq<Submission>)     // all there ever were

  /** The render thread's command pools and their cached command buffers. */
  datatype Pools = Pools(
    active: Option<nat>,
    ring: seq<nat>,                   // recycled pools
    list: seq<Stamped<nat>>,          // discarded pools
    dead: seq<nat>,                   // destroyed pools (history)
    created: nat,                     // how many there ever were
    cache: map<(nat, nat), nat>,      // command buffers by pool and key
    buffers: nat)                     // how many command buffers were allocated

  /** Everything else whose destruction is deferred. */
  datatype Waste = Waste(
    live: set<nat>,
    list: seq<Stamped<nat>>,
    destroyed: seq<nat>,              // (history)
    created: nat,
    early: set<nat>)                  // discarded while something that uses them was exposed (history)

  datatype State = State(ids: nat -> nat, phase: Phase, flight: Flight, pools: Pools, waste: Waste)

  datatype Action =
    | Tick(sweep: bool)                       // whether the monitor finds a list over its limit
    | AcquireImage(ok: bool, images: nat)     // on failure, how many images the new swapchain has
    | RecordFrame(uses: set<nat>)
    | SubmitFrame
    | AdvanceFrame
    | PresentImage(ok: bool, images: nat)
    | Create
    | Discard(r: nat)
    | Complete                                // the GPU

  const RING_CAPACITY := 63

  /** `ids` gives the key under which each slot caches its command buffer. */
  function Init(slots: nat, ids: nat -> nat): State
    requires slots > 0
  {
    State(ids, Begin, Flight(0, 0, seq(slots, _ => Signaled), 0, 0, []),
          Pools(None, [], [], [], 0, map[], 0), Waste({}, [], [], 0, {}))
  }

  // ---------------------------------------------------------------- steps

  // The slots and the GPU.

  /** New slots get fences that are signaled; there are never fewer slots than before. */
  function Recreate(f: Flight, images: nat): Flight {
    if images > |f.fences| then f.(fences := f.fences + seq(images - |f.fences|, _ => Signaled)) else f
  }

  function ResetFence(f: Flight): Flight
    requires f.frameIndex < |f.fences|
  {
    f.(fences := f.fences[f.frameIndex := Reset])
  }

  function QueueSubmit(f: Flight, pool: nat, cmd: nat, uses: set<nat>): Flight
    requires f.frameIndex < |f.fences|
  {
    f.(submissions := f.submissions + [Submission(f.frameIndex, pool, cmd, uses, f.timeline + 1)],
       fences := f.fences[f.frameIndex := Attached(|f.submissions|)])
  }

  function NextFrame(f: Flight): Flight
    requires f.frameIndex < |f.fences|
  {
    f.(timeline := f.timeline + 1, frameIndex := (f.frameIndex + 1) % |f.fences|)
  }

  function CompleteOne(f: Flight): Flight
    requires f.completed < |f.submissions|
  {
    f.(completed := f.completed + 1, semaphore := f.submissions[f.completed].signals,
       fences := seq(|f.fences|, i requires 0 <= i < |f.fences| =>
         if f.fences[i] == Attached(f.completed) then Signaled else f.fences[i]))
  }

  // The command pools.

  /** Recycled pools go to the ring, or are destroyed when it is full. */
  function Recycle(ring: seq<nat>, dead: seq<nat>, pools: seq<nat>): (seq<nat>, seq<nat>)
    decreases |pools|
  {
    if pools == [] then (ring, dead)
    else if |ring| < RING_CAPACITY then Recycle(ring + [pools[0]], dead, pools[1..])
    else Recycle(ring, dead + [pools[0]], pools[1..])
  }

  function SweepPools(p: Pools, now: nat): Pools {
    var m := Old(p.list, now);
    var (ring, dead) := Recycle(p.ring, p.dead, Items(p.list[..m]));
    p.(list := p.list[m..], ring := ring, dead := dead)
  }

  function DiscardActivePool(p: Pools, now: nat): Pools {
    if p.active.None? then p
    else p.(active := None, list := p.list + [Stamped(now, p.active.value)])
  }

  /** An active pool: the one there is, or the oldest recycled one, or a new one. */
  function EnsureActive(p: Pools): (p': Pools)
    ensures p'.active.Some?
  {
    if p.active.Some? then p
    else if p.ring != [] then p.(active := Some(p.ring[0]), ring := p.ring[1..])
    else p.(active := Some(p.created), created := p.created + 1)
  }

  /** Allocates the command buffer of a key in a pool, unless it is cached. */
  function EnsureBuffer(p: Pools, key: (nat, nat)): (p': Pools)
    ensures key in p'.cache
  {
    if key in p.cache then p else p.(cache := p.cache[key := p.buffers], buffers := p.buffers + 1)
  }

  // Everything else.

  function SweepWaste(w: Waste, now: nat): Waste {
    var n := Old(w.list, now);
    w.(list := w.list[n..], destroyed := w.destroyed + Items(w.list[..n]))
  }

  function CreateOne(w: Waste): Waste {
    w.(live := w.live + {w.created}, created := w.created + 1)
  }

  /**
   What a discard with the present timeline does not cover: the uses of the recording under way, and of a
   submission that is not counted in the timeline yet and not completed.
   */
  function Exposed(f: Flight, phase: Phase): set<nat> {
    if phase.Submit? then phase.uses
    else if phase.Advance? && f.completed < |f.submissions| then f.submissions[|f.submissions| - 1].uses
    else {}
  }

  function DiscardResource(w: Waste, now: nat, r: nat, exposed: set<nat>): Waste {
    w.(live := w.live - {r}, list := w.list + [Stamped(now, r)],
       early := if r in exposed then w.early + {r} else w.early)
  }

  // All of it.

  function Resize(s: State, images: nat): State {
    s.(phase := Begin, flight := Recreate(s.flight, images), pools := DiscardActivePool(s.pools, s.flight.timeline))
  }

  function RecordStep(s: State, uses: set<nat>): State {
    var p := EnsureActive(s.pools);
    var key := (p.active.value, s.ids(s.flight.frameIndex));
    var p' := EnsureBuffer(p, key);
    s.(phase := Submit(key.0, p'.cache[key], uses * s.waste.live), pools := p')
  }

  /** What an action does; an action that is not enabled changes nothing. */
  function Next(s: State, a: Action): State
    requires s.flight.frameIndex < |s.flight.fences|
  {
    match a
    case Tick(sweep) =>
      if !s.phase.Begin? then s
      else if !sweep then s.(phase := Acquire)
      else s.(phase := Acquire, waste := SweepWaste(s.waste, s.flight.semaphore),
              pools := SweepPools(s.pools, s.flight.semaphore))
    case AcquireImage(ok, images) =>
      if !s.phase.Acquire? || !s.flight.fences[s.flight.frameIndex].Signaled? then s
      else if ok then s.(phase := Record, flight := ResetFence(s.flight))
      else Resize(s, images)
    case RecordFrame(uses) => if s.phase.Record? then RecordStep(s, uses) else s
    case SubmitFrame =>
      if s.phase.Submit? then
        s.(phase := Advance, flight := QueueSubmit(s.flight, s.phase.pool, s.phase.cmd, s.phase.uses))
      else s
    case AdvanceFrame => if s.phase.Advance? then s.(phase := Present, flight := NextFrame(s.flight)) else s
    case PresentImage(ok, images) =>
      if !s.phase.Present? then s
      else if ok then s.(phase := Begin)
      else Resize(s, images)
    case Create => s.(waste := CreateOne(s.waste))
    case Discard(r) =>
      if r in s.waste.live then
        s.(waste := DiscardResource(s.waste, s.flight.timeline, r, Exposed(s.flight, s.phase)))
      else s
    case Complete =>
      if s.flight.completed < |s.flight.submissions| then s.(flight := CompleteOne(s.flight)) else s
  }

  lemma NextInRange(s: State, a: Action)
    requires s.flight.frameIndex < |s.flight.fences|
    ensures Next(s, a).flight.frameIndex < |Next(s, a).flight.fences|
    ensures |s.flight.fences| <= |Next(s, a).flight.fences| && Next(s, a).ids == s.ids
  {
  }

  function Run(s: State, schedule: seq<Action>): State
    requires s.flight.frameIndex < |s.flight.fences|
    decreases |schedule|
  {
    if schedule == [] then s
    else
      NextInRange(s, schedule[0]);
      Run(Next(s, schedule[0]), schedule[1..])
  }

  // ---------------------------------------------------------------- timeline and fences

  ghost predicate Clocks(f: Flight, phase: Phase) {
    && f.frameIndex < |f.fences|
    && f.completed <= |f.submissions|
    && f.semaphore == f.completed
    && |f.submissions| == f.timeline + (if phase.Advance? then 1 else 0)
    && forall k: nat | k < |f.submissions| :: f.submissions[k].signals == k + 1
  }

  ghost predicate Pending(f: Flight, k: nat) {
    f.completed <= k < |f.submissions|
  }

  /** Every fence is signaled, or reset for the frame being recorded, or attached to a pending submission. */
  ghost predicate FenceOk(f: Flight, phase: Phase, i: nat)
    requires i < |f.fences|
  {
    match f.fences[i]
    case Signaled => true
    case Reset => i == f.frameIndex && phase.Recording()
    case Attached(k) => Pending(f, k) && f.submissions[k].slot == i
  }

  ghost predicate PendingOk(f: Flight, k: nat)
    requires k < |f.submissions|
  {
    f.submissions[k].slot < |f.fences| && f.fences[f.submissions[k].slot] == Attached(k)
  }

  ghost predicate Fences(f: Flight, phase: Phase) {
    && Clocks(f, phase)
    && (forall i: nat | i < |f.fences| :: FenceOk(f, phase, i))
    && (forall k: nat | Pending(f, k) :: PendingOk(f, k))
    && (phase.Recording() ==> f.fences[f.frameIndex].Reset?)
  }

  lemma PhaseFences(f: Flight, phase: Phase, phase': Phase)
    requires Fences(f, phase) && phase.Recording() == phase'.Recording() && phase.Advance? == phase'.Advance?
    ensures Fences(f, phase')
  {
    forall i: nat | i < |f.fences| ensures FenceOk(f, phase', i) { assert FenceOk(f, phase, i); }
  }

  lemma RecreateFences(f: Flight, phase: Phase, images: nat)
    requires Fences(f, phase) && !phase.Recording() && !phase.Advance?
    ensures Fences(Recreate(f, images), Begin)
  {
    PhaseFences(f, phase, Begin);
    var f' := Recreate(f, images);
    forall i: nat | i < |f'.fences| ensures FenceOk(f', Begin, i) {
      if i < |f.fences| { assert FenceOk(f, Begin, i); }
    }
    forall k: nat | Pending(f', k) ensures PendingOk(f', k) { assert PendingOk(f, k); }
  }

  lemma ResetFenceFences(f: Flight)
    requires Fences(f, Acquire) && f.fences[f.frameIndex].Signaled?
    ensures Fences(ResetFence(f), Record)
  {
    var f' := ResetFence(f);
    forall i: nat | i < |f'.fences| ensures FenceOk(f', Record, i) { assert FenceOk(f, Acquire, i); }
    forall k: nat | Pending(f', k) ensures PendingOk(f', k) { assert PendingOk(f, k); }
  }

  lemma QueueSubmitFences(f: Flight, pool: nat, cmd: nat, uses: set<nat>)
    requires Fences(f, Submit(pool, cmd, uses))
    ensures Fences(QueueSubmit(f, pool, cmd, uses), Advance)
  {
    var f' := QueueSubmit(f, pool, cmd, uses);
    forall i: nat | i < |f'.fences| ensures FenceOk(f', Advance, i) {
      assert FenceOk(f, Submit(pool, cmd, uses), i);
    }
    forall k: nat | Pending(f', k) ensures PendingOk(f', k) {
      if k < |f.submissions| { assert PendingOk(f, k); }
    }
  }

  lemma NextFrameFences(f: Flight)
    requires Fences(f, Advance)
    ensures Fences(NextFrame(f), Present)
  {
    var f' := NextFrame(f);
    forall i: nat | i < |f'.fences| ensures FenceOk(f', Present, i) { assert FenceOk(f, Advance, i); }
    forall k: nat | Pending(f', k) ensures PendingOk(f', k) { assert PendingOk(f, k); }
  }

  lemma CompleteOneFences(f: Flight, phase: Phase)
    requires Fences(f, phase) && f.completed < |f.submissions|
    ensures Fences(CompleteOne(f), phase)
  {
    var f' := CompleteOne(f);
    forall i: nat | i < |f'.fences| ensures FenceOk(f', phase, i) { assert FenceOk(f, phase, i); }
    forall k: nat | Pending(f', k) ensures PendingOk(f', k) { assert PendingOk(f, k); }
  }

  lemma NextFences(s: State, a: Action)
    requires Fences(s.flight, s.phase)
    ensures Fences(Next(s, a).flight, Next(s, a).phase)
  {
    var f := s.flight;
    match a
    case Tick(_) => if s.phase.Begin? { PhaseFences(f, Begin, Acquire); }
    case RecordFrame(uses) => if s.phase.Record? { PhaseFences(f, Record, Next(s, a).phase); }
    case AcquireImage(ok, images) =>
      if s.phase.Acquire? && f.fences[f.frameIndex].Signaled? {
        ResetFenceFences(f);
        RecreateFences(f, s.phase, images);
      }
    case SubmitFrame => if s.phase.Submit? { QueueSubmitFences(f, s.phase.pool, s.phase.cmd, s.phase.uses); }
    case AdvanceFrame => if s.phase.Advance? { NextFrameFences(f); }
    case PresentImage(_, images) =>
      if s.phase.Present? {
        PhaseFences(f, Present, Begin);
        RecreateFences(f, Present, images);
      }
    case Complete => if f.completed < |f.submissions| { CompleteOneFences(f, s.phase); }
    case _ =>
  }

  // ---------------------------------------------------------------- command buffers

  /** A pool holds a command buffer for a key. */
  ghost predicate Holds(p: Pools, pool: nat, id: nat, cmd: nat) {
    (pool, id) in p.cache && p.cache[(pool, id)] == cmd
  }

  /** Each key of each pool has its own command buffer. */
  ghost predicate CacheOk(p: Pools) {
    && (forall key | key in p.cache :: p.cache[key] < p.buffers)
    && (forall key, other | key in p.cache && other in p.cache && p.cache[key] == p.cache[other] :: key == other)
  }

  /** Every submission used the command buffer its pool holds for its slot. */
  ghost predicate SlotBuffers(s: State) {
    && CacheOk(s.pools)
    && (forall k: nat | k < |s.flight.submissions| ::
          var x := s.flight.submissions[k]; Holds(s.pools, x.pool, s.ids(x.slot), x.cmd))
    && (s.phase.Submit? ==> Holds(s.pools, s.phase.pool, s.ids(s.flight.frameIndex), s.phase.cmd))
  }

  /** The first n slots have different keys. */
  ghost predicate Distinct(ids: nat -> nat, n: nat) {
    forall i: nat, j: nat | i < n && j < n && ids(i) == ids(j) :: i == j
  }

  /** A command buffer that is being recorded is in no pending submission. */
  lemma RecordedBufferIsIdle(s: State, k: nat)
    requires Fences(s.flight, s.phase) && SlotBuffers(s) && s.phase.Submit? && Pending(s.flight, k)
    requires Distinct(s.ids, |s.flight.fences|)
    ensures s.flight.submissions[k].cmd != s.phase.cmd
  {
    assert PendingOk(s.flight, k);
    var x := s.flight.submissions[k];
    assert Holds(s.pools, x.pool, s.ids(x.slot), x.cmd);
  }

  lemma EnsureBufferCache(p: Pools, key: (nat, nat))
    requires CacheOk(p)
    ensures CacheOk(EnsureBuffer(p, key))
    ensures forall pool: nat, id: nat, cmd: nat | Holds(p, pool, id, cmd) :: Holds(EnsureBuffer(p, key), pool, id, cmd)
  {
  }

  lemma RecordBuffers(s: State, uses: set<nat>)
    requires SlotBuffers(s)
    ensures SlotBuffers(RecordStep(s, uses))
  {
    var p := EnsureActive(s.pools);
    EnsureBufferCache(p, (p.active.value, s.ids(s.flight.frameIndex)));
    forall k: nat | k < |s.flight.submissions|
      ensures var x := s.flight.submissions[k]; Holds(p, x.pool, s.ids(x.slot), x.cmd)
    {
      var x := s.flight.submissions[k];
      assert Holds(s.pools, x.pool, s.ids(x.slot), x.cmd);
    }
  }

  /** Nothing else touches the cache. */
  lemma SameBuffers(s: State, s': State)
    requires SlotBuffers(s) && s'.pools.cache == s.pools.cache && s'.pools.buffers == s.pools.buffers && s'.ids == s.ids
    requires s'.flight.submissions == s.flight.submissions
    requires s'.phase.Submit? ==> s'.phase == s.phase && s'.flight.frameIndex == s.flight.frameIndex
    ensures SlotBuffers(s')
  {
    forall k: nat | k < |s'.flight.submissions|
      ensures var x := s'.flight.submissions[k]; Holds(s'.pools, x.pool, s'.ids(x.slot), x.cmd)
    {
      var x := s.flight.submissions[k];
      assert Holds(s.pools, x.pool, s.ids(x.slot), x.cmd);
    }
  }

  lemma SubmitBuffers(s: State)
    requires s.flight.frameIndex < |s.flight.fences| && SlotBuffers(s) && s.phase.Submit?
    ensures SlotBuffers(Next(s, SubmitFrame))
  {
    assert forall k: nat | k < |s.flight.submissions| ::
        var x := s.flight.submissions[k]; Holds(s.pools, x.pool, s.ids(x.slot), x.cmd);
  }

  lemma NextBuffers(s: State, a: Action)
    requires s.flight.frameIndex < |s.flight.fences| && SlotBuffers(s)
    ensures SlotBuffers(Next(s, a))
  {
    if a.RecordFrame? && s.phase.Record? {
      RecordBuffers(s, a.uses);
    } else if a.SubmitFrame? && s.phase.Submit? {
      SubmitBuffers(s);
    } else {
      SameBuffers(s, Next(s, a));
    }
  }

  // ---------------------------------------------------------------- command pools

  /** How often x occurs. */
  ghost function Times(items: seq<nat>, x: nat): nat {
    multiset(items)[x]
  }

  lemma TimesConcat(a: seq<nat>, b: seq<nat>, x: nat)
    ensures Times(a + b, x) == Times(a, x) + Times(b, x)
  {
  }

  lemma TimesOne(y: nat, x: nat)
    ensures Times([y], x) == if x == y then 1 else 0
  {
  }

  lemma TimesIn(items: seq<nat>, x: nat)
    ensures Times(items, x) > 0 <==> x in items
  {
  }

  /** How often pool x is active, discarded, recycled or destroyed. */
  ghost function Places(p: Pools, x: nat): nat {
    (if p.active == Some(x) then 1 else 0) + Times(Items(p.list), x) + Times(p.ring, x) + Times(p.dead, x)
  }

  /** Every pool ever created is in exactly one place, and no other pool is anywhere. */
  ghost predicate PoolsConserved(p: Pools) {
    |p.ring| <= RING_CAPACITY && forall x: nat :: Places(p, x) == if x < p.created then 1 else 0
  }

  lemma ItemsSplit(list: seq<Stamped<nat>>, n: nat, x: nat)
    requires n <= |list|
    ensures Times(Items(list), x) == Times(Items(list[..n]), x) + Times(Items(list[n..]), x)
  {
    assert Items(list[..n]) + Items(list[n..]) == Items(list);
    TimesConcat(Items(list[..n]), Items(list[n..]), x);
  }

  lemma ItemsAppend(list: seq<Stamped<nat>>, now: nat, y: nat, x: nat)
    ensures Times(Items(list + [Stamped(now, y)]), x) == Times(Items(list), x) + if x == y then 1 else 0
  {
    assert Items(list + [Stamped(now, y)]) == Items(list) + [y];
    TimesConcat(Items(list), [y], x);
    TimesOne(y, x);
  }

  lemma {:induction false} RecycleConserves(ring: seq<nat>, dead: seq<nat>, pools: seq<nat>, x: nat)
    requires |ring| <= RING_CAPACITY
    ensures var (ring', dead') := Recycle(ring, dead, pools);
      && |ring'| <= RING_CAPACITY && ring <= ring' && dead <= dead'
      && Times(ring', x) + Times(dead', x) == Times(ring, x) + Times(dead, x) + Times(pools, x)
      && (dead' != dead ==> |ring'| == RING_CAPACITY)
    decreases |pools|
  {
    if pools != [] {
      assert pools == [pools[0]] + pools[1..];
      TimesConcat([pools[0]], pools[1..], x);
      if |ring| < RING_CAPACITY {
        RecycleConserves(ring + [pools[0]], dead, pools[1..], x);
        TimesConcat(ring, [pools[0]], x);
      } else {
        RecycleConserves(ring, dead + [pools[0]], pools[1..], x);
        TimesConcat(dead, [pools[0]], x);
      }
    }
  }

  lemma SweepPoolsConserves(p: Pools, now: nat, x: nat)
    requires |p.ring| <= RING_CAPACITY
    ensures Places(SweepPools(p, now), x) == Places(p, x) && |SweepPools(p, now).ring| <= RING_CAPACITY
  {
    var m := Old(p.list, now);
    ItemsSplit(p.list, m, x);
    RecycleConserves(p.ring, p.dead, Items(p.list[..m]), x);
  }

  lemma DiscardActiveConserves(p: Pools, now: nat, x: nat)
    ensures Places(DiscardActivePool(p, now), x) == Places(p, x)
  {
    if p.active.Some? {
      ItemsAppend(p.list, now, p.active.value, x);
    }
  }

  lemma EnsureActiveConserves(p: Pools, x: nat)
    ensures var p' := EnsureActive(p);
      Places(p', x) == Places(p, x) + (if p'.created > p.created && x == p.created then 1 else 0)
  {
    if p.active.None? && p.ring != [] {
      assert p.ring == [p.ring[0]] + p.ring[1..];
      TimesConcat([p.ring[0]], p.ring[1..], x);
      TimesOne(p.ring[0], x);
    }
  }

  /** The four things that happen to the pools. */
  ghost predicate PoolStep(s: State, p': Pools) {
    || p' == s.pools
    || p' == SweepPools(s.pools, s.flight.semaphore)
    || p' == DiscardActivePool(s.pools, s.flight.timeline)
    || p' == EnsureBuffer(EnsureActive(s.pools), (EnsureActive(s.pools).active.value, s.ids(s.flight.frameIndex)))
  }

  lemma NextPoolStep(s: State, a: Action)
    requires s.flight.frameIndex < |s.flight.fences|
    ensures PoolStep(s, Next(s, a).pools)
  {
  }

  lemma StepPlaces(s: State, p': Pools, x: nat)
    requires PoolStep(s, p') && |s.pools.ring| <= RING_CAPACITY
    ensures |p'.ring| <= RING_CAPACITY && s.pools.created <= p'.created <= s.pools.created + 1
    ensures Places(p', x) ==
      Places(s.pools, x) + (if p'.created > s.pools.created && x == s.pools.created then 1 else 0)
  {
    SweepPoolsConserves(s.pools, s.flight.semaphore, x);
    DiscardActiveConserves(s.pools, s.flight.timeline, x);
    EnsureActiveConserves(s.pools, x);
  }

  lemma NextConservesPools(s: State, a: Action)
    requires s.flight.frameIndex < |s.flight.fences| && PoolsConserved(s.pools)
    ensures PoolsConserved(Next(s, a).pools)
  {
    var p' := Next(s, a).pools;
    NextPoolStep(s, a);
    StepPlaces(s, p', 0);
    forall x: nat ensures Places(p', x) == if x < p'.created then 1 else 0 {
      StepPlaces(s, p', x);
    }
  }

  // ---------------------------------------------------------------- when pools are recycled

  /** All submissions recorded from pool x are complete. */
  ghost predicate PoolIdle(f: Flight, x: nat) {
    forall k: nat | k < |f.submissions| && f.submissions[k].pool == x :: k < f.completed
  }

  /** The stamp of a discarded pool is past every submission recorded from it. */
  ghost predicate PoolEntryOk(f: Flight, e: Stamped<nat>) {
    e.stamp <= f.timeline && forall k: nat | k < |f.submissions| && f.submissions[k].pool == e.item :: k < e.stamp
  }

  /** A pool is recycled, or destroyed, only after everything recorded from it has completed. */
  ghost predicate PoolsIdle(p: Pools, f: Flight) {
    && Sorted(p.list) && (forall i: nat | i < |p.list| :: PoolEntryOk(f, p.list[i]))
    && (forall x: nat | x in p.ring || x in p.dead :: PoolIdle(f, x))
    && (forall k: nat | k < |f.submissions| :: f.submissions[k].pool < p.created)
  }

  lemma {:induction false} RecycledCame(ring: seq<nat>, dead: seq<nat>, pools: seq<nat>, x: nat)
    requires var (ring', dead') := Recycle(ring, dead, pools); x in ring' || x in dead'
    ensures x in ring || x in dead || x in pools
    decreases |pools|
  {
    if pools != [] {
      if |ring| < RING_CAPACITY {
        RecycledCame(ring + [pools[0]], dead, pools[1..], x);
      } else {
        RecycledCame(ring, dead + [pools[0]], pools[1..], x);
      }
    }
  }

  lemma SweepPoolsIdle(p: Pools, f: Flight)
    requires PoolsIdle(p, f) && f.semaphore == f.completed
    ensures PoolsIdle(SweepPools(p, f.semaphore), f)
  {
    var m := Old(p.list, f.semaphore);
    var p' := SweepPools(p, f.semaphore);
    forall x: nat | x in p'.ring || x in p'.dead ensures PoolIdle(f, x) {
      RecycledCame(p.ring, p.dead, Items(p.list[..m]), x);
      if x in Items(p.list[..m]) {
        var i: nat :| i < m && p.list[i].item == x;
        assert PoolEntryOk(f, p.list[i]);
      } else {
        assert PoolIdle(f, x);
      }
    }
    forall i: nat | i < |p'.list| ensures PoolEntryOk(f, p'.list[i]) {
      assert PoolEntryOk(f, p.list[m + i]);
    }
  }

  lemma DiscardActiveIdle(p: Pools, f: Flight)
    requires PoolsIdle(p, f) && f.timeline == |f.submissions|
    ensures PoolsIdle(DiscardActivePool(p, f.timeline), f)
  {
    if p.active.Some? {
      AppendSorted(p.list, f.timeline, p.active.value);
      assert forall i: nat | i < |p.list| :: PoolEntryOk(f, p.list[i]);
    }
  }

  lemma EnsureActiveIdle(p: Pools, f: Flight)
    requires PoolsIdle(p, f)
    ensures PoolsIdle(EnsureActive(p), f)
  {
    assert forall x: nat | x in p.ring :: PoolIdle(f, x);
  }

  /** The flight only moves forward: submissions are added, completed, and counted. */
  ghost predicate Forward(f: Flight, f': Flight) {
    && f.submissions <= f'.submissions && f.completed <= f'.completed && f.timeline <= f'.timeline
  }

  /** A new submission records from the active pool, which is in no list. */
  lemma ForwardIdle(p: Pools, f: Flight, f': Flight)
    requires PoolsIdle(p, f) && PoolsConserved(p) && Forward(f, f')
    requires forall k: nat | |f.submissions| <= k < |f'.submissions| :: p.active == Some(f'.submissions[k].pool)
    ensures PoolsIdle(p, f')
  {
    forall x: nat | x in p.ring || x in p.dead ensures PoolIdle(f', x) {
      assert PoolIdle(f, x);
      ActiveElsewhere(p, x);
    }
    forall i: nat | i < |p.list| ensures PoolEntryOk(f', p.list[i]) {
      assert PoolEntryOk(f, p.list[i]);
      assert p.list[i].item in Items(p.list) by { assert Items(p.list)[i] == p.list[i].item; }
      ActiveElsewhere(p, p.list[i].item);
    }
    if p.active.Some? {
      assert Places(p, p.active.value) == if p.active.value < p.created then 1 else 0;
    }
  }

  lemma ActiveElsewhere(p: Pools, x: nat)
    requires PoolsConserved(p) && (x in p.ring || x in p.dead || x in Items(p.list))
    ensures p.active != Some(x)
  {
    assert Places(p, x) <= 1;
    TimesIn(p.ring, x);
    TimesIn(p.dead, x);
    TimesIn(Items(p.list), x);
  }

  lemma NextForward(s: State, a: Action)
    requires s.flight.frameIndex < |s.flight.fences| && (s.phase.Submit? ==> s.pools.active == Some(s.phase.pool))
    ensures var f, f' := s.flight, Next(s, a).flight;
      && Forward(f, f')
      && (forall k: nat | |f.submissions| <= k < |f'.submissions| :: s.pools.active == Some(f'.submissions[k].pool))
      && (Next(s, a).phase.Submit? ==> Next(s, a).pools.active == Some(Next(s, a).phase.pool))
      && (s.pools != Next(s, a).pools ==> f'.submissions == f.submissions)
  {
  }

  ghost predicate ActiveRecorded(s: State) {
    s.phase.Submit? ==> s.pools.active == Some(s.phase.pool)
  }

  lemma NextPoolsIdle(s: State, a: Action)
    requires Clocks(s.flight, s.phase) && ActiveRecorded(s)
    requires PoolsConserved(s.pools) && PoolsIdle(s.pools, s.flight)
    ensures ActiveRecorded(Next(s, a)) && PoolsIdle(Next(s, a).pools, Next(s, a).flight)
  {
    var s' := Next(s, a);
    NextForward(s, a);
    NextConservesPools(s, a);
    if s'.pools != s.pools {
      match a
      case Tick(_) => SweepPoolsIdle(s.pools, s.flight);
      case AcquireImage(_, _) => DiscardActiveIdle(s.pools, s.flight);
      case PresentImage(_, _) => DiscardActiveIdle(s.pools, s.flight);
      case RecordFrame(_) => EnsureActiveIdle(s.pools, s.flight);
      assert PoolsIdle(s'.pools, s.flight);
    }
    ForwardIdle(s'.pools, s.flight, s'.flight);
  }

  // ---------------------------------------------------------------- when resources are destroyed

  /** How often resource r is live, discarded or destroyed. */
  ghost function WastePlaces(w: Waste, r: nat): nat {
    (if r in w.live then 1 else 0) + Times(Items(w.list), r) + Times(w.destroyed, r)
  }

  /** Every resource ever created is in exactly one place, and no other resource is anywhere. */
  ghost predicate WasteConserved(w: Waste) {
    forall r: nat :: WastePlaces(w, r) == if r < w.created then 1 else 0
  }

  /** All submissions that use resource r are complete. */
  ghost predicate UsesDone(f: Flight, r: nat) {
    forall k: nat | k < |f.submissions| && r in f.submissions[k].uses :: k < f.completed
  }

  /**
   The stamp of a discarded resource is past every submission that uses it and has not completed, except that
   it may equal the one that was exposed.
   */
  ghost predicate WasteEntryOk(w: Waste, f: Flight, e: Stamped<nat>) {
    && e.stamp <= f.timeline
    && forall k: nat | k < |f.submissions| && e.item in f.submissions[k].uses ::
         k < e.stamp || k < f.completed || (k == e.stamp && e.item in w.early)
  }

  /** A resource the recording under way uses is live, or was discarded since and stamped with this time. */
  ghost predicate RecordedOk(w: Waste, f: Flight, r: nat) {
    && r < w.created && r !in w.destroyed
    && (r in w.live ||
        (r in w.early && forall i: nat | i < |w.list| && w.list[i].item == r :: w.list[i].stamp == f.timeline))
  }

  ghost predicate WasteOk(w: Waste, f: Flight, phase: Phase) {
    && Sorted(w.list) && (forall i: nat | i < |w.list| :: WasteEntryOk(w, f, w.list[i]))
    && (forall r: nat | r in w.destroyed && r !in w.early :: UsesDone(f, r))
    && (forall k: nat, r: nat | k < |f.submissions| && r in f.submissions[k].uses :: r < w.created)
    && (phase.Submit? ==> forall r: nat | r in phase.uses :: RecordedOk(w, f, r))
    && w.early !! w.live && (forall r: nat | r in w.early :: r < w.created)
  }

  lemma SweepWasteConserves(w: Waste, now: nat)
    requires WasteConserved(w)
    ensures WasteConserved(SweepWaste(w, now))
  {
    var w' := SweepWaste(w, now);
    forall r: nat ensures WastePlaces(w', r) == if r < w'.created then 1 else 0 {
      assert WastePlaces(w, r) == if r < w.created then 1 else 0;
      ItemsSplit(w.list, Old(w.list, now), r);
      TimesConcat(w.destroyed, Items(w.list[..Old(w.list, now)]), r);
    }
  }

  lemma DiscardConserves(w: Waste, now: nat, x: nat, exposed: set<nat>)
    requires WasteConserved(w) && x in w.live
    ensures WasteConserved(DiscardResource(w, now, x, exposed))
  {
    var w' := DiscardResource(w, now, x, exposed);
    forall r: nat ensures WastePlaces(w', r) == if r < w'.created then 1 else 0 {
      assert WastePlaces(w, r) == if r < w.created then 1 else 0;
      ItemsAppend(w.list, now, x, r);
    }
  }

  lemma CreateConserves(w: Waste)
    requires WasteConserved(w)
    ensures WasteConserved(CreateOne(w))
  {
    forall r: nat ensures WastePlaces(CreateOne(w), r) == if r < w.created + 1 then 1 else 0 {
      assert WastePlaces(w, r) == if r < w.created then 1 else 0;
    }
  }

  lemma NextConservesWaste(s: State, a: Action)
    requires s.flight.frameIndex < |s.flight.fences| && WasteConserved(s.waste)
    ensures WasteConserved(Next(s, a).waste)
  {
    match a
    case Tick(_) => SweepWasteConserves(s.waste, s.flight.semaphore);
    case Create => CreateConserves(s.waste);
    case Discard(r) =>
      if r in s.waste.live { DiscardConserves(s.waste, s.flight.timeline, r, Exposed(s.flight, s.phase)); }
    case _ =>
  }

  /** A live resource is not discarded and not destroyed. */
  lemma LiveElsewhere(w: Waste, r: nat)
    requires WasteConserved(w) && r in w.live
    ensures r < w.created && r !in w.destroyed && forall i: nat | i < |w.list| :: w.list[i].item != r
  {
    assert WastePlaces(w, r) == if r < w.created then 1 else 0;
    TimesIn(w.destroyed, r);
    TimesIn(Items(w.list), r);
    forall i: nat | i < |w.list| ensures w.list[i].item != r {
      assert Items(w.list)[i] == w.list[i].item;
    }
  }

  lemma SweepWasteOk(w: Waste, f: Flight)
    requires WasteOk(w, f, Begin) && f.semaphore == f.completed
    ensures WasteOk(SweepWaste(w, f.semaphore), f, Acquire)
  {
    var n := Old(w.list, f.semaphore);
    var w' := SweepWaste(w, f.semaphore);
    forall r: nat | r in w'.destroyed && r !in w'.early ensures UsesDone(f, r) {
      if r in w.destroyed {
        assert UsesDone(f, r);
      } else {
        var i: nat :| i < n && w.list[i].item == r;
        assert WasteEntryOk(w, f, w.list[i]);
      }
    }
    forall i: nat | i < |w'.list| ensures WasteEntryOk(w', f, w'.list[i]) {
      assert WasteEntryOk(w, f, w.list[n + i]);
    }
  }

  lemma DiscardWasteOk(w: Waste, f: Flight, x: nat, phase: Phase)
    requires WasteOk(w, f, phase) && WasteConserved(w) && x in w.live && Clocks(f, phase)
    ensures WasteOk(DiscardResource(w, f.timeline, x, Exposed(f, phase)), f, phase)
  {
    var w' := DiscardResource(w, f.timeline, x, Exposed(f, phase));
    AppendSorted(w.list, f.timeline, x);
    LiveElsewhere(w, x);
    forall i: nat | i < |w'.list| ensures WasteEntryOk(w', f, w'.list[i]) {
      if i < |w.list| { assert WasteEntryOk(w, f, w.list[i]); }
    }
    forall r: nat | phase.Submit? && r in phase.uses ensures RecordedOk(w', f, r) {
      assert RecordedOk(w, f, r);
    }
    forall r: nat | r in w'.destroyed && r !in w'.early ensures UsesDone(f, r) {
      assert r !in w.early;
    }
  }

  lemma CreateWasteOk(w: Waste, f: Flight, phase: Phase)
    requires WasteOk(w, f, phase)
    ensures WasteOk(CreateOne(w), f, phase)
  {
    var w' := CreateOne(w);
    forall i: nat | i < |w'.list| ensures WasteEntryOk(w', f, w'.list[i]) { assert WasteEntryOk(w, f, w.list[i]); }
    forall r: nat | phase.Submit? && r in phase.uses ensures RecordedOk(w', f, r) { assert RecordedOk(w, f, r); }
  }

  lemma SubmitWasteOk(w: Waste, f: Flight, phase: Phase)
    requires f.frameIndex < |f.fences| && phase.Submit? && f.timeline == |f.submissions|
    requires WasteOk(w, f, phase) && WasteConserved(w)
    ensures WasteOk(w, QueueSubmit(f, phase.pool, phase.cmd, phase.uses), Advance)
  {
    var f' := QueueSubmit(f, phase.pool, phase.cmd, phase.uses);
    forall i: nat | i < |w.list| ensures WasteEntryOk(w, f', w.list[i]) {
      assert WasteEntryOk(w, f, w.list[i]);
      var r := w.list[i].item;
      if r in phase.uses {
        assert RecordedOk(w, f, r);
        if r in w.live { LiveElsewhere(w, r); }
      }
    }
    forall r: nat | r in w.destroyed && r !in w.early ensures UsesDone(f', r) {
      assert UsesDone(f, r);
      assert r in phase.uses ==> RecordedOk(w, f, r);
    }
    forall k: nat, r: nat | k < |f'.submissions| && r in f'.submissions[k].uses ensures r < w.created {
      if k == |f.submissions| { assert RecordedOk(w, f, r); }
    }
  }

  lemma RecordWasteOk(w: Waste, f: Flight, phase: Phase)
    requires WasteOk(w, f, Record) && WasteConserved(w) && phase.Submit? && phase.uses <= w.live
    ensures WasteOk(w, f, phase)
  {
    forall r: nat | r in phase.uses ensures RecordedOk(w, f, r) { LiveElsewhere(w, r); }
  }

  /** No new submission: the clocks only move on. */
  lemma ForwardWasteOk(w: Waste, f: Flight, phase: Phase, f': Flight, phase': Phase)
    requires WasteOk(w, f, phase) && f'.submissions == f.submissions && Forward(f, f')
    requires phase'.Submit? ==> phase' == phase && f'.timeline == f.timeline
    ensures WasteOk(w, f', phase')
  {
    forall i: nat | i < |w.list| ensures WasteEntryOk(w, f', w.list[i]) { assert WasteEntryOk(w, f, w.list[i]); }
    forall r: nat | r in w.destroyed && r !in w.early ensures UsesDone(f', r) { assert UsesDone(f, r); }
    forall r: nat | phase'.Submit? && r in phase'.uses ensures RecordedOk(w, f', r) { assert RecordedOk(w, f, r); }
  }

  lemma NextWasteOk(s: State, a: Action)
    requires Clocks(s.flight, s.phase) && ActiveRecorded(s)
    requires WasteConserved(s.waste) && WasteOk(s.waste, s.flight, s.phase)
    ensures WasteOk(Next(s, a).waste, Next(s, a).flight, Next(s, a).phase)
  {
    var s' := Next(s, a);
    NextForward(s, a);
    if a.Tick? && a.sweep && s.phase.Begin? {
      SweepWasteOk(s.waste, s.flight);
    } else if a.RecordFrame? && s.phase.Record? {
      RecordWasteOk(s.waste, s.flight, s'.phase);
    } else if a.SubmitFrame? && s.phase.Submit? {
      SubmitWasteOk(s.waste, s.flight, s.phase);
    } else if a.Create? {
      CreateWasteOk(s.waste, s.flight, s.phase);
    } else if a.Discard? && s'.waste != s.waste {
      DiscardWasteOk(s.waste, s.flight, a.r, s.phase);
    } else {
      ForwardWasteOk(s.waste, s.flight, s.phase, s'.flight, s'.phase);
    }
  }
}
