/** Where the render loop's command pools come from and go, what a sweep takes, and what a rebuild adds. */
module RenderReuse {
  import opened Wrappers
  import opened DiscardPool
  import opened RenderLoop
  import opened RenderSafety

  // ---------------------------------------------------------------- an allocation

  /** What a recording takes its pool from: the pool in use, or the oldest recycled one, or a new one. */
  function PoolFor(p: Pools): nat {
    match p.active
    case Some(x) => x
    case None => if p.ring == [] then p.created else p.ring[0]
  }

  /**
   A recording keeps the pool in use. With none in use it takes the oldest recycled pool out of the ring, and only
   with none there either it creates one. The discarded and the destroyed pools stay where they are.
   */
  lemma RecordingReuses(s: State, uses: set<nat>)
    requires s.flight.frameIndex < |s.flight.fences| && s.phase.Record?
    ensures var p, s' := s.pools, Next(s, RecordFrame(uses));
      && s'.phase.Submit? && s'.pools.active == Some(s'.phase.pool) && s'.phase.pool == PoolFor(p)
      && s'.pools.list == p.list && s'.pools.dead == p.dead
      && (p.active.Some? ==> s'.pools.ring == p.ring && s'.pools.created == p.created)
      && (p.active.None? && p.ring != [] ==> [s'.phase.pool] + s'.pools.ring == p.ring && s'.pools.created == p.created)
      && (p.active.None? && p.ring == [] ==> s'.pools.ring == [] && s'.pools.created == p.created + 1)
  {
  }

  /** The action is a recording that finds no pool in use and none recycled. */
  predicate FindsNone(s: State, a: Action) {
    a.RecordFrame? && s.phase.Record? && s.pools.active.None? && s.pools.ring == []
  }

  /** How many such recordings there are along a schedule. */
  function Findings(s: State, schedule: seq<Action>): nat
    requires s.flight.frameIndex < |s.flight.fences|
    decreases |schedule|
  {
    if schedule == [] then 0
    else
      NextInRange(s, schedule[0]);
      (if FindsNone(s, schedule[0]) then 1 else 0) + Findings(Next(s, schedule[0]), schedule[1..])
  }

  lemma CreatesWhenNone(s: State, a: Action)
    requires s.flight.frameIndex < |s.flight.fences|
    ensures Next(s, a).pools.created == s.pools.created + if FindsNone(s, a) then 1 else 0
  {
  }

  /** In every run as many pools are created as there were recordings that found none in use and none recycled. */
  lemma {:induction false} CreatedCounts(s: State, schedule: seq<Action>)
    requires s.flight.frameIndex < |s.flight.fences|
    ensures Run(s, schedule).pools.created == s.pools.created + Findings(s, schedule)
    decreases |schedule|
  {
    if schedule != [] {
      NextInRange(s, schedule[0]);
      CreatesWhenNone(s, schedule[0]);
      CreatedCounts(Next(s, schedule[0]), schedule[1..]);
    }
  }

  /** A step creates a pool only when every pool there ever was still waits on the list, or has been destroyed. */
  lemma CreatesOnlyWhenAllWait(s: State, a: Action, x: nat)
    requires Reachable(s)
    ensures s.flight.frameIndex < |s.flight.fences|
    ensures Next(s, a).pools.created != s.pools.created && x < s.pools.created ==>
              x in Items(s.pools.list) || x in s.pools.dead
  {
    EveryRun(s);
    CreatesWhenNone(s, a);
    if FindsNone(s, a) && x < s.pools.created {
      assert Places(s.pools, x) == 1;
      TimesIn(Items(s.pools.list), x);
      TimesIn(s.pools.dead, x);
    }
  }

  // ---------------------------------------------------------------- a sweep

  /** So many of n pools still fit in the ring. */
  function Fitting(ring: seq<nat>, n: nat): nat
    requires |ring| <= 63
  {
    if n <= 63 - |ring| then n else 63 - |ring|
  }

  /** Recycling fills the ring in order, and destroys the pools that come when it is full. */
  lemma {:induction false} RecycleFills(ring: seq<nat>, dead: seq<nat>, pools: seq<nat>)
    requires |ring| <= 63
    ensures var k := Fitting(ring, |pools|); Recycle(ring, dead, pools) == (ring + pools[..k], dead + pools[k..])
    decreases |pools|
  {
    var k := Fitting(ring, |pools|);
    if pools == [] {
      assert ring + pools[..k] == ring && dead + pools[k..] == dead;
    } else if |ring| < 63 {
      RecycleFills(ring + [pools[0]], dead, pools[1..]);
      assert ring + pools[..k] == (ring + [pools[0]]) + pools[1..][..k - 1];
      assert pools[k..] == pools[1..][k - 1..];
    } else {
      RecycleFills(ring, dead + [pools[0]], pools[1..]);
      assert dead + pools[k..] == (dead + [pools[0]]) + pools[1..][k..];
      assert pools[..k] == pools[1..][..k];
    }
  }

  /**
   A sweep at the start of a frame, in any reachable state: the resources whose stamp the GPU has reached are
   destroyed, oldest first, and the pools whose stamp it has reached refill the ring, oldest first, as far as it
   holds them; all others stay on their lists. Without a sweep nothing is taken.
   */
  lemma SweepTakesDue(s: State, sweep: bool)
    requires Reachable(s) && s.phase.Begin?
    ensures |s.pools.ring| <= 63 && s.flight.frameIndex < |s.flight.fences|
    ensures var s', now := Next(s, Tick(sweep)), s.flight.completed;
      var due := Items(Due(s.pools.list, now));
      var k := Fitting(s.pools.ring, |due|);
      && s'.phase.Acquire? && s'.flight == s.flight && s'.pools.active == s.pools.active
      && (sweep ==>
            && s'.waste.destroyed == s.waste.destroyed + Items(Due(s.waste.list, now))
            && s'.waste.list == NotDue(s.waste.list, now)
            && s'.pools.ring == s.pools.ring + due[..k]
            && s'.pools.dead == s.pools.dead + due[k..]
            && s'.pools.list == NotDue(s.pools.list, now))
      && (!sweep ==> s'.waste == s.waste && s'.pools == s.pools)
  {
    EveryRun(s);
    var now := s.flight.completed;
    PrefixIsDue(s.waste.list, now);
    PrefixIsDue(s.pools.list, now);
    RecycleFills(s.pools.ring, s.pools.dead, Items(Due(s.pools.list, now)));
  }

  /** A pool that was discarded is back in the ring after the first sweep past its stamp, if there is room. */
  lemma DiscardedComesBack(s: State, i: nat)
    requires Reachable(s) && s.phase.Begin? && i < |s.pools.list|
    requires s.pools.list[i].stamp <= s.flight.completed && |s.pools.ring| + i < 63
    ensures s.flight.frameIndex < |s.flight.fences|
    ensures var ring := Next(s, Tick(true)).pools.ring;
      |s.pools.ring| + i < |ring| && ring[|s.pools.ring| + i] == s.pools.list[i].item
  {
    EveryRun(s);
    SweepTakesDue(s, true);
    PrefixIsDue(s.pools.list, s.flight.completed);
    assert s.pools.list[..Old(s.pools.list, s.flight.completed)][i] == s.pools.list[i];
  }

  // ---------------------------------------------------------------- a resize

  /**
   A failed acquisition or presentation puts the pool in use on the list, stamped with the timeline, and leaves as
   many slots as before or as there are images, whichever is more: the old ones as they were, the new ones signaled.
   */
  lemma ResizeKeepsSlots(s: State, a: Action, images: nat)
    requires s.flight.frameIndex < |s.flight.fences|
    requires
      || (a == AcquireImage(false, images) && s.phase.Acquire? && s.flight.fences[s.flight.frameIndex].Signaled?)
      || (a == PresentImage(false, images) && s.phase.Present?)
    ensures var s' := Next(s, a);
      && s'.phase.Begin? && s'.waste == s.waste
      && s'.flight == s.flight.(fences := s'.flight.fences)
      && |s'.flight.fences| == (if images > |s.flight.fences| then images else |s.flight.fences|)
      && (forall i: nat | i < |s.flight.fences| :: s'.flight.fences[i] == s.flight.fences[i])
      && (forall i: nat | |s.flight.fences| <= i < |s'.flight.fences| :: s'.flight.fences[i].Signaled?)
      && s'.pools.active.None? && s'.pools.ring == s.pools.ring && s'.pools.created == s.pools.created
      && s'.pools.cache == s.pools.cache
      && s'.pools.list ==
           (if s.pools.active.None? then s.pools.list
            else s.pools.list + [Stamped(s.flight.timeline, s.pools.active.value)])
  {
  }
}
