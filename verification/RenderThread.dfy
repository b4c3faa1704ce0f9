/** The render loop as the program keeps it: fields updated in place, one method for each part of a frame. */
module RenderThread {
  import opened Wrappers
  import opened DiscardPool
  import opened RenderLoop
  import opened RenderReuse
  import opened RenderSafety

  class Application {
    const ids: nat -> nat
    ghost var phase: Phase

    // the application and its swapchain
    var timeline: nat
    var frameIndex: nat
    var fences: seq<Fence>

    // the GPU
    var semaphore: nat
    var completed: nat
    var submissions: seq<Submission>

    // the render thread's command pools
    var active: Option<nat>
    var ring: seq<nat>
    var poolList: seq<Stamped<nat>>
    ghost var deadPools: seq<nat>
    var createdPools: nat
    var cache: map<(nat, nat), nat>
    var buffers: nat

    // the discarded resources
    ghost var live: set<nat>
    var list: seq<Stamped<nat>>
    ghost var destroyed: seq<nat>
    ghost var created: nat
    ghost var early: set<nat>

    ghost function FlightView(): Flight reads this {
      Flight(timeline, frameIndex, fences, semaphore, completed, submissions)
    }

    ghost function PoolsView(): Pools reads this {
      Pools(active, ring, poolList, deadPools, createdPools, cache, buffers)
    }

    ghost function WasteView(): Waste reads this {
      Waste(live, list, destroyed, created, early)
    }

    ghost function View(): State reads this {
      State(ids, phase, FlightView(), PoolsView(), WasteView())
    }

    constructor (slots: nat, ids: nat -> nat)
      requires slots > 0
      ensures View() == Init(slots, ids) && Inv(View())
    {
      this.ids := ids;
      phase, timeline, frameIndex, fences := Begin, 0, 0, seq(slots, _ => Signaled);
      semaphore, completed, submissions := 0, 0, [];
      active, ring, poolList, deadPools, createdPools, cache, buffers := None, [], [], [], 0, map[], 0;
      live, list, destroyed, created, early := {}, [], [], 0, {};
      new;
      InitInv(slots, ids);
    }

    // ---------------------------------------------------------------- the GPU

    /** Completes the oldest pending submission: its fence is signaled and the semaphore raised. */
    method CompleteSubmission()
      requires completed < |submissions|
      modifies this`fences, this`semaphore, this`completed
      ensures FlightView() == CompleteOne(old(FlightView()))
    {
      var done := completed;
      semaphore := submissions[done].signals;
      completed := done + 1;
      var i := 0;
      while i < |fences|
        invariant i <= |fences| == |old(fences)|
        invariant semaphore == submissions[done].signals && completed == done + 1
        invariant forall k: nat | k < i ::
            fences[k] == if old(fences)[k] == Attached(done) then Signaled else old(fences)[k]
        invariant forall k: nat | i <= k < |fences| :: fences[k] == old(fences)[k]
      {
        if fences[i] == Attached(done) {
          fences := fences[i := Signaled];
        }
        i := i + 1;
      }
    }

    // ---------------------------------------------------------------- sweeping

    /** Deletes the discarded resources whose time has come. */
    method DestroyResources()
      modifies this`list, this`destroyed
      ensures WasteView() == SweepWaste(old(WasteView()), semaphore)
    {
      var n := 0;
      while n < |list|
        invariant n <= Old(list, semaphore) && list == old(list)
        invariant destroyed == old(destroyed) + Items(list[..n])
      {
        if list[n].stamp > semaphore {
          break;
        }
        ItemsNext(old(destroyed), list, n);
        destroyed := destroyed + [list[n].item];
        n := n + 1;
      }
      list := list[n..];
    }

    /** Recycles the discarded pools whose time has come. */
    method RecyclePools()
      modifies this`poolList, this`ring, this`deadPools
      ensures PoolsView() == SweepPools(old(PoolsView()), semaphore)
    {
      ghost var due := Items(poolList[..Old(poolList, semaphore)]);
      var n := 0;
      while n < |poolList|
        invariant n <= Old(poolList, semaphore) && poolList == old(poolList)
        invariant Recycle(ring, deadPools, due[n..]) == Recycle(old(ring), old(deadPools), due)
      {
        if poolList[n].stamp > semaphore {
          break;
        }
        assert due[n..][0] == poolList[n].item && due[n..][1..] == due[n + 1..];
        RecyclePool(poolList[n].item);
        n := n + 1;
      }
      assert due[n..] == [];
      poolList := poolList[n..];
    }

    /** Into the owner's ring, or destroyed when it is full. */
    method RecyclePool(pool: nat)
      modifies this`ring, this`deadPools
      ensures if |old(ring)| < RING_CAPACITY then ring == old(ring) + [pool] && deadPools == old(deadPools)
              else ring == old(ring) && deadPools == old(deadPools) + [pool]
    {
      if |ring| < RING_CAPACITY {
        ring := ring + [pool];
      } else {
        deadPools := deadPools + [pool];
      }
    }

    method DestroyDiscardedResources()
      modifies this`list, this`destroyed, this`poolList, this`ring, this`deadPools
      ensures WasteView() == SweepWaste(old(WasteView()), semaphore)
      ensures PoolsView() == SweepPools(old(PoolsView()), semaphore)
    {
      DestroyResources();
      RecyclePools();
    }

    // ---------------------------------------------------------------- command pools

    method DiscardPoolInUse()
      modifies this`active, this`poolList
      ensures PoolsView() == DiscardActivePool(old(PoolsView()), timeline)
    {
      if active.Some? {
        poolList := poolList + [Stamped(timeline, active.value)];
        active := None;
      }
    }

    /** The slot's command buffer in the active pool, which is set up first if there is none. */
    method AllocatePrimary(id: nat) returns (cmd: nat)
      modifies this`active, this`ring, this`createdPools, this`cache, this`buffers
      ensures var p := EnsureActive(old(PoolsView()));
        && PoolsView() == EnsureBuffer(p, (p.active.value, id))
        && active.Some? && (active.value, id) in cache && cmd == cache[(active.value, id)]
      ensures active == Some(PoolFor(old(PoolsView())))
      ensures if old(active).None? && old(ring) != [] then [active.value] + ring == old(ring) else ring == old(ring)
    {
      if active.None? {
        if ring != [] {
          active, ring := Some(ring[0]), ring[1..];
        } else {
          active, createdPools := Some(createdPools), createdPools + 1;
        }
      }
      var key := (active.value, id);
      if key in cache {
        return cache[key];
      }
      cmd := buffers;
      cache, buffers := cache[key := cmd], buffers + 1;
    }

    // ---------------------------------------------------------------- the frame

    /** The swapchain is rebuilt with so many images; the slots only ever become more. */
    method RecreateSlots(images: nat)
      modifies this`fences
      ensures FlightView() == Recreate(old(FlightView()), images)
    {
      while |fences| < images
        invariant fences == old(fences) + seq(|fences| - |old(fences)|, _ => Signaled)
        invariant |old(fences)| <= |fences| <= if images > |old(fences)| then images else |old(fences)|
      {
        fences := fences + [Signaled];
      }
    }

    method OnResize(images: nat)
      modifies this`phase, this`active, this`poolList, this`fences
      ensures View() == Resize(old(View()), images)
    {
      DiscardPoolInUse();
      RecreateSlots(images);
      phase := Begin;
    }

    method OnFrame(sweep: bool)
      requires frameIndex < |fences| && phase.Begin?
      modifies this`phase, this`list, this`destroyed, this`poolList, this`ring, this`deadPools
      ensures View() == Next(old(View()), Tick(sweep))
    {
      if sweep {
        DestroyDiscardedResources();
      }
      phase := Acquire;
    }

    /** One step of the wait: a fence that is not signaled is attached to a submission that is still pending. */
    method WaitOnce()
      requires Inv(View()) && phase.Acquire? && !fences[frameIndex].Signaled?
      modifies this`fences, this`semaphore, this`completed
      ensures Inv(View()) && View() == Next(old(View()), Complete) && completed == old(completed) + 1
    {
      ghost var before := View();
      assert FenceOk(before.flight, before.phase, frameIndex);
      NextInv(before, Complete);
      CompleteSubmission();
      assert View() == Next(before, Complete);
    }

    /** Waits for the slot's fence, while the GPU works. The wait comes to an end. */
    method WaitForFence() returns (ghost waited: nat)
      requires Inv(View()) && phase.Acquire?
      modifies this`fences, this`semaphore, this`completed
      ensures Inv(View()) && View() == Run(old(View()), Completes(waited))
      ensures fences[frameIndex].Signaled?
    {
      waited := 0;
      ghost var start := View();
      while !fences[frameIndex].Signaled?
        invariant Inv(View())
        invariant View() == Run(start, Completes(waited))
        decreases |submissions| - completed
      {
        CompleteOnceMore(start, waited);
        WaitOnce();
        waited := waited + 1;
      }
    }

    /** The queue submission of a recorded frame. */
    method QueueSubmission(pool: nat, cmd: nat, uses: set<nat>)
      requires frameIndex < |fences|
      modifies this`submissions, this`fences
      ensures FlightView() == QueueSubmit(old(FlightView()), pool, cmd, uses)
    {
      var k := |submissions|;
      submissions := submissions + [Submission(frameIndex, pool, cmd, uses, timeline + 1)];
      fences := fences[frameIndex := Attached(k)];
    }

    method SignalNextFrame()
      requires frameIndex < |fences|
      modifies this`timeline, this`frameIndex
      ensures FlightView() == NextFrame(old(FlightView()))
    {
      timeline := timeline + 1;
      frameIndex := (frameIndex + 1) % |fences|;
    }

    /** After a successful acquisition: the fence is reset and the slot's command buffer fetched. */
    method BeginRecording() returns (cmd: nat)
      requires frameIndex < |fences|
      modifies this`fences, this`active, this`ring, this`createdPools, this`cache, this`buffers
      ensures FlightView() == ResetFence(old(FlightView()))
      ensures var p := EnsureActive(old(PoolsView()));
        && PoolsView() == EnsureBuffer(p, (p.active.value, ids(frameIndex)))
        && active.Some? && (active.value, ids(frameIndex)) in cache && cmd == cache[(active.value, ids(frameIndex))]
    {
      fences := fences[frameIndex := Reset];
      cmd := AllocatePrimary(ids(frameIndex));
    }

    /** The submission, after which the timeline and the slot move on. */
    method FinishRecording(pool: nat, cmd: nat, uses: set<nat>)
      requires frameIndex < |fences|
      modifies this`submissions, this`fences, this`timeline, this`frameIndex, this`phase
      ensures phase == Phase.Present
      ensures FlightView() == NextFrame(QueueSubmit(old(FlightView()), pool, cmd, uses))
    {
      QueueSubmission(pool, cmd, uses);
      SignalNextFrame();
      phase := Phase.Present;
    }

    /** The presentation, or the failed acquisition, of a round. */
    method QueuePresent(presented: bool, images: nat)
      requires phase.Present?
      requires frameIndex < |fences|
      modifies this`phase, this`active, this`poolList, this`fences
      ensures View() == Next(old(View()), PresentImage(presented, images))
    {
      if presented {
        phase := Begin;
      } else {
        OnResize(images);
      }
    }

    /** The rest of a round, once the slot's fence is signaled. */
    method RenderFrame(acquired: bool, uses: set<nat>, presented: bool, images: nat)
      requires frameIndex < |fences| && phase.Acquire? && fences[frameIndex].Signaled? && uses <= live
      modifies this
      ensures View() == Run(old(View()), FrameActions(acquired, uses, presented, images))
    {
      ghost var ready := View();
      if acquired {
        var cmd := BeginRecording();
        FinishRecording(active.value, cmd, uses);
        assert uses * live == uses;
        assert View() == Recorded(ready, uses);
        QueuePresent(presented, images);
        RecordedRuns(ready, uses, presented, images);
      } else {
        OnResize(images);
        RunOne(ready, AcquireImage(false, images));
      }
    }

    /**
     One round of the render loop: the monitor, the wait, the acquisition, and unless that fails the frame
     and its presentation. A failed acquisition or presentation rebuilds the swapchain.
     */
    method Render(sweep: bool, acquired: bool, uses: set<nat>, presented: bool, images: nat)
      returns (ghost waited: nat)
      requires Inv(View()) && phase.Begin? && uses <= live
      modifies this
      ensures Inv(View())
      ensures View() ==
        Run(old(View()), [Tick(sweep)] + Completes(waited) + FrameActions(acquired, uses, presented, images))
    {
      ghost var start := View();
      ghost var rest := FrameActions(acquired, uses, presented, images);
      NextInv(start, Tick(sweep));
      RunOne(start, Tick(sweep));
      OnFrame(sweep);
      waited := WaitForFence();
      RunMore(start, [Tick(sweep)], Completes(waited));
      RunMore(start, [Tick(sweep)] + Completes(waited), rest);
      RunInv(View(), rest);
      RenderFrame(acquired, uses, presented, images);
    }
  }

  /** The frame from its acquisition to its presentation. */
  ghost function Recorded(s: State, uses: set<nat>): State
    requires s.flight.frameIndex < |s.flight.fences| && s.phase.Acquire?
    requires s.flight.fences[s.flight.frameIndex].Signaled?
  {
    var f := ResetFence(s.flight);
    var p := EnsureActive(s.pools);
    var key := (p.active.value, s.ids(f.frameIndex));
    var p' := EnsureBuffer(p, key);
    s.(phase := Present, pools := p',
       flight := NextFrame(QueueSubmit(f, key.0, p'.cache[key], uses * s.waste.live)))
  }

  function FrameActions(acquired: bool, uses: set<nat>, presented: bool, images: nat): seq<Action> {
    if acquired then
      [AcquireImage(true, 0), RecordFrame(uses), SubmitFrame] + ([AdvanceFrame] + [PresentImage(presented, images)])
    else [AcquireImage(false, images)]
  }

  lemma RunOne(s: State, a: Action)
    requires s.flight.frameIndex < |s.flight.fences|
    ensures Run(s, [a]) == Next(s, a)
  {
    NextInRange(s, a);
    assert [a][1..] == [];
  }

  lemma RecordedRuns(s: State, uses: set<nat>, presented: bool, images: nat)
    requires s.flight.frameIndex < |s.flight.fences| && s.phase.Acquire?
    requires s.flight.fences[s.flight.frameIndex].Signaled?
    ensures Recorded(s, uses).flight.frameIndex < |Recorded(s, uses).flight.fences|
    ensures Run(s, FrameActions(true, uses, presented, images))
            == Next(Recorded(s, uses), PresentImage(presented, images))
  {
    var s1 := Next(s, AcquireImage(true, 0));
    var s2 := Next(s1, RecordFrame(uses));
    var s3 := Next(s2, SubmitFrame);
    RunThree(s, AcquireImage(true, 0), RecordFrame(uses), SubmitFrame);
    RunMore(s, [AcquireImage(true, 0), RecordFrame(uses), SubmitFrame],
            [AdvanceFrame] + [PresentImage(presented, images)]);
    RunMore(s3, [AdvanceFrame], [PresentImage(presented, images)]);
    RunOne(s3, AdvanceFrame);
    RunOne(Next(s3, AdvanceFrame), PresentImage(presented, images));
  }

  /**
   A round that acquires an image makes one submission: from the slot whose turn it was, with the command buffer the
   slot has in the pool in use, the oldest recycled or a new one, signalling one more than the timeline was. A pool
   outlives the round unless the presentation fails, when it is discarded with that value. A round that acquires
   none submits nothing.
   */
  lemma RoundSubmitsOnce(s: State, acquired: bool, uses: set<nat>, presented: bool, images: nat)
    requires Inv(s) && s.phase.Acquire? && s.flight.fences[s.flight.frameIndex].Signaled? && uses <= s.waste.live
    ensures var t := Run(s, FrameActions(acquired, uses, presented, images));
      && t.phase.Begin? && t.waste == s.waste
      && |t.flight.fences| == (if images > |s.flight.fences| && !(acquired && presented) then images
                               else |s.flight.fences|)
      && t.flight.timeline == |t.flight.submissions| == |s.flight.submissions| + (if acquired then 1 else 0)
      && s.flight.submissions <= t.flight.submissions
      && (acquired ==>
            && SubmittedFrom(s, t.pools, t.flight.submissions[s.flight.timeline], uses)
            && t.flight.fences[s.flight.frameIndex] == Attached(s.flight.timeline)
            && t.flight.frameIndex == (s.flight.frameIndex + 1) % |s.flight.fences|)
      && (!acquired ==> t.flight.frameIndex == s.flight.frameIndex && t.flight.fences[s.flight.frameIndex].Signaled?)
      && (acquired && presented ==> t.pools.active == Some(PoolFor(s.pools)) && t.pools.list == s.pools.list)
      && (acquired && !presented ==>
            t.pools.active == None
            && t.pools.list == s.pools.list + [Stamped(s.flight.timeline + 1, PoolFor(s.pools))])
      && (!acquired ==> t.pools.active == None)
  {
    if acquired {
      RecordedRuns(s, uses, presented, images);
      RecordedSubmits(s, uses);
      var t := Recorded(s, uses);
      if !presented {
        ResizeKeepsSlots(t, PresentImage(false, images), images);
      }
    } else {
      RunOne(s, AcquireImage(false, images));
      ResizeKeepsSlots(s, AcquireImage(false, images), images);
    }
  }

  lemma RecordedSubmits(s: State, uses: set<nat>)
    requires s.flight.frameIndex < |s.flight.fences| && s.phase.Acquire?
    requires s.flight.fences[s.flight.frameIndex].Signaled? && uses <= s.waste.live
    ensures var f, t := s.flight, Recorded(s, uses);
      && t.phase.Present? && t.waste == s.waste && t.ids == s.ids
      && |t.flight.submissions| == |f.submissions| + 1 && f.submissions == t.flight.submissions[..|f.submissions|]
      && SubmittedFrom(s, t.pools, t.flight.submissions[|f.submissions|], uses)
      && t.flight.timeline == f.timeline + 1 && t.flight.frameIndex == (f.frameIndex + 1) % |f.fences|
      && t.flight.fences == f.fences[f.frameIndex := Attached(|f.submissions|)]
      && t.pools.active == Some(PoolFor(s.pools)) && t.pools.list == s.pools.list
  {
    assert uses * s.waste.live == uses;
  }

  /** The submission is the present slot's, with the slot's command buffer in the pool an allocation finds. */
  ghost predicate SubmittedFrom(s: State, after: Pools, x: Submission, uses: set<nat>) {
    && x.slot == s.flight.frameIndex && x.uses == uses && x.signals == s.flight.timeline + 1
    && x.pool == PoolFor(s.pools) && Holds(after, x.pool, s.ids(x.slot), x.cmd)
  }

  lemma ItemsNext(before: seq<nat>, list: seq<Stamped<nat>>, n: nat)
    requires n < |list|
    ensures before + Items(list[..n + 1]) == before + Items(list[..n]) + [list[n].item]
  {
    assert Items(list[..n + 1]) == Items(list[..n]) + [list[n].item];
  }

  lemma CompleteOnceMore(s: State, n: nat)
    requires s.flight.frameIndex < |s.flight.fences|
    ensures Run(s, Completes(n)).flight.frameIndex < |Run(s, Completes(n)).flight.fences|
    ensures Run(s, Completes(n + 1)) == Next(Run(s, Completes(n)), Complete)
  {
    assert Completes(n + 1) == Completes(n) + [Complete];
    RunMore(s, Completes(n), [Complete]);
    RunOne(Run(s, Completes(n)), Complete);
  }
}
