/** What the render loop guarantees over all its runs. */
module RenderSafety {
  import opened Wrappers
  import opened DiscardPool
  import opened RenderLoop

  ghost predicate Inv(s: State) {
    && Fences(s.flight, s.phase)
    && SlotBuffers(s)
    && ActiveRecorded(s) && PoolsConserved(s.pools) && PoolsIdle(s.pools, s.flight)
    && WasteConserved(s.waste) && WasteOk(s.waste, s.flight, s.phase)
  }

  lemma InitInv(slots: nat, ids: nat -> nat)
    requires slots > 0
    ensures Inv(Init(slots, ids))
  {
    var s := Init(slots, ids);
    assert forall x: nat :: Places(s.pools, x) == 0;
    assert forall r: nat :: WastePlaces(s.waste, r) == 0;
  }

  lemma NextInv(s: State, a: Action)
    requires Inv(s)
    ensures Inv(Next(s, a))
  {
    NextFences(s, a);
    NextBuffers(s, a);
    NextConservesPools(s, a);
    NextPoolsIdle(s, a);
    NextConservesWaste(s, a);
    NextWasteOk(s, a);
  }

  lemma {:induction false} RunInv(s: State, schedule: seq<Action>)
    requires Inv(s)
    ensures Inv(Run(s, schedule)) && Run(s, schedule).ids == s.ids
    ensures |s.flight.fences| <= |Run(s, schedule).flight.fences|
    decreases |schedule|
  {
    if schedule != [] {
      NextInRange(s, schedule[0]);
      NextInv(s, schedule[0]);
      RunInv(Next(s, schedule[0]), schedule[1..]);
    }
  }

  lemma {:induction false} RunMore(s: State, first: seq<Action>, second: seq<Action>)
    requires s.flight.frameIndex < |s.flight.fences|
    ensures Run(s, first).flight.frameIndex < |Run(s, first).flight.fences|
    ensures Run(s, first + second) == Run(Run(s, first), second)
    decreases |first|
  {
    if first == [] {
      assert first + second == second;
    } else {
      NextInRange(s, first[0]);
      RunMore(Next(s, first[0]), first[1..], second);
      assert (first + second)[1..] == first[1..] + second;
    }
  }

  /** The states some run leads to. */
  ghost predicate Reachable(s: State) {
    exists slots: nat, schedule: seq<Action> :: slots > 0 && Leads(slots, s.ids, schedule, s)
  }

  ghost predicate Leads(slots: nat, ids: nat -> nat, schedule: seq<Action>, s: State)
    requires slots > 0
  {
    s == Run(Init(slots, ids), schedule)
  }

  lemma EveryRun(s: State)
    requires Reachable(s)
    ensures Inv(s)
  {
    var slots: nat, schedule: seq<Action> :| slots > 0 && Leads(slots, s.ids, schedule, s);
    InitInv(slots, s.ids);
    RunInv(Init(slots, s.ids), schedule);
  }

  // ---------------------------------------------------------------- nothing is reclaimed too early

  /**
   A resource that is not discarded while it is exposed, by a recording under way or a submission not counted yet,
   is destroyed, once, and only after every submission that uses it has completed.
   */
  lemma ReclaimedAfterUse(s: State, r: nat, k: nat)
    requires Reachable(s) && r in s.waste.destroyed && r !in s.waste.early
    ensures Times(s.waste.destroyed, r) == 1 && r !in s.waste.live && r !in Items(s.waste.list)
    ensures k < |s.flight.submissions| && r in s.flight.submissions[k].uses ==> k < s.flight.completed
  {
    EveryRun(s);
    assert WastePlaces(s.waste, r) == if r < s.waste.created then 1 else 0;
    TimesIn(s.waste.destroyed, r);
    TimesIn(Items(s.waste.list), r);
    assert UsesDone(s.flight, r);
  }

  /** A command pool is recycled, or destroyed, only after everything recorded from it has completed. */
  lemma PoolReusedAfterUse(s: State, x: nat, k: nat)
    requires Reachable(s) && (x in s.pools.ring || x in s.pools.dead)
    requires k < |s.flight.submissions| && s.flight.submissions[k].pool == x
    ensures k < s.flight.completed
  {
    EveryRun(s);
    assert PoolIdle(s.flight, x);
  }

  /** Every command pool is active, discarded, recycled or destroyed, and only one of these. */
  lemma PoolInOnePlace(s: State, x: nat)
    requires Reachable(s)
    ensures Places(s.pools, x) == if x < s.pools.created then 1 else 0
    ensures |s.pools.ring| <= RING_CAPACITY
  {
    EveryRun(s);
  }

  // ---------------------------------------------------------------- frames in flight

  /** A fence is signaled exactly when its slot has nothing pending and is not being recorded. */
  lemma FenceTells(s: State, i: nat)
    requires Reachable(s) && i < |s.flight.fences|
    ensures s.flight.fences[i].Signaled? <==>
            (forall k: nat | Pending(s.flight, k) :: s.flight.submissions[k].slot != i)
            && !(s.phase.Recording() && s.flight.frameIndex == i)
  {
    EveryRun(s);
    assert FenceOk(s.flight, s.phase, i);
    forall k: nat | Pending(s.flight, k) && s.flight.submissions[k].slot == i
      ensures s.flight.fences[i] == Attached(k)
    {
      assert PendingOk(s.flight, k);
    }
  }

  /** Pending submissions are in different slots, so there are never more of them than slots. */
  lemma PendingInDifferentSlots(s: State)
    requires Reachable(s)
    ensures forall k: nat, l: nat | Pending(s.flight, k) && Pending(s.flight, l)
              && s.flight.submissions[k].slot == s.flight.submissions[l].slot :: k == l
    ensures s.flight.completed <= |s.flight.submissions| <= s.flight.completed + |s.flight.fences|
  {
    EveryRun(s);
    forall k: nat, l: nat | Pending(s.flight, k) && Pending(s.flight, l)
        && s.flight.submissions[k].slot == s.flight.submissions[l].slot
      ensures k == l
    {
      assert PendingOk(s.flight, k) && PendingOk(s.flight, l);
    }
    forall k: nat | Pending(s.flight, k) ensures s.flight.submissions[k].slot < |s.flight.fences| {
      assert PendingOk(s.flight, k);
    }
    Pigeons(s.flight, s.flight.completed);
    Holes(SlotsFrom(s.flight, s.flight.completed), |s.flight.fences|);
  }

  ghost function SlotsFrom(f: Flight, from: nat): set<nat>
    requires from <= |f.submissions|
  {
    set k: nat | from <= k < |f.submissions| :: f.submissions[k].slot
  }

  lemma {:induction false} Pigeons(f: Flight, from: nat)
    requires f.completed <= from <= |f.submissions|
    requires forall k: nat, l: nat |
      Pending(f, k) && Pending(f, l) && f.submissions[k].slot == f.submissions[l].slot :: k == l
    ensures |SlotsFrom(f, from)| == |f.submissions| - from
    decreases |f.submissions| - from
  {
    if from < |f.submissions| {
      Pigeons(f, from + 1);
      var slot := f.submissions[from].slot;
      assert Pending(f, from);
      assert slot !in SlotsFrom(f, from + 1);
      assert SlotsFrom(f, from) == SlotsFrom(f, from + 1) + {slot};
    }
  }

  lemma {:induction false} Holes(slots: set<nat>, n: nat)
    requires forall x | x in slots :: x < n
    ensures |slots| <= n
  {
    if n > 0 {
      Holes(slots - {n - 1}, n - 1);
    } else {
      assert slots == {};
    }
  }

  function Completes(n: nat): (schedule: seq<Action>)
    ensures |schedule| == n
  {
    seq(n, _ => Complete)
  }

  lemma {:induction false} GpuCompletes(s: State, n: nat)
    requires Inv(s) && s.flight.completed + n <= |s.flight.submissions|
    ensures var t := Run(s, Completes(n));
      && Inv(t) && t.flight.completed == s.flight.completed + n
      && t.flight.submissions == s.flight.submissions && t.flight.timeline == s.flight.timeline
      && t.flight.frameIndex == s.flight.frameIndex && |t.flight.fences| == |s.flight.fences|
      && t.phase == s.phase && t.pools == s.pools && t.waste == s.waste
    decreases n
  {
    if n > 0 {
      assert Completes(n)[1..] == Completes(n - 1);
      NextInv(s, Complete);
      GpuCompletes(Next(s, Complete), n - 1);
    }
  }

  /** The wait for the slot's fence never freezes: once the GPU has caught up, an image can be acquired. */
  lemma WaitNeverFreezes(s: State) returns (gpu: seq<Action>)
    requires Reachable(s) && s.phase.Acquire?
    ensures s.flight.frameIndex < |s.flight.fences| && forall a | a in gpu :: a == Complete
    ensures var t := Run(s, gpu);
      && t.flight.frameIndex < |t.flight.fences|
      && t.flight.fences[t.flight.frameIndex].Signaled?
      && Next(t, AcquireImage(true, 0)).phase.Record?
  {
    EveryRun(s);
    GpuCompletes(s, |s.flight.submissions| - s.flight.completed);
    gpu := Completes(|s.flight.submissions| - s.flight.completed);
    var t := Run(s, gpu);
    assert FenceOk(t.flight, t.phase, t.flight.frameIndex);
  }

  // ---------------------------------------------------------------- command buffers

  ghost predicate NeverPending(s: State) {
    s.phase.Submit? ==> forall k: nat | Pending(s.flight, k) :: s.flight.submissions[k].cmd != s.phase.cmd
  }

  /** No run from n slots records a command buffer that is pending, as long as no rebuild adds slots. */
  ghost predicate RecordsSafely(n: nat, ids: nat -> nat)
    requires n > 0
  {
    forall schedule: seq<Action> | |Run(Init(n, ids), schedule).flight.fences| == n ::
      NeverPending(Run(Init(n, ids), schedule))
  }

  /** With different keys for all the slots a run ever has, no pending command buffer is recorded again. */
  lemma RecordsIdleBuffers(s: State)
    requires Reachable(s) && Distinct(s.ids, |s.flight.fences|)
    ensures NeverPending(s)
  {
    EveryRun(s);
    if s.phase.Submit? {
      forall k: nat | Pending(s.flight, k) ensures s.flight.submissions[k].cmd != s.phase.cmd {
        RecordedBufferIsIdle(s, k);
      }
    }
  }

  function OneFrame(): seq<Action> {
    [Tick(false), AcquireImage(true, 0), RecordFrame({}), SubmitFrame, AdvanceFrame, PresentImage(true, 0)]
  }

  function Frames(m: nat): seq<Action> {
    if m == 0 then [] else Frames(m - 1) + OneFrame()
  }

  /** After m frames, with the GPU not completing any: one submission for each of the first m slots. */
  ghost predicate AfterFrames(s: State, n: nat, m: nat) {
    && s.phase == Begin && |s.flight.fences| == n && s.flight.timeline == m && s.flight.completed == 0
    && |s.flight.submissions| == m <= n && s.flight.frameIndex == (if m < n then m else 0)
    && (forall k: nat | k < m :: s.flight.submissions[k].slot == k && s.flight.submissions[k].pool == 0)
    && (forall i: nat | m <= i < n :: s.flight.fences[i] == Signaled)
    && (if m == 0 then s.pools.active == None && s.pools.ring == [] && s.pools.created == 0
        else s.pools.active == Some(0))
  }

  /** The first half of a frame, up to the recording. */
  lemma HalfFrame(s: State, n: nat, m: nat)
    requires AfterFrames(s, n, m) && m < n
    ensures var s1 := Next(s, Tick(false));
      && s1.flight == s.flight
      && var s2 := Next(s1, AcquireImage(true, 0));
      && s2.flight == ResetFence(s.flight) && s2.pools == s.pools && s2.phase.Record?
      && var s3 := Next(s2, RecordFrame({}));
      && s3.flight == s2.flight && s3.phase.Submit? && s3.phase.pool == 0 && s3.pools.active == Some(0)
  {
  }

  lemma RunThree(s: State, a: Action, b: Action, c: Action)
    requires s.flight.frameIndex < |s.flight.fences|
    requires Next(s, a).flight.frameIndex < |Next(s, a).flight.fences|
    requires Next(Next(s, a), b).flight.frameIndex < |Next(Next(s, a), b).flight.fences|
    ensures Run(s, [a, b, c]) == Next(Next(Next(s, a), b), c)
  {
    var s1 := Next(s, a);
    var s2 := Next(s1, b);
    NextInRange(s2, c);
    assert [a, b, c][1..] == [b, c] && [b, c][1..] == [c] && [c][1..] == [];
    assert Run(s2, [c]) == Next(s2, c);
    assert Run(s1, [b, c]) == Run(s2, [c]);
  }

  lemma NextSlot(m: nat, n: nat)
    requires m < n
    ensures (m + 1) % n == if m + 1 < n then m + 1 else 0
  {
  }

  lemma SecondHalf(s: State, n: nat, m: nat)
    requires s.phase.Submit? && s.phase.pool == 0 && s.pools.active == Some(0)
    requires |s.flight.fences| == n && s.flight.timeline == m && s.flight.completed == 0
    requires |s.flight.submissions| == m < n && s.flight.frameIndex == m
    requires forall k: nat | k < m :: s.flight.submissions[k].slot == k && s.flight.submissions[k].pool == 0
    requires forall i: nat | m < i < n :: s.flight.fences[i] == Signaled
    ensures var s1 := Next(s, SubmitFrame);
      && s1.flight.frameIndex < |s1.flight.fences|
      && var s2 := Next(s1, AdvanceFrame);
      && s2.flight.frameIndex < |s2.flight.fences|
      && AfterFrames(Next(s2, PresentImage(true, 0)), n, m + 1)
  {
    NextSlot(m, n);
    var f1 := QueueSubmit(s.flight, 0, s.phase.cmd, s.phase.uses);
    assert Next(Next(s, SubmitFrame), AdvanceFrame).flight == NextFrame(f1);
    assert forall i: nat | m < i < n :: f1.fences[i] == Signaled;
  }

  lemma AnotherFrame(s: State, n: nat, m: nat)
    requires AfterFrames(s, n, m) && m < n
    ensures AfterFrames(Run(s, OneFrame()), n, m + 1)
  {
    HalfFrame(s, n, m);
    var first := [Tick(false), AcquireImage(true, 0), RecordFrame({})];
    var second := [SubmitFrame, AdvanceFrame, PresentImage(true, 0)];
    assert OneFrame() == first + second;
    RunMore(s, first, second);
    RunThree(s, Tick(false), AcquireImage(true, 0), RecordFrame({}));
    var s3 := Run(s, first);
    SecondHalf(s3, n, m);
    RunThree(s3, SubmitFrame, AdvanceFrame, PresentImage(true, 0));
  }

  lemma {:induction false} FramesLead(n: nat, ids: nat -> nat, m: nat)
    requires 0 < n && m <= n
    ensures AfterFrames(Run(Init(n, ids), Frames(m)), n, m)
    decreases m
  {
    if m > 0 {
      FramesLead(n, ids, m - 1);
      RunMore(Init(n, ids), Frames(m - 1), OneFrame());
      AnotherFrame(Run(Init(n, ids), Frames(m - 1)), n, m - 1);
    }
  }

  /** Two slots with one key: the second records the command buffer the first still has pending. */
  lemma SharedKeyRecordsPending(n: nat, ids: nat -> nat, i: nat, j: nat) returns (schedule: seq<Action>)
    requires i < j < n && ids(i) == ids(j)
    ensures var s := Run(Init(n, ids), schedule);
      |s.flight.fences| == n && !NeverPending(s)
  {
    var half := [Tick(false), AcquireImage(true, 0), RecordFrame({})];
    schedule := Frames(j) + half;
    InitInv(n, ids);
    FramesLead(n, ids, j);
    RunMore(Init(n, ids), Frames(j), half);
    RunInv(Init(n, ids), Frames(j));
    var t := Run(Init(n, ids), Frames(j));
    HalfFrame(t, n, j);
    RunThree(t, Tick(false), AcquireImage(true, 0), RecordFrame({}));
    RunInv(t, half);
    var s := Run(t, half);
    var x := s.flight.submissions[i];
    assert x == t.flight.submissions[i];
    assert Holds(s.pools, x.pool, s.ids(x.slot), x.cmd);
    assert Pending(s.flight, i);
  }

  /** Exactly when recording is safe: the slots' keys must all be different. */
  lemma RecordsSafelyExactly(n: nat, ids: nat -> nat)
    requires n > 0
    ensures RecordsSafely(n, ids) <==> Distinct(ids, n)
  {
    InitInv(n, ids);
    if Distinct(ids, n) {
      forall schedule: seq<Action> | |Run(Init(n, ids), schedule).flight.fences| == n
        ensures NeverPending(Run(Init(n, ids), schedule))
      {
        RunInv(Init(n, ids), schedule);
        var s := Run(Init(n, ids), schedule);
        assert Leads(n, s.ids, schedule, s);
        RecordsIdleBuffers(s);
      }
    } else {
      var i: nat, j: nat :| i < n && j < n && ids(i) == ids(j) && i != j;
      var schedule := SharedKeyRecordsPending(n, ids, if i < j then i else j, if i < j then j else i);
    }
  }

  // ---------------------------------------------------------------- exactly which discards are safe

  /** If resource r has been destroyed, everything that uses it has completed. */
  ghost predicate SafelyGone(s: State, r: nat) {
    r in s.waste.destroyed ==> UsesDone(s.flight, r)
  }

  /** Whatever happens next, resource r is not destroyed under a pending submission. */
  ghost predicate StaysSafe(s: State, r: nat)
    requires s.flight.frameIndex < |s.flight.fences|
  {
    forall schedule: seq<Action> :: SafelyGone(Run(s, schedule), r)
  }

  /** A resource that is gone from the live ones is never discarded again. */
  lemma {:induction false} StaysLate(s: State, r: nat, schedule: seq<Action>)
    requires s.flight.frameIndex < |s.flight.fences|
    requires r !in s.waste.live && r < s.waste.created && r !in s.waste.early
    ensures r !in Run(s, schedule).waste.early
    decreases |schedule|
  {
    if schedule != [] {
      NextInRange(s, schedule[0]);
      StaysLate(Next(s, schedule[0]), r, schedule[1..]);
    }
  }

  /** The GPU catches up, the recording is submitted, and the next frame sweeps. */
  lemma SweptUnderSubmission(s: State, r: nat) returns (schedule: seq<Action>)
    requires Inv(s) && s.phase.Submit? && r in s.phase.uses && r !in s.waste.live
    ensures !SafelyGone(Run(s, schedule), r)
  {
    var drain := Completes(|s.flight.submissions| - s.flight.completed);
    var first, second := [SubmitFrame, AdvanceFrame, PresentImage(true, 0)], [Tick(true)];
    schedule := drain + (first + second);
    GpuCompletes(s, |s.flight.submissions| - s.flight.completed);
    var t := Run(s, drain);
    RunMore(s, drain, first + second);
    RunMore(t, first, second);
    SubmitThenSweep(t, r);
    RunThree(t, SubmitFrame, AdvanceFrame, PresentImage(true, 0));
    var u := Run(t, first);
    assert [Tick(true)][1..] == [];
    assert Run(u, second) == Next(u, Tick(true));
  }

  lemma SubmitThenSweep(s: State, r: nat)
    requires Inv(s) && s.phase.Submit? && r in s.phase.uses && r !in s.waste.live
    requires s.flight.completed == |s.flight.submissions|
    ensures var s1 := Next(s, SubmitFrame);
      && s1.flight.frameIndex < |s1.flight.fences|
      && var s2 := Next(s1, AdvanceFrame);
      && s2.flight.frameIndex < |s2.flight.fences|
      && var s3 := Next(s2, PresentImage(true, 0));
      && s3.flight.frameIndex < |s3.flight.fences|
      && !SafelyGone(Next(s3, Tick(true)), r)
  {
    var s3 := Next(Next(Next(s, SubmitFrame), AdvanceFrame), PresentImage(true, 0));
    var s4 := Next(s3, Tick(true));
    assert RecordedOk(s.waste, s.flight, r);
    forall i: nat | i < |s.waste.list| ensures s.waste.list[i].stamp <= s.flight.completed {
      assert WasteEntryOk(s.waste, s.flight, s.waste.list[i]);
    }
    assert WastePlaces(s.waste, r) == 1;
    TimesIn(s.waste.destroyed, r);
    TimesIn(Items(s.waste.list), r);
    assert s.waste.list[..|s.waste.list|] == s.waste.list;
    assert s4.waste.destroyed == s.waste.destroyed + Items(s.waste.list);
    var k := s.flight.completed;
    assert s4.flight.submissions[k].uses == s.phase.uses && s4.flight.completed == k;
  }

  lemma AdvanceThenSweep(s: State, r: nat)
    requires Inv(s) && s.phase.Advance? && r in Exposed(s.flight, s.phase) && r !in s.waste.live
    requires s.flight.completed == s.flight.timeline
    ensures var s1 := Next(s, AdvanceFrame);
      && s1.flight.frameIndex < |s1.flight.fences|
      && var s2 := Next(s1, PresentImage(true, 0));
      && s2.flight.frameIndex < |s2.flight.fences|
      && !SafelyGone(Next(s2, Tick(true)), r)
  {
    var s2 := Next(Next(s, AdvanceFrame), PresentImage(true, 0));
    var s3 := Next(s2, Tick(true));
    forall i: nat | i < |s.waste.list| ensures s.waste.list[i].stamp <= s.flight.completed {
      assert WasteEntryOk(s.waste, s.flight, s.waste.list[i]);
    }
    assert r < s.waste.created;
    assert WastePlaces(s.waste, r) == 1;
    TimesIn(s.waste.destroyed, r);
    TimesIn(Items(s.waste.list), r);
    assert s.waste.list[..|s.waste.list|] == s.waste.list;
    assert s3.waste.destroyed == s.waste.destroyed + Items(s.waste.list);
    assert r in s3.flight.submissions[s.flight.completed].uses && s3.flight.completed == s.flight.completed;
  }

  lemma LastSwept(s: State, r: nat)
    requires Inv(s) && s.phase.Advance? && r in Exposed(s.flight, s.phase) && r !in s.waste.live
    requires s.flight.completed == s.flight.timeline
    ensures !SafelyGone(Run(s, [AdvanceFrame, PresentImage(true, 0), Tick(true)]), r)
  {
    AdvanceThenSweep(s, r);
    RunThree(s, AdvanceFrame, PresentImage(true, 0), Tick(true));
  }

  /** The GPU completes all but the last submission, and the next frame sweeps. */
  lemma SweptUnderLast(s: State, r: nat) returns (schedule: seq<Action>)
    requires Inv(s) && s.phase.Advance? && r in Exposed(s.flight, s.phase) && r !in s.waste.live
    ensures !SafelyGone(Run(s, schedule), r)
  {
    var n := |s.flight.submissions| - 1 - s.flight.completed;
    var rest := [AdvanceFrame, PresentImage(true, 0), Tick(true)];
    schedule := Completes(n) + rest;
    GpuCompletes(s, n);
    RunMore(s, Completes(n), rest);
    LastSwept(Run(s, Completes(n)), r);
  }

  /**
   Discarding a resource with the current timeline is safe in all continuations exactly when it is not exposed:
   when no recording under way uses it, and no submission that the timeline has yet to count does either, unless
   that one has completed. Both signal one more than the stamp.
   */
  lemma DiscardSafeExactly(s: State, r: nat)
    requires Reachable(s) && r in s.waste.live
    ensures s.flight.frameIndex < |s.flight.fences|
    ensures Next(s, Discard(r)).flight.frameIndex < |Next(s, Discard(r)).flight.fences|
    ensures StaysSafe(Next(s, Discard(r)), r) <==> r !in Exposed(s.flight, s.phase)
  {
    EveryRun(s);
    var t := Next(s, Discard(r));
    NextInv(s, Discard(r));
    LiveElsewhere(s.waste, r);
    if r in Exposed(s.flight, s.phase) {
      if s.phase.Submit? {
        var schedule := SweptUnderSubmission(t, r);
      } else {
        var schedule := SweptUnderLast(t, r);
      }
    } else {
      forall schedule: seq<Action> ensures SafelyGone(Run(t, schedule), r) {
        StaysLate(t, r, schedule);
        RunInv(t, schedule);
        var u := Run(t, schedule);
        assert r in u.waste.destroyed ==> UsesDone(u.flight, r);
      }
    }
  }
}
