/**
 Draining after shutdown: exactly when the fibers leave work behind.

 Once the flag is set and no new submission begins, a fiber that finds all three queues empty in one scan
 returns. Whether that strands work depends only on where the fibers' scans stand, and on whether a client is
 still inside a submission.
 */
module SchedulerShutdown {
  import opened JobGraph
  import opened Scheduler
  import opened SchedulerJobs
  import opened SchedulerQuiescence

  ghost predicate AllEmpty(s: State)
    requires Sized(s)
  {
    s.queues[0] == [] && s.queues[1] == [] && s.queues[2] == []
  }

  ghost predicate AllReturned(s: State) {
    forall f: nat | f < |s.fibers| :: s.fibers[f].Returned?
  }

  /** The fiber is busy, and will scan all three queues when it is done. */
  predicate Busy(pc: Fiber) {
    !pc.Scan? && !pc.CheckShutdown? && !pc.Returned?
  }

  /** The fiber will still come to a queue that is not empty. */
  ghost predicate Reaches(s: State, f: nat)
    requires Sized(s)
  {
    f < |s.fibers| &&
    (Busy(s.fibers[f]) ||
     (s.fibers[f].Scan? && exists p: nat :: s.fibers[f].q <= p < 3 && s.queues[p] != []))
  }

  /** There is no work left, or some fiber has not yet passed all of it in its current scan. */
  ghost predicate Covered(s: State)
    requires Sized(s)
  {
    AllEmpty(s) || exists f: nat :: Reaches(s, f)
  }

  /** No client is inside a submission. */
  ghost predicate ClientsIdle(s: State) {
    forall e: nat | e < |s.clients| :: s.clients[e].CIdle?
  }

  /** Shutdown was requested and no client is inside a submission. */
  ghost predicate Draining(s: State) {
    JobInv(s) && s.shutdown && ClientsIdle(s)
  }

  /** Whoever holds the lock is about to give it up. */
  ghost predicate LockOk(s: State) {
    match s.lock
    case Free => true
    case FiberHolds(f) => f < |s.fibers| && s.fibers[f].Notify?
    case WaiterHolds(w) => w < |s.waiters| && (s.waiters[w].Checking? || s.waiters[w].Blocking?)
  }

  /** Shutdown was requested; clients may be in the middle of a submission. */
  ghost predicate Stopping(s: State) {
    JobInv(s) && LockOk(s) && s.shutdown
  }

  predicate NoSubmissions(schedule: seq<Action>) {
    forall a | a in schedule :: !a.StartSubmit?
  }

  /** Whatever happens from here without new submissions, the last fiber to return leaves the queues empty. */
  ghost predicate NothingStranded(s: State)
    requires Shape(s)
  {
    forall schedule: seq<Action> | NoSubmissions(schedule) ::
      RunsTo(s, schedule) && (AllReturned(Run(s, schedule)) ==> AllEmpty(Run(s, schedule)))
  }

  ghost predicate RunsTo(s: State, schedule: seq<Action>)
    requires Shape(s)
  {
    Sized(Run(s, schedule))
  }

  lemma NextDraining(s: State, a: Action)
    requires Draining(s) && !a.StartSubmit?
    ensures Draining(Next(s, a))
  {
    NextInv(s, a);
    NextShape(s, a);
    ClientsStayIdle(s, a);
  }

  lemma ClientsStayIdle(s: State, a: Action)
    requires Shape(s) && s.shutdown && !a.StartSubmit?
    requires forall e: nat | e < |s.clients| :: s.clients[e].CIdle?
    ensures Next(s, a).clients == s.clients && Next(s, a).shutdown
  {
    if a.StepFiber? && a.f < |s.fibers| {
      FiberStepLeavesClients(s, a.f, a.full);
    }
  }

  lemma FiberStepLeavesClients(s: State, f: nat, full: bool)
    requires Shape(s) && f < |s.fibers|
    ensures FiberStep(s, f, full).clients == s.clients && FiberStep(s, f, full).shutdown == s.shutdown
  {
    assert FiberShape(s.conts, s.fibers[f]);
  }

  // ---------------------------------------------------------------- covered work is drained

  /** A busy fiber stays busy, or starts a scan at the first queue; the other fibers do not move. */
  lemma BusyFiberStep(s: State, f: nat, full: bool)
    requires Shape(s) && f < |s.fibers| && Busy(s.fibers[f])
    ensures var s' := FiberStep(s, f, full);
      |s'.fibers| == |s.fibers| && (Busy(s'.fibers[f]) || s'.fibers[f] == Scan(0))
  {
    assert FiberShape(s.conts, s.fibers[f]);
  }

  /** A head that is not ready is being pushed by a fiber that is busy with it. */
  lemma UnreadyHeadIsOwned(s: State, q: nat)
    requires Draining(s) && q < 3 && s.queues[q] != [] && !s.queues[q][0].ready
    ensures exists g: nat :: g < |s.fibers| && s.fibers[g].PushPublish?
  {
    var x := s.queues[q][0];
    assert EntryOk(s, q, x);
    assert x.pusher.ByFiber?;
    assert s.fibers[x.pusher.f].PushPublish?;
  }

  /** A scanning fiber that still has work ahead keeps it ahead, or takes some, or meets a push under way. */
  lemma ScanStepCovers(s: State, f: nat, full: bool)
    requires Draining(s) && f < |s.fibers| && s.fibers[f].Scan? && Reaches(s, f)
    requires Sized(FiberStep(s, f, full))
    ensures Covered(FiberStep(s, f, full))
  {
    var s' := FiberStep(s, f, full);
    var q := s.fibers[f].q;
    assert FiberShape(s.conts, s.fibers[f]);
    var p: nat :| q <= p < 3 && s.queues[p] != [];
    if s.queues[q] != [] && s.queues[q][0].ready {
      assert Busy(s'.fibers[f]) && Reaches(s', f);
    } else if s.queues[q] != [] {
      UnreadyHeadIsOwned(s, q);
      var g: nat :| g < |s.fibers| && s.fibers[g].PushPublish?;
      assert Busy(s'.fibers[g]) && Reaches(s', g);
    } else {
      assert s'.fibers[f] == Scan(q + 1) && s'.queues[p] != [];
      assert Reaches(s', f);
    }
  }

  lemma FiberStepCovers(s: State, f: nat, full: bool)
    requires Draining(s) && Covered(s) && f < |s.fibers| && Sized(FiberStep(s, f, full))
    ensures Covered(FiberStep(s, f, full))
  {
    var s' := FiberStep(s, f, full);
    if Busy(s.fibers[f]) {
      BusyFiberStep(s, f, full);
      if !AllEmpty(s') {
        var p: nat :| p < 3 && s'.queues[p] != [];
        assert Reaches(s', f);
      }
    } else if Reaches(s, f) {
      ScanStepCovers(s, f, full);
    } else {
      PassingStep(s, f, full);
      if !AllEmpty(s) {
        var g: nat :| Reaches(s, g);
        assert s'.fibers[g] == s.fibers[g];
        assert Reaches(s', g);
      }
    }
  }

  /** A fiber with no work ahead of it in its scan changes nothing but its own place. */
  lemma PassingStep(s: State, f: nat, full: bool)
    requires Shape(s) && f < |s.fibers| && !Busy(s.fibers[f]) && !Reaches(s, f)
    ensures var s' := FiberStep(s, f, full);
      && s'.queues == s.queues && |s'.fibers| == |s.fibers| && s'.fibers == s.fibers[f := s'.fibers[f]]
      && !Busy(s'.fibers[f])
      && (s.shutdown ==> Distance(s'.fibers[f]) <= Distance(s.fibers[f]))
      && (s.shutdown && !s.fibers[f].Returned? ==> Distance(s'.fibers[f]) < Distance(s.fibers[f]))
      && (s.fibers[f].Scan? && s'.fibers[f].Scan? ==> s.fibers[f].q <= s'.fibers[f].q)
      && (s.shutdown && s'.fibers[f].Scan? ==> s.fibers[f].Scan?)
  {
    assert FiberShape(s.conts, s.fibers[f]);
    assert s.fibers[f := s.fibers[f]] == s.fibers;
  }

  /** How many steps of its scan a fiber that finds nothing has left before it returns. */
  function Distance(pc: Fiber): nat {
    if pc.Scan? && pc.q < 3 then 4 - pc.q
    else if pc.Returned? then 0
    else 1
  }

  lemma NextCovers(s: State, a: Action)
    requires Draining(s) && Covered(s) && !a.StartSubmit? && Sized(Next(s, a))
    ensures Covered(Next(s, a))
  {
    var s' := Next(s, a);
    if a.StepFiber? && a.f < |s.fibers| {
      FiberStepCovers(s, a.f, a.full);
    } else {
      assert s'.fibers == s.fibers && s'.queues == s.queues;
      if !AllEmpty(s) {
        var g: nat :| Reaches(s, g);
        assert Reaches(s', g);
      }
    }
  }

  lemma {:induction false} RunCovers(s: State, schedule: seq<Action>)
    requires Draining(s) && Covered(s) && NoSubmissions(schedule)
    ensures Draining(Run(s, schedule)) && Covered(Run(s, schedule))
    decreases |schedule|
  {
    if schedule != [] {
      assert schedule[0] in schedule;
      NextDraining(s, schedule[0]);
      NextCovers(s, schedule[0]);
      RunCovers(Next(s, schedule[0]), schedule[1..]);
    }
  }

  /**
   If, when the draining begins, some fiber has not passed all the work in its scan, then however the run
   goes, and whatever continuations are pushed during it, the last fiber to return leaves all three queues
   empty.
   */
  lemma CoveredIsDrained(s: State, schedule: seq<Action>)
    requires Draining(s) && Covered(s) && NoSubmissions(schedule)
    ensures Draining(Run(s, schedule))
    ensures AllReturned(Run(s, schedule)) ==> AllEmpty(Run(s, schedule))
  {
    RunCovers(s, schedule);
  }

  // ---------------------------------------------------------------- uncovered work is stranded

  lemma NextStrands(s: State, a: Action)
    requires Draining(s) && !Covered(s) && !a.StartSubmit? && Sized(Next(s, a))
    ensures !Covered(Next(s, a)) && Next(s, a).queues == s.queues
  {
    var s' := Next(s, a);
    if a.StepFiber? && a.f < |s.fibers| {
      assert !Reaches(s, a.f);
      PassingStep(s, a.f, a.full);
      forall g: nat ensures !Reaches(s', g) {
        assert !Reaches(s, g);
      }
    } else {
      assert s'.fibers == s.fibers && s'.queues == s.queues;
      forall g: nat ensures !Reaches(s', g) {
        assert !Reaches(s, g);
      }
    }
  }

  lemma {:induction false} RunStrands(s: State, schedule: seq<Action>)
    requires Draining(s) && !Covered(s) && NoSubmissions(schedule)
    ensures Draining(Run(s, schedule)) && !Covered(Run(s, schedule)) && Run(s, schedule).queues == s.queues
    decreases |schedule|
  {
    if schedule != [] {
      assert schedule[0] in schedule;
      NextDraining(s, schedule[0]);
      NextStrands(s, schedule[0]);
      RunStrands(Next(s, schedule[0]), schedule[1..]);
    }
  }

  function Distances(fibers: seq<Fiber>): nat {
    if fibers == [] then 0 else Distance(fibers[0]) + Distances(fibers[1..])
  }

  lemma {:induction false} DistancesDrop(fibers: seq<Fiber>, f: nat, pc: Fiber)
    requires f < |fibers| && Distance(pc) < Distance(fibers[f])
    ensures Distances(fibers[f := pc]) < Distances(fibers)
  {
    if f == 0 {
      assert fibers[0 := pc][1..] == fibers[1..];
    } else {
      assert fibers[f := pc][1..] == fibers[1..][f - 1 := pc];
      DistancesDrop(fibers[1..], f - 1, pc);
    }
  }

  /** From uncovered work the fibers can all return, one scan each. */
  lemma {:induction false} AllCanReturn(s: State) returns (schedule: seq<Action>)
    requires Draining(s) && !Covered(s)
    ensures NoSubmissions(schedule) && AllReturned(Run(s, schedule))
    decreases Distances(s.fibers)
  {
    if AllReturned(s) {
      schedule := [];
    } else {
      var f: nat :| f < |s.fibers| && !s.fibers[f].Returned?;
      var a := StepFiber(f, false);
      assert !Reaches(s, f);
      PassingStep(s, f, false);
      var s' := Next(s, a);
      NextDraining(s, a);
      NextStrands(s, a);
      DistancesDrop(s.fibers, f, s'.fibers[f]);
      var rest := AllCanReturn(s');
      schedule := [a] + rest;
      assert schedule[1..] == rest;
    }
  }

  // ---------------------------------------------------------------- a submission still under way

  lemma NextLock(s: State, a: Action)
    requires Shape(s) && LockOk(s)
    ensures LockOk(Next(s, a))
  {
    match a
    case StepFiber(f, full) =>
      if f < |s.fibers| && !s.fibers[f].WantNotify? && !s.fibers[f].Notify? {
        BusyStepMinds(s, f, full);
      }
    case _ =>
  }

  lemma {:induction false} RunLock(s: State, schedule: seq<Action>)
    requires Shape(s) && LockOk(s)
    ensures LockOk(Run(s, schedule))
    decreases |schedule|
  {
    if schedule != [] {
      NextShape(s, schedule[0]);
      NextLock(s, schedule[0]);
      RunLock(Next(s, schedule[0]), schedule[1..]);
    }
  }

  /** Every reachable state in which shutdown was requested is one of these. */
  lemma ReachableStops(s: State)
    requires Reachable(s) && s.shutdown
    ensures Stopping(s)
  {
    EveryRun(s);
    var start: State, schedule: seq<Action> :| Initial(start) && s == Run(start, schedule);
    RunLock(start, schedule);
  }

  function Backlog(s: State): nat
    requires |s.queues| == 3
  {
    |s.queues[0]| + |s.queues[1]| + |s.queues[2]|
  }

  /** How many steps a fiber has left that pops nothing more, when every push of it fails. */
  function Rank(conts: seq<seq<nat>>, pc: Fiber): nat {
    match pc
    case Scan(q) => if q < 3 then 4 - q else 1
    case CheckShutdown => 1
    case Returned => 0
    case Notify => 5
    case WantNotify => 6
    case Continue(j, k) => if j < |conts| && k <= |conts[j]| then 7 + 4 * (|conts[j]| - k) else 7
    case PushPublish(j, k) => if j < |conts| && k < |conts[j]| then 4 + 4 * (|conts[j]| - k) else 7
    case PushClaim(j, k) => if j < |conts| && k < |conts[j]| then 5 + 4 * (|conts[j]| - k) else 7
    case PushCount(j, k) => if j < |conts| && k < |conts[j]| then 6 + 4 * (|conts[j]| - k) else 7
    case MarkDone(j) => if j < |conts| then 8 + 4 * |conts[j]| else 7
    case InFn(j) => if j < |conts| then 9 + 4 * |conts[j]| else 7
    case Holding(j) => if j < |conts| then 10 + 4 * |conts[j]| else 7
  }

  function Ranks(conts: seq<seq<nat>>, fibers: seq<Fiber>): nat {
    if fibers == [] then 0 else Rank(conts, fibers[0]) + Ranks(conts, fibers[1..])
  }

  lemma {:induction false} RanksDrop(conts: seq<seq<nat>>, fibers: seq<Fiber>, f: nat, pc: Fiber)
    requires f < |fibers| && Rank(conts, pc) < Rank(conts, fibers[f])
    ensures Ranks(conts, fibers[f := pc]) < Ranks(conts, fibers)
  {
    if f == 0 {
      assert fibers[0 := pc][1..] == fibers[1..];
    } else {
      assert fibers[f := pc][1..] == fibers[1..][f - 1 := pc];
      RanksDrop(conts, fibers[1..], f - 1, pc);
    }
  }

  /** How many steps the waiter that holds the lock needs to give it up. */
  function LockRank(s: State): nat {
    match s.lock
    case WaiterHolds(w) => if w < |s.waiters| && s.waiters[w].Checking? then 2 else 1
    case _ => 0
  }

  /** A step that takes nothing off a queue brings its fiber nearer to its return, and adds nothing. */
  ghost predicate Nearer(s: State, s': State, f: nat)
    requires |s.queues| == 3 && f < |s.fibers|
  {
    && |s'.queues| == 3 && |s'.fibers| == |s.fibers| && s'.fibers == s.fibers[f := s'.fibers[f]]
    && s'.conts == s.conts && s'.clients == s.clients && s'.shutdown
    && (Backlog(s') < Backlog(s)
        || (Backlog(s') == Backlog(s) && Rank(s.conts, s'.fibers[f]) < Rank(s.conts, s.fibers[f])))
  }

  lemma PushNearer(s: State, f: nat)
    requires Shape(s) && s.shutdown && f < |s.fibers| && s.fibers[f].Pushing()
    ensures Nearer(s, PushContinuationStep(s, f, true), f)
  {
    assert FiberShape(s.conts, s.fibers[f]);
  }

  lemma WorkNearer(s: State, f: nat)
    requires Shape(s) && s.shutdown && f < |s.fibers|
    requires s.fibers[f].Holding? || s.fibers[f].InFn? || s.fibers[f].MarkDone?
    ensures Nearer(s, WorkStep(s, f), f)
  {
    assert FiberShape(s.conts, s.fibers[f]);
  }

  lemma ContinueNearer(s: State, f: nat, j: nat, k: nat)
    requires Shape(s) && s.shutdown && f < |s.fibers| && s.fibers[f] == Continue(j, k)
    requires j < |s.conts| && k <= |s.conts[j]|
    ensures Nearer(s, ContinueStep(s, f, j, k), f)
  {
  }

  lemma PopNearer(s: State, f: nat, q: nat)
    requires Shape(s) && s.shutdown && f < |s.fibers| && s.fibers[f] == Scan(q) && q < 3
    ensures Nearer(s, PopStep(s, f, q), f)
  {
  }

  lemma StepNearer(s: State, f: nat)
    requires Shape(s) && s.shutdown && f < |s.fibers| && !s.fibers[f].Returned?
    requires s.fibers[f].WantNotify? ==> s.lock.Free?
    ensures Nearer(s, FiberStep(s, f, true), f)
  {
    var pc := s.fibers[f];
    assert FiberShape(s.conts, pc);
    if pc.Scan? { PopNearer(s, f, pc.q); }
    else if pc.Holding? || pc.InFn? || pc.MarkDone? { WorkNearer(s, f); }
    else if pc.Continue? { ContinueNearer(s, f, pc.job, pc.k); }
    else if pc.Pushing() { PushNearer(s, f); }
    else { }
  }

  lemma NextStops(s: State, a: Action)
    requires Stopping(s)
    ensures Stopping(Next(s, a))
  {
    NextInv(s, a);
    NextLock(s, a);
    if a.StepFiber? && a.f < |s.fibers| {
      FiberStepLeavesClients(s, a.f, a.full);
    }
  }

  /** The step to take next on the way to everybody's return, while the clients stand still. */
  lemma Choose(s: State) returns (a: Action)
    requires Stopping(s) && !AllReturned(s)
    ensures !a.StartSubmit?
    ensures var s' := Next(s, a);
      && |s'.queues| == 3 && s'.conts == s.conts && s'.clients == s.clients
      && (Backlog(s') < Backlog(s)
          || (Backlog(s') == Backlog(s) && Ranks(s.conts, s'.fibers) < Ranks(s.conts, s.fibers))
          || (Backlog(s') == Backlog(s) && s'.fibers == s.fibers && LockRank(s') < LockRank(s)))
  {
    var f: nat :| f < |s.fibers| && !s.fibers[f].Returned?;
    if s.fibers[f].WantNotify? && s.lock.WaiterHolds? {
      a := StepWaiter(s.lock.w);
      return;
    }
    if s.fibers[f].WantNotify? && s.lock.FiberHolds? {
      f := s.lock.f;
    }
    a := StepFiber(f, true);
    StepNearer(s, f);
    var s' := Next(s, a);
    if Rank(s.conts, s'.fibers[f]) < Rank(s.conts, s.fibers[f]) {
      RanksDrop(s.conts, s.fibers, f, s'.fibers[f]);
    }
  }

  /** However much there is to do, the fibers can all return while a client pauses in its submission. */
  lemma {:induction false} AllReturnFirst(s: State) returns (schedule: seq<Action>)
    requires Stopping(s)
    ensures NoSubmissions(schedule)
    ensures var s' := Run(s, schedule); Stopping(s') && AllReturned(s') && s'.clients == s.clients
    decreases Backlog(s), Ranks(s.conts, s.fibers), LockRank(s)
  {
    if AllReturned(s) {
      schedule := [];
    } else {
      var a := Choose(s);
      NextStops(s, a);
      var rest := AllReturnFirst(Next(s, a));
      schedule := [a] + rest;
      RunNext(s, a, rest);
    }
  }

  /** A client inside a submission can leave a job in a queue without moving a fiber. */
  lemma ClientLeavesJob(s: State, e: nat) returns (schedule: seq<Action>)
    requires Stopping(s) && e < |s.clients| && !s.clients[e].CIdle?
    ensures NoSubmissions(schedule)
    ensures var s' := Run(s, schedule); Sized(s') && s'.fibers == s.fibers && !AllEmpty(s')
  {
    var a := StepClient(e, false, false);
    assert ClientOk(s, e);
    match s.clients[e]
    case CPublish(j) =>
      schedule := [];
    case CClaim(j) =>
      schedule := [a] + [];
      RunNext(s, a, []);
      ClaimFills(s, e);
    case CCount(j) =>
      schedule := [a] + ([a] + []);
      RunNext(s, a, [a] + []);
      RunNext(Next(s, a), a, []);
      ClaimFills(Next(s, a), e);
  }

  lemma ClaimFills(s: State, e: nat)
    requires Shape(s) && e < |s.clients| && s.clients[e].CClaim?
    ensures var s' := ClientStep(s, e, false, false);
      Sized(s') && s'.fibers == s.fibers && |s'.queues[s.prio[s.clients[e].job]]| > 0
  {
  }

  /** A submission under way when shutdown is requested can always be stranded. */
  lemma UnderWayCanStrand(s: State) returns (schedule: seq<Action>)
    requires Stopping(s) && !ClientsIdle(s)
    ensures NoSubmissions(schedule)
    ensures var s' := Run(s, schedule); Sized(s') && AllReturned(s') && !AllEmpty(s')
  {
    var e: nat :| e < |s.clients| && !s.clients[e].CIdle?;
    var first := AllReturnFirst(s);
    var second := ClientLeavesJob(Run(s, first), e);
    RunMore(s, first, second);
    schedule := first + second;
  }

  lemma DrainsQuietly(s: State)
    requires Draining(s)
    ensures NothingStranded(s) <==> Covered(s)
  {
    if Covered(s) {
      forall schedule: seq<Action> | NoSubmissions(schedule)
        ensures RunsTo(s, schedule) && (AllReturned(Run(s, schedule)) ==> AllEmpty(Run(s, schedule)))
      {
        CoveredIsDrained(s, schedule);
      }
    } else {
      var schedule := AllCanReturn(s);
      RunStrands(s, schedule);
    }
  }

  /**
   Exactly when draining leaves nothing behind, from any state with shutdown requested: when the work there is
   is covered by some fiber's scan and no client is inside a submission.
   */
  lemma DrainsExactlyWhenCovered(s: State)
    requires Stopping(s)
    ensures NothingStranded(s) <==> Covered(s) && ClientsIdle(s)
  {
    if ClientsIdle(s) {
      DrainsQuietly(s);
    } else {
      var schedule := UnderWayCanStrand(s);
    }
  }

  // ---------------------------------------------------------------- stranding does happen

  /** One job without continuations, nothing submitted, one fiber. */
  ghost predicate OneJob(s: State) {
    Initial(s) && s.conts == [[]] && s.prio == [0] && |s.fibers| == 1 && |s.clients| == 1
  }

  /** The three accesses of the client's push, and the request. */
  function PushThenShutdown(): seq<Action> {
    [StepClient(0, false, false)]
    + ([StepClient(0, false, false)] + ([StepClient(0, false, false)] + ([RequestShutdown] + [])))
  }

  /** The fiber looks at the first queue, the job is submitted to it, and shutdown is requested. */
  function SubmitBehind(): seq<Action> {
    [StepFiber(0, false)] + ([StartSubmit(0, 0)] + PushThenShutdown())
  }

  lemma StartsBehind(s: State)
    requires OneJob(s)
    ensures var t := Next(Next(s, StepFiber(0, false)), StartSubmit(0, 0));
      && Shape(t) && Run(s, SubmitBehind()) == Run(t, PushThenShutdown())
      && t.fibers == [Scan(1)] && t.clients == [CCount(0)] && t.prio == [0] && t.queues == [[], [], []]
  {
    RunNext(s, StepFiber(0, false), [StartSubmit(0, 0)] + PushThenShutdown());
    var s1 := Next(s, StepFiber(0, false));
    assert s1.fibers == [Scan(1)];
    RunNext(s1, StartSubmit(0, 0), PushThenShutdown());
    assert s.remaining[0] == 0 by { PendingNone(s.conts, Zeros(1), 0, 1); }
  }

  /** The client counts, claims and publishes. */
  lemma PushesBehind(s: State)
    requires Shape(s) && s.fibers == [Scan(1)] && s.clients == [CCount(0)] && s.prio == [0] && s.queues == [[], [], []]
    ensures var t := Run(s, PushThenShutdown());
      && Shape(t) && t.queues[0] != [] && t.queues[1] == t.queues[2] == []
      && t.shutdown && t.fibers == [Scan(1)] && t.clients == [CIdle]
  {
    var p := StepClient(0, false, false);
    var a5 := [RequestShutdown] + [];
    RunNext(s, p, [p] + ([p] + a5));
    var s1 := Next(s, p);
    assert s1.clients == [CClaim(0)];
    RunNext(s1, p, [p] + a5);
    var s2 := Next(s1, p);
    assert s2.clients == [CPublish(0)] && |s2.queues[0]| == 1;
    RunNext(s2, p, a5);
    var s3 := Next(s2, p);
    assert s3.clients == [CIdle] && |s3.queues[0]| == 1;
    RunNext(s3, RequestShutdown, []);
  }

  lemma BehindInv(s: State)
    requires OneJob(s)
    ensures JobInv(Run(s, SubmitBehind()))
  {
    InitialInv(s);
    RunInv(s, SubmitBehind());
  }

  lemma BehindEnds(s: State)
    requires OneJob(s)
    ensures var t := Run(s, SubmitBehind());
      && Shape(t) && t.queues[0] != [] && t.queues[1] == t.queues[2] == []
      && t.shutdown && t.fibers == [Scan(1)] && t.clients == [CIdle]
  {
    StartsBehind(s);
    PushesBehind(Next(Next(s, StepFiber(0, false)), StartSubmit(0, 0)));
  }

  lemma PassedIsUncovered(s: State)
    requires Sized(s) && s.fibers == [Scan(1)] && s.queues[0] != [] && s.queues[1] == s.queues[2] == []
    ensures !Covered(s)
  {
    forall f: nat ensures !Reaches(s, f) { }
  }

  /**
   A job submitted behind the scan of the only fiber, and shutdown right after: a run from the start in which
   every fiber returns and the job is never run.
   */
  lemma ShutdownCanStrand(s: State) returns (schedule: seq<Action>)
    requires OneJob(s)
    ensures var t := Run(s, SubmitBehind());
      Draining(t) && NoSubmissions(schedule) && AllReturned(Run(t, schedule)) && Run(t, schedule).queues == t.queues
      && t.queues[0] != []
  {
    var t := Run(s, SubmitBehind());
    BehindInv(s);
    BehindEnds(s);
    PassedIsUncovered(t);
    schedule := AllCanReturn(t);
    RunStrands(t, schedule);
  }
}
