/** In what order jobs leave the scheduler's queues: each queue first in, first out, and the queues by priority. */
module SchedulerOrder {
  import opened JobGraph
  import opened Scheduler

  /** The jobs in a queue, oldest first. */
  function Jobs(queue: seq<Entry>): (jobs: seq<nat>)
    ensures |jobs| == |queue| && forall i: nat | i < |queue| :: jobs[i] == queue[i].job
  {
    seq(|queue|, i requires 0 <= i < |queue| => queue[i].job)
  }

  // ---------------------------------------------------------------- what a step takes and what it brings

  /** The job a fiber takes: it was scanning queue q and now holds it. */
  function TakenBy(pc: Fiber, pc': Fiber, q: nat): seq<nat> {
    if pc == Scan(q) && pc'.Holding? then [pc'.job] else []
  }

  /** The job whose place in queue q a fiber, or a client, has just claimed. */
  function BroughtByFiber(s: State, pc: Fiber, pc': Fiber, q: nat): seq<nat>
    requires Shape(s)
  {
    if pc.PushClaim? && pc'.PushPublish? && pc.job < |s.conts| && pc.k < |s.conts[pc.job]|
       && s.prio[s.conts[pc.job][pc.k]] == q
    then [s.conts[pc.job][pc.k]] else []
  }

  function BroughtByClient(s: State, pc: Client, pc': Client, q: nat): seq<nat>
    requires Shape(s)
  {
    if pc.CClaim? && pc'.CPublish? && pc.job < |s.prio| && s.prio[pc.job] == q then [pc.job] else []
  }

  function Taken(s: State, a: Action, q: nat): seq<nat>
    requires Shape(s) && Shape(Next(s, a)) && SameFrame(s, Next(s, a))
  {
    if a.StepFiber? && a.f < |s.fibers| then TakenBy(s.fibers[a.f], Next(s, a).fibers[a.f], q) else []
  }

  function Brought(s: State, a: Action, q: nat): seq<nat>
    requires Shape(s) && Shape(Next(s, a)) && SameFrame(s, Next(s, a))
  {
    if a.StepFiber? && a.f < |s.fibers| then BroughtByFiber(s, s.fibers[a.f], Next(s, a).fibers[a.f], q)
    else if a.StepClient? && a.e < |s.clients| then BroughtByClient(s, s.clients[a.e], Next(s, a).clients[a.e], q)
    else []
  }

  /** What went in at the back and what came out at the front. */
  ghost predicate Passes(queue: seq<Entry>, queue': seq<Entry>, taken: seq<nat>, brought: seq<nat>) {
    Jobs(queue) + brought == taken + Jobs(queue')
  }

  lemma ReadyKeepsJobs(queue: seq<Entry>, who: Pusher)
    ensures Jobs(Ready(queue, who)) == Jobs(queue)
  {
  }

  lemma AppendJobs(queue: seq<Entry>, j: nat, who: Pusher)
    ensures Jobs(queue + [Entry(j, who, false)]) == Jobs(queue) + [j]
  {
  }

  lemma TakeJobs(queue: seq<Entry>)
    requires queue != []
    ensures Jobs(queue) == [queue[0].job] + Jobs(queue[1..])
  {
  }

  lemma NothingPasses(queue: seq<Entry>)
    ensures Passes(queue, queue, [], [])
  {
    assert Jobs(queue) + [] == Jobs(queue) == [] + Jobs(queue);
  }

  lemma PopPasses(s: State, f: nat, p: nat, q: nat)
    requires Shape(s) && f < |s.fibers| && p < 3 && q < 3 && s.fibers[f] == Scan(p)
    ensures var s' := PopStep(s, f, p);
      |s'.queues| == 3 && |s'.fibers| == |s.fibers|
      && Passes(s.queues[q], s'.queues[q], TakenBy(s.fibers[f], s'.fibers[f], q), [])
      && !s'.fibers[f].PushPublish?
  {
    NothingPasses(s.queues[q]);
    if s.queues[p] != [] {
      TakeJobs(s.queues[p]);
      assert Jobs(s.queues[p]) + [] == Jobs(s.queues[p]);
    }
  }

  lemma PushPasses(s: State, f: nat, full: bool, q: nat)
    requires Shape(s) && f < |s.fibers| && s.fibers[f].Pushing() && q < 3
    ensures var s' := PushContinuationStep(s, f, full);
      |s'.queues| == 3 && |s'.fibers| == |s.fibers|
      && Passes(s.queues[q], s'.queues[q], [], BroughtByFiber(s, s.fibers[f], s'.fibers[f], q))
  {
    NothingPasses(s.queues[q]);
    assert FiberShape(s.conts, s.fibers[f]);
    var c := s.conts[s.fibers[f].job][s.fibers[f].k];
    AppendJobs(s.queues[s.prio[c]], c, ByFiber(f));
    ReadyKeepsJobs(s.queues[s.prio[c]], ByFiber(f));
    assert [] + (Jobs(s.queues[s.prio[c]]) + [c]) == Jobs(s.queues[s.prio[c]]) + [c];
  }

  lemma ClientPasses(s: State, e: nat, full: bool, retry: bool, q: nat)
    requires Shape(s) && e < |s.clients| && q < 3
    ensures var s' := ClientStep(s, e, full, retry);
      |s'.queues| == 3 && |s'.clients| == |s.clients|
      && Passes(s.queues[q], s'.queues[q], [], BroughtByClient(s, s.clients[e], s'.clients[e], q))
  {
    NothingPasses(s.queues[q]);
    if !s.clients[e].CIdle? {
      var j := s.clients[e].job;
      AppendJobs(s.queues[s.prio[j]], j, ByClient(e));
      ReadyKeepsJobs(s.queues[s.prio[j]], ByClient(e));
      assert [] + (Jobs(s.queues[s.prio[j]]) + [j]) == Jobs(s.queues[s.prio[j]]) + [j];
    }
  }

  lemma QuietPasses(s: State, f: nat, full: bool, q: nat)
    requires Shape(s) && f < |s.fibers| && q < 3 && !s.fibers[f].Scan? && !s.fibers[f].Pushing()
    ensures FiberStep(s, f, full).queues == s.queues
  {
    assert FiberShape(s.conts, s.fibers[f]);
  }

  lemma NextPasses(s: State, a: Action, q: nat)
    requires Shape(s) && Shape(Next(s, a)) && SameFrame(s, Next(s, a)) && q < 3
    ensures Passes(s.queues[q], Next(s, a).queues[q], Taken(s, a, q), Brought(s, a, q))
  {
    NothingPasses(s.queues[q]);
    match a
    case StepFiber(f, full) =>
      if f < |s.fibers| {
        var pc := s.fibers[f];
        assert FiberShape(s.conts, pc);
        if pc.Scan? { PopPasses(s, f, pc.q, q); }
        else if pc.Pushing() { PushPasses(s, f, full, q); }
        else { QuietPasses(s, f, full, q); }
      }
    case StepClient(e, full, retry) => if e < |s.clients| { ClientPasses(s, e, full, retry, q); }
    case StartSubmit(e, j) => assert Next(s, a).queues == s.queues;
    case _ =>
  }

  // ---------------------------------------------------------------- over whole runs

  function AllTaken(s: State, schedule: seq<Action>, q: nat): seq<nat>
    requires Shape(s)
    decreases |schedule|
  {
    if schedule == [] then []
    else
      NextShape(s, schedule[0]);
      Taken(s, schedule[0], q) + AllTaken(Next(s, schedule[0]), schedule[1..], q)
  }

  function AllBrought(s: State, schedule: seq<Action>, q: nat): seq<nat>
    requires Shape(s)
    decreases |schedule|
  {
    if schedule == [] then []
    else
      NextShape(s, schedule[0]);
      Brought(s, schedule[0], q) + AllBrought(Next(s, schedule[0]), schedule[1..], q)
  }

  lemma Chain(a: seq<nat>, b: seq<nat>, c: seq<nat>, t1: seq<nat>, b1: seq<nat>, t2: seq<nat>, b2: seq<nat>)
    requires a + b1 == t1 + b && b + b2 == t2 + c
    ensures a + (b1 + b2) == (t1 + t2) + c
  {
    assert a + (b1 + b2) == (a + b1) + b2 == (t1 + b) + b2 == t1 + (b + b2) == t1 + (t2 + c);
  }

  /**
   Along any run from any state each queue is first in, first out, however many fibers and clients there are: the jobs
   that were in it followed by those brought are those taken followed by those still in it.
   */
  lemma {:induction false} FirstInFirstOut(s: State, schedule: seq<Action>, q: nat)
    requires Shape(s) && q < 3
    ensures Shape(Run(s, schedule))
    ensures Jobs(s.queues[q]) + AllBrought(s, schedule, q)
            == AllTaken(s, schedule, q) + Jobs(Run(s, schedule).queues[q])
    decreases |schedule|
  {
    RunShape(s, schedule);
    if schedule == [] {
      NothingPasses(s.queues[q]);
    } else {
      var s' := Next(s, schedule[0]);
      NextShape(s, schedule[0]);
      NextPasses(s, schedule[0], q);
      FirstInFirstOut(s', schedule[1..], q);
      Chain(Jobs(s.queues[q]), Jobs(s'.queues[q]), Jobs(Run(s, schedule).queues[q]),
            Taken(s, schedule[0], q), Brought(s, schedule[0], q),
            AllTaken(s', schedule[1..], q), AllBrought(s', schedule[1..], q));
    }
  }

  // ---------------------------------------------------------------- by priority

  /** The head of the queue is there and ready. */
  predicate CanPop(queue: seq<Entry>) {
    queue != [] && queue[0].ready
  }

  /** What a fiber that was at pc does next is in the order of priority. */
  ghost predicate InOrder(s: State, pc: Fiber, pc': Fiber)
    requires |s.queues| == 3
  {
    match pc'
    case Scan(q) =>
      if q == 0 then pc.CheckShutdown? || pc.Continue? || pc.Notify?
      else q < 3 && pc == Scan(q - 1) && !CanPop(s.queues[q - 1])
    case CheckShutdown => pc == Scan(2) && !CanPop(s.queues[2])
    case Holding(j) => pc.Scan? && pc.q < 3 && CanPop(s.queues[pc.q]) && j == s.queues[pc.q][0].job
    case _ => !pc.Scan?
  }

  /** The step moves fiber f, if at all, in the order of priority, and no other. */
  ghost predicate MovesInOrder(s: State, s': State, f: nat)
    requires |s.queues| == 3 && f < |s.fibers|
  {
    && |s'.fibers| == |s.fibers|
    && (s'.fibers[f] == s.fibers[f] || InOrder(s, s.fibers[f], s'.fibers[f]))
    && forall g: nat | g < |s.fibers| && g != f :: s'.fibers[g] == s.fibers[g]
  }

  lemma PopInOrder(s: State, f: nat, q: nat)
    requires Shape(s) && f < |s.fibers| && q < 3 && s.fibers[f] == Scan(q)
    ensures MovesInOrder(s, PopStep(s, f, q), f)
  {
  }

  lemma WorkInOrder(s: State, f: nat)
    requires Shape(s) && f < |s.fibers| && (s.fibers[f].Holding? || s.fibers[f].InFn? || s.fibers[f].MarkDone?)
    ensures MovesInOrder(s, WorkStep(s, f), f)
  {
  }

  lemma ContinueInOrder(s: State, f: nat, j: nat, k: nat)
    requires Shape(s) && f < |s.fibers| && s.fibers[f] == Continue(j, k) && j < |s.conts| && k <= |s.conts[j]|
    ensures MovesInOrder(s, ContinueStep(s, f, j, k), f)
  {
  }

  lemma PushInOrder(s: State, f: nat, full: bool)
    requires Shape(s) && f < |s.fibers| && s.fibers[f].Pushing()
    ensures MovesInOrder(s, PushContinuationStep(s, f, full), f)
  {
  }

  lemma IdleInOrder(s: State, f: nat)
    requires Shape(s) && f < |s.fibers| && !s.fibers[f].Scan?
    ensures MovesInOrder(s, IdleStep(s, f), f)
  {
  }

  /**
   A fiber looks at a queue of lower priority only after it found the one before without a ready head, and gives up
   only after the last; it takes a job only from the front of the queue it looks at, and only if that is ready; and it
   starts over at the first queue after whatever it did.
   */
  lemma ScansByPriority(s: State, a: Action, f: nat)
    requires Shape(s) && f < |s.fibers|
    ensures |Next(s, a).fibers| == |s.fibers|
    ensures var pc, pc' := s.fibers[f], Next(s, a).fibers[f];
      pc' != pc ==> a.StepFiber? && a.f == f && InOrder(s, pc, pc')
  {
    NextShape(s, a);
    if a.StepFiber? && a.f < |s.fibers| {
      var pc := s.fibers[a.f];
      assert FiberShape(s.conts, pc);
      if pc.Scan? { PopInOrder(s, a.f, pc.q); }
      else if pc.Holding? || pc.InFn? || pc.MarkDone? { WorkInOrder(s, a.f); }
      else if pc.Continue? { ContinueInOrder(s, a.f, pc.job, pc.k); }
      else if pc.Pushing() { PushInOrder(s, a.f, a.full); }
      else { IdleInOrder(s, a.f); }
    }
  }
}
