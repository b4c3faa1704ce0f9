/**
 Exactly once, and in dependency order: what the scheduler's steps keep about every job, for any job graph
 wired beforehand, any interleaving, and any pattern of full rings.
 */
module SchedulerJobs {
  import opened JobGraph
  import opened Scheduler

  /** The lists have one entry per job, and there are three queues. */
  ghost predicate Sized(s: State) {
    && |s.prio| == |s.remaining| == |s.done| == |s.place| == |s.processed| == |s.started| == |s.ended| == |s.conts|
    && |s.queues| == 3
  }

  /** Nothing has happened to job j yet. */
  ghost predicate Untouched(s: State, j: nat)
    requires Sized(s) && j < |s.conts|
  {
    s.started[j] == 0 && s.ended[j] == 0 && s.processed[j] == 0 && !s.done[j]
  }

  /** The k-th continuation of job j is c. */
  ghost predicate Names(s: State, j: nat, k: nat, c: nat) {
    j < |s.conts| && k < |s.conts[j]| && s.conts[j][k] == c
  }

  /** `who` is pushing job c. */
  ghost predicate Pushes(s: State, who: Pusher, c: nat) {
    match who
    case ByFiber(f) => f < |s.fibers| && s.fibers[f].Pushing() && Names(s, s.fibers[f].job, s.fibers[f].k, c)
    case ByClient(e) => e < |s.clients| && !s.clients[e].CIdle? && s.clients[e].job == c
  }

  /** `who` has claimed a place for job c and is about to make it ready. */
  ghost predicate Publishes(s: State, who: Pusher, c: nat) {
    Pushes(s, who, c) && (if who.ByFiber? then s.fibers[who.f].PushPublish? else s.clients[who.e].CPublish?)
  }

  ghost predicate ReadyIn(queue: seq<Entry>, j: nat) {
    exists i: nat :: i < |queue| && queue[i].job == j && queue[i].ready
  }

  /** An entry of queue q. */
  ghost predicate EntryOk(s: State, q: nat, x: Entry)
    requires Sized(s)
  {
    && x.job < |s.conts| && s.prio[x.job] == q
    && if x.ready then s.place[x.job] == Queued
       else s.place[x.job] == Pushed(x.pusher) && Publishes(s, x.pusher, x.job)
  }

  ghost predicate Distinct(queue: seq<Entry>) {
    forall i: nat, k: nat | i < k < |queue| :: queue[i].job != queue[k].job
  }

  ghost predicate QueueOk(s: State, q: nat)
    requires Sized(s) && q < 3
  {
    (forall i: nat | i < |s.queues[q]| :: EntryOk(s, q, s.queues[q][i])) && Distinct(s.queues[q])
  }

  /** Fiber f has run job j and counted down k of its continuations. */
  ghost predicate Running(s: State, f: nat, j: nat, k: nat)
    requires Sized(s)
  {
    && j < |s.conts| && s.place[j] == OnFiber(f)
    && s.started[j] == 1 && s.ended[j] == 1 && s.processed[j] == k && s.done[j]
  }

  /** Fiber f, busy with job j, is pushing its k-th continuation. */
  ghost predicate PushingOk(s: State, f: nat, j: nat, k: nat)
    requires Sized(s)
  {
    && Running(s, f, j, k + 1) && k < |s.conts[j]|
    && s.conts[j][k] < |s.conts| && s.place[s.conts[j][k]] == Pushed(ByFiber(f))
  }

  ghost predicate FiberOk(s: State, f: nat)
    requires Sized(s) && f < |s.fibers|
  {
    match s.fibers[f]
    case Holding(j) => j < |s.conts| && s.place[j] == OnFiber(f) && Untouched(s, j)
    case InFn(j) =>
      && j < |s.conts| && s.place[j] == OnFiber(f)
      && s.started[j] == 1 && s.ended[j] == 0 && s.processed[j] == 0 && !s.done[j]
    case MarkDone(j) =>
      && j < |s.conts| && s.place[j] == OnFiber(f)
      && s.started[j] == 1 && s.ended[j] == 1 && s.processed[j] == 0 && !s.done[j]
    case Continue(j, k) => Running(s, f, j, k)
    case PushCount(j, k) => PushingOk(s, f, j, k)
    case PushClaim(j, k) => PushingOk(s, f, j, k)
    case PushPublish(j, k) => PushingOk(s, f, j, k) && HasPlace(s, s.conts[j][k], ByFiber(f))
    case _ => true
  }

  /** `who` has a place, not yet ready, in the queue of job c. */
  ghost predicate HasPlace(s: State, c: nat, who: Pusher)
    requires Sized(s) && c < |s.conts|
  {
    s.prio[c] < 3 && Entry(c, who, false) in s.queues[s.prio[c]]
  }

  ghost predicate ClientOk(s: State, e: nat)
    requires Sized(s) && e < |s.clients|
  {
    match s.clients[e]
    case CIdle => true
    case CCount(j) => j < |s.conts| && s.place[j] == Pushed(ByClient(e))
    case CClaim(j) => j < |s.conts| && s.place[j] == Pushed(ByClient(e))
    case CPublish(j) => j < |s.conts| && s.place[j] == Pushed(ByClient(e)) && HasPlace(s, j, ByClient(e))
  }

  ghost predicate JobOk(s: State, j: nat)
    requires Sized(s) && j < |s.conts|
  {
    match s.place[j]
    case Waiting => Untouched(s, j) && (s.remaining[j] == 0 ==> IsRoot(s.conts, j))
    case Pushed(who) => Untouched(s, j) && s.remaining[j] == 0 && Pushes(s, who, j)
    case Queued => Untouched(s, j) && s.remaining[j] == 0 && s.prio[j] < 3 && ReadyIn(s.queues[s.prio[j]], j)
    case OnFiber(f) => s.remaining[j] == 0 && f < |s.fibers| && s.fibers[f].Has(j)
    case Finished =>
      && s.remaining[j] == 0 && s.started[j] == 1 && s.ended[j] == 1 && s.done[j]
      && s.processed[j] == |s.conts[j]|
    case Dropped => Untouched(s, j) && s.remaining[j] == 0 && s.failed > 0
  }

  /** Every dependency counter counts the continuation entries naming its job that are not yet processed. */
  ghost predicate CountersOk(s: State)
    requires Sized(s) && Fits(s.conts, s.processed)
  {
    forall c: nat | c < |s.conts| :: s.remaining[c] == Pending(s.conts, s.processed, c)
  }

  ghost predicate JobInv(s: State) {
    && Shape(s)
    && CountersOk(s)
    && (forall f: nat | f < |s.fibers| :: FiberOk(s, f))
    && (forall e: nat | e < |s.clients| :: ClientOk(s, e))
    && QueueOk(s, 0) && QueueOk(s, 1) && QueueOk(s, 2)
    && (forall j: nat | j < |s.conts| :: JobOk(s, j))
  }

  lemma InitialInv(s: State)
    requires Initial(s)
    ensures JobInv(s)
  {
    forall j: nat | j < |s.conts| ensures JobOk(s, j) {
      if s.remaining[j] == 0 {
        NothingPending(s.conts, s.processed, j);
      }
    }
  }

  /** A job nobody names any more, while nothing was processed, has no prerequisites. */
  lemma NothingPending(conts: seq<seq<nat>>, processed: seq<nat>, c: nat)
    requires Fits(conts, processed) && Pending(conts, processed, c) == 0
    ensures forall p: nat | p < |conts| :: c !in conts[p][processed[p]..]
    ensures processed == Zeros(|conts|) ==> IsRoot(conts, c)
  {
    forall p: nat | p < |conts| ensures c !in conts[p][processed[p]..] {
      PendingBounds(conts, processed, p, c, |conts|);
      CountIn(conts[p][processed[p]..], c);
    }
    if processed == Zeros(|conts|) {
      forall p: nat ensures !Precedes(conts, p, c) {
        if p < |conts| {
          assert conts[p][processed[p]..] == conts[p];
        }
      }
    }
  }

  // ---------------------------------------------------------------- steps that touch no job

  /** The fiber is between jobs. */
  predicate Between(pc: Fiber) {
    pc.Scan? || pc.CheckShutdown? || pc.WantNotify? || pc.Notify? || pc.Returned?
  }

  lemma QuietFiber(s: State, f: nat, pc: Fiber, g: nat)
    requires Sized(s) && f < |s.fibers| && Between(s.fibers[f]) && Between(pc)
    requires g < |s.fibers| && FiberOk(s, g)
    ensures FiberOk(GoTo(s, f, pc), g)
  {
  }

  lemma QuietClient(s: State, f: nat, pc: Fiber, d: nat)
    requires Sized(s) && f < |s.fibers| && Between(s.fibers[f]) && Between(pc)
    requires d < |s.clients| && ClientOk(s, d)
    ensures ClientOk(GoTo(s, f, pc), d)
  {
  }

  lemma QuietEntry(s: State, f: nat, pc: Fiber, p: nat, x: Entry)
    requires Sized(s) && f < |s.fibers| && Between(s.fibers[f]) && Between(pc)
    requires EntryOk(s, p, x)
    ensures EntryOk(GoTo(s, f, pc), p, x)
  {
  }

  lemma QuietJob(s: State, f: nat, pc: Fiber, i: nat)
    requires Sized(s) && f < |s.fibers| && Between(s.fibers[f]) && Between(pc)
    requires i < |s.conts| && JobOk(s, i)
    ensures JobOk(GoTo(s, f, pc), i)
  {
  }

  lemma QuietInv(s: State, f: nat, pc: Fiber)
    requires JobInv(s) && f < |s.fibers| && Between(s.fibers[f]) && Between(pc) && FiberShape(s.conts, pc)
    ensures JobInv(GoTo(s, f, pc))
  {
    var s' := GoTo(s, f, pc);
    forall g: nat | g < |s.fibers| ensures FiberOk(s', g) { QuietFiber(s, f, pc, g); }
    forall d: nat | d < |s.clients| ensures ClientOk(s', d) { QuietClient(s, f, pc, d); }
    forall p: nat, x: Entry | EntryOk(s, p, x) ensures EntryOk(s', p, x) { QuietEntry(s, f, pc, p, x); }
    forall i: nat | i < |s.conts| ensures JobOk(s', i) { QuietJob(s, f, pc, i); }
  }

  /** The fields no job's story depends on. */
  function Background(s: State, inflight: int, shutdown: bool, waiters: seq<Waiter>, lock: Lock): State {
    s.(inflight := inflight, shutdown := shutdown, waiters := waiters, lock := lock)
  }

  lemma BackgroundFiber(s: State, b: int, h: bool, w: seq<Waiter>, l: Lock, g: nat)
    requires Sized(s)
    requires g < |s.fibers| && FiberOk(s, g)
    ensures FiberOk(Background(s, b, h, w, l), g)
  {
  }

  lemma BackgroundClient(s: State, b: int, h: bool, w: seq<Waiter>, l: Lock, d: nat)
    requires Sized(s)
    requires d < |s.clients| && ClientOk(s, d)
    ensures ClientOk(Background(s, b, h, w, l), d)
  {
  }

  lemma BackgroundEntry(s: State, b: int, h: bool, w: seq<Waiter>, l: Lock, p: nat, x: Entry)
    requires Sized(s)
    requires EntryOk(s, p, x)
    ensures EntryOk(Background(s, b, h, w, l), p, x)
  {
  }

  lemma BackgroundJob(s: State, b: int, h: bool, w: seq<Waiter>, l: Lock, i: nat)
    requires Sized(s)
    requires i < |s.conts| && JobOk(s, i)
    ensures JobOk(Background(s, b, h, w, l), i)
  {
  }

  lemma BackgroundInv(s: State, b: int, h: bool, w: seq<Waiter>, l: Lock)
    requires JobInv(s)
    ensures JobInv(Background(s, b, h, w, l))
  {
    var s' := Background(s, b, h, w, l);
    forall g: nat | g < |s.fibers| ensures FiberOk(s', g) { BackgroundFiber(s, b, h, w, l, g); }
    forall d: nat | d < |s.clients| ensures ClientOk(s', d) { BackgroundClient(s, b, h, w, l, d); }
    forall p: nat, x: Entry | EntryOk(s, p, x) ensures EntryOk(s', p, x) { BackgroundEntry(s, b, h, w, l, p, x); }
    forall i: nat | i < |s.conts| ensures JobOk(s', i) { BackgroundJob(s, b, h, w, l, i); }
  }

  // ---------------------------------------------------------------- running a job's function

  lemma WorkFiber(s: State, f: nat, g: nat)
    requires Shape(s) && f < |s.fibers| && FiberOk(s, f)
    requires s.fibers[f].Holding? || s.fibers[f].InFn? || s.fibers[f].MarkDone?
    requires g < |s.fibers| && FiberOk(s, g)
    ensures FiberOk(WorkStep(s, f), g)
  {
  }

  lemma WorkClient(s: State, f: nat, d: nat)
    requires Shape(s) && f < |s.fibers| && FiberOk(s, f)
    requires s.fibers[f].Holding? || s.fibers[f].InFn? || s.fibers[f].MarkDone?
    requires d < |s.clients| && ClientOk(s, d)
    ensures ClientOk(WorkStep(s, f), d)
  {
  }

  lemma WorkEntry(s: State, f: nat, p: nat, x: Entry)
    requires Shape(s) && f < |s.fibers| && FiberOk(s, f)
    requires s.fibers[f].Holding? || s.fibers[f].InFn? || s.fibers[f].MarkDone?
    requires EntryOk(s, p, x)
    ensures EntryOk(WorkStep(s, f), p, x)
  {
  }

  lemma WorkJob(s: State, f: nat, i: nat)
    requires Shape(s) && f < |s.fibers| && FiberOk(s, f)
    requires s.fibers[f].Holding? || s.fibers[f].InFn? || s.fibers[f].MarkDone?
    requires i < |s.conts| && JobOk(s, i)
    ensures JobOk(WorkStep(s, f), i)
  {
  }

  lemma WorkInv(s: State, f: nat)
    requires JobInv(s) && f < |s.fibers| && (s.fibers[f].Holding? || s.fibers[f].InFn? || s.fibers[f].MarkDone?)
    ensures JobInv(WorkStep(s, f))
  {
    var s' := WorkStep(s, f);
    WorkShape(s, f);
    forall g: nat | g < |s.fibers| ensures FiberOk(s', g) { WorkFiber(s, f, g); }
    forall d: nat | d < |s.clients| ensures ClientOk(s', d) { WorkClient(s, f, d); }
    forall p: nat, x: Entry | EntryOk(s, p, x) ensures EntryOk(s', p, x) { WorkEntry(s, f, p, x); }
    forall i: nat | i < |s.conts| ensures JobOk(s', i) { WorkJob(s, f, i); }
  }

  // ---------------------------------------------------------------- popping a job

  ghost predicate CanTake(s: State, q: nat) {
    && Shape(s) && q < 3 && s.queues[q] != [] && s.queues[q][0].ready && QueueOk(s, q)
  }

  function Take(s: State, f: nat, q: nat): State
    requires Shape(s) && f < |s.fibers| && q < 3 && s.queues[q] != []
  {
    var j := s.queues[q][0].job;
    Put(GoTo(s, f, Holding(j)), j, OnFiber(f)).(queues := s.queues[q := s.queues[q][1..]])
  }

  lemma TakeFiber(s: State, f: nat, q: nat, g: nat)
    requires CanTake(s, q) && f < |s.fibers| && Between(s.fibers[f])
    requires g < |s.fibers| && FiberOk(s, g)
    requires JobOk(s, s.queues[q][0].job)
    ensures FiberOk(Take(s, f, q), g)
  {
    assert EntryOk(s, q, s.queues[q][0]);
    TakeKeepsPlaces(s, f, q);
  }

  lemma TakeClient(s: State, f: nat, q: nat, d: nat)
    requires CanTake(s, q) && f < |s.fibers| && Between(s.fibers[f])
    requires d < |s.clients| && ClientOk(s, d)
    ensures ClientOk(Take(s, f, q), d)
  {
    assert EntryOk(s, q, s.queues[q][0]);
    TakeKeepsPlaces(s, f, q);
  }

  lemma TakeEntry(s: State, f: nat, q: nat, p: nat, x: Entry)
    requires CanTake(s, q) && f < |s.fibers| && Between(s.fibers[f])
    requires EntryOk(s, p, x)
    requires x.job != s.queues[q][0].job
    ensures EntryOk(Take(s, f, q), p, x)
  {
  }

  lemma TakeJob(s: State, f: nat, q: nat, i: nat)
    requires CanTake(s, q) && f < |s.fibers| && Between(s.fibers[f])
    requires i < |s.conts| && JobOk(s, i)
    ensures JobOk(Take(s, f, q), i)
  {
    assert EntryOk(s, q, s.queues[q][0]);
    if i != s.queues[q][0].job && s.place[i].Queued? && s.prio[i] == q {
      var queue := s.queues[q];
      var n: nat :| n < |queue| && queue[n].job == i && queue[n].ready;
      assert queue[1..][n - 1] == queue[n];
    }
  }

  lemma TakeKeepsPlaces(s: State, f: nat, q: nat)
    requires CanTake(s, q) && f < |s.fibers|
    ensures forall c: nat, who: Pusher | c < |s.conts| && HasPlace(s, c, who) :: HasPlace(Take(s, f, q), c, who)
  {
    forall c: nat, who: Pusher | c < |s.conts| && HasPlace(s, c, who) ensures HasPlace(Take(s, f, q), c, who) {
      var queue := s.queues[s.prio[c]];
      var n: nat :| n < |queue| && queue[n] == Entry(c, who, false);
      if s.prio[c] == q {
        assert queue[1..][n - 1] == queue[n];
      }
    }
  }

  lemma TakeQueue(s: State, f: nat, q: nat, p: nat)
    requires CanTake(s, q) && f < |s.fibers| && Between(s.fibers[f]) && p < 3 && QueueOk(s, p)
    ensures QueueOk(Take(s, f, q), p)
  {
    var s' := Take(s, f, q);
    var head := s.queues[q][0];
    assert EntryOk(s, q, head);
    forall i: nat | i < |s'.queues[p]| ensures EntryOk(s', p, s'.queues[p][i]) {
      var x := s'.queues[p][i];
      if p == q {
        assert x == s.queues[q][i + 1];
      }
      assert EntryOk(s, p, x) && x.job != head.job;
      TakeEntry(s, f, q, p, x);
    }
  }

  lemma TakeInv(s: State, f: nat, q: nat)
    requires JobInv(s) && f < |s.fibers| && Between(s.fibers[f]) && q < 3 && s.queues[q] != [] && s.queues[q][0].ready
    ensures JobInv(Take(s, f, q))
  {
    var s' := Take(s, f, q);
    assert EntryOk(s, q, s.queues[q][0]);
    assert JobOk(s, s.queues[q][0].job);
    TakeShape(s, f, q);
    forall g: nat | g < |s.fibers| ensures FiberOk(s', g) { TakeFiber(s, f, q, g); }
    forall d: nat | d < |s.clients| ensures ClientOk(s', d) { TakeClient(s, f, q, d); }
    TakeQueue(s, f, q, 0);
    TakeQueue(s, f, q, 1);
    TakeQueue(s, f, q, 2);
    forall i: nat | i < |s.conts| ensures JobOk(s', i) { TakeJob(s, f, q, i); }
  }

  lemma TakeShape(s: State, f: nat, q: nat)
    requires Shape(s) && f < |s.fibers| && q < 3 && s.queues[q] != []
    ensures Shape(Take(s, f, q))
  {
  }

  lemma PopInv(s: State, f: nat, q: nat)
    requires JobInv(s) && f < |s.fibers| && s.fibers[f] == Scan(q)
    ensures JobInv(PopStep(s, f, q))
  {
    if s.queues[q] != [] && s.queues[q][0].ready {
      TakeInv(s, f, q);
    } else {
      QuietInv(s, f, if q < 2 then Scan(q + 1) else CheckShutdown);
    }
  }

  // ---------------------------------------------------------------- counting a continuation down

  /** Fiber f is about to count down the continuation c of job j, which has not become ready before. */
  ghost predicate CanCount(s: State, f: nat, j: nat, k: nat) {
    && Shape(s) && f < |s.fibers| && s.fibers[f] == Continue(j, k) && j < |s.conts| && k < |s.conts[j]|
    && Running(s, f, j, k) && s.place[s.conts[j][k]].Waiting? && s.remaining[s.conts[j][k]] >= 1
    && Untouched(s, s.conts[j][k])
  }

  lemma CountFiber(s: State, f: nat, j: nat, k: nat, g: nat)
    requires CanCount(s, f, j, k)
    requires g < |s.fibers| && FiberOk(s, g)
    ensures FiberOk(ContinueStep(s, f, j, k), g)
  {
    if g == f {
      CountOwnFiber(s, f, j, k);
    } else {
      CountOtherFiber(s, f, j, k, g);
    }
  }

  lemma CountOwnFiber(s: State, f: nat, j: nat, k: nat)
    requires CanCount(s, f, j, k)
    ensures FiberOk(ContinueStep(s, f, j, k), f)
  {
  }

  lemma CountOtherFiber(s: State, f: nat, j: nat, k: nat, g: nat)
    requires CanCount(s, f, j, k)
    requires g < |s.fibers| && g != f && FiberOk(s, g)
    ensures FiberOk(ContinueStep(s, f, j, k), g)
  {
    var s' := ContinueStep(s, f, j, k);
    assert s'.fibers[g] == s.fibers[g] && s'.queues == s.queues;
    assert s'.started == s.started && s'.ended == s.ended && s'.done == s.done;
    forall i: nat | i < |s.place| && !s.place[i].Waiting? && s.place[i] != OnFiber(f)
      ensures s'.place[i] == s.place[i] && s'.processed[i] == s.processed[i] {
    }
  }

  lemma CountClient(s: State, f: nat, j: nat, k: nat, d: nat)
    requires CanCount(s, f, j, k)
    requires d < |s.clients| && ClientOk(s, d)
    ensures ClientOk(ContinueStep(s, f, j, k), d)
  {
  }

  lemma CountEntry(s: State, f: nat, j: nat, k: nat, p: nat, x: Entry)
    requires CanCount(s, f, j, k)
    requires EntryOk(s, p, x)
    ensures EntryOk(ContinueStep(s, f, j, k), p, x)
  {
  }

  lemma CountJob(s: State, f: nat, j: nat, k: nat, i: nat)
    requires CanCount(s, f, j, k)
    requires i < |s.conts| && JobOk(s, i)
    ensures JobOk(ContinueStep(s, f, j, k), i)
  {
    var s' := ContinueStep(s, f, j, k);
    assert s'.queues == s.queues && s'.clients == s.clients;
    assert s'.started == s.started && s'.ended == s.ended && s'.done == s.done;
    if s.place[i].OnFiber? && s.place[i].f != f {
      assert s'.fibers[s.place[i].f] == s.fibers[s.place[i].f];
    }
  }

  lemma CountCounters(s: State, f: nat, j: nat, k: nat)
    requires CanCount(s, f, j, k) && CountersOk(s) && Shape(ContinueStep(s, f, j, k))
    ensures CountersOk(ContinueStep(s, f, j, k))
  {
    forall c: nat | c < |s.conts|
      ensures ContinueStep(s, f, j, k).remaining[c] == Pending(s.conts, s.processed[j := k + 1], c)
    {
      ProcessOne(s.conts, s.processed, j, c, |s.conts|);
    }
  }

  /** A job with an entry still to process has not been made ready by anyone. */
  lemma EntryPending(s: State, j: nat, k: nat)
    requires JobInv(s) && j < |s.conts| && s.processed[j] <= k < |s.conts[j]|
    ensures s.conts[j][k] < |s.conts| && s.remaining[s.conts[j][k]] >= 1 && s.place[s.conts[j][k]].Waiting?
  {
    var c := s.conts[j][k];
    assert s.conts[j][s.processed[j]..][k - s.processed[j]] == c;
    CountIn(s.conts[j][s.processed[j]..], c);
    PendingBounds(s.conts, s.processed, j, c, |s.conts|);
    assert JobOk(s, c);
  }

  lemma CountInv(s: State, f: nat, j: nat, k: nat)
    requires JobInv(s) && f < |s.fibers| && s.fibers[f] == Continue(j, k) && j < |s.conts| && k < |s.conts[j]|
    ensures JobInv(ContinueStep(s, f, j, k))
  {
    var s' := ContinueStep(s, f, j, k);
    assert FiberOk(s, f);
    EntryPending(s, j, k);
    assert JobOk(s, s.conts[j][k]);
    ContinueShape(s, f, j, k);
    CountCounters(s, f, j, k);
    forall g: nat | g < |s.fibers| ensures FiberOk(s', g) { CountFiber(s, f, j, k, g); }
    forall d: nat | d < |s.clients| ensures ClientOk(s', d) { CountClient(s, f, j, k, d); }
    forall p: nat, x: Entry | EntryOk(s, p, x) ensures EntryOk(s', p, x) { CountEntry(s, f, j, k, p, x); }
    forall i: nat | i < |s.conts| ensures JobOk(s', i) { CountJob(s, f, j, k, i); }
  }

  // ---------------------------------------------------------------- finishing a job

  function Finish(s: State, f: nat, j: nat, pc: Fiber): State
    requires f < |s.fibers| && j < |s.place|
  {
    Put(GoTo(s, f, pc), j, Finished)
  }

  lemma FinishFiber(s: State, f: nat, j: nat, pc: Fiber, g: nat)
    requires Sized(s) && f < |s.fibers| && j < |s.conts| && s.fibers[f] == Continue(j, |s.conts[j]|) && FiberOk(s, f)
    requires Between(pc)
    requires g < |s.fibers| && FiberOk(s, g)
    ensures FiberOk(Finish(s, f, j, pc), g)
  {
  }

  lemma FinishClient(s: State, f: nat, j: nat, pc: Fiber, d: nat)
    requires Sized(s) && f < |s.fibers| && j < |s.conts| && s.fibers[f] == Continue(j, |s.conts[j]|) && FiberOk(s, f)
    requires Between(pc)
    requires d < |s.clients| && ClientOk(s, d)
    ensures ClientOk(Finish(s, f, j, pc), d)
  {
  }

  lemma FinishEntry(s: State, f: nat, j: nat, pc: Fiber, p: nat, x: Entry)
    requires Sized(s) && f < |s.fibers| && j < |s.conts| && s.fibers[f] == Continue(j, |s.conts[j]|) && FiberOk(s, f)
    requires Between(pc)
    requires EntryOk(s, p, x)
    ensures EntryOk(Finish(s, f, j, pc), p, x)
  {
  }

  lemma FinishJob(s: State, f: nat, j: nat, pc: Fiber, i: nat)
    requires Sized(s) && f < |s.fibers| && j < |s.conts| && s.fibers[f] == Continue(j, |s.conts[j]|) && FiberOk(s, f)
    requires Between(pc)
    requires i < |s.conts| && JobOk(s, i)
    ensures JobOk(Finish(s, f, j, pc), i)
  {
  }

  lemma FinishInv(s: State, f: nat, j: nat, pc: Fiber)
    requires JobInv(s) && f < |s.fibers| && j < |s.conts| && s.fibers[f] == Continue(j, |s.conts[j]|)
    requires Between(pc) && FiberShape(s.conts, pc)
    ensures JobInv(Finish(s, f, j, pc))
  {
    var s' := Finish(s, f, j, pc);
    assert FiberOk(s, f);
    assert JobOk(s, j);
    forall g: nat | g < |s.fibers| ensures FiberOk(s', g) { FinishFiber(s, f, j, pc, g); }
    forall d: nat | d < |s.clients| ensures ClientOk(s', d) { FinishClient(s, f, j, pc, d); }
    forall p: nat, x: Entry | EntryOk(s, p, x) ensures EntryOk(s', p, x) { FinishEntry(s, f, j, pc, p, x); }
    forall i: nat | i < |s.conts| ensures JobOk(s', i) { FinishJob(s, f, j, pc, i); }
  }

  lemma ContinueInv(s: State, f: nat, j: nat, k: nat)
    requires JobInv(s) && f < |s.fibers| && s.fibers[f] == Continue(j, k)
    ensures JobInv(ContinueStep(s, f, j, k))
  {
    if k < |s.conts[j]| {
      CountInv(s, f, j, k);
    } else {
      var pc := if s.inflight == 1 then WantNotify else Scan(0);
      var s1 := Finish(s, f, j, pc);
      FinishInv(s, f, j, pc);
      BackgroundInv(s1, s.inflight - 1, s.shutdown, s.waiters, s.lock);
      assert ContinueStep(s, f, j, k) == Background(s1, s.inflight - 1, s.shutdown, s.waiters, s.lock);
    }
  }

  // ---------------------------------------------------------------- pushing a job, by a fiber or by a client

  /** `who` is pushing job c and stands at stage 0 (counting it), 1 (claiming a place) or 2 (making it ready). */
  ghost predicate AtStage(s: State, who: Pusher, c: nat, stage: nat) {
    && Sized(s) && c < |s.conts|
    && match who
       case ByFiber(f) =>
         && f < |s.fibers| && s.fibers[f].Pushing() && FiberOk(s, f) && Names(s, s.fibers[f].job, s.fibers[f].k, c)
         && (stage == 0 ==> s.fibers[f].PushCount?) && (stage == 1 ==> s.fibers[f].PushClaim?)
         && (stage == 2 ==> s.fibers[f].PushPublish?)
       case ByClient(e) =>
         && e < |s.clients| && ClientOk(s, e) && !s.clients[e].CIdle? && s.clients[e].job == c
         && (stage == 0 ==> s.clients[e].CCount?) && (stage == 1 ==> s.clients[e].CClaim?)
         && (stage == 2 ==> s.clients[e].CPublish?)
  }

  /** Moves a pusher to a stage; stage 3 is past the push. */
  function ToStage(s: State, who: Pusher, stage: nat): State
    requires if who.ByFiber? then who.f < |s.fibers| && s.fibers[who.f].Pushing()
             else who.e < |s.clients| && !s.clients[who.e].CIdle?
  {
    match who
    case ByFiber(f) =>
      var j, k := s.fibers[f].job, s.fibers[f].k;
      GoTo(s, f, if stage == 0 then PushCount(j, k) else if stage == 1 then PushClaim(j, k)
                 else if stage == 2 then PushPublish(j, k) else Continue(j, k + 1))
    case ByClient(e) =>
      var j := s.clients[e].job;
      s.(clients := s.clients[e := if stage == 0 then CCount(j) else if stage == 1 then CClaim(j)
                                   else if stage == 2 then CPublish(j) else CIdle])
  }

  /** Between counting and claiming, in either direction: a client that finds the ring full starts over. */
  function Restage(s: State, who: Pusher, stage: nat, failed: nat): State
    requires if who.ByFiber? then who.f < |s.fibers| && s.fibers[who.f].Pushing()
             else who.e < |s.clients| && !s.clients[who.e].CIdle?
  {
    ToStage(s, who, stage).(failed := failed)
  }

  lemma RestageFiber(s: State, who: Pusher, c: nat, from: nat, to: nat, failed: nat, g: nat)
    requires from < 2 && to < 2 && AtStage(s, who, c, from) && failed >= s.failed
    requires g < |s.fibers| && FiberOk(s, g)
    ensures FiberOk(Restage(s, who, to, failed), g)
  {
  }

  lemma RestageClient(s: State, who: Pusher, c: nat, from: nat, to: nat, failed: nat, d: nat)
    requires from < 2 && to < 2 && AtStage(s, who, c, from) && failed >= s.failed
    requires d < |s.clients| && ClientOk(s, d)
    ensures ClientOk(Restage(s, who, to, failed), d)
  {
  }

  lemma RestageEntry(s: State, who: Pusher, c: nat, from: nat, to: nat, failed: nat, p: nat, x: Entry)
    requires from < 2 && to < 2 && AtStage(s, who, c, from) && failed >= s.failed
    requires EntryOk(s, p, x)
    ensures EntryOk(Restage(s, who, to, failed), p, x)
  {
  }

  lemma RestageJob(s: State, who: Pusher, c: nat, from: nat, to: nat, failed: nat, i: nat)
    requires from < 2 && to < 2 && AtStage(s, who, c, from) && failed >= s.failed
    requires i < |s.conts| && JobOk(s, i)
    ensures JobOk(Restage(s, who, to, failed), i)
  {
  }

  lemma RestageShape(s: State, who: Pusher, c: nat, from: nat, to: nat, failed: nat)
    requires Shape(s) && from < 2 && to < 2 && AtStage(s, who, c, from)
    ensures Shape(Restage(s, who, to, failed))
  {
  }

  lemma RestageInv(s: State, who: Pusher, c: nat, from: nat, to: nat, failed: nat)
    requires JobInv(s) && from < 2 && to < 2 && AtStage(s, who, c, from) && failed >= s.failed
    ensures JobInv(Restage(s, who, to, failed))
  {
    var s' := Restage(s, who, to, failed);
    RestageShape(s, who, c, from, to, failed);
    forall g: nat | g < |s.fibers| ensures FiberOk(s', g) { RestageFiber(s, who, c, from, to, failed, g); }
    forall d: nat | d < |s.clients| ensures ClientOk(s', d) { RestageClient(s, who, c, from, to, failed, d); }
    forall p: nat, x: Entry | EntryOk(s, p, x) ensures EntryOk(s', p, x) {
      RestageEntry(s, who, c, from, to, failed, p, x);
    }
    forall i: nat | i < |s.conts| ensures JobOk(s', i) { RestageJob(s, who, c, from, to, failed, i); }
  }

  /** The ring is full and the push is given up. */
  function Drop(s: State, who: Pusher, c: nat): State
    requires c < |s.place|
    requires if who.ByFiber? then who.f < |s.fibers| && s.fibers[who.f].Pushing()
             else who.e < |s.clients| && !s.clients[who.e].CIdle?
  {
    Put(ToStage(s, who, 3), c, Dropped).(failed := s.failed + 1)
  }

  lemma DropFiber(s: State, who: Pusher, c: nat, g: nat)
    requires AtStage(s, who, c, 1) && JobOk(s, c)
    requires g < |s.fibers| && FiberOk(s, g)
    ensures FiberOk(Drop(s, who, c), g)
  {
  }

  lemma DropClient(s: State, who: Pusher, c: nat, d: nat)
    requires AtStage(s, who, c, 1) && JobOk(s, c)
    requires d < |s.clients| && ClientOk(s, d)
    ensures ClientOk(Drop(s, who, c), d)
  {
  }

  lemma DropEntry(s: State, who: Pusher, c: nat, p: nat, x: Entry)
    requires AtStage(s, who, c, 1) && JobOk(s, c)
    requires EntryOk(s, p, x)
    ensures EntryOk(Drop(s, who, c), p, x)
  {
  }

  lemma DropJob(s: State, who: Pusher, c: nat, i: nat)
    requires AtStage(s, who, c, 1) && JobOk(s, c)
    requires i < |s.conts| && JobOk(s, i)
    ensures JobOk(Drop(s, who, c), i)
  {
  }

  lemma DropShape(s: State, who: Pusher, c: nat)
    requires Shape(s) && AtStage(s, who, c, 1)
    ensures Shape(Drop(s, who, c))
  {
  }

  lemma DropInv(s: State, who: Pusher, c: nat)
    requires JobInv(s) && AtStage(s, who, c, 1)
    ensures JobInv(Drop(s, who, c))
  {
    var s' := Drop(s, who, c);
    DropShape(s, who, c);
    assert JobOk(s, c);
    forall g: nat | g < |s.fibers| ensures FiberOk(s', g) { DropFiber(s, who, c, g); }
    forall d: nat | d < |s.clients| ensures ClientOk(s', d) { DropClient(s, who, c, d); }
    forall p: nat, x: Entry | EntryOk(s, p, x) ensures EntryOk(s', p, x) { DropEntry(s, who, c, p, x); }
    forall i: nat | i < |s.conts| ensures JobOk(s', i) { DropJob(s, who, c, i); }
  }

  /** A place is claimed. */
  function Append(s: State, who: Pusher, c: nat): State
    requires c < |s.prio| && s.prio[c] < |s.queues|
    requires if who.ByFiber? then who.f < |s.fibers| && s.fibers[who.f].Pushing()
             else who.e < |s.clients| && !s.clients[who.e].CIdle?
  {
    ToStage(s, who, 2).(queues := s.queues[s.prio[c] := s.queues[s.prio[c]] + [Entry(c, who, false)]])
  }

  lemma AppendKeepsPlaces(s: State, who: Pusher, c: nat)
    requires AtStage(s, who, c, 1) && s.prio[c] < 3
    ensures forall d: nat, w: Pusher | d < |s.conts| && HasPlace(s, d, w) :: HasPlace(Append(s, who, c), d, w)
    ensures HasPlace(Append(s, who, c), c, who)
  {
    var s' := Append(s, who, c);
    assert s'.queues[s.prio[c]][|s.queues[s.prio[c]]|] == Entry(c, who, false);
    forall d: nat, w: Pusher | d < |s.conts| && HasPlace(s, d, w) ensures HasPlace(s', d, w) {
      var n: nat :| n < |s.queues[s.prio[d]]| && s.queues[s.prio[d]][n] == Entry(d, w, false);
      assert s'.queues[s.prio[d]][n] == Entry(d, w, false);
    }
  }

  lemma AppendFiber(s: State, who: Pusher, c: nat, g: nat)
    requires AtStage(s, who, c, 1) && s.prio[c] < 3
    requires g < |s.fibers| && FiberOk(s, g)
    ensures FiberOk(Append(s, who, c), g)
  {
    AppendKeepsPlaces(s, who, c);
  }

  lemma AppendClient(s: State, who: Pusher, c: nat, d: nat)
    requires AtStage(s, who, c, 1) && s.prio[c] < 3
    requires d < |s.clients| && ClientOk(s, d)
    ensures ClientOk(Append(s, who, c), d)
  {
    AppendKeepsPlaces(s, who, c);
  }

  lemma AppendEntry(s: State, who: Pusher, c: nat, p: nat, x: Entry)
    requires AtStage(s, who, c, 1) && s.prio[c] < 3
    requires EntryOk(s, p, x)
    ensures EntryOk(Append(s, who, c), p, x)
  {
  }

  lemma AppendJob(s: State, who: Pusher, c: nat, i: nat)
    requires AtStage(s, who, c, 1) && s.prio[c] < 3
    requires i < |s.conts| && JobOk(s, i)
    ensures JobOk(Append(s, who, c), i)
  {
    if s.place[i].Queued? {
      var n: nat :| n < |s.queues[s.prio[i]]| && s.queues[s.prio[i]][n].job == i && s.queues[s.prio[i]][n].ready;
      assert Append(s, who, c).queues[s.prio[i]][n] == s.queues[s.prio[i]][n];
    }
  }

  lemma AppendShape(s: State, who: Pusher, c: nat)
    requires Shape(s) && AtStage(s, who, c, 1)
    ensures Shape(Append(s, who, c))
  {
  }

  /** Nobody has a place for a job that is only now being pushed. */
  lemma AppendQueue(s: State, who: Pusher, c: nat, p: nat)
    requires AtStage(s, who, c, 1) && s.prio[c] < 3 && p < 3 && QueueOk(s, p)
    ensures QueueOk(Append(s, who, c), p)
  {
    var s' := Append(s, who, c);
    forall i: nat | i < |s'.queues[p]| ensures EntryOk(s', p, s'.queues[p][i]) {
      if i < |s.queues[p]| {
        assert EntryOk(s, p, s.queues[p][i]);
        AppendEntry(s, who, c, p, s.queues[p][i]);
      }
    }
    forall i: nat, k: nat | i < k < |s'.queues[p]| ensures s'.queues[p][i].job != s'.queues[p][k].job {
      assert EntryOk(s, p, s.queues[p][i]);
    }
  }

  lemma AppendInv(s: State, who: Pusher, c: nat)
    requires JobInv(s) && AtStage(s, who, c, 1)
    ensures JobInv(Append(s, who, c))
  {
    var s' := Append(s, who, c);
    AppendShape(s, who, c);
    forall g: nat | g < |s.fibers| ensures FiberOk(s', g) { AppendFiber(s, who, c, g); }
    forall d: nat | d < |s.clients| ensures ClientOk(s', d) { AppendClient(s, who, c, d); }
    AppendQueue(s, who, c, 0);
    AppendQueue(s, who, c, 1);
    AppendQueue(s, who, c, 2);
    forall i: nat | i < |s.conts| ensures JobOk(s', i) { AppendJob(s, who, c, i); }
  }

  /** The place is made ready. */
  function MakeReady(s: State, who: Pusher, c: nat): State
    requires c < |s.prio| == |s.place| && s.prio[c] < |s.queues|
    requires if who.ByFiber? then who.f < |s.fibers| && s.fibers[who.f].Pushing()
             else who.e < |s.clients| && !s.clients[who.e].CIdle?
  {
    Put(ToStage(s, who, 3), c, Queued).(queues := s.queues[s.prio[c] := Ready(s.queues[s.prio[c]], who)])
  }

  /** What making ready does to one entry. */
  function Made(x: Entry, who: Pusher): Entry {
    if x.pusher == who && !x.ready then x.(ready := true) else x
  }

  lemma MakeReadyKeepsPlaces(s: State, who: Pusher, c: nat)
    requires AtStage(s, who, c, 2) && s.prio[c] < 3
    ensures forall d: nat, w: Pusher | d < |s.conts| && w != who && HasPlace(s, d, w) ::
              HasPlace(MakeReady(s, who, c), d, w)
    ensures ReadyIn(MakeReady(s, who, c).queues[s.prio[c]], c)
  {
    var s' := MakeReady(s, who, c);
    var m: nat :| m < |s.queues[s.prio[c]]| && s.queues[s.prio[c]][m] == Entry(c, who, false);
    assert s'.queues[s.prio[c]][m] == Entry(c, who, true);
    forall d: nat, w: Pusher | d < |s.conts| && w != who && HasPlace(s, d, w) ensures HasPlace(s', d, w) {
      var n: nat :| n < |s.queues[s.prio[d]]| && s.queues[s.prio[d]][n] == Entry(d, w, false);
      assert s'.queues[s.prio[d]][n] == Entry(d, w, false);
    }
  }

  lemma MakeReadyFiber(s: State, who: Pusher, c: nat, g: nat)
    requires AtStage(s, who, c, 2) && JobOk(s, c) && s.prio[c] < 3
    requires g < |s.fibers| && FiberOk(s, g)
    ensures FiberOk(MakeReady(s, who, c), g)
  {
    MakeReadyKeepsPlaces(s, who, c);
  }

  lemma MakeReadyClient(s: State, who: Pusher, c: nat, d: nat)
    requires AtStage(s, who, c, 2) && JobOk(s, c) && s.prio[c] < 3
    requires d < |s.clients| && ClientOk(s, d)
    ensures ClientOk(MakeReady(s, who, c), d)
  {
    MakeReadyKeepsPlaces(s, who, c);
  }

  lemma MakeReadyEntry(s: State, who: Pusher, c: nat, p: nat, x: Entry)
    requires AtStage(s, who, c, 2) && JobOk(s, c) && s.prio[c] < 3
    requires EntryOk(s, p, x)
    ensures EntryOk(MakeReady(s, who, c), p, Made(x, who)) && (p != s.prio[c] ==> Made(x, who) == x)
  {
  }

  lemma MakeReadyJob(s: State, who: Pusher, c: nat, i: nat)
    requires AtStage(s, who, c, 2) && JobOk(s, c) && s.prio[c] < 3
    requires i < |s.conts| && JobOk(s, i)
    ensures JobOk(MakeReady(s, who, c), i)
  {
    MakeReadyKeepsPlaces(s, who, c);
    if s.place[i].Queued? {
      var n: nat :| n < |s.queues[s.prio[i]]| && s.queues[s.prio[i]][n].job == i && s.queues[s.prio[i]][n].ready;
      assert MakeReady(s, who, c).queues[s.prio[i]][n] == s.queues[s.prio[i]][n];
    }
  }

  lemma MakeReadyShape(s: State, who: Pusher, c: nat)
    requires Shape(s) && AtStage(s, who, c, 2)
    ensures Shape(MakeReady(s, who, c))
  {
  }

  lemma MakeReadyQueue(s: State, who: Pusher, c: nat, p: nat)
    requires AtStage(s, who, c, 2) && JobOk(s, c) && s.prio[c] < 3 && p < 3 && QueueOk(s, p)
    ensures QueueOk(MakeReady(s, who, c), p)
  {
    var s' := MakeReady(s, who, c);
    forall i: nat | i < |s'.queues[p]| ensures EntryOk(s', p, s'.queues[p][i]) {
      assert EntryOk(s, p, s.queues[p][i]);
      MakeReadyEntry(s, who, c, p, s.queues[p][i]);
    }
  }

  lemma MakeReadyInv(s: State, who: Pusher, c: nat)
    requires JobInv(s) && AtStage(s, who, c, 2)
    ensures JobInv(MakeReady(s, who, c))
  {
    var s' := MakeReady(s, who, c);
    MakeReadyShape(s, who, c);
    assert JobOk(s, c);
    forall g: nat | g < |s.fibers| ensures FiberOk(s', g) { MakeReadyFiber(s, who, c, g); }
    forall d: nat | d < |s.clients| ensures ClientOk(s', d) { MakeReadyClient(s, who, c, d); }
    MakeReadyQueue(s, who, c, 0);
    MakeReadyQueue(s, who, c, 1);
    MakeReadyQueue(s, who, c, 2);
    forall i: nat | i < |s.conts| ensures JobOk(s', i) { MakeReadyJob(s, who, c, i); }
  }

  // ---------------------------------------------------------------- submitting a job

  ghost predicate CanSubmit(s: State, e: nat, j: nat) {
    && Sized(s) && e < |s.clients| && j < |s.conts|
    && s.clients[e].CIdle? && Unclaimed(s, j) && s.remaining[j] == 0 && JobOk(s, j)
  }

  function Hand(s: State, e: nat, j: nat): State
    requires e < |s.clients| && j < |s.place|
  {
    Put(s, j, Pushed(ByClient(e))).(clients := s.clients[e := CCount(j)])
  }

  lemma HandFiber(s: State, e: nat, j: nat, g: nat)
    requires CanSubmit(s, e, j)
    requires g < |s.fibers| && FiberOk(s, g)
    ensures FiberOk(Hand(s, e, j), g)
  {
  }

  lemma HandClient(s: State, e: nat, j: nat, d: nat)
    requires CanSubmit(s, e, j)
    requires d < |s.clients| && ClientOk(s, d)
    ensures ClientOk(Hand(s, e, j), d)
  {
  }

  lemma HandEntry(s: State, e: nat, j: nat, p: nat, x: Entry)
    requires CanSubmit(s, e, j)
    requires EntryOk(s, p, x)
    ensures EntryOk(Hand(s, e, j), p, x)
  {
  }

  lemma HandJob(s: State, e: nat, j: nat, i: nat)
    requires CanSubmit(s, e, j)
    requires i < |s.conts| && JobOk(s, i)
    ensures JobOk(Hand(s, e, j), i)
  {
  }

  lemma HandInv(s: State, e: nat, j: nat)
    requires JobInv(s) && CanSubmit(s, e, j)
    ensures JobInv(Hand(s, e, j))
  {
    var s' := Hand(s, e, j);
    SubmitShape(s, e, j);
    forall g: nat | g < |s.fibers| ensures FiberOk(s', g) { HandFiber(s, e, j, g); }
    forall d: nat | d < |s.clients| ensures ClientOk(s', d) { HandClient(s, e, j, d); }
    forall p: nat, x: Entry | EntryOk(s, p, x) ensures EntryOk(s', p, x) { HandEntry(s, e, j, p, x); }
    forall i: nat | i < |s.conts| ensures JobOk(s', i) { HandJob(s, e, j, i); }
  }

  // ---------------------------------------------------------------- every action

  lemma PushContinuationInv(s: State, f: nat, full: bool)
    requires JobInv(s) && f < |s.fibers| && s.fibers[f].Pushing()
    ensures JobInv(PushContinuationStep(s, f, full))
  {
    var pc, who := s.fibers[f], ByFiber(f);
    assert FiberShape(s.conts, pc) && FiberOk(s, f);
    var c := s.conts[pc.job][pc.k];
    if pc.PushCount? {
      var s1 := Restage(s, who, 1, s.failed);
      RestageInv(s, who, c, 0, 1, s.failed);
      BackgroundInv(s1, s.inflight + 1, s.shutdown, s.waiters, s.lock);
      assert PushContinuationStep(s, f, full) == Background(s1, s.inflight + 1, s.shutdown, s.waiters, s.lock);
    } else if pc.PushClaim? && full {
      DropInv(s, who, c);
    } else if pc.PushClaim? {
      AppendInv(s, who, c);
    } else {
      MakeReadyInv(s, who, c);
    }
  }

  lemma ClientInv(s: State, e: nat, full: bool, retry: bool)
    requires JobInv(s) && e < |s.clients|
    ensures JobInv(ClientStep(s, e, full, retry))
  {
    var pc, who := s.clients[e], ByClient(e);
    assert ClientOk(s, e);
    if pc.CCount? {
      var s1 := Restage(s, who, 1, s.failed);
      RestageInv(s, who, pc.job, 0, 1, s.failed);
      BackgroundInv(s1, s.inflight + 1, s.shutdown, s.waiters, s.lock);
      assert ClientStep(s, e, full, retry) == Background(s1, s.inflight + 1, s.shutdown, s.waiters, s.lock);
    } else if pc.CClaim? && full && retry {
      RestageInv(s, who, pc.job, 1, 0, s.failed + 1);
    } else if pc.CClaim? && full {
      DropInv(s, who, pc.job);
    } else if pc.CClaim? {
      AppendInv(s, who, pc.job);
    } else if pc.CPublish? {
      MakeReadyInv(s, who, pc.job);
    }
  }

  lemma IdleInv(s: State, f: nat)
    requires JobInv(s) && f < |s.fibers| && Between(s.fibers[f]) && !s.fibers[f].Scan?
    ensures JobInv(IdleStep(s, f))
  {
    var s' := IdleStep(s, f);
    var pc := s'.fibers[f];
    QuietInv(s, f, pc);
    BackgroundInv(GoTo(s, f, pc), s'.inflight, s'.shutdown, s'.waiters, s'.lock);
    assert s' == Background(GoTo(s, f, pc), s'.inflight, s'.shutdown, s'.waiters, s'.lock);
  }

  lemma WaiterInv(s: State, w: nat)
    requires JobInv(s) && w < |s.waiters|
    ensures JobInv(WaiterStep(s, w))
  {
    var s' := WaiterStep(s, w);
    BackgroundInv(s, s'.inflight, s'.shutdown, s'.waiters, s'.lock);
    assert s' == Background(s, s'.inflight, s'.shutdown, s'.waiters, s'.lock);
  }

  lemma NextInv(s: State, a: Action)
    requires JobInv(s)
    ensures JobInv(Next(s, a))
  {
    match a
    case StepFiber(f, full) =>
      if f < |s.fibers| {
        var pc := s.fibers[f];
        assert FiberShape(s.conts, pc);
        if pc.Scan? { PopInv(s, f, pc.q); }
        else if pc.Holding? || pc.InFn? || pc.MarkDone? { WorkInv(s, f); }
        else if pc.Continue? { ContinueInv(s, f, pc.job, pc.k); }
        else if pc.Pushing() { PushContinuationInv(s, f, full); }
        else { IdleInv(s, f); }
      }
    case StartSubmit(e, j) =>
      if e < |s.clients| && j < |s.conts| && s.clients[e].CIdle? && Unclaimed(s, j) && s.remaining[j] == 0 {
        assert JobOk(s, j);
        HandInv(s, e, j);
      }
    case StepClient(e, full, retry) => if e < |s.clients| { ClientInv(s, e, full, retry); }
    case StepWaiter(w) => if w < |s.waiters| { WaiterInv(s, w); }
    case RequestShutdown => BackgroundInv(s, s.inflight, true, s.waiters, s.lock);
  }

  lemma {:induction false} RunInv(s: State, schedule: seq<Action>)
    requires JobInv(s)
    ensures JobInv(Run(s, schedule))
    decreases |schedule|
  {
    if schedule != [] {
      NextInv(s, schedule[0]);
      RunInv(Next(s, schedule[0]), schedule[1..]);
    }
  }

  // ---------------------------------------------------------------- exactly once, in dependency order

  /** The states some schedule leads to, from some wired job graph. */
  ghost predicate Reachable(s: State) {
    exists start: State, schedule: seq<Action> :: Initial(start) && s == Run(start, schedule)
  }

  lemma EveryRun(s: State)
    requires Reachable(s)
    ensures JobInv(s)
  {
    var start: State, schedule: seq<Action> :| Initial(start) && s == Run(start, schedule);
    InitialInv(start);
    RunInv(start, schedule);
  }

  /** A job that has left the waiting state finds all its prerequisites returned and flagged done. */
  lemma PrerequisitesDone(s: State, p: nat, j: nat)
    requires JobInv(s) && j < |s.conts| && !s.place[j].Waiting? && Precedes(s.conts, p, j)
    ensures s.ended[p] == 1 && s.done[p] && s.processed[p] > 0
  {
    assert JobOk(s, j);
    NothingPending(s.conts, s.processed, j);
    assert s.processed[p] > 0 by {
      assert s.conts[p][0..] == s.conts[p];
    }
    assert JobOk(s, p);
    if s.place[p].OnFiber? {
      assert FiberOk(s, s.place[p].f);
    }
  }

  /**
   In every run, whatever the interleaving and however many pushes find a full ring, a function is called
   only if it was never called before and the functions of all the job's prerequisites have returned.
   */
  lemma StartsOnceInOrder(s: State, a: Action, j: nat)
    requires Reachable(s) && Shape(s) && Shape(Next(s, a)) && SameFrame(s, Next(s, a))
    requires j < |s.conts| && Next(s, a).started[j] != s.started[j]
    ensures s.started[j] == 0 && Next(s, a).started[j] == 1
    ensures forall p: nat | Precedes(s.conts, p, j) :: s.ended[p] == 1
  {
    EveryRun(s);
    var f := a.f;
    assert FiberOk(s, f);
    forall p: nat | Precedes(s.conts, p, j) ensures s.ended[p] == 1 {
      PrerequisitesDone(s, p, j);
    }
  }

  /** No function is called twice, and a done flag is never set before the function returned. */
  lemma OnceAndDone(s: State, j: nat)
    requires Reachable(s) && Shape(s) && j < |s.conts|
    ensures s.ended[j] <= s.started[j] <= 1
    ensures s.done[j] ==> s.ended[j] == 1
  {
    EveryRun(s);
    assert JobOk(s, j);
    if s.place[j].OnFiber? {
      assert FiberOk(s, s.place[j].f);
    }
  }
}
