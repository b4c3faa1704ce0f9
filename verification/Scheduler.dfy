/**
 The fiber scheduler, one atomic access per step.

 Fibers pop jobs from three queues by priority, run them, count down the jobs waiting for them and push
 the ones that become ready. Clients submit jobs from outside. Waiters block until nothing is in flight.
 The queues are the abstract queues the ring of module Mpmc refines: a push claims a place at the back and
 later makes it ready, a pop fails when the head is missing or not ready, and a push may find the ring full
 at any time.
 */
module Scheduler {
  import opened JobGraph

  /** Whose push is under way. */
  datatype Pusher = ByFiber(f: nat) | ByClient(e: nat)

  datatype Entry = Entry(job: nat, pusher: Pusher, ready: bool)

  datatype Fiber =
    | Scan(q: nat)                    // about to pop from queue q
    | CheckShutdown                   // found all three empty
    | Holding(job: nat)               // popped it, about to call its function
    | InFn(job: nat)
    | MarkDone(job: nat)              // the function returned, about to set the done flag
    | Continue(job: nat, k: nat)      // about to count down continuation k, or to finish if there is none
    | PushCount(job: nat, k: nat)     // continuation k is ready: about to count it in flight
    | PushClaim(job: nat, k: nat)     // about to claim a place in its queue
    | PushPublish(job: nat, k: nat)   // about to make the place ready
    | WantNotify                      // brought the count to zero, about to take the lock
    | Notify                          // holds the lock, about to notify and release it
    | Returned
  {
    /** The fiber is working on job j. */
    predicate Has(j: nat) {
      (Holding? || InFn? || MarkDone? || Continue? || PushCount? || PushClaim? || PushPublish?) && job == j
    }

    /** The fiber is pushing a continuation. */
    predicate Pushing() { PushCount? || PushClaim? || PushPublish? }
  }

  datatype Client = CIdle | CCount(job: nat) | CClaim(job: nat) | CPublish(job: nat)

  datatype Waiter = Away | WantLock | Checking | Blocking | Blocked | Satisfied

  datatype Lock = Free | FiberHolds(f: nat) | WaiterHolds(w: nat)

  /** Where a job is (history). */
  datatype Place = Waiting | Pushed(pusher: Pusher) | Queued | OnFiber(f: nat) | Finished | Dropped

  datatype State = State(
    conts: seq<seq<nat>>,      // the continuations of each job
    prio: seq<nat>,            // the queue of each job
    remaining: seq<int>,       // each job's dependency counter
    done: seq<bool>,           // each job's done flag
    queues: seq<seq<Entry>>,
    inflight: int,
    shutdown: bool,
    fibers: seq<Fiber>,
    clients: seq<Client>,
    waiters: seq<Waiter>,
    lock: Lock,
    // history
    place: seq<Place>,
    processed: seq<nat>,       // how many of each job's continuations have been counted down
    started: seq<nat>,          // how often each job's function was called
    ended: seq<nat>,         // how often it returned
    failed: nat                // how many pushes found a full ring
  )

  /** The fields every step can rely on. */
  ghost predicate Shape(s: State) {
    && WellFormed(s.conts)
    && |s.prio| == |s.remaining| == |s.done| == |s.place| == |s.processed| == |s.started| == |s.ended| == |s.conts|
    && |s.queues| == 3
    && (forall j: nat | j < |s.conts| :: s.prio[j] < 3)
    && Fits(s.conts, s.processed)
    && (forall f: nat | f < |s.fibers| :: FiberShape(s.conts, s.fibers[f]))
    && (forall e: nat | e < |s.clients| :: s.clients[e].CIdle? || s.clients[e].job < |s.conts|)
    && QueueShape(s.queues[0], |s.conts|) && QueueShape(s.queues[1], |s.conts|) && QueueShape(s.queues[2], |s.conts|)
  }

  ghost predicate QueueShape(queue: seq<Entry>, n: nat) {
    forall i: nat | i < |queue| :: queue[i].job < n
  }

  ghost predicate FiberShape(conts: seq<seq<nat>>, pc: Fiber) {
    match pc
    case Scan(q) => q < 3
    case Holding(j) => j < |conts|
    case InFn(j) => j < |conts|
    case MarkDone(j) => j < |conts|
    case Continue(j, k) => j < |conts| && k <= |conts[j]|
    case PushCount(j, k) => j < |conts| && k < |conts[j]|
    case PushClaim(j, k) => j < |conts| && k < |conts[j]|
    case PushPublish(j, k) => j < |conts| && k < |conts[j]|
    case _ => true
  }

  // ---------------------------------------------------------------- steps

  /** A pusher makes its place ready. */
  function Ready(queue: seq<Entry>, who: Pusher): seq<Entry> {
    seq(|queue|, i requires 0 <= i < |queue| =>
      if queue[i].pusher == who && !queue[i].ready then queue[i].(ready := true) else queue[i])
  }

  function GoTo(s: State, f: nat, pc: Fiber): State
    requires f < |s.fibers|
  {
    s.(fibers := s.fibers[f := pc])
  }

  function Put(s: State, j: nat, place: Place): State
    requires j < |s.place|
  {
    s.(place := s.place[j := place])
  }

  /** Popping from queue q, or moving on when its head is missing or not ready. */
  function PopStep(s: State, f: nat, q: nat): State
    requires Shape(s) && f < |s.fibers| && q < 3
  {
    var queue := s.queues[q];
    if queue != [] && queue[0].ready then
      Put(GoTo(s, f, Holding(queue[0].job)), queue[0].job, OnFiber(f)).(queues := s.queues[q := queue[1..]])
    else
      GoTo(s, f, if q < 2 then Scan(q + 1) else CheckShutdown)
  }

  /** Counting down the k-th continuation of job j, or finishing j when there is none left. */
  function ContinueStep(s: State, f: nat, j: nat, k: nat): State
    requires Shape(s) && f < |s.fibers| && j < |s.conts| && k <= |s.conts[j]|
  {
    if k < |s.conts[j]| then
      var c := s.conts[j][k];
      var s' := s.(remaining := s.remaining[c := s.remaining[c] - 1], processed := s.processed[j := k + 1]);
      if s.remaining[c] == 1 then Put(GoTo(s', f, PushCount(j, k)), c, Pushed(ByFiber(f)))
      else GoTo(s', f, Continue(j, k + 1))
    else
      Put(GoTo(s, f, if s.inflight == 1 then WantNotify else Scan(0)), j, Finished).(inflight := s.inflight - 1)
  }

  /** The three accesses of a push of continuation c, the k-th of job j. */
  function PushContinuationStep(s: State, f: nat, full: bool): State
    requires Shape(s) && f < |s.fibers| && s.fibers[f].Pushing()
  {
    match s.fibers[f]
    case PushCount(j, k) => GoTo(s, f, PushClaim(j, k)).(inflight := s.inflight + 1)
    case PushClaim(j, k) =>
      var c := s.conts[j][k];
      if full then Put(GoTo(s, f, Continue(j, k + 1)), c, Dropped).(failed := s.failed + 1)
      else GoTo(s, f, PushPublish(j, k))
             .(queues := s.queues[s.prio[c] := s.queues[s.prio[c]] + [Entry(c, ByFiber(f), false)]])
    case PushPublish(j, k) =>
      var c := s.conts[j][k];
      Put(GoTo(s, f, Continue(j, k + 1)), c, Queued)
        .(queues := s.queues[s.prio[c] := Ready(s.queues[s.prio[c]], ByFiber(f))])
  }

  /** Calling the popped job's function, its return, and the done flag. */
  function WorkStep(s: State, f: nat): State
    requires Shape(s) && f < |s.fibers|
    requires s.fibers[f].Holding? || s.fibers[f].InFn? || s.fibers[f].MarkDone?
  {
    match s.fibers[f]
    case Holding(j) => GoTo(s, f, InFn(j)).(started := s.started[j := s.started[j] + 1])
    case InFn(j) => GoTo(s, f, MarkDone(j)).(ended := s.ended[j := s.ended[j] + 1])
    case MarkDone(j) => GoTo(s, f, Continue(j, 0)).(done := s.done[j := true])
  }

  /** The steps between jobs: the shutdown flag, and the notification of the waiters. */
  function IdleStep(s: State, f: nat): State
    requires f < |s.fibers|
  {
    match s.fibers[f]
    case CheckShutdown => GoTo(s, f, if s.shutdown then Returned else Scan(0))
    case WantNotify => if s.lock.Free? then GoTo(s, f, Notify).(lock := FiberHolds(f)) else s
    case Notify => GoTo(s, f, Scan(0)).(lock := Free, waiters := WakeAll(s.waiters))
    case _ => s
  }

  /** One atomic step of fiber f; `full` says what a push finds. */
  function FiberStep(s: State, f: nat, full: bool): State
    requires Shape(s) && f < |s.fibers|
  {
    var pc := s.fibers[f];
    if pc.Scan? then PopStep(s, f, pc.q)
    else if pc.Holding? || pc.InFn? || pc.MarkDone? then WorkStep(s, f)
    else if pc.Continue? then ContinueStep(s, f, pc.job, pc.k)
    else if pc.Pushing() then PushContinuationStep(s, f, full)
    else IdleStep(s, f)
  }

  function WakeAll(waiters: seq<Waiter>): seq<Waiter> {
    seq(|waiters|, i requires 0 <= i < |waiters| => if waiters[i].Blocked? then WantLock else waiters[i])
  }

  /**
   Nobody has job j in hand: it was never handed over, or the push of it was given up. That a caller submits
   only such a job is its promise; the code itself only looks at the counter.
   */
  predicate Unclaimed(s: State, j: nat) {
    j < |s.place| && (s.place[j].Waiting? || s.place[j].Dropped?)
  }

  /** Client e calls submit on job j. */
  function Submit(s: State, e: nat, j: nat): State
    requires Shape(s) && e < |s.clients| && j < |s.conts|
  {
    if s.clients[e].CIdle? && Unclaimed(s, j) && s.remaining[j] == 0 then
      Put(s, j, Pushed(ByClient(e))).(clients := s.clients[e := CCount(j)])
    else s
  }

  /** One atomic step of client e; `retry` says whether it is the submit that keeps trying. */
  function ClientStep(s: State, e: nat, full: bool, retry: bool): State
    requires Shape(s) && e < |s.clients|
  {
    match s.clients[e]
    case CIdle => s
    case CCount(j) => s.(clients := s.clients[e := CClaim(j)], inflight := s.inflight + 1)
    case CClaim(j) =>
      if full then
        if retry then s.(clients := s.clients[e := CCount(j)], failed := s.failed + 1)
        else Put(s, j, Dropped).(clients := s.clients[e := CIdle], failed := s.failed + 1)
      else
        s.(clients := s.clients[e := CPublish(j)],
           queues := s.queues[s.prio[j] := s.queues[s.prio[j]] + [Entry(j, ByClient(e), false)]])
    case CPublish(j) =>
      Put(s, j, Queued).(clients := s.clients[e := CIdle],
        queues := s.queues[s.prio[j] := Ready(s.queues[s.prio[j]], ByClient(e))])
  }

  /** One step of waiter w inside `waitUntilAllTasksDone`; a step while asleep is a spurious wake-up. */
  function WaiterStep(s: State, w: nat): State
    requires w < |s.waiters|
  {
    match s.waiters[w]
    case Away => s.(waiters := s.waiters[w := WantLock])
    case WantLock =>
      if s.lock.Free? then s.(waiters := s.waiters[w := Checking], lock := WaiterHolds(w)) else s
    case Checking =>
      if s.inflight == 0 then s.(waiters := s.waiters[w := Satisfied], lock := Free)
      else s.(waiters := s.waiters[w := Blocking])
    case Blocking => s.(waiters := s.waiters[w := Blocked], lock := Free)
    case Blocked => s.(waiters := s.waiters[w := WantLock])
    case Satisfied => s
  }

  datatype Action =
    | StepFiber(f: nat, full: bool)
    | StartSubmit(e: nat, job: nat)
    | StepClient(e: nat, full: bool, retry: bool)
    | StepWaiter(w: nat)
    | RequestShutdown

  /** What an action does; an action that is not enabled changes nothing. */
  function Next(s: State, a: Action): State
    requires Shape(s)
  {
    match a
    case StepFiber(f, full) => if f < |s.fibers| then FiberStep(s, f, full) else s
    case StartSubmit(e, j) => if e < |s.clients| && j < |s.conts| then Submit(s, e, j) else s
    case StepClient(e, full, retry) => if e < |s.clients| then ClientStep(s, e, full, retry) else s
    case StepWaiter(w) => if w < |s.waiters| then WaiterStep(s, w) else s
    case RequestShutdown => s.(shutdown := true)
  }

  /** The parts of a state that never change. */
  ghost predicate SameFrame(s: State, s': State) {
    && s'.conts == s.conts && s'.prio == s.prio && |s'.fibers| == |s.fibers|
    && |s'.clients| == |s.clients| && |s'.waiters| == |s.waiters|
  }

  lemma PushShape(s: State, f: nat, full: bool)
    requires Shape(s) && f < |s.fibers| && s.fibers[f].Pushing()
    ensures Shape(PushContinuationStep(s, f, full)) && SameFrame(s, PushContinuationStep(s, f, full))
  {
  }

  lemma ContinueShape(s: State, f: nat, j: nat, k: nat)
    requires Shape(s) && f < |s.fibers| && j < |s.conts| && k <= |s.conts[j]|
    ensures Shape(ContinueStep(s, f, j, k)) && SameFrame(s, ContinueStep(s, f, j, k))
  {
  }

  lemma PopShape(s: State, f: nat, q: nat)
    requires Shape(s) && f < |s.fibers| && q < 3
    ensures Shape(PopStep(s, f, q)) && SameFrame(s, PopStep(s, f, q))
  {
  }

  lemma WorkShape(s: State, f: nat)
    requires Shape(s) && f < |s.fibers| && (s.fibers[f].Holding? || s.fibers[f].InFn? || s.fibers[f].MarkDone?)
    ensures Shape(WorkStep(s, f)) && SameFrame(s, WorkStep(s, f))
  {
  }

  lemma IdleShape(s: State, f: nat)
    requires Shape(s) && f < |s.fibers|
    ensures Shape(IdleStep(s, f)) && SameFrame(s, IdleStep(s, f))
  {
  }

  lemma FiberStepShape(s: State, f: nat, full: bool)
    requires Shape(s) && f < |s.fibers|
    ensures Shape(FiberStep(s, f, full)) && SameFrame(s, FiberStep(s, f, full))
  {
    var pc := s.fibers[f];
    if pc.Scan? { PopShape(s, f, pc.q); }
    else if pc.Holding? || pc.InFn? || pc.MarkDone? { WorkShape(s, f); }
    else if pc.Continue? { ContinueShape(s, f, pc.job, pc.k); }
    else if pc.Pushing() { PushShape(s, f, full); }
    else { IdleShape(s, f); }
  }

  lemma ClaimShape(s: State, e: nat, full: bool, retry: bool)
    requires Shape(s) && e < |s.clients| && s.clients[e].CClaim?
    ensures Shape(ClientStep(s, e, full, retry)) && SameFrame(s, ClientStep(s, e, full, retry))
  {
  }

  lemma ClientStepShape(s: State, e: nat, full: bool, retry: bool)
    requires Shape(s) && e < |s.clients|
    ensures Shape(ClientStep(s, e, full, retry)) && SameFrame(s, ClientStep(s, e, full, retry))
  {
    if s.clients[e].CClaim? { ClaimShape(s, e, full, retry); }
  }

  lemma SubmitShape(s: State, e: nat, j: nat)
    requires Shape(s) && e < |s.clients| && j < |s.conts|
    ensures Shape(Submit(s, e, j)) && SameFrame(s, Submit(s, e, j))
  {
  }

  lemma WaiterShape(s: State, w: nat)
    requires Shape(s) && w < |s.waiters|
    ensures Shape(WaiterStep(s, w)) && SameFrame(s, WaiterStep(s, w))
  {
  }

  lemma NextShape(s: State, a: Action)
    requires Shape(s)
    ensures Shape(Next(s, a)) && SameFrame(s, Next(s, a))
  {
    match a
    case StepFiber(f, full) => if f < |s.fibers| { FiberStepShape(s, f, full); }
    case StartSubmit(e, j) => if e < |s.clients| && j < |s.conts| { SubmitShape(s, e, j); }
    case StepClient(e, full, retry) => if e < |s.clients| { ClientStepShape(s, e, full, retry); }
    case StepWaiter(w) => if w < |s.waiters| { WaiterShape(s, w); }
    case RequestShutdown =>
  }

  function Run(s: State, schedule: seq<Action>): State
    requires Shape(s)
    decreases |schedule|
  {
    if schedule == [] then s
    else
      NextShape(s, schedule[0]);
      Run(Next(s, schedule[0]), schedule[1..])
  }

  lemma RunNext(s: State, a: Action, rest: seq<Action>)
    requires Shape(s)
    ensures Shape(Next(s, a)) && Run(s, [a] + rest) == Run(Next(s, a), rest)
  {
    NextShape(s, a);
    assert ([a] + rest)[1..] == rest;
  }

  lemma {:induction false} RunShape(s: State, schedule: seq<Action>)
    requires Shape(s)
    ensures Shape(Run(s, schedule)) && SameFrame(s, Run(s, schedule))
    decreases |schedule|
  {
    if schedule != [] {
      NextShape(s, schedule[0]);
      RunShape(Next(s, schedule[0]), schedule[1..]);
    }
  }

  lemma {:induction false} RunMore(s: State, first: seq<Action>, second: seq<Action>)
    requires Shape(s)
    ensures Shape(Run(s, first)) && Run(s, first + second) == Run(Run(s, first), second)
    decreases |first|
  {
    RunShape(s, first);
    if first == [] {
      assert first + second == second;
    } else {
      assert (first + second)[1..] == first[1..] + second;
      NextShape(s, first[0]);
      RunMore(Next(s, first[0]), first[1..], second);
    }
  }

  /** Before anything was submitted: idle fibers, clients and waiters, and the jobs as they were wired. */
  ghost predicate Initial(s: State) {
    && Shape(s)
    && (forall c: nat | c < |s.conts| :: s.remaining[c] == Pending(s.conts, Zeros(|s.conts|), c))
    && s.processed == Zeros(|s.conts|) && s.started == Zeros(|s.conts|) && s.ended == Zeros(|s.conts|)
    && (forall j: nat | j < |s.conts| :: s.place[j] == Waiting && !s.done[j])
    && s.queues == [[], [], []] && s.inflight == 0 && !s.shutdown && s.failed == 0 && s.lock == Free
    && (forall f: nat | f < |s.fibers| :: s.fibers[f] == Scan(0))
    && (forall e: nat | e < |s.clients| :: s.clients[e] == CIdle)
    && (forall w: nat | w < |s.waiters| :: s.waiters[w] == Away)
  }
}
