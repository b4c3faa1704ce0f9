/**
 Nothing in flight: what the in-flight counter counts, what a waiter that reads zero may conclude, and why
 a blocked waiter is always woken.
 */
module SchedulerQuiescence {
  import opened JobGraph
  import opened Scheduler
  import opened SchedulerJobs

  // ---------------------------------------------------------------- what the counter counts

  /** What a fiber contributes: its popped job until it is finished, and a push it has counted but not placed. */
  function FiberToken(pc: Fiber): nat {
    match pc
    case Scan(_) => 0
    case CheckShutdown => 0
    case WantNotify => 0
    case Notify => 0
    case Returned => 0
    case PushClaim(_, _) => 2
    case _ => 1
  }

  /** What a client contributes: a push it has counted but not placed. */
  function ClientToken(pc: Client): nat {
    if pc.CClaim? then 1 else 0
  }

  function FiberTokens(fibers: seq<Fiber>): nat {
    if fibers == [] then 0 else FiberToken(fibers[0]) + FiberTokens(fibers[1..])
  }

  function ClientTokens(clients: seq<Client>): nat {
    if clients == [] then 0 else ClientToken(clients[0]) + ClientTokens(clients[1..])
  }

  /** Queued, popped and not finished, pushes under way, and pushes that failed. */
  function Tokens(s: State): nat
    requires |s.queues| == 3
  {
    |s.queues[0]| + |s.queues[1]| + |s.queues[2]| + FiberTokens(s.fibers) + ClientTokens(s.clients) + s.failed
  }

  lemma {:induction false} FiberTokensUpdate(fibers: seq<Fiber>, f: nat, pc: Fiber)
    requires f < |fibers|
    ensures FiberTokens(fibers[f := pc]) == FiberTokens(fibers) - FiberToken(fibers[f]) + FiberToken(pc)
  {
    if f == 0 {
      assert fibers[0 := pc][1..] == fibers[1..];
    } else {
      assert fibers[f := pc][1..] == fibers[1..][f - 1 := pc];
      FiberTokensUpdate(fibers[1..], f - 1, pc);
    }
  }

  lemma {:induction false} ClientTokensUpdate(clients: seq<Client>, e: nat, pc: Client)
    requires e < |clients|
    ensures ClientTokens(clients[e := pc]) == ClientTokens(clients) - ClientToken(clients[e]) + ClientToken(pc)
  {
    if e == 0 {
      assert clients[0 := pc][1..] == clients[1..];
    } else {
      assert clients[e := pc][1..] == clients[1..][e - 1 := pc];
      ClientTokensUpdate(clients[1..], e - 1, pc);
    }
  }

  lemma {:induction false} FiberTokensBound(fibers: seq<Fiber>, f: nat)
    requires f < |fibers|
    ensures FiberToken(fibers[f]) <= FiberTokens(fibers)
  {
    if f > 0 { FiberTokensBound(fibers[1..], f - 1); }
  }

  lemma {:induction false} ClientTokensBound(clients: seq<Client>, e: nat)
    requires e < |clients|
    ensures ClientToken(clients[e]) <= ClientTokens(clients)
  {
    if e > 0 { ClientTokensBound(clients[1..], e - 1); }
  }

  lemma {:induction false} NoTokens(fibers: seq<Fiber>, clients: seq<Client>)
    requires forall f: nat | f < |fibers| :: FiberToken(fibers[f]) == 0
    requires forall e: nat | e < |clients| :: ClientToken(clients[e]) == 0
    ensures FiberTokens(fibers) == 0 && ClientTokens(clients) == 0
    decreases |fibers| + |clients|
  {
    if fibers != [] {
      NoTokens(fibers[1..], clients);
    } else if clients != [] {
      NoTokens(fibers, clients[1..]);
    }
  }

  lemma PopCounts(s: State, f: nat, q: nat)
    requires Shape(s) && f < |s.fibers| && s.fibers[f] == Scan(q) && q < 3
    ensures |PopStep(s, f, q).queues| == 3
    ensures PopStep(s, f, q).inflight - s.inflight == Tokens(PopStep(s, f, q)) - Tokens(s)
  {
    FiberTokensUpdate(s.fibers, f, PopStep(s, f, q).fibers[f]);
  }

  lemma WorkCounts(s: State, f: nat)
    requires Shape(s) && f < |s.fibers| && (s.fibers[f].Holding? || s.fibers[f].InFn? || s.fibers[f].MarkDone?)
    ensures WorkStep(s, f).queues == s.queues
    ensures WorkStep(s, f).inflight - s.inflight == Tokens(WorkStep(s, f)) - Tokens(s)
  {
    FiberTokensUpdate(s.fibers, f, WorkStep(s, f).fibers[f]);
  }

  lemma ContinueCounts(s: State, f: nat, j: nat, k: nat)
    requires Shape(s) && f < |s.fibers| && s.fibers[f] == Continue(j, k) && j < |s.conts| && k <= |s.conts[j]|
    ensures ContinueStep(s, f, j, k).queues == s.queues
    ensures ContinueStep(s, f, j, k).inflight - s.inflight == Tokens(ContinueStep(s, f, j, k)) - Tokens(s)
  {
    FiberTokensUpdate(s.fibers, f, ContinueStep(s, f, j, k).fibers[f]);
  }

  lemma PushCounts(s: State, f: nat, full: bool)
    requires Shape(s) && f < |s.fibers| && s.fibers[f].Pushing()
    ensures |PushContinuationStep(s, f, full).queues| == 3
    ensures PushContinuationStep(s, f, full).inflight - s.inflight
         == Tokens(PushContinuationStep(s, f, full)) - Tokens(s)
  {
    FiberTokensUpdate(s.fibers, f, PushContinuationStep(s, f, full).fibers[f]);
  }

  lemma IdleCounts(s: State, f: nat)
    requires Shape(s) && f < |s.fibers| && Between(s.fibers[f]) && !s.fibers[f].Scan?
    ensures IdleStep(s, f).queues == s.queues
    ensures IdleStep(s, f).inflight - s.inflight == Tokens(IdleStep(s, f)) - Tokens(s)
  {
    FiberTokensUpdate(s.fibers, f, IdleStep(s, f).fibers[f]);
    assert s.fibers[f := s.fibers[f]] == s.fibers;
  }

  lemma FiberStepCounts(s: State, f: nat, full: bool)
    requires Shape(s) && f < |s.fibers|
    ensures |FiberStep(s, f, full).queues| == 3
    ensures FiberStep(s, f, full).inflight - s.inflight == Tokens(FiberStep(s, f, full)) - Tokens(s)
  {
    var pc := s.fibers[f];
    assert FiberShape(s.conts, pc);
    if pc.Scan? { PopCounts(s, f, pc.q); }
    else if pc.Holding? || pc.InFn? || pc.MarkDone? { WorkCounts(s, f); }
    else if pc.Continue? { ContinueCounts(s, f, pc.job, pc.k); }
    else if pc.Pushing() { PushCounts(s, f, full); }
    else { IdleCounts(s, f); }
  }

  lemma ClientStepCounts(s: State, e: nat, full: bool, retry: bool)
    requires Shape(s) && e < |s.clients| && Shape(ClientStep(s, e, full, retry))
    ensures ClientStep(s, e, full, retry).inflight - s.inflight == Tokens(ClientStep(s, e, full, retry)) - Tokens(s)
  {
    var s' := ClientStep(s, e, full, retry);
    ClientTokensUpdate(s.clients, e, s'.clients[e]);
    assert s'.clients == s.clients[e := s'.clients[e]];
  }

  lemma NextCounts(s: State, a: Action)
    requires Shape(s) && Shape(Next(s, a))
    ensures Next(s, a).inflight - s.inflight == Tokens(Next(s, a)) - Tokens(s)
  {
    match a
    case StepFiber(f, full) => if f < |s.fibers| { FiberStepCounts(s, f, full); }
    case StartSubmit(e, j) => if e < |s.clients| { ClientTokensUpdate(s.clients, e, CCount(j)); }
    case StepClient(e, full, retry) => if e < |s.clients| { ClientStepCounts(s, e, full, retry); }
    case _ =>
  }

  lemma {:induction false} RunCounts(s: State, schedule: seq<Action>)
    requires Shape(s)
    ensures Shape(Run(s, schedule))
    ensures Run(s, schedule).inflight - s.inflight == Tokens(Run(s, schedule)) - Tokens(s)
    decreases |schedule|
  {
    if schedule != [] {
      NextShape(s, schedule[0]);
      NextCounts(s, schedule[0]);
      RunCounts(Next(s, schedule[0]), schedule[1..]);
    }
  }

  /** In every reachable state the counter is exactly the work that is queued, held, under way or lost. */
  lemma InflightCounts(s: State)
    requires Reachable(s)
    ensures |s.queues| == 3 && s.inflight == Tokens(s)
  {
    var start: State, schedule: seq<Action> :| Initial(start) && s == Run(start, schedule);
    NoTokens(start.fibers, start.clients);
    RunCounts(start, schedule);
  }

  /**
   Consequence: a push that ever found a full ring is counted forever, so from then on no waiter can see
   zero, although the code gave the push up.
   */
  lemma LostPushNeverZero(s: State)
    requires Reachable(s) && s.failed > 0
    ensures s.inflight > 0
  {
    InflightCounts(s);
  }

  // ---------------------------------------------------------------- what zero means

  /** A ranking shows that no job waits for itself, however indirectly. */
  ghost predicate Acyclic(conts: seq<seq<nat>>, rank: seq<nat>) {
    |rank| == |conts| && forall p: nat, c: nat | c < |conts| && Precedes(conts, p, c) :: rank[p] < rank[c]
  }

  /**
   The jobs that should have run: the roots that were handed over, and every job all of whose
   prerequisites, of which there is at least one, should have run.
   */
  ghost predicate Due(conts: seq<seq<nat>>, rank: seq<nat>, roots: set<nat>, c: nat)
    requires Acyclic(conts, rank) && c < |conts|
    decreases rank[c]
  {
    if IsRoot(conts, c) then c in roots
    else forall p: nat | Precedes(conts, p, c) :: Due(conts, rank, roots, p)
  }

  /** The roots whose submission got as far as being counted. */
  ghost function Handed(s: State): set<nat>
    requires Shape(s)
  {
    set j: nat | j < |s.conts| && IsRoot(s.conts, j) && !s.place[j].Waiting? && !BeingCounted(s, j) :: j
  }

  ghost predicate BeingCounted(s: State, j: nat) {
    exists e: nat :: e < |s.clients| && s.clients[e] == CCount(j)
  }

  /** With nothing in flight and no push lost, a job has run or nobody has started to push it. */
  lemma NothingHeld(s: State, j: nat)
    requires JobInv(s) && s.inflight == Tokens(s) == 0 && j < |s.conts|
    ensures s.place[j].Finished? || s.place[j].Waiting? || BeingCounted(s, j)
    ensures BeingCounted(s, j) ==> s.place[j].Pushed?
  {
    assert JobOk(s, j);
    forall e: nat | e < |s.clients| ensures ClientOk(s, e) && ClientToken(s.clients[e]) == 0 {
      ClientTokensBound(s.clients, e);
    }
    match s.place[j]
    case OnFiber(f) => FiberTokensBound(s.fibers, f);
    case Pushed(who) =>
      if who.ByFiber? { FiberTokensBound(s.fibers, who.f); }
    case _ =>
  }

  /** Whether a job has run once nothing is in flight follows from whether its prerequisites have. */
  lemma RanIfPrerequisitesRan(s: State, c: nat)
    requires JobInv(s) && s.inflight == Tokens(s) == 0 && c < |s.conts| && !IsRoot(s.conts, c)
    requires forall p: nat | Precedes(s.conts, p, c) :: s.place[p].Finished?
    ensures s.place[c].Finished? || BeingCounted(s, c)
  {
    NothingHeld(s, c);
    assert JobOk(s, c);
    if s.place[c].Waiting? {
      forall p: nat | p < |s.conts| ensures c !in s.conts[p][s.processed[p]..] {
        if c in s.conts[p] {
          assert Precedes(s.conts, p, c);
          assert JobOk(s, p);
        }
      }
      PendingNone(s.conts, s.processed, c, |s.conts|);
    }
  }

  lemma {:induction false} DueIffRan(s: State, rank: seq<nat>, c: nat)
    requires JobInv(s) && s.inflight == Tokens(s) == 0 && Acyclic(s.conts, rank) && c < |s.conts|
    requires forall j: nat | j < |s.conts| && BeingCounted(s, j) :: IsRoot(s.conts, j)
    ensures Due(s.conts, rank, Handed(s), c) <==> s.place[c].Finished?
    decreases rank[c]
  {
    NothingHeld(s, c);
    if !IsRoot(s.conts, c) {
      forall p: nat | Precedes(s.conts, p, c)
        ensures Due(s.conts, rank, Handed(s), p) <==> s.place[p].Finished?
      {
        DueIffRan(s, rank, p);
      }
      if Due(s.conts, rank, Handed(s), c) {
        RanIfPrerequisitesRan(s, c);
      }
      if s.place[c].Finished? {
        forall p: nat | Precedes(s.conts, p, c) ensures s.place[p].Finished? {
          PrerequisitesDone(s, p, c);
          NothingHeld(s, p);
          assert JobOk(s, p);
        }
      }
    }
  }

  /** Before a push fails only a job without prerequisites is ever in the hands of a client. */
  ghost predicate ClientsHoldRoots(s: State) {
    s.failed == 0 ==>
      forall e: nat | e < |s.clients| && !s.clients[e].CIdle? :: IsRoot(s.conts, s.clients[e].job)
  }

  lemma FailedGrows(s: State, a: Action)
    requires Shape(s)
    ensures Next(s, a).failed >= s.failed
  {
    if a.StepFiber? && a.f < |s.fibers| {
      assert FiberShape(s.conts, s.fibers[a.f]);
    }
  }

  lemma NextHoldsRoots(s: State, a: Action)
    requires JobInv(s) && ClientsHoldRoots(s)
    ensures ClientsHoldRoots(Next(s, a))
  {
    NextShape(s, a);
    FailedGrows(s, a);
    if a.StartSubmit? && a.e < |s.clients| && a.job < |s.conts| {
      assert JobOk(s, a.job);
    }
    forall e: nat | e < |s.clients| && !Next(s, a).clients[e].CIdle? && Next(s, a).failed == 0
      ensures IsRoot(s.conts, Next(s, a).clients[e].job)
    {
      if Next(s, a).clients[e] != s.clients[e] && !a.StartSubmit? {
        assert !s.clients[e].CIdle? && Next(s, a).clients[e].job == s.clients[e].job;
      }
    }
  }

  lemma {:induction false} RunHoldsRoots(s: State, schedule: seq<Action>)
    requires JobInv(s) && ClientsHoldRoots(s)
    ensures ClientsHoldRoots(Run(s, schedule))
    decreases |schedule|
  {
    if schedule != [] {
      NextInv(s, schedule[0]);
      NextHoldsRoots(s, schedule[0]);
      RunHoldsRoots(Next(s, schedule[0]), schedule[1..]);
    }
  }

  /**
   A waiter that reads zero, when no push was lost, knows exactly which functions have returned: those of
   the jobs the handed-over roots lead to by finished prerequisites, each called once, and no others.
   */
  lemma ZeroMeansAllRan(s: State, rank: seq<nat>, c: nat)
    requires Reachable(s) && Shape(s) && s.inflight == 0 && Acyclic(s.conts, rank) && c < |s.conts|
    ensures s.failed == 0
    ensures s.ended[c] == s.started[c] == if Due(s.conts, rank, Handed(s), c) then 1 else 0
  {
    InflightCounts(s);
    EveryRun(s);
    var start: State, schedule: seq<Action> :| Initial(start) && s == Run(start, schedule);
    InitialInv(start);
    RunHoldsRoots(start, schedule);
    DueIffRan(s, rank, c);
    NothingHeld(s, c);
    assert JobOk(s, c);
  }

  // ---------------------------------------------------------------- no lost wake-up

  /** Someone has brought the count to zero and not yet notified. */
  ghost predicate NotifierPending(s: State) {
    exists f: nat :: f < |s.fibers| && (s.fibers[f].WantNotify? || s.fibers[f].Notify?)
  }

  ghost predicate WakeInv(s: State) {
    // the lock is held by whoever is inside
    && (forall f: nat | f < |s.fibers| && s.fibers[f].Notify? :: s.lock == FiberHolds(f))
    && (forall w: nat | w < |s.waiters| && (s.waiters[w].Checking? || s.waiters[w].Blocking?) ::
          s.lock == WaiterHolds(w))
    // a waiter that went to sleep did so with work in flight, or somebody is about to wake it
    && (forall w: nat | w < |s.waiters| && (s.waiters[w].Blocking? || s.waiters[w].Blocked?) && s.inflight == 0 ::
          NotifierPending(s))
  }

  /** What a step of a fiber that is neither taking the lock nor holding it does to the rest. */
  ghost predicate Minds(s: State, s': State, f: nat)
    requires f < |s.fibers|
  {
    && s'.lock == s.lock && s'.waiters == s.waiters
    && |s'.fibers| == |s.fibers| && s'.fibers == s.fibers[f := s'.fibers[f]] && !s'.fibers[f].Notify?
    && (s'.inflight == s.inflight || s'.inflight == s.inflight + 1
        || (s'.inflight == s.inflight - 1 && (s'.inflight == 0 ==> s'.fibers[f].WantNotify?)))
  }

  lemma PopMinds(s: State, f: nat, q: nat)
    requires Shape(s) && f < |s.fibers| && q < 3
    ensures Minds(s, PopStep(s, f, q), f)
  {
  }

  lemma WorkMinds(s: State, f: nat)
    requires Shape(s) && f < |s.fibers| && (s.fibers[f].Holding? || s.fibers[f].InFn? || s.fibers[f].MarkDone?)
    ensures Minds(s, WorkStep(s, f), f)
  {
  }

  lemma ContinueMinds(s: State, f: nat, j: nat, k: nat)
    requires Shape(s) && f < |s.fibers| && j < |s.conts| && k <= |s.conts[j]|
    ensures Minds(s, ContinueStep(s, f, j, k), f)
  {
  }

  lemma PushMinds(s: State, f: nat, full: bool)
    requires Shape(s) && f < |s.fibers| && s.fibers[f].Pushing()
    ensures Minds(s, PushContinuationStep(s, f, full), f)
  {
  }

  lemma BusyStepMinds(s: State, f: nat, full: bool)
    requires Shape(s) && f < |s.fibers| && !s.fibers[f].WantNotify? && !s.fibers[f].Notify?
    ensures Minds(s, FiberStep(s, f, full), f)
  {
    var pc := s.fibers[f];
    assert FiberShape(s.conts, pc);
    if pc.Scan? { PopMinds(s, f, pc.q); }
    else if pc.Holding? || pc.InFn? || pc.MarkDone? { WorkMinds(s, f); }
    else if pc.Continue? { ContinueMinds(s, f, pc.job, pc.k); }
    else if pc.Pushing() { PushMinds(s, f, full); }
    else { assert s.fibers[f := s.fibers[f]] == s.fibers; }
  }

  lemma FiberStepWakes(s: State, f: nat, full: bool)
    requires Shape(s) && WakeInv(s) && f < |s.fibers| && s.inflight >= 0
    ensures WakeInv(FiberStep(s, f, full))
  {
    var s' := FiberStep(s, f, full);
    if s.fibers[f].WantNotify? || s.fibers[f].Notify? {
      NotifierStepWakes(s, f);
    } else {
      BusyStepMinds(s, f, full);
      if s'.inflight == 0 && s.inflight == 0 && !s'.fibers[f].WantNotify? && NotifierPending(s) {
        var g: nat :| g < |s.fibers| && (s.fibers[g].WantNotify? || s.fibers[g].Notify?);
        assert s'.fibers[g] == s.fibers[g];
      }
    }
  }

  lemma NotifierStepWakes(s: State, f: nat)
    requires WakeInv(s) && f < |s.fibers| && (s.fibers[f].WantNotify? || s.fibers[f].Notify?)
    ensures WakeInv(IdleStep(s, f))
  {
    var s' := IdleStep(s, f);
    if s.fibers[f].WantNotify? {
      assert s'.fibers[f].WantNotify? || s'.fibers[f].Notify?;
      assert NotifierPending(s');
    } else {
      assert s.lock == FiberHolds(f);
      forall w: nat | w < |s.waiters| ensures !s'.waiters[w].Blocking? && !s'.waiters[w].Blocked? {
      }
    }
  }

  lemma WaiterStepWakes(s: State, w: nat)
    requires WakeInv(s) && w < |s.waiters|
    ensures WakeInv(WaiterStep(s, w))
  {
    assert WaiterStep(s, w).fibers == s.fibers;
  }

  lemma NextWakes(s: State, a: Action)
    requires Shape(s) && WakeInv(s) && s.inflight >= 0
    ensures WakeInv(Next(s, a))
  {
    match a
    case StepFiber(f, full) => if f < |s.fibers| { FiberStepWakes(s, f, full); }
    case StepWaiter(w) => if w < |s.waiters| { WaiterStepWakes(s, w); }
    case _ =>
      var s' := Next(s, a);
      assert s'.fibers == s.fibers && s'.waiters == s.waiters && s'.lock == s.lock && s'.inflight >= s.inflight;
      assert NotifierPending(s) ==> NotifierPending(s');
  }

  lemma {:induction false} RunWakes(s: State, schedule: seq<Action>)
    requires Shape(s) && WakeInv(s) && s.inflight == Tokens(s)
    ensures WakeInv(Run(s, schedule))
    decreases |schedule|
  {
    if schedule != [] {
      NextShape(s, schedule[0]);
      NextCounts(s, schedule[0]);
      NextWakes(s, schedule[0]);
      RunWakes(Next(s, schedule[0]), schedule[1..]);
    }
  }

  /**
   In every reachable state a waiter asleep while nothing is in flight has a notification coming, the lock
   it needs will be free for it, and the notification puts the waiter back on its feet.
   */
  lemma NoLostWakeup(s: State, w: nat)
    requires Reachable(s) && Shape(s) && w < |s.waiters| && s.waiters[w].Blocked? && s.inflight == 0
    ensures exists f: nat :: f < |s.fibers| && (s.fibers[f].WantNotify? || s.fibers[f].Notify?)
    ensures forall f: nat | f < |s.fibers| && s.fibers[f].Notify? ::
              s.lock == FiberHolds(f) && |IdleStep(s, f).waiters| == |s.waiters|
              && IdleStep(s, f).waiters[w] == WantLock && IdleStep(s, f).lock == Free
  {
    var start: State, schedule: seq<Action> :| Initial(start) && s == Run(start, schedule);
    NoTokens(start.fibers, start.clients);
    RunWakes(start, schedule);
  }

  /** A wait is over only when its last look, under the lock, found nothing in flight. */
  lemma SatisfiedSawZero(s: State, a: Action, w: nat)
    requires Reachable(s) && Shape(s) && SameFrame(s, Next(s, a))
    requires w < |s.waiters| && !s.waiters[w].Satisfied? && Next(s, a).waiters[w].Satisfied?
    ensures s.inflight == 0 && s.lock == WaiterHolds(w)
  {
    var start: State, schedule: seq<Action> :| Initial(start) && s == Run(start, schedule);
    NoTokens(start.fibers, start.clients);
    RunWakes(start, schedule);
    OnlyWaitersSatisfy(s, a, w);
  }

  lemma OnlyWaitersSatisfy(s: State, a: Action, w: nat)
    requires Shape(s) && w < |s.waiters| == |Next(s, a).waiters|
    requires !s.waiters[w].Satisfied? && Next(s, a).waiters[w].Satisfied?
    ensures a == StepWaiter(w) && s.waiters[w].Checking? && s.inflight == 0
  {
    if a.StepFiber? && a.f < |s.fibers| && !s.fibers[a.f].WantNotify? && !s.fibers[a.f].Notify? {
      BusyStepMinds(s, a.f, a.full);
    }
  }

  // ---------------------------------------------------------------- a wait comes to its end

  /** Whoever the lock says holds it is inside. */
  ghost predicate LockOk(s: State) {
    match s.lock
    case Free => true
    case FiberHolds(f) => f < |s.fibers| && s.fibers[f].Notify?
    case WaiterHolds(w) => w < |s.waiters| && (s.waiters[w].Checking? || s.waiters[w].Blocking?)
  }

  lemma NextLockOk(s: State, a: Action)
    requires Shape(s) && WakeInv(s) && LockOk(s)
    ensures LockOk(Next(s, a))
  {
    if a.StepFiber? && a.f < |s.fibers| && !s.fibers[a.f].WantNotify? && !s.fibers[a.f].Notify? {
      BusyStepMinds(s, a.f, a.full);
    } else if a.StepWaiter? && a.w < |s.waiters| {
      assert WaiterStep(s, a.w).fibers == s.fibers;
    }
  }

  lemma {:induction false} RunLockOk(s: State, schedule: seq<Action>)
    requires Shape(s) && WakeInv(s) && LockOk(s) && s.inflight == Tokens(s)
    ensures LockOk(Run(s, schedule)) && WakeInv(Run(s, schedule))
    decreases |schedule|
  {
    if schedule != [] {
      NextShape(s, schedule[0]);
      NextCounts(s, schedule[0]);
      NextWakes(s, schedule[0]);
      NextLockOk(s, schedule[0]);
      RunLockOk(Next(s, schedule[0]), schedule[1..]);
    }
  }

  /** How far a waiter is from the end of its wait, and then how far the lock is from where it needs it. */
  function WaiterRank(pc: Waiter): nat {
    match pc
    case Blocking => 5
    case Blocked => 4
    case Away => 3
    case WantLock => 2
    case Checking => 1
    case Satisfied => 0
  }

  function LockRank(s: State, w: nat): nat
    requires w < |s.waiters|
  {
    match s.lock
    case Free => if s.waiters[w].Blocked? then 2 else 0
    case FiberHolds(_) => 1
    case WaiterHolds(_) => 3
  }

  /** Nothing is in flight, and the lock and the notifications are in order. */
  ghost predicate AtZero(s: State) {
    Shape(s) && WakeInv(s) && LockOk(s) && s.inflight == 0
  }

  /** The next step towards the end of the wait: the lock holder's, a notifier's to wake the waiter, or its own. */
  ghost function Towards(s: State, w: nat): Action
    requires AtZero(s) && w < |s.waiters|
  {
    match s.lock
    case FiberHolds(f) => StepFiber(f, false)
    case WaiterHolds(u) => StepWaiter(u)
    case Free =>
      if s.waiters[w].Blocked? then
        assert NotifierPending(s);
        var f: nat :| f < |s.fibers| && (s.fibers[f].WantNotify? || s.fibers[f].Notify?);
        StepFiber(f, false)
      else StepWaiter(w)
  }

  lemma TowardsIsNearer(s: State, w: nat)
    requires AtZero(s) && w < |s.waiters| && !s.waiters[w].Satisfied?
    ensures var s' := Next(s, Towards(s, w));
      && AtZero(s') && SameFrame(s, s') && s'.place == s.place
      && (WaiterRank(s'.waiters[w]) < WaiterRank(s.waiters[w])
          || (WaiterRank(s'.waiters[w]) == WaiterRank(s.waiters[w]) && LockRank(s', w) < LockRank(s, w)))
  {
    var a := Towards(s, w);
    NextShape(s, a);
    NextWakes(s, a);
    NextLockOk(s, a);
  }

  lemma {:induction false} WaitEnds(s: State, w: nat) returns (schedule: seq<Action>)
    requires AtZero(s) && w < |s.waiters|
    ensures var s' := Run(s, schedule);
      SameFrame(s, s') && s'.waiters[w].Satisfied? && s'.place == s.place && s'.inflight == 0
    decreases WaiterRank(s.waiters[w]), LockRank(s, w)
  {
    if s.waiters[w].Satisfied? {
      schedule := [];
    } else {
      var a := Towards(s, w);
      TowardsIsNearer(s, w);
      var rest := WaitEnds(Next(s, a), w);
      schedule := [a] + rest;
      RunNext(s, a, rest);
    }
  }

  /**
   In any reachable state with nothing in flight every wait can come to its end without any job moving: by steps of
   those who hold the lock, of a fiber that owes a notification, and of the waiter, and no spurious wake-up is needed.
   */
  lemma WaitCanEnd(s: State, w: nat) returns (schedule: seq<Action>)
    requires Reachable(s) && Shape(s) && w < |s.waiters| && s.inflight == 0
    ensures var s' := Run(s, schedule);
      SameFrame(s, s') && s'.waiters[w].Satisfied? && s'.place == s.place && s'.inflight == 0
  {
    var start: State, before: seq<Action> :| Initial(start) && s == Run(start, before);
    NoTokens(start.fibers, start.clients);
    RunLockOk(start, before);
    schedule := WaitEnds(s, w);
  }
}
