/**
 The scheduler as the program keeps it: counters and queues updated in place by the fiber loop.

 Every access the steps of module Scheduler separate is a method here, and the loops of the program are
 loops over these. A whole round of the fiber loop, run while no other thread moves, is shown to be a run of
 that one fiber in the step machine, so what is proved of all interleavings holds of it. What a push finds of
 its ring is an input.
 */
module FiberLoop {
  import opened Wrappers
  import opened JobGraph
  import opened Scheduler
  import opened SchedulerJobs

  // ---------------------------------------------------------------- runs of one thread

  /** n steps of fiber f; `rings(i)` is what the i-th finds of a ring it pushes to. */
  function Steps(f: nat, rings: nat -> bool, n: nat): (schedule: seq<Action>)
    ensures |schedule| == n
  {
    seq(n, i requires 0 <= i < n => StepFiber(f, rings(i)))
  }

  /** `trace(i)` is where i steps of fiber f lead from `trace(0)`. */
  ghost predicate Traces(trace: nat -> State, f: nat, rings: nat -> bool) {
    forall i: nat {:trigger Steps(f, rings, i)} ::
      Shape(trace(0)) && f < |trace(0).fibers| && trace(i) == Run(trace(0), Steps(f, rings, i))
  }

  /** One more step. */
  lemma StepMore(trace: nat -> State, f: nat, rings: nat -> bool, n: nat)
    requires Traces(trace, f, rings)
    ensures Shape(trace(n)) && f < |trace(n).fibers|
    ensures trace(n + 1) == FiberStep(trace(n), f, rings(n))
    ensures Shape(trace(n + 1)) && f < |trace(n + 1).fibers|
  {
    var a := StepFiber(f, rings(n));
    assert |Steps(f, rings, n)| == n;
    var s := trace(0);
    assert Steps(f, rings, n + 1) == Steps(f, rings, n) + [a];
    RunShape(s, Steps(f, rings, n));
    RunShape(s, Steps(f, rings, n + 1));
    RunMore(s, Steps(f, rings, n), [a]);
    assert [a] + [] == [a];
    RunNext(Run(s, Steps(f, rings, n)), a, []);
  }

  /** A submission from start to end; `full` says what the push finds. */
  function SubmitActions(e: nat, j: nat, full: bool): seq<Action> {
    if full then [StartSubmit(e, j)] + ([StepClient(e, false, false)] + [StepClient(e, true, false)])
    else [StartSubmit(e, j)]
         + ([StepClient(e, false, false)] + ([StepClient(e, false, false)] + [StepClient(e, false, false)]))
  }

  /** What a submission comes to when nobody else moves. */
  ghost function AfterSubmit(s: State, e: nat, j: nat, full: bool): State
    requires Shape(s) && j < |s.conts|
  {
    if full then s.(inflight := s.inflight + 1, place := s.place[j := Dropped], failed := s.failed + 1)
    else s.(inflight := s.inflight + 1, place := s.place[j := Queued],
            queues := s.queues[s.prio[j] := s.queues[s.prio[j]] + [Entry(j, ByClient(e), true)]])
  }

  lemma NothingUnready(s: State, e: nat, q: nat)
    requires JobInv(s) && e < |s.clients| && s.clients[e].CIdle? && q < 3
    ensures forall i: nat | i < |s.queues[q]| && s.queues[q][i].pusher == ByClient(e) :: s.queues[q][i].ready
  {
    forall i: nat | i < |s.queues[q]| && s.queues[q][i].pusher == ByClient(e) ensures s.queues[q][i].ready {
      assert EntryOk(s, q, s.queues[q][i]);
    }
  }

  lemma ReadyLast(queue: seq<Entry>, j: nat, who: Pusher)
    requires forall i: nat | i < |queue| && queue[i].pusher == who :: queue[i].ready
    ensures Ready(queue + [Entry(j, who, false)], who) == queue + [Entry(j, who, true)]
  {
  }

  /** The three accesses of a client's push, the ring not being full. */
  lemma ClientPushes(s: State, e: nat, j: nat)
    requires Shape(s) && e < |s.clients| && j < |s.conts| && s.clients[e] == CCount(j)
    requires forall i: nat | i < |s.queues[s.prio[j]]| && s.queues[s.prio[j]][i].pusher == ByClient(e) ::
      s.queues[s.prio[j]][i].ready
    ensures var s1 := ClientStep(s, e, false, false);
      && Shape(s1) && e < |s1.clients| && s1.clients[e] == CClaim(j)
      && var s2 := ClientStep(s1, e, false, false);
      && Shape(s2) && e < |s2.clients| && s2.clients[e] == CPublish(j)
      && var s3 := ClientStep(s2, e, false, false);
      && Shape(s3)
      && s3 == AfterSubmit(s.(clients := s.clients[e := CIdle]), e, j, false)
  {
    var s1 := ClientStep(s, e, false, false);
    ClientStepShape(s, e, false, false);
    ClientStepShape(s1, e, false, false);
    var s2 := ClientStep(s1, e, false, false);
    ClientStepShape(s2, e, false, false);
    ReadyLast(s.queues[s.prio[j]], j, ByClient(e));
  }

  lemma ClientPushesRun(s: State, e: nat, j: nat)
    requires Shape(s) && e < |s.clients| && j < |s.conts| && s.clients[e] == CCount(j)
    requires forall i: nat | i < |s.queues[s.prio[j]]| && s.queues[s.prio[j]][i].pusher == ByClient(e) ::
      s.queues[s.prio[j]][i].ready
    ensures var p := StepClient(e, false, false);
      Run(s, [p] + ([p] + [p])) == AfterSubmit(s.(clients := s.clients[e := CIdle]), e, j, false)
  {
    var p := StepClient(e, false, false);
    ClientPushes(s, e, j);
    var s1 := Next(s, p);
    var s2 := Next(s1, p);
    RunNext(s, p, [p] + [p]);
    RunNext(s1, p, [p]);
    assert [p] + [] == [p];
    RunNext(s2, p, []);
  }

  lemma SubmitRuns(s: State, e: nat, j: nat)
    requires JobInv(s) && e < |s.clients| && j < |s.conts|
    requires s.clients[e].CIdle? && Unclaimed(s, j) && s.remaining[j] == 0
    ensures Run(s, SubmitActions(e, j, false)) == AfterSubmit(s, e, j, false)
  {
    var p := StepClient(e, false, false);
    RunNext(s, StartSubmit(e, j), [p] + ([p] + [p]));
    NothingUnready(s, e, s.prio[j]);
    ClientPushesRun(Next(s, StartSubmit(e, j)), e, j);
    assert s.clients[e := CCount(j)][e := CIdle] == s.clients;
    assert s.place[j := Pushed(ByClient(e))][j := Queued] == s.place[j := Queued];
  }

  lemma SubmitFails(s: State, e: nat, j: nat)
    requires JobInv(s) && e < |s.clients| && j < |s.conts|
    requires s.clients[e].CIdle? && Unclaimed(s, j) && s.remaining[j] == 0
    ensures Run(s, SubmitActions(e, j, true)) == AfterSubmit(s, e, j, true)
  {
    var p, last := StepClient(e, false, false), StepClient(e, true, false);
    var s1 := Next(s, StartSubmit(e, j));
    RunNext(s, StartSubmit(e, j), [p] + [last]);
    var s2 := Next(s1, p);
    RunNext(s1, p, [last]);
    assert [last] + [] == [last];
    RunNext(s2, last, []);
    assert s2.clients == s.clients[e := CClaim(j)];
    assert s.clients[e := CClaim(j)][e := CIdle] == s.clients;
    assert s.place[j := Pushed(ByClient(e))][j := Dropped] == s.place[j := Dropped];
  }

  /** n tries that each find the ring full. */
  function Retries(e: nat, n: nat): seq<Action> {
    if n == 0 then [] else [StepClient(e, false, true)] + ([StepClient(e, true, true)] + Retries(e, n - 1))
  }

  /** Every try counts the job once more, and nobody takes these counts back. */
  lemma {:induction false} RetriesLeak(s: State, e: nat, j: nat, n: nat)
    requires Shape(s) && e < |s.clients| && s.clients[e] == CCount(j) && j < |s.conts|
    ensures Run(s, Retries(e, n)) == s.(inflight := s.inflight + n, failed := s.failed + n)
    decreases n
  {
    if n > 0 {
      var p, q := StepClient(e, false, true), StepClient(e, true, true);
      RunNext(s, p, [q] + Retries(e, n - 1));
      var s1 := Next(s, p);
      RunNext(s1, q, Retries(e, n - 1));
      var s2 := Next(s1, q);
      assert s1.clients == s.clients[e := CClaim(j)] && s2.clients == s.clients;
      RetriesLeak(s2, e, j, n - 1);
    }
  }

  /** A submission that goes on trying: it begins, fails n times, and then succeeds. */
  function SafeSubmitActions(e: nat, j: nat, n: nat): seq<Action> {
    var p := StepClient(e, false, false);
    [StartSubmit(e, j)] + (Retries(e, n) + ([p] + ([p] + [p])))
  }

  lemma RetryRuns(s: State, e: nat, j: nat, n: nat)
    requires Shape(s) && e < |s.clients| && j < |s.conts| && s.clients[e] == CCount(j)
    requires forall i: nat | i < |s.queues[s.prio[j]]| && s.queues[s.prio[j]][i].pusher == ByClient(e) ::
      s.queues[s.prio[j]][i].ready
    ensures var p := StepClient(e, false, false);
      var s' := s.(inflight := s.inflight + n, failed := s.failed + n, clients := s.clients[e := CIdle]);
      Run(s, Retries(e, n) + ([p] + ([p] + [p]))) == AfterSubmit(s', e, j, false)
  {
    var p := StepClient(e, false, false);
    RunMore(s, Retries(e, n), [p] + ([p] + [p]));
    RetriesLeak(s, e, j, n);
    ClientPushesRun(s.(inflight := s.inflight + n, failed := s.failed + n), e, j);
  }

  lemma SafeSubmitRuns(s: State, e: nat, j: nat, n: nat)
    requires JobInv(s) && e < |s.clients| && j < |s.conts|
    requires s.clients[e].CIdle? && Unclaimed(s, j) && s.remaining[j] == 0
    ensures Run(s, SafeSubmitActions(e, j, n))
         == AfterSubmit(s.(inflight := s.inflight + n, failed := s.failed + n), e, j, false)
  {
    var p := StepClient(e, false, false);
    RunNext(s, StartSubmit(e, j), Retries(e, n) + ([p] + ([p] + [p])));
    NothingUnready(s, e, s.prio[j]);
    RetryRuns(Next(s, StartSubmit(e, j)), e, j, n);
    assert s.clients[e := CCount(j)][e := CIdle] == s.clients;
    assert s.place[j := Pushed(ByClient(e))][j := Queued] == s.place[j := Queued];
  }

  /** The job at the head of a queue, if it is ready to be taken. */
  function Head(queues: seq<seq<Entry>>, q: nat): Option<nat> {
    if q < |queues| && queues[q] != [] && queues[q][0].ready then Some(queues[q][0].job) else None
  }

  /** The job at the first head that is ready, from queue q on. */
  function FirstReady(queues: seq<seq<Entry>>, q: nat): Option<nat>
    decreases 3 - q
  {
    if q >= 3 then None else if Head(queues, q).Some? then Head(queues, q) else FirstReady(queues, q + 1)
  }

  /** Every counter is lower by the number of times the list names its job. */
  ghost predicate CountedDown(was: seq<int>, now: seq<int>, list: seq<nat>) {
    |now| == |was| && forall c: nat | c < |was| :: now[c] == was[c] - Count(list, c)
  }

  /**
   What a round comes to: the first ready job, by priority, is called, returns, is flagged done and counts its
   continuations down; with none ready the fiber returns exactly if shutdown was requested.
   */
  ghost predicate RoundDid(s: State, s': State, returned: bool) {
    match FirstReady(s.queues, 0)
    case Some(j) =>
      && !returned && j < |s.conts| == |s.started| == |s.ended| == |s.done| == |s'.place| && s'.place[j] == Finished
      && s'.started == s.started[j := s.started[j] + 1] && s'.ended == s.ended[j := s.ended[j] + 1]
      && s'.done == s.done[j := true] && CountedDown(s.remaining, s'.remaining, s.conts[j])
    case None => returned == s.shutdown && s' == s.(fibers := s'.fibers)
  }

  class FiberScheduler {
    const conts: seq<seq<nat>>
    const prio: seq<nat>
    var remaining: seq<int>
    var done: seq<bool>
    var queues: seq<seq<Entry>>
    var inflight: int
    var shutdown: bool

    // where every thread stands, and what has happened
    ghost var fibers: seq<Fiber>
    ghost var clients: seq<Client>
    ghost var waiters: seq<Waiter>
    ghost var lock: Lock
    ghost var place: seq<Place>
    ghost var processed: seq<nat>
    ghost var started: seq<nat>
    ghost var ended: seq<nat>
    ghost var failed: nat

    ghost function View(): State reads this {
      State(conts, prio, remaining, done, queues, inflight, shutdown, fibers, clients, waiters, lock,
            place, processed, started, ended, failed)
    }

    /** A scheduler for jobs that are wired up, with nothing submitted yet. */
    constructor (jobs: Jobs, prio: seq<nat>, fiberCount: nat, clientCount: nat, waiterCount: nat)
      requires jobs.Wired() && |prio| == |jobs.continuations| && forall j: nat | j < |prio| :: prio[j] < 3
      ensures Initial(View()) && conts == jobs.continuations && |fibers| == fiberCount
    {
      var n := |jobs.continuations|;
      conts, this.prio, remaining := jobs.continuations, prio, jobs.remaining;
      done, queues, inflight, shutdown := seq(n, _ => false), [[], [], []], 0, false;
      fibers, clients := seq(fiberCount, _ => Scan(0)), seq(clientCount, _ => CIdle);
      waiters := seq(waiterCount, _ => Away);
      lock, place, failed := Free, seq(n, _ => Waiting), 0;
      processed, started, ended := Zeros(n), Zeros(n), Zeros(n);
    }

    /**
     Submits a job nobody has in hand: client e counts it and queues it, or finds the ring full, and then the
     job stays counted although the push was given up.
     */
    method TrySubmitTask(e: nat, j: nat, full: bool) returns (ok: bool)
      requires JobInv(View()) && e < |clients| && j < |conts| && clients[e].CIdle? && Unclaimed(View(), j)
      modifies this`inflight, this`queues, this`place, this`failed
      ensures ok == (remaining[j] == 0 && !full)
      ensures remaining[j] != 0 ==> View() == old(View())
      ensures remaining[j] == 0 ==> inflight == old(inflight) + 1
      ensures remaining[j] == 0 ==> View() == Run(old(View()), SubmitActions(e, j, full))
      ensures ok ==> queues == old(queues)[prio[j] := old(queues)[prio[j]] + [Entry(j, ByClient(e), true)]]
      ensures !ok ==> queues == old(queues)
    {
      if remaining[j] != 0 {
        return false;
      }
      ghost var before := View();
      inflight := inflight + 1;
      if full {
        SubmitFails(before, e, j);
        place, failed := place[j := Dropped], failed + 1;
        return false;
      }
      SubmitRuns(before, e, j);
      queues := queues[prio[j] := queues[prio[j]] + [Entry(j, ByClient(e), true)]];
      place := place[j := Queued];
      return true;
    }

    /** Goes on trying until the push succeeds; the ring is found full `fullTries` times before that. */
    method SafeSubmitTask(e: nat, j: nat, fullTries: nat)
      requires JobInv(View()) && e < |clients| && j < |conts| && clients[e].CIdle? && Unclaimed(View(), j)
      modifies this`inflight, this`queues, this`place, this`failed
      ensures remaining[j] != 0 ==> View() == old(View())
      ensures remaining[j] == 0 ==>
        && queues == old(queues)[prio[j] := old(queues)[prio[j]] + [Entry(j, ByClient(e), true)]]
        && inflight == old(inflight) + fullTries + 1
        && View() == Run(old(View()), SafeSubmitActions(e, j, fullTries))
    {
      if remaining[j] != 0 {
        return;
      }
      SafeSubmitRuns(View(), e, j, fullTries);
      var tries := 0;
      while tries < fullTries
        invariant tries <= fullTries && inflight == old(inflight) + tries && failed == old(failed) + tries
        invariant queues == old(queues) && place == old(place)
      {
        inflight, failed := inflight + 1, failed + 1;
        tries := tries + 1;
      }
      inflight := inflight + 1;
      queues := queues[prio[j] := queues[prio[j]] + [Entry(j, ByClient(e), true)]];
      place := place[j := Queued];
    }

    method Shutdown()
      requires Shape(View())
      modifies this`shutdown
      ensures View() == Next(old(View()), RequestShutdown)
    {
      shutdown := true;
    }

    // ---------------------------------------------------------------- one access each

    /** Fiber f has made n steps of its trace, and nobody else any. */
    ghost predicate Ran(trace: nat -> State, f: nat, rings: nat -> bool, n: nat) reads this {
      && Traces(trace, f, rings) && View() == trace(n) && f < |fibers|
      && |remaining| == |done| == |place| == |started| == |ended| == |conts|
    }

    /** A pop from one queue. */
    method TryPop(f: nat, q: nat, ghost trace: nat -> State, rings: nat -> bool, n: nat) returns (job: Option<nat>)
      requires Ran(trace, f, rings, n) && q < 3 && fibers[f] == Scan(q)
      modifies this`queues, this`fibers, this`place
      ensures Ran(trace, f, rings, n + 1)
      ensures job == Head(old(queues), q)
      ensures job.Some? ==> fibers[f] == Holding(job.value) && job.value < |conts|
      ensures job.None? ==> queues == old(queues) && place == old(place)
      ensures job.None? ==> fibers[f] == if q < 2 then Scan(q + 1) else CheckShutdown
    {
      StepMore(trace, f, rings, n);
      ghost var s := View();
      var queue := queues[q];
      if queue != [] && queue[0].ready {
        job := Some(queue[0].job);
        queues := queues[q := queue[1..]];
        fibers := fibers[f := Holding(queue[0].job)];
        place := place[queue[0].job := OnFiber(f)];
      } else {
        job := None;
        fibers := fibers[f := if q < 2 then Scan(q + 1) else CheckShutdown];
      }
      assert View() == FiberStep(s, f, rings(n));
    }

    method LookAtShutdown(f: nat, ghost trace: nat -> State, rings: nat -> bool, n: nat)
      requires Ran(trace, f, rings, n) && fibers[f] == CheckShutdown
      modifies this`fibers
      ensures Ran(trace, f, rings, n + 1) && fibers[f] == if shutdown then Returned else Scan(0)
    {
      StepMore(trace, f, rings, n);
      ghost var s := View();
      fibers := fibers[f := if shutdown then Returned else Scan(0)];
      assert View() == FiberStep(s, f, rings(n));
    }

    /** The job's function is called, and returns, and the done flag is set. */
    method CallFunction(f: nat, j: nat, ghost trace: nat -> State, rings: nat -> bool, n: nat)
      requires Ran(trace, f, rings, n) && fibers[f] == Holding(j) && j < |conts|
      modifies this`fibers, this`started
      ensures Ran(trace, f, rings, n + 1) && fibers[f] == InFn(j)
      ensures started == old(started)[j := old(started)[j] + 1]
    {
      StepMore(trace, f, rings, n);
      ghost var s := View();
      started := started[j := started[j] + 1];
      fibers := fibers[f := InFn(j)];
      assert View() == FiberStep(s, f, rings(n));
    }

    method FunctionReturns(f: nat, j: nat, ghost trace: nat -> State, rings: nat -> bool, n: nat)
      requires Ran(trace, f, rings, n) && fibers[f] == InFn(j) && j < |conts|
      modifies this`fibers, this`ended
      ensures Ran(trace, f, rings, n + 1) && fibers[f] == MarkDone(j)
      ensures ended == old(ended)[j := old(ended)[j] + 1]
    {
      StepMore(trace, f, rings, n);
      ghost var s := View();
      ended := ended[j := ended[j] + 1];
      fibers := fibers[f := MarkDone(j)];
      assert View() == FiberStep(s, f, rings(n));
    }

    method SetDone(f: nat, j: nat, ghost trace: nat -> State, rings: nat -> bool, n: nat)
      requires Ran(trace, f, rings, n) && fibers[f] == MarkDone(j) && j < |conts|
      modifies this`fibers, this`done
      ensures Ran(trace, f, rings, n + 1) && fibers[f] == Continue(j, 0)
      ensures done == old(done)[j := true]
    {
      StepMore(trace, f, rings, n);
      ghost var s := View();
      done := done[j := true];
      fibers := fibers[f := Continue(j, 0)];
      assert View() == FiberStep(s, f, rings(n));
    }

    /** Counts continuation k of job j down; the old value tells whether it became ready. */
    method CountDown(f: nat, j: nat, k: nat, ghost trace: nat -> State, rings: nat -> bool, n: nat) returns (prev: int)
      requires Ran(trace, f, rings, n) && j < |conts| && k < |conts[j]| && fibers[f] == Continue(j, k)
      modifies this`remaining, this`processed, this`fibers, this`place
      ensures Ran(trace, f, rings, n + 1)
      ensures fibers[f] == if prev == 1 then PushCount(j, k) else Continue(j, k + 1)
      ensures conts[j][k] < |conts|
      ensures remaining == old(remaining)[conts[j][k] := prev - 1] && prev == old(remaining)[conts[j][k]]
    {
      StepMore(trace, f, rings, n);
      ghost var s := View();
      var c := conts[j][k];
      prev := remaining[c];
      remaining := remaining[c := prev - 1];
      processed := processed[j := k + 1];
      if prev == 1 {
        fibers := fibers[f := PushCount(j, k)];
        place := place[c := Pushed(ByFiber(f))];
      } else {
        fibers := fibers[f := Continue(j, k + 1)];
      }
      assert View() == FiberStep(s, f, rings(n));
    }

    method CountInflight(f: nat, j: nat, k: nat, ghost trace: nat -> State, rings: nat -> bool, n: nat)
      requires Ran(trace, f, rings, n) && j < |conts| && k < |conts[j]| && fibers[f] == PushCount(j, k)
      modifies this`inflight, this`fibers
      ensures Ran(trace, f, rings, n + 1) && fibers[f] == PushClaim(j, k)
      ensures inflight == old(inflight) + 1
    {
      StepMore(trace, f, rings, n);
      ghost var s := View();
      inflight := inflight + 1;
      fibers := fibers[f := PushClaim(j, k)];
      assert View() == FiberStep(s, f, rings(n));
    }

    /** Claims a place in the queue, or finds the ring full. */
    method ClaimPlace(f: nat, j: nat, k: nat, ghost trace: nat -> State, rings: nat -> bool, n: nat)
      requires Ran(trace, f, rings, n) && j < |conts| && k < |conts[j]| && fibers[f] == PushClaim(j, k)
      modifies this`queues, this`fibers, this`place, this`failed
      ensures Ran(trace, f, rings, n + 1)
      ensures fibers[f] == if rings(n) then Continue(j, k + 1) else PushPublish(j, k)
      ensures failed == old(failed) + if rings(n) then 1 else 0
    {
      StepMore(trace, f, rings, n);
      ghost var s := View();
      var c := conts[j][k];
      if rings(n) {
        fibers := fibers[f := Continue(j, k + 1)];
        place, failed := place[c := Dropped], failed + 1;
      } else {
        queues := queues[prio[c] := queues[prio[c]] + [Entry(c, ByFiber(f), false)]];
        fibers := fibers[f := PushPublish(j, k)];
      }
      assert View() == FiberStep(s, f, rings(n));
    }

    method PublishPlace(f: nat, j: nat, k: nat, ghost trace: nat -> State, rings: nat -> bool, n: nat)
      requires Ran(trace, f, rings, n) && j < |conts| && k < |conts[j]| && fibers[f] == PushPublish(j, k)
      modifies this`queues, this`fibers, this`place
      ensures Ran(trace, f, rings, n + 1) && fibers[f] == Continue(j, k + 1)
    {
      StepMore(trace, f, rings, n);
      ghost var s := View();
      var c := conts[j][k];
      queues := queues[prio[c] := Ready(queues[prio[c]], ByFiber(f))];
      place := place[c := Queued];
      fibers := fibers[f := Continue(j, k + 1)];
      assert View() == FiberStep(s, f, rings(n));
    }

    /** Takes the finished job out of the count; whoever brings it to zero notifies. */
    method CountOut(f: nat, j: nat, ghost trace: nat -> State, rings: nat -> bool, n: nat) returns (prev: int)
      requires Ran(trace, f, rings, n) && j < |conts| && fibers[f] == Continue(j, |conts[j]|)
      modifies this`inflight, this`fibers, this`place
      ensures Ran(trace, f, rings, n + 1)
      ensures fibers[f] == (if prev == 1 then WantNotify else Scan(0)) && place[j] == Finished
      ensures prev == old(inflight) && inflight == prev - 1
    {
      StepMore(trace, f, rings, n);
      ghost var s := View();
      prev := inflight;
      inflight := inflight - 1;
      place := place[j := Finished];
      fibers := fibers[f := if prev == 1 then WantNotify else Scan(0)];
      assert View() == FiberStep(s, f, rings(n));
    }

    method LockForNotify(f: nat, ghost trace: nat -> State, rings: nat -> bool, n: nat)
      requires Ran(trace, f, rings, n) && fibers[f] == WantNotify && lock.Free?
      modifies this`fibers, this`lock
      ensures Ran(trace, f, rings, n + 1) && fibers[f] == Notify
    {
      StepMore(trace, f, rings, n);
      ghost var s := View();
      fibers, lock := fibers[f := Notify], FiberHolds(f);
      assert View() == FiberStep(s, f, rings(n));
    }

    /** Wakes every blocked waiter and unlocks. */
    method NotifyWaiters(f: nat, ghost trace: nat -> State, rings: nat -> bool, n: nat)
      requires Ran(trace, f, rings, n) && fibers[f] == Notify
      modifies this`fibers, this`waiters, this`lock
      ensures Ran(trace, f, rings, n + 1) && fibers[f] == Scan(0)
      ensures lock.Free? && waiters == WakeAll(old(waiters))
    {
      StepMore(trace, f, rings, n);
      ghost var s := View();
      fibers, lock, waiters := fibers[f := Scan(0)], Free, WakeAll(waiters);
      assert View() == FiberStep(s, f, rings(n));
    }

    // ---------------------------------------------------------------- the loops

    /** Tries the three queues in order of priority. */
    method PopTask(f: nat, ghost trace: nat -> State, rings: nat -> bool) returns (job: Option<nat>, n: nat)
      requires Ran(trace, f, rings, 0) && fibers[f] == Scan(0)
      modifies this`queues, this`fibers, this`place
      ensures Ran(trace, f, rings, n)
      ensures job == FirstReady(old(queues), 0)
      ensures job.Some? ==> fibers[f] == Holding(job.value) && job.value < |conts|
      ensures job.None? ==> fibers[f] == CheckShutdown && queues == old(queues) && place == old(place)
    {
      n := 0;
      while n < 3
        invariant n <= 3 && Ran(trace, f, rings, n) && FirstReady(queues, n) == FirstReady(old(queues), 0)
        invariant queues == old(queues) && place == old(place)
        invariant fibers[f] == if n < 3 then Scan(n) else CheckShutdown
      {
        job := TryPop(f, n, trace, rings, n);
        n := n + 1;
        if job.Some? {
          return;
        }
      }
      job := None;
    }

    /** Pushes a continuation that became ready: counts it, claims a place, makes the place ready. */
    method PushTask(f: nat, j: nat, k: nat, ghost trace: nat -> State, rings: nat -> bool, n0: nat) returns (n: nat)
      requires Ran(trace, f, rings, n0) && j < |conts| && k < |conts[j]| && fibers[f] == PushCount(j, k)
      modifies this`inflight, this`queues, this`fibers, this`place, this`failed
      ensures Ran(trace, f, rings, n) && fibers[f] == Continue(j, k + 1)
      ensures inflight == old(inflight) + 1 && failed == old(failed) + if rings(n0 + 1) then 1 else 0
    {
      CountInflight(f, j, k, trace, rings, n0);
      ClaimPlace(f, j, k, trace, rings, n0 + 1);
      n := n0 + 2;
      if !rings(n0 + 1) {
        PublishPlace(f, j, k, trace, rings, n);
        n := n + 1;
      }
    }

    /** Counts continuation k down, and pushes it if it became ready. */
    method TriggerContinuation(f: nat, j: nat, k: nat, ghost trace: nat -> State, rings: nat -> bool, n0: nat)
      returns (n: nat)
      requires Ran(trace, f, rings, n0) && j < |conts| && k < |conts[j]| && fibers[f] == Continue(j, k)
      modifies this`remaining, this`processed, this`inflight, this`queues, this`fibers, this`place, this`failed
      ensures Ran(trace, f, rings, n) && fibers[f] == Continue(j, k + 1)
      ensures conts[j][k] < |conts|
      ensures remaining == old(remaining)[conts[j][k] := old(remaining)[conts[j][k]] - 1]
    {
      var prev := CountDown(f, j, k, trace, rings, n0);
      n := n0 + 1;
      if prev == 1 {
        n := PushTask(f, j, k, trace, rings, n);
      }
    }

    /** Counts down every continuation of the finished job, in order, and pushes those that became ready. */
    method TriggerContinuations(f: nat, j: nat, ghost trace: nat -> State, rings: nat -> bool, n0: nat) returns (n: nat)
      requires Ran(trace, f, rings, n0) && j < |conts| && fibers[f] == Continue(j, 0)
      modifies this`remaining, this`processed, this`inflight, this`queues, this`fibers, this`place, this`failed
      ensures Ran(trace, f, rings, n) && fibers[f] == Continue(j, |conts[j]|)
      ensures CountedDown(old(remaining), remaining, conts[j])
    {
      n := n0;
      var k := 0;
      while k < |conts[j]|
        invariant k <= |conts[j]| && Ran(trace, f, rings, n) && fibers[f] == Continue(j, k)
        invariant CountedDown(old(remaining), remaining, conts[j][..k])
      {
        ghost var before := remaining;
        n := TriggerContinuation(f, j, k, trace, rings, n);
        CountOneDown(old(remaining), before, conts[j], k);
        k := k + 1;
      }
      assert conts[j][..k] == conts[j];
    }

    /** Calls the job's function and sets its done flag. */
    method RunFunction(f: nat, j: nat, ghost trace: nat -> State, rings: nat -> bool, n: nat)
      requires Ran(trace, f, rings, n) && j < |conts| && fibers[f] == Holding(j)
      modifies this`fibers, this`started, this`ended, this`done
      ensures Ran(trace, f, rings, n + 3) && fibers[f] == Continue(j, 0)
      ensures started == old(started)[j := old(started)[j] + 1] && ended == old(ended)[j := old(ended)[j] + 1]
      ensures done == old(done)[j := true]
    {
      CallFunction(f, j, trace, rings, n);
      FunctionReturns(f, j, trace, rings, n + 1);
      SetDone(f, j, trace, rings, n + 2);
    }

    /** The end of the round. */
    method FinishJob(f: nat, j: nat, ghost trace: nat -> State, rings: nat -> bool, n0: nat) returns (n: nat)
      requires Ran(trace, f, rings, n0) && j < |conts| && fibers[f] == Continue(j, |conts[j]|) && lock.Free?
      modifies this`inflight, this`fibers, this`place, this`lock, this`waiters
      ensures Ran(trace, f, rings, n) && fibers[f] == Scan(0) && place[j] == Finished
      ensures inflight == old(inflight) - 1 && lock.Free?
      ensures waiters == if old(inflight) == 1 then WakeAll(old(waiters)) else old(waiters)
    {
      var prev := CountOut(f, j, trace, rings, n0);
      n := n0 + 1;
      if prev == 1 {
        LockForNotify(f, trace, rings, n);
        NotifyWaiters(f, trace, rings, n + 1);
        n := n + 2;
      }
    }

    method RunJob(f: nat, j: nat, ghost trace: nat -> State, rings: nat -> bool, n0: nat) returns (n: nat)
      requires Ran(trace, f, rings, n0) && j < |conts| && fibers[f] == Holding(j) && lock.Free?
      modifies this`remaining, this`done, this`queues, this`inflight, this`fibers, this`waiters, this`lock,
        this`place, this`processed, this`started, this`ended, this`failed
      ensures Ran(trace, f, rings, n) && fibers[f] == Scan(0) && place[j] == Finished
      ensures started == old(started)[j := old(started)[j] + 1] && ended == old(ended)[j := old(ended)[j] + 1]
      ensures done == old(done)[j := true] && CountedDown(old(remaining), remaining, conts[j])
    {
      RunFunction(f, j, trace, rings, n0);
      n := TriggerContinuations(f, j, trace, rings, n0 + 3);
      n := FinishJob(f, j, trace, rings, n);
    }

    method RoundBody(f: nat, ghost trace: nat -> State, rings: nat -> bool) returns (returned: bool, n: nat)
      requires Ran(trace, f, rings, 0) && fibers[f] == Scan(0) && lock.Free?
      modifies this`remaining, this`done, this`queues, this`inflight, this`fibers, this`waiters, this`lock,
        this`place, this`processed, this`started, this`ended, this`failed
      ensures Ran(trace, f, rings, n) && fibers[f] == if returned then Returned else Scan(0)
      ensures RoundDid(old(View()), View(), returned)
    {
      var job;
      job, n := PopTask(f, trace, rings);
      if job.Some? {
        n := RunJob(f, job.value, trace, rings, n);
        returned := false;
      } else {
        LookAtShutdown(f, trace, rings, n);
        n := n + 1;
        returned := shutdown;
      }
    }

    /**
     One round of the fiber loop, while nobody else moves: the first ready job, by priority, is popped and seen
     through to its end, and if there is none the fiber returns exactly if shutdown was requested. It is a run
     of this fiber's steps, and keeps what every run keeps.
     */
    method Round(f: nat, rings: nat -> bool) returns (returned: bool, n: nat)
      requires Shape(View()) && f < |fibers| && fibers[f] == Scan(0) && lock.Free?
      modifies this`remaining, this`done, this`queues, this`inflight, this`fibers, this`waiters, this`lock,
        this`place, this`processed, this`started, this`ended, this`failed
      ensures Shape(View()) && f < |fibers| && View() == Run(old(View()), Steps(f, rings, n))
      ensures fibers[f] == if returned then Returned else Scan(0)
      ensures RoundDid(old(View()), View(), returned)
      ensures old(JobInv(View())) ==> JobInv(View())
    {
      ghost var start := View();
      ghost var trace := TraceFrom(start, f, rings);
      returned, n := RoundBody(f, trace, rings);
      RoundEnds(start, f, rings, n);
    }
  }

  ghost function TraceFrom(s: State, f: nat, rings: nat -> bool): (trace: nat -> State)
    requires Shape(s) && f < |s.fibers|
    ensures Traces(trace, f, rings) && trace(0) == s
  {
    (i: nat) => Run(s, Steps(f, rings, i))
  }

  lemma RoundEnds(s: State, f: nat, rings: nat -> bool, n: nat)
    requires Shape(s) && f < |s.fibers|
    ensures var s' := TraceFrom(s, f, rings)(n);
      && s' == Run(s, Steps(f, rings, n)) && Shape(s') && f < |s'.fibers| && (JobInv(s) ==> JobInv(s'))
  {
    RunShape(s, Steps(f, rings, n));
    if JobInv(s) {
      RunInv(s, Steps(f, rings, n));
    }
  }

  lemma CountOneDown(was: seq<int>, now: seq<int>, list: seq<nat>, k: nat)
    requires k < |list| && list[k] < |was| && CountedDown(was, now, list[..k])
    ensures CountedDown(was, now[list[k] := now[list[k]] - 1], list[..k + 1])
  {
    assert list[..k + 1] == list[..k] + [list[k]];
    forall c: nat ensures Count(list[..k + 1], c) == Count(list[..k], c) + if list[k] == c then 1 else 0 {
      CountAppend(list[..k], c, list[k]);
    }
  }
}
