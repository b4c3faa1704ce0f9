/**
 Waiting for one job, one atomic access per step: the done flag, the lock and the condition variable of a job,
 the fiber that finishes it, the threads and fibers that wait for it, and a reset.

 A fiber that waits polls the flag. A thread that waits looks at the flag once without the lock, and then sleeps
 on the condition variable. A reset raises the flag for an instant, wakes everybody, and lowers it again.
 */
module JobWait {

  datatype Waiter =
    | Entering                // about to look at the flag for the first time
    | Polling                 // a fiber, about to look again
    | WantLock
    | Checking                // holds the lock, about to look at the flag
    | Blocking                // found it down, about to sleep and give up the lock
    | Asleep
    | Home                    // the wait has returned

  datatype Finisher =
    | Working                 // inside the job's function
    | FinishWants             // the function returned, about to take the lock
    | FinishHolds             // about to raise the flag
    | FinishSet               // about to notify and unlock
    | FinishDone

  datatype Resetter =
    | NoReset
    | ResetWants
    | ResetHolds              // about to raise the flag
    | ResetSet                // about to notify
    | ResetNotified           // about to lower the flag and unlock

  datatype Lock = Free | ByFinisher | ByResetter | ByWaiter(w: nat)

  datatype State = State(
    done: bool,
    lock: Lock,
    finisher: Finisher,
    resetter: Resetter,
    onFiber: seq<bool>,       // whether each waiter is a fiber
    waiters: seq<Waiter>,
    ended: bool)              // whether the job's function has returned (history)

  datatype Action = StepFinisher | StartReset | StepReset | StepWaiter(w: nat)

  ghost predicate Initial(s: State) {
    && !s.done && s.lock.Free? && s.finisher.Working? && s.resetter.NoReset? && !s.ended
    && |s.onFiber| == |s.waiters| && forall w: nat | w < |s.waiters| :: s.waiters[w].Entering?
  }

  function WakeAll(waiters: seq<Waiter>): seq<Waiter> {
    seq(|waiters|, i requires 0 <= i < |waiters| => if waiters[i].Asleep? then WantLock else waiters[i])
  }

  function FinisherStep(s: State): State {
    match s.finisher
    case Working => s.(finisher := FinishWants, ended := true)
    case FinishWants => if s.lock.Free? then s.(finisher := FinishHolds, lock := ByFinisher) else s
    case FinishHolds => s.(finisher := FinishSet, done := true)
    case FinishSet => s.(finisher := FinishDone, lock := Free, waiters := WakeAll(s.waiters))
    case FinishDone => s
  }

  function ResetStep(s: State): State {
    match s.resetter
    case NoReset => s
    case ResetWants => if s.lock.Free? then s.(resetter := ResetHolds, lock := ByResetter) else s
    case ResetHolds => s.(resetter := ResetSet, done := true)
    case ResetSet => s.(resetter := ResetNotified, waiters := WakeAll(s.waiters))
    case ResetNotified => s.(resetter := NoReset, lock := Free, done := false)
  }

  /** A step while asleep is a spurious wake-up. */
  function WaiterStep(s: State, w: nat): State
    requires w < |s.waiters| && w < |s.onFiber|
  {
    match s.waiters[w]
    case Entering =>
      s.(waiters := s.waiters[w := if s.done then Home else if s.onFiber[w] then Polling else WantLock])
    case Polling => if s.done then s.(waiters := s.waiters[w := Home]) else s
    case WantLock => if s.lock.Free? then s.(waiters := s.waiters[w := Checking], lock := ByWaiter(w)) else s
    case Checking =>
      if s.done then s.(waiters := s.waiters[w := Home], lock := Free) else s.(waiters := s.waiters[w := Blocking])
    case Blocking => s.(waiters := s.waiters[w := Asleep], lock := Free)
    case Asleep => s.(waiters := s.waiters[w := WantLock])
    case Home => s
  }

  /** What an action does; an action that is not enabled changes nothing. */
  function Next(s: State, a: Action): State {
    match a
    case StepFinisher => FinisherStep(s)
    case StartReset => if s.resetter.NoReset? then s.(resetter := ResetWants) else s
    case StepReset => ResetStep(s)
    case StepWaiter(w) => if w < |s.waiters| && w < |s.onFiber| then WaiterStep(s, w) else s
  }

  function Run(s: State, schedule: seq<Action>): State
    decreases |schedule|
  {
    if schedule == [] then s else Run(Next(s, schedule[0]), schedule[1..])
  }

  // ---------------------------------------------------------------- no lost wake-up

  predicate Inside(waiter: Waiter) {
    waiter.Checking? || waiter.Blocking?
  }

  /** The flag has just been raised and the notification is still to come. */
  predicate NotifierPending(s: State) {
    s.finisher.FinishSet? || s.resetter.ResetSet?
  }

  ghost predicate WaiterOk(s: State, w: nat)
    requires w < |s.waiters|
  {
    && (Inside(s.waiters[w]) <==> s.lock == ByWaiter(w))
    && (s.waiters[w].Blocking? ==> !s.done)
    && (s.waiters[w].Asleep? && s.done ==> NotifierPending(s))
  }

  /** The lock is held by whoever is inside, and nobody sleeps past a raised flag without a notifier. */
  ghost predicate Inv(s: State) {
    && |s.onFiber| == |s.waiters|
    && (s.finisher.FinishHolds? || s.finisher.FinishSet? <==> s.lock.ByFinisher?)
    && (s.resetter.ResetHolds? || s.resetter.ResetSet? || s.resetter.ResetNotified? <==> s.lock.ByResetter?)
    && (s.lock.ByWaiter? ==> s.lock.w < |s.waiters|)
    && (s.finisher.FinishSet? || s.resetter.ResetSet? || s.resetter.ResetNotified? ==> s.done)
    && (forall w: nat | w < |s.waiters| :: WaiterOk(s, w))
    && (s.resetter.ResetNotified? ==> forall w: nat | w < |s.waiters| :: !s.waiters[w].Asleep?)
  }

  lemma NextInv(s: State, a: Action)
    requires Inv(s)
    ensures Inv(Next(s, a))
  {
    var s' := Next(s, a);
    assert a.StepWaiter? && a.w < |s.waiters| ==> WaiterOk(s, a.w);
    forall w: nat | w < |s'.waiters| ensures WaiterOk(s', w) {
      assert WaiterOk(s, w);
    }
  }

  lemma {:induction false} RunInv(s: State, schedule: seq<Action>)
    requires Inv(s)
    ensures Inv(Run(s, schedule))
    decreases |schedule|
  {
    if schedule != [] {
      NextInv(s, schedule[0]);
      RunInv(Next(s, schedule[0]), schedule[1..]);
    }
  }

  /**
   In every run, whatever resets there are, a thread asleep while the flag is up has a notification coming from
   whoever holds the lock, and that notification puts it back on its feet.
   */
  lemma NoLostWakeup(start: State, schedule: seq<Action>, w: nat)
    requires Initial(start)
    ensures var s := Run(start, schedule);
      w < |s.waiters| && s.waiters[w].Asleep? && s.done ==>
        || (s.finisher.FinishSet? && s.lock.ByFinisher? && FinisherStep(s).waiters[w].WantLock?)
        || (s.resetter.ResetSet? && s.lock.ByResetter? && ResetStep(s).waiters[w].WantLock?)
  {
    RunInv(start, schedule);
    var s := Run(start, schedule);
    if w < |s.waiters| && s.waiters[w].Asleep? && s.done {
      assert WaiterOk(s, w);
    }
  }

  // ---------------------------------------------------------------- a fiber polls, a thread sleeps

  /** Where a fiber can stand while it waits, and where a thread can. */
  ghost predicate KindOk(s: State, w: nat)
    requires w < |s.waiters| == |s.onFiber|
  {
    if s.onFiber[w] then s.waiters[w].Entering? || s.waiters[w].Polling? || s.waiters[w].Home?
    else !s.waiters[w].Polling?
  }

  lemma {:induction false} RunKinds(s: State, schedule: seq<Action>)
    requires |s.waiters| == |s.onFiber| && forall w: nat | w < |s.waiters| :: KindOk(s, w)
    ensures var s' := Run(s, schedule);
      && s'.onFiber == s.onFiber && |s'.waiters| == |s.waiters|
      && forall w: nat | w < |s'.waiters| :: KindOk(s', w)
    decreases |schedule|
  {
    if schedule != [] {
      var s1 := Next(s, schedule[0]);
      forall w: nat | w < |s1.waiters| ensures KindOk(s1, w) {
        assert KindOk(s, w);
      }
      RunKinds(s1, schedule[1..]);
    }
  }

  /**
   In every run, whatever resets there are, a fiber that waits neither takes nor wants the lock and never sleeps, so
   it never stops the thread it runs on; a thread that waits never polls.
   */
  lemma FibersOnlyPoll(start: State, schedule: seq<Action>, w: nat)
    requires Initial(start) && w < |start.waiters|
    ensures var s := Run(start, schedule);
      && w < |s.waiters| == |s.onFiber| == |start.onFiber|
      && (start.onFiber[w] ==>
            && s.lock != ByWaiter(w)
            && (s.waiters[w].Entering? || s.waiters[w].Polling? || s.waiters[w].Home?))
      && (!start.onFiber[w] ==> !s.waiters[w].Polling?)
  {
    RunKinds(start, schedule);
    RunInv(start, schedule);
    assert WaiterOk(Run(start, schedule), w);
    assert KindOk(Run(start, schedule), w);
  }

  /**
   Whoever looks at the flag goes home exactly if it is up. A fiber that finds it down looks again at its next turn,
   and nobody else is moved by a look, so polling changes nothing.
   */
  lemma LookDecides(s: State, w: nat)
    requires w < |s.waiters| == |s.onFiber|
    requires s.waiters[w].Entering? || s.waiters[w].Polling? || s.waiters[w].Checking?
    ensures var s' := Next(s, StepWaiter(w));
      && |s'.waiters| == |s.waiters|
      && (s'.waiters[w].Home? <==> s.done)
      && (s.onFiber[w] && !s.done && !s.waiters[w].Checking? ==> s'.waiters[w].Polling?)
      && (forall u: nat | u < |s.waiters| && u != w :: s'.waiters[u] == s.waiters[u])
      && s'.done == s.done && s'.finisher == s.finisher && s'.resetter == s.resetter
  {
  }

  // ---------------------------------------------------------------- a wait returns after the job, without resets

  predicate WithoutReset(schedule: seq<Action>) {
    forall a | a in schedule :: !a.StartReset?
  }

  /** The flag and every returned wait tell the truth. */
  ghost predicate Honest(s: State) {
    && s.resetter.NoReset? && (s.ended <==> !s.finisher.Working?) && (s.done ==> s.ended)
    && (s.finisher.FinishDone? ==> s.done)
    && forall w: nat | w < |s.waiters| && s.waiters[w].Home? :: s.ended
  }

  lemma {:induction false} RunHonest(s: State, schedule: seq<Action>)
    requires Inv(s) && Honest(s) && WithoutReset(schedule)
    ensures Honest(Run(s, schedule))
    decreases |schedule|
  {
    if schedule != [] {
      assert schedule[0] in schedule;
      NextInv(s, schedule[0]);
      RunHonest(Next(s, schedule[0]), schedule[1..]);
    }
  }

  /** Without resets a wait returns only after the job's function has. */
  lemma ReturnsAfterJob(start: State, schedule: seq<Action>, w: nat)
    requires Initial(start) && WithoutReset(schedule)
    ensures var s := Run(start, schedule); w < |s.waiters| && s.waiters[w].Home? ==> s.ended
  {
    RunHonest(start, schedule);
  }

  // ---------------------------------------------------------------- exactly when a wait can return

  /** How far the finisher, the lock and waiter w are from the wait's return. */
  function FinisherRank(pc: Finisher): nat {
    match pc
    case Working => 4
    case FinishWants => 3
    case FinishHolds => 2
    case FinishSet => 1
    case FinishDone => 0
  }

  function HolderRank(s: State): nat {
    if s.lock.ByWaiter? && s.lock.w < |s.waiters| then
      if s.waiters[s.lock.w].Checking? then 2 else 1
    else 0
  }

  function WaiterRank(pc: Waiter): nat {
    match pc
    case Entering => 4
    case Asleep => 3
    case WantLock => 2
    case Polling => 1
    case Checking => 1
    case Blocking => 1
    case Home => 0
  }

  /** The next step on waiter w's way home: the lock holder's, or else the finisher's, or else its own. */
  function Choice(s: State, w: nat): Action {
    if s.lock.ByWaiter? then StepWaiter(s.lock.w)
    else if !s.finisher.FinishDone? then StepFinisher
    else StepWaiter(w)
  }

  /** How near the waiter is, once that is all that is left. */
  function LastRank(s: State, w: nat): nat
    requires w < |s.waiters|
  {
    if s.finisher.FinishDone? then WaiterRank(s.waiters[w]) else 0
  }

  lemma ChoiceProgresses(s: State, w: nat)
    requires Inv(s) && s.resetter.NoReset? && w < |s.waiters| && !s.waiters[w].Home?
    requires s.done || !s.finisher.FinishDone?
    ensures var s' := Next(s, Choice(s, w));
      && s'.resetter.NoReset? && |s'.waiters| == |s.waiters| && (s'.done || !s'.finisher.FinishDone?)
      && (FinisherRank(s'.finisher) < FinisherRank(s.finisher)
          || (s'.finisher == s.finisher
              && (LastRank(s', w) < LastRank(s, w)
                  || (LastRank(s', w) == LastRank(s, w) && HolderRank(s') < HolderRank(s)))))
  {
    assert WaiterOk(s, w);
    if s.lock.ByWaiter? {
      assert WaiterOk(s, s.lock.w);
    }
  }

  lemma {:induction false} ComesHome(s: State, w: nat) returns (schedule: seq<Action>)
    requires Inv(s) && s.resetter.NoReset? && w < |s.waiters|
    requires s.waiters[w].Home? || s.done || !s.finisher.FinishDone?
    ensures WithoutReset(schedule)
    ensures w < |Run(s, schedule).waiters| && Run(s, schedule).waiters[w].Home?
    decreases FinisherRank(s.finisher), LastRank(s, w), HolderRank(s)
  {
    if s.waiters[w].Home? {
      schedule := [];
    } else {
      var a := Choice(s, w);
      ChoiceProgresses(s, w);
      NextInv(s, a);
      var rest := ComesHome(Next(s, a), w);
      schedule := [a] + rest;
      assert schedule[1..] == rest;
    }
  }

  /** A wait can still return, if no reset begins. */
  ghost predicate CanReturn(s: State, w: nat) {
    exists schedule: seq<Action> :: WithoutReset(schedule) && IsHome(Run(s, schedule), w)
  }

  predicate IsHome(s: State, w: nat) {
    w < |s.waiters| && s.waiters[w].Home?
  }

  lemma {:induction false} StaysDown(s: State, schedule: seq<Action>, w: nat)
    requires Inv(s) && s.resetter.NoReset? && s.finisher.FinishDone? && !s.done && !IsHome(s, w)
    requires WithoutReset(schedule)
    ensures !IsHome(Run(s, schedule), w)
    decreases |schedule|
  {
    if schedule != [] {
      assert schedule[0] in schedule;
      NextInv(s, schedule[0]);
      StaysDown(Next(s, schedule[0]), schedule[1..], w);
    }
  }

  /**
   Exactly when a wait can return, in any state with no reset under way: it has, or the flag is up, or the
   finisher has not finished yet. What is left out is a finished job whose flag a reset has lowered.
   */
  lemma CanReturnExactly(s: State, w: nat)
    requires Inv(s) && s.resetter.NoReset? && w < |s.waiters|
    ensures CanReturn(s, w) <==> s.waiters[w].Home? || s.done || !s.finisher.FinishDone?
  {
    if s.waiters[w].Home? || s.done || !s.finisher.FinishDone? {
      var schedule := ComesHome(s, w);
    } else if CanReturn(s, w) {
      var schedule: seq<Action> :| WithoutReset(schedule) && IsHome(Run(s, schedule), w);
      StaysDown(s, schedule, w);
    }
  }

  // ---------------------------------------------------------------- what a reset does to those who wait

  /** One thread waits for the job. */
  const ALONE := State(false, Free, Working, NoReset, [false], [Entering], false)

  lemma RunOne(s: State, schedule: seq<Action>, k: nat)
    requires k < |schedule|
    ensures Run(s, schedule[k..]) == Run(Next(s, schedule[k]), schedule[k + 1..])
  {
    assert schedule[k..][1..] == schedule[k + 1..];
  }

  lemma RunFour(s: State, schedule: seq<Action>, k: nat)
    requires k + 4 <= |schedule|
    ensures var s2 := Next(Next(s, schedule[k]), schedule[k + 1]);
      Run(s, schedule[k..]) == Run(Next(Next(s2, schedule[k + 2]), schedule[k + 3]), schedule[k + 4..])
  {
    var s1 := Next(s, schedule[k]);
    var s2 := Next(s1, schedule[k + 1]);
    RunOne(s, schedule, k);
    RunOne(s1, schedule, k + 1);
    RunOne(s2, schedule, k + 2);
    RunOne(Next(s2, schedule[k + 2]), schedule, k + 3);
  }

  /** The thread sleeps; the job has finished and woken it; a reset has come and gone. */
  const SLEEPING := State(false, Free, Working, NoReset, [false], [Asleep], false)
  const WOKEN := State(true, Free, FinishDone, NoReset, [false], [WantLock], true)
  const LOWERED := State(false, Free, FinishDone, NoReset, [false], [WantLock], true)

  lemma FallsAsleep()
    ensures var s := Next(Next(ALONE, StepWaiter(0)), StepWaiter(0));
      Next(Next(s, StepWaiter(0)), StepWaiter(0)) == SLEEPING
  {
    var s := Next(Next(ALONE, StepWaiter(0)), StepWaiter(0));
    assert s.waiters == [Checking];
    assert Next(s, StepWaiter(0)).waiters == [Blocking];
  }

  lemma IsWoken()
    ensures var s := Next(Next(SLEEPING, StepFinisher), StepFinisher);
      Next(Next(s, StepFinisher), StepFinisher) == WOKEN
  {
    assert WakeAll([Asleep]) == [WantLock];
  }

  lemma IsLowered()
    ensures var s := Next(Next(Next(WOKEN, StartReset), StepReset), StepReset);
      Next(Next(s, StepReset), StepReset) == LOWERED
  {
    assert WakeAll([WantLock]) == [WantLock];
  }

  /**
   A thread goes to sleep, the job finishes and notifies it, and before the thread has the lock a reset comes
   and goes. The job has run, and yet the wait can no longer return.
   */
  lemma ResetCanStrand(schedule: seq<Action>)
    requires schedule == [
      StepWaiter(0), StepWaiter(0), StepWaiter(0), StepWaiter(0),
      StepFinisher, StepFinisher, StepFinisher, StepFinisher,
      StartReset, StepReset, StepReset, StepReset, StepReset]
    ensures Run(ALONE, schedule) == LOWERED
    ensures LOWERED.ended && !LOWERED.waiters[0].Home? && !CanReturn(LOWERED, 0)
  {
    RunFour(ALONE, schedule, 0);
    FallsAsleep();
    RunFour(SLEEPING, schedule, 4);
    IsWoken();
    RunFour(WOKEN, schedule, 8);
    IsLowered();
    RunOne(Next(Next(Next(Next(WOKEN, StartReset), StepReset), StepReset), StepReset), schedule, 12);
    CanReturnExactly(LOWERED, 0);
  }

  /** While a reset has the flag up, a wait returns although the job has not run. */
  lemma ResetCanRelease(schedule: seq<Action>)
    requires schedule == [StartReset, StepReset, StepReset, StepWaiter(0)]
    ensures var s := Run(ALONE, schedule); |s.waiters| == 1 && s.waiters[0].Home? && !s.ended
  {
    RunFour(ALONE, schedule, 0);
    assert schedule[0..] == schedule && schedule[4..] == [];
  }
}
