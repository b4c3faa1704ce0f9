/**
 The hand-off of messages from window threads to the COM thread, over two Win32 events.

 The write event resets itself when a wait on it succeeds, and so is a lock; it starts set. The work event
 stays set until it is reset; it starts clear. Messages are tickets, numbered as they are pushed. Shutdown is
 not part of this model.
 */
module ComHandOff {
  import opened Wrappers

  datatype Producer =
    | PIdle
    | PWait               // wants the write event
    | PPush               // has it
    | PRelease            // has pushed
    | PSignal             // has released the write event, about to set the work event

  datatype Consumer =
    | CWaitWork
    | CWaitWrite
    | CInspect            // has the write event
    | CResetEmpty         // found no messages
    | CReleaseEmpty
    | CTest(m: nat)       // has popped m
    | CReset(m: nat)      // and left nothing behind
    | CRelease(m: nat)
    | CProcess(m: nat)

  datatype State = State(
    canWrite: bool, hasWork: bool, messages: seq<nat>,
    producers: seq<Producer>, consumer: Consumer,
    sent: nat, taken: seq<nat>)      // history: how many were pushed, and which were popped

  datatype Action = Send(t: nat) | StepProducer(t: nat) | StepConsumer

  function Init(threads: nat): State {
    State(true, false, [], seq(threads, _ => PIdle), CWaitWork, 0, [])
  }

  function At(s: State, t: nat, pc: Producer): State
    requires t < |s.producers|
  {
    s.(producers := s.producers[t := pc])
  }

  /** One atomic step of `enqueueMessageCOM`. */
  function ProducerStep(s: State, t: nat): State
    requires t < |s.producers|
  {
    match s.producers[t]
    case PIdle => s
    case PWait => if s.canWrite then At(s, t, PPush).(canWrite := false) else s
    case PPush => At(s, t, PRelease).(messages := s.messages + [s.sent], sent := s.sent + 1)
    case PRelease => At(s, t, PSignal).(canWrite := true)
    case PSignal => At(s, t, PIdle).(hasWork := true)
  }

  /** One atomic step of the loop of `avkComThread`. */
  function ConsumerStep(s: State): State {
    match s.consumer
    case CWaitWork => if s.hasWork then s.(consumer := CWaitWrite) else s
    case CWaitWrite => if s.canWrite then s.(consumer := CInspect, canWrite := false) else s
    case CInspect =>
      if s.messages == [] then s.(consumer := CResetEmpty)
      else
        var m := s.messages[|s.messages| - 1];
        s.(consumer := CTest(m), messages := s.messages[..|s.messages| - 1], taken := s.taken + [m])
    case CResetEmpty => s.(consumer := CReleaseEmpty, hasWork := false)
    case CReleaseEmpty => s.(consumer := CWaitWork, canWrite := true)
    case CTest(m) => s.(consumer := if s.messages == [] then CReset(m) else CRelease(m))
    case CReset(m) => s.(consumer := CRelease(m), hasWork := false)
    case CRelease(m) => s.(consumer := CProcess(m), canWrite := true)
    case CProcess(m) => s.(consumer := CWaitWork)
  }

  function Next(s: State, a: Action): State {
    match a
    case Send(t) => if t < |s.producers| && s.producers[t].PIdle? then At(s, t, PWait) else s
    case StepProducer(t) => if t < |s.producers| then ProducerStep(s, t) else s
    case StepConsumer => ConsumerStep(s)
  }

  function Run(s: State, schedule: seq<Action>): State
    decreases |schedule|
  {
    if schedule == [] then s else Run(Next(s, schedule[0]), schedule[1..])
  }

  // ---------------------------------------------------------------- invariant

  predicate Holds(pc: Producer) { pc.PPush? || pc.PRelease? }

  predicate ConsumerHolds(pc: Consumer) {
    pc.CInspect? || pc.CResetEmpty? || pc.CReleaseEmpty? || pc.CTest? || pc.CReset? || pc.CRelease?
  }

  ghost predicate ProducerHolds(s: State) {
    exists t: nat :: t < |s.producers| && Holds(s.producers[t])
  }

  /** The write event is a lock: set, or held by exactly one producer, or held by the consumer. */
  ghost predicate LockOk(s: State) {
    && (s.canWrite || ConsumerHolds(s.consumer) || ProducerHolds(s))
    && (s.canWrite ==> !ConsumerHolds(s.consumer) && forall t: nat | t < |s.producers| :: !Holds(s.producers[t]))
    && (ConsumerHolds(s.consumer) ==> forall t: nat | t < |s.producers| :: !Holds(s.producers[t]))
    && (forall t: nat, u: nat |
          t < |s.producers| && u < |s.producers| && Holds(s.producers[t]) && Holds(s.producers[u]) :: t == u)
  }

  /** Some producer is between its push and its signal. */
  ghost predicate SignalComing(s: State) {
    exists t: nat :: t < |s.producers| && (s.producers[t].PRelease? || s.producers[t].PSignal?)
  }

  /** Waiting messages are announced, or about to be; the consumer only retracts when there are none. */
  ghost predicate WorkOk(s: State) {
    && (s.messages != [] ==> s.hasWork || SignalComing(s))
    && (s.consumer.CResetEmpty? || s.consumer.CReset? ==> s.messages == [])
  }

  ghost function Times(items: seq<nat>, x: nat): nat {
    multiset(items)[x]
  }

  /** Every pushed message is waiting or taken, and only once. */
  ghost predicate MessagesOk(s: State) {
    forall m: nat :: Times(s.messages, m) + Times(s.taken, m) == if m < s.sent then 1 else 0
  }

  ghost predicate Inv(s: State) {
    LockOk(s) && WorkOk(s) && MessagesOk(s)
  }

  lemma TimesAppend(items: seq<nat>, y: nat, x: nat)
    ensures Times(items + [y], x) == Times(items, x) + if x == y then 1 else 0
  {
  }

  lemma InitInv(threads: nat)
    ensures Inv(Init(threads))
  {
    forall m: nat ensures Times([], m) + Times([], m) == 0 {
    }
  }

  lemma ProducerMessages(s: State, t: nat, m: nat)
    requires t < |s.producers|
    ensures var s' := ProducerStep(s, t);
      Times(s'.messages, m) + Times(s'.taken, m)
      == Times(s.messages, m) + Times(s.taken, m) + if s'.sent > s.sent && m == s.sent then 1 else 0
  {
    TimesAppend(s.messages, s.sent, m);
  }

  lemma ConsumerMessages(s: State, m: nat)
    ensures var s' := ConsumerStep(s);
      Times(s'.messages, m) + Times(s'.taken, m) == Times(s.messages, m) + Times(s.taken, m)
  {
    if s.consumer.CInspect? && s.messages != [] {
      var last, most := s.messages[|s.messages| - 1], s.messages[..|s.messages| - 1];
      assert s.messages == most + [last];
      TimesAppend(most, last, m);
      TimesAppend(s.taken, last, m);
    }
  }

  lemma ProducerLock(s: State, t: nat)
    requires LockOk(s) && t < |s.producers|
    ensures LockOk(ProducerStep(s, t))
  {
    var s' := ProducerStep(s, t);
    if ProducerHolds(s) {
      var u: nat :| u < |s.producers| && Holds(s.producers[u]);
      assert u != t ==> Holds(s'.producers[u]);
      assert Holds(s'.producers[t]) || s'.canWrite || Holds(s'.producers[u]);
    } else {
      assert Holds(s'.producers[t]) || s'.canWrite || ConsumerHolds(s'.consumer);
    }
  }

  lemma ProducerWork(s: State, t: nat)
    requires LockOk(s) && WorkOk(s) && t < |s.producers|
    ensures WorkOk(ProducerStep(s, t))
  {
    var s' := ProducerStep(s, t);
    if s'.messages != [] && !s'.hasWork {
      if s.producers[t].PPush? {
        assert s'.producers[t].PRelease?;
      } else {
        var u: nat :| u < |s.producers| && (s.producers[u].PRelease? || s.producers[u].PSignal?);
        assert s'.producers[u].PRelease? || s'.producers[u].PSignal?;
      }
    }
  }

  lemma ConsumerInv(s: State)
    requires LockOk(s) && WorkOk(s)
    ensures LockOk(ConsumerStep(s)) && WorkOk(ConsumerStep(s))
  {
    if SignalComing(s) {
      var u: nat :| u < |s.producers| && (s.producers[u].PRelease? || s.producers[u].PSignal?);
      assert ConsumerStep(s).producers[u] == s.producers[u];
    }
    assert ProducerHolds(ConsumerStep(s)) == ProducerHolds(s);
  }

  lemma SendInv(s: State, t: nat)
    requires LockOk(s) && WorkOk(s) && t < |s.producers| && s.producers[t].PIdle?
    ensures LockOk(At(s, t, PWait)) && WorkOk(At(s, t, PWait))
  {
    if SignalComing(s) {
      var u: nat :| u < |s.producers| && (s.producers[u].PRelease? || s.producers[u].PSignal?);
      assert At(s, t, PWait).producers[u] == s.producers[u];
    }
    if ProducerHolds(s) {
      var u: nat :| u < |s.producers| && Holds(s.producers[u]);
      assert Holds(At(s, t, PWait).producers[u]);
    }
  }

  lemma NextInv(s: State, a: Action)
    requires Inv(s)
    ensures Inv(Next(s, a))
  {
    var s' := Next(s, a);
    match a
    case Send(t) => if t < |s.producers| && s.producers[t].PIdle? { SendInv(s, t); }
    case StepProducer(t) =>
      if t < |s.producers| {
        ProducerLock(s, t);
        ProducerWork(s, t);
        forall m: nat ensures Times(s'.messages, m) + Times(s'.taken, m) == if m < s'.sent then 1 else 0 {
          ProducerMessages(s, t, m);
        }
      }
    case StepConsumer =>
      ConsumerInv(s);
      forall m: nat ensures Times(s'.messages, m) + Times(s'.taken, m) == if m < s'.sent then 1 else 0 {
        ConsumerMessages(s, m);
      }
  }

  lemma {:induction false} RunInv(s: State, schedule: seq<Action>)
    requires Inv(s)
    ensures Inv(Run(s, schedule))
    decreases |schedule|
  {
    if schedule != [] {
      NextInv(s, schedule[0]);
      RunInv(Next(s, schedule[0]), schedule[1..]);
    }
  }

  // ---------------------------------------------------------------- every interleaving

  /**
   In every interleaving: a waiting message is announced by the work event or by a producer that has not
   signaled yet; at most one party has the write event; and every message pushed is waiting or taken, once.
   */
  lemma NoMessageLost(threads: nat, schedule: seq<Action>, m: nat)
    ensures var s := Run(Init(threads), schedule);
      && (s.messages != [] ==> s.hasWork || SignalComing(s))
      && LockOk(s)
      && Times(s.messages, m) + Times(s.taken, m) == if m < s.sent then 1 else 0
  {
    InitInv(threads);
    RunInv(Init(threads), schedule);
  }

  ghost predicate Quiet(s: State) {
    forall t: nat | t < |s.producers| :: s.producers[t].PIdle?
  }

  /** How many steps the consumer is from being back at its wait. */
  function Steps(pc: Consumer): nat {
    match pc
    case CWaitWork => 0
    case CProcess(_) => 1
    case CRelease(_) => 2
    case CReset(_) => 3
    case CTest(_) => 4
    case CReleaseEmpty => 1
    case CResetEmpty => 2
    case CInspect => 5
    case CWaitWrite => 6
  }

  /** Once the producers have nothing under way, the COM thread alone takes every message that is waiting. */
  lemma {:induction false} ConsumerDrains(s: State) returns (schedule: seq<Action>)
    requires Inv(s) && Quiet(s)
    ensures forall a | a in schedule :: a == StepConsumer
    ensures var t := Run(s, schedule); t.messages == [] && t.consumer.CWaitWork? && t.sent == s.sent
    decreases |s.messages|, Steps(s.consumer)
  {
    if s.consumer.CWaitWork? && s.messages == [] {
      schedule := [];
    } else {
      var s1 := Next(s, StepConsumer);
      NextInv(s, StepConsumer);
      if s.consumer.CWaitWork? {
        // the list is not empty and nobody is about to signal, so the event is set
        var s2 := Next(s1, StepConsumer);
        var s3 := Next(s2, StepConsumer);
        NextInv(s1, StepConsumer);
        NextInv(s2, StepConsumer);
        var rest := ConsumerDrains(s3);
        schedule := [StepConsumer, StepConsumer, StepConsumer] + rest;
        RunStep(s, StepConsumer, [StepConsumer, StepConsumer] + rest);
        RunStep(s1, StepConsumer, [StepConsumer] + rest);
        RunStep(s2, StepConsumer, rest);
        assert schedule == [StepConsumer] + ([StepConsumer, StepConsumer] + rest);
        assert [StepConsumer, StepConsumer] + rest == [StepConsumer] + ([StepConsumer] + rest);
      } else {
        var rest := ConsumerDrains(s1);
        schedule := [StepConsumer] + rest;
        RunStep(s, StepConsumer, rest);
      }
    }
  }

  // ---------------------------------------------------------------- what is taken, and what becomes of it

  /** The message the consumer has in hand. */
  function InHand(pc: Consumer): Option<nat> {
    match pc
    case CTest(m) => Some(m)
    case CReset(m) => Some(m)
    case CRelease(m) => Some(m)
    case CProcess(m) => Some(m)
    case _ => None
  }

  /** A step takes at most one message: the newest that waits, with nothing else in hand and no producer inside. */
  lemma TakesTheNewest(threads: nat, schedule: seq<Action>, a: Action)
    ensures var s := Run(Init(threads), schedule); var s' := Next(s, a);
      s'.taken != s.taken ==>
        && a.StepConsumer? && s.messages != [] && InHand(s.consumer).None? && !ProducerHolds(s)
        && s'.messages + [s.messages[|s.messages| - 1]] == s.messages
        && s'.taken == s.taken + [s.messages[|s.messages| - 1]]
        && InHand(s'.consumer) == Some(s.messages[|s.messages| - 1])
  {
    InitInv(threads);
    RunInv(Init(threads), schedule);
  }

  /** The message in hand is the last one taken. */
  ghost predicate HandOk(s: State) {
    match InHand(s.consumer)
    case Some(m) => s.taken != [] && m == s.taken[|s.taken| - 1]
    case None => true
  }

  lemma {:induction false} RunHandOk(s: State, schedule: seq<Action>)
    requires HandOk(s)
    ensures HandOk(Run(s, schedule))
    decreases |schedule|
  {
    if schedule != [] {
      RunHandOk(Next(s, schedule[0]), schedule[1..]);
    }
  }

  /**
   Every message taken is processed: the consumer keeps the last one taken in hand, and lets go of it only at the
   end of its processing, with the write event released.
   */
  lemma TakenIsProcessed(threads: nat, schedule: seq<Action>, a: Action)
    ensures var s := Run(Init(threads), schedule);
      && (InHand(s.consumer).Some? ==> s.taken != [] && InHand(s.consumer).value == s.taken[|s.taken| - 1])
      && (InHand(s.consumer).Some? && InHand(Next(s, a).consumer) != InHand(s.consumer) ==>
            s.consumer.CProcess? && !ConsumerHolds(s.consumer) && Next(s, a).consumer.CWaitWork?)
  {
    RunHandOk(Init(threads), schedule);
  }

  /** How many steps the producers have still to make. */
  function ProducerSteps(pc: Producer): nat {
    match pc
    case PIdle => 0
    case PWait => 4
    case PPush => 3
    case PRelease => 2
    case PSignal => 1
  }

  function AllSteps(producers: seq<Producer>): nat {
    if producers == [] then 0 else ProducerSteps(producers[0]) + AllSteps(producers[1..])
  }

  lemma {:induction false} FewerSteps(producers: seq<Producer>, t: nat, pc: Producer)
    requires t < |producers| && ProducerSteps(pc) < ProducerSteps(producers[t])
    ensures AllSteps(producers[t := pc]) < AllSteps(producers)
  {
    if t == 0 {
      assert producers[0 := pc][1..] == producers[1..];
    } else {
      assert producers[t := pc][1..] == producers[1..][t - 1 := pc];
      FewerSteps(producers[1..], t - 1, pc);
    }
  }

  ghost predicate CanStep(s: State, t: nat) {
    t < |s.producers| && !s.producers[t].PIdle? && (s.producers[t].PWait? ==> s.canWrite)
  }

  lemma ProducerNearer(s: State, t: nat)
    requires Inv(s) && CanStep(s, t)
    ensures var s' := Next(s, StepProducer(t));
      Inv(s') && AllSteps(s'.producers) < AllSteps(s.producers) && |s'.producers| == |s.producers|
  {
    NextInv(s, StepProducer(t));
    var s' := ProducerStep(s, t);
    assert s'.producers == s.producers[t := s'.producers[t]];
    FewerSteps(s.producers, t, s'.producers[t]);
  }

  /** With no producer able to move, the consumer has the write event, or nobody is under way. */
  lemma ConsumerInside(s: State)
    requires Inv(s) && !Quiet(s) && forall t: nat :: !CanStep(s, t)
    ensures ConsumerHolds(s.consumer)
    ensures var s' := Next(s, StepConsumer); s'.producers == s.producers && Steps(s'.consumer) < Steps(s.consumer)
  {
    var t: nat :| t < |s.producers| && !s.producers[t].PIdle?;
    assert !CanStep(s, t);
    if ProducerHolds(s) {
      var u: nat :| u < |s.producers| && Holds(s.producers[u]);
      assert CanStep(s, u);
    }
  }

  /**
   From every reachable state, whatever is under way, all producers can come to the end of their calls and all
   messages be taken.
   */
  lemma {:induction false} EverythingTaken(s: State) returns (schedule: seq<Action>)
    requires Inv(s)
    ensures forall a | a in schedule :: !a.Send?
    ensures var t := Run(s, schedule); Quiet(t) && t.messages == [] && t.consumer.CWaitWork?
    decreases AllSteps(s.producers), Steps(s.consumer)
  {
    if Quiet(s) {
      schedule := ConsumerDrains(s);
      DrainKeepsQuiet(s, schedule);
    } else if t: nat :| CanStep(s, t) {
      ProducerNearer(s, t);
      var rest := EverythingTaken(Next(s, StepProducer(t)));
      schedule := [StepProducer(t)] + rest;
      RunStep(s, StepProducer(t), rest);
    } else {
      ConsumerInside(s);
      NextInv(s, StepConsumer);
      var rest := EverythingTaken(Next(s, StepConsumer));
      schedule := [StepConsumer] + rest;
      RunStep(s, StepConsumer, rest);
    }
  }

  lemma {:induction false} DrainKeepsQuiet(s: State, schedule: seq<Action>)
    requires Quiet(s) && forall a | a in schedule :: a == StepConsumer
    ensures Quiet(Run(s, schedule))
    decreases |schedule|
  {
    if schedule != [] {
      assert schedule[0] in schedule;
      assert schedule[0] == StepConsumer;
      assert forall a | a in schedule[1..] :: a in schedule;
      DrainKeepsQuiet(Next(s, schedule[0]), schedule[1..]);
    }
  }

  lemma RunStep(s: State, a: Action, rest: seq<Action>)
    ensures Run(s, [a] + rest) == Run(Next(s, a), rest)
  {
    assert ([a] + rest)[1..] == rest;
  }

  // ---------------------------------------------------------------- the hand-off as the program keeps it

  class ComPayload {
    var canWrite: bool
    var hasWork: bool
    var messages: seq<nat>
    ghost var producers: seq<Producer>
    ghost var consumer: Consumer
    ghost var sent: nat
    ghost var taken: seq<nat>

    ghost function View(): State reads this {
      State(canWrite, hasWork, messages, producers, consumer, sent, taken)
    }

    constructor (ghost threads: nat)
      ensures View() == Init(threads) && Inv(View())
    {
      canWrite, hasWork, messages := true, false, [];
      producers, consumer, sent, taken := seq(threads, _ => PIdle), CWaitWork, 0, [];
      new;
      InitInv(threads);
    }

    /** The whole of `enqueueMessageCOM` by thread t, when no other thread moves meanwhile. */
    method EnqueueMessage(ghost t: nat, m: nat)
      requires Inv(View()) && t < |producers| && producers[t].PIdle? && canWrite && m == sent
      modifies this
      ensures Inv(View())
      ensures View() == Run(old(View()), [Send(t), StepProducer(t), StepProducer(t), StepProducer(t), StepProducer(t)])
      ensures messages == old(messages) + [m] && hasWork && canWrite
    {
      ghost var all := [Send(t), StepProducer(t), StepProducer(t), StepProducer(t), StepProducer(t)];
      RunInv(View(), all);
      SendRuns(View(), t);
      canWrite := false;
      messages, sent := messages + [m], sent + 1;
      canWrite := true;
      hasWork := true;
      assert producers == producers[t := PIdle];
    }

    /** One round of the loop of the COM thread, up to the processing of the message. */
    method TakeNewest() returns (got: Option<nat>)
      requires Inv(View()) && Quiet(View()) && consumer.CWaitWork? && hasWork
      modifies this`canWrite, this`hasWork, this`messages, this`taken
      ensures Inv(View()) && hasWork == (messages != [])
      ensures View() == Run(old(View()), Consumes(RoundLength(old(View()))))
      ensures old(messages) == [] ==> got == None && messages == [] && taken == old(taken)
      ensures old(messages) != [] ==>
        got == Some(old(messages)[|old(messages)| - 1])
        && messages == old(messages)[..|old(messages)| - 1] && taken == old(taken) + [got.value]
    {
      ghost var before := View();
      RoundRuns(before);
      canWrite := false;
      if messages == [] {
        hasWork := false;
        canWrite := true;
        return None;
      }
      var msg := messages[|messages| - 1];
      messages := messages[..|messages| - 1];
      taken := taken + [msg];
      if messages == [] {
        hasWork := false;
      }
      canWrite := true;
      TakenMessages(before, msg);
      return Some(msg);
    }

    /** The loop of the COM thread, run until its work event is clear: the newest message first, to the last. */
    method TakeMessages() returns (got: seq<nat>)
      requires Inv(View()) && Quiet(View()) && consumer.CWaitWork?
      modifies this`canWrite, this`hasWork, this`messages, this`taken
      ensures Inv(View()) && messages == [] && !hasWork
      ensures |got| == |old(messages)| && taken == old(taken) + got
      ensures forall i: nat | i < |got| :: got[i] == old(messages)[|got| - 1 - i]
    {
      got := [];
      ghost var all := messages;
      while hasWork
        invariant Inv(View())
        invariant |got| + |messages| == |all| && messages == all[..|messages|]
        invariant taken == old(taken) + got
        invariant forall i: nat | i < |got| :: got[i] == all[|all| - 1 - i]
        decreases |messages| + if hasWork then 1 else 0
      {
        var msg := TakeNewest();
        if msg.Some? {
          got := got + [msg.value];
        }
      }
    }
  }

  function Consumes(n: nat): seq<Action> {
    if n == 0 then [] else [StepConsumer] + Consumes(n - 1)
  }

  /** How many steps a round of the consumer takes: one more if it takes the last message. */
  function RoundLength(s: State): nat {
    match |s.messages|
    case 0 => 5
    case 1 => 7
    case _ => 6
  }

  /** What a round of the consumer comes to. */
  function AfterRound(s: State): State {
    var n := |s.messages|;
    if n == 0 then s.(hasWork := false)
    else s.(hasWork := n > 1, messages := s.messages[..n - 1], taken := s.taken + [s.messages[n - 1]])
  }

  lemma RunConsumes(s: State, n: nat)
    requires n > 0
    ensures Run(s, Consumes(n)) == Run(ConsumerStep(s), Consumes(n - 1))
  {
    RunStep(s, StepConsumer, Consumes(n - 1));
  }

  lemma FirstHalf(s: State, n: nat)
    requires s.consumer.CWaitWork? && s.hasWork && s.canWrite && n >= 3
    ensures var s3 := ConsumerStep(s.(consumer := CInspect, canWrite := false));
      Run(s, Consumes(n)) == Run(s3, Consumes(n - 3))
  {
    RunConsumes(s, n);
    RunConsumes(s.(consumer := CWaitWrite), n - 1);
    RunConsumes(s.(consumer := CInspect, canWrite := false), n - 2);
  }

  lemma RoundRuns(s: State)
    requires Inv(s) && Quiet(s) && s.consumer.CWaitWork? && s.hasWork
    ensures s.canWrite && Run(s, Consumes(RoundLength(s))) == AfterRound(s)
  {
    var n := RoundLength(s);
    FirstHalf(s, n);
    var s3 := ConsumerStep(s.(consumer := CInspect, canWrite := false));
    if s.messages == [] {
      RunConsumes(s3, 2);
      RunConsumes(s3.(consumer := CReleaseEmpty, hasWork := false), 1);
    } else {
      var m := s.messages[|s.messages| - 1];
      LastHalf(s3, m);
    }
  }

  lemma LastHalf(s: State, m: nat)
    requires s.consumer == CTest(m) && !s.canWrite
    ensures Run(s, Consumes(if s.messages == [] then 4 else 3))
            == s.(consumer := CWaitWork, canWrite := true, hasWork := s.hasWork && s.messages != [])
  {
    if s.messages == [] {
      RunConsumes(s, 4);
      RunConsumes(s.(consumer := CReset(m)), 3);
    } else {
      RunConsumes(s, 3);
    }
    var r := s.(consumer := CRelease(m), hasWork := s.hasWork && s.messages != []);
    RunConsumes(r, 2);
    RunConsumes(r.(consumer := CProcess(m), canWrite := true), 1);
  }

  lemma TakenMessages(s: State, msg: nat)
    requires MessagesOk(s) && s.messages != [] && msg == s.messages[|s.messages| - 1]
    ensures forall m: nat ::
      Times(s.messages[..|s.messages| - 1], m) + Times(s.taken + [msg], m) == if m < s.sent then 1 else 0
  {
    forall m: nat
      ensures Times(s.messages[..|s.messages| - 1], m) + Times(s.taken + [msg], m) == if m < s.sent then 1 else 0
    {
      ConsumerMessages(s.(consumer := CInspect), m);
    }
  }

  lemma SendRuns(s: State, t: nat)
    requires t < |s.producers| && s.producers[t].PIdle? && s.canWrite
    ensures Run(s, [Send(t), StepProducer(t), StepProducer(t), StepProducer(t), StepProducer(t)])
            == s.(messages := s.messages + [s.sent], sent := s.sent + 1, hasWork := true)
  {
    var s1 := Next(s, Send(t));
    var s2 := Next(s1, StepProducer(t));
    var s3 := Next(s2, StepProducer(t));
    var s4 := Next(s3, StepProducer(t));
    var p := StepProducer(t);
    assert [Send(t), p, p, p, p] == [Send(t)] + [p, p, p, p];
    assert [p, p, p, p] == [p] + [p, p, p] && [p, p, p] == [p] + [p, p] && [p, p] == [p] + [p] && [p] == [p] + [];
    RunStep(s, Send(t), [p, p, p, p]);
    RunStep(s1, p, [p, p, p]);
    RunStep(s2, p, [p, p]);
    RunStep(s3, p, [p]);
    RunStep(s4, p, []);
    assert Next(s4, p).producers == s.producers;
  }
}
