/**
 The single-producer single-consumer ring that hands recycled command pools back to their owner, one
 atomic access per step, with 64-bit counters that wrap.

 The two counters are machine words. How many items were ever pushed and popped is history; the
 invariant says the words are those two numbers modulo 2^64, and everything the code decides on masked
 words is shown to be the decision on the numbers.
 */
module Spsc {
  import opened Wrappers
  import opened Slots
  import opened Words

  datatype Producer<T> =
    | PIdle
    | PTail(item: T, tail: nat)                        // has loaded its own counter
    | PBoth(item: T, tail: nat, head: nat, seen: nat)  // has loaded the other one; `seen` items were popped then
    | PWrote(item: T, tail: nat)                       // has written the item, not yet stored the counter
    | PReturned(ok: bool)

  datatype Consumer<T> =
    | CIdle
    | CHead(head: nat)
    | CBoth(head: nat, tail: nat, seen: nat)           // `seen` items had been pushed at the load
    | CRead(head: nat, out: T)
    | CReturned(got: Option<T>)

  /** The ring of 2^k cells, its two users, and the items pushed and popped so far (history). */
  datatype State<T> = State(
    k: nat, buffer: seq<T>, head: nat, tail: nat,
    producer: Producer<T>, consumer: Consumer<T>,
    pushed: seq<T>, popped: seq<T>)
  {
    ghost predicate Ring() { 1 <= k < 64 && 2 <= |buffer| == Pow2(k) }
    function Mask(): int { |buffer| - 1 }
  }

  datatype Action<T> = StartPush(item: T) | StartPop | StepProducer | StepConsumer

  function Init<T>(k: nat, blank: T): State<T> {
    State(k, seq(Pow2(k), _ => blank), 0, 0, PIdle, CIdle, [], [])
  }

  /** The buffer index a masked counter names. */
  function Index<T>(s: State<T>, word: nat): (i: nat)
    requires s.Ring()
    ensures i < |s.buffer|
  {
    Pow2Positive(s.k);
    MaskFindsCell(word, s.k);
    And(word, |s.buffer| - 1)
  }

  /** One atomic step of the producer. */
  function ProducerStep<T>(s: State<T>): State<T>
    requires s.Ring()
  {
    match s.producer
    case PTail(item, tail) => s.(producer := PBoth(item, tail, s.head, |s.popped|))
    case PBoth(item, tail, head, seen) =>
      if Index(s, Wrap(tail + 1)) == Index(s, head) then s.(producer := PReturned(false))
      else s.(producer := PWrote(item, tail), buffer := s.buffer[Index(s, tail) := item])
    case PWrote(item, tail) =>
      s.(producer := PReturned(true), tail := Wrap(tail + 1), pushed := s.pushed + [item])
    case _ => s
  }

  /** One atomic step of the consumer. */
  function ConsumerStep<T>(s: State<T>): State<T>
    requires s.Ring()
  {
    match s.consumer
    case CHead(head) => s.(consumer := CBoth(head, s.tail, |s.pushed|))
    case CBoth(head, tail, seen) =>
      if Index(s, head) == Index(s, tail) then s.(consumer := CReturned(None))
      else s.(consumer := CRead(head, s.buffer[Index(s, head)]))
    case CRead(head, out) =>
      s.(consumer := CReturned(Some(out)), head := Wrap(head + 1), popped := s.popped + [out])
    case _ => s
  }

  /** What an action does; an action that is not enabled changes nothing. */
  function Next<T>(s: State<T>, a: Action<T>): (s': State<T>)
    requires s.Ring()
    ensures s'.Ring()
  {
    match a
    case StartPush(item) =>
      if s.producer.PIdle? || s.producer.PReturned? then s.(producer := PTail(item, s.tail)) else s
    case StartPop =>
      if s.consumer.CIdle? || s.consumer.CReturned? then s.(consumer := CHead(s.head)) else s
    case StepProducer => ProducerStep(s)
    case StepConsumer => ConsumerStep(s)
  }

  function Run<T>(s: State<T>, schedule: seq<Action<T>>): (s': State<T>)
    requires s.Ring()
    ensures s'.Ring()
    decreases |schedule|
  {
    if schedule == [] then s else Run(Next(s, schedule[0]), schedule[1..])
  }

  // ---------------------------------------------------------------- invariant

  /** The words are the counts modulo 2^64, the counts are within the ring, and the items are in place. */
  ghost predicate Counts<T>(s: State<T>) {
    && s.Ring()
    && s.head == Wrap(|s.popped|) && s.tail == Wrap(|s.pushed|)
    && |s.popped| <= |s.pushed| <= |s.popped| + s.Mask()
    && (forall i: nat | i < |s.popped| :: s.popped[i] == s.pushed[i])
    && (forall i: nat | |s.popped| <= i < |s.pushed| :: s.buffer[Cell(i, |s.buffer|)] == s.pushed[i])
  }

  ghost predicate ProducerOk<T>(s: State<T>)
    requires Counts(s)
  {
    match s.producer
    case PTail(item, tail) => tail == s.tail
    case PBoth(item, tail, head, seen) =>
      tail == s.tail && head == Wrap(seen) && seen <= |s.popped| && |s.pushed| <= seen + s.Mask()
    case PWrote(item, tail) =>
      && tail == s.tail && |s.pushed| < |s.popped| + s.Mask()
      && s.buffer[Cell(|s.pushed|, |s.buffer|)] == item
    case _ => true
  }

  ghost predicate ConsumerOk<T>(s: State<T>)
    requires Counts(s)
  {
    match s.consumer
    case CHead(head) => head == s.head
    case CBoth(head, tail, seen) =>
      head == s.head && tail == Wrap(seen) && |s.popped| <= seen <= |s.pushed|
    case CRead(head, out) =>
      head == s.head && |s.popped| < |s.pushed| && out == s.pushed[|s.popped|]
    case _ => true
  }

  ghost predicate Inv<T>(s: State<T>) {
    Counts(s) && ProducerOk(s) && ConsumerOk(s)
  }

  lemma InitInv<T>(k: nat, blank: T)
    requires 1 <= k < 64
    ensures Inv(Init(k, blank))
  {
    Pow2Positive(k - 1);
  }

  // ---------------------------------------------------------------- decisions on masked words

  /** A wrapped counter indexes the cell of the number it stands for. */
  lemma IndexIsCell<T>(s: State<T>, n: nat)
    requires s.Ring()
    ensures Index(s, Wrap(n)) == Cell(n, |s.buffer|)
  {
    WrapKeepsCell(n, s.k);
  }

  lemma WrapNext(n: nat)
    ensures Wrap(Wrap(n) + 1) == Wrap(n + 1)
  {
  }

  /** The masked full test decides that the ring, as the producer saw it, has one free cell. */
  lemma FullDecided<T>(s: State<T>, pushes: nat, pops: nat)
    requires s.Ring() && pops <= pushes <= pops + s.Mask()
    ensures Index(s, Wrap(Wrap(pushes) + 1)) == Index(s, Wrap(pops)) <==> pushes == pops + s.Mask()
  {
    WrapNext(pushes);
    IndexIsCell(s, pushes + 1);
    IndexIsCell(s, pops);
    Laps(pushes + 1, pops, |s.buffer|);
  }

  /** The masked empty test decides that the ring, as the consumer saw it, is empty. */
  lemma EmptyDecided<T>(s: State<T>, pushes: nat, pops: nat)
    requires s.Ring() && pops <= pushes <= pops + s.Mask()
    ensures Index(s, Wrap(pops)) == Index(s, Wrap(pushes)) <==> pushes == pops
  {
    IndexIsCell(s, pushes);
    IndexIsCell(s, pops);
    Laps(pushes, pops, |s.buffer|);
  }

  // ---------------------------------------------------------------- every step keeps the invariant

  lemma ProducerStepInv<T>(s: State<T>)
    requires Inv(s)
    ensures Inv(ProducerStep(s))
  {
    var s' := ProducerStep(s);
    match s.producer
    case PBoth(item, tail, head, seen) =>
      FullDecided(s, |s.pushed|, seen);
      IndexIsCell(s, |s.pushed|);
      forall i: nat | |s.popped| <= i < |s.pushed|
        ensures s'.buffer[Cell(i, |s.buffer|)] == s.pushed[i]
      {
        Laps(i, |s.pushed|, |s.buffer|);
      }
    case PWrote(item, tail) => WrapNext(|s.pushed|);
    case _ =>
  }

  lemma ConsumerStepInv<T>(s: State<T>)
    requires Inv(s)
    ensures Inv(ConsumerStep(s))
  {
    match s.consumer
    case CBoth(head, tail, seen) =>
      EmptyDecided(s, seen, |s.popped|);
      IndexIsCell(s, |s.popped|);
    case CRead(head, out) => WrapNext(|s.popped|);
    case _ =>
  }

  lemma NextInv<T>(s: State<T>, a: Action<T>)
    requires Inv(s)
    ensures Inv(Next(s, a))
  {
    ProducerStepInv(s);
    ConsumerStepInv(s);
  }

  lemma {:induction false} RunInv<T>(s: State<T>, schedule: seq<Action<T>>)
    requires Inv(s)
    ensures Inv(Run(s, schedule))
    decreases |schedule|
  {
    if schedule != [] {
      NextInv(s, schedule[0]);
      RunInv(Next(s, schedule[0]), schedule[1..]);
    }
  }

  // ---------------------------------------------------------------- every interleaving

  /**
   In every interleaving, of any length, the popped items are the first pushed ones in order, and the
   difference of the two words, wrapped, is how many are left: never more than one short of the cells.
   */
  lemma FifoForever<T>(k: nat, blank: T, schedule: seq<Action<T>>)
    requires 1 <= k < 64
    ensures Init(k, blank).Ring()
    ensures var s := Run(Init(k, blank), schedule);
      && s.popped <= s.pushed
      && s.head < WORD && s.tail < WORD
      && Wrap(s.tail + WORD - s.head) == |s.pushed| - |s.popped| <= Pow2(k) - 1
  {
    InitInv(k, blank);
    RunInv(Init(k, blank), schedule);
    RunKeepsSize(Init(k, blank), schedule);
    var s := Run(Init(k, blank), schedule);
    assert s.popped == s.pushed[..|s.popped|];
    Pow2BelowWord(k);
    WrapDifference(|s.pushed|, |s.popped|);
  }

  lemma {:induction false} RunKeepsSize<T>(s: State<T>, schedule: seq<Action<T>>)
    requires s.Ring()
    ensures |Run(s, schedule).buffer| == |s.buffer|
    decreases |schedule|
  {
    if schedule != [] {
      RunKeepsSize(Next(s, schedule[0]), schedule[1..]);
    }
  }

  lemma WrapDifference(a: nat, b: nat)
    requires b <= a < b + WORD
    ensures Wrap(Wrap(a) + WORD - Wrap(b)) == a - b
  {
  }

  lemma Pow2BelowWord(k: nat)
    requires k < 64
    ensures Pow2(k) < WORD
  {
    Pow2Word();
    Pow2Sum(64 - k, k);
    Pow2Positive(64 - k - 1);
    Pow2Positive(k);
  }

  /**
   Failure is exact. Once the producer has loaded the consumer's counter, its push fails, whatever the
   consumer does meanwhile, if and only if at the load the ring held one item less than it has cells; and
   a failed push leaves the items alone.
   */
  lemma PushFailsExactly<T>(s: State<T>, others: seq<Action<T>>)
    requires Inv(s) && s.producer.PTail?
    requires forall a | a in others :: a.StartPop? || a.StepConsumer?
    ensures var later := Run(Next(s, StepProducer), others);
      && (Next(later, StepProducer).producer == PReturned(false) <==> |s.pushed| - |s.popped| == s.Mask())
      && Next(later, StepProducer).pushed == s.pushed
  {
    var loaded := Next(s, StepProducer);
    NextInv(s, StepProducer);
    RunInv(loaded, others);
    ConsumerLeavesProducer(loaded, others);
    var later := Run(loaded, others);
    FullDecided(later, |s.pushed|, |s.popped|);
  }

  /** Once the consumer has loaded the producer's counter, its pop fails iff the ring was empty at the load. */
  lemma PopFailsExactly<T>(s: State<T>, others: seq<Action<T>>)
    requires Inv(s) && s.consumer.CHead?
    requires forall a | a in others :: a.StartPush? || a.StepProducer?
    ensures var later := Run(Next(s, StepConsumer), others);
      && (Next(later, StepConsumer).consumer == CReturned(None) <==> |s.pushed| == |s.popped|)
      && Next(later, StepConsumer).popped == s.popped
  {
    var loaded := Next(s, StepConsumer);
    NextInv(s, StepConsumer);
    RunInv(loaded, others);
    ProducerLeavesConsumer(loaded, others);
    var later := Run(loaded, others);
    EmptyDecided(later, |s.pushed|, |s.popped|);
  }

  lemma {:induction false} ConsumerLeavesProducer<T>(s: State<T>, others: seq<Action<T>>)
    requires s.Ring() && forall a | a in others :: a.StartPop? || a.StepConsumer?
    ensures var later := Run(s, others);
      later.producer == s.producer && later.pushed == s.pushed && |later.buffer| == |s.buffer|
    decreases |others|
  {
    if others != [] {
      assert others[0] in others;
      ConsumerLeavesProducer(Next(s, others[0]), others[1..]);
    }
  }

  lemma {:induction false} ProducerLeavesConsumer<T>(s: State<T>, others: seq<Action<T>>)
    requires s.Ring() && forall a | a in others :: a.StartPush? || a.StepProducer?
    ensures var later := Run(s, others);
      later.consumer == s.consumer && later.popped == s.popped && |later.buffer| == |s.buffer|
    decreases |others|
  {
    if others != [] {
      assert others[0] in others;
      ProducerLeavesConsumer(Next(s, others[0]), others[1..]);
    }
  }

  // ---------------------------------------------------------------- a call, from its start to its return

  /** How many of its own steps a producer, or a consumer, has still to make at most. */
  function StepsOfPush<T>(pc: Producer<T>): nat {
    match pc
    case PTail(_, _) => 3
    case PBoth(_, _, _, _) => 2
    case PWrote(_, _) => 1
    case _ => 0
  }

  function StepsOfPop<T>(pc: Consumer<T>): nat {
    match pc
    case CHead(_) => 3
    case CBoth(_, _, _) => 2
    case CRead(_, _) => 1
    case _ => 0
  }

  function Turns<T>(schedule: seq<Action<T>>, ofProducer: bool): nat {
    if schedule == [] then 0
    else
      (if (if ofProducer then schedule[0].StepProducer? else schedule[0].StepConsumer?) then 1 else 0)
      + Turns(schedule[1..], ofProducer)
  }

  /** Where a push of item stands that found `before` pushed. */
  ghost predicate PushStands<T>(s: State<T>, item: T, before: seq<T>) {
    match s.producer
    case PIdle => false
    case PReturned(ok) => s.pushed == if ok then before + [item] else before
    case other => other.item == item && s.pushed == before
  }

  ghost predicate PopStands<T>(s: State<T>, before: seq<T>) {
    match s.consumer
    case CIdle => false
    case CReturned(got) =>
      (got.None? ==> s.popped == before) && (got.Some? ==> s.popped == before + [got.value])
    case _ => s.popped == before
  }

  lemma {:induction false} PushRuns<T>(s: State<T>, item: T, before: seq<T>, schedule: seq<Action<T>>)
    requires s.Ring() && PushStands(s, item, before) && forall a | a in schedule :: !a.StartPush?
    ensures var s' := Run(s, schedule);
      && PushStands(s', item, before)
      && (Turns(schedule, true) >= StepsOfPush(s.producer) ==> s'.producer.PReturned?)
    decreases |schedule|
  {
    if schedule != [] {
      assert schedule[0] in schedule;
      PushRuns(Next(s, schedule[0]), item, before, schedule[1..]);
    }
  }

  lemma {:induction false} PopRuns<T>(s: State<T>, before: seq<T>, schedule: seq<Action<T>>)
    requires s.Ring() && PopStands(s, before) && forall a | a in schedule :: !a.StartPop?
    ensures var s' := Run(s, schedule);
      && PopStands(s', before)
      && (Turns(schedule, false) >= StepsOfPop(s.consumer) ==> s'.consumer.CReturned?)
    decreases |schedule|
  {
    if schedule != [] {
      assert schedule[0] in schedule;
      PopRuns(Next(s, schedule[0]), before, schedule[1..]);
    }
  }

  /**
   A whole push in any interleaving. It waits for nobody: after three steps of its own it has returned, whatever the
   consumer did. It has returned true if and only if the item was appended, once and last.
   */
  lemma PushMeans<T>(s: State<T>, item: T, schedule: seq<Action<T>>)
    requires s.Ring() && (s.producer.PIdle? || s.producer.PReturned?) && forall a | a in schedule :: !a.StartPush?
    ensures var s' := Run(Next(s, StartPush(item)), schedule);
      && (Turns(schedule, true) >= 3 ==> s'.producer.PReturned?)
      && (s'.producer == PReturned(true) <==> s'.pushed == s.pushed + [item])
      && (s'.producer != PReturned(true) ==> s'.pushed == s.pushed)
  {
    PushRuns(Next(s, StartPush(item)), item, s.pushed, schedule);
  }

  /**
   A whole pop in any interleaving. After three steps of its own it has returned; it returns an item if and only if
   it has taken one, and that is the oldest there was, the next in the order of the pushes.
   */
  lemma PopMeans<T>(s: State<T>, schedule: seq<Action<T>>)
    requires Inv(s) && (s.consumer.CIdle? || s.consumer.CReturned?) && forall a | a in schedule :: !a.StartPop?
    ensures var s' := Run(Next(s, StartPop), schedule);
      && (Turns(schedule, false) >= 3 ==> s'.consumer.CReturned?)
      && (s'.consumer.CReturned? && s'.consumer.got.Some? <==> s'.popped != s.popped)
      && (s'.popped != s.popped ==>
            && |s.popped| < |s'.pushed| && s'.consumer.got.value == s'.pushed[|s.popped|]
            && s'.popped == s.popped + [s'.consumer.got.value])
  {
    NextInv(s, StartPop);
    RunInv(Next(s, StartPop), schedule);
    PopRuns(Next(s, StartPop), s.popped, schedule);
    var s' := Run(Next(s, StartPop), schedule);
    if s'.consumer.CReturned? && s'.consumer.got.Some? {
      assert |s'.popped| == |s.popped| + 1;
      assert s'.popped[|s.popped|] == s'.pushed[|s.popped|];
    }
  }

  // ---------------------------------------------------------------- the ring as the program keeps it

  /** A whole push, or pop, while the other side stands still outside its operation. */
  function PushAlone<T>(s: State<T>, item: T): State<T>
    requires s.Ring()
  {
    if Index(s, Wrap(s.tail + 1)) == Index(s, s.head) then s
    else s.(buffer := s.buffer[Index(s, s.tail) := item], tail := Wrap(s.tail + 1), pushed := s.pushed + [item])
  }

  function PopAlone<T>(s: State<T>): State<T>
    requires s.Ring()
  {
    if Index(s, s.head) == Index(s, s.tail) then s
    else s.(head := Wrap(s.head + 1), popped := s.popped + [s.buffer[Index(s, s.head)]])
  }

  /** The items waiting to be popped, oldest first. */
  ghost function Waiting<T>(s: State<T>): seq<T>
    requires |s.popped| <= |s.pushed|
  {
    s.pushed[|s.popped|..]
  }

  lemma PushAloneInv<T>(s: State<T>, item: T)
    requires Inv(s) && s.producer.PIdle? && s.consumer.CIdle?
    ensures Inv(PushAlone(s, item))
  {
    FullDecided(s, |s.pushed|, |s.popped|);
    if |s.pushed| != |s.popped| + s.Mask() {
      var writing := s.(producer := PBoth(item, s.tail, s.head, |s.popped|));
      ProducerStepInv(writing);
      ProducerStepInv(ProducerStep(writing));
      assert PushAlone(s, item) == ProducerStep(ProducerStep(writing)).(producer := PIdle);
    }
  }

  lemma PopAloneInv<T>(s: State<T>)
    requires Inv(s) && s.producer.PIdle? && s.consumer.CIdle?
    ensures Inv(PopAlone(s))
  {
    EmptyDecided(s, |s.pushed|, |s.popped|);
    if |s.pushed| != |s.popped| {
      var reading := s.(consumer := CBoth(s.head, s.tail, |s.pushed|));
      ConsumerStepInv(reading);
      ConsumerStepInv(ConsumerStep(reading));
      assert PopAlone(s) == ConsumerStep(ConsumerStep(reading)).(consumer := CIdle);
    }
  }

  lemma PushAloneAppends<T>(s: State<T>, item: T)
    requires Inv(s) && s.producer.PIdle? && s.consumer.CIdle?
    ensures var s' := PushAlone(s, item);
      && Inv(s')
      && (s' == s <==> |Waiting(s)| == s.Mask())
      && Waiting(s') == if |Waiting(s)| == s.Mask() then Waiting(s) else Waiting(s) + [item]
  {
    FullDecided(s, |s.pushed|, |s.popped|);
    PushAloneInv(s, item);
    assert |Waiting(s)| != s.Mask() ==> |PushAlone(s, item).pushed| != |s.pushed|;
  }

  lemma PopAloneTakes<T>(s: State<T>)
    requires Inv(s) && s.producer.PIdle? && s.consumer.CIdle?
    ensures var s' := PopAlone(s);
      && Inv(s')
      && (Waiting(s) == [] ==> s' == s)
      && (Waiting(s) != [] ==>
            Waiting(s') == Waiting(s)[1..] && s.buffer[Index(s, s.head)] == Waiting(s)[0]
            && Index(s, s.head) != Index(s, s.tail))
  {
    EmptyDecided(s, |s.pushed|, |s.popped|);
    IndexIsCell(s, |s.popped|);
    PopAloneInv(s);
  }

  lemma MoveHead<T>(a: seq<T>, b: seq<T>)
    requires b != []
    ensures a + [b[0]] + b[1..] == a + b
  {
  }

  class Queue<T> {
    ghost const k: nat
    const buffer: array<T>
    const mask: nat
    var head: nat
    var tail: nat
    ghost var pushed: seq<T>
    ghost var popped: seq<T>
    ghost var waiting: seq<T>  // what the ring holds, oldest first

    /** The ring with nobody inside an operation. */
    ghost function View(): State<T>
      reads this, buffer
    {
      State(k, buffer[..], head, tail, PIdle, CIdle, pushed, popped)
    }

    ghost predicate Valid()
      reads this, buffer
    {
      mask == buffer.Length - 1 && Inv(View()) && waiting == Waiting(View())
    }

    constructor (k: nat, capPow2: nat, blank: T)
      requires 1 <= k < 64 && capPow2 == Pow2(k)
      ensures Valid() && waiting == [] && buffer.Length == capPow2 && fresh(buffer)
    {
      Pow2Positive(k - 1);
      this.k := k;
      buffer := new T[capPow2](_ => blank);
      mask := capPow2 - 1;
      head, tail, pushed, popped, waiting := 0, 0, [], [], [];
      new;
      assert View() == Init(k, blank);
      InitInv(k, blank);
    }

    /** The ring keeps one cell free: it holds at most `mask` items, and refuses the next. */
    method TryPush(item: T) returns (ok: bool)
      requires Valid()
      modifies this`tail, this`pushed, this`waiting, buffer
      ensures Valid() && ok == (|old(waiting)| < mask)
      ensures waiting == if ok then old(waiting) + [item] else old(waiting)
    {
      PushAloneAppends(View(), item);
      ok := PushBody(item);
      waiting := if ok then waiting + [item] else waiting;
    }

    method PushBody(item: T) returns (ok: bool)
      requires mask == buffer.Length - 1 && View().Ring()
      modifies this`tail, this`pushed, buffer
      ensures View() == PushAlone(old(View()), item) && ok == (View() != old(View()))
    {
      ghost var s := View();
      ghost var next, hd, here := Index(s, Wrap(tail + 1)), Index(s, head), Index(s, tail);
      if And(Wrap(tail + 1), mask) == And(head, mask) {
        return false;
      }
      buffer[And(tail, mask)] := item;
      tail := Wrap(tail + 1);
      pushed := pushed + [item];
      assert |View().pushed| != |s.pushed|;
      return true;
    }

    /** Takes the oldest item, if there is one. */
    method TryPop() returns (got: Option<T>)
      requires Valid()
      modifies this`head, this`popped, this`waiting
      ensures Valid()
      ensures got == if old(waiting) == [] then None else Some(old(waiting)[0])
      ensures waiting == if old(waiting) == [] then [] else old(waiting)[1..]
    {
      PopAloneTakes(View());
      EmptyDecided(View(), |pushed|, |popped|);
      got := PopBody();
      waiting := if got.None? then [] else waiting[1..];
    }

    method PopBody() returns (got: Option<T>)
      requires mask == buffer.Length - 1 && View().Ring()
      modifies this`head, this`popped
      ensures View() == PopAlone(old(View()))
      ensures got == if Index(old(View()), old(head)) == Index(old(View()), tail) then None
                     else Some(buffer[Index(old(View()), old(head))])
    {
      ghost var s := View();
      ghost var hd, tl := Index(s, head), Index(s, tail);
      if And(head, mask) == And(tail, mask) {
        return None;
      }
      var out := buffer[And(head, mask)];
      head := Wrap(head + 1);
      popped := popped + [out];
      return Some(out);
    }

    /** Empties the ring into a list, oldest first. */
    method DrainTo() returns (items: seq<T>)
      requires Valid()
      modifies this`head, this`popped, this`waiting
      ensures Valid() && waiting == [] && items == old(waiting)
    {
      items := [];
      while true
        invariant Valid() && items + waiting == old(waiting)
        decreases |waiting|
      {
        ghost var before := waiting;
        var got := TryPop();
        if got.None? {
          return;
        }
        MoveHead(items, before);
        items := items + [got.value];
      }
    }
  }
}
