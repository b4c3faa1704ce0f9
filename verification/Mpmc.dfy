/**
 The bounded multi-producer multi-consumer ring, one atomic access per step.

 A ring of `cap` cells hands out tickets. A producer that claims ticket `p` owns cell `Cell(p, cap)` until it
 publishes the value there; a consumer that claims ticket `p` owns the same cell until it releases it to
 ticket `p + cap`. The cell's sequence number says whose turn it is.

 Threads are program counters. Every load, compare-and-swap and store is one step of one thread, so a
 schedule (a list of steps) is an interleaving, and a theorem about every schedule is a theorem about
 every interleaving of any number of producers and consumers.
 */
module Mpmc {
  import opened Wrappers
  import opened Slots

  /** Where a thread stands inside `push` or `pop`. */
  datatype Pc<V> =
    | Idle
      // push
    | PushLook(v: V, pos: nat)           // has a position, about to load the cell's sequence number
    | PushTry(v: V, pos: nat, saw: nat)  // has loaded it, about to compare and swap
    | PushReload(v: V)                   // lost its place, about to reload the enqueue position
    | PushWrite(v: V, pos: nat)          // owns ticket pos, about to write the value
    | PushPublish(v: V, pos: nat)        // has written it, about to store the sequence number
    | PushReturned(ok: bool)
      // pop
    | PopLook(pos: nat)
    | PopTry(pos: nat, saw: nat)
    | PopReload
    | PopRead(pos: nat)                  // owns ticket pos, about to read the value
    | PopRelease(pos: nat, out: V)       // has read it, about to store the sequence number
    | PopReturned(got: Option<V>)
  {
    predicate Resting() {
      Idle? || PushReturned? || PopReturned?
    }

    /** The thread owns a cell. */
    predicate Owning() {
      PushWrite? || PushPublish? || PopRead? || PopRelease?
    }

    /** The thread owns push ticket p. */
    predicate Pushing(p: nat) {
      (PushWrite? || PushPublish?) && pos == p
    }

    /** The thread owns pop ticket p. */
    predicate Popping(p: nat) {
      (PopRead? || PopRelease?) && pos == p
    }
  }

  /**
   The ring, its threads, and what has happened so far. The last five fields are history: no step reads
   them, they only record who claimed which ticket and what came of it.
   */
  datatype State<V> = State(
    seqs: seq<nat>,              // the cells' sequence numbers
    vals: seq<V>,                // the cells' values
    enq: nat,                    // the enqueue position
    deq: nat,                    // the dequeue position
    pcs: seq<Pc<V>>,             // one program counter per thread
    pushed: seq<V>,              // the value pushed under each claimed push ticket
    pushers: seq<nat>,           // the thread that claimed each push ticket
    poppers: seq<nat>,           // the thread that claimed each pop ticket
    published: set<nat>,         // tickets whose push has stored its sequence number
    delivered: map<nat, V>       // what the pop of each finished ticket returned
  )
  {
    function Cap(): nat { |seqs| }
  }

  datatype Action<V> =
    | StartPush(t: nat, v: V)
    | StartPop(t: nat)
    | Step(t: nat, spurious: bool)  // a weak compare-and-swap may fail although the position matches

  function Init<V>(cap: nat, threads: nat, blank: V): State<V> {
    State(seq(cap, i => i), seq(cap, _ => blank), 0, 0, seq(threads, _ => Idle), [], [], [], {}, map[])
  }

  function Goto<V>(s: State<V>, t: nat, pc: Pc<V>): State<V>
    requires t < |s.pcs|
  {
    s.(pcs := s.pcs[t := pc])
  }

  /** One atomic step of thread t inside `push`. */
  function PushStep<V>(s: State<V>, t: nat, spurious: bool): State<V>
    requires t < |s.pcs| && 0 < |s.seqs| == |s.vals|
  {
    match s.pcs[t]
    case PushLook(v, pos) => Goto(s, t, PushTry(v, pos, s.seqs[Cell(pos, s.Cap())]))
    case PushTry(v, pos, saw) =>
      if saw == pos then
        if s.enq == pos && !spurious then
          Goto(s, t, PushWrite(v, pos)).(enq := pos + 1, pushed := s.pushed + [v], pushers := s.pushers + [t])
        else
          Goto(s, t, PushLook(v, s.enq))
      else if saw < pos then Goto(s, t, PushReturned(false))
      else Goto(s, t, PushReload(v))
    case PushReload(v) => Goto(s, t, PushLook(v, s.enq))
    case PushWrite(v, pos) => Goto(s, t, PushPublish(v, pos)).(vals := s.vals[Cell(pos, s.Cap()) := v])
    case PushPublish(v, pos) =>
      Goto(s, t, PushReturned(true)).(seqs := s.seqs[Cell(pos, s.Cap()) := pos + 1], published := s.published + {pos})
    case _ => s
  }

  /** One atomic step of thread t inside `pop`. */
  function PopStep<V>(s: State<V>, t: nat, spurious: bool): State<V>
    requires t < |s.pcs| && 0 < |s.seqs| == |s.vals|
  {
    match s.pcs[t]
    case PopLook(pos) => Goto(s, t, PopTry(pos, s.seqs[Cell(pos, s.Cap())]))
    case PopTry(pos, saw) =>
      if saw == pos + 1 then
        if s.deq == pos && !spurious then
          Goto(s, t, PopRead(pos)).(deq := pos + 1, poppers := s.poppers + [t])
        else
          Goto(s, t, PopLook(s.deq))
      else if saw < pos + 1 then Goto(s, t, PopReturned(None))
      else Goto(s, t, PopReload)
    case PopReload => Goto(s, t, PopLook(s.deq))
    case PopRead(pos) => Goto(s, t, PopRelease(pos, s.vals[Cell(pos, s.Cap())]))
    case PopRelease(pos, out) =>
      Goto(s, t, PopReturned(Some(out)))
        .(seqs := s.seqs[Cell(pos, s.Cap()) := pos + s.Cap()], delivered := s.delivered[pos := out])
    case _ => s
  }

  /** What an action does; an action that is not enabled changes nothing. */
  function Next<V>(s: State<V>, a: Action<V>): State<V>
    requires 0 < |s.seqs| == |s.vals|
  {
    if a.t >= |s.pcs| then s else
    match a
    case StartPush(t, v) => if s.pcs[t].Resting() then Goto(s, t, PushLook(v, s.enq)) else s
    case StartPop(t) => if s.pcs[t].Resting() then Goto(s, t, PopLook(s.deq)) else s
    case Step(t, spurious) =>
      var pc := s.pcs[t];
      if pc.PushLook? || pc.PushTry? || pc.PushReload? || pc.PushWrite? || pc.PushPublish?
      then PushStep(s, t, spurious)
      else PopStep(s, t, spurious)
  }

  // ---------------------------------------------------------------- invariant

  ghost predicate Shape<V>(s: State<V>) {
    && 2 <= |s.seqs| == |s.vals|
    && s.deq <= s.enq
    && |s.pushed| == |s.pushers| == s.enq
    && |s.poppers| == s.deq
  }

  /** Cell i is waiting for the push of its next ticket, or holds the value of a published one. */
  ghost predicate CellOk<V>(s: State<V>, i: nat)
    requires Shape(s) && i < |s.seqs|
  {
    var q, cap := s.seqs[i], s.Cap();
    if Cell(q, cap) == i then
      && s.deq <= q && s.enq <= q + cap
      && (q >= cap ==> q - cap < s.deq)
    else
      && q >= 1 && Cell(q - 1, cap) == i
      && q - 1 < s.enq <= q - 1 + cap
      && (q - 1 >= cap ==> q - 1 - cap < s.deq)
      && s.vals[i] == s.pushed[q - 1]
  }

  ghost predicate ThreadOk<V>(s: State<V>, t: nat)
    requires Shape(s) && t < |s.pcs|
  {
    var cap := s.Cap();
    match s.pcs[t]
    case PushLook(v, pos) => pos <= s.enq
    case PushTry(v, pos, saw) => pos <= s.enq && saw <= s.seqs[Cell(pos, cap)]
    case PushWrite(v, pos) =>
      pos < s.enq && s.pushers[pos] == t && s.pushed[pos] == v && s.seqs[Cell(pos, cap)] == pos
    case PushPublish(v, pos) =>
      && pos < s.enq && s.pushers[pos] == t && s.pushed[pos] == v && s.seqs[Cell(pos, cap)] == pos
      && s.vals[Cell(pos, cap)] == v
    case PopLook(pos) => pos <= s.deq
    case PopTry(pos, saw) => pos <= s.deq && saw <= s.seqs[Cell(pos, cap)]
    case PopRead(pos) => pos < s.deq && s.poppers[pos] == t && s.seqs[Cell(pos, cap)] == pos + 1
    case PopRelease(pos, out) =>
      && pos < s.deq && s.poppers[pos] == t && s.seqs[Cell(pos, cap)] == pos + 1
      && out == s.pushed[pos]
    case _ => true
  }

  /** A ticket is published, or delivered, exactly when its cell's sequence number says so. */
  ghost predicate HistoryOk<V>(s: State<V>)
    requires Shape(s)
  {
    && (forall p: nat :: p in s.published <==> s.seqs[Cell(p, s.Cap())] > p)
    && (forall p: nat :: p in s.delivered <==> s.seqs[Cell(p, s.Cap())] >= p + s.Cap())
    && (forall p: nat | p in s.delivered :: p < s.deq && s.delivered[p] == s.pushed[p])
  }

  /** A claimed ticket that is not finished yet is in the hands of the thread that claimed it. */
  ghost predicate OwnersOk<V>(s: State<V>)
    requires Shape(s)
  {
    && (forall p: nat | p < s.enq && p !in s.published ::
          s.pushers[p] < |s.pcs| && s.pcs[s.pushers[p]].Pushing(p))
    && (forall p: nat | p < s.deq && p !in s.delivered ::
          s.poppers[p] < |s.pcs| && s.pcs[s.poppers[p]].Popping(p))
  }

  ghost predicate Inv<V>(s: State<V>) {
    && Shape(s)
    && (forall i: nat | i < |s.seqs| :: CellOk(s, i))
    && (forall t: nat | t < |s.pcs| :: ThreadOk(s, t))
    && HistoryOk(s)
    && OwnersOk(s)
  }

  lemma InitInv<V>(cap: nat, threads: nat, blank: V)
    requires cap >= 2
    ensures Inv(Init(cap, threads, blank))
  {
    var s := Init(cap, threads, blank);
  }

  // ---------------------------------------------------------------- what a sequence number tells

  /**
   What a producer learns when it loads the sequence number of the cell of its position, however stale
   the position: smaller means exactly that the ring is full at this moment.
   */
  lemma PushSees<V>(s: State<V>, pos: nat)
    requires Inv(s) && pos <= s.enq
    ensures var q := s.seqs[Cell(pos, s.Cap())];
      && (s.enq == pos ==> q <= pos)
      && (q < pos <==> s.enq == pos && pos >= s.Cap() && pos - s.Cap() !in s.delivered)
  {
    var cap := s.Cap();
    var i := Cell(pos, cap);
    var q := s.seqs[i];
    assert CellOk(s, i);
    if Cell(q, cap) == i {
      Laps(q, pos, cap);
    } else {
      Laps(q - 1, pos, cap);
    }
  }

  /**
   What a consumer learns when it loads the sequence number of the cell of its position, however stale
   the position: smaller means exactly that the next ticket has not been published at this moment.
   */
  lemma PopSees<V>(s: State<V>, pos: nat)
    requires Inv(s) && pos <= s.deq
    ensures var q := s.seqs[Cell(pos, s.Cap())];
      && (q < pos + 1 <==> s.deq == pos && pos !in s.published)
      && (s.deq == pos ==> q <= pos + 1)
      && (s.deq == pos && q == pos + 1 ==>
           pos < s.enq && pos in s.published && s.vals[Cell(pos, s.Cap())] == s.pushed[pos])
  {
    var cap := s.Cap();
    var i := Cell(pos, cap);
    var q := s.seqs[i];
    assert CellOk(s, i);
    if Cell(q, cap) == i {
      Laps(q, pos, cap);
    } else {
      Laps(q - 1, pos, cap);
    }
    NextTicket(pos, cap);
  }

  // ---------------------------------------------------------------- every step keeps the invariant

  // A step that only moves thread t, to a place whose conditions hold.

  lemma MoveCell<V>(s: State<V>, t: nat, pc: Pc<V>, i: nat)
    requires Shape(s) && t < |s.pcs| && i < |s.seqs| && CellOk(s, i)
    ensures CellOk(Goto(s, t, pc), i)
  {
  }

  lemma MoveThread<V>(s: State<V>, t: nat, pc: Pc<V>, u: nat)
    requires Shape(s) && t < |s.pcs| && u < |s.pcs| && ThreadOk(s, u) && ThreadOk(Goto(s, t, pc), t)
    ensures ThreadOk(Goto(s, t, pc), u)
  {
  }

  lemma MoveOwners<V>(s: State<V>, t: nat, pc: Pc<V>)
    requires Shape(s) && t < |s.pcs| && OwnersOk(s)
    requires forall p: nat :: s.pcs[t].Pushing(p) ==> pc.Pushing(p)
    requires forall p: nat :: s.pcs[t].Popping(p) ==> pc.Popping(p)
    ensures OwnersOk(Goto(s, t, pc))
  {
  }

  lemma MoveInv<V>(s: State<V>, t: nat, pc: Pc<V>)
    requires Inv(s) && t < |s.pcs| && ThreadOk(Goto(s, t, pc), t)
    requires forall p: nat :: s.pcs[t].Pushing(p) ==> pc.Pushing(p)
    requires forall p: nat :: s.pcs[t].Popping(p) ==> pc.Popping(p)
    ensures Inv(Goto(s, t, pc))
  {
    var s' := Goto(s, t, pc);
    forall i: nat | i < |s'.seqs| ensures CellOk(s', i) { MoveCell(s, t, pc, i); }
    forall u: nat | u < |s'.pcs| ensures ThreadOk(s', u) { MoveThread(s, t, pc, u); }
    MoveOwners(s, t, pc);
  }

  // Claiming a push ticket.

  ghost predicate PushClaims<V>(s: State<V>, t: nat)
    requires Shape(s)
  {
    t < |s.pcs| && s.pcs[t].PushTry? && s.pcs[t].saw == s.pcs[t].pos == s.enq
    && s.seqs[Cell(s.enq, s.Cap())] == s.enq
  }

  lemma PushClaimCell<V>(s: State<V>, t: nat, i: nat)
    requires Shape(s) && PushClaims(s, t) && i < |s.seqs| && CellOk(s, i)
    ensures Shape(PushStep(s, t, false)) && CellOk(PushStep(s, t, false), i)
  {
    var q, cap := s.seqs[i], s.Cap();
    if q >= 1 {
      NextTicket(q - 1, cap);
      Laps(q - 1, s.enq, cap);
    }
  }

  lemma PushClaimThread<V>(s: State<V>, t: nat, u: nat)
    requires Shape(s) && PushClaims(s, t) && u < |s.pcs| && ThreadOk(s, u)
    ensures Shape(PushStep(s, t, false)) && ThreadOk(PushStep(s, t, false), u)
  {
  }

  lemma PushClaimHistory<V>(s: State<V>, t: nat)
    requires Shape(s) && PushClaims(s, t) && HistoryOk(s) && OwnersOk(s)
    ensures Shape(PushStep(s, t, false)) && HistoryOk(PushStep(s, t, false)) && OwnersOk(PushStep(s, t, false))
  {
    var s' := PushStep(s, t, false);
    forall p: nat | p < s'.enq && p !in s'.published
      ensures s'.pushers[p] < |s'.pcs| && s'.pcs[s'.pushers[p]].Pushing(p) {
    }
  }

  lemma PushClaimInv<V>(s: State<V>, t: nat)
    requires Inv(s) && t < |s.pcs| && s.pcs[t].PushTry? && s.pcs[t].saw == s.pcs[t].pos == s.enq
    ensures Inv(PushStep(s, t, false))
  {
    var s' := PushStep(s, t, false);
    assert ThreadOk(s, t);
    PushSees(s, s.enq);
    assert PushClaims(s, t);
    forall i: nat | i < |s'.seqs| ensures CellOk(s', i) { PushClaimCell(s, t, i); }
    forall u: nat | u < |s'.pcs| ensures ThreadOk(s', u) { PushClaimThread(s, t, u); }
    PushClaimHistory(s, t);
  }

  // Claiming a pop ticket.

  ghost predicate PopClaims<V>(s: State<V>, t: nat)
    requires Shape(s)
  {
    t < |s.pcs| && s.pcs[t].PopTry? && s.pcs[t].saw == s.pcs[t].pos + 1 && s.pcs[t].pos == s.deq
    && s.seqs[Cell(s.deq, s.Cap())] == s.deq + 1 && s.deq < s.enq
  }

  lemma PopClaimCell<V>(s: State<V>, t: nat, i: nat)
    requires Shape(s) && PopClaims(s, t) && i < |s.seqs| && CellOk(s, i)
    ensures Shape(PopStep(s, t, false)) && CellOk(PopStep(s, t, false), i)
  {
    NextTicket(s.deq, s.Cap());
  }

  lemma PopClaimThread<V>(s: State<V>, t: nat, u: nat)
    requires Shape(s) && PopClaims(s, t) && u < |s.pcs| && ThreadOk(s, u)
    ensures Shape(PopStep(s, t, false)) && ThreadOk(PopStep(s, t, false), u)
  {
  }

  lemma PopClaimHistory<V>(s: State<V>, t: nat)
    requires Shape(s) && PopClaims(s, t) && HistoryOk(s) && OwnersOk(s)
    ensures Shape(PopStep(s, t, false)) && HistoryOk(PopStep(s, t, false)) && OwnersOk(PopStep(s, t, false))
  {
    var s' := PopStep(s, t, false);
    forall p: nat | p < s'.deq && p !in s'.delivered
      ensures s'.poppers[p] < |s'.pcs| && s'.pcs[s'.poppers[p]].Popping(p) {
    }
  }

  lemma PopClaimInv<V>(s: State<V>, t: nat)
    requires Inv(s) && t < |s.pcs| && s.pcs[t].PopTry? && s.pcs[t].saw == s.pcs[t].pos + 1 && s.pcs[t].pos == s.deq
    ensures Inv(PopStep(s, t, false))
  {
    var s' := PopStep(s, t, false);
    assert ThreadOk(s, t);
    PopSees(s, s.deq);
    assert PopClaims(s, t);
    forall i: nat | i < |s'.seqs| ensures CellOk(s', i) { PopClaimCell(s, t, i); }
    forall u: nat | u < |s'.pcs| ensures ThreadOk(s', u) { PopClaimThread(s, t, u); }
    PopClaimHistory(s, t);
  }

  // Writing the value into the claimed cell, and reading it out of one.

  lemma WriteCell<V>(s: State<V>, t: nat, i: nat)
    requires Shape(s) && t < |s.pcs| && s.pcs[t].PushWrite? && ThreadOk(s, t)
    requires i < |s.seqs| && CellOk(s, i)
    ensures Shape(PushStep(s, t, false)) && CellOk(PushStep(s, t, false), i)
  {
  }

  lemma WriteThread<V>(s: State<V>, t: nat, u: nat)
    requires Shape(s) && t < |s.pcs| && s.pcs[t].PushWrite? && ThreadOk(s, t)
    requires u < |s.pcs| && ThreadOk(s, u)
    ensures Shape(PushStep(s, t, false)) && ThreadOk(PushStep(s, t, false), u)
  {
  }

  lemma WriteOwners<V>(s: State<V>, t: nat)
    requires Shape(s) && t < |s.pcs| && s.pcs[t].PushWrite? && HistoryOk(s) && OwnersOk(s)
    ensures Shape(PushStep(s, t, false)) && HistoryOk(PushStep(s, t, false)) && OwnersOk(PushStep(s, t, false))
  {
  }

  lemma WriteInv<V>(s: State<V>, t: nat)
    requires Inv(s) && t < |s.pcs| && s.pcs[t].PushWrite?
    ensures Inv(PushStep(s, t, false))
  {
    var s' := PushStep(s, t, false);
    assert ThreadOk(s, t);
    forall i: nat | i < |s'.seqs| ensures CellOk(s', i) { WriteCell(s, t, i); }
    forall u: nat | u < |s'.pcs| ensures ThreadOk(s', u) { WriteThread(s, t, u); }
    WriteOwners(s, t);
  }

  lemma ReadInv<V>(s: State<V>, t: nat)
    requires Inv(s) && t < |s.pcs| && s.pcs[t].PopRead?
    ensures Inv(PopStep(s, t, false))
  {
    var pos := s.pcs[t].pos;
    assert ThreadOk(s, t);
    assert CellOk(s, Cell(pos, s.Cap()));
    NextTicket(pos, s.Cap());
    MoveInv(s, t, PopRelease(pos, s.vals[Cell(pos, s.Cap())]));
  }

  // Publishing the value.

  lemma PublishCell<V>(s: State<V>, t: nat, i: nat)
    requires Shape(s) && t < |s.pcs| && s.pcs[t].PushPublish? && ThreadOk(s, t)
    requires i < |s.seqs| && CellOk(s, i)
    ensures Shape(PushStep(s, t, false)) && CellOk(PushStep(s, t, false), i)
  {
    NextTicket(s.pcs[t].pos, s.Cap());
  }

  lemma PublishThread<V>(s: State<V>, t: nat, u: nat)
    requires Shape(s) && t < |s.pcs| && s.pcs[t].PushPublish? && ThreadOk(s, t)
    requires u < |s.pcs| && ThreadOk(s, u)
    ensures Shape(PushStep(s, t, false)) && ThreadOk(PushStep(s, t, false), u)
  {
    if s.pcs[u].PopRead? || s.pcs[u].PopRelease? {
      NextTicket(s.pcs[u].pos, s.Cap());
    }
  }

  lemma PublishHistory<V>(s: State<V>, t: nat)
    requires Shape(s) && t < |s.pcs| && s.pcs[t].PushPublish? && ThreadOk(s, t) && HistoryOk(s)
    ensures Shape(PushStep(s, t, false)) && HistoryOk(PushStep(s, t, false))
  {
    var s' := PushStep(s, t, false);
    var pos, cap := s.pcs[t].pos, s.Cap();
    forall p: nat ensures p in s'.published <==> s'.seqs[Cell(p, cap)] > p {
      Laps(p, pos, cap);
    }
    forall p: nat ensures p in s'.delivered <==> s'.seqs[Cell(p, cap)] >= p + cap {
      Laps(p, pos, cap);
    }
  }

  lemma PublishOwners<V>(s: State<V>, t: nat)
    requires Shape(s) && t < |s.pcs| && s.pcs[t].PushPublish? && OwnersOk(s)
    ensures Shape(PushStep(s, t, false)) && OwnersOk(PushStep(s, t, false))
  {
  }

  lemma PublishInv<V>(s: State<V>, t: nat)
    requires Inv(s) && t < |s.pcs| && s.pcs[t].PushPublish?
    ensures Inv(PushStep(s, t, false))
  {
    var s' := PushStep(s, t, false);
    assert ThreadOk(s, t);
    forall i: nat | i < |s'.seqs| ensures CellOk(s', i) { PublishCell(s, t, i); }
    forall u: nat | u < |s'.pcs| ensures ThreadOk(s', u) { PublishThread(s, t, u); }
    PublishHistory(s, t);
    PublishOwners(s, t);
  }

  // Releasing the cell to the next lap.

  lemma ReleaseCell<V>(s: State<V>, t: nat, i: nat)
    requires Shape(s) && t < |s.pcs| && s.pcs[t].PopRelease? && ThreadOk(s, t)
    requires i < |s.seqs| && CellOk(s, i)
    ensures Shape(PopStep(s, t, false)) && CellOk(PopStep(s, t, false), i)
  {
    NextTicket(s.pcs[t].pos, s.Cap());
  }

  lemma ReleaseThread<V>(s: State<V>, t: nat, u: nat)
    requires Shape(s) && t < |s.pcs| && s.pcs[t].PopRelease? && ThreadOk(s, t)
    requires u < |s.pcs| && ThreadOk(s, u)
    ensures Shape(PopStep(s, t, false)) && ThreadOk(PopStep(s, t, false), u)
  {
    NextTicket(s.pcs[t].pos, s.Cap());
  }

  lemma ReleaseHistory<V>(s: State<V>, t: nat)
    requires Shape(s) && t < |s.pcs| && s.pcs[t].PopRelease? && ThreadOk(s, t) && HistoryOk(s)
    ensures Shape(PopStep(s, t, false)) && HistoryOk(PopStep(s, t, false))
  {
    var s' := PopStep(s, t, false);
    var pos, cap := s.pcs[t].pos, s.Cap();
    forall p: nat ensures p in s'.published <==> s'.seqs[Cell(p, cap)] > p {
      Laps(p, pos, cap);
    }
    forall p: nat ensures p in s'.delivered <==> s'.seqs[Cell(p, cap)] >= p + cap {
      Laps(p, pos, cap);
    }
  }

  lemma ReleaseOwners<V>(s: State<V>, t: nat)
    requires Shape(s) && t < |s.pcs| && s.pcs[t].PopRelease? && OwnersOk(s)
    ensures Shape(PopStep(s, t, false)) && OwnersOk(PopStep(s, t, false))
  {
  }

  lemma ReleaseInv<V>(s: State<V>, t: nat)
    requires Inv(s) && t < |s.pcs| && s.pcs[t].PopRelease?
    ensures Inv(PopStep(s, t, false))
  {
    var s' := PopStep(s, t, false);
    assert ThreadOk(s, t);
    forall i: nat | i < |s'.seqs| ensures CellOk(s', i) { ReleaseCell(s, t, i); }
    forall u: nat | u < |s'.pcs| ensures ThreadOk(s', u) { ReleaseThread(s, t, u); }
    ReleaseHistory(s, t);
    ReleaseOwners(s, t);
  }

  // All of them.

  lemma PushStepInv<V>(s: State<V>, t: nat, spurious: bool)
    requires Inv(s) && t < |s.pcs|
    ensures Inv(PushStep(s, t, spurious))
  {
    assert ThreadOk(s, t);
    match s.pcs[t]
    case PushLook(v, pos) => MoveInv(s, t, PushTry(v, pos, s.seqs[Cell(pos, s.Cap())]));
    case PushTry(v, pos, saw) =>
      if saw == pos && s.enq == pos && !spurious {
        PushClaimInv(s, t);
      } else if saw == pos {
        MoveInv(s, t, PushLook(v, s.enq));
      } else if saw < pos {
        MoveInv(s, t, PushReturned(false));
      } else {
        MoveInv(s, t, PushReload(v));
      }
    case PushReload(v) => MoveInv(s, t, PushLook(v, s.enq));
    case PushWrite(v, pos) => WriteInv(s, t);
    case PushPublish(v, pos) => PublishInv(s, t);
    case _ =>
  }

  lemma PopStepInv<V>(s: State<V>, t: nat, spurious: bool)
    requires Inv(s) && t < |s.pcs|
    ensures Inv(PopStep(s, t, spurious))
  {
    assert ThreadOk(s, t);
    match s.pcs[t]
    case PopLook(pos) => MoveInv(s, t, PopTry(pos, s.seqs[Cell(pos, s.Cap())]));
    case PopTry(pos, saw) =>
      if saw == pos + 1 && s.deq == pos && !spurious {
        PopClaimInv(s, t);
      } else if saw == pos + 1 {
        MoveInv(s, t, PopLook(s.deq));
      } else if saw < pos + 1 {
        MoveInv(s, t, PopReturned(None));
      } else {
        MoveInv(s, t, PopReload);
      }
    case PopReload => MoveInv(s, t, PopLook(s.deq));
    case PopRead(pos) => ReadInv(s, t);
    case PopRelease(pos, out) => ReleaseInv(s, t);
    case _ =>
  }

  lemma NextInv<V>(s: State<V>, a: Action<V>)
    requires Inv(s)
    ensures Inv(Next(s, a))
  {
    if a.t < |s.pcs| {
      match a
      case StartPush(t, v) => if s.pcs[t].Resting() { MoveInv(s, t, PushLook(v, s.enq)); }
      case StartPop(t) => if s.pcs[t].Resting() { MoveInv(s, t, PopLook(s.deq)); }
      case Step(t, spurious) =>
        PushStepInv(s, t, spurious);
        PopStepInv(s, t, spurious);
    }
  }
}
