/**
 What the multi-producer multi-consumer ring guarantees over all interleavings: exactly once, no overwriting, when
 an operation fails, and that the ring refines a first-in first-out queue.
 */
module MpmcSafety {
  import opened Wrappers
  import opened Slots
  import opened Words
  import opened Mpmc

  // ---------------------------------------------------------------- every interleaving

  /** The state a schedule leads to. */
  function Run<V>(s: State<V>, schedule: seq<Action<V>>): State<V>
    requires 0 < |s.seqs| == |s.vals|
    decreases |schedule|
  {
    if schedule == [] then s else Run(Next(s, schedule[0]), schedule[1..])
  }

  lemma {:induction false} RunInv<V>(s: State<V>, schedule: seq<Action<V>>)
    requires Inv(s)
    ensures Inv(Run(s, schedule))
    decreases |schedule|
  {
    if schedule != [] {
      NextInv(s, schedule[0]);
      RunInv(Next(s, schedule[0]), schedule[1..]);
    }
  }

  /** The states some interleaving of some number of threads leads to. */
  ghost predicate Reachable<V(!new)>(s: State<V>) {
    && 2 <= |s.seqs| == |s.vals|
    && exists cap: nat, threads: nat, blank: V, schedule: seq<Action<V>> ::
         cap >= 2 && s == Run(Init(cap, threads, blank), schedule)
  }

  /** Whatever the interleaving, the ring is in order. */
  lemma EveryInterleaving<V(!new)>(s: State<V>)
    requires Reachable(s)
    ensures Inv(s)
  {
    var cap: nat, threads: nat, blank: V, schedule: seq<Action<V>> :|
      cap >= 2 && s == Run(Init(cap, threads, blank), schedule);
    InitInv(cap, threads, blank);
    RunInv(Init(cap, threads, blank), schedule);
  }

  /** A release delivers the value pushed under its ticket, which was not delivered before. */
  lemma ReleaseDelivers<V>(s: State<V>, t: nat)
    requires Shape(s) && HistoryOk(s) && t < |s.pcs| && ThreadOk(s, t) && s.pcs[t].PopRelease?
    ensures var s', p := PopStep(s, t, false), s.pcs[t].pos;
      && p !in s.delivered && p < |s.pushed| && p < |s.poppers| && s.poppers[p] == t
      && s'.pushed == s.pushed && s'.delivered == s.delivered[p := s.pushed[p]]
      && s'.pcs[t] == PopReturned(Some(s.pushed[p]))
  {
  }

  /** The thread did not just return a value from `pop`. */
  predicate NothingGot<V>(s: State<V>, t: nat) {
    t < |s.pcs| ==> !(s.pcs[t].PopReturned? && s.pcs[t].got.Some?)
  }

  lemma PushDeliversNothing<V>(s: State<V>, t: nat, spurious: bool)
    requires Shape(s) && t < |s.pcs|
    ensures var s' := PushStep(s, t, spurious);
      s.pushed <= s'.pushed && s'.delivered == s.delivered && (s' == s || NothingGot(s', t))
  {
  }

  lemma PopDeliversNothing<V>(s: State<V>, t: nat, spurious: bool)
    requires Shape(s) && t < |s.pcs| && !s.pcs[t].PopRelease?
    ensures var s' := PopStep(s, t, spurious);
      s'.pushed == s.pushed && s'.delivered == s.delivered && (s' == s || NothingGot(s', t))
  {
  }

  /** No other step delivers anything, or makes a `pop` return a value. */
  lemma OtherStepsDeliverNothing<V>(s: State<V>, a: Action<V>)
    requires Shape(s) && !(a.Step? && a.t < |s.pcs| && s.pcs[a.t].PopRelease?)
    ensures var s' := Next(s, a);
      s.pushed <= s'.pushed && s'.delivered == s.delivered && (s' == s || NothingGot(s', a.t))
  {
    if a.Step? && a.t < |s.pcs| {
      PushDeliversNothing(s, a.t, a.spurious);
      PopDeliversNothing(s, a.t, a.spurious);
    }
  }

  /**
   Exactly once. A step never takes back a delivery, and when it delivers it delivers one ticket that was
   never delivered before and that the stepping thread itself claimed, and that thread returns the very value
   pushed under it.
   */
  lemma DeliversOnce<V(!new)>(s: State<V>, a: Action<V>)
    requires Reachable(s)
    ensures var s' := Next(s, a);
      && s.pushed <= s'.pushed
      && (s'.delivered == s.delivered ||
           exists p: nat :: p !in s.delivered && p < |s.pushed| && p < |s.poppers| && s.poppers[p] == a.t
                         && s'.delivered == s.delivered[p := s.pushed[p]]
                         && a.t < |s'.pcs| && s'.pcs[a.t] == PopReturned(Some(s.pushed[p])))
      && (s'.delivered == s.delivered ==> s' == s || NothingGot(s', a.t))
  {
    EveryInterleaving(s);
    if a.Step? && a.t < |s.pcs| && s.pcs[a.t].PopRelease? {
      ReleaseDelivers(s, a.t);
      assert s.pcs[a.t].pos in Next(s, a).delivered;
    } else {
      OtherStepsDeliverNothing(s, a);
    }
  }

  lemma OwnersApart<V>(s: State<V>, t: nat, u: nat)
    requires Shape(s) && t < |s.pcs| && u < |s.pcs| && u != t && ThreadOk(s, t) && ThreadOk(s, u)
    requires s.pcs[t].PushWrite? && s.pcs[u].Owning()
    ensures Cell(s.pcs[u].pos, s.Cap()) != Cell(s.pcs[t].pos, s.Cap())
  {
    NextTicket(s.pcs[u].pos, s.Cap());
  }

  lemma WritesAfterDelivery<V>(s: State<V>, t: nat)
    requires Shape(s) && HistoryOk(s) && t < |s.pcs| && ThreadOk(s, t) && s.pcs[t].PushWrite?
    ensures s.pcs[t].pos >= s.Cap() ==> s.pcs[t].pos - s.Cap() in s.delivered
  {
    if s.pcs[t].pos >= s.Cap() {
      assert Cell(s.pcs[t].pos, s.Cap()) == Cell(s.pcs[t].pos - s.Cap(), s.Cap());
    }
  }

  /** No cell is written before its previous ticket was delivered, nor while anyone else is using it. */
  lemma NoOverwrite<V(!new)>(s: State<V>, t: nat)
    requires Reachable(s) && t < |s.pcs| && s.pcs[t].PushWrite?
    ensures s.pcs[t].pos >= s.Cap() ==> s.pcs[t].pos - s.Cap() in s.delivered
    ensures forall u: nat | u < |s.pcs| && u != t && s.pcs[u].Owning() ::
              Cell(s.pcs[u].pos, s.Cap()) != Cell(s.pcs[t].pos, s.Cap())
  {
    EveryInterleaving(s);
    assert ThreadOk(s, t);
    WritesAfterDelivery(s, t);
    forall u: nat | u < |s.pcs| && u != t && s.pcs[u].Owning()
      ensures Cell(s.pcs[u].pos, s.Cap()) != Cell(s.pcs[t].pos, s.Cap())
    {
      assert ThreadOk(s, u);
      OwnersApart(s, t, u);
    }
  }

  /** A published ticket that is not delivered yet sits in its cell. */
  lemma InItsCell<V>(s: State<V>, p: nat)
    requires Inv(s) && p in s.published && p !in s.delivered
    ensures p < s.enq && s.vals[Cell(p, s.Cap())] == s.pushed[p]
  {
    var i := Cell(p, s.Cap());
    assert CellOk(s, i);
    Laps(s.seqs[i], p, s.Cap());
    if s.seqs[i] >= 1 {
      Laps(s.seqs[i] - 1, p, s.Cap());
    }
  }

  /**
   When no thread is inside an operation, the tickets are accounted for one by one: the popped ones were
   delivered with their values, the others sit in their cells, and they fit in the ring.
   */
  lemma AtRest<V(!new)>(s: State<V>)
    requires Reachable(s) && forall t: nat | t < |s.pcs| :: s.pcs[t].Resting()
    ensures |s.pushed| == s.enq && s.deq <= s.enq <= s.deq + s.Cap()
    ensures forall p: nat :: p in s.delivered <==> p < s.deq
    ensures forall p: nat | p < s.deq :: s.delivered[p] == s.pushed[p]
    ensures forall p: nat | s.deq <= p < s.enq :: s.vals[Cell(p, s.Cap())] == s.pushed[p]
  {
    EveryInterleaving(s);
    forall p: nat | s.deq <= p < s.enq
      ensures s.vals[Cell(p, s.Cap())] == s.pushed[p]
    {
      InItsCell(s, p);
    }
    var last := s.deq + s.Cap();
    assert last in s.published <==> s.seqs[Cell(s.deq, s.Cap())] > last;
    assert s.deq in s.delivered <==> s.seqs[Cell(s.deq, s.Cap())] >= last;
  }

  /** The others cannot move a thread. */
  lemma {:induction false} OthersLeave<V>(s: State<V>, t: nat, others: seq<Action<V>>)
    requires 0 < |s.seqs| == |s.vals| && t < |s.pcs|
    requires forall a | a in others :: a.t != t
    ensures |Run(s, others).pcs| == |s.pcs| && Run(s, others).pcs[t] == s.pcs[t]
    ensures 0 < |Run(s, others).seqs| == |Run(s, others).vals|
    decreases |others|
  {
    if others != [] {
      assert others[0] in others;
      var s' := Next(s, others[0]);
      assert s'.pcs[t] == s.pcs[t];
      OthersLeave(s', t, others[1..]);
    }
  }

  /** What a thread does with the number it loads does not depend on what the others do meanwhile. */
  lemma LoadDecides<V>(s: State<V>, t: nat, others: seq<Action<V>>, spurious: bool)
    requires 0 < |s.seqs| == |s.vals| && t < |s.pcs| && forall a | a in others :: a.t != t
    ensures var later := Run(Next(s, Step(t, spurious)), others);
      && 0 < |later.seqs| == |later.vals| && |later.pcs| == |s.pcs|
      && (s.pcs[t].PushLook? ==>
            (Next(later, Step(t, spurious)).pcs[t] == PushReturned(false) <==>
               s.seqs[Cell(s.pcs[t].pos, s.Cap())] < s.pcs[t].pos))
      && (s.pcs[t].PopLook? ==>
            (Next(later, Step(t, spurious)).pcs[t] == PopReturned(None) <==>
               s.seqs[Cell(s.pcs[t].pos, s.Cap())] < s.pcs[t].pos + 1))
  {
    OthersLeave(Next(s, Step(t, spurious)), t, others);
  }

  /**
   Failure is exact. However stale its position, a `push` that loads a sequence number will return false,
   whatever the others do meanwhile, if and only if at the load its position was the enqueue position and
   the cell one lap back was not yet released.
   */
  lemma PushFailsExactly<V(!new)>(s: State<V>, t: nat, others: seq<Action<V>>, spurious: bool)
    requires Reachable(s) && t < |s.pcs| && s.pcs[t].PushLook?
    requires forall a | a in others :: a.t != t
    ensures var later := Run(Next(s, Step(t, spurious)), others);
      var pos := s.pcs[t].pos;
      && 0 < |later.seqs| == |later.vals| && |later.pcs| == |s.pcs|
      && (Next(later, Step(t, spurious)).pcs[t] == PushReturned(false) <==>
           s.enq == pos && pos >= s.Cap() && pos - s.Cap() !in s.delivered)
  {
    EveryInterleaving(s);
    assert ThreadOk(s, t);
    PushSees(s, s.pcs[t].pos);
    LoadDecides(s, t, others, spurious);
  }

  /**
   A `pop` that loads a sequence number will return false, whatever the others do meanwhile, if and only if
   at the load its position was the dequeue position and that ticket was not published.
   */
  lemma PopFailsExactly<V(!new)>(s: State<V>, t: nat, others: seq<Action<V>>, spurious: bool)
    requires Reachable(s) && t < |s.pcs| && s.pcs[t].PopLook?
    requires forall a | a in others :: a.t != t
    ensures var later := Run(Next(s, Step(t, spurious)), others);
      && 0 < |later.seqs| == |later.vals| && |later.pcs| == |s.pcs|
      && (Next(later, Step(t, spurious)).pcs[t] == PopReturned(None) <==>
           s.deq == s.pcs[t].pos && s.deq !in s.published)
  {
    EveryInterleaving(s);
    assert ThreadOk(s, t);
    PopSees(s, s.pcs[t].pos);
    LoadDecides(s, t, others, spurious);
  }

  // ---------------------------------------------------------------- the queue behind the ring

  /** An entry of the abstract queue: a claimed ticket's value, and whether its push has finished. */
  datatype Entry<V> = Entry(v: V, ready: bool)

  /** The tickets between the two positions, oldest first. */
  function Contents<V>(s: State<V>): seq<Entry<V>>
    requires s.deq <= |s.pushed|
  {
    seq(|s.pushed| - s.deq, i requires 0 <= i < |s.pushed| - s.deq =>
      Entry(s.pushed[s.deq + i], s.deq + i in s.published))
  }

  /** One step of a queue: nothing, a claim at the back, an entry made ready, or a take of a ready head. */
  ghost predicate QueueStep<V(!new)>(q: seq<Entry<V>>, q': seq<Entry<V>>) {
    || q' == q
    || (exists v: V :: q' == q + [Entry(v, false)])
    || (exists i: nat :: i < |q| && !q[i].ready && q' == q[i := Entry(q[i].v, true)])
    || (q != [] && q[0].ready && q' == q[1..])
  }

  /** Claiming a push ticket appends an entry that is not ready. */
  lemma ClaimAppends<V>(s: State<V>, t: nat)
    requires Inv(s) && t < |s.pcs| && s.pcs[t].PushTry? && s.pcs[t].saw == s.pcs[t].pos == s.enq
    ensures PushStep(s, t, false).deq <= |PushStep(s, t, false).pushed|
    ensures Contents(PushStep(s, t, false)) == Contents(s) + [Entry(s.pcs[t].v, false)]
  {
    PushClaimInv(s, t);
    PushSees(s, s.enq);
    assert ThreadOk(s, t);
  }

  lemma PublishContents<V>(s: State<V>, t: nat)
    requires Shape(s) && t < |s.pcs| && s.pcs[t].PushPublish? && s.deq <= s.pcs[t].pos < s.enq
    requires s.pushed[s.pcs[t].pos] == s.pcs[t].v && s.pcs[t].pos !in s.published
    ensures var q, pos := Contents(s), s.pcs[t].pos;
      q[pos - s.deq] == Entry(s.pcs[t].v, false)
      && Contents(PushStep(s, t, false)) == q[pos - s.deq := Entry(s.pcs[t].v, true)]
  {
  }

  /** Publishing makes the ticket's entry, still in the queue, ready. */
  lemma PublishReadies<V>(s: State<V>, t: nat)
    requires Inv(s) && t < |s.pcs| && s.pcs[t].PushPublish?
    ensures var q, pos := Contents(s), s.pcs[t].pos;
      s.deq <= pos < |s.pushed| && q[pos - s.deq] == Entry(s.pcs[t].v, false)
      && Contents(PushStep(s, t, false)) == q[pos - s.deq := Entry(s.pcs[t].v, true)]
  {
    var pos := s.pcs[t].pos;
    assert ThreadOk(s, t);
    assert pos !in s.published;
    assert CellOk(s, Cell(pos, s.Cap()));
    PublishContents(s, t);
  }

  lemma TakeContents<V>(s: State<V>, t: nat)
    requires Shape(s) && t < |s.pcs| && s.pcs[t].PopTry? && s.pcs[t].saw == s.pcs[t].pos + 1 && s.pcs[t].pos == s.deq
    requires s.deq < s.enq
    ensures PopStep(s, t, false).deq <= |PopStep(s, t, false).pushed|
    ensures Contents(PopStep(s, t, false)) == Contents(s)[1..]
  {
  }

  /** Claiming a pop ticket takes the head, which is ready. */
  lemma TakeRemoves<V>(s: State<V>, t: nat)
    requires Inv(s) && t < |s.pcs| && s.pcs[t].PopTry? && s.pcs[t].saw == s.pcs[t].pos + 1 && s.pcs[t].pos == s.deq
    ensures Contents(s) != [] && Contents(s)[0].ready
    ensures PopStep(s, t, false).deq <= |PopStep(s, t, false).pushed|
    ensures Contents(PopStep(s, t, false)) == Contents(s)[1..]
  {
    assert ThreadOk(s, t);
    PopSees(s, s.deq);
    TakeContents(s, t);
  }

  /** No other step touches the queue. */
  lemma OtherStepsLeaveQueue<V>(s: State<V>, t: nat, spurious: bool)
    requires Shape(s) && t < |s.pcs|
    ensures s.pcs[t].PushPublish? || PushStep(s, t, spurious).pushed != s.pushed
         || Contents(PushStep(s, t, spurious)) == Contents(s)
    ensures PopStep(s, t, spurious).deq != s.deq || Contents(PopStep(s, t, spurious)) == Contents(s)
  {
  }

  lemma PushRefines<V(!new)>(s: State<V>, t: nat, spurious: bool)
    requires Inv(s) && t < |s.pcs|
    ensures PushStep(s, t, spurious).deq <= |PushStep(s, t, spurious).pushed|
    ensures QueueStep(Contents(s), Contents(PushStep(s, t, spurious)))
  {
    OtherStepsLeaveQueue(s, t, spurious);
    var pc := s.pcs[t];
    if pc.PushPublish? {
      PublishReadies(s, t);
    } else if pc.PushTry? && pc.saw == pc.pos == s.enq && !spurious {
      ClaimAppends(s, t);
    }
  }

  lemma PopRefines<V(!new)>(s: State<V>, t: nat, spurious: bool)
    requires Inv(s) && t < |s.pcs|
    ensures PopStep(s, t, spurious).deq <= |PopStep(s, t, spurious).pushed|
    ensures QueueStep(Contents(s), Contents(PopStep(s, t, spurious)))
  {
    OtherStepsLeaveQueue(s, t, spurious);
    var pc := s.pcs[t];
    if pc.PopTry? && pc.saw == pc.pos + 1 && pc.pos == s.deq && !spurious {
      TakeRemoves(s, t);
    }
  }

  /**
   The ring refines a queue: every step of every thread is one step of the queue, and the queue's steps
   happen exactly where the code claims, publishes and takes.
   */
  lemma RefinesQueue<V(!new)>(s: State<V>, a: Action<V>)
    requires Reachable(s)
    ensures |s.pushed| >= s.deq && |Next(s, a).pushed| >= Next(s, a).deq
    ensures QueueStep(Contents(s), Contents(Next(s, a)))
  {
    EveryInterleaving(s);
    if a.Step? && a.t < |s.pcs| {
      PushRefines(s, a.t, a.spurious);
      PopRefines(s, a.t, a.spurious);
    } else {
      assert Contents(Next(s, a)) == Contents(s);
    }
  }

  /** A `pop` sees an empty queue, or one whose head is not ready, exactly when it will fail. */
  lemma PopSeesHead<V(!new)>(s: State<V>, t: nat)
    requires Reachable(s) && t < |s.pcs| && s.pcs[t].PopLook?
    ensures s.deq <= |s.pushed|
    ensures s.seqs[Cell(s.pcs[t].pos, s.Cap())] < s.pcs[t].pos + 1 <==>
            s.deq == s.pcs[t].pos && (Contents(s) == [] || !Contents(s)[0].ready)
  {
    EveryInterleaving(s);
    assert ThreadOk(s, t);
    PopSees(s, s.pcs[t].pos);
    assert s.deq in s.published ==> s.deq < s.enq by {
      if s.deq in s.published {
        Published(s, s.deq);
      }
    }
  }

  /** Only claimed tickets are ever published. */
  lemma Published<V>(s: State<V>, p: nat)
    requires Inv(s) && p in s.published
    ensures p < s.enq
  {
    if p !in s.delivered {
      InItsCell(s, p);
    }
  }

  // ---------------------------------------------------------------- the same on machine words

  /**
   On wrapped 64-bit words a producer decides as it does on the numbers, provided the enqueue position has not
   run 2^63 tickets, less a lap, ahead of its own while it slept.
   */
  lemma PushWordsDecide<V>(s: State<V>, pos: nat)
    requires Inv(s) && pos <= s.enq && s.enq + s.Cap() < pos + HALF
    ensures var q := s.seqs[Cell(pos, s.Cap())];
      && Signed(Minus(Wrap(q), Wrap(pos))) == q - pos
      && (Wrap(s.enq) == Wrap(pos) <==> s.enq == pos)
  {
    var q := s.seqs[Cell(pos, s.Cap())];
    assert CellOk(s, Cell(pos, s.Cap()));
    WordDifference(q, pos);
    WordEqual(s.enq, pos);
  }

  /** The same for a consumer. */
  lemma PopWordsDecide<V>(s: State<V>, pos: nat)
    requires Inv(s) && pos <= s.deq && s.deq + s.Cap() < pos + HALF
    ensures var q := s.seqs[Cell(pos, s.Cap())];
      && Signed(Minus(Wrap(q), Wrap(pos + 1))) == q - (pos + 1)
      && (Wrap(s.deq) == Wrap(pos) <==> s.deq == pos)
  {
    var q := s.seqs[Cell(pos, s.Cap())];
    assert CellOk(s, Cell(pos, s.Cap()));
    WordDifference(q, pos + 1);
    WordEqual(s.deq, pos);
  }
}
