/**
 The ring as the program keeps it: two arrays changed in place, two positions, and the program counters
 of the threads inside it. Each method below is one thread running up to its next shared access, and
 `Execute` is an interleaving; `Push` and `Pop` are the whole retry loops, run while the others pause.
 */
module MpmcQueue {
  import opened Wrappers
  import opened Slots
  import opened Mpmc
  import opened MpmcSafety

  /** Running one more step. */
  lemma {:induction false} RunOneMore<V>(s: State<V>, schedule: seq<Action<V>>, a: Action<V>)
    requires 0 < |s.seqs| == |s.vals|
    ensures var m := Run(s, schedule);
      0 < |m.seqs| == |m.vals| && Run(s, schedule + [a]) == Next(m, a)
    decreases |schedule|
  {
    if schedule == [] {
      assert [a][1..] == [];
    } else {
      assert (schedule + [a])[0] == schedule[0];
      assert (schedule + [a])[1..] == schedule[1..] + [a];
      RunOneMore(Next(s, schedule[0]), schedule[1..], a);
    }
  }

  /** A `push` of v by thread t while the others stand still. */
  ghost function PushAlone<V>(s: State<V>, t: nat, v: V): State<V>
    requires 0 < |s.seqs| == |s.vals| && t < |s.pcs|
  {
    var i := Cell(s.enq, s.Cap());
    if s.seqs[i] == s.enq then
      s.(seqs := s.seqs[i := s.enq + 1], vals := s.vals[i := v], enq := s.enq + 1,
         pcs := s.pcs[t := PushReturned(true)],
         pushed := s.pushed + [v], pushers := s.pushers + [t], published := s.published + {s.enq})
    else
      Goto(s, t, PushReturned(false))
  }

  /** A `pop` by thread t while the others stand still. */
  ghost function PopAlone<V>(s: State<V>, t: nat): State<V>
    requires 0 < |s.seqs| == |s.vals| && t < |s.pcs|
  {
    var i := Cell(s.deq, s.Cap());
    if s.seqs[i] == s.deq + 1 then
      s.(seqs := s.seqs[i := s.deq + s.Cap()], deq := s.deq + 1,
         pcs := s.pcs[t := PopReturned(Some(s.vals[i]))],
         poppers := s.poppers + [t], delivered := s.delivered[s.deq := s.vals[i]])
    else
      Goto(s, t, PopReturned(None))
  }

  /** Alone, a push is four steps after the load of its position. */
  lemma PushAloneSteps<V>(s: State<V>, t: nat, v: V)
    requires Shape(s) && t < |s.pcs| && s.seqs[Cell(s.enq, s.Cap())] == s.enq
    ensures var s1 := PushStep(Goto(s, t, PushLook(v, s.enq)), t, false);
      PushStep(PushStep(PushStep(s1, t, false), t, false), t, false) == PushAlone(s, t, v)
  {
    var s3 := PushStep(PushStep(Goto(s, t, PushLook(v, s.enq)), t, false), t, false);
    assert s3 == Goto(s, t, PushWrite(v, s.enq))
                 .(enq := s.enq + 1, pushed := s.pushed + [v], pushers := s.pushers + [t]);
  }

  lemma PopAloneSteps<V>(s: State<V>, t: nat)
    requires Shape(s) && t < |s.pcs| && s.seqs[Cell(s.deq, s.Cap())] == s.deq + 1
    ensures var s1 := PopStep(Goto(s, t, PopLook(s.deq)), t, false);
      PopStep(PopStep(PopStep(s1, t, false), t, false), t, false) == PopAlone(s, t)
  {
    var s3 := PopStep(PopStep(Goto(s, t, PopLook(s.deq)), t, false), t, false);
    assert s3 == Goto(s, t, PopRead(s.deq)).(deq := s.deq + 1, poppers := s.poppers + [t]);
  }

  /** What the two positions see when nothing moves. */
  lemma AloneSees<V>(s: State<V>)
    requires Inv(s)
    ensures s.seqs[Cell(s.enq, s.Cap())] <= s.enq
    ensures s.seqs[Cell(s.enq, s.Cap())] < s.enq <==> s.enq >= s.Cap() && s.enq - s.Cap() !in s.delivered
    ensures s.seqs[Cell(s.deq, s.Cap())] <= s.deq + 1
    ensures s.seqs[Cell(s.deq, s.Cap())] == s.deq + 1 <==> Contents(s) != [] && Contents(s)[0].ready
  {
    PushSees(s, s.enq);
    PopSees(s, s.deq);
    if s.deq in s.published {
      Published(s, s.deq);
    }
  }

  lemma PushTwiceInv<V>(s: State<V>, t: nat)
    requires Inv(s) && t < |s.pcs|
    ensures Inv(PushStep(PushStep(s, t, false), t, false))
  {
    PushStepInv(s, t, false);
    PushStepInv(PushStep(s, t, false), t, false);
  }

  lemma PopTwiceInv<V>(s: State<V>, t: nat)
    requires Inv(s) && t < |s.pcs|
    ensures Inv(PopStep(PopStep(s, t, false), t, false))
  {
    PopStepInv(s, t, false);
    PopStepInv(PopStep(s, t, false), t, false);
  }

  lemma PushAloneInv<V>(s: State<V>, t: nat, v: V)
    requires Inv(s) && t < |s.pcs| && s.pcs[t].Resting()
    ensures Inv(PushAlone(s, t, v))
  {
    if s.seqs[Cell(s.enq, s.Cap())] == s.enq {
      var s0 := Goto(s, t, PushLook(v, s.enq));
      MoveInv(s, t, PushLook(v, s.enq));
      PushTwiceInv(s0, t);
      PushTwiceInv(PushStep(PushStep(s0, t, false), t, false), t);
      PushAloneSteps(s, t, v);
    } else {
      MoveInv(s, t, PushReturned(false));
    }
  }

  /**
   A push alone appends its value, ready to be taken, or fails, and it fails exactly when the cell one lap
   back is still in some consumer's hands or unread.
   */
  lemma PushAloneAppends<V>(s: State<V>, t: nat, v: V)
    requires Inv(s) && t < |s.pcs| && s.pcs[t].Resting()
    ensures var s' := PushAlone(s, t, v);
      var full := s.enq >= s.Cap() && s.enq - s.Cap() !in s.delivered;
      && Inv(s')
      && s'.pcs[t] == PushReturned(!full)
      && Contents(s') == if full then Contents(s) else Contents(s) + [Entry(v, true)]
  {
    PushAloneInv(s, t, v);
    AloneSees(s);
    forall p: nat | p in s.published ensures p < s.enq { Published(s, p); }
    PushAloneContents(s, t, v);
  }

  lemma PushAloneContents<V>(s: State<V>, t: nat, v: V)
    requires Shape(s) && HistoryOk(s) && t < |s.pcs|
    requires forall p: nat | p in s.published :: p < s.enq
    ensures PushAlone(s, t, v).deq <= |PushAlone(s, t, v).pushed|
    ensures Contents(PushAlone(s, t, v)) ==
            if s.seqs[Cell(s.enq, s.Cap())] == s.enq then Contents(s) + [Entry(v, true)] else Contents(s)
  {
  }

  lemma PopAloneInv<V>(s: State<V>, t: nat)
    requires Inv(s) && t < |s.pcs| && s.pcs[t].Resting()
    ensures Inv(PopAlone(s, t))
  {
    if s.seqs[Cell(s.deq, s.Cap())] == s.deq + 1 {
      var s0 := Goto(s, t, PopLook(s.deq));
      MoveInv(s, t, PopLook(s.deq));
      PopTwiceInv(s0, t);
      PopTwiceInv(PopStep(PopStep(s0, t, false), t, false), t);
      PopAloneSteps(s, t);
    } else {
      MoveInv(s, t, PopReturned(None));
    }
  }

  /** A pop alone takes the oldest value, or fails, and it fails exactly when the oldest is not ready. */
  lemma PopAloneTakes<V>(s: State<V>, t: nat)
    requires Inv(s) && t < |s.pcs| && s.pcs[t].Resting()
    ensures var s' := PopAlone(s, t);
      && Inv(s')
      && if Contents(s) != [] && Contents(s)[0].ready then
           s'.pcs[t] == PopReturned(Some(Contents(s)[0].v)) && Contents(s') == Contents(s)[1..]
         else
           s'.pcs[t] == PopReturned(None) && Contents(s') == Contents(s)
  {
    AloneSees(s);
    PopSees(s, s.deq);
    PopAloneInv(s, t);
    PopAloneContents(s, t);
  }

  lemma PopAloneContents<V>(s: State<V>, t: nat)
    requires Shape(s) && t < |s.pcs|
    requires s.seqs[Cell(s.deq, s.Cap())] == s.deq + 1 ==> s.deq < s.enq
    ensures PopAlone(s, t).deq <= |PopAlone(s, t).pushed|
    ensures Contents(PopAlone(s, t)) ==
            if s.seqs[Cell(s.deq, s.Cap())] == s.deq + 1 then Contents(s)[1..] else Contents(s)
  {
  }

  // ---------------------------------------------------------------- why one cell is not enough

  /** In no run is the value of a published ticket replaced before it was delivered. */
  ghost predicate KeepsUnread<V(!new)>(cap: nat, threads: nat, blank: V)
    requires cap > 0
  {
    forall schedule: seq<Action<V>> :: UnreadInPlace(Run(Init(cap, threads, blank), schedule))
  }

  ghost predicate UnreadInPlace<V>(s: State<V>) {
    0 < |s.seqs| == |s.vals| &&
    forall p: nat | p in s.published && p !in s.delivered :: p < |s.pushed| && s.vals[Cell(p, s.Cap())] == s.pushed[p]
  }

  function WholePush<V>(t: nat, v: V): seq<Action<V>> {
    [StartPush(t, v)] + ([Step(t, false)] + ([Step(t, false)] + ([Step(t, false)] + ([Step(t, false)] + []))))
  }

  lemma RunOne<V>(s: State<V>, a: Action<V>, rest: seq<Action<V>>)
    requires 0 < |s.seqs| == |s.vals|
    ensures Run(s, [a] + rest) == Run(Next(s, a), rest)
  {
    assert ([a] + rest)[1..] == rest;
  }

  lemma WholePushSteps<V>(s: State<V>, t: nat, v: V)
    requires 0 < |s.seqs| == |s.vals| && t < |s.pcs| && s.pcs[t].Resting() && s.seqs[Cell(s.enq, s.Cap())] == s.enq
    ensures var s2 := Next(Next(Next(s, StartPush(t, v)), Step(t, false)), Step(t, false));
      && 0 < |s2.seqs| == |s2.vals|
      && Next(Next(s2, Step(t, false)), Step(t, false)) == PushAlone(s, t, v)
  {
    var s1 := Next(Next(s, StartPush(t, v)), Step(t, false));
    assert s1.pcs[t] == PushTry(v, s.enq, s.enq);
    var s2 := Next(s1, Step(t, false));
    assert s2.pcs[t] == PushWrite(v, s.enq);
  }

  lemma WholePushRuns<V>(s: State<V>, t: nat, v: V, rest: seq<Action<V>>)
    requires 0 < |s.seqs| == |s.vals| && t < |s.pcs| && s.pcs[t].Resting() && s.seqs[Cell(s.enq, s.Cap())] == s.enq
    ensures Run(s, WholePush(t, v) + rest) == Run(PushAlone(s, t, v), rest)
  {
    var a: Action<V> := Step(t, false);
    var r1 := [a] + rest;
    var r2 := [a] + r1;
    var r3 := [a] + r2;
    var r4 := [a] + r3;
    assert WholePush(t, v) + rest == [StartPush(t, v)] + r4;
    WholePushSteps(s, t, v);
    var s0 := Next(s, StartPush(t, v));
    var s1 := Next(s0, a);
    var s2 := Next(s1, a);
    RunOne(s, StartPush(t, v), r4);
    RunOne(s0, a, r3);
    RunOne(s1, a, r2);
    RunOne(s2, a, r1);
    RunOne(Next(s2, a), a, rest);
  }

  /**
   The constructor's check admits a capacity of one, but a ring of one cell takes a second push over a value
   nobody has read: unread values stay exactly if there are at least two cells.
   */
  lemma KeepsUnreadExactly<V(!new)>(cap: nat, threads: nat, blank: V, a: V, b: V)
    requires cap > 0 && threads > 0 && a != b
    ensures KeepsUnread(cap, threads, blank) <==> cap >= 2
  {
    var s := Init(cap, threads, blank);
    if cap >= 2 {
      forall schedule: seq<Action<V>> ensures UnreadInPlace(Run(s, schedule)) {
        InitInv(cap, threads, blank);
        RunInv(s, schedule);
        var t := Run(s, schedule);
        forall p: nat | p in t.published && p !in t.delivered
          ensures p < |t.pushed| && t.vals[Cell(p, t.Cap())] == t.pushed[p]
        {
          InItsCell(t, p);
        }
      }
    } else {
      var both := WholePush(0, a) + (WholePush(0, b) + []);
      WholePushRuns(s, 0, a, WholePush(0, b) + []);
      var s1 := PushAlone(s, 0, a);
      WholePushRuns(s1, 0, b, []);
      var s2 := PushAlone(s1, 0, b);
      assert Run(s, both) == s2;
      assert 0 in s2.published && 0 !in s2.delivered && s2.pushed[0] == a && s2.vals[0] == b;
      assert !UnreadInPlace(Run(s, both));
    }
  }

  class Queue<V> {
    const sequences: array<nat>
    const values: array<V>
    const threads: array<Pc<V>>
    var enqueuePos: nat
    var dequeuePos: nat

    ghost var pushed: seq<V>
    ghost var pushers: seq<nat>
    ghost var poppers: seq<nat>
    ghost var published: set<nat>
    ghost var delivered: map<nat, V>

    ghost predicate Valid() {
      && 1 <= sequences.Length == values.Length
      && sequences as object != values && sequences as object != threads && values as object != threads
    }

    ghost function View(): State<V>
      reads this, sequences, values, threads
    {
      State(sequences[..], values[..], enqueuePos, dequeuePos, threads[..],
            pushed, pushers, poppers, published, delivered)
    }

    constructor (capacity: nat, threadCount: nat, blank: V)
      requires capacity >= 1
      ensures Valid() && fresh(sequences) && fresh(values) && fresh(threads)
      ensures View() == Init(capacity, threadCount, blank) && (capacity >= 2 ==> Inv(View()))
    {
      sequences := new nat[capacity](i => i);
      values := new V[capacity](_ => blank);
      threads := new Pc<V>[threadCount](_ => Idle);
      enqueuePos, dequeuePos := 0, 0;
      pushed, pushers, poppers, published, delivered := [], [], [], {}, map[];
      new;
      assert View() == Init(capacity, threadCount, blank);
      if capacity >= 2 {
        InitInv(capacity, threadCount, blank);
      }
    }

    /** Thread t, inside `push`, runs up to and including its next shared access. */
    method PushAdvance(t: nat, spurious: bool)
      requires Valid() && t < threads.Length
      modifies this, sequences, values, threads
      ensures View() == PushStep(old(View()), t, spurious)
    {
      match threads[t] {
        case PushLook(v, pos) =>
          threads[t] := PushTry(v, pos, sequences[Cell(pos, sequences.Length)]);
        case PushTry(v, pos, saw) =>
          if saw == pos {
            if enqueuePos == pos && !spurious {
              enqueuePos := pos + 1;
              pushed, pushers := pushed + [v], pushers + [t];
              threads[t] := PushWrite(v, pos);
            } else {
              threads[t] := PushLook(v, enqueuePos);
            }
          } else if saw < pos {
            threads[t] := PushReturned(false);
          } else {
            threads[t] := PushReload(v);
          }
        case PushReload(v) =>
          threads[t] := PushLook(v, enqueuePos);
        case PushWrite(v, pos) =>
          values[Cell(pos, values.Length)] := v;
          threads[t] := PushPublish(v, pos);
        case PushPublish(v, pos) =>
          sequences[Cell(pos, sequences.Length)] := pos + 1;
          published := published + {pos};
          threads[t] := PushReturned(true);
        case _ =>
      }
    }

    /** Thread t, inside `pop`, runs up to and including its next shared access. */
    method PopAdvance(t: nat, spurious: bool)
      requires Valid() && t < threads.Length
      modifies this, sequences, values, threads
      ensures View() == PopStep(old(View()), t, spurious)
    {
      match threads[t] {
        case PopLook(pos) =>
          threads[t] := PopTry(pos, sequences[Cell(pos, sequences.Length)]);
        case PopTry(pos, saw) =>
          if saw == pos + 1 {
            if dequeuePos == pos && !spurious {
              dequeuePos := pos + 1;
              poppers := poppers + [t];
              threads[t] := PopRead(pos);
            } else {
              threads[t] := PopLook(dequeuePos);
            }
          } else if saw < pos + 1 {
            threads[t] := PopReturned(None);
          } else {
            threads[t] := PopReload;
          }
        case PopReload =>
          threads[t] := PopLook(dequeuePos);
        case PopRead(pos) =>
          threads[t] := PopRelease(pos, values[Cell(pos, values.Length)]);
        case PopRelease(pos, out) =>
          sequences[Cell(pos, sequences.Length)] := pos + sequences.Length;
          delivered := delivered[pos := out];
          threads[t] := PopReturned(Some(out));
        case _ =>
      }
    }

    /** An interleaving, access by access. */
    method Execute(schedule: seq<Action<V>>)
      requires Valid()
      modifies this, sequences, values, threads
      ensures View() == Run(old(View()), schedule)
      ensures old(Inv(View())) ==> Inv(View())
    {
      ghost var start := View();
      for k := 0 to |schedule|
        invariant View() == Run(start, schedule[..k])
      {
        var a := schedule[k];
        RunOneMore(start, schedule[..k], a);
        assert schedule[..k + 1] == schedule[..k] + [a];
        ghost var before := View();
        if a.t < threads.Length {
          match a {
            case StartPush(t, v) =>
              if threads[t].Resting() { threads[t] := PushLook(v, enqueuePos); }
            case StartPop(t) =>
              if threads[t].Resting() { threads[t] := PopLook(dequeuePos); }
            case Step(t, spurious) =>
              var pc := threads[t];
              if pc.PushLook? || pc.PushTry? || pc.PushReload? || pc.PushWrite? || pc.PushPublish? {
                PushAdvance(t, spurious);
              } else {
                PopAdvance(t, spurious);
              }
          }
        }
        assert View() == Next(before, a);
      }
      assert schedule[..|schedule|] == schedule;
      if Inv(start) {
        RunInv(start, schedule);
      }
    }

    /**
     The retry loop of `push` while nobody else moves. The compare-and-swap fails `failures` times for no
     reason before it is allowed to succeed.
     */
    method ClaimPush(failures: nat) returns (claimed: bool, pos: nat)
      requires Valid() && sequences[Cell(enqueuePos, sequences.Length)] <= enqueuePos
      modifies this`enqueuePos
      ensures pos == old(enqueuePos)
      ensures claimed <==> sequences[Cell(pos, sequences.Length)] == pos
      ensures enqueuePos == if claimed then pos + 1 else pos
    {
      pos := enqueuePos;
      var left := failures;
      while true
        invariant pos == enqueuePos == old(enqueuePos)
        decreases left
      {
        var seen := sequences[Cell(pos, sequences.Length)];
        if seen == pos {
          if enqueuePos == pos && left == 0 {
            enqueuePos := pos + 1;
            return true, pos;
          }
          pos := enqueuePos;
          left := left - 1;
        } else if seen < pos {
          return false, pos;
        } else {
          assert false;
        }
      }
    }

    /** The retry loop of `pop` while nobody else moves. */
    method ClaimPop(failures: nat) returns (claimed: bool, pos: nat)
      requires Valid() && sequences[Cell(dequeuePos, sequences.Length)] <= dequeuePos + 1
      modifies this`dequeuePos
      ensures pos == old(dequeuePos)
      ensures claimed <==> sequences[Cell(pos, sequences.Length)] == pos + 1
      ensures dequeuePos == if claimed then pos + 1 else pos
    {
      pos := dequeuePos;
      var left := failures;
      while true
        invariant pos == dequeuePos == old(dequeuePos)
        decreases left
      {
        var seen := sequences[Cell(pos, sequences.Length)];
        if seen == pos + 1 {
          if dequeuePos == pos && left == 0 {
            dequeuePos := pos + 1;
            return true, pos;
          }
          pos := dequeuePos;
          left := left - 1;
        } else if seen < pos + 1 {
          return false, pos;
        } else {
          assert false;
        }
      }
    }

    /** The whole of `push` by a resting thread, while the other threads stand still wherever they are. */
    method Push(t: nat, v: V, failures: nat) returns (ok: bool)
      requires Valid() && Inv(View()) && t < threads.Length && threads[t].Resting()
      modifies this, sequences, values, threads
      ensures View() == PushAlone(old(View()), t, v) && threads[t] == PushReturned(ok)
    {
      AloneSees(View());
      ok := PushBody(t, v, failures);
    }

    method PushBody(t: nat, v: V, failures: nat) returns (ok: bool)
      requires Valid() && t < threads.Length
      requires sequences[Cell(enqueuePos, sequences.Length)] <= enqueuePos
      modifies this, sequences, values, threads
      ensures View() == PushAlone(old(View()), t, v) && threads[t] == PushReturned(ok)
    {
      var pos;
      ok, pos := ClaimPush(failures);
      threads[t] := PushReturned(ok);
      if ok {
        values[Cell(pos, values.Length)] := v;
        sequences[Cell(pos, sequences.Length)] := pos + 1;
        pushed, pushers, published := pushed + [v], pushers + [t], published + {pos};
      }
    }

    /** The whole of `pop` by a resting thread, while the other threads stand still wherever they are. */
    method Pop(t: nat, failures: nat) returns (got: Option<V>)
      requires Valid() && Inv(View()) && t < threads.Length && threads[t].Resting()
      modifies this, sequences, values, threads
      ensures View() == PopAlone(old(View()), t) && threads[t] == PopReturned(got)
    {
      AloneSees(View());
      got := PopBody(t, failures);
    }

    method PopBody(t: nat, failures: nat) returns (got: Option<V>)
      requires Valid() && t < threads.Length
      requires sequences[Cell(dequeuePos, sequences.Length)] <= dequeuePos + 1
      modifies this, sequences, values, threads
      ensures View() == PopAlone(old(View()), t) && threads[t] == PopReturned(got)
    {
      var claimed, pos := ClaimPop(failures);
      got := None;
      if claimed {
        var out := values[Cell(pos, values.Length)];
        sequences[Cell(pos, sequences.Length)] := pos + sequences.Length;
        poppers, delivered := poppers + [t], delivered[pos := out];
        got := Some(out);
      }
      threads[t] := PopReturned(got);
    }
  }
}
