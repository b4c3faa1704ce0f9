/**
 What one call of push or pop comes to, from its start to its return: in any interleaving what a returned value
 means, and alone that every call returns, with the answer the ring gives at that moment.
 */
module MpmcCalls {
  import opened Wrappers
  import opened Slots
  import opened Mpmc
  import opened MpmcSafety

  predicate InPush<V>(pc: Pc<V>) {
    pc.PushLook? || pc.PushTry? || pc.PushReload? || pc.PushWrite? || pc.PushPublish?
  }

  predicate InPop<V>(pc: Pc<V>) {
    pc.PopLook? || pc.PopTry? || pc.PopReload? || pc.PopRead? || pc.PopRelease?
  }

  /** The thread starts no other call in the schedule. */
  ghost predicate NoStarts<V>(schedule: seq<Action<V>>, t: nat) {
    forall a | a in schedule :: a.t == t ==> a.Step?
  }

  lemma StepPcs<V>(s: State<V>, u: nat, spurious: bool, t: nat)
    requires 0 < |s.seqs| == |s.vals| && t < |s.pcs| && u < |s.pcs|
    ensures |PushStep(s, u, spurious).pcs| == |PopStep(s, u, spurious).pcs| == |s.pcs|
    ensures u != t || s.pcs[t].Resting() ==>
              PushStep(s, u, spurious).pcs[t] == PopStep(s, u, spurious).pcs[t] == s.pcs[t]
  {
  }

  lemma NextPcs<V>(s: State<V>, a: Action<V>, t: nat)
    requires 0 < |s.seqs| == |s.vals| && t < |s.pcs|
    ensures |Next(s, a).pcs| == |s.pcs| && (a.t != t ==> Next(s, a).pcs[t] == s.pcs[t])
    ensures a.Step? && s.pcs[t].Resting() ==> Next(s, a).pcs[t] == s.pcs[t]
  {
    if a.Step? && a.t < |s.pcs| {
      StepPcs(s, a.t, a.spurious, t);
    }
  }

  lemma {:induction false} RestingStays<V>(s: State<V>, schedule: seq<Action<V>>, t: nat)
    requires Inv(s) && t < |s.pcs| && s.pcs[t].Resting() && NoStarts(schedule, t)
    ensures t < |Run(s, schedule).pcs| && Run(s, schedule).pcs[t] == s.pcs[t]
    decreases |schedule|
  {
    if schedule != [] {
      assert schedule[0] in schedule;
      NextPcs(s, schedule[0], t);
      NextInv(s, schedule[0]);
      RestingStays(Next(s, schedule[0]), schedule[1..], t);
    }
  }

  // ---------------------------------------------------------------- where the answers come from

  predicate SawFull<V>(pc: Pc<V>) {
    pc.PushTry? && pc.saw < pc.pos
  }

  predicate SawEmpty<V>(pc: Pc<V>) {
    pc.PopTry? && pc.saw < pc.pos + 1
  }

  lemma OwnRefusals<V>(s: State<V>, t: nat, spurious: bool)
    requires 0 < |s.seqs| == |s.vals| && t < |s.pcs|
    ensures var pc, pc' := s.pcs[t], PushStep(s, t, spurious).pcs[t];
      pc' == pc || ((pc' == PushReturned(false) ==> SawFull(pc)) && !pc'.PopReturned?)
    ensures var pc, pc' := s.pcs[t], PopStep(s, t, spurious).pcs[t];
      pc' == pc || ((pc' == PopReturned(None) ==> SawEmpty(pc)) && !pc'.PushReturned?)
  {
  }

  /** The only steps that make a push return false, or a pop return nothing, are those that saw too small a number. */
  lemma RefusalsSaw<V>(s: State<V>, a: Action<V>, t: nat)
    requires 0 < |s.seqs| == |s.vals| && t < |s.pcs|
    ensures |Next(s, a).pcs| == |s.pcs|
    ensures var pc, pc' := s.pcs[t], Next(s, a).pcs[t];
      && (pc' != pc && pc' == PushReturned(false) ==> a.Step? && a.t == t && pc.PushTry? && pc.saw < pc.pos)
      && (pc' != pc && pc' == PopReturned(None) ==> a.Step? && a.t == t && pc.PopTry? && pc.saw < pc.pos + 1)
  {
    NextPcs(s, a, t);
    if a.Step? && a.t == t {
      OwnRefusals(s, t, a.spurious);
    }
  }

  /** The step loads a number when the position is current and the cell one lap back is unreleased. */
  ghost predicate LoadsFull<V>(s: State<V>, a: Action<V>, t: nat) {
    && a.Step? && a.t == t && t < |s.pcs| && s.pcs[t].PushLook?
    && s.pcs[t].pos == s.enq && s.enq >= s.Cap() && s.enq - s.Cap() !in s.delivered
  }

  /** The step loads a number when the position is current and its ticket unpublished. */
  ghost predicate LoadsEmpty<V>(s: State<V>, a: Action<V>, t: nat) {
    a.Step? && a.t == t && t < |s.pcs| && s.pcs[t].PopLook? && s.pcs[t].pos == s.deq && s.deq !in s.published
  }

  /** Somewhere along the schedule there is such a step. */
  ghost predicate LoadedFull<V>(s: State<V>, schedule: seq<Action<V>>, t: nat)
    requires 0 < |s.seqs| == |s.vals|
    decreases |schedule|
  {
    schedule != [] && (LoadsFull(s, schedule[0], t) || LoadedFull(Next(s, schedule[0]), schedule[1..], t))
  }

  ghost predicate LoadedEmpty<V>(s: State<V>, schedule: seq<Action<V>>, t: nat)
    requires 0 < |s.seqs| == |s.vals|
    decreases |schedule|
  {
    schedule != [] && (LoadsEmpty(s, schedule[0], t) || LoadedEmpty(Next(s, schedule[0]), schedule[1..], t))
  }

  /** A thread inside push stays there or returns; it comes to have seen too small a number only by such a load. */
  lemma PushGoesOn<V>(s: State<V>, a: Action<V>, t: nat)
    requires Inv(s) && t < |s.pcs| && InPush(s.pcs[t]) && (a.t == t ==> a.Step?)
    ensures var pc' := Next(s, a).pcs[t];
      && (InPush(pc') || pc'.PushReturned?)
      && (SawFull(pc') ==> SawFull(s.pcs[t]) || LoadsFull(s, a, t))
  {
    NextPcs(s, a, t);
    assert ThreadOk(s, t);
    if s.pcs[t].PushLook? {
      PushSees(s, s.pcs[t].pos);
    }
  }

  lemma PopGoesOn<V>(s: State<V>, a: Action<V>, t: nat)
    requires Inv(s) && t < |s.pcs| && InPop(s.pcs[t]) && (a.t == t ==> a.Step?)
    ensures var pc' := Next(s, a).pcs[t];
      && (InPop(pc') || pc'.PopReturned?)
      && (SawEmpty(pc') ==> SawEmpty(s.pcs[t]) || LoadsEmpty(s, a, t))
  {
    NextPcs(s, a, t);
    assert ThreadOk(s, t);
    if s.pcs[t].PopLook? {
      PopSees(s, s.pcs[t].pos);
    }
  }

  lemma {:induction false} FalseWasFull<V>(s: State<V>, schedule: seq<Action<V>>, t: nat)
    requires Inv(s) && t < |s.pcs| && InPush(s.pcs[t]) && NoStarts(schedule, t)
    requires t < |Run(s, schedule).pcs| && Run(s, schedule).pcs[t] == PushReturned(false)
    ensures SawFull(s.pcs[t]) || LoadedFull(s, schedule, t)
    decreases |schedule|
  {
    if schedule != [] {
      var a, rest := schedule[0], schedule[1..];
      var s' := Next(s, a);
      assert a in schedule;
      NextInv(s, a);
      NextPcs(s, a, t);
      PushGoesOn(s, a, t);
      if InPush(s'.pcs[t]) {
        FalseWasFull(s', rest, t);
      } else {
        RestingStays(s', rest, t);
        RefusalsSaw(s, a, t);
      }
    }
  }

  lemma {:induction false} NothingWasEmpty<V>(s: State<V>, schedule: seq<Action<V>>, t: nat)
    requires Inv(s) && t < |s.pcs| && InPop(s.pcs[t]) && NoStarts(schedule, t)
    requires t < |Run(s, schedule).pcs| && Run(s, schedule).pcs[t] == PopReturned(None)
    ensures SawEmpty(s.pcs[t]) || LoadedEmpty(s, schedule, t)
    decreases |schedule|
  {
    if schedule != [] {
      var a, rest := schedule[0], schedule[1..];
      var s' := Next(s, a);
      assert a in schedule;
      NextInv(s, a);
      NextPcs(s, a, t);
      PopGoesOn(s, a, t);
      if InPop(s'.pcs[t]) {
        NothingWasEmpty(s', rest, t);
      } else {
        RestingStays(s', rest, t);
        RefusalsSaw(s, a, t);
      }
    }
  }

  // ---------------------------------------------------------------- one ticket for each call

  /** Thread t has claimed no push ticket from e on. */
  ghost predicate NoneFrom(claimers: seq<nat>, e: nat, t: nat) {
    forall p: nat | e <= p < |claimers| :: claimers[p] != t
  }

  /** It has claimed p and no other. */
  ghost predicate OnlyFrom(claimers: seq<nat>, e: nat, t: nat, p: nat) {
    e <= p < |claimers| && claimers[p] == t && forall q: nat | e <= q < |claimers| && q != p :: claimers[q] != t
  }

  /** Where a push of v by thread t stands that began when the enqueue position was e. */
  ghost predicate PushPhase<V>(s: State<V>, t: nat, v: V, e: nat)
    requires Shape(s) && t < |s.pcs|
  {
    match s.pcs[t]
    case PushLook(w, _) => w == v && NoneFrom(s.pushers, e, t)
    case PushTry(w, _, _) => w == v && NoneFrom(s.pushers, e, t)
    case PushReload(w) => w == v && NoneFrom(s.pushers, e, t)
    case PushWrite(w, p) => w == v && OnlyFrom(s.pushers, e, t, p)
    case PushPublish(w, p) => w == v && OnlyFrom(s.pushers, e, t, p)
    case PushReturned(ok) => if ok then Pushed(s, t, v, e) else NoneFrom(s.pushers, e, t)
    case _ => false
  }

  /** From e on thread t has claimed exactly one ticket, pushed v under it and published it. */
  ghost predicate Pushed<V>(s: State<V>, t: nat, v: V, e: nat)
    requires Shape(s)
  {
    exists p: nat :: OnlyFrom(s.pushers, e, t, p) && s.pushed[p] == v && p in s.published
  }

  ghost predicate PopPhase<V>(s: State<V>, t: nat, e: nat)
    requires Shape(s) && t < |s.pcs|
  {
    match s.pcs[t]
    case PopLook(_) => NoneFrom(s.poppers, e, t)
    case PopTry(_, _) => NoneFrom(s.poppers, e, t)
    case PopReload => NoneFrom(s.poppers, e, t)
    case PopRead(p) => OnlyFrom(s.poppers, e, t, p)
    case PopRelease(p, _) => OnlyFrom(s.poppers, e, t, p)
    case PopReturned(got) => if got.Some? then Popped(s, t, got.value, e) else NoneFrom(s.poppers, e, t)
    case _ => false
  }

  /** From e on thread t has claimed exactly one pop ticket, and x is what was pushed under it. */
  ghost predicate Popped<V>(s: State<V>, t: nat, x: V, e: nat)
    requires Shape(s)
  {
    exists p: nat :: OnlyFrom(s.poppers, e, t, p) && p in s.delivered && s.delivered[p] == x == s.pushed[p]
  }

  /** What no step of another thread takes away from thread t: claims are appended, and never in its name. */
  ghost predicate Onward(claimers: seq<nat>, claimers': seq<nat>, t: nat) {
    claimers <= claimers' && NoneFrom(claimers', |claimers|, t)
  }

  ghost predicate GoesOn<V>(s: State<V>, s': State<V>, t: nat) {
    && s.pushed <= s'.pushed && s.published <= s'.published
    && Onward(s.pushers, s'.pushers, t) && Onward(s.poppers, s'.poppers, t)
  }

  lemma PushGoesOnward<V>(s: State<V>, u: nat, spurious: bool, t: nat)
    requires 0 < |s.seqs| == |s.vals| && u < |s.pcs| && u != t
    ensures GoesOn(s, PushStep(s, u, spurious), t)
  {
  }

  lemma PopGoesOnward<V>(s: State<V>, u: nat, spurious: bool, t: nat)
    requires 0 < |s.seqs| == |s.vals| && u < |s.pcs| && u != t
    ensures GoesOn(s, PopStep(s, u, spurious), t)
  {
  }

  lemma OthersGoOn<V>(s: State<V>, a: Action<V>, t: nat)
    requires 0 < |s.seqs| == |s.vals| && a.t != t
    ensures GoesOn(s, Next(s, a), t)
  {
    if a.Step? && a.t < |s.pcs| {
      PushGoesOnward(s, a.t, a.spurious, t);
      PopGoesOnward(s, a.t, a.spurious, t);
    }
  }

  /** A delivery is never replaced. */
  lemma DeliveredStays<V>(s: State<V>, a: Action<V>, p: nat)
    requires Inv(s) && p in s.delivered
    ensures p in Next(s, a).delivered && Next(s, a).delivered[p] == s.delivered[p]
  {
    if a.Step? && a.t < |s.pcs| && s.pcs[a.t].PopRelease? {
      assert ThreadOk(s, a.t);
      ReleaseDelivers(s, a.t);
    } else {
      OtherStepsDeliverNothing(s, a);
    }
  }

  lemma NoneKept(claimers: seq<nat>, claimers': seq<nat>, e: nat, t: nat)
    requires Onward(claimers, claimers', t) && NoneFrom(claimers, e, t)
    ensures NoneFrom(claimers', e, t)
  {
  }

  lemma OnlyKept(claimers: seq<nat>, claimers': seq<nat>, e: nat, t: nat, p: nat)
    requires Onward(claimers, claimers', t) && OnlyFrom(claimers, e, t, p)
    ensures OnlyFrom(claimers', e, t, p)
  {
  }

  lemma OthersKeepPush<V>(s: State<V>, s': State<V>, t: nat, v: V, e: nat)
    requires Shape(s) && Shape(s') && t < |s.pcs| == |s'.pcs| && s.pcs[t] == s'.pcs[t] && PushPhase(s, t, v, e)
    requires s.pushed <= s'.pushed && s.published <= s'.published && Onward(s.pushers, s'.pushers, t)
    ensures PushPhase(s', t, v, e)
  {
    var pc := s.pcs[t];
    if pc == PushReturned(true) {
      var p: nat :| OnlyFrom(s.pushers, e, t, p) && s.pushed[p] == v && p in s.published;
      OnlyKept(s.pushers, s'.pushers, e, t, p);
      assert OnlyFrom(s'.pushers, e, t, p) && s'.pushed[p] == v && p in s'.published;
    } else if pc.PushWrite? || pc.PushPublish? {
      OnlyKept(s.pushers, s'.pushers, e, t, pc.pos);
    } else {
      NoneKept(s.pushers, s'.pushers, e, t);
    }
  }

  lemma OthersKeepPop<V>(s: State<V>, s': State<V>, t: nat, e: nat)
    requires Shape(s) && Shape(s') && t < |s.pcs| == |s'.pcs| && s.pcs[t] == s'.pcs[t] && PopPhase(s, t, e)
    requires s.pushed <= s'.pushed && Onward(s.poppers, s'.poppers, t)
    requires forall p: nat | p in s.delivered :: p in s'.delivered && s'.delivered[p] == s.delivered[p]
    ensures PopPhase(s', t, e)
  {
    var pc := s.pcs[t];
    if pc.PopReturned? && pc.got.Some? {
      var x := pc.got.value;
      var p: nat :| OnlyFrom(s.poppers, e, t, p) && p in s.delivered && s.delivered[p] == x == s.pushed[p];
      OnlyKept(s.poppers, s'.poppers, e, t, p);
      assert OnlyFrom(s'.poppers, e, t, p) && p in s'.delivered && s'.delivered[p] == x == s'.pushed[p];
    } else if pc.PopRead? || pc.PopRelease? {
      OnlyKept(s.poppers, s'.poppers, e, t, pc.pos);
    } else {
      NoneKept(s.poppers, s'.poppers, e, t);
    }
  }

  /** Its own step takes a push on by one stage. */
  lemma OwnPushPhase<V>(s: State<V>, t: nat, spurious: bool, v: V, e: nat)
    requires Shape(s) && t < |s.pcs| && e <= s.enq && ThreadOk(s, t) && InPush(s.pcs[t]) && PushPhase(s, t, v, e)
    requires Shape(PushStep(s, t, spurious))
    ensures PushPhase(PushStep(s, t, spurious), t, v, e)
  {
    var s', pc := PushStep(s, t, spurious), s.pcs[t];
    if pc.PushPublish? {
      assert OnlyFrom(s'.pushers, e, t, pc.pos) && s'.pushed[pc.pos] == v && pc.pos in s'.published;
    } else if s'.pcs[t].PushWrite? {
      assert s'.pushers == s.pushers + [t] && pc.pos == |s.pushers|;
      assert OnlyFrom(s'.pushers, e, t, pc.pos);
    }
  }

  lemma OwnPopPhase<V>(s: State<V>, t: nat, spurious: bool, e: nat)
    requires Shape(s) && t < |s.pcs| && e <= s.deq && ThreadOk(s, t) && InPop(s.pcs[t]) && PopPhase(s, t, e)
    requires Shape(PopStep(s, t, spurious))
    ensures PopPhase(PopStep(s, t, spurious), t, e)
  {
    var s', pc := PopStep(s, t, spurious), s.pcs[t];
    if pc.PopRelease? {
      assert OnlyFrom(s'.poppers, e, t, pc.pos) && pc.pos in s'.delivered;
      assert s'.delivered[pc.pos] == pc.out == s'.pushed[pc.pos];
    } else if s'.pcs[t].PopRead? {
      assert s'.poppers == s.poppers + [t] && pc.pos == |s.poppers|;
      assert OnlyFrom(s'.poppers, e, t, pc.pos);
    }
  }

  lemma PushPhaseKept<V>(s: State<V>, a: Action<V>, t: nat, v: V, e: nat)
    requires Inv(s) && Shape(Next(s, a)) && t < |s.pcs| && e <= s.enq && PushPhase(s, t, v, e)
    requires a.t == t ==> a.Step?
    ensures t < |Next(s, a).pcs| && PushPhase(Next(s, a), t, v, e)
  {
    NextPcs(s, a, t);
    if a.t != t {
      OthersGoOn(s, a, t);
      OthersKeepPush(s, Next(s, a), t, v, e);
    } else if InPush(s.pcs[t]) {
      assert ThreadOk(s, t);
      OwnPushPhase(s, t, a.spurious, v, e);
    }
  }

  lemma PopPhaseKept<V>(s: State<V>, a: Action<V>, t: nat, e: nat)
    requires Inv(s) && Shape(Next(s, a)) && t < |s.pcs| && e <= s.deq && PopPhase(s, t, e)
    requires a.t == t ==> a.Step?
    ensures t < |Next(s, a).pcs| && PopPhase(Next(s, a), t, e)
  {
    NextPcs(s, a, t);
    if a.t != t {
      OthersGoOn(s, a, t);
      forall p: nat | p in s.delivered
        ensures p in Next(s, a).delivered && Next(s, a).delivered[p] == s.delivered[p]
      {
        DeliveredStays(s, a, p);
      }
      OthersKeepPop(s, Next(s, a), t, e);
    } else if InPop(s.pcs[t]) {
      assert ThreadOk(s, t);
      OwnPopPhase(s, t, a.spurious, e);
    }
  }

  lemma PositionsGrow<V>(s: State<V>, a: Action<V>)
    requires 0 < |s.seqs| == |s.vals|
    ensures Next(s, a).enq >= s.enq && Next(s, a).deq >= s.deq
  {
  }

  lemma {:induction false} PushRunPhase<V>(s: State<V>, schedule: seq<Action<V>>, t: nat, v: V, e: nat)
    requires Inv(s) && t < |s.pcs| && e <= s.enq && PushPhase(s, t, v, e) && NoStarts(schedule, t)
    ensures var s' := Run(s, schedule); Inv(s') && t < |s'.pcs| && PushPhase(s', t, v, e)
    decreases |schedule|
  {
    if schedule != [] {
      var a := schedule[0];
      assert a in schedule;
      NextInv(s, a);
      NextPcs(s, a, t);
      PositionsGrow(s, a);
      PushPhaseKept(s, a, t, v, e);
      PushRunPhase(Next(s, a), schedule[1..], t, v, e);
    }
  }

  lemma {:induction false} PopRunPhase<V>(s: State<V>, schedule: seq<Action<V>>, t: nat, e: nat)
    requires Inv(s) && t < |s.pcs| && e <= s.deq && PopPhase(s, t, e) && NoStarts(schedule, t)
    ensures var s' := Run(s, schedule); Inv(s') && t < |s'.pcs| && PopPhase(s', t, e)
    decreases |schedule|
  {
    if schedule != [] {
      var a := schedule[0];
      assert a in schedule;
      NextInv(s, a);
      NextPcs(s, a, t);
      PositionsGrow(s, a);
      PopPhaseKept(s, a, t, e);
      PopRunPhase(Next(s, a), schedule[1..], t, e);
    }
  }

  /**
   A push in any interleaving, seen from its start. If it has returned true it has put its value under exactly one
   ticket and published it. If it has returned false it has put it nowhere, and in between it loaded a number at a
   moment when its position was the enqueue position and the cell one lap back was not released.
   */
  lemma PushMeans<V(!new)>(s: State<V>, t: nat, v: V, schedule: seq<Action<V>>)
    requires Reachable(s) && t < |s.pcs| && s.pcs[t].Resting() && NoStarts(schedule, t)
    ensures var s0 := Next(s, StartPush(t, v));
      && 0 < |s0.seqs| == |s0.vals|
      && var s' := Run(s0, schedule);
      && Shape(s') && t < |s'.pcs| && (InPush(s'.pcs[t]) || s'.pcs[t].PushReturned?)
      && (s'.pcs[t] == PushReturned(true) ==> Pushed(s', t, v, s.enq))
      && (s'.pcs[t] == PushReturned(false) ==> NoneFrom(s'.pushers, s.enq, t) && LoadedFull(s0, schedule, t))
  {
    EveryInterleaving(s);
    var s0 := Next(s, StartPush(t, v));
    NextInv(s, StartPush(t, v));
    NextPcs(s, StartPush(t, v), t);
    PushRunPhase(s0, schedule, t, v, s.enq);
    if Run(s0, schedule).pcs[t] == PushReturned(false) {
      FalseWasFull(s0, schedule, t);
    }
  }

  /**
   A pop in any interleaving. If it has returned a value it has taken exactly one ticket, and the value is what was
   pushed under it. If it has returned nothing it has taken none, and in between it loaded a number at a moment when
   its position was the dequeue position and that ticket was not published.
   */
  lemma PopMeans<V(!new)>(s: State<V>, t: nat, schedule: seq<Action<V>>)
    requires Reachable(s) && t < |s.pcs| && s.pcs[t].Resting() && NoStarts(schedule, t)
    ensures var s0 := Next(s, StartPop(t));
      && 0 < |s0.seqs| == |s0.vals|
      && var s' := Run(s0, schedule);
      && Shape(s') && t < |s'.pcs| && (InPop(s'.pcs[t]) || s'.pcs[t].PopReturned?)
      && (s'.pcs[t].PopReturned? && s'.pcs[t].got.Some? ==> Popped(s', t, s'.pcs[t].got.value, s.deq))
      && (s'.pcs[t] == PopReturned(None) ==> NoneFrom(s'.poppers, s.deq, t) && LoadedEmpty(s0, schedule, t))
  {
    EveryInterleaving(s);
    var s0 := Next(s, StartPop(t));
    NextInv(s, StartPop(t));
    NextPcs(s, StartPop(t), t);
    PopRunPhase(s0, schedule, t, s.deq);
    if Run(s0, schedule).pcs[t] == PopReturned(None) {
      NothingWasEmpty(s0, schedule, t);
    }
  }

  // ---------------------------------------------------------------- a call comes to its end

  /** n steps of thread t. */
  function Steps<V>(t: nat, n: nat): seq<Action<V>> {
    if n == 0 then [] else [Step(t, false)] + Steps(t, n - 1)
  }

  ghost predicate Full<V>(s: State<V>) {
    s.enq >= s.Cap() && s.enq - s.Cap() !in s.delivered
  }

  /** What the push a thread is in will return if the others stand still. */
  ghost function PushAnswer<V>(s: State<V>, t: nat): bool
    requires t < |s.pcs|
  {
    if s.pcs[t].PushWrite? || s.pcs[t].PushPublish? then true
    else if SawFull(s.pcs[t]) then false
    else !Full(s)
  }

  function PushRank<V>(s: State<V>, t: nat): nat
    requires t < |s.pcs|
  {
    match s.pcs[t]
    case PushLook(_, pos) => if pos == s.enq then 4 else 7
    case PushTry(_, pos, saw) => if saw < pos then 1 else if saw > pos then 6 else if pos == s.enq then 3 else 5
    case PushReload(_) => 5
    case PushWrite(_, _) => 2
    case PushPublish(_, _) => 1
    case _ => 0
  }

  /** The number in the cell of pos is smaller exactly when pos is current and the ring is full. */
  ghost predicate PushTold<V>(s: State<V>, pos: nat)
    requires Shape(s)
  {
    var q := s.seqs[Cell(pos, s.Cap())];
    (s.enq == pos ==> q <= pos) && (q < pos <==> s.enq == pos && Full(s))
  }

  /** A step of thread t alone has brought the call to its answer, or nearer to the same answer. */
  ghost predicate PushCloser<V>(s: State<V>, s': State<V>, t: nat)
    requires t < |s.pcs|
  {
    && t < |s'.pcs|
    && (s'.pcs[t] == PushReturned(PushAnswer(s, t))
        || (InPush(s'.pcs[t]) && PushAnswer(s', t) == PushAnswer(s, t) && PushRank(s', t) < PushRank(s, t)))
  }

  lemma PushLookNearer<V>(s: State<V>, t: nat)
    requires Shape(s) && t < |s.pcs| && s.pcs[t].PushLook? && PushTold(s, s.pcs[t].pos)
    ensures PushCloser(s, PushStep(s, t, false), t)
  {
    assert Full(PushStep(s, t, false)) == Full(s);
  }

  lemma PushTryNearer<V>(s: State<V>, t: nat)
    requires Shape(s) && t < |s.pcs| && s.pcs[t].PushTry? && ThreadOk(s, t) && PushTold(s, s.pcs[t].pos)
    ensures PushCloser(s, PushStep(s, t, false), t)
  {
  }

  lemma PushRestNearer<V>(s: State<V>, t: nat)
    requires Shape(s) && t < |s.pcs| && (s.pcs[t].PushReload? || s.pcs[t].PushWrite? || s.pcs[t].PushPublish?)
    ensures PushCloser(s, PushStep(s, t, false), t)
  {
  }

  lemma PushNearer<V>(s: State<V>, t: nat)
    requires Inv(s) && t < |s.pcs| && InPush(s.pcs[t])
    ensures PushCloser(s, Next(s, Step(t, false)), t)
  {
    assert ThreadOk(s, t);
    if s.pcs[t].PushLook? {
      PushSees(s, s.pcs[t].pos);
      PushLookNearer(s, t);
    } else if s.pcs[t].PushTry? {
      PushSees(s, s.pcs[t].pos);
      PushTryNearer(s, t);
    } else {
      PushRestNearer(s, t);
    }
  }

  /**
   From any reachable state a thread inside push, stepping alone, comes to return. Unless it has claimed its ticket
   already, or has seen too small a number, it returns true exactly if the ring is not full now.
   */
  lemma {:induction false} PushReturns<V>(s: State<V>, t: nat) returns (n: nat)
    requires Inv(s) && t < |s.pcs| && InPush(s.pcs[t])
    ensures var s' := Run(s, Steps(t, n)); t < |s'.pcs| && s'.pcs[t] == PushReturned(PushAnswer(s, t))
    decreases PushRank(s, t)
  {
    var s1 := Next(s, Step(t, false));
    PushNearer(s, t);
    NextInv(s, Step(t, false));
    if InPush(s1.pcs[t]) {
      n := PushReturns(s1, t);
      n := n + 1;
    } else {
      n := 1;
      assert Run(s1, Steps(t, 0)) == s1;
    }
    assert Steps<V>(t, n)[1..] == Steps<V>(t, n - 1);
  }

  /** What the pop a thread is in will return if the others stand still. */
  ghost function PopAnswer<V>(s: State<V>, t: nat): Option<V>
    requires Shape(s) && t < |s.pcs| && ThreadOk(s, t)
  {
    if s.pcs[t].PopRead? || s.pcs[t].PopRelease? then Some(s.pushed[s.pcs[t].pos])
    else if SawEmpty(s.pcs[t]) || s.deq >= s.enq || s.deq !in s.published then None
    else Some(s.pushed[s.deq])
  }

  function PopRank<V>(s: State<V>, t: nat): nat
    requires t < |s.pcs|
  {
    match s.pcs[t]
    case PopLook(pos) => if pos == s.deq then 4 else 7
    case PopTry(pos, saw) =>
      if saw < pos + 1 then 1 else if saw > pos + 1 then 6 else if pos == s.deq then 3 else 5
    case PopReload => 5
    case PopRead(_) => 2
    case PopRelease(_, _) => 1
    case _ => 0
  }

  /** The number in the cell of pos is smaller exactly when pos is current and its ticket unpublished. */
  ghost predicate PopTold<V>(s: State<V>, pos: nat)
    requires Shape(s)
  {
    var q := s.seqs[Cell(pos, s.Cap())];
    && (q < pos + 1 <==> s.deq == pos && pos !in s.published)
    && (s.deq == pos ==> q <= pos + 1)
    && (s.deq == pos && q == pos + 1 ==> pos < s.enq && pos in s.published)
  }

  ghost predicate PopCloser<V>(s: State<V>, s': State<V>, t: nat)
    requires Shape(s) && t < |s.pcs| && ThreadOk(s, t)
    requires Shape(s') && t < |s'.pcs| && ThreadOk(s', t)
  {
    || s'.pcs[t] == PopReturned(PopAnswer(s, t))
    || (InPop(s'.pcs[t]) && PopAnswer(s', t) == PopAnswer(s, t) && PopRank(s', t) < PopRank(s, t))
  }

  /** The invariant holds for thread t before and after its step. */
  ghost predicate InStep<V>(s: State<V>, t: nat) {
    && Shape(s) && t < |s.pcs| && ThreadOk(s, t)
    && var s' := PopStep(s, t, false);
    && Shape(s') && t < |s'.pcs| && ThreadOk(s', t)
  }

  lemma PopLookNearer<V>(s: State<V>, t: nat)
    requires InStep(s, t) && s.pcs[t].PopLook? && PopTold(s, s.pcs[t].pos)
    ensures PopCloser(s, PopStep(s, t, false), t)
  {
  }

  lemma PopTryNearer<V>(s: State<V>, t: nat)
    requires InStep(s, t) && s.pcs[t].PopTry? && PopTold(s, s.pcs[t].pos)
    ensures PopCloser(s, PopStep(s, t, false), t)
  {
  }

  lemma PopRestNearer<V>(s: State<V>, t: nat)
    requires InStep(s, t) && (s.pcs[t].PopReload? || s.pcs[t].PopRead? || s.pcs[t].PopRelease?)
    ensures PopCloser(s, PopStep(s, t, false), t)
  {
  }

  lemma PopNearer<V>(s: State<V>, t: nat)
    requires Inv(s) && t < |s.pcs| && InPop(s.pcs[t]) && InStep(s, t)
    ensures PopCloser(s, PopStep(s, t, false), t)
  {
    if s.pcs[t].PopLook? {
      PopSees(s, s.pcs[t].pos);
      PopLookNearer(s, t);
    } else if s.pcs[t].PopTry? {
      PopSees(s, s.pcs[t].pos);
      PopTryNearer(s, t);
    } else {
      PopRestNearer(s, t);
    }
  }

  /**
   From any reachable state a thread inside pop, stepping alone, comes to return. Unless it has claimed its ticket
   already, or has seen too small a number, it returns the value at the head of the ring if that is published.
   */
  lemma {:induction false} PopReturns<V>(s: State<V>, t: nat) returns (n: nat)
    requires Inv(s) && t < |s.pcs| && InPop(s.pcs[t])
    ensures ThreadOk(s, t)
    ensures var s' := Run(s, Steps(t, n)); t < |s'.pcs| && s'.pcs[t] == PopReturned(PopAnswer(s, t))
    decreases PopRank(s, t)
  {
    var s1 := Next(s, Step(t, false));
    NextInv(s, Step(t, false));
    NextPcs(s, Step(t, false), t);
    assert s1 == PopStep(s, t, false);
    assert ThreadOk(s, t) && ThreadOk(s1, t);
    PopNearer(s, t);
    if InPop(s1.pcs[t]) {
      n := PopReturns(s1, t);
      n := n + 1;
    } else {
      n := 1;
      assert Run(s1, Steps(t, 0)) == s1;
    }
    assert Steps<V>(t, n)[1..] == Steps<V>(t, n - 1);
  }
}
