/**
 That no command pool is lost, on the state machine of module CommandPools: exactly which runs keep every pool in
 one place.
 */
module PoolConservation {
  import opened Wrappers
  import opened CommandPools

  // ---------------------------------------------------------------- every pool in one place

  ghost function Times(items: seq<nat>, x: nat): nat {
    multiset(items)[x]
  }

  lemma TimesConcat(a: seq<nat>, b: seq<nat>, x: nat)
    ensures Times(a + b, x) == Times(a, x) + Times(b, x)
  {
  }

  lemma TimesOne(y: nat, x: nat)
    ensures Times([y], x) == if x == y then 1 else 0
  {
  }

  lemma TimesTail(items: seq<nat>, x: nat)
    requires items != []
    ensures Times(items, x) == (if items[0] == x then 1 else 0) + Times(items[1..], x)
  {
    assert items == [items[0]] + items[1..];
    TimesConcat([items[0]], items[1..], x);
    TimesOne(items[0], x);
  }

  function Active(p: Store): seq<nat> {
    if p.active.Some? then [p.active.value] else []
  }

  /** What lies in a ring nobody will drain again is lost. */
  ghost function InStore(p: Store, x: nat): nat {
    Times(Active(p), x) + if p.phase.Open? then Times(p.ring, x) else 0
  }

  ghost function InStores(stores: seq<Store>, x: nat): nat {
    if stores == [] then 0 else InStore(stores[0], x) + InStores(stores[1..], x)
  }

  /** Pools in the hands of a thread between two steps. */
  ghost function InHand(pc: Pc, x: nat): nat {
    match pc
    case Discarding(pool) => Times([pool], x)
    case Recycling(pool, _) => Times([pool], x)
    case Draining(_, drained) => Times(drained, x)
    case Destroying(_, drained) => Times(drained, x)
    case _ => 0
  }

  ghost function InHands(pcs: seq<Pc>, x: nat): nat {
    if pcs == [] then 0 else InHand(pcs[0], x) + InHands(pcs[1..], x)
  }

  ghost function InPending(pending: seq<Pending>, x: nat): nat {
    if pending == [] then 0 else (if pending[0].pool == x then 1 else 0) + InPending(pending[1..], x)
  }

  /** In how many places pool x is. */
  ghost function Places(s: State, x: nat): nat {
    InStores(s.stores, x) + InHands(s.pcs, x) + InPending(s.pending, x) + Times(s.destroyed, x)
  }

  /** Every pool created is in exactly one place, and no freed storage was used. */
  ghost predicate Whole(s: State) {
    !s.touchedFreed && forall x: nat :: Places(s, x) == if x < s.created then 1 else 0
  }

  lemma {:induction false} StoreUpdate(stores: seq<Store>, g: nat, p: Store, x: nat)
    requires g < |stores|
    ensures InStores(stores[g := p], x) + InStore(stores[g], x) == InStores(stores, x) + InStore(p, x)
  {
    if g == 0 {
      assert stores[0 := p][1..] == stores[1..];
    } else {
      assert stores[g := p][1..] == stores[1..][g - 1 := p];
      StoreUpdate(stores[1..], g - 1, p, x);
    }
  }

  lemma {:induction false} StoreAppend(stores: seq<Store>, p: Store, x: nat)
    ensures InStores(stores + [p], x) == InStores(stores, x) + InStore(p, x)
  {
    if stores != [] {
      assert (stores + [p])[1..] == stores[1..] + [p];
      StoreAppend(stores[1..], p, x);
    }
  }

  lemma {:induction false} HandUpdate(pcs: seq<Pc>, t: nat, pc: Pc, x: nat)
    requires t < |pcs|
    ensures InHands(pcs[t := pc], x) + InHand(pcs[t], x) == InHands(pcs, x) + InHand(pc, x)
  {
    if t == 0 {
      assert pcs[0 := pc][1..] == pcs[1..];
    } else {
      assert pcs[t := pc][1..] == pcs[1..][t - 1 := pc];
      HandUpdate(pcs[1..], t - 1, pc, x);
    }
  }

  lemma {:induction false} PendingAppend(pending: seq<Pending>, y: Pending, x: nat)
    ensures InPending(pending + [y], x) == InPending(pending, x) + if y.pool == x then 1 else 0
  {
    if pending != [] {
      assert (pending + [y])[1..] == pending[1..] + [y];
      PendingAppend(pending[1..], y, x);
    }
  }

  /** The push of a recycle loses its pool when nobody will drain the ring it reaches. */
  predicate Loses(s: State, a: Action) {
    && a.Push? && Enabled(s, a) && s.pcs[a.t].target.Some?
    && var p := s.stores[s.pcs[a.t].target.value];
       p.phase.Freed? || (p.phase.Drained? && |p.ring| < RING_CAPACITY)
  }

  /** The step keeps pool x in as many places as before, but for a pool it creates or loses. */
  ghost predicate Accounts(s: State, a: Action, s': State, x: nat) {
    && s.created <= s'.created <= s.created + 1
    && (s'.created > s.created ==> a.Allocate?)
    && Places(s', x) + (if Loses(s, a) && x == s.pcs[a.t].pool then 1 else 0)
       == Places(s, x) + if s'.created > s.created && x == s.created then 1 else 0
  }

  /** Places after a step that changes one storage. */
  lemma StoreShift(s: State, s': State, g: nat, p: Store, x: nat)
    requires g < |s.stores| && s'.stores == s.stores[g := p] && s'.pending == s.pending
    ensures Places(s', x) + InStore(s.stores[g], x) + InHands(s.pcs, x) + Times(s.destroyed, x)
         == Places(s, x) + InStore(p, x) + InHands(s'.pcs, x) + Times(s'.destroyed, x)
  {
    StoreUpdate(s.stores, g, p, x);
  }

  /** Places after a step that changes no storage. */
  lemma HandShift(s: State, s': State, t: nat, pc: Pc, x: nat)
    requires t < |s.pcs| && s'.pcs == s.pcs[t := pc] && s'.stores == s.stores
    ensures Places(s', x) + InHand(s.pcs[t], x) + InPending(s.pending, x) + Times(s.destroyed, x)
         == Places(s, x) + InHand(pc, x) + InPending(s'.pending, x) + Times(s'.destroyed, x)
  {
    HandUpdate(s.pcs, t, pc, x);
  }

  lemma AllocatePlaces(s: State, t: nat, x: nat)
    requires Enabled(s, Allocate(t)) && s.stores[s.registry[t].value].phase.Open?
    ensures Accounts(s, Allocate(t), Do(s, Allocate(t)), x)
  {
    var s' := AllocateStep(s, t);
    var g := s.registry[t].value;
    var p := s.stores[g];
    if p.active.None? {
      if p.ring != [] {
        TimesTail(p.ring, x);
      }
      TimesOne(s'.stores[g].active.value, x);
      StoreShift(s, s', g, s'.stores[g], x);
    }
  }

  lemma PushRingPlaces(s: State, t: nat, x: nat)
    requires Enabled(s, Push(t)) && s.pcs[t].target.Some?
    requires var p := s.stores[s.pcs[t].target.value]; !p.phase.Freed? && |p.ring| < RING_CAPACITY
    ensures Accounts(s, Push(t), Do(s, Push(t)), x)
  {
    var pool, g := s.pcs[t].pool, s.pcs[t].target.value;
    var p := s.stores[g];
    TimesOne(pool, x);
    TimesConcat(p.ring, [pool], x);
    HandUpdate(s.pcs, t, Sweeping, x);
    StoreShift(s, PushStep(s, t), g, p.(ring := p.ring + [pool]), x);
  }

  lemma PushElsePlaces(s: State, t: nat, x: nat)
    requires Enabled(s, Push(t)) && s.pcs[t].target.Some?
    requires var p := s.stores[s.pcs[t].target.value]; p.phase.Freed? || |p.ring| >= RING_CAPACITY
    ensures Accounts(s, Push(t), Do(s, Push(t)), x)
  {
    var pool := s.pcs[t].pool;
    TimesOne(pool, x);
    TimesConcat(s.destroyed, [pool], x);
    HandShift(s, PushStep(s, t), t, Sweeping, x);
  }

  lemma PushNobodyPlaces(s: State, t: nat, x: nat)
    requires Enabled(s, Push(t)) && s.pcs[t].target.None?
    ensures Accounts(s, Push(t), Do(s, Push(t)), x)
  {
    var pool := s.pcs[t].pool;
    TimesConcat(s.destroyed, [pool], x);
    HandShift(s, PushStep(s, t), t, Sweeping, x);
  }

  lemma DrainPlaces(s: State, t: nat, x: nat)
    requires Enabled(s, StepShutdown(t)) && s.pcs[t].Draining?
    requires s.stores[s.pcs[t].store].phase.Open? && s.stores[s.pcs[t].store].ring != []
    ensures Accounts(s, StepShutdown(t), Do(s, StepShutdown(t)), x)
  {
    var g, drained := s.pcs[t].store, s.pcs[t].drained;
    var p := s.stores[g];
    TimesTail(p.ring, x);
    TimesOne(p.ring[0], x);
    TimesConcat(drained, [p.ring[0]], x);
    HandUpdate(s.pcs, t, Draining(g, drained + [p.ring[0]]), x);
    StoreShift(s, ShutdownStep(s, t), g, p.(ring := p.ring[1..]), x);
  }

  lemma DrainedPlaces(s: State, t: nat, x: nat)
    requires Enabled(s, StepShutdown(t)) && s.pcs[t].Draining?
    requires s.stores[s.pcs[t].store].phase.Open? && s.stores[s.pcs[t].store].ring == []
    ensures Accounts(s, StepShutdown(t), Do(s, StepShutdown(t)), x)
  {
    var g, drained := s.pcs[t].store, s.pcs[t].drained;
    var p := s.stores[g];
    HandUpdate(s.pcs, t, Destroying(g, drained), x);
    StoreShift(s, ShutdownStep(s, t), g, p.(phase := Drained), x);
  }

  lemma DestroyPlaces(s: State, t: nat, x: nat)
    requires Enabled(s, StepShutdown(t)) && s.pcs[t].Destroying? && s.pcs[t].drained != []
    ensures Accounts(s, StepShutdown(t), Do(s, StepShutdown(t)), x)
  {
    var g, drained := s.pcs[t].store, s.pcs[t].drained;
    TimesTail(drained, x);
    TimesOne(drained[0], x);
    TimesConcat(s.destroyed, [drained[0]], x);
    HandShift(s, ShutdownStep(s, t), t, Destroying(g, drained[1..]), x);
  }

  lemma FreePlaces(s: State, t: nat, x: nat)
    requires Enabled(s, StepShutdown(t)) && s.pcs[t].Destroying? && s.pcs[t].drained == []
    requires s.stores[s.pcs[t].store].phase.Drained?
    ensures Accounts(s, StepShutdown(t), Do(s, StepShutdown(t)), x)
  {
    var g := s.pcs[t].store;
    var p := s.stores[g];
    if p.active.Some? {
      TimesConcat(s.destroyed, [p.active.value], x);
      StoreShift(s, ShutdownStep(s, t), g, p.(active := None), x);
    } else {
      HandUpdate(s.pcs, t, Idle, x);
      StoreShift(s, ShutdownStep(s, t), g, p.(phase := Freed), x);
    }
  }

  lemma PushPlaces(s: State, t: nat, x: nat)
    requires Enabled(s, Push(t))
    ensures Accounts(s, Push(t), Do(s, Push(t)), x)
  {
    if s.pcs[t].target.None? {
      PushNobodyPlaces(s, t, x);
    } else {
      var p := s.stores[s.pcs[t].target.value];
      if !p.phase.Freed? && |p.ring| < RING_CAPACITY {
        PushRingPlaces(s, t, x);
      } else {
        PushElsePlaces(s, t, x);
      }
    }
  }

  lemma ShutdownPlaces(s: State, t: nat, x: nat)
    requires Enabled(s, StepShutdown(t)) && t < |s.registry| == |s.pcs| && ThreadOk(s, t)
    ensures Accounts(s, StepShutdown(t), Do(s, StepShutdown(t)), x)
  {
    match s.pcs[t]
    case Draining(g, _) => if s.stores[g].ring != [] { DrainPlaces(s, t, x); } else { DrainedPlaces(s, t, x); }
    case Destroying(_, drained) => if drained != [] { DestroyPlaces(s, t, x); } else { FreePlaces(s, t, x); }
  }

  lemma MovePlaces(s: State, a: Action, x: nat)
    requires Enabled(s, a) && (a.Register? || a.TakeActive? || a.Unregister?)
    ensures Accounts(s, a, Do(s, a), x)
  {
    match a
    case Register(t) => StoreAppend(s.stores, Store(t, None, [], {}, Open), x);
    case TakeActive(t) =>
      var g := s.registry[t].value;
      var p := s.stores[g];
      HandUpdate(s.pcs, t, Discarding(p.active.value), x);
      StoreShift(s, Do(s, a), g, p.(active := None), x);
    case Unregister(t) => HandShift(s, Do(s, a), t, Draining(s.registry[t].value, []), x);
  }

  lemma ListPlaces(s: State, a: Action, x: nat)
    requires Enabled(s, a) && (a.Append? || a.StartSweep? || a.Lookup? || a.EndSweep?)
    ensures Accounts(s, a, Do(s, a), x)
  {
    HandShift(s, Do(s, a), a.t, Do(s, a).pcs[a.t], x);
    match a
    case Append(t) =>
      TimesOne(s.pcs[t].pool, x);
      PendingAppend(s.pending, Pending(s.pcs[t].pool, t), x);
    case StartSweep(_) =>
    case Lookup(_) => TimesOne(s.pending[0].pool, x);
    case EndSweep(_) =>
  }

  /** Only an allocation creates a pool, and only a push to a storage already drained loses one. */
  lemma NextPlaces(s: State, a: Action, x: nat)
    requires Inv(s)
    ensures Accounts(s, a, Next(s, a), x)
  {
    if Enabled(s, a) {
      assert ThreadOk(s, a.t);
      match a
      case Register(_) => MovePlaces(s, a, x);
      case TakeActive(_) => MovePlaces(s, a, x);
      case Unregister(_) => MovePlaces(s, a, x);
      case Append(_) => ListPlaces(s, a, x);
      case StartSweep(_) => ListPlaces(s, a, x);
      case Lookup(_) => ListPlaces(s, a, x);
      case EndSweep(_) => ListPlaces(s, a, x);
      case Allocate(t) => AllocatePlaces(s, t, x);
      case Push(t) => PushPlaces(s, t, x);
      case StepShutdown(t) => ShutdownPlaces(s, t, x);
    }
  }

  // ---------------------------------------------------------------- no unregistering under a recycle

  /** A recycle has looked this storage up and not yet pushed. */
  ghost predicate InFlight(s: State, g: nat) {
    exists u: nat :: u < |s.pcs| && s.pcs[u].Recycling? && s.pcs[u].target == Some(g)
  }

  /** The action unregisters a thread while a recycle for it stands between its lookup and its push. */
  ghost predicate Careless(s: State, a: Action) {
    a.Unregister? && Enabled(s, a) && InFlight(s, s.registry[a.t].value)
  }

  ghost predicate Careful(s: State, schedule: seq<Action>)
    decreases |schedule|
  {
    schedule != [] ==> !Careless(s, schedule[0]) && Careful(Next(s, schedule[0]), schedule[1..])
  }

  /** The storage a recycle has looked up is still its owner's. */
  ghost predicate Linked(s: State, u: nat) {
    u < |s.pcs| && s.pcs[u].Recycling? && s.pcs[u].target.Some? ==>
      var g := s.pcs[u].target.value;
      g < |s.stores| && s.stores[g].owner < |s.registry| && s.registry[s.stores[g].owner] == Some(g)
  }

  ghost predicate AllLinked(s: State) {
    forall u: nat :: Linked(s, u)
  }

  lemma StoresKept(s: State, a: Action, g: nat)
    requires Enabled(s, a) && g < |s.stores|
    ensures g < |Do(s, a).stores| && Do(s, a).stores[g].owner == s.stores[g].owner
  {
  }

  lemma LookupLinks(s: State, u: nat)
    requires Inv(s) && Enabled(s, Lookup(u))
    ensures Linked(Do(s, Lookup(u)), u)
  {
    if s.pending[0].owner < |s.registry| {
      assert ThreadOk(s, s.pending[0].owner);
    }
  }

  lemma PcKept(s: State, a: Action, u: nat)
    requires Enabled(s, a) && u < |s.pcs|
    ensures |Do(s, a).pcs| == |s.pcs| && |Do(s, a).registry| == |s.registry|
    ensures a != Lookup(u) && Do(s, a).pcs[u].Recycling? ==> Do(s, a).pcs[u] == s.pcs[u]
  {
  }

  lemma OthersKept(s: State, a: Action, t: nat)
    requires Enabled(s, a) && t != a.t && t < |s.pcs|
    ensures |Do(s, a).pcs| == |s.pcs| && Do(s, a).pcs[t] == s.pcs[t] && Home(Do(s, a), t) == Home(s, t)
  {
  }

  lemma HomeKept(s: State, a: Action, t: nat)
    requires Enabled(s, a) && t < |s.registry| && s.registry[t].Some? && a != Unregister(t)
    ensures Home(Do(s, a), t) == s.registry[t]
  {
  }

  lemma LinkedKept(s: State, a: Action, u: nat)
    requires Inv(s) && Linked(s, u) && Enabled(s, a) && !Careless(s, a)
    ensures Linked(Do(s, a), u)
  {
    if a == Lookup(u) {
      LookupLinks(s, u);
    } else if u < |s.pcs| {
      PcKept(s, a, u);
      if Do(s, a).pcs[u].Recycling? && s.pcs[u].target.Some? {
        var g := s.pcs[u].target.value;
        StoresKept(s, a, g);
        assert a == Unregister(s.stores[g].owner) ==> InFlight(s, g);
        HomeKept(s, a, s.stores[g].owner);
      }
    }
  }

  lemma NextKeepsWhole(s: State, a: Action)
    requires Inv(s) && Whole(s) && !Loses(s, a)
    ensures Inv(Next(s, a)) && Whole(Next(s, a))
  {
    NextInv(s, a);
    forall x: nat ensures Places(Next(s, a), x) == if x < Next(s, a).created then 1 else 0 {
      NextPlaces(s, a, x);
    }
  }

  lemma NextWhole(s: State, a: Action)
    requires Inv(s) && AllLinked(s) && Whole(s) && !Careless(s, a)
    ensures Inv(Next(s, a)) && AllLinked(Next(s, a)) && Whole(Next(s, a))
  {
    if Enabled(s, a) {
      forall u: nat ensures Linked(Do(s, a), u) {
        LinkedKept(s, a, u);
      }
      assert ThreadOk(s, a.t) && Linked(s, a.t);
      assert a.Push? && s.pcs[a.t].target.Some? ==> ThreadOk(s, s.stores[s.pcs[a.t].target.value].owner);
    }
    NextKeepsWhole(s, a);
  }

  lemma {:induction false} RunWhole(s: State, schedule: seq<Action>)
    requires Inv(s) && AllLinked(s) && Whole(s) && Careful(s, schedule)
    ensures Inv(Run(s, schedule)) && AllLinked(Run(s, schedule)) && Whole(Run(s, schedule))
    decreases |schedule|
  {
    if schedule != [] {
      NextWhole(s, schedule[0]);
      RunWhole(Next(s, schedule[0]), schedule[1..]);
    }
  }

  lemma {:induction false} NobodyHolds(threads: nat, x: nat)
    ensures InHands(seq(threads, _ => Idle), x) == 0
  {
    if threads > 0 {
      assert seq(threads, _ => Idle)[1..] == seq(threads - 1, _ => Idle);
      NobodyHolds(threads - 1, x);
    }
  }

  lemma InitWhole(threads: nat)
    ensures Inv(Init(threads)) && AllLinked(Init(threads)) && Whole(Init(threads))
  {
    forall x: nat ensures Places(Init(threads), x) == 0 {
      NobodyHolds(threads, x);
    }
  }

  /**
   In every run of any number of threads in which no thread unregisters under a recycle, each pool that was
   created is in exactly one place: active, in a ring, in a thread's hands, discarded or destroyed.
   */
  lemma PoolInOnePlace(threads: nat, schedule: seq<Action>, x: nat)
    requires Careful(Init(threads), schedule)
    ensures var s := Run(Init(threads), schedule);
      Places(s, x) == (if x < s.created then 1 else 0) && Times(s.destroyed, x) <= 1
  {
    InitWhole(threads);
    RunWhole(Init(threads), schedule);
  }

  // ---------------------------------------------------------------- a shutdown as a whole

  function Steps(t: nat, n: nat): seq<Action> {
    if n == 0 then [] else [StepShutdown(t)] + Steps(t, n - 1)
  }

  lemma {:induction false} StepsCareful(s: State, t: nat, n: nat)
    ensures Careful(s, Steps(t, n))
    decreases n
  {
    if n > 0 {
      StepsCareful(Next(s, StepShutdown(t)), t, n - 1);
    }
  }

  lemma {:induction false} StepsWhole(s: State, t: nat, n: nat)
    requires Inv(s) && Whole(s)
    ensures Inv(Run(s, Steps(t, n))) && Whole(Run(s, Steps(t, n)))
    decreases n
  {
    if n > 0 {
      NextKeepsWhole(s, StepShutdown(t));
      StepsWhole(Next(s, StepShutdown(t)), t, n - 1);
    }
  }

  /** The end of a shutdown that is destroying what it drained. */
  lemma {:induction false} DestroyEnds(s: State, t: nat)
    requires Enabled(s, StepShutdown(t)) && s.pcs[t].Destroying?
    ensures var g := s.pcs[t].store;
      Run(s, Steps(t, |s.pcs[t].drained| + |Active(s.stores[g])| + 1))
        == s.(pcs := s.pcs[t := Idle], stores := s.stores[g := s.stores[g].(active := None, phase := Freed)],
              destroyed := s.destroyed + s.pcs[t].drained + Active(s.stores[g]))
    decreases |s.pcs[t].drained|, |Active(s.stores[s.pcs[t].store])|
  {
    var g, drained := s.pcs[t].store, s.pcs[t].drained;
    var s' := Next(s, StepShutdown(t));
    if drained != [] {
      assert s.destroyed + drained == s.destroyed + [drained[0]] + drained[1..];
      assert s'.pcs[t := Idle] == s.pcs[t := Idle];
      DestroyEnds(s', t);
    } else if s.stores[g].active.Some? {
      assert s.destroyed + drained + Active(s.stores[g]) == s'.destroyed + [] + Active(s'.stores[g]);
      assert s'.stores[g].(phase := Freed) == s.stores[g].(active := None, phase := Freed);
      assert s'.stores[g := s'.stores[g].(active := None, phase := Freed)]
          == s.stores[g := s.stores[g].(active := None, phase := Freed)];
      DestroyEnds(s', t);
    } else {
      assert Run(s', Steps(t, 0)) == s';
      assert s.stores[g].(active := None, phase := Freed) == s.stores[g].(phase := Freed);
      assert s.destroyed + drained + Active(s.stores[g]) == s.destroyed;
    }
  }

  /** The end of a shutdown that is draining the ring. */
  lemma {:induction false} DrainEnds(s: State, t: nat)
    requires Enabled(s, StepShutdown(t)) && s.pcs[t].Draining?
    ensures var p := s.stores[s.pcs[t].store];
      Run(s, Steps(t, 2 * |p.ring| + |s.pcs[t].drained| + |Active(p)| + 2))
        == s.(pcs := s.pcs[t := Idle],
              stores := s.stores[s.pcs[t].store := p.(active := None, ring := [], phase := Freed)],
              destroyed := s.destroyed + s.pcs[t].drained + p.ring + Active(p))
    decreases |s.stores[s.pcs[t].store].ring|
  {
    var g, drained := s.pcs[t].store, s.pcs[t].drained;
    var p := s.stores[g];
    var s' := Next(s, StepShutdown(t));
    assert s'.pcs[t := Idle] == s.pcs[t := Idle];
    var freed := p.(active := None, ring := [], phase := Freed);
    assert s'.stores[g].(active := None, ring := [], phase := Freed) == freed;
    assert s'.stores[g := freed] == s.stores[g := freed];
    if p.ring != [] {
      assert s.destroyed + drained + p.ring == s.destroyed + (drained + [p.ring[0]]) + p.ring[1..];
      DrainEnds(s', t);
    } else {
      assert s.destroyed + drained + p.ring == s.destroyed + drained;
      DestroyEnds(s', t);
    }
  }

  /** A whole shutdown: the ring's pools are destroyed, oldest first, then the active one. */
  function ShutdownWhole(s: State, t: nat): State {
    if !Owns(s, t) then s
    else
      var g := s.registry[t].value;
      var p := s.stores[g];
      s.(registry := s.registry[t := None],
         stores := s.stores[g := p.(active := None, ring := [], phase := Freed)],
         destroyed := s.destroyed + p.ring + Active(p))
  }

  function ShutdownSteps(s: State, t: nat): seq<Action>
    requires Owns(s, t)
  {
    var p := s.stores[s.registry[t].value];
    Steps(t, 2 * |p.ring| + |Active(p)| + 2)
  }

  /** With nobody in between, the steps of a shutdown have that effect. */
  lemma ShutdownRuns(s: State, t: nat)
    requires Owns(s, t)
    ensures Run(Next(s, Unregister(t)), ShutdownSteps(s, t)) == ShutdownWhole(s, t)
  {
    var p := s.stores[s.registry[t].value];
    var s' := Next(s, Unregister(t));
    DrainEnds(s', t);
    assert s'.pcs[t := Idle] == s.pcs;
    assert s.destroyed + [] + p.ring == s.destroyed + p.ring;
  }

  // ---------------------------------------------------------------- exactly when no pool is lost

  /** From s no careful schedule loses a pool or touches freed storage. */
  ghost predicate StaysWhole(s: State) {
    forall rest: seq<Action> | Careful(s, rest) :: Whole(Run(s, rest))
  }

  /** Nowhere along the schedule has a pool been lost, or is the way open to losing one. */
  ghost predicate KeepsAll(s: State, schedule: seq<Action>)
    decreases |schedule|
  {
    StaysWhole(s) && (schedule != [] ==> KeepsAll(Next(s, schedule[0]), schedule[1..]))
  }

  lemma {:induction false} HeldIsPlaced(pcs: seq<Pc>, u: nat, x: nat)
    requires u < |pcs| && pcs[u].Recycling? && pcs[u].pool == x
    ensures InHands(pcs, x) >= 1
  {
    if u == 0 {
      TimesOne(x, x);
    } else {
      HeldIsPlaced(pcs[1..], u - 1, x);
    }
  }

  lemma LatePushLoses(s: State, u: nat)
    requires Inv(s) && Whole(s) && Enabled(s, Push(u)) && s.pcs[u].target.Some?
    requires s.stores[s.pcs[u].target.value].phase.Freed?
    ensures var s' := Next(s, Push(u)); var pool := s.pcs[u].pool;
      pool < s'.created && Places(s', pool) == 0 && s'.touchedFreed
  {
    var pool := s.pcs[u].pool;
    HeldIsPlaced(s.pcs, u, pool);
    assert Places(s, pool) >= 1;
    NextPlaces(s, Push(u), pool);
  }

  /**
   A recycle whose owner unregistered under it: the owner drains, destroys and frees, and then the push puts
   the pool where nobody will find it.
   */
  lemma CarelessLoses(s: State, a: Action) returns (rest: seq<Action>, pool: nat)
    requires Inv(s) && Whole(s) && Careless(s, a)
    ensures Careful(Next(s, a), rest)
    ensures var s' := Run(Next(s, a), rest); pool < s'.created && Places(s', pool) == 0 && s'.touchedFreed
  {
    var g := s.registry[a.t].value;
    var u: nat :| u < |s.pcs| && s.pcs[u].Recycling? && s.pcs[u].target == Some(g);
    pool := s.pcs[u].pool;
    var s1 := Next(s, a);
    var n := 2 * |s.stores[g].ring| + |Active(s.stores[g])| + 2;
    rest := Steps(a.t, n) + [Push(u)];
    NextKeepsWhole(s, a);
    StepsWhole(s1, a.t, n);
    ShutdownRuns(s, a.t);
    LatePushLoses(ShutdownWhole(s, a.t), u);
    StepsCareful(s1, a.t, n);
    CarefulAppend(s1, Steps(a.t, n), Push(u));
    RunAppend(s1, Steps(a.t, n), [Push(u)]);
    RunOne(ShutdownWhole(s, a.t), [Push(u)], 0);
  }

  lemma RunOne(s: State, schedule: seq<Action>, k: nat)
    requires k < |schedule|
    ensures Run(s, schedule[k..]) == Run(Next(s, schedule[k]), schedule[k + 1..])
    ensures Careful(s, schedule[k..]) <==>
      !Careless(s, schedule[k]) && Careful(Next(s, schedule[k]), schedule[k + 1..])
  {
    assert schedule[k..][1..] == schedule[k + 1..];
  }

  lemma {:induction false} CarefulAppend(s: State, schedule: seq<Action>, a: Action)
    requires Careful(s, schedule) && !a.Unregister?
    ensures Careful(s, schedule + [a])
    decreases |schedule|
  {
    if schedule == [] {
      assert schedule + [a] == [a];
      assert Careful(Next(s, a), [a][1..]);
    } else {
      assert (schedule + [a])[1..] == schedule[1..] + [a];
      CarefulAppend(Next(s, schedule[0]), schedule[1..], a);
    }
  }

  lemma WholeStays(s: State)
    requires Inv(s) && AllLinked(s) && Whole(s)
    ensures StaysWhole(s)
  {
    forall rest: seq<Action> | Careful(s, rest) ensures Whole(Run(s, rest)) {
      RunWhole(s, rest);
    }
  }

  /** Exactly when a thread may unregister. */
  lemma UnregisterSafeExactly(s: State, t: nat)
    requires Inv(s) && AllLinked(s) && Whole(s) && Enabled(s, Unregister(t))
    ensures StaysWhole(Next(s, Unregister(t))) <==> !InFlight(s, s.registry[t].value)
  {
    if InFlight(s, s.registry[t].value) {
      var rest, pool := CarelessLoses(s, Unregister(t));
    } else {
      NextWhole(s, Unregister(t));
      WholeStays(Next(s, Unregister(t)));
    }
  }

  lemma {:induction false} KeepsExactly(s: State, schedule: seq<Action>)
    requires Inv(s) && AllLinked(s) && Whole(s)
    ensures KeepsAll(s, schedule) <==> Careful(s, schedule)
    decreases |schedule|
  {
    WholeStays(s);
    if schedule != [] {
      if Careless(s, schedule[0]) {
        var rest, pool := CarelessLoses(s, schedule[0]);
        assert !StaysWhole(Next(s, schedule[0]));
      } else {
        NextWhole(s, schedule[0]);
        KeepsExactly(Next(s, schedule[0]), schedule[1..]);
      }
    }
  }

  /**
   Over all runs of any number of threads: every pool stays in exactly one place, and no freed storage is used,
   if and only if no thread unregisters while a recycle for it stands between its lookup and its push.
   */
  lemma ConservesExactly(threads: nat, schedule: seq<Action>)
    ensures KeepsAll(Init(threads), schedule) <==> Careful(Init(threads), schedule)
  {
    InitWhole(threads);
    KeepsExactly(Init(threads), schedule);
  }

  /** Thread 1 has made pool 0. */
  const MADE :=
    State([None, Some(0)], [Store(1, Some(0), [], {0}, Open)], [Idle, Idle], None, [], [], 1, false, false)

  /** It has discarded the pool; thread 0 sweeps, and has just looked thread 1 up. */
  const LOOKED_UP :=
    State([None, Some(0)], [Store(1, None, [], {0}, Open)], [Recycling(0, Some(0)), Idle], Some(0), [], [], 1,
          false, false)

  lemma ToMade()
    ensures Next(Next(Init(2), Register(1)), Allocate(1)) == MADE
  {
    var s := Next(Init(2), Register(1));
    assert s.registry == [None, Some(0)] && s.stores == [Store(1, None, [], {}, Open)] && s.pcs == [Idle, Idle];
    assert {} + {0} == {0};
  }

  lemma ToLookup()
    ensures Next(Next(Next(Next(MADE, TakeActive(1)), Append(1)), StartSweep(0)), Lookup(0)) == LOOKED_UP
  {
    var s := Next(MADE, TakeActive(1));
    assert s.stores == [Store(1, None, [], {0}, Open)] && s.pcs == [Idle, Discarding(0)];
    var s' := Next(s, Append(1));
    assert s'.pcs == [Idle, Idle] && s'.pending == [Pending(0, 1)];
  }

  lemma FromLookup()
    ensures Careless(LOOKED_UP, Unregister(1))
    ensures var s1 := Next(Next(Next(LOOKED_UP, Unregister(1)), StepShutdown(1)), StepShutdown(1));
      Next(s1, Push(0)) ==
        State([None, None], [Store(1, None, [], {0}, Freed)], [Sweeping, Idle], Some(0), [], [], 1, false, true)
  {
    assert LOOKED_UP.pcs[0].target == Some(0);
    assert InFlight(LOOKED_UP, 0);
    var s1 := Next(LOOKED_UP, Unregister(1));
    assert s1.registry == [None, None] && s1.pcs == [Recycling(0, Some(0)), Draining(0, [])];
    var s2 := Next(s1, StepShutdown(1));
    assert s2.stores == [Store(1, None, [], {0}, Drained)] && s2.pcs == [Recycling(0, Some(0)), Destroying(0, [])];
    var s3 := Next(s2, StepShutdown(1));
    assert s3.stores == [Store(1, None, [], {0}, Freed)] && s3.pcs == [Recycling(0, Some(0)), Idle];
  }

  lemma RunToLookup(schedule: seq<Action>)
    requires |schedule| >= 6
    requires schedule[..6] == [Register(1), Allocate(1), TakeActive(1), Append(1), StartSweep(0), Lookup(0)]
    ensures Run(Init(2), schedule) == Run(LOOKED_UP, schedule[6..])
  {
    var first := schedule[..6];
    assert schedule[0] == first[0] && schedule[1] == first[1] && schedule[2] == first[2];
    assert schedule[3] == first[3] && schedule[4] == first[4] && schedule[5] == first[5];
    assert schedule[0..] == schedule;
    ToMade();
    ToLookup();
    RunOne(Init(2), schedule, 0);
    RunOne(Next(Init(2), Register(1)), schedule, 1);
    RunOne(MADE, schedule, 2);
    RunThree(Next(MADE, TakeActive(1)), schedule, 3);
  }

  /** The schedule that loses a pool: then pool 0 is nowhere, and the push went to freed storage. */
  lemma RecycleCanLose(schedule: seq<Action>)
    requires schedule == [
      Register(1), Allocate(1), TakeActive(1), Append(1), StartSweep(0), Lookup(0),
      Unregister(1), StepShutdown(1), StepShutdown(1), Push(0)]
    ensures var s := Run(Init(2), schedule); s.created == 1 && Places(s, 0) == 0 && s.touchedFreed
  {
    RunToLookup(schedule);
    FromLookup();
    RunThree(LOOKED_UP, schedule, 6);
    RunOne(Next(Next(Next(LOOKED_UP, Unregister(1)), StepShutdown(1)), StepShutdown(1)), schedule, 9);
    NothingLeft();
  }

  lemma NothingLeft()
    ensures Places(
      State([None, None], [Store(1, None, [], {0}, Freed)], [Sweeping, Idle], Some(0), [], [], 1, false, true), 0) == 0
  {
    assert [Store(1, None, [], {0}, Freed)][1..] == [];
    assert [Sweeping, Idle][1..] == [Idle] && [Idle][1..] == [];
  }

  lemma RunThree(s: State, schedule: seq<Action>, k: nat)
    requires k + 3 <= |schedule|
    ensures Run(s, schedule[k..])
         == Run(Next(Next(Next(s, schedule[k]), schedule[k + 1]), schedule[k + 2]), schedule[k + 3..])
  {
    var s1 := Next(s, schedule[k]);
    RunOne(s, schedule, k);
    RunOne(s1, schedule, k + 1);
    RunOne(Next(s1, schedule[k + 1]), schedule, k + 2);
  }
}
