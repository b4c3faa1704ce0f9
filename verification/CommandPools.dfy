/**
 The life of command pools across threads.

 Each thread that asks for command buffers owns a storage with an active pool, a ring of recycled pools and a
 cache with an entry for every pool it created. A discarded pool waits, under the name of its owner, until a
 sweep of the discard pool gives it back to the owner's ring, or destroys it if the ring is full or the owner has
 gone. The sweep looks the owner up under the registry's lock, but pushes after it has given the lock up.

 A step is one operation under a lock, one operation on a ring, or the work of one thread on what it alone can
 reach. That a push or a pop of a ring, several atomic accesses in the program, takes effect at one moment is
 the business of module Spsc.
 */
module CommandPools {
  import opened Wrappers

  const RING_CAPACITY := 63

  /** A storage is open until its owner has found its ring empty for the last time. */
  datatype Phase = Open | Drained | Freed

  datatype Store = Store(owner: nat, active: Option<nat>, ring: seq<nat>, cache: set<nat>, phase: Phase)

  datatype Pending = Pending(pool: nat, owner: nat)

  /** Where a thread stands inside the operations that take more than one step. */
  datatype Pc =
    | Idle
    | Discarding(pool: nat)                          // has taken its active pool, not yet appended it
    | Sweeping
    | Recycling(pool: nat, target: Option<nat>)      // the sweep has looked the owner up, not yet pushed
    | Draining(store: nat, drained: seq<nat>)        // shutdown, behind the registry's lock
    | Destroying(store: nat, drained: seq<nat>)

  /** Places in `registry` and `pcs` are threads, places in `stores` are storages in the order of their making. */
  datatype State = State(
    registry: seq<Option<nat>>,      // the storage of each registered thread
    stores: seq<Store>,
    pcs: seq<Pc>,
    sweeper: Option<nat>,            // the holder of the discard pool's lock for the length of a sweep
    pending: seq<Pending>,           // the discard pool's list
    destroyed: seq<nat>,
    created: nat,                    // pools are numbered as they are created
    threw: bool,                     // whether a lookup of the active pool's cache has failed
    touchedFreed: bool)              // whether a freed storage was used

  datatype Action =
    | Register(t: nat)
    | Allocate(t: nat)
    | TakeActive(t: nat)
    | Append(t: nat)
    | StartSweep(t: nat)
    | Lookup(t: nat)
    | Push(t: nat)
    | EndSweep(t: nat)
    | Unregister(t: nat)
    | StepShutdown(t: nat)

  function Init(threads: nat): State {
    State(seq(threads, _ => None), [], seq(threads, _ => Idle), None, [], [], 0, false, false)
  }

  // ---------------------------------------------------------------- steps

  function Home(s: State, t: nat): Option<nat> {
    if t < |s.registry| then s.registry[t] else None
  }

  /** Thread t is outside all operations. */
  predicate AtRest(s: State, t: nat) {
    t < |s.pcs| && t < |s.registry| && s.pcs[t].Idle?
  }

  predicate Owns(s: State, t: nat) {
    AtRest(s, t) && s.registry[t].Some? && s.registry[t].value < |s.stores|
  }

  predicate Enabled(s: State, a: Action) {
    match a
    case Register(t) => AtRest(s, t) && s.registry[t].None?
    case Allocate(t) => Owns(s, t)
    case TakeActive(t) => Owns(s, t) && s.stores[s.registry[t].value].active.Some?
    case Append(t) => t < |s.pcs| && s.pcs[t].Discarding? && s.sweeper.None?
    case StartSweep(t) => AtRest(s, t) && s.sweeper.None?
    case Lookup(t) => t < |s.pcs| && s.pcs[t].Sweeping? && s.pending != []
    case Push(t) =>
      t < |s.pcs| && s.pcs[t].Recycling? && (s.pcs[t].target.Some? ==> s.pcs[t].target.value < |s.stores|)
    case EndSweep(t) => t < |s.pcs| && s.pcs[t].Sweeping?
    case Unregister(t) => Owns(s, t)
    case StepShutdown(t) =>
      t < |s.pcs| && (s.pcs[t].Draining? || s.pcs[t].Destroying?) && s.pcs[t].store < |s.stores|
  }

  /** The thread's active pool: the one it has, the oldest recycled one, or a new one. */
  function AllocateStep(s: State, t: nat): State
    requires Owns(s, t)
  {
    var g := s.registry[t].value;
    var p := s.stores[g];
    if p.active.Some? then s.(threw := s.threw || p.active.value !in p.cache)
    else if p.ring != [] then
      s.(stores := s.stores[g := p.(active := Some(p.ring[0]), ring := p.ring[1..])],
         threw := s.threw || p.ring[0] !in p.cache)
    else
      s.(stores := s.stores[g := p.(active := Some(s.created), cache := p.cache + {s.created})],
         created := s.created + 1)
  }

  /** The pool joins the ring it was meant for if that has room and is still there, and is destroyed otherwise. */
  function PushStep(s: State, t: nat): State
    requires Enabled(s, Push(t))
  {
    var s1 := s.(pcs := s.pcs[t := Sweeping]);
    match s.pcs[t]
    case Recycling(pool, Some(g)) =>
      var p := s.stores[g];
      if p.phase.Freed? then s1.(touchedFreed := true)
      else if |p.ring| < RING_CAPACITY then s1.(stores := s.stores[g := p.(ring := p.ring + [pool])])
      else s1.(destroyed := s.destroyed + [pool])
    case Recycling(pool, None) => s1.(destroyed := s.destroyed + [pool])
    case _ => s
  }

  /** Drains the ring, then destroys what was drained, then the active pool, then frees the storage. */
  function ShutdownStep(s: State, t: nat): State
    requires Enabled(s, StepShutdown(t))
  {
    match s.pcs[t]
    case Draining(g, drained) =>
      var p := s.stores[g];
      if p.ring != [] then
        s.(stores := s.stores[g := p.(ring := p.ring[1..])], pcs := s.pcs[t := Draining(g, drained + [p.ring[0]])])
      else s.(stores := s.stores[g := p.(phase := Drained)], pcs := s.pcs[t := Destroying(g, drained)])
    case Destroying(g, drained) =>
      var p := s.stores[g];
      if drained != [] then
        s.(destroyed := s.destroyed + [drained[0]], pcs := s.pcs[t := Destroying(g, drained[1..])])
      else if p.active.Some? then
        s.(destroyed := s.destroyed + [p.active.value], stores := s.stores[g := p.(active := None)])
      else s.(stores := s.stores[g := p.(phase := Freed)], pcs := s.pcs[t := Idle])
    case _ => s
  }

  function Do(s: State, a: Action): State
    requires Enabled(s, a)
  {
    match a
    case Register(t) =>
      s.(registry := s.registry[t := Some(|s.stores|)], stores := s.stores + [Store(t, None, [], {}, Open)])
    case Allocate(t) => AllocateStep(s, t)
    case TakeActive(t) =>
      var g := s.registry[t].value;
      s.(stores := s.stores[g := s.stores[g].(active := None)],
         pcs := s.pcs[t := Discarding(s.stores[g].active.value)])
    case Append(t) => s.(pending := s.pending + [Pending(s.pcs[t].pool, t)], pcs := s.pcs[t := Idle])
    case StartSweep(t) => s.(sweeper := Some(t), pcs := s.pcs[t := Sweeping])
    case Lookup(t) =>
      var x := s.pending[0];
      s.(pending := s.pending[1..], pcs := s.pcs[t := Recycling(x.pool, Home(s, x.owner))])
    case Push(t) => PushStep(s, t)
    case EndSweep(t) => s.(sweeper := None, pcs := s.pcs[t := Idle])
    case Unregister(t) => s.(registry := s.registry[t := None], pcs := s.pcs[t := Draining(s.registry[t].value, [])])
    case StepShutdown(t) => ShutdownStep(s, t)
  }

  /** What an action does; an action that is not enabled changes nothing. */
  function Next(s: State, a: Action): State {
    if Enabled(s, a) then Do(s, a) else s
  }

  function Run(s: State, schedule: seq<Action>): State
    decreases |schedule|
  {
    if schedule == [] then s else Run(Next(s, schedule[0]), schedule[1..])
  }

  lemma {:induction false} RunAppend(s: State, a: seq<Action>, b: seq<Action>)
    ensures Run(s, a + b) == Run(Run(s, a), b)
    decreases |a|
  {
    if a == [] {
      assert a + b == b;
    } else {
      assert (a + b)[1..] == a[1..] + b;
      RunAppend(Next(s, a[0]), a[1..], b);
    }
  }

  // ---------------------------------------------------------------- who may use which storage

  ghost predicate ThreadOk(s: State, t: nat)
    requires t < |s.registry| == |s.pcs|
  {
    && (s.registry[t].Some? ==>
          var g := s.registry[t].value;
          g < |s.stores| && s.stores[g].owner == t && s.stores[g].phase.Open?)
    && match s.pcs[t]
       case Idle => true
       case Discarding(_) => s.registry[t].Some?
       case Sweeping => s.sweeper == Some(t)
       case Recycling(_, target) => s.sweeper == Some(t) && (target.Some? ==> target.value < |s.stores|)
       case Draining(g, _) =>
         s.registry[t].None? && g < |s.stores| && s.stores[g].owner == t && s.stores[g].phase.Open?
       case Destroying(g, _) =>
         s.registry[t].None? && g < |s.stores| && s.stores[g].owner == t && s.stores[g].phase.Drained?
  }

  ghost predicate StoreOk(s: State, g: nat)
    requires g < |s.stores| && |s.registry| == |s.pcs|
  {
    var t := s.stores[g].owner;
    && t < |s.registry|
    && match s.stores[g].phase
       case Open => s.registry[t] == Some(g) || (s.pcs[t].Draining? && s.pcs[t].store == g)
       case Drained => s.pcs[t].Destroying? && s.pcs[t].store == g
       case Freed => s.stores[g].active.None?
  }

  /** Every storage not yet freed is its owner's, through the registry or in a shutdown; one thread sweeps. */
  ghost predicate Inv(s: State) {
    && |s.registry| == |s.pcs|
    && (forall t: nat | t < |s.registry| :: ThreadOk(s, t))
    && (forall g: nat | g < |s.stores| :: StoreOk(s, g))
    && (s.sweeper.Some? ==>
          s.sweeper.value < |s.pcs| && (s.pcs[s.sweeper.value].Sweeping? || s.pcs[s.sweeper.value].Recycling?))
  }

  lemma InitInv(threads: nat)
    ensures Inv(Init(threads))
  {
  }

  lemma EnterThread(s: State, a: Action, t: nat)
    requires |s.registry| == |s.pcs| && t < |s.registry| && a.t < |s.registry| && Enabled(s, a)
    requires ThreadOk(s, t) && ThreadOk(s, a.t)
    requires a.Register? || a.TakeActive? || a.Unregister?
    ensures |Do(s, a).registry| == |Do(s, a).pcs| == |s.pcs| && ThreadOk(Do(s, a), t)
  {
  }

  lemma EnterStore(s: State, a: Action, g: nat)
    requires |s.registry| == |s.pcs| && a.t < |s.registry| && Enabled(s, a)
    requires ThreadOk(s, a.t) && g < |s.stores| && StoreOk(s, g)
    requires a.Register? || a.TakeActive? || a.Unregister?
    ensures |Do(s, a).registry| == |Do(s, a).pcs| && g < |Do(s, a).stores| && StoreOk(Do(s, a), g)
  {
  }

  lemma ListThread(s: State, a: Action, t: nat)
    requires |s.registry| == |s.pcs| && t < |s.registry| && a.t < |s.registry| && Enabled(s, a)
    requires ThreadOk(s, t) && ThreadOk(s, a.t)
    requires a.Append? || a.StartSweep? || a.Lookup? || a.EndSweep? || (a.Push? && s.pcs[a.t].target.None?)
    requires a.Lookup? && s.pending[0].owner < |s.registry| ==> ThreadOk(s, s.pending[0].owner)
    ensures |Do(s, a).registry| == |Do(s, a).pcs| == |s.pcs| && ThreadOk(Do(s, a), t)
  {
  }

  lemma ListStore(s: State, a: Action, g: nat)
    requires |s.registry| == |s.pcs| && a.t < |s.registry| && Enabled(s, a)
    requires ThreadOk(s, a.t) && g < |s.stores| && StoreOk(s, g)
    requires a.Append? || a.StartSweep? || a.Lookup? || a.EndSweep? || (a.Push? && s.pcs[a.t].target.None?)
    ensures |Do(s, a).registry| == |Do(s, a).pcs| && g < |Do(s, a).stores| && StoreOk(Do(s, a), g)
  {
  }

  lemma AllocateThread(s: State, a: Action, t: nat)
    requires |s.registry| == |s.pcs| && t < |s.registry| && a.t < |s.registry| && Enabled(s, a)
    requires ThreadOk(s, t) && ThreadOk(s, a.t)
    requires a.Allocate?
    ensures |Do(s, a).registry| == |Do(s, a).pcs| == |s.pcs| && ThreadOk(Do(s, a), t)
  {
  }

  lemma AllocateStore(s: State, a: Action, g: nat)
    requires |s.registry| == |s.pcs| && a.t < |s.registry| && Enabled(s, a)
    requires ThreadOk(s, a.t) && g < |s.stores| && StoreOk(s, g)
    requires a.Allocate?
    ensures |Do(s, a).registry| == |Do(s, a).pcs| && g < |Do(s, a).stores| && StoreOk(Do(s, a), g)
  {
  }

  lemma PushThread(s: State, a: Action, t: nat)
    requires |s.registry| == |s.pcs| && t < |s.registry| && a.t < |s.registry| && Enabled(s, a)
    requires ThreadOk(s, t) && ThreadOk(s, a.t)
    requires a.Push? && s.pcs[a.t].target.Some?
    ensures |Do(s, a).registry| == |Do(s, a).pcs| == |s.pcs| && ThreadOk(Do(s, a), t)
  {
  }

  lemma PushStore(s: State, a: Action, g: nat)
    requires |s.registry| == |s.pcs| && a.t < |s.registry| && Enabled(s, a)
    requires ThreadOk(s, a.t) && g < |s.stores| && StoreOk(s, g)
    requires a.Push? && s.pcs[a.t].target.Some?
    ensures |Do(s, a).registry| == |Do(s, a).pcs| && g < |Do(s, a).stores| && StoreOk(Do(s, a), g)
  {
  }

  lemma DrainThread(s: State, a: Action, t: nat)
    requires |s.registry| == |s.pcs| && t < |s.registry| && a.t < |s.registry| && Enabled(s, a)
    requires ThreadOk(s, t) && ThreadOk(s, a.t)
    requires a.StepShutdown? && s.pcs[a.t].Draining?
    ensures |Do(s, a).registry| == |Do(s, a).pcs| == |s.pcs| && ThreadOk(Do(s, a), t)
  {
  }

  lemma DrainStore(s: State, a: Action, g: nat)
    requires |s.registry| == |s.pcs| && a.t < |s.registry| && Enabled(s, a)
    requires ThreadOk(s, a.t) && g < |s.stores| && StoreOk(s, g)
    requires a.StepShutdown? && s.pcs[a.t].Draining?
    ensures |Do(s, a).registry| == |Do(s, a).pcs| && g < |Do(s, a).stores| && StoreOk(Do(s, a), g)
  {
  }

  lemma DestroyThread(s: State, a: Action, t: nat)
    requires |s.registry| == |s.pcs| && t < |s.registry| && a.t < |s.registry| && Enabled(s, a)
    requires ThreadOk(s, t) && ThreadOk(s, a.t)
    requires a.StepShutdown? && s.pcs[a.t].Destroying?
    ensures |Do(s, a).registry| == |Do(s, a).pcs| == |s.pcs| && ThreadOk(Do(s, a), t)
  {
  }

  lemma DestroyStore(s: State, a: Action, g: nat)
    requires |s.registry| == |s.pcs| && a.t < |s.registry| && Enabled(s, a)
    requires ThreadOk(s, a.t) && g < |s.stores| && StoreOk(s, g)
    requires a.StepShutdown? && s.pcs[a.t].Destroying?
    ensures |Do(s, a).registry| == |Do(s, a).pcs| && g < |Do(s, a).stores| && StoreOk(Do(s, a), g)
  {
  }

  lemma ThreadKept(s: State, a: Action, t: nat)
    requires Inv(s) && Enabled(s, a) && t < |s.registry|
    ensures |Do(s, a).registry| == |Do(s, a).pcs| == |s.pcs| && ThreadOk(Do(s, a), t)
  {
    assert ThreadOk(s, t) && ThreadOk(s, a.t);
    match a
    case Register(_) => EnterThread(s, a, t);
    case TakeActive(_) => EnterThread(s, a, t);
    case Unregister(_) => EnterThread(s, a, t);
    case Append(_) => ListThread(s, a, t);
    case StartSweep(_) => ListThread(s, a, t);
    case Lookup(_) => ListThread(s, a, t);
    case EndSweep(_) => ListThread(s, a, t);
    case Allocate(_) => AllocateThread(s, a, t);
    case Push(u) => if s.pcs[u].target.None? { ListThread(s, a, t); } else { PushThread(s, a, t); }
    case StepShutdown(u) => if s.pcs[u].Draining? { DrainThread(s, a, t); } else { DestroyThread(s, a, t); }
  }

  lemma StoreKept(s: State, a: Action, g: nat)
    requires Inv(s) && Enabled(s, a) && g < |s.stores|
    ensures |Do(s, a).registry| == |Do(s, a).pcs| && g < |Do(s, a).stores| && StoreOk(Do(s, a), g)
  {
    assert ThreadOk(s, a.t) && StoreOk(s, g);
    match a
    case Register(_) => EnterStore(s, a, g);
    case TakeActive(_) => EnterStore(s, a, g);
    case Unregister(_) => EnterStore(s, a, g);
    case Append(_) => ListStore(s, a, g);
    case StartSweep(_) => ListStore(s, a, g);
    case Lookup(_) => ListStore(s, a, g);
    case EndSweep(_) => ListStore(s, a, g);
    case Allocate(_) => AllocateStore(s, a, g);
    case Push(u) => if s.pcs[u].target.None? { ListStore(s, a, g); } else { PushStore(s, a, g); }
    case StepShutdown(u) => if s.pcs[u].Draining? { DrainStore(s, a, g); } else { DestroyStore(s, a, g); }
  }

  ghost predicate SweeperOk(s: State) {
    s.sweeper.Some? ==>
      s.sweeper.value < |s.pcs| && (s.pcs[s.sweeper.value].Sweeping? || s.pcs[s.sweeper.value].Recycling?)
  }

  lemma SweeperKept(s: State, a: Action)
    requires |s.registry| == |s.pcs| && SweeperOk(s) && Enabled(s, a) && a.t < |s.registry| && ThreadOk(s, a.t)
    ensures SweeperOk(Do(s, a))
  {
  }

  lemma RegisterStore(s: State, t: nat)
    requires Inv(s) && Enabled(s, Register(t))
    ensures |Do(s, Register(t)).stores| == |s.stores| + 1 && StoreOk(Do(s, Register(t)), |s.stores|)
  {
  }

  lemma NextInv(s: State, a: Action)
    requires Inv(s)
    ensures Inv(Next(s, a))
  {
    if Enabled(s, a) {
      var s' := Do(s, a);
      assert ThreadOk(s, a.t);
      SweeperKept(s, a);
      forall t: nat | t < |s.registry| ensures ThreadOk(s', t) {
        ThreadKept(s, a, t);
      }
      forall g: nat | g < |s'.stores| ensures StoreOk(s', g) {
        if g < |s.stores| {
          StoreKept(s, a, g);
        } else {
          RegisterStore(s, a.t);
        }
      }
    }
  }
}
