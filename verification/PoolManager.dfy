/**
 The command pool manager as the program keeps it, with its state changed in place. Its methods are one thread's
 operations while no other thread moves; each is a run of that thread's steps in module CommandPools.
 */
module PoolManager {
  import opened Wrappers
  import opened CommandPools
  import opened PoolConservation

  // ---------------------------------------------------------------- operations as runs of steps

  function StoreOf(s: State, t: nat): Option<Store> {
    if Home(s, t).Some? && Home(s, t).value < |s.stores| then Some(s.stores[Home(s, t).value]) else None
  }

  /** The pool a thread allocates from: its active one, else the oldest recycled one, else a new one. */
  function Chosen(p: Option<Store>, next: nat): nat {
    if p.Some? && p.value.active.Some? then p.value.active.value
    else if p.Some? && p.value.ring != [] then p.value.ring[0]
    else next
  }

  function AllocateWhole(s: State, t: nat): State {
    Next(Next(s, Register(t)), Allocate(t))
  }

  function DiscardWhole(s: State, t: nat): State {
    Next(Next(Next(s, Register(t)), TakeActive(t)), Append(t))
  }

  function RecycleWhole(s: State, t: nat): State {
    Next(Next(s, Lookup(t)), Push(t))
  }

  /**
   The oldest discarded pool joins its owner's ring, or is destroyed if the ring is full or the owner gone. The ring
   has 64 cells and keeps one free.
   */
  lemma RecycleReturns(s: State, t: nat)
    requires Inv(s) && t < |s.pcs| && s.pcs[t].Sweeping? && s.pending != []
    ensures var s', x, p := RecycleWhole(s, t), s.pending[0], StoreOf(s, s.pending[0].owner);
      && s'.pending == s.pending[1..] && s'.pcs == s.pcs && s'.registry == s.registry
      && if p.Some? && |p.value.ring| < 63 then
           StoreOf(s', x.owner) == Some(p.value.(ring := p.value.ring + [x.pool])) && s'.destroyed == s.destroyed
         else s'.destroyed == s.destroyed + [x.pool] && s'.stores == s.stores
  {
    var owner := s.pending[0].owner;
    assert owner < |s.registry| ==> ThreadOk(s, owner);
    assert Next(s, Lookup(t)).pcs[t := Sweeping] == s.pcs;
  }

  /** The sweep's turns on the oldest n entries. */
  function Turns(s: State, t: nat, n: nat): State
    decreases n
  {
    if n == 0 then s else Turns(RecycleWhole(s, t), t, n - 1)
  }

  /** `trace(n)` is where n turns lead from `trace(0)`. */
  ghost predicate Traces(trace: nat -> State, t: nat) {
    forall n: nat {:trigger Turns(trace(0), t, n)} :: trace(n) == Turns(trace(0), t, n)
  }

  ghost function TurnsOf(s: State, t: nat): (trace: nat -> State)
    ensures Traces(trace, t) && trace(0) == s
  {
    (n: nat) => Turns(s, t, n)
  }

  lemma {:induction false} TurnsMore(s: State, t: nat, n: nat)
    ensures Turns(s, t, n + 1) == RecycleWhole(Turns(s, t, n), t)
    decreases n
  {
    if n > 0 {
      TurnsMore(RecycleWhole(s, t), t, n - 1);
    }
  }

  lemma OneMoreTurn(trace: nat -> State, t: nat, n: nat)
    requires Traces(trace, t)
    ensures trace(n + 1) == RecycleWhole(trace(n), t)
  {
    TurnsMore(trace(0), t, n);
  }

  /** They take these entries off the list. */
  lemma {:induction false} TurnsTake(s: State, t: nat, n: nat)
    requires Inv(s) && t < |s.pcs| && s.pcs[t].Sweeping? && n <= |s.pending|
    ensures Inv(Turns(s, t, n)) && Turns(s, t, n).pending == s.pending[n..]
    decreases n
  {
    if n > 0 {
      NextInv(s, Lookup(t));
      NextInv(Next(s, Lookup(t)), Push(t));
      RecycleReturns(s, t);
      TurnsTake(RecycleWhole(s, t), t, n - 1);
      assert s.pending[1..][n - 1..] == s.pending[n..];
    }
  }

  function SweepWhole(s: State, t: nat, due: nat): State {
    Next(Turns(Next(s, StartSweep(t)), t, due), EndSweep(t))
  }

  function ShutdownAll(s: State, t: nat): State
    decreases |s.registry| - t
  {
    if t >= |s.registry| then s else ShutdownAll(ShutdownWhole(s, t), t + 1)
  }

  class Manager {
    var registry: seq<Option<nat>>
    var stores: seq<Store>
    ghost var pcs: seq<Pc>
    ghost var sweeper: Option<nat>
    var pending: seq<Pending>
    ghost var destroyed: seq<nat>
    var created: nat
    var threw: bool
    ghost var touchedFreed: bool

    ghost function View(): State reads this {
      State(registry, stores, pcs, sweeper, pending, destroyed, created, threw, touchedFreed)
    }

    constructor (threads: nat)
      ensures View() == Init(threads)
    {
      registry, stores, pcs, sweeper := seq(threads, _ => None), [], seq(threads, _ => Idle), None;
      pending, destroyed, created, threw, touchedFreed := [], [], 0, false, false;
    }

    /** The calling thread's storage, set up on its first call. */
    method EnsureThreadPools(t: nat) returns (g: nat)
      requires Inv(View()) && AtRest(View(), t)
      modifies this`registry, this`stores
      ensures Inv(View()) && View() == Next(old(View()), Register(t))
      ensures g < |stores| && registry[t] == Some(g)
      ensures old(registry)[t].Some? ==> View() == old(View())
      ensures old(registry)[t].None? ==> stores == old(stores) + [Store(t, None, [], {}, Open)]
    {
      NextInv(View(), Register(t));
      assert ThreadOk(View(), t);
      if registry[t].None? {
        registry := registry[t := Some(|stores|)];
        stores := stores + [Store(t, None, [], {}, Open)];
      }
      g := registry[t].value;
    }

    /**
     The pool the next command buffer comes from. The program's checked lookup throws when the cache has no
     entry for it.
     */
    method AllocateForLevel(t: nat) returns (found: Option<nat>)
      requires Inv(View()) && AtRest(View(), t)
      modifies this
      ensures Inv(View()) && View() == AllocateWhole(old(View()), t)
      ensures t < |registry| && registry[t].Some? && registry[t].value < |stores|
      ensures stores[registry[t].value].active == Some(Chosen(StoreOf(old(View()), t), old(created)))
      ensures found ==
        if stores[registry[t].value].active.value in stores[registry[t].value].cache
        then stores[registry[t].value].active else None
      ensures threw == (old(threw) || found.None?)
    {
      var g := EnsureThreadPools(t);
      NextInv(View(), Allocate(t));
      var p := stores[g];
      if p.active.None? {
        if p.ring != [] {
          p := p.(active := Some(p.ring[0]), ring := p.ring[1..]);
        } else {
          p := p.(active := Some(created), cache := p.cache + {created});
          created := created + 1;
        }
        stores := stores[g := p];
      }
      if p.active.value !in p.cache {
        threw := true;
        return None;
      }
      return p.active;
    }

    /** Moves the active pool, if any, to the discard list; the list's lock must be free. */
    method DiscardActivePool(t: nat)
      requires Inv(View()) && AtRest(View(), t) && sweeper.None?
      modifies this`registry, this`stores, this`pending
      ensures Inv(View()) && View() == DiscardWhole(old(View()), t)
      ensures var p := StoreOf(old(View()), t);
        pending == old(pending) + if p.Some? && p.value.active.Some? then [Pending(p.value.active.value, t)] else []
      ensures StoreOf(View(), t).Some? && StoreOf(View(), t).value.active.None?
    {
      var g := EnsureThreadPools(t);
      ghost var s1 := View();
      NextInv(s1, TakeActive(t));
      NextInv(Next(s1, TakeActive(t)), Append(t));
      if stores[g].active.None? {
        return;
      }
      var poolToDiscard := stores[g].active.value;
      stores := stores[g := stores[g].(active := None)];
      pending := pending + [Pending(poolToDiscard, t)];
      assert Next(s1, TakeActive(t)).pcs[t := Idle] == pcs;
    }

    /** The discard pool's deleter, on its oldest entry, in a sweep of thread t. */
    method Recycle(t: nat)
      requires Inv(View()) && t < |pcs| && pcs[t].Sweeping? && pending != []
      modifies this`stores, this`pending, this`destroyed
      ensures Inv(View()) && View() == RecycleWhole(old(View()), t)
      ensures pending == old(pending)[1..]
    {
      var pool, owner := pending[0].pool, pending[0].owner;
      ghost var s := View();
      assert owner < |registry| ==> ThreadOk(s, owner);
      NextInv(s, Lookup(t));
      NextInv(Next(s, Lookup(t)), Push(t));
      assert Next(s, Lookup(t)).pcs[t := Sweeping] == pcs;
      pending := pending[1..];
      if owner >= |registry| || registry[owner].None? {
        destroyed := destroyed + [pool];
      } else {
        var g := registry[owner].value;
        if |stores[g].ring| < RING_CAPACITY {
          stores := stores[g := stores[g].(ring := stores[g].ring + [pool])];
        } else {
          destroyed := destroyed + [pool];
        }
      }
    }

    /** The sweep of thread t has taken n turns of its trace. */
    ghost predicate Took(trace: nat -> State, t: nat, n: nat) reads this {
      Traces(trace, t) && View() == trace(n)
    }

    method RecycleNext(t: nat, ghost trace: nat -> State, ghost n: nat)
      requires Inv(View()) && t < |pcs| && pcs[t].Sweeping? && pending != [] && Took(trace, t, n)
      modifies this`stores, this`pending, this`destroyed
      ensures Inv(View()) && |pending| == |old(pending)| - 1 && Took(trace, t, n + 1)
    {
      OneMoreTurn(trace, t, n);
      Recycle(t);
    }

    /** The sweep's loop over the first `due` discarded command pools. */
    method RemoveEach(t: nat, due: nat, ghost trace: nat -> State)
      requires Inv(View()) && t < |pcs| && pcs[t].Sweeping? && due <= |pending| && Took(trace, t, 0)
      modifies this`stores, this`pending, this`destroyed
      ensures Inv(View()) && Took(trace, t, due)
    {
      var k := 0;
      while k < due
        invariant k <= due && Inv(View()) && |pending| + k == |old(pending)| && Took(trace, t, k)
      {
        RecycleNext(t, trace, k);
        k := k + 1;
      }
    }

    method RemoveOld(t: nat, due: nat)
      requires Inv(View()) && t < |pcs| && pcs[t].Sweeping? && due <= |pending|
      modifies this`stores, this`pending, this`destroyed
      ensures Inv(View()) && View() == Turns(old(View()), t, due)
      ensures pending == old(pending)[due..]
    {
      ghost var start := View();
      TurnsTake(start, t, due);
      ghost var trace := TurnsOf(start, t);
      RemoveEach(t, due, trace);
      assert Turns(trace(0), t, due) == trace(due);
    }

    /** A whole sweep, under the discard pool's lock. */
    method Sweep(t: nat, due: nat)
      requires Inv(View()) && AtRest(View(), t) && sweeper.None? && due <= |pending|
      modifies this`stores, this`pending, this`destroyed, this`pcs, this`sweeper
      ensures Inv(View()) && View() == SweepWhole(old(View()), t, due)
      ensures pending == old(pending)[due..] && sweeper.None? && pcs == old(pcs)
    {
      NextInv(View(), StartSweep(t));
      sweeper, pcs := Some(t), pcs[t := Sweeping];
      RemoveOld(t, due);
      NextInv(View(), EndSweep(t));
      sweeper, pcs := None, pcs[t := Idle];
    }

    /** Pops until the ring is empty. */
    method DrainTo(g: nat) returns (drained: seq<nat>)
      requires g < |stores|
      modifies this`stores
      ensures drained == old(stores)[g].ring
      ensures stores == old(stores)[g := old(stores)[g].(ring := [])]
    {
      drained := [];
      while stores[g].ring != []
        invariant |stores| == |old(stores)| && drained + stores[g].ring == old(stores)[g].ring
        invariant stores == old(stores)[g := old(stores)[g].(ring := stores[g].ring)]
        decreases |stores[g].ring|
      {
        drained := drained + [stores[g].ring[0]];
        stores := stores[g := stores[g].(ring := stores[g].ring[1..])];
      }
    }

    /** Destroys what a storage still has, the ring's pools first, and frees it. */
    method Release(g: nat)
      requires g < |stores|
      modifies this`stores, this`destroyed
      ensures stores == old(stores)[g := old(stores)[g].(active := None, ring := [], phase := Freed)]
      ensures destroyed == old(destroyed) + old(stores)[g].ring + Active(old(stores)[g])
    {
      var drained := DrainTo(g);
      var k := 0;
      while k < |drained|
        invariant k <= |drained| && destroyed == old(destroyed) + drained[..k]
        invariant stores == old(stores)[g := old(stores)[g].(ring := [])]
      {
        destroyed := destroyed + [drained[k]];
        k := k + 1;
      }
      assert drained[..k] == drained;
      if stores[g].active.Some? {
        destroyed := destroyed + [stores[g].active.value];
      }
      stores := stores[g := stores[g].(active := None, phase := Freed)];
    }

    /** Steals the storage from the registry, then drains and destroys. */
    method ThreadShutdown(t: nat)
      requires Inv(View()) && AtRest(View(), t)
      modifies this`registry, this`stores, this`destroyed
      ensures Inv(View()) && View() == ShutdownWhole(old(View()), t) && registry[t].None?
    {
      ShutdownInv(View(), t);
      assert ThreadOk(View(), t);
      if registry[t].None? {
        return;
      }
      var g := registry[t].value;
      registry := registry[t := None];
      Release(g);
    }

    /** Does for every registered thread what its shutdown would, when no thread is inside any more. */
    method Destructor()
      requires Inv(View()) && forall t: nat | t < |registry| :: pcs[t].Idle?
      modifies this`registry, this`stores, this`destroyed
      ensures Inv(View()) && View() == ShutdownAll(old(View()), 0)
      ensures forall t: nat | t < |registry| :: registry[t].None?
    {
      var t := 0;
      while t < |registry|
        invariant t <= |registry| == |old(registry)| && Inv(View())
        invariant ShutdownAll(View(), t) == ShutdownAll(old(View()), 0)
        invariant forall u: nat | u < t :: registry[u].None?
      {
        ThreadShutdown(t);
        t := t + 1;
      }
    }
  }

  // ---------------------------------------------------------------- what the destructor leaves

  lemma {:induction false} StepsInv(s: State, t: nat, n: nat)
    requires Inv(s)
    ensures Inv(Run(s, Steps(t, n)))
    decreases n
  {
    if n > 0 {
      NextInv(s, StepShutdown(t));
      StepsInv(Next(s, StepShutdown(t)), t, n - 1);
    }
  }

  lemma ShutdownInv(s: State, t: nat)
    requires Inv(s)
    ensures Inv(ShutdownWhole(s, t))
  {
    if Owns(s, t) {
      NextInv(s, Unregister(t));
      var p := s.stores[s.registry[t].value];
      StepsInv(Next(s, Unregister(t)), t, 2 * |p.ring| + |Active(p)| + 2);
      ShutdownRuns(s, t);
    }
  }

  lemma ShutdownKeepsWhole(s: State, t: nat)
    requires Inv(s) && Whole(s)
    ensures Inv(ShutdownWhole(s, t)) && Whole(ShutdownWhole(s, t))
  {
    if Owns(s, t) {
      NextKeepsWhole(s, Unregister(t));
      var p := s.stores[s.registry[t].value];
      StepsWhole(Next(s, Unregister(t)), t, 2 * |p.ring| + |Active(p)| + 2);
      ShutdownRuns(s, t);
    }
  }

  lemma {:induction false} AllShutDown(s: State, t: nat)
    requires Inv(s) && Whole(s) && forall u: nat | u < |s.pcs| :: s.pcs[u].Idle?
    requires t <= |s.registry| && forall u: nat | u < t :: s.registry[u].None?
    ensures var s' := ShutdownAll(s, t);
      && Inv(s') && Whole(s') && s'.pcs == s.pcs && s'.pending == s.pending && s'.created == s.created
      && forall u: nat | u < |s'.registry| :: s'.registry[u].None?
    decreases |s.registry| - t
  {
    if t < |s.registry| {
      assert ThreadOk(s, t);
      ShutdownKeepsWhole(s, t);
      AllShutDown(ShutdownWhole(s, t), t + 1);
    }
  }

  lemma {:induction false} NothingStored(stores: seq<Store>, x: nat)
    requires forall g: nat | g < |stores| :: stores[g].phase.Freed? && stores[g].active.None?
    ensures InStores(stores, x) == 0
  {
    if stores != [] {
      NothingStored(stores[1..], x);
    }
  }

  lemma {:induction false} NothingHeld(pcs: seq<Pc>, x: nat)
    requires forall t: nat | t < |pcs| :: pcs[t].Idle?
    ensures InHands(pcs, x) == 0
  {
    if pcs != [] {
      NothingHeld(pcs[1..], x);
    }
  }

  /**
   When no thread is inside any more, the destructor brings every pool ever created to exactly one destruction
   if and only if no discarded pool was left waiting.
   */
  lemma DestructorReleasesExactly(s: State)
    requires Inv(s) && Whole(s) && forall u: nat | u < |s.pcs| :: s.pcs[u].Idle?
    ensures (forall x: nat | x < s.created :: Times(ShutdownAll(s, 0).destroyed, x) == 1) <==> s.pending == []
  {
    var s' := ShutdownAll(s, 0);
    AllShutDown(s, 0);
    forall g: nat | g < |s'.stores| ensures s'.stores[g].phase.Freed? && s'.stores[g].active.None? {
      assert StoreOk(s', g);
    }
    forall x: nat ensures InPending(s.pending, x) + Times(s'.destroyed, x) == if x < s.created then 1 else 0 {
      NothingStored(s'.stores, x);
      NothingHeld(s'.pcs, x);
      assert Places(s', x) == if x < s'.created then 1 else 0;
    }
    if s.pending != [] {
      var x := s.pending[0].pool;
      assert InPending(s.pending, x) >= 1;
      assert x < s.created;
      assert Times(s'.destroyed, x) != 1;
    } else {
      assert forall x: nat | x < s.created :: Times(s'.destroyed, x) == 1 by {
        forall x: nat | x < s.created ensures Times(s'.destroyed, x) == 1 {
          assert InPending(s.pending, x) == 0;
        }
      }
    }
  }
}
