/**
 When the checked lookup of a command pool in its owner's cache is defined, on the state machine of module
 CommandPools. The cache goes with a thread's storage, but its discarded pools come back to whatever storage
 the thread has when the sweep looks it up.
 */
module PoolCaches {
  import opened Wrappers
  import opened CommandPools
  import opened PoolConservation

  // ---------------------------------------------------------------- pools come back where they are known

  ghost predicate StoreCached(p: Store) {
    (p.active.Some? ==> p.active.value in p.cache) && forall i: nat | i < |p.ring| :: p.ring[i] in p.cache
  }

  /** If the storage is there, its cache has the pool. */
  ghost predicate Knows(s: State, home: Option<nat>, pool: nat) {
    home.Some? && home.value < |s.stores| ==> pool in s.stores[home.value].cache
  }

  ghost predicate HandCached(s: State, t: nat)
    requires t < |s.pcs|
  {
    match s.pcs[t]
    case Discarding(pool) => Knows(s, Home(s, t), pool)
    case Recycling(pool, target) => Knows(s, target, pool)
    case _ => true
  }

  ghost predicate PendingCached(s: State, i: nat)
    requires i < |s.pending|
  {
    Knows(s, Home(s, s.pending[i].owner), s.pending[i].pool)
  }

  /** Everything a storage has, or its thread will get back, has an entry in its cache. */
  ghost predicate CachesOk(s: State) {
    && (forall g: nat | g < |s.stores| :: StoreCached(s.stores[g]))
    && (forall t: nat | t < |s.pcs| :: HandCached(s, t))
    && (forall i: nat | i < |s.pending| :: PendingCached(s, i))
  }

  /** Pools of thread t are still waiting to be recycled. */
  ghost predicate Owed(s: State, t: nat) {
    exists i: nat :: i < |s.pending| && s.pending[i].owner == t
  }

  /** The action registers a thread while pools of its earlier registration are waiting. */
  ghost predicate Early(s: State, a: Action) {
    a.Register? && Enabled(s, a) && Owed(s, a.t)
  }

  ghost predicate Patient(s: State, schedule: seq<Action>)
    decreases |schedule|
  {
    schedule != [] ==> !Early(s, schedule[0]) && Patient(Next(s, schedule[0]), schedule[1..])
  }

  lemma StoreKept(s: State, a: Action, g: nat)
    requires Enabled(s, a) && g < |s.stores| && StoreCached(s.stores[g])
    requires a.Push? ==> HandCached(s, a.t)
    ensures g < |Do(s, a).stores| && StoreCached(Do(s, a).stores[g]) && s.stores[g].cache <= Do(s, a).stores[g].cache
  {
    match a
    case Allocate(t) =>
      if g == s.registry[t].value && s.stores[g].active.None? && s.stores[g].ring != [] {
        assert s.stores[g].ring[0] in s.stores[g].cache;
      }
    case StepShutdown(t) =>
    case Push(t) =>
    case _ =>
  }

  /** What a storage's cache knows it keeps knowing. */
  lemma KnowsKept(s: State, a: Action, home: Option<nat>, pool: nat)
    requires Enabled(s, a) && Knows(s, home, pool) && (home.Some? ==> home.value < |s.stores|)
    ensures Knows(Do(s, a), home, pool)
  {
  }

  lemma PendingKept(s: State, a: Action, i: nat)
    requires Inv(s) && Enabled(s, a) && i < |s.pending| && PendingCached(s, i) && !Early(s, a)
    ensures Knows(Do(s, a), Home(Do(s, a), s.pending[i].owner), s.pending[i].pool)
  {
    var t := s.pending[i].owner;
    assert t < |s.registry| ==> ThreadOk(s, t);
    assert a != Register(t);
    KnowsKept(s, a, Home(s, t), s.pending[i].pool);
  }

  lemma HandKept(s: State, a: Action, t: nat)
    requires Inv(s) && Enabled(s, a) && t < |s.pcs| && HandCached(s, t) && a.t != t
    ensures t < |Do(s, a).pcs| && HandCached(Do(s, a), t)
  {
    OthersKept(s, a, t);
    assert ThreadOk(s, t);
    match s.pcs[t]
    case Discarding(pool) => KnowsKept(s, a, Home(s, t), pool);
    case Recycling(pool, target) => KnowsKept(s, a, target, pool);
    case _ =>
  }

  /** The hand of the thread that makes the step. */
  lemma OwnHandKept(s: State, a: Action)
    requires Inv(s) && Enabled(s, a) && CachesOk(s)
    ensures a.t < |Do(s, a).pcs| && HandCached(Do(s, a), a.t)
  {
    match a
    case TakeActive(t) => assert StoreCached(s.stores[s.registry[t].value]);
    case Lookup(t) => assert PendingCached(s, 0);
    case Allocate(_) =>
    case Push(_) =>
    case StepShutdown(_) =>
    case _ =>
  }

  lemma AllocateFinds(s: State, t: nat)
    requires Inv(s) && Enabled(s, Allocate(t)) && CachesOk(s)
    ensures AllocateStep(s, t).threw == s.threw
  {
    assert StoreCached(s.stores[s.registry[t].value]);
  }

  /** Where the list stands after a step: what was there, less its head or more one entry. */
  lemma ListAfter(s: State, a: Action, i: nat)
    requires Enabled(s, a) && i < |Do(s, a).pending|
    ensures a.Append? || (if a.Lookup? then i + 1 else i) < |s.pending|
    ensures a.Append? && i >= |s.pending| ==> Do(s, a).pending[i] == Pending(s.pcs[a.t].pool, a.t)
    ensures i < |s.pending| && !a.Lookup? ==> Do(s, a).pending[i] == s.pending[i]
    ensures a.Lookup? ==> Do(s, a).pending[i] == s.pending[i + 1]
  {
  }

  lemma NextCaches(s: State, a: Action)
    requires Inv(s) && CachesOk(s) && !Early(s, a)
    ensures CachesOk(Next(s, a)) && Next(s, a).threw == s.threw
  {
    if Enabled(s, a) {
      var s' := Do(s, a);
      assert ThreadOk(s, a.t) && HandCached(s, a.t);
      forall g: nat | g < |s'.stores| ensures StoreCached(s'.stores[g]) {
        if g < |s.stores| {
          StoreKept(s, a, g);
        }
      }
      forall t: nat | t < |s'.pcs| ensures HandCached(s', t) {
        if t == a.t {
          OwnHandKept(s, a);
        } else {
          HandKept(s, a, t);
        }
      }
      forall i: nat | i < |s'.pending| ensures PendingCached(s', i) {
        ListAfter(s, a, i);
        if a.Append? && i >= |s.pending| {
          KnowsKept(s, a, Home(s, a.t), s.pcs[a.t].pool);
        } else {
          PendingKept(s, a, if a.Lookup? then i + 1 else i);
        }
      }
      if a.Allocate? {
        AllocateFinds(s, a.t);
      }
    }
  }

  lemma {:induction false} RunCaches(s: State, schedule: seq<Action>)
    requires Inv(s) && CachesOk(s) && Patient(s, schedule)
    ensures CachesOk(Run(s, schedule)) && Run(s, schedule).threw == s.threw
    decreases |schedule|
  {
    if schedule != [] {
      NextInv(s, schedule[0]);
      NextCaches(s, schedule[0]);
      RunCaches(Next(s, schedule[0]), schedule[1..]);
    }
  }

  /** If no thread registers again with pools of its own waiting, the lookup of the active pool never fails. */
  lemma LookupDefined(threads: nat, schedule: seq<Action>)
    requires Patient(Init(threads), schedule)
    ensures !Run(Init(threads), schedule).threw
  {
    InitInv(threads);
    RunCaches(Init(threads), schedule);
  }

  // ---------------------------------------------------------------- exactly when a thread may register

  /** From s no patient schedule makes a lookup fail. */
  ghost predicate StaysDefined(s: State) {
    forall rest: seq<Action> | Patient(s, rest) :: !Run(s, rest).threw
  }

  /** Nowhere along the schedule has a lookup failed, or is the way open to one that fails. */
  ghost predicate DefinedThroughout(s: State, schedule: seq<Action>)
    decreases |schedule|
  {
    StaysDefined(s) && (schedule != [] ==> DefinedThroughout(Next(s, schedule[0]), schedule[1..]))
  }

  /** Thread t is registered with storage g, whose ring is empty, and its old pools are not in its cache. */
  ghost predicate Stale(s: State, t: nat, g: nat) {
    && t < |s.registry| && s.registry[t] == Some(g) && g < |s.stores| && s.stores[g].ring == []
    && forall i: nat | i < |s.pending| && s.pending[i].owner == t :: s.pending[i].pool !in s.stores[g].cache
  }

  lemma {:induction false} PatientAppend(s: State, a: seq<Action>, b: seq<Action>)
    requires Patient(s, a) && Patient(Run(s, a), b)
    ensures Patient(s, a + b) && Run(s, a + b) == Run(Run(s, a), b)
    decreases |a|
  {
    if a == [] {
      assert a + b == b;
    } else {
      assert (a + b)[1..] == a[1..] + b;
      PatientAppend(Next(s, a[0]), a[1..], b);
    }
  }

  lemma PatientOne(s: State, a: Action)
    requires !a.Register?
    ensures Patient(s, [a]) && Run(s, [a]) == Next(s, a)
  {
    assert [a][1..] == [];
    assert Patient(Next(s, a), []);
  }

  lemma PatientTwo(s: State, a: Action, b: Action)
    requires !a.Register? && !b.Register?
    ensures Patient(s, [a, b]) && Run(s, [a, b]) == Next(Next(s, a), b)
  {
    PatientOne(s, a);
    PatientOne(Next(s, a), b);
    PatientAppend(s, [a], [b]);
    assert [a] + [b] == [a, b];
  }

  /** One turn of the sweep on an entry of another thread leaves storage g as it is. */
  lemma SweepPasses(s: State, u: nat, t: nat, g: nat)
    requires u < |s.pcs| && s.pcs[u].Sweeping? && s.pending != [] && Stale(s, t, g)
    requires var home := Home(s, s.pending[0].owner); home != Some(g) && (home.Some? ==> home.value < |s.stores|)
    ensures var s' := Next(Next(s, Lookup(u)), Push(u));
      && Stale(s', t, g) && s'.stores[g] == s.stores[g] && s'.pending == s.pending[1..]
      && s'.pcs == s.pcs && s'.threw == s.threw
  {
    var s1 := Next(s, Lookup(u));
    assert s1.pcs[u := Sweeping] == s.pcs;
    assert forall i: nat | i < |s.pending| - 1 :: s.pending[1..][i] == s.pending[i + 1];
  }

  /** One turn on an entry of thread t brings the unknown pool back. */
  lemma SweepReturns(s: State, u: nat, t: nat, g: nat)
    requires Inv(s) && u < |s.pcs| && s.pcs[u].Sweeping? && s.pending != [] && s.pending[0].owner == t
    requires Stale(s, t, g)
    ensures var s' := Next(Next(s, Lookup(u)), Push(u));
      && s'.registry == s.registry && g < |s'.stores| && s'.stores[g] == s.stores[g].(ring := [s.pending[0].pool])
      && s'.pcs == s.pcs && s'.threw == s.threw
  {
    var s1 := Next(s, Lookup(u));
    assert ThreadOk(s, t);
    assert s1.pcs[u] == Recycling(s.pending[0].pool, Some(g)) && s1.pcs[u := Sweeping] == s.pcs;
    assert s.stores[g].ring + [s.pending[0].pool] == [s.pending[0].pool];
  }

  lemma OwnersApart(s: State, t: nat, g: nat, owner: nat)
    requires Inv(s) && t < |s.registry| && s.registry[t] == Some(g) && owner != t
    ensures Home(s, owner) != Some(g) && (Home(s, owner).Some? ==> Home(s, owner).value < |s.stores|)
  {
    assert ThreadOk(s, t);
    assert owner < |s.registry| ==> ThreadOk(s, owner);
  }

  /** Thread t, with storage g, is at rest, nobody sweeps, and its ring holds a pool its cache does not know. */
  ghost predicate Surprised(s: State, t: nat, g: nat) {
    && Inv(s) && AtRest(s, t) && s.registry[t] == Some(g) && g < |s.stores| && s.sweeper.None?
    && |s.stores[g].ring| == 1 && s.stores[g].ring[0] !in s.stores[g].cache
  }

  lemma {:induction false} SweepReaches(s: State, u: nat, t: nat, g: nat) returns (schedule: seq<Action>)
    requires Inv(s) && u < |s.pcs| && s.pcs[u].Sweeping? && s.sweeper == Some(u)
    requires Stale(s, t, g) && Owed(s, t) && t < |s.pcs| && (t == u || s.pcs[t].Idle?)
    ensures Patient(s, schedule) && Surprised(Run(s, schedule), t, g)
    decreases |s.pending|
  {
    var s1 := Next(Next(s, Lookup(u)), Push(u));
    PatientTwo(s, Lookup(u), Push(u));
    NextInv(s, Lookup(u));
    NextInv(Next(s, Lookup(u)), Push(u));
    if s.pending[0].owner == t {
      SweepReturns(s, u, t, g);
      NextInv(s1, EndSweep(u));
      PatientOne(s1, EndSweep(u));
      PatientAppend(s, [Lookup(u), Push(u)], [EndSweep(u)]);
      schedule := [Lookup(u), Push(u)] + [EndSweep(u)];
    } else {
      OwnersApart(s, t, g, s.pending[0].owner);
      SweepPasses(s, u, t, g);
      var i: nat :| i < |s.pending| && s.pending[i].owner == t;
      assert s1.pending[i - 1].owner == t;
      var rest := SweepReaches(s1, u, t, g);
      PatientAppend(s, [Lookup(u), Push(u)], rest);
      schedule := [Lookup(u), Push(u)] + rest;
    }
  }

  /** Once the active pool, if any, is out of the way, the next allocation takes the unknown pool. */
  lemma SurpriseThrows(s: State, t: nat, g: nat) returns (schedule: seq<Action>)
    requires Surprised(s, t, g)
    ensures Patient(s, schedule) && Run(s, schedule).threw
  {
    if s.stores[g].active.None? {
      PatientOne(s, Allocate(t));
      schedule := [Allocate(t)];
    } else {
      var s1 := Next(Next(s, TakeActive(t)), Append(t));
      PatientTwo(s, TakeActive(t), Append(t));
      PatientOne(s1, Allocate(t));
      PatientAppend(s, [TakeActive(t), Append(t)], [Allocate(t)]);
      schedule := [TakeActive(t), Append(t)] + [Allocate(t)];
    }
  }

  /** A push that another thread is about to make to another storage changes nothing of this. */
  lemma OtherPushPasses(s: State, u: nat, t: nat, g: nat)
    requires Inv(s) && u < |s.pcs| && s.pcs[u].Recycling? && s.pcs[u].target != Some(g)
    requires Stale(s, t, g) && Owed(s, t)
    ensures var s' := Next(s, Push(u));
      Inv(s') && Stale(s', t, g) && Owed(s', t) && s'.pcs == s.pcs[u := Sweeping] && s'.sweeper == s.sweeper
  {
    assert ThreadOk(s, u);
    NextInv(s, Push(u));
  }

  /** A pool the thread discarded before comes back to a cache that does not know it. */
  lemma StaleComesBack(s: State, t: nat, g: nat) returns (schedule: seq<Action>)
    requires Inv(s) && AtRest(s, t) && Stale(s, t, g) && Owed(s, t)
    requires forall u: nat | u < |s.pcs| && s.pcs[u].Recycling? :: s.pcs[u].target != Some(g)
    ensures Patient(s, schedule) && Run(s, schedule).threw
  {
    var first: seq<Action> := [];
    var s1 := s;
    var u := t;
    if s.sweeper.None? {
      first, s1 := [StartSweep(t)], Next(s, StartSweep(t));
      NextInv(s, StartSweep(t));
      PatientOne(s, StartSweep(t));
    } else {
      u := s.sweeper.value;
      if s.pcs[u].Recycling? {
        OtherPushPasses(s, u, t, g);
        first, s1 := [Push(u)], Next(s, Push(u));
        PatientOne(s, Push(u));
      }
    }
    assert Patient(s, first) && Run(s, first) == s1;
    var middle := SweepReaches(s1, u, t, g);
    var last := SurpriseThrows(Run(s1, middle), t, g);
    PatientAppend(s1, middle, last);
    PatientAppend(s, first, middle + last);
    schedule := first + (middle + last);
  }

  lemma CachesStay(s: State)
    requires Inv(s) && CachesOk(s) && !s.threw
    ensures StaysDefined(s)
  {
    forall rest: seq<Action> | Patient(s, rest) ensures !Run(s, rest).threw {
      RunCaches(s, rest);
    }
  }

  /** Registering with pools waiting opens the way to a lookup that fails. */
  lemma EarlyFails(s: State, t: nat) returns (schedule: seq<Action>)
    requires Inv(s) && Enabled(s, Register(t)) && Owed(s, t)
    ensures Patient(Next(s, Register(t)), schedule) && Run(Next(s, Register(t)), schedule).threw
  {
    var s1 := Next(s, Register(t));
    NextInv(s, Register(t));
    forall u: nat | u < |s1.pcs| && s1.pcs[u].Recycling? ensures s1.pcs[u].target != Some(|s.stores|) {
      assert ThreadOk(s, u);
    }
    schedule := StaleComesBack(s1, t, |s.stores|);
  }

  /**
   Exactly when a thread may register: when no pool it discarded under an earlier registration is still
   waiting. Otherwise that pool can come back to a cache that has no entry for it.
   */
  lemma RegisterSafeExactly(s: State, t: nat)
    requires Inv(s) && CachesOk(s) && Enabled(s, Register(t)) && !s.threw
    ensures StaysDefined(Next(s, Register(t))) <==> !Owed(s, t)
  {
    if Owed(s, t) {
      var schedule := EarlyFails(s, t);
    } else {
      NextInv(s, Register(t));
      NextCaches(s, Register(t));
      CachesStay(Next(s, Register(t)));
    }
  }

  /** Pools not created yet are nowhere. */
  ghost predicate NoneAhead(s: State) {
    forall x: nat | x >= s.created :: Places(s, x) == 0
  }

  lemma {:induction false} WaitingIsPlaced(pending: seq<Pending>, i: nat)
    requires i < |pending|
    ensures InPending(pending, pending[i].pool) >= 1
  {
    if i > 0 {
      WaitingIsPlaced(pending[1..], i - 1);
    }
  }

  lemma {:induction false} RunNoneAhead(s: State, schedule: seq<Action>)
    requires Inv(s) && NoneAhead(s)
    ensures Inv(Run(s, schedule)) && NoneAhead(Run(s, schedule))
    decreases |schedule|
  {
    if schedule != [] {
      var s' := Next(s, schedule[0]);
      NextInv(s, schedule[0]);
      forall x: nat | x >= s'.created ensures Places(s', x) == 0 {
        NextPlaces(s, schedule[0], x);
      }
      RunNoneAhead(s', schedule[1..]);
    }
  }

  /** The same of registering by an allocation, whose first pool is a new one. */
  lemma AllocateSafeExactly(s: State, t: nat)
    requires Inv(s) && CachesOk(s) && NoneAhead(s) && Enabled(s, Register(t)) && !s.threw
    ensures StaysDefined(Next(Next(s, Register(t)), Allocate(t))) <==> !Owed(s, t)
  {
    var g := |s.stores|;
    var s1 := Next(s, Register(t));
    var s2 := Next(s1, Allocate(t));
    NextInv(s, Register(t));
    NextInv(s1, Allocate(t));
    if Owed(s, t) {
      forall u: nat | u < |s2.pcs| && s2.pcs[u].Recycling? ensures s2.pcs[u].target != Some(g) {
        assert ThreadOk(s, u);
      }
      forall i: nat | i < |s2.pending| ensures s2.pending[i].pool !in s2.stores[g].cache {
        WaitingIsPlaced(s.pending, i);
        assert Places(s, s.pending[i].pool) >= 1;
        assert s.pending[i].pool < s.created;
      }
      var schedule := StaleComesBack(s2, t, g);
    } else {
      NextCaches(s, Register(t));
      NextCaches(s1, Allocate(t));
      CachesStay(s2);
    }
  }

  lemma {:induction false} ThroughoutExactly(s: State, schedule: seq<Action>)
    requires Inv(s) && CachesOk(s) && !s.threw
    ensures DefinedThroughout(s, schedule) <==> Patient(s, schedule)
    decreases |schedule|
  {
    CachesStay(s);
    if schedule != [] {
      var a := schedule[0];
      if Early(s, a) {
        RegisterSafeExactly(s, a.t);
      } else {
        NextInv(s, a);
        NextCaches(s, a);
        ThroughoutExactly(Next(s, a), schedule[1..]);
      }
    }
  }

  /**
   Over all runs of any number of threads: the checked lookup of the active pool never fails, and never can
   from there, if and only if no thread registers while pools of its earlier registration are waiting.
   */
  lemma LookupDefinedExactly(threads: nat, schedule: seq<Action>)
    ensures DefinedThroughout(Init(threads), schedule) <==> Patient(Init(threads), schedule)
  {
    InitInv(threads);
    ThroughoutExactly(Init(threads), schedule);
  }
}
