/**
 The simulation clock: capped deltas, fixed updates, and the smoothed delta.

 All times are microseconds. The scaled delta of a frame is an input; the clock caps it at `maximum`, adds it
 to the simulation time, and the update loop then runs fixed updates of length `fixed` until fixed time is
 less than one fixed step behind.
 */
module Clock {

  // ---------------------------------------------------------------- division by a positive number

  /** A quotient is pinned down by its bounds. */
  lemma Quotient(x: int, d: int, q: int)
    requires d > 0 && q * d <= x < q * d + d
    ensures x / d == q
  {
    var r := x - q * d;
    assert x == q * d + r && 0 <= r < d;
    QuotientUnique(x / d, x % d, q, r, d);
  }

  lemma QuotientUnique(q1: int, r1: int, q2: int, r2: int, d: int)
    requires d > 0 && q1 * d + r1 == q2 * d + r2 && 0 <= r1 < d && 0 <= r2 < d
    ensures q1 == q2
  {
    assert (q2 - q1) * d == q2 * d - q1 * d == r1 - r2;
    assert (q1 - q2) * d == q1 * d - q2 * d;
    if q1 < q2 {
      AtLeastOnce(q2 - q1, d);
    } else if q2 < q1 {
      AtLeastOnce(q1 - q2, d);
    }
  }

  lemma AtLeastOnce(k: int, d: int)
    requires k >= 1 && d > 0
    ensures k * d >= d
  {
    assert (k - 1) * d >= 0;
    assert (k - 1) * d == k * d - d;
  }

  lemma QuotientBounds(x: int, d: int)
    requires d > 0
    ensures (x / d) * d <= x < (x / d) * d + d
  {
  }

  lemma QuotientGrows(x: int, y: int, d: int)
    requires d > 0 && x <= y
    ensures x / d <= y / d
  {
    QuotientBounds(x, d);
    QuotientBounds(y, d);
    var a, b := x / d, y / d;
    assert (a - b) * d == a * d - b * d;
    if a > b {
      AtLeastOnce(a - b, d);
    }
  }

  // ---------------------------------------------------------------- frames

  datatype Settings = Settings(fixed: int, maximum: int)

  /** What the class asserts of its settings, and the sign its comments ask for. */
  predicate Sane(c: Settings) {
    0 < c.fixed < c.maximum
  }

  /** Simulation time, fixed time, and how many fixed updates there were. */
  datatype Times = Times(sim: int, fixed: int, updates: nat)

  function Start(now: int): Times { Times(now, now, 0) }

  function Delta(c: Settings, scaled: nat): int {
    if scaled <= c.maximum then scaled else c.maximum
  }

  /** How many fixed updates a frame runs. */
  function UpdatesIn(c: Settings, t: Times, scaled: nat): int
    requires Sane(c)
  {
    (t.sim + Delta(c, scaled) - t.fixed) / c.fixed
  }

  /** One frame of the update thread. */
  function Frame(c: Settings, t: Times, scaled: nat): Times
    requires Sane(c) && t.fixed <= t.sim
  {
    QuotientBounds(t.sim + Delta(c, scaled) - t.fixed, c.fixed);
    QuotientGrows(0, t.sim + Delta(c, scaled) - t.fixed, c.fixed);
    var n := UpdatesIn(c, t, scaled);
    Times(t.sim + Delta(c, scaled), t.fixed + n * c.fixed, t.updates + n)
  }

  /** Fixed time is behind simulation time, by less than one fixed step, in whole steps from the start. */
  ghost predicate InStep(c: Settings, start: int, t: Times) {
    && t.fixed <= t.sim < t.fixed + c.fixed
    && t.fixed == start + t.updates * c.fixed
  }

  lemma FrameInStep(c: Settings, start: int, t: Times, scaled: nat)
    requires Sane(c) && InStep(c, start, t)
    ensures InStep(c, start, Frame(c, t, scaled)) && t.sim <= Frame(c, t, scaled).sim
  {
    var n := UpdatesIn(c, t, scaled);
    QuotientBounds(t.sim + Delta(c, scaled) - t.fixed, c.fixed);
    assert (t.updates + n) * c.fixed == t.updates * c.fixed + n * c.fixed;
  }

  function Run(c: Settings, t: Times, deltas: seq<nat>): (t': Times)
    requires Sane(c) && t.fixed <= t.sim
    ensures t'.fixed <= t'.sim
    decreases |deltas|
  {
    if deltas == [] then t
    else
      QuotientBounds(t.sim + Delta(c, deltas[0]) - t.fixed, c.fixed);
      Run(c, Frame(c, t, deltas[0]), deltas[1..])
  }

  lemma {:induction false} RunInStep(c: Settings, start: int, t: Times, deltas: seq<nat>)
    requires Sane(c) && InStep(c, start, t)
    ensures InStep(c, start, Run(c, t, deltas)) && t.sim <= Run(c, t, deltas).sim
    decreases |deltas|
  {
    if deltas != [] {
      FrameInStep(c, start, t, deltas[0]);
      RunInStep(c, start, Frame(c, t, deltas[0]), deltas[1..]);
    }
  }

  /**
   However long the frames are, fixed time never passes simulation time, stays less than one fixed step
   behind it, and the fixed updates so far number exactly the whole steps the simulation has covered.
   */
  lemma FixedUpdatesCounted(c: Settings, start: int, deltas: seq<nat>)
    requires Sane(c)
    ensures var t := Run(c, Start(start), deltas);
      && t.fixed <= t.sim < t.fixed + c.fixed
      && t.updates == (t.sim - start) / c.fixed
  {
    RunInStep(c, start, Start(start), deltas);
    var t := Run(c, Start(start), deltas);
    Quotient(t.sim - start, c.fixed, t.updates);
  }

  // ---------------------------------------------------------------- how far simulation time gets

  /** The frames' lengths added up. */
  function Sum(deltas: seq<nat>): nat {
    if deltas == [] then 0 else deltas[0] + Sum(deltas[1..])
  }

  /** What is lost of them: of each frame the part beyond the maximum. */
  function Lost(deltas: seq<nat>, maximum: int): int {
    if deltas == [] then 0 else (if deltas[0] > maximum then deltas[0] - maximum else 0) + Lost(deltas[1..], maximum)
  }

  /** No frame is shorter than in the other run. */
  ghost predicate NoShorter(longer: seq<nat>, shorter: seq<nat>) {
    |longer| == |shorter| && forall i: nat | i < |shorter| :: shorter[i] <= longer[i]
  }

  lemma {:induction false} RunAdvances(c: Settings, t: Times, deltas: seq<nat>)
    requires Sane(c) && t.fixed <= t.sim
    ensures Run(c, t, deltas).sim == t.sim + Sum(deltas) - Lost(deltas, c.maximum)
    decreases |deltas|
  {
    if deltas != [] {
      QuotientBounds(t.sim + Delta(c, deltas[0]) - t.fixed, c.fixed);
      RunAdvances(c, Frame(c, t, deltas[0]), deltas[1..]);
    }
  }

  lemma {:induction false} LostExactly(deltas: seq<nat>, maximum: int)
    requires maximum > 0
    ensures 0 <= Lost(deltas, maximum) <= Sum(deltas)
    ensures Lost(deltas, maximum) == 0 <==> forall i: nat | i < |deltas| :: deltas[i] <= maximum
  {
    if deltas != [] {
      LostExactly(deltas[1..], maximum);
      assert forall i: nat | i < |deltas| - 1 :: deltas[1..][i] == deltas[i + 1];
      if forall i: nat | i < |deltas[1..]| :: deltas[1..][i] <= maximum {
        forall i: nat | 0 < i < |deltas| ensures deltas[i] <= maximum { assert deltas[1..][i - 1] <= maximum; }
      }
    }
  }

  lemma {:induction false} LongerLosesNoMore(longer: seq<nat>, shorter: seq<nat>, maximum: int)
    requires NoShorter(longer, shorter)
    ensures Sum(shorter) - Lost(shorter, maximum) <= Sum(longer) - Lost(longer, maximum)
  {
    if longer != [] {
      assert forall i: nat | i < |longer| - 1 :: longer[1..][i] == longer[i + 1] && shorter[1..][i] == shorter[i + 1];
      LongerLosesNoMore(longer[1..], shorter[1..], maximum);
    }
  }

  /**
   In every run simulation time moves on by the lengths of the frames, less the part of each beyond the maximum. So
   it keeps up with them exactly if no frame is longer than the maximum, and longer frames never move it less.
   */
  lemma SimulationAdvances(c: Settings, start: int, deltas: seq<nat>, longer: seq<nat>)
    requires Sane(c) && NoShorter(longer, deltas)
    ensures Run(c, Start(start), deltas).sim == start + Sum(deltas) - Lost(deltas, c.maximum)
    ensures Run(c, Start(start), deltas).sim == start + Sum(deltas) <==>
              forall i: nat | i < |deltas| :: deltas[i] <= c.maximum
    ensures Run(c, Start(start), deltas).sim <= Run(c, Start(start), longer).sim
  {
    RunAdvances(c, Start(start), deltas);
    RunAdvances(c, Start(start), longer);
    LostExactly(deltas, c.maximum);
    LongerLosesNoMore(longer, deltas, c.maximum);
  }

  // ---------------------------------------------------------------- how many fixed updates one frame runs

  /** The most any frame runs: the maximum delta in fixed steps, rounded up. */
  function Most(c: Settings): int
    requires Sane(c)
  {
    (c.fixed - 1 + c.maximum) / c.fixed
  }

  /** No frame of any run performs more than `bound` fixed updates. */
  ghost predicate Bounds(c: Settings, bound: int)
    requires Sane(c)
  {
    forall start: int, deltas: seq<nat>, scaled: nat :: UpdatesIn(c, Run(c, Start(start), deltas), scaled) <= bound
  }

  lemma MostBounds(c: Settings)
    requires Sane(c)
    ensures Bounds(c, Most(c))
  {
    forall start: int, deltas: seq<nat>, scaled: nat
      ensures UpdatesIn(c, Run(c, Start(start), deltas), scaled) <= Most(c)
    {
      RunInStep(c, start, Start(start), deltas);
      var t := Run(c, Start(start), deltas);
      QuotientGrows(t.sim + Delta(c, scaled) - t.fixed, c.fixed - 1 + c.maximum, c.fixed);
    }
  }

  /** A frame just short of a fixed step, and then one of the maximum: the bound is reached. */
  lemma MostReached(c: Settings)
    requires Sane(c)
    ensures UpdatesIn(c, Run(c, Start(0), [c.fixed - 1]), c.maximum) == Most(c)
  {
    Quotient(c.fixed - 1, c.fixed, 0);
    var t := Frame(c, Start(0), c.fixed - 1);
    assert t == Times(c.fixed - 1, 0, 0);
    assert Run(c, Start(0), [c.fixed - 1]) == Run(c, t, []);
  }

  lemma RoundedUp(c: Settings)
    requires Sane(c)
    ensures Most(c) == c.maximum / c.fixed + if c.maximum % c.fixed == 0 then 0 else 1
  {
    var q, r := c.maximum / c.fixed, c.maximum % c.fixed;
    assert c.maximum == q * c.fixed + r;
    assert (q + 1) * c.fixed == q * c.fixed + c.fixed;
    Quotient(c.fixed - 1 + c.maximum, c.fixed, if r == 0 then q else q + 1);
  }

  /**
   The documentation promises at most `maximum / fixed` fixed updates in one frame. That is so in all runs
   exactly when the maximum is a whole number of fixed steps; otherwise some frame runs one more.
   */
  lemma DocumentedBoundExactly(c: Settings)
    requires Sane(c)
    ensures Bounds(c, c.maximum / c.fixed) <==> c.maximum % c.fixed == 0
  {
    RoundedUp(c);
    MostBounds(c);
    MostReached(c);
  }

  // ---------------------------------------------------------------- smoothing

  /** The moving average, newest sample last. */
  function Smoothed(w: seq<int>): int
    requires |w| == 4
  {
    (w[0] + w[1] + 2 * w[2] + 4 * w[3]) / 8
  }

  /** Halving the halves, rounding down each time, is rounding down once. */
  lemma NestedHalves(a: int, b: int, c: int, d: int)
    ensures (((a + b) / 2 + c) / 2 + d) / 2 == (a + b + 2 * c + 4 * d) / 8
  {
    var x := (a + b) / 2;
    var y := (x + c) / 2;
    var z := (y + d) / 2;
    assert 4 * y <= a + b + 2 * c <= 4 * y + 3;
    assert 8 * z <= a + b + 2 * c + 4 * d <= 8 * z + 7;
  }

  /** The average lies between the smallest and the largest sample of the window. */
  lemma SmoothedBetween(w: seq<int>, low: int, high: int)
    requires |w| == 4 && forall i: nat | i < 4 :: low <= w[i] <= high
    ensures low <= Smoothed(w) <= high
  {
    assert 8 * low <= w[0] + w[1] + 2 * w[2] + 4 * w[3] <= 8 * high;
  }

  // ---------------------------------------------------------------- between the updates of a frame

  /** The next call of the update thread: a fixed update while one is needed, otherwise the next frame's update. */
  function Tick(c: Settings, t: Times, scaled: nat): Times {
    if t.fixed + c.fixed <= t.sim then Times(t.sim, t.fixed + c.fixed, t.updates + 1)
    else Times(t.sim + Delta(c, scaled), t.fixed, t.updates)
  }

  function Ticks(c: Settings, t: Times, inputs: seq<nat>): Times
    decreases |inputs|
  {
    if inputs == [] then t else Ticks(c, Tick(c, t, inputs[0]), inputs[1..])
  }

  function Zeros(n: nat): seq<nat> {
    if n == 0 then [] else [0] + Zeros(n - 1)
  }

  lemma {:induction false} FixTicks(c: Settings, t: Times, n: nat)
    requires Sane(c) && t.fixed + n * c.fixed <= t.sim
    ensures Ticks(c, t, Zeros(n)) == Times(t.sim, t.fixed + n * c.fixed, t.updates + n)
    decreases n
  {
    if n > 0 {
      AtLeastOnce(n, c.fixed);
      assert (n - 1) * c.fixed == n * c.fixed - c.fixed;
      FixTicks(c, Tick(c, t, 0), n - 1);
    }
  }

  /** A frame is its update and then its fixed updates, one call after the other. */
  lemma FrameIsTicks(c: Settings, start: int, t: Times, scaled: nat)
    requires Sane(c) && InStep(c, start, t)
    ensures UpdatesIn(c, t, scaled) >= 0
    ensures Ticks(c, t, [scaled] + Zeros(UpdatesIn(c, t, scaled))) == Frame(c, t, scaled)
  {
    QuotientBounds(t.sim + Delta(c, scaled) - t.fixed, c.fixed);
    QuotientGrows(0, t.sim + Delta(c, scaled) - t.fixed, c.fixed);
    var n := UpdatesIn(c, t, scaled);
    assert ([scaled] + Zeros(n))[1..] == Zeros(n);
    FixTicks(c, Tick(c, t, scaled), n);
  }

  /** Behind, by less than one step and one frame. */
  ghost predicate Behind(c: Settings, t: Times) {
    t.fixed <= t.sim < t.fixed + c.fixed + c.maximum
  }

  lemma {:induction false} TicksBehind(c: Settings, t: Times, inputs: seq<nat>)
    requires Sane(c) && Behind(c, t)
    ensures var t' := Ticks(c, t, inputs); Behind(c, t') && t.sim <= t'.sim && t.fixed <= t'.fixed
    decreases |inputs|
  {
    if inputs != [] {
      TicksBehind(c, Tick(c, t, inputs[0]), inputs[1..]);
    }
  }

  /**
   A reading by another thread, which loads simulation time after any calls of the update thread and fixed time
   after some more. It never shows fixed time a step and a frame behind, and shows it ahead only if simulation
   time has moved on between the two loads.
   */
  lemma ReadingFromOutside(c: Settings, now: int, before: seq<nat>, between: seq<nat>)
    requires Sane(c)
    ensures var t := Ticks(c, Start(now), before); var t' := Ticks(c, t, between);
      && t.sim - t'.fixed < c.fixed + c.maximum
      && (t'.sim == t.sim ==> t'.fixed <= t.sim)
  {
    TicksBehind(c, Start(now), before);
    TicksBehind(c, Ticks(c, Start(now), before), between);
  }

  /** Such a reading can show fixed time ahead of simulation time. */
  lemma ReadingRunsAhead(c: Settings, now: int, between: seq<nat>)
    requires Sane(c) && between == [c.maximum, 0]
    ensures Ticks(c, Start(now), between).fixed > Start(now).sim
  {
    assert between[1..] == [0] && [0][1..] == [];
    var t := Tick(c, Start(now), c.maximum);
    assert Ticks(c, Start(now), between) == Ticks(c, t, [0]) == Ticks(c, Tick(c, t, 0), []);
  }

  // ---------------------------------------------------------------- the clock as the program keeps it

  const WINDOW := 4
  const IDEAL_DELTA := 16667

  function Advance(index: nat): nat { (index + 1) % WINDOW }

  /** The four cells from the index on, round the ring. */
  function From(cells: seq<int>, index: nat): seq<int>
    requires |cells| == WINDOW && index < WINDOW
  {
    cells[index..] + cells[..index]
  }

  class TimeInfo {
    const settings: Settings
    const start: int
    const deltas: array<int>
    var lastFixedUpdate: int
    var lastRealUpdate: int
    var lastUpdate: int
    var lastRawDelta: int
    var deltasIndex: nat
    ghost var updates: nat

    ghost predicate Valid() reads this, deltas {
      && Sane(settings) && deltas.Length == WINDOW && deltasIndex < WINDOW
      && InStep(settings, start, View())
    }

    ghost function View(): Times reads this {
      Times(lastUpdate, lastFixedUpdate, updates)
    }

    /** The last four deltas, oldest first. */
    ghost function Window(): seq<int>
      requires deltas.Length == WINDOW && deltasIndex < WINDOW
      reads this, deltas
    {
      From(deltas[..], deltasIndex)
    }

    constructor (settings: Settings, now: int)
      requires Sane(settings)
      ensures Valid() && fresh(deltas) && this.settings == settings && start == now
      ensures View() == Start(now) && Window() == [IDEAL_DELTA, IDEAL_DELTA, IDEAL_DELTA, IDEAL_DELTA]
    {
      this.settings, start := settings, now;
      deltas := new int[WINDOW](_ => IDEAL_DELTA);
      lastFixedUpdate, lastRealUpdate, lastUpdate, lastRawDelta, deltasIndex, updates := now, now, now, 0, 0, 0;
    }

    /** Records the capped delta, overwriting the oldest, and moves simulation time on by it. */
    method UTupdate(timeRaw: int, deltaScaled: nat)
      requires Sane(settings) && deltas.Length == WINDOW && deltasIndex < WINDOW
      modifies this`deltasIndex, this`lastRawDelta, this`lastRealUpdate, this`lastUpdate, deltas
      ensures deltasIndex < WINDOW
      ensures Window() == old(Window())[1..] + [Delta(settings, deltaScaled)]
      ensures lastUpdate == old(lastUpdate) + Delta(settings, deltaScaled)
      ensures Window()[3] == lastUpdate - old(lastUpdate)
      ensures lastUpdate - old(lastUpdate) == if deltaScaled > settings.maximum then settings.maximum else deltaScaled
      ensures !old(NeedsFixedUpdate()) ==> View() == Tick(settings, old(View()), deltaScaled)
      ensures lastRawDelta == timeRaw - old(lastRealUpdate) && lastRealUpdate == timeRaw
    {
      var deltaRaw := timeRaw - lastRealUpdate;
      var delta := if deltaScaled <= settings.maximum then deltaScaled else settings.maximum;
      var idx := deltasIndex;
      deltas[idx] := delta;
      deltasIndex := Advance(idx);
      lastRawDelta := deltaRaw;
      lastRealUpdate := timeRaw;
      lastUpdate := lastUpdate + delta;
    }

    method UTfixedUpdate()
      modifies this`lastFixedUpdate, this`updates
      ensures lastFixedUpdate == old(lastFixedUpdate) + settings.fixed && updates == old(updates) + 1
      ensures old(NeedsFixedUpdate()) ==> View() == Tick(settings, old(View()), 0)
    {
      lastFixedUpdate, updates := lastFixedUpdate + settings.fixed, updates + 1;
    }

    predicate NeedsFixedUpdate() reads this {
      lastFixedUpdate + settings.fixed <= lastUpdate
    }

    /** One round of the update thread. The inner loop ends, and leaves the clocks in step. */
    method UpdateFrame(timeRaw: int, deltaScaled: nat)
      requires Valid()
      modifies this, deltas
      ensures Valid() && View() == Frame(settings, old(View()), deltaScaled)
      ensures lastUpdate - old(lastUpdate) == if deltaScaled > settings.maximum then settings.maximum else deltaScaled
      ensures updates - old(updates) <= (settings.maximum + settings.fixed - 1) / settings.fixed
      ensures Window() == old(Window())[1..] + [Delta(settings, deltaScaled)]
      ensures lastRawDelta == timeRaw - old(lastRealUpdate) && lastRealUpdate == timeRaw
    {
      ghost var before := View();
      FrameInStep(settings, start, before, deltaScaled);
      UTupdate(timeRaw, deltaScaled);
      RunFixedUpdates(before, deltaScaled);
      QuotientGrows(before.sim + Delta(settings, deltaScaled) - before.fixed,
                    settings.fixed - 1 + settings.maximum, settings.fixed);
    }

    method RunFixedUpdates(ghost before: Times, ghost deltaScaled: nat)
      requires Sane(settings) && before.fixed <= before.sim
      requires View() == Times(before.sim + Delta(settings, deltaScaled), before.fixed, before.updates)
      modifies this`lastFixedUpdate, this`updates
      ensures View() == Frame(settings, before, deltaScaled)
    {
      ghost var n := 0;
      while NeedsFixedUpdate()
        invariant updates == before.updates + n
        invariant lastFixedUpdate == before.fixed + n * settings.fixed <= lastUpdate
        decreases lastUpdate - lastFixedUpdate
      {
        assert (n + 1) * settings.fixed == n * settings.fixed + settings.fixed;
        UTfixedUpdate();
        n := n + 1;
      }
      Quotient(lastUpdate - before.fixed, settings.fixed, n);
    }

    /**
     The smoothed delta: the in-place halving loop over the ring gives the moving average of the window, in
     which the newest delta weighs half.
     */
    method Smooth() returns (ema: int)
      requires deltas.Length == WINDOW && deltasIndex < WINDOW
      ensures ema == Smoothed(Window())
      ensures var w := Window(); 8 * ema <= w[0] + w[1] + 2 * w[2] + 4 * w[3] <= 8 * ema + 7
    {
      var w := From(deltas[..], deltasIndex);
      var index := deltasIndex;
      ema := deltas[index];
      index := Advance(index);
      var i := 1;
      while i < WINDOW
        invariant 1 <= i <= WINDOW && index == (deltasIndex + i) % WINDOW
        invariant ema == Halved(w, i)
      {
        assert w[i] == deltas[index];
        ema := (ema + deltas[index]) / 2;
        index := Advance(index);
        i := i + 1;
      }
      HalvedIsSmoothed(w);
    }

    /**
     The readings, between any two calls of the update thread. The delta reported is the oldest of the window,
     not the latest.
     */
    method Current() returns (time: int, fixedTime: int, deltaTime: int, smoothDelta: int, realTime: int, rawDelta: int)
      requires Sane(settings) && deltas.Length == WINDOW && deltasIndex < WINDOW
      ensures time == lastUpdate && fixedTime == lastFixedUpdate
      ensures realTime == lastRealUpdate && rawDelta == lastRawDelta
      ensures InStep(settings, start, View()) ==> 0 <= time - fixedTime < settings.fixed
      ensures Behind(settings, View()) ==> 0 <= time - fixedTime < settings.fixed + settings.maximum
      ensures deltaTime == Window()[0] && smoothDelta == Smoothed(Window())
    {
      time, fixedTime, deltaTime := lastUpdate, lastFixedUpdate, deltas[deltasIndex];
      realTime, rawDelta := lastRealUpdate, lastRawDelta;
      smoothDelta := Smooth();
    }
  }

  /** The average after the first n samples. */
  function Halved(w: seq<int>, n: nat): int
    requires 1 <= n <= |w|
  {
    if n == 1 then w[0] else (Halved(w, n - 1) + w[n - 1]) / 2
  }

  lemma HalvedIsSmoothed(w: seq<int>)
    requires |w| == 4
    ensures Halved(w, 4) == Smoothed(w)
  {
    assert Halved(w, 2) == (w[0] + w[1]) / 2;
    assert Halved(w, 3) == (Halved(w, 2) + w[2]) / 2;
    NestedHalves(w[0], w[1], w[2], w[3]);
  }
}
