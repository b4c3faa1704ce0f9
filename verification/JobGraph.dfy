/**
 Jobs and their continuations. A job is a number; `conts[p]` lists the jobs waiting for p, one entry per
 declared dependency, so a job named twice waits twice.
 */
module JobGraph {

  ghost predicate WellFormed(conts: seq<seq<nat>>) {
    forall p: nat, k: nat | p < |conts| && k < |conts[p]| :: conts[p][k] < |conts|
  }

  /** How often c occurs in a list. */
  function Count(list: seq<nat>, c: nat): nat {
    if list == [] then 0 else (if list[0] == c then 1 else 0) + Count(list[1..], c)
  }

  /**
   How many continuation entries naming c are still unprocessed in the first n jobs, when the first
   `processed[p]` entries of each job p have been gone through.
   */
  function PendingIn(conts: seq<seq<nat>>, processed: seq<nat>, c: nat, n: nat): nat
    requires n <= |conts| == |processed|
    requires forall p: nat | p < n :: processed[p] <= |conts[p]|
  {
    if n == 0 then 0
    else PendingIn(conts, processed, c, n - 1) + Count(conts[n - 1][processed[n - 1]..], c)
  }

  ghost predicate Fits(conts: seq<seq<nat>>, processed: seq<nat>) {
    |conts| == |processed| && forall p: nat | p < |conts| :: processed[p] <= |conts[p]|
  }

  function Pending(conts: seq<seq<nat>>, processed: seq<nat>, c: nat): nat
    requires Fits(conts, processed)
  {
    PendingIn(conts, processed, c, |conts|)
  }

  /** p is a prerequisite of c. */
  predicate Precedes(conts: seq<seq<nat>>, p: nat, c: nat) {
    p < |conts| && c in conts[p]
  }

  /** Nothing has to run before c. */
  ghost predicate IsRoot(conts: seq<seq<nat>>, c: nat) {
    forall p: nat :: !Precedes(conts, p, c)
  }

  lemma {:induction false} CountIn(list: seq<nat>, c: nat)
    ensures Count(list, c) > 0 <==> c in list
  {
    if list != [] {
      CountIn(list[1..], c);
      assert list == [list[0]] + list[1..];
    }
  }

  lemma {:induction false} CountAppend(list: seq<nat>, c: nat, x: nat)
    ensures Count(list + [x], c) == Count(list, c) + (if x == c then 1 else 0)
  {
    if list == [] {
      assert [x][1..] == [];
    } else {
      assert (list + [x])[0] == list[0] && (list + [x])[1..] == list[1..] + [x];
      CountAppend(list[1..], c, x);
    }
  }

  /** Processing one entry of job j lowers the count of the job it names, and no other. */
  lemma {:induction false} ProcessOne(conts: seq<seq<nat>>, processed: seq<nat>, j: nat, c: nat, n: nat)
    requires Fits(conts, processed) && n <= |conts| && j < |conts| && processed[j] < |conts[j]|
    ensures Fits(conts, processed[j := processed[j] + 1])
    ensures PendingIn(conts, processed[j := processed[j] + 1], c, n)
         == PendingIn(conts, processed, c, n) - (if j < n && conts[j][processed[j]] == c then 1 else 0)
  {
    if n > 0 {
      ProcessOne(conts, processed, j, c, n - 1);
      if j == n - 1 {
        assert conts[j][processed[j]..][1..] == conts[j][processed[j] + 1..];
      }
    }
  }

  /** Each job's unprocessed entries are part of the total. */
  lemma {:induction false} PendingBounds(conts: seq<seq<nat>>, processed: seq<nat>, p: nat, c: nat, n: nat)
    requires Fits(conts, processed) && p < n <= |conts|
    ensures Count(conts[p][processed[p]..], c) <= PendingIn(conts, processed, c, n)
  {
    if p < n - 1 {
      PendingBounds(conts, processed, p, c, n - 1);
    }
  }

  /** When every job has processed all its entries naming c, none is pending. */
  lemma {:induction false} PendingNone(conts: seq<seq<nat>>, processed: seq<nat>, c: nat, n: nat)
    requires Fits(conts, processed) && n <= |conts|
    requires forall p: nat | p < n :: c !in conts[p][processed[p]..]
    ensures PendingIn(conts, processed, c, n) == 0
  {
    if n > 0 {
      PendingNone(conts, processed, c, n - 1);
      CountIn(conts[n - 1][processed[n - 1]..], c);
    }
  }

  /** Appending c to the list of job p adds one. */
  lemma {:induction false} PendingAdd(conts: seq<seq<nat>>, processed: seq<nat>, p: nat, x: nat, c: nat, n: nat)
    requires Fits(conts, processed) && p < |conts| && n <= |conts|
    ensures Fits(conts[p := conts[p] + [x]], processed)
    ensures PendingIn(conts[p := conts[p] + [x]], processed, c, n)
         == PendingIn(conts, processed, c, n) + (if p < n && x == c then 1 else 0)
  {
    if n > 0 {
      PendingAdd(conts, processed, p, x, c, n - 1);
      if p == n - 1 {
        assert (conts[p] + [x])[processed[p]..] == conts[p][processed[p]..] + [x];
        CountAppend(conts[p][processed[p]..], c, x);
      }
    }
  }

  function Zeros(n: nat): seq<nat> { seq(n, _ => 0) }

  /** The jobs of a run, as they are wired up before anything is submitted. */
  class Jobs {
    var continuations: seq<seq<nat>>
    var remaining: seq<int>

    /** Every counter counts the entries that name its job. */
    ghost predicate Wired()
      reads this
    {
      && WellFormed(continuations) && |remaining| == |continuations|
      && forall c: nat | c < |remaining| ::
           remaining[c] == Pending(continuations, Zeros(|continuations|), c)
    }

    constructor (count: nat)
      ensures Wired() && |continuations| == count
      ensures forall p: nat | p < count :: continuations[p] == []
    {
      continuations := seq(count, _ => []);
      remaining := seq(count, _ => 0);
      new;
      forall c: nat | c < count ensures Pending(continuations, Zeros(count), c) == 0 {
        PendingNone(continuations, Zeros(count), c, count);
      }
    }

    /** Makes `job` wait for `prerequisite`. */
    method AddDependency(job: nat, prerequisite: nat)
      requires Wired() && job < |continuations| && prerequisite < |continuations|
      modifies this
      ensures Wired()
      ensures continuations == old(continuations)[prerequisite := old(continuations[prerequisite]) + [job]]
    {
      ghost var before := continuations;
      continuations := continuations[prerequisite := continuations[prerequisite] + [job]];
      remaining := remaining[job := remaining[job] + 1];
      forall c: nat | c < |remaining|
        ensures remaining[c] == Pending(continuations, Zeros(|continuations|), c)
      {
        PendingAdd(before, Zeros(|before|), prerequisite, job, c, |before|);
      }
    }
  }
}
