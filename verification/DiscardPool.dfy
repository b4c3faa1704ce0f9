/**
 Deferred destruction: lists of resources stamped with the timeline value after which they may go, the
 sweep that removes the old prefix of each, and the monitor that decides when to sweep.
 */
module DiscardPool {
  import opened Words

  datatype Stamped<T> = Stamped(stamp: nat, item: T)

  ghost predicate Sorted<T>(list: seq<Stamped<T>>) {
    forall i, j :: 0 <= i <= j < |list| ==> list[i].stamp <= list[j].stamp
  }

  /** How many entries a sweep at time `now` removes: the ones before the first that is too young. */
  function Old<T>(list: seq<Stamped<T>>, now: nat): (n: nat)
    ensures n <= |list|
    ensures forall i: nat | i < n :: list[i].stamp <= now
    ensures n < |list| ==> list[n].stamp > now
  {
    if list == [] || list[0].stamp > now then 0 else 1 + Old(list[1..], now)
  }

  function Items<T>(list: seq<Stamped<T>>): (items: seq<T>)
    ensures |items| == |list|
    ensures forall i: nat | i < |list| :: items[i] == list[i].item
  {
    seq(|list|, i requires 0 <= i < |list| => list[i].item)
  }

  /** The entries a sweep ought to remove, in order: all whose time has come. */
  function Due<T>(list: seq<Stamped<T>>, now: nat): seq<Stamped<T>> {
    if list == [] then []
    else if list[0].stamp <= now then [list[0]] + Due(list[1..], now)
    else Due(list[1..], now)
  }

  function NotDue<T>(list: seq<Stamped<T>>, now: nat): seq<Stamped<T>> {
    if list == [] then []
    else if list[0].stamp > now then [list[0]] + NotDue(list[1..], now)
    else NotDue(list[1..], now)
  }

  lemma {:induction false} NothingDue<T>(list: seq<Stamped<T>>, now: nat)
    requires forall i: nat | i < |list| :: list[i].stamp > now
    ensures Due(list, now) == [] && NotDue(list, now) == list
  {
    if list != [] {
      NothingDue(list[1..], now);
    }
  }

  /** On a sorted list the removed prefix is exactly what is due, and the rest exactly what is not. */
  lemma {:induction false} PrefixIsDue<T>(list: seq<Stamped<T>>, now: nat)
    requires Sorted(list)
    ensures list[..Old(list, now)] == Due(list, now)
    ensures list[Old(list, now)..] == NotDue(list, now)
  {
    if list != [] {
      if list[0].stamp > now {
        NothingDue(list, now);
      } else {
        PrefixIsDue(list[1..], now);
        assert list[..Old(list, now)] == [list[0]] + list[1..][..Old(list[1..], now)];
      }
    }
  }

  /** Appending the current time keeps the list sorted as long as time does not run backwards. */
  lemma AppendSorted<T>(list: seq<Stamped<T>>, now: nat, item: T)
    ensures Sorted(list + [Stamped(now, item)]) <==> Sorted(list) && forall i: nat | i < |list| :: list[i].stamp <= now
  {
    var longer := list + [Stamped(now, item)];
    if Sorted(longer) {
      forall i, j | 0 <= i <= j < |list| ensures list[i].stamp <= list[j].stamp {
        assert longer[i].stamp <= longer[j].stamp;
      }
      forall i: nat | i < |list| ensures list[i].stamp <= now {
        assert longer[i].stamp <= longer[|list|].stamp;
      }
    }
  }

  /** Without the order a sweep keeps entries that are due: those behind a young one. */
  lemma UnsortedKeepsDue()
    ensures var list := [Stamped(5, 'a'), Stamped(1, 'b')];
      Old(list, 1) == 0 && Due(list, 1) == [Stamped(1, 'b')]
  {
    var list := [Stamped(5, 'a'), Stamped(1, 'b')];
    assert list[1..] == [Stamped(1, 'b')];
    assert list[1..][1..] == [];
    assert Due(list[1..], 1) == [Stamped(1, 'b')];
  }

  // ---------------------------------------------------------------- the pool and its monitor

  /** The lists, in the order a sweep visits them. */
  datatype Kind =
    | ImageViews | Images | BufferViews | Buffers | Pipelines | PipelineLayouts | ShaderModules
    | DescriptorPools | CommandPools | RenderPasses | Framebuffers

  const SWEEP_ORDER: seq<Kind> := [ImageViews, Images, BufferViews, Buffers, Pipelines, PipelineLayouts,
    ShaderModules, DescriptorPools, CommandPools, RenderPasses, Framebuffers]

  type Lists = map<Kind, seq<Stamped<nat>>>

  ghost predicate Complete(lists: Lists) {
    forall kind: Kind :: kind in lists
  }

  /** Every stamp fits a machine word. */
  ghost predicate Fit(lists: Lists)
    requires Complete(lists)
  {
    forall kind: Kind, i: nat | i < |lists[kind]| :: lists[kind][i].stamp < WORD
  }

  /** The lists after the old prefix of one is removed. */
  function RemovedFrom(lists: Lists, kind: Kind, now: nat): (rest: Lists)
    requires Complete(lists)
    ensures Complete(rest)
  {
    lists[kind := lists[kind][Old(lists[kind], now)..]]
  }

  /** The lists after a sweep in the given order. */
  function Rest(lists: Lists, now: nat, order: seq<Kind>): (rest: Lists)
    requires Complete(lists)
    ensures Complete(rest)
    decreases |order|
  {
    if order == [] then lists else Rest(RemovedFrom(lists, order[0], now), now, order[1..])
  }

  /** What a sweep deletes, in the order it deletes it. */
  function Swept(lists: Lists, now: nat, order: seq<Kind>): seq<(Kind, nat)>
    requires Complete(lists)
    decreases |order|
  {
    if order == [] then []
    else
      var kind := order[0];
      Tagged(kind, lists[kind][..Old(lists[kind], now)]) + Swept(RemovedFrom(lists, kind, now), now, order[1..])
  }

  lemma SweepNext(lists: Lists, now: nat, order: seq<Kind>, k: nat)
    requires Complete(lists) && k < |order|
    ensures var rest := RemovedFrom(lists, order[k], now);
      && Rest(lists, now, order[k..]) == Rest(rest, now, order[k + 1..])
      && Swept(lists, now, order[k..])
         == Tagged(order[k], lists[order[k]][..Old(lists[order[k]], now)]) + Swept(rest, now, order[k + 1..])
  {
    assert order[k..][0] == order[k] && order[k..][1..] == order[k + 1..];
  }

  function Tagged(kind: Kind, list: seq<Stamped<nat>>): seq<(Kind, nat)> {
    seq(|list|, i requires 0 <= i < |list| => (kind, list[i].item))
  }

  lemma JoinTagged(a: seq<(Kind, nat)>, b: seq<(Kind, nat)>, c: seq<(Kind, nat)>)
    ensures a + b + c == a + (b + c)
  {
  }

  lemma TaggedNext(kind: Kind, list: seq<Stamped<nat>>, n: nat)
    requires n < |list|
    ensures Tagged(kind, list[..n + 1]) == Tagged(kind, list[..n]) + [(kind, list[n].item)]
  {
  }

  function OfKind(tagged: seq<(Kind, nat)>, kind: Kind): seq<nat> {
    if tagged == [] then []
    else (if tagged[0].0 == kind then [tagged[0].1] else []) + OfKind(tagged[1..], kind)
  }

  lemma {:induction false} OfKindConcat(a: seq<(Kind, nat)>, b: seq<(Kind, nat)>, kind: Kind)
    ensures OfKind(a + b, kind) == OfKind(a, kind) + OfKind(b, kind)
  {
    if a == [] {
      assert a + b == b;
    } else {
      assert (a + b)[0] == a[0] && (a + b)[1..] == a[1..] + b;
      OfKindConcat(a[1..], b, kind);
    }
  }

  lemma {:induction false} OfKindTagged(list: seq<Stamped<nat>>, tag: Kind, kind: Kind)
    ensures OfKind(Tagged(tag, list), kind) == if tag == kind then Items(list) else []
  {
    if list != [] {
      OfKindTagged(list[1..], tag, kind);
      assert Tagged(tag, list)[1..] == Tagged(tag, list[1..]);
      assert Items(list) == [list[0].item] + Items(list[1..]);
    }
  }

  /**
   A sweep of sorted lists deletes, of every kind it visits, exactly the items that are due, each once and
   oldest first, and keeps exactly the others.
   */
  lemma {:induction false} SweepDeletesDue(lists: Lists, now: nat, order: seq<Kind>, kind: Kind)
    requires Complete(lists) && Sorted(lists[kind])
    ensures OfKind(Swept(lists, now, order), kind) == if kind in order then Items(Due(lists[kind], now)) else []
    ensures Rest(lists, now, order)[kind] == if kind in order then NotDue(lists[kind], now) else lists[kind]
    decreases |order|
  {
    if order != [] {
      var head, rest := order[0], RemovedFrom(lists, order[0], now);
      var n := Old(lists[head], now);
      OfKindTagged(lists[head][..n], head, kind);
      OfKindConcat(Tagged(head, lists[head][..n]), Swept(rest, now, order[1..]), kind);
      SweepDeletesDue(rest, now, order[1..], kind);
      if head == kind {
        PrefixIsDue(lists[kind], now);
        NotDueAgain(lists[kind], now);
        assert Items(Due(lists[kind], now)) + [] == Items(Due(lists[kind], now));
      }
    }
  }

  /** What a sweep kept is not due to the same sweep. */
  lemma {:induction false} NotDueAgain(list: seq<Stamped<nat>>, now: nat)
    ensures Due(NotDue(list, now), now) == [] && NotDue(NotDue(list, now), now) == NotDue(list, now)
  {
    if list != [] {
      NotDueAgain(list[1..], now);
    }
  }

  /** Nothing at the front of the list can go. */
  ghost predicate Young(list: seq<Stamped<nat>>, now: nat) {
    list != [] ==> list[0].stamp > now
  }

  lemma {:induction false} RestYoung(lists: Lists, now: nat, order: seq<Kind>, kind: Kind)
    requires Complete(lists) && (kind in order || Young(lists[kind], now))
    ensures Young(Rest(lists, now, order)[kind], now)
    decreases |order|
  {
    if order != [] {
      RestYoung(RemovedFrom(lists, order[0], now), now, order[1..], kind);
    }
  }

  // ---------------------------------------------------------------- the order of a sweep

  /** Everything of one kind is deleted before anything of the other. */
  ghost predicate Before(tagged: seq<(Kind, nat)>, first: Kind, second: Kind) {
    forall i: nat, j: nat | i < |tagged| && j < |tagged| && tagged[i].0 == first && tagged[j].0 == second :: i < j
  }

  lemma {:induction false} SweptKinds(lists: Lists, now: nat, order: seq<Kind>, i: nat)
    requires Complete(lists) && i < |Swept(lists, now, order)|
    ensures Swept(lists, now, order)[i].0 in order
    decreases |order|
  {
    var head, rest := order[0], RemovedFrom(lists, order[0], now);
    var n := Old(lists[head], now);
    if i >= n {
      SweptKinds(rest, now, order[1..], i - n);
    }
  }

  /** A kind that comes first in the order, and the other not before it, is deleted first. */
  lemma {:induction false} SweptBefore(lists: Lists, now: nat, order: seq<Kind>, first: Kind, second: Kind, k: nat)
    requires Complete(lists) && first != second && k < |order| && order[k] == first
    requires first !in order[k + 1..] && second !in order[..k]
    ensures Before(Swept(lists, now, order), first, second)
    decreases |order|
  {
    var head, rest := order[0], RemovedFrom(lists, order[0], now);
    var n := Old(lists[head], now);
    var swept, tail := Swept(lists, now, order), Swept(rest, now, order[1..]);
    assert forall i: nat | n <= i < |swept| :: swept[i] == tail[i - n];
    if k == 0 {
      forall i: nat | n <= i < |swept| ensures swept[i].0 != first { SweptKinds(rest, now, order[1..], i - n); }
    } else {
      assert second != head by { assert order[..k][0] == head; }
      assert order[1..][k..] == order[k + 1..];
      assert forall x | x in order[1..][..k - 1] :: x in order[..k];
      SweptBefore(rest, now, order[1..], first, second, k - 1);
    }
  }

  /** The first kind is at place k of the order and nowhere after, the second nowhere before. */
  ghost predicate PlacedBefore(order: seq<Kind>, first: Kind, second: Kind, k: nat) {
    k < |order| && order[k] == first && first !in order[k + 1..] && second !in order[..k]
  }

  lemma OrderOfSweep()
    ensures PlacedBefore(SWEEP_ORDER, ImageViews, Images, 0)
    ensures PlacedBefore(SWEEP_ORDER, BufferViews, Buffers, 2)
    ensures PlacedBefore(SWEEP_ORDER, Pipelines, PipelineLayouts, 4)
  {
  }

  /** Views are deleted before what they view, and pipelines before their layouts. */
  lemma UsersDeletedFirst(lists: Lists, now: nat, order: seq<Kind>)
    requires Complete(lists) && order == SWEEP_ORDER
    ensures Before(Swept(lists, now, order), ImageViews, Images)
    ensures Before(Swept(lists, now, order), BufferViews, Buffers)
    ensures Before(Swept(lists, now, order), Pipelines, PipelineLayouts)
  {
    OrderOfSweep();
    InOrderDeleted(lists, now, order, ImageViews, Images, 0);
    InOrderDeleted(lists, now, order, BufferViews, Buffers, 2);
    InOrderDeleted(lists, now, order, Pipelines, PipelineLayouts, 4);
  }

  lemma InOrderDeleted(lists: Lists, now: nat, order: seq<Kind>, first: Kind, second: Kind, k: nat)
    requires Complete(lists) && first != second && PlacedBefore(order, first, second, k)
    ensures Before(Swept(lists, now, order), first, second)
  {
    SweptBefore(lists, now, order, first, second, k);
  }

  const CHECK_EVERY_N_FRAMES := 240
  const MAX_IMAGES := 32
  const MAX_BUFFERS := 64
  const MAX_FRAMEBUFFERS := 32
  const MAX_PIPELINES := 16

  predicate OverLimit(lists: Lists)
    requires Images in lists && Buffers in lists && Framebuffers in lists && Pipelines in lists
  {
    |lists[Images]| > MAX_IMAGES || |lists[Buffers]| > MAX_BUFFERS ||
    |lists[Framebuffers]| > MAX_FRAMEBUFFERS || |lists[Pipelines]| > MAX_PIPELINES
  }

  class Pool {
    const order: seq<Kind>             // the order in which a sweep visits the lists
    var lists: Lists
    var semaphore: nat                 // the timeline semaphore's counter
    var frameCounter: nat              // the monitor's
    ghost var deleted: seq<(Kind, nat)>

    ghost predicate Valid() reads this {
      Complete(lists) && frameCounter < CHECK_EVERY_N_FRAMES && forall kind: Kind :: kind in order
    }

    constructor ()
      ensures Valid() && order == SWEEP_ORDER
      ensures semaphore == 0 && deleted == [] && forall kind: Kind :: lists[kind] == []
    {
      order := SWEEP_ORDER;
      lists := map kind: Kind | kind in SWEEP_ORDER :: [];
      semaphore, frameCounter, deleted := 0, 0, [];
      EveryKindSwept();
    }

    /** All the discard methods, one for each kind. */
    method Discard(kind: Kind, item: nat, value: nat)
      requires Valid()
      modifies this`lists
      ensures Valid() && lists == old(lists)[kind := old(lists)[kind] + [Stamped(value, item)]]
    {
      lists := lists[kind := lists[kind] + [Stamped(value, item)]];
    }

    /**
     Sweeps every list, views before what they view. A forced sweep uses the largest time there is, and so
     empties every list.
     */
    method DestroyDiscardedResources(force: bool)
      requires Valid()
      modifies this`lists, this`deleted
      ensures Valid()
      ensures var now := if force then WORD - 1 else semaphore;
        lists == Rest(old(lists), now, order) && deleted == old(deleted) + Swept(old(lists), now, order)
    {
      var timeline := WORD - 1;
      if !force {
        timeline := semaphore;
      }
      SweepEach(timeline);
    }

    method SweepEach(now: nat)
      requires Complete(lists)
      modifies this`lists, this`deleted
      ensures Complete(lists)
      ensures lists == Rest(old(lists), now, order) && deleted == old(deleted) + Swept(old(lists), now, order)
    {
      ghost var start := lists;
      var k := 0;
      while k < |order|
        invariant k <= |order| && Complete(lists)
        invariant Rest(lists, now, order[k..]) == Rest(start, now, order)
        invariant deleted + Swept(lists, now, order[k..]) == old(deleted) + Swept(start, now, order)
      {
        SweepNext(lists, now, order, k);
        ghost var before, gone := deleted, Tagged(order[k], lists[order[k]][..Old(lists[order[k]], now)]);
        RemoveOld(order[k], now);
        JoinTagged(before, gone, Swept(lists, now, order[k + 1..]));
        k := k + 1;
      }
    }

    /** Calls the deleter on the entries of one list before the first that is too young. */
    method DeleteOld(kind: Kind, currentTimeline: nat) returns (firstIndexToKeep: nat)
      requires Complete(lists)
      modifies this`deleted
      ensures firstIndexToKeep == Old(lists[kind], currentTimeline)
      ensures deleted == old(deleted) + Tagged(kind, lists[kind][..firstIndexToKeep])
    {
      var list := lists[kind];
      firstIndexToKeep := 0;
      while firstIndexToKeep < |list|
        invariant firstIndexToKeep <= Old(list, currentTimeline)
        invariant deleted == old(deleted) + Tagged(kind, list[..firstIndexToKeep])
      {
        if list[firstIndexToKeep].stamp > currentTimeline {
          break;
        }
        TaggedNext(kind, list, firstIndexToKeep);
        deleted := deleted + [(kind, list[firstIndexToKeep].item)];
        firstIndexToKeep := firstIndexToKeep + 1;
      }
    }

    /** Deletes the old entries of one list, and erases them. */
    method RemoveOld(kind: Kind, currentTimeline: nat)
      requires Complete(lists)
      modifies this`lists, this`deleted
      ensures lists == RemovedFrom(old(lists), kind, currentTimeline)
      ensures deleted == old(deleted) + Tagged(kind, old(lists)[kind][..Old(old(lists)[kind], currentTimeline)])
    {
      var firstIndexToKeep := DeleteOld(kind, currentTimeline);
      if firstIndexToKeep > 0 {
        lists := lists[kind := lists[kind][firstIndexToKeep..]];
      } else {
        assert lists[kind][0..] == lists[kind] && lists[kind := lists[kind]] == lists;
      }
    }

    /**
     The monitor: every 240 frames, sweep if one of the four watched lists is over its limit. So at each 240th frame
     a watched list that stays over its limit has nothing at its front that could go; and nothing is swept at any
     other frame, or while all four are within their limits.
     */
    method OnFrame()
      requires Valid()
      modifies this`frameCounter, this`lists, this`deleted
      ensures Valid()
      ensures frameCounter == (old(frameCounter) + 1) % 240
      ensures frameCounter == 0 ==>
        && (|lists[Images]| > 32 ==> lists[Images][0].stamp > semaphore)
        && (|lists[Buffers]| > 64 ==> lists[Buffers][0].stamp > semaphore)
        && (|lists[Framebuffers]| > 32 ==> lists[Framebuffers][0].stamp > semaphore)
        && (|lists[Pipelines]| > 16 ==> lists[Pipelines][0].stamp > semaphore)
      ensures frameCounter != 0 || (|old(lists)[Images]| <= 32 && |old(lists)[Buffers]| <= 64
        && |old(lists)[Framebuffers]| <= 32 && |old(lists)[Pipelines]| <= 16)
        ==> lists == old(lists) && deleted == old(deleted)
      ensures frameCounter == if old(frameCounter) + 1 < CHECK_EVERY_N_FRAMES then old(frameCounter) + 1 else 0
      ensures if frameCounter == 0 && OverLimit(old(lists)) then
                lists == Rest(old(lists), semaphore, order)
                && deleted == old(deleted) + Swept(old(lists), semaphore, order)
              else lists == old(lists) && deleted == old(deleted)
    {
      frameCounter := frameCounter + 1;
      if frameCounter < CHECK_EVERY_N_FRAMES {
        return;
      }
      frameCounter := 0;
      if OverLimit(lists) {
        forall kind: Kind ensures Young(Rest(lists, semaphore, order)[kind], semaphore) {
          RestYoung(lists, semaphore, order, kind);
        }
        DestroyDiscardedResources(false);
      }
    }
  }

  lemma EveryKindSwept()
    ensures forall kind: Kind :: kind in SWEEP_ORDER
  {
    forall kind: Kind ensures kind in SWEEP_ORDER {
      match kind
      case ImageViews => assert SWEEP_ORDER[0] == kind;
      case Images => assert SWEEP_ORDER[1] == kind;
      case BufferViews => assert SWEEP_ORDER[2] == kind;
      case Buffers => assert SWEEP_ORDER[3] == kind;
      case Pipelines => assert SWEEP_ORDER[4] == kind;
      case PipelineLayouts => assert SWEEP_ORDER[5] == kind;
      case ShaderModules => assert SWEEP_ORDER[6] == kind;
      case DescriptorPools => assert SWEEP_ORDER[7] == kind;
      case CommandPools => assert SWEEP_ORDER[8] == kind;
      case RenderPasses => assert SWEEP_ORDER[9] == kind;
      case Framebuffers => assert SWEEP_ORDER[10] == kind;
    }
  }

  /** A forced sweep empties every list, sorted or not, and so deletes everything that was ever discarded. */
  lemma ForcedSweepEmpties(lists: Lists, kind: Kind)
    requires Complete(lists) && Fit(lists)
    ensures Rest(lists, WORD - 1, SWEEP_ORDER)[kind] == []
    ensures OfKind(Swept(lists, WORD - 1, SWEEP_ORDER), kind) == Items(lists[kind])
  {
    EveryKindSwept();
    LateSweep(lists, WORD - 1, SWEEP_ORDER, kind);
  }

  lemma {:induction false} LateSweep(lists: Lists, now: nat, order: seq<Kind>, kind: Kind)
    requires Complete(lists) && forall i: nat | i < |lists[kind]| :: lists[kind][i].stamp <= now
    ensures Rest(lists, now, order)[kind] == if kind in order then [] else lists[kind]
    ensures OfKind(Swept(lists, now, order), kind) == if kind in order then Items(lists[kind]) else []
    decreases |order|
  {
    if order != [] {
      var head, rest := order[0], RemovedFrom(lists, order[0], now);
      var n := Old(lists[head], now);
      OfKindTagged(lists[head][..n], head, kind);
      OfKindConcat(Tagged(head, lists[head][..n]), Swept(rest, now, order[1..]), kind);
      LateSweep(rest, now, order[1..], kind);
      if head == kind {
        assert n == |lists[kind]| && lists[kind][..n] == lists[kind];
        assert Items(lists[kind]) + [] == Items(lists[kind]);
      }
    }
  }
}
