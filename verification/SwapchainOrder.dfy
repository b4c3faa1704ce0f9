/**
 What a rebuild puts in place, whose turn it is after any number of frames, and which handle is destroyed how and
 when.
 */
module SwapchainOrder {
  import opened Wrappers
  import opened Slots
  import opened Swapchain

  // ---------------------------------------------------------------- what a rebuild puts in place

  /** A handle created since there were c of them. */
  predicate FreshSince(maybe: Option<Handle>, c: nat) {
    maybe.Some? && maybe.value.id >= c
  }

  lemma {:induction false} CreateImagesFresh(images: seq<Image>, created: seq<Handle>, n: nat, c: nat, i: nat)
    requires c <= |created| && i < |CreateImages(images, created, n).0|
    requires forall j: nat | j < |images| :: FreshSince(images[j].view, c) && FreshSince(images[j].semaphore, c)
    ensures var (images', created') := CreateImages(images, created, n);
      && FreshSince(images'[i].view, c) && FreshSince(images'[i].semaphore, c)
      && |images'| == (if |images| < n then n else |images|) && |created| <= |created'|
    decreases n - |images|
  {
    if |images| < n {
      var k := |created|;
      CreateImagesFresh(images + [Image(Some(ViewHandle(k + 1)), Some(SemaphoreHandle(k)))],
                        created + [SemaphoreHandle(k), ViewHandle(k + 1)], n, c, i);
    }
  }

  lemma {:induction false} CreateImagesCount(images: seq<Image>, created: seq<Handle>, n: nat)
    ensures |CreateImages(images, created, n).0| == (if |images| < n then n else |images|)
    ensures |created| <= |CreateImages(images, created, n).1|
    decreases n - |images|
  {
    if |images| < n {
      var k := |created|;
      CreateImagesCount(images + [Image(Some(ViewHandle(k + 1)), Some(SemaphoreHandle(k)))],
                        created + [SemaphoreHandle(k), ViewHandle(k + 1)], n);
    }
  }

  lemma {:induction false} GrowCount(frames: seq<Frame>, n: nat)
    ensures |Grow(frames, n)| == if |frames| < n then n else |frames|
    decreases n - |frames|
  {
    if |frames| < n {
      GrowCount(frames + [NEW_FRAME], n);
    }
  }

  /** A slot that had no acquire semaphore gets one made since, and its lists are left alone. */
  lemma {:induction false} RefreshFresh(frames: seq<Frame>, created: seq<Handle>, k: nat, c: nat, i: nat)
    requires k <= |frames| && i < |frames| && c <= |created|
    ensures var frame := Refresh(frames, created, k).0[i];
      && (i >= k && frames[i].acquire.None? ==> FreshSince(frame.acquire, c))
      && (i >= k && frames[i].fence.None? ==> FreshSince(frame.fence, c))
      && (frames[i].acquire.Some? ==> frame.acquire == frames[i].acquire)
      && (frames[i].fence.Some? ==> frame.fence == frames[i].fence)
      && frame == frames[i].(acquire := frame.acquire, fence := frame.fence)
    decreases |frames| - k
  {
    if k < |frames| {
      var (frame, created1) := RefreshFrame(frames[k], created);
      RefreshFresh(frames[k := frame], created1, k + 1, c, i);
    }
  }

  /**
   A rebuild that finds a swapchain: there are as many slots as before or as images, whichever is more, and the turn
   stays where it is. The swapchain, the views and present semaphores of all n images, and the acquire semaphores of
   all slots are newly made; of the old slots only the fences stay, and the lists, which only the current one's grow.
   */
  lemma RebuildReplaces(s: State, n: Count, i: nat)
    requires Inv(s) && s.swapchain.Some?
    ensures var s' := Rebuilt(s, n);
      && s'.frameIndex == s.frameIndex && s'.destroyed == s.destroyed
      && |s'.images| == n && |s'.frames| == (if n > |s.frames| then n else |s.frames|)
      && FreshSince(s'.swapchain, |s.created|)
      && (i < n ==> FreshSince(s'.images[i].view, |s.created|) && FreshSince(s'.images[i].semaphore, |s.created|))
      && (i < |s'.frames| ==> FreshSince(s'.frames[i].acquire, |s.created|))
      && (i < |s'.frames| && (i >= |s.frames| || s.frames[i].fence.None?) ==>
            FreshSince(s'.frames[i].fence, |s.created|))
      && (i < |s.frames| && i != s.frameIndex ==>
            && s'.frames[i].swapchains == s.frames[i].swapchains && s'.frames[i].semaphores == s.frames[i].semaphores
            && s'.frames[i].views == s.frames[i].views)
      && (i < |s.frames| ==> s'.frames[i].surfaces == s.frames[i].surfaces)
      && (|s.frames| <= i < |s'.frames| ==>
            s'.frames[i] == Frame(s'.frames[i].fence, s'.frames[i].acquire, [], [], [], []))
  {
    var c := |s.created|;
    var created0 := s.created + [SwapchainHandle(c)];
    var (images, created) := CreateImages([], created0, n);
    CreateImagesCount([], created0, n);
    if i < n {
      CreateImagesFresh([], created0, n, c, i);
    }
    RetiredToCurrentSlot(s);
    GrowCount(Retired(s), n);
    if i < |Grow(Retired(s), n)| {
      GrowKeeps(Retired(s), n, i);
      RefreshFresh(Grow(Retired(s), n), created, 0, c, i);
    }
  }

  /**
   Giving up puts the images' views and semaphores, the swapchain and the lost surface on the lists of the current
   slot, each behind what was there; no other slot changes, and all fences and acquire semaphores stay.
   */
  lemma SurrenderedToCurrentSlot(s: State, lost: bool)
    requires Inv(s) && s.frameIndex < |s.frames| && s.swapchain.Some?
    ensures var s', i := ForceDiscarded(s, lost), s.frameIndex;
      && s'.swapchain == None && s'.images == [] && s'.frameIndex == i && s'.destroyed == s.destroyed
      && |s'.frames| == |s.frames|
      && (forall j: nat | j < |s.frames| && j != i :: s'.frames[j] == s.frames[j])
      && s'.frames[i] == Frame(
           s.frames[i].fence, s.frames[i].acquire,
           s.frames[i].swapchains + [s.swapchain.value],
           s.frames[i].semaphores + PresentFrom(s.images, 0),
           s.frames[i].views + ViewsFrom(s.images, 0),
           if lost then s.frames[i].surfaces + [SurfaceHandle(|s.created|)] else s.frames[i].surfaces)
  {
    DiscardImagesAdds(s.frames[s.frameIndex], s.images, 0);
  }

  // ---------------------------------------------------------------- whose turn it is

  function Turns(k: nat): (turns: seq<Action>)
    ensures |turns| == k
  {
    seq(k, _ => NextFrame)
  }

  lemma RemainderIs(x: nat, q: nat, r: nat, n: nat)
    requires n > 0 && x == q * n + r && r < n
    ensures x % n == r
  {
    OneRemainder(x / n, x % n, q, r, n);
  }

  lemma OneTurn(x: nat, q: nat, r: nat, n: nat)
    requires n > 0 && x == q * n + r && r < n
    ensures (r + 1) % n == (x + 1) % n
  {
    if r + 1 == n {
      assert (q + 1) * n == q * n + n;
      RemainderIs(x + 1, q + 1, 0, n);
      RemainderIs(n, 1, 0, n);
    } else {
      RemainderIs(x + 1, q, r + 1, n);
      RemainderIs(r + 1, 0, r + 1, n);
    }
  }

  /** The slot whose turn it is k turns after slot i's, of n slots. */
  function After(i: nat, k: nat, n: nat): nat
    requires n > 0
  {
    (i + k) % n
  }

  lemma AfterOneMore(i: nat, k: nat, n: nat)
    requires n > 0
    ensures After(i, k + 1, n) == (After(i, k, n) + 1) % n
  {
    var x := i + k;
    OneTurn(x, x / n, x % n, n);
  }

  lemma AfterNone(i: nat, n: nat)
    requires i < n
    ensures After(i, 0, n) == i
  {
    RemainderIs(i, 0, i, n);
  }

  /** After k frames it is the turn of the k-th slot on, round the slots there are. */
  lemma {:induction false} TurnsGoRound(s: State, k: nat)
    requires Inv(s) && s.frames != []
    ensures Run(s, Turns(k)) == s.(frameIndex := After(s.frameIndex, k, |s.frames|))
    decreases k
  {
    if k == 0 {
      AfterNone(s.frameIndex, |s.frames|);
    } else {
      TurnsGoRound(s, k - 1);
      RunOneMore(s, Turns(k - 1), NextFrame);
      assert Turns(k) == Turns(k - 1) + [NextFrame];
      AfterOneMore(s.frameIndex, k - 1, |s.frames|);
    }
  }

  lemma {:induction false} RunOneMore(s: State, actions: seq<Action>, a: Action)
    requires Inv(s)
    ensures Inv(Run(s, actions)) && Run(s, actions + [a]) == Next(Run(s, actions), a)
    decreases |actions|
  {
    if actions == [] {
      NextInv(s, a);
      assert ([] + [a])[1..] == [] && Run(Next(s, a), []) == Next(s, a);
      assert actions + [a] == [a];
    } else {
      NextInv(s, actions[0]);
      RunOneMore(Next(s, actions[0]), actions[1..], a);
      assert (actions + [a])[1..] == actions[1..] + [a];
    }
  }

  // ---------------------------------------------------------------- each handle is destroyed as what it is

  ghost predicate ImageKinds(image: Image) {
    (image.view.Some? ==> image.view.value.ViewHandle?)
    && (image.semaphore.Some? ==> image.semaphore.value.SemaphoreHandle?)
  }

  ghost predicate FrameKinds(frame: Frame) {
    && (frame.fence.Some? ==> frame.fence.value.FenceHandle?)
    && (frame.acquire.Some? ==> frame.acquire.value.SemaphoreHandle?)
    && (forall h | h in frame.swapchains :: h.SwapchainHandle?)
    && (forall h | h in frame.semaphores :: h.SemaphoreHandle?)
    && (forall h | h in frame.views :: h.ViewHandle?)
    && (forall h | h in frame.surfaces :: h.SurfaceHandle?)
  }

  /** Every place holds handles of its own kind. */
  ghost predicate Kinds(s: State) {
    && (s.swapchain.Some? ==> s.swapchain.value.SwapchainHandle?)
    && AllImageKinds(s.images)
    && (forall i: nat | i < |s.frames| :: FrameKinds(s.frames[i]))
  }

  ghost predicate AllImageKinds(images: seq<Image>) {
    forall i: nat | i < |images| :: ImageKinds(images[i])
  }

  lemma {:induction false} CreateImagesKinds(images: seq<Image>, created: seq<Handle>, n: nat)
    requires AllImageKinds(images)
    ensures AllImageKinds(CreateImages(images, created, n).0)
    decreases n - |images|
  {
    if |images| < n {
      var k := |created|;
      CreateImagesKinds(images + [Image(Some(ViewHandle(k + 1)), Some(SemaphoreHandle(k)))],
                        created + [SemaphoreHandle(k), ViewHandle(k + 1)], n);
    }
  }

  lemma {:induction false} ViewKinds(images: seq<Image>, k: nat)
    requires k <= |images| && forall i: nat | i < |images| :: ImageKinds(images[i])
    requires forall i: nat | i < |images| :: images[i].view.Some? && images[i].semaphore.Some?
    ensures forall h | h in ViewsFrom(images, k) :: h.ViewHandle?
    ensures forall h | h in PresentFrom(images, k) :: h.SemaphoreHandle?
    decreases |images| - k
  {
    if k < |images| {
      ViewKinds(images, k + 1);
    }
  }

  lemma {:induction false} AcquireKinds(frames: seq<Frame>, k: nat)
    requires k <= |frames| && forall i: nat | i < |frames| :: FrameKinds(frames[i])
    ensures forall h | h in AcquiresFrom(frames, k) :: h.SemaphoreHandle?
    decreases |frames| - k
  {
    if k < |frames| {
      AcquireKinds(frames, k + 1);
      assert FrameKinds(frames[k]);
    }
  }

  lemma RetiredKinds(s: State, i: nat)
    requires Inv(s) && Kinds(s) && i < |s.frames|
    ensures |Retired(s)| == |s.frames| && FrameKinds(Retired(s)[i])
  {
    if s.images != [] {
      RetiredToCurrentSlot(s);
      ViewKinds(s.images, 0);
      AcquireKinds(s.frames, 0);
    }
  }

  /** What a refresh gives a slot is a semaphore and a fence. */
  lemma {:induction false} RefreshKinds(frames: seq<Frame>, created: seq<Handle>, k: nat, i: nat)
    requires k <= |frames| && i < |frames| && FrameKinds(frames[i])
    ensures FrameKinds(Refresh(frames, created, k).0[i])
    decreases |frames| - k
  {
    if k < |frames| {
      var (frame, created1) := RefreshFrame(frames[k], created);
      RefreshKinds(frames[k := frame], created1, k + 1, i);
    }
  }

  lemma RebuiltKinds(s: State, n: nat)
    requires Inv(s) && Kinds(s)
    ensures Kinds(Rebuilt(s, n))
  {
    var created0 := s.created + [SwapchainHandle(|s.created|)];
    var (images, created) := CreateImages([], created0, n);
    CreateImagesKinds([], created0, n);
    var frames := Grow(Retired(s), n);
    forall i: nat | i < |frames| ensures FrameKinds(Refresh(frames, created, 0).0[i]) {
      GrowKeeps(Retired(s), n, i);
      if i < |Retired(s)| {
        RetiredMoves(s, FenceHandle(0));
        RetiredKinds(s, i);
      }
      RefreshKinds(frames, created, 0, i);
    }
  }

  lemma ForceDiscardedKinds(s: State, lost: bool)
    requires Inv(s) && Kinds(s)
    ensures Kinds(ForceDiscarded(s, lost))
  {
    if s.frameIndex < |s.frames| {
      DiscardImagesAdds(s.frames[s.frameIndex], s.images, 0);
      ViewKinds(s.images, 0);
      assert FrameKinds(s.frames[s.frameIndex]);
    }
  }

  /** In every run every slot's list, and every other place, holds handles of its own kind only. */
  lemma {:induction false} RunKinds(s: State, actions: seq<Action>)
    requires Inv(s) && Kinds(s)
    ensures Kinds(Run(s, actions))
    decreases |actions|
  {
    if actions != [] {
      NextInv(s, actions[0]);
      match actions[0] {
        case Rebuild(images) => RebuiltKinds(s, images);
        case NextFrame =>
        case ForceDiscard(lost) => ForceDiscardedKinds(s, lost);
      }
      RunKinds(Next(s, actions[0]), actions[1..]);
    }
  }

  // ---------------------------------------------------------------- the order of destruction

  lemma {:induction false} BackwardsAt(handles: seq<Handle>, i: nat)
    requires i < |handles|
    ensures |Backwards(handles)| == |handles| && Backwards(handles)[i] == handles[|handles| - 1 - i]
    decreases |handles|
  {
    if |handles| > 1 {
      BackwardsAt(handles[..|handles| - 1], if i == 0 then 0 else i - 1);
    } else {
      assert handles[..0] == [];
    }
  }

  lemma {:induction false} BackwardsHas(handles: seq<Handle>, h: Handle)
    ensures h in Backwards(handles) <==> h in handles
  {
    if handles != [] {
      var last, most := handles[|handles| - 1], handles[..|handles| - 1];
      BackwardsHas(most, h);
      assert handles == most + [last];
    }
  }

  /** All swapchains are destroyed before any surface. */
  ghost predicate SwapchainsFirst(destroyed: seq<Handle>) {
    forall i: nat, j: nat | i < |destroyed| && j < |destroyed|
      && destroyed[i].SwapchainHandle? && destroyed[j].SurfaceHandle? :: i < j
  }

  /** What the destruction of one slot adds, in order. */
  function SlotReleases(frame: Frame): seq<Handle> {
    ReleaseFrame([], frame)
  }

  lemma Join(a: seq<Handle>, b: seq<Handle>, c: seq<Handle>)
    ensures a + b + c == a + (b + c)
  {
  }

  lemma ReleaseFrameAppends(destroyed: seq<Handle>, frame: Frame)
    ensures ReleaseFrame(destroyed, frame) == destroyed + SlotReleases(frame)
  {
    var r2 := ReleasedOne(frame.fence) + ReleasedOne(frame.acquire);
    var r3 := r2 + Backwards(frame.swapchains);
    var r4 := r3 + Backwards(frame.surfaces);
    var r5 := r4 + Backwards(frame.semaphores);
    Join(destroyed, ReleasedOne(frame.fence), ReleasedOne(frame.acquire));
    Join(destroyed, r2, Backwards(frame.swapchains));
    Join(destroyed, r3, Backwards(frame.surfaces));
    Join(destroyed, r4, Backwards(frame.semaphores));
    Join(destroyed, r5, Backwards(frame.views));
    assert [] + ReleasedOne(frame.fence) == ReleasedOne(frame.fence);
  }

  /** How many handles a slot's destruction destroys before the first retired swapchain. */
  function ReleasedBefore(frame: Frame): nat {
    |ReleasedOne(frame.fence)| + |ReleasedOne(frame.acquire)|
  }

  lemma SwapchainsFirstConcat(a: seq<Handle>, b: seq<Handle>)
    requires (forall h | h in a :: !h.SurfaceHandle?) && (forall h | h in b :: !h.SwapchainHandle?)
    ensures SwapchainsFirst(a + b)
  {
    var all := a + b;
    forall i: nat | |a| <= i < |all| ensures !all[i].SwapchainHandle? {
      assert all[i] == b[i - |a|];
    }
    forall j: nat | j < |a| ensures !all[j].SurfaceHandle? {
      assert all[j] == a[j];
    }
  }

  lemma SlotOrder(frame: Frame)
    requires FrameKinds(frame)
    ensures SwapchainsFirst(SlotReleases(frame))
  {
    var before := ReleasedOne(frame.fence) + ReleasedOne(frame.acquire) + Backwards(frame.swapchains);
    var after := Backwards(frame.surfaces) + Backwards(frame.semaphores) + Backwards(frame.views);
    forall h: Handle | h in before ensures !h.SurfaceHandle? {
      BackwardsHas(frame.swapchains, h);
    }
    forall h: Handle | h in after ensures !h.SwapchainHandle? {
      BackwardsHas(frame.surfaces, h);
      BackwardsHas(frame.semaphores, h);
      BackwardsHas(frame.views, h);
    }
    SwapchainsFirstConcat(before, after);
    SlotReleasesSplit(frame, before, after);
  }

  lemma SlotReleasesSplit(frame: Frame, before: seq<Handle>, after: seq<Handle>)
    requires before == ReleasedOne(frame.fence) + ReleasedOne(frame.acquire) + Backwards(frame.swapchains)
    requires after == Backwards(frame.surfaces) + Backwards(frame.semaphores) + Backwards(frame.views)
    ensures SlotReleases(frame) == before + after
  {
  }

  lemma NewestFirst(frame: Frame, k: nat)
    requires k < |frame.swapchains|
    ensures ReleasedBefore(frame) + k < |SlotReleases(frame)|
    ensures SlotReleases(frame)[ReleasedBefore(frame) + k] == frame.swapchains[|frame.swapchains| - 1 - k]
  {
    BackwardsAt(frame.swapchains, k);
    var first := ReleasedOne(frame.fence) + ReleasedOne(frame.acquire);
    var before := first + Backwards(frame.swapchains);
    var after := Backwards(frame.surfaces) + Backwards(frame.semaphores) + Backwards(frame.views);
    SlotReleasesSplit(frame, before, after);
    assert before[|first| + k] == Backwards(frame.swapchains)[k];
  }

  /**
   In any run the destruction of a slot destroys its retired swapchains, the newest first, before the surfaces they
   were made for.
   */
  lemma SurfacesLast(images: Count, actions: seq<Action>, i: nat, k: nat, destroyed: seq<Handle>)
    ensures Inv(NOTHING)
    ensures var s := Run(NOTHING, [Rebuild(images)] + actions);
      i < |s.frames| ==>
        var frame := s.frames[i];
        var releases, n := SlotReleases(frame), |frame.swapchains|;
        && ReleaseFrame(destroyed, frame) == destroyed + releases
        && SwapchainsFirst(releases)
        && (k < n ==>
              ReleasedBefore(frame) + k < |releases|
              && releases[ReleasedBefore(frame) + k] == frame.swapchains[n - 1 - k])
  {
    NothingInv();
    RunKinds(NOTHING, [Rebuild(images)] + actions);
    var s := Run(NOTHING, [Rebuild(images)] + actions);
    if i < |s.frames| {
      SlotOrder(s.frames[i]);
      ReleaseFrameAppends(destroyed, s.frames[i]);
      if k < |s.frames[i].swapchains| {
        NewestFirst(s.frames[i], k);
      }
    }
  }
}
