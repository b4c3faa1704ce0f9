/**
 Rebuilding the swapchain: which Vulkan handles are created, moved to a discard list, and destroyed.

 Handles are numbered in the order in which the object comes by them. A rebuild moves the views and semaphores of
 the old images, the acquire semaphores of all slots and the old swapchain to the discard lists of the current
 slot, and creates new ones. When the surface is lost the images, the swapchain and the surface itself go to the
 lists and nothing takes their place. Nothing is destroyed before the destructor.
 */
module Swapchain {
  import opened Wrappers

  datatype Handle =
    | SwapchainHandle(id: nat) | ViewHandle(id: nat) | SemaphoreHandle(id: nat) | FenceHandle(id: nat)
    | SurfaceHandle(id: nat)

  /** A presentable image: its view and present semaphore. */
  datatype Image = Image(view: Option<Handle>, semaphore: Option<Handle>)

  /** A slot: its fence, its acquire semaphore, and its discard lists. */
  datatype Frame = Frame(
    fence: Option<Handle>, acquire: Option<Handle>,
    swapchains: seq<Handle>, semaphores: seq<Handle>, views: seq<Handle>, surfaces: seq<Handle>)

  const NEW_FRAME := Frame(None, None, [], [], [], [])

  datatype State = State(
    swapchain: Option<Handle>, images: seq<Image>, frames: seq<Frame>, frameIndex: nat,
    created: seq<Handle>, destroyed: seq<Handle>)

  const NOTHING := State(None, [], [], 0, [], [])

  // ---------------------------------------------------------------- counting handles

  ghost function Times(handles: seq<Handle>, h: Handle): nat {
    multiset(handles)[h]
  }

  lemma TimesConcat(a: seq<Handle>, b: seq<Handle>, h: Handle)
    ensures Times(a + b, h) == Times(a, h) + Times(b, h)
  {
  }

  lemma TimesMore(a: seq<Handle>, x: Handle, h: Handle)
    ensures Times(a + [x], h) == Times(a, h) + One(Some(x), h)
  {
  }

  function One(maybe: Option<Handle>, h: Handle): nat {
    if maybe == Some(h) then 1 else 0
  }

  ghost function InImage(image: Image, h: Handle): nat {
    One(image.view, h) + One(image.semaphore, h)
  }

  ghost function InImages(images: seq<Image>, h: Handle): nat {
    if images == [] then 0 else InImage(images[0], h) + InImages(images[1..], h)
  }

  ghost function InFrame(frame: Frame, h: Handle): nat {
    One(frame.fence, h) + One(frame.acquire, h)
    + Times(frame.swapchains, h) + Times(frame.semaphores, h) + Times(frame.views, h) + Times(frame.surfaces, h)
  }

  ghost function InFrames(frames: seq<Frame>, h: Handle): nat {
    if frames == [] then 0 else InFrame(frames[0], h) + InFrames(frames[1..], h)
  }

  /** In how many places handle h is. */
  ghost function Held(s: State, h: Handle): nat {
    One(s.swapchain, h) + InImages(s.images, h) + InFrames(s.frames, h) + Times(s.destroyed, h)
  }

  lemma {:induction false} FrameUpdate(frames: seq<Frame>, i: nat, frame: Frame, h: Handle)
    requires i < |frames|
    ensures InFrames(frames[i := frame], h) + InFrame(frames[i], h) == InFrames(frames, h) + InFrame(frame, h)
  {
    if i == 0 {
      assert frames[0 := frame][1..] == frames[1..];
    } else {
      assert frames[i := frame][1..] == frames[1..][i - 1 := frame];
      FrameUpdate(frames[1..], i - 1, frame, h);
    }
  }

  lemma {:induction false} FrameAppend(frames: seq<Frame>, frame: Frame, h: Handle)
    ensures InFrames(frames + [frame], h) == InFrames(frames, h) + InFrame(frame, h)
  {
    if frames != [] {
      assert (frames + [frame])[1..] == frames[1..] + [frame];
      FrameAppend(frames[1..], frame, h);
    }
  }

  lemma {:induction false} ImageAppend(images: seq<Image>, image: Image, h: Handle)
    ensures InImages(images + [image], h) == InImages(images, h) + InImage(image, h)
  {
    if images != [] {
      assert (images + [image])[1..] == images[1..] + [image];
      ImageAppend(images[1..], image, h);
    }
  }

  // ---------------------------------------------------------------- the pieces of a rebuild

  /** The views and semaphores of images k and up go to the discard lists. */
  function DiscardImages(frame: Frame, images: seq<Image>, k: nat): Frame
    requires k <= |images|
    requires forall i: nat | i < |images| :: images[i].view.Some? && images[i].semaphore.Some?
    decreases |images| - k
  {
    if k == |images| then frame
    else
      DiscardImages(frame.(semaphores := frame.semaphores + [images[k].semaphore.value],
                           views := frame.views + [images[k].view.value]), images, k + 1)
  }

  /** Images k up to n get a semaphore and a view each. */
  function CreateImages(images: seq<Image>, created: seq<Handle>, n: nat): (seq<Image>, seq<Handle>)
    decreases n - |images|
  {
    if |images| >= n then (images, created)
    else
      var c := |created|;
      CreateImages(images + [Image(Some(ViewHandle(c + 1)), Some(SemaphoreHandle(c)))],
                   created + [SemaphoreHandle(c), ViewHandle(c + 1)], n)
  }

  /** The acquire semaphores of slots k and up go to the discard list of slot `into`. */
  function DiscardAcquires(frames: seq<Frame>, into: nat, k: nat): (r: seq<Frame>)
    requires into < |frames| && k <= |frames|
    ensures |r| == |frames|
    decreases |frames| - k
  {
    if k == |frames| then frames
    else DiscardAcquires(DiscardAcquire(frames, into, k), into, k + 1)
  }

  function DiscardAcquire(frames: seq<Frame>, into: nat, k: nat): (r: seq<Frame>)
    requires into < |frames| && k < |frames|
    ensures |r| == |frames|
  {
    if frames[k].acquire.None? then frames
    else
      var moved := frames[into := frames[into].(semaphores := frames[into].semaphores + [frames[k].acquire.value])];
      moved[k := moved[k].(acquire := None)]
  }

  /** Slots are added until there are as many as images. */
  function Grow(frames: seq<Frame>, n: nat): (r: seq<Frame>)
    ensures |frames| <= |r| && n <= |r|
    decreases n - |frames|
  {
    if |frames| >= n then frames else Grow(frames + [NEW_FRAME], n)
  }

  /** Slots k and up that lack an acquire semaphore or a fence get a new one. */
  function Refresh(frames: seq<Frame>, created: seq<Handle>, k: nat): (r: (seq<Frame>, seq<Handle>))
    requires k <= |frames|
    ensures |r.0| == |frames|
    decreases |frames| - k
  {
    if k == |frames| then (frames, created)
    else
      var (frame, created') := RefreshFrame(frames[k], created);
      Refresh(frames[k := frame], created', k + 1)
  }

  function RefreshFrame(frame: Frame, created: seq<Handle>): (Frame, seq<Handle>) {
    var (frame1, created1) :=
      if frame.acquire.None? then
        (frame.(acquire := Some(SemaphoreHandle(|created|))), created + [SemaphoreHandle(|created|)])
      else (frame, created);
    if frame1.fence.None? then
      (frame1.(fence := Some(FenceHandle(|created1|))), created1 + [FenceHandle(|created1|)])
    else (frame1, created1)
  }

  /** The old images, the acquire semaphores and the old swapchain on the discard lists of the current slot. */
  function Retired(s: State): seq<Frame>
    requires Shape(s)
  {
    if s.images == [] then s.frames
    else
      var i := s.frameIndex;
      var frames := DiscardAcquires(s.frames[i := DiscardImages(s.frames[i], s.images, 0)], i, 0);
      if s.swapchain.Some? then frames[i := frames[i].(swapchains := frames[i].swapchains + [s.swapchain.value])]
      else frames
  }

  /** A rebuild, after which the swapchain has n images. */
  function Rebuilt(s: State, n: nat): State
    requires Shape(s)
  {
    var swapchain := SwapchainHandle(|s.created|);
    var (images, created) := CreateImages([], s.created + [swapchain], n);
    var (frames, created') := Refresh(Grow(Retired(s), n), created, 0);
    s.(swapchain := Some(swapchain), images := images, frames := frames, created := created')
  }

  /** The current slot with the images' handles, the swapchain and the lost surface on its lists. */
  function Surrendered(frame: Frame, s: State, lost: bool): Frame
    requires Shape(s)
  {
    var keeper := DiscardImages(frame, s.images, 0);
    if s.swapchain.None? then keeper
    else
      var keeper' := keeper.(swapchains := keeper.swapchains + [s.swapchain.value]);
      if lost then keeper'.(surfaces := keeper'.surfaces + [SurfaceHandle(|s.created|)]) else keeper'
  }

  /** Everything that depends on the surface is given up; `lost` says whether the surface is handed over too. */
  function ForceDiscarded(s: State, lost: bool): State
    requires Shape(s)
  {
    if s.frameIndex >= |s.frames| then s
    else
      s.(frames := s.frames[s.frameIndex := Surrendered(s.frames[s.frameIndex], s, lost)],
         images := [], swapchain := None,
         created := s.created + if s.swapchain.Some? && lost then [SurfaceHandle(|s.created|)] else [])
  }

  /** What a rebuild finds: whole images, and if there are any, a swapchain and a current slot. */
  ghost predicate Shape(s: State) {
    && (forall i: nat | i < |s.images| :: s.images[i].view.Some? && s.images[i].semaphore.Some?)
    && (s.images != [] ==> s.frameIndex < |s.frames|)
  }

  // ---------------------------------------------------------------- conservation

  /** Every handle ever created is in exactly one place, and no other handle is anywhere. */
  ghost predicate Conserved(s: State) {
    && Numbered(s.created)
    && forall h: Handle :: Held(s, h) == Times(s.created, h)
  }

  ghost predicate Inv(s: State) {
    && Conserved(s) && Shape(s) && (s.images != [] <==> s.swapchain.Some?)
    && (if s.frames == [] then s.frameIndex == 0 else s.frameIndex < |s.frames|)
  }

  lemma {:induction false} DiscardImagesMoves(frame: Frame, images: seq<Image>, k: nat, h: Handle)
    requires k <= |images|
    requires forall i: nat | i < |images| :: images[i].view.Some? && images[i].semaphore.Some?
    ensures InFrame(DiscardImages(frame, images, k), h) == InFrame(frame, h) + InImages(images[k..], h)
    decreases |images| - k
  {
    if k < |images| {
      var view, semaphore := images[k].view.value, images[k].semaphore.value;
      TimesMore(frame.views, view, h);
      TimesMore(frame.semaphores, semaphore, h);
      var taker := frame.(semaphores := frame.semaphores + [semaphore], views := frame.views + [view]);
      DiscardImagesMoves(taker, images, k + 1, h);
      assert images[k..][1..] == images[k + 1..];
    }
  }

  /** Every created handle is the one its place in the order of creation names. */
  ghost predicate Numbered(created: seq<Handle>) {
    forall i: nat | i < |created| :: created[i].id == i
  }

  lemma {:induction false} CreateImagesAdds(images: seq<Image>, created: seq<Handle>, n: nat, h: Handle)
    requires Numbered(created)
    requires forall i: nat | i < |images| :: images[i].view.Some? && images[i].semaphore.Some?
    ensures var (images', created') := CreateImages(images, created, n);
      && Numbered(created')
      && InImages(images', h) + Times(created, h) == InImages(images, h) + Times(created', h)
      && |images'| == (if |images| < n then n else |images|)
      && (forall i: nat | i < |images'| :: images'[i].view.Some? && images'[i].semaphore.Some?)
    decreases n - |images|
  {
    if |images| < n {
      var c := |created|;
      var image := Image(Some(ViewHandle(c + 1)), Some(SemaphoreHandle(c)));
      ImageAppend(images, image, h);
      assert created + [SemaphoreHandle(c), ViewHandle(c + 1)] == created + [SemaphoreHandle(c)] + [ViewHandle(c + 1)];
      TimesMore(created, SemaphoreHandle(c), h);
      TimesMore(created + [SemaphoreHandle(c)], ViewHandle(c + 1), h);
      CreateImagesAdds(images + [image], created + [SemaphoreHandle(c), ViewHandle(c + 1)], n, h);
    }
  }

  lemma DiscardAcquireMoves(frames: seq<Frame>, into: nat, k: nat, h: Handle)
    requires into < |frames| && k < |frames|
    ensures InFrames(DiscardAcquire(frames, into, k), h) == InFrames(frames, h)
  {
    if frames[k].acquire.Some? {
      var taker := frames[into].(semaphores := frames[into].semaphores + [frames[k].acquire.value]);
      FrameUpdate(frames, into, taker, h);
      TimesMore(frames[into].semaphores, frames[k].acquire.value, h);
      var moved := frames[into := taker];
      FrameUpdate(moved, k, moved[k].(acquire := None), h);
    }
  }

  lemma {:induction false} DiscardAcquiresMoves(frames: seq<Frame>, into: nat, k: nat, h: Handle)
    requires into < |frames| && k <= |frames|
    ensures InFrames(DiscardAcquires(frames, into, k), h) == InFrames(frames, h)
    decreases |frames| - k
  {
    if k < |frames| {
      DiscardAcquireMoves(frames, into, k, h);
      DiscardAcquiresMoves(DiscardAcquire(frames, into, k), into, k + 1, h);
    }
  }

  lemma {:induction false} GrowAdds(frames: seq<Frame>, n: nat, h: Handle)
    ensures InFrames(Grow(frames, n), h) == InFrames(frames, h)
    decreases n - |frames|
  {
    if |frames| < n {
      FrameAppend(frames, NEW_FRAME, h);
      GrowAdds(frames + [NEW_FRAME], n, h);
    }
  }

  lemma RefreshFrameAdds(frame: Frame, created: seq<Handle>, h: Handle)
    requires Numbered(created)
    ensures var (frame', created') := RefreshFrame(frame, created);
      && Numbered(created')
      && InFrame(frame', h) + Times(created, h) == InFrame(frame, h) + Times(created', h)
  {
    var (frame', created') := RefreshFrame(frame, created);
    TimesMore(created, SemaphoreHandle(|created|), h);
    TimesMore(created, FenceHandle(|created|), h);
    TimesMore(created + [SemaphoreHandle(|created|)], FenceHandle(|created| + 1), h);
  }

  lemma {:induction false} RefreshAdds(frames: seq<Frame>, created: seq<Handle>, k: nat, h: Handle)
    requires k <= |frames| && Numbered(created)
    ensures var (frames', created') := Refresh(frames, created, k);
      && Numbered(created')
      && InFrames(frames', h) + Times(created, h) == InFrames(frames, h) + Times(created', h)
    decreases |frames| - k
  {
    if k < |frames| {
      var (frame, created1) := RefreshFrame(frames[k], created);
      RefreshFrameAdds(frames[k], created, h);
      FrameUpdate(frames, k, frame, h);
      RefreshAdds(frames[k := frame], created1, k + 1, h);
    }
  }

  /** Retiring moves the images and the swapchain to the slots' lists, if there are images at all. */
  lemma RetiredMoves(s: State, h: Handle)
    requires Shape(s)
    ensures s.images != [] ==>
      InFrames(Retired(s), h) == InFrames(s.frames, h) + InImages(s.images, h) + One(s.swapchain, h)
    ensures |Retired(s)| == |s.frames|
  {
    if s.images != [] {
      var i := s.frameIndex;
      var keeper := DiscardImages(s.frames[i], s.images, 0);
      DiscardImagesMoves(s.frames[i], s.images, 0, h);
      assert s.images[0..] == s.images;
      FrameUpdate(s.frames, i, keeper, h);
      DiscardAcquiresMoves(s.frames[i := keeper], i, 0, h);
      var frames := DiscardAcquires(s.frames[i := keeper], i, 0);
      if s.swapchain.Some? {
        var last := frames[i].(swapchains := frames[i].swapchains + [s.swapchain.value]);
        FrameUpdate(frames, i, last, h);
        TimesMore(frames[i].swapchains, s.swapchain.value, h);
      }
    }
  }

  /** What a rebuild does to the count of each handle. */
  lemma RebuiltHolds(s: State, n: nat, h: Handle)
    requires Numbered(s.created) && Shape(s) && Held(s, h) == Times(s.created, h)
    ensures var s' := Rebuilt(s, n);
      && Numbered(s'.created)
      && Held(s', h) + (if s.images == [] then One(s.swapchain, h) else 0) == Times(s'.created, h)
      && |s'.images| == n <= |s'.frames| && |s.frames| <= |s'.frames|
      && (forall i: nat | i < n :: s'.images[i].view.Some? && s'.images[i].semaphore.Some?)
  {
    var swapchain := SwapchainHandle(|s.created|);
    var (images, created) := CreateImages([], s.created + [swapchain], n);
    TimesMore(s.created, swapchain, h);
    CreateImagesAdds([], s.created + [swapchain], n, h);
    RetiredMoves(s, h);
    GrowAdds(Retired(s), n, h);
    RefreshAdds(Grow(Retired(s), n), created, 0, h);
  }

  /**
   A rebuild loses nothing and duplicates nothing, whatever the new number of images, exactly when it finds
   images to retire or no swapchain: without images there is no slot to put the old swapchain on.
   */
  lemma RebuiltConservesExactly(s: State, n: nat)
    requires Conserved(s) && Shape(s)
    ensures Conserved(Rebuilt(s, n)) <==> s.images != [] || s.swapchain.None?
  {
    forall h: Handle
      ensures Held(Rebuilt(s, n), h) + (if s.images == [] then One(s.swapchain, h) else 0)
              == Times(Rebuilt(s, n).created, h)
    {
      RebuiltHolds(s, n, h);
    }
    RebuiltHolds(s, n, FenceHandle(0));
    if s.images == [] && s.swapchain.Some? {
      var h := s.swapchain.value;
      assert Held(Rebuilt(s, n), h) + 1 == Times(Rebuilt(s, n).created, h);
    }
  }

  // ---------------------------------------------------------------- where the retired handles go

  function ViewsFrom(images: seq<Image>, k: nat): seq<Handle>
    requires k <= |images|
    requires forall i: nat | i < |images| :: images[i].view.Some? && images[i].semaphore.Some?
    decreases |images| - k
  {
    if k == |images| then [] else [images[k].view.value] + ViewsFrom(images, k + 1)
  }

  function PresentFrom(images: seq<Image>, k: nat): seq<Handle>
    requires k <= |images|
    requires forall i: nat | i < |images| :: images[i].view.Some? && images[i].semaphore.Some?
    decreases |images| - k
  {
    if k == |images| then [] else [images[k].semaphore.value] + PresentFrom(images, k + 1)
  }

  function AcquiresFrom(frames: seq<Frame>, k: nat): seq<Handle>
    requires k <= |frames|
    decreases |frames| - k
  {
    if k == |frames| then []
    else (if frames[k].acquire.Some? then [frames[k].acquire.value] else []) + AcquiresFrom(frames, k + 1)
  }

  lemma Reassociate(a: seq<Handle>, x: Handle, b: seq<Handle>)
    ensures a + [x] + b == a + ([x] + b)
  {
  }

  lemma {:induction false} DiscardImagesAdds(frame: Frame, images: seq<Image>, k: nat)
    requires k <= |images|
    requires forall i: nat | i < |images| :: images[i].view.Some? && images[i].semaphore.Some?
    ensures DiscardImages(frame, images, k) ==
      frame.(semaphores := frame.semaphores + PresentFrom(images, k), views := frame.views + ViewsFrom(images, k))
    decreases |images| - k
  {
    if k < |images| {
      var view, semaphore := images[k].view.value, images[k].semaphore.value;
      var taker := frame.(semaphores := frame.semaphores + [semaphore], views := frame.views + [view]);
      DiscardImagesAdds(taker, images, k + 1);
      Reassociate(frame.views, view, ViewsFrom(images, k + 1));
      Reassociate(frame.semaphores, semaphore, PresentFrom(images, k + 1));
    } else {
      assert frame.views + [] == frame.views && frame.semaphores + [] == frame.semaphores;
    }
  }

  lemma AcquiresUnchanged(frames: seq<Frame>, changed: seq<Frame>, k: nat)
    requires k <= |frames| == |changed|
    requires forall i: nat | k <= i < |frames| :: changed[i].acquire == frames[i].acquire
    ensures AcquiresFrom(changed, k) == AcquiresFrom(frames, k)
    decreases |frames| - k
  {
  }

  lemma DiscardAcquireElsewhere(frames: seq<Frame>, into: nat, k: nat, i: nat)
    requires into < |frames| && k < |frames| && i < |frames|
    ensures var r := DiscardAcquire(frames, into, k)[i];
      && r.acquire == (if i == k then None else frames[i].acquire)
      && (i != into ==> r == frames[i].(acquire := r.acquire))
      && r == frames[i].(acquire := r.acquire, semaphores := r.semaphores)
  {
  }

  /** Every other slot only loses its acquire semaphore. */
  lemma {:induction false} OtherSlotsKeep(frames: seq<Frame>, into: nat, k: nat, i: nat)
    requires into < |frames| && k <= |frames| && i < |frames| && i != into
    ensures DiscardAcquires(frames, into, k)[i] == frames[i].(acquire := if i < k then frames[i].acquire else None)
    decreases |frames| - k
  {
    if k < |frames| {
      DiscardAcquireElsewhere(frames, into, k, i);
      OtherSlotsKeep(DiscardAcquire(frames, into, k), into, k + 1, i);
    }
  }

  lemma DiscardAcquireTakes(frames: seq<Frame>, into: nat, k: nat)
    requires into < |frames| && k < |frames|
    ensures DiscardAcquire(frames, into, k)[into].semaphores + AcquiresFrom(frames, k + 1)
         == frames[into].semaphores + AcquiresFrom(frames, k)
  {
    if frames[k].acquire.Some? {
      assert frames[into].semaphores + [frames[k].acquire.value] + AcquiresFrom(frames, k + 1)
          == frames[into].semaphores + AcquiresFrom(frames, k);
    } else {
      assert AcquiresFrom(frames, k) == AcquiresFrom(frames, k + 1);
    }
  }

  /** The one slot collects them all, in order. */
  lemma {:induction false} SlotCollects(frames: seq<Frame>, into: nat, k: nat)
    requires into < |frames| && k <= |frames|
    ensures var r := DiscardAcquires(frames, into, k)[into];
      && r.semaphores == frames[into].semaphores + AcquiresFrom(frames, k)
      && r == frames[into].(acquire := if into < k then frames[into].acquire else None, semaphores := r.semaphores)
    decreases |frames| - k
  {
    if k < |frames| {
      var changed := DiscardAcquire(frames, into, k);
      forall j: nat | k + 1 <= j < |frames| ensures changed[j].acquire == frames[j].acquire {
        DiscardAcquireElsewhere(frames, into, k, j);
      }
      AcquiresUnchanged(frames, changed, k + 1);
      SlotCollects(changed, into, k + 1);
      DiscardAcquireTakes(frames, into, k);
      DiscardAcquireElsewhere(frames, into, k, into);
    }
  }

  /**
   A rebuild puts what it retires on the lists of the current slot and nowhere else: the views and present
   semaphores of all images, the acquire semaphores of all slots, and the swapchain, each behind what was
   there. Fences stay where they are.
   */
  lemma RetiredToCurrentSlot(s: State)
    requires Shape(s) && s.images != [] && s.swapchain.Some?
    ensures var r := Retired(s);
      && |r| == |s.frames|
      && (forall i: nat | i < |r| && i != s.frameIndex :: r[i] == s.frames[i].(acquire := None))
      && r[s.frameIndex] == s.frames[s.frameIndex].(acquire := None,
           swapchains := s.frames[s.frameIndex].swapchains + [s.swapchain.value],
           semaphores := s.frames[s.frameIndex].semaphores + PresentFrom(s.images, 0) + AcquiresFrom(s.frames, 0),
           views := s.frames[s.frameIndex].views + ViewsFrom(s.images, 0))
  {
    var i := s.frameIndex;
    DiscardImagesAdds(s.frames[i], s.images, 0);
    var frames := s.frames[i := DiscardImages(s.frames[i], s.images, 0)];
    AcquiresUnchanged(s.frames, frames, 0);
    SlotCollects(frames, i, 0);
    forall j: nat | j < |frames| && j != i ensures Retired(s)[j] == s.frames[j].(acquire := None) {
      OtherSlotsKeep(frames, i, 0, j);
    }
  }

  lemma {:induction false} GrowKeeps(frames: seq<Frame>, n: nat, i: nat)
    requires i < |Grow(frames, n)|
    ensures Grow(frames, n)[i] == if i < |frames| then frames[i] else NEW_FRAME
    decreases n - |frames|
  {
    if |frames| < n {
      GrowKeeps(frames + [NEW_FRAME], n, i);
    }
  }

  lemma {:induction false} RefreshCompletes(frames: seq<Frame>, created: seq<Handle>, k: nat, i: nat)
    requires k <= |frames| && i < |frames|
    ensures var r := Refresh(frames, created, k).0[i];
      && (i >= k ==> r.fence.Some? && r.acquire.Some?)
      && (i < k ==> r == frames[i])
      && (frames[i].fence.Some? ==> r.fence == frames[i].fence)
    decreases |frames| - k
  {
    if k < |frames| {
      var (frame, created1) := RefreshFrame(frames[k], created);
      RefreshCompletes(frames[k := frame], created1, k + 1, i);
    }
  }

  /**
   After a rebuild every slot has a fence and an acquire semaphore, and a slot that had a fence still has the
   same one: it may be attached to a submission in flight.
   */
  lemma SlotsComplete(s: State, n: nat, i: nat)
    requires Inv(s) && i < |Rebuilt(s, n).frames|
    ensures var frame := Rebuilt(s, n).frames[i];
      && frame.fence.Some? && frame.acquire.Some?
      && (i < |s.frames| && s.frames[i].fence.Some? ==> frame.fence == s.frames[i].fence)
  {
    var (images, created) := CreateImages([], s.created + [SwapchainHandle(|s.created|)], n);
    RefreshCompletes(Grow(Retired(s), n), created, 0, i);
    GrowKeeps(Retired(s), n, i);
    if s.images != [] {
      RetiredToCurrentSlot(s);
    }
  }

  lemma RebuiltInv(s: State, n: nat)
    requires Inv(s) && n >= 1
    ensures Inv(Rebuilt(s, n))
  {
    RebuiltConservesExactly(s, n);
    RebuiltHolds(s, n, FenceHandle(0));
  }

  lemma SurrenderedHolds(s: State, lost: bool, h: Handle)
    requires Shape(s) && s.frameIndex < |s.frames|
    ensures var i := s.frameIndex;
      var surface := if s.swapchain.Some? && lost then 1 else 0;
      InFrame(Surrendered(s.frames[i], s, lost), h) == InFrame(s.frames[i], h) + InImages(s.images, h)
        + One(s.swapchain, h) + (if h == SurfaceHandle(|s.created|) then surface else 0)
  {
    var frame := s.frames[s.frameIndex];
    DiscardImagesMoves(frame, s.images, 0, h);
    assert s.images[0..] == s.images;
    if s.swapchain.Some? {
      var keeper := DiscardImages(frame, s.images, 0);
      TimesMore(keeper.swapchains, s.swapchain.value, h);
      TimesMore(keeper.surfaces, SurfaceHandle(|s.created|), h);
    }
  }

  /** Giving up for a lost surface loses no handle either. */
  lemma ForceDiscardedInv(s: State, lost: bool)
    requires Inv(s)
    ensures Inv(ForceDiscarded(s, lost))
  {
    if s.frameIndex < |s.frames| {
      var s' := ForceDiscarded(s, lost);
      var frame := Surrendered(s.frames[s.frameIndex], s, lost);
      forall h: Handle ensures Held(s', h) == Times(s'.created, h) {
        assert Held(s, h) == Times(s.created, h);
        SurrenderedHolds(s, lost, h);
        FrameUpdate(s.frames, s.frameIndex, frame, h);
        if s.swapchain.Some? && lost {
          TimesMore(s.created, SurfaceHandle(|s.created|), h);
        } else {
          assert s.created + [] == s.created;
        }
      }
      assert Numbered(s'.created);
    }
  }

  // ---------------------------------------------------------------- every run

  /** Vulkan creates at least one image. */
  type Count = n: nat | n >= 1 witness 1

  datatype Action = Rebuild(images: Count) | NextFrame | ForceDiscard(lost: bool)

  function Next(s: State, a: Action): State
    requires Shape(s)
  {
    match a
    case Rebuild(images) => Rebuilt(s, images)
    case NextFrame => if s.frames == [] then s else s.(frameIndex := (s.frameIndex + 1) % |s.frames|)
    case ForceDiscard(lost) => ForceDiscarded(s, lost)
  }

  lemma NextInv(s: State, a: Action)
    requires Inv(s)
    ensures Inv(Next(s, a)) && |s.frames| <= |Next(s, a).frames|
  {
    match a
    case Rebuild(images) =>
      RebuiltInv(s, images);
      RebuiltHolds(s, images, FenceHandle(0));
    case NextFrame =>
      forall h: Handle ensures Held(Next(s, a), h) == Times(s.created, h) {
        assert Held(s, h) == Times(s.created, h);
      }
    case ForceDiscard(lost) => ForceDiscardedInv(s, lost);
  }

  ghost function Run(s: State, actions: seq<Action>): State
    requires Inv(s)
    decreases |actions|
  {
    if actions == [] then s
    else
      NextInv(s, actions[0]);
      Run(Next(s, actions[0]), actions[1..])
  }

  lemma {:induction false} RunInv(s: State, actions: seq<Action>)
    requires Inv(s)
    ensures Inv(Run(s, actions))
    decreases |actions|
  {
    if actions != [] {
      NextInv(s, actions[0]);
      RunInv(Next(s, actions[0]), actions[1..]);
    }
  }

  lemma {:induction false} NumberedOnce(created: seq<Handle>, h: Handle)
    requires Numbered(created)
    ensures Times(created, h) <= 1
  {
    if created != [] {
      var most := created[..|created| - 1];
      assert created == most + [created[|created| - 1]];
      TimesMore(most, created[|created| - 1], h);
      NumberedOnce(most, h);
    }
  }

  lemma NothingInv()
    ensures Inv(NOTHING)
  {
    forall h: Handle ensures Held(NOTHING, h) == Times([], h) {
    }
  }

  /**
   After the constructor and any number of rebuilds, with any image counts, of frames and of lost surfaces, every
   handle is in exactly one place, nothing has been destroyed, and the frame index is in range.
   */
  lemma HandlesConserved(images: Count, actions: seq<Action>, h: Handle)
    ensures Inv(NOTHING)
    ensures var s := Run(NOTHING, [Rebuild(images)] + actions);
      && Held(s, h) == Times(s.created, h) <= 1
      && s.destroyed == []
      && s.frameIndex < |s.frames|
  {
    NothingInv();
    var all := [Rebuild(images)] + actions;
    RunInv(NOTHING, all);
    NextInv(NOTHING, all[0]);
    RebuiltHolds(NOTHING, images, h);
    assert all[1..] == actions;
    RunKeeps(Next(NOTHING, all[0]), actions);
    NumberedOnce(Run(NOTHING, all).created, h);
  }

  lemma {:induction false} RunKeeps(s: State, actions: seq<Action>)
    requires Inv(s) && s.frames != []
    ensures Run(s, actions).frames != [] && Run(s, actions).destroyed == s.destroyed
    decreases |actions|
  {
    if actions != [] {
      NextInv(s, actions[0]);
      RunKeeps(Next(s, actions[0]), actions[1..]);
    }
  }

  // ---------------------------------------------------------------- the destructor

  function ReleasedOne(maybe: Option<Handle>): seq<Handle> {
    if maybe.Some? then [maybe.value] else []
  }

  function Backwards(handles: seq<Handle>): seq<Handle> {
    if handles == [] then [] else [handles[|handles| - 1]] + Backwards(handles[..|handles| - 1])
  }

  function ReleaseImages(destroyed: seq<Handle>, images: seq<Image>, k: nat): seq<Handle>
    requires k <= |images|
    decreases |images| - k
  {
    if k == |images| then destroyed
    else ReleaseImages(destroyed + ReleasedOne(images[k].semaphore) + ReleasedOne(images[k].view), images, k + 1)
  }

  function ReleaseFrame(destroyed: seq<Handle>, frame: Frame): seq<Handle> {
    destroyed + ReleasedOne(frame.fence) + ReleasedOne(frame.acquire)
    + Backwards(frame.swapchains) + Backwards(frame.surfaces) + Backwards(frame.semaphores) + Backwards(frame.views)
  }

  function ReleaseFrames(destroyed: seq<Handle>, frames: seq<Frame>, k: nat): seq<Handle>
    requires k <= |frames|
    decreases |frames| - k
  {
    if k == |frames| then destroyed else ReleaseFrames(ReleaseFrame(destroyed, frames[k]), frames, k + 1)
  }

  /** What is destroyed, in order, once the destructor has run; without a swapchain it returns at once. */
  function Released(s: State): seq<Handle> {
    if s.swapchain.None? then s.destroyed
    else ReleaseFrames(ReleaseImages(s.destroyed, s.images, 0) + [s.swapchain.value], s.frames, 0)
  }

  lemma ReleasedOneTimes(maybe: Option<Handle>, h: Handle)
    ensures Times(ReleasedOne(maybe), h) == One(maybe, h)
  {
    assert ReleasedOne(maybe) == [] || ReleasedOne(maybe) == [] + ReleasedOne(maybe);
  }

  lemma {:induction false} BackwardsTimes(handles: seq<Handle>, h: Handle)
    ensures Times(Backwards(handles), h) == Times(handles, h)
  {
    if handles != [] {
      var last, most := handles[|handles| - 1], handles[..|handles| - 1];
      BackwardsTimes(most, h);
      assert handles == most + [last];
      TimesMore(most, last, h);
      TimesConcat([last], Backwards(most), h);
      ReleasedOneTimes(Some(last), h);
    }
  }

  lemma {:induction false} ReleaseImagesTimes(destroyed: seq<Handle>, images: seq<Image>, k: nat, h: Handle)
    requires k <= |images|
    ensures Times(ReleaseImages(destroyed, images, k), h) == Times(destroyed, h) + InImages(images[k..], h)
    decreases |images| - k
  {
    if k < |images| {
      var semaphore, view := ReleasedOne(images[k].semaphore), ReleasedOne(images[k].view);
      ReleasedOneTimes(images[k].semaphore, h);
      ReleasedOneTimes(images[k].view, h);
      TimesConcat(destroyed, semaphore, h);
      TimesConcat(destroyed + semaphore, view, h);
      ReleaseImagesTimes(destroyed + semaphore + view, images, k + 1, h);
      assert images[k..][1..] == images[k + 1..];
    }
  }

  lemma ReleaseFrameTimes(destroyed: seq<Handle>, frame: Frame, h: Handle)
    ensures Times(ReleaseFrame(destroyed, frame), h) == Times(destroyed, h) + InFrame(frame, h)
  {
    var d1 := destroyed + ReleasedOne(frame.fence);
    var d2 := d1 + ReleasedOne(frame.acquire);
    var d3 := d2 + Backwards(frame.swapchains);
    var d4 := d3 + Backwards(frame.surfaces);
    var d5 := d4 + Backwards(frame.semaphores);
    ReleasedOneTimes(frame.fence, h);
    ReleasedOneTimes(frame.acquire, h);
    BackwardsTimes(frame.swapchains, h);
    BackwardsTimes(frame.surfaces, h);
    BackwardsTimes(frame.semaphores, h);
    BackwardsTimes(frame.views, h);
    TimesConcat(destroyed, ReleasedOne(frame.fence), h);
    TimesConcat(d1, ReleasedOne(frame.acquire), h);
    TimesConcat(d2, Backwards(frame.swapchains), h);
    TimesConcat(d3, Backwards(frame.surfaces), h);
    TimesConcat(d4, Backwards(frame.semaphores), h);
    TimesConcat(d5, Backwards(frame.views), h);
  }

  lemma {:induction false} ReleaseFramesTimes(destroyed: seq<Handle>, frames: seq<Frame>, k: nat, h: Handle)
    requires k <= |frames|
    ensures Times(ReleaseFrames(destroyed, frames, k), h) == Times(destroyed, h) + InFrames(frames[k..], h)
    decreases |frames| - k
  {
    if k < |frames| {
      ReleaseFrameTimes(destroyed, frames[k], h);
      ReleaseFramesTimes(ReleaseFrame(destroyed, frames[k]), frames, k + 1, h);
      assert frames[k..][1..] == frames[k + 1..];
    }
  }

  /** With a swapchain the destructor brings every handle ever created to exactly one destruction. */
  lemma ReleasedOnce(s: State, h: Handle)
    requires Inv(s) && s.swapchain.Some?
    ensures Times(Released(s), h) == Times(s.created, h) <= 1
  {
    NumberedOnce(s.created, h);
    assert Held(s, h) == Times(s.created, h);
    ReleaseImagesTimes(s.destroyed, s.images, 0, h);
    var d := ReleaseImages(s.destroyed, s.images, 0);
    TimesMore(d, s.swapchain.value, h);
    ReleaseFramesTimes(d + [s.swapchain.value], s.frames, 0, h);
    assert s.images[0..] == s.images && s.frames[0..] == s.frames;
  }

  /**
   At any point of a run the destructor destroys every handle exactly once if and only if there is a swapchain, or
   nothing was ever created. After a lost surface there is none, and the slots' fences, semaphores and lists leak.
   */
  lemma ReleasesExactly(s: State)
    requires Inv(s) && s.destroyed == []
    ensures (forall h: Handle :: Times(Released(s), h) == Times(s.created, h)) <==> s.swapchain.Some? || s.created == []
  {
    if s.swapchain.Some? {
      forall h: Handle ensures Times(Released(s), h) == Times(s.created, h) {
        ReleasedOnce(s, h);
      }
    } else if s.created != [] {
      assert s.created[0] in s.created;
      assert Times(s.created, s.created[0]) > 0;
    }
  }

  /** In particular the program's own answer to a lost surface leaks whatever the object held. */
  lemma SurfaceLossLeaks(s: State, lost: bool, h: Handle)
    requires Inv(s) && s.destroyed == [] && s.frameIndex < |s.frames|
    ensures Times(Released(ForceDiscarded(s, lost)), h) == 0
    ensures Held(ForceDiscarded(s, lost), h) == Times(ForceDiscarded(s, lost).created, h)
  {
    ForceDiscardedInv(s, lost);
  }

  // ---------------------------------------------------------------- the swapchain as the program keeps it

  class SwapchainObject {
    var swapchain: Option<Handle>
    var images: seq<Image>
    var frames: seq<Frame>
    var frameIndex: nat
    ghost var created: seq<Handle>
    ghost var destroyed: seq<Handle>
    var handles: nat                     // how many handles the device has handed out

    ghost function View(): State reads this {
      State(swapchain, images, frames, frameIndex, created, destroyed)
    }

    ghost predicate Valid() reads this {
      handles == |created| && Inv(View())
    }

    constructor (imageCount: Count)
      ensures Valid() && View() == Next(NOTHING, Rebuild(imageCount))
    {
      swapchain, images, frames, frameIndex, created, destroyed, handles := None, [], [], 0, [], [], 0;
      new;
      NothingInv();
      RecreateSwapchain(imageCount);
    }

    /** The three kinds of handle the device creates here, numbered in order. */
    method CreateSemaphore() returns (h: Handle)
      requires handles == |created|
      modifies this`created, this`handles
      ensures h == SemaphoreHandle(|old(created)|) && created == old(created) + [h] && handles == |created|
    {
      h := SemaphoreHandle(handles);
      created, handles := created + [h], handles + 1;
    }

    method CreateView() returns (h: Handle)
      requires handles == |created|
      modifies this`created, this`handles
      ensures h == ViewHandle(|old(created)|) && created == old(created) + [h] && handles == |created|
    {
      h := ViewHandle(handles);
      created, handles := created + [h], handles + 1;
    }

    method CreateFence() returns (h: Handle)
      requires handles == |created|
      modifies this`created, this`handles
      ensures h == FenceHandle(|old(created)|) && created == old(created) + [h] && handles == |created|
    {
      h := FenceHandle(handles);
      created, handles := created + [h], handles + 1;
    }

    /** Moves every image's semaphore and view to the discard lists of slot f. */
    method DiscardSwapchainImages(f: nat)
      requires f < |frames| && Shape(View())
      modifies this`frames, this`images
      ensures frames == old(frames)[f := DiscardImages(old(frames)[f], old(images), 0)]
      ensures |images| == |old(images)| && forall i: nat | i < |images| :: images[i].semaphore.None?
    {
      ghost var goal := DiscardImages(frames[f], images, 0);
      var k := 0;
      while k < |images|
        invariant k <= |images| == |old(images)| && |frames| == |old(frames)|
        invariant forall i: nat | i < k :: images[i].semaphore.None?
        invariant forall i: nat | k <= i < |images| :: images[i] == old(images)[i]
        invariant frames == old(frames)[f := frames[f]]
        invariant DiscardImages(frames[f], old(images), k) == goal
      {
        var semaphore, view := images[k].semaphore.value, images[k].view.value;
        frames := frames[f := frames[f].(
          semaphores := frames[f].semaphores + [semaphore], views := frames[f].views + [view])];
        images := images[k := images[k].(semaphore := None)];
        k := k + 1;
      }
    }

    /**
     Sizes the image list and gives every image a semaphore and a view. No image still has a semaphore, so
     the check in the loop never fires.
     */
    method CreateSwapchainImages(n: nat)
      requires handles == |created|
      requires forall i: nat | i < |images| :: images[i].semaphore.None?
      modifies this`images, this`created, this`handles
      ensures handles == |created| && (images, created) == CreateImages([], old(created), n)
    {
      images := if |images| >= n then images[..n] else images + seq(n - |images|, _ => Image(None, None));
      ghost var goal := CreateImages([], created, n);
      var k := 0;
      while k < n
        invariant k <= n == |images| && handles == |created|
        invariant forall i: nat | k <= i < n :: images[i].semaphore.None?
        invariant CreateImages(images[..k], created, n) == goal
      {
        assert images[k].semaphore.None?;
        ghost var before := created;
        var semaphore := CreateSemaphore();
        var view := CreateView();
        assert created == before + [SemaphoreHandle(|before|), ViewHandle(|before| + 1)];
        ghost var done := images[..k];
        images := images[k := Image(Some(view), Some(semaphore))];
        assert images[..k + 1] == done + [Image(Some(view), Some(semaphore))];
        k := k + 1;
      }
      assert images[..n] == images;
    }

    /** Moves every slot's acquire semaphore to the discard list of slot f. */
    method DiscardAcquireSemaphores(f: nat)
      requires f < |frames|
      modifies this`frames
      ensures frames == DiscardAcquires(old(frames), f, 0)
    {
      var k := 0;
      while k < |frames|
        invariant k <= |frames| && f < |frames|
        invariant DiscardAcquires(frames, f, k) == DiscardAcquires(old(frames), f, 0)
      {
        if frames[k].acquire.Some? {
          frames := frames[f := frames[f].(semaphores := frames[f].semaphores + [frames[k].acquire.value])];
          frames := frames[k := frames[k].(acquire := None)];
        }
        k := k + 1;
      }
    }

    method GrowFrames(n: nat)
      modifies this`frames
      ensures frames == Grow(old(frames), n)
    {
      while |frames| < n
        invariant Grow(frames, n) == Grow(old(frames), n)
      {
        frames := frames + [NEW_FRAME];
      }
    }

    /** Gives slot k the semaphore and the fence it lacks. */
    method RefreshSlot(k: nat)
      requires handles == |created| && k < |frames|
      modifies this`frames, this`created, this`handles
      ensures handles == |created|
      ensures (frames, created) == var r := RefreshFrame(old(frames)[k], old(created)); (old(frames)[k := r.0], r.1)
    {
      var frame := frames[k];
      if frame.acquire.None? {
        var semaphore := CreateSemaphore();
        frame := frame.(acquire := Some(semaphore));
      }
      if frame.fence.None? {
        var fence := CreateFence();
        frame := frame.(fence := Some(fence));
      }
      frames := frames[k := frame];
    }

    method RefreshFrames()
      requires handles == |created|
      modifies this`frames, this`created, this`handles
      ensures handles == |created| && (frames, created) == Refresh(old(frames), old(created), 0)
    {
      var k := 0;
      while k < |frames|
        invariant k <= |frames| && handles == |created|
        invariant Refresh(frames, created, k) == Refresh(old(frames), old(created), 0)
      {
        RefreshSlot(k);
        k := k + 1;
      }
    }

    /**
     The program tests `frameIndex <= |frames|` before it takes the slot; the invariant makes the index
     smaller.
     */
    method RecreateSwapchain(imageCount: Count)
      requires Valid()
      modifies this
      ensures Valid() && View() == Rebuilt(old(View()), imageCount)
    {
      RebuiltInv(View(), imageCount);
      Recreate(imageCount);
    }

    method Recreate(imageCount: nat)
      requires handles == |created| && Shape(View()) && (images != [] ==> swapchain.Some?)
      modifies this
      ensures handles == |created| && View() == Rebuilt(old(View()), imageCount)
    {
      ghost var start := View();
      var current, decommissioned := frameIndex, swapchain;
      var discarding := current <= |frames| && |images| > 0;
      if discarding {
        DiscardSwapchainImages(current);
      }
      swapchain := Some(SwapchainHandle(handles));
      created, handles := created + [SwapchainHandle(handles)], handles + 1;
      CreateSwapchainImages(imageCount);
      if discarding {
        DiscardAcquireSemaphores(current);
        if decommissioned.Some? {
          frames := frames[current := frames[current].(
            swapchains := frames[current].swapchains + [decommissioned.value])];
        }
      }
      assert frames == Retired(start);
      GrowFrames(imageCount);
      RefreshFrames();
    }

    /** Gives up everything that depends on the surface, and takes the lost surface over if there is one. */
    method ForceDiscardToCurrentFrame(lost: bool)
      requires Valid()
      modifies this
      ensures Valid() && View() == Next(old(View()), ForceDiscard(lost))
      ensures old(frameIndex) < |old(frames)| ==> swapchain.None? && images == []
    {
      NextInv(View(), ForceDiscard(lost));
      GiveUp(lost);
    }

    method GiveUp(lost: bool)
      requires handles == |created| && Shape(View())
      modifies this
      ensures handles == |created| && View() == ForceDiscarded(old(View()), lost)
    {
      if frameIndex < |frames| {
        ghost var start := View();
        if images != [] {
          DiscardSwapchainImages(frameIndex);
          images := [];
        }
        assert frames == start.frames[frameIndex := DiscardImages(start.frames[frameIndex], start.images, 0)];
        if swapchain.Some? {
          var frame := frames[frameIndex];
          frame := frame.(swapchains := frame.swapchains + [swapchain.value]);
          swapchain := None;
          if lost {
            frame := frame.(surfaces := frame.surfaces + [SurfaceHandle(handles)]);
            created, handles := created + [SurfaceHandle(handles)], handles + 1;
          }
          frames := frames[frameIndex := frame];
        }
      }
    }

    method SignalNextFrame()
      requires Valid() && frames != []
      modifies this`frameIndex
      ensures Valid() && View() == Next(old(View()), NextFrame)
    {
      NextInv(View(), NextFrame);
      frameIndex := (frameIndex + 1) % |frames|;
    }

    // ---------------------------------------------------------------- the destructor

    method Release(maybe: Option<Handle>)
      modifies this`destroyed
      ensures destroyed == old(destroyed) + ReleasedOne(maybe)
    {
      if maybe.Some? {
        destroyed := destroyed + [maybe.value];
      }
    }

    /** Destroys the handles of a list from its back. */
    method ReleaseAll(list: seq<Handle>)
      modifies this`destroyed
      ensures destroyed == old(destroyed) + Backwards(list)
    {
      var rest := list;
      while rest != []
        invariant destroyed + Backwards(rest) == old(destroyed) + Backwards(list)
        decreases |rest|
      {
        destroyed := destroyed + [rest[|rest| - 1]];
        rest := rest[..|rest| - 1];
      }
    }

    method DestroyFrame(frame: Frame)
      modifies this`destroyed
      ensures destroyed == ReleaseFrame(old(destroyed), frame)
    {
      Release(frame.fence);
      Release(frame.acquire);
      ReleaseAll(frame.swapchains);
      ReleaseAll(frame.surfaces);
      ReleaseAll(frame.semaphores);
      ReleaseAll(frame.views);
    }

    /** With a swapchain every handle ever created is destroyed exactly once; without one nothing is. */
    method Destructor()
      requires Valid()
      modifies this
      ensures destroyed == Released(old(View()))
      ensures old(swapchain).Some? ==> forall h: Handle :: Times(destroyed, h) == Times(old(created), h) <= 1
      ensures old(swapchain).None? ==> destroyed == old(destroyed)
    {
      if swapchain.Some? {
        forall h: Handle ensures Times(Released(View()), h) == Times(created, h) <= 1 {
          ReleasedOnce(View(), h);
        }
      }
      DestroyEverything();
    }

    method DestroyImages()
      modifies this`destroyed, this`images
      ensures destroyed == ReleaseImages(old(destroyed), old(images), 0) && images == []
    {
      var k := 0;
      while k < |images|
        invariant k <= |images| && images == old(images)
        invariant ReleaseImages(destroyed, images, k) == ReleaseImages(old(destroyed), images, 0)
      {
        Release(images[k].semaphore);
        Release(images[k].view);
        k := k + 1;
      }
      images := [];
    }

    method DestroyFrames()
      modifies this`destroyed, this`frames
      ensures destroyed == ReleaseFrames(old(destroyed), old(frames), 0) && frames == []
    {
      var k := 0;
      while k < |frames|
        invariant k <= |frames| && frames == old(frames)
        invariant ReleaseFrames(destroyed, frames, k) == ReleaseFrames(old(destroyed), frames, 0)
      {
        DestroyFrame(frames[k]);
        k := k + 1;
      }
      frames := [];
    }

    method DestroyEverything()
      modifies this`destroyed, this`images, this`frames
      ensures destroyed == Released(old(View()))
    {
      if swapchain.None? {
        return;
      }
      DestroyImages();
      destroyed := destroyed + [swapchain.value];
      DestroyFrames();
    }
  }
}
