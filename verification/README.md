# Aether-Vk: the host-side machinery, modelled and proved

Aether-Vk is a Vulkan engine. Around the Vulkan calls it keeps a number of state machines of its own, and this
project models those in Dafny and proves what they are relied on for.

| modules | what they model |
|---|---|
| `Mpmc`, `MpmcSafety`, `MpmcCalls`, `MpmcQueue` | the bounded multi-producer multi-consumer ring that feeds the fibers, one atomic access per step |
| `JobGraph`, `Scheduler`, `SchedulerJobs`, `SchedulerQuiescence`, `SchedulerShutdown`, `SchedulerOrder`, `FiberLoop`, `JobWait` | the fiber scheduler: dependency counters, continuations, the in-flight count, waiting for all jobs or for one, the draining shutdown |
| `RenderLoop`, `RenderSafety`, `RenderReuse`, `RenderThread` | frames in flight, the timeline, resizes, deferred destruction and command pool reuse, with a GPU that completes submissions in order |
| `DiscardPool` | the stamped discard lists, the sweep and the monitor |
| `Swapchain`, `SwapchainOrder` | the handles a swapchain rebuild creates, retires and finally destroys, and what a lost surface does to them |
| `CommandPools`, `PoolConservation`, `PoolCaches`, `PoolManager`, `Spsc` | the life of command pools across threads, the lookup in their caches, and the ring they come back through |
| `Staging`, `StagingMeaning` | the upload queue, compiled into a command stream with barriers |
| `PipelinePool` | the pipeline cache and its reusable create-info |
| `Clock` | fixed time steps and the smoothed frame delta |
| `Fnv` | the FNV-1a hash that names command buffers and resources |
| `ComHandOff` | the event protocol between window threads and the COM thread |
| `Slots`, `Words`, `Wrappers` | ring cells, machine words, options |

Concurrent parts are state machines. In `Mpmc`, `Spsc`, `JobWait` and `ComHandOff` a step is one atomic access of one
thread. In `Scheduler` it is one too, except that a push or a pop of a ring is the claim of a place and its publication,
the queue `MpmcSafety.RefinesQueue` shows the ring to refine. In `CommandPools` a step is one operation under a lock, one operation on a
ring (`Spsc` shows each to take effect at one moment), or the work of one thread on what it alone can reach; operations
that give a lock up in between are several steps. In `RenderLoop` a step is one turn of the single render thread, or the
GPU's completion of one submission. A schedule is a list of steps, so a lemma about every schedule is about every
interleaving of such steps, of any length and any number of threads.

Fields marked as history record what happened and are not read by steps, with one exception: `Scheduler.Submit` looks at
a job's place, because that is where the callers' promise not to hand over a job that is already in somebody's hands is
written down. Code that changes things in place is also given as classes whose methods change fields and arrays in
place; their contracts tie each new state to a step or a function of the old one, and the lemmas are about those.

Handles of Vulkan objects are numbers. Creating one gives a number never used before, and calls that can fail take the
outcome as a parameter. The GPU completes submissions in the order they were submitted.

## Where the code and its own documentation part ways

The model follows the code.

- `docs/Timing.md:57-59` promises at most `floor(maximum / fixed)` fixed updates per frame. `Clock.DocumentedBoundExactly`
  shows when that is so; `Clock.MostBounds` gives the bound that always holds.
- `src/core/public/os/avk-time.h:20-22` describes `DeltaTime` as the delta of the last update; the code reads the oldest of
  the window (`src/core/private/os/avk-core.cpp:144-147`), and so does `Clock.TimeInfo.Current`.
- The flag for culling front faces turns culling off (`src/core/private/render/vk/pipeline-pool-vk.cpp:547-551`); only
  no flags at all cull back faces, and only the bare cull flag culls front faces. `PipelinePool.CullFor` says so.
- `src/core/public/render/vk/swapchain-vk.h:70-72` means the discard lists of a slot to be emptied when the slot comes
  round again; nothing calls that before the destructor.
- `src/core/private/render/vk/swapchain-vk.cpp:253` tests the frame index with `<=`; the index is always smaller
  (`Swapchain.Inv`).
- The assertion in `src/core/public/fiber/mpmc.h:20` admits a ring of one cell. `MpmcQueue.KeepsUnreadExactly` shows why two
  are needed.
- The comment in `src/core/private/fiber/jobs.cpp:82` expects sentinels to wake the fibers, but `pushTask` rejects them
  (`src/core/private/fiber/jobs.cpp:119-126`). Fibers return only through the flag.
- `src/core/private/render/experimental/avk-staging-transient-manager.cpp:99` says that staging buffers are discarded on the
  next timeline; they are stamped with the present one, in the middle of a recording that uses them, while the submission
  signals one more. `RenderSafety.DiscardSafeExactly` shows what follows.
- `src/core/public/render/vk/command-pools.h:100-103` lets another thread than the owner give a pool back. The owner's
  storage is looked up under a lock that is released before the push, so a shutdown of the owner in between loses the
  pool and frees the ring that is pushed to. `PoolConservation.RecycleCanLose` is that run, and
  `PoolConservation.ConservesExactly` says exactly which runs are free of it.
- The comment in `src/core/private/fiber/jobs.cpp:37-40` says that a reset leaves no waiter dangling. The flag is lowered
  again before a woken thread can have the lock, so the thread goes back to sleep for good (`JobWait.ResetCanStrand`),
  and a wait can return while the flag is up although the job has not run (`JobWait.ResetCanRelease`).
- `safeSubmitTask` (`src/core/private/fiber/jobs.cpp:99-112`) counts the job in flight at every try, so after one try that
  finds the ring full `waitUntilAllTasksDone` never returns (`FiberLoop.FiberScheduler.SafeSubmitTask`,
  `SchedulerQuiescence.LostPushNeverZero`).
- After `forceDiscardToCurrentFrame` the swapchain's destructor returns early
  (`src/core/private/render/vk/swapchain-vk.cpp:441-444`), and that is how a lost surface is answered
  (`src/core/private/app/avk-application.cpp:286-304`). `Swapchain.ReleasesExactly` says when nothing leaks.

## Model

| member | source | states |
|---|---|---|
| Words.MaskFindsCell | src/core/public/fiber/mpmc.h:46 | masking a position with a power of two less one finds its cell, for every position |
| Words.WrapKeepsCell | src/core/public/render/vk/command-pools.h:37-40 | a counter that has wrapped at 2^64 still names the cell of the number it stands for |
| Words.WordDifference | src/core/public/fiber/mpmc.h:48-49 | the signed difference of two wrapped counters is that of the numbers when these are less than 2^63 apart |
| Slots.CellIsRemainder | src/core/public/fiber/mpmc.h:46 | the cell of a position is the remainder of its number by the number of cells |
| Mpmc.NextInv | src/core/public/fiber/mpmc.h:42-86 | every step of any thread inside push or pop keeps the sequence numbers, the values, the owners and the history of the ring consistent |
| MpmcSafety.EveryInterleaving | src/core/public/fiber/mpmc.h:42-86 | the ring is consistent in every state any interleaving of any number of threads leads to |
| Mpmc.PushSees | src/core/public/fiber/mpmc.h:46-55 | what a producer learns from a cell's sequence number, however stale its position: smaller means exactly that the position is current and the cell one lap back is not released |
| Mpmc.PopSees | src/core/public/fiber/mpmc.h:69-78 | what a consumer learns: smaller means exactly that the position is current and its ticket unpublished; equal at the current position means the pushed value is in the cell |
| MpmcSafety.PushWordsDecide | src/core/public/fiber/mpmc.h:47-57 | on wrapped 64-bit words the signed difference and the compare-and-swap decide as the numbers do, as long as the enqueue position is not 2^63 tickets, less a lap, ahead |
| MpmcSafety.PopWordsDecide | src/core/public/fiber/mpmc.h:70-80 | the same for a consumer's position |
| MpmcSafety.DeliversOnce | src/core/public/fiber/mpmc.h:65-86 | a step delivers at most one ticket, never delivered before and claimed by the stepping thread itself, which returns the very value pushed under it; no other step makes a pop return a value |
| MpmcSafety.NoOverwrite | src/core/public/fiber/mpmc.h:50-61 | a cell is written only after its previous ticket was delivered and while no other thread owns it |
| MpmcSafety.InItsCell | src/core/public/fiber/mpmc.h:60-61 | a published value stays in its cell until it is delivered |
| MpmcSafety.AtRest | src/core/public/fiber/mpmc.h:42-86 | with no thread inside, exactly the popped tickets were delivered with their values, the others sit in their cells, and they fit in the ring |
| MpmcSafety.PushFailsExactly | src/core/public/fiber/mpmc.h:44-58 | once its sequence number is loaded, a push returns false, whatever the others do next, if and only if its position was the enqueue position and the cell one lap back was unreleased |
| MpmcSafety.PopFailsExactly | src/core/public/fiber/mpmc.h:67-82 | the same for pop: if and only if its position was the dequeue position and that ticket was unpublished |
| MpmcSafety.ClaimAppends | src/core/public/fiber/mpmc.h:50-53 | a successful compare-and-swap of push appends an entry, not yet ready, to the abstract queue |
| MpmcSafety.PublishReadies | src/core/public/fiber/mpmc.h:61 | the store of the sequence number makes that entry, still in the queue, ready |
| MpmcSafety.TakeRemoves | src/core/public/fiber/mpmc.h:73-76 | a successful compare-and-swap of pop takes the head of the queue, which is ready |
| MpmcSafety.RefinesQueue | src/core/public/fiber/mpmc.h:42-86 | every step of every interleaving is one step of a first-in first-out queue, or none |
| MpmcSafety.PopSeesHead | src/core/public/fiber/mpmc.h:70-78 | a pop will fail exactly when, at its load, the queue was empty or its head not ready |
| MpmcCalls.RefusalsSaw | src/core/public/fiber/mpmc.h:56-80 | in any state, the only step that makes a push return false, or a pop return nothing, is one of the thread itself that holds too small a sequence number |
| MpmcCalls.PushMeans | src/core/public/fiber/mpmc.h:42-63 | a whole push in any interleaving: it has returned true only if it put its value under exactly one ticket and published it; false only if it put it nowhere and in between loaded a number while its position was the enqueue position and the cell one lap back unreleased |
| MpmcCalls.PopMeans | src/core/public/fiber/mpmc.h:65-86 | a whole pop in any interleaving: a returned value is the one pushed under the only ticket it took; it returns nothing only if it took no ticket and in between loaded a number while its position was the dequeue position and the ticket unpublished |
| MpmcCalls.PushReturns | src/core/public/fiber/mpmc.h:42-63 | from any reachable state a thread inside push, stepping alone, comes to return: true if it has its ticket, false if it holds too small a number, and otherwise true exactly if the ring is not full |
| MpmcCalls.PopReturns | src/core/public/fiber/mpmc.h:65-86 | from any reachable state a thread inside pop, stepping alone, comes to return: the value of the ticket it has, or of the head of the ring if that is published, and otherwise nothing |
| MpmcQueue.KeepsUnreadExactly | src/core/public/fiber/mpmc.h:20 | unread values are never overwritten, in any run, if and only if the ring has at least two cells |
| MpmcQueue.PushAloneAppends | src/core/public/fiber/mpmc.h:42-63 | a whole push appends its value, ready, or fails, exactly when the cell one lap back is unreleased, and then changes nothing in the queue |
| MpmcQueue.PopAloneTakes | src/core/public/fiber/mpmc.h:65-86 | a whole pop returns the oldest value and removes it, or fails, exactly when there is none ready |
| MpmcQueue.Queue.constructor | src/core/public/fiber/mpmc.h:16-30 | a fresh ring of one cell or more: sequence numbers 0, 1, 2, ..., positions zero; with two cells or more the invariant holds |
| MpmcQueue.Queue.PushAdvance | src/core/public/fiber/mpmc.h:43-62 | the in-place accesses of push are the steps of the machine |
| MpmcQueue.Queue.PopAdvance | src/core/public/fiber/mpmc.h:66-85 | the in-place accesses of pop are the steps of the machine |
| MpmcQueue.Queue.Execute | src/core/public/fiber/mpmc.h:42-86 | any interleaving of in-place accesses is a run of the machine and keeps its invariant |
| MpmcQueue.Queue.ClaimPush | src/core/public/fiber/mpmc.h:44-59 | the retry loop of push ends, with the ticket claimed exactly if the cell is free |
| MpmcQueue.Queue.ClaimPop | src/core/public/fiber/mpmc.h:67-82 | the retry loop of pop ends, with the ticket claimed exactly if the cell is published |
| MpmcQueue.Queue.Push | src/core/public/fiber/mpmc.h:42-63 | the method as a whole has the effect PushAloneAppends describes |
| MpmcQueue.Queue.Pop | src/core/public/fiber/mpmc.h:65-86 | the method as a whole has the effect PopAloneTakes describes |
| Spsc.FullDecided | src/core/public/render/vk/command-pools.h:37-39 | on wrapped words, the masked full test decides that the ring holds one item less than it has cells |
| Spsc.EmptyDecided | src/core/public/render/vk/command-pools.h:49-51 | on wrapped words, the masked empty test decides that the ring is empty |
| Spsc.NextInv | src/core/public/render/vk/command-pools.h:32-55 | every step of the producer or the consumer keeps words, counts and cells consistent |
| Spsc.FifoForever | src/core/public/render/vk/command-pools.h:32-55 | in every interleaving the popped items are the first pushed ones in order, and tail minus head modulo 2^64 is the number left, at most one less than the cells |
| Spsc.PushFailsExactly | src/core/public/render/vk/command-pools.h:32-39 | a push that has loaded head fails, whatever the consumer does next, if and only if the ring was full at that load |
| Spsc.PopFailsExactly | src/core/public/render/vk/command-pools.h:45-51 | a pop that has loaded tail fails, whatever the producer does next, if and only if the ring was empty at that load |
| Spsc.PushMeans | src/core/public/render/vk/command-pools.h:32-43 | a whole push in any interleaving: after three steps of its own it has returned, and it has returned true if and only if its item was appended, once |
| Spsc.PopMeans | src/core/public/render/vk/command-pools.h:45-55 | a whole pop in any interleaving: after three steps of its own it has returned, and it returns an item if and only if it took one, which is the oldest |
| Spsc.PushAloneAppends | src/core/public/render/vk/command-pools.h:32-43 | a whole push appends its item unless the ring is full, and then changes nothing |
| Spsc.PopAloneTakes | src/core/public/render/vk/command-pools.h:45-55 | a whole pop takes the oldest item, if there is one |
| Spsc.Queue.constructor | src/core/public/render/vk/command-pools.h:24-30 | an empty ring of a power of two cells |
| Spsc.Queue.TryPush | src/core/public/render/vk/command-pools.h:32-43 | succeeds exactly below capacity 2^k - 1, and then the waiting items gain this one at the end |
| Spsc.Queue.TryPop | src/core/public/render/vk/command-pools.h:45-55 | returns and removes the oldest waiting item, or nothing if there is none |
| Spsc.Queue.DrainTo | src/core/public/render/vk/command-pools.h:60-63 | ends, returns all waiting items oldest first, and leaves none |
| JobGraph.Jobs.AddDependency | src/core/private/fiber/jobs.cpp:14-21 | after any number of these calls every counter is the number of continuation entries that name its job |
| SchedulerJobs.NextInv | src/core/private/fiber/jobs.cpp:180-232 | every step of any fiber, client or waiter keeps each counter equal to the continuation entries not yet processed, and each job in exactly one place, also when a push fails and the job is submitted again |
| SchedulerJobs.EveryRun | src/core/private/fiber/jobs.cpp:180-232 | that invariant holds in every reachable state, whatever graph was wired |
| SchedulerJobs.PrerequisitesDone | src/core/private/fiber/jobs.cpp:205-222 | a job that has left the waiting state finds every prerequisite returned and flagged done |
| SchedulerJobs.StartsOnceInOrder | src/core/private/fiber/jobs.cpp:184-222 | in every run a function is called only if it never was before and the functions of all prerequisites have returned, even when pushes fail |
| SchedulerJobs.OnceAndDone | src/core/private/fiber/jobs.cpp:196-203 | no function is called twice or returns without being called, and the done flag is only set after the return |
| SchedulerQuiescence.InflightCounts | src/core/private/fiber/jobs.cpp:119-126 | in every reachable state the in-flight count is the queued, the popped and unfinished, the pushes under way and the failed pushes |
| SchedulerQuiescence.LostPushNeverZero | src/core/private/fiber/jobs.cpp:119-126 | after a push that failed the count never comes to zero again |
| SchedulerQuiescence.DueIffRan | src/core/private/fiber/jobs.cpp:205-222 | at zero a job has finished if and only if it is a root handed over or all its prerequisites have, for every acyclic graph |
| SchedulerQuiescence.ZeroMeansAllRan | src/core/private/fiber/jobs.cpp:114-117 | a waiter that reads zero knows that no push was lost and exactly which functions have returned, each called once |
| SchedulerQuiescence.NoLostWakeup | src/core/private/fiber/jobs.cpp:226-229 | a waiter asleep with nothing in flight has a notification coming that puts it back on its feet, spurious wake-ups or not |
| SchedulerQuiescence.SatisfiedSawZero | src/core/private/fiber/jobs.cpp:114-117 | a wait ends only when its last look, under the lock, found zero |
| SchedulerQuiescence.WaitCanEnd | src/core/private/fiber/jobs.cpp:114-117 | in any reachable state with nothing in flight every wait can come to its end without any job moving and without a spurious wake-up |
| SchedulerShutdown.CoveredIsDrained | src/core/private/fiber/jobs.cpp:128-137 | if, when shutdown was requested and no client is inside a submission, some fiber has yet to pass some non-empty queue, all three queues are empty when the last fiber returns, including continuations pushed meanwhile |
| SchedulerShutdown.AllCanReturn | src/core/private/fiber/jobs.cpp:184-190 | if every fiber has passed all the work there is and no client is inside a submission, there is a run in which all return |
| SchedulerShutdown.AllReturnFirst | src/core/private/fiber/jobs.cpp:183-232 | however much work there is, all fibers can return while the clients pause in the middle of their submissions |
| SchedulerShutdown.UnderWayCanStrand | src/core/private/fiber/jobs.cpp:119-126 | so a submission under way when shutdown is requested can be left in its queue with every fiber gone |
| SchedulerShutdown.DrainsExactlyWhenCovered | src/core/private/fiber/jobs.cpp:184-190 | from any reachable state with shutdown requested, nothing is stranded in any run without new submissions if and only if the work is covered by some fiber's scan and no client is inside a submission |
| SchedulerShutdown.ReachableStops | src/core/private/fiber/jobs.cpp:80-89 | every reachable state with shutdown requested is one of those that theorem is about: whoever holds the lock is about to give it up |
| SchedulerShutdown.ShutdownCanStrand | src/core/private/fiber/jobs.cpp:80-89 | a run from the start in which a job submitted behind the only fiber's scan is left in its queue when the fiber has returned |
| SchedulerOrder.FirstInFirstOut | src/core/private/fiber/jobs.cpp:119-137 | along any run each of the three queues is first in, first out: what was in it followed by what was claimed in it is what was taken from it followed by what is in it now |
| SchedulerOrder.ScansByPriority | src/core/private/fiber/jobs.cpp:128-137 | in any state, a fiber goes on to a queue of lower priority only after it found no ready head in the one before, takes jobs only from the front, and starts over at the first queue |
| FiberLoop.FiberScheduler.constructor | src/core/private/fiber/jobs.cpp:61-70 | a scheduler over any wired graph starts in an initial state of the machine |
| FiberLoop.FiberScheduler.TrySubmitTask | src/core/private/fiber/jobs.cpp:91-97 | succeeds exactly when no prerequisite is left and the ring is not full; then the job is queued and counted; with a full ring it is counted and given up; each as a run of the machine |
| FiberLoop.FiberScheduler.SafeSubmitTask | src/core/private/fiber/jobs.cpp:99-112 | goes on until the push succeeds, and leaves the in-flight count up by one more for every try that found the ring full |
| FiberLoop.RetriesLeak | src/core/private/fiber/jobs.cpp:103-110 | n tries that find the ring full change nothing but the count and the number of failed pushes, by n each |
| FiberLoop.FiberScheduler.PopTask | src/core/private/fiber/jobs.cpp:128-137 | pops the ready head of the first queue, by priority, that has one, and otherwise leaves all three queues as they are; step by step as in the machine |
| FiberLoop.FiberScheduler.PushTask | src/core/private/fiber/jobs.cpp:119-126 | counts first, then claims a place, then makes it ready; with a full ring it stays counted and the push is given up |
| FiberLoop.FiberScheduler.TriggerContinuations | src/core/private/fiber/jobs.cpp:205-223 | the loop over the continuations lowers each counter by the number of entries naming its job and pushes those that became ready, into full rings or not, step by step as in the machine |
| FiberLoop.FiberScheduler.Round | src/core/private/fiber/jobs.cpp:183-232 | one round of the fiber loop, alone: the first ready job by priority is called once, returns, is flagged, counts its continuations down and is finished, and with none ready the fiber returns exactly under shutdown; a run of that fiber's steps that keeps the job invariant |
| FiberLoop.FiberScheduler.Shutdown | src/core/private/fiber/jobs.cpp:80-89 | sets the flag, and nothing else, since its sentinels are rejected |
| JobWait.NoLostWakeup | src/core/private/fiber/jobs.cpp:173-177 | in every run, resets and spurious wake-ups included, a thread asleep while the done flag is up has a notification coming from the holder of the lock |
| JobWait.ReturnsAfterJob | src/core/private/fiber/jobs.cpp:160-178 | without resets a wait returns only after the job's function has returned |
| JobWait.ChoiceProgresses | src/core/private/fiber/jobs.cpp:196-203 | as long as the flag is up or the finisher is not done, some step of the lock holder, the finisher or the waiter brings the wait nearer to its end |
| JobWait.CanReturnExactly | src/core/private/fiber/jobs.cpp:160-178 | a wait can still return if and only if it has, or the flag is up, or the job has not been finished yet; that is, unless a reset has lowered the flag of a finished job |
| JobWait.FibersOnlyPoll | src/core/private/fiber/jobs.cpp:165-177 | in every run a fiber that waits neither holds nor wants the lock and never sleeps, and a thread that waits never polls |
| JobWait.LookDecides | src/core/private/fiber/jobs.cpp:165-177 | whoever looks at the flag returns exactly if it is up; a fiber that finds it down looks again at its next turn and changes nothing |
| JobWait.ResetCanStrand | src/core/private/fiber/jobs.cpp:23-46 | a run in which a thread is woken by the finished job, a reset comes and goes before it has the lock, and its wait can no longer return |
| JobWait.ResetCanRelease | src/core/private/fiber/jobs.cpp:37-40 | a run in which a wait returns during a reset although the job has not run |
| DiscardPool.PrefixIsDue | src/core/public/render/vk/discard-pool.h:32-45 | on a sorted list the erased prefix is exactly the entries whose time has come, and the rest exactly the others |
| DiscardPool.AppendSorted | src/core/public/render/vk/discard-pool.h:14-22 | an append keeps the list sorted if and only if no stamp in it is later |
| DiscardPool.UnsortedKeepsDue | src/core/public/render/vk/discard-pool.h:14-15 | an unsorted list on which a sweep leaves an entry that is due |
| DiscardPool.SweepDeletesDue | src/core/private/render/vk/discard-pool.cpp:123-188 | a sweep of sorted lists deletes of every kind exactly the due items, each once and oldest first, and keeps exactly the others |
| DiscardPool.UsersDeletedFirst | src/core/private/render/vk/discard-pool.cpp:123-188 | in a sweep every due image view is deleted before any image, every buffer view before any buffer, and every pipeline before any layout |
| DiscardPool.ForcedSweepEmpties | src/core/private/render/vk/discard-pool.cpp:127-131 | a forced sweep deletes everything on every list, sorted or not |
| DiscardPool.Pool.constructor | src/core/private/render/vk/discard-pool.cpp:12-43 | empty lists, the semaphore at zero, and the order of the sweep |
| DiscardPool.Pool.Discard | src/core/private/render/vk/discard-pool.cpp:63-121 | appends one stamped entry to one list |
| DiscardPool.Pool.RemoveOld | src/core/public/render/vk/discard-pool.h:30-45 | the loop calls the deleter on the old prefix in order, and erases it |
| DiscardPool.Pool.DestroyDiscardedResources | src/core/private/render/vk/discard-pool.cpp:123-188 | sweeps every list at the semaphore's value, or the largest time if forced |
| DiscardPool.Pool.OnFrame | src/core/public/render/vk/discard-pool.h:143-168 | sweeps at every 240th frame if more than 32 images, 64 buffers, 32 framebuffers or 16 pipelines wait, and never else; after such a frame a list still over its limit has nothing at its front that could go |
| RenderLoop.NextFences | src/core/private/app/avk-application.cpp:117-211 | every step keeps each fence signaled, or reset for the frame being recorded, or attached to a pending submission of its slot |
| RenderLoop.NextBuffers | src/core/private/render/vk/command-pools.cpp:93-126 | every step keeps one command buffer for each pool and key, and each submission the one of its slot |
| RenderLoop.RecycleConserves | src/core/private/render/vk/command-pools.cpp:136-153 | recycling puts every pool in the ring or destroys it, and destroys only when the ring is full |
| RenderLoop.NextPoolsIdle | src/core/private/app/avk-application.cpp:97-109 | every step keeps the stamp of a discarded pool past every submission recorded from it, and recycled pools idle |
| RenderLoop.NextWasteOk | src/core/private/app/avk-application.cpp:173-184 | every step keeps the stamp of a discarded resource past every submission that uses it and has not completed, except one that was being recorded, or not counted yet, at the discard |
| RenderSafety.ReclaimedAfterUse | src/core/private/render/vk/discard-pool.cpp:123-188 | in every run a resource not discarded while exposed, by a recording or by a submission the timeline has yet to count, is destroyed once, and only after every submission that uses it has completed |
| RenderSafety.PoolReusedAfterUse | src/core/private/render/vk/command-pools.cpp:136-153 | in every run a command pool is recycled or destroyed only after everything recorded from it has completed |
| RenderSafety.PoolInOnePlace | src/core/private/render/vk/command-pools.cpp:93-164 | in every run each pool created is active, discarded, in the ring or destroyed, exactly one of these |
| RenderReuse.RecordingReuses | src/core/private/render/vk/command-pools.cpp:93-101 | a recording takes the pool in use, with none in use the oldest recycled one out of the ring, and with none there a new one; discarded and destroyed pools stay where they are |
| RenderReuse.CreatedCounts | src/core/private/render/vk/command-pools.cpp:93-101 | in every run as many pools are created as there were recordings that found none in use and none recycled |
| RenderReuse.CreatesOnlyWhenAllWait | src/core/private/render/vk/command-pools.cpp:93-101 | in every run a step creates a pool only when every pool there ever was waits on the discard list or has been destroyed |
| RenderReuse.RecycleFills | src/core/private/render/vk/command-pools.cpp:136-153 | recycling fills the ring of 63 in order and destroys exactly the pools that come when it is full |
| RenderReuse.SweepTakesDue | src/core/private/render/vk/discard-pool.cpp:123-188 | in every run a sweep destroys exactly the resources, and recycles exactly the pools, whose stamp the GPU has reached, oldest first, and keeps all others |
| RenderReuse.DiscardedComesBack | src/core/private/render/vk/discard-pool.cpp:176-178 | a discarded pool is back in the ring after the first sweep past its stamp, if there is room |
| RenderReuse.ResizeKeepsSlots | src/core/private/app/avk-application.cpp:97-109 | a failed acquisition or presentation discards the pool in use at the timeline and leaves as many slots as before or as images, the old ones untouched and the new ones signaled |
| RenderSafety.FenceTells | src/core/private/render/vk/swapchain-vk.cpp:480-490 | a slot's fence is signaled exactly when nothing of the slot is pending and the slot is not being recorded |
| RenderSafety.PendingInDifferentSlots | src/core/private/app/avk-application.cpp:178-184 | pending submissions are in different slots, so there are at most as many as slots |
| RenderSafety.WaitNeverFreezes | src/core/private/app/avk-application.cpp:146-150 | the wait for the slot's fence ends once the GPU has caught up, even after failed acquisitions and resizes |
| RenderSafety.RecordsIdleBuffers | src/core/private/render/vk/command-pools.cpp:103-125 | with different keys for all slots of the run, the command buffer handed out is in no pending submission |
| RenderSafety.RecordsSafelyExactly | src/core/private/render/vk/command-pools.cpp:103-125 | no run over n slots records a pending command buffer if and only if the n keys are different |
| RenderSafety.DiscardSafeExactly | src/core/private/render/experimental/avk-staging-transient-manager.cpp:99-101 | in every phase of a frame, a discard at the current timeline is safe in all continuations if and only if neither the recording under way nor an uncompleted submission that the timeline has yet to count uses the resource |
| RenderThread.Application.constructor | src/core/private/render/vk/swapchain-vk.cpp:435-439 | a state of the machine with every slot's fence signaled and nothing submitted |
| RenderThread.Application.CompleteSubmission | src/launcher/windows/avk-windows-application.cpp:889-896 | the GPU's part: the oldest pending submission's fence is signaled and the semaphore raised to its value |
| RenderThread.Application.DestroyResources | src/core/private/render/vk/discard-pool.cpp:123-188 | the sweep loop, in place, is the step of the machine |
| RenderThread.Application.RecyclePools | src/core/private/render/vk/discard-pool.cpp:176-178 | the sweep loop over command pools, in place, recycles the due ones in order |
| RenderThread.Application.DiscardPoolInUse | src/core/private/render/vk/command-pools.cpp:155-164 | moves the active pool, if any, to the list with the current timeline |
| RenderThread.Application.AllocatePrimary | src/core/private/render/vk/command-pools.cpp:93-126 | the cached command buffer of the pool in use for the key, or a new one; with no pool in use the oldest recycled one leaves the ring, and with none there one is created |
| RenderThread.Application.RecreateSlots | src/core/private/render/vk/swapchain-vk.cpp:408-427 | the loop adds signaled slots until there are as many as images, and never removes any |
| RenderThread.Application.OnResize | src/core/private/app/avk-application.cpp:97-109 | discards the active pool at the current timeline, and adds signaled slots if there are more images |
| RenderThread.Application.OnFrame | src/core/private/app/avk-application.cpp:124-126 | the monitor's turn, with or without a sweep, is the step of the machine |
| RenderThread.Application.WaitForFence | src/core/private/render/vk/swapchain-vk.cpp:480-490 | the wait loop ends, with the fence signaled, after some number of completions |
| RenderThread.Application.QueueSubmission | src/launcher/windows/avk-windows-application.cpp:889-896 | the submission signals one more than the timeline and takes the slot's fence |
| RenderThread.Application.BeginRecording | src/core/private/app/avk-application.cpp:146-150 | the fence is reset only after the acquisition, and the slot's command buffer fetched |
| RenderThread.Application.FinishRecording | src/core/private/app/avk-application.cpp:173-184 | the submission, then the timeline, then the slot |
| RenderThread.Application.SignalNextFrame | src/core/private/render/vk/swapchain-vk.cpp:469-472 | the timeline goes up by one and the slot moves on, round the slots there are now |
| RenderThread.Application.QueuePresent | src/core/private/app/avk-application.cpp:186-201 | a failed presentation resizes, any other ends the round |
| RenderThread.Application.Render | src/core/private/app/avk-application.cpp:117-211 | a whole round, whatever the outcomes of acquisition and presentation, is a run of the machine and keeps its invariant |
| RenderThread.RoundSubmitsOnce | src/core/private/app/avk-application.cpp:125-211 | a round that acquires an image submits once: from its slot, with the command buffer the slot has in the pool in use, the oldest recycled or a new one, signalling one more than the timeline was; the pool stays in use unless the presentation fails, and is then discarded with that value; a round that acquires none submits nothing and leaves the fence signaled |
| Swapchain.RebuiltConservesExactly | src/core/private/render/vk/swapchain-vk.cpp:248-257 | a rebuild with any number of images keeps every handle in exactly one place if and only if it finds images to retire or no swapchain |
| Swapchain.NextInv | src/core/private/render/vk/swapchain-vk.cpp:343-561 | rebuilds, frames and lost surfaces keep conservation and never take a slot away |
| Swapchain.HandlesConserved | src/core/private/render/vk/swapchain-vk.cpp:343-561 | after any sequence of rebuilds, frames and lost surfaces every handle is in exactly one place, none is destroyed, and the frame index is in range |
| Swapchain.RetiredToCurrentSlot | src/core/private/render/vk/swapchain-vk.cpp:248-257 | what a rebuild retires goes to the lists of the current slot, in order and behind what was there, and to no other; fences stay |
| Swapchain.SlotsComplete | src/core/private/render/vk/swapchain-vk.cpp:408-427 | afterwards every slot has a fence and an acquire semaphore, and a slot that had a fence keeps it |
| Swapchain.ReleasedOnce | src/core/private/render/vk/swapchain-vk.cpp:441-467 | at any point of a run with a swapchain the destructor brings every handle ever created to exactly one destruction |
| Swapchain.ReleasesExactly | src/core/private/render/vk/swapchain-vk.cpp:441-467 | at any point of a run the destructor destroys every handle exactly once if and only if there is a swapchain or nothing was ever created |
| Swapchain.SurfaceLossLeaks | src/core/private/render/vk/swapchain-vk.cpp:547-561 | after the answer to a lost surface the destructor destroys nothing, while the object still holds everything |
| SwapchainOrder.RebuildReplaces | src/core/private/render/vk/swapchain-vk.cpp:248-427 | after a rebuild there are as many slots as before or as images; swapchain, views and semaphores are all new; of the old slots the fences and the lists stay, and only the lists of the current one grow |
| SwapchainOrder.SurrenderedToCurrentSlot | src/core/private/render/vk/swapchain-vk.cpp:546-563 | giving up for a lost surface puts everything on the lists of the current slot, in order, and touches no other slot and no fence |
| SwapchainOrder.TurnsGoRound | src/core/private/render/vk/swapchain-vk.cpp:469-472 | after k frames it is the turn of the k-th slot on, round the slots there are |
| SwapchainOrder.RunKinds | src/core/private/render/vk/swapchain-vk.cpp:123-172 | in every run each place holds handles of its own kind, so each is destroyed as what it is |
| SwapchainOrder.SurfacesLast | src/core/private/render/vk/swapchain-vk.cpp:123-172 | the destruction of a slot destroys its retired swapchains, newest first, before its surfaces |
| Swapchain.SwapchainObject.constructor | src/core/private/render/vk/swapchain-vk.cpp:435-439 | the first rebuild, from nothing |
| Swapchain.SwapchainObject.DiscardSwapchainImages | src/core/private/render/vk/swapchain-vk.cpp:149-157 | the loop moves every image's semaphore and view to the slot's lists and leaves no image a semaphore |
| Swapchain.SwapchainObject.CreateSwapchainImages | src/core/private/render/vk/swapchain-vk.cpp:356-391 | the loop gives every image a new semaphore and view, and its check never fires |
| Swapchain.SwapchainObject.DiscardAcquireSemaphores | src/core/private/render/vk/swapchain-vk.cpp:397-403 | the loop moves every slot's acquire semaphore to the current slot's list |
| Swapchain.SwapchainObject.RefreshFrames | src/core/private/render/vk/swapchain-vk.cpp:408-427 | the loop gives every slot the semaphore and the fence it lacks |
| Swapchain.SwapchainObject.RecreateSwapchain | src/core/private/render/vk/swapchain-vk.cpp:177-433 | the rebuild in place keeps conservation and has the effect the lemmas are about |
| Swapchain.SwapchainObject.ForceDiscardToCurrentFrame | src/core/private/render/vk/swapchain-vk.cpp:547-561 | gives the images, the swapchain and the lost surface to the current slot's lists, in place, and keeps conservation |
| Swapchain.SwapchainObject.SignalNextFrame | src/core/private/render/vk/swapchain-vk.cpp:469-472 | moves on to the next slot and keeps conservation |
| Swapchain.SwapchainObject.DestroyFrame | src/core/private/render/vk/swapchain-vk.cpp:117-171 | the slot's fence and semaphore, then its lists, each from the back, surfaces after swapchains |
| Swapchain.SwapchainObject.Destructor | src/core/private/render/vk/swapchain-vk.cpp:441-467 | with a swapchain every handle ever created is destroyed exactly once; without one it returns at once |
| PoolConservation.NextPlaces | src/core/private/render/vk/command-pools.cpp:93-192 | no step of any thread duplicates a pool, only an allocation creates one, and only the push of a recycle into storage its owner has drained loses one |
| PoolConservation.PoolInOnePlace | src/core/private/render/vk/command-pools.cpp:93-192 | in every run of any number of threads in which no thread unregisters while a recycle for it stands between its lookup and its push, each pool created is in exactly one place, and none is destroyed twice |
| PoolConservation.UnregisterSafeExactly | src/core/private/render/vk/command-pools.cpp:168-192 | unregistering a thread is safe in all such continuations if and only if no recycle that looked it up has yet to push |
| PoolConservation.ConservesExactly | src/core/private/render/vk/command-pools.cpp:136-192 | over all runs, every pool stays in one place and no freed storage is used, nowhere along the run and in no continuation, if and only if no thread unregisters under a recycle |
| PoolConservation.RecycleCanLose | src/core/private/render/vk/command-pools.cpp:136-153 | the run of two threads in which a recycle looks its owner up, the owner shuts down and frees its storage, and the push loses the pool |
| PoolConservation.ShutdownRuns | src/core/private/render/vk/command-pools.cpp:168-192 | alone, the steps of a shutdown destroy the ring's pools, oldest first, then the active one, and free the storage |
| PoolCaches.NextCaches | src/core/private/render/vk/command-pools.cpp:93-192 | every step keeps a cache entry for each pool a storage has or its thread will get back, unless it registers a thread too early |
| PoolCaches.LookupDefined | src/core/private/render/vk/command-pools.cpp:103-104 | the checked cache lookup never throws if no thread registers again while its discarded pools are waiting |
| PoolCaches.RegisterSafeExactly | src/core/private/render/vk/command-pools.cpp:13-34 | registering a thread, as every operation of it begins, is safe in all such continuations if and only if no pool it discarded before is still waiting |
| PoolCaches.AllocateSafeExactly | src/core/private/render/vk/command-pools.cpp:93-104 | the same of registering by an allocation, whose first pool is a new one |
| PoolCaches.LookupDefinedExactly | src/core/private/render/vk/command-pools.cpp:103-104 | over all runs, the lookup has not failed and cannot, nowhere along the run, if and only if no thread registers while pools of its earlier registration wait |
| PoolManager.Manager.constructor | src/core/private/render/vk/command-pools.cpp:67-68 | no thread registered, nothing created |
| PoolManager.Manager.EnsureThreadPools | src/core/private/render/vk/command-pools.cpp:13-34 | sets up empty storage for a thread that has none, and changes nothing for one that has |
| PoolManager.Manager.AllocateForLevel | src/core/private/render/vk/command-pools.cpp:93-126 | the active pool is the present one, the oldest recycled one or a new one, in that order; throws exactly if its cache entry is missing |
| PoolManager.Manager.DiscardActivePool | src/core/private/render/vk/command-pools.cpp:155-164 | moves the active pool, if any, to the discard list under the thread's name |
| PoolManager.RecycleReturns | src/core/private/render/vk/command-pools.cpp:136-153 | a recycle with nobody in between gives the pool to its owner's ring, or destroys it if the ring is full or the owner gone |
| PoolManager.Manager.Recycle | src/core/private/render/vk/command-pools.cpp:136-153 | the deleter in place is a lookup and a push of the machine on the oldest entry |
| PoolManager.Manager.Sweep | src/core/private/render/vk/discard-pool.cpp:123-178 | the sweep's loop under the discard pool's lock: the oldest entries, as many as are due, each recycled in order, the others kept |
| PoolManager.Manager.ThreadShutdown | src/core/private/render/vk/command-pools.cpp:168-192 | unregisters the thread and destroys its ring, oldest first, and its active pool |
| PoolManager.Manager.Destructor | src/core/private/render/vk/command-pools.cpp:71-91 | does for every registered thread what its shutdown would, and leaves no thread registered |
| PoolManager.DestructorReleasesExactly | src/core/private/render/vk/command-pools.cpp:71-91 | with no thread inside, the destructor brings every pool ever created to exactly one destruction if and only if no discarded pool was left waiting |
| Staging.StagesExactly | src/core/private/render/experimental/avk-staging-transient-manager.cpp:54-102 | recording succeeds if and only if every allocation does, no staging id is taken and every stage is in the table |
| Staging.StagedCommands | src/core/private/render/experimental/avk-staging-transient-manager.cpp:54-102 | then each operation records a host-to-transfer barrier and directly after it its copy, its staging buffer is discarded, and the buffer map is unchanged |
| Staging.EmittedApplies | src/core/private/render/experimental/avk-staging-transient-manager.cpp:63-88 | executing the recorded copies in their order has the effect of applying the operations in order |
| Staging.EmittedSafe | src/core/private/render/experimental/avk-staging-transient-manager.cpp:67-88 | no recorded copy reads a source whose host writes were not made visible to it |
| Staging.EmittedOverwrites | src/core/private/render/experimental/avk-staging-transient-manager.cpp:63-97 | no recorded copy writes a buffer that an unordered earlier copy may still be writing if and only if all destinations are different and none was being written before |
| Staging.AnyOrderApplies | src/core/private/render/experimental/avk-staging-transient-manager.cpp:79-88 | operations with different destinations mean the same in whatever order their copies run |
| Staging.FlushRecords | src/core/private/render/experimental/avk-staging-transient-manager.cpp:52-112 | a flush records the pairs of all operations and after them the grouped barriers |
| Staging.FlushGroups | src/core/private/render/experimental/avk-staging-transient-manager.cpp:105-112 | whatever the order of the iteration, each stage gets exactly one group, of exactly the barriers its operations need, or none if it needs none |
| Staging.FlushMeansOperations | src/core/private/render/experimental/avk-staging-transient-manager.cpp:52-121 | the recorded stream, in its order, leaves every older buffer as applying the operations in order would; no two copies race if and only if all destinations differ; nothing stale is read, every destination becomes visible to its reader, and the buffer map is unchanged with nothing pending |
| StagingMeaning.FlushWritesBytes | src/core/private/render/experimental/avk-staging-transient-manager.cpp:52-121 | a flush byte by byte: each byte of an older buffer becomes that of the last operation whose data reaches it, and stays if there is none; no buffer shrinks, and one grows only to fit some data |
| StagingMeaning.HostBarrierNeeded | src/core/private/render/experimental/avk-staging-transient-manager.cpp:67-77 | without its host-to-transfer barrier any one of the copies reads stale data |
| StagingMeaning.FlushShowsExactly | src/core/private/render/experimental/avk-staging-transient-manager.cpp:89-112 | after a flush a buffer is visible exactly to the readers its operations name, and to earlier readers if nothing wrote to it |
| StagingMeaning.FlushOrdersExactly | src/core/private/render/experimental/avk-staging-transient-manager.cpp:89-112 | a later copy may overtake those to a buffer exactly if one was recorded and no operation on it asks for a barrier that covers transfer writes |
| StagingMeaning.FlushStops | src/core/private/render/experimental/avk-staging-transient-manager.cpp:54-102 | a flush that stops does so at the first operation that has no memory, a taken id or an unknown stage, with everything before it recorded, and in the last case its copy too |
| StagingMeaning.StopsExactly | src/core/private/render/experimental/avk-staging-transient-manager.cpp:54-102 | it stops at some operation if and only if it does not come to its end |
| StagingMeaning.StagesAreBits | src/core/private/render/experimental/avk-staging-transient-manager.cpp:12-30 | the table has the stages of the seventeen lowest bits |
| Staging.StagingManager.constructor | src/core/private/render/experimental/avk-staging-transient-manager.cpp:8-41 | a table of the seventeen stages with nothing pending |
| Staging.StagingManager.Enqueue | src/core/private/render/experimental/avk-staging-transient-manager.cpp:43-49 | appends one operation |
| Staging.StagingManager.Refresh | src/core/private/render/experimental/avk-staging-transient-manager.cpp:123-135 | readies the manager for one flush |
| Staging.StagingManager.CreateBufferStaging | src/core/private/render/experimental/avk-basic-buffer-manager.cpp:87-129 | success, allocation failure or collision, and the buffer map after each |
| Staging.StagingManager.DiscardById | src/core/private/render/experimental/avk-basic-buffer-manager.cpp:236-255 | takes the id out of the map and puts its buffer on the discard list with the flush's time |
| Staging.StagingManager.StageOperation | src/core/private/render/experimental/avk-staging-transient-manager.cpp:54-102 | one turn of the loop in place, with its three ways out |
| Staging.StagingManager.Flush | src/core/private/render/experimental/avk-staging-transient-manager.cpp:52-121 | the flush in place: on success everything pending is recorded and cleared and the manager is unreadied, otherwise it stops where it failed |
| PipelinePool.CullMeans | src/core/private/render/vk/pipeline-pool-vk.cpp:547-551 | the first cull test succeeds for all flags but none and the bare cull flag |
| PipelinePool.DepthWritten | src/core/private/render/vk/pipeline-pool-vk.cpp:193-253 | the depth and stencil state set over defaults, face by face |
| PipelinePool.WrittenIsAsked | src/core/private/render/vk/pipeline-pool-vk.cpp:495-614 | over a clean template a creation hands over exactly what its key and base ask for |
| PipelinePool.HistoryIndependent | src/core/private/render/vk/pipeline-pool-vk.cpp:261-320 | after any sequence of creations from the constructor on, the create-info of the next depends on its key and base alone |
| PipelinePool.CreationMeans | src/core/private/render/vk/pipeline-pool-vk.cpp:495-614 | after any history, option by option: stages, blend states, culling, bias, stencil faces, and a dynamic line width for exactly the four line topologies |
| PipelinePool.CleanExactly | src/core/private/render/vk/pipeline-pool-vk.cpp:261-320 | a template serves every key and base correctly if and only if the fields a creation may leave alone are as the constructor made them |
| PipelinePool.ResetNeededExactly | src/core/private/render/vk/pipeline-pool-vk.cpp:261-320 | if some assignments of the reset are left out, the create-info still depends on key and base alone, after every history, if and only if none of eleven is among them; the other fifteen are redundant |
| PipelinePool.ReadNeededExactly | src/core/private/render/vk/pipeline-pool-vk.cpp:261-320 | of the part of a create-info the device reads, the same holds for six of the assignments |
| PipelinePool.SameKeySameInfoExactly | src/core/public/render/vk/pipeline-info.h:318-326 | two keys the cache takes for equal ask for the same create-info if and only if they agree on the color attachment count and, under the stencil test, on whether there is a stencil format |
| PipelinePool.DiscardSplits | src/core/private/render/vk/pipeline-pool-vk.cpp:636-659 | each cached pipeline is discarded or kept, exactly as often as it was cached |
| PipelinePool.WithoutKeeps | src/core/private/render/vk/pipeline-pool-vk.cpp:636-659 | the entries kept are exactly those of other layouts |
| PipelinePool.Pool.constructor | src/core/private/render/vk/pipeline-pool-vk.cpp:326-426 | empty caches over clean templates |
| PipelinePool.Pool.Parametrize | src/core/private/render/vk/pipeline-pool-vk.cpp:495-614 | the field by field overwriting in place has the effect WrittenIsAsked is about |
| PipelinePool.Pool.GetOrCreateGraphicsPipeline | src/core/private/render/vk/pipeline-pool-vk.cpp:481-634 | a hit returns the cached pipeline and changes nothing; a miss makes one from what key and base ask for; every cached pipeline was made from what its own key asks for |
| PipelinePool.Pool.GetOrCreateComputePipeline | src/core/private/render/vk/pipeline-pool-vk.cpp:430-479 | the same for compute pipelines |
| PipelinePool.Pool.DiscardAllPipelines | src/core/private/render/vk/pipeline-pool-vk.cpp:636-659 | moves the pipelines of one layout out of both caches in order, and keeps all others |
| Clock.FixedUpdatesCounted | src/core/private/os/avk-core.cpp:111-123 | in every run fixed time never passes simulation time, stays less than a step behind, and the fixed updates number floor of simulated time over the step |
| Clock.SimulationAdvances | src/core/private/os/avk-core.cpp:96-109 | in every run simulation time moves by the lengths of the frames less the part of each beyond the maximum, so it keeps up exactly if no frame is longer, and longer frames never move it less |
| Clock.MostBounds | src/core/private/app/avk-application.cpp:36-44 | no frame of any run performs more than floor((F - 1 + M) / F) fixed updates |
| Clock.MostReached | src/core/private/app/avk-application.cpp:36-44 | a run whose second frame performs that many |
| Clock.DocumentedBoundExactly | docs/Timing.md:57-59 | the documented bound floor(M / F) holds in all runs if and only if M is a multiple of F |
| Clock.HalvedIsSmoothed | src/core/private/os/avk-core.cpp:125-136 | halving three times with rounding down is rounding down the weighted sum over eight once, also for negative samples |
| Clock.SmoothedBetween | src/core/private/os/avk-core.cpp:125-136 | the smoothed delta lies between any bounds of the window |
| Clock.FrameIsTicks | src/core/private/app/avk-application.cpp:36-44 | a frame is its update and then its fixed updates, one call after the other |
| Clock.ReadingFromOutside | src/core/private/os/avk-core.cpp:138-155 | a reading another thread takes at any moment never shows fixed time a step and a frame behind, and shows it ahead only if simulation time moved on between its two loads |
| Clock.ReadingRunsAhead | src/core/private/os/avk-core.cpp:143-146 | a reading that does show fixed time ahead of simulation time |
| Clock.TimeInfo.constructor | src/core/private/os/avk-core.cpp:21-59 | all clocks at the start, the window filled with 16667 |
| Clock.TimeInfo.UTupdate | src/core/private/os/avk-core.cpp:96-109 | simulation time and the newest of the window move by the delta if it is at most the maximum and by exactly the maximum otherwise; the oldest of the window is gone |
| Clock.TimeInfo.UTfixedUpdate | src/core/private/os/avk-core.cpp:111-116 | moves fixed time on by one step |
| Clock.TimeInfo.UpdateFrame | src/core/private/app/avk-application.cpp:36-44 | the inner loop ends, leaves the clocks in step, and runs at most the bound of fixed updates |
| Clock.TimeInfo.Smooth | src/core/private/os/avk-core.cpp:125-136 | the loop over the ring computes floor((d0 + d1 + 2 d2 + 4 d3) / 8) of the window, oldest first |
| Clock.TimeInfo.Current | src/core/private/os/avk-core.cpp:138-155 | the readings between any two calls of the update thread; the delta is the oldest of the window, and fixed time is behind by less than a step after the inner loop and by less than a step and a frame inside it |
| Fnv.HashBytes | src/core/public/utils/bits.h:25-33 | the loop in 64-bit arithmetic computes the hash the lemmas are about |
| Fnv.StepUndoes | src/core/public/utils/bits.h:29-30 | the step for a known byte is a bijection of the 64-bit state |
| Fnv.HashUndoes | src/core/public/utils/bits.h:25-33 | running the hash backwards over the same string gives back the state it began from |
| Fnv.UnhashUndoes | src/core/public/utils/bits.h:25-33 | and running it forwards after that gives back the hash |
| Fnv.OneByteTold | src/core/public/utils/bits.h:25-33 | two strings that differ in exactly one byte have different hashes, from any state |
| Fnv.EmptyHash | src/core/public/render/experimental/avk-staging-transient-manager.h:17 | the hash of "empty" is the number its declaration notes |
| Fnv.SlotNamesTold | src/launcher/windows/avk-windows-application.cpp:620-624 | the keys of the first ten slots are different |
| Fnv.TenSlotsRecordSafely | src/launcher/windows/avk-windows-application.cpp:656-657 | so with up to ten slots no run records a pending command buffer |
| ComHandOff.NextInv | src/launcher/windows/avk-win32-window.cpp:46-59 | every step of any producer or the consumer keeps the lock, the announcement and the messages in order |
| ComHandOff.NoMessageLost | src/launcher/windows/avk-winlib/private/avk-comutils.cpp:342-372 | in every interleaving a waiting message is announced or about to be, at most one party has the write event and it is never lost, and every message is waiting or taken, once |
| ComHandOff.ConsumerDrains | src/launcher/windows/avk-winlib/private/avk-comutils.cpp:342-372 | from any state with no producer under way, the COM thread alone comes to take every message |
| ComHandOff.EverythingTaken | src/launcher/windows/avk-winlib/private/avk-comutils.cpp:342-372 | from every reachable state, whatever is under way, all producers can come to the end of their calls and all messages be taken |
| ComHandOff.TakesTheNewest | src/launcher/windows/avk-winlib/private/avk-comutils.cpp:354-372 | in every interleaving a step takes at most one message, the newest that waits, while no producer has the write event |
| ComHandOff.TakenIsProcessed | src/launcher/windows/avk-winlib/private/avk-comutils.cpp:354-372 | in every interleaving the last message taken stays in hand until its processing, with the write event released, is over |
| ComHandOff.ComPayload.constructor | src/launcher/windows/avk-win32-window.cpp:577-583 | the write event set, the work event clear, no messages |
| ComHandOff.ComPayload.EnqueueMessage | src/launcher/windows/avk-win32-window.cpp:46-59 | a whole enqueue appends the message and leaves both events set, as a run of the machine |
| ComHandOff.ComPayload.TakeNewest | src/launcher/windows/avk-winlib/private/avk-comutils.cpp:354-372 | one round takes the newest message, the work event stays set exactly if messages remain, and it is a run of the machine |
| ComHandOff.ComPayload.TakeMessages | src/launcher/windows/avk-winlib/private/avk-comutils.cpp:342-372 | the loop until the work event is clear takes all messages, newest first |

## Left out

- Mpmc.NextInv: positions and sequence numbers are unbounded; MpmcSafety.PushWordsDecide and PopWordsDecide say when 64-bit words decide alike. A ring of no cells, which the assertion also admits, has no model.
- Spsc.NextInv: one producer and one consumer, as the class demands; who takes these roles is the business of CommandPools.
- SchedulerJobs.NextInv: a job is handed over only while nobody has it, that is for the first time or after its push failed, which the code leaves to its callers; `reset` of a job in the graph is not modelled here.
- SchedulerShutdown.DrainsExactlyWhenCovered: no submission begins after the state looked at; one that does can be stranded like one under way.
- FiberLoop.FiberScheduler.Round: the round of one fiber while no other thread moves; interleavings are the business of the step machine.
- RenderLoop.NextFences: surface-lost and device-lost paths, which drop the swapchain or set the timeline back to zero.
- RenderSafety.ReclaimedAfterUse: the ten lists of resources are one list here, since each is swept alone by the same loop, and the monitor may sweep at any frame start; DiscardPool has the lists and the counting. A forced sweep of an idle device is a sweep at the timeline, which no stamp exceeds; one after a lost device is left out.
- Swapchain.HandlesConserved: the images themselves, which belong to the swapchain, and the surface before it is lost.
- PoolConservation.PoolInOnePlace: the device never gives out a destroyed pool's handle again; if it did, the cache entry of a pool destroyed because of a full ring would make `createCommandPool` abort. Pools are recycled by sweeps only, one at a time under the discard pool's lock, although `recycle` is public.
- Staging.FlushMeansOperations: what two racing copies to one buffer leave in it; contents are those of the recorded order.
- PipelinePool.Pool.GetOrCreateGraphicsPipeline: what the hash table answers is an input, because the hash of a key depends on the fragment output and its equality does not; the inverted comparison of `FragmentOut` is not used by it.
- Clock.FixedUpdatesCounted: the step and the maximum are constant and the scaled delta is any natural number; scaling by a float, and 64-bit overflow of microseconds, are not modelled.
- Fnv.SlotNamesTold: names beyond "Prim9" differ in more than one byte from some others, and nothing is claimed of them.
- ComHandOff.NoMessageLost: shutdown, whose signal the empty branch of the loop can clear.
- Vulkan, VMA, Boost.Fiber and operating system calls themselves; weak memory effects (steps are sequentially consistent).
- JobWait.CanReturnExactly: the job runs once; a job that is run again after its reset, and waits that begin then, are not modelled.
- Clock.ReadingFromOutside: the two loads of time; the window of deltas may be overwritten between its own loads.
- Building a graph from several threads, job functions that call the scheduler.
- Format, present mode and extent selection, descriptor pools, image and texture managers, windows, input, shaders, files, camera mathematics.
- Hashes of whole pipeline keys, `vectorHash`, `nextMultipleOf`, getters and enum tables.
