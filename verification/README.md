# Composition kernel: a verified model

This Dafny project models the parts of the repository whose correctness depends on interleaving,
ownership or whole runs, and proves what they promise. It has seven groups of modules.

* **Hot-swap kernel** (`kernel_*.dfy`). Components with leases and instance slots; a start, reloads
  that stage, build, drain, commit, resume and finalize, and stops that can be tried again. The
  kernel is a transition system: each step is one critical section of the kernel's one operation
  or of one of any number of concurrent `Use` callers; builders, finalizers, decoding and deadlines
  answer as they like. A run is any sequence of steps. The class `KernelRuntime.Kernel` has the
  source's loops; every critical section in it is recorded as a step, so whatever is proved of runs
  holds inside these methods, with callers acting between any two critical sections.
* **Failover store and executor** (`recovery_*.dfy`, `executor.dfy`). A primary and a local store, a
  bounded buffer, a replay loop; idempotent execution over claims with a lease and a retention.
* **Listener hub** (`hub_*.dfy`). Virtual listeners over physical addresses, with accept loops,
  servers and closers interleaving with one driver that prepares, commits, retires and releases.
* **Application generations** (`generation_*.dfy`). Pools shared by reference count, generations
  that hold them, and the coordinator that replaces one generation by the next.
* **Supervisor** (`supervisor.dfy`). Starting in order, stopping in reverse under a deadline, forcing.
* **Configuration** (`config_*.dfy`). Case-insensitive merge, the loader, environment records, default
  documents, their writer and the recursive reader (sections 2, 6 and 7 of RFC 8259).
* **Rate limiter** (`rate_limiter.dfy`). The token bucket over real arithmetic.

Code that changes state in place is modelled by classes and loops proved against functions; the
lemmas are about those functions and about all runs built from them. `wrappers.dfy` holds the
option type. `dafny verify dfyconfig.toml` checks the whole project.

Where the source falls short of what one might expect, the model follows the code, exhibits an
input, and proves for all inputs exactly when the code does meet the property:

* The failover store does not apply acknowledged writes in the order of their acknowledgement, or
  owes a write while healthy, in exactly the interleavings where a writer enqueues after the swap
  back or a direct write gets past a different pending one (`RecoveryFailover.RefinesExactly`; the
  two ways are `WriteCanBeStranded` and `WriteCanOvertake`). Nothing is lost in any of them
  (`NothingLost`).
* The coordinator can no longer be stopped exactly when the current or the retiring generation
  failed to stop its participants, ended with an error, or has servers that can end neither both
  gracefully nor both by force (`GenerationEndings.StoppableExactly`; the three ways are
  `GenerationReached.StuckIsReachable`, `BadEndIsReachable` and `CornerIsReachable`). Graceful stops
  alone fail for good after one that overran (`StoppableBy`, `OverrunIsReachable`).
* The generation that a running coordinator calls current receives all that comes in, at all times,
  exactly in the runs in which no reload fails between the listeners and the last hub and no server
  ceases to serve (`GenerationServing.ServesExactly`, `GenerationReached.ServiceCanBeLost`). Once its
  address leads elsewhere, every reload that keeps the address is refused (`StaysLost`).
* Two operations run under one key exactly when a claim is granted past the lease of an operation
  still under way (`Executors.ExclusiveExactly`, `OverrunBreaksExclusion`); without leases never
  (`LeaseFreeExcludes`), but then a claim whose completion the store refused blocks its key for good
  (`OrphanedForever`).
* The reader of default documents departs from a strict one exactly on a stray closing bracket
  behind the root object (`ConfigDocument.ReadsExactly`, `StrayBracketAccepted`).
* A generated document cannot be read back exactly when some text in it has a character that the
  writer escapes in a way JSON does not have (`ConfigDefaults.DefaultsRoundTrip`,
  `ConfigRoundTrip.UnreadableText`).
* Defaults and sources whose names and merges are in order are still refused exactly when a leaf of
  the tree cannot be marshalled, as an infinite number cannot (`ConfigCandidate.EncodableExactly`,
  `InfiniteNumberRefused`; `ConfigLoader.EncodableExactly`, `OrderMatters`).

## Model

| member | source | states |
|---|---|---|
| KernelSafety.ConsistentCut | internal/kernel/kernel.go:266-283 | In every interleaving of uses with reloads: whoever holds an instance that a reload brought in has that reload on record as some x, and in no continuation of the run does anybody hold, on any component that x changed, an instance older than the one x brought there |
| KernelSafety.NobodyHoldsWhileSwitching | internal/kernel/kernel.go:266-283 | From the first commit of a reload until it resumes a changed component, no callback runs on that component |
| KernelSafety.HolderIsRecorded | internal/kernel/app/lease.go:49-88 | An instance that a caller has acquired, other than the one its component was started with, is one that a committed reload on record switched the component to |
| KernelSafety.NobodyIsBehind | internal/kernel/app/lease.go:146-170 | At every reachable state nobody holds an instance older than what any committed reload on record brought its component |
| KernelSafety.NoUseAfterFinalize | internal/kernel/app/finalization.go:124-174 | Once the finalizer of an instance has begun, now and in every continuation of the run, the instance is not served and no caller holds it, however it left service |
| KernelSafety.OwnershipConserved | internal/kernel/app/runtime.go:94-121 | Every built instance is in exactly one of the candidate, current, retired and stopping places, or in none and finalized; its finalizer is invoked at most once, and never for a policy that has none |
| KernelSafety.StoppedMeansFinalized | internal/kernel/kernel.go:313-370 | A kernel that once ran and is stopped owns nothing: every instance is finalized, its finalizer having been invoked exactly once, however many earlier Stops failed; Stop answers nil |
| KernelSafety.SnapshotIsServed | internal/kernel/kernel.go:206-292 | Between operations of a running kernel every component serves an instance built from its section of the kernel snapshot, under the digest of that section |
| KernelSafety.NoPanicNoLostWakeup | internal/kernel/app/lease.go:103-206 | No run reaches a lifecycle panic or closes a channel twice; whenever a lease serves or is stopped, everybody waiting on it holds a closed transition channel |
| KernelSafety.RunExtends | internal/kernel/app/finalization.go:113-151 | Along every run slots are kept, finalizer invocations are never undone, and recorded switches stay recorded |
| KernelReload.ReloadAllOrNothing | internal/kernel/kernel.go:206-310 | From any idle running kernel, with any callers and outcomes in between: a rejected reload (also one that needs a restart) leaves every current slot, digest and the snapshot as they were, with the lease serving; otherwise exactly the components whose sections differ serve younger instances built from the new snapshot |
| KernelReload.ReloadGoesOn | internal/kernel/kernel.go:206-310 | Any single step of a reload, or of a caller during it, either keeps the reload under way on the same snapshot or ends it with that all-or-nothing result |
| KernelInductive.RunInv | internal/kernel/kernel.go:137-388 | The kernel invariant (leases, slots, ownership, the position of the running operation, the record of switches) holds in every run |
| KernelInductive.TickKeeps | internal/kernel/kernel.go:137-388 | Every critical section of start, reload and stop keeps the invariant |
| KernelInductive.CallerKeeps | internal/kernel/app/lease.go:34-101 | Every critical section of a concurrent use keeps the invariant, wherever the kernel stands |
| Leases.NoLostWakeup | internal/kernel/app/lease.go:49-88 | In a consistent lease a waiter can go on as soon as the lease serves or is stopped, acquires exactly if it serves, and never waits again |
| Leases.BeginDrainOk | internal/kernel/app/lease.go:114-144 | Beginning, continuing or sharpening a drain keeps the lease consistent, answers with the present drain channel, and fails exactly on a lease that never served |
| Leases.ReleaseOk | internal/kernel/app/lease.go:90-101 | A release never makes the count negative, closes a drain channel at most once, keeps the lease consistent and undoes nothing a drain has reached |
| Leases.ReplaceOk | internal/kernel/app/lease.go:146-155 | Replacing the instance of a drained lease keeps it consistent: nobody holds the old one |
| Leases.ResumeOk | internal/kernel/app/lease.go:157-170 | Resuming a draining lease cannot panic or close a channel twice, and keeps the lease consistent |
| Leases.TakeOk | internal/kernel/app/lease.go:192-206 | Taking the instance out of a drained lease cannot panic, and keeps the lease consistent |
| ComponentLemmas.FinStepEffect | internal/kernel/app/finalization.go:163-174 | Every step of finalizing a slot keeps the component consistent, leaves the lease alone, and releases the pointer exactly when the finalizer has answered well |
| ComponentLemmas.OwnedApart | internal/kernel/app/runtime.go:282-298 | In a consistent component the candidate, the retired and the stopping instance are different ones |
| KernelRuntime.Kernel.constructor | internal/kernel/kernel.go:69-90 | A new kernel is the initial state of the machine |
| KernelRuntime.Kernel.Start | internal/kernel/kernel.go:137-182 | Starts once: nil exactly if the kernel runs and every component serves its section of the snapshot; a failure stops the kernel; a second start is refused and changes nothing |
| KernelRuntime.Kernel.StartOne | internal/kernel/kernel.go:195-204 | Builds, starts, readies and publishes one component, after which all up to it serve their sections of the snapshot; or gives it up, after which it owns nothing except what its finalizer failed on, and those before it still serve |
| KernelRuntime.Kernel.FailStart | internal/kernel/kernel.go:184-193 | A failed start ends in the stopped state; no candidate, retired or stopping instance is left except those whose finalizer failed, and a component that could not be drained is left to itself |
| KernelRuntime.Kernel.StopStarted | internal/kernel/kernel.go:423-440 | No candidate, retired or stopping instance is left except those whose finalizer failed, and if every started component drained, all their leases are stopped |
| KernelRuntime.Kernel.Reload | internal/kernel/kernel.go:206-310 | The reload as its loops: refused unless running, and otherwise the all-or-nothing result above, with callers acting between any two critical sections |
| KernelRuntime.Kernel.StageAll | internal/kernel/kernel.go:230-255 | Stages every component; ends the reload at once if one does not decode, if none changed, or if changed ones need a restart |
| KernelRuntime.Kernel.PrepareAll | internal/kernel/kernel.go:257-264 | Either every changed component has a started candidate built from its section of the new snapshot, still serving what it served; or one failed, and every component of the kernel serves its old instance under its old digest |
| KernelRuntime.Kernel.DrainAll | internal/kernel/kernel.go:294-310 | Either every changed component is drained, its candidate ready; or those from some position on are draining and hold what they served, and the ones before it serve as before |
| KernelRuntime.Kernel.RollbackAll | internal/kernel/kernel.go:267-270 | Afterwards every component of the kernel serves its old instance under its old digest |
| KernelRuntime.Kernel.DiscardAll | internal/kernel/kernel.go:405-413 | Finalizes the candidates in reverse; the reload is rejected with everything as before |
| KernelRuntime.Kernel.CommitAll | internal/kernel/kernel.go:274-276 | Afterwards every changed component, still drained, has its candidate as the current instance and the new digest, and the old instance waits to be finalized |
| KernelRuntime.Kernel.ResumeAll | internal/kernel/kernel.go:281-283 | Afterwards every component of the kernel serves an instance built from its section of the new snapshot, and the changed ones owe the finalization of what they served before |
| KernelRuntime.Kernel.RetireAll | internal/kernel/kernel.go:415-421 | Finalizes the retired instances in reverse; a failure is reported as a committed cleanup error |
| KernelRuntime.Kernel.Stop | internal/kernel/kernel.go:313-370 | Stops, and may be tried again; a nil result for a kernel that once ran means every instance is finalized, its finalizer invoked exactly once |
| KernelRuntime.Kernel.DrainForStop | internal/kernel/kernel.go:372-388 | Either every component is drained for good and nobody holds any instance; or the stop is incomplete, and every component serves or drains so that a later stop can go on |
| KernelRuntime.Kernel.FinalizeAll | internal/kernel/kernel.go:349-370 | Every lease is stopped and whatever the kernel still owns is an instance whose finalizer failed; the answer is nil exactly if the kernel is stopped, and then it owns nothing |
| KernelObjects.ComponentLease.Attempt | internal/kernel/app/lease.go:49-88 | One pass of the acquire loop: the current instance, a channel to wait on, or a refusal |
| KernelObjects.ComponentLease.GiveUp | internal/kernel/app/lease.go:73-86 | A waiter whose context ends leaves the lease as it was, without itself |
| KernelObjects.ComponentLease.Release | internal/kernel/app/lease.go:90-101 | A release equals the specified one, completing the drain when it is the last |
| KernelObjects.ComponentLease.PublishInitial | internal/kernel/app/lease.go:103-112 | Publishes the first instance and wakes the waiters |
| KernelObjects.ComponentLease.BeginOrContinueDrain | internal/kernel/app/lease.go:114-144 | Begins, continues or sharpens a drain, or refuses, exactly as specified |
| KernelObjects.ComponentLease.ReplaceWhileDraining | internal/kernel/app/lease.go:146-155 | Swaps the instance of a drained lease and returns the previous one |
| KernelObjects.ComponentLease.Resume | internal/kernel/app/lease.go:157-170 | Serves again under a new transition channel |
| KernelObjects.ComponentLease.StopPending | internal/kernel/app/lease.go:182-190 | Stops a lease that never served |
| KernelObjects.ComponentLease.TakeWhileDraining | internal/kernel/app/lease.go:192-206 | Takes the instance and stops the lease |
| KernelObjects.ManagedComponent.Stage | internal/kernel/app/runtime.go:60-92 | Decodes the section and reports whether its digest changed |
| KernelObjects.ManagedComponent.Build | internal/kernel/app/runtime.go:94-121 | Builds a candidate slot, or leaves everything as it was |
| KernelObjects.ManagedComponent.PublishInitial | internal/kernel/app/runtime.go:155-168 | The candidate becomes current, its digest the applied one |
| KernelObjects.ManagedComponent.Commit | internal/kernel/app/runtime.go:198-212 | The candidate becomes current and the current one retired, with the staged digest |
| KernelObjects.ManagedComponent.Rollback | internal/kernel/app/runtime.go:216-223 | Serves the old instance again, the candidate still to be discarded |
| KernelObjects.ManagedComponent.PrepareStop | internal/kernel/app/runtime.go:245-255 | The drained current instance moves to stopping |
| KernelObjects.ManagedComponent.FinStep | internal/kernel/app/finalization.go:163-174 | One step of DiscardCandidate, StopPrevious or StopCurrent on the slot in question |
| Finalization.InstanceSlot.Begin | internal/kernel/app/finalization.go:124-139 | Admits one finalizer invocation, ever; afterwards answers what the first came to |
| Finalization.InstanceSlot.Finish | internal/kernel/app/finalization.go:141-151 | Records what the finalizer came to |
| Finalization.InstanceSlot.Deactivate | internal/kernel/app/finalization.go:153-161 | A slot is deactivated once, and only while active |
| RecoveryFailover.FailoverRefines | pkg/execution/recovery.go:265-499 | With each write one step and failed primary calls without effect: the effective writes of the primary followed by what is still pending are the acknowledged writes, in the order of their acknowledgement; when healthy nothing is pending, the primary has exactly the records of the acknowledged writes, and answers completed for every completion still retained |
| RecoveryFailover.RefinesExactly | pkg/execution/recovery.go:295-499 | In every interleaving of any number of writers with the replay loop: acknowledged equals effective followed by pending, and a healthy store owes nothing, at every point of a run if and only if no step of it is an enqueue accepted while healthy or a direct write that succeeds past a different pending one |
| RecoveryFailover.RefinesStep | pkg/execution/recovery.go:295-499 | The same for one step from any reachable state in which it holds |
| RecoveryFailover.InterleavedRefines | pkg/execution/recovery.go:295-499 | Every interleaving without such a step refines a direct store as whole writes do, a write that waited for room and resumed later included |
| RecoveryFailover.NothingLost | pkg/execution/recovery.go:295-499 | In every interleaving, whatever interferes: the acknowledged writes are, as a multiset, the effective ones and the pending ones, so none is lost or applied twice |
| RecoveryFailover.PrimaryFollows | pkg/execution/memory.go:92-135 | In every fine-grained run the primary holds, outside the probe keys, exactly the records of its effective writes in order, and every retained completion |
| RecoveryFailover.BufferLaw | pkg/execution/recovery.go:326-382 | In every fine-grained run: the buffer never exceeds its capacity; accepted items are those that left followed by the buffer; an item leaves only after the primary accepted it; the state only moves Healthy, Degraded, Recovering and back as allowed, each move counted |
| RecoveryFailover.WriteCanBeStranded | pkg/execution/recovery.go:311-317 | One way the order fails: a write routed before the swap and enqueued after it is acknowledged and stays buffered in a healthy store |
| RecoveryFailover.WriteCanOvertake | pkg/execution/recovery.go:295-317 | The other way: a write routed to the primary before the outage succeeds there after another was buffered, and is effective before one that was acknowledged earlier |
| RecoveryFailover.StrandedExactlyBy | pkg/execution/recovery.go:311-317 | From a healthy store with an empty buffer, the one step that leaves it healthy with a write in the buffer is the enqueue of a writer that was routed before |
| RecoveryFailover.NoLostSpace | pkg/execution/recovery.go:351-382 | A writer blocked on a full buffer can go on as soon as there is room: no wakeup is lost |
| RecoveryFailover.BackoffDoubles | pkg/execution/recovery.go:502-517 | After n failures the wait is exactly the first one times 2^n, capped at the maximum |
| RecoveryFailover.WriteSettles | pkg/execution/recovery.go:295-317 | A writer that nobody interrupts does in its several critical sections what one write step does |
| RecoveryFailover.AtomicIsRun | pkg/execution/recovery.go:295-317 | Every run in which writes are single steps is a fine-grained run, so all its guarantees hold there too |
| RecoveryFailover.AtomicSettled | pkg/execution/recovery.go:446-499 | Between whole writes nobody is under way and a healthy store owes the primary nothing |
| RecoveryMachine.RunInv | pkg/execution/recovery.go:295-499 | The buffer, path and wake-up invariants hold in every fine-grained run |
| RecoveringStores.RecoveringStore.Write | pkg/execution/recovery.go:295-317 | Routes, degrades on a dependency error, writes locally and enqueues; what is acknowledged is exactly what is effective or pending, in order, and every drop is counted |
| RecoveringStores.RecoveringStore.Claim | pkg/execution/recovery.go:248-263 | A claim is granted only by the primary of a healthy store or by the local one of a degraded store, and only if nothing active held the key there |
| RecoveringStores.RecoveringStore.EnqueueNow | pkg/execution/recovery.go:351-382 | Appends, or drops and counts, or refuses, by the overflow policy |
| RecoveringStores.RecoveringStore.DegradeNow | pkg/execution/recovery.go:326-342 | Leaves healthy once |
| RecoveringStores.RecoveringStore.LookOrSwap | pkg/execution/recovery.go:460-471 | Takes the head of the buffer, or swaps back when it is empty, in one critical section |
| RecoveringStores.RecoveringStore.ReplayOne | pkg/execution/recovery.go:473-498 | Replays one item and drops it only after the primary accepted it, else falls back |
| RecoveringStores.RecoveringStore.Recover | pkg/execution/recovery.go:446-499 | Replays until the buffer is empty; a recovery that reports success leaves a healthy store whose primary has every acknowledged write |
| RecoveringStores.RecoveringStore.GrowBackoffNow | pkg/execution/recovery.go:502-517 | Doubles the wait up to the maximum |
| RecoveringStores.RecoveringStore.Round | pkg/execution/recovery.go:385-415 | A whole round of the loop never ends in Recovering, and if it ends healthy nothing is owed |
| MemoryStores.CompletionHolds | pkg/execution/memory.go:50-135 | A retained completion survives every claim and every write other than a new completion of its key, and refuses every claim of its key |
| MemoryStores.MemoryStore.TryClaim | pkg/execution/memory.go:50-73 | Claims exactly if nothing active holds the key |
| MemoryStores.MemoryStore.Completed | pkg/execution/memory.go:75-90 | Answers whether a completion is retained |
| MemoryStores.MemoryStore.Write | pkg/execution/memory.go:92-135 | Complete, Release and Record as specified: claims and records change for the one key alone |
| Executors.OneAtATime | pkg/execution/executor.go:29-107 | As long as no operation joined one past its lease: no two operations run under one key, and no claim is granted while one runs whose lease has not ended or a completion is retained |
| Executors.OverrunBreaksExclusion | pkg/execution/executor.go:56-65 | An operation that outlives its lease can be joined by a second one under its key, of another executor over the store |
| Executors.GrantedExactly | pkg/execution/memory.go:50-73 | While an operation runs under a key, a fresh one is granted the key if and only if the lease of the first has ended by the clock the second read |
| Executors.ExclusiveExactly | pkg/execution/executor.go:56-65 | In every run two operations overlap under one key if and only if some claim was granted past the lease of an operation still under way |
| Executors.LeaseFreeExcludes | pkg/execution/executor.go:56-65 | Without leases operations under one key exclude each other, however long they take |
| Executors.PunctualExcludes | pkg/execution/executor.go:56-65 | Operations that settle within their leases exclude each other |
| Executors.AbandoningOrphans | pkg/execution/executor.go:94-107 | An operation that ends while the store refuses its completion or release leaves its claim with nobody to settle it |
| Executors.OrphanExactly | pkg/execution/memory.go:50-73 | Such a claim goes if and only if a new operation is granted the key, which needs the lease to have ended by the clock it read |
| Executors.OrphanedForever | pkg/execution/memory.go:50-73 | Without a lease it never goes: the key is blocked in every continuation |
| Executors.Executor.Execute | pkg/execution/executor.go:29-107 | Invalid, duplicate and already-running executions, and those the store fails before the claim, change nothing; a completed one leaves its record and a retained claim, a failed one its record and no claim, each as far as the store takes it; a completion or release the store does not take leaves the claim to its lease; no other key is touched |
| HubSafety.ConnectionConservation | pkg/httpx/listener_hub.go:402-507 | For every route of every run: pending equals the connections reserved and not yet queued, plus the queue, plus those whose count is being taken back; the guard on pending never fails; every reserved connection is under way, queued, delivered or discarded, once; and no connection is reserved twice |
| HubSafety.StableDrain | pkg/httpx/listener_hub.go:481-507 | Once a route has signalled drained it stays retiring with nothing in flight or queued, and never receives another connection |
| HubSafety.LinearHandoff | pkg/httpx/listener_hub.go:226-247 | Every connection goes to the route committed last when it was reserved; routes never go back in commit order, and no connection is reserved on two |
| HubSafety.NoneBehindTheBarrier | pkg/httpx/listener_hub.go:149-184 | Whatever is reserved after a commit has left its dispatch barrier goes to that route or a later one |
| HubSafety.CommitNeverRefused | pkg/httpx/listener_hub.go:149-163 | With the active route as previous, no commit is ever refused |
| HubInductive.RunInv | pkg/httpx/listener_hub.go:66-507 | The invariant of routes, addresses, acceptors and the handoff holds in every run |
| HubInductive.ApplyKeeps | pkg/httpx/listener_hub.go:66-507 | Every critical section and channel operation keeps it |
| HubObjects.GenerationListener.TryReserve | pkg/httpx/listener_hub.go:444-452 | Reserves exactly if the listener is neither closed nor retiring |
| HubObjects.GenerationListener.Accept | pkg/httpx/listener_hub.go:402-423 | Delivers the head of the queue and takes its count back |
| HubObjects.GenerationListener.Close | pkg/httpx/listener_hub.go:425-440 | Drains the queue: everything queued is discarded, what is in hand stays counted, and a retiring listener with nothing in hand is drained |
| HubObjects.GenerationListener.RetireNow | pkg/httpx/listener_hub.go:481-486 | Marks the listener retiring; drained at once if nothing is pending |
| HubObjects.GenerationListener.CompletePending | pkg/httpx/listener_hub.go:497-507 | Takes one count back, which is there to be taken |
| HubObjects.GenerationListener.MarkDrainedIfNeeded | pkg/httpx/listener_hub.go:488-495 | Signals drained exactly when retiring with nothing pending |
| HubObjects.ListenerHub.AcceptPhysical | pkg/httpx/listener_hub.go:351-368 | The loop accepts one connection, or ends |
| HubObjects.ListenerHub.PickTarget | pkg/httpx/listener_hub.go:370-375 | The route that may reserve is the active one, or else the retiring one, and the last committed |
| HubObjects.ListenerHub.ReserveTarget | pkg/httpx/listener_hub.go:369-381 | Under the dispatch lock reserves the connection on the last committed route, or closes it |
| HubObjects.ListenerHub.DispatchReserved | pkg/httpx/listener_hub.go:454-462 | Hands a reserved connection over: queued, or discarded once the route is closed, either way possible after a close |
| HubObjects.ListenerHub.Prepare | pkg/httpx/listener_hub.go:77-123 | A new address or a second route on a known one; a refusal changes nothing |
| HubObjects.ListenerHub.Commit | pkg/httpx/listener_hub.go:149-185 | Switches to the candidate: it is the one open route and the last commit, and the previous one is retiring; or refuses and changes nothing |
| HubObjects.ListenerHub.Retire | pkg/httpx/listener_hub.go:226-249 | Closes the current route to new connections: nothing is open afterwards |
| HubObjects.ListenerHub.Abort | pkg/httpx/listener_hub.go:187-224 | Drops an unsettled candidate and leaves the current route the one in service; a committed route is refused, and for none or a settled one nothing is done |
| HubObjects.ListenerHub.Release | pkg/httpx/listener_hub.go:251-274 | Refuses an active route; otherwise forgets it, and its address with the last of its routes |
| HubObjects.ListenerHub.Stop | pkg/httpx/listener_hub.go:276-318 | Takes every address out of service: nothing is open and none is known afterwards; a second stop does nothing |
| GenerationPools.AcquireOk | internal/composition/generation_resources.go:52-94 | An acquire answers refused with nothing changed, reused for a known digest, or built for a new one, and adds exactly one reference for the new handle |
| GenerationPools.ReleaseOk | internal/composition/generation_resources.go:100-130 | A release of a held handle never finds the reference invariant broken and takes exactly its own reference away |
| GenerationPools.LastCloses | internal/composition/generation_resources.go:100-130 | A release closes the resource if and only if no other handle is left on it |
| GenerationSafety.PoolReferenceLaw | internal/composition/generation_resources.go:52-136 | In every run: references equal unreleased handles, an entry is closed exactly once if it has none and never otherwise, the invariant-failed branch is never taken, and the digests held are exactly those of unsettled generations |
| GenerationSafety.CoordinatorStates | internal/kernel/generation.go:148-461 | Between operations: running means a ready current generation, no retiring one, no cleanup debt and the digest of its snapshot; degraded means a retained retiring generation; no unsettled generation is ever forgotten |
| GenerationSafety.StoppedMeansClosed | internal/kernel/generation.go:362-461 | In the stopped state every generation is settled, every handle released, every resource closed exactly once and every pool empty |
| GenerationSafety.ReloadOutcome | internal/kernel/generation.go:223-360 | A reload is refused outright, rejected with the same generation current and the same resources held, or applied, and then the previous generation has ended or is retained with reloads blocked |
| GenerationSafety.FailedParticipantIsFinal | internal/composition/generation.go:928-945 | A generation whose participants failed to stop is never settled, never releases what it holds, and the coordinator never reaches stopped, whatever is done afterwards |
| GenerationEndings.StoppableExactly | internal/kernel/generation.go:362-461 | After any operations, whatever comes next, some continuation reaches the stopped state if and only if neither the current nor the retiring generation is one whose participants failed to stop, or that ended with an error, or whose two servers can end neither both gracefully nor both by force |
| GenerationEndings.StoppableBy | internal/kernel/generation.go:362-461 | The same for graceful stops alone, for forced stops alone, and for both: a continuation with stops of these kinds reaches stopped if and only if neither generation is hopeless for all of them |
| GenerationEndings.EndsRemember | pkg/httpx/server.go:172-306 | An end that a server can no longer do, because it failed before, was cut off or ceased to serve, is made possible again by no end of either kind |
| GenerationEndings.GraceSparesForce | pkg/httpx/server.go:191-242 | A graceful stop, however it goes, takes no forced end away |
| GenerationEndings.StopThenForce | internal/kernel/generation.go:362-461 | Unless a generation is hopeless for both kinds, a graceful stop and then a forced one, in which everything that can answers well, reach the stopped state |
| GenerationEndings.DeadEndForever | internal/composition/generation.go:712-839 | A generation that is hopeless for some kinds of stop stays so after every continuation with stops of these kinds, and the coordinator is not stopped |
| GenerationEndings.StopsWell | internal/kernel/generation.go:362-461 | One stop of a kind for which neither generation is hopeless, in which everything answers well, reaches the stopped state |
| GenerationReached.StuckIsReachable | internal/composition/generation.go:928-945 | One dead end: a stop whose participants fail |
| GenerationReached.BadEndIsReachable | internal/composition/generation.go:727-731 | Another: a reload after which the participants of the previous generation stop, but one resource fails to close, leaves it settled with that error for good |
| GenerationReached.OverrunIsReachable | pkg/httpx/server.go:172-189 | After one stop that overran an open request no further graceful stop succeeds, but a forced one still can |
| GenerationReached.CornerIsReachable | pkg/httpx/server.go:244-261 | The third dead end: that stop, and then a forced one that is given no time; the participants were never asked |
| GenerationServing.ServesExactly | internal/composition/generation.go:592-652 | In every run, the generation that a running or degraded coordinator calls current receives the connections to both its addresses, the messages and the schedules, at all times, if and only if no reload failed after the listeners and before the last hub had switched, and no server of a current generation ceased to serve |
| GenerationServing.StepServes | internal/composition/generation.go:592-652 | The same for one operation from any consistent state in which it does |
| GenerationServing.AppliedExactly | pkg/httpx/listener_hub.go:149-185 | A reload in which nothing fails by itself is applied if and only if each listener hub either changes its address or still leads to the generation to be replaced |
| GenerationServing.StaysLost | internal/composition/generation.go:592-652 | Once its address leads elsewhere, the coordinator runs and is ready with the same generation after any number of further reloads that keep the address, none of which is applied |
| GenerationReached.ServiceCanBeLost | internal/composition/generation.go:622-632 | Such a reload: messages fail to switch, the reload is rejected, and the coordinator runs and is ready with a generation that no connection reaches |
| GenerationSafety.ReleaseResourcesOk | internal/composition/generation.go:900-916 | Releasing a generation releases every resource it holds, whichever finalizers fail, and no other generation's |
| GenerationSafety.StopGenerationOk | internal/composition/generation.go:712-779 | A successful stop settles the generation; one that does not settle it leaves every handle and pool as they were; no other generation is touched |
| GenerationSafety.AbortOk | internal/composition/generation.go:656-702 | Aborting an uncommitted generation settles it, keeps the reference accounts, and touches no other generation |
| GenerationSafety.RunInv | internal/kernel/generation.go:148-461 | The pool, holder and coordinator invariants hold in every run |
| GenerationObjects.ResourcePool.AcquireNow | internal/composition/generation_resources.go:52-94 | The pool's own loop-free acquire equals the specified one |
| GenerationObjects.ResourcePool.ReleaseNow | internal/composition/generation_resources.go:100-130 | The release equals the specified one, closing at the last reference |
| GenerationObjects.Coordinator.AcquireAll | internal/composition/generation.go:141-500 | Acquires the shared resources in order, up to the first failure |
| GenerationObjects.Coordinator.ReleaseAll | internal/composition/generation.go:900-916 | Releases them in the reverse order, whichever fail |
| GenerationObjects.Coordinator.Abort | internal/composition/generation.go:656-702 | Aborts once; later calls repeat the answer |
| GenerationObjects.Coordinator.EndBothServers | internal/composition/generation.go:749-824 | Gracefully the servers end one after the other, by force both whatever the first comes to; each answers what its end came to before |
| GenerationObjects.Coordinator.End | internal/composition/generation.go:712-839 | Ends once: quiet and the servers first, then participants, then resources, stopping at the first failure |
| GenerationObjects.Coordinator.SwitchNow | internal/composition/generation.go:616-640 | The hubs switch in order; what was switched before a failure stays switched |
| GenerationObjects.Coordinator.CommitNow | internal/composition/generation.go:592-652 | The generation becomes current once every hub has switched |
| GenerationObjects.Coordinator.BreakNow | internal/composition/generation.go:842-868 | A server of a generation that has not ended ceases to serve |
| GenerationObjects.Coordinator.StartNow | internal/kernel/generation.go:148-221 | Starts once and ends running with a ready generation, or failed |
| GenerationObjects.Coordinator.ReloadNow | internal/kernel/generation.go:223-360 | Ends with the reload outcome above |
| GenerationObjects.Coordinator.StopNow | internal/kernel/generation.go:362-421 | Ends stopped with nothing held, or failed |
| GenerationObjects.Coordinator.ForceStopNow | internal/kernel/generation.go:423-461 | Likewise for the forced stop |
| GenerationObjects.HttpServer.RunBreaks | pkg/httpx/server.go:139-158 | Serving that ends unasked is remembered as failed |
| GenerationObjects.HttpServer.Stop | pkg/httpx/server.go:172-242 | The graceful end is tried once and its outcome repeated; a server cut off by force has none |
| GenerationObjects.HttpServer.ForceStop | pkg/httpx/server.go:244-306 | The forced end is tried once and its outcome repeated; one that has ended needs none |
| Supervisors.OnlyCancellationLeaves | pkg/supervisor/supervisor.go:637-658 | An error counts as only cancellation if and only if every error at the ends of its chains and joins is the cancellation |
| Supervisors.Supervisor.Run | pkg/supervisor/supervisor.go:166-205 | A call while a run is under way or after one is refused and changes nothing; otherwise every started participant is stopped exactly once, in reverse; force is used at most once each and only after the stop failed or overran; nil only if every start and every stop succeeded in time, nothing was forced and every task returned |
| Supervisors.Supervisor.RunOperation | pkg/supervisor/supervisor.go:207-235 | The same for a one-shot operation, refusal included |
| Supervisors.Supervisor.Shutdown | pkg/supervisor/supervisor.go:337-463 | Stops are issued in reverse start order whatever goes wrong; a nil result means all of them answered nil in the graceful phase and, with tasks, that all returned |
| Supervisors.Supervisor.StopAll | pkg/supervisor/supervisor.go:355-383 | Stops the started participants in reverse, each exactly once |
| Supervisors.Supervisor.ForceAll | pkg/supervisor/supervisor.go:390-431 | Forces, in the order they were stopped, only those whose stop went wrong and that support it |
| Supervisors.Supervisor.AwaitPending | pkg/supervisor/supervisor.go:433-454 | Collects each late answer at most once; the result stays nil exactly if it was and every collected answer is, and the units show how each call ended |
| Supervisors.Supervisor.WaitTasks | pkg/supervisor/supervisor.go:465-497 | Nil only if every task has returned, none with an error other than cancellation |
| Supervisors.Supervisor.StartAll | pkg/supervisor/supervisor.go:174-187 | Starts in order up to the first failure |
| Supervisors.Supervisor.Complete | pkg/supervisor/supervisor.go:567-586 | Reports nil exactly if there was no error and every unit is stopped |
| Supervisors.Supervisor.AwaitTermination | pkg/supervisor/supervisor.go:307-335 | Ends with the first task that returns, or with the context |
| Supervisors.Supervisor.AwaitReadiness | pkg/supervisor/supervisor.go:278-305 | Ready only if every confirming task has confirmed and none has returned |
| Supervisors.Supervisor.BeginRun | pkg/supervisor/supervisor.go:237-264 | Admits one run, with distinct and well-formed owner names |
| Supervisors.Supervisor.ValidateOwners | pkg/supervisor/supervisor.go:509-545 | Accepts exactly distinct, well-formed names |
| Supervisors.Supervisor.ValidateName | pkg/supervisor/supervisor.go:547-565 | Accepts exactly the names of the allowed form |
| Supervisors.Supervisor.SettleUnstarted | pkg/supervisor/diagnostics.go:129-139 | Marks exactly the untouched pending units stopped |
| ConfigMerge.MergeLookup | internal/kernel/config/config.go:538-568 | Along every folded path a merge leads to what both sides lead to, merged: the later leaf, the united objects, or whichever side has something |
| ConfigMerge.MergeUnique | internal/kernel/config/config.go:538-568 | Merging keeps siblings distinct without regard to case |
| ConfigMerge.CompatiblePaths | internal/kernel/config/config.go:545-550 | The merge has no conflict if and only if no folded path is an object on one side and something else on the other |
| ConfigMerge.MergeAssociative | internal/kernel/config/config.go:538-568 | The merge is associative, including the spelling of the keys that survive |
| ConfigMerge.MergeOrderIrrelevant | internal/kernel/config/config.go:538-568 | Both groupings of three merges fail together, and agree when they do not |
| ConfigMerge.MergeMap | internal/kernel/config/config.go:538-559 | The loop over the later source fails exactly on an incompatible pair and names a path in conflict; otherwise it computes the merge |
| ConfigMerge.MatchingKey | internal/kernel/config/config.go:561-568 | Finds the key that stands for a candidate, or none |
| ConfigMerge.LowerFolds | internal/kernel/config/config.go:662-676 | Lower-casing does not change how a string folds, so keys that sort as equal fold alike |
| ConfigLoader.Load | internal/kernel/config/config.go:40-80 | Loading succeeds if and only if every name is distinct and not blank, every source loads, every tree is canonical, no merge conflicts, and every leaf of the merged tree can be marshalled; the result is the merge of all and is canonical |
| ConfigLoader.MergeableExactly | internal/kernel/config/config.go:67-75 | Merging all sources succeeds if and only if each is canonical and no two of them conflict, so success does not depend on their order |
| ConfigLoader.LatestWins | internal/kernel/config/config.go:67-75 | In the loaded tree a path exists exactly if some source has it, and a leaf there is that of the latest source that has anything there |
| ConfigLoader.MergedCanonical | internal/kernel/config/config.go:111-115 | The names of the merged tree are canonical again, so the snapshot cannot be refused for them |
| ConfigLoader.EncodableExactly | internal/kernel/config/config.go:111-119 | The merged tree can be marshalled if and only if at every path the leaf of the latest source that has anything there can; what was replaced does not matter |
| ConfigLoader.OrderMatters | internal/kernel/config/config.go:67-78 | So whether sources load depends on their order: an infinite number that a later source replaces is harmless, the other way round it is not |
| ConfigLoader.CheckLeaves | internal/kernel/config/config.go:116-119 | Accepts exactly trees all of whose leaves can be marshalled |
| ConfigLoader.CanonicalMap | internal/kernel/config/config.go:600-628 | Succeeds exactly if at every depth no name is blank and no two siblings fold alike, and then copies everything |
| ConfigNames.NamesApart | internal/kernel/config/config.go:606-618 | The check of one object's own names: none blank, no two alike but for case |
| ConfigEnvironment.LoadEnvironment | internal/kernel/config/config.go:418-472 | Yields the tree whose leaves are exactly the records, or the first error, of the entries that match the prefix |
| ConfigEnvironment.LoadPermuted | internal/kernel/config/config.go:418-472 | Tree or error are the same for every permutation of the entries |
| ConfigEnvironment.LoadUnique | internal/kernel/config/config.go:418-536 | For given records the outcome is determined |
| ConfigEnvironment.InsertFits | internal/kernel/config/config.go:570-594 | If the records are accepted, inserting any of them into the tree of any others succeeds |
| ConfigEnvironment.InsertAdds | internal/kernel/config/config.go:570-594 | Inserting a path unrelated to every leaf adds that leaf and nothing else |
| ConfigEnvironment.TreeUnique | internal/kernel/config/config.go:570-594 | A tree without empty objects is determined by its leaves |
| ConfigEnvironment.FirstUnique | internal/kernel/config/config.go:474-526 | There is one first error |
| ConfigEnvironment.ClashSymmetric | internal/kernel/config/config.go:499-526 | Which two records clash does not depend on their order |
| ConfigEnvironment.ValidateRecords | internal/kernel/config/config.go:474-526 | Reports no error exactly if no segment is empty and no two records clash; otherwise the first error in path order |
| ConfigEnvironment.BuildTree | internal/kernel/config/config.go:462-471 | Accepted records build the tree of exactly those records |
| ConfigEnvironment.SortRecords | internal/kernel/config/config.go:453-458 | Sorts the records and keeps them all |
| ConfigEnvironment.ParseEntries | internal/kernel/config/config.go:425-452 | Parses every matching entry by itself |
| ConfigDefaults.DefaultsRoundTrip | internal/kernel/config/default_manager.go:129-168 | The printed document of bindings at paths that do not overlap reads back if and only if every path segment and every text in the defaults can; then it has exactly each binding's defaults at its path, and nothing anywhere that is not on the way to, at or below some binding |
| ConfigDefaults.QuotableExactly | internal/kernel/config/default_manager.go:286-311 | The tree of all bindings has only readable texts if and only if every path and all defaults have |
| ConfigCandidate.CaseCollisionRefused | internal/kernel/config/default_manager.go:155-158 | Valid defaults at paths that do not overlap are refused when two paths differ only in case |
| ConfigCandidate.InfiniteNumberRefused | internal/kernel/config/default_manager.go:187-199 | Valid defaults with canonical names are refused when a number in them overflows |
| ConfigCandidate.EncodableExactly | internal/kernel/config/default_manager.go:179-214 | The candidate can be marshalled if and only if every number in the defaults of every binding can |
| ConfigNumbers.OverflowsBySize | internal/kernel/config/default_manager.go:193-196 | A decimal number of at least ten to the 309 becomes infinite as floating point, one below ten to the 308 does not |
| ConfigDefaults.InsertAt | internal/kernel/config/default_manager.go:286-300 | Inserting at a free path adds the nodes on the way and one leaf, and moves nothing else |
| ConfigDefaults.BuildFits | internal/kernel/config/default_manager.go:129-154 | The tree of all bindings has exactly their defaults at their paths |
| ConfigDefaults.LookOnly | internal/kernel/config/default_manager.go:302-311 | Whatever the document has lies on a node's path or at or below some binding's defaults |
| ConfigDefaults.PathsOverlap | internal/kernel/config/default_manager.go:253-261 | Two paths overlap exactly if one begins with the other |
| ConfigDefaults.ValidatePaths | internal/kernel/config/default_manager.go:65-95 | Accepts exactly paths without blank segments no two of which overlap |
| ConfigRoundTrip.ReadBack | internal/kernel/config/config.go:308-358 | Any valid value printed at any depth and followed by anything reads back as its data if every text in it can, the reader stopping right behind it, and fails otherwise |
| ConfigRoundTrip.DocumentRoundTrip | internal/kernel/config/config.go:288-306 | The document of a valid object, final newline included, reads back as its data if every text in it can, and not at all otherwise |
| ConfigRoundTrip.ReadQuoted | internal/kernel/config/default_encode.go:93-109 | A quoted text reads back as itself if and only if each of its characters is printable by the table in use, has a short escape known to both sides, or lies between U+0080 and U+FFFF |
| ConfigRoundTrip.UnreadableText | internal/kernel/config/default_encode.go:106-109 | A document with a bell character in a text is written but cannot be read |
| ConfigRoundTrip.HiddenCharacter | internal/kernel/config/default_encode.go:106-109 | A character that is not printable is escaped with four digits in the basic plane, which reads back, and with eight beyond it, which does not |
| ConfigRoundTrip.HiddenCharacters | internal/kernel/config/default_encode.go:106-109 | The soft hyphen is of the first kind, the language tag of the second |
| ConfigRoundTrip.ReadNumber | internal/kernel/config/config.go:308-358 | A number reads back with its spelling |
| ConfigDocument.ReadsExactly | internal/kernel/config/config.go:288-306 | The reader accepts a text if and only if it is one object with only blanks behind it, or an object with a stray closing bracket behind it; it differs from a strict reader exactly on the latter |
| ConfigDocument.StrayBracketAccepted | internal/kernel/config/config.go:295-300 | Such a text exists, and the reader takes it for the empty object |
| ConfigWriter.JsonWriter.WriteObject | internal/kernel/config/default_encode.go:85-104 | Appends exactly the text of the object |
| ConfigWriter.JsonWriter.WriteValue | internal/kernel/config/default_encode.go:106-138 | Appends exactly the text of the value |
| ConfigWriter.JsonWriter.WriteList | internal/kernel/config/default_encode.go:118-134 | Appends exactly the text of the list |
| ConfigWriter.JsonWriter.WriteIndent | internal/kernel/config/default_encode.go:140-142 | Appends the indentation |
| ConfigWriter.ValidateFields | internal/kernel/config/defaults.go:128-143 | Accepts exactly objects without empty or repeated field names whose values are valid |
| ConfigWriter.ValidateValue | internal/kernel/config/defaults.go:145-178 | Accepts exactly valid values, to every depth |
| ConfigWriter.BuildRoot | internal/kernel/config/default_manager.go:129-154 | Asks every contract and inserts its defaults: yields the tree of all bindings exactly if every contract answers with valid defaults |
| ConfigWriter.CheckNames | internal/kernel/config/config.go:600-658 | Accepts exactly trees in which, at every depth and inside lists, no name is blank and no two siblings fold alike |
| ConfigWriter.CheckNumbers | internal/kernel/config/config.go:116-119 | Accepts exactly trees in which no number becomes infinite |
| ConfigWriter.AskValidators | internal/kernel/config/default_manager.go:159-163 | Accepts exactly what every validator accepts |
| ConfigWriter.GeneratedReadsBack | internal/kernel/config/default_manager.go:129-168 | What is generated reads back exactly if every text in it can, and then as a tree with canonical names that has every binding's own defaults at its path |
| ConfigWriter.Generate | internal/kernel/config/default_manager.go:129-168 | Produces the document of all bindings exactly if every contract answers valid defaults, the names of their tree are canonical, every number in it can be marshalled and every validator accepts it; what it produces reads back as above |
| RateLimiters.BoundedAdmission | pkg/httpx/production_middleware.go:399-415 | Over any calls at non-decreasing times, from any call to any later one, at most capacity plus rate times elapsed time are admitted |
| RateLimiters.RefusedExactly | pkg/httpx/production_middleware.go:399-415 | From a full bucket a call is refused if and only if admitting it would break that bound over some window ending with it |
| RateLimiters.AlwaysSane | pkg/httpx/production_middleware.go:399-415 | Tokens stay between zero and the capacity, also when the clock goes back |
| RateLimiters.EarnedIsProduct | pkg/httpx/production_middleware.go:402-407 | What a rate earns is the product of rate and time |
| RateLimiters.NewBucket | pkg/httpx/production_middleware.go:383-396 | A new bucket is full; senseless rates and bursts are replaced |
| RateLimiters.RateLimiter.Admit | pkg/httpx/production_middleware.go:399-415 | The method over tokens and last refill answers exactly as the run of all calls so far says |

## Left out

Deliberately weaker than the code or than the design promises:

- RecoveryFailover.FailoverRefines: treats a whole write as one step, and a write that finds the buffer full under Block as giving up; InterleavedRefines says the same of every interleaving that RefinesExactly admits, where such a write resumes later. A failed primary call is taken to have had no effect.
- KernelRuntime.Kernel.Reload: the kernel's component list is held as values; update in place and aliasing of one component are proved separately, for KernelObjects.ManagedComponent.
- KernelObjects.ManagedComponent.FinStep: reading the pointer and beginning the finalization are one step, as are the two critical sections of Build.
- KernelSafety.ConsistentCut: the kernel is driven as its coordinator drives it, with one start, reloads one at a time, then stops.
- HubSafety.LinearHandoff: one candidate at a time, every commit naming the active route as previous, and nothing after Stop.
- HubObjects.ListenerHub.Commit: entries and routes of the hub are values; the listener's own fields are updated in place in HubObjects.GenerationListener.
- GenerationSafety.PoolReferenceLaw: the seven pools are one table keyed by owner and digest; acquires are serialized, so the branch where a concurrent build loses and fails to close is not taken.
- GenerationObjects.Coordinator.ReloadNow: the states Starting and Reloading within an operation are not visible; of the hubs only what leads where is kept, the connections being part of HubMachine.
- Supervisors.Supervisor.Run: participants, tasks and deadlines answer freely; an answer that arrives after its deadline changes the result but is not logged.
- ConfigMerge.MergeMap: folding covers ASCII and the two characters outside it that fold to ASCII letters; the conflict named is one in conflict, not necessarily the first in key order; arrays are leaves.
- ConfigLoader.CanonicalMap: does not look into arrays; value types that are not supported are not modelled.
- ConfigLoader.Load: the kind of the error and its text are not modelled; leaves are opaque, and which of them can be marshalled is a parameter.
- ConfigEnvironment.LoadEnvironment: cancellation of the context and the texts of errors are not modelled; the three insertion errors, which are proved not to occur, are one.
- ConfigDefaults.DefaultsRoundTrip: which characters beyond ASCII and Latin-1 controls are printable is an open table, as it grows with the Go release; surrogates do not occur in texts, and escapes of them are not combined.
- ConfigWriter.ValidateValue: the range check of big.ParseFloat on numbers is not modelled.
- ConfigDefaults.ValidatePaths: capability names, their duplicates, and missing contracts or validators of bindings are not modelled.
- RateLimiters.BoundedAdmission: real arithmetic stands for floating point.
- Executors.Executor.Execute: retries and timeouts are what the operation comes to; a failed call on the store has no effect; the joining of concurrent calls within one executor is not modelled.
- RecoveringStores.RecoveringStore.Recover: the replay deadline is a bound on successful calls; falling back and growing the wait are one step; jitter is not modelled, and a claim always carries its time.
- GenerationServing.ServesExactly: addresses are equal or different as texts; whether a generation before gets its messages and schedules back after a failed switch is a free choice.
- GenerationEndings.StoppableExactly: messages, schedules, drains and the hubs' own stop may fail at any time and go well later; a server's listener closes without an error.
- ConfigWriter.CheckNumbers: exponents of more than four digits, of which the parser drops the rest, are read in full; integers beyond 64 bits are cut off without an error and only their text is kept.
- HubObjects.ListenerHub.Stop: the listeners it closes are closed by the closers' own steps.
- RecoveringStores.RecoveringStore.Round: a whole round runs without other callers in between; every interleaving is covered by the lemmas about runs instead.
- ConfigWriter.Generate: cancellation, the target file, the YAML format and the texts of errors are not modelled.

Not modelled at all:

- Sockets, serving HTTP, databases, caches, message queues, object stores and files: builders, finalizers, stores and physical binds are outcomes.
- The command line, prompts and themes.
- The wiring in applicationGenerationFactory.Prepare beyond its acquires, composition/service.go and internal/kernel/composition.
- Logging, provenance, timestamps and diagnostics such as the last error type.
- Real time: a deadline is a free choice at every wait.
- YAML documents, mapstructure decoding and SHA-256: a digest is an injective function of a section.
- AddRunner and AddTask, whose checks BeginRun repeats.
- Field validators of schedules, messaging, database schemas and HTTP configuration.
