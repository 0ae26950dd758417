# Mali kernel driver: job dispatch, fences, address spaces and their helpers

A Dafny model of the parts of the Mali Midgard kernel driver that decide when a job ("atom")
runs and when it is over, with proofs of what they promise. All paths below are those of the
driver's own tree.

| file | models |
|---|---|
| `JdState`, `JdSteps` | the dispatcher's tables as one value, its small updates, the invariant they keep |
| `JdOutcome` | what one completion does, defined from the dependency graph alone, and the bookkeeping that ties the worklist to it |
| `JdOffers` | which GPU atoms one completion offers to the scheduler, and which atoms it leaves alone |
| `JdSettle`, `JdSubmit` | the way back to the invariant between calls; linking a new atom |
| `JdEntry` | what a submission comes to, told from its arguments and by bit numbers |
| `JobDispatcher` | the dispatcher itself, a class with the loops of `mali_kbase_jd.c` |
| `JdHistory` | the history of a context over every run: failure propagation, independence of submission order |
| `JdTheory` | progress, exactly-once completion, what a call leaves behind, early submission, the three bad submissions |
| `DmaFence` | the dma-fence wait of an atom with its asynchronous callbacks, and reservation locking |
| `CtxSched` | the address-space allocator |
| `CtxAttr` | the two-level attribute reference counts |
| `WriteTracking` | collation and dump of GPU write tracking |
| `CoherentGroups`, `PropBuffer` | the GPU property computations |
| `EventQueue` | the coalescing event queue |
| `JdEvents` | dispatcher and event queue together |
| `CoreReqs` | the core requirement flags |

## The dispatcher

Each of 256 atoms has up to two predecessors (DATA or ORDER) and heads two lists of dependents.
`JdContext.Done` is `jd_done_nolock`, with the nested worklists of the source. Its contract,
`Completion`, compares the call with `Outcomes`, a verdict on every atom that is defined by
recursion over the links and knows nothing of worklists: exactly the atoms with verdict `Ends`
are finalised, each once, with success or failure as the verdict says; every other atom keeps
its place except that GPU atoms may have gone to the scheduler; and the invariant `Core` holds
again. Two more predicates of that contract say which GPU atoms were offered to the scheduler
(`Offered`, read by `OfferedIfReleased`, `OfferedIfFollows` and `OffersAreQueued`), and that atoms
from which no chain of links leads to the completed one are as before, while the number of each
finalised atom is free or waits for user space as its report says (`Aftermath`). `EndSetIsLeast`
shows that these atoms are the least closed set. Termination is part of
the proof. The invariant `Inv` says that lists and links match, that links lead to strictly
older unfinished atoms (ages are submission numbers, so this holds although atom numbers are
reused), that the job counter counts the unfinished atoms, that an atom is flagged exactly when
it is on the runnable list, and that no queued atom is stranded.

The job scheduler is an oracle (`AddJob`): it takes an atom with its links, or declines, which
it can only do while a link is left; `kbase_js_dep_validate` in `mali_kbase_js.c` does just
that. A soft-job step is an oracle too: for each atom whether it finishes at once, and the event
code it leaves. A context either is dying during a call or is not. Validation is not an oracle:
`AtomValid` is `kbase_js_is_atom_valid`, and only the preparation of a soft job is an answer.

What a submission comes to is stated twice in the contract of `Submit`: as the transitions that the
other results build on (`Submitted`), and as `Entered`, which names bit numbers, event codes and the
tables before the call only. `SubmissionEnds` proves the second from the first.

Three submissions break the invariant, and the contract of `Submit` says that no other does
(`Breaks`):

* an atom whose first predecessor has already failed it and whose second predecessor is its own
  number. The loop sets the status to QUEUED after the first failure, so the atom then counts as
  in progress and is linked to itself (`mali_kbase_jd.c:895`). `SelfLinkExample` is a case in a
  new context.
* an atom whose external resources leave a fence pending and that then fails validation. It is
  finalised while `dep_count` is not -1. If a callback has queued the fence worker before, that
  worker finds a completed atom and completes it again (`mali_kbase_dma_fence.c:196-197`), and the
  job counter falls one short (`FencedTwice`; `FencedRefusalExample` is a case in a new context,
  `DmaFence.FenceWait.Signal` the other side). Cancelling the wait instead repairs the state.
* an atom that the scheduler takes while the context is dying and scheduled out. The scheduler
  cancels it and queues its cancel worker (`mali_kbase_js.c:1213-1220`), the submission completes
  it at once (`mali_kbase_jd.c:1085-1087`), and the cancel worker completes it again
  (`CancelledTwice`, `KilledExample`). The driver relies on the absence of such submissions
  (`mali_kbase_js.c:2697-2701`).

`JdHistory` keeps, by submission number, what each atom named as its predecessors and how it
ended. The methods of `JdContext` promise the steps that it is about (`Follows`), so its results
hold over every run of a context that is not torn down: a dependency-only or soft atom fails
exactly if a chain of links that pass failure on leads to it from an atom that failed by itself
(`FailureIsDataReachability`), and how it ends depends on the codes of its predecessors, not on
when it was submitted (`EarlyLateAgreement`), but for one difference: an ORDER predecessor that
ends with a code up to ACTIVE other than DONE (TERMINATED, say) fails a dependent that is
submitted later and not one that was submitted before.

In a dying context a finalised atom takes the code of the completed atom, even if another
predecessor marked it to fail (`DyingTakesCode`).

The event code NOT_STARTED (0) is never the code of a completed atom; the header says that user
space cannot see it, and the operations that complete an atom require it.

## Fences

`FenceWait` runs under the context lock in single atomic actions, and wherever another thread may
come in callbacks fire, or queue the worker after having found the count at zero. Counting,
at-most-once hand-over and the absence of lost wake-ups hold under all these interleavings.

queue_work is called once for each window between the registration and the counting of a callback
in which all pending callbacks fire, and once more when the count reaches zero after the set-up
(`CallsRight`). It is therefore called at most once if and only if there was no such window, or
there was one and the count does not reach zero again (`CalledAtMostOnce`).

`kbase_dma_fence_queue_work` initialises the work item, which clears its pending mark, and then
queues it: two accesses, between which another thread may do the same. Its warning fires exactly
if the item was queued and has neither been initialised nor started since (`Enqueue`), so another
thread must have queued it after this one has initialised it. It cannot fire in a wait with at most
one call, unless callbacks of an earlier wait were still on their way when it began. With two calls
both orders are possible: both threads initialise the item before one of them queues it, the
warning fires and the worker is queued once (`WarningFires`), or they come one after the other, the
worker is queued twice, the second time while it is on the queue, and nothing warns of it
(`WorkerQueuedTwice`). The atom is handed on once in any case, because `Work` may run at any time
and any number of times and only the run that finds the count at zero hands the atom on.

When the atom completes while its wait is on, a removal may take the last count and nobody queues
the worker (`Signal`). With no run of the worker queued, such a wait stays on until it is
cancelled (`LostStays`, `CancelAtom`).

## Model

| member | source | states |
|---|---|---|
| JobDispatcher.JdContext.constructor | midgard/mali_kbase_jd.c:1567-1612 | a new context satisfies the dispatcher's invariant, with every atom unused and its event code JOB_INVALID |
| JobDispatcher.JdContext.AddJob | midgard/mali_kbase_js.c:1119-1236 | the atom is offered to the scheduler, which takes it and all its links, or puts it back unchanged, the latter only while a link is left; an atom taken in a dying context that is scheduled out is cancelled and its cancel worker queued |
| JobDispatcher.JdContext.RunAtom | midgard/mali_kbase_jd.c:81-111 | a dependency-only or doomed soft atom completes unprocessed, another soft atom completes or starts as its step says, a GPU atom goes to the scheduler or stays queued |
| JobDispatcher.JdContext.ClearDep | midgard/mali_kbase_jd.c:392-418 | one dependent loses its link, and inherits the failure code exactly when the predecessor failed and the link is not ORDER |
| JobDispatcher.JdContext.ResolveFirst | midgard/mali_kbase_jd.c:387-456 | the first dependent is taken off the list; it becomes runnable exactly if it is not so already, waits for no fence, and either has no other link or is a GPU atom of a context that is not dying and neither it nor its other predecessor is marked to fail |
| JobDispatcher.JdContext.ResolveDep | midgard/mali_kbase_jd.c:382-457 | the list of the completed atom is emptied, the worklist invariant is kept, and so is what is to be offered to the scheduler |
| JdTheory.ValidLink | midgard/mali_kbase_jd.c:522-541 | a link is valid exactly if its predecessor waits for nothing in the dispatcher and, unless the scheduler has it, has no failure to pass on; resolving a valid link never fails the dependent, resolving an invalid DATA link to an atom completed with a failure does |
| JdTheory.OfferedIsReady | midgard/mali_kbase_jd.c:543-594 | an atom offered early is queued, waits for no fence, and all its predecessors are older, out of the dispatcher and, unless the scheduler has them, without a failure to pass on |
| JdTheory.OfferedIfReleased | midgard/mali_kbase_jd.c:422-455 | a GPU atom that stays queued has been offered if a predecessor of it was finalised and no fence, no mark on it and none on the predecessor it is left with stands in the way |
| JdTheory.OfferedIfFollows | midgard/mali_kbase_jd.c:543-594 | so has one that follows an atom which the scheduler took in this call, if both predecessors are with the scheduler, unmarked, or have been completed by the hardware without a failure |
| JdTheory.OffersAreQueued | midgard/mali_kbase_jd.c:543-709 | only queued GPU atoms without a fence, in a context that is not dying, are offered, each because a predecessor was finalised or taken; every atom that the scheduler took was offered |
| JobDispatcher.JdContext.TrySubmittingDeps | midgard/mali_kbase_jd.c:543-594 | exactly the GPU dependents whose two predecessors are valid and that wait for no fence are flagged and put at the front of the list |
| JobDispatcher.JdContext.RunNode | midgard/mali_kbase_jd.c:664-698 | a runnable atom runs, or in a dying context completes with the code of the atom being resolved |
| JobDispatcher.JdContext.DrainNode | midgard/mali_kbase_jd.c:664-709 | one turn of the drain loop keeps the worklist invariant: an atom that completes joins the completed ones, and only a GPU atom in a context that is not dying is offered |
| JobDispatcher.JdContext.DrainRunnable | midgard/mali_kbase_jd.c:664-709 | the runnable list is drained, for every dependency graph and every answer of the scheduler, the completed atoms are exactly those collected, and the dependents of each atom that the scheduler takes are offered in turn |
| JobDispatcher.JdContext.CompleteOne | midgard/mali_kbase_jd.c:652-726 | one turn of the outer loop: both lists of a completed atom are resolved, what has become runnable is run, and the atom is counted off and posted |
| JobDispatcher.JdContext.Post | midgard/mali_kbase_jd.c:711-725 | an atom is counted off and posted only when nobody is on its lists and it is on nobody's, so its list node is free for the event lists |
| JobDispatcher.JdContext.Done | midgard/mali_kbase_jd.c:605-731 | one call finalises exactly the atoms of the verdict, each once and with the right success, and counts them off; unless posting is deferred, the number of such an atom is free afterwards if and only if it holds no external resources and is reported never, or only on failure and it has not failed; the GPU atoms that are offered to the scheduler are the right ones; atoms that do not depend on the completed one are as before; the invariant is restored |
| JobDispatcher.JdContext.CompleteJob | midgard/mali_kbase_jd.c:1213-1308 | an atom reported by the scheduler or a soft-job event is completed with its code, with all that `Done` promises, and the invariant holds again; nothing is freed if posting is deferred |
| JobDispatcher.JdContext.DepClear | midgard/mali_kbase_jd.c:114-143 | an atom whose fences have signalled is run if it may run, completed if that is what running it comes to, and else waits for its links; a GPU atom is offered to the scheduler, once |
| JobDispatcher.JdContext.FenceWork | midgard/mali_kbase_dma_fence.c:174-203 | the fence worker clears the fence and hands the atom on; an atom that has completed meanwhile is completed, counted off and logged again |
| JobDispatcher.JdContext.FenceCancel | midgard/mali_kbase_dma_fence.c:142-166 | a cancelled wait completes a queued atom with JOB_CANCELLED and leaves an atom that is over alone; the invariant holds afterwards in both cases |
| JobDispatcher.JdContext.CancelJob | midgard/mali_kbase_jd.c:1498-1519 | in a dying context an atom that the scheduler holds is cancelled, and its cancel worker queued, once |
| JobDispatcher.JdContext.CancelWorker | midgard/mali_kbase_jd.c:1396-1442 | the cancel worker completes its atom with the code it has; an atom that is over is counted off and logged again |
| JobDispatcher.JdContext.HwComplete | midgard/mali_kbase_js.c:2463-2478 | the hardware's code is taken unless the atom was marked to fail, and the atom stays unfinished |
| JobDispatcher.JdContext.MarkToFail | midgard/mali_kbase_js.c:2134-2160 | the scheduler may mark any atom it holds to fail without disturbing the dispatcher |
| JobDispatcher.JdContext.Release | midgard/mali_kbase_event.c:29-51 | a completed atom's number becomes free, and the invariant is kept |
| JobDispatcher.JdContext.AddDependencies | midgard/mali_kbase_jd.c:867-923 | the loop links to predecessors in progress and takes over codes of failed ones, and tells which happened |
| JobDispatcher.JdContext.PropagateFailure | midgard/mali_kbase_jd.c:925-935 | an atom that a predecessor has failed is finalised at once, or marked and left linked; the invariant survives unless it is linked to itself |
| JobDispatcher.JdContext.HandOn | midgard/mali_kbase_jd.c:1065-1093 | an atom that waits for nothing is processed, scheduled or completed, and the invariant survives exactly unless the scheduler takes and cancels it |
| JobDispatcher.JdContext.HandOver | midgard/mali_kbase_jd.c:1082-1087 | a GPU atom goes to the scheduler with its links or stays queued, and is completed at once if the scheduler cancels it |
| JobDispatcher.JdContext.Refuse | midgard/mali_kbase_jd.c:975-1046 | an atom that does not pass the checks is finalised with JOB_INVALID, and the invariant holds unless its fence is pending |
| JobDispatcher.JdContext.Dispatch | midgard/mali_kbase_jd.c:936-1096 | a well-formed atom is refused, left waiting or handed on; the invariant survives unless it fails validation with a fence pending or is killed on entry |
| JobDispatcher.JdContext.Submit | midgard/mali_kbase_jd.c:788-1096 | where the new atom ends up, with which code, links, mark and fence, is told from the user's atom, the answers and the tables before the call, case by case, without the model's own terms; no other atom is touched unless the new one links to itself; and the invariant survives if and only if none of the three bad submissions was made |
| JdOutcome.EndSetIsLeast | midgard/mali_kbase_jd.c:652-726 | the atoms that end are the least set that contains the completed one and every dependency-only, doomed or at once finishing soft atom (every atom, in a dying context) that links into the set only |
| JdOutcome.EndsIff | midgard/mali_kbase_jd.c:382-457 | an atom ends exactly when it is the completed one, or may end and all its links lead to atoms that end |
| JdOutcome.VerdictAtRun | midgard/mali_kbase_jd.c:673-698 | whatever order the worklist takes, what an atom shows when it is run is its verdict |
| JdOutcome.EndedIsClosed | midgard/mali_kbase_jd.c:652-726 | when the worklist is empty nothing that had to be finalised is left |
| JdOutcome.WorkingDrain | midgard/mali_kbase_jd.c:664-709 | one turn of the drain loop, with any answer of the scheduler, keeps the worklist invariant |
| JdOutcome.DrainDecreases | midgard/mali_kbase_jd.c:664-709 | each turn of the drain loop takes an atom out of the queued state or shortens the list, so the loop ends even if the scheduler declines and atoms are added |
| JdOutcome.Detached | midgard/mali_kbase_jd.c:715-719 | an atom about to be posted is on no list of dependents |
| JdOutcome.WorkingCount | midgard/mali_kbase_jd.c:721-725 | the job counter goes down by the number of atoms that ended |
| JdOutcome.FreedFinalise | midgard/mali_kbase_event.c:139-182 | posting a completed atom frees its number exactly if posting is not deferred, it holds no external resources and it is reported never, or only on failure and its code is DONE |
| JdOffers.DueResolve | midgard/mali_kbase_jd.c:422-455 | after a link is resolved, every pending GPU atom that has lost a link, with no mark on it or on the predecessor it is left with, is runnable or has been offered |
| JdOffers.DueDrain | midgard/mali_kbase_jd.c:664-698 | running one atom from the list keeps that, but for the dependents of an atom that the scheduler has just taken |
| JdOffers.DueTry | midgard/mali_kbase_jd.c:702-707 | looking at those dependents restores it: every pending GPU atom that follows a taken one and whose predecessors allow it is runnable or has been offered |
| JdOffers.LeavesAlone | midgard/mali_kbase_jd.c:605-731 | a completion leaves alone every atom from which no chain of links leads to the completed one: status, code, links, and whether it is marked to fail |
| JdSteps.ResolveKeepsCore | midgard/mali_kbase_jd.c:387-456 | resolving a link keeps lists, links, counter, ages, flags and the absence of stranded atoms |
| JdSteps.AcceptKeepsCore | midgard/mali_kbase_jd.c:108-110 | an atom that the scheduler takes leaves the graph in order |
| JdSteps.FinaliseKeepsCore | midgard/mali_kbase_jd.c:711-725 | counting off an atom whose lists are empty keeps the invariant and logs it once |
| JdSettle.CompletionKeepsInv | midgard/mali_kbase_jd.c:605-731 | completing an atom that no fence holds restores the invariant between calls |
| JdSettle.RanSettles | midgard/mali_kbase_jd.c:81-143 | running an atom outside the worklist leaves it completable or leaves the tables in order |
| JdSubmit.AddDepsHeads | midgard/mali_kbase_jd.c:868-923 | the new atom is the last on the list of exactly the unfinished predecessors it names, which are other atoms; the other lists are as before |
| JdSubmit.QueueCompletable | midgard/mali_kbase_jd.c:788-940 | a freshly linked atom can be completed at once, whatever goes wrong later |
| JdSubmit.SelfLinkBreaks | midgard/mali_kbase_jd.c:879-921 | an atom that names itself after its first predecessor failed it ends up linked to itself |
| JdSubmit.PinnedEndBreaks | midgard/mali_kbase_jd.c:1012-1041 | finalising an atom whose fence or cancel worker is pending breaks the invariant, for this atom only |
| JdSettle.CountedTwice | midgard/mali_kbase_jd.c:605-731 | completing an atom that is over logs it a second time and leaves the job counter one short of the unfinished atoms |
| JdSubmit.FailsLaterInv | midgard/mali_kbase_jd.c:925-935 | an atom marked to fail but still linked keeps the invariant if and only if it is not linked to itself |
| JdEntry.ReqBits | midgard/mali_base_kernel.h:515-777 | what the dispatcher reads out of the core requirements, by the numbers of the bits |
| JdEntry.ChecksAre | midgard/mali_kbase_jd.c:975-1046 | the checks of a submission by the numbers of the bits: job chain, core group, external resources against coalescing and fence wait, validation, preparation, pending fence |
| JdEntry.ValidBits | midgard/mali_kbase_js.c:2017-2031 | a fragment job is not combined with compute or tiling, nor on hardware with issue 8987 compute only with either |
| JdEntry.FateIs | midgard/mali_kbase_jd.c:847-1063 | which of the ways a submission goes is decided by conditions on the user's atom, the tables and the answers; a non-GPU atom waits behind a link, a GPU atom does not |
| JdEntry.SubmissionEnds | midgard/mali_kbase_jd.c:788-1096 | every submission ends as those conditions say: an unknown dependency type with JOB_CONFIG_FAULT, a failed predecessor with its code or marked and still linked, a malformed or invalid atom with JOB_INVALID, a GPU atom with the scheduler if that accepts it or no link is left and else queued with its links, and so on; the number of an atom that is over is free or not by its report bits; no other atom is touched unless the new one links to itself |
| JdEntry.BreaksIff | midgard/mali_kbase_jd.c:788-1096 | by the same conditions, which submissions break the invariant |
| JdTheory.WaitsForElsewhere | midgard/mali_kbase_jd.c:422-455 | following the links of an unfinished atom leads to one in the scheduler, a started soft job or one with a pending fence |
| JdTheory.Progress | midgard/mali_kbase_jd.c:1054-1091 | the job counter is never negative, and while it is positive some atom will be reported on from outside the dispatcher |
| JdTheory.ExactlyOnce | midgard/mali_kbase_jd.c:720-725 | every submission is either unfinished or has been finalised exactly once |
| JdTheory.DyingTakesCode | midgard/mali_kbase_jd.c:676-698 | in a dying context every finalised atom takes the code of the completed one |
| JdTheory.ResolvedMovesOn | midgard/mali_kbase_jd.c:422-455 | an atom whose predecessors are all finalised is finalised, in the scheduler or started, unless a fence holds it |
| JdTheory.LeftBehind | midgard/mali_kbase_jd.c:387-418 | an atom that stays queued has lost exactly its links to finalised atoms, and is marked to fail if and only if it was or one of those was DATA and failed |
| JdTheory.InheritsCode | midgard/mali_kbase_jd.c:400-412 | a dependency-only atom that is finalised ends with the code it had or with that of a DATA predecessor finalised with it |
| JdTheory.SelfLinkExample | midgard/mali_kbase_jd.c:895 | a concrete submission to a new context that links an atom to itself |
| JdTheory.FencedRefusalBreaks | midgard/mali_kbase_jd.c:1023-1031 | an atom that fails validation with a fence pending is completed and counted off while its fence is still on |
| JdTheory.FencedTwice | midgard/mali_kbase_dma_fence.c:196-197 | the fence worker finalises it a second time; without the worker, clearing the fence restores the invariant |
| JdTheory.KilledOnEntryBreaks | midgard/mali_kbase_jd.c:1085-1087 | an atom cancelled on entry is completed and counted off while its cancel worker is still to come |
| JdTheory.CancelledTwice | midgard/mali_kbase_jd.c:1430 | the cancel worker finalises it a second time |
| JdTheory.FencedRefusalExample | midgard/mali_kbase_js.c:2017-2031 | an atom that asks for a fragment and a compute job at once is refused with a fence pending, in a new context |
| JdTheory.KilledExample | midgard/mali_kbase_js.c:1213-1220 | any GPU atom without predecessors is killed on entry to a dying context that is scheduled out |
| JdHistory.RunHist | midgard/mali_kbase_jd.c:788-1096 | over every run of a context that is not torn down, tables and history agree: each waiting atom is linked to exactly the unfinished predecessors it named and each atom that is over shows the code it ended with |
| JdHistory.CompletionKeepsHist | midgard/mali_kbase_jd.c:605-731 | one completion keeps tables and history together, for every dependency graph |
| JdHistory.SubmitKeepsHist | midgard/mali_kbase_jd.c:868-940 | so does every submission but the bad ones |
| JdHistory.FailureIsDataReachability | midgard/mali_kbase_jd.c:87-96 | over every run, an atom other than a GPU atom has failed if and only if a chain of links leads to it from an atom that failed by itself: DATA links, and links to atoms that were over with a code up to ACTIVE when they were named |
| JdHistory.MarkedIff | midgard/mali_kbase_jd.c:400-418 | over every run, a waiting atom is marked to fail exactly if failure has come over one of its links, and a soft job that failure has reached is never started |
| JdHistory.EndedCode | midgard/mali_kbase_jd.c:879-905 | over every run, an atom that is over shows the code it ended with, for later submissions to find |
| JdHistory.FinalVerdict | midgard/mali_kbase_jd.c:879-935 | a dependency-only atom succeeds exactly if no DATA predecessor failed, before or after its submission, and no ORDER predecessor was over at its submission with a code up to ACTIVE other than DONE |
| JdHistory.EarlyLateAgreement | midgard/mali_kbase_jd.c:879-922 | two dependency-only atoms whose two predecessors end alike end alike, whenever they were submitted, if and only if a DATA predecessor failed or both or neither found an ORDER predecessor over with a code up to ACTIVE other than DONE |
| DmaFence.FenceWait.InitWork | midgard/mali_kbase_dma_fence.c:130 | initialising the work item clears its mark and nothing else, even if it is on the queue |
| DmaFence.FenceWait.Enqueue | midgard/mali_kbase_dma_fence.c:131-133 | queueing the item adds one run unless it is marked; it is refused, and the warning fires, exactly if it was queued and neither initialised nor started since, and then another thread has queued it since this one has initialised it |
| DmaFence.FenceWait.CallbackCounts | midgard/mali_kbase_dma_fence.c:205-222 | a callback may fire at any time; the count goes down by one, and it goes on to queue the worker exactly if it finds zero |
| DmaFence.FenceWait.CallbackInits | midgard/mali_kbase_dma_fence.c:222-223 | a callback that has found zero initialises the work item |
| DmaFence.FenceWait.CallbackQueues | midgard/mali_kbase_dma_fence.c:222-223 | in another action it queues the item or meets the warning; either way the worker is queued afterwards |
| DmaFence.FenceWait.Interfere | midgard/mali_kbase_fence.c:181-203 | any number of such actions of other threads, of this wait and of earlier ones, may come between two steps without harm to counting, listing, waking, the number of calls or the mark |
| DmaFence.FenceWait.Increment | midgard/mali_kbase_fence.c:194-203 | counting a callback closes its window, which was emptied if no callback is left pending |
| DmaFence.FenceWait.AddCallback | midgard/mali_kbase_fence.c:157-206 | a registered callback is counted and listed, and is pending or has fired, even if it fires before it is counted; a fence that has signalled needs none, and its status or the failure to add a callback is the error |
| DmaFence.FenceWait.CountOff | midgard/mali_kbase_fence.c:130-140 | a removed callback is counted off in a second action, which takes the last count exactly if it leaves zero after the set-up |
| DmaFence.FenceWait.FreeCallbacks | midgard/mali_kbase_fence.c:118-151 | with callbacks racing between all its actions: afterwards none will fire, the count is the guard, and if it is zero a callback has seen to the worker or the result says that the caller owes it |
| DmaFence.FenceWait.QueueWork | midgard/mali_kbase_dma_fence.c:124-134 | the thread that holds the lock initialises and queues the item with other threads in between, after which a run of the worker is queued |
| DmaFence.FenceWait.CancelCallbacks | midgard/mali_kbase_dma_fence.c:418-423 | cancelling while callbacks race leaves the worker queued, or a callback about to queue it, for an atom that is still waiting |
| DmaFence.FenceWait.EndSetup | midgard/mali_kbase_dma_fence.c:375-402 | after the set-up the atom is ready at once, or is waiting, or the wait is given up; ready exactly once |
| DmaFence.FenceWait.Wait | midgard/mali_kbase_dma_fence.c:314-403 | the error is that of the first fence that fails; without one, exactly the registered callbacks are pending or have fired, those of an atom that waits are listed, and the atom is handed on at once only if all have fired; an error leaves nothing pending; for an atom handed on at once queue_work was called once per emptied window |
| DmaFence.FenceWait.Work | midgard/mali_kbase_dma_fence.c:174-203 | it may run at any time and any number of times: only a run that finds the count at zero hands the atom on, when no callback is pending, and by then queue_work was called, or is about to be, once per emptied window and once more |
| DmaFence.FenceWait.CancelAtom | midgard/mali_kbase_dma_fence.c:142-154 | a cancelled atom, also one whose wait is lost, is not handed on by workers that are queued already |
| DmaFence.FenceWait.Signal | midgard/mali_kbase_dma_fence.c:425-436 | completing an atom whose wait is on brings the count to zero and leaves the atom on the waiting list; the result tells whether the wait is lost |
| DmaFence.FenceWait.LostStays | midgard/mali_kbase_dma_fence.c:405-416 | when nobody is on the way and no run is queued, other threads leave a lost wait on, and its atom on the waiting list |
| DmaFence.FenceWait.CalledAtMostOnce | midgard/mali_kbase_dma_fence.c:124-134 | while an atom waits, queue_work has been called, or is about to be, once per emptied window and once if nothing is pending; so at most once if and only if no window was emptied, or one was and the count is not zero again; then the warning has not fired, and the first call queues the worker, unless callbacks of an earlier wait were left |
| DmaFence.WorkerQueuedTwice | midgard/mali_kbase_dma_fence.c:124-134 | a run in which the worker is queued twice without a warning |
| DmaFence.WarningFires | midgard/mali_kbase_dma_fence.c:124-134 | a run in which both threads initialise the item first, the warning fires, and the worker is queued once |
| DmaFence.AddReservation | midgard/mali_kbase_dma_fence.c:295-312 | reservations stay distinct, and a new one is appended with its exclusive flag |
| DmaFence.Reservations.TryAll | midgard/mali_kbase_dma_fence.c:69-78 | one attempt locks a prefix in order, counting the lock carried over |
| DmaFence.Reservations.LockReservations | midgard/mali_kbase_dma_fence.c:58-104 | for every sequence of answers, success leaves every reservation locked once and failure none, and no lock is taken twice or released unheld |
| DmaFence.Reservations.UnlockReservations | midgard/mali_kbase_dma_fence.c:106-115 | all reservations are released |
| CtxSched.RetainPromise | midgard/mali_kbase_ctx_sched.c:73-137 | retaining fails exactly when every space belongs to a referenced context, gives back the space a context had without programming the MMU, and never disturbs referenced contexts |
| CtxSched.NoSharing | midgard/mali_kbase_ctx_sched.c:95-137 | two referenced contexts never share a space |
| CtxSched.NewSpacePromise | midgard/mali_kbase_ctx_sched.c:88-126 | a context without a usable space gets the lowest free one, which is programmed for it and taken from its previous owner; every other space and context is as before |
| CtxSched.OldSpacePromise | midgard/mali_kbase_ctx_sched.c:80-86 | a context that still owns a free space gets it back, and the MMU is not touched |
| CtxSched.ReleasePromise | midgard/mali_kbase_ctx_sched.c:151-159 | the last release frees the space, which stays assigned and programmed |
| CtxSched.RemovePromise | midgard/mali_kbase_ctx_sched.c:161-177 | the space of a removed context belongs to nobody and, on a powered GPU, is programmed for nobody; every other space and context is as before |
| CtxSched.CreatePromise | midgard/mali_kbase_context.c:58-59 | a new context holds no reference and owns no space |
| CtxSched.RunInv | midgard/mali_kbase_ctx_sched.c:95-208 | over every run the two tables are inverse and a space is free exactly when its owner holds no reference |
| CtxSched.KeepsSpace | midgard/mali_kbase_ctx_sched.c:73-93 | a context keeps its space through every run in which it is not removed, nobody else is given the space, and no reset finds it unreferenced |
| CtxSched.RetainedAgain | midgard/mali_kbase_ctx_sched.c:104-121 | retaining it after such a run costs no programming of the MMU |
| CtxSched.StepProgrammed | midgard/mali_kbase_ctx_sched.c:108-121 | every context that owns a space stays programmed into it |
| CtxSched.RestorePromise | midgard/mali_kbase_ctx_sched.c:179-208 | after a reset exactly the referenced contexts keep their spaces and are programmed again; a space without an owner is programmed for nobody, and that of an owner which is dropped is left as it was |
| CtxSched.RestoreKeepsSpace | midgard/mali_kbase_ctx_sched.c:179-208 | a reset does not take the space of a referenced context |
| CtxSched.RetainInv | midgard/mali_kbase_ctx_sched.c:95-137 | retaining keeps the invariant |
| CtxSched.Device.constructor | midgard/mali_kbase_ctx_sched.c:28-50 | all spaces start free and unowned |
| CtxSched.Device.FindFirstSet | midgard/mali_kbase_ctx_sched.c:88-90 | the lowest free space is found |
| CtxSched.Device.FindAsForCtx | midgard/mali_kbase_ctx_sched.c:73-93 | the previous space is preferred to the lowest free one |
| CtxSched.Device.AssignSpace | midgard/mali_kbase_ctx_sched.c:112-126 | the space changes hands, its previous owner loses it, and the warning about that owner's references cannot fire |
| CtxSched.Device.RetainContext | midgard/mali_kbase_ctx_sched.c:95-137 | the method does what the specification step says, and its warnings cannot fire |
| CtxSched.Device.RetainReference | midgard/mali_kbase_ctx_sched.c:139-149 | the count goes up, and the warnings cannot fire |
| CtxSched.Device.ReleaseContext | midgard/mali_kbase_ctx_sched.c:151-159 | the last release frees the space but leaves it assigned |
| CtxSched.Device.RemoveContext | midgard/mali_kbase_ctx_sched.c:161-177 | the method does what `RemovePromise` is about, and keeps the invariant |
| CtxSched.Device.RestoreAllAs | midgard/mali_kbase_ctx_sched.c:179-208 | the loop restores all spaces, its warning cannot fire, and every owner is programmed |
| CtxAttr.CountChanges | midgard/mali_kbase_js_ctx_attr.c:134-195 | changing one count of one context changes the number of holders of that attribute only, by the right amount |
| CtxAttr.CarriesIs | midgard/mali_kbase_js_ctx_attr.c:259-306 | which attributes an atom carries, by the numbers of the bits of its core requirements |
| CtxAttr.CarriersDrop | midgard/mali_kbase_js_ctx_attr.c:283-306 | dropping an atom lowers the counts of exactly the attributes it carries |
| CtxAttr.Runpool.RunpoolRetainAttr | midgard/mali_kbase_js_ctx_attr.c:46-74 | the runpool count goes up if the context has the attribute; true means it came on; the bound of the counter is never reached |
| CtxAttr.Runpool.RunpoolReleaseAttr | midgard/mali_kbase_js_ctx_attr.c:92-119 | the runpool count goes down if the context has the attribute; true means it went off; it never underflows |
| CtxAttr.Runpool.CtxRetainAttr | midgard/mali_kbase_js_ctx_attr.c:134-157 | the runpool keeps counting the scheduled contexts that have each attribute |
| CtxAttr.Runpool.CtxReleaseAttr | midgard/mali_kbase_js_ctx_attr.c:171-195 | likewise on release |
| CtxAttr.Runpool.RunpoolRetainCtx | midgard/mali_kbase_js_ctx_attr.c:224-241 | scheduling a context in keeps both levels right |
| CtxAttr.Runpool.RunpoolReleaseCtx | midgard/mali_kbase_js_ctx_attr.c:243-257 | scheduling a context out keeps both levels right, and tells exactly whether an attribute went off |
| CtxAttr.Runpool.CtxRetainAtom | midgard/mali_kbase_js_ctx_attr.c:259-281 | each context count stays the number of its live atoms with the attribute |
| CtxAttr.Runpool.CtxReleaseAtom | midgard/mali_kbase_js_ctx_attr.c:283-306 | the same on release, which is a no-op for an invalid atom and tells exactly whether an attribute went off |
| WriteTracking.MergedPages | midgard/mali_kbase_gwt.c:152-169 | merging two adjacent entries of one region keeps the pages |
| WriteTracking.PagesAre | midgard/mali_kbase_gwt.c:152-169 | an entry stands for its pages of 4096 bytes, one after the other from its address on, once each |
| WriteTracking.CollatedMeans | midgard/mali_kbase_gwt.c:152-169 | nothing is left to merge exactly if no entry ends, 4096 bytes a page, where the next one of its region starts |
| WriteTracking.MergeKeepsOrder | midgard/mali_kbase_gwt.c:152-169 | merging keeps the address order and leaves nothing to merge |
| WriteTracking.SortSorts | midgard/mali_kbase_gwt.c:127-149 | sorting orders by address and keeps the pages |
| WriteTracking.Tracker.Start | midgard/mali_kbase_gwt.c:64-95 | tracking starts empty, once |
| WriteTracking.Tracker.RecordFault | midgard/mali_kbase_mmu.c:234-258 | a page is recorded once until the next snapshot, at the front of the list |
| WriteTracking.Tracker.Collate | midgard/mali_kbase_gwt.c:142-170 | the result has the same pages, is sorted by address, and no entry ends where the next one of its region starts |
| WriteTracking.Tracker.TakeSnapshot | midgard/mali_kbase_gwt.c:199-214 | a new snapshot is taken only when the old one is used up, and no page is lost |
| WriteTracking.Tracker.TakeChunk | midgard/mali_kbase_gwt.c:216-233 | a chunk holds at most 32 entries, at most what the user buffer holds, and is full unless the snapshot is used up |
| WriteTracking.Tracker.CopyOut | midgard/mali_kbase_gwt.c:216-258 | entries are reported in order, up to the first chunk that cannot be copied; the error is the number of its bytes that were not copied, and zero if and only if there is no such chunk |
| WriteTracking.Tracker.Dump | midgard/mali_kbase_gwt.c:172-268 | recorded pages are always reported, kept or dropped; exactly the pages of the first chunk that fails are dropped, none if and only if no chunk that is due fails; more data is announced exactly when some is left |
| CoherentGroups.WeightWithoutLowBit | midgard/mali_kbase_gpuprops.c:93-98 | clearing the lowest bit takes one from the bit count |
| CoherentGroups.Separate | midgard/mali_kbase_gpuprops.c:100-105 | what lies below a group's start is disjoint from and below the group |
| CoherentGroups.WindowIs | midgard/mali_kbase_gpuprops.c:100-105 | a core is in a group exactly if it is present, not below the group's start, and below the next one |
| CoherentGroups.GroupsStep | midgard/mali_kbase_gpuprops.c:96-110 | one more group keeps the masks disjoint, ascending, and covering the cores up to the next start |
| CoherentGroups.GroupsCover | midgard/mali_kbase_gpuprops.c:96-114 | when no start is left the groups cover all cores from the lowest start on |
| CoherentGroups.ConstructCoherentGroups | midgard/mali_kbase_gpuprops.c:50-117 | groups start at the level-2 caches if bit 0 of the memory features is set and else at the cores; there are min(bit count, 16) of them, each takes the cores from one start up to the next, masks are disjoint and ascending, core counts are right, and with at most 16 starts nothing is left out |
| PropBuffer.DecodeEncode | midgard/mali_kbase_ioctl.h:112-125 | the documented reader inverts the writer, up to types that do not fit 30 bits |
| PropBuffer.RoundTrip | midgard/mali_kbase_gpuprops.c:433-479 | the table is read back exactly if and only if all types fit 30 bits |
| PropBuffer.RowBytes | midgard/mali_kbase_ioctl.h:112-125 | byte for byte: the type in the upper 30 bits of the key, the code of the size in the lower two, and the value, both with the least significant byte first |
| PropBuffer.Writer.WriteRow | midgard/mali_kbase_gpuprops.c:433-479 | a row is written as its little-endian key and value, tightly packed |
| PropBuffer.PopulateUserBuffer | midgard/mali_kbase_gpuprops.c:409-483 | the precomputed size is filled to the last byte with the encoding of the table; it fails exactly for a row whose size is not 1, 2, 4 or 8, or without memory |
| EventQueue.HiddenIffTrailing | midgard/mali_kbase_event.c:186-204 | an event is hidden exactly when it and all later ones carry the coalesce flag |
| EventQueue.EventContext.Fifo | midgard/mali_kbase_event.c:160-207 | delivered, listed and coalesced events together are the reportable ones in posting order |
| EventQueue.EventContext.ProcessNoreport | midgard/mali_kbase_event.c:139-148 | an unreported atom is freed at once, or by the work queue if it holds external resources |
| EventQueue.EventContext.Post | midgard/mali_kbase_event.c:173-207 | a reportable atom is appended to the queue, a silent one is not, and both counters match their lists |
| EventQueue.EventContext.Pending | midgard/mali_kbase_event.c:53-59 | something is pending exactly when the queue is closed or a visible event is undelivered |
| EventQueue.EventContext.Dequeue | midgard/mali_kbase_event.c:63-106 | the oldest visible event is delivered and its atom number freed; an empty queue answers by whether it is closed |
| EventQueue.EventContext.Cleanup | midgard/mali_kbase_event.c:238-263 | every posted event is delivered, coalesced ones included, and every atom number is freed |
| JdEvents.NodesFree | midgard/mali_kbase_event.c:192-201 | an atom on an event list is on no list of dependents, and nobody depends on it |
| JdEvents.CompletedStays | midgard/mali_kbase_jd.c:605-731 | no step of the dispatcher touches a completed atom until its number is freed |
| JdEvents.StepKeepsEvents | midgard/mali_kbase_event.c:160-207 | over all steps of dispatcher and event queue together, the atoms on the event lists stay completed, once each, and on no list of dependents, so that reusing their node is sound |

## Left out

- JobDispatcher.JdContext.Done: does not state the order in which the atoms of one call are finalised, nor whether the scheduler must be run again; both depend on the scheduler's answers.
- JobDispatcher.JdContext.DrainRunnable: does not state how often or in which order GPU atoms are offered, only which are.
- JobDispatcher.JdContext.AddJob: cancels the new atom only; the other atoms that the scheduler cancels with it are `CancelJob` operations.
- JobDispatcher.JdContext.FenceWork: on an atom that is over, its number is taken not to have been given to a new atom yet.
- JdTheory.InheritsCode: does not state which of two failed DATA predecessors passes its code on, which depends on the order of resolution.
- JobDispatcher.JdContext.CompleteJob: does not model the list on which the done worker collects completed atoms before posting them, only that they stay completed until then.
- DmaFence.FenceWait.InitWork: does not model what becomes of a work queue when an item on it is initialised again; each queueing counts as one more run, and hand-over needs at least one.
- DmaFence.FenceWait.Wait: does not model the reservations' fence lists; what becomes of each callback is a parameter.
- Soft replay atoms, forced replay failures and the promotion of tile-range faults.
- The stopped atoms that the done worker gives back to the scheduler, and the waiting loop of job submission.
- The 32-bit age counter wraps around in the driver; the model's submission numbers do not.
- The job scheduler beyond its answers: slots, priorities, ring buffers, context scheduling.
- External-resource mapping, copies from user space, timeline and trace points, and locks as objects. Sections under a lock are single steps, except that fence callbacks may come in.
- The bit pattern of free address spaces is a sequence of flags, and finding the first set bit is a loop over it.
- `list_sort` is kernel code; any sorting that orders by address and keeps the entries will do in its place.
- Page addresses are unbounded numbers, so a run of pages that wraps around at 64 bits is not modelled.
- Write permission changes of tracked pages, growth faults and allocation failure while a fault is recorded.
- The bytes written before a row of odd size stops the property writer.
- The termination checks of the address-space allocator, and the workaround that limits user address spaces.
- Hardware bring-up, device nodes and debug file systems.
