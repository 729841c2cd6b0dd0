# Verified model of the DANS scheduling core

DANS splits work into stages. Each stage has a `MultiQueue` (one FIFO of job ids per priority and
a hash index for purging), a dispatcher that turns a request into duplicate copies, and scheduler
threads that take jobs out. A `Throttler` limits how many jobs of each of two priorities run. The
client sends the copies of a request through three stages (Connect, Request, Response); the first
copy to complete wins and the others are purged.

This project models those pieces in Dafny and proves what holds over every interleaving of their
threads. `dafny verify dfyconfig.toml` checks all of it.

## How it is organised

| files | what they hold |
|---|---|
| `Jobs`, `Runs` | the simple thing a MultiQueue stands for, one job sequence per priority; runs of any step system |
| `QueueIndex`, `QueueLag`, `QueueRep` | queues with node identities, the index with saved iterators, and how the two correspond |
| `MultiQueue` | the MultiQueue as an object, one call at a time |
| `QueueSteps` | the MultiQueue with a program counter per thread; one step is one lock, queue, index or gate change |
| `QueueInvariant`, `QueueData` | lock ownership, and index against queues, in every reachable state |
| `QueueRefinement`, `QueueRuns` | refinement of the simple thing, FIFO order, nothing lost |
| `QueueWakeup`, `QueueGates`, `QueueProgress` | wakeups, the exact gate, freedom from deadlock |
| `QueueAlone`, `QueueCalls`, `QueueRelease` | what each call comes to when its thread is left alone; what ReleaseQueues is for |
| `QueueView`, `QueueRace`, `QueueStranded` | a window on one priority, and two families of runs that show where a promise stops |
| `Throttler`, `ThrottlerDecision` | the Throttler as an object; what one decision comes to |
| `ThrottlerSteps`, `ThrottlerInvariant`, `ThrottlerRuns`, `ThrottlerProgress` | the permit protocol with every read of a decision as its own step |
| `ThrottlerMisled`, `ThrottlerStarts`, `ThrottlerRace`, `ThrottlerRaceSize`, `ThrottlerWedge` | runs that show where a promise stops |
| `Composition`, `CompositionBound` | the throttler on top of the MultiQueue, and its bound counted in jobs |
| `Statistics` | the statistics lists, their writers and the batch runner |
| `Dispatch` | the duplication clamp, dispatch and purge |
| `PipelineSteps`, `PipelineInvariant`, `PipelineDelivery`, `PipelineRuns` | copies of any number of requests under an adversarial network: conservation, delivery, reassembly |
| `PipelineRoute`, `PipelineSpread`, `PipelineThreads` | the way of a copy through the stages, what a dispatch makes, and what one thread gets done while others run |
| `PipelineHope`, `PipelineFate` | which copies can still be delivered |
| `Response` | the read loop filling a buffer |

## What was found

- Without purges and releases an empty list can be popped at a priority if and only if it is the
  last one, whose gate the constructor leaves unlocked (`PopsEmptyExactly`). Under the throttler,
  whose permits let one thread of a priority in at a time, it cannot happen at all
  (`ThrottledNeverFaults`).
- Exactly one kind of step leaves a queue with jobs in it behind a closed gate with nobody to serve
  it: a dequeuer that takes a pending release and returns null (`ServedExactly`). It is reachable at
  every priority: release, enqueue, dequeue (`ReleaseStrands`). A decision of the throttler makes
  just such a release of the secondary queue. It cannot happen while each release is consumed
  before the next insert at its priority (`NoLostWakeup`).
- A decision of the throttler adds the primary count and the primary queue size, two calls whose
  order C++ leaves open, while both change. With the count read first, a purge in between can leave
  it with a load that never was; with the size read first, an enqueue and the end of a job can, and
  nothing need be purged. Each order has its run in which primary work never is below its target
  and yet two secondary jobs start (`ThrottlerRace`, `ThrottlerRaceSize`). `StaleExactly` says which
  steps do it, `MisledIssues` what the misled decision then does, and without such steps precedence
  holds in either order.
- Built with a primary target of 0, the throttler can be wedged for ever after one secondary job,
  even if the target is then raised (`ThrottlerWedge`). `AliveExactly` names the one step after which
  neither a permit, a primary job nor a coming decision is left; none occurs while the primary target
  stays positive.
- ReleaseQueues lets a dequeuer of an empty queue return and open the gate for the next, and this lasts
  until exactly an insert or a single release at that priority (`DrainedExactly`).
- A copy can still be delivered exactly if it has not been dropped, its request is not claimed for
  another, its server sends enough to fill its buffer, and its connection was not found closed before
  that (`DeliverableExactly`).
- The duplication clamp is the minimum it is meant to be exactly when its 32-bit sum does not wrap. A
  request that wraps makes no copies if it asks for no more copies than there are priorities, and
  ends the process at the address check otherwise.

Modelling choices: unlocking an unlocked gate or block does nothing; taking the index lock and
dropping the queue lock is one step; the network may do anything a socket allows. Where the model
follows the code although a comment says otherwise: the constructor's comment says queues start
with "not empty" locked, and its loop skips the last one.

## Model

| member | source | states |
|---|---|---|
| MultiQueues.MultiQueue.constructor | common/dstage/multiqueue.hh:20-32 | every queue is empty and every gate locked except the last |
| MultiQueues.MultiQueue.Enqueue | common/dstage/multiqueue.hh:77-122 | the job goes to the back of its priority; the gate opens exactly if that queue was empty; index and queues stay in correspondence |
| MultiQueues.MultiQueue.Dequeue | common/dstage/multiqueue.hh:125-204 | returns exactly the front job object, or null, or blocks, each under its exact condition; flag and gate after each; the linear search finds the popped node's entry even under repeated ids |
| MultiQueues.MultiQueue.Search | common/dstage/multiqueue.hh:183-196 | the search loop stops at the first entry of the priority, or at the end if there is none |
| MultiQueues.MultiQueue.Purge | common/dstage/multiqueue.hh:207-230 | filters one id out of every queue, returns how many there were, leaves gates and flags alone |
| MultiQueues.MultiQueue.EraseEach | common/dstage/multiqueue.hh:218-225 | erases the node of every saved iterator and counts them |
| MultiQueues.MultiQueue.ReleaseQueues | common/dstage/multiqueue.hh:246-254 | opens the gate of every empty queue and no other |
| MultiQueues.MultiQueue.ReleaseOne | common/dstage/multiqueue.hh:257-266 | on an empty queue sets its flag and opens its gate, on any other does nothing |
| MultiQueues.MultiQueue.Size | common/dstage/multiqueue.hh:233-237 | the number of jobs at the priority |
| QueueRep.RepPop | common/dstage/multiqueue.hh:167-201 | popping the front node and dropping the first index entry of its id and priority keeps the correspondence, and that entry holds the front job |
| QueueRep.RepPurge | common/dstage/multiqueue.hh:213-227 | erasing by saved iterators and dropping the list equals filtering every queue; the list length is the number of jobs filtered |
| QueueIndex.EraseAllFilters | common/dstage/multiqueue.hh:218-227 | erasing node by node through the saved iterators equals filtering by id without scanning |
| QueueInvariant.LocksKept | common/dstage/multiqueue.hh:84-121 | every step keeps: each lock is owned by exactly the threads whose program counter says so, and the purge lock is shared or exclusive, never both |
| QueueData.InvKept | common/dstage/multiqueue.hh:84-230 | every step of every thread keeps the correspondence of index and queues up to the nodes carried by lock owners |
| QueueData.LookupFinds | common/dstage/multiqueue.hh:165-201 | in every reachable state both lookups of Dequeue succeed and the entry found is the one whose iterator names the node this thread popped |
| QueueRefinement.ExactUnderExclusive | common/dstage/multiqueue.hh:209-227 | under the exclusive purge lock nodes and entries correspond one to one, in order, with no dangling iterator and no empty list |
| QueueRefinement.UnlistedNodeIsCarried | common/dstage/multiqueue.hh:97-121 | a queued node without an index entry belongs to a thread between its insert and its index step |
| QueueRefinement.DanglingEntryIsCarried | common/dstage/multiqueue.hh:167-201 | an entry whose node is no longer queued belongs to a thread between its pop and its index step |
| QueueRefinement.ActionRefines | common/dstage/multiqueue.hh:77-230 | every step of the concurrent MultiQueue is one step of the sequence-per-priority specification, linearized at insert, pop and purge |
| QueueRuns.RunRefines | common/dstage/multiqueue.hh:77-230 | the same over whole runs |
| QueueRuns.LookupsNeverFail | common/dstage/multiqueue.hh:181-198 | no run whatever fails a lookup; popping an empty list is the only possible fault |
| QueueRuns.SoleRunsAreClean | common/dstage/multiqueue.hh:138-172 | with one dequeuer per priority no run faults, whatever is purged or released |
| QueueRuns.SoleRunRefines | common/dstage/multiqueue.hh:77-230 | from the constructor, with one dequeuer per priority, no run faults and every step is a step of the specification |
| QueueRuns.ReturnsTheFront | common/dstage/multiqueue.hh:171-203 | a Dequeue returns the very job object that was at the front of the specification when it popped, however many steps lie between |
| QueueRuns.FirstInFirstOut | common/dstage/multiqueue.hh:101-103 | of two pops at one priority the earlier takes the earlier inserted node |
| QueueRuns.NothingLost | common/dstage/multiqueue.hh:77-230 | every job ever inserted is still queued under its own node or was taken off by one step of the run |
| QueueWakeup.ServedExactly | common/dstage/multiqueue.hh:138-159 | from a served state, a step leaves a non-empty queue with its gate closed and nobody to pop or open it if and only if it consumes a pending release though there are jobs, the gate is closed and nobody else serves them |
| QueueWakeup.ServedThroughout | common/dstage/multiqueue.hh:138-176 | over a run, a queue is served in every state if and only if no step is such a step, for any number of dequeuers, purges and releases |
| QueueWakeup.NoLostWakeup | common/dstage/multiqueue.hh:138-176 | over runs whose releases are consumed in time, with any number of dequeuers and purges, a non-empty queue always has its gate open or a thread that will pop or open it |
| QueueStranded.ReleaseStrands | common/dstage/multiqueue.hh:141-144 | for every number of priorities and at each, a run from the constructor of one release, one enqueue and one dequeue ends with all calls returned and the job behind a closed gate with nobody to serve it |
| QueueGates.TokenStep | common/dstage/multiqueue.hh:104-105 | the token a thread holds or hands on appears with the first insert and vanishes with the last pop only |
| QueueGates.ExactGate | common/dstage/multiqueue.hh:104-176 | below the last priority, without purge or release, open gate plus threads past it is exactly 1 on a non-empty queue and 0 on an empty one, for any number of dequeuers |
| QueueGates.ExactDequeuers | common/dstage/multiqueue.hh:104-176 | while nobody holds the queue lock, open gate plus dequeuers past it is exactly 1 on a non-empty queue and 0 on an empty one |
| QueueGates.NoEmptyPop | common/dstage/multiqueue.hh:171-176 | so below the last priority no thread ever pops an empty list |
| QueueRace.LastPriorityPopsEmpty | common/dstage/multiqueue.hh:28-31 | for every number of priorities two dequeuers of the last one have a run from the constructor, with no purge and no release, whose last step pops an empty list |
| QueueRace.PopsEmptyExactly | common/dstage/multiqueue.hh:28-31 | without purges and releases an empty list can be popped at a priority if and only if it is the last |
| QueueProgress.RankRises | common/dstage/multiqueue.hh:84-108 | a thread waiting for a lock waits for one that wants a later lock in the order state, purge, queue, index |
| QueueProgress.NeverDeadlocks | common/dstage/multiqueue.hh:84-266 | in every state of every run no threads wait in a cycle, and unless all are idle or parked at a gate one of the others can step |
| QueueProgress.ParkedHoldsNothing | common/dstage/multiqueue.hh:130-147 | a thread parked at a gate holds no scoped lock and nobody waits for it |
| QueueCalls.EnqueueAlone | common/dstage/multiqueue.hh:77-122 | a thread left alone that enqueues returns; its job is at the back of its priority, the gate is open if it was the first, and nothing else has changed |
| QueueCalls.FullDequeueAlone | common/dstage/multiqueue.hh:125-203 | left alone past the gate of a queue with jobs, a dequeue returns the job object at the front, takes it out of queue and index, and leaves the gate open exactly if jobs remain |
| QueueCalls.FlaggedDequeueAlone | common/dstage/multiqueue.hh:141-144 | past the gate with a release pending it returns null, consumes the release and leaves the gate closed and the queues alone |
| QueueCalls.ReleasedDequeueAlone | common/dstage/multiqueue.hh:152-156 | past the gate of an empty queue after ReleaseQueues it returns null and leaves the state exactly as it was, gate open |
| QueueCalls.EmptyDequeueAlone | common/dstage/multiqueue.hh:146-159 | past the gate of an empty queue that was not released it ends up parked at the gate, closed behind it |
| QueueCalls.ClosedGateBlocks | common/dstage/multiqueue.hh:138-140 | at a closed gate it cannot take a step |
| QueueCalls.PurgeAlone | common/dstage/multiqueue.hh:207-230 | every queue is filtered by the id, gates and flags are left alone, and the value returned is the number of jobs taken out |
| QueueCalls.ReleaseQueuesAlone | common/dstage/multiqueue.hh:246-254 | the released flag is set and the gates of exactly the empty queues are opened; nothing else changes |
| QueueCalls.ReleaseOneAlone | common/dstage/multiqueue.hh:257-266 | on an empty queue the flag is set and the gate opened, on any other nothing happens |
| QueueCalls.DecideAlone | common/dstage/throttler.hh:125-160 | a decision that releases does to the secondary queue what ReleaseOne does, one that does not leaves the MultiQueue alone |
| QueueRelease.ReleaseDrains | common/dstage/multiqueue.hh:246-254 | ReleaseQueues, left alone, drains every empty queue without a pending release: it is released, empty, and its gate is open or a thread is about to open it |
| QueueRelease.DrainedExactly | common/dstage/multiqueue.hh:146-159 | a drained queue stays drained through a step if and only if the step is neither an insert nor a single release at that priority |
| QueueRelease.StaysDrained | common/dstage/multiqueue.hh:138-159 | over whole runs with any number of dequeuers, a drained queue stays drained until such a step |
| ThrottlerDecision.DecidedIsSafe | common/dstage/throttler.hh:138-186 | a decision issues at most one permit, keeps jobs plus permits within the targets, leaves no primary shortage, and issues a secondary permit only beside an outstanding primary one and below the primary target |
| ThrottlerDecision.DecisionRefines | common/dstage/throttler.hh:125-186 | the decision made read by read under the state lock comes to exactly the one-shot decision when nothing it reads changes, whatever else other threads do |
| Throttlers.Throttler.constructor | common/dstage/throttler.hh:56-92 | a priority starts blocked exactly if its target is 0, else with its permit out |
| Throttlers.Throttler.DecideAfterScheduling | common/dstage/throttler.hh:125-160 | the whole new state is the one-shot decision after the dequeuer's own flag is taken down; the secondary queue's flag and gate are raised exactly when a secondary dequeuer waits, its queue is empty and primary work is at its target |
| Throttlers.Throttler.DecideCompleting | common/dstage/throttler.hh:164-186 | the whole new state is the one-shot decision |
| Throttlers.Throttler.DecrementJobCount | common/dstage/throttler.hh:105-108 | one job less, then the decision; the bound is kept and no primary shortage is left |
| Throttlers.Throttler.Settle | common/dstage/throttler.hh:116-119 | after the fetch the job is counted if there is one, then the decision is made, with its effect on the secondary queue's flag and gate; the bound is kept |
| Throttlers.Throttler.Dequeue | common/dstage/throttler.hh:111-121 | gets the front job, returns null or blocks under exact conditions on block, gate, flag and queue; the new books, queues, gates and flags in each case; the bound is kept |
| Throttlers.Throttler.SetThrottle | common/dstage/throttler.hh:189-196 | only the one target changes, and raising it keeps the bound |
| Throttlers.ParkThenPrimary | common/dstage/throttler.hh:151-153 | a secondary dequeuer parked in its empty queue is let go with null after a primary dequeue exactly if primary jobs and queue reach the primary target, and otherwise stays parked behind a closed gate |
| ThrottlerInvariant.InvKept | common/dstage/throttler.hh:111-186 | every step keeps permit accounting, the counters, and what a decision's registers say about them |
| ThrottlerInvariant.IssueIsSafe | common/dstage/throttler.hh:143-158 | a permit is issued only while none is out and jobs are below the target, although counts change during the decision |
| ThrottlerRuns.PermitAccounting | common/dstage/throttler.hh:82-186 | in every state of every run open permit plus holders is 1 while waiting is set and 0 otherwise, so at most one dequeuer per priority is past its block |
| ThrottlerRuns.ThrottleBound | common/dstage/throttler.hh:15-33 | with a fixed non-negative target, live jobs plus the reserved permit never exceed it |
| ThrottlerRuns.LoweringConverges | common/dstage/throttler.hh:188-196 | after a change of target, live plus reserved stays within the new target or its value at the change |
| ThrottlerRuns.NeverRises | common/dstage/throttler.hh:138-186 | at or above the target no step raises live plus reserved |
| ThrottlerRuns.SecondaryNeedsPrimary | common/dstage/throttler.hh:151-159 | a secondary permit is issued only while a primary permit is out and the primary load read was below its target |
| ThrottlerRuns.StaleExactly | common/dstage/throttler.hh:139-140 | with primary work at its target before and after, a step makes a decision misread the load if and only if it is a purge that undercuts a count already read, or the end of a primary job that undercuts a queue size already read |
| ThrottlerRuns.PrimaryPrecedence | common/dstage/throttler.hh:138-186 | in any stretch with primary work at its target in every state and no such step, at most one secondary job starts, whichever read comes first |
| ThrottlerMisled.MisledIssues | common/dstage/throttler.hh:139-159 | a misled decision with no primary permit to issue, left alone, issues a secondary permit exactly if the secondary priority is below its target, in either order of the reads |
| ThrottlerRace.StartsTwice | common/dstage/throttler.hh:139-159 | count read first: a run from the constructor with primary work at its target in every state from step 1 on, one misleading purge, and two secondary starts |
| ThrottlerRaceSize.StartsTwice | common/dstage/throttler.hh:139-159 | size read first: a run from the constructor with primary work at its target in every state from step 15 on, nothing purged, one misleading end of a job, and two secondary starts |
| ThrottlerProgress.PrimaryNeverWedges | common/dstage/throttler.hh:105-176 | with fixed targets, whenever live primary jobs are below target a primary permit is out or a thread still has its decision to run |
| ThrottlerProgress.AliveExactly | common/dstage/throttler.hh:143-149 | with a permit, a primary job or a coming decision there, the step that leaves none of them is exactly a decision that read no primary job and lets the permit lie because the target is not above its reading, while no primary job runs and no other decision is coming |
| ThrottlerProgress.RevivesExactly | common/dstage/throttler.hh:105-121 | with none of them there, life returns exactly with a job counted, a fetch returning null, a job finishing, or a primary permit issued |
| ThrottlerProgress.AliveThroughout | common/dstage/throttler.hh:138-196 | over a run that starts alive, every state is alive if and only if no step gives up, whatever the targets are set to |
| ThrottlerProgress.PositiveTargetStaysAlive | common/dstage/throttler.hh:138-196 | while the primary target changes but stays positive no step gives up |
| ThrottlerProgress.WedgedForever | common/dstage/throttler.hh:111-115 | with no permit, no job and no decision under way no dequeuer ever passes its block again, whatever is queued or set |
| ThrottlerWedge.RaisingFromZeroWedges | common/dstage/throttler.hh:82-91 | for every secondary target and every later primary target, a run from the constructor with primary target 0 ends wedged with that primary target set |
| Composition.ThrottledNeverFaults | common/dstage/throttler.hh:111-121 | under the throttler, with any number of threads, purges and releases, no run pops an empty list or fails a lookup; whoever is in a MultiQueue dequeue holds the permit of that priority, and there is at most one |
| Composition.ThrottledRefines | common/dstage/multiqueue.hh:125-204 | so every step inside the MultiQueue under the throttler is a step of one job sequence per priority |
| CompositionBound.JobsWithinTarget | common/dstage/throttler.hh:15-33 | over composed runs with a fixed target, jobs that have left the MultiQueue minus jobs that have ended is at least 0 and at most the target; both are counted from the steps of the run, not from the counter |
| CompositionBound.OnePermitOneDequeue | common/dstage/throttler.hh:111-116 | dequeues of the MultiQueue begun, plus those still to begin, are exactly the permits taken |
| Statistics.RecordInOnePlace | common/dstage/throttler.hh:26-53 | at every step each finished job's record is in exactly one of: its thread, the lists, the records wiped at a runner start, one delivered batch |
| Statistics.BatchesLineUp | common/dstage/throttler.hh:245-260 | in every delivered batch the k-th latency and k-th size of a side are those of one finished job, of priority 0 on the first side and of another on the second |
| Statistics.ListsLineUp | common/dstage/throttler.hh:40-53 | at every step the lists line up job by job, priority 0 on the first side and all others on the second; only the newest job may still owe its size |
| Statistics.AddStatRecords | common/dstage/throttler.hh:40-53 | when a finishing job returns, whatever other threads report meanwhile, the newest entries of the lists of its side are its own latency and size |
| Statistics.RoundAlone | common/dstage/throttler.hh:245-260 | an undisturbed round of the runner delivers the lists as one batch and leaves them empty |
| Statistics.StartAlone | common/dstage/throttler.hh:227-243 | an undisturbed start wipes what had gathered and delivers nothing |
| Statistics.WipedOnlyAtStart | common/dstage/throttler.hh:227-260 | records are wiped once for each launch and at no other step, and delivered only as a whole batch |
| Dispatching.ClampIsMinimum | common/dstage/dispatcher.hh:39-42 | the clamp is min(base + requested, max) if and only if the 32-bit sum does not wrap, and lies below the base otherwise |
| Dispatching.AddressCheckExactly | common/dstage/client_connect_handler.cc:25-31 | the address check passes if and only if the sum does not wrap or no more copies are asked for than there are priorities |
| Dispatching.CopiesPurgeAway | common/dstage/client_connect_handler.cc:33-41 | purging the copies of an id not queued before counts them all and restores every queue |
| Dispatching.CopiesUseAddressesInOrder | common/dstage/client_connect_handler.cc:33-41 | one more job at the back of each priority from base on, the k-th of them with the k-th address; no other queue changes |
| Dispatching.DuplicateAndEnqueue | common/dstage/client_connect_handler.cc:20-42 | aborts exactly if a check fails; otherwise one copy at the back of each priority from base to the clamp, each with the next address in turn |
| Dispatching.Dispatch | common/dstage/dispatcher.hh:37-44 | aborts exactly if a check fails; otherwise copies from base to min(base + requested, max) without a wrap, none at all with one |
| Dispatching.DispatchThenPurge | common/dstage/multiqueue.hh:207-230 | for every request with an id not queued before, dispatch then purge returns the number of copies and restores the queues |
| Dispatching.PurgeFrom | common/dstage/dstage.hh:42-47 | purging a stage filters it and every stage downstream, and the value returned is the number of jobs these stages have lost |
| PipelineInvariant.ConservedKept | common/dstage/client_connect_handler.cc:84-132 | every step keeps every copy in exactly one place |
| PipelineDelivery.InvKept | common/dstage/client_response_handler.cc:114-123 | every step keeps: completions delivered plus claimed for a request are 1 if its purge state is set and 0 otherwise, and all of them are whole |
| PipelineRuns.CopyInOnePlace | common/dstage/client_request_handler.cc:61-119 | at every step of every run a copy is in exactly one queue, hand, pending callback, or dropped or delivered, and nothing else is anywhere |
| PipelineRuns.NothingIsStuck | common/dstage/client_connect_handler.cc:84-87 | in every reachable state an idle thread can take the front of any queue with a job in it, and any registered callback can fire |
| PipelineRuns.AtMostOnceDelivery | common/dstage/client_response_handler.cc:114-123 | two delivered copies never belong to the same request |
| PipelineRuns.DeliveredIsComplete | common/dstage/client_response_handler.cc:114-119 | a delivered buffer is full, from its start index on it is the bytes read for that copy, they are the first bytes its server sent, and its request was claimed |
| PipelineRuns.SingleClaim | common/dstage/synchronization.cc:19-24 | at most one step of a run ever claims a request |
| PipelineRuns.NoAdvanceAfterClaim | common/dstage/client_response_handler.cc:65-70 | once its request is claimed, a copy that still has a check before it stays at its stage until it is dropped |
| PipelineRuns.HaltedNeverDelivered | common/dstage/client_connect_handler.cc:89-94 | so it is never delivered and never reaches another stage's queue |
| PipelineRuns.ClaimHalts | common/dstage/client_request_handler.cc:99-119 | once a request is claimed each of its copies is halted, or is the winner, or had passed its check and is on its way into the next queue |
| PipelineRuns.Reassembled | common/dstage/client_response_handler.cc:90-112 | over every interleaving and any number of requeues, the buffer of a copy, written in place at its index, holds from start to index the bytes read for it, which are the first bytes its server sent; the rest is untouched and the index never passes the end |
| PipelineRoute.DeliveredWentThrough | common/dstage/client_connect_handler.cc:116-132 | a delivered copy was taken from the Connect queue, later from the Request queue, and later from the Response queue |
| PipelineThreads.CallbackPassesOn | common/dstage/client_connect_handler.cc:106-125 | after an error-free callback of a copy unclaimed at its check, the second next action of the thread leaves it at the back of its priority in the queue of the next stage, Response following Response, and changes no other queue |
| PipelineThreads.WouldBlockWaits | common/dstage/client_response_handler.cc:125-139 | a copy that leaves the read loop with room in its buffer is dropped by the next action of its thread exactly if its connection failed or ended, and otherwise registered for another callback |
| PipelineThreads.OfferTakesAll | common/dstage/client_response_handler.cc:92-107 | a read takes the least of what is offered, what there is room for and what the server still has, and the loop goes on exactly if that is something |
| PipelineThreads.DeliversThenPurges | common/dstage/client_response_handler.cc:118-123 | the winner is delivered once, and whenever its thread is free after that it has cleared the queue of each stage of the jobs with that id |
| PipelineThreads.PurgeSweepsAll | common/dstage/dstage.hh:42-47 | a purge by a caller has cleared the queue of each stage of the jobs with that id when its thread is free again |
| PipelineThreads.EveryLossHasAReason | common/dstage/client_request_handler.cc:61-119 | a step drops a copy if and only if its request was claimed at a check, its callback failed, its connection closed before its buffer was full, or a purge of its id found it in a queue |
| PipelineSpread.DispatchMakesEveryCopy | common/dstage/client_connect_handler.cc:33-41 | whenever the thread of a dispatch is free again, its request has exactly one copy for each priority from the base to the last, all with its id, and no other |
| PipelineHope.SaneKept | common/dstage/client_response_handler.cc:114-139 | every step keeps: a copy with a full buffer is in no queue, no pending callback and no hand of an earlier step, and index, start and bytes read agree |
| PipelineFate.StaysLost | common/dstage/client_response_handler.cc:114-139 | a doomed copy stays doomed and undelivered over every run |
| PipelineFate.DeliverableExactly | common/dstage/client_response_handler.cc:61-139 | in every reachable state with a thread that is free or holds the copy, some run delivers an undelivered copy if and only if it is not dropped, its request is not claimed for another, its server sends enough, and its connection was not found closed with room left in its buffer |
| Responses.Response.constructor | common/dstage/client_response_handler.cc:72-80 | a new buffer of the announced size, filled from the announced index |
| Responses.Response.ReadMore | common/dstage/client_response_handler.cc:92-107 | one read appends to the filled part and touches nothing else |
| Responses.Response.Drain | common/dstage/client_response_handler.cc:90-112 | the loop ends, only appends, gets exactly what the network offers before it would block, closes or fills the buffer, and reports closing |
| Responses.DrainsExactly | common/dstage/client_response_handler.cc:90-112 | the loop gets the least of the bytes offered before the first offer of none, the room and what the server has, and reports closed if and only if the buffer is then full or it comes to a failure or an end |
| Responses.Response.Rounds | common/dstage/client_response_handler.cc:114-139 | over any number of requeues the filled part equals the stream read so far |
| Responses.RoundsComplete | common/dstage/client_response_handler.cc:90-166 | if the network offers the bytes and never fails, enough rounds fill the buffer, whatever the split into short reads and would-block results |

## Left out

- `LinuxCommunicationHandler`, epoll and sockets: replaced by an adversary that fires each registered callback at most once, with or without error.
- `TcpPipe`, the proxy callbacks, `Connection`, the Executor, application mains, flags, logging and Describe strings: foreign calls or easy members.
- Failed CHECKs other than those of a dispatch: a wrong priority, a null job, a short header read, an empty object or a failed send ends the process, so these are preconditions or absent; the null job that the dispatcher drops with a warning is absent too.
- The scheduler loops and callbacks of the three client stages, and the statistics methods, are modelled as steps of a transition system, not as methods on objects; what one thread writes in place is then part of one shared state.
- `PurgeState` and `Counter` are fields of the step systems, changed in one step each, as their locks make them.
- Passing the moved job and its priority in one call leaves their evaluation order to the compiler (common/dstage/dispatcher.hh:44); the model takes the priority first.
- Job ids are not assumed unique; how `JobIdFactory` makes them is not modelled.
- Progress of secondary work, fairness, and shutdown after `ReleaseQueues` on a non-empty queue: the code promises none of them. Shutdown of an empty queue is proved (`QueueRelease`).
- Counts and sizes are unbounded except in the duplication clamp.
- ThrottleBound: asks for a non-negative target; with a negative one the constructor still issues a permit.
- A header whose start index lies beyond its size is excluded; the code does not check for it.
- Composition: a thread may enter the MultiQueue for anything but a dequeue at any time, which includes the release a decision makes.
