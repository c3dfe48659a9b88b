# Verified models of the EdgeRuntime shared-memory protocols

EdgeRuntime moves data between processes through shared memory that any participant may stop
touching, by crashing, between any two accesses. These modules model its protocols at that grain
and prove what each promises over every run.

Each protocol is a state machine. A step is one shared access (one load, store or
compare-and-swap, one byte of a copy) by one actor; any number of actors interleave freely; a crash
simply ends an actor. Runs are sequences of states from the initial one, an invariant is proved of
every state of every run, and the theorems follow. Memory is sequentially consistent: the queue,
the pool and the owner words use sequentially consistent accesses in the source, and for the
channel, which uses acquire, release and relaxed accesses, this is an assumption. Words are naturals
with every 64-bit bound the source checks written out. History fields (what was committed, who
holds what) are never read by a step.

| module | what it is |
|---|---|
| `Words`, `Layout` | checked arithmetic, slot and block placement, ticket packing |
| `OwnerCell`, `OwnerSnapshot` | the owner seqlock, snapshots of it, and the liveness verdicts built on them |
| `Mpmc`, `MpmcInvariant`, `MpmcSteps`, `MpmcTheorems`, `MpmcProgress`, `MpmcPush`, `MpmcTruth`, `MpmcWear`, `MpmcLast`, `MpmcHost` | the bounded multi-producer multi-consumer queue |
| `Pool`, `PoolInvariant`, `PoolSteps`, `PoolTheorems`, `PoolHost` | the shared buffer pool |
| `Channel`, `ChannelInvariant`, `ChannelSteps`, `ChannelTheorems`, `ChannelHandover`, `ChannelRuns`, `ChannelHost`, `ReclaimSlots` | the latest-value channel and its consumer handover |
| `Wakeup`, `QueueWait` | the futex protocol of both waits, and its composition with the queue |
| `Shutdown` | deferred shutdown of a handle with loans |
| `Journal`, `JournalTheorems`, `JournalRecovery`, `JournalOrder`, `JournalRuns`, `JournalHost` | channel creation, removal and crash recovery |
| `Supervisor` | the restart loop |

The `Host` modules give the operations as methods of a class whose shared memory other actors keep
changing between any two accesses; the supervisor, the reclaim of a dead consumer's slots, the
backoff and the owner snapshot are loops in the source and loops here.

## What does not hold

- Not every dead consumer can be replaced. A death between the two stores of a slot release, a
  consumer's own or an opener's reclaim, leaves a slot no later opener will take back, and those are
  the only ways (`ChannelHandover.OrphanedExactlyBy`, with the runs `ChannelRuns.ReaderLeavesOrphan`
  and `ChannelRuns.OpenerLeavesOrphan`); an opener that dies while it writes its identity leaves the
  role epoch odd (`ChannelRuns.IdentityHalfWritten`). `ChannelHandover.ReplaceableIff` says, from what
  is on the channel, exactly when a next opener gets through and that otherwise none ever will.
- Not every shutdown request is carried out. One that overlaps a read, publish, wait or status call is
  lost if nothing services it later, and so is one that overlaps a producer's loan after the sequences
  are used up; `Shutdown.ShutdownLostExactlyWhen` gives the condition both ways,
  `Shutdown.ReadLosesShutdown` and `Shutdown.FailedLoanLosesShutdown` the two runs. A shutdown is
  requested only by a handle's destructor or its move assignment, so the overlapping call is one on a
  handle being destroyed; without one, and with loans still out, no shutdown is lost
  (`Shutdown.OrderlyShutdown`), nor on a handle used for loans alone while sequences last
  (`Shutdown.NoGuardNoLoss`).
- Channel generations are not handed out once. A recovery that takes back a create whose record is
  more than one generation ahead turns the count back; `JournalOrder.RecoveryKeepsOrderIff` says so
  both ways from the record and the object on disk, `JournalOrder.RecoveryTurnsBack` gives a run with
  two handles of generation 1 to different objects.
- Not every crash of a create can be recovered. An object announced but without bootstrap blocks the
  name for good; `JournalRecovery.StuckExactlyBy` lists the steps that lead there,
  `JournalRuns.DeathBeforeBootstrap` is a run, and `JournalRecovery.RecoverableIff` says every other
  crash is recovered by the next undisturbed create.
- A failed create can block the name without a crash. If an I/O failure leaves its record behind, no
  create and no remove of anybody, its own retries included, gets anywhere until its process ends
  (`JournalRecovery.OccupiedUntilDeath`, with the run `JournalRuns.FailedWriteOccupies`).
- A popper that has seen a message is not sure of emptiness as the alternative. At the last ticket
  another can take it first, and the loser is told the sequence is exhausted. Exhaustion is reported
  only then (`MpmcTruth.PopExhaustedMeansEnd`), and a queue can get that far exactly if it has three
  slots or more (`MpmcLast.LastTicketIff`); one or two wear out before (`MpmcWear.WornOut`).
- Samples read and samples reported missed do not always add up: a sample its reader's codec does not
  decode is taken, not delivered, and not counted as missed (`ChannelRuns.UndecodedIsLost`).
  `ChannelTheorems.LossIsAccounted` says they add up exactly when the codec accepts every sample taken.
- A waiter that lets a multiple of 2^32 notifications pass between sampling and parking sleeps
  through them (`Wakeup.NoLostWakeup`, `Wakeup.WrapLosesWakeup`).
- A gate whose holder died before its OWNED store is reported as contention for ever, never as
  blocked (`OwnerSnapshot.GateBusyResult`).
- A wake can fail to come: the notifier that owes it may have crashed after its store, and then only
  another notify or the end of the time slice ends the wait (`QueueWait.SleeperIsOwed`).
- A supervisor does not always know every child it has to wait for: one that a refused clean-up left
  behind is forgotten exactly by a next run in which some attempt produces a child
  (`Supervisor.SupervisorLoop.Run`, with the example `Supervisor.ForgottenChild`).

## Model

| member | source | states |
|---|---|---|
| Words.CheckedAdd | src/edge_runtime/utility/checked_math.hpp:9-13 | defined exactly when the sum fits 64 bits, and then the sum |
| Words.CheckedMul | src/edge_runtime/utility/checked_math.hpp:15-19 | defined exactly when the product fits 64 bits, and then the product |
| Words.RoundUp | src/edge_runtime/utility/checked_math.hpp:30-41 | the least multiple at or above the value; refused only if the alignment is zero or it would not fit |
| Layout.MpmcSlotsFit | src/edge_runtime/queue/mpmc_layout.hpp:131-152 | a mapping size is computed for exactly the admitted shapes, and then every slot is inside it, aligned, and disjoint from every other |
| Layout.ChannelSlotsFit | src/edge_runtime/channel/channel_layout.hpp:186-200 | the three channel slots fit for every 32-bit payload size: the size is computed, and every slot is inside it, aligned, and disjoint from every other |
| Layout.PoolBlocksFit | src/edge_runtime/buffer/shared_buffer_pool_layout.hpp:115-153 | the same for pool blocks, each payload right behind its header |
| Layout.PackingIsExact | src/edge_runtime/channel/channel_layout.hpp:173-181 | packing a ticket is injective and invertible, is zero only for no ticket, and fits 64 bits exactly up to the last sequence |
| Layout.UnpackingIsExact | src/edge_runtime/channel/channel_layout.hpp:177-181 | every word is the packing of what it unpacks to |
| Layout.NextTicketFits | src/edge_runtime/channel/slot_protocol.cpp:6-11 | the next sequence is refused exactly when its ticket would not fit; otherwise the ticket word rises |
| OwnerCell.RunInv | src/edge_runtime/sync/owner_snapshot.hpp:66-80 | every reachable owner cell: parity of the epoch, the holder, and the words an even epoch commits agree |
| OwnerCell.RunForward | src/edge_runtime/sync/owner_snapshot.hpp:66-80 | epochs only rise, and between two equal even epochs the words did not change |
| OwnerCell.HeldThroughout | src/edge_runtime/queue/mpmc_queue.cpp:102-110 | equal stable observations at two moments mean one commit held the cell at every moment in between |
| OwnerCell.DeadHolderStuck | src/edge_runtime/queue/mpmc_queue.cpp:312-365 | a cell whose holder died never changes again |
| OwnerSnapshot.SnapshotOwner | src/edge_runtime/sync/owner_snapshot.hpp:93-179 | a stable result's state, four owner words and epoch held together at one instant of the call and belong to one commit; an inactive one's state and even epoch did; an inconclusive one means the cell changed meanwhile |
| OwnerSnapshot.InactiveAttempt | src/edge_runtime/sync/owner_snapshot.hpp:101-127 | what the inactive branch reports was so at its second state load, whenever its loads were made, and it reports if nothing changed |
| OwnerSnapshot.OwnedAttempt | src/edge_runtime/sync/owner_snapshot.hpp:143-167 | the same for the owned branch: state, epoch and all four words held together at its second state load |
| OwnerSnapshot.SeenIsHeld | src/edge_runtime/sync/owner_snapshot.hpp:93-179 | the corruption alarms about parity and identity never fire on a protocol run |
| OwnerSnapshot.ConfirmOwnerLiveness | src/edge_runtime/queue/mpmc_queue.cpp:153-171 | unless it reports a change, the observed commit held the gate from before the probe until after; it reports a change only if there was one; a dead verdict is about that commit |
| OwnerSnapshot.GateBusyResult | src/edge_runtime/queue/mpmc_queue.cpp:270-310 | recovery is blocked only for corruption, exhaustion or a dead, foreign or unverifiable commit that held the gate across the probe; contention only if the gate changed, was being claimed or had a holder alive when asked; a holder that died owning the gate is always blamed, one that died claiming it never |
| OwnerSnapshot.BlameIsFinal | src/edge_runtime/queue/mpmc_queue.cpp:288-310 | a gate blamed on a process that ended stays as it is in every continuation |
| OwnerSnapshot.ReadersAreSound | src/edge_runtime/queue/mpmc_queue.cpp:144-151 | the gate, slot and block classifiers are all covered by the snapshot theorem |
| MpmcSteps.NextKeeps | src/edge_runtime/queue/mpmc_queue.cpp:312-1041 | every step of every actor, crash included, keeps the queue invariant |
| MpmcSteps.RunInv | src/edge_runtime/queue/mpmc_queue.cpp:632-723 | the invariant holds throughout every run from a fresh queue |
| MpmcTheorems.Refines | src/edge_runtime/queue/mpmc_queue.cpp:733-1041 | each step is one step of a bounded FIFO queue: the enqueue-position store appends, the dequeue-position store removes the head, all others do nothing |
| MpmcTheorems.RunRefinesFifo | src/edge_runtime/queue/mpmc_queue.cpp:733-1041 | every run refines a bounded FIFO queue that starts empty |
| MpmcTheorems.DeliveredIsPrefix | src/edge_runtime/queue/mpmc_queue.cpp:967-1026 | what was popped is, in order, a prefix of what was committed, and the two positions count them |
| MpmcTheorems.PopReturnsCommitted | src/edge_runtime/queue/mpmc_queue.cpp:902-1041 | a successful pop returns exactly the bytes committed under its ticket |
| MpmcTheorems.DeliveredAtMostOnce | src/edge_runtime/queue/mpmc_queue.cpp:902-1041 | two successful pops of one ticket are the same call |
| MpmcTheorems.PushCommitsOnce | src/edge_runtime/queue/mpmc_queue.cpp:733-900 | a successful push committed its message under its ticket and no other |
| MpmcTheorems.FailedPushLeavesNothing | src/edge_runtime/queue/mpmc_queue.cpp:733-900 | a push that reports an error never commits, then or later |
| MpmcTheorems.DrainGuarantee | src/edge_runtime/queue/mpmc_queue.cpp:399-514 | whenever the dequeue gate is not committed, the pending messages fit the epochs that gate has left |
| MpmcTheorems.ExhaustedMeansDrained | src/edge_runtime/queue/mpmc_queue.cpp:399-438 | a dequeue gate without budget means an empty queue at the last ticket |
| MpmcTheorems.ImpossibleErrorsNeverHappen | src/edge_runtime/queue/mpmc_queue.cpp:788-1001 | no call reports inconsistent positions, sequences or states or an exhausted dequeue gate, and no pop an exhausted slot or gate epoch |
| MpmcTheorems.GatesNeverFault | src/edge_runtime/queue/mpmc_queue.cpp:173-178 | neither gate is ever marked faulty, nor the dequeue gate exhausted |
| MpmcTheorems.RestingRing | src/edge_runtime/queue/mpmc_queue.cpp:788-856 | with both gates unheld, pending tickets sit in ready slots with their message and the rest in free or retired ones |
| MpmcTheorems.WorkingSlotsDiffer | src/edge_runtime/queue/mpmc_queue.cpp:541-547 | two actors at work never touch the same slot, even at capacity one |
| MpmcTheorems.FailClosed | src/edge_runtime/queue/mpmc_queue.cpp:312-365 | once an actor crashes between its gate claim and release, that side's position and its half-done slot never change again |
| MpmcProgress.EveryStepCounts | src/edge_runtime/queue/mpmc_queue.cpp:733-1041 | every access brings its call nearer its end whatever the others do |
| MpmcProgress.CallIsBounded | src/edge_runtime/queue/mpmc_queue.cpp:733-1041 | in every run, between the begin of a call and its return its actor makes at most the payload width plus 481 accesses, whatever the others do |
| MpmcProgress.SoloFinish | src/edge_runtime/queue/mpmc_queue.cpp:902-1041 | a pop left alone with a message pending succeeds |
| MpmcProgress.CommittedStaysPoppable | src/edge_runtime/queue/mpmc_queue.cpp:807-833 | from any reachable state with the dequeue gate free and a message pending, a pop can still take exactly that message, whoever crashed on the push side |
| MpmcPush.RoomMeansPushable | src/edge_runtime/queue/mpmc_queue.cpp:733-900 | from any reachable state with both gates unheld, the queue not full and a ticket, budget, gate epoch and slot epoch to spare, a push left alone commits its message under the next ticket |
| MpmcTruth.FullMeansFull | src/edge_runtime/queue/mpmc_queue.cpp:458-514 | a push that reports a full queue: it was full at one instant of the call, although the positions were read in separate steps |
| MpmcTruth.EmptyMeansEmpty | src/edge_runtime/queue/mpmc_queue.cpp:909-981 | a pop that reports an empty queue: it was empty at one instant of the call |
| MpmcTruth.SnapKnows | src/edge_runtime/queue/mpmc_queue.cpp:458-473 | a double read that agrees names positions that held together |
| MpmcTruth.PopExhaustedMeansEnd | src/edge_runtime/queue/mpmc_queue.cpp:941-946 | a pop that reports an exhausted sequence: at one instant of the call every ticket there is had been pushed and popped |
| MpmcTruth.PushExhaustedMeansEnd | src/edge_runtime/queue/mpmc_queue.cpp:475-514 | a push that reports an exhausted drain budget: at one instant of the call the last ticket had been pushed |
| MpmcTruth.EndIsFinal | src/edge_runtime/queue/mpmc_queue.cpp:475-514 | from then on no push ever commits |
| MpmcWear.RunWorn | src/edge_runtime/queue/mpmc_queue.cpp:857-900 | in every run the epoch of a slot is four times the lap of its ticket, plus two once pushed, plus what the call at work on it has used |
| MpmcWear.WornOut | src/edge_runtime/queue/mpmc_queue.cpp:857-860 | so a queue never takes more messages than its capacity times 2^62 - 1 |
| MpmcLast.Drive | src/edge_runtime/queue/mpmc_queue.cpp:733-1041 | every queue of at least three slots can be driven, message by message, to any ticket up to the last: slot and gate epochs outlast the tickets |
| MpmcLast.FewSlotsNeverEnd | src/edge_runtime/queue/mpmc_queue.cpp:857-946 | no queue of one or two slots ever reaches its last ticket, and no pop on it is told of exhaustion |
| MpmcLast.LastTicketIff | src/edge_runtime/queue/mpmc_queue.cpp:909-946 | a run to the last ticket, and one in which a popper sees a message, another takes it, and the first is told of exhaustion in the same call, exist exactly for three slots or more |
| MpmcHost.MpmcQueue.TryPush | src/edge_runtime/queue/mpmc_queue.cpp:733-900 | under any interference: success means this message is committed under the returned ticket, an error is a possible one and means it never is |
| MpmcHost.MpmcQueue.TryPop | src/edge_runtime/queue/mpmc_queue.cpp:902-1041 | under any interference: success returns the message committed under the ticket and removes it, an error removes nothing |
| PoolSteps.NextKeeps | src/edge_runtime/buffer/shared_buffer_pool.cpp:477-753 | every step of every actor keeps the pool invariant: one holder per block, epochs with room, fresh generations |
| PoolSteps.RunInv | src/edge_runtime/buffer/shared_buffer_pool.cpp:375-468 | the invariant holds throughout every run from a fresh pool |
| PoolTheorems.SoleHolder | src/edge_runtime/buffer/shared_buffer_pool.cpp:513-556 | an actor inside a block is its only holder, and the block is WRITING or READING accordingly |
| PoolTheorems.HeldBlockUntouched | src/edge_runtime/buffer/shared_buffer_pool.cpp:586-643 | no other actor's step changes any word or byte of a held block |
| PoolTheorems.BufferIsPrivate | src/edge_runtime/buffer/shared_buffer_pool.cpp:586-643 | over any stretch in which the holder does not move, its block stays exactly as it was |
| PoolTheorems.PublishedForGood | src/edge_runtime/buffer/shared_buffer_pool.cpp:615-616 | the bytes a descriptor stands for never change once handed out |
| PoolTheorems.PublishedOnce | src/edge_runtime/buffer/shared_buffer_pool.cpp:551-556 | each generation of a block is published at most once |
| PoolTheorems.RedeemedOnce | src/edge_runtime/buffer/shared_buffer_pool.cpp:656-733 | however often a descriptor is presented, acquire_read accepts it at most once |
| PoolTheorems.ReadSeesPublishedBytes | src/edge_runtime/buffer/shared_buffer_pool.cpp:656-733 | a reader sees exactly the bytes present at the publish of its descriptor, whatever happened to the block between the generation check and the claim |
| PoolTheorems.ReaderHasPublisher | src/edge_runtime/buffer/shared_buffer_pool.cpp:645-733 | every read buffer's descriptor was published earlier in the run |
| PoolTheorems.ClosingSucceeds | src/edge_runtime/buffer/shared_buffer_pool.cpp:586-643 | publish on an active buffer always hands out its descriptor; abort and release always free the block |
| PoolTheorems.ImpossibleErrorsNeverHappen | src/edge_runtime/buffer/shared_buffer_pool.cpp:671-733 | no reader loses its rollback or meets an exhausted or corrupt epoch, no publish is refused |
| PoolTheorems.ReaderHasRoom | src/edge_runtime/buffer/shared_buffer_pool.cpp:671-700 | a claimed block is still the claimant's and leaves room for its commit: the writer's reserve of four pays for it |
| PoolTheorems.RefusalIsJust | src/edge_runtime/buffer/shared_buffer_pool.cpp:645-733 | acquire_read refuses a well-formed descriptor only at an instant at which it could not be redeemed, and for the reason it gives: another generation in place, the block FREE, or the block neither published nor its own |
| PoolTheorems.ScanIsComplete | src/edge_runtime/buffer/shared_buffer_pool.cpp:485-584 | a failed acquire_write met each block at some instant of the call when it could not be taken; a full pool means each was PUBLISHED at some instant |
| PoolHost.Round | src/edge_runtime/buffer/shared_buffer_pool.cpp:477-753 | interference then one access keeps the call on course and nearer its end |
| PoolHost.SharedBufferPool.TryAcquireWrite | src/edge_runtime/buffer/shared_buffer_pool.cpp:477-584 | under any interference: a block held by the caller alone under a generation never published; or an error with nothing held, and then the pool passed through instants at which each block could not be taken, and for a full pool was PUBLISHED |
| PoolHost.SharedBufferPool.PublishWrite | src/edge_runtime/buffer/shared_buffer_pool.cpp:586-623 | always returns the buffer's descriptor, standing for the bytes the buffer held |
| PoolHost.SharedBufferPool.AcquireRead | src/edge_runtime/buffer/shared_buffer_pool.cpp:645-733 | success redeems a published descriptor not redeemed before and shows exactly its bytes; a refusal means it is malformed, or at the last instant of the call could not be redeemed for the reason returned |
| PoolHost.SharedBufferPool.LetGo | src/edge_runtime/buffer/shared_buffer_pool.cpp:625-643 | abort and release always leave the block FREE |
| ChannelSteps.NextKeeps | src/edge_runtime/channel/producer_impl.cpp:636-711 | every step of producer and consumer, crash included, keeps the channel invariant |
| ChannelSteps.RunInv | src/edge_runtime/channel/consumer_impl.cpp:329-405 | the invariant holds throughout every run |
| ChannelSteps.SearchGoesOn | src/edge_runtime/channel/producer_impl.cpp:675-692 | the search passes over at most one slot, and then no other can be taken from it |
| ChannelSteps.RecheckDecides | src/edge_runtime/channel/consumer_impl.cpp:360-364 | a second look that agrees holds the newest sample whole; one that does not was overtaken by a newer ticket |
| ChannelTheorems.ThreeSlotsSuffice | src/edge_runtime/channel/producer_impl.cpp:673-696 | no publish or loan ever finds all slots busy, whatever consumers do, die holding or leave to reclaim |
| ChannelTheorems.LoanFailsOnlyAtTheEnd | src/edge_runtime/channel/producer_impl.cpp:759-811 | a loan by the owner of the instance fails exactly when no sequence is left for it |
| ChannelTheorems.CurrentSlotIsWhole | src/edge_runtime/channel/producer_impl.cpp:699-711 | the slot the ticket names is never FREE or WRITING and holds the newest sample |
| ChannelTheorems.PublishStoresMessage | src/edge_runtime/channel/producer_impl.cpp:699-720 | the ticket store makes current exactly the message given, under the next sequence |
| ChannelTheorems.CommitKeepsBytes | src/edge_runtime/channel/producer_impl.cpp:817-850 | from the start of a loan's commit nobody changes its bytes |
| ChannelTheorems.SampleHasTicket | src/edge_runtime/channel/producer_impl.cpp:711-711 | every sample was made current by one ticket store of its sequence |
| ChannelTheorems.RecheckNamesLatest | src/edge_runtime/channel/consumer_impl.cpp:360-364 | a claim that passes its re-check holds the sample latest_ticket names at that instant, no older than the call |
| ChannelTheorems.ReadReturnsPublished | src/edge_runtime/channel/consumer_impl.cpp:407-422 | a read returns whole the sample published under the sequence it reports |
| ChannelTheorems.LoanShowsPublished | src/edge_runtime/channel/consumer_impl.cpp:558-573 | a lent slot holds its sample, whole, for as long as it is lent |
| ChannelTheorems.HeldSlotUntouched | src/edge_runtime/channel/slot_protocol.cpp:18-45 | no producer step changes a slot a consumer holds |
| ChannelTheorems.NoCorruption | src/edge_runtime/channel/consumer_impl.cpp:366-384 | no read finds a corrupt payload, a wrong payload size or a corrupt slot |
| ChannelTheorems.DecodeDecides | include/edge_runtime/channel/consumer.hpp:68-90 | a sample delivered is a published one its codec accepts; a decode failure is told only of a published one it rejects |
| ChannelTheorems.ContentionNeedsEightPublishes | src/edge_runtime/channel/consumer_impl.cpp:340-405 | a read gives up only if at least eight samples were published while it tried |
| ChannelTheorems.Telescopes | src/edge_runtime/channel/slot_protocol.cpp:13-16 | samples read plus samples reported missed are the sequences from first to last |
| ChannelTheorems.LossIsAccounted | src/edge_runtime/channel/consumer_impl.cpp:386-400 | at every instant of every run, per handle: sequences rise strictly, and samples read, not decoded and reported missed are the sequences from first to last; read and missed alone are exactly if the codec accepts every sample taken |
| ChannelRuns.UndecodedIsLost | include/edge_runtime/channel/consumer.hpp:68-90 | a run in which the only sample published is neither delivered nor reported missed |
| ChannelHandover.HandoverIsClean | src/edge_runtime/channel/consumer_impl.cpp:25-57 | when a consumer is registered no slot is held |
| ChannelHandover.BlockedOnlyByOrphan | src/edge_runtime/channel/consumer_impl.cpp:39-53 | a reclaim is blocked exactly by a slot READING with epoch zero |
| ChannelHandover.OrphanedExactlyBy | src/edge_runtime/channel/slot_protocol.cpp:42-45 | a step makes such a slot exactly if it is a death between the two stores of a release, a consumer's own or that of an opener reclaiming a READING slot |
| ChannelRuns.ReaderLeavesOrphan | src/edge_runtime/channel/slot_protocol.cpp:42-45 | a run in which a consumer leaves such a slot |
| ChannelRuns.OpenerLeavesOrphan | src/edge_runtime/channel/consumer_impl.cpp:25-57 | a run in which an opener does |
| ChannelHandover.OrphanBlocksForever | src/edge_runtime/channel/consumer_impl.cpp:221-243 | and no opener ever gets past it |
| ChannelHandover.SealedForever | src/edge_runtime/channel/consumer_impl.cpp:207-252 | nor past an identity epoch left odd by a death while writing it, or used up |
| ChannelRuns.IdentityHalfWritten | src/edge_runtime/channel/consumer_impl.cpp:246-252 | a run in which the first opener leaves the epoch odd |
| ChannelHandover.AloneSucceeds | src/edge_runtime/channel/consumer_impl.cpp:25-57 | with neither in the way, an opener left alone reclaims, registers and is the consumer |
| ChannelHandover.ReplaceableIff | src/edge_runtime/channel/consumer_impl.cpp:205-264 | from every reachable moment without a consumer: an opener left alone becomes it if the identity epoch is even with room for one more and, unless the last consumer shut down, no slot is an orphan; otherwise nobody ever does |
| ChannelHost.LatestValueChannel.Publish | src/edge_runtime/channel/producer_impl.cpp:636-719 | under any consumer interference: refused exactly for a wrong size, a lost ownership, used-up sequences or a failed clock, in that order; otherwise the message is current under the next sequence |
| ChannelHost.LatestValueChannel.TryReadLatest | src/edge_runtime/channel/consumer_impl.cpp:329-422 | under any producer interference: a whole sample its codec accepts, new to the handle and no older than the call, with its exact missed count; or the exact meaning of each refusal, a decode failure included |
| ReclaimSlots.ReclaimDeadConsumerSlots | src/edge_runtime/channel/consumer_impl.cpp:25-57 | succeeds exactly when every slot is recoverable, then releases exactly the held ones; otherwise stops at the first unrecoverable slot and leaves it and later ones alone |
| ReclaimSlots.ReleaseRead | src/edge_runtime/channel/slot_protocol.cpp:42-45 | clears the epoch and publishes that slot alone |
| ReclaimSlots.UnrecoverableIsOrphan | src/edge_runtime/channel/consumer_impl.cpp:39-53 | in every run, a dead consumer's unrecoverable slots are exactly the orphans |
| Wakeup.NextKeeps | src/edge_runtime/queue/mpmc_queue.cpp:367-376 | every step of waiters and notifiers keeps the wakeup invariant |
| Wakeup.NoLostWakeup | src/edge_runtime/queue/mpmc_queue.cpp:1079-1179 | while a waiter is parked, no store since it sampled the epoch has finished its notify, unless the epoch was counted a positive multiple of 2^32 times in between |
| Wakeup.QuietMeansNothingMissed | src/edge_runtime/channel/consumer_impl.cpp:519-556 | with all notifies finished, a parked waiter has missed no store at all |
| Wakeup.WrapLosesWakeup | src/edge_runtime/queue/mpmc_queue.cpp:1116-1118 | with exactly 2^32 notifications in between, a waiter parks on a finished one |
| QueueWait.NeverHeldUp | src/edge_runtime/queue/mpmc_queue.cpp:367-376 | waiting never holds up the queue: every step a push or pop can take, its echo in the wakeup protocol can take too |
| QueueWait.ParkedForReason | src/edge_runtime/queue/mpmc_queue.cpp:1098-1179 | over every run of queue and waits together: with all notifies finished, a parked popper whose attempt found the queue empty faces an empty queue, a parked pusher told full a full one |
| QueueWait.SleeperIsOwed | src/edge_runtime/queue/mpmc_queue.cpp:1070-1094 | otherwise somebody owes a wake, and can go on to give it unless it has crashed; the wait itself may end at any time |
| Shutdown.NextKeeps | src/edge_runtime/channel/consumer_impl.cpp:298-314 | every step keeps: one holder of the flag, and a pending shutdown has a server to come or was wasted |
| Shutdown.OfflineOnceAndAfterRelease | src/edge_runtime/channel/consumer_impl.cpp:289-314 | OFFLINE is stored at most once, only when asked for, and never while a slot is lent |
| Shutdown.ShutdownLostExactlyWhen | src/edge_runtime/channel/consumer_impl.cpp:298-314 | once all is quiet a requested shutdown is missing exactly when every service attempt of the run found the flag held, the last of them by a guarded call, one ending without service or, on a producer handle, a loan with no sequence left for it |
| Shutdown.NoGuardNoLoss | src/edge_runtime/channel/producer_impl.cpp:88-106 | on a handle used for loans alone, begun on a producer handle only while a sequence is left, no interleaving loses the shutdown |
| Shutdown.OrderlyShutdown | include/edge_runtime/channel/consumer.hpp:141-150 | a shutdown requested with no call under way and none to come is carried out once the loans still out are given back |
| Shutdown.ReadLosesShutdown | src/edge_runtime/channel/consumer_impl.cpp:281-287 | on either handle, a run without a loan in which an overlapping read loses it |
| Shutdown.FailedLoanLosesShutdown | src/edge_runtime/channel/producer_impl.cpp:759-779 | on a producer handle, a run of loans alone that uses up the sequences and in which the next loan, failing, loses it |
| JournalTheorems.RunInv | src/edge_runtime/channel/producer_impl.cpp:276-633 | at every instant of every run, the journal's phase and the object under the name agree |
| JournalTheorems.NextKeeps | src/edge_runtime/channel/producer_impl.cpp:151-270 | every step, I/O failure, undo and crash keeps that agreement |
| JournalTheorems.RecoveryKeepsReady | src/edge_runtime/channel/producer_impl.cpp:176-262 | a recovery never unlinks a ready instance |
| JournalTheorems.IdleMatchesReady | src/edge_runtime/channel/producer_impl.cpp:169-176 | under an idle journal whatever has the name is ready and of the journal's generation |
| JournalTheorems.RecoveryLeavesIdle | src/edge_runtime/channel/producer_impl.cpp:265-267 | a recovery that gets its record written leaves an idle journal matching the object |
| JournalTheorems.NoDisagreement | src/edge_runtime/channel/producer_impl.cpp:344-408 | a create never finds an existing object unready or of another generation |
| JournalTheorems.WhoUnlinksReady | src/edge_runtime/channel/producer_impl.cpp:34-50 | a ready instance loses its name only to a replacement when its producer is dead or offline, to the undo of a create that returned no handle to it, or to a remove through its own handle |
| JournalTheorems.ReplacesOnlyAbandoned | src/edge_runtime/channel/producer_impl.cpp:372-402 | at the unlink of a replacement the instance under the name is one whose producer is dead or offline |
| JournalTheorems.OwnedInstanceKeepsName | src/edge_runtime/channel/producer_impl.cpp:276-633 | while the producer of a returned handle lives and stays online its instance keeps the name through every create, recovery, failure and crash of others, unless removed through that handle |
| JournalRecovery.StuckForever | src/edge_runtime/channel/producer_impl.cpp:211-216 | an object announced but without bootstrap blocks every later create and stays untouched |
| JournalRecovery.StuckExactlyBy | src/edge_runtime/channel/producer_impl.cpp:487-522 | a run gets there exactly by a death before the bootstrap, before an undo or before the unlink of an object it could not inspect, by a failure of those unlinks, or by recording an object it could not identify |
| JournalRuns.DeathBeforeBootstrap | src/edge_runtime/channel/producer_impl.cpp:487-522 | a run that gets there |
| JournalRecovery.RecoverableIff | src/edge_runtime/channel/producer_impl.cpp:150-270 | from every reachable free moment with a transaction on record: the next create without I/O failure recovers and goes on exactly if the process that left the record is dead and no object without bootstrap was announced; with such an object no create ever does |
| JournalRecovery.OccupiedUntilDeath | src/edge_runtime/channel/producer_impl.cpp:162-167 | while the process that left the record of a create lives, nobody's create or remove gets past it and the record stays as it is |
| JournalRuns.FailedWriteOccupies | src/edge_runtime/channel/producer_impl.cpp:425-440 | a run in which nobody dies and a create whose first journal write takes effect but reports an error leaves such a record |
| JournalOrder.GenerationsRise | src/edge_runtime/channel/channel_abi.cpp:187-195 | successive creates hand out strictly larger generations if every recovery between them finishes a remove, adopts a ready instance or takes back the generation right after the older one, however many calls fail or crash |
| JournalOrder.CrashFreeGenerationsRise | src/edge_runtime/channel/producer_impl.cpp:318-411 | in a run without crashes successive creates get strictly larger generations |
| JournalOrder.ReadyIsFresh | src/edge_runtime/channel/producer_impl.cpp:560-591 | while every recovery is of one of these three kinds, an instance becomes ready only with a generation above all ever handed out or shown |
| JournalOrder.HandedOutIsSpent | src/edge_runtime/channel/producer_impl.cpp:576-591 | a generation handed out counts as spent from then on |
| JournalOrder.BadRecoveryRepeats | src/edge_runtime/channel/producer_impl.cpp:169-234 | after a recovery of any other kind the next instance to become ready has a generation no larger than one already spent |
| JournalOrder.RecoveryKeepsOrderIff | src/edge_runtime/channel/producer_impl.cpp:169-234 | in a run whose earlier recoveries all kept the order, the next instance to become ready after a recovery has a generation never spent exactly when the record and object on disk show a remove, a ready instance, or a create announcing the generation right after the older one |
| JournalOrder.RecoveryTurnsBack | src/edge_runtime/channel/producer_impl.cpp:169-175 | a run that ends with two handles of generation 1 to different objects |
| JournalOrder.CreateSucceeds | src/edge_runtime/channel/producer_impl.cpp:425-591 | a create left alone under an idle journal with the name free succeeds |
| JournalHost.ControlPlane.CreateChannel | src/edge_runtime/channel/producer_impl.cpp:276-633 | with any I/O step failing: a generation returned is ready under the name, the caller's, recorded, and exactly one above what the journal and the object stood at; a failure hands out nothing and, from an idle journal with the name free, means a failed I/O step |
| JournalHost.ControlPlane.RemoveChannel | src/edge_runtime/channel/producer_impl.cpp:878-967 | success leaves the name free and the generation recorded; a failure leaves the name as it was or free and, while the handle's object has the name, means a failed I/O step |
| Supervisor.BackoffDelay | src/edge_runtime/process/supervisor_impl.cpp:149-163 | the smaller of the cap and initial times multiplier to the failures less one, every product within 64 bits |
| Supervisor.GrownIsPower | src/edge_runtime/process/supervisor_impl.cpp:154-160 | repeated multiplication is the power the delay is stated by |
| Supervisor.SupervisorLoop.CountFailure | src/edge_runtime/process/supervisor_impl.cpp:165-181 | a stable life clears the count; the count is then raised, or reported full exactly at the limit |
| Supervisor.SupervisorLoop.ReapChild | src/edge_runtime/process/supervisor_impl.cpp:87-111 | done exactly when nothing is left to wait for; the exit status is kept |
| Supervisor.SupervisorLoop.SpawnPhase | src/edge_runtime/process/supervisor_impl.cpp:351-436 | one more attempt, a failure counted exactly if there is no child or it had to be discarded; a child an earlier run left is forgotten exactly if a new one is spawned |
| Supervisor.SupervisorLoop.AwaitPhase | src/edge_runtime/process/supervisor_impl.cpp:437-486 | monitoring starts exactly with a generation of the child's own that is the first or one above the last taken up; else a reaped child is a failure, and one past its deadline is killed to be restarted |
| Supervisor.SupervisorLoop.MonitorPhase | src/edge_runtime/process/supervisor_impl.cpp:487-522 | a clean exit is reported exactly for a child reaped with a clean status, any other exit is a failure, a stall leads to a kill and a restart |
| Supervisor.SupervisorLoop.KillPhase | src/edge_runtime/process/supervisor_impl.cpp:523-578 | goes on until the child is gone or the kernel or clock refuses, a failure counted exactly if a restart was due; ends with no child left or with an error |
| Supervisor.SupervisorLoop.Pass | src/edge_runtime/process/supervisor_impl.cpp:338-663 | exhaustion is reported exactly for a failure with the count full, a clean exit exactly for a child that ended so by itself; a restart begins only when the backoff computed from the failures has run out; a stop request by flag or event puts the loop on its way out, from which it never spawns |
| Supervisor.SupervisorLoop.Run | src/edge_runtime/process/supervisor_impl.cpp:338-674 | over any number of passes and any answers, from any earlier run: at most one child of this run to wait for and none left if kill and wait succeed; a child an earlier run left is forgotten exactly if some attempt of this run produces another, and otherwise still known; at most 1 + (resets + 1) * max_restarts attempts, and exactly 1 + max_restarts less the failures before if restarts are exhausted with no reset; no attempt after the first pass that learns of a stop; a clean exit only of a child of this run, taken up, not killed, with a clean status |
| Supervisor.ForgottenChild | src/edge_runtime/process/supervisor_impl.cpp:356-371 | two runs whose clean-up is refused leave two children, one of them unknown to the handle |

## Left out

- Weak memory: acquire, release and relaxed accesses of the channel are taken as sequentially consistent.
- In-place form: the protocols' shared words are fields of a value that a step replaces, so aliasing of mappings and torn single words are not captured; the queue, pool, channel and journal operations are methods over that value.
- Owner words inside the queue and the pool: an owner is one word there; the four-word commit and its snapshot are `OwnerCell` and `OwnerSnapshot`.
- Owner diagnosis inside push, pop and acquire: its read-only loads are one step with any admissible answer (`gate_busy_result`, `classify_active_block`).
- Wait loops of the queue and the channel: only their parking protocol and second attempt are modelled; deadlines, the drain-budget probe of `wait_pop_until`, `classify_wait_timeout` and errno handling are not.
- QueueWait.ParkedForReason: says nothing of a waiter whose attempt was refused for contention.
- MpmcProgress.CallIsBounded: bounds the steps of the model, in which an owner diagnosis is one step.
- Channel checksum and codec: any functions of the bytes; encoding a value before a publish is not modelled, and the branch for a caller's buffer smaller than the payload, which the buffer's type excludes, is not either.
- Consumer registration: that at most one consumer side runs at a time (control lock and liveness probe) is built in, and the four identity words are not modelled.
- Shutdown.OfflineOnceAndAfterRelease: counts the decision to store OFFLINE; the role-epoch check just before the store is not modelled.
- Journal: nonces, channel hash and transport are not modelled (inodes are unique); the REPLACING state, which nothing writes, is not either; a journal write is atomic.
- Journal over memfd and the fd broker: only the POSIX shared-memory path.
- Supervisor: clock readings are answers and need not be monotone; the 32-bit attempt counter does not wrap; stdout capture and event callbacks are not modelled.
- `remove_if_creator` of the queue and the pool, status reporting, option and header validation, `classify_stall`, observers, tools and examples: single-branch or diagnostic code with no property over runs.
