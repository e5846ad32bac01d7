# UBQ, verified

A Dafny model of the UBQ repository's two hard parts: the lock-free, unbounded, multi-producer
multi-consumer queue in `src/`, and the crash-safe job controller in
`scripts/hardware_campaign.py`.

## What is modelled

**The concurrent protocol** (`Machine.dfy`).  Every call of `push_batch` and `pop_batch`, together
with the iterator it returns, is a process; every atomic access is one step; any number of calls
may be interleaved in any way.  A step that follows a null link, touches a block that is no longer
live or reaches past the end of a block turns its process into `Fault`.  `Invariant.dfy` states
what every step keeps; `LocalSteps.dfy`, `PushSteps.dfy` and `PopSteps.dfy` prove it step by step;
`Safety.dfy`, `Refinement.dfy`, `RealTime.dfy`, `Calls.dfy`, `Linearizable.dfy`,
`Reclamation.dfy`, `Counting.dfy`, `Progress.dfy` and `EmptyTest.dfy` draw the conclusions for whole runs.  Three assumptions are built in: memory is sequentially consistent; a
block is named by a serial number that is fresh each time a block is linked, so that a head
exchange succeeds only on the same incarnation of a block (the repository's own note on its
repair counters says that anything else would be an ABA on the untagged head word); and
`chead.index + len` does not overflow.  Iterators are dropped, never leaked.

**Pages** (`Conservation.dfy`).  On top of every run in which private chains grow the way
`grow_to_fit_with` grows them (the protocol alone lets a chain be longer): the real page behind
each serial, the pool, private chains, multi-page runs and their descriptors, with an allocator
that may return any free address, also one that was used before.  Every such run of the protocol
has its memory run (`RunLifts`).  Two steps are coarser than the source: dropping a private chain
does all its descriptor decrements in one step, and the first load of `phead` is joined with the
growth that may follow it, as is each growth in the loop with its swap of the pool.

**The queue in one thread** (`Pages.dfy`, `Queue.dfy`).  `Memory`, `BlockChain` and `UBQ` are
classes that change in place as the source does.  Pages are reached through addresses in a map of
allocated pages, so every dereference carries the obligation that the page is still allocated.
This part needs neither unique serials nor a memory model.

**Words and layouts** (`HeadCodec.dfy`, `BlockLayout.dfy`, `LayoutCache.dfy`).  Machine words are
sets of digit positions of a given width.

**The campaign controller** (`Scheduling.dfy`, `Submission.dfy`, `Campaign.dfy`).  `state.json`
and `submit-intent.json` survive a crash, memory does not, and a crash may come between any two
steps.  The scheduler may accept, refuse for quota, fail, or accept without its answer ever
arriving; accounting may lag.  Two assumptions are built in: every submission gets a token that
was never used before, also across restarts (the source takes it from a nanosecond clock), and
only one controller runs at a time (the source holds a file lock).

`Positions.dfy` holds the arithmetic of slot positions.  The product of a block number and the
block length is written as the recursion `Base`, so that proofs stay linear.  Large invariants are
wrapped as `Facts(s) == true`, which makes the verifier prove them as a whole.

## Findings

`pop` is documented to return `None` if the queue is empty.  The first push installs its block in
`phead` and publishes it in `chead` in two separate steps.  Between them a push by another thread
can return, and a pop that begins after that still answers "empty" (`EmptyTest.ReturnedYetMissed`).
The answer is right if and only if the block has been published or nothing has been pushed
(`Safety.EmptyExactly`).

`is_empty` is documented to return true if the queue contains no values.  It loads `phead` first
and `chead` later, and beside other calls both answers can be wrong.

- It can answer true although at every instant of the call the queue held an item whose push had
  returned (`EmptyTest.NeverEmptyYetTrue`).  The queue was empty at some instant of the call if and
  only if the first slot a producer claimed after the first load, if any, was claimed while the
  queue was empty (`EmptyTest.TrueExactly`).
- It can answer false although the queue is empty and nothing happens between the two loads
  (`EmptyTest.EmptyYetFalse`): `chead` is parked at the end of a block and `phead` stands at the
  start of the next, the same position in another word.  Only such a pair of words can mislead: if
  neither loaded word is parked, the queue held an item at some instant of the call
  (`EmptyTest.FalseMeans`, which also says when the answer to a parked pair is wrong).

## Model

| member | source | states |
|---|---|---|
| Safety.StepKeeps | src/queue.rs:116-449 | every step of every call, at any moment, keeps the invariant of the protocol |
| Safety.RunKeeps | src/queue.rs:116-449 | every state of every run satisfies the invariant |
| Safety.NoFault | src/queue.rs:328-375 | in no run does a call dereference a null, dangling or out-of-bounds pointer, and with unique serials both repair branches are unreachable |
| Safety.HintIsTrue | src/head.rs:25-31 | a hint is never wrong although it may vanish at any moment: in `chead` it means that `phead` is in a later block, in `phead` that a successor is linked |
| Safety.WaitNextNeverWaits | src/queue.rs:252-258 | whenever the write loop crosses a block its successor is already linked, so `wait_next` never waits |
| Safety.PushOwnsItsBatch | src/queue.rs:159-266 | a finished push owns exactly the consecutive positions of its batch, which hold its items in order, and no other call owns any of them |
| Calls.PushKeepsItems | src/queue.rs:116-267 | from its first step to its last a push is about exactly the items the call was given: no step drops, adds or exchanges one |
| Safety.PopDeliversWhatWasPushed | src/queue.rs:292-449 | from its return on a pop owns exactly consecutive positions, drained or not, and each entry its iterator has yielded so far is the one its unique producer put there, published before it was read |
| Calls.PopGetsItsShare | src/queue.rs:279-449 | a pop is given the number of entries it asked for and never more; it is given fewer only if at some instant of the call the entries that other calls had not taken were no more than that |
| Calls.AlonePopGetsMin | src/queue.rs:279-449 | a pop that nobody disturbs, on a queue whose first block is published, is given exactly the smaller of the size and the number of entries in the queue |
| Calls.AlonePopEmpty | src/queue.rs:279-309 | such a pop answers "empty" only if the size or the number of entries is zero |
| Safety.NothingIsLost | src/queue.rs:540-571 | at quiescence every claimed position is published with its producer's entry, and every position given to a consumer was reported by that consumer |
| Safety.WaysToBeEmpty | src/queue.rs:280-309 | a call answers "empty" only in its first test (size zero or `chead` unpublished) or after comparing the heads |
| Safety.EmptyMeansEmpty | src/queue.rs:301-309 | once `chead` is published, a pop of positive size answers "empty" only at an instant at which every claimed item had been taken and no producer held the lock |
| Safety.EmptyExactly | src/queue.rs:280-309 | an "empty" answer of a pop of positive size is right if and only if the first block has been published or nothing has been pushed at all |
| LocalSteps.NeedIsEnough | src/queue.rs:166-174 | the capacity the producer asks for covers its batch and one slot more, counting a linked successor only if hinted |
| LocalSteps.NeedIsLeast | src/queue.rs:166-174 | it asks for no more than that: any chain with which the walk would end inside has the capacity |
| PushSteps.EnoughBlocks | src/queue.rs:204-234 | with that capacity the filling walk ends inside the linked blocks and the private chain |
| LocalSteps.NextIsLinked | src/queue.rs:252-258 | the successor of a block that a batch crosses is linked before the batch is written |
| PopSteps.ConsumeCount | src/block.rs:421-423 | one fetch-and-add brings the counter of the block, and of no other block, up to date with the slots read there, and never past its length |
| Refinement.ActForward | src/queue.rs:176-440 | a step moves at most one head and only forward; the positions it claims belong to that call and follow those already claimed |
| Refinement.PushReleaseExact | src/queue.rs:196-239 | a producer releases `phead` exactly behind its batch, with the index inside a block, the head strictly larger, and the hint set exactly if a successor is linked |
| Refinement.PopReleaseExact | src/queue.rs:383-440 | a consumer releases `chead` exactly behind the slots it hands out, no more than it asked for, with the index inside a block and the hint set exactly if the `phead` it last loaded is in a later block |
| Refinement.StepRefines | src/queue.rs:116-449 | every step appends entries at the back of an abstract FIFO, takes entries from its front, or leaves it alone |
| Refinement.RunRefines | src/queue.rs:116-449 | every run of the protocol is a run of the abstract FIFO |
| RealTime.PushesInOrder | src/queue.rs:159-194 | if one push returned before another began, all its items are ahead of the other's |
| RealTime.RunContinues | src/queue.rs:442-571 | a returned call claims nothing more: a push and an empty answer stay as they are, and an iterator, while it goes on yielding, keeps the span of positions the pop returned with |
| RealTime.PopsInOrder | src/queue.rs:292-381 | if one pop returned before another began, its iterator drained or not, everything it is given is ahead of what the other is given |
| Linearizable.StepLabelled | src/queue.rs:116-449 | every step does to a sequential queue what its label says: the labelled call appends entries, takes entries or finds nothing; that call has begun and has not returned; and an "empty" answer is found empty unless the first block is unpublished or the size is zero |
| Linearizable.RunIsLinearizable | src/queue.rs:116-571 | linearizability: in every run all steps are labelled in this way and every call has begun; a returned push has appended exactly the items it was called with; a returned pop has taken exactly what its iterator yields, as many as it was called for or all that was available at some instant of the call; and an "empty" answer stands for one such step of that call; a batch that crosses into another block takes effect in two steps, on consecutive positions |
| Reclamation.ReclaimedIsDead | src/queue.rs:507-530 | a block is reset, pooled or freed only when all its slots have been read and counted and `chead` is in a later block |
| Reclamation.RunAges | src/queue.rs:507-530 | a block that is no longer live never becomes live again under its serial |
| Reclamation.CompletesOnce | src/block.rs:421-423 | completion of a block is signalled at most once in a run |
| Reclamation.DrainedIsAccounted | src/queue.rs:489-571 | however far an iterator got before it was dropped, each slot of its claim ends up counted |
| Reclamation.QuietSpent | src/queue.rs:507-571 | at quiescence exactly the claimed slots are counted, whether per item or per segment |
| Counting.CountsAsBuilt | src/queue.rs:540-571 | in every run an iterator updates block counters as its build says: with `probe_item_completion` after each item, otherwise once per block of its claim, with all it has read there, at the end of the block or of the claim |
| Reclamation.QuietCounters | src/queue.rs:458-474 | at quiescence the counter of every block is the number of its slots before `chead`, for `chead`'s own block its index, and exactly the earlier blocks are gone |
| Reclamation.DropDropsTheUnread | src/queue.rs:458-474 | dropping a quiescent queue drops exactly the values that were pushed and not popped |
| Reclamation.CompletedDropsNothing | src/queue.rs:519-529 | a block that is about to be pooled or freed by the consumer that completed it holds no unread value, so that freeing it drops nothing |
| Reclamation.EachValueLeavesOnce | src/slot.rs:41-72 | over a whole lifetime each pushed value is moved out by one pop, or dropped: by the free of a completed block, which never happens to an unread value, or with the queue; never both, although reading leaves the slot WRITTEN |
| Progress.SomeoneMoves | src/queue.rs:159-174 | deadlock freedom: in every reachable state with a pending call some pending call has a step that is not a wait and brings it strictly closer to its end, with its private chain grown exactly as `grow_to_fit_with` grows it |
| Progress.WaitMoves | src/queue.rs:396-400 | the holder of the `chead` lock waits for nobody but the holder of the `phead` lock |
| Progress.ReadMoves | src/slot.rs:41-57 | a reader waits for nobody but the producer of the slot under its cursor, and for that one only until it has published this slot |
| Progress.ReadWaitsExactly | src/slot.rs:41-57 | a reader with slots left makes no step exactly while that producer still has the slot to publish |
| Progress.CanFinish | src/queue.rs:116-449 | from every reachable state, and however hints are lost after each step, a schedule of the pending calls alone ends with all of them returned |
| Progress.RunCanFinish | src/queue.rs:116-449 | the same for every state of every run |
| EmptyTest.TrueMeans | src/queue.rs:85-104 | if `is_empty` answers true, all items claimed before its first load were taken before its second, and the queue is empty at the second load exactly when no producer claimed a slot in between |
| EmptyTest.TrueExactly | src/queue.rs:85-104 | the exact condition for a true answer to be right at some instant of the call: the first slot claimed after the first load, if any, was claimed while the queue was empty |
| EmptyTest.SamePosition | src/queue.rs:85-104 | two head words that `is_empty` tells apart stand for the same position exactly when they are neighbours: one is parked at the end of a block and the other stands at the start of the next |
| EmptyTest.FalseMeans | src/queue.rs:85-104 | if `is_empty` answers false and the loaded words are not neighbours, in particular if neither is parked at the end of a block, the queue held an item at some instant of the call; if they are neighbours, the answer is wrong exactly when the queue was empty at the first load and no producer claimed a slot before the second |
| EmptyTest.NeverEmptyYetTrue | src/queue.rs:85-104 | a run in which it answers true although at every instant of the call the queue holds an item whose push has returned |
| EmptyTest.ReturnedYetMissed | src/queue.rs:145-155 | a run in which a `pop_batch(1)` that begins after a push has returned answers "empty", because the first block is installed and not yet published |
| EmptyTest.EmptyYetFalse | src/queue.rs:85-104 | a run in which it answers false although the queue is empty and nothing happens between the loads |
| Conservation.GrowFits | src/block.rs:618-629 | growing only appends, reaches the requested capacity, never overshoots by a whole block, and ends at the longer of the old chain and the fewest blocks with that capacity |
| Conservation.GrowTakesPool | src/block.rs:618-629 | a chain that is too short takes the pooled page first, and one that is long enough leaves the pool alone |
| Conservation.MemoryStepKeeps | src/block.rs:584-671 | every step keeps each page in its one place, each chain as long as its owner believes, and each descriptor's count equal to its live members |
| Conservation.MemoryRunKeeps | src/block.rs:584-671 | the same in every state of every run |
| Conservation.GrantExists | src/block.rs:618-629 | in every memory state an allocator with fresh addresses can serve every step of the protocol whose chain grows as `grow_to_fit_with` grows it |
| Conservation.RunLifts | src/queue.rs:116-571 | every run of the protocol with chains grown in that way is the protocol part of a memory run |
| Conservation.InExactlyOnePlace | src/queue.rs:236-238 | at every step a live page is in exactly one of the list, the pool, one private chain or one call's hands, and a freed page is in none |
| Conservation.FreedByItsOwner | src/queue.rs:507-530 | what a call is about to pool or free is live and in its hands, what it is about to complete is live and linked, and its private chain consists of distinct live pages of its own, so nothing is freed twice |
| Conservation.ReclaimedPage | src/queue.rs:507-530 | a completed block stays allocated, as the pooled page, exactly if it stands alone and the pool is empty, and is freed otherwise; no other page is touched |
| Conservation.DescriptorOutlivesPages | src/block.rs:82-100 | a run's descriptor exists exactly as long as one of its pages is live, and its count is the number of those pages |
| Conservation.NothingLeaks | src/queue.rs:458-474 | at quiescence every live page is pooled or linked at or behind `chead`, so that dropping the queue frees all of them |
| Pages.Memory.Reset | src/block.rs:394-407 | makes a page as good as new: every slot vacant, no link, no slot consumed, its kind unchanged |
| Pages.Memory.Free | src/block.rs:375-391 | gives the page back, and adds exactly the values written at or above its counter to the ledger of dropped values |
| Pages.BlockChain.New | src/block.rs:549-566 | the fewest new pages that hold `size` slots, none for size zero, distinct, linked and clean; a single one stands alone, several are neighbours in one allocation |
| Pages.BlockChain.NewRun | src/block.rs:314-372 | `count` new neighbouring pages of one allocation, linked in order with a terminal tail, everything else in memory unchanged |
| Pages.BlockChain.Give | src/block.rs:584-615 | appends the other chain's pages in order, adds the capacities, empties the other chain, and touches no page outside the two |
| Pages.BlockChain.GrowToFitWith | src/block.rs:618-629 | reaches the capacity asked for, with the pooled page first and then only new ones, and overshoots by less than a block; a chain that is long enough is left alone with the pool |
| Pages.BlockChain.Drop | src/block.rs:658-671 | frees exactly the chain's pages and leaves the ledger of dropped values unchanged |
| Queue.UBQ.constructor | src/queue.rs:68-77 | a new queue is empty, owns no page and has dropped nothing |
| Queue.UBQ.Walk | src/queue.rs:204-234 | the filling walk never meets a null block and lands `phead` exactly `len` slots on, with the hint set exactly if a successor is linked, linking the private chain at most once |
| Queue.UBQ.WriteBatch | src/queue.rs:247-266 | writes the claimed slots in order across blocks and leaves skips where the iterator runs short |
| Queue.UBQ.PushBatch | src/queue.rs:116-267 | appends exactly `len` entries to the abstract sequence, whose values are the items in order as far as they go, with block recycling and multi-block batches; leaks no page, drops no value, and leaves the pool alone if the batch fits into the linked blocks |
| Queue.UBQ.Seek | src/queue.rs:391-439 | the consumers' walk lands exactly min(wanted, available) entries on, with the hint set exactly if `phead` is in a later block |
| Queue.UBQ.Reserve | src/queue.rs:292-381 | claims min(size, length) entries, and the re-check after the exchange never asks for a repair |
| Queue.UBQ.FinishSegment | src/queue.rs:507-530 | counts the slots read; a completed block leaves the list for the empty pool if it stands alone and is freed otherwise, and no value is dropped by that |
| Queue.UBQ.Visit | src/queue.rs:540-571 | one turn of the iterator yields the next entry, moves on before the block can be recycled, and drops no value |
| Queue.UBQ.PopBatch | src/queue.rs:279-449 | a drained pop removes exactly the first min(size, length) entries, yields their values in order, and drops none |
| Queue.UBQ.IsEmpty | src/queue.rs:85-104 | true if and only if the abstract sequence is empty |
| Queue.UBQ.Drop | src/queue.rs:458-474 | frees every page the queue owns, and the ledger of dropped values grows by exactly the values of the abstract sequence, in order |
| Words.NumberOfBits | src/head.rs:73-93 | writing a number in binary and reading it back gives the number |
| HeadCodec.NewSucceeds | src/head.rs:13-39 | if a block has fewer slots than its page has bytes, the tag-width assertion holds and the masks are the page bits, the index bits and, if there is room, one hint bit |
| HeadCodec.RoundTrip | src/head.rs:73-93 | unpacking a packed head gives back the page-aligned block and any index from 0 to the block length, and the hint whenever the codec has room for it |
| HeadCodec.PackInjective | src/head.rs:82-93 | two heads pack to the same word exactly when they agree on block and index, and on the hint if the word has room for it |
| HeadCodec.ZeroIsNull | src/head.rs:95-97 | a head whose hint the word has room for packs to zero exactly if it is the null head |
| BlockLayout.SlotsAreSound | src/block.rs:189-205 | the slots of a page-aligned block are aligned, disjoint, behind the header, inside the page, and one more would not fit |
| BlockLayout.NoLayoutHoldsMore | src/block.rs:28-58 | however slots are placed in a page at aligned offsets behind the header, each with its bytes to itself, there are no more of them than `BlockLayout::new` computes, and none at all if it finds no room |
| BlockLayout.SlotsArePlaced | src/block.rs:189-205 | the offsets `slot_ptr` computes are one such placement, so a block has as many slots as its page can hold |
| BlockLayout.StrideIsLeast | src/block.rs:189-193 | no two aligned slots, also of zero size, can be closer than `slot_stride` |
| BlockLayout.OffsetIsLeast | src/block.rs:118-124 | no aligned slot behind the header starts before the slots offset |
| BlockLayout.FitsIffOneSlotFits | src/block.rs:28-58 | the layout exists exactly when both alignments are within the page and one slot fits |
| BlockLayout.CodecAlwaysFits | src/head.rs:19-22 | for every power-of-two page and legal slot layout the assertion in `HeadCodec::new` cannot fail |
| LayoutCache.ListIsComplete | src/block.rs:126-175 | the list behind the bucket pointer ends, and it holds every node ever published exactly once |
| LayoutCache.ListOnlyGrows | src/block.rs:126-175 | the list at one moment is a suffix of the list at any later moment, with the same nodes: nothing is removed or changed |
| LayoutCache.KeysUnique | src/block.rs:126-175 | under any interleaving a bucket never holds two nodes with the same key |
| LayoutCache.KeyDecides | src/block.rs:28-58 | the cache key of a block type decides the layout `BlockLayout::new` computes for it, and whether one of its assertions fails, those on the alignments included |
| LayoutCache.LookupIsFresh | src/block.rs:126-175 | every lookup for a block type returns the layout computed for that type, and panics only if that computation does, although the node may come from another type and after a failed exchange only the new prefix is rescanned |
| Scheduling.CheckMeans | scripts/hardware_campaign.py:650-683 | what `eligible` says about one requirement, in terms of statuses: it passes, will never be met, or is undecided |
| Scheduling.ReadyMeansAllPass | scripts/hardware_campaign.py:650-683 | a job is ready exactly when every requirement passes, skipped exactly when the first that does not will never be met, and waits exactly when the first that does not is undecided |
| Scheduling.AllCompletedIsReady | scripts/hardware_campaign.py:650-683 | a job all of whose named jobs have completed is ready |
| Scheduling.ReadyNeedsSuccess | scripts/hardware_campaign.py:650-683 | a job that is not core or ab and has no schedule parent is ready only if each single requirement has completed and each group has a completed member |
| Scheduling.SkipNeedsFailure | scripts/hardware_campaign.py:650-683 | a job is skipped only because of a requirement all of whose jobs have failed, been skipped or not been admitted |
| Scheduling.FirstDecides | scripts/hardware_campaign.py:650-683 | any other verdict is that of a need all of whose predecessors pass |
| Scheduling.EligibleLocal | scripts/hardware_campaign.py:650-683 | a verdict depends only on the decided jobs among those the job names |
| Scheduling.VerdictIsFinal | scripts/hardware_campaign.py:650-683 | while terminal statuses are stable, a ready job stays ready and a skipped one stays skipped |
| Scheduling.SubmittingChangesNoVerdict | scripts/hardware_campaign.py:763-775 | recording submitted jobs changes no verdict |
| Scheduling.SomeJobMoves | scripts/hardware_campaign.py:756-775 | with requirements that name only earlier jobs, nothing live and a job left, some job that is left is ready or to be skipped |
| Scheduling.DecisionMeans | scripts/hardware_campaign.py:756-762 | the sweep records "not admitted" exactly if the build failed or the job is late, and "skipped" exactly if otherwise the build succeeded and the first requirement that does not pass will never be met |
| Submission.StepKeeps | scripts/hardware_campaign.py:686-728 | every step of the controller or the scheduler, and a crash at any point, keeps the submission invariant |
| Submission.RunKeeps | scripts/hardware_campaign.py:686-728 | the invariant holds in every run with any crashes and restarts |
| Submission.NeverTwice | scripts/hardware_campaign.py:686-728 | no job id, nor the build, is accepted twice, not by two submissions and not within one |
| Submission.NeverForgotten | scripts/hardware_campaign.py:702-709 | every accepted id is in the state file, or the intent file covers its submission; an idle controller knows all of them |
| Submission.RecordsAreTrue | scripts/hardware_campaign.py:702-709 | a record in the state file names the one submission, and the place in it, that holds the job |
| Submission.RestartsExactly | scripts/hardware_campaign.py:686-699 | a restart gets past recovery exactly when there is no intent, or its submission was accepted and accounting shows that one |
| Submission.RecoveryCompletes | scripts/hardware_campaign.py:686-709 | such a restart records the submission under its own number and clears the intent |
| Campaign.Controller.Attempt | scripts/hardware_campaign.py:745-754 | for each of the scheduler's answers, what memory, both files and the scheduler hold afterwards; only an accepted request is recorded, and an unresolved one stays in the intent file |
| Campaign.HalvedIs | scripts/hardware_campaign.py:712-728 | after `n` refusals the batch is the first one divided by two to the `n`, rounded down |
| Campaign.Controller.Submit | scripts/hardware_campaign.py:712-728 | halving terminates; it records exactly a prefix of the ready list, of the size reached after the refusals, or leaves state, file and scheduler unchanged; if it stops on an error the intent file names the request and the state file is untouched |
| Campaign.Controller.Restart | scripts/hardware_campaign.py:686-699 | stops exactly when an intent stays unresolved, with the files untouched; otherwise the state file knows every accepted id |
| Campaign.Controller.Build | scripts/hardware_campaign.py:745-754 | a recorded build, or one past the deadline, is not submitted; otherwise what log, state file and intent file hold after each of the scheduler's answers |
| Campaign.Controller.Reconcile | scripts/hardware_campaign.py:635-647 | a submitted job becomes completed exactly if its account shows a clean end and its artifact is there, failed exactly if it is over otherwise, running, pending or unknown exactly as the account says; nothing else changes |
| Campaign.StatusSurvives | scripts/hardware_campaign.py:635-647 | a terminal status survives reconciliation exactly when accounting still shows the end, with the same outcome; a vanished account reopens the job |
| Campaign.ReconcilingIsStable | scripts/hardware_campaign.py:635-647 | accounting that forgets no end never reopens a decided job |
| Campaign.Controller.Sweep | scripts/hardware_campaign.py:756-762 | decides exactly the jobs for which a decision is due, and one pass over the plan is enough: with the record it leaves the decisions are still the same |
| Campaign.SweptDecides | scripts/hardware_campaign.py:756-762 | a job the sweep decides is not admitted if the build failed or it is late, and skipped otherwise, because of a requirement that will never be met |
| Campaign.Controller.Wave | scripts/hardware_campaign.py:766-773 | submits a prefix of the ready jobs of the kind, in plan order, and all of them unless the quota is full; it terminates |
| Campaign.Controller.Waves | scripts/hardware_campaign.py:763-775 | submits a prefix of all ready jobs by priority, and unless the quota is full all of them |
| Campaign.PriorityOrder | scripts/hardware_campaign.py:763-775 | in the list by priority a job of an earlier kind comes first, and of two jobs of one kind the one that is earlier in the plan |
| Campaign.NoneEarlierLeft | scripts/hardware_campaign.py:763-775 | a job is submitted only after every ready job of an earlier kind and every ready job of its own kind that is earlier in the plan |
| Campaign.Controller.Turn | scripts/hardware_campaign.py:755-776 | with the decisions made it submits the ready jobs by priority until the quota is full; unless it is, every job left open waits, and if nothing was live and a job was open at least one more is recorded |
| Campaign.ReconcilingSettles | scripts/hardware_campaign.py:635-647 | once accounting shows every submitted job over, reconciliation leaves nothing live |
| Campaign.Controller.Round | scripts/hardware_campaign.py:741-776 | one reconciliation and turn with a willing scheduler opens no job; a job that cannot do without its requirements is submitted only if accounting showed each of them to have ended well with its artifact; and once all submitted jobs are over it records one more job, or leaves nothing open and nothing live |
| Campaign.Controller.Finish | scripts/hardware_campaign.py:739-791 | after a successful build, if every submitted job ends and the scheduler refuses and loses nothing, the loop ends: every job of the plan is in the state file and none is live |

## Left out

- Weak memory orderings: every atomic access is sequentially consistent in the concurrent model.
- ABA on head words: block serials are unique, so the repair branches are shown unreachable rather than modelled further.
- Overflow: `usize` sums of indices and batch lengths do not overflow, and `push_batch`'s cap at `usize::MAX - 1` items is not modelled.
- Panicking item iterators, leaked pop iterators and unwinding.
- Back-off policies, which decide how long a wait takes and nothing else.
- Pages.BlockChain.NewRun: names the allocation its pages share by its first page; the descriptor's counter and its end are proved in Conservation, for all interleavings.
- The single-producer queue and its `SpmcBlock`, the benchmarks, the other queues under comparison and the analysis scripts.
- The rest of the controller: identity checks, progress files, deadlines as clock arithmetic (a set of late jobs instead), cancelling after the deadline, and what the jobs compute.
- Manual repair of an unresolved intent: the controller stops and the model ends there until a restart.
