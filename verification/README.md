# Request machinery of the Linux 2.6.35 block layer, and three pieces of its crypto layer

A model in Dafny of code in which small mutable structures carry properties that hold only over
whole runs: the barrier sequence of a request queue, the merging and completion of requests, two
I/O schedulers, tags, the switch of schedulers, the removal of crypto algorithms, and two block
ciphers. `dafny verify dfyconfig.toml` checks everything.

Most parts have the same shape. Functions say what one critical section does to a state; lemmas
show what every such step keeps; a theorem about `Run(states, events)` states the property for
every run. Beside it a class does the same work in place, as the C code does, with the loops the C
code has, and each of its methods is proved to compute the specified function.

| files | what they model |
|---|---|
| BarrierModel, BarrierSequence, BarrierOrder, BarrierColor, BarrierProgress, BarrierNone, BarrierTag, BarrierSort, BarrierFirm, BarrierQueue | ordered sequences, ordering by draining, progress, queues without barriers or by tag, the order of the dispatch list |
| Segments, SegmentWindow, SegmentMerge, SegmentLimits, SegmentRest | segment counts, sizes and scatterlists under merging and partial completion |
| BioChain, Completion, RequestCompletion, RequestPool | bios of a request: merging, partial completion, fail-fast |
| MergeHash, ElvSwitch, Tags, TagQueue | merge hash, scheduler switch, command tags |
| Deadline, DeadlineLists, DeadlineService, DeadlineFates, DeadlineQueue | the deadline scheduler |
| CfqForest, CfqLinks, CfqQueues, CfqGroups, CfqService | CFQ: cooperating queues, group service tree |
| AlgSpawns | removal of an algorithm and all that is built on it |
| Lists | optional values, lists without repetition, the larger of two numbers |
| Columns, Spn, AesField, Aes, AesPacked, AesCipher, AesKeys, Anubis | AES and Anubis |

## Results that need a condition

* Ordering by draining fails when a request that is not an fs request carries REQ_HARDBARRIER, as
  the packet commands of drivers/block/pktcdvd.c do: `__elv_add_request` flips the colour for it,
  `blk_ordered_req_seq` does not count it. Every such kind of request breaks it
  (`BarrierColor.PacketCommandBreaksOrder`), so the rule is exact for every set of kinds
  (`BarrierColor.DrainOrderingNeedsTheRule`).
* An open sequence may stall an idle queue when a discard that is not an fs request is sorted, which
  `elv_insert` allows: it counts for the drain phase, but a later discard can be sorted in front of
  it. Every such kind does (`BarrierProgress.DiscardCommandStalls`), so the rule is exact for every set
  of kinds with an empty barrier and an fs discard (`BarrierProgress.NoStallNeedsTheRule`).
* The boundary test looks at neighbouring vectors only. It keeps segments within a window, and keeps a
  partial completion from raising their number, if and only if the mask is one less than a power of two
  (`SegmentWindow.NeighboursSuffice`, `SegmentRest.RestNeverGrows`); `blk_queue_segment_boundary` does
  not ask for that. A segment of one vector is not tested at all.
* Partial completion is additive in bios, vectors and length always, in start sector and fail-fast
  bits if and only if the second call does not finish a request that the first one shortened
  (`Completion.UpdateAdds`, with the witness `Completion.LastCallKeepsStart`): `blk_update_request`
  returns before it moves them when nothing remains.
* Growing a tag map may lose tags in use, because `init_tag_map` clamps the new depth to twice
  nr_requests. Every map of a depth survives if and only if twice nr_requests is at least that depth
  (`TagQueue.GrowIsSafe`), a given one if and only if its tags are below the new depth
  (`TagQueue.CopyKeeps`); `TagQueue.GrowStrandsTags` is a map that does not. `TagQueue.Queue.EndTag`
  leaves a request whose tag was lost on the busy list. The runs of `Tags` are those with safe growths.
* `crypto_remove_spawns` needs no acyclic graph: its BUG_ON fires if and only if the algorithm
  depends on itself, and the walk terminates in every graph.
* A mixed request's fail-fast bits are not only contained in its first bio's, they are equal
  (`Completion.Mixing`).  Eagerness is what a bio claims when its request takes it in: all bits if a
  read-ahead bio starts the request, its own bits otherwise.

## How the code is rendered

* What runs under the queue lock is one step. Bit fields are records of booleans; list heads are
  sequences, head first; red-black trees are sequences in key order; hash chains are sequences.
* Integers do not wrap, except in bit-vector code. Jiffies are unbounded.
* AES columns are four bytes, lowest first, Anubis rows four bytes, highest first. The round tables
  are defined from the substitution and the matrix of the cipher; that the printed tables have these
  values is not part of the proofs.
* Merging a request away counts as its end for the requests that wait for it.
* In BarrierModel the forced drain before a back insertion is a series of dispatch steps.
* In Tags a start takes some free tag within the limit, as a search that races with other queues
  does; in TagQueue, where nothing races, it takes the least.

## Model

| member | source | states |
|---|---|---|
| `BarrierSequence.OrderedSequencesAreSound` | linux-2.6.35.11/block/blk-barrier.c:92-235 | in every ordered mode, empty barriers included, and over every run: no BUG_ON fires, no request ends twice, a running sequence stops only by being closed, and the step that closes it ends the original barrier once, with the first error of any phase, after exactly the proxies the mode asks for were queued and finished |
| `BarrierSequence.CompleteSeqKeeps` | linux-2.6.35.11/block/blk-barrier.c:92-112 | completing phases that are not yet complete keeps the invariant of the sequence, and ends the original exactly when the last phase completes |
| `BarrierSequence.StartOrderedKeeps` | linux-2.6.35.11/block/blk-barrier.c:155-235 | in every mode, opening a sequence keeps the invariant; it hands back the proxy of the first phase, which heads the list, exactly if a proxy was queued and nothing is to be drained first, and is over at once exactly if there is neither a proxy nor anything to drain |
| `BarrierSequence.RequeueKeeps` | linux-2.6.35.11/block/elevator.c:670-698 | a requeued request is put back once and the books still balance |
| `BarrierSequence.StepKeeps` | linux-2.6.35.11/block/blk-barrier.c:56-281 | every event, whatever the mode, keeps the invariant and reports as promised |
| `BarrierOrder.DrainOrdersEveryRun` | linux-2.6.35.11/block/blk-barrier.c:56-281 | in a drain mode, over every run with any number of barriers and requeues: a phase reaches the driver only after every earlier fs request and every earlier phase, and an fs request only after every earlier barrier has ended |
| `BarrierOrder.SecondBarrierBlocks` | linux-2.6.35.11/block/blk-barrier.c:63-90 | one colour bit is enough: a request that has the colour of the running barrier is of its epoch, or the next barrier stands before it |
| `BarrierOrder.HeadIsOldest` | linux-2.6.35.11/block/blk-barrier.c:237-281 | no fs request gets past an open barrier to the head of the list |
| `BarrierOrder.DrainedIsQuiet` | linux-2.6.35.11/block/elevator.c:843-873 | when the drain phase may complete, no request of the old epoch is in the list or with the driver |
| `BarrierOrder.RequeuePlace` | linux-2.6.35.11/block/elevator.c:684-698 | the walk of a requeue finds the place the order asks for |
| `BarrierOrder.DispatchOrder` | linux-2.6.35.11/block/elevator.c:419-455 | sorted insertion into the dispatch list keeps the order: what it passes is of the newest epoch |
| `BarrierOrder.InsertOrder` | linux-2.6.35.11/block/elevator.c:715-750 | insertion gives the request the epoch of its colour and keeps the order |
| `BarrierOrder.CompleteSeqOrder` | linux-2.6.35.11/block/blk-barrier.c:92-112 | a sequence that ends opens the next epoch and keeps the order |
| `BarrierOrder.StepOrder` | linux-2.6.35.11/block/blk-barrier.c:56-281 | every event keeps the whole ordering invariant in a drain mode |
| `BarrierColor.PacketCommandBreaksOrder` | linux-2.6.35.11/block/elevator.c:718-726 | for every kind of request that has REQ_HARDBARRIER and is no fs request, every plain fs request and every barrier, empty or not: a run of these three in which the flipped colour lets a phase of the barrier pass the requeued fs request |
| `BarrierColor.DrainOrderingNeedsTheRule` | linux-2.6.35.11/block/elevator.c:718-726 | for every set of kinds that may be submitted, with a plain fs request and a barrier in it: all runs are ordered if and only if the kinds with REQ_HARDBARRIER in the set are fs requests |
| `BarrierProgress.SequencesNeverStall` | linux-2.6.35.11/block/blk-barrier.c:63-90 | over every run in a drain mode in which only fs requests are sorted: while a sequence is open and the driver holds nothing, there is a head and blk_do_ordered lets it through; this is the deadlock the code guards against |
| `BarrierProgress.DriverClosesSequence` | linux-2.6.35.11/block/blk-barrier.c:92-112 | every driver that takes what it may have and completes what it holds, in any order and with any errors, closes an open sequence after at most twice the length of the list plus the number of requests it holds moves, and then the original barrier has ended |
| `BarrierProgress.DiscardCommandStalls` | linux-2.6.35.11/block/elevator.c:652-656 | for every empty barrier, every sortable fs discard and every sortable discard that is no fs request: a run in which the last is sorted, as the BUG_ON allows, and an fs discard is sorted in front of it, so that the driver is idle, the sequence open and the head blocked |
| `BarrierProgress.NoStallNeedsTheRule` | linux-2.6.35.11/block/elevator.c:652-656 | for every set of kinds that may be submitted, with an empty barrier and a sortable fs discard in it: over all runs no open sequence stalls an idle queue if and only if every sortable discard in the set is an fs request |
| `BarrierProgress.StepLives` | linux-2.6.35.11/block/blk-barrier.c:56-281 | every event keeps the ordering invariant and, with the driver idle in the drain phase, a head that belongs to that phase and cannot be passed |
| `BarrierProgress.IdleDriverIsAnswered` | linux-2.6.35.11/block/blk.h:54-68 | over every run in a drain mode in which only fs requests are sorted: an idle driver that looks at a non-empty list gets a request, or the list gets shorter because a barrier was over at once |
| `BarrierProgress.NothingComesLate` | linux-2.6.35.11/block/blk-barrier.c:274-278 | over every strict run in a drain mode: the warning of blk_do_ordered never fires, for no fs request or proxy at the head belongs to a phase before the current one |
| `BarrierSort.StretchesAreSorted` | linux-2.6.35.11/block/elevator.c:419-455 | over every run in which requests are handed over with elv_dispatch_sort from one boundary: any stretch of the dispatch list of requests that may be passed and go the same way lies in the order of a one-way elevator that starts at the boundary |
| `BarrierSort.DispatchElevated` | linux-2.6.35.11/block/elevator.c:419-455 | the place where the walk stops keeps that order |
| `BarrierSort.BoundaryAdvances` | linux-2.6.35.11/block/blk-core.c:1831-1834 | when the boundary moves to the end of the request handed out, and none of a list of one stretch starts inside that request, what is left is in elevator order from the new boundary |
| `BarrierFirm.SeenIsNotPassed` | linux-2.6.35.11/block/blk-core.c:1812-1829 | over every run: nothing the scheduler hands over gets in front of a request the driver was shown |
| `BarrierFirm.SoftIsNotPassed` | linux-2.6.35.11/block/elevator.c:715-750 | over every run: a request with a barrier flag or without the scheduler's data is on the list at once, behind all others unless it goes to the front, with nothing left in the scheduler, and nothing sorted later gets in front of it |
| `BarrierNone.BarriersAreTurnedDown` | linux-2.6.35.11/block/blk-barrier.c:242-257 | over every run of a queue in mode ORDERED_NONE: no sequence opens, no barrier is with the driver, and every barrier is in the list until it ends, once and with -95 (EOPNOTSUPP) |
| `BarrierTag.BarriersStayHome` | linux-2.6.35.11/block/blk-barrier.c:269-273 | over every run of a queue that orders by tag, with a pre-flush or without empty barriers: every sequence is by tag, and no barrier is ever held by the scheduler or the driver |
| `BarrierQueue.RequestQueue.OrderedCompleteSeq` | linux-2.6.35.11/block/blk-barrier.c:92-112 | computes the specified step in place and reports whether the sequence is complete |
| `BarrierQueue.RequestQueue.QueueProxy` | linux-2.6.35.11/block/blk-barrier.c:132-153 | puts one proxy at the head of the list if the mode asks for it |
| `BarrierQueue.RequestQueue.QueueSequence` | linux-2.6.35.11/block/blk-barrier.c:189-221 | the list begins with the proxies the mode asks for, in the order of their phases, and goes on as before |
| `BarrierQueue.RequestQueue.ReducedMode` | linux-2.6.35.11/block/blk-barrier.c:164-182 | a barrier with data keeps the queue's mode; an empty one asks for the pre-flush of that mode and for nothing else, and is ordered by tag only if it has a pre-flush to carry the tag, otherwise by draining |
| `BarrierQueue.RequestQueue.StashHead` | linux-2.6.35.11/block/blk-barrier.c:160-187 | takes the barrier off the list and starts the sequence |
| `BarrierQueue.RequestQueue.StartSequence` | linux-2.6.35.11/block/blk-barrier.c:155-235 | computes the specified start, skipped phases and drain wait included, and hands back the head of the list exactly if a proxy was queued and nothing is to be drained first |
| `BarrierQueue.RequestQueue.DoOrderedHead` | linux-2.6.35.11/block/blk-barrier.c:237-281 | computes the specified verdict on the head of the list |
| `BarrierQueue.RequestQueue.RequeuePlace` | linux-2.6.35.11/block/elevator.c:684-698 | the loop finds the specified index |
| `BarrierQueue.RequestQueue.RequeueRequest` | linux-2.6.35.11/block/elevator.c:559-574 | computes the specified requeue |
| `BarrierQueue.RequestQueue.CompletedRequest` | linux-2.6.35.11/block/elevator.c:843-873 | computes the specified completion, drain check included |
| `BarrierQueue.RequestQueue.DispatchSorted` | linux-2.6.35.11/block/elevator.c:419-455 | inserts behind the last request it may not pass or that the elevator reaches first, which keeps a list in elevator order so |
| `BarrierQueue.RequestQueue.DispatchTail` | linux-2.6.35.11/block/elevator.c:463-475 | appends and moves the boundary |
| `BarrierQueue.RequestQueue.DrainElevator` | linux-2.6.35.11/block/elevator.c:576-591 | in every mode, moves exactly the sorted requests to the list and keeps the invariant of the sequence; in a drain mode it keeps the ordering invariant; sorting by sector keeps the list in elevator order |
| `BarrierQueue.RequestQueue.NextRequest` | linux-2.6.35.11/block/blk.h:54-68 | in every mode, terminates, keeps the invariant of the sequence and returns the head, or nothing only from an empty or blocked queue; in a drain mode it keeps the ordering invariant and returns only what may be issued; if only fs requests are sorted, it returns nothing only if the driver holds a request or the queue is empty |
| `Segments.GreedyIsMinimal` | linux-2.6.35.11/block/blk-merge.c:12-70 | greedy packing uses no more segments than any valid segmentation of the same vectors |
| `Segments.GreedyStaysAhead` | linux-2.6.35.11/block/blk-merge.c:12-70 | after every vector the greedy packing is at least as far as any other |
| `Segments.PackIsSegmentation` | linux-2.6.35.11/block/blk-merge.c:118-200 | the packing respects the segment size and boundary limits and loses nothing |
| `Segments.BouncedAlone` | linux-2.6.35.11/block/blk-merge.c:28-58 | counting leaves every page above the bounce limit in a segment of its own |
| `Segments.EntriesCoverBytes` | linux-2.6.35.11/block/blk-merge.c:118-200 | the entries cover exactly the bytes of the vectors, in order |
| `SegmentWindow.NeighboursSuffice` | linux-2.6.35.11/include/linux/bio.h:277-280 | comparing neighbouring vectors keeps every byte of every segment of several vectors in one window if and only if the boundary mask is one less than a power of two |
| `SegmentWindow.EntryInWindow` | linux-2.6.35.11/block/blk-merge.c:118-180 | with such a mask an entry of the scatterlist lies in one window exactly if it joins several vectors or its only vector does |
| `SegmentRest.RestNeverGrows` | linux-2.6.35.11/block/blk-core.c:2083-2116 | bytes completed at the front never raise the number of scatterlist entries of what remains, for any vectors, if and only if the boundary mask is one less than a power of two |
| `SegmentRest.RestFits` | linux-2.6.35.11/block/blk-core.c:2083-2116 | after a partial completion the recounted segments cover the scatterlist of the rest, which is no longer than before |
| `SegmentRest.AdvanceVectors` | linux-2.6.35.11/block/blk-core.c:2018-2091 | the vectors that remain are the request's vectors without the completed bytes |
| `SegmentMerge.ScatterlistFitsEveryRun` | linux-2.6.35.11/block/blk-merge.c:118-330 | after any sequence of submissions and merges the scatterlist of every request fits nr_phys_segments, which fits the device limit, and covers the request's bytes |
| `SegmentLimits.SizesFitEveryRun` | linux-2.6.35.11/block/blk-merge.c:225-330 | after any sequence of submissions and merges every fs request is within max_sectors, and every driver command within max_hw_sectors if max_sectors is |
| `SegmentLimits.BioMergeAccepts` | linux-2.6.35.11/block/blk-merge.c:203-285 | a bio is merged at either end exactly if the sum of the sectors is within the limit for the kind of request, the sum of the segments within max_segments, and the direct-I/O flag that of last_merge; a refusal forbids further merges |
| `SegmentLimits.JoinAccepts` | linux-2.6.35.11/block/blk-merge.c:287-330 | two requests are joined exactly if neither has driver data, the direct-I/O flags agree, the sectors together are within max_sectors, and the segments, a shared one counted once, within max_segments |
| `SegmentMerge.BackMergeIsSound` | linux-2.6.35.11/block/blk-merge.c:203-260 | a back merge keeps counts that bound the packing |
| `SegmentMerge.FrontMergeIsSound` | linux-2.6.35.11/block/blk-merge.c:203-285 | a front merge keeps counts that bound the packing |
| `SegmentMerge.MergeRequestsIsSound` | linux-2.6.35.11/block/blk-merge.c:287-330 | joining two requests, one segment saved where they touch, keeps counts that bound the packing |
| `SegmentMerge.WeldIsSound` | linux-2.6.35.11/block/blk-merge.c:315-322 | when the touching ends fit one segment, the joined bios have a segmentation with one segment less |
| `SegmentMerge.RecountIsAccurate` | linux-2.6.35.11/block/blk-merge.c:12-86 | a recount yields the size of the greedy packing and the sizes of its end segments, exactly |
| `SegmentMerge.Request.RecalcSegments` | linux-2.6.35.11/block/blk-merge.c:12-70 | computes the specified count and raises the cached end sizes as specified |
| `SegmentMerge.CountChain` | linux-2.6.35.11/block/blk-merge.c:28-61 | the nested loops count the segments of the greedy packing and remember its first and last sizes |
| `SegmentMerge.Request.MapSg` | linux-2.6.35.11/block/blk-merge.c:118-180 | the loops emit exactly the entries of the packing |
| `SegmentMerge.Request.TryBackMerge` | linux-2.6.35.11/block/blk-merge.c:203-259 | computes the specified back merge, exactly if the sectors together are within max_sectors, or max_hw_sectors for a driver command, the segments together within max_segments, and the direct-I/O flag is that of last_merge; otherwise forbids further merges |
| `SegmentMerge.Request.TryMergeRequests` | linux-2.6.35.11/block/blk-merge.c:287-330 | computes the specified join, one segment saved where the requests touch, or the specified refusal, the direct-I/O one included, which may come after the sizes at the seam were raised |
| `CfqForest.ForestIsSound` | linux-2.6.35.11/block/cfq-iosched.c:1995-2045 | over every run of allocate, set-up, merge, split, exit, get and put: links are acyclic, every reference count is exact, no BUG_ON fires, and a chain from a queue with a process reference meets only live queues |
| `CfqForest.SetupMergeKeeps` | linux-2.6.35.11/block/cfq-iosched.c:2005-2045 | setting up a merge keeps the forest sound in both directions of the link |
| `CfqLinks.MergesLesserWork` | linux-2.6.35.11/block/cfq-iosched.c:2005-2045 | a set-up links nothing exactly if one of the two has no process or the chain comes back; otherwise the queue with fewer processes, the first on a tie, is the one redirected, and the other gains as many references as processes come over |
| `CfqLinks.MergeMoves` | linux-2.6.35.11/block/cfq-iosched.c:3580-3588 | a merge moves the context to the queue its old one was redirected to |
| `CfqLinks.SplitLeaves` | linux-2.6.35.11/block/cfq-iosched.c:3594-3609 | the only process of a queue keeps it, and any other is taken off |
| `CfqForest.MergeCicKeeps` | linux-2.6.35.11/block/cfq-iosched.c:3580-3588 | moving a context to the merged queue keeps the forest sound |
| `CfqForest.DropKeeps` | linux-2.6.35.11/block/cfq-iosched.c:2607-2638 | an exiting process drops one reference along its whole chain and keeps the forest sound |
| `CfqForest.GetRequestKeeps` | linux-2.6.35.11/block/cfq-iosched.c:3614-3667 | a request takes one reference on its queue |
| `CfqForest.PutRequestKeeps` | linux-2.6.35.11/block/cfq-iosched.c:3556-3577 | a request gives its reference back; the queue may be freed |
| `CfqForest.ProcessChainIsWhole` | linux-2.6.35.11/block/cfq-iosched.c:2012-2024 | the walk along new_cfqq from a queue with a process reference never meets a freed queue |
| `CfqForest.StepKeeps` | linux-2.6.35.11/block/cfq-iosched.c:3579-3667 | every event keeps the forest sound |
| `CfqQueues.CfqData.PutQueue` | linux-2.6.35.11/block/cfq-iosched.c:2493-2519 | drops one reference and frees the queue at zero |
| `CfqQueues.CfqData.PutCooperator` | linux-2.6.35.11/block/cfq-iosched.c:2607-2626 | drops one reference on every queue further along the chain |
| `CfqQueues.CfqData.ExitQueue` | linux-2.6.35.11/block/cfq-iosched.c:2628-2638 | computes the specified drop and keeps the forest sound |
| `CfqQueues.CfqData.SetupMergeWith` | linux-2.6.35.11/block/cfq-iosched.c:2005-2045 | walks to the end of the chain, keeps the forest sound, and redirects the queue with fewer processes to the other, or nothing if one has none or the chain comes back |
| `CfqQueues.UnreferencedChainMayDangle` | linux-2.6.35.11/block/cfq-iosched.c:2012-2017 | a run after which a chain from a queue without process references does lead to a freed queue: the guard is needed |
| `Spn.CipherUndone` | linux-2.6.35.11/crypto/aes_generic.c:1212-1214 | running the inverse layers with the reversed, mixed schedule undoes the cipher, for any number of rounds |
| `Spn.RoundsBack` | linux-2.6.35.11/crypto/aes_generic.c:1212-1214 | after n rounds back, decryption holds what encryption held n rounds before the end |
| `AesField.SBoxInverts` | linux-2.6.35.11/crypto/aes_generic.c:329-1120 | the substitutions of the two directions undo each other |
| `AesField.SBoxIsAffineOfInverse` | linux-2.6.35.11/crypto/aes_generic.c:330-395 | every substitution entry is the affine image of the field inverse of its index |
| `AesField.MultiplesLinear` | linux-2.6.35.11/crypto/aes_generic.c:1128-1139 | the field multiples used distribute over addition |
| `Aes.MixInverts` | linux-2.6.35.11/crypto/aes_generic.c:1128-1139 | MixColumns and InvMixColumns undo each other |
| `Aes.MixLinear` | linux-2.6.35.11/crypto/aes_generic.c:1128-1139 | both distribute over xor |
| `Aes.ImixColIsInvMixColumn` | linux-2.6.35.11/crypto/aes_generic.c:1130-1139 | imix_col computes InvMixColumns |
| `AesPacked.StarXIsBytewise` | linux-2.6.35.11/crypto/aes_generic.c:1128-1128 | star_x on a packed word multiplies each of its bytes, with no carry between them |
| `AesPacked.ImixIsInvMixColumn` | linux-2.6.35.11/crypto/aes_generic.c:1128-1139 | imix_col on the packed 32-bit word is InvMixColumns on its bytes |
| `AesCipher.LayersUndo` | linux-2.6.35.11/crypto/aes_generic.c:1300-1400 | each direction undoes the other layer by layer |
| `AesCipher.FColumnMixes` | linux-2.6.35.11/crypto/aes_generic.c:1300-1305 | four lookups in the round tables are MixColumns of the substituted column |
| `AesCipher.IColumnMixes` | linux-2.6.35.11/crypto/aes_generic.c:1372-1377 | four lookups in the inverse round tables are InvMixColumns of the substituted column |
| `AesCipher.LastColumns` | linux-2.6.35.11/crypto/aes_generic.c:1315-1320 | four lookups in the last-round tables substitute and place four bytes |
| `AesCipher.LsBoxIs` | linux-2.6.35.11/crypto/aes_generic.c:1141-1145 | ls_box is SubWord of FIPS-197 |
| `AesCipher.FNroundIs` | linux-2.6.35.11/crypto/aes_generic.c:1307-1313 | a table round is SubBytes, ShiftRows, MixColumns, AddRoundKey |
| `AesCipher.FLroundIs` | linux-2.6.35.11/crypto/aes_generic.c:1315-1327 | the last round leaves MixColumns out |
| `AesCipher.INroundIs` | linux-2.6.35.11/crypto/aes_generic.c:1379-1385 | an inverse table round is InvSubBytes, InvShiftRows, InvMixColumns, AddRoundKey |
| `AesCipher.ILroundIs` | linux-2.6.35.11/crypto/aes_generic.c:1387-1399 | the last inverse round leaves InvMixColumns out |
| `AesKeys.DecryptsWhatItEncrypts` | linux-2.6.35.11/crypto/aes_generic.c:1216-1440 | for every key and block decryption undoes encryption and encryption undoes decryption |
| `AesKeys.RcoTabIsRcon` | linux-2.6.35.11/crypto/aes_generic.c:63-63 | the round constant table holds the powers of x |
| `AesKeys.Context.Loop4` | linux-2.6.35.11/crypto/aes_generic.c:1147-1158 | one turn expands four more words as KeyExpansion of FIPS-197 does |
| `AesKeys.Context.Loop6` | linux-2.6.35.11/crypto/aes_generic.c:1160-1175 | one turn expands six more words |
| `AesKeys.Context.Loop8TopHalf` | linux-2.6.35.11/crypto/aes_generic.c:1177-1188 | half a turn expands four more words |
| `AesKeys.Context.Loop8` | linux-2.6.35.11/crypto/aes_generic.c:1190-1201 | one turn expands eight more words, with the extra substitution in the middle |
| `AesKeys.Context.ExpandEnc` | linux-2.6.35.11/crypto/aes_generic.c:1226-1256 | all words the rounds use are those of KeyExpansion, for the three key lengths |
| `AesKeys.Context.ExpandDec` | linux-2.6.35.11/crypto/aes_generic.c:1258-1266 | the decryption keys are the encryption keys in the opposite order, the inner ones mixed |
| `AesKeys.Context.ExpandKey` | linux-2.6.35.11/crypto/aes_generic.c:1216-1268 | refuses every other key length and leaves the context alone; otherwise both arrays hold the two schedules |
| `AesKeys.Context.Encrypt` | linux-2.6.35.11/crypto/aes_generic.c:1329-1368 | computes the FIPS-197 cipher, and decryption recovers the block |
| `AesKeys.Context.Decrypt` | linux-2.6.35.11/crypto/aes_generic.c:1401-1440 | computes the equivalent inverse cipher, and encryption recovers the block |
| `Anubis.CryptUndone` | linux-2.6.35.11/crypto/anubis.c:552-672 | for every number of rounds, schedule and block, the run with one schedule undoes the run with the other |
| `Anubis.SBoxIsInvolution` | linux-2.6.35.11/crypto/anubis.c:320-385 | the substitution undoes itself |
| `Anubis.ThetaIsInvolution` | linux-2.6.35.11/crypto/anubis.c:52-318 | the diffusion undoes itself |
| `Anubis.ThetaLinear` | linux-2.6.35.11/crypto/anubis.c:552-569 | the diffusion distributes over xor |
| `Anubis.FullRoundIs` | linux-2.6.35.11/crypto/anubis.c:594-623 | a full table round is transpose, substitute, diffuse, add the key |
| `Anubis.LastRoundIs` | linux-2.6.35.11/crypto/anubis.c:629-652 | masking the tables leaves the diffusion out of the last round |
| `Anubis.MixedRowIsTheta` | linux-2.6.35.11/crypto/anubis.c:560-568 | the lookups that build the inverse schedule amount to the diffusion alone |
| `Anubis.Crypt` | linux-2.6.35.11/crypto/anubis.c:574-660 | the loop computes the cipher for the given schedule |
| `Anubis.Context.InvertSchedule` | linux-2.6.35.11/crypto/anubis.c:552-569 | the loops build the inverse schedule |
| `Anubis.Context.Encrypt` | linux-2.6.35.11/crypto/anubis.c:662-666 | encrypts, and decryption recovers the block |
| `Anubis.Context.Decrypt` | linux-2.6.35.11/crypto/anubis.c:668-672 | decrypts, and encryption recovers the block |
| `AlgSpawns.Registry.RemoveAlg` | linux-2.6.35.11/crypto/algapi.c:374-386 | refuses an unregistered algorithm; otherwise the BUG_ON fires exactly if the algorithm depends on itself, and if not, exactly its dependents die, exactly the live listed ones move to the list, their spawns are cut loose and all else is untouched |
| `AlgSpawns.Registry.RemoveSpawns` | linux-2.6.35.11/crypto/algapi.c:132-179 | the same for the walk by itself, in any graph, shared dependents included |
| `AlgSpawns.Registry.Walkthrough` | linux-2.6.35.11/crypto/algapi.c:152-171 | the explicit-stack walk terminates and collects every spawn of the cone exactly once |
| `AlgSpawns.Registry.Descend` | linux-2.6.35.11/crypto/algapi.c:153-169 | the inner loop descends to an empty users list or meets the algorithm itself, which then depends on itself |
| `AlgSpawns.Registry.RemoveAll` | linux-2.6.35.11/crypto/algapi.c:173-178 | every collected instance dies, the freed ones are listed once, and no users list is found non-empty |
| `AlgSpawns.Registry.RemoveSpawn` | linux-2.6.35.11/crypto/algapi.c:108-130 | marks, unlists and frees one instance, or leaves it if already dead |
| `AlgSpawns.PushKeeps` | linux-2.6.35.11/crypto/algapi.c:153-169 | taking the next user keeps the invariant of the walk |
| `AlgSpawns.PopKeeps` | linux-2.6.35.11/crypto/algapi.c:85-106 | crypto_more_spawns keeps the invariant of the walk |
| `AlgSpawns.WalkDone` | linux-2.6.35.11/crypto/algapi.c:132-179 | when the stack runs empty, the finished spawns are the cone and the algorithm is not its own dependent |
| `Completion.UpdateAdds` | linux-2.6.35.11/block/blk-core.c:1989-2119 | completing m and then n whole-sector bytes leaves what completing m + n leaves, and ends the same bios in the same order; the two results differ only in start sector and fail-fast bits, and exactly when the second call finishes a request the first one shortened |
| `Completion.LastCallKeepsStart` | linux-2.6.35.11/block/blk-core.c:2071-2081 | the witness: two sectors completed one by one leave another start sector than both at once |
| `BioChain.AdvanceAdds` | linux-2.6.35.11/block/blk-core.c:2018-2068 | the remaining bios and vectors, and the ended bios, add up over two completions |
| `BioChain.AdvanceConserves` | linux-2.6.35.11/block/blk-core.c:2018-2068 | every bio ends or remains, once, in the old order, and one that ends is told the error of the call, or -5 (EIO) if the call succeeded and an earlier part had failed |
| `Completion.UpdateTiles` | linux-2.6.35.11/block/blk-core.c:2083-2098 | a partial completion leaves the bios tiling the request |
| `Completion.BackMergeTiles` | linux-2.6.35.11/block/blk-core.c:1211-1239 | a contiguous back merge leaves the bios tiling the request |
| `Completion.FrontMergeTiles` | linux-2.6.35.11/block/blk-core.c:1241-1279 | a contiguous front merge leaves the bios tiling the request |
| `Completion.MergeReqsTiles` | linux-2.6.35.11/block/blk-merge.c:387-446 | joining contiguous requests leaves the bios tiling the request |
| `Completion.BackMergeMixes` | linux-2.6.35.11/block/blk-core.c:1219-1224 | fail-fast claims stay with their bios through a back merge |
| `Completion.FrontMergeMixes` | linux-2.6.35.11/block/blk-core.c:1249-1256 | and through a front merge, the request following its new first bio |
| `Completion.MergeReqsMixes` | linux-2.6.35.11/block/blk-merge.c:419-430 | and through a join of two requests |
| `Completion.UpdateMixes` | linux-2.6.35.11/block/blk-core.c:2100-2104 | and through a partial completion |
| `Completion.ErrBytesIsEager` | linux-2.6.35.11/block/blk-core.c:1724-1749 | blk_rq_err_bytes is positive while bytes remain, and is the longest run of bios from the front that are all at least as eager to fail as the first |
| `Completion.ReadAheadFailsAlone` | linux-2.6.35.11/block/blk-core.c:1141-1151 | failing a request that a read-ahead bio started takes no bio along that did not ask to fail fast in every way |
| `RequestCompletion.Request.Scan` | linux-2.6.35.11/block/blk-core.c:2018-2068 | the loop ends the specified bios, finds where the rest begins, and never runs out of vectors |
| `RequestCompletion.Request.Shorten` | linux-2.6.35.11/block/blk-core.c:2083-2091 | shortens the first bio as specified |
| `RequestCompletion.Request.UpdateRequest` | linux-2.6.35.11/block/blk-core.c:1989-2119 | computes the specified completion, resets rq->errors, never takes the botched branch, and recounts the segments of what remains: as many as the greedy packing has, no fewer than the scatterlist needs, which needs no more than before |
| `RequestCompletion.Request.SetMixedMerge` | linux-2.6.35.11/block/blk-merge.c:341-360 | marks every bio with the request's bits |
| `RequestCompletion.Request.BackMergeBio` | linux-2.6.35.11/block/blk-core.c:1219-1224 | computes the specified back merge, tiled and with claims kept; a bio that goes where the request goes keeps all its bios alike |
| `RequestCompletion.Request.FrontMergeBio` | linux-2.6.35.11/block/blk-core.c:1249-1266 | computes the specified front merge, tiled and with claims kept; a bio that goes where the request goes keeps all its bios alike |
| `RequestCompletion.Request.MergeNext` | linux-2.6.35.11/block/blk-merge.c:387-456 | takes over the bios of the next request, tiled and with claims kept, exactly if both are mergeable, they are contiguous, agree in direction, disk, integrity and direct I/O, the next one has no driver data, and the limits of the queue allow it; otherwise changes nothing; so if the bios of each agreed with their request, they still do |
| `RequestCompletion.Request.RqErrBytes` | linux-2.6.35.11/block/blk-core.c:1724-1749 | computes the specified bytes, positive while bytes remain, so that its BUG_ON never fires |
| `RequestCompletion.Request.FailAll` | linux-2.6.35.11/block/blk-core.c:1746-1747 | failing what may be failed, over and over, terminates; each bio has ended once, in order, with the error |
| `RequestPool.PoolIsSound` | linux-2.6.35.11/block/blk-core.c:1989-2119 | over every mix of submissions, merges and completions: requests are tiled, all bios of a request have its direction, disk, direct-I/O and integrity flags, no bio is lost, shared, or ended twice, and a bio ends with an error exactly if some part of it failed |
| `RequestPool.ConservedStep` | linux-2.6.35.11/block/blk-merge.c:381-461 | every event keeps each bio in exactly one place |
| `RequestPool.CompleteBlames` | linux-2.6.35.11/block/blk-core.c:137-174 | one completion gives every ended bio the right verdict, and the rest remember their failures |
| `ElvSwitch.SwitchIsSound` | linux-2.6.35.11/block/elevator.c:1005-1072 | over every run of allocation, insertion, completion and switching, a failed switch included: elvpriv counts exactly the holders of private data, never rises while the flag is set, a holder pins the elevator, private data goes only to the live elevator that prepared it, a request is sorted exactly if it has private data, is to be sorted and is no barrier, and the attached elevator has been exited exactly from a failed registration until the old one is back |
| `ElvSwitch.FailedSwitchKeepsExited` | linux-2.6.35.11/block/elevator.c:1037-1063 | for any two elevators, a run after which the queue points at the exited one, with no request holding private data |
| `ElvSwitch.CountStep` | linux-2.6.35.11/block/blk-core.c:730-742 | every event keeps the count exact |
| `ElvSwitch.PlaceStep` | linux-2.6.35.11/block/elevator.c:742-744 | only requests with private data are sorted, and only into the elevator that prepared them |
| `ElvSwitch.SwitchStep` | linux-2.6.35.11/block/elevator.c:593-616 | from attaching until the flag is cleared nobody holds private data |
| `ElvSwitch.StepIsGuarded` | linux-2.6.35.11/block/blk-core.c:800-802 | with the flag set no event adds a holder, and no event changes the elevator while there is one |
| `Deadline.WritesAreNotStarved` | linux-2.6.35.11/block/deadline-iosched.c:245-327 | while a write is pending and none is dispatched, at most (writes_starved + 1) * max(1, fifo_batch) reads are, whatever is added or merged in between |
| `DeadlineService.DispatchIs` | linux-2.6.35.11/block/deadline-iosched.c:245-327 | a dispatch sends one request if any is queued: the next in sector order of a batch under way, or else the start of a new batch in the direction the starvation count asks for, at the oldest request if one has expired or the scan ended; counters and scan positions follow, and all other requests stay |
| `DeadlineService.WriteGoesInTime` | linux-2.6.35.11/block/deadline-iosched.c:245-327 | over every run: while writes are queued, one is sent within (writes_starved + 1) * max(1, fifo_batch) + 1 dispatches |
| `DeadlineService.ExpiredWriteGoesInTime` | linux-2.6.35.11/block/deadline-iosched.c:228-327 | over every run: the oldest write, once expired, is passed by at most (writes_starved + 1) * max(1, fifo_batch) dispatches |
| `DeadlineFates.NothingIsLost` | linux-2.6.35.11/block/deadline-iosched.c:76-239 | over every run: a request added is queued in its direction or has gone, to the dispatch queue or into the one it was merged with, never both |
| `DeadlineFates.AddFate` | linux-2.6.35.11/block/deadline-iosched.c:100-113 | an addition queues the request with its direction's expiry; of the others only one at the same sector leaves, to the dispatch queue |
| `DeadlineFates.RepositionFate` | linux-2.6.35.11/block/deadline-iosched.c:156-168 | a front merge gives the request its new sector; of the others only one already there leaves |
| `DeadlineFates.MergeFate` | linux-2.6.35.11/block/deadline-iosched.c:170-189 | of two merged requests one goes, and the one that stays has the earlier of the two expiries |
| `Deadline.CreditStep` | linux-2.6.35.11/block/deadline-iosched.c:245-327 | a dispatched read costs credit that nothing gives back before a write goes |
| `DeadlineLists.ListsAreSound` | linux-2.6.35.11/block/deadline-iosched.c:76-239 | over every run: sorted list and fifo of a direction hold the same requests in their orders, at most one next_rq is set and it is queued, and testing the head of the fifo tests for any expired request |
| `DeadlineLists.AddKeeps` | linux-2.6.35.11/block/deadline-iosched.c:100-113 | adding a request, with an alias dispatched first, keeps the lists sound |
| `DeadlineLists.RepositionKeeps` | linux-2.6.35.11/block/deadline-iosched.c:156-168 | a front merge repositions the request and keeps the lists sound |
| `DeadlineLists.MergeKeeps` | linux-2.6.35.11/block/deadline-iosched.c:170-189 | a merged request takes over the earlier expiry and place and keeps the lists sound |
| `DeadlineLists.DispatchKeeps` | linux-2.6.35.11/block/deadline-iosched.c:245-327 | a dispatch keeps the lists sound |
| `DeadlineLists.AfterIsNext` | linux-2.6.35.11/block/deadline-iosched.c:65-74 | next_rq is the queued request with the next higher sector |
| `DeadlineLists.BestMeetsDeadlines` | linux-2.6.35.11/block/deadline-iosched.c:298-315 | outside a batch the request that expires first goes if any has expired or the scan has ended; otherwise the scan continues |
| `DeadlineQueue.DeadlineData.MoveRequest` | linux-2.6.35.11/block/deadline-iosched.c:206-222 | computes the specified move to the dispatch queue |
| `DeadlineQueue.DeadlineData.AddRqRb` | linux-2.6.35.11/block/deadline-iosched.c:76-84 | the loop dispatches the alias, if any, and then inserts: one turn is enough |
| `DeadlineQueue.DeadlineData.AddRequest` | linux-2.6.35.11/block/deadline-iosched.c:100-113 | computes the specified addition |
| `DeadlineQueue.DeadlineData.MergedRequest` | linux-2.6.35.11/block/deadline-iosched.c:156-168 | computes the specified repositioning |
| `DeadlineQueue.DeadlineData.MergedRequests` | linux-2.6.35.11/block/deadline-iosched.c:170-189 | computes the specified takeover |
| `DeadlineQueue.DeadlineData.SelectRequest` | linux-2.6.35.11/block/deadline-iosched.c:245-317 | computes the specified choice and counters; there is a choice exactly if a request is queued |
| `DeadlineQueue.DeadlineData.DispatchRequests` | linux-2.6.35.11/block/deadline-iosched.c:245-327 | keeps the lists sound and sends what DispatchIs says, or nothing exactly if nothing is queued |
| `DeadlineQueue.DeadlineData.CheckFifo` | linux-2.6.35.11/block/deadline-iosched.c:228-239 | looking at the head alone answers whether any request of the fifo has expired |
| `MergeHash.HashIsScan` | linux-2.6.35.11/block/elevator.c:311-356 | over every run a lookup finds a mergeable sorted request that ends at the sector if and only if there is one, and last_merge is null or a request still sorted and mergeable |
| `MergeHash.CacheFollows` | linux-2.6.35.11/block/elevator.c:522-548 | the cache holds the request merged last; without a merge it is filled only when empty, by the next mergeable request, and emptied exactly when its request leaves or may no longer be merged |
| `MergeHash.LatestIsFound` | linux-2.6.35.11/block/elevator.c:322-328 | of requests with the same end sector a lookup finds the one hashed last |
| `MergeHash.FindInOk` | linux-2.6.35.11/block/elevator.c:342-353 | the search of a bucket drops only what cannot merge, and all of that if it finds nothing |
| `MergeHash.AllFrame` | linux-2.6.35.11/block/elevator.c:522-533 | a front merge needs no rehash: the keys are unchanged |
| `MergeHash.StepKeeps` | linux-2.6.35.11/block/elevator.c:419-548 | every event keeps hash and cache sound |
| `MergeHash.Elevator.Insert` | linux-2.6.35.11/block/elevator.c:652-668 | hashes a mergeable request and fills an empty cache |
| `MergeHash.Elevator.Merged` | linux-2.6.35.11/block/elevator.c:522-533 | rehashes after a back merge, leaves the hash alone after a front merge |
| `MergeHash.Elevator.MergeRequests` | linux-2.6.35.11/block/elevator.c:535-548 | rehashes the one that stays and unhashes the one that goes |
| `MergeHash.Elevator.Dispatched` | linux-2.6.35.11/block/elevator.c:463-475 | unhashes and uncaches the request |
| `MergeHash.Elevator.RqhashFind` | linux-2.6.35.11/block/elevator.c:336-356 | the loop returns what a scan of all sorted requests would |
| `CfqGroups.GroupsAreSound` | linux-2.6.35.11/block/cfq-iosched.c:504-891 | over every run: the tree is in key order, nobody is behind min_vdisktime, which never decreases, and the left cache is null or leftmost |
| `CfqGroups.ServiceIsFair` | linux-2.6.35.11/block/cfq-iosched.c:920-937 | with a fixed busy set the spread of virtual times stays within the larger of its initial value and the largest charge, and so the weighted service of two groups differs by a constant at most |
| `CfqService.ServiceByWeight` | linux-2.6.35.11/block/cfq-iosched.c:504-511 | with a fixed busy set, the service of any two groups over any number of turns is proportional to their weights, up to a bound that depends on the initial spread and the longest slice, and one unit of rounding for each turn of the first |
| `CfqService.HeavierPaysLess` | linux-2.6.35.11/block/cfq-iosched.c:504-511 | a heavier group pays no more for no longer a slice |
| `CfqGroups.ChargeTimesWeight` | linux-2.6.35.11/block/cfq-iosched.c:504-511 | a charge times the weight is the slice in units of the default weight, short by less than the weight |
| `CfqGroups.TurnSpread` | linux-2.6.35.11/block/cfq-iosched.c:920-937 | one turn does not raise the spread above the charge |
| `CfqGroups.ChooseKeeps` | linux-2.6.35.11/block/cfq-iosched.c:2157-2168 | the chosen group has the least virtual time, which becomes min_vdisktime |
| `CfqGroups.StartsLast` | linux-2.6.35.11/block/cfq-iosched.c:851-862 | a new group starts the idle delay behind the last one in the tree, and so behind everyone, or at min_vdisktime if the tree is empty |
| `CfqGroups.ServiceTree.TreeAdd` | linux-2.6.35.11/block/cfq-iosched.c:813-839 | the search finds the place after equal keys and moves the cache exactly if it is leftmost |
| `CfqGroups.ServiceTree.GroupAdd` | linux-2.6.35.11/block/cfq-iosched.c:841-867 | computes the specified addition |
| `CfqGroups.ServiceTree.GroupDel` | linux-2.6.35.11/block/cfq-iosched.c:869-891 | computes the specified removal: one queue less, no longer active, off the tree with its last queue |
| `CfqGroups.ServiceTree.NextGroup` | linux-2.6.35.11/block/cfq-iosched.c:2157-2168 | returns the group with the least virtual time |
| `CfqGroups.ServiceTree.GroupServed` | linux-2.6.35.11/block/cfq-iosched.c:893-937 | charges the group, in inverse proportion to its weight, and puts it back in order; the charge is the slice used, or the whole slice of an async queue with no sync queue beside it, and service is never free; the BUG_ON fires exactly if the busy async and idle queues outnumber the queues |
| `CfqGroups.SliceUsage` | linux-2.6.35.11/block/cfq-iosched.c:893-918 | after its first completion a queue has used the time since then up to its slice; before, the time since its dispatch, and at least a tick |
| `Tags.TagsAreSound` | linux-2.6.35.11/block/blk-tag.c:220-384 | over every run of several queues on one map, half-way operations interleaved: a tag is indexed exactly while one request holds it, its bit is set then, and with no queue half-way bits and index agree; no complaint of the code can arise |
| `Tags.BitStep` | linux-2.6.35.11/block/blk-tag.c:282-384 | every event keeps bit, index and the tags in transit disjoint and complete |
| `Tags.BusyStep` | linux-2.6.35.11/block/blk-tag.c:337-384 | busy lists hold each tagged request once, from the newest start to the oldest |
| `Tags.DepthIsKept` | linux-2.6.35.11/block/blk-tag.c:220-265 | over every run: the depth last asked for, clamped when the map was replaced, is the one in force, and no tag is handed out beyond it |
| `Tags.AsyncLeavesRoom` | linux-2.6.35.11/block/blk-tag.c:351-365 | over every run in which only async requests take tags from a map of fixed depth, at least two: the last tag is free, and from depth three on the last two |
| `TagQueue.GrowIsSafe` | linux-2.6.35.11/block/blk-tag.c:107-127 | every map of the old depth keeps all its tags when it is replaced by a deeper one if and only if twice nr_requests is at least the old depth |
| `TagQueue.GrowStrandsTags` | linux-2.6.35.11/block/blk-tag.c:107-127 | the witness: 64 tags in use, nr_requests 8, new depth 128: the new map has 16 entries, and the request with tag 40 has none of them |
| `TagQueue.CopyKeeps` | linux-2.6.35.11/block/blk-tag.c:255-257 | for one map: all tags in use survive the copy exactly if each is below the depth of the new map |
| `TagQueue.Queue.StartTag` | linux-2.6.35.11/block/blk-tag.c:337-384 | succeeds exactly if a tag within the limit is free and async requests are not throttled, and takes the least such tag; a sync request may have any, an async one none of the last two, or of two the first |
| `TagQueue.Queue.EndTag` | linux-2.6.35.11/block/blk-tag.c:282-316 | gives the tag back and has nothing to complain about; a tag beyond the map leaves the request busy, as after a growth that lost it |
| `TagQueue.Queue.ResizeTags` | linux-2.6.35.11/block/blk-tag.c:220-265 | adjusts the depth within the map, refuses to grow a shared map, otherwise installs one of the clamped depth with what fits copied: the queue is sound afterwards exactly if every tag in use is below that depth, and the copy of the index is longer than the new index exactly if twice nr_requests is below the old depth |
| `TagQueue.Queue.InvalidateTags` | linux-2.6.35.11/block/blk-tag.c:399-405 | gives every tag back and puts the busy requests at the queue head in the order of their starts |

## Left out

* blk-barrier.c: what the device makes of ordered tags, elv_abort_queue, blkdev_issue_flush.
* blk-merge.c: the padding and drain entries of a scatterlist, integrity segments, discards.
* The front merge of SegmentMerge has no method of its own: it mirrors the back merge.
* blk-core.c: request accounting and congestion, batching and starvation of allocators, plugging, timeouts, the barrier proxy in req_bio_endio (its error goes into the sequence, see BarrierSequence), bidirectional requests; requests whose bios are not whole sectors.
* RequestCompletion.Request.UpdateRequest: the segment sizes cached in bios are in SegmentMerge, not here; the request is an fs request, so its sector always moves.
* RequestCompletion.Request.MergeNext: start time, I/O priority and CPU of the joined request are not modelled; the answer of ll_merge_requests_fn is a parameter, and SegmentMerge.Request.TryMergeRequests computes it.
* elevator.c: elv_merge beyond the hash lookup (a second request with the same end is not tried when the first is refused), sysfs registration, the contents of the scheduler ops.
* ElvSwitch: the steps are functions on values, for any interleaving of threads; update in place is not modelled, nor whether schedulers free what they allocated; other uses of q->elevator while a failed switch goes back.
* BarrierSort.StretchesAreSorted: the boundary stays where it is during the run; q->boundary_rq, which holds back its moves, is not modelled.
* deadline-iosched.c: the sector of the last dispatch, tunables that change during a run.
* DeadlineLists.RepositionKeeps: the new sector may be any; that a front merge lowers it is not used.
* cfq-iosched.c: service trees of queues, idling, priorities, cgroup moves, the OOM queue, weight changes, total_weight and count, wrap-around of virtual times.
* CfqGroups.ServiceTree.GroupServed: the saved workload of the group and the statistics are not modelled; ticks do not wrap.
* blk-tag.c: a queue without a map, failed allocations, freeing of maps.
* TagQueue.CopyKeeps: the copy is of the entries that fit; that the code copies all is stated by TagQueue.Queue.ResizeTags.
* TagQueue.Queue.ResizeTags: of a map that does not fit, the entries below the new depth are copied; what becomes of the others in memory is not modelled.
* Tags: the throttle on async requests in flight, which only refuses.
* MergeHash.Bucket: hash_long on 64-bit words; the proofs use nothing about the function but its range.
* algapi.c: replacement of an algorithm by a new one (nalg not NULL), registration, templates, larvals, reference counts of modules; the notifier.
* AlgSpawns.Registry.TakeUsers: the type filter compares the algorithm with itself when there is no replacement, and is not modelled.
* Anubis.Context.InvertSchedule: the encryption schedule is arbitrary; its derivation from the key with T5 and the round constants is not modelled.
* aes_generic.c: alignment and the crypto_tfm flags on a bad key length.
* The rest of the block layer: noop, request functions, partitions, cgroup statistics, drivers.
