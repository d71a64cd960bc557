# CoTra: the algorithms behind the distributed graph search, verified

CoTra answers nearest-neighbour queries on a graph that is spread over the machines of a cluster.  This
project models its self-contained algorithms in Dafny and proves what they are relied on for.

**One query on a ring of core machines** (`SubQueryRing`, `RingTermination`, `RingConservation`,
`RingLiveness`, `RingProgress`, `RingBound`, `RingTightness`, `RingFifo`, `RingFifoExact`, `SingleCore`,
`QueryMsg`, `MessageContents`, `SyncMerge`, `GroupExpansion`, `Multiplicity`).  A query is forked to core
machines; each expands candidates and farms neighbours out.  A machine's counters tell it whether anything
it waits for is outstanding, and a coloured token on the ring tells the leader, after two white circuits,
that nobody has anything left.  A run is any sequence of atomic steps of any machines; a message that is
under way may be taken at any time, in any order.  Counting is exact under any reordering.  The ring is not
safe under any reordering: it needs that all neighbour work a machine's expansions have caused is delivered
before the token returns to that machine.  This assumption is a guard of the model (`DeliveryGuard`); under
it two circuits are safe, one is not, and without it two are not either.  Channels that keep their messages
in order make up for it exactly if there are at most two core machines and no vertices are handed to
helpers.  No neighbour is lost or doubled, whatever the delivery.  From every state some continuation ends
the query, every fair run ends it, and once nothing is left the number of token visits to the end is fixed.
The class in `QueryMsg.dfy` holds the heaps, counters and queues of one machine, contents included, and is
proved to take exactly the steps of the model.

**The MCS tree barrier** (`McsBarrier`).  Each read or write of a shared flag is a step of its own; all
statements hold for any number of threads, any interleaving and any number of episodes: nobody leaves early, and
everybody leaves after a bounded number of steps, spinning aside.

**The ScalaGraph V3 layout** (`IndexImage`, `ScalaLayout`, `ScalaGraph`, `ScalaImage`, `ScalaWriter`,
`ScalaReaders`, `ScalaRoundTrip`).  `IndexImage` is about bytes only: pieces written into slots of files,
with extra bytes behind the slots of other files.  The layout is shown to be such a plan and to fit; the
two-pass writer is proved to produce it byte for byte, headers included, and both readers, on what the
loader takes from a file, to hand out exactly a vertex's neighbours, following offsets into other machines'
files and unpacking ids from 64-bit offsets.

**Smaller parts**: the thread pool's cascading wake-up over any sequence of runs (`ThreadPool`), the
per-thread storage allocator under any interleaving of its atomic accesses (`PtsBackend`), best-first search
(`BestFirst`), the two-block visited hash (`VisitedHash`), sorting a replica shard by owner (`Dispatch`),
its chunked transfer (`ChunkedTransfer`) and the merge of the collected shards (`ShardMerge`).

Where a property turned out not to hold of the code it is stated with the condition under which it does.
With a single core machine a query may end while a NODE_SYNC is under way: its end is clean exactly if there
is none (`SingleCoreTermination`, with the run `SingleCoreLosesNodeSync`).  Merging another machine's results
keeps the ef nearest exactly if the heap is full before or has room for all (`NearestKeptExactly`).  Where the
code aborts, exits the process or, in a rehash that runs out of slots, calls itself on the same table for
ever, methods return a flag or an outcome and say exactly when.

`dafny verify dfyconfig.toml` checks everything.

## Model

| member | source | states |
|---|---|---|
| `RingTermination.CreditCountingExact` | include/anns/scala_search.h:2390-2454 | In every run, messages reordered at will, a machine's counter test succeeds exactly when no read, task, result, node task, forwarded task or computed chunk of its query is outstanding anywhere |
| `RingTermination.IdleTestExact` | include/anns/scala_search.h:2435-2450 | The same for any state that keeps the accounts, by the four counters alone |
| `RingTermination.NoResultMeetsEndedQuery` | include/anns/scala_search.h:2906-2924 | No result of any kind is ever under way to a query that has ended, so both "is END when recv res" aborts are unreachable |
| `RingTermination.RingTerminationSafe` | include/anns/scala_search.h:2653-2698 | In every run that meets the delivery assumption there is exactly one token, held or under way, and once a machine has ended the query every machine is idle and no neighbour is unsent, in flight or unprocessed |
| `RingTermination.TerminationIsQuiet` | include/anns/scala_search.h:2664-2672 | When the leader sees its second success in a row, all machines are white and no neighbour work exists |
| `RingTermination.VisitSecondCircuit` | include/anns/scala_search.h:2674-2688 | Passing the token keeps the argument for the second circuit: it is bound to fail, or everything behind the token is idle for good |
| `RingTermination.StepKeepsStable` | include/anns/scala_search.h:2366-2698 | Every step of every machine that meets the delivery assumption keeps the whole invariant of the ring |
| `RingTermination.StepKeepsBasic` | include/anns/scala_search.h:2366-2698 | Every step keeps the accounts, without any assumption on delivery |
| `RingConservation.NeighboursConserved` | include/anns/scala_search.h:2366-2698 | In every run, whatever the delivery, the neighbour entries found for a machine are those not sent yet, under way to it, queued there, and processed by it, none lost and none doubled |
| `RingConservation.EveryNeighbourProcessed` | include/anns/scala_search.h:2653-2698 | In every run that meets the delivery assumption, once the query has ended every machine has processed all entries ever found for it |
| `SingleCore.SingleCoreTermination` | include/anns/scala_search.h:2692-2697 | With one core machine, in any state before the end: every way to end the query, helpers sending no further NODE_SYNC, leaves nothing of it, if and only if no NODE_SYNC is under way; and there always is such a way |
| `SingleCore.EndsQuietly` | include/anns/scala_search.h:2692-2697 | From any state before the end the query can end with helpers sending nothing more and every NODE_SYNC that is under way still there |
| `SingleCore.QuietHelpersEndClean` | include/anns/scala_search.h:2692-2697 | Where no vertex given to a helper has a neighbour at the core machine the query ends with nothing left, in every run |
| `RingProgress.RingCanAlwaysEnd` | include/anns/scala_search.h:2366-2698 | Whatever a run that meets the delivery assumption has done, some continuation that meets it ends the query, with nothing left: the ring never deadlocks, and the assumption never blocks it |
| `RingProgress.NextLeads` | include/anns/scala_search.h:2366-2698 | As long as something is left there is a step that brings the end nearer: fewer candidates, or as many and less unsent, under way or queued, or a machine nearer to its next test, or the token nearer to a machine that needs it |
| `RingBound.FairRunsEnd` | include/anns/scala_search.h:2366-2698 | Every fair run that meets the delivery assumption ends the query with nothing left: fair means that until the end the machines do not poll for ever, and candidates are accepted a bounded number of times |
| `RingBound.FairRunExists` | include/anns/scala_search.h:2366-2698 | Every run that meets the assumption can be continued as such a fair run |
| `RingBound.RunsAreBounded` | include/anns/scala_search.h:2366-2698 | In every run that meets the assumption the number of steps other than polling is at most a function of the candidates at first and those accepted on the way |
| `RingBound.StepPays` | include/anns/scala_search.h:2366-2698 | Every such step lowers what is still to come, but for what an accepted candidate adds |
| `RingLiveness.RingEnds` | include/anns/scala_search.h:2653-2698 | In every run that meets the delivery assumption: when all machines have started and nothing is left, at most sixteen steps for each machine can end the query, and any continuation has ended it exactly if it has made a fixed number of token visits |
| `RingLiveness.VisitsToTheEnd` | include/anns/scala_search.h:2659-2690 | From there on, whatever the machines do, the query ends exactly with the last of the visits that were left, at most four circuits |
| `RingLiveness.VisitCounts` | include/anns/scala_search.h:2659-2690 | Every token visit is one of those that were left, by the colours of machines and token and last_is_white |
| `RingLiveness.IdleRingCanEnd` | include/anns/scala_search.h:2653-2698 | The machine the token is with or comes to always has a step towards its visit |
| `RingTightness.SingleCoreLosesNodeSync` | include/anns/scala_search.h:2692-2697 | A run, channels in order, in which the query of a single core machine ends with a NODE_SYNC still to come |
| `RingTightness.AssumptionNeeded` | include/anns/scala_search.h:2664-2690 | For any number of core machines above two, and for two with helpers: a run without the delivery assumption, every channel in FIFO order, in which the leader ends the query with a neighbour in flight |
| `RingTightness.OneWhiteCircuitNotEnough` | include/anns/scala_search.h:2668-2674 | For any number of core machines above two: a run that meets the assumption in which the leader's first success comes while a machine has work to do |
| `RingTightness.TerminationReachable` | include/anns/scala_search.h:2668-2672 | For any number of core machines above two: a run that meets the assumption and ends the query, by way of such a premature success |
| `RingTightness.InitialBlackNeeded` | include/anns/query_msg.h:62 | Were the machines white at first, the leader could end the query at its first test |
| `RingFifo.TwoCoreFifoSafe` | include/rdma/rdma_comm.h:347-390 | With two core machines, FIFO channels and no vertices given to helpers, termination is safe without the assumption |
| `RingFifoExact.FifoSafeExactly` | include/rdma/rdma_comm.h:347-390 | Channels that keep order make every run of a ring end with nothing left if and only if it has at most two core machines and no vertices go to helpers |
| `RingFifo.GuardHolds` | include/rdma/rdma_comm.h:362-388 | On two FIFO channels the token never arrives before older work of the machine it goes to |
| `RingFifo.VisitKeepsOrder` | include/rdma/rdma_comm.h:368-385 | Passing the token posts it behind all work its machine has caused |
| `QueryMsgCode.QueryMsg.constructor` | include/anns/query_msg.h:62 | A sub-query starts black, with last_is_white set, the leader holding the token |
| `QueryMsgCode.QueryMsg.DealSync` | include/anns/query_msg.h:166-200 | Dealing with a SYNC joins the results this message carries to the machine's own, touches no candidate, and is the model's arrival step: token, never more candidates than before, its neighbours queued, wake-up |
| `QueryMsgCode.QueryMsg.DealNodeResult` | include/anns/scala_search.h:2906-2924 | A NodeResult raises nocore_post by the tasks it announces and counts as one result |
| `QueryMsgCode.QueryMsg.DealMessage` | include/anns/scala_search.h:3099-3111 | A read, a result or a helper's neighbours are queued with what they carry; heaps and visited set stay |
| `QueryMsgCode.QueryMsg.DrainQueues` | include/anns/scala_search.h:2482-2646 | After emptying the queues exactly the vertices of before and those any message carried have been visited; distances processed are the results carried and one for each new vertex; the results are the ef nearest of before and all of these, the candidates gain what was accepted, and not accepted is only what a full heap had no room for; recv_cnt and nocore_recv rise by just what was there; the machine turns black exactly if something was accepted |
| `MessageContents.NothingLeftOut` | include/anns/scala_search.h:2482-2646 | The queues together bring every vertex and every result the messages carry, whatever the message, each vertex once |
| `MessageContents.DoneEvaluates` | include/anns/scala_search.h:2144-2172 | Whatever distances are processed in turn, the results are the ef nearest of all, and every accepted one is a candidate |
| `MessageContents.BroughtSome` | include/anns/scala_search.h:2482-2646 | Distances to process come only out of messages the ring model counts as work |
| `QueryMsgCode.QueryMsg.PostSubQuerySync` | include/rdma/rdma_comm.h:347-390 | Of the messages posted exactly one is a SYNC to each other core machine, and carries all neighbours there are for it and the accepted candidates within the bound; the token is in the next one's only, and given up by the sender |
| `MessageContents.EveryoneGetsSync` | include/rdma/rdma_comm.h:362-388 | What the ring model posts is a SYNC to every other machine, one each, and nothing else |
| `MessageContents.SyncsFit` | include/anns/vec_buffer.h:122-158 | What the SYNCs carry is what the ring model counts in them |
| `QueryMsgCode.QueryMsg.ExpandCandidates` | include/anns/scala_search.h:2368-2429 | The nearest candidates within the bound, at most CAND_GROUP_SIZE, leave and no other; the vertices to be read are read; sync_msg gains exactly what was found for each machine, and every SYNC_BAR-th group all of it goes to everybody; post_cnt rises by the messages issued |
| `QueryMsgCode.IssuedExactly` | include/anns/scala_search.h:2368-2413 | As many reads, tasks, balance tasks and node tasks are issued as the expansions of the group ask for, and nothing else |
| `QueryMsgCode.CarriesAll` | include/anns/scala_search.h:2368-2413 | Joining a group's findings to sync_msg loses no neighbour and adds none, for any machine |
| `QueryMsgCode.GroupIsEnabled` | include/anns/scala_search.h:2368-2397 | The group taken and what it issues are a step the ring model allows |
| `GroupExpansion.ReaderCounts` | include/anns/scala_search.h:2388-2397 | The reader's result for an own vertex is the number of counted messages of its expansion, and nothing is found for the machine itself |
| `GroupExpansion.LoadIsOwned` | include/index/scala_graph.h:418-482 | What the expansion of a vertex finds for another core machine of the ring are the vertex's neighbours that machine owns, as often as they are listed, and no others |
| `GroupExpansion.ReadsAreNeighbours` | include/index/scala_graph.h:418-482 | What it reads, with what is in its tasks, are the neighbours that other than core machines own, as often as they are listed; a neighbour a core machine owns is never read |
| `QueryMsgCode.QueryMsg.JudgeCircuit` | include/anns/scala_search.h:2659-2676 | The leader ends the query exactly at a success that follows a success |
| `QueryMsgCode.QueryMsg.PassTokenOn` | include/anns/scala_search.h:2677-2690 | The token leaves with the machine's colour, the machine turns white and pauses |
| `QueryMsgCode.QueryMsg.TestAndPassToken` | include/anns/scala_search.h:2434-2697 | The idle test and the token handling together are the model's test step |
| `SyncMerge.UpdateSubQuery` | include/anns/query_msg.h:175-186 | Merging another machine's results keeps as many as there is room for, leaves out only what is no nearer than all results or than the bound of before, touches no candidate and never brings one back within the bound, which the ring model relies on |
| `SyncMerge.NearestKeptExactly` | include/anns/query_msg.h:175-186 | Whatever n results are merged the ef nearest are kept, if and only if the heap is full before or has room for all of them: a heap that fills up on the way judges the rest by the bound of before |
| `SyncMerge.MergeLowersCands` | include/anns/query_msg.h:175-186 | A merge keeps the invariant of the heaps, and the candidates within the bound do not become more |
| `SyncMerge.PostProcCandidate` | include/anns/scala_search.h:2144-2172 | Accepted is what is nearer than the bound, or anything if there is room: the candidates gain exactly this one and the results are the ef nearest of before and this one; otherwise nothing changes and no result is farther |
| `SyncMerge.PopGroup` | include/anns/scala_search.h:2371-2381 | The candidates fall apart into the group and what stays; the group is no farther than what stays and within the bound, and smaller than the maximum only if nothing within the bound stays |
| `SyncMerge.ForkedHeaps` | include/anns/scala_search.h:2253-2310 | The heaps of a forked sub-query meet the invariant: all results, and the machine's share of them as candidates |
| `SyncMerge.FilteredIsGiven` | include/anns/scala_search.h:2253-2298 | No result is lost or given out twice: its owner gets it if that is a core machine, else the leader |
| `SyncMerge.EveryResultIsGiven` | include/anns/scala_search.h:2253-2298 | Summed over the core machines every result is a candidate exactly once |
| `SyncMerge.FullHeapBound` | include/anns/query_msg.h:176-186 | The bound of a full result heap never rises |
| `McsBarrier.Reinit` | coromem/src/barrier_mcs.cpp:33-49 | The node array is filled with the initial flags of both trees |
| `McsBarrier.ReleasedAfterRoot` | coromem/src/barrier_mcs.cpp:72-76 | Down the wake-up tree nobody is released before the root |
| `McsBarrier.RootArrivesLast` | coromem/src/barrier_mcs.cpp:58-67 | Up the arrival tree the root arrives last |
| `McsBarrier.ReleasesFollowArrivals` | coromem/src/barrier_mcs.cpp:56-78 | No thread is released more often than any other has arrived |
| `McsBarrier.StepKeepsInv` | coromem/src/barrier_mcs.cpp:56-78 | Every single flag read or write keeps the invariant that ties both trees and the senses together |
| `McsBarrier.BarrierSafety` | coromem/src/barrier_mcs.cpp:56-78 | For any number of threads, interleaving and reuses no thread leaves wait for an episode before all have entered it |
| `McsBarrier.ResetErasesNoArrival` | coromem/src/barrier_mcs.cpp:62-63 | Resetting childnotready erases the arrival of this episode, never one of the next |
| `McsBarrier.WakeUpNeverOvertaken` | coromem/src/barrier_mcs.cpp:68-76 | When parentsense is written the child has acted on all earlier writes and waits for this one |
| `McsBarrier.BarrierProgress` | coromem/src/barrier_mcs.cpp:56-78 | When all threads are inside wait some thread is not blocked |
| `McsBarrier.EveryoneLeaves` | coromem/src/barrier_mcs.cpp:56-78 | In any stretch of any schedule with more than 41 steps for each thread, spinning not counted, every thread leaves wait |
| `McsBarrier.SomeoneAdvances` | coromem/src/barrier_mcs.cpp:56-78 | There always is a thread whose next step counts |
| `IndexImage.PutPieceKeepsRecord` | include/index/scala_graph.h:1756-1783 | Writing a group changes no byte of another vertex's record |
| `IndexImage.PutPieceKeepsRemote` | include/index/scala_graph.h:1767-1775 | ... and only appends to the remote arrays |
| `IndexImage.VertexCompletes` | include/index/scala_graph.h:1723-1791 | Writing a vertex adds its record and its remote lists to what is complete, whatever the buffers held before |
| `IndexImage.PutHeadKeeps` | include/index/scala_graph.h:1695-1719 | Writing a file's header leaves all records and remote arrays alone |
| `IndexImage.PutPieceKeepsHead` | include/index/scala_graph.h:1744-1783 | Writing a group changes no header |
| `ScalaLayout.IdsReadBack` | include/index/scala_graph.h:1762-1765 | Ids written as little-endian words are the ids a uint32_t pointer sees |
| `ScalaLayout.PartIdsFacts` | include/index/scala_graph.h:1732-1741 | The partitions of a record are those with neighbours, each once, the vertex's own last |
| `ScalaGraph.PrefixSums` | include/index/scala_graph.h:1539-1543 | The prefix sums of the partition sizes |
| `ScalaGraph.JudgePartition` | include/index/scala_graph.h:1545-1550 | The partition that owns a vertex, or -1 for an unknown vertex |
| `ScalaGraph.GetMachineId` | include/index/scala_graph.h:206-213 | For a known vertex the search of the prefix sums finds the owner |
| `ScalaGraph.OwnerUnique` | include/index/scala_graph.h:206-213 | A vertex has only one owner |
| `ScalaGraph.BucketsPartition` | include/index/scala_graph.h:1727-1731 | Sorting neighbours by owner keeps each exactly once |
| `ScalaGraph.TableIsValid` | include/index/scala_graph.h:1623-1655 | Every graph with 1 to 48 neighbours per vertex and at most 64 partitions can be laid out |
| `ScalaImage.RecordFits` | include/index/scala_graph.h:1784-1790 | A record fits into max_deg * 4 + part_num * 2 bytes: the overrun abort is unreachable |
| `ScalaImage.RemoteIsRemoteArea` | include/index/scala_graph.h:1766-1775 | What pass two appends to a remote array are the lists pass one counted |
| `ScalaImage.LayoutFits` | include/index/scala_graph.h:1716-1793 | Slots do not overlap, nothing leaves its slot, and every remote offset is where its list will be |
| `ScalaImage.OffsetFits` | include/index/scala_graph.h:1767-1771 | Remote offsets fit into 64 bits |
| `ScalaWriter.CountNeighbours` | include/index/scala_graph.h:1643-1647 | The neighbours counted per partition are those of the buckets |
| `ScalaWriter.CountRemote` | include/index/scala_graph.h:1640-1655 | Pass one counts the ids each remote array will hold |
| `ScalaWriter.BucketNeighbours` | include/index/scala_graph.h:1727-1731 | nghs holds the neighbours by owner, in list order |
| `ScalaWriter.ListParts` | include/index/scala_graph.h:1732-1741 | part_ids lists the partitions with neighbours, the own one last |
| `ScalaWriter.HeaderOf` | include/index/scala_graph.h:1744-1754 | The 16-bit word or-ed together from flags, shifted partition and number: the parts share no bits and none is cut off |
| `ScalaWriter.WriteOneGroup` | include/index/scala_graph.h:1744-1783 | Header and payload go into the slot, a long list behind the slots of its partition's file, as the layout plans; no other byte changes |
| `ScalaWriter.WriteVertex` | include/index/scala_graph.h:1723-1791 | A vertex's groups are written as the layout plans, and its slot is not overrun |
| `ScalaWriter.Allocate` | include/index/scala_graph.h:1670-1677 | Buffers as large as pass one says |
| `ScalaWriter.WriteHeader` | include/index/scala_graph.h:1694-1715 | The 32 bytes of a file's header |
| `ScalaWriter.WritePartition` | include/index/scala_graph.h:1716-1792 | A partition's vertices are written slot after slot |
| `ScalaWriter.PassTwo` | include/index/scala_graph.h:1674-1806 | Pass two fills every buffer to the last byte: the size abort is unreachable |
| `ScalaWriter.TransferB1ToScalaV3` | include/index/scala_graph.h:1525-1806 | For every valid graph the writer succeeds; its buffers hold the whole layout, each behind a header that describes it |
| `ScalaReaders.HeaderReadBack` | include/index/scala_graph.h:419-423 | The header bytes give back end flag, own flag, partition and number |
| `ScalaReaders.PayloadReadBack` | include/index/scala_graph.h:439-466 | The payload bytes give back the ids or the offset |
| `ScalaReaders.UnpackPack` | include/anns/scala_search.h:2970-2979 | Ids packed into one 64-bit offset are unpacked unchanged |
| `ScalaReaders.TaskQueues.HandGroup` | include/index/scala_graph.h:418-478 | One group goes to the queue its partition calls for, and its credits are counted |
| `ScalaReaders.TaskQueues.GetSubqueryTasks` | include/index/scala_graph.h:418-482 | The walk hands out every group of the record and stops at the end flag; post_cnt is what the queues grew by |
| `ScalaReaders.NodeQueues.HandGroup` | include/index/scala_graph.h:610-703 | The same for a vertex expanded on behalf of another machine |
| `ScalaReaders.NodeQueues.GetNodeTaskMsg` | include/index/scala_graph.h:604-707 | The walk of the second reader; post_cnt is the number of tasks issued |
| `ScalaReaders.NodeQueues.Combine` | include/index/scala_graph.h:651-657 | Or-ing ids shifted by 32 bits each into one number packs them |
| `ScalaRoundTrip.RemoteListAt` | include/index/scala_graph.h:1767-1775 | The list behind a remote offset is the vertex's list for that partition |
| `ScalaRoundTrip.BucketTimes` | include/index/scala_graph.h:1727-1731 | A bucket holds exactly the neighbours its partition owns |
| `ScalaRoundTrip.HandAllGives` | include/index/scala_graph.h:418-482 | The queues gain, per partition and vertex, what the groups hold |
| `ScalaRoundTrip.NodeAllGives` | include/index/scala_graph.h:610-707 | The same for the second reader |
| `ScalaRoundTrip.Expand` | include/index/scala_graph.h:400-482 | Round trip: from files the writer left, the first reader hands every neighbour of a vertex, as often as it is listed, to the partition that owns it and to no other, through SYNC queues for core machines and through reads and tasks for others; post_cnt is what the query then waits for; it fails exactly on a foreign vertex |
| `ScalaRoundTrip.ExpandForOther` | include/index/scala_graph.h:604-707 | Round trip for the second reader |
| `ScalaRoundTrip.HandAllRight` | include/index/scala_graph.h:418-482 | Neighbours at core machines go to SYNC queues, those at others to reads or tasks with a core credit, the own ones to local tasks only |
| `ScalaRoundTrip.HandNodeAllRight` | include/index/scala_graph.h:638-703 | For a vertex expanded for another machine tasks return to that machine and carry a non-core credit |
| `ScalaRoundTrip.FieldsReadBack` | include/index/scala_graph.h:125-131 | The fields of a header are read back |
| `ScalaRoundTrip.LoadIndex` | include/index/scala_graph.h:125-143 | Loading a file the writer left gives the header's fields and exactly the bytes behind it |
| `ScalaRoundTrip.WriteLoadExpand` | include/index/scala_graph.h:400-482 | Writer, loader and first reader in one: whatever the graph, an expanded vertex's neighbours reach the right queues of the machines that own them, and post_cnt is what the query waits for |
| `ScalaRoundTrip.WriteLoadExpandForOther` | include/index/scala_graph.h:604-707 | Writer, loader and second reader in one |
| `ThreadPool.EveryThreadWorksOnce` | coromem/src/threadpool.cpp:107-161 | Over any interleaving of any sequence of runs, whenever mainThread has returned each thread has worked exactly once in every run it takes part in, all wait again, and each had been woken at a level whose power of two is at most the thread number |
| `ThreadPool.EveryRunEnds` | coromem/src/threadpool.cpp:107-161 | A run of num threads takes at most 9 * num steps under any interleaving, and no thread can step exactly when mainThread is not running |
| `ThreadPool.SubtreeStep` | coromem/src/threadpool.cpp:107-146 | A step of any thread of a woken subtree keeps it in order and touches nothing outside of it |
| `ThreadPool.DoneMeansFinished` | coromem/src/threadpool.cpp:111-122 | A woken thread that has reported done has all its range finished |
| `ThreadPool.Halves` | coromem/src/threadpool.cpp:133-143 | Both ranges handed on are at least one logarithm smaller |
| `ThreadPool.SomeoneCanStep` | coromem/src/threadpool.cpp:107-123 | An unfinished subtree always has a thread that can step |
| `ThreadPool.WorkAccount` | coromem/src/threadpool.cpp:148-161 | At any time executions and work still owed add up to the runs a thread takes part in |
| `ThreadPool.Cascade` | coromem/src/threadpool.cpp:125-146 | The code of a cascade, undisturbed, takes a thread from split to work in the model's steps |
| `PtsBackend.AllocatorSafe` | coromem/src/backend.cpp:54-136 | Over every interleaving of atomic accesses live, freed and skipped blocks tile the addresses below nextLoc, none in use or free leaves the storage, all are cache-line aligned |
| `PtsBackend.OwnedBlocksAreSafe` | coromem/src/backend.cpp:54-136 | Two owned blocks never overlap, nor an owned and a free one, and none reaches beyond ptAllocSize |
| `PtsBackend.AnswerIsNewBlock` | coromem/src/backend.cpp:54-115 | Over every interleaving an allocating step answers with the offset of just the block that joins those owned, apart from all of them, or with none and nothing joins |
| `PtsBackend.FreedIsReused` | coromem/src/backend.cpp:54-136 | After a block has been given back an allocation of its size succeeds |
| `PtsBackend.ChangeCovers` | coromem/src/backend.cpp:104-110 | The change of a split block covers exactly its rest |
| `PtsBackend.BumpKeeps` | coromem/src/backend.cpp:62-68 | The fetch-and-add keeps tiling and bound, also when it overshoots |
| `PtsBackend.TakeFreeKeeps` | coromem/src/backend.cpp:79-115 | Taking a free block, split or not, keeps tiling and bound |
| `PtsBackend.GiveBackKeeps` | coromem/src/backend.cpp:122-125 | Taking back the last block keeps the tiling |
| `PtsBackend.PutFreeKeeps` | coromem/src/backend.cpp:133-135 | Putting a block on its free list keeps the tiling |
| `PtsBackend.NextLog2` | coromem/src/backend.cpp:43-52 | The smallest allowed power of two |
| `PtsBackend.PerBackend.AllocOffset` | coromem/src/backend.cpp:54-115 | allocOffset, in unsigned 32-bit arithmetic, answers with the offset of a block that joins the live ones, inside the storage, aligned and apart from all blocks owned before, and keeps the tiling by live and free blocks alone; the exit after deletion is taken exactly if there is no room at the end, and memory is out exactly if in addition all free lists of that size and above are empty |
| `PtsBackend.PerBackend.AllocFree` | coromem/src/backend.cpp:79-115 | The part under the lock: the answer is a block nobody owned, or nothing has changed |
| `PtsBackend.PerBackend.MakeChange` | coromem/src/backend.cpp:104-110 | The loop that makes change lands exactly on the end of the block |
| `PtsBackend.PerBackend.DeallocOffset` | coromem/src/backend.cpp:117-136 | deallocOffset takes the block, and no other, from those owned; it is the specified deallocation; the exit after deletion is taken exactly if the block is not at the end |
| `BestFirst.SearchBaseLayer` | include/anns/scala_search.h:1048-1181 | The search terminates and is best-first: each vertex expanded is the nearest of all evaluated and not expanded before, and within the bound of the ef nearest; evaluated are the entry point and the neighbours of the expanded vertices, all reachable, and no others; the results are the ef nearest of them, all expanded; what is left unexpanded is no nearer than the bound |
| `BestFirst.LocalOptimum` | include/anns/scala_search.h:1048-1181 | A neighbour of a result is a result, or the heap is full and the neighbour no nearer than the bound |
| `BestFirst.Visit` | include/anns/scala_search.h:1107-1181 | One neighbour: evaluated once, considered exactly if it can matter |
| `BestFirst.PushTop` | include/anns/scala_search.h:1153-1176 | Pushing and trimming keeps the ef nearest, and the bound is the farthest of them |
| `VisitedHash.ProbeBlock` | include/anns/hash_table.h:99-114 | The probes of one block find the key, a free slot, or neither |
| `VisitedHash.CheckAndSetIn` | include/anns/hash_table.h:99-120 | Both blocks: the key is reported present exactly if it is in the table, and otherwise put into the slot its search ends at; there is none exactly if all probes in both blocks meet other keys |
| `VisitedHash.SlotTells` | include/anns/hash_table.h:101-119 | A key is in the table exactly if the search for it ends at the key |
| `VisitedHash.NoSlot` | include/anns/hash_table.h:101-122 | A search ends at no slot exactly if both blocks are exhausted |
| `VisitedHash.PutKeeps` | include/anns/hash_table.h:103-107 | Filling a slot keeps every key where a search for it comes |
| `VisitedHash.Rehash` | include/anns/hash_table.h:84-92 | Doubling keeps the set of keys; it fails exactly if, the keys put in one after the other, one finds both blocks exhausted |
| `VisitedHash.OptHashPosVector.DoubleSize` | include/anns/hash_table.h:84-97 | The table is replaced exactly if the number of slots of the doubled table fits into an int and no key finds both blocks exhausted |
| `VisitedHash.OptHashPosVector.CheckAndSet` | include/anns/hash_table.h:79-82 | "Already present" exactly if inserted since the last clear, through spills and doublings; it fails exactly if both blocks are exhausted and so is a rehash, or the size, before there is a slot; failure leaves the set alone |
| `VisitedHash.OptHashPosVector.Clear` | include/anns/hash_table.h:62-71 | Clearing only the first block when the second was not used forgets everything |
| `VisitedHash.OptHashPosVector.GrowAndInsert` | include/anns/hash_table.h:122-127 | Doubling goes on until the key has a slot, exactly unless the size would overflow or a rehash runs out on the way |
| `Dispatch.CountPass` | src/index/disk_utils.cc:1444-1460 | The counts are the sizes of what each machine will be sent; fails exactly on a vertex without neighbours |
| `Dispatch.FillPass` | src/index/disk_utils.cc:1472-1500 | Buffers of the counted size are filled exactly: read as edges between global ids they are those of the vertices the machine owns |
| `Dispatch.CollectReplicaPartition` | src/index/disk_utils.cc:1436-1500 | Both passes together: machine p's words, read back as lists, hold every edge from a vertex p owns to the global id of its neighbour as often as the index lists it, no other edge, and each id as often as the index has it |
| `Dispatch.ShardIsDispatched` | src/index/disk_utils.cc:1472-1500 | The same of the shard the passes are specified by |
| `Dispatch.ShardIsOk` | src/index/disk_utils.cc:1388 | If the local ids ascend, each dispatched shard meets what the merge requires |
| `ChunkedTransfer.FinishedExactly` | include/index/scala_build.h:735-812 | Whatever the interleaving of the senders, what is stored is a prefix of what was dispatched, and the finish test is true exactly when every array has arrived unchanged |
| `ChunkedTransfer.TransferEnds` | include/index/scala_build.h:555-575 | A transfer takes at most two steps per word, and until the finish test succeeds something can be sent or received |
| `ChunkedTransfer.SerializeDispatch` | include/index/scala_build.h:710-733 | The next chunk, never empty; its message fits the buffer, and with one word more it would not |
| `ChunkedTransfer.ProcDispatch` | include/index/scala_build.h:735-754 | A chunk is stored behind what is there |
| `ShardMerge.MergeCollected` | src/index/disk_utils.cc:1538-1672 | From the collected ids and lists to the file: its header states its size in bytes, degree bound and medoid; one record per id of any shard, ids ascending; each a duplicate-free choice from the union of the id's lists, as large as the degree allows; aborts exactly on a vertex without neighbours or degree zero |
| `ShardMerge.InverseMapSorted` | src/index/disk_utils.cc:1541-1555 | The sorted inverse map lists every id of every shard once, in order |
| `ShardMerge.MergeReplicaPartition` | src/index/disk_utils.cc:1576-1663 | The merge itself: records and size as above, and all streams are read to their ends |
| `ShardMerge.Aligned` | src/index/disk_utils.cc:1596-1626 | When a pair is processed its shard's cursor is at that id's list |
| `ShardMerge.ShardInOrder` | src/index/disk_utils.cc:1550-1555 | The sorted pairs name each shard's ids in the shard's own order |
| `ShardMerge.UnionComplete` | src/index/disk_utils.cc:1599-1617 | When a later id comes all lists of the current one have been united |
| `ShardMerge.ReadList` | src/index/disk_utils.cc:1623-1644 | Ids not marked yet are marked and added, the cursor moves behind the list |
| `ShardMerge.Flush` | src/index/disk_utils.cc:1602-1621 | A record is cut from any permutation, and the bitmap is clear again |
| `ShardMerge.CursorsAtEnd` | src/index/disk_utils.cc:1596-1645 | After the last pair every stream has been consumed |

## Left out

- RDMA verbs, completion queues, buffers and credits of the transport: messages are values in a sequence; helper and send buffers count as in flight.
- Weak memory: every atomic access is one sequentially consistent step.
- 32-bit counters: `post_cnt` and its like, cursors and offsets are unbounded, except that remote offsets are shown to fit into 64 bits and doubling of the hash stops before its size overflows.
- The search on the top index before a query is forked, and the choice of core machines by floating-point ratios: any choice that includes the leader.
- The results carried by tasks and their answers: distances come back as whatever the helper computed; the `ef_fill` filter is not modelled, and the bound that filters the candidates in a SYNC is any number until the SYNC_BAR path has set it.
- Heaps in the ring model: candidates within the bound are counted, not named; `QueryMsg` has the heaps, queues and visited set and computes the counts. The visited set is a set; `VisitedHash` is its table.
- `RingBound.FairRunsEnd`: takes the number of accepted candidates as bounded, because the ring model does not name vertices and their visited sets; each machine visits a vertex at most once (`FreshDists`).
- Index files as arrays: the writer's buffers are distinct arrays, their write-out to disk is not modelled.
- Vertices without neighbours in the V3 layout: the writer leaves nothing for them, so at least one neighbour is required.
- Prefetching, profiling, printing, and the lower bound and `ef_fill` fields of compute tasks.
- Exceptions and shutdown in the thread pool, creation and pausing of its threads, and the topology lookup.
- Wrap-around of `nextLoc` when dozens of threads overshoot the end of the storage at the same time, and requests above 2^31 bytes.
- `VisitedHash.Rehash`: does not follow the re-entry of DoubleSize when a rehash itself exhausts both blocks, because it comes to the same key of the same table again and never ends; that is the outcome `ok == false`.
- `ThreadPool.Cascade`: relates only the run that no other thread disturbs to the steps of the model, because the code of a thread is a sequential method.
- `VisitedHash.Probe`: uses the remainder by the block size, which for the powers of two the code uses is its bit mask.
- Distances: any integer function of the vertex; the order among equally distant vertices is left open.
- The algorithms of sort and shuffle in the shard merge: any function that sorts, any family of permutations.
- The meta messages before a chunked transfer: announced counts are the lengths of the dispatched arrays, and ids and neighbours are transferred one after the other as the build barriers order them.
- BFS reordering, label and position maps, the TASK and QueryMsg2 codecs, batched shard top-k, V0 and V2 layouts, filters, k-means and distance kernels: easier, floating point, or duplicates of what is modelled.
