# Persephone, verified

A Dafny model of the scheduling core of Persephone, a kernel-bypass request
scheduler, and of the client that measures it. Seven parts:

1. **The dispatcher/worker protocol** (`Protocol*.dfy`). One net/dispatcher thread and any
   number of workers, interleaved at single loads and stores of the shared slot arrays. A step
   is one store of the source; memory is sequentially consistent. The invariant is kept by every
   step, and the theorems hold over every run. The coroutine of a request is a token with a
   program counter. `ProtocolRuns.dfy` has safety, `ProtocolProgress.dfy` and `ProtocolLiveness.dfy`
   termination and service, `ProtocolLateInit.dfy` and `ProtocolLateInitLoss.dfy` the store of a
   thread that starts late, `ProtocolRing.dfy` the 128-slot inbound ring, and
   `ProtocolScenarios.dfy` runs in which something goes wrong.
2. **The pools and queues below it** (`Mempool.dfy`, `Contexts.dfy`, `TaskQueue.dfy`,
   `NetWorker.dfy`, `Startup.dfy`): classes updated in place, each proved against a mathematical
   sequence or partition.
3. **The LRPC channel** (`Lrpc.dfy`, `LrpcRuns.dfy`, `LrpcEndpoints.dfy`): a single-producer, single-consumer
   ring whose 32-bit counters wrap and whose messages are told apart by a per-lap parity bit. The
   machine has one step per load or store; the two endpoint classes are proved to take its steps.
4. **The scheduler over LRPC** (`PeerMask.dfy`, `Drain.dfy`, `DrainSystem.dfy`, `DrainScenarios.dfy`):
   the request ring, the bitmask of free peers, the drain loop, and the whole system of dispatcher,
   workers and two LRPC channels per worker, interleaved at LRPC's single stores.
5. **The Internet checksum** (`Checksum.dfy`): the 64-bit carry chain against sections 1 and 2 of
   RFC 1071.
6. **Intrusive circular lists** (`Rings.dfy`): link surgery on heap nodes.
7. **The client** (`Client.dfy`, `ClientPlayer.dfy`, `Sampling.dfy`, `Histogram.dfy`,
   `Percentile.dfy`): send accounting, crediting of responses, schedules, down-sampling,
   histograms, their merging and the percentiles read off them.

`Bits.dfy` holds 32-bit wrap-around, masks, XOR, powers of two and sums, `Constants.dfy` the shared
constants. `dafny verify dfyconfig.toml` checks the whole project.

## Results worth knowing

Where a promise of the source fails, the code is modelled as it is. A lemma shows the failing
input and another gives the exact condition.

- Only slot 1 is made ready when a thread starts (`Worker.cc:123`), although the assertion below it
  speaks of the thread's own slot. A slot that is not ready before dispatch is never served
  (`UnreadySlotStarves`). The other protocol theorems hold for any number of workers and any subset
  of ready slots.
- Every thread makes that store to slot 1, however late it starts. A packet is called stranded when it
  arrived and no continuation releases it.
  - Over a published response not yet read, the packet is stranded (`ResponseWiped`).
  - At any other moment no request is ever written into a slot in use if and only if the dispatcher
    never takes a task for slot 1 while its worker is busy or its response unread (`LateInitExact`).
    Once it has, a packet can be stranded: the worker publishes, and the dispatcher's flag store wipes
    the response (`PostingOverStrands`).
  - What can be seen at the moment of the store: with two contexts or more and enough for the waiting
    packets, no continuation with contexts for its waiting packets strands a packet if and only if no
    task is in progress in the slot and no response is unread there (`HarmlessExact`).
  - If the worker publishes first, nothing remains of the store (`PublishedInTime`).
  - With the one worker of the default start-up there is a run in which dispatcher and worker are in
    the slot together, and a continuation that strands the first packet (`LateInitHappens`).
- The batch loop waits for a context that only its own thread could free. Entered with packets
  pending and no context left it never leaves (`ExhaustionIsForever`); otherwise it proceeds
  (`ContextFreeProceeds`). For any number of contexts, packets arriving one to a round while the
  worker stands still get it there without ever filling the inbound ring (`ExhaustionHappens`).
- With a ready slot, every schedule of enough full rounds releases everything that arrived, in exactly
  two dispatches per packet, if and only if it does not end with the batch loop locked
  (`EverythingServed`). As many contexts as unreleased packets are enough for that
  (`EnoughContextsServe`).
- The inbound ring is filled without a test of fullness. Packets are conserved over a run if and only
  if none arrives while 128 are waiting; if one does, a packet is stranded (`RingConservationExact`).
  129 at once are enough (`OverflowHappens`), and 128 in all never do it (`FewFit`).
- `lrpc_send` reports success without sending when the command carries the parity bit
  (`SendCallEffect`): a failed check returns an error code through a `bool`, unless the installed
  failure handler ends the process.
- The request ring's emptiness test compares wrapped counters: it is right exactly while head and
  tail are in the same stretch of 2^32 (`PendingExact`). Once the head count passes such a
  boundary with a request still queued, nothing is dispatched again (`WrapStallsForever`). Serving
  2^32 - 1 requests one at a time gets there from the start (`StallHappens`).
- The histogram's minimum uses zero for "none yet": it is the minimum exactly when no sample is
  zero or the last one is (`MinExact`, and `MergedMinExact` after merging).
- Percentiles are those of the samples as their 32-bit buckets record them
  (`PercentileIsOrderStatistic`), which is as they are exactly below 1000 * 2^32 ns (`RecordedExact`).
- A merged total is that of all samples exactly when no client's own total wrapped (`MergeIsPooled`).
- `check_hist` prints, next to a bucket, the sample at index floor((n - 1) q). That is the order
  statistic the bucket was chosen for exactly when n q's remainder allows it (`CheckIndexExact`).
- The concurrency limit is applied per schedule. If every schedule is left with nothing outstanding,
  the limit holds for all schedules together (`LimitHolds`). If u requests are left, the next
  schedule can exceed it exactly when u and the smaller of limit and schedule length come to more
  than the limit (`CarriedOverExact`, `LimitIsPerSchedule`).
- After a failed packet allocation the client counts the request as sent without a packet at its
  next attempt (`NullSendExact`, `NullSendHappens`).
- The client reads behind the last send time in two places. A round of the send loop does so exactly
  when its clock equals the end time and the iterator is at the end (`OverrunExact`,
  `OverrunHappens`). Leaving a schedule does so, short of that, exactly for schedules of one request
  (`EndReadExact`, `OneRequestStrays`). A whole run stays inside if and only if neither happens
  (`StraysExact`).
- A worker's completion notification decodes to the type and time packed into it exactly when the
  type fits four bits and the time sixty (`NotifExact`).

## Model

| member | source | states |
|---|---|---|
| ProtocolRuns.SlotsExclusive | src/c++/libos/su/dispatch_su.cc:89-117 | in every reachable state dispatcher and worker are never both inside a slot, and the tasks a worker read field by field are exactly the tasks posted to it, in order, at most one behind |
| ProtocolRuns.PostedIsTheLog | src/c++/libos/su/dispatch_su.cc:101-116 | what the slots were ever given is, as a multiset, the log of dequeued tasks: each goes to one slot once |
| ProtocolRuns.PacketsConserved | src/c++/libos/su/dispatch_su.cc:119-145 | over every run each packet that arrived is in exactly one of inbound ring, task queue, one slot and the released set, and is released at most once |
| ProtocolRing.RingConservationExact | src/c++/libos/su/net_su.cc:119-119 | with the ring's 128 slots and its untested store, packets are conserved at every point of a run from a start if and only if none arrives while 128 wait to be read; if one does, some packet is never released in any continuation |
| ProtocolRing.RingIsRun | src/c++/libos/su/net_su.cc:119-119 | short of that the ring behaves as an unbounded one, so every theorem about runs applies |
| ProtocolRing.OverflowHappens | src/c++/libos/su/net_su.cc:119-119 | 129 packets before the dispatcher's first step, whatever the start: one is never released |
| ProtocolRing.FewFit | src/c++/apps/app/psp_app.cc:35-37 | 128 packets in all never overflow the ring |
| ProtocolRuns.NoFaults | include/psp/taskqueue.h:91-131 | over every run no task is dropped, no context allocation rolled back, nothing freed twice or without being held, no dead context resumed; the two pools stay in lockstep |
| ProtocolRuns.ContextsAccounted | include/psp/taskqueue.h:191-216 | the contexts out of the pool are those of the queued tasks, those of the occupied slots and the one in the batch loop's hands, all different, and nothing else |
| ProtocolRuns.QueueWithinContexts | include/psp/taskqueue.h:237-251 | queued tasks never outnumber allocated contexts |
| ProtocolRuns.QueueIsFifo | include/psp/taskqueue.h:91-131 | dispatches so far followed by the waiting tasks only ever grow at the end |
| ProtocolRuns.WaitIsBounded | src/c++/libos/su/dispatch_su.cc:101-106 | the task at position p is dispatched after exactly p more dispatches, whatever arrives or is preempted |
| ProtocolRuns.ServedExactlyTwice | src/c++/libos/common/Worker.cc:132-183 | a released packet was dispatched exactly twice: as the task made for it on arrival, and as that task with category CONTEXT |
| ProtocolRuns.DispatchBudget | src/c++/libos/su/dispatch_su.cc:128-145 | N packets take at most 2N dispatches, and exactly 2N once all are released |
| ProtocolRuns.UnreadySlotStarves | src/c++/libos/common/Worker.cc:121-129 | a slot not made ready before the start reads RUNNING for ever and is never given a task |
| ProtocolLateInit.VacantStore | src/c++/libos/common/Worker.cc:121-129 | made while slot 1 is empty and the dispatcher is not about to mark it so, the late store keeps the invariant |
| ProtocolLateInit.ResponseWiped | src/c++/libos/common/Worker.cc:121-129 | made over a published response the dispatcher has not committed to, it strands the packet: no continuation releases it |
| ProtocolLateInit.LateInitExact | src/c++/libos/common/Worker.cc:121-129 | made at any other moment: over every continuation, no request is written into a slot in use if and only if the dispatcher never dequeues for the slot while its worker is busy or its response unread; until then packets are conserved |
| ProtocolLateInit.PostingOverStrands | src/c++/libos/common/Worker.cc:121-129 | once the dispatcher has dequeued for the slot in use, the worker publishing before the flag store strands the packet |
| ProtocolLateInit.LateInitHarmless | src/c++/libos/common/Worker.cc:121-129 | with no task in progress and no response unread, no request is written into a slot in use and packets are conserved in every continuation |
| ProtocolLateInit.PublishedInTime | src/c++/libos/common/Worker.cc:121-129 | if the slot's worker publishes next, the store leaves no trace |
| ProtocolLateInitLoss.InProgressLoses | src/c++/libos/common/Worker.cc:121-129 | over a task in progress, with two contexts or more and enough for the waiting packets, some continuation strands an arrived packet while contexts suffice |
| ProtocolLateInitLoss.HarmlessExact | src/c++/libos/common/Worker.cc:121-129 | under the same condition, no continuation strands a packet while contexts suffice for the waiting ones, if and only if no task is in progress and no response is unread |
| ProtocolScenarios.LateInitHappens | src/c++/libos/common/Worker.cc:121-129 | a run of the default start-up with one worker in which dispatcher and worker are in the slot together, and a continuation after which the first packet is never released |
| ProtocolRuns.ExhaustionIsForever | src/c++/libos/su/net_su.cc:63-75 | in the batch loop with packets pending and no context left, no later step of anybody changes that |
| ProtocolScenarios.ExhaustionHappens | src/c++/libos/su/net_su.cc:63-75 | for any number of contexts, a run from a start that reaches that state on the ring of 128 slots without overflowing it |
| ProtocolRuns.ContextFreeProceeds | src/c++/libos/su/net_su.cc:63-83 | the batch loop is stuck exactly when all contexts are out; otherwise the round takes the oldest packet |
| ProtocolSteps.CoroutineYieldsOnce | src/c++/libos/common/Worker.cc:150-183 | the request body yields once, at its third round, and the second run exits it |
| ProtocolProgress.StepWorks | src/c++/libos/common/Worker.cc:258-277 | without arrivals every step either changes nothing that matters or strictly lowers the work left |
| ProtocolProgress.WorkRunsOut | src/c++/libos/su/dispatch_su.cc:148-177 | every run without arrivals has a bounded number of productive steps, however scheduled |
| ProtocolLiveness.ScanMeansDone | src/c++/libos/su/dispatch_su.cc:148-177 | after one idle scan every slot is empty, tasks are left only if no slot is ready, packets only if all contexts are out |
| ProtocolLiveness.EverythingServed | src/c++/libos/su/dispatch_su.cc:148-177 | after any run, without more arrivals and with a ready slot, every schedule of enough full rounds releases all packets if and only if it does not end with the batch loop locked; N packets then took exactly 2N dispatches |
| ProtocolLiveness.EnoughContextsServe | src/c++/libos/su/dispatch_su.cc:148-177 | no more unreleased packets than contexts are enough for that |
| Mempools.TakeEffect | include/base/mempool.h:38-45 | an allocation hands out a block nobody holds, or null exactly when none is free, and keeps the partition |
| Mempools.GiveEffect | include/base/mempool.h:52-57 | a free returns exactly the block given and keeps the partition |
| Mempools.HistoryPartitions | include/base/mempool.h:38-57 | over every legal history the blocks held and the free list partition the carved blocks, and a held block is never handed out again |
| Mempools.CarvedBlocks | include/base/mempool.h:97-104 | the carved blocks are distinct, do not overlap and lie inside the buffer |
| Mempools.Mempool.Create | include/base/mempool.h:61-109 | creation succeeds exactly for positive sizes and successful allocations, and then the pool is the fresh partition |
| Mempools.Mempool.Alloc | include/base/mempool.h:38-45 | the object takes the next block of its partition |
| Mempools.Mempool.Free | include/base/mempool.h:52-57 | the object gives a held block back; the assertion of the source holds |
| Contexts.ContextAllocEffect | include/psp/taskqueue.h:191-206 | with the pools in lockstep the rollback is dead, the call succeeds exactly when a context is free, and context and stack are new to everyone |
| Contexts.ContextFreeEffect | include/psp/taskqueue.h:212-216 | freeing a held context gives back it and its own stack and nothing else |
| Contexts.ContextStore.AllocContext | include/psp/taskqueue.h:191-206 | the call does what the function on pools says, the rollback included; a failed call leaves both pools as they were |
| Contexts.ContextStore.FreeContext | include/psp/taskqueue.h:212-216 | stack and context go back to their pools |
| Startup.TaskqueueInit | include/psp/taskqueue.h:259-290 | succeeds exactly when all four pools can be made; then queue nodes, contexts and stacks are 768 * 1024 each, all free |
| Startup.FreshPoolsStart | include/psp/taskqueue.h:237-252 | pools so made are a legal start of the protocol, for any number of workers and ready slots |
| TaskQueues.AppendNode | include/psp/taskqueue.h:103-111 | linking a node behind the tail appends its task to the sequence |
| TaskQueues.DropNode | include/psp/taskqueue.h:118-130 | unlinking the head leaves the rest of the sequence |
| TaskQueues.TaskQueue.NodeCount | include/psp/taskqueue.h:91-131 | one pool node per queued task |
| TaskQueues.TaskQueue.EnqueueTail | include/psp/taskqueue.h:91-112 | the task is appended, or silently dropped exactly when the node pool is empty |
| TaskQueues.TaskQueue.EnqueueHead | include/psp/taskqueue.h:69-89 | the task becomes the first; a store through null exactly when the node pool is empty |
| TaskQueues.TaskQueue.Dequeue | include/psp/taskqueue.h:114-131 | the first task is returned and removed and its node freed, or -1 exactly when there is none |
| NetWorkers.InboundSlot | src/c++/libos/su/net_su.cc:63-65 | the ring index reads the oldest packet, and the loop test sees packets exactly while head and tail are in the same 2^32 stretch |
| NetWorkers.PutExact | src/c++/libos/su/net_su.cc:119-119 | storing one more packet keeps every waiting one readable if and only if fewer than 128 were waiting; otherwise the oldest is replaced |
| NetWorkers.NetWorker.Receive | src/c++/libos/su/net_su.cc:89-122 | ENOMEM exactly for a null packet; otherwise the packet is stored, over the oldest one when 128 are waiting |
| NetWorkers.NetWorker.TakeOne | src/c++/libos/su/net_su.cc:65-82 | one round queues the oldest packet's task with a context nobody held, or changes nothing exactly when no context is free |
| NetWorkers.NetWorker.TakeBatch | src/c++/libos/su/net_su.cc:60-84 | the oldest up to eight packets are queued in order, each with a new context of its own; the loop gets stuck exactly when they outnumber the free contexts, after using those up |
| Lrpc.ParityExact | include/psp/libos/io/lrpc.h:203-210 | the parity test passes if and only if a published message waits at the receive head |
| Lrpc.InitOk | include/psp/libos/io/lrpc.h:69-80 | a channel opens exactly for power-of-two sizes, in a state satisfying the invariant |
| Lrpc.StepKeeps | include/psp/libos/io/lrpc.h:95-110 | every load or store of either end keeps the invariant |
| LrpcRuns.DeliveredIsPrefix | include/psp/libos/io/lrpc.h:200-217 | after any interleaving and any number of counter wraps, what was received is a prefix of what was accepted, command and payload |
| LrpcRuns.CountersNeverCross | include/psp/libos/io/lrpc.h:48-58 | cached tail, published head, receive head and send head keep their order in every reachable state, within one ring size |
| LrpcRuns.NoOverwriteOfUnread | include/psp/libos/io/lrpc.h:52-56 | no store touches a slot holding a message the receiver is not done with |
| LrpcRuns.SlowPathCheckHolds | include/psp/libos/io/lrpc.h:46-46 | the check at the top of the slow path cannot fail |
| LrpcRuns.SendFalseExact | include/psp/libos/io/lrpc.h:48-50 | a send reports full exactly when the ring was full at the load of the published head |
| LrpcRuns.RecvFalseExact | include/psp/libos/io/lrpc.h:223-229 | a receive reports nothing, and lrpc_empty is true, exactly when no published message is unread |
| LrpcRuns.CachedReportsSafe | include/psp/libos/io/lrpc.h:122-151 | cached window and length err only on the safe side, and are exact after polling |
| LrpcRuns.SendCallEffect | include/psp/libos/io/lrpc.h:95-110 | a whole send appends, reports full exactly when size messages are unread, and is refused exactly for a command with the parity bit |
| LrpcRuns.RecvCallEffect | include/psp/libos/io/lrpc.h:200-217 | a whole receive takes the oldest unread message, or leaves the channel alone exactly when there is none |
| LrpcEndpoints.ChanOut.Send | include/psp/libos/io/lrpc.h:41-58 | the egress object's fields and the shared table move as the machine's send does |
| LrpcEndpoints.ChanOut.Push | src/c++/libos/io/lrpc/context.cc:37-42 | EAGAIN exactly when the channel is full, otherwise the payload is sent |
| LrpcEndpoints.ChanIn.Recv | include/psp/libos/io/lrpc.h:200-217 | the ingress object moves as the machine's receive does and returns the delivered message |
| LrpcEndpoints.ChanIn.Pop | src/c++/libos/io/lrpc/context.cc:26-35 | EAGAIN exactly when nothing is unread, otherwise the oldest unread payload |
| LrpcEndpoints.OpenChannel | src/c++/libos/common/Worker.cc:38-72 | both ends over one zeroed buffer match a fresh channel; refused unless the length is a power of two |
| PeerMask.PeersAre | src/c++/libos/su/dispatch_su.cc:183-189 | the list read off a mask has exactly its set bits, each once, ascending |
| PeerMask.TakeLowest | src/c++/libos/su/dispatch_su.cc:185-189 | counting trailing zeros and flipping that bit takes the first peer off the list and no other |
| PeerMask.OrBit | src/c++/libos/su/dispatch_su.cc:60-60 | setting a peer's bit frees that peer and no other |
| PeerMask.AllFree | src/c++/libos/common/persephone.cc:124-124 | 2^n - 1 marks exactly peers 0 to n - 1 free |
| PeerMask.NotifExact | src/c++/libos/common/Worker.cc:92-97 | type and time survive the notification word if and only if the type fits four bits and the time sixty |
| Drain.FullExact | src/c++/libos/su/dispatch_su.cc:75-75 | the fullness test is exact across counter wraps |
| Drain.PushKeeps | src/c++/libos/su/dispatch_su.cc:83-84 | a push overwrites no pending request |
| Drain.PendingExact | src/c++/libos/su/dispatch_su.cc:183-183 | the emptiness test sees pending requests if and only if there are some and head and tail are in the same 2^32 stretch |
| Drain.WrapHidesQueue | src/c++/libos/su/dispatch_su.cc:183-183 | a concrete pair of counters on which it fails |
| Drain.RequestQueue.Push | src/c++/libos/su/dispatch_su.cc:73-87 | a request is dropped exactly when 4096 are pending, otherwise appended with its timestamp |
| Drain.Dispatcher.SignalFreeWorker | src/c++/libos/su/dispatch_su.cc:52-62 | the peer and no other becomes free, and the service time of a well-formed notification goes into the window of its type and no other |
| Drain.RunningMean | src/c++/libos/su/dispatch_su.cc:57-59 | while the service times add up to less than 2^64 the running mean is at most the true mean and at least the smallest service time |
| Drain.Dispatcher.PushNext | src/c++/libos/su/dispatch_su.cc:184-197 | one round: the request at the tail to the lowest free peer, stamped with the clock; a refused push changes nothing but the channel |
| Drain.Dispatcher.DrainQueue | src/c++/libos/su/dispatch_su.cc:181-199 | the oldest min(pending, free) requests go in order to distinct lowest-numbered free peers, whose bits are cleared and no others; none across a 2^32 boundary; it stops short exactly at a free peer whose channel is full |
| DrainSystem.StoreOfPush | include/psp/libos/io/lrpc.h:41-58 | a push to a free peer finds room even on the slow path |
| DrainSystem.NextKeeps | src/c++/libos/su/dispatch_su.cc:52-87 | every step of dispatcher and workers, at LRPC's single stores, keeps the system invariant |
| DrainSystem.OneUnanswered | src/c++/libos/su/dispatch_su.cc:181-199 | over every run a peer has at most one unanswered request, its bit says exactly when it has none, no channel holds more than one message and no push is refused |
| DrainSystem.FifoToPeers | src/c++/libos/su/dispatch_su.cc:181-199 | requests leave the ring in order, each to one peer: a peer's channel carries exactly its share of the oldest requests in order, and it works on what it received |
| DrainSystem.WrapStallsForever | src/c++/libos/su/dispatch_su.cc:183-183 | once the head count passes a multiple of 2^32 with a request queued, no run dispatches another |
| DrainScenarios.OneCycle | src/c++/libos/su/dispatch_su.cc:181-199 | one request enqueued, drained, worked on and answered takes the system from rest to rest |
| DrainScenarios.StallHappens | src/c++/libos/su/dispatch_su.cc:183-183 | for any number of workers, a run from the start after which nothing is dispatched again |
| Checksum.CarryChain | include/asm/chksum.h:30-34 | one add-with-carry keeps the value modulo 2^16 - 1, and sum and carry are never all ones with a carry |
| Checksum.SumChunks | include/asm/chksum.h:23-34 | the 8-byte loop stands for the sum of the 16-bit words it covered |
| Checksum.AddTail | include/asm/chksum.h:36-57 | each tail step adds the 4, 2 or 1 bytes that are left, if any |
| Checksum.Fold | include/asm/chksum.h:59-67 | folding to 16 bits keeps the value |
| Checksum.ChksumInternet | include/asm/chksum.h:19-74 | for every buffer the result is the word-at-a-time one's complement checksum of RFC 1071 |
| Checksum.ByteOrderIndependent | include/asm/chksum.h:9-18 | summing in network order gives the byte-swapped result (section 2 of RFC 1071) |
| Checksum.StoredChecksumVerifies | include/asm/chksum.h:9-18 | with the checksum stored behind an even-length buffer, the checksum of the whole is zero |
| Rings.ListHeadInit | include/base/list.h:150-153 | the head becomes an empty ring |
| Rings.ListEmpty | include/base/list.h:225-228 | true exactly for the empty ring |
| Rings.ListAdd | include/base/list.h:168-175 | both directions of the ring hold the entry followed by the old entries |
| Rings.ListAddTail | include/base/list.h:187-194 | both directions hold the old entries followed by the entry |
| Rings.ListDel | include/base/list.h:244-248 | the entry is removed, wherever it is, and nothing else |
| Rings.ListPop | include/base/list.h:341-350 | the first entry is returned and removed, null exactly for the empty ring |
| Rings.ListAppendList | include/base/list.h:483-498 | the result is the concatenation and the source list is empty, also when either list was empty |
| Rings.ListPrependList | include/base/list.h:513-528 | the same with the moved entries in front |
| Histograms.HistIsStatistics | include/psp/hist.hh:14-34 | after any inserts, count, total modulo 2^64, maximum and every bucket are those of the samples |
| Histograms.MinExact | include/psp/hist.hh:18-20 | the recorded minimum is the minimum if and only if no sample is zero or the last is |
| Histograms.Histogram.InsertValue | include/psp/hist.hh:14-34 | the object's fields follow the function on values |
| Histograms.SizeAhead | src/c++/apps/client/client.hh:377-381 | with all keys below i filled in, the map is larger than i exactly while an original key is ahead |
| Histograms.Histogram.HeaderRow | src/c++/apps/client/client.hh:377-381 | the loop bounded by the map it grows stops at the largest key plus one and prints exactly the non-empty buckets |
| Histograms.Histogram.ValueRow | src/c++/apps/client/client.hh:388-392 | the second loop prints the counts of the same columns, and never ends exactly when the largest 32-bit key is in use |
| Histograms.RowsAreComplete | src/c++/apps/client/client.hh:376-393 | as many values as columns, all positive, columns ascending, values summing to the sample count |
| Percentiles.ChosenOnce | scripts/experiments/loader.py:357-369 | no threshold picks two columns |
| Percentiles.ChosenExists | scripts/experiments/loader.py:357-369 | a threshold picks some column as soon as the columns hold all samples |
| Percentiles.ComputePctls | scripts/experiments/loader.py:345-370 | no report exactly without samples; otherwise minimum, maximum and mean of the row, and a percentile exactly when a column meets its threshold, with that column's middle |
| Percentiles.ReadOff | scripts/experiments/loader.py:351-369 | the pass over the columns with a running count |
| Percentiles.RunningCount | src/c++/apps/client/client.hh:487-534 | the running count at a column is the number of samples in lower buckets |
| Percentiles.PercentileIsOrderStatistic | src/c++/apps/client/client.hh:487-536 | for any samples and any fraction, exactly one column is picked, it holds the order statistic of that rank of the samples as recorded, and its middle is within half a bucket of it |
| Percentiles.RecordedExact | include/psp/hist.hh:31-32 | samples are recorded as they are if and only if all are below 1000 * 2^32 ns |
| Percentiles.CheckIndexExact | src/c++/apps/client/client.hh:491-533 | the sample printed beside a bucket is that order statistic if and only if the remainder is zero or at least the numerator; otherwise it is one rank lower |
| Percentiles.MergeIsPooled | scripts/experiments/loader.py:334-343 | merging gives the count, maximum and bucket counts of all samples together, and their total if and only if no client's own total wrapped |
| Percentiles.MergedMinExact | scripts/experiments/loader.py:334-336 | the merged minimum is that of all samples if and only if a zero sample is reported, or no sample is zero and no row is empty; the client writes no empty rows |
| Percentiles.MergedMinOfRows | scripts/experiments/loader.py:334-336 | on rows with samples: if and only if no sample is zero or some client's last sample is |
| Percentiles.MergedPercentile | scripts/experiments/loader.py:334-370 | on the merged histogram every threshold picks exactly one column, the one holding the order statistic of all samples as recorded |
| Percentiles.Publish | scripts/experiments/loader.py:334-370 | from the clients' histograms to the report: every published percentile is within half a bucket of the order statistic of all samples as recorded, the mean is theirs if and only if no total wrapped |
| Sampling.RanksSpread | src/c++/apps/client/client.hh:50-59 | the picked ranks ascend from the first to the last, neighbours at most a spacing apart |
| Sampling.RankCountBounds | src/c++/apps/client/client.hh:51-59 | with more than n samples between n + 1 and 2n ranks are picked |
| Sampling.RanksBracket | src/c++/apps/client/client.hh:55-59 | every rank lies between two neighbouring picks at most a spacing apart |
| Sampling.PickFrom | src/c++/apps/client/client.hh:55-59 | the loop with its 32-bit counter appends exactly the picked ranks |
| Sampling.SampleInto | src/c++/apps/client/client.hh:30-63 | few samples are all kept; otherwise the picks of a latency order are added; the result is in time order; no samples change nothing; a division by zero exactly when none of some are asked for |
| Client.AttemptsAccounted | src/c++/apps/client/client.hh:235-269 | over every run of every plan attempts are sent plus skipped, the counted in-flight requests respect the limit, and the outstanding ones are those plus the carried-over ones |
| Client.EveryResponseCredited | src/c++/apps/client/client.hh:279-314 | with one response per request and successful allocations, each response completes the one request it answers, sent before and not yet completed, and no request is credited twice |
| Client.NextCredit | src/c++/apps/client/client.hh:283-312 | every response waiting to be read names a sent, uncredited request inside the request vector |
| Client.GenKeeps | src/c++/apps/client/client.hh:143-149 | preparing a request stamps its own index once and packs it |
| Client.SwitchKeeps | src/c++/apps/client/client.hh:316-325 | leaving a schedule, with its read of the next send time, and entering the next keeps ids, indices and outstanding requests in step |
| Client.NullSendExact | src/c++/apps/client/client.hh:143-149 | a round counts a send without a packet if and only if the pending request has none |
| Client.NullSendHappens | src/c++/apps/client/client.hh:237-263 | a run in which that happens after a failed allocation |
| Client.LimitHolds | src/c++/apps/client/client.hh:235-239 | if every schedule is left with nothing outstanding, the requests really outstanding respect the limit over all schedules |
| Client.CarriedOverExact | src/c++/apps/client/client.hh:235-239 | the next schedule can exceed the limit if and only if what is left outstanding plus the smaller of limit and schedule length is more than the limit |
| Client.LimitIsPerSchedule | src/c++/apps/client/client.hh:192-239 | a run of two schedules of two requests, never at an end time, with more outstanding than the limit |
| Client.OverrunExact | src/c++/apps/client/client.hh:138-141 | a round reads behind the last send time if and only if the iterator is at the end, the clock equals the end time and the round does not break off |
| Client.EndReadExact | src/c++/apps/client/client.hh:316-320 | leaving a schedule reads behind the last send time if and only if the iterator is at the end unnoticed, which short of a stray round means a schedule of one request |
| Client.StraysExact | src/c++/apps/client/client.hh:237-320 | a whole run reads inside its schedules if and only if no round strays and every schedule played to its end has at least two requests |
| Client.OneRequestStrays | src/c++/apps/client/client.hh:316-320 | a schedule of one request left without an attempt |
| Client.OverrunHappens | src/c++/apps/client/client.hh:237-237 | a run in which that happens |
| ClientPlayer.Player.GenNextReq | src/c++/apps/client/client.hh:143-149 | the object's fields follow the function on values; failure exactly when a new request gets no packet |
| ClientPlayer.Player.SendPending | src/c++/apps/client/client.hh:117-127 | the pending request goes out and is counted |
| ClientPlayer.Player.GenNextSendTime | src/c++/apps/client/client.hh:138-141 | the next send time is read and the end of the schedule noticed |
| ClientPlayer.Player.Round | src/c++/apps/client/client.hh:237-269 | one round of the send loop is one attempt of the model, and says whether it broke off |
| ClientPlayer.Player.SendDue | src/c++/apps/client/client.hh:235-269 | the send loop terminates and is a run of attempts, ending when none is due, one breaks off or one reads behind the last send time |
| ClientPlayer.Player.TakeAnswers | src/c++/apps/client/client.hh:279-314 | up to eight responses are credited, oldest first, stopping early exactly at one that names no request |
| ClientPlayer.Player.NoteLastSend | src/c++/apps/client/client.hh:316-320 | the read of the last send time when a schedule is left |
| ClientPlayer.Player.Enter | src/c++/apps/client/client.hh:200-213 | the next schedule is entered with its clock offset, end time and counters set |
| ClientPlayer.Player.FinishSchedule | src/c++/apps/client/client.hh:316-325 | leaving one schedule and entering the next is the model's move |
| ClientPlayer.PickCommand | src/c++/apps/client/schedule.hh:76-87 | the type picked is the one whose cumulated share first exceeds the roll; none exactly when no share does |
| ClientPlayer.GenSchedule | src/c++/apps/client/schedule.hh:62-115 | one request per send time, of the type its roll picks and with that type's run time, numbered by its index in the shared vector; times ascend and only the last is past the duration; it aborts only at a roll that picks no type |

## Left out

- Weak memory: the slot arrays and channels are sequentially consistent; acquire and release orderings are not distinguished.
- Dispatcher::dispatch and Worker::main_loop are steps of a machine rather than methods, because the other threads move between their stores.
- `timestamps[]`, `preempt_check[]` and test counters in dispatch and worker code: written, never read by the modelled code.
- Register switching, stack layout and `set_context_link`: a context is a token that is at its entry, yielded or exited.
- How packets are made, DPDK, NIC setup and packet headers: arrivals are arbitrary, each with a packet of its own.
- Termination flags and the benchmark stop condition of the worker loops.
- ProtocolRuns.PacketsConserved: the inbound ring is unbounded there; ProtocolRing.RingConservationExact says when the ring of 128 slots keeps the theorem. The shipped setting creates 100 packets; the setting -1 has no such bound.
- ProtocolLateInitLoss.HarmlessExact: requires two contexts or more and enough for the waiting packets at the moment of the store. Continuations whose waiting packets outnumber the contexts are not held against the store, because the batch loop may lock up there without it.
- ProtocolLateInit.LateInitExact: says when slots are shared; what becomes of a packet posted over depends on the schedule, and ProtocolLateInit.PostingOverStrands gives one that strands it.
- NetWorkers.NetWorker.TakeBatch: a batch that cannot end is followed to the first round without a context.
- Mempools.Mempool.Create: the product of the two sizes must fit an int; signed overflow is not modelled.
- TaskQueues.TaskQueue.EnqueueHead: a store through null is reported and followed no further.
- `naive_tskq_dequeue`, `smart_tskq_dequeue` and `get_queue_timestamp`: wrappers over the dequeue modelled.
- Drain.Dispatcher.SignalFreeWorker: the order of request types and the use made of the means are left out.
- Drain.Dispatcher.DrainQueue: a loop that cannot end is followed to the first refused push; DrainSystem.OneUnanswered shows there is none in any run.
- DrainSystem.OneUnanswered: peers are numbered without the 32-bit bound of the mask.
- Checksum.ChksumInternet: negative lengths are outside the model.
- The hlist and slist functions, `list_del_from`, the debug checks and the iteration macros of `include/base/list.h`.
- Histogram samples are 64-bit nanoseconds; only the 32-bit bucket key, total and count wrap.
- Percentiles.PercentileIsOrderStatistic: thresholds are exact fractions, not floating point.
- Percentiles.ComputePctls: a mean without samples, a division by zero in the script, is reported as NoSamples.
- Percentiles.MergeIsPooled: sums of the merged row are unbounded.
- Histograms.Histogram.ValueRow: a loop that never ends is followed once round.
- `log_throughput`, per-type splitting and output formatting of the client and the scripts.
- Sampling.SampleInto: requires fewer than 2^31 samples, where the source would overflow its spacing; the library sort is any sorted permutation.
- Client.EveryResponseCredited: assumes that a server answers every request at most once and that allocations succeed; Client.NullSendExact says what a failed one does.
- ClientPlayer.Player.SendDue: a loop that has read behind the last send time is followed no further.
- ClientPlayer.Player.TakeAnswers: a response that names no request is followed no further.
- ClientPlayer.GenSchedule: random intervals and rolls are parameters, rolls and ratios exact reals; intervals must add up to more than the duration; a run time is given for every type.
- The outer loop of `play_schedule`, whose length depends on the clock: its rounds are moves of module Client in any order.
- Client counters are unbounded; the source keeps them in 32 bits.
- YAML parsing, DARC fields, RocksDB and fake-work bodies, slab and page allocation, hash functions, TSC calibration.
