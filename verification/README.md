# Braid in Dafny

A model of the runtime of the Braid server framework and proofs of what it keeps. Four parts work
together in the framework and are modelled here: the pooled allocator, the task scheduler, the receive
path of a connection, and the protocol of sessions and I/O operations between worker threads and the
kernel's ring.

Every part that runs on one thread is modelled in the form it has in the source, as classes whose
methods update fields, arrays and queues in place and are proved against functions on values. Every part
that several threads share is, in addition, a state machine in which each queue operation, flag
operation, list-head exchange, ticket draw, kernel completion and handler is one atomic step; a schedule
is an arbitrary list of such steps, and theorems speak of the state after any schedule.

The two views meet in lemmas that make a whole call a run in which only the calling thread moves:
`acquire` and `release` for the allocator, worker calls and submissions for the scheduler, and
`flush_requests` and `request_io` for the I/O protocol. The handlers of a session in place run beside the
handler steps of the protocol machine and agree with them (`ServiceHandlers.dfy`).

| part | files |
|---|---|
| sums over threads and queues | `Sums.dfy` |
| allocator | `PoolMachine.dfy`, `PoolSafety.dfy`, `PoolOperations.dfy`, `PoolBounds.dfy`, `PoolCalls.dfy`, `PoolGrowth.dfy`, `Caching.dfy`, `Pooling.dfy` |
| scheduler | `TaskScheduling.dfy`, `TaskFairness.dfy`, `TaskRunning.dfy`, `TaskMachine.dfy`, `TaskInterleaving.dfy`, `TaskExclusion.dfy`, `TaskRuns.dfy`, `TaskOverlap.dfy`, `TaskDoubleClaim.dfy` |
| receive path | `Framing.dfy`, `ReceiveBuffer.dfy`, `Sessions.dfy`, `Dispatching.dfy`, `Sending.dfy` |
| sessions and I/O | `RoundRobin.dfy`, `IOProtocol.dfy`, `IOFlow.dfy`, `IOTokens.dfy`, `IOPlaces.dfy`, `IOStreams.dfy`, `IOPhases.dfy`, `IOAccepts.dfy`, `IOBalance.dfy`, `IOClosing.dfy`, `IORequests.dfy`, `Services.dfy`, `IODemands.dfy`, `ServiceHandlers.dfy` |

What holds of the code only under a condition is stated with its exact condition: the batch sizes that
never lose a slot (`SafeBatchSizes`), keep the caches low (`LowBatchSizes`) and keep the pool within its
growth bound (`BoundedBatchSizes`), the push that loses a wakeup (`LostWakeupIff`), the runs that keep
tasks of one serializer apart (`RunApartIff`, for single calls `PushOverlapsIff` and `PollOverlapsIff`, and
for the push that opens the way `DoubleClaimIff`), the close that puts a session into two phases
(`CloseKeepsPhaseIff`), the requests that the index check refuses (`DroppedIff`), the writes that drop
bytes (`NothingLostIff`), and the bytes behind which a connection is stuck (`CanStillDeliver`). One way
only: `InterleavedGrowthBound` is stated for the batch sizes that never lose a slot,
`ClaimedOnceKeepsApart` gives callers of the scheduler a rule for whole runs that is enough but not
necessary, and a close with something under way can lose a message (`MessageLost`) but need not.

Where the repository's description and its code disagree, the model follows the code:

- The repository's README.md (line 7) promises that tasks of a session are serialised. The code tests the
  queue for emptiness (`TaskSerializer.cc:14`) while the task popped last is still running
  (`TaskDistributor.cc:46-47`), so a push from another thread starts a second turn
  (`TaskExclusion.TurnsOverlap`), and so does a task that pushes to its own serializer
  (`TaskOverlap.SelfPushLeadsToOverlap`).
- The same push tests and enqueues in two steps (`TaskSerializer.cc:14-15`);
  `TaskInterleaving.LostWakeup` gives a schedule after which a task waits with nobody to run it.
- `batch_steal_from_central` is reached only when the free queue has just been seen empty, so it yields
  something only in a race with another thread (`PoolBounds.StealingRace`).

## Model

| member | source | states |
|---|---|---|
| PoolSafety.EverySlotInOnePlace | braid/src/memory/include/braid/memory/ObjectPool.h:52-178 | in every interleaving of acquire and release by any number of threads each published slot is in exactly one of free queue, callers' hands, one thread's cache or one thread's locals, and no other slot is anywhere |
| PoolSafety.NoSlotTwice | braid/src/memory/include/braid/memory/ObjectPool.h:52-178 | with every batch size, also those that lose slots, no slot is ever in two places |
| PoolBounds.SafeBatchSizes | braid/src/memory/include/braid/memory/ThreadLocalCache.h:50-54 | of the batch sizes that fit the local array, no run loses or copies a slot if and only if the batch less the returned slot fits an empty cache |
| PoolBounds.LowBatchSizes | braid/src/memory/include/braid/memory/ThreadLocalCache.h:37-54 | every run leaves idle caches at or below the threshold if and only if a stolen batch does not lift an empty cache over it |
| PoolBounds.NeverHandedOutTwice | braid/src/memory/include/braid/memory/ObjectPool.h:52-82 | with every batch size, a slot about to be returned is in nobody's use, not poppable, and with no other thread |
| PoolCalls.AcquiredIsNowhereElse | braid/src/memory/include/braid/memory/ObjectPool.h:52-82 | in every reachable state, the slot that acquire returns is in use exactly once, in no queue, not in the caller's cache and with no other thread |
| PoolCalls.BatchesAreRare | braid/src/memory/include/braid/memory/ObjectPool.h:84-95 | in every history of whole calls, between two batch returns of a thread it releases at least as many slots as a batch, or sixteen, or three quarters of its cache and one; with the default sizes sixteen |
| PoolBounds.CachesStayLow | braid/src/memory/include/braid/memory/ThreadLocalCache.h:29-54 | between calls every cache is at or below three quarters, and the push for a full cache happens only with a cache of size zero |
| PoolBounds.GrowthIsExclusive | braid/src/memory/include/braid/memory/ObjectPool.h:121-149 | with every batch size, at most one thread grows; published slots are the linked ones plus the fill index of the one unlinked chunk; the counter equals the linked sum but in the gap between linking and counting |
| PoolBounds.GrowthBound | braid/src/memory/include/braid/memory/ObjectPool.h:52-95 | for every history of whole calls by n threads, with a batch size of at least one or no cache, the slots allocated are at most the first chunk, or the peak in use less one plus three quarters of each other thread's cache plus one chunk |
| PoolBounds.BoundedBatchSizes | braid/src/memory/include/braid/memory/ObjectPool.h:52-95 | every history stays within this bound if and only if the batch size is at least one or the cache size is zero; otherwise one thread's cache hoards what another keeps acquiring |
| PoolGrowth.InterleavedGrowthBound | braid/src/memory/include/braid/memory/ObjectPool.h:52-149 | for every interleaving of atomic steps, the slots allocated are at most the first chunk, or the slots in use or with threads at some moment when a thread saw the queue empty, and one chunk for each thread |
| PoolBounds.CallsAreARun | braid/src/memory/include/braid/memory/ObjectPool.h:52-95 | a history of whole calls is a run of the interleaving machine |
| PoolOperations.AcquireIsARun | braid/src/memory/include/braid/memory/ObjectPool.h:52-82 | the closed form of acquire is reached by steps of the calling thread alone, from every state; the slot it returns is the one in whose memory the run constructs, right before its last step |
| PoolOperations.ReleaseIsARun | braid/src/memory/include/braid/memory/ObjectPool.h:84-95 | likewise for release and its batch return |
| PoolBounds.StealingRace | braid/src/memory/include/braid/memory/ObjectPool.h:55-62 | a schedule of two threads in which a batch is really stolen |
| TaskFairness.DrainRunsEverything | braid/src/task/src/task/TaskDistributor.cc:25-62 | repeated worker calls come to an end; then every queue is empty, every serializer has run what was pushed to it in push order, and every task of every tree has run exactly once |
| TaskFairness.EntryWaits | braid/src/task/src/task/TaskDistributor.cc:25-37 | the entry at position p is the one processed by the call after the next p, whatever tasks push |
| TaskFairness.TaskWaits | braid/src/task/src/task/TaskDistributor.cc:39-62 | the task at depth j of a queue has run, in its place, within j/limit + 1 turns of its serializer |
| TaskFairness.NothingForgotten | braid/src/task/src/task/TaskSerializer.cc:13-25 | on one thread every serializer with tasks stays in the ready queue through calls and submissions |
| TaskInterleaving.QuietMeansDone | braid/src/task/src/task/TaskDistributor.cc:46-61 | under atomic pushes, an empty ready queue and idle threads mean that everything submitted has run, once and in order |
| TaskInterleaving.NoTaskTwice | braid/src/task/src/task/TaskSerializer.cc:13-31 | with all steps split, every task of the submitted trees has started, is queued or is still to be pushed exactly as often as it occurs in them |
| TaskInterleaving.LostWakeupIff | braid/src/task/src/task/TaskSerializer.cc:13-25 | a step forgets a serializer if and only if it enqueues to an empty, uncovered queue on a test that said non-empty |
| TaskInterleaving.AtomicPushesLoseNothing | braid/src/task/src/task/TaskSerializer.cc:14-15 | if test and enqueue are one step, every run keeps each non-empty queue seen to |
| TaskInterleaving.LostWakeup | braid/src/task/src/task/TaskSerializer.cc:14-15 | a schedule of two threads after which a task is queued, nothing is ready and all threads are idle |
| TaskInterleaving.RunToCompletion | braid/src/task/src/task/TaskDistributor.cc:26-62 | in every run no entry assertion fails on any thread, the pointer is set exactly from the entry of a turn to its end, pushes by its tasks included, and each serializer's started tasks followed by its queue are its push history |
| TaskInterleaving.NothingStartsInside | braid/src/task/src/task/TaskSerializer.cc:17-24 | from the pop of a task to its thread's return to the loop, whatever other threads do in between, the thread starts no other task, however many its task pushes, and stays in the same turn |
| TaskInterleaving.InsideNothingStarts | braid/src/task/src/task/TaskSerializer.cc:17-24 | while a thread is inside a task its steps start no task, however many the task pushes, and leave it in the same turn |
| TaskOverlap.RunApartIff | braid/src/task/src/task/TaskDistributor.cc:39-62 | the exact runs: from the start, for any number of threads and any schedule, tasks of one serializer are kept apart at every point if and only if no step pops one beside another |
| TaskOverlap.OverlapIff | braid/src/task/src/task/TaskDistributor.cc:44-47 | the exact step: two threads come to be inside tasks of one serializer if and only if a task is popped while another thread is inside a task of the same serializer |
| TaskOverlap.ClaimedOnceKeepsApart | braid/src/task/src/task/TaskSerializer.cc:14-23 | a rule that is enough: if no push of the run finds the queue of a claimed serializer empty, tasks of one serializer are kept apart throughout |
| TaskDoubleClaim.DoubleClaimIff | braid/src/task/src/task/TaskSerializer.cc:14-23 | the guard a caller can check, exactly: while claims are exclusive and enough threads are idle, a step finds the queue of a claimed serializer empty if and only if some continuation, with no further push of this kind, ends with two threads inside tasks of one serializer |
| TaskOverlap.PushOverlapsIff | braid/src/task/src/task/TaskSerializer.cc:13-25 | from every state: a push from outside any task, with no other thread moving, brings its thread beside another if and only if it finds the queue empty while another thread is inside a task of the serializer |
| TaskOverlap.PollOverlapsIff | braid/src/task/src/task/TaskDistributor.cc:25-47 | from every state: a worker that takes the first ready entry comes to run beside another if and only if that serializer has tasks while another thread is inside one of them |
| TaskOverlap.EntryLeadsToOverlap | braid/src/task/src/task/TaskDistributor.cc:25-62 | an entry anywhere in the ready queue of a serializer with tasks, one of which is running, leads to an overlap by the moves of any idle worker alone |
| TaskOverlap.SelfPushLeadsToOverlap | braid/src/task/src/task/TaskSerializer.cc:13-25 | a task that pushes to its own serializer and finds its queue empty can be overtaken: an idle worker starts the pushed task before the pushing one returns |
| TaskExclusion.TurnsOverlap | braid/src/task/src/task/TaskDistributor.cc:46-47 | a schedule of two threads that are both inside a task of one serializer |
| TaskRuns.WorkerCallIsARun | braid/src/task/src/task/TaskDistributor.cc:25-62 | from every state of the machine, a worker call of the one-thread scheduler is a run in which only its thread moves |
| TaskRuns.SubmitIsARun | braid/src/task/src/task/TaskSerializer.cc:13-25 | from every state of the machine, so is a submission, with the turn that it may start |
| ReceiveBuffer.ChunkingIndependence | braid/src/service/src/service/ServiceSession.cc:58-77 | however any stream is cut into receives that fit, the messages taken out and the bytes left are those of the whole stream |
| ReceiveBuffer.MessagesSurviveChunking | test-client/TestClient.cc:141-157 | encoded messages received in any pieces come out one by one, byte for byte, and leave the buffer empty |
| ReceiveBuffer.MessagesNeverWedge | braid/src/service/src/service/ServiceSession.cc:58-77 | no prefix of messages of at most 4096 bytes, however cut, fills the buffer |
| ReceiveBuffer.CanStillDeliver | braid/src/service/src/service/ServiceSession.cc:60-69 | some continuation that fits the buffer completes a message if and only if the bytes received, however few, are not doomed: fewer than two, or their length, with missing bytes taken as zero, is between a header and the whole buffer |
| ReceiveBuffer.WedgedForGood | braid/src/service/src/service/ServiceSession.cc:60-69 | behind doomed bytes, two of them can be enough, no message is ever taken out again, in however many receives |
| ReceiveBuffer.RoomAfterReceive | braid/src/service/include/braid/net/IOUringObject.h:37-57 | after every receive there is room unless the header in front is bad, and one receive dispatches at most 512 messages |
| Framing.FramesAppend | braid/src/service/src/service/ServiceSession.cc:58-77 | parsing two pieces at once is parsing the first, then its residue with the second behind it |
| Framing.FramesParse | braid/src/service/src/service/ServiceSession.cc:58-74 | messages and residue of any byte stream, malformed ones included, are a parse of it |
| Framing.ParseUnique | braid/src/service/src/service/ServiceSession.cc:58-74 | there is no other parse |
| Framing.StreamRoundTrip | braid/src/service/src/service/ServiceSession.cc:58-77 | messages sent back to back parse to exactly those messages with nothing left over |
| Sending.SendThenReceive | braid/src/service/include/braid/message/SendBuffer.h:21-55 | a header and payload written into a send buffer are one message to the receiving loop, and decode to what was written |
| Sending.NothingLostIff | braid/src/service/include/braid/message/SendBuffer.h:21-53 | a series of writes leaves all its bytes in order if and only if together they fit |
| Sending.WholePieces | braid/src/service/include/braid/message/SendBuffer.h:21-53 | a series of writes leaves a concatenation of whole pieces, exactly those that fit 2048 bytes behind the ones kept before |
| IOStreams.DispatchedIsParsed | braid/src/service/src/net/IOOperationRecv.cc:12-31 | in every such run what a session has dispatched and still buffers is the parse of its stream, up to a completion that has not been handled |
| IOStreams.MessagesArrive | braid/src/service/src/service/ServiceSession.cc:58-77 | in every such run a peer's messages, once arrived and handled, have been dispatched one by one, in order and byte for byte |
| IOStreams.ReceivesAskForBytes | braid/src/service/include/braid/net/IOUringObject.h:57-57 | in every such run the buffer of a peer that sends messages of at most 4096 bytes has room |
| IOStreams.SpansStayCurrent | braid/src/service/src/service/ServiceSession.cc:22-27 | in every polite run the span of each receive, anywhere from its request to its handler, is its session's current free room, and completed bytes are right behind the committed ones and are all that is not consumed |
| IOTokens.AtMostOneReceive | braid/src/service/src/service/ServiceSession.cc:22-77 | over every interleaving in which sessions are closed so (polite), no session is idle twice, none is idle with an operation under way, and none has more than one receive in any queue, ring or handler |
| IOClosing.TwoReceives | braid/src/service/src/service/ServiceSession.cc:79-88 | a run in which a connected session is closed while its receive is in the ring and that ends with two receives of this session |
| IOClosing.MessageLost | braid/src/service/src/service/ServiceSession.cc:79-88 | for every two messages of one size, such a run in which both have arrived and been handled, the first was never dispatched and the second twice |
| IOPhases.ExactlyOnePhase | braid/src/service/src/service/ServiceSession.cc:45-88 | in every run in which only sessions that are neither idle nor accepting are closed, those still receiving included, every session is in exactly one of idle, accepting, connected, closing and accept-failed, and at most once in the idle queue |
| IOPhases.CloseKeepsPhaseIff | braid/src/service/src/service/ServiceSession.cc:79-88 | on_closed keeps its session in one phase if and only if the session is neither idle nor accepting |
| IOAccepts.BacklogHolds | braid/src/service/src/service/Service.cc:17-33 | in every such run, with no accept call pending and a session still idle, at least backlog sessions are accepting or have failed to accept and not been closed since |
| IOPlaces.EveryOperationInOnePlace | braid/src/service/include/braid/service/Service.h:30-38 | in every reachable state an acquired operation is in exactly one place and has one reference, and one that is not acquired is nowhere and has none |
| IOPlaces.GivenBackAfterHandling | braid/src/service/src/net/IOCompletion.cc:6-38 | an operation goes back only at the end of the iteration that took its completion, with its last reference, after its handler and with none waiting anywhere, to the pool of its own kind |
| IOPlaces.NothingDropped | braid/src/service/src/service/Service.cc:46-57 | no operation is refused in any run of up to 2^31 requests |
| IOFlow.StepFlow | braid/src/service/src/thread/WorkerThread.cc:19-29 | for any weights on operations, completions and planned requests, a step changes the total over all threads by exactly what it turns into something else |
| RoundRobin.Balanced | braid/src/service/src/service/Service.cc:46-50 | of the first n tickets before the wrap-around each thread is named by the floor or the ceiling of its share, and which of the two |
| RoundRobin.WindowBalanced | braid/src/service/src/service/Service.cc:46-57 | in any window of consecutive tickets before the wrap-around no thread is named more than one time more than another, and none is refused |
| RoundRobin.DroppedIff | braid/src/service/src/service/Service.cc:46-57 | which requests the index check refuses, for every ticket of the 32-bit counter and every number of threads |
| IOBalance.EveryThreadGetsItsShare | braid/src/service/src/service/Service.cc:46-57 | over every run of up to 2^31 requests, each thread is sent the floor or the ceiling of its share, and which of the two: pushed to its queue, or on their way there |
| IOBalance.AnyPartIsBalanced | braid/src/service/src/service/Service.cc:46-57 | in any part of such a run no thread is sent more than one request more than another |
| IOBalance.RoutedArePushed | braid/src/service/src/service/Service.cc:52-57 | over every run, what is sent to a thread is pushed to its queue once, or still on its way |
| Services.AcceptsAreDealt | braid/src/service/src/service/Service.cc:29-50 | whatever the pool answers, the g-th session that gets an operation listens on thread g modulo the number of threads, in round g divided by it |
| IORequests.FlushIsARun | braid/src/service/src/net/IORequestQueue.cc:58-71 | the loop is a run of the protocol machine |
| Services.RequestIoIsARun | braid/src/service/src/service/Service.cc:46-57 | drawing a ticket and queueing is a run of the protocol machine, for every state and also when the request is refused, and changes nothing else |
| IODemands.ApplicationServed | braid/src/service/src/service/Actor.cc:5-13 | whatever list of sends and closes application code asks for, the moves of its thread acquire one operation of the right kind and session for each, in order, and put it into the queue that its ticket names; no other thread and no session sees anything else |
| IODemands.ReceiveServed | braid/src/service/src/service/ServiceSession.cc:29-43 | likewise what message handlers ask for during a receive, before the next receive is requested |
| IORequests.PhasesInTurn | braid/src/service/src/thread/WorkerThread.cc:19-29 | a worker handles, flushes and runs tasks in this order: tasks only once everything queued is submitted, waiting only with nothing left to do and no operation held |
| PoolSafety.StepKeeps | braid/src/memory/include/braid/memory/ObjectPool.h:52-178 | every atomic step keeps the whole invariant: places, growth lock, chunk accounting, and stealing only with an empty cache |
| PoolSafety.StepConserves | braid/src/memory/include/braid/memory/ObjectPool.h:121-178 | a step changes the number of places of no slot, except that filling a chunk adds its next one |
| PoolSafety.GrowsAlone | braid/src/memory/include/braid/memory/ObjectPool.h:121-149 | while one thread is inside the growth lock no other is, and all unlinked, reserved and uncounted slots are its own |
| PoolSafety.InitKeeps | braid/src/memory/include/braid/memory/ObjectPool.h:30-39 | a new pool satisfies the invariant, whether its first chunk could be allocated or not |
| PoolGrowth.StepPotential | braid/src/memory/include/braid/memory/ObjectPool.h:55-62 | memory and what threads may still add grow only when a thread sees the free queue empty |
| TaskFairness.Drain | braid/src/task/src/task/TaskDistributor.cc:25-37 | calling until the ready queue is empty terminates, stale entries included, and keeps the order of every serializer |
| TaskFairness.WorkerCallCounts | braid/src/task/src/task/TaskDistributor.cc:25-62 | a call neither loses nor doubles a task, runs at most the limit, and runs a task or shortens the ready queue |
| TaskFairness.WorkerCallAdvances | braid/src/task/src/task/TaskDistributor.cc:25-37 | the entries behind the first move up by one, and new ones go behind them |
| TaskFairness.CallsRunAtMost | braid/src/task/src/task/TaskDistributor.cc:44-52 | n calls run at most n times the limit of tasks |
| TaskFairness.TurnGrows | braid/src/task/src/task/TaskDistributor.cc:44-52 | a turn starts tasks in queue order, exactly its budget or until the queue is empty, and pushes by its tasks only add behind |
| TaskScheduling.PushAllInOrder | braid/src/task/src/task/TaskSerializer.cc:13-25 | what a task pushes is, for every serializer, behind what was queued there and in the order pushed |
| TaskMachine.LocalStepOk | braid/src/task/src/task/TaskDistributor.cc:25-62 | every step of every thread keeps the discipline of the thread-local pointer and the order of every serializer |
| TaskExclusion.StepClaims | braid/src/task/src/task/TaskSerializer.cc:13-25 | the claims on a serializer change only by scheduling it anew or by ending a turn with its queue empty |
| TaskExclusion.ExclusiveIff | braid/src/task/src/task/TaskSerializer.cc:14-23 | a step makes a serializer claimed twice, by ready entries and turns together, if and only if it schedules anew one that is still claimed; being claimed once is enough to keep threads apart, not necessary |
| TaskExclusion.ExclusiveKeepsApart | braid/src/task/src/task/TaskDistributor.cc:39-62 | while claims are exclusive no two threads run tasks of one serializer |
| TaskRuns.PushIsARun | braid/src/task/src/task/TaskSerializer.cc:13-25 | a push from inside a task is the one-thread scheduler's push |
| Framing.ResidueHasNoFrame | braid/src/service/src/service/ServiceSession.cc:58-74 | nothing complete is left behind |
| Framing.EncodeRoundTrip | braid/src/service/include/braid/message/MessageHeader.h:6-16 | an encoded message is one frame and decodes to itself |
| Framing.HeaderBytes | braid/src/service/include/braid/message/MessageHeader.h:6-10 | the bytes on the wire: the length of the whole message, then the type in two's complement, four bytes each with the lowest first, then the payload |
| Framing.DecodeRoundTrip | braid/src/service/include/braid/message/MessageHeader.h:6-16 | every frame is the encoding of what it decodes to |
| ReceiveBuffer.ProcessCompleted | braid/src/service/include/braid/net/IOUringObject.h:39-44 | the committed bytes lose exactly their front |
| ReceiveBuffer.Consume | braid/src/service/src/service/ServiceSession.cc:58-74 | the loop leaves exactly the residue committed |
| IOTokens.StepTokens | braid/src/service/src/service/ServiceSession.cc:22-88 | a step moves the phase of a session on or ends it; only on_closed makes a new one |
| IOTokens.CloseKeepsTokensIff | braid/src/service/src/service/ServiceSession.cc:79-88 | on_closed leaves a session with at most one idle entry, accept or receive if and only if it has none before |
| IOTokens.NoCloseIsPolite | braid/src/service/src/service/ServiceSession.cc:79-88 | every run without on_closed, which nothing in the repository calls, is such an interleaving |
| IOPhases.StepPhases | braid/src/service/src/service/Service.cc:59-77 | every step moves a session from one phase to another; only closing an idle or accepting one puts it into two |
| IOPhases.PoliteIsProper | braid/src/service/src/service/ServiceSession.cc:79-88 | closing only sessions with nothing under way is one way to do so |
| IOAccepts.StepSupplied | braid/src/service/src/service/Service.cc:59-77 | every step keeps the supply of accepting and failed sessions |
| IOStreams.StepSound | braid/src/service/src/net/IOOperationRecv.cc:12-31 | every such step of any thread or the kernel keeps all of this |
| IODemands.ApplicationPlans | braid/src/service/src/service/Actor.cc:5-13 | each demand of application code becomes an action that makes the operation of its kind for its session whenever it is run |
| IODemands.ReceivePlans | braid/src/service/src/net/IOOperationRecv.cc:21-31 | the handler of a receive plans the demands of message handlers and then a receive; after an error a close if there is an actor, and otherwise nothing |
| IODemands.ReceiveMakes | braid/src/service/src/service/ServiceSession.cc:22-27 | a receive is requested with the span of all the room, of 4096 bytes, that its session has when it is requested |
| IODemands.AcceptPlans | braid/src/service/src/service/ServiceSession.cc:45-56 | the handler of an accept plans a receive and the next accept, after an error nothing |
| IODemands.AcceptOnePlans | braid/src/service/src/service/Service.cc:73-77 | the accept is requested for the session at the head of the idle queue, which leaves it |
| IODemands.OthersPlanNothing | braid/src/service/src/net/IOOperationClose.cc:19-19 | the handlers of a close and of a send change nothing |
| Services.Incremented | braid/src/service/src/service/Service.cc:47-47 | the wrapping increment of the counter is the next ticket, for every ticket |
| Services.AcceptsCounted | braid/src/service/src/service/Service.cc:29-50 | how many sessions each thread listens for |
| Caching.ThreadLocalCache.TryAcquire | braid/src/memory/include/braid/memory/ThreadLocalCache.h:20-27 | the last slot is taken out; an empty cache gives none |
| Caching.ThreadLocalCache.ExtractBatch | braid/src/memory/include/braid/memory/ThreadLocalCache.h:41-48 | for every buffer size, as many slots as a batch, the buffer and the cache allow come off the end, last slot first, and none is lost or copied between cache and batch |
| Caching.ThreadLocalCache.AddBatch | braid/src/memory/include/braid/memory/ThreadLocalCache.h:50-54 | the objects are kept, in order, while there is room, all of them if and only if they fit; the rest is dropped |
| Pooling.ObjectPool.constructor | braid/src/memory/include/braid/memory/ObjectPool.h:30-39 | the new pool is the machine's initial pool: the slots of the first chunk are queued in address order, or after a failed allocation there is none |
| Pooling.ObjectPool.Acquire | braid/src/memory/include/braid/memory/ObjectPool.h:52-82 | a slot is returned exactly if there is one and its constructor succeeds: the last of the cache, else the head of the queue, else the base of a new chunk; that slot and no other comes into use; pool and cache are those of the closed form |
| Pooling.ObjectPool.Release | braid/src/memory/include/braid/memory/ObjectPool.h:84-95 | null is ignored; otherwise the slot is no longer in use and goes to the cache, or to the queue if the cache is full; then, over three quarters, the least of a batch, sixteen and the whole cache goes back to the queue, last slot first, and the rest stays |
| Pooling.ObjectPool.ObtainSlot | braid/src/memory/include/braid/memory/ObjectPool.h:53-70 | where a call finds its slot, in this order |
| Pooling.ObjectPool.AllocateChunk | braid/src/memory/include/braid/memory/ObjectPool.h:121-149 | a chunk is added exactly when nobody else is adding one and memory is there: its slots, from the first free address on, queued in order, the chunk linked in front, the counter raised by its size and the flag clear again |
| Pooling.ObjectPool.PushSlots | braid/src/memory/include/braid/memory/ObjectPool.h:134-138 | every slot of the chunk is pushed once, in address order |
| Pooling.ObjectPool.RetryPop | braid/src/memory/include/braid/memory/ObjectPool.h:63-69 | the retry loop takes the first slot of the queue or, after its last try, none |
| Pooling.ObjectPool.BatchStealFromCentral | braid/src/memory/include/braid/memory/ObjectPool.h:151-169 | the first of up to a batch of slots is the result, the others go to the cache, for any queue |
| Pooling.ObjectPool.BatchReturnToCentral | braid/src/memory/include/braid/memory/ObjectPool.h:171-178 | the least of a batch, sixteen and the whole cache goes from the end of the cache to the end of the queue, last slot first |
| Pooling.MemoryChunk.GetSlot | braid/src/memory/include/braid/memory/MemoryChunk.h:26-29 | exactly for the indices below the count, the slot at that distance from the base of the chunk |
| TaskRunning.TaskDistributor.constructor | braid/src/task/src/task/TaskDistributor.cc:7-8 | no serializer is ready and turns are of thirty tasks |
| TaskRunning.TaskDistributor.Push | braid/src/task/src/task/TaskSerializer.cc:13-25 | the re-entrant push: outside any task it submits and processes at once, inside one it makes the serializer ready; the current pointer is back to what it was |
| TaskRunning.TaskDistributor.Invoke | braid/src/task/src/task/TaskDistributor.cc:46-47 | a running task pushes its children re-entrantly; they are behind what each queue had, in order |
| TaskRunning.TaskDistributor.RunTurn | braid/src/task/src/task/TaskDistributor.cc:44-52 | the loop with its counter runs one turn of the specification, with the limit of thirty |
| TaskRunning.TaskDistributor.PopFrom | braid/src/task/src/task/TaskSerializer.cc:27-31 | the front task starts, and nothing else changes; an empty queue gives none |
| TaskRunning.TaskDistributor.ProcessTaskSerializer | braid/src/task/src/task/TaskDistributor.cc:39-62 | for running serializers: one turn, then requeued exactly if tasks are left; the entry assertion holds of every call made in the program |
| TaskRunning.TaskDistributor.ProcessNext | braid/src/task/src/task/TaskDistributor.cc:25-37 | a worker's call is the specification's call |
| TaskRunning.TaskDistributor.RunOne | braid/src/task/src/task/TaskDistributor.cc:46-47 | popping and running one task leaves the rest of the turn |
| Dispatching.MessageDispatcher.RegisterHandler | braid/src/service/src/message/MessageDispatcher.cc:12-17 | the first registration of a type wins and no other type changes |
| Dispatching.MessageDispatcher.Dispatch | braid/src/service/src/message/MessageDispatcher.cc:4-10 | the handler of the type is called with the bytes, once, exactly if there is one |
| Dispatching.AllReach | braid/src/service/src/message/MessageDispatcher.cc:4-10 | when every message has a registered type, there is one call for each, in order, of the handler of its type and with all its bytes |
| Sessions.ServiceSession.constructor | braid/src/service/include/braid/net/IOUringObject.h:60-62 | a new session has an empty buffer of 4096 bytes and no actor |
| Sessions.ServiceSession.ProcessCompleted | braid/src/service/include/braid/net/IOUringObject.h:39-44 | the in-place move within the array is the buffer function, bytes behind it included |
| Sessions.ServiceSession.RequestReceive | braid/src/service/src/service/ServiceSession.cc:22-27 | the span requested is exactly the free room |
| Sessions.ServiceSession.OnReceived | braid/src/service/src/service/ServiceSession.cc:58-77 | every message of the received bytes whose type is registered reaches its handler once, with all its bytes, in order, and no other call is made; the residue is left, and the free room is requested |
| Sessions.ServiceSession.HandleReceiveCompletion | braid/src/service/src/net/IOOperationRecv.cc:21-31 | an error asks for a close if there is an actor and changes nothing; success commits, makes exactly the handler calls of OnReceived for committed and new bytes, and receives again, zero bytes included |
| Sessions.ServiceSession.OnAccepted | braid/src/service/src/service/ServiceSession.cc:45-56 | an actor is there afterwards, the free room is requested, and then another session is to listen |
| Sessions.ServiceSession.OnClosed | braid/src/service/src/service/ServiceSession.cc:79-88 | no actor, an empty buffer, and the session goes back to the service |
| ServiceHandlers.HandleReceive | braid/src/service/src/net/IOOperationRecv.cc:21-31 | beside the machine's handler step: buffer and actor stay those of the machine's session, the messages that the step adds are those that reach their handlers, every demand of a handler becomes an operation of its kind, and what is requested is what the thread does next, with the span that the machine captures |
| ServiceHandlers.HandleAccept | braid/src/service/src/net/IOOperationAccept.cc:35-38 | likewise for an accept that has succeeded |
| ServiceHandlers.HandleClosed | braid/src/service/src/service/ServiceSession.cc:79-88 | likewise for on_closed: the session is in the idle queue and the next accept is planned |
| Sending.SendBuffer.Write | braid/src/service/include/braid/message/SendBuffer.h:21-53 | all or nothing: a piece that fits 2048 bytes is appended, any other changes nothing |
| IORequests.IORequestQueue.PushRequest | braid/src/service/src/net/IORequestQueue.cc:50-56 | the operation is queued once exactly if one of eleven attempts succeeds, and is lost otherwise |
| IORequests.IORequestQueue.RequestIo | braid/src/service/src/net/IOOperationClose.cc:10-17 | the operation is behind all others of the ring, and a close leaves nothing unsubmitted |
| IORequests.IORequestQueue.FlushRequests | braid/src/service/src/net/IORequestQueue.cc:58-71 | all queued operations are submitted, in order and behind earlier ones |
| Services.Service.constructor | braid/src/service/src/service/Service.cc:17-33 | after initialize the first sessions, as many as the backlog or all, have left the idle queue in order, and the accepts that the pool had operations for are queued with the threads |
| Services.Service.InitializeThreads | braid/src/service/src/service/Service.cc:65-71 | every thread has a queue of its own, empty |
| Services.Service.RequestIo | braid/src/service/src/service/Service.cc:46-57 | the operation goes to the one thread its ticket names and no other queue changes; the ticket is used up even if the request is refused |
| Services.Service.RequestAcceptOne | braid/src/service/src/service/Service.cc:73-77 | the head of the idle queue leaves it, also when the pool has no operation for it |
| Services.Service.OnSessionClosed | braid/src/service/src/service/Service.cc:59-63 | the closed session goes to the end and the one that waited longest listens |

## Left out

- Message handlers are identities: a handler that writes into the bytes it is given, which would change the header that the loop reads again for `process_completed`, is not modelled; nor is one that runs while another thread handles the same session, since a handler is one step.
- io_uring, sockets, `ServiceBuilder` and the kernel: a ring completes each submitted operation at most once, with a result that is an error or at most the requested length; submission entries are always available.
- `RefCountable` and `IOCompletion` are not classes here: reference counts are the multiset `references` of the machine, and the completion with its adopted reference is the field `held` of a worker until the end of the iteration. Only the references of I/O operations are counted.
- `boost::lockfree::queue` is an unbounded atomic FIFO whose push succeeds, except in `IORequestQueue.PushRequest`; weak memory orderings and reuse of queue nodes are not modelled. A failing allocation of a chunk is a choice of the schedule.
- The local array of `batch_steal_from_central` has sixteen places; a batch above that overflows it in the source and is just longer in the model, so statements for every batch size describe the source up to sixteen.
- One cache per thread and one scheduler are shared by everything: that `static` in headers makes copies per translation unit is not modelled, nor are thread exit and the caches it abandons.
- `TaskSerializer::set_destroy`, `clear` and the reference counts of tasks: only running serializers are modelled.
- TaskRunning.TaskDistributor.ProcessTaskSerializer: leaves out the branch that deletes a destroyed serializer, because `clear` releases tasks whose count is still zero and stale ready entries may point to the deleted object.
- PoolBounds.GrowthBound: takes pool calls as whole steps, because between the steps of several calls the free queue can be seen empty by more than one thread; InterleavedGrowthBound is the bound for atomic steps.
- IOStreams.DispatchedIsParsed: and the theorems of `IOStreams.dfy` and `IOTokens.dfy` about runs assume that `on_closed` comes only when nothing of the session is under way, because they fail for some runs with another close (MessageLost, TwoReceives); nothing in the repository calls `on_closed`.
- IOPhases.ExactlyOnePhase: calls a connected session closing from the acquisition of its close operation to its handler; a close that is only planned does not count yet.
- `IOOperationNop`, partial sends, the order of sends on a connection, and `on_send_failed`, which no operation calls, are left out.
- Payload pieces of the sample server, `LogHandler`, timestamps, thread start and join, and the event loop of the test client are left out.
