# Heap tracker and analysis: a verified model

The repository records a program's allocator calls with their stacks, ships them over a wire, and matches frees
with allocations on the other side. This project models that whole path and proves what it promises.

- **Trie.** Each tracked thread interns stacks into a trie and logs every new frame as (ip, parent, index):
  `Frames`, `TraceTree`, `Writer`, `AllocationWriters`.
- **Translation.** The gatherer replays each thread's log into one global tree and rewrites every instruction,
  keeping only frames it has not seen: `GlobalTree`, `Translation`, `Gathering`, `StreamTheorems`, `TreeIdentity`,
  `Gatherers`.
- **Hand-off.** Threads, gatherer and resolver run concurrently: `Protocol` is a state machine whose steps are
  the points at which the program takes or releases a lock or touches a channel. `ProtocolSafety` holds the
  inductive invariant over all runs; `TrackerTheorems`, `Arrivals`, `Departures`, `Limits`, `Shutdown`,
  `Resolution`, `FrameTimes`, `Progress`, `Watermark`, `Punctuality` and `WireOrder` hold what follows from it.
  `Completion` shows that every run can be completed, and `CompleteRuns` gives one. `Passes` relates a pass of
  the state machine to one call of the gatherer object; `LateData` and `Misattribution` are concrete runs in
  which the documentation is not met.
- **Analysis.** `Reader` turns wire messages into timed batches, `Matcher` pairs frees with allocations,
  `Sharding` relates it to a reference that sees one pointer at a time and to any number of workers,
  `Windows` and `Aggregation` sum the pairs.
- **End to end.** `EndToEnd` composes all of it: from a thread's calls to the verdicts on them.

`TrackTypes` holds the instruction and wire formats, `ThreadStates` the state a thread shares with the gatherer.

## How the parts fit

A frame is a number; the frames of a tree are an append-only log of edges, and `Frames.PathOf` reads the stack of
a frame off the log. This one notion is used for the thread-local trie, for the stream a thread logs, for the
global tree, and for what a receiver rebuilds from the wire. `TrackTypes.Meaning` decodes the allocation events of
a stream against a log, and the translation theorems compare the meaning before and after.

The classes (`TraceTree`, `GlobalTraceTree`, `AllocationWriter`, `Gatherer`, `PointerMatcher`, `TraceReader`,
`WindowGrouper`) are the program's objects, updated in place. Each method's contract ties the new state to a
function on values, and the theorems are about those functions and about the state machine built from them. The
gatherer's contract, for instance, equates its state after a pass with `Process` folded over the events of the
pass, and `Gatherer` is fed what the channel held at each lock as an argument.

## Where the code and its documentation differ

- `push` (track/src/stacktrace.rs:207-221) searches the children of the frame's global parent but inserts into the
  children of node 0; the comment on `global_parent` (line 164) and the documentation of `push` (lines 189-192)
  describe insertion under the frame's own parent. The model has both, as `AsWritten` and `UnderParent`; the
  classes follow the code. As written, a receiver reads for a stack the record chain of the first push of its
  outermost instruction pointer, followed by the rest of the stack: it is the true stack exactly when that first
  push was below the root (`AsWrittenExactly`), and `AsWrittenMisattributes` is a run of the tracker, with two
  threads, in which it is not. With insertion under the parent every stack is exact, unconditionally.
- The children of a global node are documented as sorted by instruction pointer (line 155); the code appends and
  searches linearly, and so does the model.
- `Timestamp` is documented as "all data up to this point has been shipped" (track-types/src/lib.rs:47-48). A
  buffer that a thread has taken but not yet sent when the gatherer holds its lock is not shipped before the time
  is announced; `AnnouncedButNotShipped` is a run in which it happens. For data older than the announced time that
  is the only way to be late, and `WatermarkExactly` says exactly when it occurs. Data stamped with the announced
  time itself can also be late because it was pushed, at an unmoved clock, after its thread was served
  (`AnnouncedTooSoon` is such a run, with no hand-off in flight). `AnnouncedExactly` is the exact condition for all
  data up to and including the announced time.

## Model

| member | source | states |
|---|---|---|
| Frames.WalkSpec | track/src/stacktrace.rs:55-90 | interning a stack keeps the frames a duplicate-free tree with parents numbered below children, and ends on the frame with exactly that stack |
| Frames.NormalReverses | track/src/stacktrace.rs:61-65 | a trace is read from its outermost frame inwards: what is read of a longer trace is what is read of its parts, the later part first |
| Frames.NormalOfOne | track/src/stacktrace.rs:62-65 | null instruction pointers are left out of a stack, and nothing else is |
| TrackTypes.TruncatesAt32Bits | track-types/src/lib.rs:29-33 | trace indices keep their low 32 bits |
| Frames.SessionSpec | track/src/stacktrace.rs:55-90 | over any sequence of requests, every answer ever given still names the frame with the requested null-free stack |
| Frames.SessionInterns | track/src/stacktrace.rs:48-59 | two requests get the same index if and only if their null-free stacks are equal |
| Frames.SessionNullFree | track/src/stacktrace.rs:62-65 | null instruction pointers never become frames: no frame of the trie, whatever was requested, is null |
| Frames.SessionPathSet | track/src/stacktrace.rs:71-84 | the logged frames are exactly the non-empty prefixes of the requested stacks, so the log encodes the whole trie |
| TraceTrees.BinarySearch | track/src/stacktrace.rs:66-69 | finds the child with an instruction pointer, or the position that keeps the children sorted |
| TraceTrees.TraceTree.constructor | track/src/stacktrace.rs:38-45 | an empty trie |
| TraceTrees.TraceTree.Insert | track/src/stacktrace.rs:71-79 | the trie gains exactly the missing edge, which it did not have, numbered next, children still sorted |
| TraceTrees.TraceTree.Child | track/src/stacktrace.rs:66-87 | descends one frame, creating and announcing it if and only if it is new |
| TraceTrees.TraceTree.Index | track/src/stacktrace.rs:55-90 | the loop over a trace reaches the frame of its null-free stack and calls back for exactly the new frames, in order |
| GlobalTree.LookupIs | track/src/stacktrace.rs:207-210 | searching a node's child list is searching the retained records: all of them for node 0 and none elsewhere as written, those with that parent as documented |
| GlobalTree.VectorPushRefines | track/src/stacktrace.rs:206-221 | the vector of child lists represents the retained records before and after a push, with the same answer, for both variants |
| GlobalTree.GlobalTraceTree.constructor | track/src/stacktrace.rs:244-251 | no records and no tables |
| GlobalTree.GlobalTraceTree.ForThread | track/src/stacktrace.rs:254-259 | a thread's table, fresh with the root entry on first use, all other tables kept |
| GlobalTree.GlobalTraceTree.RemoveThread | track/src/stacktrace.rs:261-263 | removes that thread's table only |
| GlobalTree.GlobalTraceTree.FindOrInsert | track/src/stacktrace.rs:206-221 | the search and insertion as written, against the retained records |
| GlobalTree.GlobalTraceTree.PushFrame | track/src/stacktrace.rs:193-225 | panics exactly when the local parent is beyond the table; otherwise appends the answer to the table and keeps all other tables |
| Translation.PushRenders | track/src/stacktrace.rs:193-225 | pushing a frame below one that stands for a stack yields one that stands for the extended stack, in either variant |
| Translation.TranslateAligned | track/src/lib.rs:528-551 | on a self-contained stream translation never panics, and the n-th push of a thread is its frame n: every entry of the table stands for its frame |
| Translation.TranslateAnnounces | track/src/lib.rs:529-551 | the retained records announce each global frame once, in order, before it is used |
| Translation.TranslateMeans | track/src/lib.rs:529-551 | the translated events are the local events with their stacks rendered, in the same order |
| Translation.TranslateKeepsTimes | track/src/lib.rs:529-551 | the times of the allocation events on the wire are those of the buffer, one for one |
| Translation.TranslateSelects | track/src/lib.rs:529-551 | a translated buffer is a selection of the buffer, in order: every allocation event stays, a frame may go, and what stays keeps its time, its kind and what it says of memory or code |
| Gathering.GatherSteady | track/src/lib.rs:524-564 | over any interleaving of deliveries, registrations and removals the gatherer never panics and every live thread's table stays aligned |
| StreamTheorems.StreamAnnounces | track/src/lib.rs:529-558 | on the whole wire the retained records carry indices 1, 2, 3, … with parents below them, and every event refers to 0 or an announced frame |
| FrameTimes.InfosTimed | track/src/lib.rs:529-545 | on the whole wire frame k carries the time of the push with which the gatherer first retained it, over any interleaving |
| StreamTheorems.GatherFaithful | track/src/lib.rs:524-564 | for every thread the wire decodes to the thread's events, stacks rendered, times kept, over any interleaving |
| StreamTheorems.DocumentedPreservesMeaning | track/src/stacktrace.rs:181-225 | with insertion under the parent each event decodes to exactly the stack given to the trie |
| StreamTheorems.RendersExactly | track/src/stacktrace.rs:206-221 | as written, a rendered stack is the true one if and only if its outermost instruction pointer was first announced outermost; the true stack is always its suffix |
| StreamTheorems.AsWrittenExactly | track/src/stacktrace.rs:206-221 | as written, an event carries its own stack if and only if the stack is empty or the first push of its outermost instruction pointer, by any thread, was below the root |
| StreamTheorems.AsWrittenWhenDepthsAgree | track/src/stacktrace.rs:206-221 | as written, all stacks are right when no instruction pointer is pushed both outermost and deeper |
| TreeIdentity.DocumentedIdentifies | track/src/stacktrace.rs:189-192 | documented tree: two pushes, of any two threads and at any two moments of any history, get the same global index if and only if they push the same stack; each thread only has to be live when it is answered |
| TreeIdentity.DocumentedUpdatesOnce | track/src/stacktrace.rs:189-192 | documented tree: in every state of the gatherer `updated` is true if and only if no thread has delivered the pushed stack before |
| TreeIdentity.DocumentedRetainsFirst | track/src/lib.rs:531-543 | inside a buffer too: a frame is retained if and only if its stack was delivered neither in earlier buffers nor earlier in this one |
| TreeIdentity.DocumentedRetainsDistinct | track/src/stacktrace.rs:189-192 | documented tree: the retained records are exactly the distinct delivered stacks, each once |
| Misattribution.AsWrittenMisattributes | track/src/stacktrace.rs:207-221 | a run of the tracker, from the start of two threads to the delivery of their calls, after which the wire as written decodes for the second thread's one call another stack than its own |
| Writer.EncodeSpec | track/src/lib.rs:695-752 | over any sequence of calls a thread's log numbers frames from 1, parents first, rebuilds the trie, and decodes to the calls' events with their null-free stacks |
| Writer.EncodeIsSession | track/src/lib.rs:695-705 | the trie a thread builds is the interner's for the traces of its calls |
| AllocationWriters.TraceBuffer.Push | track/src/lib.rs:803-817 | appends one instruction, stamped not before the previous one, to what is on its way; the buffer is sent, whole, exactly when that fills it |
| AllocationWriters.AllocationWriter.AllocIndex | track/src/lib.rs:695-705 | pushes exactly the records of the new frames, in order, and returns the frame of the trace |
| AllocationWriters.AllocationWriter.PushEvents | track/src/lib.rs:708-752 | the events of a call; a reallocation frees before it allocates |
| AllocationWriters.AllocationWriter.HandleCall | track/src/lib.rs:707-752 | after any calls, everything ever pushed and the trie are what the calls encode to, and what is on its way grew by this call's records |
| AllocationWriters.AllocationWriter.Drop | track/src/lib.rs:755-759 | marks the thread dead and leaves its data alone |
| ThreadStates.Reserve | track/src/lib.rs:806-809 | a vector grows to hold at least what was asked and never shrinks |
| Gatherers.HandleAllIsGather | track/src/lib.rs:361-393 | the events a gatherer object handles are the histories the stream theorems are about |
| Gatherers.HandleAllAsks | track/src/lib.rs:531-543 | over all events the gatherer object asks the resolver for exactly the frames it put on the wire, in order, each with its index, pointer and time |
| Gatherers.Gatherer.RewriteOne | track/src/lib.rs:529-550 | one instruction rewritten, kept or dropped; a symbol is requested for every record kept |
| Gatherers.Gatherer.RewriteAll | track/src/lib.rs:529-551 | the in-place rewriting of a buffer is the translation on values, and fails exactly when that does |
| Gatherers.Gatherer.SendBuffer | track/src/lib.rs:524-564 | translates a buffer and writes one message, or nothing for an empty buffer |
| Gatherers.Gatherer.HandleFlush | track/src/lib.rs:459-462 | a buffer from the channel is delivered as its thread's |
| Gatherers.Gatherer.DrainReceiver | track/src/lib.rs:464-473 | everything waiting in the channel is delivered, in order |
| Gatherers.Gatherer.HandleRegister | track/src/lib.rs:440-457 | the thread joins the list and is announced |
| Gatherers.Gatherer.HandleDetails | track/src/lib.rs:423-438 | a resolved frame is collected, and the batch is written exactly when the vector is full |
| Gatherers.Gatherer.WriteDetails | track/src/lib.rs:404-412 | what was collected goes out in one message stamped with its first frame's time, and the vector is empty |
| Gatherers.Gatherer.Finish | track/src/lib.rs:400-412 | across full batches and the last partial one, every remaining answer is written once, in order |
| Gatherers.Gatherer.TakeBuffer | track/src/lib.rs:487-492 | under the lock the channel is drained before the buffer is swapped for an empty one; no other thread's state changes |
| Gatherers.Gatherer.ShipBuffer | track/src/lib.rs:493-504 | the swapped-out buffer is shipped before a dead thread is retired |
| Gatherers.Gatherer.ServeThreads | track/src/lib.rs:482-508 | the loop with removal serves every thread once, in order, and keeps exactly the live ones |
| Gatherers.Gatherer.HandleBuffers | track/src/lib.rs:476-521 | a pass handles exactly its events in order, empties every buffer, drops the dead, and then announces the time |
| Passes.PassIsHandleBuffers | track/src/lib.rs:476-521 | in the state machine the events from the start of a pass to its end, however it interleaves with threads, resolver and clock, are those of one call of the gatherer object: every thread on the list is served once, in order, exactly the live ones stay, and the time announced is one at which the pass was under way |
| Gatherers.Gatherer.EndPass | track/src/lib.rs:509-518 | the live threads are put back and the time is announced |
| ProtocolSafety.StepInv | track/src/lib.rs:803-817 | every step of any thread, the gatherer or the resolver keeps the invariant: per-thread order, buffer capacity, life cycle, lock ownership |
| ProtocolSafety.RunInv | track/src/lib.rs:361-521 | the invariant holds in every reachable state |
| TrackerTheorems.InstructionsFlow | track/src/lib.rs:464-521 | in every reachable state, shipped ++ carried by the gatherer ++ channel ++ hand ++ shared buffer is everything the thread pushed, in order |
| Arrivals.AcceptedInOrder | track/src/lib.rs:440-457 | in every run the threads accepted so far, followed by those that wait, are those that started, in the order in which they started |
| TrackerTheorems.NeverPanics | track/src/lib.rs:529-549 | in every run the gatherer never indexes out of range, and a live thread's table has one entry per processed record |
| TrackerTheorems.ThreadsLiveInOrder | track/src/lib.rs:440-508 | on the wire every buffer of a thread lies between its single creation and its destruction, after which nothing of it is left anywhere and its table is never recreated; it is created on the wire exactly when it has registered, and destroyed exactly when it has left the list |
| TrackerTheorems.DetailsAreStamped | track/src/lib.rs:404-438 | in every run symbol messages are never empty and carry the time of their first frame |
| Departures.DeadForGood | track/src/lib.rs:755-759 | from the moment a thread exits it is marked dead for good |
| Departures.DeadAreDestroyed | track/src/lib.rs:482-508 | a thread that exited before a pass has, at the end of that pass, been destroyed on the wire, left the list and lost its table, whatever else happens meanwhile |
| Limits.RunBounded | track/src/lib.rs:803-817 | in every reachable state only full buffers are in the channel or in a thread's hand, the channels are within their bounds, and the vector of resolved frames has room |
| Limits.BoundedInNumbers | track/src/lib.rs:186-190 | that is: buffers of at least 1024 instructions, at most 64 of them and at most 64 resolved frames waiting |
| TrackerTheorems.WireDecodesCalls | track/src/lib.rs:524-564 | at every moment a receiver decodes a prefix of the events of the thread's calls, stacks rendered |
| ShutdownTheorems.EverythingDelivered | track/src/lib.rs:395-414 | if every registered thread is settled when the final pass starts, then at the end everything each thread pushed was processed once, in order |
| ShutdownTheorems.StoppedStaysStopped | track/src/lib.rs:649-652 | once tracking is off no thread starts and no call is recorded any more |
| Completion.CanComplete | track/src/lib.rs:395-414 | every run whose final pass has not begun, whatever its threads, the gatherer and the resolver are in the middle of, can be continued, with any registered threads exiting, to an end at which every call made is on the wire and those threads are destroyed |
| Completion.CanFinish | track/src/lib.rs:361-414 | the end of the tracker can be reached from every reachable state |
| CompleteRuns.TwoThreadsComplete | track/src/lib.rs:395-414 | there is a run with two threads, both making calls, to which the end-to-end results apply |
| ShutdownTheorems.DocumentedTraceIsComplete | track/src/lib.rs:395-414 | then, with the documented tree, the wire decodes to exactly the calls each thread made |
| ShutdownTheorems.AsWrittenTraceIsComplete | track/src/lib.rs:395-414 | then, as written, the wire decodes to all calls in order, each stack right if and only if the condition on its outermost frame holds |
| Resolution.RunPipeline | track/src/lib.rs:606-627 | at every step, written ++ collected ++ resolved ++ in work ++ requested is the sequence of announced frames with their times |
| Resolution.EveryFrameResolvedOnce | track/src/lib.rs:395-438 | when the gatherer is done the symbol messages carry exactly the frames 1 to n, in order, each with its pointer and the time of the push that first announced it |
| Progress.OwnersLeaveTheirLock | track/src/lib.rs:811-815 | a thread never waits while it holds its lock |
| Progress.OwnersWaitForGatherer | track/src/lib.rs:803-817 | a thread with work to do waits only for its lock, held by the gatherer, or for room in the channel |
| Progress.GathererLeavesItsLock | track/src/lib.rs:487-492 | nor does the gatherer wait while it holds a lock |
| Progress.IdleServes | track/src/lib.rs:361-393 | between passes exactly those who wait are served: data, registrations, resolved frames; a pass can always start, a final one exactly when the stop was requested |
| Progress.NoDeadlock | track/src/lib.rs:361-414 | in every reachable state before the end, somebody can take a step the program asks for |
| Progress.OwnersAreSequential | track/src/lib.rs:803-817 | a thread can take at most one kind of step at a time; only between calls may it choose, between a call and its exit |
| Progress.GathererIsSequential | track/src/lib.rs:476-521 | outside its choice between passes the gatherer's next step is determined |
| Progress.DrainMovesOn | track/src/lib.rs:400-402 | while the resolver's answers are drained, the gatherer can move, or waits for an answer and the resolver can move |
| Progress.DrainEnds | track/src/lib.rs:397-412 | a count of pending work decreases with every step of the gatherer or the resolver, and no step of anybody else changes it |
| WireOrder.GatherLives | track/src/lib.rs:440-505 | life cycles on the wire follow those of the gatherer's events |
| WireOrder.GatherStamps | track/src/lib.rs:512-518 | timestamps on the wire never decrease and every buffer carries the last announced one |
| Watermark.WatermarkExactly | track/src/lib.rs:476-521 | when a time is about to be announced, everything older has been shipped if and only if the buffer that a thread had in its hand when the gatherer saw the channel empty under its lock has left neither that hand nor the channel; whatever is late is in that buffer |
| Punctuality.AnnouncedExactly | track/src/lib.rs:476-521 | everything stamped up to and including the announced time has been shipped if and only if no such buffer begun by then is in flight and nothing stamped with that time was pushed after its thread was served; each late item is one or the other |
| LateData.AnnouncedButNotShipped | track-types/src/lib.rs:47-48 | a run in which data older than the announced time has not been shipped |
| LateData.AnnouncedTooSoon | track-types/src/lib.rs:47-48 | a run in which data stamped with the announced time has not been shipped although no hand-off is in flight |
| Windows.RoundUpSpec | analyze/src/dataflow.rs:28-30 | rounding is monotone, idempotent and never below its argument, and yields the first window end not before it unless none fits 64 bits |
| Windows.RoundUpExact | analyze/src/dataflow.rs:28-30 | if it takes k whole windows and no fewer to reach a time, the time is rounded to the end of the k-th, or to the largest 64-bit time if that end does not fit |
| Windows.TenSecondWindows | analyze/src/dataflow.rs:25-30 | windows are ten seconds wide and contain their end |
| Matcher.PointerMatcher.OnData | analyze/src/dataflow.rs:200-234 | one batch against the matcher on values, with the window of the batch's time |
| Matcher.PointerMatcher.OnFrontier | analyze/src/dataflow.rs:236-249 | the first empty frontier reports each outstanding allocation once; otherwise the leak capability follows the frontier and never goes back |
| Matcher.PointerMatcher.Activate | analyze/src/dataflow.rs:199-250 | an activation reads all its batches before it looks at the frontier |
| Matcher.MatchFromAppend | analyze/src/dataflow.rs:199-234 | how the stream is cut into batches does not matter |
| Matcher.LeaksOnce | analyze/src/dataflow.rs:195-250 | over the operator's life the output is what the stream calls for plus, once the input is exhausted, each outstanding allocation exactly once |
| Matcher.CapabilityFollows | analyze/src/dataflow.rs:244-249 | until the input is exhausted the leak capability is the highest of the time the operator was built at and the frontiers seen, so it holds nothing downstream back |
| Sharding.StashIsOutstanding | analyze/src/dataflow.rs:203-230 | the stash holds, for each pointer, its last event if that is an allocation |
| Sharding.EmitsVerdict | analyze/src/dataflow.rs:203-230 | what is emitted for an event is decided by the event just before it on the same pointer |
| Sharding.OutputIsJudged | analyze/src/dataflow.rs:199-250 | the whole output, leaks included, is the sum over all pointers of what the reference reports of each |
| Sharding.ShardingIsInvisible | analyze/src/dataflow.rs:189-194 | for any number of workers and any routing of pointers, the workers together report exactly what one matcher would |
| Sharding.RoutingIsInvisible | analyze/src/dataflow.rs:190-192 | in particular when each event goes where its pointer is routed and announcements go to worker 0 |
| Sharding.EachEventReachesOne | analyze/src/dataflow.rs:190-192 | every event reaches exactly one worker, as often as it occurs; announcements of frames go to worker 0 |
| Sharding.OrderAcrossPointersIsInvisible | analyze/src/dataflow.rs:190-192 | the order of events on different pointers does not matter |
| Sharding.EventsAreConserved | analyze/src/dataflow.rs:203-230 | allocations are paired, displaced or outstanding; frees are paired or errors |
| Reader.ReadsAtMessageTimes | analyze/src/dataflow.rs:140-158 | since wire timestamps never decrease, every buffer goes out at exactly its message's timestamp |
| Reader.ReadsForward | analyze/src/dataflow.rs:140-158 | on any wire, in order or not, the capability is the highest timestamp so far, never goes back, and each buffer goes out at it |
| Reader.PiecesReadAtMessageTimes | analyze/src/dataflow.rs:137-167 | so it does however activations cut up the stream |
| Reader.TraceReader.Activate | analyze/src/dataflow.rs:134-183 | takes at most 256 messages in order and ends only when the connection is closed and drained; it runs again at once when it used up its fuel, and later otherwise |
| Aggregation.WindowGrouper.OnData | analyze/src/dataflow.rs:279-290 | keeps updates under the time they arrive at |
| Aggregation.WindowGrouper.OnNotify | analyze/src/dataflow.rs:291-297 | a notification sends on what is kept under its time, once |
| Aggregation.GroupConserves | analyze/src/dataflow.rs:276-299 | at every moment, sent on plus kept is what was received, for counts and bytes of every pair of threads |
| Aggregation.PendingExactly | analyze/src/dataflow.rs:276-299 | data is kept exactly at the times not notified after their last data |
| Aggregation.NotifiesWhatArrived | analyze/src/dataflow.rs:276-299 | a notification sends on, in order and in one piece, exactly what arrived at its time since the last one |
| Aggregation.UpdatesSumIn | analyze/src/dataflow.rs:263-271 | the updates of a pair of threads in a window add up to its matched pairs whose free falls into that window |
| Aggregation.ConsolidatedSum | analyze/src/dataflow.rs:263-275 | consolidation by key and window keeps the totals of every key |
| Aggregation.TotalsConserved | analyze/src/dataflow.rs:263-299 | per window, consolidation delivers the number of a pair of threads' matched pairs and the bytes they freed; the reported counts and sizes add up to all of them |
| EndToEnd.WireIsCalls | track/src/lib.rs:395-414 | after a complete run the wire carries every thread's calls, stacks rendered, at the times at which they were logged |
| EndToEnd.SourceDeliversWire | analyze/src/dataflow.rs:137-158 | for the wire of every run, however the source's activations cut it up, each buffer is delivered at its own timestamp |
| EndToEnd.VerdictsAreOnCalls | analyze/src/dataflow.rs:203-250 | for a pointer that one thread uses, the verdicts are those of matching that thread's calls in program order, one by one, with the times at which the calls were logged and, for a pair, the window of the message that carried the free; what is left outstanding is the last call if it allocates |
| EndToEnd.AlternatingCallsAreClean | analyze/src/dataflow.rs:203-250 | if those calls alternate between allocating and freeing, no worker reports a double allocation or double free of the pointer, and it leaks, once, if and only if the last call allocates |

## Left out

- GatherFaithful, WireDecodesCalls, EncodeSpec and the theorems built on them: hold below 2^32 frames; trace indices travel as 32 bits, and beyond that the truncation, which the model performs, loses them.
- AsWrittenExactly: the condition speaks of the order in which the gatherer performs the pushes, which is what decides it.
- NoDeadlock, CanComplete and CanFinish: steps that can be taken, not fairness; nothing is said about how long the scheduler may put a step off.
- ConsolidatedSum: assumes that differential's consolidation keeps the sum per key and window, which is all that is used of it.
- LeaksOnce: assumes timely's promise that no data follows an empty frontier.
- Stack unwinding and symbol lookup: a trace is any sequence of instruction pointers, nulls allowed and of any length; a resolved frame keeps only its number, pointer and time.
- The callback that returns false in `TraceTree::index`: its only caller always returns true.
- TCP, buffering and the binary encoding: the connection is an append-only sequence of messages.
- Integer widths other than the 32-bit trace index and the 64-bit window arithmetic: pointers, sizes, counts and times are unbounded.
- Registration is one step that announces and unblocks the thread; the condition variable behind it is not modelled.
- Thread start-up and thread-local destruction, re-entrancy, repeated start and stop, and reference counting of `GatherHandle`.
- Threads that push or register while the final pass runs: the completeness theorems ask that every registered thread is settled when it starts.
- The wrapped global allocator, its null results, and how sizes reach the tracker.
- The order in which leaks come out, and one report per window: the grouping operator keys by delivery time and ignores the window.
- The timely times at which the operators emit their output, apart from the leak capability, the source's batches and the grouping by delivery time.
- The period of the ticks: a pass may start at any moment between passes.
- Merging the two output streams, the web server, and the demos.
