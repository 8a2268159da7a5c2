# EventPush, modelled and proved in Dafny

EventPush is a push gateway.  A publish appends an event to a bounded store, fans it
out to one bounded writer per subscribed session, and commits a cursor; a client that
comes back has the events it missed replayed ahead of live traffic.  Almost all of it
is in-memory state behind locks.

The model has three layers.

* **Objects.**  The types whose methods update fields in the source are classes here
  (`BoundedWriter`, `Session`, `Tracker`, `Limiter`, `Ring`, `Store`, `Cursor`,
  `RefCounter`, `Registry`, the heap trie `Tree`, `TopicRegistry`, `SessionRegistry`,
  `Evictor`, `Heartbeat`, `Resumer`, `Fanout`, `Broker`), each method proved against a
  function of the old state.
* **Step machines.**  Where threads interleave, every region under a lock, channel
  operation and transport call is one step of `Apply`, and `Run` takes any sequence of
  steps by any number of threads.  A step whose guard is false changes nothing (the
  thread waits), and a panic is an explicit fault, so a theorem about `Run` is a theorem
  about every interleaving.
* **Theorems** over all runs, all histories of calls or all inputs, and lemmas that tie
  a machine's undisturbed run to the call of the object
  (`WriterMachine.ShutdownAlone`, `DeliveryMachine.OneDeliveryIsDeliverAmid`,
  `ReplayRefinement.SessionIsTheMachine`, `GatewayModel.PublishAlone`).

| file | source it models |
|---|---|
| `Types.dfy` | the domain types |
| `Writer.dfy` | internal/session/writer.go, internal/session/backpressure.go |
| `SessionGate.dfy` | the session lock and state around the writer |
| `Session.dfy`, `Delivery.dfy`, `ReplayWindow.dfy` | internal/session/session.go |
| `SessionRuns.dfy`, `ReplayRefinement.dfy` | the same, over every series of calls on one session |
| `Ack.dfy` | internal/ack/ack.go |
| `Limiter.dfy` | internal/flow |
| `Resume.dfy` | internal/resume |
| `EventStore.dfy` | internal/event |
| `Membership.dfy`, `TopicPath.dfy`, `TopicTree.dfy`, `TopicRegistry.dfy` | internal/subscription |
| `SnapshotCache.dfy`, `Fanout.dfy` | internal/fanout |
| `Publish.dfy`, `Gateway.dfy` | internal/publish, and the gateway end to end |
| `Lifecycle.dfy`, `SessionRegistry.dfy` | internal/session/registry.go, internal/heartbeat |

## Where the code and its comments disagree

The model follows the code.  For each of these there is a concrete run or an exact
condition, and where a small change would keep the promise, a theorem about that change.

* A confirmation between the two tracker checks of `Deliver` lets a second delivery of
  the same sequence through: `CodeCanDeliverTwice`, exactly when:
  `RepeatPassesIffConfirmedBetween`.  Asking `Pending` first closes the gap:
  `PendingFirstIsAtMostOnce`.
* `DeleteTopic` drops the version entry, so versions restart and a stale snapshot can be
  hit: `DeletedTopicServesStaleSnapshot`.  Exactly when, for any readers and mutators in
  flight: `CoherentIffSafe`, `DropIsSafeIff`, and between calls `QuietCacheIsSafeIff`.
  With versions kept growing every snapshot is coherent: `GrowingVersionsAreCoherent`.
* `ResumeFrom` is one past the confirmed position, and `Since` is exclusive: the replay
  leaves out one event, exactly when: `CodeSkipsTheNextEvent`.  After a `Reconnect` it
  always starts at sequence 2: `ReconnectForgetsPosition`.
* `Confirm` keeps a maximum, not a contiguous prefix: `ContiguousIffNoGap`,
  `GapIsCovered`.
* `EndReplay` flushes without the lock: it is overtaken by a live delivery exactly when
  it has not offered everything (`DeliveryOvertakesIff`, `OrderKeptIffNotOvertaken`,
  `FlushCanBeOvertaken`), and it can send on a closed queue exactly when it is under way
  at the Shutdown that closes the writer (`PanicsIffFlushUnderWay`, `FlushCanFault`).
* `Deliver` records an event when the writer accepted it, but the flush of `EndReplay` records
  none of what it queues, so an event delivered in a window is not pending afterwards and a
  second delivery queues it again: `FlushedEventIsQueuedAgain`.
* `Touch` promises that a late heartbeat cannot revive an evicted connection.  It holds the
  registry's lock, but the session's only while it reads the state, so a Touch that has
  read the state renews a session whose closing has begun since: exactly when, and once at
  most, `RenewedAfterCloseIff`, `CodeCanRenewAfterClose`.
* Leaving counts down for sessions that were never bound, and deleting a topic clears
  the references of its ancestors: the tree and the registry stay in step exactly under
  the conditions of `LeaveSyncsIff` and `DeleteSyncsIff`, and with interleaved calls
  under that of `RegionBalancesIff`.
* A later commit jumps over an earlier failed publish: `RetryableUntilJumped`,
  `CommitJumpsOverFailure`.
* A second `Remove` takes the heartbeat of a newer session of the same id and closes a
  closed channel: `RemoveKeepsConsistentIff`, `SecondRemoveForgetsTheNewSession`.  The
  read loop issues it after every eviction (cmd/eventpush/server.go:168-174).
* The sweep renews every session it finds young, so with the default 2-second interval
  and 8-second threshold a silent client is never suspected or evicted:
  `SilentClientStaysActiveIff`.

## Model

| member | source | states |
|---|---|---|
| `WriterMachine.TransportReleasedOnce` | internal/session/writer.go:75-124 | for any number of Shutdown callers and enqueuers, in every run: the transport and the done channel are closed at most once, a closed transport has no frame started or in progress, and the in-flight counter is 1 exactly between the drainer's check and its Done |
| `WriterMachine.NoFrameAfterRelease` | internal/session/writer.go:75-124 | from a state with the transport closed no run writes another frame |
| `WriterMachine.InFlightFrameFinishesFirst` | internal/session/writer.go:73-87 | a frame that is in flight when Shutdown begins has been written, as the next in order, by the time the transport is closed |
| `WriterMachine.AcceptedIsConserved` | internal/session/writer.go:33-71 | in every run the accepted events are the written ones, then the one in hand, then the queue; what is written is a prefix; the difference is at most max(1, queueSize) + 1 |
| `WriterMachine.FramesOnlyGrow` | internal/session/writer.go:108-124 | written frames are never taken back or reordered by any run |
| `WriterMachine.ClosedWriterFaultsIff` | internal/session/writer.go:50-87 | from any state with the closed flag set, some continuation panics iff an enqueuer that passed the closed check is left |
| `WriterMachine.NoFaultWithoutEnqueuers` | internal/session/writer.go:50-87 | in a writer that is open, or closed with only Shutdown callers left, no next step panics |
| `WriterMachine.WriterAloneCanFault` | internal/session/writer.go:50-87 | Enqueue and Shutdown by themselves have a run that sends on the closed queue |
| `WriterMachine.EnqueueAlone` | internal/session/writer.go:50-71 | an Enqueue that nothing interrupts is refused, accepted at the tail, or left waiting, by the closed flag and the room |
| `WriterMachine.DrainAlone` | internal/session/writer.go:108-124 | one undisturbed turn of the drain loop writes the head of the queue, or drops it and stops once closed |
| `WriterMachine.ShutdownAlone` | internal/session/writer.go:75-87 | an undisturbed Shutdown closes flag, queue, transport and done channel once, and nothing the second time |
| `WriterMachine.BoundedWriter.constructor` | internal/session/writer.go:33-45 | the capacity is max(1, queueSize) and the writer is empty and open |
| `WriterMachine.BoundedWriter.TryEnqueue` | internal/session/writer.go:64-71 | succeeds iff there is room, and appends |
| `WriterMachine.BoundedWriter.Enqueue` | internal/session/writer.go:50-61 | closed, accepted or back-pressure by the closed flag, the room and whether the drainer frees a slot before the timer; the accepted history grows by the event iff accepted |
| `WriterMachine.BoundedWriter.Shutdown` | internal/session/writer.go:75-87 | idempotent release of queue and transport |
| `WriterMachine.BoundedWriter.DrainAll` | internal/session/writer.go:108-124 | the loop over the queue writes everything in order while open, and once closed drops what it holds |
| `SessionGate.StateGatesTheQueue` | internal/session/session.go:117-240 | in every run, flushes included, in which no flush is under way at the Shutdown that sets the closed flag: no send meets a closed queue; a closed writer belongs to a closing session; a delivery past its state check holds the lock |
| `SessionGate.WithoutFlushIsClean` | internal/session/session.go:117-181 | every run of deliveries, replay writes, evictions and removals is one of these |
| `SessionGate.PanicsIffFlushUnderWay` | internal/session/session.go:231-240 | in any run, at the Shutdown that sets the closed flag: the process can panic on the writer later iff a flush is past the closed check of an Enqueue then |
| `SessionGate.FlushCanPanic` | internal/session/session.go:231-240 | from any state with the writer closed and a flush under way: the frame in flight finishes, the closer gets past the queue, and the send panics |
| `SessionGate.NoWriterFault` | internal/session/session.go:154-181 | no single writer step panics under the session's rules unless a flush is under way in a closed writer |
| `SessionGate.FlushCanFault` | internal/session/session.go:231-240 | a run from a new session in which the unlocked flush sends on the closed queue |
| `SessionGate.ClosedOncePerFinish` | internal/session/session.go:141-149 | in every run the closed channel has been closed once for each FinishClose that got that far, so at most once if FinishClose is called once |
| `SessionModel.DeliverUndisturbed` | internal/session/session.go:154-181 | a delivery with no confirmation inside it is the plain Deliver |
| `SessionObject.Session.constructor` | internal/session/session.go:51-65 | a new session is active with its own tracker, limiter and writer |
| `SessionObject.Session.Rebind` | internal/session/session.go:160-165 | a tracker that is not this incarnation's is replaced by a fresh one, any other kept |
| `SessionObject.Session.Admit` | internal/session/session.go:172-180 | an event past every check is buffered in a window, else enqueued, and recorded iff the writer took it |
| `SessionObject.Session.Deliver` | internal/session/session.go:154-181 | result and new state in every branch: closed, rebound tracker, covered or pending, limited, buffered in a window, queued and recorded, refused by the writer |
| `SessionObject.Session.Confirm` | internal/session/session.go:184-186 | passes the confirmation to the tracker and changes nothing else |
| `SessionObject.Session.BeginReplay` | internal/session/session.go:205-217 | opens the window with an empty buffer unless closing or open already |
| `SessionObject.Session.ReplayWrite` | internal/session/session.go:220-227 | enqueues without recording, or reports the closed state |
| `SessionObject.Session.EndReplay` | internal/session/session.go:231-240 | closes the window and offers each buffered event once, in order, whatever the earlier offers came to |
| `SessionObject.Session.BeginClose` | internal/session/session.go:117-127 | succeeds iff active or suspected, and then the state is closing |
| `SessionObject.Session.Suspect` | internal/session/session.go:131-137 | active becomes suspected, every other state stays |
| `SessionObject.Session.FinishClose` | internal/session/session.go:141-149 | closed, window and buffer dropped, writer shut down, the closed channel closed once more |
| `SessionObject.Session.Reconnect` | internal/session/session.go:102-114 | a fresh writer, limiter and closed channel, the tracker reset in place to a new epoch, active from any state |
| `SessionRuns.DeliveryOutcome` | internal/session/session.go:154-181 | in any state, confirmations inside the delivery or not: only a delivery that is neither refused by the state nor stopped by the tracker spends a token; a covered, pending or closed one leaves limiter, queue and buffer alone; one that also finds a token reaches the buffer, or the queue if there is room |
| `SessionRuns.DeliveryAnswer` | internal/session/session.go:154-181 | each answer of Deliver, exactly when |
| `SessionRuns.DeliveriesAreLimited` | internal/session/session.go:169-171 | over every series of calls on a session, reconnects before the window included: the deliveries it queues or buffers between two times number at most burst + rate times the length |
| `SessionRuns.BurstIsNotLimited` | internal/session/session.go:169-171 | a new, reconnected or long enough idle session answers ErrLimited to none of its next deliveries up to the burst |
| `SessionRuns.TrackerStopsIff` | internal/session/session.go:160-168 | in every series of calls the tracker stays the session's own, and it stops a delivery iff since the last reconnect a sequence at or above it was confirmed, or it was queued by a delivery and not confirmed since |
| `SessionRuns.ForeignTrackerIsDropped` | internal/session/session.go:160-165 | from any state with a tracker of another owner or epoch the delivery meets a fresh one, and the session is left with a tracker of its own |
| `SessionRuns.StartDelivers` | internal/session/session.go:102-114 | a new session, and from any state whatever a reconnected one, is active and queues as many new events as the burst, in order, on an empty queue |
| `SessionRuns.ReconnectRevives` | internal/session/session.go:102-114 | from any state: after Reconnect a delivery of a positive sequence with room is accepted by the new writer, a replay window opens, and the channel can be closed once |
| `SessionRuns.ReconnectTracks` | internal/session/session.go:102-114 | after any series of calls: Reconnect forgets what was confirmed and pending, and a confirmation after it covers the later deliveries up to it and no others |
| `SessionRuns.EndReplayFlushesTheBuffer` | internal/session/session.go:231-240 | with an open writer EndReplay queues exactly the buffered events whose offer had room, in order, the whole buffer if all had; with a closed one none; the window is closed and empty |
| `SessionRuns.ReplayComesFirst` | internal/session/session.go:203-240 | a whole window over any series of deliveries, replayed writes and other calls: the queue gets the replayed events, then the live ones that got past every check, each in order |
| `SessionRuns.FlushedEventIsQueuedAgain` | internal/session/session.go:151-181 | an event delivered in a window is queued by the flush without being recorded, so a second delivery of it queues it again |
| `SessionRuns.ClosingEndsDelivery` | internal/session/session.go:117-181 | once closing has begun, in every series of calls without a reconnect: every delivery and replayed write is refused, no window opens, nobody wins the closing again, no token is spent, nothing is queued unless a flush was left, and the channel is closed once per FinishClose |
| `SessionRuns.ShutIffClosed` | internal/session/session.go:117-149 | a session that accepts events stops doing so, before a reconnect, iff BeginClose or FinishClose is called |
| `Ack.TrackerMeaning` | internal/ack/ack.go:33-100 | over every history: acked is the greatest confirmed sequence since the last reset, and a sequence is pending iff its delivery is the last thing the tracker heard of it |
| `Ack.ContiguousIffNoGap` | internal/ack/ack.go:47-56 | Confirm keeps the position contiguous iff the confirmed sequence is at most one past it |
| `Ack.GapIsCovered` | internal/ack/ack.go:47-79 | confirming 3 first covers 1 and 2 |
| `Ack.Tracker.Record` | internal/ack/ack.go:33-45 | pending gains or loses exactly that sequence |
| `Ack.Tracker.Confirm` | internal/ack/ack.go:49-56 | the sequence is no longer pending and acked is the maximum |
| `Ack.Tracker.Reset` | internal/ack/ack.go:90-100 | position and pending cleared, epoch one further |
| `DeliveryMachine.EnqueuedIsAccounted` | internal/session/session.go:154-186 | in every run, with confirmations anywhere, each sequence enqueued in this epoch is pending, at or below acked, or held by the delivery about to record it |
| `DeliveryMachine.AtMostOnceUnlessRaced` | internal/session/session.go:166-179 | a sequence enqueued twice in an epoch was confirmed between the two checks of a delivery of it |
| `DeliveryMachine.RepeatPassesIffConfirmedBetween` | internal/session/session.go:166-168 | a repeated delivery of an unconfirmed sequence passes both checks iff it is confirmed between them |
| `DeliveryMachine.CodeCanDeliverTwice` | internal/session/session.go:166-179 | a run that queues sequence 1 twice in one epoch |
| `DeliveryMachine.PendingFirstIsAtMostOnce` | internal/session/session.go:166-168 | with the two checks exchanged delivery is at most once in every run |
| `DeliveryMachine.OneDeliveryIsDeliverAmid` | internal/session/session.go:154-186 | a delivery taken step by step, confirmations in between, has the tracker and the queue of the whole call |
| `ReplayMachine.ReplayPrecedesLive` | internal/session/session.go:154-240 | in every run without reconnect, each accepted replayed event is queued before every live event that arrived after its window opened |
| `ReplayMachine.BufferedIsOfferedOnce` | internal/session/session.go:231-240 | what a window buffered is offered in arrival order, each once, unless FinishClose emptied the window, and then not at all |
| `ReplayMachine.ReplayQueuesWhatItFetched` | internal/resume/resume.go:28-44 | in every run, whatever closes or delivers in between, what the queue has of a window's replay is a prefix of the fetched events in order, and all of them once the replay is over unless a write failed |
| `ReplayMachine.OrderKeptIffNotOvertaken` | internal/session/session.go:154-240 | a step keeps the queued live events in arrival order iff it does not queue one ahead of an older one that a flush still holds |
| `ReplayMachine.DeliveryOvertakesIff` | internal/session/session.go:154-240 | a delivery that is queued outside a window overtakes iff some flush has not offered everything |
| `ReplayMachine.OvertakenQueueIsOutOfOrder` | internal/session/session.go:231-240 | after any overtaking, the flush's next accepted offer leaves the queue itself out of arrival order |
| `ReplayMachine.LiveOrderWithoutOvertaking` | internal/session/session.go:154-240 | live events are queued in arrival order in every run without overtaking |
| `ReplayMachine.FlushCanBeOvertaken` | internal/session/session.go:231-240 | a run in which a live delivery lands between the unlocked flush's events |
| `ReplayRefinement.DeliverAgrees` | internal/session/session.go:154-181 | a session's delivery is a step of the replay machine iff it gets past every check, with the same queue, buffer, window and state after it |
| `ReplayRefinement.BeginAgrees` | internal/session/session.go:205-217 | so is BeginReplay, which succeeds iff the machine's thread gets its window |
| `ReplayRefinement.WriteAgrees` | internal/session/session.go:220-227 | so is ReplayWrite, and the replay goes on iff it answered without an error |
| `ReplayRefinement.EndAgrees` | internal/session/session.go:231-240 | EndReplay is the machine's locked step followed by all offers of the flush |
| `ReplayRefinement.SessionIsTheMachine` | internal/session/session.go:154-240 | every series of whole calls on a new session is a run of the replay machine; its queue has replayed before live and the live events in the order of arrival |
| `ResumeModel.FetchedSequences` | internal/resume/resume.go:25-44 | the replay fetches, ascending, exactly the retained committed events from acked + 2 on |
| `ResumeModel.RepairedFetchIsDocumented` | internal/resume/resume.go:25-44 | passing acked instead fetches every retained committed event after the confirmed position |
| `ResumeModel.CodeSkipsTheNextEvent` | internal/session/session.go:198-201 | the code's replay equals the documented one iff sequence acked + 1 is not committed and retained; otherwise it lacks just that event |
| `ResumeModel.ReconnectForgetsPosition` | internal/session/session.go:102-114 | after Reconnect the replay is all retained committed events from sequence 2 |
| `ResumeObject.Resumer.Work` | internal/resume/resume.go:28-44 | writes a prefix of the fetched events in order, all of them iff there is no error |
| `ResumeObject.Resumer.Replay` | internal/resume/merge.go:17-23 | the window around the work: refused without change while one is open, closed again also when the work fails |
| `Flow.Limiter.Allow` | internal/flow/limiter.go:37-59 | the decision and the session's new bucket |
| `Flow.WindowBound` | internal/flow/limiter.go:37-59 | in any window of any trace a session is allowed at most burst + rate times the window's length (400 and 200 for a policy that is not valid) |
| `Flow.BurstPasses` | internal/flow/limiter.go:37-59 | in any trace, other sessions interleaved: a session that has not called yet, or not for burst/rate, has its next calls up to the burst all allowed |
| `Flow.TokensStayInRange` | internal/flow/limiter.go:37-59 | tokens stay between 0 and the burst in every trace |
| `Flow.SpacedCallsPass` | internal/flow/limiter.go:37-59 | in any trace a session whose calls are at least 1/rate apart is never refused |
| `Flow.RefusalIsInvisible` | internal/flow/limiter.go:50-53 | a refused call changes no later decision |
| `EventStore.Ring.Push` | internal/event/ring.go:25-32 | appends unless full, and then changes nothing |
| `EventStore.Ring.Get` | internal/event/ring.go:35-43 | the retained event of that sequence, if there is one |
| `EventStore.Store.Append` | internal/event/event.go:36-45 | assigns the next sequence; a full ring uses it up without keeping the event |
| `EventStore.AppendKeepsTheEvent` | internal/event/event.go:36-45 | one Append: the counter goes up by one, and with room the new last event has the argument's topic and payload and the returned sequence; a full ring keeps none |
| `EventStore.RetainedIsWhatWasAppended` | internal/event/event.go:36-45 | in every run the i-th retained event has the topic and payload of the i-th Append and sequence i; as many are retained as fit, and the counter is the number of Appends |
| `EventStore.SinceReturnsWhatWasAppended` | internal/event/event.go:66-79 | after every run Since answers with the committed retained events above the position as they were appended |
| `EventStore.CommittedIsGreatest` | internal/event/event.go:49-59 | in every run the committed position is the greatest sequence committed that had been assigned by then, or 0 |
| `EventStore.Store.Commit` | internal/event/event.go:49-59 | the cursor becomes the maximum, and a sequence past the counter is refused |
| `EventStore.Store.Since` | internal/event/event.go:69-79 | the lookup loop returns the specified events |
| `EventStore.Store.Pending` | internal/event/event.go:83-94 | the scan returns the specified events |
| `EventStore.RunKeepsInv` | internal/event/event.go:36-59 | in every run the ring holds sequences 1..count in order, the counter is the count until the ring is full, and committed never passes the counter |
| `EventStore.SinceAndPendingPartition` | internal/event/event.go:66-94 | after every run Since(0) followed by Pending() is the ring's contents |
| `EventStore.SinceIsExact` | internal/event/event.go:66-79 | Since returns exactly the retained committed events above the position, ascending |
| `EventStore.RetainedForever` | internal/event/ring.go:25-32 | what was once retained stays, unchanged and in place |
| `EventStore.Cursor.Advance` | internal/event/cursor.go:21-27 | the position becomes the maximum |
| `PublishMachine.PublishersAgree` | internal/publish/publish.go:39-61 | with any number of interleaved publishes: returned sequences are distinct, progress <= committed <= counter, committed is the greatest sequence that was dispatched without error and committed |
| `PublishMachine.QuietCursorsAgree` | internal/publish/publish.go:47-61 | progress equals committed when no call is between its commit and its advance |
| `PublishMachine.FailureMovesNothing` | internal/publish/publish.go:39-55 | in any run among any other publishes, no step of a thread whose dispatches all fail moves the committed position or the progress |
| `PublishMachine.RetryableUntilJumped` | internal/publish/publish.go:36-38 | a retained event whose dispatch failed is pending iff no later sequence has been committed |
| `PublishMachine.CommitJumpsOverFailure` | internal/event/event.go:49-59 | a run in which a later commit makes a failed event no longer pending |
| `Membership.RefCounter.Add` | internal/subscription/refcount.go:23-30 | one more of the binding in the multiset |
| `Membership.RefCounter.Sub` | internal/subscription/refcount.go:33-44 | one less of the binding, none if there was none |
| `Membership.RefCounter.Count` | internal/subscription/refcount.go:47-51 | the binding's multiplicity |
| `Membership.RefCounter.Sum` | internal/subscription/refcount.go:54-62 | the topic's total multiplicity, summed by the loop |
| `Membership.RefCounter.Clear` | internal/subscription/refcount.go:65-69 | all bindings of the topic gone, no other touched |
| `Membership.Registry.Join` | internal/subscription/registry.go:28-40 | adds one binding to the multiset that both membership maps and the counts describe |
| `Membership.Registry.Leave` | internal/subscription/registry.go:43-51 | removes one binding; membership goes with the last one |
| `Membership.Registry.ClearTopic` | internal/subscription/registry.go:55-66 | removes all bindings of the topic, from both inverse maps |
| `Membership.Registry.Has` | internal/subscription/registry.go:69-74 | true iff the session has a binding to the topic |
| `Membership.Registry.Count` | internal/subscription/registry.go:77-81 | the topic's bindings with multiplicity |
| `Membership.Registry.Subscribers` | internal/subscription/registry.go:84-92 | exactly the bound sessions, each once |
| `TopicPath.FilterInPlace` | internal/subscription/tree.go:29-38 | the filter that reuses its input array yields the non-empty parts in order |
| `TopicPath.Segments` | internal/subscription/tree.go:29-38 | split and filter give the topic's path |
| `TopicPath.PathConcat` | internal/subscription/tree.go:29-38 | the path of a + "/" + b is the path of a followed by the path of b |
| `TopicPath.PathHasSegments` | internal/subscription/tree.go:29-38 | a path consists of non-empty segments without slashes |
| `TopicPath.PathOfJoined` | internal/subscription/tree.go:29-38 | every list of segments is the path of the topic that joins them |
| `TopicTree.Tree.Join` | internal/subscription/tree.go:41-52 | every node on the path exists afterwards with one reference more, and no other node changes |
| `TopicTree.Tree.Leave` | internal/subscription/tree.go:55-67 | every existing node on the path has one reference less, however far the path goes |
| `TopicTree.Tree.Delete` | internal/subscription/tree.go:71-79 | the subtree is unreachable, surviving ancestors have no references and go iff nothing else branches off, everything off the path stands; without the path the shape stays |
| `TopicTree.Tree.RemovePath` | internal/subscription/tree.go:81-102 | the same below any depth; true iff the whole path existed; surviving paths lead to the same heap nodes |
| `TopicTree.ChildlessIffUnbranched` | internal/subscription/tree.go:93-101 | after the removal below it a node has no children iff nothing branched off there |
| `TopicSync.TopicRegistry.Subscribe` | internal/subscription/subscription.go:31-35 | tree, registry and version all move by one; the two stay in sync |
| `TopicSync.TopicRegistry.Unsubscribe` | internal/subscription/subscription.go:38-42 | likewise; they stay in sync iff the session was bound or the tree has no node for the topic's first segment |
| `TopicSync.TopicRegistry.DeleteTopic` | internal/subscription/subscription.go:44-56 | subtree and bindings gone, version entry dropped; they stay in sync iff no other bound topic starts with the same segment |
| `TopicSync.LeaveSyncsIff` | internal/subscription/tree.go:55-67 | the exact condition for Unsubscribe |
| `TopicSync.DeleteSyncsIff` | internal/subscription/subscription.go:44-56 | the exact condition for DeleteTopic |
| `TopicSync.RefsAreSumsOfCounts` | internal/subscription/tree.go:41-67 | in sync, the references at a path are the sum of Count over the bound topics whose path extends it |
| `TopicSync.RunKeepsSync` | internal/subscription/subscription.go:31-56 | from the empty registry, after every run of whole operations that meet those conditions, references are sums of counts at every path |
| `TopicSync.RegionBalancesIff` | internal/subscription/subscription.go:31-42 | with the tree and registry regions of any calls interleaved, each region keeps the tree ahead of the registry by just the joining calls and behind it by the leaving ones, iff a leaving call finds its whole path in the tree and its binding in the registry |
| `TopicSync.QuietRunIsSynced` | internal/subscription/subscription.go:31-42 | after any interleaving of such regions the two are in sync whenever no call is under way |
| `TopicSync.SpareRunIsInStep` | internal/subscription/subscription.go:38-42 | all regions are such if every unsubscribe begins with more bindings of its session to the topic than unsubscribes of it are under way |
| `SnapshotCache.CoherentIffSafe` | internal/fanout/snapshot.go:20-35 | for every state any run reaches, readers and mutators in flight: all that later steps return, as long as the version does not restart again, is coherent iff no entry and no reader is ahead of the version and the entry holds what each reader that can hit it may see |
| `SnapshotCache.QuietCacheIsSafeIff` | internal/fanout/snapshot.go:20-35 | between calls that is: the entry is behind the version, or at it with the present members, or there is none |
| `SnapshotCache.DropIsSafeIff` | internal/subscription/subscription.go:47-56 | a deletion lets nothing stale through later iff its second region finds every reader in flight at version 0 and the entry at version 0 with members that held since the deletion |
| `SnapshotCache.SnapshotsAreCoherent` | internal/fanout/snapshot.go:20-35 | under any interleaving, deletions included, a snapshot that is not a hit on an entry from before a deletion is the membership at a moment before it was returned and after every change whose call had returned when takeSnapshot began |
| `SnapshotCache.GrowingVersionsAreCoherent` | internal/subscription/subscription.go:72-79 | if the version never restarts, because nothing is deleted or because deletion keeps it growing, every snapshot is coherent, hit or miss |
| `SnapshotCache.CurrentEntryIsExact` | internal/fanout/snapshot.go:20-35 | an entry at the current version cached since the last deletion equals the current subscribers whenever no mutator is between its change and its bump |
| `SnapshotCache.HitIsCoherent` | internal/fanout/snapshot.go:24-28 | why a hit of the same generation is safe: the entry's members were read after the reader's version was current |
| `SnapshotCache.DeletedTopicServesStaleSnapshot` | internal/subscription/subscription.go:52-55 | a run from an empty cache, every call returned, in which a hit after DeleteTopic returns a session that is not bound and misses the one that is |
| `FanoutObject.Fanout.TakeSnapshot` | internal/fanout/snapshot.go:20-40 | hit iff the cached version is the topic's; a miss caches the present subscribers; from a coherent cache the result is always the present subscribers |
| `FanoutObject.BumpKeepsCache` | internal/subscription/subscription.go:113-117 | any change that bumps its topic's version keeps the cache coherent |
| `FanoutObject.DropKeepsCacheIff` | internal/subscription/subscription.go:47-56 | with one call after another, DeleteTopic keeps the cache coherent iff the topic has no entry or the empty one of version 0 |
| `FanoutObject.DroppedEntryIsServedWrong` | internal/subscription/subscription.go:47-56 | every other entry is served as a wrong list after as many new subscriptions as its version says |
| `FanoutModel.RoundIsPerSession` | internal/fanout/fanout.go:56-61 | one event is offered to each session of the snapshot once and to no other |
| `FanoutModel.BatchIsPerSession` | internal/fanout/fanout.go:45-63 | the nested loops come to giving each session of the snapshot the batch in order by itself; all other sessions are untouched; a missing session fails every attempt |
| `FanoutModel.NilIffAllDelivered` | internal/fanout/fanout.go:54-62 | the result is nil iff every attempt succeeded |
| `FanoutModel.FirstErrorIsFirst` | internal/fanout/fanout.go:57-59 | otherwise it is the error of the first failed attempt |
| `FanoutModel.FullDispatchCounts` | internal/fanout/fanout.go:65-75 | the counter grows by events times sessions iff there is no error, and by less otherwise |
| `FanoutObject.Fanout.Deliver` | internal/fanout/fanout.go:65-75 | one attempt on the heap sessions: that session moves, every other stands, the counter counts a success |
| `FanoutObject.Fanout.Broadcast` | internal/fanout/fanout.go:54-62 | the loops on the heap sessions come to the batch of the model: all states, first error, counter |
| `FanoutObject.Fanout.Dispatch` | internal/fanout/fanout.go:45-63 | the same over a snapshot taken once, nothing without subscribers |
| `BrokerObject.Broker.Publish` | internal/publish/publish.go:39-55 | append, dispatch, commit, advance, with every error path: store, cursor, sessions, counters and result |
| `PipelineModel.PublishIs` | internal/publish/publish.go:39-55 | a whole publish: a full store refuses it and nothing else moves; otherwise the event is retained and offered as it was to each session of the snapshot once; the sequence is returned and both cursors move iff each of them is registered and answered without an error; one counter counts it |
| `GatewayModel.AcceptedInSequenceOrder` | internal/publish/publish.go:39-55 | over every run of serialized publishes among confirmations, bindings, unregistrations, closings and rebindings at any point, the writer of each session, registered or not any more, accepts strictly increasing sequences across all topics |
| `GatewayModel.SuccessReachesSnapshot` | internal/publish/publish.go:36-55 | a publish that returned without error reached, for each id of its snapshot, a session of that id (accepted, or already covered by a confirmation), is committed, and progress is the committed position |
| `GatewayModel.EventsArriveAsPublished` | internal/publish/publish.go:39-55 | in every run each event on any session's queue, and each reported as published, has the topic and the payload of the n-th publish, where n is its sequence |
| `SubscriberReach.SubscriberIsListed` | internal/fanout/snapshot.go:20-35 | a coherent snapshot lists every session whose subscribe had returned when it began and that stayed subscribed until it was returned |
| `SubscriberReach.PublishReachesSubscribers` | internal/publish/publish.go:36-55 | the two together: as long as the version does not restart, a publish without error reached every such session |
| `GatewayModel.DeliverLatest` | internal/session/session.go:154-181 | a delivery of the latest event appends it or finds it covered, confirmations inside it or not |
| `GatewayModel.PublishAlone` | internal/publish/publish.go:39-55 | the machine's publish, undisturbed, is the broker's |
| `GatewayModel.RegistrationAlone` | internal/session/registry.go:34-59 | the machine's Bind and Unregister do to the registered sessions what Bind and the locked part of Remove do |
| `RegistryModel.RemoveKeepsConsistentIff` | internal/session/registry.go:49-59 | Remove keeps the four maps together iff the session is registered or its id is free |
| `RegistryObject.SessionRegistry.Bind` | internal/session/registry.go:34-46 | the registered session unless it is closed, else a new one in all four maps |
| `LifecycleMachine.HeartbeatIsTheLatest` | internal/session/registry.go:34-111 | in every run an id has a heartbeat iff no Remove of the id has come since the latest Bind that registered or Touch that renewed a session of it, and then it is the time of that Bind or Touch |
| `LifecycleMachine.YoungSessionIsSpared` | internal/heartbeat/heartbeat.go:49-67 | so each registered id has one when every Remove finds its session registered or its id free, and a sweep that ticks soon enough after it renews the session |
| `HeartbeatModel.BoundSessionIsSpared` | internal/session/registry.go:40-45 | a session bound at a time is neither suspected nor evicted by a sweep that ticks at most the shorter threshold after it |
| `RegistryModel.RemoveUndoesRegister` | internal/session/registry.go:34-59 | Bind under a free id followed by Remove leaves the four maps as they were |
| `RegistryObject.SessionRegistry.Remove` | internal/session/registry.go:49-59 | unregisters, drops heartbeat and incarnation of the id, finishes the session |
| `RegistryObject.SessionRegistry.Touch` | internal/session/registry.go:99-111 | renews iff the id maps to a session that accepts events |
| `RegistryObject.SessionRegistry.IsLive` | internal/session/registry.go:77-86 | true iff the id maps to a session that accepts events |
| `RegistryObject.SessionRegistry.Sessions` | internal/session/registry.go:122-131 | the active sessions, each once |
| `RegistryObject.Evictor.Evict` | internal/heartbeat/evictor.go:27-37 | only the call whose BeginClose succeeds tears the session down and counts |
| `RegistryObject.Heartbeat.Classify` | internal/heartbeat/heartbeat.go:70-79 | stale before suspect before young, both thresholds exclusive |
| `RegistryObject.Heartbeat.Renew` | internal/heartbeat/heartbeat.go:82-84 | Touch at the present time |
| `RegistryObject.Heartbeat.Sweep` | internal/heartbeat/heartbeat.go:49-67 | every active session is evicted, suspected, renewed or left as the model says, the registry stays consistent, and evictions are the sessions it lost |
| `LifecycleMachine.RanksNeverDecrease` | internal/session/session.go:117-149 | in every run without reconnect the state rank of every session never decreases |
| `LifecycleMachine.EvictedAtMostOnce` | internal/heartbeat/evictor.go:27-30 | BeginClose succeeds at most once per session in every run |
| `LifecycleMachine.NoRenewalAfterClose` | internal/session/registry.go:96-111 | a Touch that reads the state after closing has begun never renews the session, in any run |
| `LifecycleMachine.RenewedAfterCloseIff` | internal/session/registry.go:96-111 | a closing session is still renewed by some continuation iff a Touch that read its state before holds the registry lock, and by none more than once |
| `LifecycleMachine.CodeCanRenewAfterClose` | internal/session/registry.go:99-111 | a run in which BeginClose falls between the state read and the heartbeat write |
| `LifecycleMachine.RegisteredIsOpen` | internal/session/registry.go:34-59 | in every run no closed session is registered; a Bind of a registered id has never read the state closed, and returns that session, still registered |
| `LifecycleMachine.RegistryStaysConsistent` | internal/session/registry.go:34-111 | the registry's maps agree after every run in which each Remove finds its session registered or its id free |
| `LifecycleMachine.EvictionKeepsRegistry` | internal/heartbeat/evictor.go:27-37 | with evictions as the only removals they agree after every run, live sessions have a heartbeat, and no channel is closed twice |
| `LifecycleMachine.SecondRemoveForgetsTheNewSession` | internal/session/registry.go:49-59 | a run in which the second Remove leaves a live session without heartbeat and then panics |
| `HeartbeatModel.SilentClientStaysActiveIff` | internal/heartbeat/heartbeat.go:49-67 | a client that sends nothing stays active over a series of sweeps iff every gap between a renewal and the next tick is within both thresholds |
| `HeartbeatModel.SuspectedClientIsClosedIff` | internal/heartbeat/heartbeat.go:49-67 | once too old to be renewed it is closed iff the latest tick came more than the timeout after its heartbeat |
| `HeartbeatModel.SweepDecides` | internal/heartbeat/heartbeat.go:49-67 | one sweep over all sessions: lost iff older than the timeout, suspected iff older than the suspect age, renewed iff older than neither, nothing else changed |

## Left out

- HTTP and WebSocket plumbing, flags, the startup probe, the console page and the
  command parsing of the read loop: input and output only.
- Frame text (`Encode`, `Key`), status views, `BacklogInfo`, metric snapshots, policy
  text, `String` methods and error wording: easy members only.
- Timers and `Wait`: a timeout is a step that may or may not happen; `Wait` changes no state.
- Errors of `WriteMessage`: the source ignores them, so a frame is the call.
- Floating-point rounding in the limiter: tokens and times are reals.
- 64-bit wrap-around of sequences, epochs and versions: they are unbounded integers.
- Liveness under a scheduler: nothing says that a waiting thread is ever served.
- The `deleted` flag of tree nodes: it is set, and nothing reads it.
- The publication time of an event: no decision depends on it.
- The order of `Subscribers` and `Sessions`: any order without duplicates; the sort by id of `Sessions` is not modelled.
- The topics a session remembers for the status view, and `Credits`: read-only views.
- SnapshotCache.SnapshotsAreCoherent: one topic at a time; entries and versions of different topics share only the fanout lock.
- PublishMachine.PublishersAgree: the outcome of each dispatch is an argument; what decides it is in the fanout.
- ReplayMachine.ReplayPrecedesLive: between two reconnects; whether the queue accepts an event is an argument of the step.
- SessionRuns.ReplayComesFirst: whole calls; a FinishClose inside the window, which empties it, is in ReplayMachine.BufferedIsOfferedOnce.
- ReplayRefinement.SessionIsTheMachine: whole calls between two reconnects; a delivery that falls into the flush is in ReplayMachine.DeliveryOvertakesIff.
- GatewayModel.AcceptedInSequenceOrder: publishes come one at a time; concurrent publishes are in PublishMachine.
- GatewayModel.SuccessReachesSnapshot: the snapshot is whatever list the step is given; that it is the right one is SubscriberReach.
- FanoutObject.DropKeepsCacheIff: one call after another; with readers in flight the condition is that of SnapshotCache.DropIsSafeIff.
- TopicSync.RunKeepsSync: whole operations; interleaved regions of Subscribe and Unsubscribe are in QuietRunIsSynced, those of DeleteTopic in none.
- WriterMachine.BoundedWriter.Shutdown: one undisturbed call with no frame in flight; the wait for a frame in flight is in the step machine.
- SessionObject.Session.Reconnect: the transport is the new writer's frame log, not a field of its own.
- ResumeObject.Resumer.Work: one undisturbed call; what closes and delivers between two writes is in ReplayMachine.ReplayQueuesWhatItFetched.
- ResumeObject.Resumer.Replay: one undisturbed call; what is buffered and flushed in the window is in ReplayMachine.
- FanoutObject.Fanout.Dispatch: as one object call; what other threads do between its attempts is in GatewayModel.
- FanoutObject.Fanout.Deliver: requires that registered sessions share no writer, tracker or limiter, as the constructor and Reconnect provide.
- RegistryObject.Heartbeat.Sweep: one sweep by itself; evictions and removals by other threads are in LifecycleMachine.
- LifecycleMachine.RanksNeverDecrease: Reconnect, which forces the state back to active, is not among the steps.
