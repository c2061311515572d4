# Firebolt transport: verification model

A Dafny model of the Firebolt C++ transport library: the JSON-RPC gateway with its pending
requests and subscriptions, the helper above it, the WebSocket transport below it, and the
string code of the logger and the URL builder.

Concurrent parts are step-level state machines over values. Every `lock_guard` block, every atomic
load or store of a status or stop flag, and every `set_value` or callback is one step, and any
number of threads interleave. A *run* is any finite sequence of enabled steps; the theorems are
about every state of every run.

The same operations also appear as objects whose fields change in place. The methods of
`GatewayObjects`, `Notices.ConnectionLog`, `LogLine.LineBuffer` and `LogPath.PathResolver` are proved
against the functions the theorems are about. Those of `TransportQueue` are proved to be paths of the
lifecycle machine in `Transport`. For `ClientObject`, whose locked blocks are single steps of `Requests`, the
`...Refines` lemmas say that each block does to the pending map what its step does, in every protocol
state that the map stands for.

| file | what it holds |
|---|---|
| `Types`, `Routing` | JSON values, messages, results; classification of incoming messages |
| `Requests`, `RequestInvariants`, `RequestTheorems`, `RequestDrain` | pending-request protocol: steps, invariants, all-runs theorems, termination of shutdown |
| `TimeoutTheorems`, `WatchdogTheorems` | how long a caller can stay queued; when a connection has a watchdog |
| `LegacyEvents` | subscribe and unsubscribe calls interleaved with the request protocol; late frames |
| `ClientObject` | the pending map and its loops, in place |
| `Subscriptions`, `UpstreamTheorems`, `HelperTheorems` | event list, legacy id map, upstream listen state, helper ids |
| `Dispatch`, `DispatchTheorems` | notification snapshots, worker, release of subscription data |
| `NotifyTheorems` | which messages are events, whom they are handed to and with what |
| `GatewayObjects` | `Server`, `GatewayImpl` and `HelperImpl` in place |
| `Transport`, `TransportQueue` | lifecycle of IO thread and message worker; the queue in place |
| `Notices` | connection-notice limiter and watchdog handle |
| `LogLine`, `LogPath`, `GatewayUrl` | bounded log line, log-path cache, URL builder |

`dafny verify dfyconfig.toml` checks the whole project.

## What the code needs to be true of its surroundings

- Fewer than 2^32 message ids and 2^64 subscription ids are issued (`Requests.Enabled` for `Issue`,
  `UpstreamTheorems.RunStep`); `TransportQueue.IdsRepeatEvery32Bits` says when ids would repeat.
- connect and disconnect calls are serialised with each other. Gateway subscribe and unsubscribe calls
  are serialised with each other in `UpstreamTheorems`, `HelperTheorems` and `LegacyEvents`; in
  `LegacyEvents` all other threads run between their steps.
- cleanupInternalState's stop of the watchdog and its cancelAll are one step: both happen under
  cleanup_mtx, and the block that starts a watchdog takes the same mutex.
- `legacyRPCv1` and `waitTime_ms` are the same in every connect.
- Open, close and message handlers run one at a time, on the IO thread.
- `wait(pred)` is a guarded step.
- make_shared returns memory that no live object occupies; memory of released objects may be reused
  at once. Other users of the gateway pass `usercb` pointers that are not the helper's.

## Findings

Places where a property one might expect does not hold. Each has a run or an input that shows it, and the exact
condition under which the property does hold.

- Event names whose module part has an upper-case letter: `isAnySubscriber` lower-cases the key but
  the list keeps the name as given. The peer is told to stop while a subscriber remains
  (`UpstreamTheorems.NonCanonicalBreaks`), the legacy map keeps several ids for one event
  (`UpstreamTheorems.NonCanonicalBreaksMap`), and an id can stay mapped after the event's last subscriber
  has left (`UpstreamTheorems.IdOutlivesSubscriber`). Each property holds on every run exactly for the
  names without such a letter (`UpstreamTheorems.AgreesExactlyWhenCanonical`,
  `UpstreamTheorems.MapExactlyWhenCanonical`, `UpstreamTheorems.UnmappedExactlyWhenCanonical`).
- After a lost connection the local list is kept but nothing is re-sent, so a subscriber is silent
  (`UpstreamTheorems.SilentAfterLoss`); the peer listens exactly for the subscribers that are not left over
  from a lost connection (`UpstreamTheorems.UpstreamAgreement`).
- A close also stops the notification worker, and a new connection does not start it: notifications are
  ignored (`DispatchTheorems.SilentAfterStop`), exactly until a subscribe starts the worker
  (`DispatchTheorems.IgnoredUntilNextSubscribe`).
- A notify that has passed its stop check can leave a batch in the queue of an exited worker
  (`DispatchTheorems.LeftoverAfterStop`). The queue is sure to stay empty until the next subscribe exactly
  when no notify in flight has, or will find, a subscriber (`DispatchTheorems.StaysDrainedExactlyWhen`).
- Unsubscribe does not wait for a call that has started (`DispatchTheorems.CallMayOutliveUnsubscribe`): user
  code is running after the release exactly when it was running at the release and has not returned
  (`DispatchTheorems.OutlivesExactlyWhen`).
- A second connect may overtake the cleanup of a close that the server made: it finds the watchdog running,
  the cleanup then stops it, and the new connection has none, so no request on it times out
  (`WatchdogTheorems.UnwatchedConnection`, `WatchdogTheorems.UnwatchedUntilNextConnect`). An open
  connection has a watchdog exactly when no such cleanup was outstanding as connect made sure of one
  (`WatchdogTheorems.WatchedExactlyWhen`); a caller is sure of it exactly when the close handler has begun
  its cleanup before the dial (`WatchdogTheorems.WatchedAfterDialExactlyWhen`). An application that
  reconnects only after its listener was told of the close is safe, since the cleanup comes first.
- The age of a request counts from the construction of its caller, before it is queued. With passes at most
  `gap` apart, leaving the queue within W + 1 ms and one gap is guaranteed exactly for callers queued before
  they are older than W + 1 ms (`TimeoutTheorems.LeavesInTimeExactlyWhen`;
  `TimeoutTheorems.QueuedAfterPass` is the run).
- An error reply with code 0 counts as the acknowledgement of a subscribe, exactly that code
  (`UpstreamTheorems.AckMeaning`).
- The URL builder misplaces the version after a fragment, and takes a "/" in the query for a path
  (`GatewayUrl.MisprintedUris`); the exact condition is in `GatewayUrl.BuilderPrintsVersionedUri`.

## Model

| member | source | states |
|---|---|---|
| Routing.RoutingFollowsJsonRpc | src/gateway.cpp:805-882 | apart from legacy event frames, with any convertible id: a Response object of section 5 of the JSON-RPC 2.0 Specification goes to the request it names, a Notification of section 4.1 to notify, a Request object nowhere; every reply gives the outcome that section 5 says |
| Routing.LegacyAckIsNotAnEvent | src/gateway.cpp:824-858 | in legacy mode the ACK of a subscription still completes its request, any other non-empty result under a mapped id is the event |
| Routing.RouteById | src/gateway.cpp:805-860 | in both modes a frame with a convertible id goes to the request of that id unless it is empty-handed or a mapped event frame; under an unmapped id it is never an event |
| Routing.IdIsLow32Bits | src/gateway.cpp:204 | a response id is the one 32-bit number congruent to the value of a numeric "id" member, and nothing else has one |
| Routing.UnwrapUndoesWrap | src/gateway.cpp:420-437 | notify unwraps exactly the one-member {"value": x} objects with a non-object x, and gives x |
| NotifyTheorems.NotifiedExactly | src/gateway.cpp:805-882 | in every run notify is called for exactly the received messages that are notifications with params or mapped legacy event frames, in order and with their name and params |
| NotifyTheorems.EventsAndJsonRpc | src/gateway.cpp:862-882 | every Notification of section 4.1 of the JSON-RPC 2.0 Specification that has params is such an event, no Response object is one outside legacy mode, no Request object is one |
| RequestInvariants.EnqueueKeeps | src/gateway.cpp:165-173 | storing a caller never overwrites a pending one |
| RequestInvariants.SetOwnKeeps | src/gateway.cpp:188-197 | a request that owns its failed caller finds the promise unset, and every ownership invariant is kept |
| RequestInvariants.FulfilKeeps | src/gateway.cpp:127-131 | a thread that took a caller out of the queue finds the promise unset, and every ownership invariant is kept |
| RequestInvariants.CancelKeeps | src/gateway.cpp:134-151 | cancelAll empties the queue and discharges the duty of this down period |
| RequestInvariants.RunInv | src/gateway.cpp:91-255 | in every state of every run each caller is queued, held by one remover or completed, and none is lost |
| RequestTheorems.ExactlyOnePlace | src/gateway.cpp:91-255 | every caller is in exactly one of: not queued, queued, held by one thread, held by its own call, done; no promise is set twice |
| RequestTheorems.CompletionDecidedByRemoval | src/gateway.cpp:91-255 | the value of a set promise is the one decided by the unique step that removed the caller's id |
| RequestTheorems.RemovedOnce | src/gateway.cpp:182-192 | an id removed from the queue is never removed again |
| RequestTheorems.SuccessIsCorrelated | src/gateway.cpp:202-231 | a promise holds a value v only if a message with that id, result v and no error was classified as a response and matched while the caller was pending |
| RequestTheorems.ResponseCompletesRequest | src/gateway.cpp:202-231 | a conforming Response object completes the pending request of its id with what section 5 of the JSON-RPC 2.0 Specification says, by three steps of the thread that got it |
| RequestTheorems.UnmatchedResponseIsIgnored | src/gateway.cpp:212-218 | a response with an unknown or already answered id changes nothing |
| RequestTheorems.NoStrandedRequest | src/gateway.cpp:134-200 | with the connection down and cancelAll run, queued callers belong to calls that will remove them; when all calls have returned the queue is empty and every promise is set or held |
| RequestTheorems.FailedRequestLeavesQueue | src/gateway.cpp:177-197 | a request whose status check or send failed is out of the queue when it returns, its promise set or held by whoever took the caller first |
| RequestTheorems.SentOrFailed | src/gateway.cpp:175-199 | a call that has returned was sent without error on an open connection, or failed its status check or its send with the error it reports |
| TimeoutTheorems.ExpiredAtPatience | src/gateway.cpp:105-106 | the strict comparison of truncated milliseconds means an age of at least W + 1 ms |
| TimeoutTheorems.PassIsExact | src/gateway.cpp:95-119 | a watchdog pass takes exactly the callers that are W + 1 ms old or more and keeps the rest |
| TimeoutTheorems.TimeoutBounds | src/gateway.cpp:91-132 | counted from the steps that constructed and stored the caller: no timeout before W + 1 ms; while the last pass is at most `gap` ago no caller has been queued more than `gap` past the moment it was both queued and W + 1 ms old, abandoned callers included |
| TimeoutTheorems.MadeTime | src/gateway.cpp:77 | a call's timestamp is, for ever, the time of the step that constructed its caller |
| TimeoutTheorems.WasQueued | src/gateway.cpp:164-173 | every caller that is or was queued has been constructed and then stored |
| TimeoutTheorems.QueuedOnce | src/gateway.cpp:164-173 | a call constructs and stores its caller once |
| TimeoutTheorems.PassTakes | src/gateway.cpp:95-119 | a watchdog pass that finds a caller stored and W + 1 ms old removes it for good |
| TimeoutTheorems.QueuedAfterPass | src/gateway.cpp:165-173 | for every age, a run with regular passes in which a caller queued at that age right after a pass is still queued one gap later |
| TimeoutTheorems.LeavesInTimeExactlyWhen | src/gateway.cpp:91-132 | on all runs with passes at most `gap` apart a caller leaves within W + 1 ms + gap of its construction, if and only if it is stored before it is older than W + 1 ms |
| WatchdogTheorems.WatchedExactlyWhen | src/gateway.cpp:608-648 | in every run an open connection has a watchdog if and only if no close cleanup was outstanding when the last connect ran the block that starts one |
| WatchdogTheorems.WatchedAfterDialExactlyWhen | src/gateway.cpp:608-648 | under every schedule after a dial its connection has a watchdog, if and only if the last close handler had begun its cleanup before the dial |
| WatchdogTheorems.OvertakenCleanup | src/gateway.cpp:954-968 | from every reachable state that can dial with a close cleanup outstanding, a run to an open connection without watchdog |
| WatchdogTheorems.UnwatchedConnection | src/transport.cpp:464-490 | a run from the start: connect, open, close by the server, second connect, and no watchdog on the open connection |
| WatchdogTheorems.UnwatchedUntilNextConnect | src/gateway.cpp:615-641 | without a watchdog no request times out until a connect starts one |
| RequestTheorems.UnmappedFrameIsHarmless | src/gateway.cpp:805-860 | a frame whose id belongs to a completed call and is not mapped notifies nobody and completes nothing, for the rest of the run |
| LegacyEvents.UnderlyingStep | src/gateway.cpp:675-771 | every step of a subscribe or unsubscribe call is a step of the request protocol or leaves it alone, so all its theorems hold meanwhile |
| LegacyEvents.RunInv | src/gateway.cpp:691-733 | in every state a mapped id belongs to the subscribe under way or to one whose reply has come |
| LegacyEvents.RunExact | src/gateway.cpp:691-771 | in every state, whatever other threads do, a canonical name has at most one mapped id, and between calls one exactly while it has a subscriber |
| LegacyEvents.LateFrameIsHarmless | src/gateway.cpp:805-860 | after a successful subscribe and the unsubscribe of the last subscriber, a frame with that id notifies nobody and completes nothing, at any later time and under any later calls |
| LegacyEvents.MappedFrameIsTheEvent | src/gateway.cpp:824-858 | while the id is mapped such a frame is the event, and changes no queue and no call |
| LegacyEvents.SubscribedAndLeft | src/gateway.cpp:675-796 | for every event name, a run with an acknowledged subscribe and the unsubscribe after it |
| LegacyEvents.AckedCallIsGatewaySubscribe | src/gateway.cpp:675-735 | interleaved with anything, an acknowledged first subscribe leaves list and map as the value-level subscribe says |
| LegacyEvents.FailedCallIsGatewaySubscribe | src/gateway.cpp:723-733 | so does one that is refused or times out: its rollback restores list and map |
| LegacyEvents.CallIsGatewayUnsubscribe | src/gateway.cpp:737-771 | so does the unsubscribe of a last subscriber |
| LegacyEvents.RepeatCallIsGatewayCall | src/gateway.cpp:677-690 | calls that send nothing, duplicates and unknown pairs included, do at once what the value-level functions say |
| RequestDrain.InternalStepWork | src/gateway.cpp:153-200 | every step the library's own threads still have to take shortens the work that is left |
| RequestDrain.ShutdownCompletesEveryFuture | src/gateway.cpp:954-977 | from any reachable state with the connection down, every schedule of the library's own steps is finite and ends with an empty queue, every promise set once and both threads out of cancelAll |
| RequestDrain.CleanupCompletesItsCallers | src/gateway.cpp:134-151 | a cancelAll returns only after every caller that was pending when it ran has been told NotConnected |
| RequestDrain.CleanupLasts | src/gateway.cpp:954-977 | the IO or control thread is in its cleanup until that cancelAll returns |
| ClientObject.Client.TakeExpired | src/gateway.cpp:95-119 | the erase-while-iterating loop keeps exactly the unexpired callers and returns the expired ones in id order |
| ClientObject.Client.CheckPromises | src/gateway.cpp:91-132 | exactly the expired callers get Timedout, once, and leave the queue |
| ClientObject.Client.CancelAll | src/gateway.cpp:134-151 | the queue becomes empty and every caller in it gets NotConnected, once |
| ClientObject.Client.Enqueue | src/gateway.cpp:165-173 | stores the new caller before anything is sent |
| ClientObject.Client.FinishSend | src/gateway.cpp:177-197 | after a failed send the entry is gone, and the promise is set exactly if nobody took the caller in between |
| ClientObject.Client.Request | src/gateway.cpp:153-200 | a sent request is pending and unset; a failed send leaves no entry and sets the transport's error |
| ClientObject.Client.Response | src/gateway.cpp:202-255 | a known id is removed and completed with the reply, any other message leaves the queue alone |
| ClientObject.ExpireRefines | src/gateway.cpp:95-119 | the locked loop is the protocol's watchdog pass: same callers kept, same callers held for completion |
| ClientObject.CancelRefines | src/gateway.cpp:141-144 | the move out of the map is the protocol's cancellation: nothing kept, every caller held for completion |
| ClientObject.EnqueueRefines | src/gateway.cpp:168-173 | the store is the protocol's enqueue |
| ClientObject.EraseRefines | src/gateway.cpp:188-192 | the erase is the protocol's, and succeeds exactly when the protocol makes the call owner of its promise |
| ClientObject.ResponseRefines | src/gateway.cpp:202-222 | find and erase are the protocol's matching step |
| Subscriptions.Find | src/gateway.cpp:379-380 | the first entry with this event and usercb, or none |
| Subscriptions.KeyLetters | src/gateway.cpp:466-474 | the lookup key letter by letter: ASCII capitals before the first dot become small letters, all else stays |
| Subscriptions.CanonicalMeansLowerCaseModule | src/gateway.cpp:466-474 | a name is its own lookup key exactly when no upper-case letter precedes its first dot |
| UpstreamTheorems.ListenOnlyAtEdges | src/gateway.cpp:675-778 | listen=true is sent exactly when there was no local subscriber, listen=false exactly when the last one leaves |
| UpstreamTheorems.EraseFirstErasesAll | src/gateway.cpp:759-770 | where the event has at most one id the erase-and-break loop leaves no trace of it |
| UpstreamTheorems.LegacyMapIsExact | src/gateway.cpp:691-771 | between calls a canonical name has exactly one id in the legacy map while it is listed and none otherwise, whatever other names are used, across failures and reconnects |
| UpstreamTheorems.UnmappedForGood | src/gateway.cpp:756-771 | the id of an event that has lost its last subscriber is never mapped again and no frame with it is routed as an event |
| UpstreamTheorems.UpstreamAgreement | src/gateway.cpp:675-796 | the peer listens for a canonical name exactly when it has a local subscriber not left over from a lost connection, whatever other names are used |
| UpstreamTheorems.AgreementWithinOneConnection | src/gateway.cpp:675-796 | within one connection the peer listens exactly while there is a local subscriber |
| UpstreamTheorems.SilentAfterLoss | src/gateway.cpp:954-977 | for every canonical name, a run in which an acknowledged subscriber is silent after the connection is lost |
| UpstreamTheorems.NonCanonicalBreaks | src/gateway.cpp:748-774 | for every name that is not its own key, a run that leaves a subscriber without upstream |
| UpstreamTheorems.AgreesExactlyWhenCanonical | src/gateway.cpp:466-485 | upstream agreement on all runs holds if and only if the name is its own key |
| UpstreamTheorems.NonCanonicalBreaksMap | src/gateway.cpp:691-697 | for every name that is not its own key, a run that gives it two legacy ids |
| UpstreamTheorems.OlderIdGoes | src/gateway.cpp:759-770 | for every name that is not its own key, runs in which one of two subscribers leaves and the older id, and that one alone, is unmapped |
| UpstreamTheorems.MapExactlyWhenCanonical | src/gateway.cpp:691-771 | exactness of the legacy map on all runs holds if and only if the name is its own key |
| UpstreamTheorems.IdOutlivesSubscriber | src/gateway.cpp:748-754 | for every name that is not its own key, a run in which its id stays mapped after its last subscriber left |
| UpstreamTheorems.UnmappedExactlyWhenCanonical | src/gateway.cpp:748-771 | ids are unmapped on all runs when the last subscriber has left, if and only if the name is its own key |
| UpstreamTheorems.AckMeaning | src/gateway.cpp:706-721 | a missing ACK fails a subscribe and not an unsubscribe; an error reply fails either if and only if its code is not 0 |
| UpstreamTheorems.SubscribeReturns | src/gateway.cpp:675-735 | the status of subscribe: General for a registered pair, None if the event had a subscriber, else Timedout without a reply, None for a value, the reply's error code |
| UpstreamTheorems.UnsubscribeReturns | src/gateway.cpp:737-796 | the status of unsubscribe: General for an unknown pair, None while a subscriber remains or no reply comes, None for a value, else the reply's error code |
| UpstreamTheorems.OneIdPerListen | src/gateway.cpp:689-776 | on every run each listen request takes exactly one message id |
| HelperTheorems.HelperSubscribeKeeps | src/helpers_impl.h:100-137 | a newly allocated address never meets the duplicate check; a failed subscribe restores the registries, a successful one adds one id and one entry |
| HelperTheorems.HelperUnsubscribeKeeps | src/helpers_impl.h:57-69 | the id and its entry go together, also when the ACK is an error; an unknown id changes nothing |
| HelperTheorems.HelperReturns | src/helpers_impl.h:57-137 | the statuses that the helper returns: its own checks fail only an unknown id, all other errors are the missing or failed reply |
| HelperTheorems.UnsubscribeEachKeeps | src/helpers_impl.h:71-87 | removing many subscriptions keeps the agreement and removes exactly the given ids |
| HelperTheorems.DirectKeeps | src/gateway.cpp:675-796 | other users of the gateway disturb no helper-made entry |
| HelperTheorems.HelperGatewayAgreement | src/helpers_impl.h:36-137 | after every operation of every run live ids and helper-made entries correspond one to one, whatever the ACKs and the reuse of addresses |
| DispatchTheorems.OrderedFanOut | src/gateway.cpp:319-370 | the dispatched pairs are a prefix of the flattened accepted notifications, throwing callbacks included, and all of it when the worker exits |
| DispatchTheorems.SubscribersInOrder | src/gateway.cpp:439-449 | a snapshot is all entries for the event, in registration order |
| NotifyTheorems.ListIsHistory | src/gateway.cpp:372-411 | in every state the event list is exactly the entries registered and not taken off since, in registration order |
| NotifyTheorems.AcceptedAreSnapshots | src/gateway.cpp:413-463 | the q-th accepted batch comes from one notify call, its snapshot and its push, and goes to all entries of that event at the snapshot, in order, with the call's unwrapped params |
| NotifyTheorems.NotifyInSteps | src/gateway.cpp:413-463 | undisturbed, the three steps are the object's notify: they queue that batch, or leave no trace when stopped or without subscriber |
| NotifyTheorems.BatchesComeFromMessages | src/gateway.cpp:805-882 | every batch that the worker gets goes back to one received message, with the subscribers of its event and its unwrapped params |
| DispatchTheorems.JoinedAfterDrain | src/gateway.cpp:296-307 | the join returns only after an exit at which everything accepted had been dispatched |
| DispatchTheorems.StopTerminates | src/gateway.cpp:319-370 | once stopping, the worker can always move, whether callbacks throw or not, and each move shortens what is left |
| DispatchTheorems.CalledExactly | src/helpers_impl.h:105-127 | every dispatch is recorded, and enters user code if and only if the entry is not the helper's or its data has not been released |
| DispatchTheorems.NoLateDelivery | src/helpers_impl.h:105-127 | a dispatch that starts after the data was released never enters user code, even if the address has been reused |
| DispatchTheorems.StaleEntryIsPassedOver | src/helpers_impl.h:114-127 | a run in which a released subscription's entry reaches the worker and is passed over |
| DispatchTheorems.CallsUseLiveData | src/helpers_impl.h:114-127 | user code gets the registered address of its own live object, and no other live object has it until the call returns |
| DispatchTheorems.CallMayOutliveUnsubscribe | src/helpers_impl.h:118-121 | a run in which user code is still running when its subscription has been removed and released |
| DispatchTheorems.OutlivesExactlyWhen | src/helpers_impl.h:114-127 | user code of a released subscription is running if and only if it was running at the release and has not returned since |
| DispatchTheorems.LeftoverAfterStop | src/gateway.cpp:413-463 | a run in which a batch is queued after the worker has exited |
| DispatchTheorems.StoppedStaysDrained | src/gateway.cpp:296-307 | with no notify in flight the queue of a stopped worker stays empty and all accepted notifications stay dispatched |
| DispatchTheorems.StaysDrainedExactlyWhen | src/gateway.cpp:413-463 | the queue of a stopped worker is sure to stay empty until the next subscribe if and only if no notify in flight has or will find a subscriber |
| DispatchTheorems.IgnoredUntilNextSubscribe | src/gateway.cpp:415-419 | from one stop to the next a notification is ignored if and only if no subscribe has started the worker since |
| DispatchTheorems.SilentAfterStop | src/gateway.cpp:296-307 | for every entry, a run in which it is registered, the worker is stopped and joined, and its event is ignored |
| DispatchTheorems.RevivedBySubscribe | src/gateway.cpp:372-392 | for every entry, a run in which a worker start after the close makes notifications count again |
| GatewayObjects.Server.Subscribe | src/gateway.cpp:372-392 | appends unless the pair is registered; restarts a worker that was joined |
| GatewayObjects.Server.Unsubscribe | src/gateway.cpp:394-411 | removes the first matching entry or reports General |
| GatewayObjects.Server.IsAnySubscriber | src/gateway.cpp:466-485 | true exactly when an entry has the lower-cased key as its name |
| GatewayObjects.Server.Notify | src/gateway.cpp:413-464 | queues the event's subscribers with the unwrapped params, unless stopping or there are none |
| GatewayObjects.Server.DispatchBatch | src/gateway.cpp:345-368 | calls every callback of a batch in order, throwing ones included |
| GatewayObjects.Server.ProcessQueuedNotifications | src/gateway.cpp:319-370 | a stopping worker dispatches everything queued, in order |
| GatewayObjects.GatewayImpl.Subscribe | src/gateway.cpp:675-735 | the new state and status are those of the value-level subscribe |
| GatewayObjects.GatewayImpl.EraseEvent | src/gateway.cpp:756-771 | the loop erases the entry with the least id for the event, if any |
| GatewayObjects.GatewayImpl.Unsubscribe | src/gateway.cpp:737-796 | the new state and status are those of the value-level unsubscribe |
| GatewayObjects.HelperImpl.Subscribe | src/helpers_impl.h:100-137 | the new state and status are those of the value-level helper subscribe; the id is the old counter |
| GatewayObjects.HelperImpl.Unsubscribe | src/helpers_impl.h:57-69 | the new state and status are those of the value-level helper unsubscribe |
| GatewayObjects.HelperImpl.UnsubscribeAll | src/helpers_impl.h:71-87 | the loop unsubscribes exactly the owner's ids, in order, and keeps the others |
| GatewayObjects.HelperImpl.Close | src/helpers_impl.h:36-45 | the destructor unsubscribes every id, in order, and ends with no subscription |
| Transport.CompleteDrain | src/transport.cpp:288-358 | no text payload is dropped, payloads are handed over in arrival order each once, and all of them before disconnect returns |
| Transport.WorkerHandleConsistent | src/transport.cpp:91-114 | between calls the worker handle is joinable exactly when the transport is started |
| Transport.LiveExactlyWhenConnected | src/transport.cpp:431-470 | frames can arrive exactly while the status is Connected and the IO thread runs |
| Transport.OnePayload | src/transport.cpp:73-139 | from every stopped state a run that connects, hands over a payload and stops again |
| Transport.StopTerminates | src/transport.cpp:116-139 | once stopping, the worker can always move, each move shortens what is left, and the join is enabled exactly when nothing is left |
| TransportQueue.MessageQueue.StartMessageWorker | src/transport.cpp:91-101 | in start() it is the machine's start step and never meets a running worker, a raised stop flag or an old payload; elsewhere a running worker is left alone |
| TransportQueue.MessageQueue.OnMessage | src/transport.cpp:407-429 | a text frame of an open connection is never dropped: it is the machine's receive and enqueue steps and ends up last in the queue |
| TransportQueue.MessageQueue.StopMessageWorker | src/transport.cpp:103-139 | in disconnect() it is the machine's stop, drain, exit and join path, after which everything that ever arrived has been handed over in order; without a worker it only sets the flag |
| TransportQueue.MessageQueue.GetNextMessageID | src/transport.cpp:360-363 | the id differs from every earlier one except those issued a multiple of 2^32 calls before |
| TransportQueue.IdsRepeatEvery32Bits | src/transport.cpp:360-363 | two issued ids are equal exactly when a multiple of 2^32 lies between them |
| Notices.ConnectionLog.Record | src/gateway.cpp:884-912 | the new limiter state and the emitted notice with its count |
| Notices.LogIsLossless | src/gateway.cpp:884-924 | the notices with their repeat counts and the pending count decode to exactly the observed sequence of states |
| Notices.SuppressedExactlyWhen | src/gateway.cpp:892-911 | a call is left out of the log exactly when it repeats the last emitted one less than five seconds after it |
| Notices.NoticeConservation | src/gateway.cpp:884-924 | calls = notices + reported repeats + pending count; the recorded state is the last observed one |
| Notices.WatchdogHandleConsistent | src/gateway.cpp:608-648 | over every sequence of connects and cleanups exactly one watchdog is live after a connect and none after a cleanup, flag and handle agree, and no joinable handle is overwritten |
| LogLine.CStr | src/logger.cpp:422-448 | what "%s" prints: the longest prefix without NUL |
| LogLine.DecimalRoundTrip | src/logger.cpp:432-446 | the printed line number or thread id reads back as the number |
| LogLine.DecimalDigits | src/logger.cpp:432-446 | it is printed in decimal digits without leading zeros |
| LogLine.SnPrintf | src/logger.cpp:410-420 | writes what fits, a NUL after it, and returns the untruncated length |
| LogLine.LineBuffer.Append | src/logger.cpp:414-420 | the buffer stays the first 1023 characters of all that was appended, NUL-terminated, with the offset at most 1023 |
| LogLine.FormatLine | src/logger.cpp:405-448 | for every flag combination the buffer is the first 1023 characters of the untruncated line |
| LogLine.LineReadsBack | src/logger.cpp:405-448 | for every flag combination each field can be read back from the full line at its place, between its delimiters, and the message without its final newline at the end |
| LogLine.TwoStagesAreOne | src/logger.cpp:365-381 | cutting the message before its newline check does not show in the line |
| LogPath.PathResolver.Resolve | src/logger.cpp:117-203 | result and new cache are those of the value-level resolver |
| LogPath.CacheIsTransparent | src/logger.cpp:117-203 | on every sequence of values the cached resolver returns what an uncached one would |
| LogPath.AcceptedExactlyWhen | src/logger.cpp:156-198 | accepted exactly: absolute, no "../" in it, shorter than PATH_MAX before and after, a file name other than "", "." and ".." in a directory that realpath resolves |
| LogPath.JoinSplits | src/logger.cpp:186-194 | splitting a joined path at its last slash gives back parent and file name, root included |
| LogPath.SplitRecoversParts | src/logger.cpp:222-228 | the writer's split of an accepted path gives the canonical parent and the variable's own file name |
| GatewayUrl.BuildGatewayUrl | src/utils.cpp:23-56 | the in-place edits compute the specified string |
| GatewayUrl.BuilderPrintsVersionedUri | src/utils.cpp:23-56 | for every well-formed URI the result prints the same components with "/" for an empty path and RPCv2=true as last query item, if and only if the URI has no fragment (unless legacy) and no "/" is taken for a path |
| GatewayUrl.UsualEndpoints | test/unit/gatewayTest.cpp:109-118 | host, host with query, host with path and query: the exact strings |
| GatewayUrl.MisprintedUris | src/utils.cpp:23-56 | two well-formed URIs for which the result is not the intended one |
| GatewayUrl.LegacyBuildIsIdempotent | src/utils.cpp:25-40 | in legacy mode building twice is building once, on every string |

## Left out

- websocketpp, asio and sockets: outcomes of send, connect and close are free inputs of the steps; mapping of their error codes is not modelled.
- JSON parsing and printing, and float or boolean ids: the converted value is part of the message.
- Condition-variable wakeups and scheduling: nothing is said about missed notifications or about how soon a thread moves.
- Calls of connect, disconnect or cleanup from inside callbacks, which would join their own thread.
- Message-id and subscription-id wrap-around inside the protocols: runs with 2^32 or more message ids are not considered.
- Errors of snprintf and vsnprintf (negative results) and NUL characters written by "%c".
- Concurrent subscribe and unsubscribe calls on one gateway: one such call is under way at a time.
- RequestDrain.ShutdownCompletesEveryFuture: cleanupInternalState's joins of the watchdog and of the notification worker are not waits of the model, so the threads it shows free are free of cancelAll.
- GatewayObjects.Server.ProcessQueuedNotifications: the loop is taken from the moment the stop flag is set; before that the worker's steps are those of Dispatch.
- TransportQueue.MessageQueue.StopMessageWorker: starts with the worker between two payloads; a payload in hand at that moment is covered by Transport.CompleteDrain.
- Level parsing, syslog, stderr and file writes, URL redaction, custom headers and response headers: they decide what is printed or sent, and no protocol state depends on them.
- json_types.h, SubscriptionManager and src/helpers_impl.cpp: they convert values and pass calls on to the helper, and keep no state that changes.
- LogLine.FormatLine: the time, the file name and the thread id are given as strings and numbers; how they are obtained is not modelled.
