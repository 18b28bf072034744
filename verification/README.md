# Verification of the browser bridge

Dafny models of the stateful parts of the bridge between an MCP server (Go) and a
browser extension (JavaScript), with proofs of what these parts promise. `dafny verify
dfyconfig.toml` checks everything.

Code that updates state in place is a class whose methods are proved against a
specification function; protocols and lifecycles are runs of atomic steps, where a step is
the JavaScript code between two awaits, a Go critical section, one channel or file
operation, or one message. Nondeterminism of the environment (the debugger, the network,
file errors, clocks, schedules) is a choice of steps or an arbitrary value.

- `CdpConsumers`: the bounded drop-oldest event queue of one consumer.
- `CdpTargets`: what events make of the tree of child sessions and the frame contexts hanging
  off it.
- `CdpSessions`, `CdpManager`: leases, sessions and the debugger state machine. `CdpSessions`
  holds the steps and their invariant, `CdpManager` the object, each of whose methods is
  proved to be one of these steps.
- `Registry`, `Router`, `CommandRouter`, `Delivery`: requests, cancellations and responses
  between the server and its browsers. `Delivery` puts the three components together into
  one distributed system with messages in flight, connections replaced at any time, lost
  messages and late responses.
- `ArtifactFiles`, `ArtifactStore`: the artifact directory, whose every operation may fail
  and whose every intermediate state is remembered, and the store over it.
- `RateLimiter`: the token bucket and the bounded set of buckets by key.
- `ConsoleBuffer`, `NetworkActivity`, `ElementReferences`, `PageOutput`: the bounded readers
  and caches of the page scripts.
- `PdfRanges`: page-range normalization and the second acceptor of its output.
- `Text`: strings, white space and sorted sets of strings, used by several of the others.

Where a property is false of the code, the exact condition is proved:

- `detachAll("")` while an attachment is in progress breaks the session invariant: the
  empty reason is not remembered as a request to close. It is the only step that does, and a
  run keeps the invariant throughout if and only if it has no such step
  (`CdpSessions.DetachAllKeepsInvIff`, `CdpSessions.StepKeepsInvIff`,
  `CdpSessions.RunKeepsInvIff`).
- A consumer with child targets gets its lease after switching auto-attach on without a second
  look at the session: the lease is alive if and only if no step has ended it since the first
  look (`CdpSessions.AliveUntilEnded`).
- A consumer that joins an attaching session after all earlier consumers of it have left is
  closed together with it, since the request to close is remembered
  (`CdpSessions.SessionFollowsItsMachine`).
- A limiter that forgets idle keys answers like one that never forgets if and only if a
  bucket can fill within the time to live (`RateLimiter.TransparentIffBucketsFill`).
- After `reset`, a network-idle waiter may fulfil although a request is open or less than
  `idleMs` old (`NetworkActivity.ResetBreaksIdleness`). A reset is harmless to a tab, in every
  continuation of the run, if and only if the tab has no active request and its last recorded
  activity is no later than the start of the idle period that each of its waiters can complete
  first (`NetworkActivity.ResetKeepsIdlenessIff`); and for a waiter that fulfils, the promise is kept
  if and only if what was forgotten is over (`NetworkActivity.IdleIffForgottenIsOver`).
- Reading visible text by its cursors is complete if and only if the last page starts at a
  cursor no larger than 1,000,000; a larger `nextCursor` is handed out but refused when it
  comes back (`PageOutput.PagingFromTheStart`).
- A console read from cursor 0 never reports expiry, whatever was lost
  (`ConsoleBuffer.ExpiredIffLost`).
- A reopen whose `Lstat` of a complete artifact fails removes that artifact; the theorem
  about reopening names these artifacts (`ArtifactStore.Store.Load`).
- After a crash in the middle of `Put`, a metadata file that an earlier artifact of the same
  random id left behind may be taken for that of the new content. The new artifact is whole or
  absent after every crash if and only if no such file fits its content
  (`ArtifactStore.NewArtifactIsWholeIff`).
- An artifact that `Put` wrote is found again by a reopen if and only if its clock did not
  show the zero time and the MIME type it formatted can be parsed again
  (`ArtifactStore.WrittenArtifactIsStored`).

## Model

| member | source | states |
|---|---|---|
| CdpConsumers.Consumer.Enqueue | chrome-extension/src/cdp-session-manager.js:525-545 | offering one event: the new queue, counters and deliveries are those of the specification, which `DroppedIff` and `OfferIsTaken` tie to the history of offers; the empty-queue `break` is never taken |
| CdpConsumers.Consumer.DropFirst | chrome-extension/src/cdp-session-manager.js:532-541 | one turn of the drop loop takes the oldest queued event and its bytes |
| CdpConsumers.Consumer.DropOldest | chrome-extension/src/cdp-session-manager.js:532-541 | the drop loop drops the least number of oldest events that makes room in count and bytes |
| CdpConsumers.Consumer.DrainTurn | chrome-extension/src/cdp-session-manager.js:547-567 | one synchronous turn of the drain hands over the oldest event with the pending drop count |
| CdpConsumers.Consumer.Deactivate | chrome-extension/src/cdp-session-manager.js:613-621 | deactivation flushes the queue and stops deliveries |
| CdpConsumers.FullQueueIsNotEmpty | chrome-extension/src/cdp-session-manager.js:527-541 | with validated limits, a queue that is too full for an event that is small enough is not empty |
| CdpConsumers.DropCountIsLeast | chrome-extension/src/cdp-session-manager.js:532-541 | no smaller number of drops would make room |
| CdpConsumers.EveryRunKeepsQueue | chrome-extension/src/cdp-session-manager.js:525-567 | in every run: byte and length bounds, delivery in arrival order, every offered event has exactly one fate, an active consumer that does not drain has an empty queue |
| CdpConsumers.EveryRunBalances | chrome-extension/src/cdp-session-manager.js:525-567 | offered = delivered + dropped + queued + flushed; reported drop counts plus the pending count are all drops |
| CdpConsumers.EveryRunHasItsHistory | chrome-extension/src/cdp-session-manager.js:525-567 | from the sizes offered alone: the queue is everything that is not oversized from its oldest event on; no queued event was displaced; a consumer is active until it is deactivated |
| CdpConsumers.DroppedIff | chrome-extension/src/cdp-session-manager.js:525-545 | an event is dropped if and only if it is oversized, or it was not delivered before a later event came that does not fit behind it and all queued after it |
| CdpConsumers.OfferIsTaken | chrome-extension/src/cdp-session-manager.js:525-545 | an event of an acceptable size offered to an active consumer is the last in the queue, or was handed over at once |
| CdpConsumers.ResumeDelivers | chrome-extension/src/cdp-session-manager.js:547-567 | when a callback returns the oldest queued event is handed over |
| CdpConsumers.FlushedOnlyAtTheEnd | chrome-extension/src/cdp-session-manager.js:613-621 | only a deactivated consumer flushes, and only events that still had their place |
| CdpConsumers.OneFate | chrome-extension/src/cdp-session-manager.js:525-567 | every event has a fate, and is not both delivered and dropped |
| CdpSessions.Session.HandleEvent | chrome-extension/src/cdp-session-manager.js:457-494 | one event moves child sessions and frame contexts to the specified state, with every branch on source, frame and child id, and leaves the rest of the session alone |
| CdpSessions.Session.RewriteFrames | chrome-extension/src/cdp-session-manager.js:720-752 | contexts are filtered in place and frames left empty are deleted |
| CdpSessions.Session.RemoveChildSessionTree | chrome-extension/src/cdp-session-manager.js:758-768 | removes exactly the root and all it reaches by parent links, with their contexts; terminates on cycles (live children, then pending ids not live) |
| CdpSessions.Session.RemoveOne | chrome-extension/src/cdp-session-manager.js:770-777 | deletes one child session and its contexts in all frames |
| CdpSessions.Session.ChildrenOf | chrome-extension/src/cdp-session-manager.js:762-766 | finds all live children of one session |
| CdpSessions.Session.DisableAutoAttach | chrome-extension/src/cdp-session-manager.js:422-432 | drops all children and their contexts, keeps those of the root |
| CdpSessions.Session.ClearTree | chrome-extension/src/cdp-session-manager.js:582-583 | forgets all child sessions and contexts, and nothing else of the session |
| CdpTargets.EventKeepsWellFormed | chrome-extension/src/cdp-session-manager.js:457-494 | whatever the event: parents stay the root or live, child contexts belong to live children, no empty context map is kept |
| CdpTargets.AutoAttachOffKeepsWellFormed | chrome-extension/src/cdp-session-manager.js:422-434 | so does switching auto-attach off |
| CdpTargets.SurvivorsKeepTheirParents | chrome-extension/src/cdp-session-manager.js:758-768 | a child that survives a removal keeps its parent |
| CdpTargets.CycleIsRemovedWhole | chrome-extension/src/cdp-session-manager.js:758-768 | a cycle made by re-parenting is removed as a whole |
| CdpTargets.ClosedSetHoldsSubtree | chrome-extension/src/cdp-session-manager.js:758-768 | a set closed under child links contains the whole subtree of its members: the loop finds everything |
| CdpTargets.MeasureFalls | chrome-extension/src/cdp-session-manager.js:758-768 | each turn of the removal lowers live children, or pending ids that are not live |
| CdpTargets.ChildrenAreTheirHistory | chrome-extension/src/cdp-session-manager.js:457-494 | from the history of events alone: a child is live if and only if an accepted announcement of it is not followed by the removal of it or of one it was announced through; its parent is the source of its last accepted announcement |
| CdpTargets.ContextsAreTheirHistory | chrome-extension/src/cdp-session-manager.js:457-494 | a frame lists exactly the contexts created in it, with owner and `isDefault` of the last creation, and not ended since |
| CdpTargets.DetachRemovesAllBelow | chrome-extension/src/cdp-session-manager.js:483-487 | once a session is reported detached, no session announced through it is live, and no context of one is left |
| CdpSessions.Session.Add | chrome-extension/src/cdp-session-manager.js:211-266 | registering a consumer counts it, and counts child-target consumers |
| CdpSessions.Session.Remove | chrome-extension/src/cdp-session-manager.js:383-392 | releasing takes one consumer out, and out of the child count if it was in it |
| CdpSessions.Session.FanOut | chrome-extension/src/cdp-session-manager.js:501-513 | an event is offered to every registered consumer that wants it, one of a child session only to consumers that include child targets, and to no other |
| CdpSessions.Session.DeactivateConsumers | chrome-extension/src/cdp-session-manager.js:613-621 | all registered consumers are deactivated and none remains registered |
| CdpSessions.AcquireKeepsInv | chrome-extension/src/cdp-session-manager.js:57-120 | acquiring, joining or being refused keeps the invariant |
| CdpSessions.RefusalChangesNothing | chrome-extension/src/cdp-session-manager.js:57-90 | a refused acquire leaves the state as it was |
| CdpSessions.ReleaseKeepsInv | chrome-extension/src/cdp-session-manager.js:383-403 | releasing a lease keeps the invariant |
| CdpSessions.ReleaseTailKeepsInv | chrome-extension/src/cdp-session-manager.js:394-403 | closing an unused session after its await keeps the invariant, whenever it runs |
| CdpSessions.AttachResolvedKeepsInv | chrome-extension/src/cdp-session-manager.js:284-297 | a completed attach keeps the invariant: a session that is unused, unwanted or disposed is closed at once |
| CdpSessions.AttachRejectedKeepsInv | chrome-extension/src/cdp-session-manager.js:290-297 | a failed attach unmaps and empties the session |
| CdpSessions.DetachSettledKeepsInv | chrome-extension/src/cdp-session-manager.js:586-594 | a completed detach keeps the invariant |
| CdpSessions.BrowserDetachKeepsInv | chrome-extension/src/cdp-session-manager.js:515-523 | a detach by the browser keeps the invariant |
| CdpSessions.DetachAllKeepsInvIff | chrome-extension/src/cdp-session-manager.js:131-136 | `detachAll` keeps the invariant if and only if its reason is not empty or nothing is attaching |
| CdpSessions.DisposeKeepsInv | chrome-extension/src/cdp-session-manager.js:138-143 | after `dispose` only attaching sessions with a pending close and no consumer remain mapped |
| CdpSessions.StepKeepsInvIff | chrome-extension/src/cdp-session-manager.js:57-143 | every step of the manager, events included, keeps the invariants of sessions, leases, debugger calls, trees and queues; except `detachAll` with an empty reason while something attaches, which breaks them |
| CdpSessions.EveryRunKeepsInv | chrome-extension/src/cdp-session-manager.js:57-143 | at every await boundary of every run the session, lease, debugger-call, tree and queue invariants hold, as long as no step was the harmful one |
| CdpSessions.RunKeepsInvIff | chrome-extension/src/cdp-session-manager.js:131-136 | the invariants hold throughout a run if and only if none of its steps is `detachAll` with an empty reason while something attaches |
| CdpSessions.EveryTreeIsWellFormed | chrome-extension/src/cdp-session-manager.js:457-584 | in every run parents in a session's tree are the root or live and child contexts belong to live children; only a session that is attached and mapped has children or contexts, so one that closes has none |
| CdpSessions.EveryRunSuitsTheManager | chrome-extension/src/cdp-session-manager.js:57-143 | every state of such a run has what the manager's methods ask for: sessions and consumers filed where they belong, and exact byte counts |
| CdpSessions.EverySessionKeepsItsPromises | chrome-extension/src/cdp-session-manager.js:284-297 | one attach and at most one detach, only after success; mapped sessions attach or are attached; limits, counts and registered consumers as promised; after `dispose` only pending closes |
| CdpSessions.FineQueuesAreExact | chrome-extension/src/cdp-session-manager.js:525-545 | the byte count of every queue that keeps its invariant is the sum of its events |
| CdpSessions.TreeIsItsHistory | chrome-extension/src/cdp-session-manager.js:422-494 | in every run the tree of a session is what the events it was told since its attach make of it |
| CdpSessions.ChildrenFollowTheEvents | chrome-extension/src/cdp-session-manager.js:422-494 | so in every run its children and their parents, and the contexts of its frames, are those of the history of events |
| CdpSessions.AcquireRegistersIff | chrome-extension/src/cdp-session-manager.js:57-90 | `acquire` registers its consumer unless the manager is disposed, the caller aborted, child targets are not supported, the id is taken or a limit is reached; each refusal for the first reason that applies |
| CdpSessions.RegisteredWhere | chrome-extension/src/cdp-session-manager.js:65-100 | it is registered with the session mapped for the tab, an attaching one if there was none |
| CdpSessions.StepEndsLeases | chrome-extension/src/cdp-session-manager.js:57-143 | which steps end which leases: an active consumer stays active through every other step |
| CdpSessions.LeaseIsItsHistory | chrome-extension/src/cdp-session-manager.js:57-143 | over runs: a consumer is active if and only if it was registered and no step since then ended its lease |
| CdpSessions.LeaseGrantedIff | chrome-extension/src/cdp-session-manager.js:102-120 | over runs: once the session is ready `acquire` succeeds if and only if the caller did not abort, the consumer is active and the session attached; then nothing changes, and otherwise the consumer is neither active nor registered |
| CdpSessions.AliveUntilEnded | chrome-extension/src/cdp-session-manager.js:102-120 | over runs: a lease that was alive still is if and only if no step has ended it since |
| CdpSessions.SessionFollowsItsMachine | chrome-extension/src/cdp-session-manager.js:284-297 | every step moves the state of every session as its state machine says |
| CdpSessions.EmitReachesExactly | chrome-extension/src/cdp-session-manager.js:501-513 | an event reaches exactly the active consumers of the tab, while it is attached, that asked for it and include child targets if it comes from one |
| CdpSessions.ReleaseSilences | chrome-extension/src/cdp-session-manager.js:383-392 | a released consumer is inactive |
| CdpManager.CDPSessionManager.Acquire | chrome-extension/src/cdp-session-manager.js:57-90 | the synchronous part of `acquire`: refusals in the order of the source, a new session or a shared one, and a registered consumer |
| CdpManager.CDPSessionManager.Register | chrome-extension/src/cdp-session-manager.js:70-90 | the consumer limit, and the registration |
| CdpManager.CDPSessionManager.AddSession | chrome-extension/src/cdp-session-manager.js:268-282 | a new attaching session is mapped |
| CdpManager.CDPSessionManager.AddConsumer | chrome-extension/src/cdp-session-manager.js:211-266 | a new active consumer is filed |
| CdpManager.CDPSessionManager.FinishAcquire | chrome-extension/src/cdp-session-manager.js:102-120 | after the attach: a lease exactly if the consumer is active, the session attached and the caller did not abort, and then nothing changes; it is granted exactly if the consumer is active afterwards |
| CdpManager.CDPSessionManager.FinishAutoAttach | chrome-extension/src/cdp-session-manager.js:111-120 | with child targets: a lease unless auto-attach failed or the caller aborted, whatever became of the session |
| CdpManager.CDPSessionManager.ReleaseConsumer | chrome-extension/src/cdp-session-manager.js:383-392 | the synchronous part of a release |
| CdpManager.CDPSessionManager.ResumeRelease | chrome-extension/src/cdp-session-manager.js:394-403 | the part of a release after its await |
| CdpManager.CDPSessionManager.AttachResolved | chrome-extension/src/cdp-session-manager.js:284-297 | a resolved attach |
| CdpManager.CDPSessionManager.AttachRejected | chrome-extension/src/cdp-session-manager.js:284-297 | a rejected attach |
| CdpManager.CDPSessionManager.CloseSession | chrome-extension/src/cdp-session-manager.js:569-585 | the close request of an attaching session, or the detach of an attached one |
| CdpManager.CDPSessionManager.AskToClose | chrome-extension/src/cdp-session-manager.js:573-577 | an attaching session remembers why it is to be closed |
| CdpManager.CDPSessionManager.Depart | chrome-extension/src/cdp-session-manager.js:578-585 | the session leaves the map and its consumers are deactivated before the detach completes |
| CdpManager.CDPSessionManager.DetachSettled | chrome-extension/src/cdp-session-manager.js:586-594 | a settled detach |
| CdpManager.CDPSessionManager.HandleDetach | chrome-extension/src/cdp-session-manager.js:515-523 | the browser took the debugger away |
| CdpManager.CDPSessionManager.DetachAll | chrome-extension/src/cdp-session-manager.js:131-136 | every mapped session is closed |
| CdpManager.CDPSessionManager.Dispose | chrome-extension/src/cdp-session-manager.js:138-143 | the manager accepts nothing more and closes everything |
| CdpManager.CDPSessionManager.HandleEvent | chrome-extension/src/cdp-session-manager.js:457-513 | an event of a mapped, attached tab and a live source changes that session's tree and then reaches its consumers; any other event changes nothing |
| CdpManager.CDPSessionManager.OfferToAll | chrome-extension/src/cdp-session-manager.js:501-513 | the fan-out moves the queues of the session's consumers and nothing else |
| CdpManager.CDPSessionManager.DisableAutoAttach | chrome-extension/src/cdp-session-manager.js:422-434 | switching auto-attach off changes the tree of one session and nothing else |
| CdpManager.CDPSessionManager.ResumeDrain | chrome-extension/src/cdp-session-manager.js:547-567 | a finished callback lets the drain go on |
| Text.Normalize | internal/registry/registry.go:353-367 | names trimmed, without blanks and duplicates, sorted |
| Text.NormalizedStringsAreTheReport | internal/registry/registry.go:353-367 | the normalized list is strictly sorted and holds exactly the reported names |
| Text.NormalizationIsIdempotent | internal/artifacts/store.go:487-504 | normalizing redaction rules twice changes nothing |
| Text.LessIff | internal/registry/registry.go:365 | strings are ordered by the first difference, a proper prefix first |
| Text.TrimIsTheMiddle | internal/registry/registry.go:356 | trimming takes off white space at both ends and nothing else |
| Registry.SearchStrings | internal/registry/registry.go:369-372 | binary search finds the first name that is not smaller |
| Registry.ContainsString | internal/registry/registry.go:369-372 | binary search agrees with membership |
| Registry.Registry.RegisterBrowser | internal/registry/registry.go:79-126 | a registration replaces the connection, keeps the first-seen time and an old name, and hands the previous connection out to be closed |
| Registry.Registry.DisconnectBrowser | internal/registry/registry.go:135-150 | only the owning connection disconnects |
| Registry.Registry.TouchBrowser | internal/registry/registry.go:153-163 | only the owning connection refreshes |
| Registry.Registry.UpdateBrowserCapabilities | internal/registry/registry.go:167-184 | only the owning connection reports capabilities |
| Registry.Registry.RecordBrowserLatency | internal/registry/registry.go:188-203 | only the owning connection reports latency, and no negative one |
| Registry.Registry.PruneDisconnected | internal/registry/registry.go:267-282 | removes exactly the browsers that went before the cutoff, and counts them |
| Registry.Registry.RouteCommand | internal/registry/registry.go:298-324 | the connection of a connected browser with the capability, or the first error that applies |
| Registry.EveryRunIsConsistent | internal/registry/registry.go:79-203 | over any run: connected, having a connection and having no disconnect time agree; lists stay searchable |
| Registry.StaleConnectionsAreFenced | internal/registry/registry.go:135-203 | after any run, an update from a connection that does not own the browser changes nothing |
| Registry.ReplacementTakesOver | internal/registry/registry.go:79-126 | after a new registration the new connection owns the browser and the old one does not |
| Registry.FirstSeenSurvives | internal/registry/registry.go:79-126 | the first-seen time of a browser that is not pruned never changes |
| Registry.PruneRemovesOnlyOffline | internal/registry/registry.go:267-282 | pruning never removes a connected browser |
| Registry.CapabilitiesAreTheLastReport | internal/registry/registry.go:167-184 | stored capabilities and permissions are the last accepted report, normalized |
| Registry.RouteGrantsIff | internal/registry/registry.go:298-324 | after any run, `Route` grants if and only if the browser is connected and the capability was last reported |
| Registry.OwnsIffOnline | internal/registry/registry.go:79-150 | over runs: a browser is connected through a connection if and only if that was its last accepted registration and it did not disconnect it since |
| Registry.LastSeenIsTheLastContact | internal/registry/registry.go:79-203 | the last-seen time is that of the last accepted message of its connection |
| Registry.OfflineIff | internal/registry/registry.go:135-150 | a retained browser is offline if and only if a disconnect by its connection took it offline |
| Registry.OfflineIsRecorded | internal/registry/registry.go:135-150 | and it shows when and why |
| Registry.KnownIff | internal/registry/registry.go:267-282 | a browser is retained if and only if it registered and no pruning found it offline before the cutoff since |
| Registry.LatencyIsTheLastMeasured | internal/registry/registry.go:188-203 | the latency shown is the one last measured through the current connection, in milliseconds |
| Registry.NameIsTheLastGiven | internal/registry/registry.go:88-115 | a browser has the name it was given last, by a registration or a renaming, or else its id |
| Registry.RegistrationIsRecorded | internal/registry/registry.go:79-126 | a registration starts a new snapshot; the first one sets the first-seen time |
| Router.Router.Enter | internal/router/router.go:145-162 | entering a request: refused when closed or on a collision, else one new row |
| Router.Router.HandleResponse | internal/router/router.go:208-227 | delivers to the one row that matches browser, connection and request, and removes it first; `Delivery.ReplyIsDelivered` says what that means for a call |
| Router.Router.FailAll | internal/router/router.go:230-288 | rows leave the table before each gets its one failure |
| Router.Router.FailConnection | internal/router/router.go:230-256 | fails and removes exactly the requests sent through the connection |
| Router.Router.Close | internal/router/router.go:259-288 | fails and removes all requests; a second `Close` returns 0 |
| Router.Router.RemovePending | internal/router/router.go:297-303 | removes the caller's own row and no other |
| Router.PendingRequest.Push | internal/router/router.go:208-227 | a push needs an empty slot, so that it never blocks |
| CommandRouter.CommandRouter.Begin | chrome-extension/src/command-router.js:552-559 | a request id runs at most once at a time |
| CommandRouter.CommandRouter.Cancel | chrome-extension/src/command-router.js:585-592 | aborts the run of this id and no other |
| Delivery.AbortedIffCancelled | chrome-extension/src/command-router.js:560-592 | in every run, a running execution is aborted if and only if a cancellation of its request reached its browser while it ran |
| CommandRouter.CommandRouter.Settle | chrome-extension/src/command-router.js:560-575 | the outcome is the handler's, or CANCELLED if the execution was aborted |
| CommandRouter.CommandRouter.End | chrome-extension/src/command-router.js:580-583 | the id is free again |
| Delivery.StepKeepsInv | internal/router/router.go:95-288 | every step of server, network and extension keeps the invariant of the protocol |
| Delivery.EveryRunKeepsInv | internal/router/router.go:95-288 | the invariant holds in every run: any interleaving of sends, timeouts, cancels, reconnects, losses and late responses |
| Delivery.ReturnedResultIsTheComputedOne | internal/router/router.go:145-204 | a `Send` that returns a browser result returns the one outcome computed for its request, received over the connection it was sent through; every other return is an error of the server |
| Delivery.OutcomesAreComputedOnce | chrome-extension/src/command-router.js:552-583 | an outcome is computed at most once for a request, by the browser it was addressed to, and never revised: CANCELLED if a cancellation reached the execution before its handler finished, whatever the handler did, else the handler's result |
| Delivery.OtherConnectionsResolveNothing | internal/router/router.go:208-227 | a response over any other connection than the call's changes no call and no row |
| Delivery.DeliveryNeverBlocks | internal/router/router.go:208-303 | at most one result ever reaches a call; a push finds the slot empty; a waiting call has a row or its result on the way; a returned call has no row |
| Delivery.WithdrawalIsOnesOwn | internal/router/router.go:297-303 | giving up or timing out removes no other call's row |
| Delivery.ClosedTableStaysEmpty | internal/router/router.go:259-288 | after `Close` the pending table stays empty |
| Delivery.AcceptedCallsAreAccountedFor | internal/router/router.go:145-288 | accepted = delivered + failed + withdrawn + pending |
| Delivery.RequestIsItsCalls | chrome-extension/src/service-worker.js:452-475 | a request on the wire is the only copy, for the browser its call chose, and was not executed yet |
| Delivery.RunsGrow | internal/router/router.go:95-288 | outcomes, connections and ids of a run are never revised; closed stays closed |
| Delivery.CallIsRouted | internal/router/router.go:131-134 | over runs: a call goes through the current connection of its browser if that is connected and has the capability, and returns the error that applies otherwise |
| Delivery.CallIsEntered | internal/router/router.go:152-162 | a routed call enters its row unless the router is closed |
| Delivery.RequestIsSent | internal/router/router.go:164 | a written request is on its way over the connection of its call |
| Delivery.RequestIsExecuted | chrome-extension/src/command-router.js:552-559 | a request that arrives is executed, and not aborted |
| Delivery.OutcomeIsSent | chrome-extension/src/service-worker.js:452-464 | a browser answers over its current connection with what its handler computed, result or error code |
| Delivery.ReplyIsDelivered | internal/router/router.go:208-227 | a reply that answers a call with a row, over the connection of the call, removes the row and is on its way to the call as it is, whatever its `success` |
| Delivery.ResultIsPushed | internal/router/router.go:222-226 | a result that has left the table is pushed into the empty slot |
| Delivery.ResponseIsReturned | internal/router/router.go:169-198 | a call returns the result its browser computed, or the error its handler failed with |
| Delivery.AnswersAreKept | internal/router/router.go:208-303 | once an answer has left the table the call keeps it, whatever happens |
| Delivery.DeliveredAnswerIsReturned | internal/router/router.go:169-198 | so a call whose answer was delivered returns that, if it returns something received |
| Delivery.ResultReachesTheCaller | internal/router/router.go:145-227 | end to end: whatever happened before, the result of a handler reaches the caller that waits for it; CANCELLED does if a cancellation had reached the handler |
| Delivery.CancelIsSent | internal/router/router.go:199-202 | a call that times out asks its browser to stop |
| Delivery.ConnectionFailureReachesExactly | internal/router/router.go:230-256 | exactly the calls that wait for an answer through the connection fail |
| Delivery.CloseReachesAll | internal/router/router.go:259-288 | every call that waits for an answer is cancelled |
| ArtifactFiles.NamesAreUnambiguous | internal/artifacts/store.go:454-475 | file names and artifacts correspond one to one; no artifact file is taken for a temporary one |
| ArtifactFiles.FileSystem.WriteAtomic | internal/artifacts/store.go:521-554 | at every moment the file is as before or has all of the data; failure leaves it as before |
| ArtifactStore.CrashLeavesWholeArtifacts | internal/artifacts/store.go:165-189 | whatever a crash left, artifacts that were not being removed are whole and unchanged, and a new one is whole or absent, unless a leftover metadata file of its id fits its content |
| ArtifactStore.NewArtifactIsWholeIff | internal/artifacts/store.go:165-189 | the new artifact is whole, absent or the old one of its id after every crash, if and only if no leftover metadata file of its id fits its content |
| ArtifactStore.ReopenAfterCrash | internal/artifacts/store.go:289-356 | a reopen after a crash at any moment of `Put` or a removal indexes what it would have indexed, and the new artifact with all its bytes or not at all, with the same exception |
| ArtifactStore.ReopenFindsNewArtifact | internal/artifacts/store.go:289-356 | without a metadata file of the new id in the directory there is no exception |
| ArtifactStore.WrittenArtifactIsStored | internal/artifacts/store.go:166-189 | files that `Put` wrote are read back as the metadata and bytes given, if and only if clock and MIME type pass the test of `load` |
| ArtifactStore.WrittenArtifactIsIndexed | internal/artifacts/store.go:309-342 | and a reopen indexes it if and only if its time to live is not over |
| ArtifactStore.SurvivorsAreTheNewest | internal/artifacts/store.go:358-416 | what is left when room is made: unexpired entries that fit; unexpired ones that went are older by (CreatedAt, ID) than all that are left, and with the newest of them the rest would not fit |
| ArtifactStore.UnusedIsFirst | internal/artifacts/store.go:440-452 | the id chosen is the first of the eight that is not used |
| ArtifactStore.NoneIffUsed | internal/artifacts/store.go:440-452 | none is chosen if and only if each is used, or the random source ran dry |
| ArtifactStore.TrimmingIsShortest | internal/artifacts/store.go:358-416 | evicted entries are older by (CreatedAt, ID) than all kept ones, the rest fits, and with the newest evicted it would not |
| ArtifactStore.SomeIsOldest | internal/artifacts/store.go:399-416 | a store with entries has an oldest one |
| ArtifactStore.OneIsOldest | internal/artifacts/store.go:399-416 | the oldest entry is unique |
| ArtifactStore.Store.OldestID | internal/artifacts/store.go:399-416 | finds the oldest entry by (CreatedAt, ID) |
| ArtifactStore.Store.RemoveFiles | internal/artifacts/store.go:430-438 | tries both files; at every moment only files of this artifact may be missing |
| ArtifactStore.Store.RemoveLocked | internal/artifacts/store.go:418-428 | the entry goes only if its files went; bytes are counted |
| ArtifactStore.Store.CleanupExpired | internal/artifacts/store.go:374-384 | removes exactly the expired entries, or on an error some of them |
| ArtifactStore.Store.Evict | internal/artifacts/store.go:362-397 | the eviction loops remove the shortest oldest-first prefix, or on an error part of it |
| ArtifactStore.Store.MakeRoom | internal/artifacts/store.go:358-372 | expired entries, then the shortest oldest-first prefix that makes room |
| ArtifactStore.Store.EnforceQuota | internal/artifacts/store.go:386-397 | the shortest oldest-first prefix goes, or on an error part of it |
| ArtifactStore.Store.NewID | internal/artifacts/store.go:440-452 | the first of eight random ids that is not in the index |
| ArtifactStore.Store.WriteFiles | internal/artifacts/store.go:175-186 | content before metadata; content without metadata is taken back |
| ArtifactStore.Store.Put | internal/artifacts/store.go:134-190 | the whole outcome: every error has its cause (cancellation, MIME type, size, ids, or an operation that failed), so that without one the artifact is stored with its bytes and metadata; what is evicted; that used bytes stay right and within the quota; and every directory a crash could leave |
| ArtifactStore.Store.Read | internal/artifacts/store.go:193-226 | every error has its cause, else the original bytes are returned; expired and lost artifacts are forgotten; a size mismatch never happens |
| ArtifactStore.Store.Delete | internal/artifacts/store.go:229-239 | removes one artifact or nothing, and fails only if an operation failed; repeated deletion is safe |
| ArtifactStore.Store.Cleanup | internal/artifacts/store.go:243-254 | removes exactly the expired entries and counts them |
| ArtifactStore.Store.Examine | internal/artifacts/store.go:309-340 | one metadata file: kept if complete, unexpired and examined |
| ArtifactStore.Store.LoadSidecar | internal/artifacts/store.go:305-342 | one metadata file of the listing is indexed or removed with its content |
| ArtifactStore.Store.IndexFiles | internal/artifacts/store.go:296-343 | the first pass indexes exactly the complete, unexpired artifacts |
| ArtifactStore.Store.RemoveOrphans | internal/artifacts/store.go:344-354 | the second pass removes content without an indexed artifact |
| ArtifactStore.Store.Load | internal/artifacts/store.go:289-356 | succeeds if no operation fails; a successful reopen indexes exactly the unexpired artifacts with complete content and metadata, trimmed to the quota, with original bytes, and leaves no orphan or temporary file; a crash during it harms none of them |
| RateLimiter.Bucket.Allow | internal/ratelimit/limiter.go:35-53 | one call: credit up to the burst, then decide and take a token |
| RateLimiter.AllowedIffNoWindowIsFull | internal/ratelimit/limiter.go:35-53 | a call is allowed if and only if it fits, with all allowed calls of the window, into burst + rate of every window that ends at it, also when the clock steps back |
| RateLimiter.NoWindowIsExceeded | internal/ratelimit/limiter.go:35-53 | no window gets more than burst + rate |
| RateLimiter.LevelIsLeastAllowance | internal/ratelimit/limiter.go:35-53 | the level of the bucket is the least allowance of all windows |
| RateLimiter.KeyedLimiter.Allow | internal/ratelimit/limiter.go:124-139 | the answer and the new states for a key; never more than `maxKeys` buckets |
| RateLimiter.KeyedLimiter.MakeRoom | internal/ratelimit/limiter.go:151-169 | idle keys go, then a least recently seen one if there is still no room |
| RateLimiter.KeyedLimiter.RemoveIdle | internal/ratelimit/limiter.go:152-156 | exactly the idle keys go |
| RateLimiter.KeyedLimiter.LeastRecentKey | internal/ratelimit/limiter.go:160-167 | finds a key that was seen no later than any other |
| RateLimiter.KeyedLimiter.Delete | internal/ratelimit/limiter.go:142-149 | releases one bucket |
| RateLimiter.ForgettingIsInvisible | internal/ratelimit/limiter.go:124-169 | with time to live x rate >= burst and an orderly clock the cache answers like a limiter that never forgets |
| RateLimiter.ForgettingShows | internal/ratelimit/limiter.go:124-169 | with a shorter time to live two bursts of one key, with another key asked for and released between them, are answered differently |
| RateLimiter.TransparentIffBucketsFill | internal/ratelimit/limiter.go:124-169 | for every limiter that can be made: forgetting makes no difference to any orderly run with room if and only if a bucket can fill in the time to live |
| RateLimiter.KeyedAnswersAreExact | internal/ratelimit/limiter.go:124-139 | every key gets exactly its own rate and burst |
| RateLimiter.RunsAreCached | internal/ratelimit/limiter.go:124-169 | in a run with room for its keys, whatever states and answers `Allow` and `Delete` may produce are those of the specification |
| RateLimiter.RunAnswersAreExact | internal/ratelimit/limiter.go:124-169 | so every answer of such a run is exactly what rate and burst of its own key allow, and what a limiter that never forgets would say |
| RateLimiter.AnswersAreExactWhileKept | internal/ratelimit/limiter.go:124-169 | in every run, with or without room: a call is allowed if and only if no window of the calls for its own key is full, from when the key was last unknown |
| RateLimiter.KnownKeys | internal/ratelimit/limiter.go:124-169 | which keys are known after each call of any run: a new key makes the idle ones go, and if there is still no room one that was asked for no later than all that stay |
| RateLimiter.LastSeenIsTheLastAsk | internal/ratelimit/limiter.go:35-53 | a bucket was last seen when its key was last asked for |
| RateLimiter.SameKeyIff | internal/ratelimit/limiter.go:124-127 | different keys have different buckets, except that the empty key is "anonymous" |
| ConsoleBuffer.ConsoleCapture.Append | chrome-extension/src/console-content.js:193-210 | a new entry gets the next cursor, loses its arguments and the end of its stack if it is too long, and evicts from the front |
| ConsoleBuffer.ConsoleCapture.EnforceBufferBounds | chrome-extension/src/console-content.js:216-222 | shifts to the longest run of newest entries that fits; the empty buffer is never shifted |
| ConsoleBuffer.BoundedIsLongest | chrome-extension/src/console-content.js:216-222 | no more is evicted than has to be |
| ConsoleBuffer.ConsoleCapture.Perform | chrome-extension/src/console-content.js:95-145 | start, stop, clear and arriving entries |
| ConsoleBuffer.Scan | chrome-extension/src/console-content.js:166-176 | the read loop finds the matches up to the limit and the last cursor looked at |
| ConsoleBuffer.ConsoleCapture.Read | chrome-extension/src/console-content.js:147-191 | a page: matches, next cursor, whether more is retained, whether the cursor expired |
| ConsoleBuffer.EveryRunKeepsInv | chrome-extension/src/console-content.js:104-109 | retained cursors are a contiguous run that ends at nextCursor - 1, within both bounds, through append, evict, clear and restart |
| ConsoleBuffer.NewestStays | chrome-extension/src/console-content.js:193-222 | the entry just stored is retained if it fits at all |
| ConsoleBuffer.StoredIffCaptured | chrome-extension/src/console-content.js:193-214 | over runs: an entry is stored if and only if the last valid start captures its kind and was not stopped since; it gets the next cursor and keeps everything, but for the arguments and the end of the stack of one that is too long |
| ConsoleBuffer.SettingsAreTheLastStart | chrome-extension/src/console-content.js:117-145 | buffer size and capture settings are those of the last valid start, and capture is on until a stop |
| ConsoleBuffer.RetainedIsLongest | chrome-extension/src/console-content.js:216-222 | over runs: after any step but a clear as many of the newest entries are retained as both bounds allow |
| ConsoleBuffer.ClearForgetsAll | chrome-extension/src/console-content.js:104-109 | a clear forgets every entry, and cursors go on |
| ConsoleBuffer.PageIsExact | chrome-extension/src/console-content.js:164-177 | what one page holds: the retained entries asked for by level, kind and time, up to its next cursor, in order; it is full if anything is left, and says so |
| ConsoleBuffer.ExpiredIffLost | chrome-extension/src/console-content.js:164-165 | a read after a positive cursor reports expiry if and only if a later entry was lost |
| ConsoleBuffer.PagingReadsEverythingOnce | chrome-extension/src/console-content.js:164-177 | after any run, paging until `hasMore` is false ends and returns exactly the retained entries after the cursor that have a level, kind and time asked for, each once, in order |
| ConsoleBuffer.FollowingIsComplete | chrome-extension/src/console-content.js:164-177 | with interleaved arrivals, evictions, clears and restarts no entry is returned twice or out of order, and if no read reported expiry none is missing |
| ConsoleBuffer.FollowersMayStart | chrome-extension/src/console-content.js:182-187 | following may start at any cursor handed out |
| NetworkActivity.Observer.OnStarted | chrome-extension/src/network-activity.js:32-38 | a tracked request begins and the tab's subscribers evaluate |
| NetworkActivity.Observer.OnFinished | chrome-extension/src/network-activity.js:40-46 | a tracked request ends and the tab's subscribers evaluate |
| NetworkActivity.Observer.Notify | chrome-extension/src/network-activity.js:52-55 | every subscriber of the tab evaluates, and no other |
| NetworkActivity.Observer.Evaluate | chrome-extension/src/network-activity.js:88-111 | the timer is set for what remains of the idle period, or not at all while requests are active |
| NetworkActivity.Observer.WaitForIdle | chrome-extension/src/network-activity.js:57-125 | a new waiter subscribes and evaluates, unless refused |
| NetworkActivity.Observer.Finish | chrome-extension/src/network-activity.js:75-87 | the first outcome settles a waiter and unsubscribes it |
| NetworkActivity.Observer.Reset | chrome-extension/src/network-activity.js:127-134 | everything remembered is dropped and all subscribers evaluate |
| NetworkActivity.EveryRunKeepsInv | chrome-extension/src/network-activity.js:32-134 | over every run: active sets match the open requests since the last reset, timers are never early, the subscriber table is exact |
| NetworkActivity.IdleIsIdle | chrome-extension/src/network-activity.js:88-111 | a waiter that fulfils has had a whole idle period since its start, without an event of its tab since the last reset and with every request ended |
| NetworkActivity.IdleIsIdleWithoutReset | chrome-extension/src/network-activity.js:88-111 | without resets: no tracked event at all in the idle period, and an empty active set |
| NetworkActivity.QuietTabsHaveTimers | chrome-extension/src/network-activity.js:88-111 | a waiting waiter has a timer if and only if its tab has no open request |
| NetworkActivity.SubscribersAreTheUnsettled | chrome-extension/src/network-activity.js:75-87 | the subscriber table holds exactly the unsettled waiters |
| NetworkActivity.SettledOnce | chrome-extension/src/network-activity.js:82-87 | the outcome of a waiter never changes |
| NetworkActivity.EventsAreTheHistory | chrome-extension/src/network-activity.js:32-50 | over runs: exactly the events of requests in tabs count, WebSockets do not, and what does not count changes nothing |
| NetworkActivity.WaitersFollowTheCalls | chrome-extension/src/network-activity.js:57-125 | each call adds one waiter for its tab and period; it fulfils when its timer fires, rejects when it is aborted, and nothing else settles it |
| NetworkActivity.TimersAreExact | chrome-extension/src/network-activity.js:88-111 | over runs: a timer is due exactly one idle period after the call and the last event of the tab that is remembered, or at the last reset if that is later |
| NetworkActivity.ResetBreaksIdleness | chrome-extension/src/network-activity.js:127-134 | a run in which a waiter for 500 idle milliseconds fulfils while a request is open that began 500 ms ago |
| NetworkActivity.OpenJoin | chrome-extension/src/network-activity.js:32-46 | a request is open if its last event says so: over two stretches of history, if it is open in the second, or open in the first and not mentioned in the second |
| NetworkActivity.IdleIffForgottenIsOver | chrome-extension/src/network-activity.js:88-134 | in any run, a waiter that fulfils keeps the whole promise if and only if what the last reset forgot is older than the idle period and every request open then has been heard of since |
| NetworkActivity.GuardedResetsKeepIdleness | chrome-extension/src/network-activity.js:88-134 | in runs with any number of resets, each made while the tab has no active request and no waiter depends on its last activity, a waiter that fulfils keeps the whole promise |
| NetworkActivity.ResetKeepsIdlenessIff | chrome-extension/src/network-activity.js:127-134 | if the earlier resets were made so, the promise survives a reset in every continuation up to the next one, if and only if that reset is made so too |
| ElementReferences.ReferenceTable.CreateReference | chrome-extension/src/locator-engine.js:187-209 | the id of the element, its entry moved to the end, room made if the table is full |
| ElementReferences.ReferenceTable.MakeRoom | chrome-extension/src/locator-engine.js:197-202 | a full table is purged, then shifted until there is room |
| ElementReferences.ReferenceTable.ResolveReference | chrome-extension/src/locator-engine.js:211-234 | the element, its entry renewed and moved to the end; or the entry is removed |
| ElementReferences.ReferenceTable.Purge | chrome-extension/src/locator-engine.js:236-243 | removes exactly what expired or is detached |
| ElementReferences.TableIsOrdered | chrome-extension/src/locator-engine.js:187-243 | in every run: at most 5,000 references, in the order of expiry and of last use |
| ElementReferences.ResolvesIff | chrome-extension/src/locator-engine.js:211-234 | resolution succeeds if and only if the reference is of this document, unexpired, attached and, since its last use, not evicted, found detached or asked for in another document |
| ElementReferences.EvictionIsLeastRecentlyUsed | chrome-extension/src/locator-engine.js:197-202 | only a creation evicts, only from a full table of live references, and then the least recently created or resolved; resolving and purging never evict |
| ElementReferences.ResolvesForItsTime | chrome-extension/src/locator-engine.js:187-243 | a reference that was created or resolved in a document can be resolved, in that document only, for exactly one time to live, as long as its element is attached and fewer than 5,000 other creations and resolutions came in between |
| PageOutput.Serializer.Append | chrome-extension/src/content.js:1369-1378 | appending: what was written is the first `maxChars` characters of all that was to be written |
| PageOutput.Serializer.SerializeElement | chrome-extension/src/content.js:1386-1415 | one element, with the depth limit: nothing is written after the first node that is too deep |
| PageOutput.SerializeElements | chrome-extension/src/content.js:1364-1422 | the HTML is the first `maxChars` characters of the serialization to `maxDepth`; a prefix of the serialization without bounds, and truncated if and only if it differs from it |
| PageOutput.LinesToDepthAreCut | chrome-extension/src/content.js:1386-1415 | the serialization to a depth is a prefix of the one without bounds, and cut if and only if a node has shown children below the last level |
| PageOutput.SerializationReadsBack | chrome-extension/src/content.js:1380-1415 | the serialization without bounds reads back as the page: tags, attributes and text in order, but for what is redacted or excluded |
| PageOutput.HiddenContentStaysHidden | chrome-extension/src/content.js:1386-1415 | secret attribute values and the content of sensitive and excluded elements have no influence on the HTML |
| PageOutput.EscapingIsCharacterwise | chrome-extension/src/content.js:1480-1486 | the replacement passes do not disturb each other |
| PageOutput.EscapedIsSafe | chrome-extension/src/content.js:1480-1486 | escaped text contains no `<` or `>`, escaped attributes no quote either |
| PageOutput.EscapingIsLossless | chrome-extension/src/content.js:1480-1486 | reading the entities back gives the original text |
| PageOutput.TextCollector.Add | chrome-extension/src/content.js:250-266 | a piece of text is collected up to the scan limit |
| PageOutput.TextCollector.Visit | chrome-extension/src/content.js:268-286 | walks visible text in document order, shadow content included, sensitive fields redacted |
| PageOutput.GetText | chrome-extension/src/content.js:240-304 | a page is the slice [offset, offset + maxChars) of the whole visible text, with a next cursor exactly when more remains; the scan cap never shows |
| PageOutput.PiecesAreTheVisibleText | chrome-extension/src/content.js:268-286 | the pieces of text are exactly the words of the text nodes that are in no excluded, invisible or sensitive element, and one marker for each visible sensitive element |
| PageOutput.NormalizedTextIsItsWords | chrome-extension/src/content.js:1474-1478 | normalized text is the words of a text with one blank between them |
| PageOutput.PiecesAreInOrder | chrome-extension/src/content.js:282-286 | pieces come in document order |
| PageOutput.ShadowComesLast | chrome-extension/src/content.js:282-286 | and those of a shadow tree after the other content |
| PageOutput.HiddenTextStaysHidden | chrome-extension/src/content.js:268-286 | the content of excluded, invisible and sensitive elements has no influence on the text |
| PageOutput.PagingIsWholeIff | chrome-extension/src/command-router.js:694-704 | following the cursors returns the rest of the text if and only if no cursor beyond the largest is needed |
| PageOutput.PagingFromTheStart | chrome-extension/src/command-router.js:645-652 | the same from the start, in terms of length and page size |
| PdfRanges.PageIffDenoted | internal/tools/pdf.go:291-297 | a text is read as page n if and only if it is a decimal numeral of n, with or without a plus sign and white space around it, and n is between 1 and 100,000 |
| PdfRanges.RangeIffDenoted | internal/tools/pdf.go:266-288 | a token is read as first-last if and only if it is one page, or two pages in ascending order with a dash between them |
| PdfRanges.IntervalsIffDenoted | internal/tools/pdf.go:253-289 | a text is read as a list of ranges if and only if, trimmed, it is at most 256 bytes and 50 ranges joined by commas |
| PdfRanges.NormalizePageRanges | internal/tools/pdf.go:253-289 | the parsed intervals, printed; refused exactly when they cannot be parsed or are too many or too long |
| PdfRanges.NormalizationKeepsIntervals | internal/tools/pdf.go:253-289 | keeps the ordered intervals, is never longer than the trimmed input, and both acceptors read the same intervals from it |
| PdfRanges.NormalizeTwice | internal/tools/pdf.go:253-289 | normalizing twice changes nothing, and the extension accepts the output |
| PdfRanges.RangeIsReadBack | chrome-extension/src/command-router.js:2532-2539 | both acceptors read a printed range as that range |
| PdfRanges.SplitOfJoin | internal/tools/pdf.go:261-288 | splitting undoes joining |
| PdfRanges.ItoaIsDecimal | internal/tools/pdf.go:283-287 | printed numbers are decimal numerals of their value |
| PdfRanges.ItoaIsShortest | internal/tools/pdf.go:283-287 | and no numeral of the value is shorter |

## Left out

- ArtifactStore.ReopenAfterCrash: assumes that directory operations reach the disk in their order.
- RateLimiter.RunsAreCached: assumes room for the keys of the run; without room `RateLimiter.AnswersAreExactWhileKept` and `RateLimiter.KnownKeys` say what holds, and which of several keys asked for last at the same time makes way is left open.
- RateLimiter.Bucket.Allow: tokens are real numbers and durations do not saturate; the rounding of floating point is left out.
- RateLimiter.AllowedIffNoWindowIsFull: assumes a clock that never shows the zero time, by which a new bucket is recognized.
- NetworkActivity.IdleIsIdle: assumes one clock for timers and time stamps, which does not step back.
- Consumer options, `sendCommand`, method allowlists and `ensureAutoAttach` of the session manager: checks and calls into the browser. Whether auto-attach is enabled is not modelled: switching it off may happen at any time, to any session. The domain and event filters of consumers are one set of consumers that want the event.
- Callbacks of consumers (`onDetach`, error reports): assumed not to call back into the manager synchronously. The part of a release after its await may run at any time, more often than real schedules allow.
- CdpSessions.LeaseGrantedIff: speaks of the check made once the session is ready. A consumer with child targets gets its lease after a further await, without another look at the session (`CdpManager.CDPSessionManager.FinishAutoAttach`); when such a lease is alive is said by `CdpSessions.AliveUntilEnded`.
- The libraries of the artifact store: the MIME type is given as parsed and formatted, JSON is a lossless encoding (`ArtifactStore.Lossless`), the random source delivers well-formed ids, the creation of the directory and its permissions are left out.
- Sorting of ids in `oldestIDLocked`: the model scans for the least one.
- Parsing of parameters of the page scripts: cursors, limits, filters and selectors are given parsed; timestamps are milliseconds; the length of an entry's JSON, long or shortened, is a parameter; which attributes are secret and which elements are sensitive, visible or excluded is given with the page; the `redacted` flag is left out.
- Ids of element references: assumed not to be repeated by the generator; the clock of the table does not step back.
- Strings that are not valid UTF-8 or UTF-16: a string is a sequence of code points.
- The registry's `List`, `Get` and `Count`: plain reads. `Rename` is a step of `Registry.Step` without a method; fields that are only copied are one opaque text.
- Building the request message of a `Send`, its target and the remaining time sent with it: not part of this model. A failed write may or may not have put the message on the wire.
- WebSocket, HTTP, STDIO and MCP plumbing, configuration, tool registration, the popup and options pages, screenshots, input, redaction rules, URL origins and the session selection store: not part of this model.
