# Verification model of the CnSS platform

A Dafny model of the parts of the channel monitoring platform where several components have to agree: the
deduplicated WebSocket subscriptions of the server, the path of a packet from a communication node to the
database, the aggregations that report it, and the state machines of the browser client. `dafny verify dfyconfig.toml`
checks everything.

## How it is built

Classes whose methods change state (in Redis, in the database or in the browser) are classes here, and every method is
proved to compute a function of the old state. The laws are then proved about these functions, over all runs.

- **Subscriptions** (`CompositeKeys`, `SubscriptionContract`, `SubscriptionStore`, `SubscriptionService`, `GhostCleaner`,
  `WebSocketServer`, `SharedPolling`, `Reporting`). Clients that want the same query share one registry entry and one SQL
  execution, and the consumer fans the result out again. The headline is that this refines a system that runs one query
  per subscription (`SharedPolling.SharedTickIsNaiveTick`). `Interleaving` splits the operations into their Redis round
  trips, and `Undisturbed` puts them together again; `Heartbeat` times the sessions, and `TimedScans` puts the round
  trips and the sessions on one clock.
- **Ingestion** (`SequenceTracking`, `ConcurrentTracking`, `TrackingSteps`, `ChannelState`, `DropLedger`,
  `LedgerSteps`, `PacketBuffer`, `PushInterleaving`, `PushTotals`, `PushOvershoot`, `UdpServer`): drop counting, channel
  activity, the capped buffer and the flusher, serially, in time and interleaved.
- **Aggregation** (`SqlSums`, `FlowQueries`, `History`): SQL as functions over a sequence of rows, clause by clause.
- **Browser** (`WebSocketConnection`, `ClientSubscriptions`, `ConnectionStatus`, `ClientUpdates`, `JsonText`,
  `JsonReading`, `CanonicalKey`, `PropertyOrder`, `ChartBuckets`, `ChartRefinement`, `ChartEntries`, `EarlyChart`).
- `SetSums` and `Wrappers` hold what several of them need.

## What is assumed

- The truncated SHA-256 digest of a query has no collisions and no colon; client ids are fresh UUIDs without a colon;
  `crypto.randomUUID` never repeats an id.
- A Redis command or Lua script is one atomic step, and so is a pipeline. The pipelines are created with
  `transaction=False`, although the comments call them atomic; `Interleaving.SplitPipelinesOrphanAListener` shows what
  atomicity is needed for.
- JSON and ISO 8601 texts written by the platform read back as what was written. Numbers in the database are exact. The
  chart's averages, IEEE doubles in the browser, are real numbers here, so that their totals are conserved exactly.
- Fan-out and disconnect are stated for whole operations; the interleaved window between SCARD and the clean-up pipeline
  is treated exactly in `Interleaving`.

## Where code and intention differ

- A comment in `compute_query_hash`'s caller says None values are left out of the hash; the code keeps them, and so does
  the model.
- The ghost cleaner logs that it removes malformed listener entries but keeps them; the model keeps them.
- A sub_id with a colon is never delivered to and never collected as its client's; the theorems say exactly what happens.
  The ghost cleaner removes its listener even while the client is connected, except when the id is `subs:` and a
  colon-free rest: then the cleaner looks for the key of the client's tracking set, which has no TTL, and keeps the
  listener, after a crash for good (`WebSocketServer.LeftoverIsForever`).
- Between its SCARD and its clean-up pipeline a scan can take a new listener from a client whose session is there all
  the time (`TimedScans.SteadyClientCanLose`).
- With a batch of exactly the buffer's capacity, LTRIM 0 -1 keeps the old list, so the cap is exceeded.
- A record whose time is a text but not ISO 8601 makes the flusher lose the whole popped list; other bad records,
  one with a time that is no text among them, only themselves.
- A channel whose hash only ever held drops gets an active row with no activity date, which never times out
  (`ChannelState.DropsAloneStayActive`).
- Cleaning up after a crash takes up to two scan durations on top of TTL and interval, because a scan that has already
  read a hash may have to finish first; no shorter deadline holds (`TimedScans.DeadlineIsTight`).
- Every top destination is reported as WAN: the LAN branch cannot be reached.
- In the browser, disconnecting does not always disconnect. While a switch of channel is scheduled it still connects to
  the scheduled channel. And the close is requested without a code, so that the browser normally reports code 1005,
  which is one of the codes that reconnect: the timer then connects to the channel just left.
- Once a connection has gone idle it is shown as inactive until a socket opens anew, even if updates arrive again.
- A node that starts its numbers over within a million of the last one is not noticed: its batches are taken for late
  ones until they pass that number.
- In the chart a live point with the time of the last entry takes that entry's place. And when live points come before
  the history, the limit drops the early ones first, although they are the newer ones
  (`EarlyChart.NewerPointIsDropped`; `EarlyChart.LatestAreHeldIff` says exactly when the map keeps the latest).
- Two batches of a channel that are tracked at the same time can count drops that never happened
  (`ConcurrentTracking.OvertakenSetCounts`; `ConcurrentTracking.CountIsRightIff` says exactly when they do not).
- A token renewal that completes after the user has connected anew opens a second socket beside the first
  (`ClientSubscriptions.RenewalOpensAnother`).
- The subscription key does not distinguish `[undefined]` from `[]`, nor a member named `__proto__` from none.

## Model

| member | source | states |
|---|---|---|
| SharedPolling.SharedTickIsNaiveTick | cnss/services/reporting/poller.py:113-229 | After any run of whole operations, one tick with its fan-out sends exactly the messages that one query per subscription would send to every connected subscriber with a colon-free id: its own query's payload, stamped with its own id, and nothing to anyone else |
| SharedPolling.AgreementIsColonFreedom | cnss/services/websocket/pubsub_consumer.py:125-143 | The shared and the naive system agree on all subscriptions if and only if no connected subscription whose id holds a colon has data |
| SharedPolling.RunRefines | cnss/services/websocket/subscription.py:55-142 | In every run the registry, the index, the listeners and the tracking sets represent exactly the naive system's subscriptions |
| SharedPolling.StepRefines | cnss/services/websocket/server.py:102-168 | Each whole operation (open, message, close, lapse, crash, scan) keeps that representation |
| SharedPolling.RowServesItsSubscription | cnss/core/contracts/subscriptions.py:89-101 | A listener's shared payload is the one its own request would have produced, for handlers that read nothing but the query |
| SubscriptionContract.KeyIsTheQuery | cnss/core/contracts/subscriptions.py:17-25 | Two requests have one key if and only if channel and target are equal and every parameter other than `id` is missing from both or holds the same value in both |
| SubscriptionService.SharedIffSameQuery | cnss/services/websocket/subscription.py:72-90 | Two subscribes to queries not yet registered make one registry entry if they ask the same query and two otherwise; each listens to an entry for its own query |
| SharedPolling.SubscribeSharesIff | cnss/services/websocket/subscription.py:72-80 | After any run a subscribe adds a registry entry if and only if no entry is for its query |
| SharedPolling.EntryPerQuery | cnss/services/websocket/subscription.py:72-90 | In every run the registry holds one entry per query: two entries for the same query are the same entry |
| SharedPolling.UnreadableRowsAreSilent | cnss/services/websocket/pubsub_consumer.py:126-138 | Listeners whose sub_id has a colon are cut elsewhere and reach nobody who is connected |
| SharedPolling.DisconnectIsExact | cnss/services/websocket/gc.py:56-132 | After any run, closing a connection removes all of the client's readable listeners, keeps everyone else's, and removes a touched hash exactly when no listener is left |
| SharedPolling.CollectedRows | cnss/services/websocket/gc.py:70-88 | What a client's tracking set leads to is exactly its readable listeners |
| SharedPolling.SubscribedStore | cnss/services/websocket/subscription.py:72-90 | Subscribing keeps registry keys, index and listened-to hashes equal, with every entry filed under its own query |
| SharedPolling.UnsubscribedStore | cnss/services/websocket/subscription.py:117-139 | Unsubscribing keeps the same |
| SharedPolling.SubscribedTracked | cnss/services/websocket/subscription.py:89-90 | After a subscribe every readable listener is still in its client's tracking set |
| SharedPolling.UnsubscribedTracked | cnss/services/websocket/subscription.py:138-139 | Also after an unsubscribe |
| SharedPolling.ScannedStore | cnss/services/reporting/ghost_cleaner.py:87-216 | A ghost scan keeps the same, and leaves exactly the listeners whose owner's key exists |
| CompositeKeys.RSplitUndoesComposite | cnss/services/websocket/pubsub_consumer.py:128 | Cutting at the last colon gives the pair back if and only if the second part has no colon |
| CompositeKeys.ColonMovesTheCut | cnss/services/reporting/ghost_cleaner.py:141-146 | With a colon in the id the owner that is read back has a colon in it, so it is no client |
| CompositeKeys.CompositeInjective | cnss/services/websocket/subscription.py:70 | Two (client, sub_id) pairs never share a listener entry when client ids have no colon |
| SubscriptionStore.MembersAreRows | cnss/services/websocket/subscription.py:47-49 | The members of a hash are exactly its listener rows, and it has none exactly when nobody listens |
| SubscriptionStore.RemoveOneMore | cnss/services/websocket/gc.py:96-132 | Cleaning pair by pair is cleaning all pairs at once |
| SubscriptionStore.Redis.Scard | cnss/services/websocket/subscription.py:122 | The number of listeners of a hash; zero exactly when nobody listens |
| SubscriptionStore.Redis.DropSubscription | cnss/services/websocket/subscription.py:126-130 | Registry entry, listeners and index entry of one hash go, all others stay |
| SubscriptionService.Session.Create | cnss/services/websocket/session.py:57-86 | The session key exists and the tracking set starts empty |
| SubscriptionService.Session.Destroy | cnss/services/websocket/session.py:106-115 | Session key and tracking set are gone |
| SubscriptionService.Session.AddSubscription | cnss/services/websocket/session.py:123-134 | The (hash, sub_id) entry joins the client's tracking set |
| SubscriptionService.Session.RemoveSubscription | cnss/services/websocket/session.py:139-147 | The entry leaves it |
| SubscriptionService.SubscriptionManager.Subscribe | cnss/services/websocket/subscription.py:55-96 | NX registration, listener, index and tracking entry, as the store specification says; the first request of a query stays registered |
| SubscriptionService.SubscriptionManager.Unsubscribe | cnss/services/websocket/subscription.py:101-141 | SREM, then the clean-up pipeline exactly when SCARD is zero, then the tracking entry |
| SubscriptionService.GarbageCollector.ReadPairs | cnss/services/websocket/gc.py:66-83 | The tracked pairs; fails as a whole on an entry without a colon |
| SubscriptionService.GarbageCollector.Cleanup | cnss/services/websocket/gc.py:56-94 | The loop over the tracked pairs, in any order, removes exactly their listener rows and the hashes left empty by that; a malformed entry leaves everything as it was |
| SubscriptionService.GarbageCollector.CleanupSubscription | cnss/services/websocket/gc.py:96-132 | One pair: nothing if it was not a member, otherwise SREM and, on the last one, the hash |
| SubscriptionService.CollectedIs | cnss/services/websocket/gc.py:66-94 | A client's clean-up changes nothing if one of its entries has no colon; otherwise it removes exactly the listeners that its entries, cut at their last colons, name |
| WebSocketServer.TrackingIsTold | cnss/services/websocket/session.py:123-147 | In every run a client's tracking set holds exactly what it subscribed to on its connection and has not given up since; lapses, scans and crashes change nothing in it |
| WebSocketServer.Server.OpenConnection | cnss/services/websocket/server.py:107-128 | A new connection has a session, an empty tracking set and an entry in the connection table |
| WebSocketServer.Server.CloseConnection | cnss/services/websocket/server.py:153-168 | The connection leaves the table first, then its listeners are collected, then the session is destroyed |
| WebSocketServer.Server.ProcessMessage | cnss/services/websocket/server.py:223-254 | Invalid messages are ignored, a foreign channel closes the connection, the rest goes to the subscription manager |
| WebSocketServer.LeftoverIsForever | cnss/services/websocket/session.py:53-86 | A crashed client's listener with an id of the form `subs:x` is still there after any later run: no scan, no other client's operation and no later connection ever removes it |
| WebSocketServer.SubscribeThenCrash | cnss/services/reporting/ghost_cleaner.py:148-154 | One subscribe with such an id and a crash of the server lead there |
| GhostCleaner.FullScanHeals | cnss/services/reporting/ghost_cleaner.py:87-216 | From any store, a full scan against fixed keys removes no live listener, leaves exactly the indexed hashes with a listener left, and a second scan changes nothing; it removes every ghost (a listener whose owner names neither a session nor a tracking set) if and only if none sits under a hash outside the index |
| GhostCleaner.IndexedScanIsExact | cnss/services/reporting/ghost_cleaner.py:112-216 | When everything was indexed, registry and index end as exactly the hashes with a listener left |
| GhostCleaner.GhostOfClient | cnss/services/reporting/ghost_cleaner.py:141-154 | A listener is kept if and only if its id has no colon and its client has a session, or its id is `subs:` and a colon-free rest and its client has something tracked |
| GhostCleaner.RemovedIff | cnss/services/reporting/ghost_cleaner.py:134-176 | A full scan removes a listener entry if and only if its hash is in the index, it holds a colon, and what stands before the last one is neither a session nor a tracked client's id followed by `:subs`; entries without a colon stay |
| GhostCleaner.LapsedListenerStays | cnss/services/websocket/session.py:53-55 | Under an indexed hash, a listener whose client has no session survives a scan if and only if its id is of that second kind and the client's tracking set is not empty |
| GhostCleaner.ScanOneMore | cnss/services/reporting/ghost_cleaner.py:109-110 | Cleaning hash by hash in any order is cleaning all of them |
| GhostCleaner.Cleaner.ScanAndClean | cnss/services/reporting/ghost_cleaner.py:87-110 | The scan over a snapshot of the index computes the scan specification |
| GhostCleaner.Cleaner.CleanSubscription | cnss/services/reporting/ghost_cleaner.py:112-196 | One hash: ghosts removed, the hash dropped exactly when it ends empty |
| GhostCleaner.Cleaner.GroupByClient | cnss/services/reporting/ghost_cleaner.py:134-146 | Every parsable listener is filed under its owner and under no other |
| GhostCleaner.Cleaner.StaleMembers | cnss/services/reporting/ghost_cleaner.py:148-166 | Stale are exactly the parsable listeners whose owner's key does not exist, tracking sets counted as keys |
| GhostCleaner.Cleaner.CleanupEmpty | cnss/services/reporting/ghost_cleaner.py:198-216 | Registry entry, listeners and index entry of the hash go |
| Reporting.RegistrationIsLocal | cnss/services/reporting/poller.py:60-69 | Registering a handler replaces exactly the messages of its target's hashes: they send what a poller with this handler alone would send, all others what they sent |
| Reporting.Poller.Tick | cnss/services/reporting/poller.py:113-138 | Over the active hashes in any order, what is published is exactly each hash's publication |
| Reporting.Poller.ProcessSubscription | cnss/services/reporting/poller.py:142-222 | Published if and only if somebody listens, the registry entry exists, its target has a handler and the handler has data |
| SharedPolling.PublishedIff | cnss/services/reporting/poller.py:170-214 | Any payload is a hash's publication if and only if somebody listens to the hash, its registry entry exists, and the handler of that entry's target yields this payload for it |
| Reporting.PubSubConsumer.HandleMessage | cnss/services/websocket/pubsub_consumer.py:88-146 | What is sent is exactly the fan-out of the message to its listeners; a listener without a colon stops it before anything is sent |
| Reporting.PubSubConsumer.GroupByClient | cnss/services/websocket/pubsub_consumer.py:123-129 | Grouping by client neither loses nor adds a delivery |
| Reporting.PubSubConsumer.SendGroups | cnss/services/websocket/pubsub_consumer.py:131-138 | Every group of a connected client is sent, the others are skipped |
| Reporting.PubSubConsumer.SendGroup | cnss/services/websocket/pubsub_consumer.py:140-146 | One copy per sub_id, with that id injected, in order |
| Reporting.GroupGrows | cnss/services/websocket/pubsub_consumer.py:126-129 | Filing one more listener adds exactly its delivery |
| Reporting.ConsumedByKey | cnss/services/websocket/pubsub_consumer.py:78-81 | Publications consumed in any order send, in total, what each hash's publication sends |
| Reporting.ConsumedIsShared | cnss/services/reporting/poller.py:134-138 | Consuming a tick's publications is the shared tick of the model |
| Reporting.TickAndConsume | cnss/services/reporting/poller.py:113-138 | A tick followed by its consumption adds exactly the shared tick's messages to what was sent |
| Interleaving.RegistryAlwaysIndexed | cnss/services/websocket/subscription.py:73-130 | With subscribe, unsubscribe, disconnect and scan split into their Redis round trips, crashes and lapsing sessions included, registry keys equal active hashes and every listener's hash is active, in every interleaving |
| Undisturbed.SubscribeUndisturbed | cnss/services/websocket/subscription.py:72-90 | Split into its round trips and left alone, a subscribe does what it does in one piece |
| Undisturbed.UnsubscribeUndisturbed | cnss/services/websocket/subscription.py:117-139 | So does an unsubscribe |
| Undisturbed.CollectUndisturbed | cnss/services/websocket/gc.py:56-132 | So does the clean-up of a disconnect, in any order of its pairs |
| Undisturbed.ScanUndisturbed | cnss/services/reporting/ghost_cleaner.py:87-216 | So does a scan, in any order of its hashes and clients |
| Undisturbed.SomePicksFinish | cnss/services/reporting/ghost_cleaner.py:109-110 | Wherever such a process stands, some order of its loops brings it to its end |
| Interleaving.DropDestroysLateSubscribers | cnss/services/websocket/subscription.py:118-130 | A clean-up pipeline destroys exactly the listeners that subscribed after its process last saw the hash empty and are still there; it is harmless if and only if there are none |
| Interleaving.LateSubscribersAreThere | cnss/services/websocket/subscription.py:117-130 | A listener is present at a step if and only if it subscribed in the window and nothing has removed it since |
| Interleaving.SubscribingInTheWindowIsLost | cnss/services/websocket/subscription.py:122-130 | A concrete run in which a subscriber between SCARD and the pipeline stays tracked but hears nothing |
| Interleaving.SplitPipelinesOrphanAListener | cnss/services/websocket/subscription.py:74-87 | If the commands of two pipelines could mix, a listener could stay without registry entry or index |
| Heartbeat.AliveIffSteady | cnss/services/websocket/session.py:57-100 | A session is alive if and only if no gap between its refreshes, the last one counted up to now, has reached the TTL; a lapsed session never comes back |
| Heartbeat.TimedSession.RefreshTtl | cnss/services/websocket/session.py:92-100 | The deadline moves only if the key still exists |
| Heartbeat.TimedSession.HeartbeatLoop | cnss/services/websocket/server.py:202-218 | After any rounds of the loop, failed refreshes included, the session is alive if and only if every gap between refreshes that worked, the last one up to now, stayed below the TTL |
| Heartbeat.AliveAtIffSteadyAt | cnss/services/websocket/session.py:57-100 | At any moment of a run of refreshes: the key exists if and only if no gap up to that moment has reached the TTL |
| Heartbeat.SteadyClientsAreSafe | cnss/services/reporting/ghost_cleaner.py:148-166 | A scan taken as one instant leaves every listener of a client whose refreshes stay less than the TTL apart, and takes every listener, under the hashes it visits, of a client whose refreshes do not |
| TimedScans.SteadyClientsLoseOnlyLate | cnss/services/reporting/ghost_cleaner.py:112-196 | Round trip by round trip, in every interleaving on one clock: while a client's refreshes stay less than the TTL apart, the SREM of a scan takes none of its listeners if the session was there when the members were read; the scan's clean-up pipeline takes exactly the listeners that subscribed after the scan last saw the hash empty and are still there; no other round trip of a scan takes any |
| TimedScans.VisitSparesThePresent | cnss/services/reporting/ghost_cleaner.py:148-176 | An SREM never takes a listener whose owner had a session at each of the visit's checks |
| TimedScans.SteadyClientCanLose | cnss/services/reporting/ghost_cleaner.py:178-216 | In a run from the start, with the client's session there at every step: it gives up a listener and subscribes again while a scan is between its SMEMBERS and its pipeline, and the pipeline takes the new listener |
| TimedScans.PassClearsTheDead | cnss/services/reporting/ghost_cleaner.py:87-110 | A scan that starts after the session lapsed leaves none of the client's readable listeners, whatever subscribes, unsubscribes, disconnects and other scans run between its round trips |
| TimedScans.FirstPassAfter | cnss/services/reporting/ghost_cleaner.py:74-77 | Some scan starts within one interval and one scan duration of any moment |
| TimedScans.CrashIsCleanedInTime | cnss/services/reporting/ghost_cleaner.py:69-85 | After a crash all of the client's readable listeners are gone within TTL + scan interval + two scan durations of its last refresh, and stay gone, in every interleaving of round trips |
| TimedScans.DeadlineIsTight | cnss/services/reporting/ghost_cleaner.py:69-85 | For every interval and every scan duration above zero some run still has the listener one tick before that deadline |
| SequenceTracking.SequenceTracker.ProcessSequence | cnss/services/ingestion/sequence_tracker.py:38-99 | Baseline, reset, gap, late and in-order cases, and what is stored in each |
| SequenceTracking.DropsAreGaps | cnss/services/ingestion/sequence_tracker.py:50-99 | Between resets, total drops = (highest - baseline) - number of advancing batches, and the stored number is the highest seen |
| SequenceTracking.DropsCountMissingAndLate | cnss/services/ingestion/sequence_tracker.py:77-94 | The total counts the numbers that never arrived and those that arrived late; it counts only missing ones if and only if nothing arrived late |
| SequenceTracking.ResetStartsAfresh | cnss/services/ingestion/sequence_tracker.py:64-75 | After a reset the tracker behaves as if the channel had just started |
| SequenceTracking.NoResetIff | cnss/services/ingestion/sequence_tracker.py:67 | A run of numbers has no reset if and only if none is more than 1,000,000 below one before it |
| SequenceTracking.RestartIsSilent | cnss/services/ingestion/sequence_tracker.py:64-94 | Numbers that start over within a million of the last one raise no reset and count no drop until they pass it |
| SequenceTracking.CommunicationNode.SendWindow | communication-node/cn_demo_1.py:84-98 | Every non-empty window goes out once, whole and in order, under the next number; empty windows use no number |
| SequenceTracking.NumbersArrived | communication-node/cn_demo_1.py:94-98 | The numbers received are exactly those of the datagrams that got through |
| SequenceTracking.NumbersAreIncreasing | communication-node/cn_demo_1.py:94-98 | In-order delivery gives strictly increasing numbers |
| SequenceTracking.LossyDeliveryCountsTheLost | cnss/services/ingestion/sequence_tracker.py:77-94 | For every in-order lossy delivery of the node's numbering, the drops are exactly the batches lost between the first and the last delivered |
| ConcurrentTracking.SerialIsExact | cnss/services/ingestion/sequence_tracker.py:50-99 | With GET and SET as separate steps, if no GET comes between another batch's GET and SET, the count and the stored number are the serial tracker's, for all numbers and resets |
| TrackingSteps.TrackingIsTold | cnss/services/ingestion/sequence_tracker.py:50-99 | In every interleaving, told by the steps: a batch has a SET to come from a GET that found nothing, a lower number or one more than 1,000,000 higher, until that SET; stored is the number of the last SET; the drops are the gaps above what the GETs found |
| ConcurrentTracking.CountIsSerialPlusLag | cnss/services/ingestion/udp_server.py:82 | In every interleaving whose GETs come in the order of the numbering, the count is the serial one, plus how far each GET lagged behind the number before it, less what GETs before the first SET left uncounted |
| ConcurrentTracking.CountIsRightIff | cnss/services/ingestion/sequence_tracker.py:50-99 | So, with the baseline set in time, the count is right if and only if at every GET the latest SET was that of the batch just before |
| ConcurrentTracking.LosslessCountIff | cnss/services/ingestion/sequence_tracker.py:77-85 | With no batch lost, drops are counted if and only if some GET overtakes a SET |
| ConcurrentTracking.OvertakenSetCounts | cnss/services/ingestion/udp_server.py:82 | Three consecutive batches, the third looked up before the second is stored: one drop is counted |
| ChannelState.StateManager.ProcessBatch | cnss/services/ingestion/state_manager.py:48-99 | The tracker's outcome, HINCRBY on drops, HSET on packets and EXPIRE of an existing key, on a hash that may have lapsed |
| ChannelState.Database.UpsertChannel | cnss/core/db.py:247-274 | Insert, or add the drops, set the flag and keep the old activity when there is no new one |
| ChannelState.Database.DeactivateTimedOut | cnss/core/db.py:277-290 | Exactly the active rows with activity older than the timeout become inactive, and their number is returned |
| ChannelState.ChannelStateSyncer.ScanActiveChannels | cnss/services/reporting/channel_state_syncer.py:148-175 | The union of all pages of the cursor scan |
| ChannelState.ChannelStateSyncer.SyncActiveChannel | cnss/services/reporting/channel_state_syncer.py:177-238 | Read-and-reset of the drops, then an active row with them and with the hash's activity |
| ChannelState.ChannelStateSyncer.SyncCycle | cnss/services/reporting/channel_state_syncer.py:104-144 | One cycle computes the cycle specification, whatever the order and repetition of scanned channels |
| ChannelState.CycleAgrees | cnss/services/reporting/channel_state_syncer.py:104-144 | Right after a cycle in any timed run, a row with a date is active if and only if the channel's last non-empty batch is no older than the timeout, provided the TTL exceeds the timeout |
| ChannelState.PlatformAgrees | cnss/services/ingestion/state_manager.py:25 | The 6 s TTL and the 5 s timeout meet that condition |
| ChannelState.ShortKeyDisagrees | cnss/services/ingestion/state_manager.py:92-95 | With a TTL no longer than the timeout some run disagrees |
| ChannelState.AgreementIsTtlAboveTimeout | cnss/services/reporting/channel_state_syncer.py:192-238 | The agreement holds in all runs if and only if the TTL exceeds the timeout |
| ChannelState.DropsAloneStayActive | cnss/core/db.py:247-290 | Drops without a packet, a sync, any time without traffic and another sync: the row is there, active, with these drops and no date |
| ChannelState.DropsAddUp | cnss/services/ingestion/state_manager.py:74-75 | In every timed run, for each channel, the drops of all its batches add up to the row's count, plus the pending count of its live hash, plus what lapsed with expired hashes |
| ChannelState.SyncedRowIsTheSum | cnss/services/reporting/channel_state_syncer.py:177-238 | Right after a sync the row holds exactly the sum of all drops but the lapsed ones |
| ChannelState.LiveUntilTtl | cnss/services/ingestion/state_manager.py:92-95 | A hash is there if and only if the last batch that created or extended it is younger than the TTL; an empty batch extends a hash but creates none |
| ChannelState.RowIsDated | cnss/core/db.py:247-274 | In every run a channel has a row once a sync found its hash, and the row's date is that of the last batch with packets that a sync took over; a sync that finds none keeps the old date |
| ChannelState.RunKeepsInv | cnss/services/ingestion/state_manager.py:62-95 | What holds of every channel's hash, row and last batch in every reachable world |
| ChannelState.SyncOneMore | cnss/services/reporting/channel_state_syncer.py:125-128 | Syncing one more channel is one reset and one upsert more |
| DropLedger.LedgerBalances | cnss/services/reporting/channel_state_syncer.py:193-238 | With ingestion, expiry, crashes and the syncer's three round trips interleaved arbitrarily: drops counted = database + in flight + pending + lost, so the database never holds more than was counted |
| DropLedger.StepBalances | cnss/services/reporting/channel_state_syncer.py:193-238 | Each step keeps the balance, and drops are lost only by expiry, a vanished hash, a failed upsert, a crash or a Redis restart, by exactly the stated amount |
| LedgerSteps.CountsEveryDrop | cnss/services/ingestion/state_manager.py:74-95 | In every interleaving the count is the sum of the drops of all batches, and a state hash is there from a batch with drops or packets until it expires or Redis restarts |
| DropLedger.IngestsOnlyCount | cnss/services/ingestion/state_manager.py:74-75 | Ingestion touches neither the syncer nor the table |
| DropLedger.FaultFreeSyncIsExact | cnss/services/reporting/channel_state_syncer.py:177-238 | A fault-free sync of one channel brings its row to exactly what had been counted and not lost when it began, whatever is ingested meanwhile, and no other row changes |
| DropLedger.FaultFreeCycleIsExact | cnss/services/reporting/channel_state_syncer.py:104-144 | A fault-free cycle over all channels with a state hash brings the table, for every channel, between what had been counted and not lost at the cycle's start and at its end; exactly there, with nothing pending, if nothing was ingested meanwhile |
| PacketBuffer.BufferManager.PushPackets | cnss/services/ingestion/buffer_manager.py:42-112 | The loop and the LLEN, LTRIM, LPUSH calls compute the push specification; other channels' lists stay |
| PacketBuffer.PushRefinesHistory | cnss/services/ingestion/buffer_manager.py:80-112 | A push onto the newest cap records of a history gives the newest cap of the longer one, except exactly for a batch of cap records on a non-empty list; larger batches change nothing |
| PacketBuffer.PushKeepsCap | cnss/services/ingestion/buffer_manager.py:85-103 | One push keeps the cap if and only if that case is avoided |
| PacketBuffer.BufferIsNewest | cnss/services/ingestion/buffer_manager.py:64-112 | In every serial run without such a batch the list is the newest min(cap, n) of the n records accepted since the last pop, newest first |
| PacketBuffer.FlowsSurvive | cnss/services/ingestion/flusher.py:117-136 | Every field of every packet, its channel and its batch's time come back out of the buffer unchanged and in order |
| PacketBuffer.LostWhole | cnss/services/ingestion/flusher.py:117-138 | A popped list is lost whole if and only if it holds a record whose time is a text that is not ISO 8601; other bad records, a time that is no text among them, are skipped singly |
| PacketBuffer.RecordAddsItsRow | cnss/services/ingestion/flusher.py:117-138 | Wherever a record stands in the popped list: an object with an ISO time and its six required members adds exactly its own row, field by field, with protocol UNKNOWN and size 0 when these are missing; any other record that does not raise changes nothing |
| PacketBuffer.BackgroundFlusher.RegisterChannel | cnss/services/ingestion/flusher.py:43-51 | The channel joins the flusher's set |
| PacketBuffer.BackgroundFlusher.FlushChannel | cnss/services/ingestion/flusher.py:97-167 | The whole list is popped; its parsable rows are in the table exactly when the insert succeeds |
| PacketBuffer.BackgroundFlusher.FlushAllChannels | cnss/services/ingestion/flusher.py:86-95 | A fault-free pass empties every registered list, leaves the others, and inserts exactly what they held |
| UdpServer.UDPIngestionServer.HandleBatch | cnss/services/ingestion/udp_server.py:123-141 | Register, count, buffer, in this order; afterwards, as before, every non-empty list belongs to a registered channel |
| PushInterleaving.UndisturbedPush | cnss/services/ingestion/buffer_manager.py:80-112 | The separate steps, undisturbed, are one push of the serial specification |
| PushInterleaving.PacketsAreConserved | cnss/services/ingestion/udp_server.py:82 | In every interleaving of one process run every packet received is in exactly one place: with a running push, in a list, popped, inserted, evicted, refused, aborted or lost |
| PushTotals.TotalsAreTold | cnss/services/ingestion/buffer_manager.py:80-112 | In every interleaving the six totals are those told by the steps: a datagram is received once, refused when larger than the cap as its length is read, aborted when its task fails; a trim evicts what stands behind the records it keeps; what was popped is inserted or lost as the insert succeeds or not |
| PushInterleaving.EveryListIsWatched | cnss/services/ingestion/udp_server.py:131-141 | In every interleaving every non-empty list, and every push past its registration, belongs to a registered channel |
| PushInterleaving.PassDrains | cnss/services/ingestion/flusher.py:86-132 | After any interleaving one fault-free pass over the registered channels empties all lists and inserts exactly what they held |
| PushInterleaving.ListIsBounded | cnss/services/ingestion/buffer_manager.py:83-112 | With at most `writers` pushes of a channel in flight and batches of at most `most` < cap packets, or of more than the cap, which are refused, its list never exceeds cap + (writers - 1) * most |
| PushOvershoot.BoundIsAttained | cnss/services/ingestion/buffer_manager.py:83-112 | For every cap, number of writers and batch size below the cap some run within these limits fills the list to exactly that bound |
| PushOvershoot.CapBatchesPileUp | cnss/services/ingestion/buffer_manager.py:85-112 | With batches of exactly the cap there is no bound, even with one writer: k of them leave k times the cap |
| SqlSums.GroupsAddUp | cnss/migrations/versions/004_add_size_field.py:58-70 | Sums of GROUP BY groups add up to the ungrouped sum over the groups taken, for every key |
| FlowQueries.ViewIsRaw | cnss/migrations/versions/004_add_size_field.py:58-70 | Any selection of the per-second, per-protocol view totals, channel by channel, to the count and the `size` of the selected packets with direction 0 and with direction 1 |
| FlowQueries.TelemetryIsRaw | cnss/core/db.py:319-336 | The four telemetry figures are the counts and the bytes of the packets with the channel's id, direction 0 or 1, and a time in the seconds of the window; bytes are NULL exactly when there is none |
| FlowQueries.HostsListed | cnss/core/db.py:353-393 | A host is in the table if and only if some packet has it as source or destination |
| FlowQueries.LocationIsMajority | cnss/core/db.py:367-382 | A host is reported as LAN if and only if it is the inner end of at least as many packets as it is the outer end of |
| FlowQueries.TableMatchesDetails | cnss/core/db.py:481-501 | For every host the table's sent and received packets and bytes equal its details page, which shows NULL bytes exactly where the count is zero |
| FlowQueries.PagesShowRecentPackets | cnss/core/db.py:363-374 | Both pages show, for a host, exactly the packets and bytes of the channel in the period with the host as source and as destination, told from the table of all packets |
| FlowQueries.HostCounts | cnss/core/db.py:353-393 | A host's sent and received counts are its packets as source and as destination |
| FlowQueries.SentEqualsReceived | cnss/core/db.py:376-393 | Sent and received, over all hosts, both add up to the number of packets |
| FlowQueries.BytesSentEqualReceived | cnss/core/db.py:388-389 | The same for bytes |
| FlowQueries.DestinationsMatchPorts | cnss/core/db.py:424-475 | A host's destination groups and its port groups both add up to its packets on the LAN side |
| FlowQueries.DestinationBytesMatchPorts | cnss/core/db.py:516-549 | The same for bytes |
| FlowQueries.DestinationIsExact | cnss/core/db.py:424-466 | A destination's group has exactly the packets between the host, as the inner end, and that address, with their bytes |
| FlowQueries.PortIsExact | cnss/core/db.py:516-549 | A port's group has exactly the host's packets, as the inner end, whose source port (incoming) or destination port (outgoing) and protocol are these, with their bytes |
| FlowQueries.DestinationsAreWan | cnss/core/db.py:431-459 | The LAN branch of the location is never taken: every top destination is reported as WAN |
| FlowQueries.PeersAreCounted | cnss/core/db.py:385 | The table's unique destinations are the host's distinct peers in either direction |
| FlowQueries.DestinationIsPeer | cnss/core/db.py:424-466 | Every top destination is one of them |
| History.CalculateOptimalBucket | cnss/services/api/routes/history.py:36-54 | The early-return loop computes the first-match specification, for every target above zero |
| History.BucketMeaning | cnss/services/api/routes/history.py:45-54 | The bucket is the smallest step not below the raw size, or the largest number of whole hours in it once no step is left |
| History.FinestBucketIff | cnss/services/api/routes/history.py:36-54 | The bucket is one second if and only if the period is shorter than 2000 s |
| History.PointsAreBounded | cnss/services/api/routes/history.py:36-54 | At most 2000 points for every period, at least 334 once the period reaches 1000 s |
| History.BucketIsMonotone | cnss/services/api/routes/history.py:36-54 | A longer period never gets a finer bucket |
| History.SeriesShape | cnss/core/db.py:168-170 | The inclusive series has (end - start) / step + 1 terms, a step apart |
| History.BucketsTile | cnss/core/db.py:168-177 | Every instant up to the last bucket's end lies in exactly one bucket, none outside lies in any, and the end of the period is covered |
| History.ChannelPointIsExact | cnss/core/db.py:163-198 | Each point of a channel's history: its time, and as rate times bucket length the packets and bytes of each direction with a time in exactly that bucket |
| History.HostPointIsExact | cnss/core/db.py:201-240 | Each point of a host's history likewise, over the packets with the host as destination and as source |
| History.ChannelHistoryAddsUp | cnss/core/db.py:163-198 | Rate times bucket length, over all points, gives exactly the count and the bytes of the channel's packets with direction 0 and with direction 1 from the start to the end of the last bucket |
| History.HostHistoryAddsUp | cnss/core/db.py:201-240 | The same for a host's received and sent packets and bytes |
| WebSocketConnection.WebSocketConnectionService.ConnectTo | mui/src/services/websocket.ts:63-75 | Schedules while a socket exists and closes it, otherwise stops the timer and connects |
| WebSocketConnection.WebSocketConnectionService.CloseConnection | mui/src/services/websocket.ts:166-192 | The three cases of disconnect; the scheduled channel is kept |
| WebSocketConnection.WebSocketConnectionService.OpenConnection | mui/src/services/websocket.ts:94-108 | One more socket, for the given channel; Reconnecting is kept only for automatic attempts |
| WebSocketConnection.WebSocketConnectionService.Opened | mui/src/services/websocket.ts:126-136 | Connected and active, no reconnect timer left |
| WebSocketConnection.WebSocketConnectionService.Closed | mui/src/services/websocket.ts:194-220 | Scheduled channel first, then reconnection for the listed codes or an unclean close, else disconnected |
| WebSocketConnection.WebSocketConnectionService.ReconnectLater | mui/src/services/websocket.ts:141-160 | A new timer and one more attempt |
| WebSocketConnection.WebSocketConnectionService.StopReconnecting | mui/src/services/websocket.ts:248-254 | The timer is cleared and the attempts start over |
| WebSocketConnection.WebSocketConnectionService.TimerCallback | mui/src/services/websocket.ts:156-159 | Connects with the parameters of the state |
| WebSocketConnection.WebSocketConnectionService.SendPayload | mui/src/services/websocket.ts:256-263 | Recorded as sent exactly on an open socket |
| WebSocketConnection.TimerHasParams | mui/src/services/websocket.ts:158 | In every sound state a pending timer is the only one and finds parameters, those asked for last |
| WebSocketConnection.ConnectKeeps | mui/src/services/websocket.ts:63-75 | connect keeps the service sound and makes its channel the one headed for |
| WebSocketConnection.ClosesKeeps | mui/src/services/websocket.ts:194-220 | So does a close event, whatever its code |
| WebSocketConnection.DisconnectIsFinal | mui/src/services/websocket.ts:166-220 | The close that answers a disconnect leaves no connection and no timer if and only if no switch of channel is scheduled and the close is clean with a code that does not reconnect |
| WebSocketConnection.UsualCloseReconnects | mui/src/services/websocket.ts:28-33 | A clean close with code 1005, the usual answer to a close without a code, sets a timer for the channel just left |
| WebSocketConnection.DisconnectKeepsTheSchedule | mui/src/services/websocket.ts:166-206 | A scheduled switch survives disconnect: the close of the old socket connects to it after all |
| WebSocketConnection.RenewalIsSafe | mui/src/services/websocket.ts:222-229 | The token renewal keeps the service sound if and only if it finds no parameters, or neither a socket nor a pending timer |
| WebSocketConnection.WebSocketConnectionService.RenewalCallback | mui/src/services/websocket.ts:224-228 | Connects with the parameters of the state, if there are any |
| ConnectionStatus.ConnectionIsTold | mui/src/services/websocket.ts:57-246 | In every run the service shows what a machine over the events alone tells: a socket is created by exactly a connect without one, a close with a switch waiting, the pending timer, or a renewal that finds parameters and neither of these; refused is a close that is unclean or has code 1001, 1005, 1006 or 1011; a connecting socket shows as reconnecting exactly when the timer created it, a closing one as disconnecting exactly when the user left it; an open one as active until it first goes idle and as inactive from then on, whatever it receives; parameters, waiting switch, pending timer and attempts are as told |
| ConnectionStatus.ConnectHeadsThere | mui/src/services/websocket.ts:63-75 | After any run a connect leaves a socket connecting to that channel, or one closing and the switch to that channel waiting |
| ConnectionStatus.OnlyOpeningActs | mui/src/services/subscriptionManager.ts:23-34 | After any run, no update of the service's state other than an opening makes the manager's listener act |
| ClientSubscriptions.AtMostOneSocket | mui/src/services/websocket.ts:57-75 | In every run, in which token renewals complete only when there is neither a socket nor a timer, at most one socket is not closed |
| ClientSubscriptions.RenewalNeedsNoSocket | mui/src/services/websocket.ts:222-229 | After any run, a renewal that completes at that moment leaves at most one socket if and only if it finds no parameters or no socket |
| ClientSubscriptions.RenewalOpensAnother | mui/src/services/websocket.ts:222-229 | Connect, a close with code 4001, connect again, and then the renewal completes: two sockets are connecting |
| ClientSubscriptions.DisconnectHoldsUnlessItComesBack | mui/src/services/websocket.ts:139-230 | From a disconnect in any run until the user connects again, a socket is created if and only if one was there to be closed and its close finds a scheduled switch, or reconnects and either its timer fires before another disconnect or a renewal follows that disconnect; or none was there, the parameters still were, and a renewal came |
| ClientSubscriptions.TimerOnlyWithoutSocket | mui/src/services/websocket.ts:141-160 | In every run at most one reconnect timer is pending, and only while every socket is closed |
| ClientSubscriptions.NewSocketIsForLatest | mui/src/services/websocket.ts:94-108 | Every socket a run creates is for the channel the user asked for last |
| ClientSubscriptions.ServerMirrorsClient | mui/src/services/subscriptionManager.ts:22-135 | In every run, while the socket is open, folding the control messages sent on it gives exactly the manager's live subscriptions, each with the socket's own channel |
| ClientSubscriptions.StepKeeps | mui/src/services/subscriptionManager.ts:22-135 | Every event keeps all of that |
| ClientSubscriptions.SubscribeKeepsRecords | mui/src/services/subscriptionManager.ts:71-99 | The key-to-id record stays a bijection onto the live subscriptions |
| ClientSubscriptions.UnsubscribeKeepsRecords | mui/src/services/subscriptionManager.ts:113-132 | Also after any unsubscribe closure, used once, twice or late; a live subscription always has a listener and only its own last update |
| ClientSubscriptions.SubscriptionManager.StateUpdated | mui/src/services/subscriptionManager.ts:23-34 | On Connected and Active: every last update cleared, every subscription requested again, in record order |
| ClientUpdates.SubscriptionIsTold | mui/src/services/subscriptionManager.ts:43-56 | In every run a subscription lives exactly while a callback subscribed under its id has not been unsubscribed; it holds those callbacks, what its first subscribe asked for, and the last update received for its id on an open socket since it was made and since a socket last opened, none if there was none |
| ClientUpdates.LaterSubscriberIsGiven | mui/src/services/subscriptionManager.ts:103-106 | A later subscriber with the key of a live subscription is handed exactly that update, any other subscriber nothing |
| ClientUpdates.KeyIsKnownWhileListened | mui/src/services/subscriptionManager.ts:74-79 | A key leads to an id exactly while a subscription made under it is listened to |
| ClientUpdates.UnsubscribeUndoes | mui/src/services/subscriptionManager.ts:113-132 | The closure a subscribe returns puts all records back as they were; for a new key on an open socket one subscribe and one unsubscribe message with that id, channel and body were sent |
| ClientUpdates.SaysExactly | mui/src/services/subscriptionManager.ts:92-135 | In every run an event that leaves the socket open adds exactly this to what was sent on it: a pong for a ping, one subscribe for a new key, one unsubscribe for the last callback of a subscription, and nothing else |
| ClientUpdates.OpeningAsks | mui/src/services/subscriptionManager.ts:23-34 | When a socket opens, exactly one subscribe per live subscription is sent, in the order they were made, with its own body and the connection's channel |
| ClientSubscriptions.SubscriptionManager.Updated | mui/src/services/subscriptionManager.ts:43-56 | Routed by id to exactly the callbacks of that subscription, and kept as its last update; unknown ids change nothing |
| ClientSubscriptions.SubscriptionManager.SubscribeTo | mui/src/services/subscriptionManager.ts:65-111 | Shares the id of an equal key, requests a new subscription only when connected, and hands over the last update if there is one |
| ClientSubscriptions.SubscriptionManager.UnsubscribeWith | mui/src/services/subscriptionManager.ts:113-132 | The last callback's removal sends the unsubscribe when connected and deletes both records' entries |
| ClientSubscriptions.SubscriptionManager.RequestWebsocketAction | mui/src/services/subscriptionManager.ts:173-190 | Sent with the state's channel, only when connected |
| JsonText.QuoteCancels | mui/src/services/subscriptionManager.ts:147-149 | A printed JSON string says which string it is and where it ends, whatever follows (section 7 of RFC 8259) |
| JsonReading.QuoteIsRead | mui/src/services/subscriptionManager.ts:147-149 | A reader written after section 7 of RFC 8259 gives every printed string back, and the text after it |
| CanonicalKey.HashIsCanonical | mui/src/services/subscriptionManager.ts:141-171 | For all trees, two keys are equal if and only if the trees are equal up to member order, members left out, and an array of one undefined element being an empty one |
| CanonicalKey.KeyIsCanonical | mui/src/services/subscriptionManager.ts:137-139 | Two subscriptions share a key if and only if their targets are equal and their parameters are seen alike |
| CanonicalKey.HashCancels | mui/src/services/subscriptionManager.ts:141-171 | A value's text followed by a delimiter or nothing determines the value and what follows, through any nesting of escaped strings |
| CanonicalKey.SeenAlikePrintsAlike | mui/src/services/subscriptionManager.ts:157-167 | Sorting makes the text independent of the insertion order |
| CanonicalKey.SortedIsUnique | mui/src/services/subscriptionManager.ts:159 | Two sorted lists of the same members are the same list |
| PropertyOrder.FilledIsListed | mui/src/services/subscriptionManager.ts:157-167 | The rebuilt object lists exactly the members put in: array indices (canonical decimals below 2^32 - 1) in the order of their values, then the other keys as inserted (section 10.1.11 of ECMA-262) |
| PropertyOrder.IsIndexIff | mui/src/services/subscriptionManager.ts:157-167 | A key is such an index if and only if it is a canonical decimal with a value below 4294967295 |
| CanonicalKey.Collisions | mui/src/services/subscriptionManager.ts:151-164 | An array of one undefined element prints like an empty one, and a member that is undefined or named `__proto__` prints like none |
| ChartRefinement.ChartIsExpected | mui/src/features/PacketsLineChart/providers/BaseChartDataProvider.ts:63-147 | After a sorted history and live points in any order, all times distinct, the incremental map is the newest maxPoints entries of the specification: the history, then the averages of a partition of the stream |
| ChartEntries.ChartEntriesAre | mui/src/features/PacketsLineChart/providers/BaseChartDataProvider.ts:93-128 | The same, entry by entry: the history points, complete, then one entry per bucket at its last point's time, with the mean of each rate, the bucket size, active if and only if one of its points is, and complete for all buckets but the last |
| ChartEntries.OnlyTheLastIsOpen | mui/src/features/PacketsLineChart/providers/BaseChartDataProvider.ts:63-96 | Also when a last time is taken up again, and for every limit above zero: every entry is complete except the last one, at the last live point's time, which averages the open bucket; all others are history points or entries of closed buckets |
| ChartEntries.HistoryIsDone | mui/src/features/PacketsLineChart/providers/BaseChartDataProvider.ts:101-108 | Before any live point the map holds the newest history points, all complete |
| ChartEntries.CutIsUnique | mui/src/features/PacketsLineChart/providers/BaseChartDataProvider.ts:74-89 | A list of buckets is the model's partition if and only if it puts every point in one bucket in order, a bucket takes after its first point only those less than the size from its start, and the next begins with one that is not |
| ChartRefinement.ChartIsExpectedIff | mui/src/features/PacketsLineChart/providers/BaseChartDataProvider.ts:63-147 | For live times that are new or repeat the last one, going back or not, the map is that if and only if no entry was overwritten, or the limit reaches back no further than the entries after the last overwritten one |
| ChartRefinement.SeamIsExact | mui/src/features/PacketsLineChart/providers/BaseChartDataProvider.ts:69-95 | With distinct live times, none in the history but perhaps its last, it is that if and only if the first live time is not that one, or the limit is at most the number of live entries |
| ChartRefinement.ChartIsShown | mui/src/features/PacketsLineChart/providers/BaseChartDataProvider.ts:63-147 | In all these cases the map is the newest maxPoints of the entries that no later point overwrites |
| EarlyChart.EarlyChartIsShown | mui/src/features/PacketsLineChart/providers/BaseChartDataProvider.ts:63-108 | When live points come before the history: the early points but the last one by one, the history, then the buckets of the last early and all later points (before a later point the last early one still stands in front of the history), cut to the newest insertions |
| EarlyChart.LatestAreHeldIff | mui/src/features/PacketsLineChart/providers/ChannelDataProvider.ts:24-52 | The map then holds the latest entries by time if and only if, read off the input times: the dropped early points come before the history that is left, and dropped history before the last early point where that fills a bucket of its own |
| EarlyChart.SortedHistoryOvertakes | mui/src/features/PacketsLineChart/providers/BaseChartDataProvider.ts:132-147 | With early points later than all of the history this is so if and only if there was one early point, or nothing is dropped, or all that came before the later buckets is |
| EarlyChart.NewerPointIsDropped | mui/src/features/PacketsLineChart/providers/BaseChartDataProvider.ts:139-146 | Two early points, one of history, one later point and a limit of two: the newer early point is dropped, the history kept |
| ChartRefinement.ChartIsInOrder | mui/src/features/PacketsLineChart/providers/BaseChartDataProvider.ts:23-25 | For times that never go back the entries are in time order as they stand, ties or not |
| ChartBuckets.SplitPartitions | mui/src/features/PacketsLineChart/providers/BaseChartDataProvider.ts:74-89 | Every raw point lies in exactly one bucket, in order |
| ChartBuckets.SplitSnoc | mui/src/features/PacketsLineChart/providers/BaseChartDataProvider.ts:74-89 | The next point joins the last bucket or starts a new one, and leaves earlier buckets alone |
| ChartRefinement.StepRefines | mui/src/features/PacketsLineChart/providers/BaseChartDataProvider.ts:63-96 | One more point keeps the incremental state equal to the partition of the whole stream |
| ChartBuckets.AveragesConserve | mui/src/features/PacketsLineChart/providers/BaseChartDataProvider.ts:112-130 | Weighted by their counts, the averages of the buckets add up to the raw stream, for each of the four rates |
| ChartRefinement.InsertKeepsNewest | mui/src/features/PacketsLineChart/providers/BaseChartDataProvider.ts:132-147 | Inserting a point with a new time and evicting the oldest entry keeps exactly the newest entries |
| ChartEntries.KnownTime | mui/src/features/PacketsLineChart/providers/BaseChartDataProvider.ts:132-133 | Map.set at a time that is there replaces that entry in its place, and delete takes it out |
| ChartRefinement.EqualTimestampErasesHistory | mui/src/features/PacketsLineChart/providers/BaseChartDataProvider.ts:69-95 | A live point at the time of the last history point erases that point |
| ChartBuckets.BaseChartDataProvider.Process | mui/src/features/PacketsLineChart/providers/BaseChartDataProvider.ts:63-96 | The method computes the step of the model |
| ChartBuckets.BaseChartDataProvider.LoadCompleted | mui/src/features/PacketsLineChart/providers/BaseChartDataProvider.ts:101-108 | The loop inserts every point as complete and starts the first bucket at the latest time seen |
| ChartBuckets.BaseChartDataProvider.Insert | mui/src/features/PacketsLineChart/providers/BaseChartDataProvider.ts:132-147 | Map.set, the time range, and one eviction beyond maxPoints |

## Left out

- Sockets, asyncio plumbing, logging, connection pools, authentication, tokens, users and their routes: input and output, or thin wrappers.
- The initial snapshot sent after a subscribe: its payload differs in shape from the updates, and nothing is claimed about it.
- Failed Redis and database commands, except where a module models them (syncer, flusher, pushes, heartbeat); failed sends to a client.
- A Redis command that takes effect although its reply is lost.
- A restart of the ingestion process: lists it left behind are not registered until the channel's next batch.
- SequenceTracking.SequenceTracker.ProcessSequence: GET and SET of one call are one step; `ConcurrentTracking` separates them, and says nothing of interleaved GETs that come out of order.
- Refresh lag and retention of the continuous aggregate, result ordering, pagination and the location filter of the hosts table, last-activity columns and the `is_active` flag of a history point.
- Rates of the live queries are left as counts, since both sides divide by the same period.
- Validation of the requested time range against the retention policy.
- ClientSubscriptions.AtMostOneSocket: a token renewal that completes beside a socket or a timer is not an event of the runs; `ClientSubscriptions.RenewalNeedsNoSocket` says what it does after any of them.
- In the browser: state listeners other than the subscription manager, inactivity callbacks (their set is never filled), backoff delays, and the state message.
- Strings are sequences of Unicode scalar values: lone surrogates are not modelled, and keys sort by code point.
- CanonicalKey.HashIsCanonical: numbers are the text they print as; NaN and infinities, which print like null, are not modelled.
- ChartRefinement.ChartIsShown: live times that repeat a time other than the last one are not modelled. The `minTs` field, which nothing reads, is left out.
- EarlyChart.EarlyChartIsShown: early times increase and are not among the history's; later times are new or repeat the last one.
- EarlyChart.LatestAreHeldIff: later times come after all earlier ones and do not go back.
- PushInterleaving.ListIsBounded: batches of exactly the cap are excluded, since `PushOvershoot.CapBatchesPileUp` shows that with them there is no bound.
- Reporting.TickAndConsume: needs every listener entry to hold a colon, as every entry that subscribe writes does; an entry without one would end the consumer's loop.
