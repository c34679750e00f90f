# Verification of go-amqp-adapter

A Dafny model of the adapter's two hard cores, and of the smaller pieces they stand on.

**The delayed-retry protocol.** A retry queue `q` dead-letters to `q.delay`, whose time to live sends a message
back to `q`. The declarations of `initQueue` and `initQueueWithRetry` are data (`Topology`), interpreted by a small
broker: default and fanout routing (sections 3.1.3.1 and 3.1.3.2 of AMQP 0-9-1), prefetch and acknowledgements
(sections 3.1.7 and 3.1.8), and the RabbitMQ extensions for dead-lettering, time to live and confirms.
`RetryProtocol` runs publishers, workers, handlers (nil, error, `Retry` error, panic), settlements that arrive or are
lost, lost channels, expiry and the clock, one step at a time in any order; `RetryInvariant` is what every step keeps
and `RetryTheorems` what every run keeps, `RetryProgress` what moves a copy forward. `RetryAccounts` counts the steps
of a run against what the copies say of themselves, and `RetryOutcomes` says why a copy was acknowledged or discarded:
by the outcomes of its handlers in the run. `RetryRuns` and `RetryStart` build runs: those that show what is *not*
bounded, and those that make the bound on rejections exact.
The deadline header is modelled to the character: `Calendar` and `Stamp` are Go's `time` package for the two layouts,
`StampText` says what the texts look like and what a zone offset means.

**The client as a concurrent machine.** `ClientMachine` has the reconnect supervisor, `close`, any number of pushes
under `pushMu`, channels that die, and the broker's confirms per channel, interleaved at single reads and writes.
`WireInvariant` and `BookInvariant` are the invariants, `ClientTheorems` the results, `ClientWrites` who wrote what
others read, `ClientLedgers` what the steps of a run make of the confirms. `ClientRuns` and `ClientCrashes` have the
exact conditions under which something goes wrong, `ConfirmRuns` concrete runs in which it does.

**Around them.** Each module takes the form of its source: methods with loops over heap objects for `PushLoop`,
`Headers`, `ConsumerLoop`, `QueueStore`, `Shutdown`, `ChannelInit`, `Clients` and `FailedJobs`, each proved against a
specification about which the properties are then proved; a step machine for `Registration`, whose point is
concurrency; functions for `RetryableErrors`. What the environment does (a select's choice, an error from the broker,
the clock, the order of a map) is a script, a step, or a nondeterministic choice: the results hold for all of them.

Run `dafny verify dfyconfig.toml`.

## What the code does and its documentation does not say

- README.md:124 says a message past `MaxDuration` goes to the fail handler and is acked. A panic is nacked without
  looking at the deadline (delivery.go:61-69), so a handler that keeps panicking sees one message any number of times
  (`RetryStart.PanicsFromTheStart`). For errors the statement holds (`RetryTheorems.LateDecision`).
- A nil `Publish` need not mean that the broker took the message: a confirm left behind by a cancelled wait is taken
  by the next push (`ConfirmRuns.NilPushUnaccepted`). It happens without any cancellation too, after a push that
  publishes between client.go:158 and client.go:160 of a new `init` (`ConfirmRuns.NilPushUnacceptedWithoutCancel`).
  `TakesOwnConfirmIff` and `NilPushOnCleanChannel` say when nil does mean it.
- `isReady` can become 1 after `close` has returned, exactly while the supervisor has not (`ClientRuns.ReadyAfterCloseIff`),
  and only by an `init` that ends after `close` began (`ClientWrites.ReadyNeedsLaterInit`).
- The publish call of a push that passed its readiness check panics on a nil `ch`, with `pushMu` held, exactly when the
  last write to `ch` since the check is the clearing by a failed `init` (`ClientCrashes.SendCrashesIff`), which can
  still come while the supervisor has not returned (`ClientCrashes.CanCrashIff`); nobody publishes through that client
  again (`ClientCrashes.CrashIsForever`). `close` reads `ch` twice and can fail in the same way
  (`ClientCrashes.CloseCrashesIff`).
- `AddConsumer` may return nil for a consumer that is never started: when it registers between the snapshot and the
  swap of `InitConsumer` (`Registration.NilButNeverStarted`, `Registration.EveryoneInSnapshotIff`).
- Configuring a retry queue `q` and a queue `q.delay` makes the broker refuse one of the two clients in some order
  (`Topology.AcceptedExactlyWithoutClash`).

## Model

| member | source | states |
|---|---|---|
| RetryOutcomes.RetryConservation | client.go:440-482 | in every reachable state of every run a copy accepted into a retry queue is in exactly one place of its two queues or was acknowledged once, and is never discarded; it was acknowledged only if in that run a handler of it ended, with the delivery out, with nil, or with an error past the deadline or not marked for retry, upon which the fail handler was called with its queue and body |
| RetryOutcomes.PlainConservation | delivery.go:93-105 | without retry a copy is ready in its queue, out, acknowledged or discarded: discarded only if in that run its handler panicked with the delivery out, acknowledged only if its handler so returned nil; no error ends it, and the fail handler is never called for its queue |
| RetryOutcomes.OutcomeDecides | delivery.go:10-34 | a handler ends with the delivery out and the settlement sent arrives: nil ends the copy with an ack; without retry an error leaves it ready in its queue and a panic discards it; with retry a panic or a retryable error before the deadline leaves it in the delay queue for one time to live, every other error ends it; no other copy changes |
| RetryOutcomes.SettlementCanArrive | delivery.go:10-34 | that settlement can arrive while the channel of the delivery lives |
| RetryOutcomes.FailLogIsExact | delivery.go:120-158 | over any run the fail handler is called once for every error of a retry queue that is past the deadline or not retryable, in that order, with that copy's queue and body, and at no other time |
| RetryOutcomes.ComesFromPublish | client.go:309-316 | every copy comes from one publish of the run, taken with that body and those headers for the publisher's queue, ready there and nowhere else |
| RetryAccounts.SettlementsBalance | delivery.go:10-34 | over any run and for each of the four settlements: the handlers that ended with the delivery out in a way that asks for it are those whose settlement arrived, was lost with its channel, or is on its way; the copy's counter is the number that arrived |
| RetryAccounts.DeliveriesCounted | consumer_loop.go:100-134 | a copy's count of deliveries is the number of steps that deliver it, its count of losses the number that give it back |
| RetryOutcomes.LostNeverSettles | consumer_loop.go:100-134 | a settlement sent on a channel that is gone arrives in no continuation, a new subscription of the same worker included |
| RetryTheorems.RunKeepsIdentity | client.go:451-464 | over any run, through every dead-lettering and expiry, no accepted copy is forgotten and its queue, body and headers never change |
| RetryTheorems.RetryBound | client.go:299-307 | with a clock that does not go back, a copy stamped with duration M is rejected for retry at most floor(M/TTL)+1 times, and never for M < 0, over every run, panics and losses included |
| RetryTheorems.DeliveryBound | delivery.go:107-118 | every delivery of a copy ended in an ack, a rejection, a panic or a lost channel, or is still out; so deliveries are at most the bound on rejections plus one plus panics plus losses, and without panics and losses a copy that came back from that many deliveries is acknowledged |
| RetryProgress.SettlementProgress | delivery.go:107-158 | every settlement the broker processes of a copy that did not panic either ends it with an ack or lowers the rejections left before its deadline by one |
| RetryProgress.EntriesCounted | delivery.go:61-69 | over any run a copy enters the delay queue exactly once for each reject and once for each panic nack that arrives |
| RetryOutcomes.EntriesAreOutcomes | delivery.go:61-69 | those entries are the handlers that panicked, or returned a retryable error before the deadline, with the delivery out, but for settlements lost or on their way |
| RetryOutcomes.LateEntriesArePanics | delivery.go:61-69 | from a state past its deadline with no rejection under way, the entries of a copy into the delay queue in any continuation are exactly the handlers that panicked with the delivery out, but for settlements lost or on their way, and its rejections stay what they were |
| RetryTheorems.LateNeverRejected | delivery.go:107-118 | once a copy is past its deadline with no rejection under way, no continuation ever rejects it again |
| RetryTheorems.InFlight | delivery.go:13-14 | in every reachable state the in-flight counter is the number of workers inside handleDelivery, at most the number of workers, and every channel of a worker has at most one unsettled delivery |
| RetryRuns.NextDeliveryEnds | delivery.go:120-158 | past the deadline one more delivery whose handler returns an error ends with the fail handler called with the body and the copy acknowledged; a nil result ends it at any time |
| RetryRuns.PanicsAreUnbounded | delivery.go:61-69 | from any state with a ready copy and an idle worker there is a run with n more panicking deliveries, for every n and every deadline |
| RetryStart.GetsPositioned | client.go:143-195 | the state those runs start from is reached from a new system, for every retry queue, body and headers |
| RetryStart.RejectedExactly | client.go:299-307 | the exact count: from a new system some run rejects a message stamped with a writable deadline n times if and only if n is at most floor((whole second of the deadline - start)/TTL)+1, or 0 when that is negative |
| RetryStart.NeverRejectedUnwritable | client.go:360-371 | a message whose deadline lies in a year outside 0 to 9999 is never rejected in any run |
| RetryStart.PanicsFromTheStart | delivery.go:61-69 | so total deliveries of one message have no bound when handlers panic: for every n a run from a new system with n deliveries, all of them panics and none a rejection |
| Settlement.DecideIs | delivery.go:93-118 | which of the four settlements an outcome asks for, each as an if-and-only-if, and when the fail handler is called |
| Settlement.ExpiredIff | delivery.go:71-91 | a header is live exactly up to the instant its "expired" text reads as in one of the two layouts; missing, not a string or unreadable, it is expired |
| Settlement.ExpiredIsMonotone | delivery.go:71-91 | a header that is missing, not a string, unreadable or past stays expired at every later time |
| Settlement.StampedExpiresBy | client.go:305-306 | a header stamped with a deadline counts as expired at every time after it |
| QueueStore.Store.HandleDelivery | delivery.go:10-34 | on every path the handler runs with this delivery counted in flight, the count is restored, and what follows is exactly the fail-handler call and the one settling call of the decision function |
| QueueStore.Store.FinalizeFailedRetry | delivery.go:120-158 | for a store that New accepted the fail handler is there whenever a retry finally fails: it is called with queue, body and error, before the ack |
| QueueStore.OneSettlement | delivery.go:93-198 | the handler runs first, with this body and count; then, exactly for a final failure, the fail handler with this queue, body and error; and last one settlement of this delivery alone: for every settling call, it is made if and only if the outcome, the mode and the deadline ask for it |
| Topology.AcceptedExactlyWithoutClash | client.go:440-482 | the broker accepts every interleaving, repetition and restart of the declarations of every set of clients exactly when no retry queue's name plus ".delay" is configured too |
| Topology.ClashIsRefused | client.go:451-464 | for every clash, two clients and an order of their declarations that ends in a refusal |
| Topology.SetupIsConfluent | client.go:426-482 | any two complete setups, in any order and with any repetition, end with the same broker |
| Topology.DeadLetterCycle | client.go:440-474 | dead-lettering from a retry queue reaches exactly its delay queue, expiry there exactly the queue, also while others are still declaring; a queue without retry dead-letters nowhere |
| Topology.ChainStaysHome | client.go:440-474 | however often it is dead-lettered, a message alternates between its queue and its delay queue and never reaches another |
| ChannelInit.Channel.InitQueue | client.go:426-438 | the calls made are a prefix of the declaration program, all of it exactly when no error is returned, and then QoS is 1 |
| ChannelInit.Channel.InitQueueWithRetry | client.go:440-482 | the same for the retry program of seven calls |
| ChannelInit.ExecutedIsHeld | client.go:169-174 | a program that ran to its end leaves everything it declares in the broker, and nothing declared before is lost |
| ChannelInit.RetryDeclarations | client.go:440-482 | what such a broker has for a retry queue, by name: two exchanges, the queue dead-lettering to one, the delay queue with its time to live in milliseconds dead-lettering to the other, and the two bindings |
| Configuration.ValidateConfig | options.go:76-125 | nil exactly for a valid configuration, for every order of the queue map; which error for which fault, and an error about a queue is that queue's own |
| Configuration.TtlOfValidQueue | client.go:460 | for an accepted configuration the time to live is at least 1 ms, at most the delay, and less than 1 ms shorter |
| Calendar.CivilRoundTrip | client.go:305-306 | the civil date and clock of an instant, in any year, lead back to the instant without its fraction of a second |
| Calendar.DatesFollow | client.go:305-306 | day 0 is 1 January 1970, and each day is followed by the next date: the next day of the month, the first of the next month, or 1 January, by the lengths of months and leap years |
| Calendar.CivilTimeFollows | client.go:305-306 | a second later the clock is a second on, at midnight with the next date |
| StampText.StampOfTheEpoch | client.go:305-306 | instant 0 is written "1970-01-01T00:00:00Z", and "1970-01-01 00:00:00" in the legacy layout |
| StampText.StampLooksLike | client.go:305-306 | a stamp of the years 0 to 9999 has 20 characters: four digits of the year, '-', two of the month, '-', two of the day, 'T', hh:mm:ss of the clock, 'Z' |
| StampText.LegacyLooksLike | client.go:16 | a legacy stamp has 19: the same date, a space, and the clock |
| StampText.ReadableExactly | client.go:373-385 | a header is readable exactly when it is a text of one of the two layouts: a date that exists, 'T' or spaces, a clock, perhaps a fraction, and a zone or none |
| StampText.ReadDateIff | client.go:373-385 | a date is read exactly from dddd-dd-dd of a month 1 to 12 and a day that month of that year has |
| StampText.ReadClockIff | client.go:373-385 | a clock is read exactly from dd:dd:dd or d:dd:dd within 23:59:59 |
| StampText.ReadZoneIff | client.go:373-385 | a zone is read exactly from "Z", as zero, or a sign and dd:dd within 24:60, as that offset |
| StampText.FractionIs | client.go:373-385 | after the seconds a point or comma and digits are read as a fraction: the first nine digits as nanoseconds, missing ones as zeros |
| StampText.OffsetShifts | client.go:373-385 | a text read with "Z" at its end reads, with +hh:mm there, as the instant hh:mm earlier, and with -hh:mm as that much later, whatever its date, clock and fraction |
| Stamp.StampRoundTrip | client.go:305-306 | the stamp written at publish parses to the deadline truncated to the second exactly for the years 0 to 9999, and otherwise not at all (section 5.6 of RFC 3339) |
| Stamp.LegacyRoundTrip | client.go:373-385 | a legacy stamp is refused by the first layout and read by the second as the UTC instant it prints |
| Stamp.LayoutsDisjoint | client.go:373-385 | no text is read by both layouts |
| Stamp.ExpiryIsMonotone | client.go:360-371 | once expired, always expired, for every text |
| Stamp.WhenStampExpires | client.go:360-371 | the stamp of a deadline is expired exactly after the deadline's whole second, or at once when its year cannot be written |
| Stamp.WhenLegacyExpires | client.go:373-385 | the same for a legacy stamp |
| RetryableErrors.IsRetryableIff | retryable.go:35-39 | an error is retryable exactly when some node of its tree of wrapped and joined errors was made by Retry |
| RetryableErrors.RetryIsSeenThroughWrapping | retryable.go:18-32 | Retry marks every non-nil error and keeps it: all of its tree is found one unwrapping further down; nil stays nil, and no wrapping or joining loses the mark |
| ClientTheorems.ReadyMeansDeclared | client.go:143-195 | under every interleaving, isReady = 1 means the channel is set, confirming, listened to, and declared to the end, QoS 1 last |
| ClientTheorems.OneSupervisorAndOneSignal | client.go:388-406 | one supervisor at most; ready is closed at most once and by the first init that completes; done is closed at most once |
| ClientTheorems.SignalsNeverReopen | client.go:186-190 | over any run neither ready nor done opens again |
| ClientTheorems.ConfirmAlignment | client.go:252-268 | whenever pushMu is free the confirms owed on a channel balance the waits that ended without one; on a live channel they are at most the cancelled waits and those that selected on another channel |
| ClientTheorems.TakesOwnConfirmIff | client.go:219-224 | the confirm a push takes is its own exactly when it waits on the channel it published on and no other confirm is owed there |
| ClientTheorems.NilPushOnCleanChannel | client.go:210-239 | a nil push on a channel that missed no confirm was acknowledged for its own last publish, and the broker took between one and all of its publishes |
| ClientLedgers.AstrayCounted | client.go:252-268 | each counter these results use is the number of steps of the run in which a wait was cancelled, ended on another channel or found its own closed, or a confirm went to another channel's publish or unheard |
| ClientLedgers.OwedAreAstray | client.go:252-268 | so whenever pushMu is free the confirms owed on a live channel are at most the waits of the run that were cancelled or ended on another channel |
| ClientLedgers.WinsOnCleanChannel | client.go:210-239 | a push that takes an acknowledgement on a channel on which no wait of the run went astray has its own last publish acknowledged |
| ClientTheorems.InvalidNeverPublished | client.go:291-295 | a push with a priority above 9 publishes nothing and never returns nil, under every interleaving |
| ClientRuns.ReadyAfterCloseIff | client.go:394-424 | after close has finished, isReady can still be or become 1 exactly when it is 1 or the supervisor has not returned |
| ClientWrites.ReadyIsLastStored | client.go:58-195 | over every run isReady is what was last stored: 1 at the end of an init, 0 when close begins and on top of the two supervisor loops, and nobody else writes it |
| ClientWrites.ReadyNeedsLaterInit | client.go:394-424 | a run in which close has begun has the step that began it, and ends with isReady 1 only if the supervisor ended an init after that step |
| ClientWrites.StoppedThenClosed | client.go:394-424 | a close that begins after the supervisor has returned leaves isReady 0 in every later state |
| ClientWrites.DoneIffClosing | client.go:394-406 | done is closed exactly when close is past that step, and the supervisor has returned only after it |
| ClientWrites.SupervisorRunsOnce | client.go:388-392 | over any run the supervisor is started at most once and never runs again after its return, and the inits counted are those that ended |
| ClientWrites.CanReturn | client.go:58-141 | once done is closed the supervisor can get to its return from every reachable state |
| ClientWrites.CloseTakesDown | client.go:408-421 | a run in which close ends has a moment at which the connection and every channel are dead |
| ClientWrites.OneConnectionOneChannel | client.go:58-195 | in every reachable state the supervisor dials only without a connection, a channel is opened only when all earlier ones are dead, and at most the last one opened is alive, on a live connection |
| ClientWrites.PublishNeedsReady | client.go:270-297 | a push gets to its publish call only through a check that found isReady 1 and its priority valid |
| ClientWrites.PushFacts | client.go:210-239 | pushes exist only once an init has completed, at most one is between Lock and Unlock, and one that returned nil took an acknowledgement of the broker |
| ConfirmRuns.NilPushUnaccepted | client.go:252-268 | a run in which one cancelled wait makes the next push return nil for a message the broker neither acknowledged nor took |
| ConfirmRuns.NilPushUnacceptedWithoutCancel | client.go:158-162 | a run with the same end in which no wait on any channel was cancelled |
| ClientCrashes.SendCrashesIff | client.go:270-322 | for every push past its readiness check and every run up to its publish call, the call panics if and only if the last write to ch in between is the clearing by a failed init |
| ClientCrashes.CanCrashIff | client.go:176-182 | from every reachable state with a push about to publish, some continuation crashes it if and only if ch is nil or the supervisor has not returned |
| ClientCrashes.CrashIsForever | client.go:218-226 | after such a crash, in every continuation, pushMu stays taken, no other push gets past its lock, and no push returns nil any more |
| ClientCrashes.CloseCrashesIff | client.go:408-413 | close, which tests ch and reads it again, panics if and only if the last write to ch in between is that clearing |
| ConfirmRuns.PushFindsNoChannel | client.go:176-182 | a run from a new client to such a crash |
| PushLoop.Publisher.UnsafePush | client.go:270-322 | what one attempt publishes and when it succeeds; the context's header map is not touched |
| PushLoop.Publisher.Push | client.go:216-238 | the push makes its attempts up to the first that is acknowledged or whose pause is cut short, and none after it; its result by the last one made; its publishes are theirs; the context's header map is unchanged |
| PushLoop.PublishesOfPush | client.go:270-322 | of the attempts made exactly those that find the client up with a priority of at most 9 publish, once each and in order: to the queue's name, with the message's body, its content type or "text/plain", its priority or 0, the context's headers, and in retry mode alone "expired" set to this attempt's clock plus the message's own duration, or else the queue's |
| PushLoop.NilIff | client.go:222-238 | nil if and only if some attempt is up, valid, sent and acknowledged and no pause before it was cut short; no attempt after it is made |
| PushLoop.DeadlinesInOrder | client.go:299-307 | with a clock that does not go back the deadlines of one push do not decrease |
| PushLoop.InvalidPriority | client.go:291-297 | whatever the attempts, a priority above 9 is never published and the push never returns nil |
| Tables.HeaderMap.Copy | client.go:324-333 | a map of its own with the same entries (amqpTableToMap likewise) |
| Headers.BuildHeaders | otel/propagation.go:28-48 | the loop builds exactly the non-empty correlation id and the non-empty injected values of the trace keys, the trace value winning on a shared key |
| Headers.BuiltKeyByKey | otel/propagation.go:28-48 | a text is in the headers exactly when it is the non-empty injected value of a trace key, or the non-empty correlation id under its own key where no trace value is; nothing else is there |
| Headers.ExtractHeaders | otel/propagation.go:58-80 | the context is the parent with the received id set and the received carrier extracted, each only when not empty |
| Headers.RestoredCaseByCase | otel/propagation.go:58-80 | the context is the parent, with the id set when a setter and a key are configured and the key holds a text, and then with exactly the trace keys that hold a text extracted, when there is one |
| Headers.ReceivedIsSentIff | otel/propagation.go:28-80 | through publish, stamping and consume, the id and the carrier received are those sent if and only if writers of a shared key write the same text |
| Headers.ContextEndToEnd | otel/propagation.go:28-80 | with a correlation key outside TraceKeys and "expired" used by neither, every attempt in either mode makes of the consumer's context the parent with the publisher's id set and the publisher's trace values extracted, each when there is one |
| Registration.AllOrNothing | queue.go:98-149 | with any number of concurrent callers: a nil AddConsumerN has exactly max(1, n) fresh clients consecutive in its queue's list; of any other call no client is registered, and all of a refused call's are closed |
| Registration.AddEnds | queue.go:98-149 | over any run a call is turned away at once exactly when the consumers have been started or its queue is not configured; every other call registers for its own queue, unless the consumers are started meanwhile |
| Registration.RegisteredCount | queue.go:109-113 | a registered call has as many clients as asked for, and one when fewer than one |
| Registration.RunKeeps | queue.go:138-146 | over any run registered clients keep their places: every list only grows at its end |
| Registration.InitSucceedsOnce | queue.go:180-198 | InitConsumer passes its swap at most once in a run |
| Registration.InitNeeds | queue.go:180-198 | it starts nothing on a cancelled context, after the consumers were started, or when none is registered |
| Registration.InitStarts | queue.go:180-198 | and undisturbed it starts everything registered |
| Registration.OneWorkerEach | queue.go:284-290 | no client ever has a second worker, and only registered clients have one |
| Registration.StartedIffInSnapshot | queue.go:186-195 | when the successful InitConsumer has returned, a client has a worker exactly when it is in that call's snapshot; the others get none in any continuation |
| Registration.EveryoneInSnapshotIff | queue.go:186-193 | the snapshot of the successful call holds every registered client exactly when no AddConsumerN registered between snapshot and swap |
| Registration.NilButNeverStarted | queue.go:138-149 | a run in which AddConsumerN returns nil and no continuation starts its client |
| QueueStore.Store.constructor | queue.go:37-74 | one fresh idle publisher for exactly the queues that are not consumer-only, no two the same |
| QueueStore.Store.AddConsumerN | queue.go:98-149 | the loops themselves: the clients whose supervisors the call started are max(1, n) fresh distinct ones; on nil exactly they come after the earlier ones; on error the registry is as before and all of them are closed |
| Clients.Client.Close | client.go:394-424 | the body runs once however often it is called; the channel's error exactly when the channel's close fails in that run of the body, the connection's exactly when that alone fails, and later calls report nothing |
| Shutdown.CloseOneClient | queue.go:327-349 | the client is closed whatever happened before, and the error kept is the first of all problems so far |
| Shutdown.CloseClients | queue.go:307-325 | for every order of both maps every client is visited and closed, consumers of a queue in their order, each visit taking the next look at the given context; the error is the first of all problems |
| Shutdown.FirstIsEarliest | queue.go:327-349 | the error kept is that of the first visit in trouble, a dead context before that visit's failed close |
| Shutdown.WaitInflight | queue.go:222-236 | it ends well only after the count was zero at one of its looks, with the timeout exactly on a look that finds the context dead, and otherwise waits on; it never waits on a dead context |
| Shutdown.Stop | queue.go:200-220 | every snapshotted client is closed even after errors or cancellation and each body has run exactly once; the answer follows from the looks at the given context in turn, and is nil if and only if no close failed, the count was zero after the closes, and this context is live at the last look, so at every one |
| Shutdown.NilMeansClean | queue.go:200-220 | what an answer of nil means for the visits, the wait and the last look, as an if-and-only-if |
| Shutdown.AnswerIs | queue.go:200-220 | every other answer: the first trouble of the closes or else the timeout, alone with a live last look and wrapped with a dead one, and the bare context error exactly for clean closes, a drained wait and a dead last look |
| Shutdown.ConsumersInOrder | queue.go:318-322 | the consumers of a queue are visited together in their order, queue after queue |
| Shutdown.SecondShutdown | client.go:397-421 | once all clients are closed another shutdown can report nothing but its context |
| ConsumerLoop.BackoffClosedForm | consumer_loop.go:91-98 | after k failed polls from d the delay is min(d * 2^k, 30 s), and never below d |
| ConsumerLoop.WaitUntilReady | consumer_loop.go:61-76 | every sleep is the closed form's and within 1 s to 30 s; 0 exactly when a stop signal was taken, else 1 s |
| ConsumerLoop.Run | consumer_loop.go:16-50 | after a lost channel or a failed consume there is another round and after anything else none; every delivery of every subscription is handled; each wait starts with one second, or two after a failed consume; and the client is closed exactly when the worker stopped on a cancelled context outside a wait or pause |
| FailedJobs.MemoryStore.Add | examples/failed-jobs/main.go:45-65 | appends one job with the next id, in place or into a bigger array |
| FailedJobs.MemoryStore.List | examples/failed-jobs/main.go:67-75 | a fresh array with the same jobs |
| FailedJobs.MemoryStore.Take | examples/failed-jobs/main.go:77-90 | deletes in place exactly the first job with the id and returns it |
| FailedJobs.EveryHistory | examples/failed-jobs/main.go:45-90 | over any operations ids increase along the slice, are at most next and never reused, and jobs added are exactly jobs present plus jobs taken |
| FailedJobs.RecordsKeepTheirJobs | examples/failed-jobs/main.go:45-65 | over any operations the n-th record added has the queue, the body and the error text of the n-th failed job, and "" for a job without an error |
| FailedJobs.TakeIsExact | examples/failed-jobs/main.go:77-90 | in every reachable store a take removes the job with that id and no other, keeps the order, and a second take finds nothing |
| FailedJobs.ListedCopyIsStable | examples/failed-jobs/main.go:67-75 | no later operation changes a listed copy |

## Left out

- RetryTheorems.RetryBound: client and broker share one clock that does not go back; clock skew between hosts and a broker that expires late by more than it should are not modelled.
- RetryTheorems.InFlight: a handler or fail handler that ends its goroutine, a fail handler that panics, and an extractor that panics are not modelled; handlers are arbitrary outcomes.
- RetryableErrors.IsRetryableIff: custom `As` methods of foreign error types are not modelled.
- Topology.AcceptedExactlyWithoutClash: the broker's own restrictions on names (empty, reserved prefix, length) and its upper limit for a time to live are not modelled, nor queues declared by other programs.
- ClientMachine: the one-element buffer of `notifyConfirm` is unbounded here, and the library's delivery of confirms is in order per channel; a tag gap is not modelled.
- ClientMachine: reads and writes of `ch` and `notifyConfirm` are atomic; torn or stale reads of these unsynchronised fields are not modelled.
- ClientMachine: a panic ends the goroutine that panics and nothing else, as when a caller recovers it; one that is not recovered ends the process.
- PushLoop.Publisher.Push: `WaitReady` before the loop and the 30-second limit of one publish call are a step of the client machine and a failed attempt; the `Timestamp` field and the error texts are left out.
- PushLoop.PublishesOfPush: how a deadline is written is a parameter, which the constructor sets to the RFC 3339 format.
- RetryStart.NeverRejectedUnwritable: a deadline past year 9999 needs a host clock past year 9707, since a Go `Duration` spans 292 years; the case is there so that the count is exact for every deadline.
- Headers.BuildHeaders: what a propagator injects and extracts is any function of the context and the carrier.
- Shutdown.Stop: goroutines that start a handler after the in-flight count was zero are outside it; no claim is made that none does.
- QueueStore.Store.AddConsumerN: another caller is a single moment at which consumers have been started; the full interleaving is `Registration`.
- Registration.AllOrNothing: a Shutdown between the steps, which closes registered clients, is not a step there.
- Clients.Client.Close: a supervisor that is still running beside it is the subject of `ClientMachine`.
- ConsumerLoop.Run: a subscription is the number of deliveries it hands over and how it ends; what each delivery does is `QueueStore.Store.HandleDelivery`.
- FailedJobs.MemoryStore.Add: a slice grows to any bigger capacity; Go's growth rule is not modelled.
- Logging, returned-message logging, error texts, the remaining `With...` options, dialing, TLS, the HTTP part of the examples and their `main` functions: no effect on the state modelled here.
- `Publish` for an unknown or consumer-only queue, `WaitReady` and the guards of `InitConsumer` as separate results: one reading of a branch settles each.
