# Verification of the messaging, runtime, security and DSN helpers

A Dafny model of the parts of these Go packages whose correctness depends on interleavings,
on whole runs, or on exact data handling, with proofs that hold for every input, every run
and every reachable state.

`dafny verify dfyconfig.toml` checks the whole project.

## What is modelled

**`RabbitClient.dfy`: the AMQP client (`messaging/rabbitmq/client.go`).** A transition
system. One goroutine runs `New` and then the reconnect loop; any number of `Close` callers,
connection drops and cancellation of the parent context interleave with it. Every shared
read, shared write, critical section and library call is one action; `isClosing` is two,
because it reads the flag and the context separately. `sync.Once` lets one caller run the
body of `Close` and holds the others until it is done. Connections are numbered as they are
dialled, and the history says which of them setup ran on, which the client closed and which
went down by themselves. The invariant gives every connection that is up exactly one owner.
Dialling, setup, closing a connection, and the shutdown and close functions of `App` are
assumed to return.

**`AppLifecycle.dfy`, `AppFailures.dfy`, `AppObject.dfy`: `App.Run` (`runtime/app.go`).** A
transition system over any number of component goroutines, the buffered `errCh`, the run context, the goroutine behind
`wg.Wait`, the deadline and `Run` itself; a select takes any ready branch, and cancellation of
the parent reaches the run context some time later. `AppFailures` ties what is sent on `errCh`
and returned to what the functions of the components returned in the run. The class `App` in
`AppObject` is the sequential code: registration, and the two backward loops with their error
precedence; every outcome of its shutdown is shown to be that of a run of the transition system.

**`Outbox.dfy`, `OutboxLocks.dfy`, `Relay.dfy`, `RelayRuns.dfy`, `RelayMetrics.dfy`, `Backoff.dfy`:
the outbox relay (`messaging/outbox/outbox.go`, `observability/metrics/outbox.go`).** `Outbox` runs
any number of relays as steps against an abstract store. The store's contract: a claim locks rows
that are unpublished, unlocked and available; `MarkPublished` publishes and unlocks; `MarkFailed`
unlocks, counts the attempt and sets the next time, and never unpublishes; recovery unlocks any
rows. Every store call may fail with or without effect. Each claim of an event is a ticket, so
that claims, publishes and marks of the same event can be told apart; a ticket remembers whether
recovery took the lock of its claim. `OutboxLocks` says what the locks guarantee, per lock lost.
`Relay` is `tick` and `fail` as written, logging every call and counting dispatch metrics.
`RelayRuns` shows that every result of such a tick is a run of one relay in `Outbox`, under every
interleaving with the others, whose calls are those in the log of the tick; and `RelayMetrics`
counts the metrics of all relays at once. `Backoff` is the delay loop on 64-bit durations.

**`Retry.dfy`: bounded redelivery (`messaging/retry/retry.go`).** The count header of every
type the code accepts, with `strconv.Atoi`'s clamping, 64-bit wrap-around of the increment, and
the copying of the header table by reference.

**`Jwks.dfy`, `Base64Url.dfy`, `JwksCache.dfy`: the JWKS cache (`security/jwks/jwks.go`).**
Unpadded base64url down to its bit groups, `Parse` and `Ed25519`, the cache object, and all
interleavings of `Refresh`, `Lookup` and `Seed` with a server whose document changes over
time. The server answers 304 only to a request that carries its current tag
(sections 13.1.2 and 15.4.5 of RFC 9110).

**`TokenCache.dfy`, `TokenCallers.dfy`: the service token client (`security/s2s/client.go`).**
`TokenCache` is the cache under a sequence of calls, each with the clock readings it meets and the
reply a fetch for any audience would get. `TokenCallers` is every interleaving of concurrent callers around the mutex, which a
call holds from its cache test to the end of its fetch; such runs amount to those sequences.

**`Dsn.dfy`: DSN field extraction and replacement (`postgres/connection/connection.go`)**, over
Unicode white space splitting and joining.

`Common.dfy` holds optional values, results, 64-bit integers, white space and trimming.

## Findings

These hold of the code as it stands; each is stated with the exact condition.

- A 200 without an ETag replaces the cached keys but keeps the old tag, and seeding leaves the tag
  alone too. A cache stays coherent with its tag throughout a run exactly when every step of the
  run is harmless (`CoherentExactly`): beside a stored tag, no seeding with a last good entry that
  is not cached already, and no untagged document with other keys. `StaleTagConfirmsOtherKeys` is a
  run in which a later 304 succeeds and confirms the wrong keys; a successful refresh matches the
  server exactly when it was a 200 or found the cache coherent (`RefreshMatchesExactly`).
- Cancelling the parent context ends the reconnect loop but closes nothing: the installed
  connection stays open until `Close` is called (`ExitWithoutCloseKeepsConnection`).
- The attempt counter of the relay wraps at the largest integer, where the delay drops back to
  the first one. Delays are non-decreasing over all counters exactly when the base is not below
  the cap, and always below the largest counter (`FailDelayMonotoneEverywhere`, `FailDelayMonotone`).
- The retry count wraps too: redelivery of an ever-failing message ends exactly when the limit
  is below the largest integer (`BoundedIffLimitBelowLargest`).
- The expiry of a service token wraps for announced lifetimes above about 292 years
  (`ExpiryFitsUpToLongest`).
- Replacing the database name and reading it back gives the name exactly when there is a field
  to replace and the name holds no white space (`ExtractAfterReplace`).
- A mark names an event and not the claim it is for, and recovery may release the lock of a claim still
  under way. With n locks of an event lost to recovery, c of its claims can be unmarked together,
  and c of its publishes confirmed, exactly when c <= n + 1 (`ClaimsUnderWayExactly`,
  `ConfirmationsExactly`). So a relay slower than the lock timeout costs exclusivity and the single
  confirmed publish, one of each for every lock lost, and never at-least-once delivery.
- The header comment of `runtime/app.go` lists stopping the servers before cancelling the
  runners. The code cancels the run context earlier exactly when the parent was cancelled or a
  component has sent its error (`CancelledEarlyExactly`); `FailureCancelsEarly` is such a run.

## Model

| member | source | states |
|---|---|---|
| `RabbitClient.StepKeepsInv` | messaging/rabbitmq/client.go:90-208 | every atomic step of New, the loop, Close and the environment keeps the ownership invariant |
| `RabbitClient.RunKeepsInv` | messaging/rabbitmq/client.go:90-208 | so does every run |
| `RabbitClient.NoLeak` | messaging/rabbitmq/client.go:315-337 | when any Close has returned the loop has exited, conn is nil and every connection ever dialled is down; the same when New failed |
| `RabbitClient.ConnStaysNil` | messaging/rabbitmq/client.go:317-334 | once Close has left its first critical section conn stays nil in every later state and leftover is nil |
| `RabbitClient.InstalledIsConfigured` | messaging/rabbitmq/client.go:106-131 | with a setup callback, an installed connection is one on which setup succeeded; setup follows an opened channel and never runs without a callback |
| `RabbitClient.CancelledNotInstalled` | messaging/rabbitmq/client.go:102-122 | a connection still being dialled or set up when the context is done is never installed |
| `RabbitClient.ExitWithoutCloseKeepsConnection` | messaging/rabbitmq/client.go:138-165 | a loop that ended without Close leaves its connection installed and not closed by the client |
| `RabbitClient.AtMostTwoLive` | messaging/rabbitmq/client.go:123-134 | at most two connections are up, each owned by exactly one of the conn field, the loop and Close |
| `RabbitClient.NoMissedDisconnect` | messaging/rabbitmq/client.go:144-176 | the parked loop watches the installed connection unless closing is set, and wakes when it goes down or the context ends |
| `RabbitClient.StaysParked` | messaging/rabbitmq/client.go:152-162 | while the watched connection is up and the context live, the loop stays in its select |
| `RabbitClient.CloseTerminates` | messaging/rabbitmq/client.go:315-337 | after closing is set the loop and Close take at most fourteen more steps under every interleaving |
| `RabbitClient.CloseNeverDeadlocks` | messaging/rabbitmq/client.go:315-337 | after closing is set some thread can step until the loop has exited and Close is done, then every caller can return |
| `RabbitClient.AtMostOneMoreDial` | messaging/rabbitmq/client.go:90-105 | after closing is set at most one dial starts, only if the flag had been read for it, and setup is called on no connection obtained from then on |
| `RabbitClient.EndsOnlyWhenTold` | messaging/rabbitmq/client.go:138-193 | the loop returns only because closing is set or the context is done |
| `RabbitClient.NewSucceeds` | messaging/rabbitmq/client.go:90-136 | with a live context and no failing call New hands out a client whose loop watches its first connection |
| `RabbitClient.NewFailsOnlyForCause` | messaging/rabbitmq/client.go:90-136 | New fails only after a failed call or a cancelled context |
| `RabbitClient.FailedCallGivesUp` | messaging/rabbitmq/client.go:95-118 | a failed dial, channel or setup closes what is in hand; New goes on to fail, the loop to its wait |
| `RabbitClient.StepRecovers` | messaging/rabbitmq/client.go:138-193 | while the client is open a successful step brings the loop closer to its select and keeps the connection it will watch |
| `RabbitClient.LoopParks` | messaging/rabbitmq/client.go:138-193 | while the client is open and calls succeed the loop reaches its select watching the expected connection |
| `RabbitClient.OpenLoopParks` | messaging/rabbitmq/client.go:138-193 | from every reachable state of an open client at most 25 successful steps lead to the select |
| `RabbitClient.Reconnects` | messaging/rabbitmq/client.go:152-164 | when the watched connection goes down, at most 23 loop steps install and watch a newly dialled one |
| `RabbitClient.RedialsUntilItWorks` | messaging/rabbitmq/client.go:178-193 | after any run from a disconnect, whatever failed in it, an open client can still watch an installed connection dialled since |
| `RabbitClient.DialsAreSpaced` | messaging/rabbitmq/client.go:178-208 | no hot retry: every dial but the first has its own disconnect or completed wait before it |
| `AppLifecycle.StepKeepsInv` | runtime/app.go:192-272 | every step of Run, a component, the waiter or the environment keeps the invariant |
| `AppLifecycle.SendNeverBlocks` | runtime/app.go:200-212 | sends never exceed the number of components, which is below the buffer, so no send blocks |
| `AppLifecycle.NoLostFailure` | runtime/app.go:207-228 | while Run is parked and the parent is live, a component that finished with an error leaves errCh non-empty |
| `AppLifecycle.LateFailuresIgnored` | runtime/app.go:207-210 | once the run context is cancelled and no send is under way, errCh receives nothing more in any continuation |
| `AppLifecycle.ResultOfRun` | runtime/app.go:223-271 | the first error enqueued is returned if the parent was never cancelled or an error was received, otherwise the first of servers, deadline, closers |
| `AppLifecycle.PrecedenceExactly` | runtime/app.go:234-271 | the first failing shutdown wins over the deadline, the deadline over the first failing close, and there is no error exactly when nothing failed |
| `AppFailures.SentWasReturned` | runtime/app.go:203-211 | over every run, what is sent on errCh is the error with which that component's function returned |
| `AppFailures.FailedExactly` | runtime/app.go:207 | a component counts as failed if and only if its function has returned an error |
| `AppFailures.NilSendsNothing` | runtime/app.go:207 | a component whose function returned nil is no failure and sends nothing |
| `AppFailures.ReceivedWasReturned` | runtime/app.go:223-270 | a component error that Run received or returns was returned by that component's function |
| `AppFailures.ErrorIsReported` | runtime/app.go:207-210 | with the run context live an error is sent once, as it is, and the context cancelled; otherwise, or without an error, nothing is sent |
| `AppLifecycle.ShutdownTrace` | runtime/app.go:230-266 | the calls are exactly the planned shutdowns and closes, each once even after failures, with readiness false |
| `AppLifecycle.ReadyMeansStarted` | runtime/app.go:214-221 | readiness implies every component was started and nothing was shut down yet |
| `AppLifecycle.NilMeansClean` | runtime/app.go:235-271 | a nil result means all components finished before the first closer, every call returned nil, and the deadline did not decide |
| `AppLifecycle.GivesUpOnlyAtDeadline` | runtime/app.go:253-259 | Run gives up waiting, and reports it, only after the deadline passed, which starts with the shutdown |
| `AppLifecycle.ClosersAfterComponents` | runtime/app.go:248-266 | whatever Run returns, closers ran only after every component had finished, unless the wait ended with the deadline |
| `AppLifecycle.CancelledEarlyExactly` | runtime/app.go:197-211 | before Run cancels it, the run context is or is about to be cancelled if and only if the parent was cancelled or a component sent its error |
| `AppLifecycle.CancelledBeforeWait` | runtime/app.go:246-266 | Run waits for its components and closes anything only after the run context was cancelled |
| `AppLifecycle.FailureCancelsEarly` | runtime/app.go:207-210 | for every registry with a component, a run in which its failure cancels the run context before any shutdown call, with the parent alive |
| `AppLifecycle.Returns` | runtime/app.go:223-272 | once told to stop, Run returns within its remaining steps and at most one expiry of the deadline |
| `AppLifecycle.ReturnsExactly` | runtime/app.go:223-272 | Run can return by its own steps and the deadline if and only if it was told to stop: the parent cancelled or an error enqueued, if still in its select |
| `AppLifecycle.AdvanceProgresses` | runtime/app.go:203-211 | a component whose function has returned is never blocked, and each step leaves fewer |
| `AppLifecycle.ComponentsFinish` | runtime/app.go:203-211 | once every function has returned, the components all finish within a bounded number of their own steps |
| `AppLifecycle.WaitCanEnd` | runtime/app.go:248-259 | if every function returns, the wait can end without the deadline |
| `AppLifecycle.RunTerminates` | runtime/app.go:192-272 | whatever the others do, Run takes at most components + servers + closers + 7 steps |
| `AppLifecycle.StopPlanMeaning` | runtime/app.go:236-240 | the plan holds exactly the servers with a shutdown function, last registered first |
| `AppLifecycle.ClosePlanMeaning` | runtime/app.go:261-262 | the plan holds every closer, last registered first |
| `AppObject.ServersPlanned` | runtime/app.go:96-136 | after any registrations, the backward loop over the servers names exactly those with a shutdown function, last call first |
| `AppObject.ClosersPlanned` | runtime/app.go:156-179 | after any registrations, the backward loop over the closers names exactly those that are not nil, last call first |
| `AppObject.EachCallRegisters` | runtime/app.go:96-179 | each kind of call registers its name or default name, and nothing for a nil runner or closer |
| `AppObject.ComponentsOf` | runtime/app.go:213-219 | Run starts one component for every server and every runner that is not nil |
| `AppObject.App.StopServers` | runtime/app.go:235-244 | the backward loop makes the planned shutdown calls and keeps the first error |
| `AppObject.App.CloseAll` | runtime/app.go:261-266 | the backward loop makes the planned close calls and keeps an earlier error, else the first one |
| `AppObject.App.ShutDown` | runtime/app.go:230-271 | unready first, then the registrations that can be shut down and closed, last call first, and the error precedence of the result |
| `AppObject.ShutDownRuns` | runtime/app.go:230-271 | every outcome of the sequential shutdown is that of a run of the protocol from the end of its select |
| `Backoff.Backoff` | messaging/outbox/outbox.go:198-219 | equals min(max, base * 2^(attempt-1)) after defaults without 64-bit overflow, doubling only while within the cap |
| `Backoff.DelayMonotone` | messaging/outbox/outbox.go:198-219 | the delay is monotone in the attempt |
| `Backoff.DefaultsFilledIn` | messaging/outbox/outbox.go:80-85 | one second and five minutes, each only where nothing is given |
| `Backoff.FailDelayExactly` | messaging/outbox/outbox.go:163-172 | MaxBackoff from the last allowed attempt on, before it min(MaxBackoff, base * 2^attempts) |
| `Backoff.FailDelayBounds` | messaging/outbox/outbox.go:163-177 | every delay fail schedules is positive and at most MaxBackoff |
| `Backoff.FailDelayMonotone` | messaging/outbox/outbox.go:163-177 | delays do not shrink as attempts grow, the exhausted branch included, below the largest counter |
| `Backoff.FailDelayAtLargest` | messaging/outbox/outbox.go:164-169 | at the largest counter the attempt wraps and the delay is the first one |
| `Backoff.FailDelayMonotoneEverywhere` | messaging/outbox/outbox.go:163-177 | over all counters delays never shrink if and only if the base is not below the cap |
| `Outbox.StepKeepsInv` | messaging/outbox/outbox.go:121-188 | every step of any relay or of the store keeps the invariant on rows, tickets and queues |
| `Outbox.ClaimLocks` | messaging/outbox/outbox.go:22-23 | a claim locks exactly the claimed rows, one ticket each, queued in order |
| `Outbox.PublishedOnlyAfterAck` | messaging/outbox/outbox.go:133-145 | in every run a row is marked published only after the broker acknowledged a publish of it |
| `Outbox.OnePublishOneMark` | messaging/outbox/outbox.go:127-150 | each claim has at most one publish and then at most one mark, the one its publish result calls for |
| `OutboxLocks.PublishesBounded` | messaging/outbox/outbox.go:121-151 | publishes of an event never exceed its claims; with n of its locks lost, at most n + 1 are confirmed and at most n + 1 claims are unmarked |
| `OutboxLocks.ClaimsUnderWayExactly` | messaging/outbox/outbox.go:121-188 | with n locks of an event lost to recovery, c of its claims can be unmarked together if and only if c <= n + 1 |
| `OutboxLocks.ConfirmationsExactly` | messaging/outbox/outbox.go:121-188 | with n locks lost, c of its publishes can be confirmed if and only if c <= n + 1 |
| `OutboxLocks.RecoveryOverlaps` | messaging/outbox/outbox.go:179-188 | from every state, recovering the lock of a claim under way lets an idle relay claim the event beside it |
| `OutboxLocks.ClaimsExclusive` | messaging/outbox/outbox.go:121-188 | an event is claimed again before an earlier claim of it was marked failed only if that claim or one before it lost its lock |
| `Outbox.CancelAbandonsSuffix` | messaging/outbox/outbox.go:127-130 | on cancellation the rest of the batch is left untouched |
| `OutboxLocks.LockedUntilRecovery` | messaging/outbox/outbox.go:127-130 | when no relay will come back to a locked event, its lock stays in a continuation if and only if no recovery in it takes the event |
| `OutboxLocks.AbandonedStaysLocked` | messaging/outbox/outbox.go:127-130 | an abandoned event is never published or marked for that claim, and stays locked in exactly the continuations that do not recover it |
| `OutboxLocks.NotClaimedEarly` | messaging/outbox/outbox.go:163-177 | an unlocked event no relay will come back to is neither claimed nor changed before it becomes available |
| `Outbox.MarkFailedReschedules` | messaging/outbox/outbox.go:163-177 | an applied MarkFailed unlocks the row and makes it available after the delay of its attempts, positive and at most MaxBackoff |
| `Outbox.MarkPublishedSettles` | messaging/outbox/outbox.go:142-145 | an applied MarkPublished publishes and unlocks its row and leaves every other row alone |
| `Outbox.PublishedForGood` | messaging/outbox/outbox.go:121-188 | a published event stays published in every continuation |
| `Outbox.NeverLost` | messaging/outbox/outbox.go:121-188 | from every reachable state an idle relay can still deliver any unpublished event |
| `Relay.Metrics.Record` | observability/metrics/outbox.go:92-105 | counts the outcome, the failure and the duration sample as called for |
| `Relay.CountersCount` | observability/metrics/outbox.go:92-105 | after any calls each counter is the number of calls it stands for |
| `Relay.MessageKeepsText` | messaging/outbox/outbox.go:165-171 | the stored message is the first 500 bytes of the error, prefixed once the attempts are used up |
| `Relay.Relay.Fail` | messaging/outbox/outbox.go:163-177 | one MarkFailed with the message cut to 500 bytes and possibly prefixed, and the scheduled delay |
| `Relay.Relay.Process` | messaging/outbox/outbox.go:131-149 | one publish, then exactly one of MarkPublished and MarkFailed, and the matching metrics |
| `Relay.Relay.ProcessAll` | messaging/outbox/outbox.go:127-150 | events are processed in order until done or cancelled; nothing is called for the rest |
| `Relay.Relay.Tick` | messaging/outbox/outbox.go:121-151 | one claim, then the loop; nothing after a failed claim |
| `Relay.OnePublishThenOneMark` | messaging/outbox/outbox.go:127-161 | the calls about the k-th event are its check, its publish on its exchange or the default, and MarkPublished after a success or MarkFailed with text and delay after a failure |
| `Relay.LogWellMarked` | messaging/outbox/outbox.go:127-150 | in any log each mark stands right after the publish of the same event that calls for it, and each publish right before its mark |
| `Relay.TallyBalanced` | observability/metrics/outbox.go:92-105 | for every label claimed = dispatched + failed, failures agree and samples equal claims, after any iterations |
| `Relay.ClaimsCounted` | messaging/outbox/outbox.go:131-146 | as many claims of a label as completed iterations, as many dispatches as were published and marked published without an error |
| `RelayRuns.LoopRuns` | messaging/outbox/outbox.go:127-150 | every interleaving of the loop of a tick with steps of the others is a run; the relay is never blocked, and its tickets end as its iterations say |
| `RelayRuns.TickRuns` | messaging/outbox/outbox.go:121-151 | any tick is a run of an idle relay under every interleaving in which its context checks find what the tick found; processed tickets reflect their iterations, the others are untouched |
| `RelayRuns.TickLogIsTrace` | messaging/outbox/outbox.go:121-151 | the calls in the log of a tick are one by one those its relay makes in the run, with the same kind of mark, event and result |
| `RelayRuns.TickAlone` | messaging/outbox/outbox.go:121-151 | for every result of a tick there is such a run |
| `RelayMetrics.MetricsConserved` | messaging/outbox/outbox.go:127-150 | with any relays interleaved, for every label claimed = dispatched + failed + relays in the middle of an event, failures equal failed, samples are the claims whose outcome is known |
| `RelayMetrics.TickMetersAsLogged` | messaging/outbox/outbox.go:127-150 | in every interleaving, what a tick counts is what its relay counts in the run |
| `Retry.WithAttempt` | messaging/retry/retry.go:68-75 | a fresh table with the count set and every other header copied; the input table is unchanged |
| `Retry.AttemptOfStamped` | messaging/retry/retry.go:27-50 | reading back a stamped count gives it, and no other header changes |
| `Retry.CountOfEachType` | messaging/retry/retry.go:27-50 | every type of header value is read as its number, floats truncated toward zero; anything else counts as 0 |
| `Retry.AtoiOfDigits` | messaging/retry/retry.go:44-46 | digits with or without a sign read as their number, clamped to the machine integer |
| `Retry.AtoiOfBadText` | messaging/retry/retry.go:44-46 | other text counts as 0 |
| `Retry.LimitOfEight` | messaging/retry/retry.go:54-57 | without a limit of its own a message is retried up to a count of 8 |
| `Retry.AtoiOfDecimal` | messaging/retry/retry.go:44-46 | a count in decimal text reads back as itself, for every 64-bit integer |
| `Retry.RetriesThenDeadLetters` | messaging/retry/retry.go:54-66 | exactly Budget retries with rising count, then the dead-letter queue; other headers survive |
| `Retry.RetriedLimitMinusCount` | messaging/retry/retry.go:54-66 | from a count n0 not above the limit the budget is limit - n0 |
| `Retry.LargestLimitAlwaysRetries` | messaging/retry/retry.go:62 | with the largest integer as limit every decision is a retry |
| `Retry.BoundedIffLimitBelowLargest` | messaging/retry/retry.go:54-66 | redelivery ends if and only if the limit is below the largest integer |
| `Retry.NeverHotRequeues` | messaging/retry/retry.go:52-66 | terminal failures are dead-lettered, a retry carries a count within the limit, nothing is acked |
| `Base64Url.DecodeEncode` | security/jwks/jwks.go:183-199 | decoding an encoding is the identity, and the encoding has the unpadded length |
| `Base64Url.EncodeDecode` | security/jwks/jwks.go:183 | a decodable text is canonical if and only if it has no line break and no stray bits |
| `Base64Url.Alphabet` | security/jwks/jwks.go:199 | the alphabet of section 5 of RFC 4648, by code points |
| `Base64Url.SameNumber` | security/jwks/jwks.go:199 | the groups are the base-64 digits of the number whose base-256 digits are the bytes |
| `Base64Url.TestVectors` | security/jwks/jwks.go:199 | the encodings of section 10 of RFC 4648, without padding |
| `Jwks.ParseDocument` | security/jwks/jwks.go:171-196 | the loop computes Parse, first error first |
| `Jwks.ParseExactly` | security/jwks/jwks.go:171-196 | Parse succeeds exactly when some key is usable and all usable ones carry 32 bytes; each kid is bound to its last key |
| `Jwks.UsableExactly` | security/jwks/jwks.go:174-182 | the keys that count, by the lower-case text of kty, crv and alg, and a kid and x that are not empty |
| `Jwks.FoldBeyondAscii` | security/jwks/jwks.go:174-177 | beyond ASCII only the Kelvin sign and the long s fold to an ASCII letter |
| `Jwks.KeyBytesExactly` | security/jwks/jwks.go:183-190 | a usable key is good exactly when x decodes to 32 bytes, with an error of its own for each way to fail |
| `Jwks.OtherKeysIgnored` | security/jwks/jwks.go:173-182 | removing a key that does not count changes nothing |
| `Jwks.ParseFailsWith` | security/jwks/jwks.go:183-190 | the error is that of the first usable key that is bad |
| `Jwks.NothingUsable` | security/jwks/jwks.go:192-195 | without a usable key Parse fails |
| `Jwks.ParseOfEd25519` | security/jwks/jwks.go:171-200 | published keys parse back to exactly their last-wins table |
| `JwksCache.KeyCache.Seed` | security/jwks/jwks.go:56-67 | good entries are added, later ones winning; the time is set if any key is held |
| `JwksCache.KeyCache.Refresh` | security/jwks/jwks.go:85-138 | the result and the new cache for every response |
| `JwksCache.KeyCache.EnsureFresh` | security/jwks/jwks.go:140-150 | refreshes exactly when keys are missing, or stale with a remote; without a remote any key is good for ever |
| `JwksCache.RefreshNeededWithoutRemote` | security/jwks/jwks.go:144-149 | an empty cache is always refreshed, one with keys and no remote never, one never timed always |
| `JwksCache.SeededFreshForTtl` | security/jwks/jwks.go:64-66 | seeding that leaves a key keeps the cache fresh for exactly the time to live |
| `JwksCache.SeedingLeavesKeys` | security/jwks/jwks.go:56-67 | seeding leaves a key exactly when there was one or a good entry is given, and otherwise changes nothing |
| `JwksCache.RefreshSucceedsExactly` | security/jwks/jwks.go:103-138 | a refresh succeeds exactly on a 304 or a 200 that parses; other outcomes have errors of their own |
| `JwksCache.KeyCache.Lookup` | security/jwks/jwks.go:152-169 | at most one refresh; a key present afterwards is returned even if it failed |
| `JwksCache.SeededIsLastWins` | security/jwks/jwks.go:59-63 | seeding a new cache gives the last-wins table of the entries |
| `JwksCache.FreshForTtl` | security/jwks/jwks.go:140-150 | after a success no refresh is needed for exactly the time to live |
| `JwksCache.RefreshedKeepsGood` | security/jwks/jwks.go:85-138 | stored keys stay good and non-empty, and a failed refresh changes nothing |
| `JwksCache.StepKeepsSafe` | security/jwks/jwks.go:56-169 | every step of any caller keeps cache safety and mutual exclusion of refreshes |
| `JwksCache.CacheSafety` | security/jwks/jwks.go:56-169 | in every reachable state stored kids are non-empty with 32-byte keys, a tag implies keys, and at most one refresh is under way |
| `JwksCache.NeverEmptyAgain` | security/jwks/jwks.go:56-138 | once a key is held, no run empties the cache |
| `JwksCache.LookupReturnsHeldKey` | security/jwks/jwks.go:152-169 | what Lookup returns, a key or nothing, is what the cache held for the kid at some moment during the call |
| `JwksCache.LookupSeesItsCall` | security/jwks/jwks.go:152-169 | over every run, a lookup gives what the cache held for the kid it was called with at some moment since its call |
| `JwksCache.CallersCanProceed` | security/jwks/jwks.go:85-138 | a call that is not done can go on, or waits for one that can |
| `JwksCache.StepKeepsCoherence` | security/jwks/jwks.go:56-138 | coherence is lost in exactly the steps that are not harmless |
| `JwksCache.CoherentExactly` | security/jwks/jwks.go:56-138 | a cache is coherent at every moment of a run if and only if all its steps are harmless |
| `JwksCache.TagNamesCachedKeys` | security/jwks/jwks.go:85-138 | after harmless steps, a stored tag names the document whose keys are cached |
| `JwksCache.RefreshMatchesExactly` | security/jwks/jwks.go:108-137 | a successful refresh leaves the server's keys at the moment it answered if and only if it was a 200, or a 304 that found the cache coherent |
| `JwksCache.RefreshMatchesServer` | security/jwks/jwks.go:108-137 | after harmless steps, a successful refresh installs or confirms the server's keys at the moment it answered |
| `JwksCache.UntaggedReply` | security/jwks/jwks.go:130-135 | a 200 without ETag keeps coherence if and only if no tag is stored or both documents have the same keys |
| `JwksCache.SeedingChangesNothing` | security/jwks/jwks.go:59-63 | seeding changes no key if and only if the last good entry of every kid is already cached |
| `JwksCache.SeedingBesideTag` | security/jwks/jwks.go:56-67 | seeding keeps coherence if and only if no tag is stored or the last good entry of every kid is already cached |
| `JwksCache.StaleTagConfirmsOtherKeys` | security/jwks/jwks.go:108-135 | for any two documents with different keys, a run whose last refresh succeeds with a 304 and confirms keys that are not the server's |
| `TokenCache.Client.Token` | security/s2s/client.go:69-90 | the fields end as one served call leaves them, and the result is that call's |
| `TokenCache.Client.New` | security/s2s/client.go:43-66 | a blank default audience is refused, any other one trimmed |
| `TokenCache.ResolveExactly` | security/s2s/client.go:70-73 | a call is about what is left without outer white space, or the default if that is nothing |
| `TokenCache.TokenForAudience` | security/s2s/client.go:69-90 | a returned token is what the service replied for exactly the audience asked for, or for the default if it was blank |
| `TokenCache.OuterSpaceIgnored` | security/s2s/client.go:70 | white space around an audience changes nothing about a run |
| `TokenCache.GrantsNotShared` | security/s2s/client.go:76-88 | calls for different audiences never share a grant |
| `TokenCallers.AtMostOneFetch` | security/s2s/client.go:74-82 | under every interleaving of callers at most one fetch is in flight |
| `TokenCallers.CallsAreServedInTurn` | security/s2s/client.go:74-90 | calls are linearizable: each returns what one request for its audience, served between its beginning and its return, gets in the order of the clock |
| `TokenCallers.ServedAfterItsBeginning` | security/s2s/client.go:74-90 | the request a call is served as comes after all those served before the call began |
| `TokenCallers.CallerGetsGrantedToken` | security/s2s/client.go:69-90 | every token a concurrent caller gets was granted for its audience, to it or as the last grant with over 30 seconds left |
| `TokenCallers.CallerGetsTokenForAudience` | security/s2s/client.go:69-90 | over every run of concurrent callers, the token a call returns was granted for the audience it began with, or the default if that was blank |
| `TokenCallers.CallersCanProceed` | security/s2s/client.go:74-90 | a call that is not done can go on, or waits for one that can |
| `TokenCache.CacheIsLastGrant` | security/s2s/client.go:81-88 | the cached triple is as a whole the last one granted |
| `TokenCache.TokenComesFromService` | security/s2s/client.go:69-90 | a returned token was granted for the same resolved audience, now or by the last grant with over 30 seconds left |
| `TokenCache.MissesExactlyWhenStale` | security/s2s/client.go:76-81 | a call fetches exactly when the last grant is for another audience or within its margin |
| `TokenCache.FailedFetchKeepsCache` | security/s2s/client.go:82-85 | a failed fetch returns its error and changes nothing |
| `TokenCache.StaleGrantNeverReturns` | security/s2s/client.go:76-78 | with a clock that never goes back, a grant once within its margin is never returned again |
| `TokenCache.ExpiryFitsUpToLongest` | security/s2s/client.go:131-134 | the recorded expiry is the announced one if and only if the lifetime fits 64-bit nanoseconds |
| `TokenCache.GrantServedUntilMargin` | security/s2s/client.go:76-88 | a new grant serves exactly the calls for its audience until 30 seconds before its lifetime ends |
| `Dsn.Replace` | postgres/connection/connection.go:125-133 | the in-place loop and join compute ReplaceDbName |
| `Dsn.Extract` | postgres/connection/connection.go:116-123 | the scan computes ExtractDbName |
| `Dsn.DbNameField` | postgres/connection/connection.go:118 | a dbname field is the text dbname= followed by a name |
| `Dsn.FirstFieldWins` | postgres/connection/connection.go:116-123 | the name read is that of the first dbname field, and empty without one |
| `Dsn.ReplaceKnownFields` | postgres/connection/connection.go:125-133 | the replaced string: the other fields as they were, the new field in place, single spaces between |
| `Dsn.FieldsBeforeSpace` | postgres/connection/connection.go:117 | splitting works separately on either side of any place where white space begins |
| `Dsn.FieldsOfJoin` | postgres/connection/connection.go:126-132 | splitting a joined list of fields returns that list |
| `Dsn.FieldsOfReplace` | postgres/connection/connection.go:125-133 | re-splitting the output returns the rewritten fields; the others keep value and order |
| `Dsn.ExtractAfterReplace` | postgres/connection/connection.go:116-133 | the new name is read back if and only if there is a field and the name is free of white space |
| `Dsn.ReplaceTwice` | postgres/connection/connection.go:125-133 | replacing twice is replacing once with the second name |
| `Dsn.ReplaceWithOwnName` | postgres/connection/connection.go:116-133 | putting back the name read changes no field if and only if all dbname fields agree |

## Left out

- The AMQP client and `Run` are state machines over values, since their steps interleave; what
  this does not capture is the Go memory model below single reads, writes and critical sections.
- The error `Close` returns, and the setup callback calling `Close`, which would wait for itself.
- `Channel`, `Ping`, `SetupTopology` and the sending half of `PublishWithConfirmHeaders`; its
  decision to report success only on a positive confirmation is kept in `Outbox`.
- Store implementations: the contract of the store is an assumption stated above.
- Names of components and closers in error texts; a component is identified by its index.
- `gracefulStopGRPC`: its outcome enters as the result of a shutdown call.
- Panics, concurrent or repeated `Run` calls, and registration during `Run`.
- Relay hooks, logging, poll and recovery tickers; metric values other than counts, and label sanitizing.
- JSON and HTTP themselves, including the body size limit: a cut body is a body that does not decode.
- Floating-point headers that are not numbers or lie outside 64 bits, which Go converts differently by platform.
- Error texts of the token client, and its own request counters.
- Tracing, health endpoints, middleware, JWT, AES-GCM, PEM, captcha and TLS helpers: outside these modules.
