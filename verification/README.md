# PetroSpecial: verified models of the stateful parts

Dafny models of the parts of the PetroSpecial monorepo whose correctness depends on more than one call:

- **The driver's offline queue** (`apps/driver/lib`). `MediaSubstitution`, `ActionQueue` and `FlushQueue` model one
  flush at a time as the class `DriverApp`, with its stored token and a database per driver; `Draining` says what a
  flush leaves and how many empty a database, `FlushTally` what it counts and sends, and that it finishes what a send
  began. `QueueProtocol` models the queue as it really runs: any number of sends and flushes interleaved at every
  `await`, each flush with its own stale snapshot, a token that can change under them, ids that are used again, and
  answers that are lost or come from a gateway. `QueueSafety`, `QueueOrder` and `QueueIsolation` prove its invariants
  step by step, `QueueRuns` states the results about whole runs, `QueueHistory` that the history they speak of is
  true, `QueueWitnesses` has the runs that show why each condition is there, and `QueueRefinement` and
  `SendRefinement` tie the two models together. `DriverKey` covers how the database name is read off the token,
  `TaskServer` and `DeliveryRuns` the SQL functions in which the actions end.
- **The store's session** (`apps/store/lib/authClient.ts`): rotating refresh tokens, one shared refresh, a server that
  revokes the family when a rotated token comes back. `StoreSession`.
- **The transactional outbox**: `OutboxTable` is a connection with PostgreSQL's rule that the first failing statement
  aborts its transaction; `BatchDrains` and `Dispatcher` are the drainers on it; `OutboxHistory` follows the batch
  drains over any history; `OutboxLocks` and `OutboxExact` run all drainers at once with row locks and crashes.
- **The health watcher** and its incident table (`HealthWatcher`), **calendar periods** on the Gregorian calendar of
  ECMA-262 (`Calendar`, `Periods`), the **stock-releasing sweep** alone and among all that reserves and cancels
  (`StockSweep`, `StockRuns`), the **map-tile cache** of the service worker (`TileCache`) and **masking of personal
  data in logs** (`EmailMask`, `PhoneMask`, `PiiMask`).

Objects whose methods update their fields are classes (`DriverApp`, `Delivery`, `Connection`, `Dispatcher`, `Watcher`,
`Store`), proved against functions on values; the laws are then proved about those functions and about histories of
calls. Protocols that interleave are step systems: a `State`, an `Enabled` predicate, an `Apply` function, and
theorems about `After(Initial(), steps)` for every valid run. Network, clock and database answers are parameters of
the steps.

## Where the code and its comments part

- `actionQueue.ts:78-84` says an action stays queued on `SESSION_EXPIRED`. A 401 clears the token before the action is
  stored, so it goes into the signed-out database, and the next flush without a session removes it
  (`QueueWitnesses.ExpiredSessionLosesTheAction`). The driver's own row is not charged for such a flush, so flushes
  answered 401 never come closer to emptying the queue (`Draining.ExpiredDatabaseNeverDrains`).
- `actionQueue.ts:71-76` and `:150-152` take every other error for the server's no. A gateway's 502 is one too, though
  the server has decided nothing, and the action is dropped (`QueueWitnesses.GatewayErrorLosesTheAction`).
- `actionQueue.ts:109-110` says `discarded` counts dropped actions. If a 401 meets an action on its last attempt, the
  flush goes on signed out and counts every action behind it as discarded, though they stay in the driver's database
  (`FlushTally.FlushCounts`).
- `actionQueue.ts:17-18` counts on one row per id. The pages use the same id again for a second submission, and a flush
  that hears the answer to the first one removes the second (`QueueWitnesses.StaleFlushRemovesResubmission`).
- `actionQueue.ts:14-16` says the server treats a repeat as the same action. It does so for any action with a known id:
  after an admin reassigns a task, the next driver's reports bear the first driver's ids, are answered as done, and the
  task never moves (`TaskServer.ReassignedTaskIsStuck`, `TaskServer.StrandedTask`).
- `actionQueue.ts:113-115` promises the order of the driver's actions. It holds among queued actions; a live send may
  overtake them (`QueueWitnesses.LiveSendOvertakes`).
- `actionQueue.ts:220-224` says a database per driver makes mixing drivers impossible. A sign-in while a flush runs
  mixes them (`QueueWitnesses.SignInMidFlushMixesDrivers`).
- `store/lib/authClient.ts:138-141` says a refresh returns null only when the server definitively rejects the token.
  Any answer outside 2xx and any malformed one does (`:150-152`), and the session is then cleared.
- `dispatchWorker.ts:41-45` says a failed row is left for the next poll while the others go on. All rows share one
  transaction: one refused statement rolls the whole batch back (`OutboxHistory.PoisonedRowBlocksEverything`).
- `dispatcher.ts:43-46` says a consumer that succeeded before a later one failed is not run again, thanks to its own
  idempotency check. That check's record is rolled back too, so it is called again on every retry
  (`Dispatcher.RetriesCallHandlersAgain`).
- `0028_orders_functions.sql:24` says a reservation is released by a cancellation and by the timeout sweep. Only the
  sweep does: an order that a customer, a supplier or an admin cancels goes on holding its stock
  (`StockRuns.CancelledOrderKeepsItsStock`).
- `statementWorker.ts:6-8` says a missed tick heals itself. No later tick closes a month whose following first day had
  none (`Periods.ClosedIffTickedOnTheFirst`), and a daily timer misses none if and only if its ticks are never more than
  24 hours apart (`Periods.TimerNeverMissesIff`).

## Model

| member | source | states |
|---|---|---|
| `MediaSubstitution.ReplaceLeavesNone` | apps/driver/lib/actionQueue.ts:181-183 | no text holds the placeholder after the replacement, overlapping occurrences included, if the id is plain (it neither starts nor ends with an underscore nor has two in a row) and is not a piece of the placeholder's stem |
| `MediaSubstitution.SafeIds` | apps/driver/lib/actionQueue.ts:181-197 | for a plain id: no text whatever can end up holding the placeholder if and only if the id is not a piece of its stem |
| `MediaSubstitution.SafeIdsForBodies` | apps/driver/lib/actionQueue.ts:181-197 | the same equivalence for whole request bodies |
| `MediaSubstitution.SubstituteKeepsShape` | apps/driver/lib/actionQueue.ts:182-190 | tree shape, keys and all leaves that are not strings are kept |
| `MediaSubstitution.SubstituteIdentity` | apps/driver/lib/actionQueue.ts:182-190 | a body without the placeholder is not changed |
| `MediaSubstitution.SubstituteOnceIsEnough` | apps/driver/lib/actionQueue.ts:181-191 | a second substitution, with any id, changes nothing |
| `MediaSubstitution.MediaKeysAreSafe` | services/api/src/routes/media.ts:30 | the ids the api hands out for a driver's photo satisfy the condition above |
| `ActionQueue.OrderIsReplayOrder` | apps/driver/lib/actionQueue.ts:116-118 | sorting any listing of the store gives exactly its rows, oldest first, ties by id |
| `ActionQueue.ReplayOrderUnique` | apps/driver/lib/actionQueue.ts:113-118 | a store has one replay order only |
| `ActionQueue.OrderIgnoresListing` | apps/driver/lib/actionQueue.ts:116-118 | the result does not depend on the order in which the store lists its rows |
| `ActionQueue.ConnectivityIff` | apps/driver/lib/actionQueue.ts:85-94 | which errors keep an action: exactly four messages as they are, and any message in which `networkerror` or `network request failed` can be read in either case |
| `FlushQueue.DriverApp.FlushQueue` | apps/driver/lib/actionQueue.ts:128-172 | the requests, the token and every database afterwards are those of the walk over the sorted rows of the driver's database, each put and removal going to the database the token of that moment names; sent + discarded + pending is the number of rows in every exit; offline changes nothing; what the requests and the three counts are is said by `FlushTally`, what is left by `Draining` |
| `FlushQueue.DriverApp.SendOrQueue` | apps/driver/lib/syncClient.ts:77-125 | what is sent, what is stored in which database and what is raised, in every combination of token, photo, upload failure and send failure; an error is raised only if it is no connectivity failure or there is no store; what the stored action is good for is said by `FlushTally` |
| `FlushQueue.HeldActionReplaysLiveCalls` | apps/driver/lib/syncClient.ts:40-48 | holding a photo action and flushing it makes the same requests as sending it live under the same replies if and only if the photo was meant as `pod_photo` |
| `FlushQueue.NoPlaceholderIsSent` | apps/driver/lib/syncClient.ts:87-100 | whichever way a photo action travels, the body sent has the id everywhere, no placeholder, and the original shape |
| `Draining.FlushLeaves` | apps/driver/lib/actionQueue.ts:128-172 | whatever the network does: a signed-in flush leaves in the driver's database the queue from the first action it does not get past, its head charged unless a 401 ended the flush, which also ends the session; no other database but the signed-out one changes |
| `Draining.HeadIsChargedIff` | apps/driver/lib/actionQueue.ts:159-165 | what is left has its head charged if and only if no try was answered 401 |
| `Draining.RowLeavesIff` | apps/driver/lib/actionQueue.ts:137-169 | a row leaves if and only if it and all before it are answered neither 401 nor a connectivity failure with budget left |
| `Draining.RowIsLostIff` | apps/driver/lib/actionQueue.ts:148-164 | read off the replies: a row leaves without its upload, if any, and its send having been answered if and only if the flush gets to it and its own try ends in an error that is no connectivity failure, or in one other than a 401 with its budget spent |
| `Draining.FlushChangesNothingIff` | apps/driver/lib/actionQueue.ts:137-169 | a flush leaves the driver's database as it was if and only if the first try is answered 401 |
| `Draining.FlushSpendsBudget` | apps/driver/lib/actionQueue.ts:137-171 | no flush raises the sum of remaining attempts, and one not ended by a 401 empties the queue or lowers it |
| `Draining.DeviceDrains` | apps/driver/lib/actionQueue.ts:128-172 | over a series of flushes on the device, signing in again before each, the driver's database is what these laws say |
| `Draining.FreshDatabaseDrains` | apps/driver/lib/actionQueue.ts:102-171 | a database of n fresh actions is empty once 7n + 1 flushes met no 401, whatever the network does otherwise and however many in between met one |
| `Draining.ExpiredDatabaseNeverDrains` | apps/driver/lib/authClient.ts:148-156 | without that condition it is false: any number of flushes answered 401 leave every row as it was |
| `Draining.FreshQueueBoundIsTight` | apps/driver/lib/actionQueue.ts:102-171 | on a dead link 7n flushes leave a fresh queue of n actions non-empty |
| `FlushTally.FlushCounts` | apps/driver/lib/actionQueue.ts:136-172 | whatever the replies: `sent` is the number of rows the flush gets to whose upload, if any, and send were answered, `discarded` the number it gets to whose own try is fatal, `pending` the rest; after a 401 on a row's last attempt the rest, too, is counted as discarded, though it stays stored |
| `FlushTally.SignedOutFlushCounts` | apps/driver/lib/actionQueue.ts:144-158 | a flush that starts signed out sends nothing and counts every row as discarded |
| `FlushTally.FlushRequests` | apps/driver/lib/actionQueue.ts:137-147 | a signed-in flush makes the requests of the rows it tries, in their order, and none after a 401 or a connectivity failure with budget left |
| `FlushTally.FlushFinishesTheSend` | apps/driver/lib/syncClient.ts:77-125 | photo or not, and whether the upload or the send was lost: a flush of the queued action makes exactly the requests the live send had left to make, and counts it as sent, and empties the database, if and only if they are answered; for a plain action that is its one send |
| `FlushTally.QueuedIsTriedLast` | apps/driver/lib/syncClient.ts:113-122 | replay follows the sends: what a send queues is stamped with its time and comes last in the replay order of its database, behind everything queued before |
| `FlushTally.QueuedActionSurvivesSeven` | apps/driver/lib/actionQueue.ts:159-165 | what a send queues survives seven flushes on a dead link with nothing but its attempts changed, and not the eighth |
| `QueueSafety.StepKeepsInv` | apps/driver/lib/actionQueue.ts:128-172 | every step of every send, upload, flush, token change and server decision keeps the safety invariant |
| `QueueOrder.StepKeepsOrder` | apps/driver/lib/actionQueue.ts:116-169 | every step keeps each snapshot and the server's log in queue order for every database that is entered in the order of the stamps, whoever signs in or out |
| `QueueIsolation.StepKeepsIso` | apps/driver/lib/actionQueue.ts:239-246 | every step keeps rows, snapshots and requests with the driver they belong to, as long as nobody signs in while a send or flush runs |
| `QueueRuns.NoActionIsLost` | apps/driver/lib/actionQueue.ts:137-169 | in every run, each submission that was put in a database is still there, or was accepted, or was refused by the server and a flush heard so, or met an error that is neither, or failed eight times on connectivity, or a flush met it with nobody signed in, or another submission with its id took its row's place |
| `QueueRuns.OnlySettledActionsLeave` | apps/driver/lib/actionQueue.ts:148-165 | no single step takes a submission out of its database that is not settled in one of those ways |
| `QueueRuns.SignedInDropsNothing` | apps/driver/lib/authClient.ts:130-156 | if every flush starts signed in and the token is not cleared while one runs, by a sign-out or a 401, being signed out is never the reason; drivers may change in between |
| `QueueRuns.GivenUpIff` | apps/driver/lib/actionQueue.ts:148-164 | over whole runs: a submission is given up if and only if some flush heard a no to it, or an error that is no connectivity failure, or a connectivity failure with its budget spent, or tried it with no token |
| `QueueRuns.GoneMeansAcceptedOrGivenUp` | apps/driver/lib/actionQueue.ts:137-169 | read off the steps of a run: a submission that was put in a database, is gone from it and was not pushed out by another with its id, was accepted by the server at some step, or given up at one for what a flush heard there |
| `QueueRuns.AttemptsAreRealFailures` | apps/driver/lib/actionQueue.ts:159-165 | stored attempts never exceed the submission's real connectivity failures and stay below eight |
| `QueueRuns.FreshIdsDisplaceNothing` | apps/driver/lib/actionQueue.ts:17-18 | a row is pushed out by another submission only if two different ones were stored under its id |
| `QueueRuns.ReplayFollowsQueue` | apps/driver/lib/actionQueue.ts:113-169 | for each database entered in the order of the stamps: what a flush of it delivers is first applied after every submission queued there before it, except those given up or displaced by then; drivers may sign in and out, flushes overlap, meet 401s and put removed rows back; foreign rows in a database, which need a sign-in in mid-operation, are excepted |
| `QueueRuns.DriversAreIsolated` | apps/driver/lib/actionQueue.ts:209-246 | if nobody signs in while a send or flush runs, every request that bears a driver's token carries what that driver submitted |
| `QueueHistory.HistoryIsOfTheRun` | apps/driver/lib/actionQueue.ts:128-172 | the record these results speak of is true, step by step over every run: what live sends put, in which order, what was displaced, who submitted what, what the server applied first and for which database's flush, and whose each operation is |
| `QueueHistory.RequestsAreRecorded` | apps/driver/lib/authClient.ts:130-147 | the recorded requests are those of the run, in order: one for each upload and each send, with the action at hand and the token of that moment |
| `QueueHistory.FailuresAreCounted` | apps/driver/lib/actionQueue.ts:159-165 | an action's recorded failures are the number of times a flush's try of it was lost or met a 401 |
| `QueueHistory.ConditionsAreOfTheRun` | apps/driver/lib/authClient.ts:130-156 | the two conditions on runs, read off their steps: nobody signs in while a send or flush runs; no flush starts signed out and the token is not cleared while one runs |
| `QueueWitnesses.SignInMidFlushMixesDrivers` | apps/driver/lib/actionQueue.ts:239-246 | a run without that condition: driver a's action is sent under driver b's token |
| `QueueWitnesses.SignInMidFlushBreaksOrder` | apps/driver/lib/actionQueue.ts:165 | a run with a sign-in in mid-operation in which a foreign row is delivered in front of an older one of the database |
| `QueueWitnesses.ExpiredSessionLosesTheAction` | apps/driver/lib/authClient.ts:148-156 | a run in which a 401 stores an action in the signed-out database and a signed-out flush removes it unsent |
| `QueueWitnesses.GatewayErrorLosesTheAction` | apps/driver/lib/authClient.ts:157-160 | a run in which a gateway's error removes an action the server has never decided on |
| `QueueWitnesses.StaleFlushRemovesResubmission` | apps/driver/lib/actionQueue.ts:148-155 | a run in which a flush that hears a no removes a newer submission with the same id, which nobody ever decided on |
| `QueueWitnesses.StaleFlushPutsBack` | apps/driver/lib/actionQueue.ts:165 | a run in which a stale flush puts back an action another flush has already delivered and removed |
| `QueueWitnesses.LiveSendOvertakes` | apps/driver/lib/syncClient.ts:102-108 | a run in which a live send is applied before an older queued action |
| `QueueWitnesses.LateLandingBreaksOrder` | apps/driver/lib/syncClient.ts:114-122 | a run in which an action whose `put` lands late is applied behind a younger one |
| `QueueRefinement.LoneFlushIsFlushQueue` | apps/driver/lib/actionQueue.ts:128-172 | from every reachable state of the interleaved system: all runs of one flush alone, under any answers, leave token and databases as the class's `flushQueue` does under the same answers |
| `QueueRefinement.LoneFlushLeaves` | apps/driver/lib/actionQueue.ts:137-169 | such a run leaves the charged rest of the queue in the driver's database if and only if no try is answered 401, and otherwise the rest uncharged and the driver signed out |
| `QueueRefinement.LoneFlushFinishes` | apps/driver/lib/actionQueue.ts:137-172 | for any answers there is such a run: a flush left alone comes to an end |
| `SendRefinement.LoneSendIsSendOrQueue` | apps/driver/lib/syncClient.ts:77-125 | all runs of one send alone in the interleaved system, photo or not, from any state and under any answers, leave token and databases as the class's `sendOrQueue` does under the same answers |
| `SendRefinement.LoneSendFinishes` | apps/driver/lib/syncClient.ts:77-125 | for any answers there is such a run: a send left alone comes to an end |
| `TaskServer.Delivery.TransitionTask` | db/migrations/0049_delivery_pod_functions.sql:25-79 | `transition_task` in every case: unknown task, another driver's, a known id, a wrong edge, and the move with its event, notice and code |
| `TaskServer.Delivery.CapturePod` | db/migrations/0074_capture_pod_ambiguous_column_fix.sql:26-101 | `capture_pod` in every case: replays, the checks in their order, unique violations, and a proof, event, notice and cash together or nothing |
| `TaskServer.Delivery.FailTask` | db/migrations/0049_delivery_pod_functions.sql:169-205 | `fail_task` in every case, with the retry count after the event |
| `TaskServer.RunKeeps` | db/migrations/0039_delivery_schema.sql:85-95 | after any requests of any drivers and the office: no client action id has two events on a task, and a task was delivered exactly once if it has a proof of delivery and never otherwise |
| `TaskServer.RetryChangesNothing` | db/migrations/0049_delivery_pod_functions.sql:40-44 | an action that was answered is settled: whatever happens afterwards, sending it again changes nothing; it is answered if the task is still the driver's, and refused as not assigned otherwise |
| `TaskServer.SecondPodChangesNothing` | db/migrations/0074_capture_pod_ambiguous_column_fix.sql:40-44 | a task with a proof of delivery gets no second proof, cash entry or notice, under any id, whatever the office did in between |
| `TaskServer.SwallowedIff` | db/migrations/0049_delivery_pod_functions.sql:40-44 | after any requests, a transition or failure is answered well and changes nothing if and only if the task is the driver's and an earlier request with its id took effect there, whatever that one was |
| `TaskServer.StrandedTask` | db/migrations/0049_delivery_pod_functions.sql:40-56 | a task back at its start stays there for ever if its pickups are reported under ids used on it before |
| `TaskServer.ReassignedTaskIsStuck` | db/migrations/0068_admin_finance_fleet_functions.sql:75-88 | how it gets there, from any tables and for any id: the first driver reports the pickup, the task is reassigned, the next driver accepts it, and the report of the pickup under the same id is answered well and moves nothing |
| `DeliveryRuns.ProofIff` | db/migrations/0074_capture_pod_ambiguous_column_fix.sql:34-63 | over every run of requests from tables without proofs: a task gets a proof if and only if a request of its driver asks for it at the door, with a photo, an unused id and nothing else raising, and hands over to the supplier at a pickup point or else bears the code drawn last for the task, by the arrival or a later new code; the proof says what that request said |
| `DeliveryRuns.WrongCodeIff` | db/migrations/0074_capture_pod_ambiguous_column_fix.sql:45-53 | after any run a proof is refused for its code exactly when all that is looked at before is in order and the code is missing or is not the one drawn last |
| `DeliveryRuns.ThreeNewCodes` | db/migrations/0050_delivery_audit_otp_functions.sql:13-24 | a driver at the door gets a new code if and only if the run has granted the task fewer than three |
| `DeliveryRuns.DeliveredAllTheWay` | db/migrations/0049_delivery_pod_functions.sql:45-61 | whatever was sent, declined, failed or reassigned before: the last six moves of a task that was delivered are acceptance, pickup point, pickup, road, door and delivery, in this order |
| `DeliveryRuns.OutboxTellsTheLog` | db/migrations/0049_delivery_pod_functions.sql:64-79 | after any run the outbox holds exactly one notice for each event but the declines, the right one and in order, and a task's failures are numbered from one |
| `DeliveryRuns.CashOnlyWithProof` | db/migrations/0074_capture_pod_ambiguous_column_fix.sql:92-101 | cash is recorded once for each request that gives a proof, names an amount and is for a task to be paid on delivery, and never otherwise |
| `DriverKey.RewriteGivesSection4` | apps/driver/lib/actionQueue.ts:231 | for every byte string the rewrite of its unpadded section 5 text of RFC 4648 is its padded section 4 text |
| `DriverKey.PayloadRoundTrip` | apps/driver/lib/actionQueue.ts:231-232 | decoding the rewritten payload gives back the bytes |
| `DriverKey.PayloadDecodesIff` | apps/driver/lib/actionQueue.ts:231-232 | a payload decodes if and only if it is in either alphabet and its length is not one more than a multiple of four |
| `DriverKey.KeyIsTheClaim` | apps/driver/lib/actionQueue.ts:227-237 | the key is the token's driver_id if that is a non-empty string, and the fallback otherwise |
| `DriverKey.DatabasesAreApart` | apps/driver/lib/actionQueue.ts:213-246 | two drivers' tokens open the same database if and only if they name the same driver |
| `DriverKey.SharesAnonymousIff` | apps/driver/lib/actionQueue.ts:230-246 | a driver shares the signed-out database if and only if their id is the fallback's own name |
| `StoreSession.StepKeepsInv` | apps/store/lib/authClient.ts:58-208 | every step of every call, refresh, login, logout and server answer keeps the session invariant |
| `StoreSession.SessionEndsIff` | apps/store/lib/authClient.ts:145-199 | in every run, with what each refresh really got back on record: a step ends the stored session if and only if it is a sign-out, wakes a call whose refresh had no stored token or got back anything but a readable rotation, or is a second 401; a refresh whose answer never arrived leaves the session alone |
| `StoreSession.SessionBecomes` | apps/store/lib/authClient.ts:145-154 | a session that is stored after a step is a login's, a rotation's that arrived with this step, or the one stored before |
| `StoreSession.WakingCallRetriesIff` | apps/store/lib/authClient.ts:186-196 | a waking call tries again, with the rotation's token, if and only if its refresh got one |
| `StoreSession.RotatedTokenComesBackOnlyAfterLoss` | apps/store/lib/authClient.ts:142-162 | the server is shown a rotated token if and only if the answer with that token's successor was lost |
| `StoreSession.NoReplayWithoutLoss` | apps/store/lib/authClient.ts:131-162 | as long as no answer with a rotated token was lost, no rotated token is ever shown and no family is revoked for theft, for any number of concurrent calls |
| `StoreSession.KeysAreAlwaysPaired` | apps/store/lib/authClient.ts:55-66 | the two stored keys are both absent or of the same login or rotation |
| `StoreSession.RefreshIsShared` | apps/store/lib/authClient.ts:157-199 | there is never a second refresh under way, and calls that shared one retry with the same token |
| `StoreSession.QuietLogoutLasts` | apps/store/lib/authClient.ts:76-90 | a sign-out with no refresh under way lasts until the next login |
| `StoreSession.LogoutDuringRefreshIsUndone` | apps/store/lib/authClient.ts:145-154 | a run in which a sign-out during a refresh is undone by it |
| `StoreSession.LostAnswerEndsInTheft` | services/api/src/routes/auth.ts:234-239 | a run in which one lost answer ends with the family revoked for theft |
| `StoreSession.LateWakeupEndsNewLogin` | apps/store/lib/authClient.ts:190-194 | a run in which a call waking up to a failed refresh clears a newer login |
| `StoreSession.ReplayRevokesFamily` | services/api/src/routes/auth.ts:234-239 | in every run a rotated token that comes back has its family revoked for theft |
| `StoreSession.RevokedFamilyIsDead` | services/api/src/routes/auth.ts:226-294 | a revoked family is never issued another token, in any continuation |
| `OutboxTable.Connection.Commit` | workers/src/db.ts:24-38 | a commit publishes marks and effects together; in an aborted transaction it publishes nothing and does not throw |
| `BatchDrains.ProcessRow` | workers/src/dispatchWorker.ts:33-47 | one row's try/catch: when it throws, when it aborts the transaction, and what it has written and marked if neither |
| `BatchDrains.DrainDispatchOutbox` | workers/src/dispatchWorker.ts:23-52 | the table and effects afterwards are the whole batch's or unchanged; the count is the batch's size either way |
| `BatchDrains.DrainLoyaltyOutbox` | workers/src/loyaltyWorker.ts:29-120 | the same for the four queries; it fails if and only if one of the first three batches holds a refused row |
| `OutboxHistory.DispatchedExactlyOnce` | workers/src/dispatchWorker.ts:23-52 | over every history of arriving events and drains of both workers: an event is marked if and only if exactly one drain committed it, its committed writes are then those of that drain's handler, each once, and otherwise nothing of any attempt is in the database |
| `OutboxHistory.CommittedEffects` | workers/src/dispatchWorker.ts:33-39 | which writes an event gets, spelled out by its name, its drainer and what that drain looked up: one dispatch, one recall, the three loyalty writes in order, the points of a paid retail order or none, the partial reversal, the reward of a known invoice or none; and nothing before it is marked |
| `OutboxHistory.NeverRecallAndReversal` | workers/src/dispatchWorker.ts:27-39 | no history leaves both the task recall and the points reversal of one event in the database |
| `OutboxHistory.CommitsIff` | workers/src/loyaltyWorker.ts:33-120 | a drain commits exactly the events its queries select whose payload is good, if the database refuses no statement for any row it selects |
| `OutboxHistory.CountsItsMarks` | workers/src/loyaltyWorker.ts:29-120 | the loyalty drain's count, when it commits, is the number of events it marks |
| `OutboxHistory.SelectKeepsOrder` | workers/src/dispatchWorker.ts:25-30 | a query's rows come in the table's order |
| `OutboxHistory.EffectsFollowBatch` | workers/src/dispatchWorker.ts:32-48 | a batch's writes are those of its rows, one row after the other |
| `OutboxHistory.PoisonedRowBlocksEverything` | workers/src/dispatchWorker.ts:32-48 | a row whose handler is always refused makes the drains that select it as if they had never been, whatever arrives meanwhile |
| `OutboxLocks.StepKeepsInv` | services/realtime/src/dispatcher.ts:47-67 | every step of any interleaving of dispatcher and workers, crashes included, keeps the locking invariant |
| `OutboxLocks.OneHandlerPerEvent` | services/realtime/src/dispatcher.ts:47-67 | at most one transaction ever commits effects for an event, and that one marked it |
| `OutboxLocks.TakenEventIsGone` | workers/src/dispatchWorker.ts:27-39 | once one drainer has marked an event, no other drainer's effect for it is committed in any continuation |
| `OutboxExact.EventsAreHandledExactly` | services/realtime/src/dispatcher.ts:47-67 | in every interleaving of dispatcher and workers, crashes included: the database holds nothing for an event that is not marked, and for a marked one exactly what is owed to an event of its name by the drainer that marked it, each write once and in order |
| `OutboxExact.RecallAndReversalExclude` | workers/src/dispatchWorker.ts:27-39 | no interleaving leaves both `delivery.recall_task` and `loyalty.reverse_points` for one event in the database |
| `Dispatcher.ConsumeCallsUpToTheFault` | services/realtime/src/consumers/framework.ts:30-44 | the handlers called are exactly those up to the fault, and without one every consumer is recorded |
| `Dispatcher.ConsumeSkipsTheProcessed` | services/realtime/src/consumers/framework.ts:30-44 | whatever is on record: no consumer on record for the event is called, each other one at most once, and without a fault all are on record afterwards |
| `Dispatcher.Dispatcher.DispatchOne` | services/realtime/src/dispatcher.ts:47-67 | the oldest undispatched row with its consumers and mark in one transaction, or nothing but the handler calls |
| `Dispatcher.Dispatcher.DrainOutbox` | services/realtime/src/dispatcher.ts:69-84 | up to 200 such turns, stopping at the first failure, each broadcast after its commit; the count is the number of broadcasts |
| `Dispatcher.DrainTakesNextRows` | services/realtime/src/dispatcher.ts:15-16 | a drain dispatches the next rows up to the first one at fault, at most its bound, and stops short only at a fault or the end |
| `Dispatcher.DispatchedIsAlwaysAPrefix` | services/realtime/src/dispatcher.ts:47-84 | after any history of arrivals and drains the dispatched rows are a prefix, the broadcasts are exactly that prefix in order, and the consumers' records are exactly its rows' |
| `Dispatcher.NothingPassesAStuckRow` | services/realtime/src/dispatcher.ts:72-78 | nothing from a permanently failing row on is ever dispatched or broadcast |
| `Dispatcher.NothingProcessedBefore` | services/realtime/src/consumers/framework.ts:32-36 | the consumers' check for an event handled before never finds the row at hand |
| `Dispatcher.RetriesCallHandlersAgain` | services/realtime/src/dispatcher.ts:41-46 | while a row fails, each handler is called exactly once for every drain that gets to it, not once in all |
| `Dispatcher.BacklogClears` | services/realtime/src/dispatcher.ts:15-16 | a backlog without failing rows is cleared exactly 200 rows a drain |
| `HealthWatcher.Watcher.PollOnce` | workers/src/healthWatcher.ts:33-73 | the targets are checked in order; the poll ends early exactly at the check whose transaction fails, its counter updated |
| `HealthWatcher.TableTellsTheHistory` | workers/src/healthWatcher.ts:30-73 | for every service at every time: the counter is its failing suffix, one incident is open if that is at least two and none otherwise, and it has had as many incidents as maximal failing runs of two or more |
| `HealthWatcher.OutageIsRecordedOnceOrNever` | workers/src/healthWatcher.ts:52-71 | an outage, however long, is on record if and only if the transaction at its second failure went through |
| `HealthWatcher.NeverTwoOpen` | workers/src/healthWatcher.ts:56-71 | a service never has two open incidents, whatever the checks, the failing transactions and the counters a restart left |
| `HealthWatcher.RestartForgetsOpenIncidents` | workers/src/healthWatcher.ts:31-48 | after a restart an incident left open stays open through any number of passing checks |
| `Calendar.MonthOfIs` | workers/src/statementWorker.ts:12-14 | a day falls into month n if and only if it lies between the first of that month and the next (section 21.4.1 of ECMA-262) |
| `Calendar.MakeDayRoundTrip` | workers/src/statementWorker.ts:13-14 | making a day from the date read off it gives the day |
| `Calendar.ReadingRoundTrip` | workers/src/statementWorker.ts:13-14 | reading the date off a made day gives that date, if the month has it |
| `Calendar.MonthLengths` | workers/src/statementWorker.ts:12-14 | day 0 is 1 January 1970 and every month of every year is as long as the Gregorian calendar has it |
| `Periods.MonthlyPeriodIsPreviousMonth` | workers/src/statementWorker.ts:11-14 | the period closed on a first day is exactly the month before if and only if neither that day nor the day before is in one of the years 0 to 99, which `Date.UTC` takes for 1900 to 1999 |
| `Periods.EachDayInOnePeriod` | workers/src/statementWorker.ts:11-14 | every day lies in exactly the period closed on the first of the following month: no gaps, no overlaps |
| `Periods.QuarterPeriodIs` | workers/src/loyaltyWorker.ts:140-145 | the closed quarter is the three months before if and only if the year is not 0 to 99 |
| `Periods.QuarterIsThreeMonths` | workers/src/loyaltyWorker.ts:140-145 | a closed quarter is its three monthly periods, one after the other |
| `Periods.QuarterLabelsAreInjective` | workers/src/loyaltyWorker.ts:144 | no two quarters get the same label |
| `Periods.QuarterLabelNamesItsDays` | workers/src/loyaltyWorker.ts:144 | the label is the year, in decimal digits, and the quarter of every day of the period that is closed |
| `Periods.ClosedIffTickedOnTheFirst` | workers/src/statementWorker.ts:4-14 | the months a run of ticks closes are exactly those whose following first day had a tick |
| `Periods.TimerNeverMissesIff` | workers/src/statementWorker.ts:9 | a timer misses no month, however it starts or jitters, if and only if its ticks are at most 24 hours apart |
| `Periods.GenerateMonthlyStatements` | workers/src/statementWorker.ts:11-31 | on a first day it commits a statement for every supplier, or none if one is refused, and returns the number of suppliers either way |
| `Periods.RunVolumeClose` | workers/src/loyaltyWorker.ts:140-168 | on a quarter's first day it commits for every supplier a reward computed from the purchases of the quarter's days, or none if one is refused, and returns the number before the first refusal |
| `Periods.QuarterPurchasesAreMonthly` | workers/src/loyaltyWorker.ts:148-156 | a quarter's reward counts each order of its three closed months once, and no other |
| `Periods.OrderCountsIff` | workers/src/loyaltyWorker.ts:148-153 | wherever it stands in the table, an order adds its total if and only if it is a wholesale order of the supplier, not cancelled and placed on a day of the period |
| `StockSweep.Store.SweepExpiredBankTransfers` | workers/src/bankTransferSweeper.ts:14-50 | every expired order is cancelled, its lines released and one event written; a refused statement anywhere undoes the sweep |
| `StockSweep.SweepCancelsIff` | workers/src/bankTransferSweeper.ts:18-34 | after a sweep an order is cancelled if and only if it was before, or waits for a bank transfer with no settled payment and was placed longer ago than the configured hours, or than 172 800 000 ms if none are configured |
| `StockSweep.ReleasedAmount` | db/migrations/0028_orders_functions.sql:18-23 | releasing an order's lines one by one takes exactly their sum, down to zero |
| `StockRuns.StepKeepsAccountsIff` | workers/src/bankTransferSweeper.ts:21-46 | every step of orders, cancellations, and sweeps and verifications between their reads and writes: reserved stays what orders not cancelled, and cancelled ones never released, ask for, if and only if the step takes nothing a second time that `greatest` does not cut off |
| `StockRuns.SweepsConserveStock` | db/migrations/0037_order_status_history.sql:29-57 | through every history in which no sweep or verification writes an order that a sweep has taken since it was read: reserved is what the orders not cancelled ask for plus what those ask for that a customer, a supplier or an admin cancelled; so the stock is right if and only if these asked for nothing |
| `StockRuns.OneEventPerCancellation` | workers/src/bankTransferSweeper.ts:39-44 | if none writes an order cancelled since it was read, each cancelled order has exactly one event and no other has one |
| `StockRuns.CancelledOrderKeepsItsStock` | db/migrations/0066_admin_intervention_functions.sql:29-53 | a run in which a cancelled order goes on holding its stock |
| `StockRuns.VerifiedOrderLosesItsStock` | db/migrations/0037_order_status_history.sql:125-149 | a run in which a payment verified during a sweep leaves a confirmed order whose stock is released |
| `StockSweep.OverlappingSweepsReleaseTwice` | workers/src/bankTransferSweeper.ts:21-46 | two sweeps that read the same orders keep the stock right if and only if they take all or nothing of what is reserved of each pack size; each order then has two events |
| `TileCache.StepKeepsInv` | apps/driver/public/sw.js:59-78 | every step of any number of cache-first requests and trims keeps the bounds |
| `TileCache.CacheStaysNearItsLimit` | apps/driver/public/sw.js:57-78 | the cache exceeds 300 tiles by no more than the number of landed puts and unfinished trims, so with none in progress it holds at most 300 |
| `TileCache.LoneTrimKeepsTheNewest` | apps/driver/public/sw.js:59-64 | a trim that runs alone, deleting in any order, leaves exactly the newest 300 entries in order |
| `TileCache.AnswersComeFromTheNetwork` | apps/driver/public/sw.js:66-78 | whatever a page is given for a request, the network answered to that very request at some step of the run before; only good or opaque answers are kept |
| `TileCache.EveryRequestIsAnsweredOnce` | apps/driver/public/sw.js:66-78 | at every moment of every run: each request of the page was answered once, failed, or still waits |
| `TileCache.LoneRequest` | apps/driver/public/sw.js:59-78 | every run of one request alone: answered from the cache, which stays as it is, if the tile is there; otherwise from the network, the tile kept as the newest of the newest 300 if and only if the response is good or opaque |
| `EmailMask.MatcherIsComplete` | packages/observability/src/piiMask.ts:7 | the backtracking matcher matches at a place if and only if the pattern's language has a word there |
| `EmailMask.MaskLeavesAddressIff` | packages/observability/src/piiMask.ts:12-19 | the masked text still holds an address if and only if two addresses are chained in the original |
| `EmailMask.MaskEmailIdempotentIff` | packages/observability/src/piiMask.ts:12-19 | masking twice is masking once if and only if none are |
| `EmailMask.TwoAtsInOneWord` | packages/observability/src/piiMask.ts:12-19 | a text that keeps an address: `a@b.co@c.co` |
| `PhoneMask.MaskLeavesNumberIff` | packages/observability/src/piiMask.ts:21-23 | the masked text still holds a number if and only if a match is fused to a longer run of digits before it |
| `PhoneMask.MaskPhoneIdempotentIff` | packages/observability/src/piiMask.ts:21-23 | masking numbers twice is masking once if and only if none is |
| `PhoneMask.NumberInsideDigits` | packages/observability/src/piiMask.ts:21-23 | a text that keeps a number: `0512340501234567` |
| `PiiMask.WhatMaskPiiLeaves` | packages/observability/src/piiMask.ts:25-27 | what both masks leave, read off the text: a number if and only if a piece that the mask of addresses keeps holds a fused one, an address if and only if two are chained and neither mask breaks the second one's domain |
| `PiiMask.MaskPiiLeavesNothing` | packages/observability/src/piiMask.ts:25-27 | if no word has two `@` and every number starts its word or with a `+`, the masked text matches neither pattern and masking it again changes nothing |

## Left out

- React pages, shared packages of components, finite tables (contracts, statuses, error codes), `invoiceWorker`,
  `auditDueWorker`, `pingPurgeWorker` and the reward drain of `statementWorker`: easy, or of the same shape as a drain
  above.
- The internals of `fetch`, IndexedDB, `localStorage`, the Cache API, pg and `JSON.parse`: ports with any outcome.
  Store operations are assumed not to throw.
- `localeCompare` collates by locale; ids are compared by code unit. Both are total orders on the app's ids, which are
  letters, digits, hyphens and underscores (a task's id with `-pod`, `-handover`, `-fail` or a status, or a ping's own
  id).
- `queuedAt` is an integer; a clock that yields NaN is not modelled. JSON objects are ordered lists of fields, without
  the reordering of integer-like keys or the special `__proto__` key.
- `sendOrQueue` without IndexedDB (`canQueue()` false) is modelled in the class, not in the step system, so
  `SendRefinement` is about a device with a store; the listeners
  of `syncClient.ts` and the flush that a successful send starts are steps of the environment.
- In the step system a request carries what was submitted and the bearer token; the body a flush sends after its
  upload is the subject of `MediaSubstitution` and `FlushQueue`. The two network hops of an upload are one await.
- The server's decisions are free in the step system, also a no to an id it has accepted before; what the api decides is
  `TaskServer`. Of the queued endpoints it has transition, proof of delivery and failure, not the location pings; the
  order's mirror, stock movements and payments inside `capture_pod` succeed or raise together. Accepting, declining,
  new codes, reassigning and recalling are functions on the tables there, one update each.
- `Draining.FreshDatabaseDrains`: has no new actions between the flushes; `Draining.FlushSpendsBudget` is the law for
  each flush of any queue.
- `StoreSession`, `QueueProtocol`, `OutboxLocks`, `StockRuns` and `TileCache` are step systems instead of classes,
  because what matters there is what happens between two awaits of the same call. A second browser tab is not modelled,
  and of the api's refresh endpoint only its answers, its rotation and its revocation of families.
- `QueueRuns.ReplayFollowsQueue`: needs the condition on foreign rows, because it is false without it
  (`QueueWitnesses.SignInMidFlushBreaksOrder`), and the order of the stamps (`QueueWitnesses.LateLandingBreaksOrder`).
- `QueueRuns.DriversAreIsolated`: excludes a driver whose id is empty or `anonymous`, because that one shares the
  signed-out database (`DriverKey.SharesAnonymousIff`).
- A commit whose acknowledgement is lost between server and database. In `OutboxLocks` a crash happens before the
  commit.
- `Dispatcher.DispatchedIsAlwaysAPrefix`: does not admit other drainers, overlapping drains or rows that become visible
  out of `occurred_at` order, because the order does not hold then; `OutboxLocks` has them all.
- SQL functions called by the handlers (points, credit, dispatch) are effects that succeed or are refused. What a
  consumer's handler does in a transaction of its own (`welcomeNotification.ts:26-40`) is a call, not an effect, and
  no part of `OutboxLocks` and `OutboxExact`.
- `HealthWatcher.TableTellsTheHistory`: assumes a clean start and no failing transaction, because it is false
  otherwise; the two members below it in the table say what happens then. The incident's text, severity and PDPL
  deadline, polls that overlap because checks take longer than the interval, and other writers of the table are left
  out.
- `toISOString().slice(0, 10)` and with it years beyond 9999, and dates outside the range of a time value.
- Fractional settings of the payment window; stock movements other than reserving and releasing (delivering an order
  does not touch what is reserved); the payments' rows, of which an order keeps whether one is settled;
  `reserve_stock`'s check against the quantity on hand, which only decides whether an order is placed.
- A service worker that is stopped in the middle of a trim, failing deletions, `Vary` headers, and the page and static
  caches, which have no limit.
