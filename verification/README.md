# ShareTrip: the transactional outbox, modelled and proved

ShareTrip stores trips in PostgreSQL and announces published trips on a Kafka topic. A publish command changes
the trip, its history and a row of `outbox_events` in one transaction; publisher processes (two replicas,
`k8s/sharetrip-deployment.yaml:7`) pick pending rows with `FOR UPDATE SKIP LOCKED`, send them to Kafka inside a
transaction, mark them, and commit. A rollback undoes neither the Kafka messages nor the counters in memory. This project
models that protocol and proves what it promises: no event is lost, duplicates are accounted for exactly,
interleaved commands are strictly serializable, no call is ever stuck, an HTTP status tells what happened, and every
published trip is announced within a known number of batches.

The model has two layers.

- **A state machine** over single statements, network calls, commits, rollbacks and crashes of any number of command
  calls and publisher processes (`Protocol.dfy`). Its invariants (`CommandProof.dfy`, `PublisherProof.dfy`, `System.dfy`)
  hold in every reachable state. The committed data refine a serial machine that knows neither
  transactions nor locks (`Serial.dfy`). The guarantees over whole runs are in `Theorems.dfy`, `RealTime.dfy` (the serial
  order respects real time), `Statuses.dfy` (what an HTTP status tells), `Permissions.dfy` (nothing takes effect unchecked),
  `Checks.dfy` (what a call has had to pass, in terms of its command and its row), `Columns.dfy` (where times and failures
  in the tables come from), `Waiting.dfy` (who waits for whom), `Completion.dfy` (every call can be brought to its end),
  `BatchOrder.dfy` (oldest first) and `Accounts.dfy` (counters against tables). How fast undisturbed batches drain the
  outbox is in `Draining.dfy`, and `Delivery.dfy` carries it over to any interleaving of a publisher with commands.
- **The program**, as classes with the source's methods: tables, row locks and transactions with private writes
  (`Database.dfy`), the publisher (`Publisher.dfy`) and the trip commands (`TripService.dfy`). Each of these methods carries
  a ghost run of the state machine, and its contract says that tables, locks, topic and counters after the call are
  those at the end of that run (`PublisherSteps.dfy`, `CallSteps.dfy`, `CallRuns.dfy`). On top of that the contracts state
  the effect directly: which rows a batch changes, and which serial execution a command amounts to.

`Domain.dfy` and `Errors.dfy` hold the data, the error values and the mappings from an error to a status or a metric label;
`Selection.dfy` says what the batch query may return. `Witnesses.dfy` and `Backlog.dfy` hold concrete runs in which the
weaknesses below show.

## Assumptions

- READ COMMITTED: no isolation level is set (`internal/service/transaction.go:27`, `internal/events/outbox_publisher.go:65`).
  `FOR UPDATE` waits and then sees the newest committed row. `SKIP LOCKED` skips below `LIMIT`; a row that has left
  `pending` since the snapshot of the statement is skipped, any other is returned in its newest version.
- Event ids are UUID version 5 (section 4.3 of RFC 4122), a hash that is taken to be collision free: a free constructor.
- A Kafka call that returns nil has appended at least one copy, a call that returns an error any number of copies.
  Calls are counted, not copies.
- A commit that returns an error may or may not have taken effect; a crash during a commit likewise.
- JSON decoding is a fixed partial function that inverts encoding. Text columns and headers of a known value are constructors of
  an enumeration; of error messages only the layer that adds the context is kept, since `errors.Is` looks at nothing else.
- At the start there are no trips. The outbox may hold older rows of random ids, none of them sent, whose
  payload does not claim the event id of a trip (`migrations/00005_extend_outbox_events.sql:16-20`).
- A session keeps its locks until its client ends the transaction or dies. That the server drops a session whose client
  still sends to Kafka, so that another replica picks the same rows, is not modelled: `Theorems.BatchesDisjoint` and
  `Theorems.DuplicateAccounting` rely on this.
- Permission checks, clocks, new trip ids, Kafka's answers and failing statements are inputs.
- All interleavings are covered by the state machine. A command method of the second layer may be called in any reachable
  state. If its first statement has to wait for a row, what the others do meanwhile is an input, any run of theirs at the
  end of which the row is free or the statement fails; its later statements are proved never to wait. Other than that,
  a method of the second layer runs without steps of other actors in between.

## Where the code is weaker than one might expect

- A lone publisher never reaches a good row behind a hundred older pending rows that do not decode: they fill every batch.
  The exact condition is `Draining.SentExactlyIfFewOlder`, in any interleaving with commands `Delivery.RowGetsOutExactlyIf`;
  `Backlog.WorkInVain` runs the publisher on such an outbox.
- `docs/consistency.md:68-70` promises 204 for a repeated publish. The code answers 204 while the trip is published, and
  409 once it has been started (`CallRuns.RetriedPublish`). Neither changes anything. `Witnesses.RetryGetsConflict` is
  a run in which the client was told 500 for the publish that took effect, and 409 for its retry.
- Status 500 leaves open whether the command took effect, but only if the error is that of the commit
  (`Statuses.AppliedErrorIsCommitError`): `Witnesses.CommitErrorTellsNothing` has both outcomes for every command that
  would succeed.
- The metric label of a publish folds both failures of the contract service into `internal_error`, where the HTTP status
  tells them apart (`Errors.LabelAgreesWithStatus`).

## Model

| member | source | states |
|---|---|---|
| Serial.SerialTheorem | internal/domain/publish_trip.go:41-109 | every serial execution of create, publish and start commands keeps: an event row exists exactly for trips that left draft, carrying the columns of the one publish that succeeded; history is the status chain; details stay those of the create; each command succeeds at most once per trip |
| Serial.VerdictMeans | internal/domain/publish_trip.go:46-70 | the verdict on a publish or start command in columns of the row, each direction: not found, not the driver whatever the status, and for the driver already published, wrong status or success by the status alone |
| Serial.HistoryStep | internal/repository/update_trip.go:72-77 | one more command extends every trip's history path exactly as its status moves |
| CommandProof.CallStepKeeps | internal/repository/get_trip_for_update_by_id.go:42-56 | every command action keeps: whoever is past the locking read owns the row lock, its copy of the row is current, and its private writes are those the row calls for |
| CommandProof.CommitIsSerial | internal/repository/update_trip.go:44-89 | a commit changes the committed data exactly as the serial machine does when it runs the whole command at that moment, and the serial verdict is success |
| CommandProof.CallStepSerial | internal/service/start_trip.go:36-49 | every other command action leaves the committed data alone or records a failure verdict that the serial machine confirms |
| PublisherProof.CommitEffect | internal/repository/outbox_status.go:11-40 | when a batch commits, acknowledged rows become sent, the other picked rows gain one failed attempt, nothing else moves, and pending shrinks by exactly the acknowledged ids |
| PublisherProof.PubStepKeeps | internal/events/outbox_publisher.go:65-95 | every publisher action keeps: picked rows are locked, pending and unchanged since picked; marks follow Kafka's answers; sent rows are in the log; acknowledgements and counters balance |
| System.CommandsKeepPublishers | internal/repository/create_outbox_event.go:41-57 | whatever a command does, the publishers' invariant survives, because all it can do to the outbox is insert one fresh pending row |
| System.PublisherKeepsCommands | internal/repository/outbox_status.go:11-40 | no publisher action disturbs the commands' invariant or the data they see |
| System.Reachable | internal/service/transaction.go:27-63 | both invariants, agreement with the serial machine and the record of outcomes hold in every state that any interleaving reaches |
| Theorems.Serializability | internal/service/transaction.go:27-63 | committed trips, history and events are those of the serial machine running the recorded commands one at a time in commit order, and every recorded verdict is the one the serial machine gives |
| Theorems.RecordIsOfCalls | internal/service/transaction.go:45-60 | the record holds each call at most once, with its own command, and as a success if and only if the call took effect; a recorded failure leaves the call one way to go on, to the error of that verdict or no answer, and a success one of three answers |
| RealTime.RealTimeOrder | internal/service/transaction.go:27-63 | a call that is over before another is made stands before it in the serial order: the commands are strictly serializable |
| Theorems.NoEventLost | internal/domain/publish_trip.go:72-107 | in every reachable state a trip has left draft if and only if its event is in the outbox; that event is pending or sent, and no other new row belongs to the trip |
| Theorems.SentImpliesDelivered | internal/events/producer.go:27-43 | an event committed as sent is in the log: the value decodes to the stored payload, key is the trip id, event id is the row id, headers agree with the value |
| Theorems.LogIsAFunctionOfEventId | internal/events/outbox_publisher.go:71-91 | all copies ever sent under one trip event id are one message, the one stamped by the publish that committed; later commands and retries never restamp it |
| Theorems.DuplicateAccounting | internal/events/outbox_publisher.go:65-95 | acknowledged Kafka calls for a row = 1 if committed as sent + acknowledgements in transactions that were rolled back or crashed + 1 if an open transaction, of whichever publisher, holds one |
| Accounts.AcksInAll | internal/events/outbox_publisher.go:65-95 | over all rows: as many acknowledged calls as sent rows in the table, lost acknowledgements and open ones |
| Theorems.SentRowsFrozen | internal/repository/outbox_status.go:11-40 | once sent, a row keeps every column for the rest of any run, although neither UPDATE tests the status |
| Theorems.BatchesDisjoint | internal/repository/lock_pending.go:14-22 | no row is in two batches or twice in one, and a picked row stays pending and unchanged while it is held |
| BatchOrder.BatchesOldestFirst | internal/repository/lock_pending.go:17-20 | under every interleaving each batch has at most 100 rows, distinct, in order of creation time |
| BatchOrder.NothingPassedOver | internal/repository/lock_pending.go:17-21 | under every interleaving, when the query ends, each row of its snapshot that is older than a picked one, or any if the batch is not full, has been picked, or was locked or no longer pending when its turn came |
| Theorems.BatchAllOrNothing | internal/events/outbox_publisher.go:65-95 | an applied commit marks exactly the batch and reduces the pending count by the acknowledgements; any other action leaves the outbox as it was |
| Theorems.SendsSurviveRollback | internal/events/outbox_publisher.go:77-91 | a transaction that is rolled back, lost or crashed leaves the rows pending, but the message of every acknowledged row is in the log for good, and exactly these acknowledgements are booked as lost |
| Theorems.RowsConserved | migrations/00005_extend_outbox_events.sql:7-20 | pending + sent + the rows failed by the migration are all rows, for ever |
| Theorems.CounterConservation | internal/events/outbox_publisher.go:79-99 | per process: failed counter equals error counter; success counter = rows it committed as sent + lost acknowledgements + open ones; committed attempts never exceed errors |
| Accounts.TalliesShowInTable | internal/events/outbox_publisher.go:79-92 | those committed numbers are the table's: whatever a publisher does, the number of sent rows grows by its committed acknowledgements, and the sum of the attempts column by its committed failures |
| Theorems.InsertNeverConflicts | internal/repository/create_outbox_event.go:50 | when a publish reaches its event insert, neither a committed row nor an insert in flight has the key, so DO NOTHING hides nothing and the insert does not wait |
| Theorems.HistoryPath | internal/repository/update_trip.go:72-77 | the history of every trip is NULL, draft, published, started in this order, each row starting where the previous ended, cut at the trip's current status |
| Theorems.WriteBackLosesNothing | internal/repository/update_trip.go:51-59 | driver, points, departure time, seats and creation time are those of the create command and never change in any run, although every update rewrites them from an earlier read |
| Theorems.EffectAtMostOnce | internal/domain/publish_trip.go:55-70 | of all publish, start or create calls for one trip, at most one of each kind ever takes effect |
| Columns.RowsShowTheirTimes | internal/repository/update_trip.go:51-77 | in every reachable state the `updated_at` of a trip is the time of the last command in the serial order that wrote it, and the history has one row for each successful command, in that order, with its trip and its time |
| Columns.EntryTimeIsOfBegin | internal/service/transaction.go:27 | and that time is the one at which the command's own transaction began, earlier in the run |
| Columns.RowsAreConsistent | internal/repository/outbox_status.go:11-40 | in every reachable state an event written by a command is sent if and only if it has a `sent_at`, and has failed attempts if and only if it has a `last_error` |
| Columns.SentAtIsOfOpening | internal/repository/outbox_status.go:12-16 | a row becomes sent only by the commit of a batch, and its `sent_at` is the time at which that publisher opened the transaction it commits |
| Statuses.StatusTellsEffect | internal/api/write_fiber_service_error.go:19-51 | 200, or 201 for a create, means this call committed; 204, 404 and 409 have the serial verdict of that name, 403 the verdict not-the-driver or a denied check, 400 an invalid create command, 502 and 503 the failed check of that kind, and all of these changed nothing; 500 is a failure of the database; no other status occurs |
| Statuses.AppliedErrorIsCommitError | internal/service/transaction.go:54-60 | a call that took effect answers an error only if it is that of its commit, so a 500 with any other error changed nothing |
| Statuses.VerdictDecidesStatus | internal/api/move_trip_draft_to_published.go:65-79 | conversely, a call that the serial machine refused answers with the status of its verdict, or not at all |
| Statuses.VerdictShows | internal/api/move_trip_draft_to_published.go:69-75 | the verdict of the row check reaches the status line through every layer of context |
| Statuses.LabelFollowsStatus | internal/service/publish_trip_result.go:10-23 | in every run, the status of a rejected publish call and the metric label of its error tell the same story |
| Permissions.PermissionPrecedesEffect | internal/service/publish_trip.go:41-57 | every published (started) trip of any run has become so by a commit of a call of its own driver whose own check of trip_creation (trip_start) was allowed before; right before that commit it was not, right after it was |
| Permissions.CheckPrecedesVerdict | internal/service/start_trip.go:26-36 | whatever verdict a publish or start call gets, the check of that same call was allowed earlier in the run |
| Checks.StatusIsForDriver | internal/api/move_trip_draft_to_published.go:65-79 | in every run 200, 204 and 409 are answered to the driver of the trip only, and 403 after an allowed check to somebody else only; 200 and 204 mean that the trip is published (started) from then on, 409 for a publish that it is started |
| Checks.ValidationPrecedesCreation | internal/service/create_trip.go:41-52 | every recorded create command was validated by its own call before its commit, and at the clock of that moment had a driver, text in both points, a later departure and at least one seat |
| Checks.TripsAreValid | internal/service/validate_create_trip_command.go:13-35 | hence in every reachable state every trip has a driver, two points with text, and between 1 and 2147483647 seats |
| Checks.SpacesAre | internal/service/validate_create_trip_command.go:18-24 | the characters a point may not consist of alone are the 25 code points that Unicode calls white space |
| Permissions.DeniedCheckHasNoEffect | internal/service/start_trip.go:26-35 | a denied or failed check ends the call without taking a lock or writing anything |
| Waiting.DeadlockFree | internal/repository/get_trip_for_update_by_id.go:42-56 | at the locking read, the UPDATE and both inserts: whoever is waited for is another call, waits for nobody and can go on, so the waits-for graph has no cycle |
| Waiting.PublisherNeverWaits | internal/repository/lock_pending.go:21 | although the marking UPDATEs wait for locked rows, no publisher ever waits in one, and each always has a next step that is neither an error nor a crash |
| Completion.HolderFinishes | internal/service/transaction.go:45-63 | whoever holds a row lock can run to its end alone, without an error of the database or a crash, and leaves no new lock |
| Completion.EveryCallCanFinish | internal/service/transaction.go:16-64 | from every reachable state every call can be brought to its end, without an error of the database or a crash, by actions of its own and of at most one other call |
| Completion.WaitCanEnd | internal/repository/get_trip_for_update_by_id.go:56 | every wait ends if the call that is waited for runs on, as it can, to its end |
| Errors.WrappingIsTransparent | internal/api/write_fiber_service_error.go:19-52 | any depth of added context leaves HTTP status and metric label unchanged |
| Errors.LabelAgreesWithStatus | internal/service/publish_trip_result.go:10-23 | metric label and HTTP status of a publish error with at most one sentinel, under any layers of context, tell the same story, except that 400, 500, 502 and 503 share a label |
| Draining.DrainingBound | internal/events/outbox_publisher.go:71-92 | n deliverable and k < 100 undecodable pending rows: after m undisturbed batches with m * (100 - k) >= n no deliverable row is pending, and the undecodable ones all are |
| Draining.StuckBehindHundred | internal/repository/lock_pending.go:17-20 | a hundred undecodable rows strictly older than a good row keep it unsent through any number of batches, whatever younger rows are inserted meanwhile |
| Draining.RowDrains | internal/repository/lock_pending.go:17-20 | only undecodable rows that are not younger delay a row: with fewer than 100 of them it is sent in time, whatever younger rows are inserted between and during the batches |
| Draining.SentExactlyIfFewOlder | internal/repository/lock_pending.go:17-20 | with distinct creation times, enough batches, with younger rows inserted meanwhile, send the row if and only if fewer than 100 undecodable rows are older |
| Delivery.LoneIsBusy | internal/events/outbox_publisher.go:64-95 | however the statements of a lone publisher interleave with those of commands, its commits are batches as in the draining bound: each a selection of the outbox that its query saw |
| Delivery.RowGetsOut | internal/events/outbox_publisher.go:48-95 | in any such run with enough commits the row is sent |
| Delivery.RowStaysIn | internal/events/outbox_publisher.go:48-95 | and in any such run, however long, it is not, if a hundred undecodable rows are older |
| Delivery.RowGetsOutExactlyIf | internal/repository/lock_pending.go:17-20 | with distinct creation times these are the two cases |
| Delivery.PublishedIsAnnounced | internal/domain/publish_trip.go:72-107 | every published trip is announced: in any such run its event is sent and its message in the log once enough batches have committed |
| Backlog.GoodRowIsStuck | internal/events/outbox_publisher.go:71-92 | an initial outbox of a hundred undecodable rows and a younger good one: no number of undisturbed batches sends the good row |
| Backlog.WorkInVain | internal/events/outbox_publisher.go:48-101 | the publisher, run on that outbox for any number of ticks without a failure, makes as many batches and leaves the good row pending |
| Selection.SelectionDone | internal/repository/lock_pending.go:17-21 | a scan in age order that skips locked rows and stops at the limit yields a selection: distinct, oldest first, all free rows if there are at most 100 and else exactly 100, passing over no strictly older free row |
| Database.ScanIsBatch | internal/repository/lock_pending.go:14-32 | what the query's loop collects is such a selection, in the committed version of each row |
| Database.PgTx.Commit | internal/service/transaction.go:54-60 | the private writes become visible all together unless the commit was lost; the locks of this transaction go either way, and only those |
| Database.PgTx.Rollback | internal/service/transaction.go:35-43 | the tables are as if the transaction had not been, and its locks are gone |
| Database.OutboxRepository.PendingByAge | internal/repository/lock_pending.go:18-19 | lists exactly the pending rows, each once, by creation time |
| Database.OutboxRepository.LockPending | internal/repository/lock_pending.go:13-33 | collects the unlocked rows among the oldest candidates, all of them or exactly 100, and locks exactly these; if the query fails at once it locks nothing, if reading its rows fails the rows it has come to stay locked, and no row is returned |
| Database.OutboxRepository.MarkSent | internal/repository/outbox_status.go:11-22 | after waiting for the row if another session has it: whatever row has the id is locked and, for this transaction only, gets status sent and the transaction's time in `sent_at`, all its other columns as before; a missing row or an error changes nothing |
| Database.OutboxRepository.MarkFailed | internal/repository/outbox_status.go:24-40 | likewise, one more attempt and this error in `last_error`; status, `sent_at` and the other columns stay |
| Database.OutboxRepository.CreateOutboxEvent | internal/repository/create_outbox_event.go:16-64 | after waiting for an insert in flight of the same key: under a free key inserts a pending row with no attempts, no error and no `sent_at`, and holds the key; an existing row stays as it is, without an error |
| Database.TripRepository.GetForUpdateByID | internal/repository/get_trip_for_update_by_id.go:18-80 | returns the row as committed when the wait for its lock, if any, is over, and holds the lock; not found and failure take no lock |
| Database.TripRepository.Update | internal/repository/update_trip.go:17-120 | after waiting for the row if need be: the written columns with the stored id and creation time and the transaction's time in `updated_at`, and a history row of that time if the status changes, in private writes; not found and failure write nothing |
| Database.TripRepository.Create | internal/repository/create_trip.go:16-110 | after waiting for an insert in flight of the same id, a new row with its first history row (NULL to draft), or an error with the statement that failed |
| PublisherSteps.SelectRun | internal/repository/lock_pending.go:13-33 | the batch query is a run of the state machine: a snapshot, then one step per scanned row |
| PublisherSteps.BatchProcessed | internal/events/outbox_publisher.go:65-95 | the end of a transaction leaves the outbox as before, or each row of the batch sent or failed once more with the reason of this failure and no other row touched; other locks stay; whatever the end, the log has gained exactly the messages sent up to the first failing mark |
| PublisherSteps.SendsStopAtFailure | internal/events/outbox_publisher.go:82-91 | the number of rows sent is the whole batch, or ends with the first row whose mark fails |
| PublisherSteps.BatchEffect | internal/repository/outbox_status.go:11-40 | marking picked rows one by one and merging the marks at commit gives every row of the batch its own outcome and changes nothing else |
| PublisherSteps.BatchColumns | internal/events/outbox_publisher.go:72-91 | the outcome of a committed batch column by column: rows that decode and are accepted get status sent and the time of the transaction, the others one more attempt and their reason, undecodable or the producer's error |
| PublisherSteps.TickIsQuiet | internal/events/outbox_publisher.go:64-95 | a tick without failures is an undisturbed batch in the sense of the draining bound |
| Publisher.Producer.PublishTripPublished | internal/events/producer.go:27-44 | appends copies of the message made of the event: at least one if it returns nil, as many as the broker took if it fails |
| Publisher.OutboxPublisher.Send | internal/events/outbox_publisher.go:72-88 | decode, send and count are one send step of the state machine; the counters move with the answer |
| Publisher.OutboxPublisher.MarkRow | internal/events/outbox_publisher.go:79-91 | the row is marked according to the answer, in private; an error dooms the transaction |
| Publisher.OutboxPublisher.SendRows | internal/events/outbox_publisher.go:71-94 | the loop handles every row in order up to the first whose mark fails; log copies are exactly those that Kafka's answers call for up to and including that row, private marks those of the rows before it; a failed send does not stop it |
| Publisher.OutboxPublisher.InTransaction | internal/events/outbox_publisher.go:65-95 | no error is returned exactly if no statement failed; the outbox shows the outcome of the whole batch or nothing of it, while the log keeps what was sent, all of it or up to the failed mark, even if the transaction is rolled back |
| Publisher.OutboxPublisher.PublishBatch | internal/events/outbox_publisher.go:64-101 | one tick is a run of this publisher back to rest; errors of batch and count are joined; the gauge shows the number of pending rows unless counting failed |
| Publisher.OutboxPublisher.Run | internal/events/outbox_publisher.go:48-62 | any number of ticks, failing or not, is a run of this publisher; undisturbed ticks, enough by the bound, leave nothing deliverable |
| CallSteps.FinishEffect | internal/service/transaction.go:45-60 | at its end a call has either made the tables what the serial machine makes of them, or changed nothing, and holds no lock |
| CallRuns.Awoken | internal/repository/get_trip_for_update_by_id.go:42-56 | whatever others do while a call waits for its row, the call is where it was when the wait ends, holds no lock, and can execute the statement |
| CallRuns.CallEnds | internal/service/transaction.go:16-64 | for every command, every reachable state in which it need not wait and every choice of failing statements, begin and commit included, there is a run to its end, with the answer and the effect that these determine |
| CallRuns.KeyIsFree | internal/domain/publish_trip.go:79-104 | the publish method finds its event key free, committed or in flight |
| TripService.LoadedTrip.Start | internal/domain/trip.go:29-35 | succeeds exactly from published and then leaves started; otherwise a conflict and no change |
| TripService.TripUsecase.CheckLoaded | internal/domain/publish_trip.go:46-70 | a foreign client gets the forbidden error whatever the status; the driver gets already published, conflict or no error by the status |
| TripService.TripUsecase.InsertEvent | internal/domain/publish_trip.go:79-107 | the inserted row is the event of the updated trip with the metadata of this command |
| TripService.TripUsecase.PublishLocked | internal/domain/publish_trip.go:46-109 | with the row locked and in memory: ready to commit, or the first of: not the driver, already published, wrong status, update error, insert error |
| TripService.TripUsecase.PublishTrip | internal/domain/publish_trip.go:27-110 | in the state in which its wait for the row, if any, ends: the same, after a read error or not found; nothing is visible yet |
| TripService.TripUsecase.CreateTrip | internal/domain/create_trip.go:42-78 | ends ready to commit a draft with the fields of the request, or fails with the statement that failed |
| TripService.TripService.StartLoaded | internal/service/start_trip.go:41-46 | a foreign client gets the forbidden error whatever the status; the driver gets a conflict unless the trip is published; the row in memory is started only if both pass |
| TripService.TripService.StartLocked | internal/service/start_trip.go:41-48 | with the row locked and in memory: ready to commit, or the first of: not the driver, wrong status, update error |
| TripService.TripService.StartBlock | internal/service/start_trip.go:36-49 | the same, after a read error or not found |
| TripService.TripService.Tx | internal/service/transaction.go:16-64 | whatever block it runs and whoever it has to wait for: applied as one serial execution, at the end of the wait, exactly if no statement failed and the commit was not lost, else without effect; all locks gone, and the error says which part failed |
| TripService.TripService.PublishInTx | internal/service/publish_trip.go:52-63 | as Tx, with exactly one publish counted under the label of the returned error |
| TripService.TripService.PublishTrip | internal/service/publish_trip.go:23-64 | in any reachable state: asks for trip_creation of the client, and an error of that check comes before any effect; else, after whatever others do while the call waits for its row, answer and effect are those of the transaction on the data as they are then; every call counts once, under the label of its answer |
| TripService.TripService.StartTrip | internal/service/start_trip.go:23-54 | the same for start, which asks for trip_start and counts nothing |
| TripService.TripService.CreateInTx | internal/service/create_trip.go:51-80 | as Tx, with exactly one create counted, as a success or an internal error |
| TripService.ServiceMetrics.CountPublish | internal/service/publish_trip.go:26-28 | the total of the given label grows by one, every other total stays |
| TripService.TripService.CheckPermission | internal/service/publish_trip.go:42-50 | asks once, for the client of the command and the given service, and goes on only if allowed |
| TripService.TripService.CreateTrip | internal/service/create_trip.go:25-83 | the validation error is returned exactly if the driver is missing, a point has no text, the departure is not after the clock or the seats are not positive, and then nothing else happens but the count; else answer, effect and count are those of the transaction |
| CallRuns.LabelSurvives | internal/service/publish_trip.go:58-60 | taking the label before the last layer of context gives the label of the returned error |
| CallRuns.AnswerIsVerdict | internal/api/move_trip_draft_to_published.go:65-79 | if no statement fails, the status line is the serial machine's verdict on the committed data |
| CallRuns.AnswerInColumns | internal/api/move_trip_draft_to_published.go:65-79 | and by the columns of the row: 404 without a row, 403 for a stranger, 200, 204 or 409 for the driver by the status |
| CallRuns.CreateAnswerInColumns | internal/api/create_trip.go:64-84 | for a create call: 400 exactly if a field is invalid, else 500 if the id is taken or the seats do not fit a 32-bit column, else 201 |
| CallRuns.RetriedPublish | internal/domain/publish_trip.go:55-70 | a retry of a publish that has committed changes nothing and is answered 204 while the trip is published, 409 once it is started |
| Witnesses.CommitErrorTellsNothing | internal/service/transaction.go:54-60 | for every command that would succeed there are two runs with the same answer, 500 with the error of the commit, one applied and one without effect |
| Witnesses.PublishEndsEitherWay | internal/service/publish_trip.go:52-61 | a concrete publish call with both ends: answered 500 alike, the trip published after one and a draft after the other |
| Witnesses.RetryGetsConflict | internal/domain/publish_trip.go:55-70 | a run from the empty system: a publish takes effect and is answered 500, the trip is started, and the retry of that publish is answered 409 |

## Left out

- HTTP server, routing, Keycloak, claim parsing and body parsing: library code and network I/O; the client id is an input.
- The contract client and its retries: a check is allowed, denied, unavailable or invalid, as an input.
- Tracing, logging, durations, dashboards, configuration and deployment files: nothing to prove.
- The approval workflow of `docs/trip-approval-design.md`: a design that no code implements.
- Notification inbox and Contract Service: they live in other repositories.
- The `Down` migrations, and enum values that no code writes, other than as a status that the row checks reject.
- Unconditional liveness: whether Kafka and the network come back is not a property of this code; the bounds have their hypotheses.
- Delivery.RowGetsOut: one publisher at a time, since with two replicas a row that one skips is locked by the other, whose batch may yet be rolled back; and inserted rows have to be younger, since a publish transaction that began before the row was created and commits later inserts an older one, which delays the row by one place. What holds for any number of publishers is in the theorems on safety.
- Wall-clock order: `NOW()` is the start of the transaction, so `updated_at` may go back between overlapping commands; history is ordered by commit.
- Database.OutboxRepository.MarkFailed: attempts is an unbounded natural number, not a 32-bit column.
- Database.OutboxRepository.LockPending: rows of equal creation time may come in any order, as in SQL; when a query runs between steps of others is covered by the state machine, not by the method.
- Publisher.OutboxPublisher.PublishBatch: no other actor moves between its statements; what others do in between is covered by the state machine.
- TripService.TripService.CreateTrip: the created trip that is returned beside the error is not an out-parameter; it is the row under the new id.
