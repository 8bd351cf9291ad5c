# Kiln print agent: a verified model

Kiln is a local print agent: clients submit jobs over WebSocket or REST, the agent renders them,
queues them per printer, hands them to a provider exactly when it must, watches the OS spooler,
and survives crashes without printing anything twice. This project models the parts of Kiln whose
correctness spans several functions or whole executions, and proves what they promise.

`dafny verify dfyconfig.toml` checks everything (Dafny 4.11).

## What is modelled

**The print engine as a protocol** (`Jobs`, `EngineModel`). `submit`, `prepare`, `enqueue`, the
per-printer workers, the spooler monitors, `cancel`, `shutdown`, retention, a crash and
`reconcile_after_restart` are interleaved over one locked job table, a store that survives the crash,
per-printer channels, the set of cancellations in progress and a global byte budget. A `Step` is one
lock-protected section or one foreign call; the scheduler, the clock, the provider and the disk are
arguments of the steps, so every interleaving is some sequence of steps. `EngineInvariant` is the
inductive invariant; `EngineTokens`, `EngineRecords`, `EngineBudget`, `EngineSubmit`, `EngineWorker`,
`EngineDesk` and `EngineLifecycle` prove that each step keeps it. `EngineSafety`, `EngineOutcomes` and
`EngineCancel` draw the conclusions. `EngineTruth` compares what records say with what was submitted,
`Reports` and `EngineReports` say field by field what a record holds after an answer, a report, a
timeout, a failure or a restart, `EngineSpooler` says whose spooler entries are watched and deleted, and
`EngineHistory` what the budget, retention and the history variables mean. `EngineScenes` and `EngineRaces` hold reachable
counterexamples where a promise ends. `EngineCode` is the same logic in the source's own form (objects
with maps that their methods update, loops), proved against the step functions, and `EngineRefines`
shows that its loops are runs of the state machine.

**The TypeScript client on top of it** (`SdkModel`, `SdkSafety`, `SdkReplies`, `SdkCode`, `EndToEnd`,
`EndToEndRace`): queueing, sending, replies, lost sockets, re-queueing and rejection; then the client
composed with the engine, where messages may arrive any number of times, in any order, while sockets
are lost and the agent crashes.

**Encoders as meaning-preserving transformations.** Receipts to ESC/POS (`EscPos`, `Receipt`,
`ReceiptPrinter`, `ReceiptCode`), dot-matrix documents to ESC/P (`EscP`, `DotMatrix`,
`DotMatrixCode`) and labels to ZPL II (`Zpl`, `ZplCode`, `ZplPrinter`). Each has an independent reader of the byte
stream (by the Epson formats of `GS k`, `GS ( k`, `GS v 0` and by ZPL's `^FH`/`^FD`) and an abstract
printer; the proofs say that the printer does exactly what the document means. `ReceiptText`,
`DotMatrixText` and `ZplDepicts` say what that is on paper: which characters, lines, cuts, dots and turns
the reader sees, without the encoder's own definitions. `Dither` and
`DitherCode` treat Floyd-Steinberg dithering over the reals, and `ReceiptImage` follows an image from
its grey pixels to the printed dots.

**Smaller algorithms**: line wrapping and pagination (`Layout`), the token bucket (`RateLimit`,
`RateLimitClock`), the discovery diff replayed by a subscriber (`Discovery`).

## Where the code does not meet a promise

Each of these has a concrete witness and the exact condition under which the promise does hold.

- `shutdown` fails the jobs of a snapshot without rechecking `delivery`. A worker that claims a job in
  between makes a record say NOT_PRINTED of a submitted job (`EngineRaces.ShutdownRace`). The label is
  right exactly when the job is still REQUEST_ACCEPTED when it is written
  (`EngineOutcomes.ShutdownLabelIsRightIff`).
- `cancelling` is a set and lives in memory. Two cancellations of one job, or a crash between the
  deletion and its record, end a deleted job as COMPLETED with SPOOLER_JOB_RETIRED
  (`EngineRaces.TwoCancelsRetire`, `EngineRaces.LateUnmarkRetires`, `EngineRaces.CrashForgetsCancel`).
  A monitor that has found the entry gone settles the open record that way exactly when the job is not
  in the set at the moment the monitor looks, which is after the poll; being in the set during the poll
  is not enough (`EngineCancel.DecisionRetiresIff`).
- The client clears a request's socket when it re-queues it and derives NOT_PRINTED from that
  (`SdkSafety.LostThenTimedOut`); the call may have been submitted
  (`EndToEndRace.NotPrintedButSubmitted`). The label is right exactly when the request was never
  re-queued (`SdkSafety.NotPrintedIsRightIff`).
- `columns` makes a line one character too long (`Receipt.ColumnsTooLong`) exactly when the right side
  fills the line (`Receipt.ColumnsFitIff`), although its comment promises `width` characters.
- The dot-matrix encoder decides on the final form feed by the last byte, which can be the argument of
  a setting: 15 lines per inch is `ESC 3 12` (`DotMatrixCode.FormFeedLost`). It is sent exactly unless
  no entry prints or feeds anything and the last settings byte is 12 (`DotMatrixCode.FinalFormFeedIff`).
- The rate limiter reads its clock before it takes its lock, so readings can arrive out of order. A
  client's allowance then is burst + rate * (the forward moves of its own readings)
  (`RateLimitClock.AcceptedByReadings`), which is burst + rate * elapsed time exactly when its readings
  are in order (`RateLimitClock.ForwardIsElapsedIff`); otherwise it can be served more
  (`RateLimit.BackwardsClockRefills`).
- Dropping idle buckets in a crowd lets a client exceed its allowance
  (`RateLimitClock.CrowdExceedsAllowance`). A drop changes what a client can spend exactly when the
  bucket had not refilled (`RateLimit.PruningForgivesIff`).

## Hypotheses

- A step that writes to the store carries whether the write succeeded, because the source only logs a
  failure; `dirty` records jobs whose last write was lost. At-most-once, order, exclusiveness and the
  budget hold with lost writes. What a restart says, and the write-through property, are claimed for
  jobs outside `dirty`.
- Job ids and spooler ids are fresh. A spooler entry is present until it is retired or deleted, a
  provider reports it gone only when it is absent, and a deletion succeeds only when it is present.
- Provider and renderer errors may carry any outcome.
- Key lookup and row insertion happen under one lock and are one step; making the row active is
  another. Loading a leftover row and settling it are one step, because nothing else is served then.
- `f32` and `f64` are reals. A job is a value: the source clones records, so in-place change of one
  record under the lock is a change of the table.
- A client handler is atomic; listeners that call back into the client from inside a handler are not
  modelled.

## Model

| member | source | states |
|---|---|---|
| Jobs.ApplyKeepsConsistent | print-core/src/model/job.rs:182-222 | every change a lock-protected section makes keeps a record consistent, its identity fixed and its delivery stage moving forward |
| EngineLifecycle.StepKeepsInv | print-core/src/engine/mod.rs:576-932 | every step of submit, worker, monitor, cancel, shutdown, retention, crash and restart keeps the engine's invariant |
| EngineLifecycle.RunKeepsInv | print-core/src/engine/mod.rs:576-932 | so does every finite interleaving of steps |
| EngineSafety.AtMostOncePerJob | print-core/src/engine/worker.rs:37-73 | provider.submit is called at most once per job in every reachable state, through any crashes |
| EngineSafety.AtMostOncePerKey | print-core/src/engine/mod.rs:590-607 | at most once per client and idempotency key unless that key's record was purged |
| EngineSafety.SubmissionsDoNotOverlap | print-core/src/engine/worker.rs:75-119 | two provider calls in progress for one printer are the same call, also after timeouts |
| EngineSafety.SubmissionsFollowSends | print-core/src/queue.rs:103-116 | a printer's submissions are a subsequence of its successful sends, also when its queue is re-created |
| EngineSafety.SubmittedToItsPrinter | print-core/src/engine/worker.rs:37-73 | a claimed job whose record is open goes to the printer that the record names |
| EngineSafety.BudgetIsExact | print-core/src/queue.rs:41-86 | budget use is the sum of live reservations, within 0 and the limit, and exactly the jobs between reservation and the end of their provider call hold one |
| EngineSafety.RecordsAreConsistent | print-core/src/model/job.rs:33-42 | every reachable record has exactly the evidence, error and delivery facts that its status calls for, and a condition only while the job is open at the spooler; what the facts say is the subject of the EngineTruth and EngineReports rows |
| EngineSafety.SpooledJobsAreComplete | print-core/src/engine/mod.rs:892-899 | the two internal-error branches of cancel cannot be taken |
| EngineSafety.ActiveIsWriteThrough | print-core/src/engine/mod.rs:266-316 | without lost writes the active table is the non-terminal part of the store, row by row |
| EngineSafety.StepAdvances | print-core/src/engine/mod.rs:266-303 | a step leaves a stored row alone, drops it only if terminal, or moves an open one forward; delivery keeps its stage or reaches a later one, in the store and in the active table |
| EngineSafety.EditsAreMutations | print-core/src/engine/mod.rs:266-303 | every step except insertion, purging, crash and reload changes the tables by at most one mutate call |
| EngineOutcomes.TerminalIsFinal | print-core/src/engine/mod.rs:285-289 | a terminal record never changes again and is never active again, in any later step or after any restart |
| EngineOutcomes.CancelledUnsentIsNeverSubmitted | print-core/src/engine/mod.rs:875-887 | a cancel applied while the job is REQUEST_ACCEPTED settles it and no continuation submits it, wherever its item is; what happens otherwise is EngineTruth.CancelTakesEffectIff |
| EngineOutcomes.RestartIsTruthful | print-core/src/engine/mod.rs:1026-1091 | restart says NOT_PRINTED only of a job never submitted and never to be submitted; a submitted one is watched again or failed UNKNOWN |
| EngineOutcomes.ShutdownLabelIsRightIff | print-core/src/engine/mod.rs:462-474 | shutdown's NOT_PRINTED holds for ever iff delivery is still REQUEST_ACCEPTED when it is written |
| EngineOutcomes.ClaimedGetsLogged | print-core/src/engine/worker.rs:45-73 | a claimed job is submitted already or its worker submits it next |
| EngineTruth.CancelledIsTruthful | print-core/src/engine/mod.rs:868-932 | in every reachable state a CANCELLED record is either REQUEST_ACCEPTED, and its job was never submitted and never will be in any continuation, or SPOOLER_ACCEPTED, and its job was submitted |
| EngineTruth.CancelTakesEffectIff | print-core/src/engine/mod.rs:875-887 | a cancel of an unsent job settles it iff the job is still REQUEST_ACCEPTED when the table is locked; one that comes too late leaves every table as it was |
| EngineTruth.NotPrintedIsTruthful | print-core/src/engine/worker.rs:75-121 | whatever step stores FAILED with NOT_PRINTED, the job was never submitted and never will be, unless a provider said so, shutdown wrote it about a job that had moved on, or a restart found a record whose last write was lost |
| EngineReports.TimeoutSaysUnknown | print-core/src/engine/worker.rs:91-104 | a job whose submission outlives the timeout was submitted and its record says FAILED, TIMEOUT, UNKNOWN |
| EngineReports.AnswerIsRecorded | print-core/src/engine/worker.rs:81-145 | the record after a provider's answer: the spooler id, the completion with BYTES_DELIVERED, the provider's own error, or INTERNAL with UNKNOWN after a panic |
| EngineReports.ReportIsRecorded | print-core/src/engine/monitor.rs:70-121 | from the moment the monitor looks, through any run that leaves the job open, to the record it makes: the record's fields are what the report said |
| EngineReports.FailureIsRecorded | print-core/src/engine/mod.rs:609-621 | a failed submit, a missing provider and shutdown record the code and outcome of their own error, name the job, and end it |
| EngineReports.FailuresHaveReasons | print-core/src/engine/mod.rs:787-848 | a submit call is about to fail only if it was told to, the bytes do not fit (QUEUE_FULL with the printer), the printer's queue holds its capacity (QUEUE_FULL), or the agent stops (UNSUPPORTED_OPERATION) |
| EngineReports.CancelIsRecorded | print-core/src/engine/mod.rs:904-919 | after a successful deletion the record of an active job says CANCELLED, without error or completion, and names the same job and printer |
| EngineReports.SnapshotIsUnsent | print-core/src/engine/mod.rs:464-468 | shutdown's snapshot holds exactly the active jobs that are REQUEST_ACCEPTED at that moment |
| EngineReports.RestartIsRecorded | print-core/src/engine/mod.rs:1026-1091 | what a restart makes of each open row by its delivery stage: resumed with its monitor, NOT_PRINTED, UNKNOWN, PRINTER_NOT_FOUND or COMPLETED |
| EngineReports.CompletedWasSubmitted | print-core/src/model/job.rs:33-42 | a reachable COMPLETED record belongs to a submitted job |
| EngineSpooler.DeletesOwnEntry | print-core/src/engine/mod.rs:892-910 | in every reachable state a deletion removes exactly an entry of the job that is being cancelled and no other |
| EngineSpooler.WatchesOwnEntry | print-core/src/engine/monitor.rs:34-40 | in every reachable state a monitor asks about no entry but its own job's |
| EngineSpooler.SpooledJobsAreWatched | print-core/src/engine/worker.rs:133-143 | unless its monitor stopped, every open job that reached the spooler is watched under its own spooler id, also after crashes and restarts |
| EngineSpooler.MarksAreLive | print-core/src/engine/mod.rs:904-926 | a job is marked as being cancelled only while one of its cancellations is under way at the spooler |
| EngineSpooler.VanishedUncancelledIsPrinted | print-core/src/engine/monitor.rs:94-103 | an entry that vanishes while nobody cancels its job is recorded as SPOOLER_JOB_RETIRED, never as cancelled |
| EngineHistory.PurgeRemovesIff | print-core/src/repository.rs:125-130 | a record goes iff it has ended and is older than the cutoff, the others stay as they are, and exactly the keys of what went are forgotten |
| EngineHistory.OncePerKeyWithoutRetention | print-core/src/engine/mod.rs:590-607 | in a run without retention a client's key is submitted at most once, through any crashes |
| EngineHistory.ReservationsAreSizes | print-core/src/queue.rs:41-63 | in every reachable state a live reservation is as large as its job's document |
| EngineHistory.SwapReservesIff | print-core/src/queue.rs:41-63 | a turn of the budget loop reserves exactly the document's size iff the counter is as it was read, the swap does not fail and the bytes fit; it gives up with QUEUE_FULL iff they do not fit beside what was read |
| EngineHistory.GoodStoreIsWriteThrough | print-core/src/engine/mod.rs:266-302 | if the store accepts every write, no job counts as having lost one, and the active table is the open part of the store |
| EngineHistory.CallsAreTheLog | print-core/src/engine/worker.rs:67-73 | a printer's calls, whose order is promised, are exactly what the log of submissions says about that printer |
| EngineRaces.ShutdownRace | print-core/src/engine/mod.rs:462-474 | a reachable record says NOT_PRINTED of a submitted job |
| EngineCancel.DecisionRetiresIff | print-core/src/engine/monitor.rs:94-103 | after the monitor has read the set of cancellations, and whatever else happens that leaves the job open, a vanished entry is recorded as printed iff the job was not in the set when it was read, and as cancelled iff it was |
| EngineCancel.DecisionStays | print-core/src/engine/monitor.rs:70-103 | no step of anything else changes what a monitor has decided |
| EngineRaces.TwoCancelsRetire | print-core/src/engine/mod.rs:904-926 | with two cancellations of one job, a deleted entry can end as SPOOLER_JOB_RETIRED |
| EngineRaces.LateUnmarkRetires | print-core/src/engine/mod.rs:921-926 | a job that is in the set when the poll finds its entry gone can still end as SPOOLER_JOB_RETIRED |
| EngineRaces.CrashForgetsCancel | print-core/src/engine/mod.rs:1043-1048 | from every state with a deleted entry and an open record, a crash makes that ending reachable |
| EngineCancel.DeletedIsNeverRetired | print-core/src/engine/mod.rs:892-932 | with one cancellation at a time and the deletion on record before a crash, a job whose entry we deleted is never SPOOLER_JOB_RETIRED |
| EngineCode.Repository.Store | print-core/src/repository.rs:79-87 | insert and update replace the record under its id |
| EngineCode.Repository.FindByKey | print-core/src/repository.rs:108-114 | finds a record of the client and key iff one is stored |
| EngineCode.Repository.NonTerminal | print-core/src/repository.rs:116-123 | lists every open record exactly once |
| EngineCode.Repository.PurgeTerminalBefore | print-core/src/repository.rs:125-130 | removes exactly the records that are COMPLETED, FAILED or CANCELLED and were created before the cutoff, keeps the others as they are, and counts the removed |
| EngineCode.Inner.Mutate | print-core/src/engine/mod.rs:266-302 | the table update agrees with the model's mutate, returns the changed record, and does nothing for an inactive job |
| EngineCode.Inner.LookupOrTrack | print-core/src/engine/mod.rs:590-607 | under the gate: an existing key wins and its active record is preferred to the stored one, a row the store refuses is reported, both change nothing; otherwise the job is stored and active, RECEIVED, REQUEST_ACCEPTED, with the client, key and time it came with |
| EngineCode.Inner.ApplyReport | print-core/src/engine/monitor.rs:70-121 | the watched record, in the table or settled in the store, says what the spooler reported: FAILED with its code and outcome iff it failed, COMPLETED with SPOOLER_REPORTED_PRINTED iff it printed or with SPOOLER_JOB_RETIRED iff it vanished unmarked, CANCELLED iff deleted or vanished while marked, PRINTING, and the condition; the monitor stops iff the job is no longer active, and the step is Unchanged iff the record is |
| EngineCode.Inner.Turn | print-core/src/engine/monitor.rs:25-60 | one poll: the table changes as the model says, and the next interval is the longest after a failed query, the shortest after a change of the record, else half as long again |
| EngineCode.Inner.Watch | print-core/src/engine/monitor.rs:15-62 | with what others do to the job, the cancellation mark and the write given per poll, the loop leaves the table as its polls together would and ends early only with the job; the intervals start at the shortest and are paced by what each poll found |
| EngineCode.Inner.FailSnapshot | print-core/src/engine/mod.rs:464-474 | the shutdown loop fails its whole snapshot, each job once |
| EngineCode.Inner.ReconcileAfterRestart | print-core/src/engine/mod.rs:1026-1091 | every open row is handled once: resumed iff it is spooled on a known printer, otherwise settled |
| EngineCode.EndedWatch | print-core/src/engine/monitor.rs:30-32 | polls after the job has ended change nothing |
| EngineCode.ByteBudget.TryReserve | print-core/src/queue.rs:41-63 | whatever reservations other threads make and drop between load and swap, and however often the weak swap fails, the bytes are reserved iff they fit beside the reservations then alive, and the counter stays their sum within the limit |
| EngineCode.ByteBudget.Drop | print-core/src/queue.rs:82-86 | dropping a live reservation takes exactly it out of the live ones and keeps the counter equal to their sum, so it cannot underflow |
| EngineCode.PrinterQueues.SenderFor | print-core/src/queue.rs:103-116 | the printer's open channel, or a new one that replaces a closed one |
| EngineRefines.ReconcileLoopIsRun | print-core/src/engine/mod.rs:1026-1091 | the restart loop is a run of the state machine's restart steps with the same tables |
| EngineRefines.ShutdownLoopIsRun | print-core/src/engine/mod.rs:464-474 | the shutdown loop is a run of its steps with the same tables |
| EngineRefines.TrackIsInsertThenActivate | print-core/src/engine/mod.rs:304-316 | track is the step that stores the row followed by the one that makes it active |
| SdkSafety.ActKeeps | sdk/typescript/src/client.ts:312-469 | every handler of the client keeps its invariant |
| SdkSafety.ExactlyOnePlace | sdk/typescript/src/client.ts:312-348 | after any handlers an unsettled request is exactly once in the queue or in flight, a settled one in neither |
| SdkSafety.KeysAreStable | sdk/typescript/src/client.ts:444-454 | every message of a request, also when sent again, carries the key it was made with |
| SdkSafety.NotPrintedIsRightIff | sdk/typescript/src/client.ts:379-396 | NOT_PRINTED means nothing was sent iff the request was never re-queued; UNKNOWN is said only of sent requests |
| SdkSafety.LostThenTimedOut | sdk/typescript/src/client.ts:427-437 | a request that was sent, lost and re-queued can time out with NOT_PRINTED |
| SdkReplies.SettledByReplyIff | sdk/typescript/src/client.ts:456-469 | over every run of handlers, a request is resolved iff an ok reply to one of its own messages was handled while that was in flight, and refused iff one that was not ok was |
| SdkReplies.UnrepeatableIsSentOnce | sdk/typescript/src/client.ts:326-343 | over every run, no two messages on the wire belong to a request that may not be sent again |
| SdkReplies.RejectionsOfPrintsHaveAnOutcome | sdk/typescript/src/client.ts:379-396 | over every run, a rejected print says NOT_PRINTED or UNKNOWN and any other rejected request says neither |
| SdkReplies.ReconnectSendsTheQueue | sdk/typescript/src/client.ts:312-319 | after a reconnect the wire has grown by one message for each queued request, in the order of the queue, on the new socket, under consecutive message numbers |
| SdkReplies.LostRequestsAreQueued | sdk/typescript/src/client.ts:321-348 | a lost socket appends exactly its repeatable requests to the queue, in the order of their messages; nothing of it stays in flight and nothing is sent |
| SdkReplies.FinalLossRejectsAll | sdk/typescript/src/client.ts:344-347 | when the client may not reconnect, a lost socket rejects every open request by whether it was on a socket |
| SdkReplies.ClosingIff | sdk/typescript/src/client.ts:178-201 | the client counts as closing from a disconnect until it is told to connect again |
| SdkReplies.RequestIsPlaced | sdk/typescript/src/client.ts:398-442 | a new request is rejected without a connection, is one message on the socket when connected, and otherwise the end of the queue |
| SdkReplies.TimerSettlesItsRequest | sdk/typescript/src/client.ts:427-437 | a timer takes its own request out of queue and flight and rejects it by whether it is on a socket; every other request stays as it was |
| SdkReplies.GivingUpRejectsAll | sdk/typescript/src/client.ts:379-396 | giving up rejects every open request by whether it is on a socket and leaves every verdict alone |
| SdkCode.PrintClient.SendPending | sdk/typescript/src/client.ts:444-454 | a request goes to the socket under a new number, or to the queue when there is no socket |
| SdkCode.PrintClient.MakeRequest | sdk/typescript/src/client.ts:398-442 | a request is rejected, sent or queued by the state of the connection, and the invariant is kept |
| SdkCode.PrintClient.OnMessage | sdk/typescript/src/client.ts:456-469 | a reply to a message that is in flight on that socket takes it out of the map and resolves its request iff it is ok, refuses it iff it is not; any other reply changes nothing |
| SdkCode.PrintClient.RecoverOne | sdk/typescript/src/client.ts:326-343 | a request of the dead socket is re-queued iff it may be sent again, otherwise rejected as UNKNOWN |
| SdkCode.PrintClient.OnSocketClose | sdk/typescript/src/client.ts:321-348 | all requests of the dead socket are recovered in the order they were sent, and nothing is lost |
| SdkCode.PrintClient.FailEverything | sdk/typescript/src/client.ts:379-396 | every waiting request is rejected with the label of its state |
| SdkCode.PrintClient.OnConnected | sdk/typescript/src/client.ts:312-319 | the queue is sent in order |
| SdkCode.PrintClient.OnTimer | sdk/typescript/src/client.ts:427-437 | an expired request leaves queue and in-flight map and is rejected |
| SdkCode.PrintClient.Close | sdk/typescript/src/client.ts:197-201 | disconnecting rejects everything |
| EndToEnd.OnePrintAtMostOneSubmission | sdk/typescript/src/client.ts:604-619 | for any interleaving of lost sockets, resends, duplicated messages and agent crashes, one print call leads to at most one submission unless its key was purged |
| EndToEnd.NotPrintedEndToEnd | sdk/typescript/src/client.ts:379-396 | a print call rejected as NOT_PRINTED and never re-queued is never submitted |
| EndToEndRace.NotPrintedButSubmitted | sdk/typescript/src/client.ts:329-331 | a run of client and engine in which a print call is rejected as NOT_PRINTED after the agent submitted it |
| Dither.ErrorIsBounded | renderers/src/receipt.rs:229-247 | every quantisation error is at least -127 and less than 128 |
| Dither.GreyBalance | renderers/src/receipt.rs:235-247 | grey is conserved exactly: what is not white went over the row ends or out at the bottom |
| Dither.GreyIsConserved | renderers/src/receipt.rs:216-252 | total grey differs from 255 times the white pixels by at most 128 (w + h), for every image size |
| DitherCode.DitherImage | renderers/src/receipt.rs:216-252 | two rolling rows compute the whole-image definition; bits are packed most significant first and padding is zero |
| DitherCode.DitherPixel | renderers/src/receipt.rs:230-252 | one pixel: its bit is set iff it is black, and its error goes to the neighbours that exist |
| EscPos.ReadBack | protocols/src/escpos_commands.rs:83-161 | every command whose length fits its field is read back whole from the bytes, whatever follows |
| EscPos.ParseBack | protocols/src/escpos_commands.rs:14-161 | a stream of such commands is read back command by command |
| EscPos.CommandsOnTheWire | protocols/src/escpos_commands.rs:169-187 | alignment, size, cut, drawer pulse and raster commands are byte for byte those of the printers' documentation |
| Receipt.ColumnsFitIff | renderers/src/receipt.rs:173-183 | a two-column line is `width` long iff the right side is shorter than that, else one longer; the right side is kept, the left gives way, and everything between them is blank |
| Receipt.ColumnsTooLong | renderers/src/receipt.rs:173-183 | 17 characters for a width of 16 |
| Receipt.SplitJoins | renderers/src/receipt.rs:88-91 | splitting at line feeds loses nothing and leaves no line feed in a line |
| Receipt.LinesKeepText | renderers/src/receipt.rs:88-91 | the lines of a text item joined by line feeds are its text without exactly the carriage returns of its CR LF pairs: every other character is there, in order |
| Receipt.PlainLinesJoin | renderers/src/receipt.rs:88-91 | without a CR LF pair the joined lines are the text |
| ReceiptText.TextItemShowsItsText | renderers/src/receipt.rs:71-97 | the printed lines of a text item, read off character by character, are its text without exactly those carriage returns, every character in the item's style and position |
| ReceiptText.SeparatorShowsARule | renderers/src/receipt.rs:104-111 | a separator prints one plain line of `width` copies of its character if the code page has it, else of a hyphen |
| ReceiptText.CutsAreNotDoubled | renderers/src/receipt.rs:161-168 | a printed receipt has one cut for each cut item, and one more iff it asks for it and does not end with one; if it asks for a cut, nothing is printed after the last |
| ReceiptPrinter.ItemRun | renderers/src/receipt.rs:69-163 | each item prints exactly what it means, every character in the item's own style, and leaves the printer at its default style |
| ReceiptPrinter.UndoubledDoubled | protocols/src/escpos_commands.rs:102-107 | CODE128 data with doubled braces is read back as given |
| ReceiptPrinter.BandsAreWhole | renderers/src/receipt.rs:198-211 | the raster bands of an image have exactly 256 rows, but for a shorter last one, and together are the whole bitmap |
| ReceiptImage.ImagePrintsItsPixels | renderers/src/receipt.rs:146-157 | a printed image item sets exactly the dots that dithering makes black, and leaves the printer at rest |
| ReceiptImage.RasterImage | renderers/src/receipt.rs:197-213 | the bytes of a dithered image, read back and printed, show the image dot by dot |
| ReceiptCode.ItemSound | print-core/src/model/label.rs:484-548 | validation keeps every length of an item within its length field |
| ReceiptCode.ReceiptPrintsItself | renderers/src/receipt.rs:61-171 | the bytes of a valid receipt parse completely and print its items in order, with drawer and final cut as asked |
| ReceiptCode.RestBetweenItems | renderers/src/receipt.rs:82-97 | after every item the printer is at its default style with nothing buffered |
| ReceiptCode.EncodingFailsIff | protocols/src/encoding.rs:80-96 | encoding fails iff some text has a character outside the code page; separators never do |
| ReceiptCode.EncodeBitmap | renderers/src/receipt.rs:198-211 | the band loop emits the bitmap's raster commands |
| ReceiptCode.Encode | renderers/src/receipt.rs:61-171 | the encoder's loops produce bytes that print the document's meaning, or fail iff the text is not representable; what the meaning shows on paper is the subject of the ReceiptText rows |
| EscP.CommandsBack | protocols/src/escp_commands.rs:15-98 | a well-formed ESC/P stream is read back command by command |
| EscP.SpacingIsNearest | protocols/src/escp_commands.rs:27-36 | 6 and 8 lines per inch are ESC 2 and ESC 0 and nothing else is; for every other valid setting the spacing is the nearest printer unit and the clamp never acts |
| DotMatrixCode.HeadRun | renderers/src/dotmatrix.rs:60-86 | the settings put the printer at the document's pitch with exactly the form asked for |
| DotMatrixCode.EntryRun | renderers/src/dotmatrix.rs:102-150 | each entry is printed in the document's pitch with exactly its own styles and leaves every style at the baseline |
| DotMatrixCode.DocumentPrintsItself | renderers/src/dotmatrix.rs:53-158 | the bytes of an initialised document print it from any printer state |
| DotMatrixCode.BaselineBetweenEntries | renderers/src/dotmatrix.rs:105-138 | between entries the printer is at the baseline: condensed iff the pitch is |
| DotMatrixCode.FinalFormFeedIff | renderers/src/dotmatrix.rs:154-156 | the final form feed is sent iff some entry prints or feeds, or the last settings byte is not 12 |
| DotMatrixCode.FormFeedLost | renderers/src/dotmatrix.rs:154-156 | a valid document whose final form feed is missing |
| DotMatrixText.PagesJoin | renderers/src/dotmatrix.rs:86-97 | splitting a line at form feeds loses nothing and leaves no form feed in a part |
| DotMatrixText.TextEntryShowsItsText | renderers/src/dotmatrix.rs:86-97 | a text entry read off the paper with its line and form feeds is its text without exactly the carriage returns of CR LF pairs, any other shown as a space, in the document's pitch |
| DotMatrixText.FeedsAreBlankLines | renderers/src/dotmatrix.rs:139-143 | a line feed entry gives as many blank lines as it asks for |
| DotMatrixCode.EncodePages | renderers/src/dotmatrix.rs:86-97 | the page loop of a plain line |
| DotMatrixCode.EncodingFailsIff | renderers/src/dotmatrix.rs:86-138 | encoding fails iff some text has a character outside the code page |
| DotMatrixCode.Encode | renderers/src/dotmatrix.rs:53-158 | fails iff some text is not representable; otherwise the bytes of an initialised document print it from any printer state and leave the printer at the baseline with the form asked for |
| Zpl.ReadsBack | protocols/src/label/zpl.rs:30-162 | commands without prefix characters in them are read back exactly |
| Zpl.ContainsIff | protocols/src/bytes.rs:3-15 | contains holds iff count is positive |
| ZplCode.FieldIsSafe | protocols/src/label/zpl.rs:14-28 | no field contains a command prefix or a line break, whatever the text |
| ZplCode.FieldDecodes | protocols/src/label/zpl.rs:16-28 | decoding the hex escapes gives the text back with line breaks as spaces |
| ZplCode.BarDataRestored | protocols/src/label/zpl.rs:96-102 | undoing the `>0` sequences gives the CODE128 payload back |
| ZplCode.LabelReadsBack | protocols/src/label/zpl.rs:30-162 | a ZPL reader finds exactly the label's commands and every field's data in order |
| ZplPrinter.DecimalReads | protocols/src/label/zpl.rs:34-40 | written numbers are read back |
| ZplPrinter.PartsBack | protocols/src/label/zpl.rs:85-95 | parameters are read back as they were joined |
| ZplPrinter.LabelPrintsItself | protocols/src/label/zpl.rs:30-162 | a ZPL printer draws exactly the label's elements in order, each at its position and size in dots with its data, CODE128 `>` restored, on a label of the given size, darkness and clamped speed |
| ZplDepicts.LabelIsDepicted | protocols/src/label/zpl.rs:30-162 | every drawn object stands for its element: the nearest dot to its position, the nearest size of at least one dot, the quarter turn its rotation reaches, its QR level, its text on one line without computed check digits; the label's size, darkness and nearest speed |
| ZplCode.InspectIsClean | protocols/src/zpl.rs:29-47 | the inspection of any encoded label gives no warning |
| Zpl.CountIsWindows | protocols/src/bytes.rs:3-15 | count is the number of positions at which the needle stands, overlapping ones included |
| Zpl.InspectWarnsIff | protocols/src/zpl.rs:29-47 | each warning is given iff its condition on the bytes holds: no format start and no leading `~`, unequal numbers of starts and ends, a changed prefix |
| ZplCode.EncodeField | protocols/src/label/zpl.rs:16-28 | the escaping loop gives safe, decodable field data |
| ZplCode.Encode | protocols/src/label/zpl.rs:30-162 | the encoder's output reads back as the label and passes the inspection |
| Layout.BreakWord | providers/windows/src/layout.rs:38-52 | breaking a word loses nothing, each piece fits or is one character, and none could take one more character |
| Layout.WrapLine | providers/windows/src/layout.rs:8-36 | for any measuring function every line fits or has at most one character, no non-blank character is lost or moved, every line but the last is as long as it can be, and a word is broken only if it is too wide for a line of its own |
| Layout.ChunksAreWhole | providers/windows/src/layout.rs:63-63 | the device pages of one page hold its lines in order, all but the last full |
| Layout.Paginate | providers/windows/src/layout.rs:55-66 | the device pages are one block for each page, in order, each block holding exactly the lines of its page, at most n on a device page, and at least one device page even for an empty page |
| RateLimit.RateLimiter.CheckAt | agent/src/security/rate_limit.rs:34-53 | tokens stay within 0 and burst; the request is accepted iff a token is there |
| RateLimit.OthersKeepTheirLevelIff | agent/src/security/rate_limit.rs:36-44 | a client's request changes what another can spend iff pruning drops the other's bucket before it has refilled |
| RateLimit.PruningForgivesIff | agent/src/security/rate_limit.rs:36-39 | dropping idle buckets changes an allowance iff the bucket had not refilled |
| RateLimitClock.Conservation | agent/src/security/rate_limit.rs:34-53 | for every run, with readings in any order and any crowd, what a client has spent and keeps is at most its burst, what its own readings earn it and what pruning forgives it |
| RateLimitClock.AcceptedByReadings | agent/src/security/rate_limit.rs:34-53 | without a crowd, and with readings in any order, a client is accepted at most burst + rate times the forward moves of its own readings |
| RateLimitClock.ForwardIsElapsedIff | agent/src/security/rate_limit.rs:44-46 | the forward moves add up to the elapsed time iff the readings are in order, else to more |
| RateLimitClock.AcceptedIsBounded | agent/src/security/rate_limit.rs:34-53 | with its own readings in order and no crowd, a client is accepted at most burst + rate T times within T, whatever the others' clocks say |
| RateLimitClock.CrowdExceedsAllowance | agent/src/security/rate_limit.rs:36-39 | a run in which a dropped bucket lets a client have 4 requests accepted where 2.6 are allowed |
| RateLimit.AcceptedInOrder | agent/src/security/rate_limit.rs:34-53 | with all readings in order, the bound also holds in a crowd whose buckets refill within a minute, from any state and start |
| RateLimit.LevelIsServed | agent/src/security/rate_limit.rs:44-52 | requests at one time are all accepted while the level lasts, so a new client gets its whole burst |
| RateLimit.BackwardsClockRefills | agent/src/security/rate_limit.rs:44-46 | with a clock that steps back a client is served more than its burst at one time |
| Discovery.Cache.Refresh | print-core/src/engine/discovery.rs:60-97 | the next snapshot, and after the first refresh exactly the true events, at most one per printer and none missing |
| Discovery.SnapshotIff | print-core/src/engine/discovery.rs:65-73 | a printer is in the next snapshot iff it was discovered or its provider failed |
| Discovery.SnapshotHoldsTheLatest | print-core/src/engine/discovery.rs:65-73 | the next snapshot holds, under each id, the record that was discovered last under it, or the old one of a failed provider if nothing was |
| Discovery.SubscriberStaysExact | print-core/src/engine/discovery.rs:75-97 | a subscriber that folds in all events has the cache's printers, and their reachability, state, conditions and default flag, after every refresh |
| Discovery.FailingProviderKeepsItsPrinters | print-core/src/engine/discovery.rs:51-70 | printers of a failing provider stay and no event says they went |

## Left out

- Foreign calls: Win32, GDI, WinRT, TCP, the DevTools client and the headless browser; provider results are arguments of steps.
- SQLite: the in-memory store stands for it, with one record per client and key.
- HTTP and WebSocket plumbing, configuration, logging, access control.
- Liveness: a monitor may poll for ever, so no job is promised to end.
- Real time: timeouts, sleeps and the reconnect back-off are steps that may happen; event delivery is lossless.
- A REST request that is dropped during a cancellation of a spooled job; a request dropped while it prepares is `SubmitAbort`.
- The client's job cache, event listeners and typed print helpers: easy members beside the request protocol.
- EngineSafety.SubmissionsFollowSends: claims order within one process; after a crash the channels start empty.
- EngineCode.Inner.Watch: other sections act on the job once per turn; every finer interleaving is the state machine's subject.
- EngineCode.ByteBudget.TryReserve: a swap that fails for ever is not modelled; the interference is finite.
- ReceiptImage.RasterImage: starts after decoding and scaling, so the image is at most 2048 dots wide.
- ReceiptCode.ReceiptPrintsItself: covers the DOS code pages; the WHATWG encoders and UTF-8 are library code, RAW items are arbitrary bytes, and image decoding and resizing are library code, so an image is its bitmap.
- DotMatrixCode.DocumentPrintsItself: RAW entries are left out, and the printer's glyph table is taken to be the document's encoding.
- ZplCode.LabelReadsBack: RAW elements and custom fonts are inserted verbatim by the source and left out.
- EPL, TSPL and CPCL encoders, page ranges, placement and font choice: easy members beside the cores above.
- Discovery.Cache.Refresh: which providers fail and what they find are parameters; the refresh lock and the minimum gap are left out.
