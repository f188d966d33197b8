# Tentaflake's durable state machines, modelled and proved

Tentaflake's services promise the same kind of thing again and again: never
dispatch twice, never undercount, never forget uncertainty, across crashes,
restarts and concurrent callers. This project models six of them and proves those
promises for every run.

Each machine is a set of functions on values (what one critical section or one
system call computes), a `Run` that folds an arbitrary list of labelled steps
(calls of any caller, failures, crashes, restarts, power losses), an invariant that
every step keeps, and theorems over whole runs. Beside what never happens they say
what does: when exactly a request is served and what is then recorded. Where the service changes an object
in place there is also a class whose methods are proved to compute those functions.

| part | modules |
|---|---|
| strict budget ledger | `Ledger`, `LedgerRuns`, `LedgerTheorems`, `LedgerProgress`, `Limits` (classes), `Pricing` |
| streaming relay | `Sse`, `Chunked`, `Json`, `Protocol`, `Relay`, `RelayTheorems`, `ResponsesTheorems`, `ChatTheorems` |
| control engine and its diff | `Pointer`, `Order`, `Diff`, `DiffTheorems`, `Engine`, `EngineState`, `EngineRuns`, `EngineTheorems`, `EngineLimits`, `EngineOrigins`, `EngineOutcomes`, `Control` (classes) |
| worker publication and queue | `Publication`, `PublicationRuns`, `Reservations`, `Folder` (class), `Totals`, `Trees`, `Retained`, `Queue`, `QueueRuns`, `QueueTheorems`, `Worker` (class) |
| worker review | `Review` (with class) |
| host API receipts | `HostApi`, `HostService` (with class), `HostOutcomes` |
| connector leases | `Connector` (with class) |

`Wrappers` holds the shared value types. `dafny verify dfyconfig.toml` checks the
whole project.

## How the world is modelled

- A file replaced atomically ends in one of three ways: refused before the exchange,
  exchanged with an error reported, or exchanged and synced (`Fate`). Readers see one
  image; a power loss leaves the last synced one.
- A private directory is a map from names to files, with link counts, the earlier
  listings a power loss may still bring back (in order), and files whose unsynced
  content is lost.
- Interruption of a multi-call operation is a number of calls that still succeed, so
  one contract covers every crash point. The relay goes on after a failed call, so
  there an arbitrary predicate says which calls succeed.
- Threads interleave at lock boundaries; clocks, provider bytes, process exits,
  directory orders and I/O failures are arbitrary inputs.
- Digests, UTF-8, JSON and TOML codecs are parameters. TOML written from a value is
  assumed to read back as it. Digests are assumed distinct only on the finitely many
  documents a run digests (`NoCollisions`): no digest is injective on everything.

## Where the code does not keep a promise

Six promises hold under a condition that is made exact here.

- A pending job's result interrupted between creating and publishing its staging
  directory is never completed by any sequence of retries and recoveries: the
  directory blocks every retry, and recovery only clears the staging of running
  claims (`QueueTheorems.InterruptedFinishSticks`).
  Finishing succeeds exactly when storage can be reserved and no such directory is
  left (`QueueTheorems.FinishSucceedsIff`).
- A retried worker decision may be answered from a receipt whose directory sync
  failed; a power loss can then be followed by the opposite answer
  (`Review.UnsyncedReplyHappens`, `Review.UnsyncedReplyCanBeContradicted`). Replies
  about synced decisions, or without power loss, always agree
  (`Review.RetriesAgree`).
- The host API commits `recorded` for such an answer, so after a power loss its
  receipt can outlive the decision (`HostService.UnsyncedReceiptHappens`,
  `HostService.UnsyncedReceiptCanOutliveItsDecision`). A receipt answered from a
  synced decision, or any without power loss, tells the truth
  (`HostService.ReceiptsTellTheTruth`).
- A drain that removed the marker but could not sync that stops before it processes
  anything, so the decisions it would have served wait for the service manager to
  restart it (`Review.StumbleLeavesUnserved`). In runs without such a drain every
  recorded decision has its marker in place or a drain that got past it
  (`Review.NoUnservedWakeup`).
- Startup recovery makes the control service's receipts longer by 30 or 28 bytes for
  each queued or running build, and a file over 32 MiB is refused. An image that was
  written within the limit can therefore be refused at every later start
  (`EngineLimits.StrandedHappens`, a run of 64 proposals, and
  `EngineLimits.StrandedForever`). Opening succeeds exactly when the image and those
  bytes, at most 120, fit, the write is synced and the deployment has not drifted
  (`EngineLimits.OpensIfRecoveryFits`).
- The connector's epoch check is exact in every run with fewer changes than there
  are 64-bit epochs (`Connector.WritesFollowChecks`). For every number of
  changes from there on some run passes a check after a rotation (`Connector.BoundIsTight`), and
  one change past the wrap even another token is installed
  (`Connector.WrappedEpochDeceives`).

## Model

| member | source | states |
|---|---|---|
| `Limits.StateFile.Replace` | crates/tentaflake-broker/src/state.rs:995-1041 | the visible and the durable record after an atomic replacement that fails before or after the exchange; success means both hold the new record |
| `Limits.Limits.Verify` | crates/tentaflake-broker/src/state.rs:564-578 | owner, readability, identity with memory and clock are checked in the order the ledger demands |
| `Limits.Limits.Checkpoint` | crates/tentaflake-broker/src/state.rs:850-858 | a refusal moves the last-seen clock on disk, and keeps memory if that fails |
| `Limits.Limits.Persist` | crates/tentaflake-broker/src/state.rs:556-562 | a failed persist sets the permanent failure flag |
| `Limits.Limits.Reserve` | crates/tentaflake-broker/src/state.rs:437-554 | the whole admission: flags, orphaned guards, day rollover, rate window, daily budgets, charge, persist; equal to the ledger's specification |
| `Limits.Limits.ExhaustForOverage` | crates/tentaflake-broker/src/state.rs:580-598 | an overage raises the persisted counters to their maxima |
| `Limits.Limits.ReleaseUsage` | crates/tentaflake-broker/src/state.rs:600-623 | a released guard lowers the pending count unless its overage was never recorded |
| `Limits.Limits.Settle` | crates/tentaflake-broker/src/state.rs:625-653 | a settled reservation lowers the unsettled count of its own day only |
| `Limits.LoadStrict` | crates/tentaflake-broker/src/state.rs:339-399 | a broker starts only from a readable record and a clock that did not go back |
| `Limits.ReconcileStrict` | crates/tentaflake-broker/src/state.rs:304-317 | an operator clears the holds without refunding anything |
| `Limits.UsageGuard.Observe` | crates/tentaflake-broker/src/state.rs:230-241 | an overage raises the flag, marks the guard, exhausts the day, and is undone only after success |
| `Limits.UsageGuard.Drop` | crates/tentaflake-broker/src/state.rs:242-247 | a dropped guard releases its usage unless its overage is unrecorded |
| `Limits.Reservation.Settle` | crates/tentaflake-broker/src/state.rs:204-209 | settling consumes the capability |
| `Limits.Reservation.Drop` | crates/tentaflake-broker/src/state.rs:210-218 | only a reservation that was never dispatched settles on drop |
| `LedgerRuns.RunSound` | crates/tentaflake-broker/src/state.rs:437-653 | the invariant of every run: totals covered by the record, holds remembered on both images, overages remembered in flags, counters or guards |
| `LedgerTheorems.DailyBudgetsHold` | crates/tentaflake-broker/src/state.rs:437-554 | for every day and every run with crashes, power losses, restarts and arbitrary clocks, admitted requests, tokens and cost stay within the daily budgets |
| `LedgerTheorems.LedgerNeverGoesBack` | crates/tentaflake-broker/src/state.rs:837-858 | over a run the durable day and last-seen clock never go back, and between power losses neither do the visible ones |
| `LedgerTheorems.OverageBlocksAdmission` | crates/tentaflake-broker/src/state.rs:229-247 | after a raised overage, a positive charge is admitted only if in between a later day opened with every guard released and every reservation settled, or a reconciliation took effect; under every interleaving of observers |
| `LedgerTheorems.OverageHolds` | crates/tentaflake-broker/src/state.rs:437-489 | one step's form: while an overage is remembered, only opening a day with no unreleased guard admits |
| `LedgerTheorems.RaisersPersist` | crates/tentaflake-broker/src/state.rs:580-623 | nothing but a clean new day or a reconciliation that took effect forgets an overage; a refused one does not |
| `LedgerTheorems.OrphanedGuardBlocks` | crates/tentaflake-broker/src/state.rs:473-489 | a guard whose broker died stays pending and blocks every admission of every later broker, across crashes, restarts and days, until a reconciliation takes effect |
| `LedgerTheorems.DayOpensOnlyWhenSettled` | crates/tentaflake-broker/src/state.rs:473-489 | a day opens only with nothing outstanding and nothing unreleased, whichever broker handed it out |
| `LedgerTheorems.NoLaterDayWhileOutstanding` | crates/tentaflake-broker/src/state.rs:473-489 | no admission on a later day while a dispatched reservation is unsettled |
| `LedgerTheorems.EachReservationSettlesOnce` | crates/tentaflake-broker/src/state.rs:194-218 | each reservation lowers the unsettled count at most once in a run |
| `LedgerTheorems.CountsAreExact` | crates/tentaflake-broker/src/state.rs:600-653 | without failed persists or power loss the persisted counts are exactly the outstanding reservations and guards |
| `LedgerProgress.SettledLedgerAdmitsNextDay` | crates/tentaflake-broker/src/state.rs:473-554 | with everything settled and released the next day admits, as long as the broker's own admissions leave room in the window |
| `LedgerProgress.WoundDownLedgerAdmits` | crates/tentaflake-broker/src/state.rs:600-653 | whatever the order in which open reservations settle and guards are dropped, when none is left the next day admits |
| `LedgerProgress.RateIsCounted` | crates/tentaflake-broker/src/state.rs:490-495 | a running broker's rate count is the number of its own admissions in the window it is about, and there are none in later windows |
| `LedgerProgress.RateLimitHolds` | crates/tentaflake-broker/src/state.rs:490-506 | in every run no broker admits more requests in one window than configured |
| `LedgerProgress.AdmissionIsExact` | crates/tentaflake-broker/src/state.rs:437-554 | a request is admitted if and only if nothing holds it, the broker can write and persists, its own admissions leave room in the window and the record in the day; it is refused for its rate only in a full window |
| `LedgerProgress.AdmissionCharges` | crates/tentaflake-broker/src/state.rs:519-553 | an admission writes exactly its own charge, on today's counters or on a day that starts from nothing |
| `LedgerProgress.RefusalCheckpoints` | crates/tentaflake-broker/src/state.rs:850-858 | a refusal by a limit or a hold moves the stored clock on both images |
| `LedgerProgress.RefusalNames` | crates/tentaflake-broker/src/state.rs:445-518 | which hold or limit a refusal names |
| `LedgerProgress.KnownOutcomeSettles` | crates/tentaflake-broker/src/state.rs:625-653 | settling, and dropping a reservation that was never dispatched, lowers the count by exactly one whenever the broker can write and persists |
| `LedgerProgress.DroppedGuardReleases` | crates/tentaflake-broker/src/state.rs:600-623 | dropping a guard lowers the pending count by exactly one, unless its overage was never recorded |
| `LedgerProgress.OverageIsRecorded` | crates/tentaflake-broker/src/state.rs:580-598 | an observed overage reaches both images whenever the broker can write and persists |
| `LedgerProgress.StartsIff` | crates/tentaflake-broker/src/state.rs:339-399 | a broker starts if and only if it owns a readable record, the clock did not go back and the reading is stored |
| `LedgerProgress.ReconcilesIff` | crates/tentaflake-broker/src/state.rs:304-317 | reconciliation clears every hold and no charge, if and only if it owns a readable record, the clock did not go back and it persists |
| `LedgerTheorems.ChargeReadableIff` | crates/tentaflake-broker/src/state.rs:806-835 | a charged record passes the reader's checks if and only if its token and cost counters, the charge included, are positive; strict mode only charges positive amounts (`Pricing.ChargeIsPositive`) |
| `LedgerTheorems.EveryRecordIsReadable` | crates/tentaflake-broker/src/state.rs:806-835 | with positive charges every record left at any crash point passes the reader's own checks |
| `Pricing.EstimateIsCeiling` | crates/tentaflake-broker/src/broker.rs:551-556 | the estimate is the least whole amount covering the exact price, and absent exactly when that does not fit 64 bits |
| `Pricing.EstimateMonotone` | crates/tentaflake-broker/src/broker.rs:551-556 | more tokens never cost less |
| `Pricing.ChargeIsPositive` | crates/tentaflake-broker/src/broker.rs:195-221 | with validated prices every reservation is a positive charge |
| `Pricing.Completion` | crates/tentaflake-broker/src/broker.rs:195-204 | the smaller of the requested completion and the policy's ceiling |
| `Pricing.ChargeIsExact` | crates/tentaflake-broker/src/broker.rs:212-217 | a charge exists if and only if the completion is positive and the sums fit; it is body plus completion and the least whole amount covering their price |
| `Pricing.ReservationCoversUsage` | crates/tentaflake-broker/src/broker.rs:212-217 | usage within the reserved counts is never an overage, usage of more tokens always is |
| `Pricing.OverageIsExact` | crates/tentaflake-broker/src/broker.rs:572-601 | the guard fires exactly when reported usage exceeds the reservation in unbounded arithmetic |
| `Sse.SseParser.Push` | crates/tentaflake-broker/src/streaming.rs:345-370 | one byte of the incremental parser |
| `Sse.ParserRefinesSpec` | crates/tentaflake-broker/src/streaming.rs:326-371 | the parser refines "normalise line endings, then cut after each blank line": same frames, same failure, same residue, for every input |
| `Sse.NothingLost` | crates/tentaflake-broker/src/streaming.rs:326-371 | frames plus residue concatenate to the normalised input and no frame exceeds the limit |
| `Sse.OnlyNormalFormMatters` | crates/tentaflake-broker/src/streaming.rs:345-370 | inputs with equal normal forms give equal frames and errors |
| `Sse.NormalizeSplit` | crates/tentaflake-broker/src/streaming.rs:345-360 | texts normalise piece by piece, except inside a CRLF |
| `Sse.NormalForms` | crates/tentaflake-broker/src/streaming.rs:345-360 | each of CRLF, CR and LF becomes one LF and every other byte stays |
| `Sse.FrameShape` | crates/tentaflake-broker/src/streaming.rs:355-368 | a frame is what ends in its first blank line |
| `Sse.FramesReadBack` | crates/tentaflake-broker/src/streaming.rs:326-371 | well-formed frames written one after the other are read back whole and in order |
| `Sse.FailureIsExact` | crates/tentaflake-broker/src/streaming.rs:345-352 | the parser gives up if and only if what follows its frames is over the limit without a blank line within it |
| `Chunked.DecodeEncodeAll` | crates/tentaflake-broker/src/streaming.rs:306-311 | the chunks and the last chunk decode (section 7.1 of RFC 9112) to exactly the forwarded bytes |
| `Chunked.TruncationIsNeverComplete` | crates/tentaflake-broker/src/streaming.rs:259-320 | no strict prefix of a terminated body decodes as complete |
| `Protocol.Checker.CollectFields` | crates/tentaflake-broker/src/streaming.rs:410-420 | the loop over a frame's lines collects exactly the data lines and the event name |
| `Protocol.Checker.CheckChoices` | crates/tentaflake-broker/src/streaming.rs:515-549 | the loop over choices accepts exactly well-formed ones and notes a finish reason |
| `Protocol.Checker.Inspect` | crates/tentaflake-broker/src/streaming.rs:401-560 | one frame's verdict and the protocol state after it |
| `Relay.WriteChunk` | crates/tentaflake-broker/src/streaming.rs:306-309 | a chunk is written if and only if none of its writes fails; otherwise a strict prefix of it is |
| `Relay.Forward` | crates/tentaflake-broker/src/streaming.rs:291-309 | the response head precedes the first forwarded frame, once; forwarding succeeds exactly when no write and no audit record fails |
| `Relay.RelayFrame` | crates/tentaflake-broker/src/streaming.rs:283-318 | with nothing failing, the frame is dropped, forwarded, ends the body or aborts it exactly as its verdict says; otherwise it aborts, leaving a strict prefix |
| `Relay.RelayStream` | crates/tentaflake-broker/src/streaming.rs:259-320 | for any chunking of the provider's bytes up to the response limit: if nothing outside fails, the outcome and the client's bytes are those of the walk over them, so a terminal event within the limit completes the body; otherwise it is aborted with a strict prefix. At most seven outside calls for each frame |
| `Relay.WithinFits` | crates/tentaflake-broker/src/streaming.rs:265-281 | the reads that are relayed are the longest run from the start that fits the response limit |
| `Relay.Drain` | crates/tentaflake-broker/src/streaming.rs:204-220 | a refusal's body is drained exactly when it fits the response limit and no read fails |
| `Relay.WriteTo` | crates/tentaflake-broker/src/streaming.rs:99-163 | a stream is settled exactly when it completed; a refusal exactly when it was read completely, audited and passed on; what the client then holds, the broker's own error body before the response head included |
| `RelayTheorems.ClientBodyIsProviderSlice` | crates/tentaflake-broker/src/streaming.rs:259-320 | the client's decoded body is a slice of the normalised provider bytes: from the first data-carrying frame to right after the terminal one |
| `RelayTheorems.AbortNeverLooksComplete` | crates/tentaflake-broker/src/streaming.rs:259-320 | no abort leaves a body that decodes as complete |
| `RelayTheorems.CompletionIsEarned` | crates/tentaflake-broker/src/streaming.rs:428-554 | a chat stream completes only after a finish reason; with an expected model every frame named that model and one completion |
| `ChatTheorems.LineYields` | crates/tentaflake-broker/src/streaming.rs:410-420 | `data` adds its value in order and `event` sets the name, with one space after the colon dropped; any other field adds nothing |
| `ChatTheorems.EveryLineGives` | crates/tentaflake-broker/src/streaming.rs:413-414 | every line has one of the forms `LineYields` is about |
| `ChatTheorems.LinesJoin` | crates/tentaflake-broker/src/streaming.rs:412 | lines hold no line break and join to the text |
| `ChatTheorems.MarksDropped` | crates/tentaflake-broker/src/streaming.rs:404-408 | only leading byte order marks are dropped |
| `ChatTheorems.ModelNames` | crates/tentaflake-broker/src/broker.rs:606-619 | exactly the requested name and its dated snapshots confirm a model |
| `ChatTheorems.FinishReasons` | crates/tentaflake-broker/src/streaming.rs:533-546 | the five finish reasons |
| `ChatTheorems.ChoicesAccepted` | crates/tentaflake-broker/src/streaming.rs:515-549 | choices are accepted if and only if each is acceptable, and finish if and only if one does |
| `ChatTheorems.ChatStreamCompletes` | crates/tentaflake-broker/src/streaming.rs:428-560 | chunks of the expected model and one completion, a finish reason among them, then the end marker: the stream completes and is forwarded whole |
| `ChatTheorems.ChatErrorEnds` | crates/tentaflake-broker/src/streaming.rs:484-485 | an error object after any such chunks ends the stream as failed |
| `ResponsesTheorems.OutcomeIsAnnounced` | crates/tentaflake-broker/src/streaming.rs:460-483 | a Responses stream ends on the first event whose type announces an outcome, with that outcome, confirmed by the event's own status |
| `ResponsesTheorems.AnnouncedOutcomeEnds` | crates/tentaflake-broker/src/streaming.rs:460-483 | allowed events that announce nothing, then one that announces an outcome: the stream ends with that outcome |
| `Pointer.UnescapeEscape` | crates/tentaflake-control/src/lib.rs:383 | a reference token decodes back (section 4 of RFC 6901) |
| `Pointer.EscapesOfTheStandard` | crates/tentaflake-control/src/lib.rs:383 | the escapes of section 3 of RFC 6901 |
| `Pointer.ParseRender` | crates/tentaflake-control/src/lib.rs:383-393 | a rendered path parses back to its tokens (section 3 of RFC 6901) |
| `Diff.Diff` | crates/tentaflake-control/src/lib.rs:376-404 | the recursion appends exactly the reports of the specified difference |
| `Diff.DiffKeys` | crates/tentaflake-control/src/lib.rs:380-390 | the loop over the keys of either object, in order |
| `Diff.DiffArrays` | crates/tentaflake-control/src/lib.rs:391-400 | the loop over the indices of either array |
| `DiffTheorems.EmptyIffEqual` | crates/tentaflake-control/src/lib.rs:376-404 | no difference is reported if and only if the documents are equal |
| `DiffTheorems.EveryChangeTells` | crates/tentaflake-control/src/lib.rs:376-404 | every reported location was added, removed or changed as stated |
| `DiffTheorems.AgreeElsewhere` | crates/tentaflake-control/src/lib.rs:376-404 | the documents agree at every location not below or above a reported one |
| `DiffTheorems.DifferenceApart` | crates/tentaflake-control/src/lib.rs:376-404 | no reported location lies below another |
| `DiffTheorems.ReportsAreExact` | crates/tentaflake-control/src/lib.rs:376-404 | the path strings decode to those locations and are distinct |
| `Control.Receipts.Atomic` | crates/tentaflake-control/src/storage.rs:158-197 | the receipts file and its durable image after a replacement that is refused over the size limit or fails on either side of the rename |
| `Control.Service.Persist` | crates/tentaflake-control/src/lib.rs:451-462 | a failed publication closes the writer for good |
| `Control.Check` | crates/tentaflake-control/src/lib.rs:253-341 | the load-time validator decides the specified validity |
| `Control.FirstQueued` | crates/tentaflake-control/src/lib.rs:839-847 | the first queued build in key order |
| `Control.Service.Accept` | crates/tentaflake-control/src/lib.rs:638-673 | every refusal of a draft, in order, and the candidate it becomes |
| `Control.Service.Propose` | crates/tentaflake-control/src/lib.rs:631-692 | proposing, with replay and publication |
| `Control.Service.Approve` | crates/tentaflake-control/src/lib.rs:693-741 | approving, with every comparison of revisions and hashes |
| `Control.Service.Queue` | crates/tentaflake-control/src/lib.rs:742-823 | queueing a build: approval, capacity, one build for each approval |
| `Control.Service.Claim` | crates/tentaflake-control/src/lib.rs:827-881 | claiming durably before the builder runs |
| `Control.Service.ClaimQueued` | crates/tentaflake-control/src/lib.rs:848-881 | the claimed build is failed, left or started according to source, hashes and builder |
| `Control.Service.Finish` | crates/tentaflake-control/src/lib.rs:882-900 | a finished build is built or failed, in memory even when publication is closed |
| `Control.OpenState` | crates/tentaflake-control/src/lib.rs:418-450 | opening checks the length, validates, retires active builds, publishes and checks the deployment |
| `EngineState.SoundValidates` | crates/tentaflake-control/src/lib.rs:253-341 | the engine's invariant, with every record named by its own request, implies the validator, capacity bounds included |
| `EngineState.DraftKeeps` | crates/tentaflake-control/src/lib.rs:631-692 | a proposal keeps the invariant and loses no receipt |
| `EngineState.ApproveKeeps` | crates/tentaflake-control/src/lib.rs:693-741 | an approval keeps the invariant and loses no receipt |
| `EngineState.QueueKeeps` | crates/tentaflake-control/src/lib.rs:742-823 | a queued build keeps the invariant and loses no receipt |
| `EngineState.RecoverKeeps` | crates/tentaflake-control/src/lib.rs:441-447 | recovery keeps the invariant and leaves nothing queued or building |
| `EngineRuns.RunSound` | crates/tentaflake-control/src/lib.rs:413-900 | the invariant of every run: both images sound, the service published or closed, work dispatched once, replies recorded |
| `EngineTheorems.EveryImageOpens` | crates/tentaflake-control/src/lib.rs:418-462 | every image left at any crash point fits and validates, and opening succeeds if and only if recovery leaves it within the size limit and can be published and the deployment has not drifted |
| `EngineLimits.OpensIfRecoveryFits` | crates/tentaflake-control/src/lib.rs:428-449 | opening succeeds if and only if the image's length plus 30 bytes for each queued and 28 for each running build is within the limit, the write is synced and the deployment has not drifted; those bytes are at most 120 |
| `EngineLimits.StrandedForever` | crates/tentaflake-control/src/storage.rs:158-161 | a durable image that recovery makes too long is refused at every restart and never changes |
| `EngineLimits.StrandedHappens` | crates/tentaflake-control/src/storage.rs:158-161 | a run of synced publications whose last image no later run can open |
| `EngineTheorems.EachBuildIsHandedOutOnce` | crates/tentaflake-control/src/lib.rs:827-881 | no build is given to the builder twice over all restarts |
| `EngineTheorems.BuildsStayBounded` | crates/tentaflake-control/src/lib.rs:777-822 | in both images one build for each approval, at most four active, at most one building |
| `EngineTheorems.ReceiptsOnlyGrow` | crates/tentaflake-control/src/lib.rs:441-447 | durable receipts are never lost or rewritten and builds only move forward to a terminal state; between power losses the same holds of the file readers see |
| `EngineTheorems.NothingIsRedispatched` | crates/tentaflake-control/src/lib.rs:441-447 | what was durable when a service stopped is never dispatched afterwards |
| `EngineOrigins.RequestsDiffer` | crates/tentaflake-control/src/lib.rs:634-745 | different requests, on any route, have different fingerprint documents |
| `EngineOrigins.RepliesAreExact` | crates/tentaflake-control/src/lib.rs:558-572 | over all restarts a request id answered with a record belongs to one request and one record |
| `EngineOrigins.AcceptanceCarriesOver` | crates/tentaflake-control/src/lib.rs:856-863 | equal digests carry a candidate's acceptance over to the deployment and source of the claim |
| `EngineOrigins.WorkRespectsTheSandbox` | crates/tentaflake-control/src/lib.rs:827-881 | every configuration given to the builder has a sandbox at least as strong as the current minimum and the current source, although claiming compares only digests |
| `EngineOutcomes.FinishRecords` | crates/tentaflake-control/src/lib.rs:882-900 | a reported path makes a running build built with that path and a failure failed without one, in both images, if and only if a writer that is not closed publishes it; nothing else changes |
| `EngineOutcomes.OutputsAreReported` | crates/tentaflake-control/src/lib.rs:882-900 | in every run and either image a build is built with a path only if the builder it was given to reported that path |
| `EngineOutcomes.RecoveryRetires` | crates/tentaflake-control/src/lib.rs:441-447 | recovery makes queued and running builds unknown and changes nothing else |
| `EngineOutcomes.SandboxPolicy` | crates/tentaflake-control/src/lib.rs:523-545 | which profiles a deployment and a source allow |
| `EngineOutcomes.ProposalServedIff` | crates/tentaflake-control/src/lib.rs:631-692 | a new draft is served if and only if it is acceptable and published, and what is recorded |
| `EngineOutcomes.ApprovalServedIff` | crates/tentaflake-control/src/lib.rs:693-741 | a new approval is served if and only if what it names is the proposal's and still current, and it records what it named |
| `EngineOutcomes.BuildServedIff` | crates/tentaflake-control/src/lib.rs:742-823 | a new build is queued if and only if its approval is unspent and agrees with request, proposal and deployment, and fewer than four are active |
| `EngineOutcomes.RepeatAnswered` | crates/tentaflake-control/src/lib.rs:558-572 | a used request id answers with its own record or a conflict and changes nothing |
| `EngineOutcomes.ClosedWriterRefuses` | crates/tentaflake-control/src/lib.rs:451-462 | a closed writer serves and hands out nothing |
| `EngineOutcomes.ClaimHandsOutIff` | crates/tentaflake-control/src/lib.rs:848-881 | the first queued build is handed out with its candidate's TOML if and only if source and hashes still stand, a builder is configured and the start is published; otherwise it fails or waits |
| `Folder.Folder.WritePrivate` | crates/tentaflake-worker/src/queue.rs:78-111 | the directory after any number of its system calls; success exactly when all of them happened and the name was free |
| `Folder.Folder.WriteAndSync` | crates/tentaflake-worker/src/queue.rs:95-104 | an interrupted write leaves a prefix of the content |
| `Folder.Folder.ReadPublished` | crates/tentaflake-worker/src/review.rs:88-117 | the reader's link-count check and its bound |
| `Folder.Folder.RecoverStaging` | crates/tentaflake-worker/src/queue.rs:199-243 | rejects exactly the unexplained directories, changing nothing; otherwise removes every staging name, or part of them only when its calls run out |
| `Publication.PublicationIsAtomic` | crates/tentaflake-worker/src/queue.rs:78-111 | at every interruption and for every listing a power loss may bring back, the final name is absent or whole and nothing published changes |
| `Publication.PublicationProgress` | crates/tentaflake-worker/src/queue.rs:107-110 | a fresh name appears exactly with the link, and after the last call it is all that changed, durably |
| `Publication.ReaderAcceptsFinals` | crates/tentaflake-worker/src/review.rs:97-110 | the reader refuses a link exactly when the name is a staging name still linked to its final name |
| `PublicationRuns.ReadsAreWhole` | crates/tentaflake-worker/src/review.rs:88-117 | over a directory's whole life the reader never meets an unexpected link and returns only whole contents given to that name |
| `PublicationRuns.NeverReplaced` | crates/tentaflake-worker/src/queue.rs:83-107 | a published name keeps its file and content until removed or power is lost |
| `Reservations.RecoveryAccepts` | crates/tentaflake-worker/src/queue.rs:199-243 | recovery accepts whatever interrupted reservations, recoveries and power losses leave |
| `Reservations.ExplainedIff` | crates/tentaflake-worker/src/queue.rs:207-230 | a hidden name is explained if and only if it is a job's staging, empty, and its file has no other name than that job's receipt |
| `Reservations.ReceiptKeptIffLinked` | crates/tentaflake-worker/src/queue.rs:222-238 | recovery keeps the receipt if and only if the interrupted write had linked it, and every other receipt |
| `Reservations.ReceiptKeptAcrossPowerLoss` | crates/tentaflake-worker/src/queue.rs:199-243 | with a power loss after the interruption: a receipt linked and synced is kept, and a kept one had been linked |
| `Trees.Scan` | crates/tentaflake-worker/src/queue.rs:368-412 | in any listing order the scan succeeds exactly when the tree is allowed and fits, and leaves the budget less its usage |
| `Trees.AllowedEverywhere` | crates/tentaflake-worker/src/queue.rs:368-412 | a tree is allowed if and only if every node at every path is |
| `Trees.EntryAdds` | crates/tentaflake-worker/src/queue.rs:380-405 | each entry counts once, with what lies below it |
| `Retained.VisitTree` | crates/tentaflake-worker/src/queue.rs:332-356 | one retained tree is charged to its job, and to the totals unless the job's worst case already is |
| `Retained.VisitClaim` | crates/tentaflake-worker/src/queue.rs:310-331 | one running claim is charged its worst case |
| `Retained.CheckRetained` | crates/tentaflake-worker/src/queue.rs:245-366 | whatever the directory order, accepts exactly the specified storage and returns the worst case for each running job plus the actual usage of the others |
| `QueueRuns.FullIsWorstCase` | crates/tentaflake-worker/src/queue.rs:180-194 | the worst case of a job: two snapshots, its log and 16 KiB, and 8 entries more than two snapshots |
| `QueueRuns.RoomIffClaimFits` | crates/tentaflake-worker/src/queue.rs:414-427 | there is room for a job if and only if the storage with that job claimed is accepted |
| `Worker.Worker.Reservable` | crates/tentaflake-worker/src/queue.rs:414-432 | storage can be reserved exactly when the scan accepts and the worst case of one more job fits |
| `Worker.Worker.FinishWithoutRun` | crates/tentaflake-worker/src/main.rs:1329-1359 | a result without a run, interrupted after any step |
| `Worker.Worker.Retire` | crates/tentaflake-worker/src/queue.rs:488-502 | a claim is removed only with a matching terminal result, after its approval; with one, only an interruption stops it |
| `Worker.Worker.RecoverJob` | crates/tentaflake-worker/src/queue.rs:541-578 | one abandoned claim is retired unless interrupted, and interrupted anywhere still recovers to the same state, in order |
| `Worker.Worker.Recover` | crates/tentaflake-worker/src/queue.rs:504-580 | on an orderly queue it stops only when interrupted, within seven calls for each claim; completed, every claim is retired with a result; interrupted anywhere, running it again ends in the same state |
| `Worker.RecoverReachable` | crates/tentaflake-worker/src/queue.rs:504-580 | recovery of every queue a run can reach: given more than seven calls for each claim it empties the claims, leaves each a result, keeps pending requests and earlier results; given fewer it stays orderly and recovers to the same state |
| `QueueRuns.RunKept` | crates/tentaflake-worker/src/queue.rs:414-502 | the invariant of every run: accepted storage, requests that agree with their results |
| `QueueTheorems.StorageStaysWithin` | crates/tentaflake-worker/src/queue.rs:245-455 | every reachable state is accepted by the allocator, and actual bytes, entries and results stay within their ceilings |
| `QueueTheorems.EachJobIsClaimedOnce` | crates/tentaflake-worker/src/queue.rs:434-455 | no job is claimed twice, whatever is submitted, retired or recovered |
| `QueueTheorems.ResultsAreFinal` | crates/tentaflake-worker/src/queue.rs:582-609 | a terminal result is never replaced or lost |
| `QueueTheorems.RecoveryIsComplete` | crates/tentaflake-worker/src/queue.rs:504-580 | the recovered state has no claims and a result for each earlier one, keeps earlier results, pending requests and everything of other jobs, and is a fixed point |
| `QueueTheorems.FinishSucceedsIff` | crates/tentaflake-worker/src/main.rs:1335-1356 | finishing succeeds if and only if storage can be reserved and no staging directory is left |
| `QueueTheorems.FinishRecords` | crates/tentaflake-worker/src/main.rs:1335-1356 | a finish that succeeds leaves the result as given and nothing else changed |
| `QueueTheorems.InterruptedFinishSticks` | crates/tentaflake-worker/src/main.rs:1341-1356 | after a pending job's finish was interrupted before publishing, no sequence of further finishes and recoveries gives it a result, and every finish after any of them fails |
| `Review.ReviewQueue.DecideCommand` | crates/tentaflake-worker/src/review.rs:320-422 | every refusal in order, then the marker, then the decision, each publication ending in any way |
| `Review.ReviewQueue.ConsumeDrainRequest` | crates/tentaflake-worker/src/queue.rs:8-14 | consuming the marker, interrupted on either side |
| `Review.DecisionRecordedIff` | crates/tentaflake-worker/src/review.rs:320-422 | a new decision is recorded if and only if it is due and its marker was synced before, and the caller is told so if and only if it is synced, too |
| `Review.RefusalsAreExact` | crates/tentaflake-worker/src/review.rs:340-395 | what a repeated, unknown or conflicting decision is told |
| `Review.DrainConsumes` | crates/tentaflake-worker/src/queue.rs:8-14 | what is left of the marker after each ending of a drain's removal |
| `Review.NoLostWakeup` | crates/tentaflake-worker/src/review.rs:397-410 | in every reachable state, power losses included, a recorded decision has its marker in place or a drain that started after it |
| `Review.NoUnservedWakeup` | crates/tentaflake-worker/src/queue.rs:8-14 | in every run without such a drain, power losses included, a recorded decision has its marker in place or a drain that got past it after the decision |
| `Review.StumbleLeavesUnserved` | crates/tentaflake-worker/src/main.rs:430 | a drain whose removal of the marker is not synced leaves new decisions without marker and unprocessed |
| `Review.StumbleHappens` | crates/tentaflake-worker/src/review.rs:397-410 | one accepted decision reaches the state such a drain spoils |
| `Review.DecisionsAreFinal` | crates/tentaflake-worker/src/review.rs:346-351 | synced decisions are never replaced; without power loss no recorded one is |
| `Review.RetriesAgree` | crates/tentaflake-worker/src/review.rs:346-351 | later replies about a job repeat an earlier one that was synced, or any if power is not lost |
| `Review.UnsyncedReplyHappens` | crates/tentaflake-worker/src/review.rs:346-410 | a retry can be answered from an unsynced receipt before any drain |
| `Review.UnsyncedReplyCanBeContradicted` | crates/tentaflake-worker/src/review.rs:346-410 | every such answer about a job no drain has seen has a continuation that contradicts it |
| `HostApi.RunSound` | host-api/tentaflake_host_api.py:819-1077 | the invariant of every run, power losses included: one thread holds the action lock, receipts tell the truth about their dispatch |
| `HostService.EachActionRunsOnce` | host-api/tentaflake_host_api.py:1009-1077 | no request id reaches systemctl twice, under every interleaving and restart |
| `HostService.EachDecisionIsDispatchedOnce` | host-api/tentaflake_host_api.py:819-925 | no request id reaches a worker twice |
| `HostService.ReceiptsTellTheTruth` | host-api/tentaflake_host_api.py:858-908 | failed means that dispatch recorded no decision; recorded means the worker holds exactly that decision, if it was synced when answered or no power was lost, and durably if it was synced |
| `HostService.UnsyncedReceiptHappens` | host-api/tentaflake_host_api.py:858-908 | for every decision two requests reach a recorded receipt that is not on stable storage |
| `HostService.UnsyncedReceiptCanOutliveItsDecision` | host-api/tentaflake_host_api.py:858-908 | a decision not on stable storage is gone after a power loss while its receipt is unchanged |
| `HostService.ReceiptsAreBound` | host-api/tentaflake_host_api.py:819-828 | an id is bound to one request forever, and a recorded or failed receipt never changes state |
| `HostOutcomes.ActionOutcomesAreReal` | host-api/tentaflake_host_api.py:1052-1063 | in every run a stored action is succeeded only if its systemctl exited with zero and failed only if it exited otherwise |
| `HostOutcomes.QueuedDrainsWereStarted` | host-api/tentaflake_host_api.py:893-914 | in every run a drain is queued only if the worker's start was asked for after the commit and exited with zero |
| `HostService.Service.Action` | host-api/tentaflake_host_api.py:994-1077 | one host action: replay, receipt before dispatch, outcome; a new one is answered if and only if there is room, no other runs and the receipt is stored, and then with what its exit code says |
| `HostService.Service.ToolDecision` | host-api/tentaflake_host_api.py:793-925 | one worker decision: receipt, dispatch, commit before scheduling, last update; a new one is answered with what the worker said and whether its start was scheduled |
| `HostService.Service.RunWorker` | host-api/tentaflake_host_api.py:858-893 | a receipt is recorded exactly if the worker said so and failed exactly on one of its explicit refusals |
| `Connector.RuntimeCredentials.Rotate` | crates/tentaflake-integrations/src/front.rs:64-94 | a rotation moves the epoch and installs its lease, or refuses; the counter wraps |
| `Connector.RuntimeCredentials.RevokeLease` | crates/tentaflake-integrations/src/front.rs:95-103 | a revocation moves the epoch and removes the lease |
| `Connector.RuntimeCredentials.Load` | crates/tentaflake-integrations/src/front.rs:112-135 | the credential is a copy of the unexpired installed lease |
| `Connector.RuntimeCredentials.Validate` | crates/tentaflake-integrations/src/front.rs:136-149 | valid exactly when the epoch's lease is installed and unexpired |
| `Connector.SlotsAreCounted` | crates/tentaflake-integrations/src/lib.rs:228-288 | the active count is the number of reads in flight and never exceeds the concurrency limit |
| `Connector.ChangesInstall` | crates/tentaflake-integrations/src/front.rs:64-103 | what a rotation and a revocation leave of epoch and lease |
| `Connector.QuietCallWrites` | crates/tentaflake-integrations/src/lib.rs:205-288 | a call that nothing disturbs writes the output its token fetched and gives its slot back |
| `Connector.NothingPassesWithout` | crates/tentaflake-integrations/src/front.rs:112-149 | no call gets further than its slot, its grant and an unexpired lease of its epoch allow |
| `Connector.WritesFollowChecks` | crates/tentaflake-integrations/src/front.rs:460-516 | in every run with fewer changes than epochs, every write of provider output follows a check at which nothing had been rotated or revoked since acceptance, and the fetching token was the installed one |
| `Connector.BoundIsTight` | crates/tentaflake-integrations/src/front.rs:83-87 | for every number of changes from the number of epochs on, some run writes after a check that missed a rotation |
| `Connector.WrappedEpochDeceives` | crates/tentaflake-integrations/src/front.rs:83-87 | one change past the number of epochs, a check passes although another token's lease is installed |

## Left out

- Sockets, TLS, HTTP framing of requests, peer credentials, deadlines and the response head's text: foreign calls or parameters.
- File ownership, mode bits, symbolic-link refusal and lock files: exclusive ownership is a held token, and only names, files, link counts and contents are modelled.
- SHA-256, JSON, TOML and UTF-8 internals, and the ledger's checksum: parameters, or covered by reading back the same record.
- Legacy (non-strict) budget mode, the quarantine store, audit logs, activity telemetry and metrics.
- Trailers and chunk extensions of the chunked coding: the relay never writes them.
- The control service's GET routes, request decoding and peer roles: shallow; roles appear as one permission bit.
- The bytes of `Work::execute`, container runtime calls, snapshots and artifact export: their only effect here is the trees a running job may hold.
- `remove_dir_all` in recovery is one step; partial removals appear as arbitrary trees of running jobs in the queue's runs.
- The mixture of names a filesystem without ordered metadata could leave after a power loss: listings come back as they were at some moment.
- Decision receipts inside `job_exists`, inbox scanning and queue entry ceilings: they only refuse more.
- Power loss in the queue's runs: claims, results and staging are covered by crashes between system calls; what a power loss leaves of one directory is `PublicationRuns` and `Reservations`, of decisions `Review`.
- EngineLimits.StrandedHappens: the serialised length of the receipts is a parameter, and in this run a sum of record lengths counted from their JSON form; no serialiser is modelled.
- Completion times and messages in results: recovery is compared without them.
- The host API's runner dispatch, logs, health and configuration proposals, and the connector's advisory store: smaller copies of the same receipt ideas.
- Protocol.Checker.Inspect: the usage observation inside inspection is not part of the verdict; its abort is one of the failures the relay's environment may choose in `Relay.RelayFrame`, its rule is `Pricing.OverageIsExact` and its effect `Limits.UsageGuard.Observe`.
- Connector.RuntimeCredentials.Load: the comparison of reference, provider, tenant and account is not modelled, because every caller passes the configured ones.
- Relay.WriteTo: starts with the provider's response; failures to build the request, to find the audit log ready and to send it are not modelled, because nothing was relayed yet.
- The connector's authorize and validate, and its validate and slot release, are one atomic step each, although the source takes the lock for each part.
- Grant expiry during a connector write is not tied to the write's check; the lease is.
