# ChipTrace verification

A Dafny model of the parts of ChipTrace that must not lose, change or double-count evidence, with proofs
over every input, every run and every crash point. `dafny verify dfyconfig.toml` checks all of it.

## What is modelled

**The Capture outbox** (`integrations/openai-gateway/durable-outbox.js`). `OutboxProtocol` is the protocol of
one Capture name as a state machine whose steps are single file operations (one link, one unlink, one append,
one read) and single stretches of code between awaits; a crash may fall between any two of them and drops all
memory. `OutboxSystem` runs any number of names together.

- What single activities come to is stated from the files and replies alone: `OutboxDelivery` for claims, replies
  and temporary files, `OutboxActivities` for begin, enqueue, finalization and recovery.
- Safety needs no assumption about callers (`OutboxSafety`): a record reported durable stays stored, byte for
  byte, until a Relay receipt for exactly its ID, length and hash was accepted, and no move overwrites anything.
- Cleanup before delivery (`OutboxCleanup`): nothing is claimed while the open metadata of its Capture is on
  disk. This needs two rules: metadata of an ID is published once at most, after `start()` has returned and
  under a name that was never enqueued; and the ID is not enqueued directly between that publishing and the
  return of the begin. Callers keep both by beginning an ID once, after `start()`, before any enqueue of it,
  and by enqueuing it only when the begin has returned.
- Convergence (`OutboxConvergence`) holds under three rules: metadata is published once as above; an ID whose
  metadata was published is not also enqueued directly; and periodic recovery still finds the metadata it has
  read when it asks who owns it. Begins that the code refuses itself, because a record exists or because they
  lose a race, are allowed.
- The code enforces none of these rules. Each is needed: `OutboxCounterexamples` gives, for each, a run that
  keeps the others and still ends with two acknowledged records for one Capture, a delivered record beside
  open metadata, a recovery that cannot go on, or a live stream whose files are gone.
- A crashed outbox can get running again (`OutboxProgress`) if and only if reservations are granted or no
  record has to be recovered. A record has to be recovered when metadata is on disk and no complete record is,
  neither stored nor in a temporary file. If its admission is refused, by its size or by the capacity, start-up
  recovery ends without a record and `start()` rejects, at every later attempt too until one is granted.
- `OpenReceipt` is the receipt check recovery relies on, `OutboxFiles` the file operations themselves,
  `QueueScan` the version-checked directory scan behind the metrics, `Capacity` the shared admission, and
  `SseBoundary` the recogniser of the end of a Responses stream (the line handling of section 9.2.6 of the
  HTML Living Standard, with LF and CRLF line ends only and lines cut to 1024 bytes).
- `ReplayRecovery` and `ReplayTool` model replaying failed Captures (`scripts/ops/replay-failed-outbox.js`)
  together with the recovery receipts.

**The platform job engine** (`integrations/cloud-platform/plugin.js`). `JobEngine` is the engine between its
awaits, `JobEngineSteps` its invariant, `JobEngineHistory` the promises over whole runs, and `JobPlugin` the
object with its loops, each method proved to take the engine's step. `TurnEvidence` is the Turn file: written,
read back in arbitrary chunks, and streamed.

**Capture normalisation** (`crates/chiptrace/src/capture.rs`). `CaptureEnvelope` is the transformation,
`CapturePrecedence` says which source decides a promoted value, `CaptureContents` what becomes of bodies,
identifiers, evidence and verdict, `CaptureSettling` and `CaptureNormalisation` when running it again changes anything, `CaptureObject` is the
same as loops over one object changed in place. The repository's test expects a second pass to change nothing.
That is true exactly when no `traceContext` field has a value of its own, without evidence, next to other
sources that disagree with each other (unless that disagreement is on record already), or next to another first
candidate while a blank value hides the alias. A third pass never changes anything. `CaptureCounterexamples` has
an accepted envelope for each of the two ways.

**The trace exporter** (`integrations/openai-gateway/server.js`). Rows may arrive at the head of the listing
between two page reads. Then a page limit times page size above the batch size is not enough to leave no gap:
repeated pages shrink the candidates below the batch size and older rows are skipped
(`TraceExporter.RepeatedPageLeavesGap`). A batch leaves a gap exactly when an unread row lies below the last
page; it never does when the cursor was met, or when the surplus exceeds the rows that arrived.

`StreamBuffers` and `MapLimit` are the helpers around it: the buffers that keep the beginning and the end of a
streamed body, and mapping with a bounded number of workers. The tail is documented to keep only the last bytes
up to its limit; it does exactly when the latest chunk fits the limit, and otherwise keeps that chunk whole.

**The quality ledger** (`scripts/ci/quality-baseline.js`), **the in-flight body budget**
(`crates/chiptrace/src/ingest.rs`) and **the scenario witnesses** (`crates/chiptrace/src/canary_scenarios.rs`).
Ledger sums are doubles: past 2^53 the effective total can be rounded while the sum of the reasons is not.
The new errors of a comparison are current minus baseline if and only if the two agree, as they always do up to
2^53; beyond it `QualityLedger.RoundingBreaksTheSum` is a comparison that succeeds with two new errors where the
totals differ by one, and `QualityLedger.OwnBaselineMayBeRefused` a report that its own baseline refuses.

SHA-256 is taken to be collision free: a digest is the hashed value. JSON texts are identified with what they
parse to. Relay replies, page contents, engine results, clock readings and the amount each read returns are
arbitrary inputs.

## Model

| member | source | states |
|---|---|---|
| RelayReceipt.AcceptedNamesOneFile | integrations/openai-gateway/durable-outbox.js:456-479 | an accepted reply fits one Capture ID and one byte string only; against any other file the same reply is retried |
| RelayReceipt.VerdictMeans | integrations/openai-gateway/durable-outbox.js:452-479 | a reply is an acknowledgement, a refusal for good or neither, each read off its own fields: HTTP success, status, the declared bytes and hash, the Capture ID, state and locator |
| OutboxSafety.StepPreserves | integrations/openai-gateway/durable-outbox.js:627-675 | no single step, at any crash point, removes a stored record without an accepted receipt or puts other bytes over a stored file |
| OutboxSafety.NoReportedRecordIsLost | integrations/openai-gateway/durable-outbox.js:1631-1693 | in every run, what enqueue reported durable is in pending, processing or failed until its receipt was accepted |
| OutboxSafety.AcknowledgedByMatchingReceipt | integrations/openai-gateway/durable-outbox.js:1900-1960 | a record counts as acknowledged only after a reply in the run that names this Capture and the length and hash of exactly its bytes |
| OutboxSafety.ReportedIsStoredOrReceipted | integrations/openai-gateway/durable-outbox.js:1631-1693 | from empty directories, in every run: a record reported durable or ever visible is stored, or the run holds a matching accepted receipt for it |
| OutboxSafety.EnqueuePreserves | integrations/openai-gateway/durable-outbox.js:1631-1693 | searching, reserving, writing through a temporary file, linking and losing the race all keep every stored record |
| OutboxSafety.DeliveryPreserves | integrations/openai-gateway/durable-outbox.js:1704-1789 | claim, delivery, retry, failure and return keep every stored record, also when a move finds its target taken |
| OutboxDelivery.ReplyDecides | integrations/openai-gateway/durable-outbox.js:1938-1991 | an acknowledged record is on its way out, one refused for good on its way to failed; after any other reply record, job and files are as before |
| OutboxDelivery.FailedOnlyByRefusal | integrations/openai-gateway/durable-outbox.js:1974-1991 | in every run a record lies in failed only after a reply that was no success, with a status that is none of 408, 425, 429 and below 500 |
| OutboxDelivery.AcknowledgedIsRemoved | integrations/openai-gateway/durable-outbox.js:1951-1956 | an acknowledged record leaves processing, counts as acknowledged, and nothing else changes |
| OutboxDelivery.RefusedIsKeptAside | integrations/openai-gateway/durable-outbox.js:2024-2035 | a refused record ends in failed, byte for byte |
| OutboxDelivery.RefusedMeetsAnother | integrations/openai-gateway/durable-outbox.js:2024-2035 | with another record in failed nothing changes and the record is sent again; with the same one the claim is dropped |
| OutboxDelivery.ExhaustedGoesBack | integrations/openai-gateway/durable-outbox.js:2003-2022 | when the attempts are used up the record is back in pending |
| OutboxDelivery.ExhaustedMeetsAnother | integrations/openai-gateway/durable-outbox.js:2003-2022 | with the same record in pending the claim is dropped; with another the move is tried twice and no file changes |
| OutboxDelivery.ClaimMoves | integrations/openai-gateway/durable-outbox.js:1704-1735 | a claim moves an untracked record from pending to processing and starts sending it |
| OutboxDelivery.ClaimMeetsAnother | integrations/openai-gateway/durable-outbox.js:1704-1735 | a claim that finds another record in processing gives up and changes no file |
| OutboxDelivery.ScanReleases | integrations/openai-gateway/durable-outbox.js:1396-1414 | a scan of a quiet outbox lets a waiting record be claimed exactly when its open metadata is gone |
| OutboxDelivery.TemporariesAreAccounted | integrations/openai-gateway/durable-outbox.js:1052-1077 | when start-up is done with temporary files, each one a crash left became or equals the pending record, or is in quarantine |
| OutboxDelivery.QuarantineMeans | integrations/openai-gateway/durable-outbox.js:1052-1077 | only torn files and files of a different record are set aside |
| OutboxActivities.BeginSearches | integrations/openai-gateway/durable-outbox.js:1300-1310 | a begin that finds a record of its ID in any directory ends without a trace |
| OutboxActivities.PublishingMeans | integrations/openai-gateway/durable-outbox.js:1326-1332 | metadata is written when there is none and never replaced |
| OutboxActivities.EnqueueSearches | integrations/openai-gateway/durable-outbox.js:1640-1655 | the first record found decides: the same bytes are durable, others are refused, and only a free name goes on |
| OutboxActivities.LostRaceIsDecided | integrations/openai-gateway/durable-outbox.js:1669-1684 | after a lost race the enqueue is durable exactly when the same record is found |
| OutboxActivities.EnqueueStores | integrations/openai-gateway/durable-outbox.js:1666-1693 | a granted enqueue leaves its record in pending and no temporary file; a taken name is left as it is |
| OutboxActivities.FinalizeComposes | integrations/openai-gateway/durable-outbox.js:804-850 | a finalization is made of the files as they are on disk, and only while the metadata there is its own |
| OutboxActivities.RecoveryDecides | integrations/openai-gateway/durable-outbox.js:1217-1257 | recovery looks into all three directories: a record that does not stand for the open files, or two different ones, are a conflict; one that does lets the files go; none makes it compose a record |
| OutboxSafety.RecoveryPreserves | integrations/openai-gateway/durable-outbox.js:1171-1292 | recovery, at start-up or periodic, never drops or overwrites a queue file |
| OutboxConvergence.StepSound | integrations/openai-gateway/durable-outbox.js:804-857 | each step that keeps the three rules keeps: while metadata is on disk nothing is claimed and one activity owns the Capture; afterwards there is one record |
| OutboxCleanup.CleanupBeforeDelivery | integrations/openai-gateway/durable-outbox.js:1704-1714 | in every run that publishes an ID's metadata once and awaits the begin, nothing is claimed, failed or acknowledged while the open metadata is on disk, and delivery can only rescan |
| OutboxCleanup.StepTidy | integrations/openai-gateway/durable-outbox.js:1294-1345 | every such step keeps the name tracked while metadata is on disk, or, while the begin has not returned, pending empty |
| OutboxCleanup.CallersAreCareful | integrations/openai-gateway/durable-outbox.js:1294-1298 | callers who begin an ID once, after start and before any enqueue, and enqueue it only when no begin is in flight, keep both rules |
| OutboxCleanup.CleanupForCallers | integrations/openai-gateway/durable-outbox.js:1704-1714 | the same promise from what a caller can check before its call, direct enqueues after the begin included |
| OutboxConvergence.StartupRecoveryConverges | integrations/openai-gateway/durable-outbox.js:1171-1292 | when start-up recovery completes, the open files are gone and there is one outcome: the finalized record if its write was complete, else one recovered record with exactly the spooled bodies |
| OutboxConvergence.RecoveryMeetsNoConflict | integrations/openai-gateway/durable-outbox.js:1226-1257 | in orderly runs recovery never meets a stored record it has to refuse |
| OutboxConvergence.OutcomeIsFinal | integrations/openai-gateway/durable-outbox.js:1167-1292 | once the open files are gone no later run, with any further recoveries and crashes, brings them back or adds a record |
| OutboxProgress.StartupProgress | integrations/openai-gateway/durable-outbox.js:994-1050 | while reservations are granted every step of an undisturbed start-up is possible and brings its end closer |
| OutboxProgress.StartupCompletes | integrations/openai-gateway/durable-outbox.js:994-1050 | from any state of a start-up its own steps lead to a running outbox in which a begun Capture has its one outcome, asking for a reservation only when a record has to be recovered |
| OutboxProgress.RefusedNeverRuns | integrations/openai-gateway/durable-outbox.js:1656-1672 | while a record has to be recovered and no reservation is granted, no orderly run gets the outbox running, however many crashes and restarts it holds |
| OutboxProgress.RunsExactlyWhenAdmitted | integrations/openai-gateway/durable-outbox.js:1027-1034 | a start-up can get running if and only if reservations are granted or no record has to be recovered |
| OutboxProgress.NeedsRecordOnDisk | integrations/openai-gateway/durable-outbox.js:1192-1257 | for a crashed outbox that condition is one on its files: metadata there, no record pending, no complete temporary file |
| OutboxProgress.CrashedCanStart | integrations/openai-gateway/durable-outbox.js:983-1050 | a crash at any point of any orderly run can be followed by such a start-up |
| OutboxCounterexamples.DirectEnqueueRacesBegin | integrations/openai-gateway/durable-outbox.js:1300-1345 | without the rules on direct enqueues: a record enqueued before the begin has returned is delivered and acknowledged while its Capture's metadata is open |
| OutboxCounterexamples.DirectEnqueueBlocksRecovery | integrations/openai-gateway/durable-outbox.js:1226-1257 | without the rule of one entry: an ID was enqueued after its begin had returned; the next start-up meets the stranger's record, gives up on the conflict and cannot complete |
| OutboxCounterexamples.PeriodicRecoveryRecreates | integrations/openai-gateway/durable-outbox.js:1192-1215 | without the rule that metadata is still on disk: periodic recovery re-creates an already delivered Capture as recovered_incomplete |
| OutboxCounterexamples.BeginDuringStartup | integrations/openai-gateway/durable-outbox.js:1294-1298 | without the rule of one publishing: start-up recovery takes the files of a live transaction, which goes on appending into nothing |
| OutboxCounterexamples.ReusedId | integrations/openai-gateway/durable-outbox.js:1300-1345 | without the rule of one publishing: an ID begun twice ends in two different records, both acknowledged |
| OutboxCounterexamples.ReusedIdIsOpen | integrations/openai-gateway/durable-outbox.js:1300-1345 | without the rule of one publishing: while a second begin is open its metadata is on disk beside an acknowledged record |
| OutboxCounterexamples.RefusedStartup | integrations/openai-gateway/durable-outbox.js:1027-1034 | a run that keeps all rules and stops in start-up recovery: the recovered record was refused, and the end of start-up is disabled |
| OutboxSystem.NoCaptureLosesBytes | integrations/openai-gateway/durable-outbox.js:860-2067 | the no-loss promise for every Capture of an outbox, under any interleaving of all of them |
| OutboxSystem.EveryCaptureConverges | integrations/openai-gateway/durable-outbox.js:994-1050 | when start-up of the whole outbox completes after an orderly run, every Capture ever begun has its one outcome |
| OutboxSystem.NoClaimWhileOpen | integrations/openai-gateway/durable-outbox.js:1704-1714 | in every state of every run of the whole outbox under the two rules of cleanup, a Capture that is claimed, failed or acknowledged has no open metadata on disk |
| OpenReceipt.ComposedVerifiesExactly | integrations/openai-gateway/durable-outbox.js:364-439 | a record made from open files verifies exactly when the metadata and every spool still on disk are the same; removed spools do not matter |
| OpenReceipt.RedactedVerifiesExactly | integrations/openai-gateway/durable-outbox.js:377-439 | the same for a record whose bodies were redacted, whatever the redaction does |
| OpenReceipt.VerifiedStandsForTheFiles | integrations/openai-gateway/durable-outbox.js:388-439 | any record that verifies is a combined record of this Capture, repeats what the open metadata states, agrees with its own lengths and digests, and has the spools as its bodies or admits a redaction that yields exactly its bodies |
| OutboxFiles.MoveIsSafe | integrations/openai-gateway/durable-outbox.js:649-675 | a move loses no stored bytes and overwrites none, whichever way it ends |
| OutboxFiles.MoveFrame | integrations/openai-gateway/durable-outbox.js:656-675 | a move conflicts exactly when the target holds other bytes, and then nothing changes; otherwise the target ends with the source's bytes |
| OutboxFiles.FileTree.AtomicWrite | integrations/openai-gateway/durable-outbox.js:627-647 | creates exactly the target with exactly the bytes, or leaves the files as they were when it exists |
| OutboxFiles.FileTree.MoveOrDeduplicate | integrations/openai-gateway/durable-outbox.js:656-675 | link, compare and unlink amount to that move |
| OutboxFiles.FileTree.RecoverProcessing | integrations/openai-gateway/durable-outbox.js:1004-1018 | returning all claims loses nothing, leaves a pending file for each of them, and touches no other directory |
| OutboxFiles.FileTree.RemoveCaptureFiles | integrations/openai-gateway/durable-outbox.js:350-356 | exactly the three files of the open Capture are gone |
| QueueScan.RunKeepsCoherent | integrations/openai-gateway/durable-outbox.js:961-981 | as long as no mutation has begun or ended, the running scan agrees with the directories as they are |
| QueueScan.PublishedScanIsExact | integrations/openai-gateway/durable-outbox.js:1396-1414 | whatever mutations interleave, published counts and bytes describe the directories at one moment with no mutation open |
| QueueScan.OverlappedScanIsDiscarded | integrations/openai-gateway/durable-outbox.js:1396-1414 | a scan that overlapped a mutation leaves the metrics as they are, so no live update of them is erased |
| QueueScan.CountsAreCardinalities | integrations/openai-gateway/durable-outbox.js:1416-1545 | each published count is the number of such files, independent of the order of reading |
| QueueScan.FiguresMean | integrations/openai-gateway/durable-outbox.js:1416-1545 | each published figure read off the directories: waiting, claimed and failed records, error markers, receipts, open files, open transactions, and the bytes of each part |
| QueueScan.VersionTestIsNeeded | integrations/openai-gateway/durable-outbox.js:1396-1414 | without the version test a delivery inside the scan would be revived in the metrics |
| Capacity.CapacityHolds | integrations/openai-gateway/durable-outbox.js:1584-1620 | over all interleavings queued plus reserved bytes exceed the cap by at most the credit of one finalization whose spools are not yet removed, and every reservation is counted once until it is released once |
| Capacity.FreeSpaceIsConserved | integrations/openai-gateway/durable-outbox.js:1622-1629 | over every run what is written leaves the free space and what is removed comes back, and free space covers all that is promised |
| Capacity.AdmissionMeans | integrations/openai-gateway/durable-outbox.js:1584-1620 | a request is admitted exactly when both cutoffs stay intact and both caps hold with it, a finalization's own files not counted; the kind of refusal follows the order of the tests |
| Capacity.NoCreditNoExcess | integrations/openai-gateway/durable-outbox.js:1584-1620 | wherever a run leaves no finalization waiting for its cleanup, the plain caps hold again |
| Capacity.GrantLeavesHeadroom | integrations/openai-gateway/durable-outbox.js:1596-1620 | after any run a granted request leaves the free-space and inode cutoffs intact even when all that is promised to anyone has been written |
| Capacity.CreditIsReached | integrations/openai-gateway/durable-outbox.js:804-842 | the excess is real: with a full queue a finalization is admitted |
| Capacity.CapacityLedger.TryReserve | integrations/openai-gateway/durable-outbox.js:1584-1620 | tests and reservation are one step of the ledger: refused without a trace, or counted once |
| Capacity.CapacityLedger.CommitWrite | integrations/openai-gateway/durable-outbox.js:1672-1693 | a successful write turns its reservation into stored bytes and releases it once |
| Capacity.CapacityLedger.AbortWrite | integrations/openai-gateway/durable-outbox.js:753-788 | a failed write releases its reservation once and stores nothing |
| Capacity.CapacityLedger.ReleaseOpenFiles | integrations/openai-gateway/durable-outbox.js:1353-1361 | after the open files are gone their bytes, and the credit they gave, are gone from the ledger |
| SseBoundary.VerdictIsFoldOverLines | integrations/openai-gateway/durable-outbox.js:60-116 | byte by byte recognition equals one left-to-right fold over the complete lines, each cut to 1024 bytes |
| SseBoundary.LinesRebuildStream | integrations/openai-gateway/durable-outbox.js:60-82 | the lines with their line feeds and the unfinished rest are the stream again |
| SseBoundary.LineEnds | integrations/openai-gateway/durable-outbox.js:66-76 | each line ends just after its own line feed, and its text is what stands before that feed |
| SseBoundary.LineOffset | integrations/openai-gateway/durable-outbox.js:66-76 | the offset of a line is the number of bytes up to and with its line feed |
| SseBoundary.ReportsLastMatch | integrations/openai-gateway/durable-outbox.js:95-116 | a terminal event, or the end marker, is reported exactly when some line announces it, with the name and end of the last such line |
| SseBoundary.EventIsReported | integrations/openai-gateway/durable-outbox.js:90-116 | an event written as a name line and a data line, with either line ending, is reported exactly when its name is one of the six terminal ones, with the end of its data; `[DONE]` is reported as the end marker |
| SseBoundary.TypedDataIsReported | integrations/openai-gateway/durable-outbox.js:106-112 | a data line without a name in force is judged by its leading type member |
| SseBoundary.TypeIsRead | integrations/openai-gateway/durable-outbox.js:106 | an object whose first member is type, with any white space between the tokens, has that type |
| SseBoundary.OnlyTypedHasType | integrations/openai-gateway/durable-outbox.js:106 | and whatever has a type is such an object |
| SseBoundary.PaddedNameIsCut | integrations/openai-gateway/durable-outbox.js:84-93 | a name pushed beyond the first 1024 bytes of its line is no name |
| SseBoundary.BlankLineEndsName | integrations/openai-gateway/durable-outbox.js:97-98 | a blank line ends the name in force |
| SseBoundary.ResponsesSseBoundaryTracker.Observe | integrations/openai-gateway/durable-outbox.js:60-82 | after any chunk the fields stand where the whole stream so far puts them |
| SseBoundary.Track | integrations/openai-gateway/durable-outbox.js:46-129 | however a stream is split into chunks, empty ones included, the snapshot is the same |
| ReplayRecovery.StepSound | integrations/openai-gateway/durable-outbox.js:1791-1898 | each step of replay, delivery and crash keeps: a receipt stands for an accepted copy of its original, and a copy is stored or settled by its receipt |
| ReplayRecovery.OriginalsAreUntouched | scripts/ops/replay-failed-outbox.js:263-366 | no run ever changes or removes a failed original |
| ReplayRecovery.CopiesLeaveOnlyByReceipt | integrations/openai-gateway/durable-outbox.js:1951-1956 | every copy ever made is still stored byte for byte, or a receipt with its original's file name and hash is on disk |
| ReplayRecovery.RemovalFollowsReceipt | integrations/openai-gateway/durable-outbox.js:1951-1956 | a copy vanishes in a step only if its receipt was on disk before that step |
| ReplayRecovery.ResolvedMeansAcknowledged | integrations/openai-gateway/durable-outbox.js:1505-1512 | a historical failure counts as resolved only after the Relay accepted a copy standing for exactly that file and those bytes |
| ReplayRecovery.ReceiptQuotesTheReply | integrations/openai-gateway/durable-outbox.js:1791-1898 | every receipt names the original its copy was made from, and repeats the duplicate flag and the place of a successful reply in the run |
| ReplayRecovery.DeliveredCopyLeaves | integrations/openai-gateway/durable-outbox.js:1951-1956 | a copy that is sent, acknowledged and receipted leaves processing, and its receipt is on disk |
| ReplayRecovery.CopiesDiffer | scripts/ops/replay-failed-outbox.js:38-44 | two failed files have the same copy ID exactly when Capture ID and hash are the same |
| ReplayRecovery.TargetMeans | scripts/ops/replay-failed-outbox.js:239-261 | a file under the copy's name is taken for the copy exactly when it has its bytes, or its ID and the same failed file |
| ReplayRecovery.RepeatAddsNothing | scripts/ops/replay-failed-outbox.js:239-261 | replaying again while the copy is pending adds nothing and reports it present, though the new bytes differ |
| ReplayRecovery.RetriedReceiptIsRefused | integrations/openai-gateway/durable-outbox.js:1850-1875 | after a crash between receipt and removal, a second acknowledgement as duplicate is refused and the copy stays |
| ReplayTool.OutboxDirectory.ReplayFailed | scripts/ops/replay-failed-outbox.js:263-366 | whatever other processes do in pending meanwhile, the counters and records tell what became of each file; planned, present and blocked add up to the selected files plus the lost creations |
| ReplayTool.CountsAreExact | scripts/ops/replay-failed-outbox.js:318-352 | planned, present and blocked count every file once and every lost creation twice, so they add up if and only if no creation was lost |
| ReplayTool.RivalCopyIsPresent | scripts/ops/replay-failed-outbox.js:335-347 | losing the race to another replay of the same original is reported as present, whatever bytes it wrote |
| ReplayTool.AlonePass | scripts/ops/replay-failed-outbox.js:263-366 | undisturbed, an applied run adds exactly the missing copies, one for each counted as copied, and a dry run nothing; no pending file changes |
| ReplayTool.DifferentFilesAreAllCopied | scripts/ops/replay-failed-outbox.js:263-366 | undisturbed, files that can be derived and differ in ID or bytes are all copied, none blocked, each into its own pending file carrying its ID, file name and hash |
| ReplayTool.FateMeans | scripts/ops/replay-failed-outbox.js:294-352 | what becomes of one file, from what its copy's name holds at each look |
| ReplayTool.SecondPassAddsNothing | scripts/ops/replay-failed-outbox.js:239-366 | a second pass over the same files adds nothing although its timestamps differ |
| JobEngineSteps.BeginKeepsOrder | integrations/cloud-platform/plugin.js:544-555 | taking the first job of an idle archive out of the middle of the queue keeps the order within every archive |
| JobEngineSteps.PumpSound | integrations/cloud-platform/plugin.js:544-555 | the pump keeps the whole invariant and stops only when slots or idle archives run out |
| JobEngineSteps.StepSound | integrations/cloud-platform/plugin.js:502-586 | every step between awaits keeps scheduler safety, order, placement of every unfinished job and disk before memory |
| JobEngineHistory.SchedulerIsSafeAndConserving | integrations/cloud-platform/plugin.js:544-586 | in every reachable state running jobs have pairwise different archives, exactly the active ones, at most the limit; a healthy plugin idles a slot only when every queued archive is busy |
| JobEngineHistory.ArchivesAreServedInOrder | integrations/cloud-platform/plugin.js:544-555 | jobs of one archive begin in queue order, each once: begun and still queued together are what was queued |
| JobEngineHistory.ReadersSeeStoredStates | integrations/cloud-platform/plugin.js:534-562 | every readable job state was written to disk first, and is the newest stored one unless a store failed or it is just being published |
| JobEngineHistory.FinishedJobsStayFinished | integrations/cloud-platform/plugin.js:564-586 | a job stored as completed or failed is never written, queued or executed again, through crashes, restarts and resubmissions |
| JobEngineHistory.StoredEndIsTrue | integrations/cloud-platform/plugin.js:564-586 | in every run a job stored as completed had an attempt that succeeded, and one stored as failed an attempt that did not |
| JobEngineHistory.LastRecordMeans | integrations/cloud-platform/plugin.js:571-583 | the last record of an attempt keeps request and attempt number, touches no other file, and says interrupted, completed or failed as it ended |
| JobEngineHistory.RestartQueuesUnfinishedOnce | integrations/cloud-platform/plugin.js:296-341 | after a crash at any step a completed start-up holds exactly the stored jobs, the finished ones as they were, each unfinished one queued once, as recovered, with its request and attempts |
| JobEngineHistory.ResubmissionChangesNothing | integrations/cloud-platform/plugin.js:502-513 | sending a stored job's request again changes nothing and answers duplicate, or conflict when the request differs |
| JobEngineHistory.NothingBeginsAfterStop | integrations/cloud-platform/plugin.js:502-555 | once the plugin closes or loses its lock no job begins and every request is answered not ready, until it starts again |
| JobEngineHistory.AnswerMeans | integrations/cloud-platform/plugin.js:502-525 | a request is accepted exactly by a healthy plugin that does not know the ID and has room in both limits; each other answer has its exact condition |
| JobEngineHistory.JobsStayBelowLimit | integrations/cloud-platform/plugin.js:296-525 | in every reachable state, restarts included, there are never more jobs than the limit |
| JobEngineHistory.NewJobMeans | integrations/cloud-platform/plugin.js:514-525 | an accepted request waits to be stored as a new job that was never tried |
| JobEngineHistory.BegunJobMeans | integrations/cloud-platform/plugin.js:544-555 | a job that begins is running with one attempt more, in memory only |
| JobPlugin.ChipTracePlugin.FindIdle | integrations/cloud-platform/plugin.js:546-547 | finds the first queued job whose archive is idle, or none when all are busy |
| JobPlugin.ChipTracePlugin.Pump | integrations/cloud-platform/plugin.js:544-555 | the loop reaches exactly the state the scheduler function describes |
| JobPlugin.ChipTracePlugin.Start | integrations/cloud-platform/plugin.js:296-341 | reads all jobs in order, stops at the first failing save, else opens and pumps; the invariant holds whichever way it ends |
| JobPlugin.ChipTracePlugin.SubmitRequest | integrations/cloud-platform/plugin.js:502-525 | answers ready, duplicate, conflict, full or accepted as the engine does, and only an accepted request changes anything |
| JobPlugin.ChipTracePlugin.Conclude | integrations/cloud-platform/plugin.js:564-586 | a saved last record is queued during shutdown or failure, otherwise completed exactly when the attempt succeeded and failed exactly when not; it is on disk before it can be read |
| JobPlugin.ChipTracePlugin.RetireRunning | integrations/cloud-platform/plugin.js:550-553 | a job that is over frees its slot and its archive and the pump runs |
| TurnEvidence.PersistTurns | integrations/cloud-platform/plugin.js:588-629 | writes every Turn on its line with matching count, length and hash, and gives up exactly when the file would pass the limit |
| TurnEvidence.ReadTurnEvidence | integrations/cloud-platform/plugin.js:900-959 | in whatever chunks the file arrives the answer is that of the whole file, and exactly the selected bytes were ever held |
| TurnEvidence.TurnsRoundTrip | integrations/cloud-platform/plugin.js:588-959 | reading what was written, for every offset and limit, gives exactly that slice and the full count |
| TurnEvidence.OtherBytesAreRefused | integrations/cloud-platform/plugin.js:945-959 | against the recorded evidence a page is answered exactly for the written bytes |
| TurnEvidence.CheckRows | integrations/cloud-platform/plugin.js:850-858 | accepts exactly the nonempty, increasing, non-overlapping, in-bounds rows |
| TurnEvidence.StreamPage | integrations/cloud-platform/plugin.js:128-167 | with any short reads the stream sends exactly the announced bytes, or fails having sent a beginning of them; it fails only when the file ends early |
| TurnEvidence.StreamIsPageText | integrations/cloud-platform/plugin.js:803-877 | for the rows of the stored lines the stream is the JSON text of the page the object reader answers, of the announced length |
| CaptureSettling.TraceIsOnlyExtended | crates/chiptrace/src/capture.rs:636-645 | promotion overwrites no key of traceContext, adds a key exactly for a missing field with candidates, and gives it the first of them |
| CapturePrecedence.PromotedValue | crates/chiptrace/src/capture.rs:556-645 | a missing field takes the first of its own value, correlation header, top level, client metadata, turn metadata, body members and W3C context that says anything |
| CapturePrecedence.HeaderWins | crates/chiptrace/src/capture.rs:578-590 | a correlation header decides over everything but the field's own value |
| CapturePrecedence.FirstInObject | crates/chiptrace/src/capture.rs:702-775 | within an object the field's own name goes before its other spelling, and the agent's name comes last |
| CapturePrecedence.FirstObserved | crates/chiptrace/src/capture.rs:801-856 | trace ID, parent span and flags are the second, third and fourth part of a usable traceparent, in lower case; any other value gives nothing |
| CaptureSettling.EvidenceMembers | crates/chiptrace/src/capture.rs:929-938 | after merging, the evidence is exactly what came in and what was generated, without repetition |
| CaptureSettling.OwnIsSpent | crates/chiptrace/src/capture.rs:561-577 | after one promotion the envelope's own values are no candidates any more |
| CaptureSettling.TraceSettles | crates/chiptrace/src/capture.rs:528-700 | a second promotion leaves traceContext unchanged, always |
| CaptureSettling.IdsSettle | crates/chiptrace/src/capture.rs:861-927 | request identifiers and their evidence settle with the first promotion |
| CaptureSettling.FieldSettles | crates/chiptrace/src/capture.rs:634-668 | field by field: the second promotion adds no evidence and no conflict exactly when the field is settled |
| CaptureSettling.SecondPromotion | crates/chiptrace/src/capture.rs:528-700 | the second promotion changes nothing if and only if the envelope is settled |
| CaptureSettling.PromotionSettles | crates/chiptrace/src/capture.rs:528-700 | what a promotion leaves is settled, so a third one changes nothing |
| CaptureNormalisation.NormalisationSettles | crates/chiptrace/src/capture.rs:137-296 | an accepted envelope is accepted again; the second pass equals the first exactly for settled envelopes; the third always equals the second |
| CaptureCounterexamples.DisagreeingSourcesUnsettle | crates/chiptrace/src/capture.rs:634-668 | an accepted envelope whose second pass adds the conflict of two other sources, against the test at line 2414 |
| CaptureCounterexamples.BlankKeyUnsettles | crates/chiptrace/src/capture.rs:561-577 | an accepted envelope whose own value stands behind a blank key, so that the second pass differs from the first |
| CaptureNormalisation.FirstPassIsFinal | crates/chiptrace/src/capture.rs:49-82 | traceContext and the derived wire verdict are final after the first pass, which keeps every traceContext value that came in |
| CaptureContents.BodyAcceptedExactly | crates/chiptrace/src/capture.rs:436-478 | a side is refused exactly when its raw text parses to another value or a declared length or digest is not the text's |
| CaptureContents.TextBecomesBody | crates/chiptrace/src/capture.rs:388-417 | a body sent as text becomes a JSON or text body, always with its digest, and with its length unless declared |
| CaptureContents.IdentifiersDecided | crates/chiptrace/src/capture.rs:861-895 | a stated request identifier stands; a missing one comes from its response header, else its request header |
| CaptureContents.IdentifierIsOnRecord | crates/chiptrace/src/capture.rs:896-926 | every source of an identifier leaves evidence, selected exactly when it is the one chosen |
| CaptureContents.SourcesAreOnRecord | crates/chiptrace/src/capture.rs:636-669 | every object that says something about a field leaves evidence of it, with the right producer and authority, selected exactly when it is the value chosen |
| CaptureContents.HeaderIsOnRecord | crates/chiptrace/src/capture.rs:578-590 | so does the correlation header |
| CaptureContents.TraceIsOnRecord | crates/chiptrace/src/capture.rs:801-856 | and so do the W3C headers |
| CaptureContents.ConflictMeans | crates/chiptrace/src/capture.rs:647-656 | a field is newly in conflict exactly when two of its candidates differ |
| CaptureContents.StageMeans | crates/chiptrace/src/capture.rs:679-699 | the stage follows from which bodies are there, unless it is stated |
| CaptureContents.DefaultsMean | crates/chiptrace/src/capture.rs:230-256 | given fields stay and missing ones get their defaults |
| CaptureContents.ArrivalMeans | crates/chiptrace/src/capture.rs:258-277 | a missing arrival time is the end of the exchange, else its start, else null |
| CaptureContents.VerdictMeans | crates/chiptrace/src/capture.rs:49-82 | when a Wire Capture is scoped to a Turn, a success, or in conflict, from its own fields |
| CaptureNormalisation.HeadersAreSanitized | crates/chiptrace/src/capture.rs:948-969 | no sensitive header is left, each is named as redacted, and all other headers are as they were |
| CaptureNormalisation.SideSettles | crates/chiptrace/src/capture.rs:388-478 | a body given its length and digest once passes the check again unchanged |
| CaptureObject.MergeArray | crates/chiptrace/src/capture.rs:929-938 | the loop with its set of seen items keeps the first of equal items |
| CaptureObject.CaptureObject.PromoteProtocolFields | crates/chiptrace/src/capture.rs:528-700 | promotion in place reaches exactly the promoted envelope |
| CaptureObject.CaptureObject.Normalize | crates/chiptrace/src/capture.rs:137-296 | one pass in place is accepted exactly when bodies agree with what is declared, and then reaches the normalised envelope |
| TraceExporter.FetchUsageLogs | integrations/openai-gateway/server.js:1865-1941 | returns the lowest rows above the cursor in increasing order, at most a batch, each as it was listed last; refuses exactly when the page limit was hit and they do not fit |
| TraceExporter.GapExactly | integrations/openai-gateway/server.js:1888-1941 | for every growing listing a returned batch leaves a gap if and only if it is not empty and an unread row above the cursor lies below the last page |
| TraceExporter.MetCursorLeavesNoGap | integrations/openai-gateway/server.js:1895-1918 | a scan that met the cursor leaves no gap, whatever arrived meanwhile |
| TraceExporter.LargeWindowLeavesNoGap | integrations/openai-gateway/server.js:1931-1938 | when pages times page size exceeds the batch by more than the rows arriving during the scan, every returned batch met the cursor |
| TraceExporter.RepeatedPageLeavesGap | integrations/openai-gateway/server.js:1931-1938 | with a smaller surplus two arriving rows repeat a page and two older rows are skipped |
| TraceExporter.RunsLeaveNoGap | integrations/openai-gateway/server.js:1976-2060 | over any number of runs every listed row above the first cursor and not above the present one has been returned |
| TraceExporter.RunIsKept | integrations/openai-gateway/server.js:1976-2060 | one run that leaves no gap advances the cursor to a row it returned, and everything it returned is listed |
| TraceExporter.TraceExporter.RunOnce | integrations/openai-gateway/server.js:1976-2060 | the cursor never goes back and is unchanged on refusal or failed export; exported grows by the number of ids of the batch whose listed row passes the filters, and exported plus skipped by the batch length |
| StreamBuffers.RollingTail.Append | integrations/openai-gateway/server.js:964-980 | however a stream arrives, the tail is its last bytes up to the limit, or the whole latest chunk when that is longer; it keeps to its limit if and only if that chunk does |
| StreamBuffers.BoundedBuffer.Append | integrations/openai-gateway/server.js:982-999 | however a stream arrives, the buffer is its first bytes up to the limit |
| StreamBuffers.TruncatedMeans | integrations/openai-gateway/server.js:982-999 | whenever bytes are lost the buffer says truncated; it also does when a chunk finds it exactly full, and only then |
| MapLimit.StepSound | integrations/openai-gateway/server.js:1282-1297 | taking and finishing an item keep: every index below the counter was handed out once and is in flight or done |
| MapLimit.EveryItemOnce | integrations/openai-gateway/server.js:1282-1297 | however workers interleave, at most the width are in flight, no item is mapped twice, and at the end each item has its own result |
| QualityLedger.NormalisationSettles | scripts/ci/quality-baseline.js:71-131 | a normalised ledger is accepted exactly as it is |
| QualityLedger.AcceptedExactly | scripts/ci/quality-baseline.js:71-131 | a ledger is accepted exactly with both flags, acceptable routes for all three endpoints and totals that add up, and keeps just these counts |
| QualityLedger.VerifiedExactly | scripts/ci/quality-baseline.js:182-230 | a baseline verifies exactly with an accepted ledger, a stated approval, a hashed source, no other field and the identity of its content |
| QualityLedger.ComparisonMeans | scripts/ci/quality-baseline.js:253-300 | a comparison of accepted ledgers is refused exactly when a counter or the sum went down or the new errors pass the safe integers, and reports the four totals |
| QualityLedger.CombinedIsExact | scripts/ci/quality-baseline.js:137-180 | while no sum is rounded, the effective ledger adds up per reason and in total to live plus archived |
| QualityLedger.BuiltVerifies | scripts/ci/quality-baseline.js:189-251 | a built baseline verifies and gives back the report's live ledger |
| QualityLedger.IdentityFixesContent | scripts/ci/quality-baseline.js:208-233 | two verified baselines of one identity agree in approval, source and every count |
| QualityLedger.NewErrorsAreTheDifference | scripts/ci/quality-baseline.js:253-300 | whenever a comparison succeeds, the sum of increments over endpoints and reasons is current minus baseline if and only if the effective total is the sum of the effective reasons |
| QualityLedger.SmallLedgersAddUp | scripts/ci/quality-baseline.js:137-180 | up to 2^53 the effective total is the sum of its reasons, and live plus archived |
| QualityLedger.MovingCountsChangesNothing | scripts/ci/quality-baseline.js:133-180 | moving any counts between live ledger and archive, of whatever size, changes neither the effective ledger nor the new errors |
| QualityLedger.OwnBaselineFindsTheArchive | scripts/ci/quality-baseline.js:235-300 | a report compared with its own baseline succeeds if and only if its reasons exceed the live total by a safe integer, and finds exactly the archived total new if and only if the reasons add up to live plus archived |
| QualityLedger.OwnBaselineMayBeRefused | scripts/ci/quality-baseline.js:253-300 | a valid report whose own baseline refuses it, because the new errors pass the largest safe integer |
| QualityLedger.RoundingBreaksTheSum | scripts/ci/quality-baseline.js:165-177 | beyond 2^53 a comparison with the own baseline succeeds with two new errors where the totals differ by one |
| QualityLedger.NormalizeRoute | scripts/ci/quality-baseline.js:82-118 | accepts a route exactly when its counts are valid and add up |
| QualityLedger.CompareQuality | scripts/ci/quality-baseline.js:253-300 | the nested loops give exactly the judged comparison, refusing when any counter went down |
| BodyBudget.StepSound | crates/chiptrace/src/ingest.rs:67-134 | each frame, failure and drop keeps free plus held at capacity and every reader at the larger of declared and buffered |
| BodyBudget.BudgetHolds | crates/chiptrace/src/ingest.rs:29-134 | over any interleaving of readers all buffered bytes together stay within capacity |
| BodyBudget.FailureGivesEverythingBack | crates/chiptrace/src/ingest.rs:105-128 | in every run a failing step returns everything its reader held; what the other readers hold and what is free make up the capacity |
| BodyBudget.FrameJudged | crates/chiptrace/src/ingest.rs:105-128 | a frame is taken exactly when it fits, and the error says in which respect it does not |
| BodyBudget.IdleBudgetIsFull | crates/chiptrace/src/ingest.rs:29-134 | when the last reader is gone the whole capacity is free |
| BodyBudget.InflightBodyBudget.OpenReader | crates/chiptrace/src/ingest.rs:67-103 | the checks before the first frame in their order, and the reservation of the declared length |
| BodyBudget.InflightBodyBudget.ReadFrame | crates/chiptrace/src/ingest.rs:105-128 | one frame takes exactly the permits its bytes need, or drops the reader |
| BodyBudget.InflightBodyBudget.ReadBody | crates/chiptrace/src/ingest.rs:67-134 | a body is read exactly when media type and declared length are acceptable and its frames fit the limit and the budget; the error is that of the first check or frame that fails; a failed read leaves the budget as it was |
| ScenarioWitness.SeenIsExact | crates/chiptrace/src/canary_scenarios.rs:90-122 | a call is in conflict exactly when two Captures witness it differently |
| ScenarioWitness.UndisputedExactly | crates/chiptrace/src/canary_scenarios.rs:90-127 | a call is undisputed exactly when some Capture witnesses it and all agree but for their own names |
| ScenarioWitness.WitnessMeans | crates/chiptrace/src/canary_scenarios.rs:20-116 | a witness repeats its Capture field by field and exists exactly for an admissible execution whose Capture one Turn of the Session claims, once |
| ScenarioWitness.OrderDoesNotMatter | crates/chiptrace/src/canary_scenarios.rs:90-127 | neither order nor repetition of Captures changes the undisputed witnesses but for the Capture named |
| ScenarioWitness.SummaryIgnoresOrder | crates/chiptrace/src/canary_scenarios.rs:77-204 | two summaries of the same Captures differ only in which duplicate's Capture they name |
| ScenarioWitness.DelayedPairMeans | crates/chiptrace/src/canary_scenarios.rs:160-188 | a summary reports a delayed pair if and only if the Captures prove one: undisputed calls of one Turn, the only launch of that process there, no earlier poll that saw its end; and then the first such launch |
| ScenarioWitness.SummaryMeans | crates/chiptrace/src/canary_scenarios.rs:128-204 | the first two Turns that used a model, a resume exactly when some Capture is one, and the first undisputed call that ended with a code other than zero |
| ScenarioWitness.ObserveAll | crates/chiptrace/src/canary_scenarios.rs:90-127 | the loop collects exactly the undisputed witnesses |
| ScenarioWitness.Summarize | crates/chiptrace/src/canary_scenarios.rs:77-204 | the loops find the first failed process, the first delayed pair and the missing scenarios |

## Left out

- Outbox file names: names are identified with Capture IDs; the hashing of long IDs is not modelled, and neither are the temporary files of open metadata.
- Outbox contents: open metadata is readable and spools are valid UTF-8; `isolateUnrecoverable`, which moves the metadata before the spools, is not part of this model.
- Queue files that do not parse as records, which the outbox moves to failed without sending, are not modelled: it writes every file itself.
- Body redaction stays off in the protocol (the default); `OpenReceipt` covers records whose bodies were redacted.
- Outbox errors other than "exists" and "missing", retry delays, timers, `drain()` or `flush()` before `start()`, and a second `start()` in one process are not modelled; error markers and recovery receipts bypass the capacity ledger as in the code.
- Periodic recovery is modelled with the timing fact that metadata just written by a begin in flight is younger than the stale limit.
- OutboxProtocol: the loops and maps of the outbox object appear as protocol steps, because what matters is the interleaving between them; `OutboxFiles`, `Capacity` and `SseBoundary` keep the form of changing objects, with one process and no interleaving inside a method.
- SseBoundary.Track: does not model the two line offsets, which nothing reads, nor non-ASCII white space in names and data.
- JobEngineHistory.SchedulerIsSafeAndConserving: does not model closing during start-up, nor another process that takes over the writer lock while jobs still run.
- Job requests are taken as already normalised; time stamps, results and artifacts of jobs are left out.
- TurnEvidence.StreamPage: does not model cancellation by the consumer and the closing of the file handle, nor the read slots counted by `#acquireRead`.
- CaptureNormalisation.NormalisationSettles: leaves out the field-by-field validators and the size limit, so "accepted" means that the bodies agree with what is declared about them.
- OutboxSafety.AcknowledgedByMatchingReceipt: takes the stored bytes to be the ones sent; the repair of body metadata in memory before sending, after which the receipt is for the repaired bytes, is not modelled.
- QueueScan.OverlappedScanIsDiscarded: is about the metrics; the set of recovery receipt keys and the cache of failed evidence, which a scan assigns before the version test, are not modelled.
- TurnEvidence.ReadTurnEvidence: leaves out the refusal of a selected line that does not decode or parse, and of a file whose size or time changed while it was read.
- JSON objects are modelled by the fields that normalisation reads or writes; all other members stay as they are. Strings are trimmed of ASCII white space only.
- TraceExporter.FetchUsageLogs: the date window, the sanitising of rows and the ledger of facts are left out; ids are positive integers, and other ids are skipped as in the code.
- MapLimit.EveryItemOnce: a mapper that throws, after which the other workers go on unobserved, is not modelled.
- ReplayRecovery.RetriedReceiptIsRefused: replay copies get safety only, because a crash between receipt and removal makes the second receipt differ, so the copy is not settled automatically.
- ReplayTool.OutboxDirectory.ReplayFailed: the failed files are taken to stay as listed; reading and deriving a record is an input, and one that fails is blocked.
- ReplayRecovery.RepeatAddsNothing: says nothing once the copy has been claimed, because replay looks in pending only and may then make a second copy.
- BodyBudget: the 32-bit cast of permits is harmless because both constructors limit bodies to 32 bits; frames and headers are reduced to sizes and outcomes.
- ScenarioWitness.Summarize: the checks on tool name, event name, truncation and provenance are one flag, and identifiers are numbered in their byte order.
- HTTP servers, child processes, watchdogs, deployment gates, the validators and the lifecycle, buyer and acceptance pipelines would add easy members or rest on modules outside this model.
