# Evidence harness: a verified model

The evidence harness runs one authorised command. It captures and redacts the command's output, writes an
append-only event log and a budget history, seals the attempt directory behind a manifest, and later judges
sealed directories with separately written validators. This project models that producer, that judge, and the
authorisation, command and trace-normalisation code around them, and proves that they agree.

The parts, in reading order:

- **Redaction and capture.** `Redactor` is the streaming algorithm as functions over tokens; `StreamingRedaction`
  is the stateful object, proved equal to it; `RedactionSafety` decides when complete output can show a secret;
  `CredentialScan` is the windowed file scan; `Capture` interleaves two threads over one quota and one kill.
- **Documents.** `RunPlans`, `Commands`, `CommandDocuments`, `Events`, `Manifest` give each contract, its canonical
  document and its reader; `Sorting` proves that distinct keys have one sorted order, and `ContractMeanings` says
  field by field what is accepted and what a document holds.
- **Log and judge.** `EventLog`, `Lifecycle`, `Budget`, `BudgetHistory`, `DirectoryJudge`: every validator is a
  method proved to report no error exactly when a declarative condition holds. `LifecycleWords`,
  `AcceptedHistories` and `Tampering` say what those conditions come to.
- **Session.** `Session` is the run session as a state machine over a map from path to bytes; `RunSessions` is the
  object with its mutable fields, every method proved to be the corresponding transition. It shares one
  `AttemptDirectories` object with the event and manifest writers. `SessionInvariant`, `EndToEnd`, `SessionRuns`
  carry the invariant; `SealedRuns`, `SealedLifecycles`, `ManifestRefusals` and `SchemaVerdicts` state the results
  about whole runs, and `RunOutcomes`, `RunLogs` and `RunAnswers` what status, log and answers tell of one.
  `SpecialNames` walks runs through the names the validator reads specially, and `SampleRuns`, over the codec of
  `LawfulText`, is one input that meets all hypotheses.
- **Authorisation.** `Authorization`, `ProfileCoherence`, `ProfileTheorems`, `TaskSources`.
- **SiRA adapter.** `SiraCommands`, `BuiltArguments`, `MatchedPair`, `PairTheorems`; `TraceSessions`,
  `TraceNormalization`, `TraceEntries`, `TraceTheorems`, `TraceNotices`.
- **Across all of it.** `ScientificLog` follows an adapter's result through any run into the log; `TraceRuns` reads
  the upstream trace back out of the retained log file.

`Common` and `Json` hold byte strings, JSON values and line framing. The JSON library, the JSON schemas, SHA-256,
regular expressions, the clock and the file system are parameters; their laws (`Text.Lawful`, an injective digest)
are hypotheses of the theorems that need them. Money and time are integer multiples of 2^-1074.

## Main results

- *Producer and judge agree.* Any run, from opening through any calls in any order, that ends sealed leaves a
  directory the validator accepts **exactly when** no declared artifact has the basename `events.jsonl` or is
  `artifact-records.jsonl`, and the schemas accept the retained plan and the events
  (`SealedRuns.SealedDirectoryVerdict`). A schema that asks nothing beyond the event constructor but for mode
  decisions makes that a matter of the calls: with ordinary names and decisions it takes, the plan's document alone
  decides (`SchemaVerdicts.DecisionsDecideVerdict`, `SchemaVerdicts.AcceptedBeforehand`).
- *Tamper evidence.* Beside an accepted directory no directory with the same manifest is accepted whose files differ
  in name, size or digest; with an injective digest the manifest determines the directory
  (`Tampering.ManifestPinsFiles`, `Tampering.ManifestDeterminesDirectory`, `Tampering.SealedRunIsPinned`).
- *The record tells what happened.* Each status word is given **exactly when** the process and its use were so, a
  sealed stream ends in that word unless accounting closed with an overrun, and the log tells opening, accounting,
  committed result and every retained file as they were (`RunOutcomes.OpenedStatus`,
  `RunOutcomes.SealedStatusInLog`, `RunLogs.LogTellsOpening`, `RunLogs.LogTellsAccounting`,
  `RunLogs.LogTellsCommitted`, `RunLogs.EveryFileIsRecorded`).
- *Capture.* In every interleaving a log is a prefix of its redacted stream and at most one kill is delivered; once
  the quota fell short the process group is terminated or a thread is on its way to that
  (`Capture.CaptureAtAnyMoment`, `Capture.ShortTakeLeadsToKill`).
- *Budget.* Every sealed history is acceptable, and with use inside the projection accounting can exceed the plan
  on wall time only, with the terminal status already set (`SealedRuns.SealedHistoryAccepted`,
  `SealedRuns.AccountingPassesOnlyWallTime`).
- *Sealing is possible.* An open session, whatever was declared, seals **exactly when** its files are declared,
  present and recordable, its use is accounted for, the sealing events are admitted, the root's `events.jsonl` is
  not declared, and the manifest file can be continued (`SealedRuns.SealsExactlyWhen`).
- *Lifecycle.* A sealed stream is complete **exactly when** no earlier seal of the run was begun and then refused
  over the manifest (`SealedLifecycles.SealedLifecycleComplete`). After such a refusal no seal can succeed until
  somebody else rewrites the manifest file, so every sealed stream is complete while nobody does so behind a call
  that declares it (`ManifestRefusals.RefusedNeverSeals`, `ManifestRefusals.CompleteWhenLeftAlone`).
- *Evidence.* A reader of any run's log file finds what earlier results that broke off left there, followed by the
  mode assignment and all events of the one committed trace, hence every raw observation, requested action and
  conditional field of it, whatever else was called (`ScientificLog.LogTellsTheResult`,
  `TraceRuns.LogKeepsTheTrace`, `TraceRuns.LogKeepsConditionals`).
- *Redaction.* Every chunking restores the input and lets no secret start at a literal byte; output is independent
  of chunking **exactly when** secrets nest at most at the end; complete output is always free of secrets
  **exactly when** a configuration test passes (`Redactor.StreamParsesInput`, `Redactor.ChunkIndependenceExact`,
  `RedactionSafety.AlwaysCleanExact`).
- *Normalisation.* Every entry of a normalised trace is given by type and key, and every unavailable field by name,
  from the trace alone (`TraceEntries.EntriesByName`, `TraceEntries.MissingByName`).
- *Authorisation.* Against any profile the loader accepts, an authorised plan is free of profile blockers
  **exactly when** it is a declared child in every field (`Authorization.AuthorizationIsExact`).
- *Built commands.* Each flag of the runner stands in the arguments **exactly when** the configuration has a value
  for it, then once and before that value (`BuiltArguments.ArgumentsTellConfig`).
- *Matched pair.* Two built commands are accepted **exactly when** their configurations agree but for job name and
  mode, they share executable, source root, wall cap and protocol digest, and their output roots differ
  (`PairTheorems.MatchedPairIsExact`).

Where the code does less than one would expect:

- The validator reads every file named `events.jsonl` as the stream, while the session does not reserve the name.
  A declared artifact of that name below the root seals and is then rejected
  (`SpecialNames.NestedLogSealsAndIsRejected`); at the root it can never seal, because it would be recorded twice
  (`SessionRuns.RootLogNeverSeals`). A declared `artifact-records.jsonl` is recorded as it was before the records
  went into it, so the directory is rejected too (`SpecialNames.RootManifestSealsAndIsRejected`).
- A seal refused over the manifest has already stopped the stream, and what it leaves in that file refuses every
  later seal. Only when somebody else then rewrites the file can the session seal, with two stops in its stream
  (`SpecialNames.EmptiedManifestStopsTwice`).
- Every command the SiRA adapter builds lists output outside the attempt, and the execution policy refuses such
  commands: none of them opens a session (`TraceRuns.BuiltCommandsDisallowed`). What is proved about traces is about
  results committed in the runs of other commands.
- The default marker is not safe for every credential: behind a match, its last byte can complete one
  (`RedactionSafety.MarkerCanCompleteASecret`).
- The loader accepts a profile whose two-plan rows pair a condition with itself; a row holds both conditions
  exactly when its children carry both order indexes (`ProfileTheorems.CoherentWithoutPairs`,
  `ProfileTheorems.RowIsMixedExactly`).
- A query locator does not determine its query (`TaskSources.QueryLocatorAmbiguity`); a slice locator does.
- A manifest record appended behind an unterminated last line leaves a file nobody can read
  (`Manifest.AppendBehindTextUnreadable`).

Hypotheses of the results about runs (`SealedRuns.Lawful`): the typed constructors accepted plan and command; the
process result has non-negative time and stays within the output quota; nobody but the session writes
`run-plan.json`, `command.json` or `events.jsonl`, and sealed directories are left alone; the event constructor
admits the session's own accounting events, which consist of numbers and fixed words; the record constructor admits
the record of the event log. One environment and one small run meet all of this, whatever is then called
(`SampleRuns.SampleIsLawful`). Declared cost and GPU hours are given as floats: the model has one exact amount where
the original also takes an integer, whose document would read back as a float under another digest. No credential
refusal and no I/O failure occurs.

## Model

| member | source | states |
|---|---|---|
| Redactor.NextMatchIsLeftmostLongest | src/giclab/harness/executor.py:238-242 | the match search returns no match only when no secret occurs, and otherwise an occurrence that no other occurrence precedes and that is the longest where it starts |
| Redactor.NextMatchUnique | src/giclab/harness/executor.py:222-242 | two candidates that both qualify are the same, so the order of the configured secrets cannot matter |
| Redactor.FeedAllKeeps | src/giclab/harness/executor.py:231-261 | after any feeds: tokens and held bytes restore the input, only secrets were matched, no secret starts at an emitted literal, and at most longest-minus-one bytes are held |
| Redactor.StreamParsesInput | src/giclab/harness/executor.py:231-261 | for every secret set and chunking, putting the matched secrets back into the tokens gives the input, only secrets are matched, and no secret starts at a byte that was let through |
| Redactor.LeftmostRunsAreClean | src/giclab/harness/executor.py:244-261 | no run of literals of such a parse contains a secret |
| Redactor.StreamIsOneShot | src/giclab/harness/executor.py:231-261 | when secrets nest at most at the end, every chunking makes the one-shot leftmost-longest parse of the whole input |
| Redactor.ChunkIndependenceExact | src/giclab/harness/executor.py:231-261 | output and redaction count are equal for all chunkings of the same input if and only if no secret occurs in another one minus its last byte |
| RedactionSafety.SafeIsClean | src/giclab/harness/executor.py:222-261 | a configuration in which no minimal secret can be completed across a replacement never shows a secret |
| RedactionSafety.AlwaysCleanExact | src/giclab/harness/executor.py:222-261 | and conversely: complete output is free of secrets for all inputs and chunkings if and only if that configuration test passes |
| RedactionSafety.OverlapFreeIsSafe | src/giclab/harness/executor.py:222-230 | it suffices that no secret contains the replacement, starts with a nonempty tail of it or ends with a nonempty head of it |
| RedactionSafety.MarkerCanCompleteASecret | src/giclab/harness/safety.py:51-55 | a concrete credential and input for which the default marker's output shows the credential |
| StreamingRedaction.StreamingRedactor.Create | src/giclab/harness/executor.py:222-229 | the constructor drops empty and repeated secrets, orders them longest first, and refuses exactly the replacements that contain one |
| StreamingRedaction.StreamingRedactor.FindNextMatch | src/giclab/harness/executor.py:238-242 | comparing first occurrences secret by secret finds the leftmost-longest match of the buffer |
| StreamingRedaction.StreamingRedactor.DrainAllMatches | src/giclab/harness/executor.py:244-251 | the match loop terminates and emits, counts and consumes exactly the matches of the functional drain |
| StreamingRedaction.StreamingRedactor.Drain | src/giclab/harness/executor.py:244-261 | final and non-final drains leave the specified buffer, output and count |
| StreamingRedaction.StreamingRedactor.FeedChunk | src/giclab/harness/executor.py:231-233 | a feed is one step of the functional stream |
| StreamingRedaction.StreamingRedactor.FinishStream | src/giclab/harness/executor.py:235-236 | finishing empties the buffer and completes the functional stream |
| StreamingRedaction.RedactStream | src/giclab/harness/executor.py:231-261 | fed chunk by chunk and finished, the object writes the rendered parse of the whole stream and counts exactly its matches |
| CredentialScan.ExactCredentialScrubber.Create | src/giclab/harness/safety.py:44-55 | an empty private value is refused, otherwise each distinct value is kept once, longest first, and the marker is dropped when it would show one |
| CredentialScan.ExactCredentialScrubber.AssertBytes | src/giclab/harness/safety.py:94-96 | clean exactly when no private value occurs |
| CredentialScan.ExactCredentialScrubber.AssertFile | src/giclab/harness/safety.py:79-92 | for every cutting into nonempty reads the windowed scan is clean exactly when the whole content contains no private value |
| CredentialScan.WindowedScanIsWholeSearch | src/giclab/harness/safety.py:79-92 | scanning on from a clean prefix with its retained tail decides the whole content |
| Capture.OutputQuota.Take | src/giclab/harness/executor.py:209-216 | one locked take accepts what is left and marks the quota exceeded exactly when it falls short |
| Capture.ProcessGroupTerminator.Call | src/giclab/harness/executor.py:274-287 | one locked call: a no-op once terminated, raised on a denial while the process runs, at most one delivery |
| Capture.EveryInterleavingKeeps | src/giclab/harness/executor.py:290-315 | the capture invariant holds after every interleaving of the two threads' steps |
| Capture.CaptureAtAnyMoment | src/giclab/harness/executor.py:202-216 | at any moment each log is a prefix of its own redacted stream, written bytes stay within the maximum, at most one kill is delivered |
| Capture.CaptureWhenStopped | src/giclab/harness/executor.py:202-216 | when both threads stopped: bytes written are min(max, offered), exceeded iff offered passes the maximum, and complete logs when not exceeded |
| Capture.ShortTakeLeadsToKill | src/giclab/harness/executor.py:298-303 | in every reachable state with the quota exceeded the group is terminated, or a thread is still writing short, about to kill, handling a denial, or stopped as failed |
| Capture.KillTerminates | src/giclab/harness/executor.py:282-315 | a kill terminates the group unless the system denies it while the process runs; the first denial is tried once more and the second one fails the thread |
| Capture.NeverStuck | src/giclab/harness/executor.py:290-315 | a thread that has not stopped always has a step that takes it on |
| Capture.LogsNeverShowSecrets | src/giclab/harness/executor.py:290-315 | with a safe configuration no log shows a secret, wherever the quota cuts it |
| RunPlans.PlanRoundTrip | src/giclab/harness/plan.py:92-257 | every valid typed plan reads back from its document unchanged |
| RunPlans.ReadPlanIsCanonical | src/giclab/harness/plan.py:92-257 | whatever document a plan was read from, it is valid and its canonical document reads as the same plan |
| ContractMeanings.PlanOkMeans | src/giclab/harness/models.py:221-750 | the typed constructors accept exactly the plans that are sound field by field, a task being a query or a nonempty slice and authority named exactly where it is given |
| ContractMeanings.ReadPlanTells | src/giclab/harness/plan.py:92-257 | a document that reads as a plan holds each of its fields under the contract's own key, and the plan is sound |
| Commands.NormalOk | src/giclab/harness/models.py:770-878 | normalising a valid command keeps it valid |
| Commands.NormalTwice | src/giclab/harness/models.py:770-878 | the normal form is a fixed point of construction |
| Commands.ConstructionIgnoresOrder | src/giclab/harness/models.py:770-878 | commands that list bindings, trees, exclusions, roots, patterns or unbounded units in any other order construct to the same command |
| ContractMeanings.ConstructMeans | src/giclab/harness/models.py:770-878 | construction succeeds exactly for sound commands: no name set twice, distinct safe paths, nothing projected for what is unbounded, use only under an enforced limit |
| ContractMeanings.ConstructedOrdered | src/giclab/harness/models.py:770-878 | the constructed command is the given one with every list ascending by its key, by code point, and nothing added, lost or changed |
| Sorting.SortedUnique | src/giclab/harness/models.py:541-553 | lists with distinct keys have one sorted order |
| CommandDocuments.ReadTrees | src/giclab/harness/models.py:1003-1033 | the reading loop builds the list of trees, or fails with the first item that does not read |
| CommandDocuments.CommandRoundTrip | src/giclab/harness/models.py:889-1110 | every constructed command is rebuilt exactly from its document |
| ContractMeanings.CommandDocumentTells | src/giclab/harness/models.py:889-935 | the canonical document holds each field of the command under its own key, and no shell |
| ContractMeanings.ReadCommandTells | src/giclab/harness/models.py:948-1110 | a document that reads as a command has the contract's keys and no shell, holds each part of it, and goes through the constructor |
| CommandDocuments.DocumentIgnoresOrder | src/giclab/harness/models.py:889-935 | commands equal up to the order of their lists have the same document |
| CommandDocuments.DocumentDeterminesCommand | src/giclab/harness/models.py:889-945 | distinct constructed commands have distinct documents |
| CommandDocuments.ReadCommandIsCanonical | src/giclab/harness/models.py:948-1110 | whatever document a command was read from, its canonical document reads as the same command |
| Events.EventRoundTrip | src/giclab/harness/events.py:37-104 | a valid event reads back from its document unchanged |
| Events.EventReadBack | src/giclab/harness/events.py:37-104 | a document that reads is the document of a valid event: nothing in it is ignored or defaulted |
| Events.CheckStream | src/giclab/harness/events.py:122-140 | the loop accepts exactly the streams of one attempt and version with strictly increasing positive sequence numbers |
| Events.ConsistentMeans | src/giclab/harness/events.py:122-140 | an accepted stream is one attempt of one run in one version whose sequence numbers are positive and strictly increase between any two events |
| Events.ReadEventsMeans | src/giclab/harness/events.py:107-140 | content reads as a list of events exactly when it has one nonblank line of JSON per event, each its valid event's own document, and they are consistent |
| Events.ReadLog | src/giclab/harness/events.py:107-140 | decoding the bytes of a log gives exactly its events in order |
| EventLog.JsonlEventWriter.Append | src/giclab/harness/events.py:270-304 | an append extends the file by exactly the event's line, or changes nothing |
| EventLog.IncrementalCheckIsFullCheck | src/giclab/harness/events.py:284-295 | comparing with the last event only is equivalent to the full stream check on the extended stream |
| EventLog.LogHoldsAcceptedEvents | src/giclab/harness/events.py:245-307 | after any series of appends by any writers, decoding the file yields exactly the accepted events in order |
| Lifecycle.CompletedStreamErrors | src/giclab/harness/events.py:143-205 | no error exactly for streams with one initial start, one final stop, one preflight between, an ordered or absent command, proper ownership and a well-formed ending |
| Lifecycle.PositionsDecide | src/giclab/harness/events.py:161-194 | the position-list checks decide that shape |
| Lifecycle.OpeningCompletes | src/giclab/harness/events.py:143-205 | any stream that opens as runs do is completed by one well-formed stop |
| LifecycleWords.ShapeIsAWord | src/giclab/harness/events.py:143-205 | the checks of the five position lists come to this: the stream begins with its start, ends with its stop, and its lifecycle events in order are one of two words |
| LifecycleWords.CompletedReads | src/giclab/harness/events.py:143-205 | complete exactly when also adapter types alone come from elsewhere than the harness and the last payload has a nonblank status and an integer return code |
| Budget.BudgetGuard.AssertWithin | src/giclab/harness/budget.py:126-148 | the violations are exactly the units over their limit |
| Budget.BudgetGuard.AssertProjected | src/giclab/harness/budget.py:49-68 | accepted exactly when the increment is non-negative and the sum stays within every limit |
| Budget.BudgetGuard.Record | src/giclab/harness/budget.py:70-124 | the ledger advances by the increment or stays untouched, and never exceeds a limit |
| Budget.LedgerConserves | src/giclab/harness/budget.py:70-124 | over any series of records the ledger is the exact sum of the accepted increments and within its limits |
| Budget.LedgerAddsUp | src/giclab/harness/budget.py:70-124 | the ledger keeps the six units apart: each is the sum of that unit over the accepted increments |
| Budget.OnlyWallTimeCanExceed | src/giclab/harness/executor.py:839-848 | with the projection inside the budget, the quota respected and use inside its projection, only wall time can pass its limit |
| BudgetHistory.RecordTotals | src/giclab/harness/artifacts.py:270-288 | one update's totals are checked and carried exactly as specified, unit by unit |
| BudgetHistory.RecordEvidence | src/giclab/harness/artifacts.py:289-336 | accounting evidence is accepted exactly when all four units are consistent with the projection |
| BudgetHistory.ValidateBudgetHistory | src/giclab/harness/artifacts.py:241-362 | no error exactly when totals are valid and never decrease, evidence is valid and as often as required, and every overrun has its terminal status |
| AcceptedHistories.TotalsOnlyGrow | src/giclab/harness/artifacts.py:270-288 | in an accepted history whatever stands under a total's key is a nonnegative number of its kind, and never less than under the same key before |
| AcceptedHistories.EvidenceOnce | src/giclab/harness/artifacts.py:343-348 | nonwall use is accounted for at most once, and exactly once where the command projects any |
| AcceptedHistories.EvidenceSays | src/giclab/harness/artifacts.py:289-336 | an accepted accounting says of each of the four units that it was observed, reserved at a positive projection, or inapplicable at none |
| AcceptedHistories.OverrunsAreNamed | src/giclab/harness/artifacts.py:335-362 | a total past its own limit, or observed past its projection, is owned up to in the terminal status |
| Manifest.RecordRoundTrip | src/giclab/harness/artifacts.py:125-168 | a record reads back from its document unchanged exactly when the constructor accepts it, and is refused as invalid otherwise |
| Manifest.RecordReadBack | src/giclab/harness/artifacts.py:125-168 | a document that reads is the document of its record, which the constructor accepts |
| Manifest.LinesMean | src/giclab/harness/artifacts.py:136-190 | lines read as a list of records exactly when there is one nonblank line of JSON per record, each its accepted record's own document |
| Manifest.ArtifactRecordWriter.AppendRecord | src/giclab/harness/artifacts.py:201-224 | an append adds one line or leaves the file unchanged, created empty if it was missing, and touches no other file |
| Manifest.ArtifactRecordWriter.AppendEach | src/giclab/harness/executor.py:650-652 | records are appended until the first refusal, with that refusal reported |
| Manifest.AppendAllExact | src/giclab/harness/artifacts.py:171-224 | on readable terminated content all appends succeed exactly when the new paths are distinct and new, and the file then reads as the old records followed by the new |
| Manifest.AppendAllRequires | src/giclab/harness/artifacts.py:171-224 | two or more appends can only all succeed on readable terminated content |
| Manifest.AppendAllBlocks | src/giclab/harness/artifacts.py:171-224 | where a series of appends broke off, the file is unreadable or holds one of the paths still to be appended |
| Manifest.AppendBehindTextUnreadable | src/giclab/harness/artifacts.py:201-224 | appending behind an unterminated line leaves an unreadable file |
| DirectoryJudge.CheckRecords | src/giclab/harness/artifacts.py:376-402 | no error exactly when paths are distinct and every record matches its file's size and digest |
| DirectoryJudge.FindEventPath | src/giclab/harness/artifacts.py:410-415 | finds the event stream exactly when one retained file has that basename |
| DirectoryJudge.CheckDocuments | src/giclab/harness/artifacts.py:416-419 | no error exactly when the event schema accepts every line's document |
| DirectoryJudge.JudgeStream | src/giclab/harness/artifacts.py:416-423 | no error exactly for readable, nonempty, schema-valid, lifecycle-complete streams |
| DirectoryJudge.ValidateArtifactDirectory | src/giclab/harness/artifacts.py:365-462 | no error exactly when manifest, event stream, contracts, schemas, command binding, budget history and identity are all in order |
| Tampering.ManifestPinsFiles | src/giclab/harness/artifacts.py:376-409 | two accepted directories with the same manifest hold the same files, each of the same size and digest |
| Tampering.ManifestDeterminesDirectory | src/giclab/harness/artifacts.py:376-409 | with an injective digest they are equal |
| Tampering.ChangedFileRejected | src/giclab/harness/artifacts.py:393-401 | an accepted directory is rejected once a file has other content, of another size or digest |
| Tampering.AddedFileRejected | src/giclab/harness/artifacts.py:402-407 | and once any file is added |
| Tampering.RemovedFileRejected | src/giclab/harness/artifacts.py:402-409 | and once any file is removed, the manifest included |
| Tampering.FilesPinManifest | src/giclab/harness/artifacts.py:376-409 | every manifest accepted beside the same files says the same of each path, size and digest |
| Tampering.AcceptedIsOneRun | src/giclab/harness/artifacts.py:410-459 | an accepted directory has one log that reads as a complete stream the schema takes, contracts bound by digest, every event of the plan's run and attempt, and an acceptable history |
| Tampering.ReadFromObjects | src/giclab/harness/artifacts.py:430-443 | each contract is read from one JSON object, and the plan from one that its schema takes |
| SessionInvariant.EmitAllGrows | src/giclab/harness/executor.py:770-793 | emission only grows the log, one event per draft in order, and stops at the first refusal |
| SessionInvariant.AccountingEvidenceOk | src/giclab/harness/executor.py:486-498 | the evidence a session writes is consistent with the projection, unavailable units charged exactly at it |
| SessionInvariant.SessionHistoryAccepted | src/giclab/harness/executor.py:471-612 | the updates a session emits, with its status, are an acceptable history |
| EndToEnd.SealEmission | src/giclab/harness/executor.py:633-642 | what recording and stopping leave in the log: numbered events, no budget change, and a completed stream when it succeeds |
| EndToEnd.ContractsHold | src/giclab/harness/executor.py:883-894 | the retained command reads back bound by digest, and the contracts are accepted, the plan read back as the session's own, if and only if the schema accepts the plan's document |
| EndToEnd.PlainManifest | src/giclab/harness/executor.py:643-653 | where neither root name is declared the manifest is written completely and is acceptable: one record per file, digests of the final bytes |
| EndToEnd.OrdinarySealJudged | src/giclab/harness/executor.py:614-672 | under ordinary names a seal that is begun fails only on a refused event, and its directory is accepted if and only if the schemas accept its documents |
| SessionRuns.SpecialNamesRejected | src/giclab/harness/artifacts.py:403-415 | a declared artifact with a special name makes every successful seal unacceptable to the validator |
| SessionRuns.RootLogNeverSeals | src/giclab/harness/artifacts.py:201-224 | a session that declares the root's event log never seals, since that log would be recorded twice |
| SpecialNames.NestedLogSealsAndIsRejected | src/giclab/harness/executor.py:402-440 | under permissive constructors a run that declares an event log below the root ends sealed, and the validator rejects its directory |
| SpecialNames.RootManifestSealsAndIsRejected | src/giclab/harness/executor.py:643-653 | so does a run that declares an empty manifest file of the root |
| SpecialNames.EmptiedManifestStopsTwice | src/giclab/harness/executor.py:633-653 | a run whose declared manifest refuses the first seal and is then emptied ends sealed with a stream that is not complete and a directory that is rejected |
| SampleRuns.SampleIsLawful | src/giclab/harness/executor.py:827-1031 | one environment and one run meet every hypothesis of the results about runs, whatever is called on it |
| SampleRuns.SampleAccepted | src/giclab/harness/artifacts.py:365-462 | that run, sealed at once, ends sealed, complete and accepted |
| SampleRuns.SampleRejected | src/giclab/harness/artifacts.py:403-415 | with a special name declared it ends sealed and rejected |
| SampleRuns.SampleIncomplete | src/giclab/harness/events.py:143-205 | with a declared manifest that first refuses and is then emptied it ends sealed and incomplete |
| SessionRuns.SealFailureKeeps | src/giclab/harness/executor.py:614-672 | a seal that was begun and failed leaves a session that still satisfies the invariant |
| SessionRuns.AttestKeeps | src/giclab/harness/executor.py:471-612 | closing accounting, including both overrun paths that seal, keeps the run invariant |
| SessionRuns.NormalizationKeeps | src/giclab/harness/executor.py:395-469 | committing an adapter result keeps the run invariant |
| SessionRuns.CallsKeep | src/giclab/harness/executor.py:395-672 | any calls in any order keep the run invariant: the session is open and in order, or was sealed from such a state |
| SessionRuns.SealedForever | src/giclab/harness/executor.py:614-676 | after sealing every call changes nothing and sealing again returns the same outcome |
| SessionRuns.OpenKeeps | src/giclab/harness/executor.py:827-1033 | every opened session satisfies the invariant: numbered events, opening shape, one budget update, status in line with the budget |
| SealedRuns.SealedDirectoryVerdict | src/giclab/harness/artifacts.py:365-462 | for every run that ends sealed: the validator accepts its directory if and only if the declared names are ordinary and the schemas accept plan and events |
| Tampering.SealedRunIsPinned | src/giclab/harness/artifacts.py:365-462 | nothing the validator accepts under the manifest of a sealed run differs from its directory in any file's presence, size or digest |
| SealedRuns.EveryRunIsNumbered | src/giclab/harness/executor.py:770-793 | every session's events are numbered exactly 1..n, belong to the run, and read back from the log |
| SealedLifecycles.SealedLifecycleComplete | src/giclab/harness/events.py:143-205 | every sealed stream, launch failures and overruns included, passes the lifecycle check if and only if no seal of its run was refused over the manifest, which never happens when the root manifest is not declared |
| SealedRuns.SealedHistoryAccepted | src/giclab/harness/artifacts.py:241-362 | every sealed budget history passes the validator, for every process result, projection and accounting |
| SealedRuns.AccountingPassesOnlyWallTime | src/giclab/harness/executor.py:546-582 | in every run, accounting inside its projection can exceed the plan on wall time only, and the status was then already budget-exceeded |
| RunOutcomes.OpenedStatus | src/giclab/harness/executor.py:938-1002 | each of the six status words is given exactly when wall time, output, launch, quota, timeout and exit code were so |
| RunOutcomes.OpenedGates | src/giclab/harness/executor.py:1180-1235 | a run is disallowed exactly when backend, command digest, timeout, unbounded or unowned output or one of the projections fails its gate |
| RunOutcomes.StatusTellsWhatHappened | src/giclab/harness/executor.py:471-612 | in every run the status is the opening's until accounting is closed, then tells an overrun of projection or budget and otherwise stays; usage is the process and what was observed or else projected |
| RunOutcomes.SealedStatusInLog | src/giclab/harness/executor.py:634-672 | the stream and the outcome of a sealed run end with that settled status and the process's return code |
| RunLogs.LogTellsOpening | src/giclab/harness/executor.py:898-1031 | the log of every run begins with plan, gates, command and process result, field by field as they were |
| RunLogs.LogTellsAccounting | src/giclab/harness/executor.py:471-612 | the budget updates of every run are the process's use and, once closed, each unit's amount and how it is known |
| RunLogs.AttestTells | src/giclab/harness/executor.py:471-612 | accounting that goes through had nothing observed past its projection and first announces the units charged unobserved |
| RunLogs.LogTellsCommitted | src/giclab/harness/executor.py:436-469 | the log of a run that commits a result tells its events, each unavailable field and each notice with its severity, kind and paths |
| RunLogs.ArtifactsRefused | src/giclab/harness/executor.py:402-435 | artifacts are refused exactly when one is missing, owned already or listed twice, and the failure says which |
| RunLogs.EveryFileIsRecorded | src/giclab/harness/executor.py:628-655 | in every sealed run each declared file but the manifest is told in the log and recorded with its path, kind, and the size and digest the directory holds |
| RunLogs.RetainedKinds | src/giclab/harness/executor.py:369-386 | the harness's four files have their kinds in every run and everything else is upstream's |
| RunAnswers.RefusalsInOrder | src/giclab/harness/executor.py:614-632 | a seal is refused for authority, undeclared files, open accounting or an undescribable file, in this order and exactly then |
| RunAnswers.SealFailures | src/giclab/harness/executor.py:614-672 | nothing else than these and a refused event, record or manifest can fail a seal |
| RunAnswers.ResultRefused | src/giclab/harness/executor.py:395-435 | a second, late or badly declared result leaves the session alone, with the answer that says which |
| RunAnswers.AccountingRefused | src/giclab/harness/executor.py:471-478 | accounting is closed once: a sealed, unauthorised or settled session refuses it and is left alone |
| RunAnswers.OverrunTold | src/giclab/harness/executor.py:498-576 | an overrun is reported as one of projection exactly when something was observed past it, and the run is then sealed behind the update and the entry that names what was observed |
| RunAnswers.UnlaunchedUsesNothing | src/giclab/harness/executor.py:1032-1045 | a run whose command never launched is sealed with no nonwall use, whatever was projected |
| SealedRuns.AuthorityNeverLost | src/giclab/harness/executor.py:678-686 | in every open session of a run the authority guard passes: an overrun always has its terminal status already, and the command keeps its digest |
| SealedRuns.SealsExactlyWhen | src/giclab/harness/executor.py:614-672 | an open session seals if and only if files are declared, present and recordable, projected use is accounted for, the sealing events are admitted, the root's event log is undeclared and the manifest file can be continued with new paths |
| SealedRuns.RefusedSealLeavesNoTrace | src/giclab/harness/executor.py:614-632 | a seal refused before anything is written, for whatever reason, or called on an ended session, can be dropped from any sequence of calls without changing the result |
| ManifestRefusals.RefusedNeverSeals | src/giclab/harness/executor.py:643-655 | after a call refused over the manifest the session stays open and cannot seal, whatever is called, until somebody else rewrites that file |
| ManifestRefusals.CompleteWhenLeftAlone | src/giclab/harness/events.py:143-205 | while nobody else rewrites the manifest file behind a call that declares it, every sealed stream passes the lifecycle check |
| SchemaVerdicts.DecisionsDecideVerdict | schemas/harness-event.schema.json:18-98 | with a schema that looks at mode decisions only, the verdict of a sealed run is decided by the declared names, the plan document, and the decisions its results got into the log |
| SchemaVerdicts.AcceptedBeforehand | src/giclab/harness/artifacts.py:365-462 | with ordinary names and decisions the schema takes in all calls, a run that ends sealed is accepted if and only if the schema accepts its plan |
| ScientificLog.EmitTells | src/giclab/harness/executor.py:436-463 | a completed emission adds exactly its scientific drafts to the log's scientific events, with source, provenance and payload |
| ScientificLog.NormalizationTells | src/giclab/harness/executor.py:395-469 | a result adds to the scientific events of the log exactly what was admitted of its events, and a committed one all of them |
| ScientificLog.LogTellsContributions | src/giclab/harness/executor.py:395-676 | in every run the log's scientific events are exactly what each result got as far as emitting, in order |
| ScientificLog.LogTellsTheResult | src/giclab/harness/executor.py:395-676 | in every run that commits a result the final log's scientific events are what earlier results that broke off left, then all of the committed one, and that one alone if and only if no earlier result got an event in |
| RunSessions.RunSession.Emit | src/giclab/harness/executor.py:770-793 | one emission appends exactly one event line or changes nothing; the log writer never refuses what its own session emits next |
| RunSessions.RunSession.EmitEach | src/giclab/harness/executor.py:436-463 | drafts are emitted in order until one is refused |
| RunSessions.RunSession.CheckArtifacts | src/giclab/harness/executor.py:402-440 | artifacts are refused exactly when missing, already owned or listed twice, with the first failure reported |
| RunSessions.RunSession.DescribeRetained | src/giclab/harness/executor.py:628-632 | one record per retained path in path order, of the file as it is now, or the first file that is missing or cannot be recorded |
| RunSessions.RunSession.WriteManifest | src/giclab/harness/executor.py:650-652 | the manifest grows by the records until one is refused |
| RunSessions.RunSession.Seal | src/giclab/harness/executor.py:614-672 | the method is the sealing transition, failure order included |
| RunSessions.RunSession.AttestAccounting | src/giclab/harness/executor.py:471-612 | the method is the accounting transition |
| RunSessions.RunSession.ApplyNormalization | src/giclab/harness/executor.py:395-469 | the method is the normalisation transition |
| RunSessions.RunSession.CloseLaunchFailure | src/giclab/harness/executor.py:1032-1045 | the method is the launch-failure transition |
| RunSessions.Execute | src/giclab/harness/executor.py:827-1031 | opening succeeds exactly when the gates pass and no opening event is refused, and yields the specified session |
| Authorization.CheckParentFile | src/giclab/harness/policy.py:251-325 | no error exactly when the recorded entry is well formed and the file is the recorded one, valid, ready and authorised |
| Authorization.CheckChildren | src/giclab/harness/policy.py:330-352 | no error exactly when every child is bound to the parent and authorised under its reference |
| Authorization.LoadAuthorizedProfile | src/giclab/harness/policy.py:227-367 | the loader accepts exactly a recorded, ready, authorised parent file with bound and coherent children whose distinct fingerprints are the sealed ones |
| Authorization.LoadedFacts | src/giclab/harness/policy.py:227-367 | what loading establishes of entry, file, each child and the sealed fingerprints, over their own fields |
| Authorization.ExecutionBlockers | src/giclab/harness/policy.py:411-452 | no blocker exactly when every permission, binding and provenance condition holds |
| Authorization.FingerprintAndParentHashDetermine | src/giclab/harness/plan.py:260-270 | with an injective digest the fingerprint and the omitted parent hash determine the plan |
| Authorization.AuthorizationIsExact | src/giclab/harness/policy.py:326-452 | against a loaded profile, an authorised plan has no profile blocker if and only if it equals a declared child in every field |
| ProfileCoherence.CheckBindings | src/giclab/harness/policy.py:136-184 | the inner loop accepts a row's bindings exactly when every one agrees with its child |
| ProfileCoherence.CheckRows | src/giclab/harness/policy.py:111-209 | the outer loop accepts exactly rows with distinct pair and task identifiers, the expected conditions, agreeing bindings and matching pairs |
| ProfileCoherence.AssertChildrenCoherent | src/giclab/harness/policy.py:82-224 | the check accepts exactly the coherent parents and children |
| ProfileTheorems.EveryChildBoundOnce | src/giclab/harness/policy.py:210-211 | in a coherent profile each child is bound by exactly one binding of one row |
| ProfileTheorems.NoUnexpectedCondition | src/giclab/harness/policy.py:104-109 | with distinct expected conditions no child runs another one, by counting |
| ProfileTheorems.SharedPairIsSharedRow | src/giclab/harness/policy.py:128-184 | two bound children share a pair identifier exactly when they stand in the same row |
| ProfileTheorems.CoherentRowFacts | src/giclab/harness/policy.py:111-209 | in a coherent profile every binding names a child with the row's condition, task, revisions, source text and order, and two plans of a row differ in condition, run and configuration digest only |
| ProfileTheorems.CoherentCounts | src/giclab/harness/policy.py:96-109 | there are as many children as pairs times conditions, and each condition has one per pair |
| ProfileTheorems.RowFixesSlice | src/giclab/harness/policy.py:156-172 | a row's locator fixes dataset, start and end of every dataset-slice child it can ever bind |
| ProfileTheorems.ParentCapsAreRowSums | src/giclab/harness/policy.py:213-224 | the parent's cost, token and wall caps are the row-by-row sums of the children's caps |
| ProfileTheorems.CapsAdd | src/giclab/harness/policy.py:213-224 | each cap of the parent is the sum of that very cap of its children, a missing token limit counting as zero |
| ProfileTheorems.RowIsMixedExactly | src/giclab/harness/policy.py:177-184 | a two-plan row runs both expected conditions if and only if its children carry both order indexes |
| ProfileTheorems.CoherentWithoutPairs | src/giclab/harness/policy.py:227-367 | a concrete profile of valid, authorised children that the whole loader accepts although none of its rows pairs the two conditions |
| TaskSources.DatasetSliceInjective | src/giclab/harness/task_source.py:13-20 | equal slice locators have equal dataset, start and end, for all dataset strings and natural indexes |
| TaskSources.DatasetSliceReads | src/giclab/harness/task_source.py:13-20 | the locator is the dataset, and in brackets two decimal texts that denote start and end, in this order |
| TaskSources.QueryLocatorAmbiguity | src/giclab/harness/task_source.py:6-10 | one source matches two different queries if and only if the longer ends in a citation of the shorter |
| SiraCommands.BuildArgv | src/giclab/harness/adapters/sira.py:858-897 | the argument list grown part by part is the head followed by the flags in their fixed order |
| BuiltArguments.ArgumentsTellConfig | src/giclab/harness/adapters/sira.py:858-897 | each flag of the runner stands exactly when the configuration has a value for it, then once and before the text of that very field |
| BuiltArguments.BuiltBindsAs | src/giclab/harness/adapters/sira.py:800-920 | a built command has the arguments, directory, time, executable, input tree, output root, secret and projection that its configuration, plan and roots say, under a plan that binds them |
| BuiltArguments.RefusedFor | src/giclab/harness/adapters/sira.py:800-856 | a build is refused over the plan exactly when that does not bind the configuration, and otherwise over dataset, checkout and roots in this order |
| BuiltArguments.TaskForms | src/giclab/harness/adapters/sira.py:123-213 | a task is a query with nothing besides, or a nonempty slice of a dataset with data root or instance by its kind |
| BuiltArguments.LockedTask | src/giclab/harness/adapters/sira.py:233-273 | a smoke run asks the one locked query and a pilot takes exactly one row |
| SiraCommands.RootsShareNothing | src/giclab/harness/adapters/sira.py:849-855 | no path lies below both the source root and the output root of a built command |
| MatchedPair.FlagValueIndex | src/giclab/harness/adapters/sira.py:612-616 | returns the value's position exactly when the flag stands once and not at the end |
| MatchedPair.CompareArgvs | src/giclab/harness/adapters/sira.py:705-730 | accepts exactly argument lists that differ at job name, mode value and output directory only |
| MatchedPair.AssertMatchedPair | src/giclab/harness/adapters/sira.py:640-780 | accepts exactly the pairs that meet every demand, and reports the three positions |
| MatchedPair.ConfigDifferencesExact | src/giclab/harness/adapters/sira.py:676-690 | documents differ under exactly job_name and mode if and only if the configurations differ in exactly those fields |
| PairTheorems.BuiltFlags | src/giclab/harness/adapters/sira.py:858-897 | in every built command the mode and output flags stand once, at known positions, before their values |
| PairTheorems.MatchedPairIsExact | src/giclab/harness/adapters/sira.py:640-780 | two built commands are accepted if and only if they share what a pair must share and their output roots differ |
| PairTheorems.AcceptedArgvs | src/giclab/harness/adapters/sira.py:705-730 | accepted arguments are equal everywhere but job name, mode word and output directory, with those values there |
| TraceSessions.ItemRoundTrip | src/giclab/harness/adapters/sira.py:1190-1219 | a well-formed history item keeps everything of the value it was read from |
| TraceSessions.ValidateSession | src/giclab/harness/adapters/sira.py:1170-1228 | a session is read exactly when every part is well formed |
| TraceSessions.HeaderFacts | src/giclab/harness/adapters/sira.py:1170-1228 | a trace is well formed at its top level exactly when each required entry is there and of its kind, null standing for no instance only |
| TraceSessions.ReconcileHistory | src/giclab/harness/adapters/sira.py:1244-1270 | the loop with its carried action accepts exactly histories whose every item agrees with the task, itself and its predecessor |
| TraceSessions.ReconcileSession | src/giclab/harness/adapters/sira.py:1235-1306 | accepted exactly when goal, length, items, completion and outcome reconcile |
| TraceSessions.ItemFacts | src/giclab/harness/adapters/sira.py:1190-1219 | a history item is well formed exactly when its three parts and each named entry are of their kinds |
| TraceSessions.ReconciledFacts | src/giclab/harness/adapters/sira.py:1235-1306 | reconciled exactly when every step agrees with goal, copies and predecessor, completion is the final message, and the test result is whether some reward is positive |
| TraceNormalization.NormalizeStep | src/giclab/harness/adapters/sira.py:1383-1483 | one pass over a step emits and lists what the specification says |
| TraceNormalization.NormalizeSession | src/giclab/harness/adapters/sira.py:1374-1523 | the loop over the history computes the specified events and unavailable list |
| TraceEntries.EntriesByName | src/giclab/harness/adapters/sira.py:1383-1522 | for every event type and key the emitted entries are, step by step, what the trace has there, then the outcome's, then rewards and test result |
| TraceEntries.EveryFieldHasItsContract | src/giclab/harness/adapters/sira.py:1352-1371 | every emitted value stands beside the contract of its own field, at its step |
| TraceEntries.MissingByName | src/giclab/harness/adapters/sira.py:1309-1500 | a name is listed exactly when it is one no trace says, a step field that step lacks, or one of the four WebArena names of a trace that is not WebArena's |
| TraceEntries.WebArenaListedExactly | src/giclab/harness/adapters/sira.py:1492-1500 | the four WebArena names are listed if and only if the trace is not WebArena's, and the base names always |
| TraceTheorems.AcceptedTracesNormalize | src/giclab/harness/adapters/sira.py:1170-1306 | every validated and reconciled trace meets all that normalisation needs |
| TraceTheorems.NothingIsLost | src/giclab/harness/adapters/sira.py:1382-1483 | the events reproduce all raw observations and requested actions in order and no others |
| TraceTheorems.EventsCarryTheTrace | src/giclab/harness/adapters/sira.py:1386-1465 | for every step and conditional field the events give exactly the trace's value, or none where it has none |
| TraceTheorems.OutcomeIsKept | src/giclab/harness/adapters/sira.py:1485-1522 | exactly one outcome is emitted, with the trace's completion, error and, for WebArena only, rewards and result |
| TraceTheorems.EmittedOrListed | src/giclab/harness/adapters/sira.py:1390-1465 | every conditional field of every step is emitted or listed unavailable, never both |
| TraceTheorems.NothingElseListed | src/giclab/harness/adapters/sira.py:1390-1465 | no field is listed for a step the trace does not have |
| TraceTheorems.MissingInjective | src/giclab/harness/adapters/sira.py:1393-1465 | a listed step field name determines field and step |
| TraceTheorems.MissingDistinct | src/giclab/harness/adapters/sira.py:1523 | the unavailable list has no duplicates |
| TraceTheorems.PlanTextsAgree | src/giclab/harness/adapters/sira.py:1258-1263 | every plan event of a reconciled trace carries two equal texts |
| TraceNotices.SourceNotices | src/giclab/harness/adapters/sira.py:1526-1584 | the loop reports step by step, in the fixed order of places, and the session error last |
| TraceNotices.NoticesExact | src/giclab/harness/adapters/sira.py:1526-1584 | a notice stands if and only if the trace has text in one of the error places, and carries that whole text |
| TraceNotices.NoticesSayPlaces | src/giclab/harness/adapters/sira.py:1526-1584 | each notice is an error or a warning, of the kind, path and provenance of its place, and carries the text found there |
| TraceNotices.PathsDiffer | src/giclab/harness/adapters/sira.py:1533-1582 | a notice's source path names one place of the trace |
| TraceRuns.BuiltCommandsDisallowed | src/giclab/harness/executor.py:1213-1222 | no command the SiRA adapter builds is allowed to run, under any plan |
| TraceRuns.LogReadsAsTrace | src/giclab/harness/adapters/sira.py:923-964 | the log file of any run that committed a trace reads as what earlier results left, the mode assignment with its full payload, and the trace's events |
| TraceRuns.LogKeepsTheTrace | src/giclab/harness/executor.py:395-676 | behind what earlier results left, that file yields all raw observations and requested actions in order and no others, and the one outcome |
| TraceRuns.LogKeepsConditionals | src/giclab/harness/executor.py:395-676 | that file yields every conditional field of every step exactly as the trace has it and none the trace lacks, unless an earlier result that broke off already told it |

## Left out

- Credential refusal during normalisation, emission and sealing, and the removal of refused entries: they overwrite the status and delete files, so the results about runs assume they do not fire.
- I/O failures, file modes, locks, `fsync`, symlinks, inode and path resolution: the attempt directory is a flat map of canonical paths, and locked sections are atomic steps.
- Subprocess launch, signals, pipes, timeouts, Git and clock readings: their results are inputs. The structural blockers and launch-time path checks of the executor are represented only where later accounting relies on them.
- The contents of the JSON schemas, YAML, the JSON library itself, timestamp parsing and regular expressions, recognisable-secret detection included: they are parameters.
- SHA-256 and the input-tree hash: digests are abstract functions, injective only where a theorem says so.
- Floating-point rounding: money and time are exact; the profile's decimal sums use an abstract decimal value of each amount, without the 28-digit context.
- Texts of error messages in events, which are shortened, and the path fields of the execution outcome.
- Unhashable evidence words and prior actions, on which the original raises a type error rather than reporting: they count as rejected.
- Capture: a thread's read and write errors other than the quota and kill paths, and the five-second join.
- SessionRuns.CallsKeep: calls by others on a sealed directory are left out, since the harness makes no promise once sealed evidence is changed.
- CommandDocuments.CommandRoundTrip: an integer `cost_usd` or `gpu_hours`, which the constructor also takes, is outside the model; its document reads back as a float and has another digest.
- SiraCommands.BuildArgv: task revisions, goals, blank texts and the two pilot rows are one parameter of the task check; the Git checkout and runner checks are one predicate of the source root.
- TraceNormalization.NormalizeSession: the locked field contracts are a parameter; the selection of the session file and of raw artifacts and the check of the WebArena output file are not modelled.
- `regulation.py`, `validation.py`, `plans.py`, `registry.py`, `sitegen.py` and `cli.py`: field checks, linting, page generation and argument parsing.
