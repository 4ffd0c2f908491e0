# Keepline verification

A model of the parts of Keepline that carry state over long runs, with proofs for every input, every run or every
reachable state. Check it with `dafny verify dfyconfig.toml` (Dafny 4.11).

## What is modelled

- **Incremental transcript parsing.** `JsonlCursor` cuts a byte stream that arrives in arbitrary chunks into records
  with offsets. `CodexParser` folds records into a session accumulator and places checkpoints. `IncrementalParse` and
  `ResumedParse` say when resuming from a checkpoint, at a later time, equals parsing from scratch, and
  `ParsedSummary` reads what a parse says off the list of the records. `SummaryCache` and `CacheProtocol` add the
  shared summary row and cursor row, for one call and for every interleaving of calls, appends and crashes.
  `LedgerFacts`, `LogCounts`, `RetentionWindow` and `ResumedLedger` add the ledger facts that a scan collects beside
  its summary and carries over in the cursor, under a retention bound that moves on between scans.
- **The transcript fact log.** `TranscriptLog` says what each record does to the log as a value,
  `TranscriptInvariants` and `TranscriptTheorems` prove what every record stream keeps, and `Completions` and
  `RecordEffects` what a result and every other record leave behind. `FactObjects` is the `TranscriptFacts` object
  itself, whose call objects are shared by the fact list and the call index and are updated in place; each method is
  proved against the value model.
- **The session/process matcher.** `Assignment` (the memoised bitmask search), `CandidateSelection` and `CandidateCut`
  (the nearest sessions, and what is lost by keeping only those), `MatchBasis`, `IdentityMatch`, `DirectoryMatch` and
  `ProcessMatcher` (the four stages and the final map). `NamedIdentity` reads off an argument list which session it
  names.
- **The reconciliation gate and recovery.** `ReconciliationGate` holds the transactions on the shared row,
  `RecoveryLaunch` the check-and-launch transaction, `DaemonScheduler` the start-up discipline. `GateRules` says what
  each transaction answers, and `RecoveredIdentity` that the matcher recognises the command which recovery launches.
  `GateProtocol` and `RecoveryProtocol` are the transition system over processes that start, exit and share PIDs over
  time.
- **Shell and AppleScript rendering.** `ShellQuote` and `TerminalScript`, read back by the token rules of the
  POSIX.1-2017 Shell Command Language (sections 2.2.1, 2.2.2 and 2.3) and by the AppleScript string escapes.
  `LaunchedCommands` follows the commands of recoveries and dispatches through both.
- **Dispatch correlation.** `TaskDispatch` and `DispatchProtocol`; `DispatchRules` reads its rules off their inputs,
  and `MarkedPrompts` says which prompts are marked for which dispatch.
- **Queue and scan scheduler.** `CompressionQueue` and `QueueRuns`; `ScanScheduler` with `BoundedText`.
- **Usage totals.** `Usage`, in exact arithmetic with a fixed price list.

Functions whose bodies are not modelled (JSON decoding, hashes, prompt extraction, tool classification, evidence
extraction, path canonicalisation, `trim`) are fields of small records that every lemma quantifies over.

## Where the code does less than its documentation promises

Each of these is proved from the code as it is, with the exact condition where there is one.

- Resuming a parse at any later time gives the accumulator of a full parse at that time if and only if the old content
  does not end in a complete record that fails to parse, which is tolerated while last, and its complete records are
  dated, or the grown content does not parse (`ResumedParse.ResumeEqualsFullParse`, `CheckpointIsGoodIff`,
  `SummaryCache.NextAnswerIsFreshIff`). The two fact fields that a parse with tool calls also returns are not part of
  this: a resumed parse collects them from the new lines only.
- The ledger facts of a resumed scan are those of a full one if and only if the project is excluded, or both scans
  collect from the start or neither does, and in the first case no old record expired between the two. So a file first
  scanned while outside the retention window stays without facts after it grows, until its cursor is rebuilt. The rule
  that rebuilds a cursor protects the turn always, and the count of unknown records only when the day changed
  (`ResumedLedger.ResumedFactsIff`, `RetentionWindow.UsableKeepsTurnAndUnknowns`, `ExpiredRecordShiftsOrder`,
  `ExpiredUnknownIsCounted`).
- A parse depends on the clock if and only if the first `session_meta`, or a kept tool call, is undated
  (`IncrementalParse.ResultIgnoresClockIff`); then the stored answer of an unchanged file differs from a fresh parse
  too (`SummaryCache.RepeatedAnswerIsFreshIff`).
- `result` ends if and only if the chain of terminal sessions from its call ends; it never ends once a call that owns
  a session is reused as a `write_stdin` on it (`TranscriptTheorems.ResultTerminatesIff`, `ReusedIdNeverEnds`,
  `ReusedIdStream`).
- The final match map is one-to-one if and only if no process that holds a session by an id starting with a dash,
  which does not reserve it, is also kept by PID continuity for an unnamed session or used by the assignment of its
  directory (`ProcessMatcher.OneToOneIff`, `LoneDashedServesTwiceIff`, `OutOfReachOneToOne`, `DashedSessionExample`,
  `DashedDirectoryExample`).
- A launched session can be launched again at once if and only if the launch was not recorded: the transaction did not
  commit, or the terminal timed out and a failing probe kept the gate from being latched
  (`RecoveryProtocol.ImmediateRelaunchIff`).
- A daemon whose set-up before the gate fails counts as running although nothing runs: later starts return at once and
  do nothing until it is stopped (`DaemonScheduler.FailedSetUpLastsUntilStop`).
- `dispatch` looks a key up and inserts it in two steps, so a second process can launch the same key again; the
  launchers of a row besides its creator are exactly those that inserted late
  (`DispatchProtocol.LaunchedOnceUnlessRaced`, `RacerLaunchesAgain`).
- A linked or failed dispatch changes exactly in the steps of a launch of it that is still under way, which can bring
  back a dispatch that a scan failed (`DispatchProtocol.FinishedStaysUnlessLaunching`, `LaunchRevives`,
  `RevivedDispatch`).
- `flush` ends from every reachable state if and only if nothing is queued or the configured concurrency and batch
  size are both positive (`QueueRuns.FlushEndsIff`, `HaltsIff`).
- Scan requests other than file changes postpone an armed scan, for as long as they keep coming
  (`ScanScheduler.OtherRequestsPostponeIff`, `RequestsCanPostponeForEver`).
- With two processes, keeping only the nearest sessions can lose the optimum (`CandidateCut.TwoProcessCutCanLose`); it
  never does for one process, or when no more sessions are within reach than are kept (`CandidateCut.CutIsLossless`).

## Model

| member | source | states |
|---|---|---|
| JsonlCursor.CutRoundTrip | src/adapters/jsonl-cursor.ts:24-38 | cutting a stream into complete records and a tail loses no byte, and no piece holds a newline |
| JsonlCursor.CutConcat | src/adapters/jsonl-cursor.ts:21-34 | cutting a grown stream never touches complete records again: only the old tail is cut together with the growth |
| JsonlCursor.LinesOfGrown | src/adapters/jsonl-cursor.ts:16-40 | the lines of a grown stream are the old complete records, none of them last, followed by the lines a reader yields that starts at the old offset and line number |
| JsonlCursor.IndexOfNewline | src/adapters/jsonl-cursor.ts:26 | the first newline at or after a position, or proof that there is none |
| JsonlCursor.ReadLine | src/adapters/jsonl-cursor.ts:27-32 | one newline: the line before is yielded, the new one held back, and the reader still describes the bytes consumed |
| JsonlCursor.ReadChunk | src/adapters/jsonl-cursor.ts:23-34 | after any chunk the reader's offset, line number, pieces and held-back line describe exactly the bytes consumed so far |
| JsonlCursor.Finish | src/adapters/jsonl-cursor.ts:36-39 | at the end of the stream an unterminated tail is the last line, otherwise the held-back line is |
| JsonlCursor.JsonlLines | src/adapters/jsonl-cursor.ts:16-40 | the yielded lines depend only on the bytes, not on the chunks; exactly the final line is last, and only an unterminated tail is unterminated |
| JsonlCursor.StripCrMeans | src/adapters/jsonl-cursor.ts:16-40 | a record keeps everything but one carriage return at its end, and is whole without one |
| CodexParser.CodexAccumulator.UpdateTimestamp | src/adapters/codex/parser.ts:150-159 | the object's new value: start moves back, last activity moves forward, undated records change nothing |
| CodexParser.CodexAccumulator.AccumulateResponseItem | src/adapters/codex/parser.ts:161-202 | the object's new value for messages, tool calls and items without payload |
| CodexParser.CodexAccumulator.Process | src/adapters/codex/parser.ts:340-347 | the object follows the value model of one record, usage included |
| CodexParser.HandleLine | src/adapters/codex/parser.ts:326-348 | one line: created, updated or unchanged accumulator; an error names the line of a malformed record that is not last |
| CodexParser.ParseCodexSession | src/adapters/codex/parser.ts:318-361 | result and checkpoint of a scan from any checkpoint are a function of the bytes alone, however they are chunked; what that result says is `ParsedSummary.ScanSays` |
| ParsedSummary.ParseSays | src/adapters/codex/parser.ts:119-202 | every successful parse, read off its list of records: identity from the first complete opening; first, last and launch prompt and last reply; counts, last tool, file and calls; earliest and latest times; usage of all records. No session exactly if nothing opens one |
| ParsedSummary.ScanSays | src/adapters/codex/parser.ts:318-361 | the same for the result of a scan of a whole file |
| IncrementalParse.SavedPosition | src/adapters/codex/parser.ts:350-358 | the checkpoint stands exactly after the last complete record |
| IncrementalParse.SavedState | src/adapters/codex/parser.ts:350-358 | the checkpoint's state is the fold of the complete records, with the tail left out, unless the last one is malformed |
| ResumedParse.ResumeEqualsFullParse | src/adapters/codex/parser.ts:318-361 | for every content and growth, cut at any byte: the checkpoint resumed at every later time gives the result and checkpoint of a full parse at that time if and only if the old content does not end in a malformed record and its complete records are dated, or the grown content fails to parse |
| ResumedParse.CheckpointIsGoodIff | src/adapters/codex/parser.ts:318-361 | a checkpoint is good for every growth and every later time if and only if the old content does not end in a malformed record and its complete records are dated |
| IncrementalParse.ResultIgnoresClockIff | src/adapters/codex/parser.ts:128-198 | a successful parse is the same under every clock if and only if no record needs the clock |
| IncrementalParse.FailureIgnoresClockAndState | src/adapters/codex/parser.ts:90-106 | whether and where a parse fails depends on neither the clock nor the state it starts from |
| SummaryCache.PrefixesEndWellIff | src/adapters/codex/parser.ts:98-105 | no prefix of a transcript ends in a malformed record if and only if no complete record of it is malformed |
| SummaryCache.GuardNeverRejects | src/infrastructure/session-summary-cache.ts:33-40 | on an append-only file a cursor is resumed exactly when the file grew past it and it stands after some record; the guard never rejects it |
| SummaryCache.OtherPrefixIsNotResumed | src/infrastructure/session-summary-cache.ts:33-40 | with a collision-free hash, a file that differs at its start or just before the checkpoint is not resumed |
| SummaryCache.ResumedScanIsFresh | src/infrastructure/session-summary-cache.ts:96-125 | on a file whose records are well formed and dated, a checkpoint taken at any earlier size, resumed by any process at any later size and time, scans exactly like a full parse |
| SummaryCache.NextAnswerIsFreshIff | src/infrastructure/session-summary-cache.ts:74-149 | after a quiet scan and a growth the next answer, at every later time, equals a fresh parse at that time if and only if the old content does not end in a malformed record and its complete records are dated, or the grown content fails to parse |
| SummaryCache.RepeatedAnswerIsFreshIff | src/infrastructure/session-summary-cache.ts:82-93 | without growth the stored answer equals a fresh parse at every later time if and only if no record makes the parse read the clock |
| SummaryCache.TranscriptCache.CachedSessionSummary | src/infrastructure/session-summary-cache.ts:74-149 | one call on a file that may grow meanwhile: fresh answer, rows stay truthful, a quiet miss makes the next call a hit, and the counters and bytes read are exact |
| CacheProtocol.StepKeeps | src/infrastructure/session-summary-cache.ts:74-149 | no append, call step or crash breaks the truth of the rows or of any call in progress |
| CacheProtocol.CallsProceed | src/infrastructure/session-summary-cache.ts:74-149 | a call in progress always has a next step |
| CacheProtocol.CacheIsTransparent | src/infrastructure/session-summary-cache.ts:74-149 | over every run of concurrent calls: summary row, cursor row and every answer equal full parses of the content they stand for |
| LedgerFacts.ObservedIs | src/infrastructure/session-summary-cache.ts:113-122 | what a scan collects: nothing once the first working directory is that of an excluded project, otherwise the log fed with every line |
| LedgerFacts.LineMeans | src/infrastructure/session-summary-cache.ts:113-122 | one line in scope: nothing if blank, one unknown record if it holds none, otherwise the effect of its record |
| LedgerFacts.CheckpointCoversRecords | src/infrastructure/session-summary-cache.ts:124-128 | the facts kept in the cursor are those of the complete records, with an unterminated tail left out |
| LogCounts.FeedCounts | src/adapters/transcript-facts.ts:189-296 | the record count, the unknown count and the turn of a log are functions of the records alone |
| LogCounts.TurnsLeaveFacts | src/adapters/transcript-facts.ts:204-268 | every record that sets the turn leaves a turn fact of its own time, and no record removes one |
| RetentionWindow.ResumedLogIff | src/infrastructure/session-summary-cache.ts:104-122 | with a retention bound that moved on past none of its facts, a restored log goes on like the log of a full scan if and only if no old record expired in between |
| RetentionWindow.UsableKeepsTurnAndUnknowns | src/infrastructure/session-summary-cache.ts:104-106 | a cursor that the rebuild rule accepts always leads to the turn of a full scan, and to its unknown count if and only if no unknown record expired, which holds whenever the day changed |
| RetentionWindow.RestoredHolds | src/adapters/transcript-facts.ts:172-185 | a restored log holds exactly the facts that have not expired and the terminal sessions whose owner is among them, and goes on from the greatest number in use |
| RetentionWindow.ExpiredRecordShiftsOrder | src/infrastructure/session-summary-cache.ts:104-106 | an input that the rule accepts although an expired record without facts shifts the order of the next call |
| RetentionWindow.ExpiredUnknownIsCounted | src/infrastructure/session-summary-cache.ts:104-106 | an input that the rule accepts on the same day although an expired unknown record is still counted |
| ResumedLedger.ScanCollects | src/infrastructure/session-summary-cache.ts:104-122 | a scan from the start collects the facts of every line, unless the ledger is off, the runtime or project is excluded, or the file was last changed before the retention bound |
| ResumedLedger.ResumedFactsIff | src/infrastructure/session-summary-cache.ts:96-122 | after any growth and at any later time, the facts of a resumed scan are those of a scan from the start if and only if the project is excluded, or both or neither of the scans collect from the start and nothing collected expired in between |
| TranscriptInvariants.AddKeeps | src/adapters/transcript-facts.ts:189-351 | every record keeps: one context fact, no repeated user message of a turn, order bounds, sessions naming known calls; and unique call ids when none is reused |
| TranscriptTheorems.StreamFacts | src/adapters/transcript-facts.ts:189-351 | what holds after every record stream: order numbers are bounded and ordered, sessions map to known calls, contexts and user messages are unique |
| TranscriptTheorems.RestoreIsIdentity | src/adapters/transcript-facts.ts:172-188 | restoring a snapshot with the same retention bound gives back the very log |
| TranscriptTheorems.SnapshotLosesNothing | src/adapters/transcript-facts.ts:172-188 | stopping after any records, saving, restoring and continuing equals never having stopped |
| TranscriptTheorems.ResultTerminatesIff | src/adapters/transcript-facts.ts:312-351 | a result is processed within a number of nested calls if and only if its chain of forwards ends within that many hops |
| TranscriptTheorems.OneForwardIsEnough | src/adapters/transcript-facts.ts:320-329 | without reused ids a forward reaches an exec call, so one nested call is enough |
| TranscriptTheorems.StreamTerminates | src/adapters/transcript-facts.ts:189-351 | every stream that reuses no call id is processed with nesting of at most one |
| TranscriptTheorems.SelfForwardNeverEnds | src/adapters/transcript-facts.ts:325-329 | a call forwarded to itself is not processed at any depth |
| TranscriptTheorems.ReusedIdNeverEnds | src/adapters/transcript-facts.ts:307-329 | reusing the id of a session's owner for a write on that session makes its result endless |
| TranscriptTheorems.ReusedIdStream | src/adapters/transcript-facts.ts:307-329 | four records from the empty log lead there: a call, its output announcing a session, a write on that session under the same id, and its output |
| TranscriptTheorems.RepeatedResultStays | src/adapters/transcript-facts.ts:320-350 | for a result whose chain of forwards through terminal sessions ends: when the call at its end was completed with the same exit code, neither its completion order, time nor place changes, and no fact changes but those the result passes through |
| TranscriptTheorems.StreamInOrder | src/adapters/transcript-facts.ts:344-350 | with nondecreasing timestamps the facts stay sorted by time although executions move to the end |
| Completions.ResultIsReceived | src/adapters/transcript-facts.ts:312-351 | a result completes exactly the calls on its chain of forwards: a mutating or execution call gets the record's order on its first exit code or a changed one, another call with file evidence when it had none, and every other call keeps its completion; evidence, output and exit code of each follow, and calls off the chain stay |
| Completions.OutputIsReceived | src/adapters/transcript-facts.ts:226-238 | the same on the log after a Codex output record of either form |
| Completions.CommandIsReceived | src/adapters/transcript-facts.ts:231-235 | an executed command is a result for its call, which is made up first if there is none |
| Completions.BlockIsReceived | src/adapters/transcript-facts.ts:270-284 | the same on the log after a Claude record with a tool result |
| Completions.FirstResultCompletes | src/adapters/transcript-facts.ts:340-343 | the first successful result of a Bash call leaves the order of its record as the completion order |
| RecordEffects.UserMessageIsKept | src/adapters/transcript-facts.ts:297-306 | the authored part of a user's message is appended once per turn, in either record form |
| RecordEffects.AgentMessageIsKept | src/adapters/transcript-facts.ts:297-306 | an agent's message is appended once per turn and finality |
| RecordEffects.CallIsKept | src/adapters/transcript-facts.ts:307-311 | a call with id and name is appended, not completed, and is the one its id now refers to |
| RecordEffects.ToolNames | src/adapters/transcript-facts.ts:312-343 | which calls are executions and which write to a terminal session: by their own name, or under a prefix that ends in a dot or underscore |
| RecordEffects.TurnIsKept | src/adapters/transcript-facts.ts:204-211 | a turn event names its turn and is followed by its last message |
| RecordEffects.OtherEventsAreKept | src/adapters/transcript-facts.ts:196-240 | a context size replaces the one before, a compaction forgets it, limits are noted, and unknown records are only counted |
| RecordEffects.ClaudePromptIsKept | src/adapters/transcript-facts.ts:261-269 | a prompt opens a turn of its own and keeps the authored part |
| RecordEffects.ClaudeContextIsKept | src/adapters/transcript-facts.ts:243-260 | a compaction forgets the context size, and a reported size replaces it, out of a million |
| RecordEffects.ClaudeReplyIsKept | src/adapters/transcript-facts.ts:285-290 | a reply is appended, and a final one ends the turn |
| RecordEffects.BlocksAreKept | src/adapters/transcript-facts.ts:270-284 | block by block: a call is appended, a result is received by the log as the blocks before left it, and a text adds nothing |
| RecordEffects.ClaudeStopIsKept | src/adapters/transcript-facts.ts:291-295 | a stop makes exactly the last reply final and closes the turn once |
| RecordEffects.ImpliedCode | src/adapters/transcript-facts.ts:270-284 | the exit code a Claude result implies: failure, nothing yet for background and pending work, success for the tools that report none |
| FactObjects.TranscriptFacts.Message | src/adapters/transcript-facts.ts:297-306 | the object's log after a message, duplicates dropped |
| FactObjects.TranscriptFacts.Tool | src/adapters/transcript-facts.ts:307-311 | a new call object, indexed and appended |
| FactObjects.TranscriptFacts.BeginCall | src/adapters/transcript-facts.ts:315-323 | completion and the announced terminal session, written through the shared call object |
| FactObjects.TranscriptFacts.PassOn | src/adapters/transcript-facts.ts:324-329 | the nested result for the call that owns the terminal session |
| FactObjects.TranscriptFacts.FinishCall | src/adapters/transcript-facts.ts:330-350 | evidence, completion order and the move to the end, written through the shared call object; when a completion is recorded is `Completions.ResultIsReceived` |
| FactObjects.TranscriptFacts.Result | src/adapters/transcript-facts.ts:312-351 | the whole result with its nested forward equals the value model, and the call objects stay linked |
| FactObjects.TranscriptFacts.DropContext | src/adapters/transcript-facts.ts:196-199 | the context fact is removed and every index stays right |
| FactObjects.TranscriptFacts.MarkReply | src/adapters/transcript-facts.ts:292-293 | exactly the last agent message becomes final |
| FactObjects.TranscriptFacts.Item | src/adapters/transcript-facts.ts:226-238 | a response item or completed item |
| FactObjects.TranscriptFacts.Blocks | src/adapters/transcript-facts.ts:270-284 | the content blocks of a Claude message in order |
| FactObjects.TranscriptFacts.Head | src/adapters/transcript-facts.ts:243-269 | compaction, context size and prompt of a Claude record |
| FactObjects.TranscriptFacts.Tail | src/adapters/transcript-facts.ts:285-295 | reply, final mark and end of turn of a Claude record |
| FactObjects.TranscriptFacts.Event | src/adapters/transcript-facts.ts:196-240 | Codex events |
| FactObjects.TranscriptFacts.Add | src/adapters/transcript-facts.ts:189-296 | one record of either runtime takes the object to the value model's log |
| FactObjects.TranscriptFacts.TakeSnapshot | src/adapters/transcript-facts.ts:186-188 | the snapshot is the saved log |
| FactObjects.TranscriptFacts.Restored | src/adapters/transcript-facts.ts:172-185 | new call objects rebuilt from a snapshot represent the restored log |
| Assignment.SolveIsLowerBound | src/services/session.process-matcher.ts:135-164 | no one-to-one plan that avoids the used sessions costs less than the recurrence |
| Assignment.FollowAttains | src/services/session.process-matcher.ts:168-177 | following the stored choices gives a one-to-one plan that costs exactly the recurrence |
| Assignment.FollowIsOptimal | src/services/session.process-matcher.ts:121-180 | the followed plan costs no more than any one-to-one plan |
| Assignment.SolveMonotone | src/services/session.process-matcher.ts:146-159 | using more sessions never lowers the cost |
| Assignment.FollowBeatsPenalty | src/services/session.process-matcher.ts:146-159 | every chosen pair costs strictly less than the unmatched penalty |
| Assignment.MemoKeyInjective | src/services/session.process-matcher.ts:140 | different process and mask pairs have different memo keys |
| Assignment.AssignmentSearch.SolveAt | src/services/session.process-matcher.ts:135-164 | the memoised search returns the recurrence and keeps every memo entry right |
| Assignment.AssignmentSearch.Replay | src/services/session.process-matcher.ts:168-177 | the reconstruction loop follows the stored choices |
| Assignment.GetBestAssignment | src/services/session.process-matcher.ts:121-180 | the assignment is one-to-one, minimal over all one-to-one plans, and every pair beats the penalty |
| CandidateSelection.CheaperThanPenaltyMeansCloseStart | src/services/session.process-matcher.ts:56-62 | a pair cheaper than the penalty started within three days |
| CandidateSelection.CostMeans | src/services/session.process-matcher.ts:42-62 | ten times the distance of the starts plus the idle time within a day; of two equally far the one active later never costs more |
| CandidateSelection.BeforeMeans | src/services/session.process-matcher.ts:64-73 | cheaper first, then active later, then by id |
| CandidateSelection.BeforeIsTransitive | src/services/session.process-matcher.ts:64-73 | the comparator is transitive |
| CandidateSelection.BeforeIsTotal | src/services/session.process-matcher.ts:64-73 | exactly one of two different candidates comes first |
| CandidateSelection.BestCostIsMinimum | src/services/session.process-matcher.ts:93-97 | the best cost is attained by some process and no process is cheaper |
| CandidateSelection.LowestCost | src/services/session.process-matcher.ts:93-97 | the first inner loop finds the best cost |
| CandidateSelection.FindInsertAt | src/services/session.process-matcher.ts:100-106 | the second inner loop finds the first place whose occupant the candidate precedes |
| CandidateSelection.SortIsSorted | src/services/session.process-matcher.ts:100-112 | inserting in turn sorts |
| CandidateSelection.SortKeepsSessions | src/services/session.process-matcher.ts:91-112 | sorting keeps exactly the given sessions, each once |
| CandidateSelection.BoundedInsertion | src/services/session.process-matcher.ts:108-115 | inserting into the kept prefix and dropping the overflow equals inserting into the whole and cutting |
| CandidateSelection.SelectCandidateSessions | src/services/session.process-matcher.ts:83-119 | bounded insertion returns the first sessions of the full sort |
| CandidateSelection.SelectionKeepsTheNearest | src/services/session.process-matcher.ts:83-119 | every kept session strictly precedes every session that was cut |
| CandidateCut.OptimumAttained | src/services/session.process-matcher.ts:121-180 | the declared optimum is attained by a one-to-one plan |
| CandidateCut.SingleProcessCutIsLossless | src/services/session.process-matcher.ts:246-266 | for one process the optimum over the kept sessions is the optimum over all |
| CandidateCut.CutIsLossless | src/services/session.process-matcher.ts:246-266 | for any number of processes: when no more sessions are within reach of some process than are kept, the optimum over the kept sessions is the optimum over all |
| CandidateCut.ReachableAreKept | src/services/session.process-matcher.ts:246-262 | when no more sessions are within reach than are kept, all of those are kept |
| CandidateCut.LimitMeans | src/services/session.process-matcher.ts:246-250 | all sessions compete up to twice the processes or two more, and never more than twenty |
| CandidateCut.TwoProcessCutCanLose | src/services/session.process-matcher.ts:246-266 | for two processes a concrete case where the kept optimum is far from the optimum |
| MatchBasis.GroupKeyInjective | src/services/session.process-matcher.ts:189-190 | equal group keys mean equal client and directory |
| NamedIdentity.NamedIff | src/services/session.process-matcher.ts:193-199 | a command line names exactly the id that follows the first flag argument or is glued to it |
| NamedIdentity.ReservedIff | src/services/session.process-matcher.ts:193-199 | a process is kept out of heuristic matching if and only if it names an id without a leading dash |
| NamedIdentity.FlagForms | src/services/session.process-matcher.ts:195-196 | all four forms name their id, after any arguments without a flag and before any others |
| NamedIdentity.NoFlagNamesNothing | src/services/session.process-matcher.ts:195-196 | arguments without a flag name nothing |
| NamedIdentity.DesktopSession | src/services/session.process-matcher.ts:193-199 | a desktop process is bound by identity and reserved |
| IdentityMatch.BindExplicit | src/services/session.process-matcher.ts:192-200 | each session is bound to the last process that names it and nothing else is bound; exactly the processes naming undashed ids are reserved |
| IdentityMatch.LaterNamesWin | src/services/session.process-matcher.ts:194-200 | of several processes that name a session the last one in the list is the one it is bound to |
| IdentityMatch.OfferRecordedPid | src/services/session.process-matcher.ts:204-219 | one session: named, or first to want the live compatible unreserved process of its PID and given it, or dropped for a reused PID, or sent to its directory; used PIDs are exactly the reserved and the wanted ones |
| IdentityMatch.BindByPid | src/services/session.process-matcher.ts:202-220 | what every session is matched with by identity, which PIDs are used, and the exact ordered list of sessions that compete in each directory |
| DirectoryMatch.GroupProcesses | src/services/session.process-matcher.ts:222-228 | the exact ordered list of processes of each directory that are neither reserved nor wanted by a session |
| DirectoryMatch.SortByStartKeeps | src/services/session.process-matcher.ts:252-254 | sorting by start time reorders the same processes |
| DirectoryMatch.DirectoryPlanIsOptimal | src/services/session.process-matcher.ts:257-266 | the plan of a directory is one-to-one, optimal over the kept sessions and beats the penalty pair by pair |
| DirectoryMatch.PlanMatchesAre | src/services/session.process-matcher.ts:268-273 | each entry of a plan yields its match and nothing else is matched |
| DirectoryMatch.DirectoryMatchesJustified | src/services/session.process-matcher.ts:257-273 | a directory matches only its own processes to its own sessions, each once, started within three days of each other |
| DirectoryMatch.LoneProcess | src/services/session.process-matcher.ts:246-273 | a process alone in its directory is used if and only if some session there costs less than the penalty |
| DirectoryMatch.UsedIsInReach | src/services/session.process-matcher.ts:246-273 | a process is used only if some session of its directory costs less than the penalty |
| DirectoryMatch.AssignDirectory | src/services/session.process-matcher.ts:244-273 | the imperative assignment adds exactly the directory's matches |
| ProcessMatcher.AssignDirectories | src/services/session.process-matcher.ts:232-274 | all directories in turn, each seeing what the earlier ones matched, give every session exactly its declared match |
| ProcessMatcher.MatchProcessesToSessions | src/services/session.process-matcher.ts:182-277 | every session gets exactly its declared match (last namer, first wanted PID, nothing for a reused PID, else its directory's optimal assignment); a session that a command line names, read off its arguments, has the last process that names it; every match has an allowed basis; and the map is one-to-one if and only if no process serves twice |
| ProcessMatcher.RecordedPidOutcome | src/services/session.process-matcher.ts:202-219 | a session nobody names whose recorded PID is live and fits: dropped if the process began over a minute after its last activity, and otherwise kept unless the PID is reserved or taken |
| ProcessMatcher.OneToOneIff | src/services/session.process-matcher.ts:192-277 | the final map is one-to-one if and only if no process that holds a session by a dashed id is also wanted by an unnamed session or used by the assignment of its directory |
| ProcessMatcher.LoneDashedServesTwiceIff | src/services/session.process-matcher.ts:192-277 | alone in its directory, a process that holds a dashed session serves two if and only if an unnamed session wants it or an open session of its directory is within reach |
| ProcessMatcher.OutOfReachOneToOne | src/services/session.process-matcher.ts:192-277 | for any number of processes, the map is one-to-one while no process that holds a dashed session is wanted by an unnamed session or has an open session of its directory within reach |
| ProcessMatcher.WithoutDashesOneToOne | src/services/session.process-matcher.ts:192-277 | while no process names an existing session by a dashed id the map is one-to-one |
| ProcessMatcher.MatchIsJustified | src/services/session.process-matcher.ts:192-273 | why a session has its process: it is named, keeps its live PID, or shares client and directory and started within three days |
| ProcessMatcher.DashedNameServesTwice | src/services/session.process-matcher.ts:195-219 | a process that alone names a dashed session and is another, unnamed session's live PID serves twice |
| ProcessMatcher.DashedSessionExample | src/services/session.process-matcher.ts:195-219 | a concrete run whose final map is not one-to-one, by way of a recorded PID |
| ProcessMatcher.DashedDirectoryExample | src/services/session.process-matcher.ts:195-273 | a concrete run without recorded PIDs whose final map is not one-to-one, by way of the shared directory |
| ShellQuote.QuoteIsOneWord | src/lib/shell-quote.ts:8-18 | the shell reads a quoted value as one word with exactly that text, whatever follows |
| ShellQuote.JoinedSplitsBack | src/lib/shell-quote.ts:21-27 | splitting the rendered command gives back the arguments |
| ShellQuote.RenderRoundTrip | src/lib/shell-quote.ts:5-27 | rendering fails exactly for no arguments, and splitting gives back the arguments if and only if none holds NUL |
| TerminalScript.LiteralRoundTrip | src/services/terminal.ts:187-191 | the AppleScript literal ends at its closing quote and holds exactly the text, whatever text it is |
| TerminalScript.RenderedCommandIsValid | src/services/terminal.ts:36-40 | the second whitelist check never rejects what the first accepted |
| TerminalScript.CommandTokens | src/services/terminal.ts:113-119 | the shell reads the command as cd, the directory, the and operator and the arguments |
| TerminalScript.OpenedCommandIsExact | src/services/terminal.ts:100-120 | a whitelisted executable is always opened, and reading the script back through AppleScript and the shell gives exactly directory, executable and arguments |
| Usage.PerTokenIsPerMillion | src/services/usage.pricing.ts:180-193 | the accumulator's per-token formula equals the per-million reference formula |
| Usage.CostOfTokens | src/services/usage.pricing.ts:180-193 | what a record costs: cache writes a quarter dearer than fresh input, cache reads a tenth of it |
| Usage.UsageAccumulator.AddUsage | src/services/usage.extractor.ts:69-110 | the object's new totals, buckets and bucket order |
| Usage.GrandTotalsAreSums | src/services/usage.extractor.ts:69-110 | totals are the sums over the records, and the cost the sum of the reference formula |
| Usage.TotalsAreOfTokens | src/services/usage.extractor.ts:69-110 | the input total is the sum of fresh input, cache writes and cache reads, the output total of output alone |
| Usage.OrderIsFirstSeen | src/services/usage.extractor.ts:112-138 | the breakdown lists models in order of first appearance |
| Usage.BucketIsModelSum | src/services/usage.extractor.ts:82-109 | each bucket holds the sums over the records of its model |
| Usage.TotalsAreConserved | src/services/usage.extractor.ts:112-138 | totals equal the sums over the breakdown |
| Usage.Tally | src/services/usage.extractor.ts:180-229 | the batch loop with its own variables computes the folded accumulator |
| Usage.AggregateUsageStats | src/services/usage.extractor.ts:173-256 | the batch aggregation equals folding the accumulator over the usable entries, breakdown order included |
| ReconciliationGate.SharedRow.BeginSessionReconciliation | src/services/session-reconciliation-gate.ts:88-114 | the row taken, or the refusal; an unfinished invalidation stays unfinished |
| ReconciliationGate.SharedRow.InvalidateSessionClaims | src/services/session-reconciliation-gate.ts:117-127 | only the current token invalidates |
| ReconciliationGate.SharedRow.CompleteSessionReconciliation | src/services/session-reconciliation-gate.ts:133-145 | only the current token completes, from any unfinished phase |
| ReconciliationGate.SharedRow.FailSessionReconciliation | src/services/session-reconciliation-gate.ts:151-167 | only the current token fails, and only once |
| ReconciliationGate.SharedRow.IsSessionReconciliationRunning | src/services/session-reconciliation-gate.ts:174-190 | the answer, and the row marked failed when an invalidating owner died |
| GateRules.BeginOutcome | src/services/session-reconciliation-gate.ts:82-114 | the gate is taken unless the caller cannot be identified, the recorded peer lives, or that cannot be told; unfinished invalidations stay |
| GateRules.CheckOutcome | src/services/session-reconciliation-gate.ts:169-190 | who is told running: everybody for a failed gate, one's own and a living peer's; a dead peer's gate is open or marked failed |
| GateRules.TokenOutcome | src/services/session-reconciliation-gate.ts:117-167 | a token other than the one in the row does nothing |
| ReconciliationGate.UnfinishedSurvives | src/services/session-reconciliation-gate.ts:88-190 | an unfinished invalidation survives every transaction but its own completion, and every check of it is refused or answered with running |
| GateProtocol.StepKeeps | src/services/session-reconciliation-gate.ts:88-190 | no step of any process breaks the invariant: outstanding claims keep the gate unfinished, and the row names its owner |
| GateProtocol.GateStaysClosed | src/services/session-reconciliation-gate.ts:169-190 | in every reachable world, from the clearing of claims until the current token completes, the gate is invalidated or failed and everyone is told running, through every owner death, takeover and rescan |
| GateProtocol.LiveOwnerIsNotOvertaken | src/services/session-reconciliation-gate.ts:82-114 | while the recorded owner lives no other process's step changes the row, even with reused PIDs |
| GateProtocol.TakeoverIffNoLivePeer | src/services/session-reconciliation-gate.ts:96-111 | with working probes the gate is taken if and only if no other living process is its recorded owner |
| GateProtocol.StaleTokenStaysStale | src/services/session-reconciliation-gate.ts:117-167 | a token that lost or finished the gate can never complete, fail or invalidate again, over any run |
| RecoveryLaunch.ShownRecovers | src/cli/service-recovery.ts:75-120 | a preview is shown if and only if the session is lost, valid and recoverable as recommended, and it is then the command built for it |
| RecoveryLaunch.RecoveryHandler.PreviewRecovery | src/cli/service-recovery.ts:75-120 | every refusal in order, or the preview of the command built for the session, in its directory; the gate row as the check leaves it |
| RecoveryLaunch.RecoveryHandler.ExecuteRecovery | src/cli/service-recovery.ts:122-160 | row, session status, launched commands and reply of one execution, with rollback of all but the terminal; whatever a terminal runs is the command built for the session |
| RecoveryLaunch.OpensOnlyWhatWasConfirmed | src/cli/service-recovery.ts:133-143 | with a collision-free hash a terminal only runs the confirmed preview of a lost session, which is the command built for it, while the gate is open |
| RecoveryLaunch.RunsWhatWasBuilt | src/cli/service-recovery.ts:122-143 | a terminal runs something if and only if the gate is open, the session recoverable and the user confirmed what would run, unless the terminal refuses; and then it is the command built for the session |
| RecoveredIdentity.ResumedProcessNamesItsSession | src/services/recovery.service.ts:24-92 | the matcher reads the id of a resumed Claude session off the command that recovery built, and reserves the process unless the id starts with a dash; the other commands name nothing unless their prompt or raw id is itself a flag argument |
| LaunchedCommands.RecoveryRunsExactly | src/services/terminal.ts:100-120 | what the shell reads from the script of a recovery is, word for word, the command built for the session, whatever its prompt |
| LaunchedCommands.DispatchRunsExactly | src/services/terminal.ts:100-120 | what the shell reads from the script of a dispatch is the runtime's executable with the whole marked prompt as its one argument |
| RecoveryLaunch.LaunchLeavesATraceIff | src/cli/service-recovery.ts:144-157 | a launch is recorded if and only if the session was marked running or the gate was failed under its own token |
| RecoveryProtocol.NoLaunchWhilePending | src/cli/service-recovery.ts:132-143 | no launch from the clearing of claims until the current token completes |
| RecoveryProtocol.ImmediateRelaunchIff | src/cli/service-recovery.ts:132-158 | a session can be launched again at once if and only if its launch was not recorded |
| RecoveryProtocol.LaunchesAreSeparated | src/cli/service-recovery.ts:132-158 | between a recorded launch and the next one of the session, it was observed lost or a reconciliation completed |
| RecoveryProtocol.TimedOutLaunchBlocksPreviews | src/cli/service-recovery.ts:148-153 | after a recorded timed-out launch every preview is refused until another owner completes |
| DaemonScheduler.Daemon.StartScheduler | src/services/daemon.scheduler.ts:50-119 | gate row, flags and timers after a start, in every failure branch |
| DaemonScheduler.Daemon.StopScheduler | src/services/daemon.scheduler.ts:122-146 | a running scheduler is idle afterwards, whatever state its start left; an idle one is left alone |
| DaemonScheduler.Daemon.Reconcile | src/services/daemon.scheduler.ts:75-104 | begin, invalidate, scan, then complete or fail |
| DaemonScheduler.StartNeverOpensEarly | src/services/daemon.scheduler.ts:74-104 | a start succeeds exactly when it owned the gate and scanned fully, never drops an earlier unfinished invalidation, and fails its own |
| DaemonScheduler.FailedSetUpLastsUntilStop | src/services/daemon.scheduler.ts:50-146 | after any calls, a start whose set-up fails leaves a scheduler that counts as running; every later start does nothing and leaves the gate alone until a stop, after which it is idle |
| DaemonScheduler.StartSurvivesOthers | src/services/daemon.scheduler.ts:75-104 | with any steps of other processes between its own, every step of a living owner's start stays possible, its token holds the gate throughout and its completion leaves the gate ready |
| DispatchRules.AcceptedIff | src/services/task-dispatch.service.ts:105-122 | which requests are accepted, and how they are stored |
| DispatchRules.SameRequestIff | src/services/task-dispatch.service.ts:123-135 | a row answers a request of its key if and only if it was made for the same request |
| DispatchRules.LaunchedRowMeans | src/services/task-dispatch.service.ts:139-172 | the row after a launch: what was asked for, its deadline, its state |
| TaskDispatch.DispatchTable.Dispatch | src/services/task-dispatch.service.ts:105-173 | a known key returns its row or a conflict and launches nothing; a new key makes exactly one row, awaiting or failed, and launches its command once |
| TaskDispatch.DispatchTable.Launch | src/services/task-dispatch.service.ts:139-172 | the new row after a launch that worked, did not open, or could not be recorded on the work item; the launched command ends in the marked prompt, in the dispatch's directory |
| DispatchRules.CandidateIff | src/services/task-dispatch.service.ts:184-202 | the candidates of a dispatch: root sessions of its runtime and directory, new since and active after its launch, within the deadline |
| TaskDispatch.CollectCandidates | src/services/task-dispatch.service.ts:184-202 | the candidate map holds exactly the eligible sessions of every launched dispatch that is in time, and the map by id holds all of them |
| TaskDispatch.CollectPrompts | src/services/task-dispatch.service.ts:204-227 | every candidate of a runtime is judged by the prompt its transcript yields, and by the stored one only if nothing failed to be read |
| TaskDispatch.FailedReadIsNoEvidence | src/services/task-dispatch.service.ts:223-225 | a session whose transcript was not read, in a scan in which something failed, is marked for no dispatch |
| MarkedPrompts.MarksIff | src/services/task-dispatch.service.ts:229-234 | a prompt is marked for a dispatch if and only if the marker with its id is a line of it |
| MarkedPrompts.LaunchPromptMarks | src/services/task-dispatch.service.ts:62-78 | the prompt a dispatch launches with is marked for it, and otherwise only for what the task's own text marks |
| TaskDispatch.CollectOwners | src/services/task-dispatch.service.ts:229-239 | the owner map holds exactly the dispatches each session is marked for |
| TaskDispatch.DispatchTable.Scan | src/services/task-dispatch.service.ts:175-239 | the plan of one scan over the pending rows: candidates, launch prompts with their fallback, and owners |
| TaskDispatch.DispatchTable.Claim | src/infrastructure/database/repositories/task-dispatch.repository.ts:196-257 | a session is claimed if and only if no other row holds it |
| TaskDispatch.DispatchTable.Reconcile | src/services/task-dispatch.service.ts:241-286 | one dispatch of a scan: linked, ambiguous, awaiting, failed or unchanged, with unique claims kept |
| MarkedPrompts.OwnCandidateIsLinked | src/services/task-dispatch.service.ts:241-276 | a scan in time links a launched dispatch to its only candidate when that carries the prompt it was launched with and nobody else claims it |
| DispatchRules.ScanOutcome | src/services/task-dispatch.service.ts:241-286 | what a scan makes of an unfinished dispatch: failed past its deadline, untouched before its launch, else linked, ambiguous or awaiting |
| TaskDispatch.DispatchTable.ResolveSession | src/services/task-dispatch.service.ts:289-316 | every refusal in order, or the link the user chose |
| DispatchRules.ChoiceIff | src/services/task-dispatch.service.ts:289-316 | a user's choice is taken if and only if the dispatch awaits one in time, for an existing candidate nobody else holds |
| DispatchProtocol.StepKeeps | src/services/task-dispatch.service.ts:105-316 | no step of any caller, scan or user breaks unique keys, unique claims or what running scans rely on |
| DispatchProtocol.NoSessionLinkedTwice | src/infrastructure/database/migrations/012_unique_dispatch_session_claim.ts:46-50 | over every run no two dispatches share a key or a linked session |
| DispatchProtocol.SharedSessionIsNotLinked | src/services/task-dispatch.service.ts:251-257 | a session marked for two pending dispatches of a scan is linked by it to neither, whatever happens to the rows meanwhile |
| DispatchProtocol.LinkedInTime | src/services/task-dispatch.service.ts:258-276 | a scan links only its one marked eligible candidate, held by nobody else, and only if it began before the deadline |
| DispatchProtocol.FinishedStaysUnlessLaunching | src/services/task-dispatch.service.ts:139-286 | a linked or failed dispatch changes in exactly the steps of a launch of it that is still under way: marking it launching, recording the launch, and failing one that was linked |
| DispatchProtocol.LaunchRevives | src/services/task-dispatch.service.ts:139-262 | after every run: when a scan began past the deadline of a row whose terminal is open but not recorded, the scan fails the row and the launch then brings it back to awaiting its session |
| DispatchProtocol.RevivedDispatch | src/services/task-dispatch.service.ts:139-262 | a run from the empty table in which a dispatch that a scan failed is brought back |
| DispatchProtocol.LaunchedOnceUnlessRaced | src/services/task-dispatch.service.ts:123-158 | over every run, of the callers that launch a row exactly the one that inserted it is not one that looked its key up while no row had it and inserted after that row was there |
| DispatchProtocol.CreatorIsNotLate | src/services/task-dispatch.service.ts:123-138 | over every run, the caller whose insert made a row never inserted late for it, because it inserts once |
| DispatchProtocol.RacerLaunchesAgain | src/services/task-dispatch.service.ts:123-158 | after every run, a caller whose lookup found nothing while the key has a row by now can insert, mark and launch that row again |
| CompressionQueue.TakesTheOldest | src/services/compression.queue.ts:156-168 | a batch is the oldest queued items, as many as free places and batch size allow |
| CompressionQueue.OutcomesPartition | src/services/compression.queue.ts:175-202 | a settled batch splits into retried, completed and failed items without loss or overlap |
| QueueRuns.Queue.Enqueue | src/services/compression.queue.ts:118-143 | the new queue, and whether processing is triggered |
| QueueRuns.Queue.TakeBatch | src/services/compression.queue.ts:148-168 | the batch taken and the state it leaves, counters equal to the sizes |
| QueueRuns.Queue.SettleItem | src/services/compression.queue.ts:175-202 | one settled item: completed and counted, queued again, or failed |
| QueueRuns.Queue.SettleBatch | src/services/compression.queue.ts:170-203 | the state after any batch in flight settles, counters equal to the sizes, ratios appended |
| QueueRuns.Queue.UpdateAverageRatio | src/services/compression.queue.ts:262-275 | the mean of the last hundred ratios |
| QueueRuns.Queue.Flush | src/services/compression.queue.ts:301-309 | with positive limits, and whatever other batches are in flight, flushing ends with every item completed or failed |
| QueueRuns.ConservedCount | src/services/compression.queue.ts:148-203 | enqueued items are pending, processing, completed or failed |
| QueueRuns.HaltsIff | src/services/compression.queue.ts:148-309 | while items are left no step is possible if and only if no batch is in flight and the concurrency or batch size is not positive |
| QueueRuns.DrainingRun | src/services/compression.queue.ts:148-203 | with positive limits every item can be brought to its end by steps that are all effective |
| QueueRuns.FlushEndsIff | src/services/compression.queue.ts:301-309 | from every reachable state, batches overlapping in any way: every run without new items is bounded, and all of them end with every item completed or failed if and only if nothing is queued or both limits are positive |
| QueueRuns.EveryRunIsConserved | src/services/compression.queue.ts:118-203 | however batches overlap: conservation, the concurrency bound, and at most one start more than the retries |
| QueueRuns.WorkEnds | src/services/compression.queue.ts:148-203 | without new items the number of effective steps is bounded by the work left |
| ScanScheduler.Scheduler.ScheduleScan | src/services/service-runtime.ts:368-372 | the timer rearmed unless stopped |
| ScanScheduler.Scheduler.RequestScan | src/services/service-runtime.ts:394-402 | an urgent request: remembered during a scan, otherwise 250 ms from now |
| ScanScheduler.Scheduler.RequestFileScan | src/services/service-runtime.ts:403-408 | a file change: remembered during a scan, otherwise armed only if that is earlier |
| ScanScheduler.Scheduler.TimerFires | src/services/service-runtime.ts:272-283 | the timer is used up and a scan begins unless stopped or running |
| ScanScheduler.Scheduler.ScanEnds | src/services/service-runtime.ts:340-388 | the end of a scan and its callback: next delay, completion, and what is armed next |
| ScanScheduler.Scheduler.StopService | src/services/service-runtime.ts:440-444 | the service counts as stopped and no timer is armed |
| ScanScheduler.NoRequestIsLost | src/services/service-runtime.ts:263-408 | over every run: at most one scan, never armed beside it, no request lost, and armed or running until the first completion |
| ScanScheduler.RequestsAreServed | src/services/service-runtime.ts:372-388 | a waiting request is served by the next timer or arms one within two seconds of the scan's end |
| ScanScheduler.ArmedAfterAScanIff | src/services/service-runtime.ts:376-387 | after a scan the timer is armed if and only if something is left to do, and within three seconds for pending dispatches |
| ScanScheduler.NextScanIsDue | src/services/service-runtime.ts:340-388 | when the next scan is due: 250 ms for urgent requests, two seconds after the start for others, the retry delay for an unfinished startup scan, else the interval, at most three seconds while dispatches wait |
| ScanScheduler.FileRequestsNeverPostpone | src/services/service-runtime.ts:403-408 | file changes never move an armed scan later and leave one due within two seconds |
| ScanScheduler.OtherRequestsPostponeIff | src/services/service-runtime.ts:394-402 | other requests postpone exactly the scans due within 250 ms |
| ScanScheduler.RequestsCanPostponeForEver | src/services/service-runtime.ts:394-402 | requests that keep coming within 250 ms postpone the scan for any length of time |
| BoundedText.ReadBoundedText | src/services/service-runtime.ts:81-105 | exactly the last bytes of the stream remain, however it is chunked, and never more are held |

## Left out

- JSON parsing and every other function over record payloads: decoding, prompt extraction, evidence extraction and
  tool classification are uninterpreted, so their regular expressions are not modelled.
- The Claude transcript parser: the fact log covers Claude records, but the summary of a Claude file does not.
- CodexParser.ParseCodexSession: the result is the accumulator; the `transcriptFacts` and `unknownRecords` that a
  parse with tool calls also returns are not part of it.
- ResumedParse.ResumeEqualsFullParse: about the accumulator and the checkpoint only. A resumed parse with tool calls
  collects its facts from the new lines alone; no caller in the repository resumes with tool calls.
- SummaryCache.TranscriptCache.CachedSessionSummary: one transcript, and without the ledger facts; those are in
  `ResumedLedger`, for one resumption of one file. The parse is Codex's.
- ResumedLedger.ResumedFactsIff: for scans whose results are not forwarded without end; when the configuration changes
  between the scans the cursor is rebuilt.
- Replacing a transcript file, or rewriting it in place: the file only grows, and a fingerprint determines its
  content.
- TranscriptTheorems.SnapshotLosesNothing: at an unchanged retention bound; `RetentionWindow` has the moving one.
- Assignment.GetBestAssignment: at most 30 sessions, beyond which the 32-bit shifts would wrap, and memo keys as exact
  integers, which doubles are below 2^53; the caller passes at most 20 sessions.
- DirectoryMatch.DirectoryPlanIsOptimal: optimal over the kept sessions only; over all sessions it can be false for
  two processes, and is proved where no more sessions are within reach than are kept.
- The collation behind `localeCompare`: any total order on strings.
- UTF-8 decoding: records are compared as bytes; only the final carriage return is looked at.
- RecoveryLaunch.RecoveryHandler.ExecuteRecovery: the terminal automation is three outcomes, the recovery source is
  given, and permissions are not skipped.
- GateProtocol.GateStaysClosed: probes tell the truth or fail; two processes that share PID and start time text one
  after the other are allowed, and only make the gate more cautious.
- Warp's keystroke delivery: only the string literal in its script is covered.
- TaskDispatch.DispatchTable.Dispatch: one call while no other call for the same key is under way; the interleavings
  are in `DispatchProtocol`.
- TaskDispatch.DispatchTable.Scan: what each runtime's transcript scan yields is given; error texts and the work
  item's own status are not modelled.
- ScanScheduler.Scheduler.ScanEnds: the end of a scan and its `finally` callback are one step, and the child process
  that does the scan is reduced to how it ends.
- Floating-point rounding, wall-clock values, the loading of price lists and the warning for unknown models.
- The user interface, the Rust workbench, the tray application, the HTTP routes and the endless mode.
