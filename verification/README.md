# X-Claw in Dafny

X-Claw is a gateway between chat channels and language models. This project models its state
machines and text algorithms and proves what they guarantee over all inputs, runs and crash points.
Each module stands for one component:

- `Splitter` - outbound messages cut into chunks, with code fences closed and reopened by rewriting
  the rest of the text. Chunks are bounded and lose nothing; the loop ends when fence lines fit and is
  shown to run forever when one does not.
- `Transcript`, `Pruner`, `Runner` - the history that is sent to a model: the sanitiser, the pruner, and
  the iteration runner with its retries, compaction, steering input, loop detection and tool turns. Every
  list handed to a provider has its tool calls answered.
- `InboundQueue` - dispatcher, one worker for each bucket key, semaphore and steering side channel as
  an interleaved transition system: order, bounds, no deadlock, completion.
- `JsonlStore` - the append-only history with its metadata file, crashing between any two writes,
  refines a list.
- `Cron` - jobs with a persisted copy, a loop, restarts and repair: at most one run of a one-time job,
  spacing of periodic ones, nobody stranded, every run closed by one record.
- `Cooldown`, `Fallback` - backoff deadlines that never move back, and the chain that consults them.
- `VectorIndex` - an incremental index that equals one built from scratch.
- `Lines`, `MemoryBlocks`, `MemoryWriteback` - parser and printer of the memory file, and the write-back
  that keeps its blocks within their limits.
- `ScopeCache`, `MediaStore` - a cache that refines a list in order of use, and three maps kept in step.
- `Text`, `Wrappers` - character classes, trimming and subsequences; values that may be missing.

A component that changes state in place is a class or a method with the loops of the original; its
contract ties it to a function on values, and the lemmas are about that function. What comes from outside
(clock readings, answers of models, tools and embedders, random ids) is a parameter. Counters and
ticks are unbounded integers; text is a sequence of runes, `len` of a Go string taken as its number of runes.

Some guarantees one would expect do not hold as the code stands. Each is stated with the condition under
which it does, and with an input or a run that shows the failure: `Splitter.StuckReturnsIff` and
`Splitter.OneBlockReturnsIff` (a long fence line), `Pruner.LastEightKeptIff` (long results in condensed
histories), `JsonlStore.AddAppendsIff`, `JsonlStore.TornRunsExact`, `JsonlStore.CompletedRefinesIff` and
`JsonlStore.TruncateKeepsLastIff` (torn and corrupt lines), `Cron.DisabledStartsIff` (a job disabled after
it was collected), `Cron.RestartKeepsRunIff` (a one-time job that is due, or comes due while the process
is down, when the service restarts), `Cooldown.ShorterWindowFails` (the failure window),
`VectorIndex.AnswersRightIff` and `VectorIndex.UnstampedEditIff` (edits within one second),
`MemoryBlocks.RoundTripIff` and `MemoryWriteback.ReadOnlySurvivesIff` (headings inside blocks, which
cutting a block or dropping its NULs can forge), `MediaStore.RemovalKeepsBackedIff` (shared files).

`dafny verify dfyconfig.toml` checks the whole project.

## Model

| member | source | states |
|---|---|---|
| Splitter.FindLastNewlineInRange | pkg/channels/manager.go:752-760 | returns the last newline within the search window, or start - 1 |
| Splitter.FindLastSpaceInRange | pkg/channels/manager.go:764-772 | returns the last space or tab within the search window, or start - 1 |
| Splitter.LastMatchIsLast | pkg/channels/manager.go:752-772 | what the two window searches return is the last match: nothing behind it in the window matches, and "none" means nothing does |
| Splitter.FindNewlineFrom | pkg/channels/manager.go:741-748 | the loop returns the newline that NewlineFrom specifies |
| Splitter.NewlineFromIsFirst | pkg/channels/manager.go:741-748 | a position is returned exactly when it holds a newline and no newline lies between; -1 exactly when there is none |
| Splitter.FindNextClosingCodeBlockInRange | pkg/channels/manager.go:730-737 | returns the place behind the next fence, or -1 |
| Splitter.FindLastUnclosedCodeBlockInRange | pkg/channels/manager.go:708-726 | pairing fences from left to right, returns the one left open at the end of the range, or -1 |
| Splitter.FindCut | pkg/channels/manager.go:596-697 | the search for the end of one chunk, branch by branch, computes ChooseCut |
| Splitter.ChooseCut | pkg/channels/manager.go:606-697 | every cut stays inside the text and leaves a chunk, including an injected closing fence, of at most maxLen runes |
| Splitter.SplitMessage | pkg/channels/manager.go:577-704 | the loop returns what the step function reaches; every chunk has at most maxLen runes and the non-whitespace runes of the input are a subsequence of those of the chunks; maxLen <= 0 returns the text whole |
| Splitter.ChunksAreSafe | pkg/channels/manager.go:596-704 | for every text, every maxLen and after any number of turns, also in runs that never end: no chunk is too long, and the chunks with what is left hold every non-whitespace rune in order |
| Splitter.FenceFreeIsExact | pkg/channels/manager.go:694-704 | without code fences the input is exactly chunk, blank gap, chunk, blank gap, and so on |
| Splitter.LaterWindow | pkg/channels/manager.go:609-654 | a newline found in the later search window is never before the cut that the earlier window suggested |
| Splitter.ReopenConsumes | pkg/channels/manager.go:644-685 | a cut that puts the fence line back consumes more runes than it puts back, when fence lines fit |
| Splitter.RewriteFits | pkg/channels/manager.go:657-661 | after the rest of the text is rewritten every fence line in it still fits |
| Splitter.StepShrinks | pkg/channels/manager.go:596-701 | each turn leaves strictly less text, also where the fence line is put back, and keeps the bound on fence lines |
| Splitter.SplitReturns | pkg/channels/manager.go:577-704 | the call returns for every text whose trimmed fence lines have at most maxLen - 7 runes, and for every text when maxLen < 5 |
| Splitter.StuckReturnsIff | pkg/channels/manager.go:641-662 | for every text longer than a chunk with a fence at its head whose line does not fit and no other fence in reach of a chunk, whatever its end: the call returns if and only if the fence line and the ink (the text up to its last rune that is not space) together have at most 2 * maxLen - 6 runes, which is when the text rewritten once fits a chunk; otherwise it never ends |
| Splitter.StuckDiverges | pkg/channels/manager.go:641-662 | such a text with more than maxLen runes of ink, white space at its end not counted, never ends |
| Splitter.OneBlockReturnsIff | pkg/channels/manager.go:577-704 | for a text whose only fence is at its head, whatever its end, the call returns if and only if maxLen < 5, the text fits whole, the fence line has at most maxLen - 7 runes, or fence line and ink together have at most 2 * maxLen - 6 |
| Splitter.OpenBlockDiverges | pkg/channels/manager.go:641-662 | an unclosed block that opens at the head of the text behind a fence line that does not fit sends the loop into an endless run when the ink is longer than a chunk, also when the text ends in white space |
| Splitter.CutFenceReturns | pkg/channels/manager.go:603-615 | behind other text such a fence line can be harmless: a family of texts where the first cut goes through the fence and the call returns |
| Splitter.GolangFenceDiverges | pkg/channels/manager.go:577-704 | a concrete such text that ends in a line break: a golang fence line for chunks of ten |
| Splitter.FindNaturalEnd | pkg/channels/manager.go:603-615 | newline, then blank, then the effective limit |
| Splitter.FindHeader | pkg/channels/manager.go:631-641 | the trimmed fence line and the end of its line |
| Splitter.FindInnerEnd | pkg/channels/manager.go:645-654 | a late newline behind the fence line, or the limit less the room for a closing fence |
| Splitter.FindCutBefore | pkg/channels/manager.go:665-686 | a cut before the fence, or inside the block as a last resort |
| Splitter.FindOpenCut | pkg/channels/manager.go:620-688 | the cut of a chunk that would end inside a block |
| Splitter.SkipLeadingBlank | pkg/channels/manager.go:697-700 | the first rune behind the cut that is not blank |
| Transcript.SanitizeHistoryForProvider | pkg/agent/context.go:760-857 | the loop with its pending map and call order computes Sanitize, and its result has the accepted format |
| Transcript.FlushPendingToolCalls | pkg/agent/context.go:768-787 | adds one placeholder for every id still pending, in call order |
| Transcript.CollectCallIds | pkg/agent/context.go:837-845 | the pending ids are the distinct non-empty call ids, in order |
| Transcript.SanitizeIsSanitary | pkg/agent/context.go:760-857 | for any history: no system message; each tool turn with n distinct ids is followed by n results carrying exactly those ids; results follow results or a turn; a turn follows a user or tool message |
| Transcript.SanitizeFixpointIff | pkg/agent/context.go:760-857 | the sanitiser leaves a history unchanged if and only if it already has that format |
| Transcript.SanitizeIdempotent | pkg/agent/context.go:760-857 | sanitising twice is sanitising once |
| Transcript.SanitizeKeepsPlain | pkg/agent/context.go:791-857 | every plain user or assistant message is kept, in order, and none is added |
| Transcript.SanitizeAddsOnlyPlaceholders | pkg/agent/context.go:760-857 | apart from placeholders the output is a subsequence of the input |
| Transcript.SanitizeChained | pkg/agent/context.go:760-857 | on a nearly well-formed history the sanitiser drops exactly the chains of tool exchanges that do not follow the user |
| Pruner.PruneHistoryForContext | pkg/agent/context.go:639-707 | the passes compute Prune, keep the exchange of calls and results and the recent messages |
| Pruner.CompactOldChitChat | pkg/agent/context.go:709-758 | the loop replaces each run of two or more acknowledgements before the cutoff by one note |
| Pruner.FindRunEnd | pkg/agent/context.go:741-744 | the end of a run of acknowledgements |
| Pruner.CondenseOldResults | pkg/agent/context.go:658-680 | the loop condenses long tool results before the cutoff and copies the rest |
| Pruner.ClearLongResults | pkg/agent/context.go:692-704 | clears long results from the front until the estimate is below the trigger |
| Pruner.PruneKeepsExchange | pkg/agent/context.go:639-758 | pruning keeps the sequence of tool calls and tool results up to the text of the results |
| Pruner.RecentKept | pkg/agent/context.go:639-707 | from the old cutoff on the pruned list agrees with the end of the history |
| Pruner.LastEightKeptIff | pkg/agent/context.go:639-707 | the last eight messages come through unchanged if and only if pruning is off or not needed, or the clearing pass changes none of them: it changes one exactly when that is a tool result over the limit, not yet omitted, and the estimate is still over the trigger with everything before it cleared |
| Pruner.ShortResultsKept | pkg/agent/context.go:679-707 | a history with no tool result over the limit among its last eight messages keeps them all |
| Pruner.LastEightKept | pkg/agent/context.go:639-707 | when nothing was condensed the last eight messages are untouched |
| Pruner.RecentResultCleared | pkg/agent/context.go:679-707 | a family of histories that fails the condition: two acknowledgements condensed, and the long result that is eighth from the end is cleared |
| Pruner.PruneIsCondensed | pkg/agent/context.go:639-758 | pruning a sanitised history breaks no pairing; a plain message before a tool turn is the user's or a note |
| Pruner.PruneThenSanitize | pkg/agent/context.go:541-543 | sanitising after pruning a sanitised history adds no placeholder and drops only chains of tool turns directly behind a note |
| Runner.BuildIsReady | pkg/agent/context.go:495-558 | any session, however damaged, is assembled into a list fit to be sent |
| Runner.BuildMessagesForSession | pkg/agent/context.go:495-558 | the assembly computes BuildMessages and its result is fit to be sent |
| Runner.ReadyGrowsTurn | pkg/agent/loop_tools.go:137-161 | a tool turn with one result for each call keeps a list fit to be sent |
| Runner.ReadyGrowsSteered | pkg/agent/loop.go:1468-1481 | steering input appended as user messages keeps a list fit to be sent |
| Runner.KeepStart | pkg/agent/loop_compaction.go:477-491 | the cut leaves the shortest end of the history with enough tokens, else the last four messages, and always something on both sides |
| Runner.CompactWithSafeguard | pkg/agent/loop_compaction.go:458-525 | a compaction happens exactly when more than six messages are left and a summary was written, and leaves the proper suffix behind the cut point; it fails exactly when more than six are left and no summary can be had |
| Runner.LlmIterationRunner.PerformLLMCall | pkg/agent/loop.go:1211-1274 | hands the current list to a provider; it is fit to be sent |
| Runner.LlmIterationRunner.HandleContextWindowRetry | pkg/agent/loop.go:1296-1370 | a compaction rebuilds the list from the session, and the new list is fit to be sent; otherwise nothing changes; the call is retried unless a compaction that was needed failed |
| Runner.LlmIterationRunner.CallLLMWithRetry | pkg/agent/loop.go:1184-1209 | at most three calls, each with a list fit to be sent; every call but the last ended in a timeout or in a context window error whose compaction did not fail on the session of that call; an answer belongs to the list now at hand |
| Runner.LlmIterationRunner.AbsorbSteeringMessages | pkg/agent/loop.go:1451-1502 | appends the trimmed non-blank steering messages to list and session and reports whether there were any |
| Runner.LlmIterationRunner.DetectToolCallLoop | pkg/agent/loop.go:1029-1052 | names the first call already made three times in a row with the same result |
| Runner.LlmIterationRunner.HandleToolLoop | pkg/agent/loop_tools.go:69-101 | a detected loop appends the turn with a notice for every call, to the list only |
| Runner.LlmIterationRunner.RecordRecentToolCalls | pkg/agent/loop_tools.go:122-135 | adds the signatures of the executed calls and keeps the latest 24 |
| Runner.LlmIterationRunner.ExecuteAndApply | pkg/agent/loop_tools.go:137-161 | appends the turn and one result for each call, in order, to list and session |
| Runner.LlmIterationRunner.HandleLLMResponse | pkg/agent/loop.go:1504-1551 | stops on a direct answer or an exceeded tool budget without touching the transcript; otherwise extends it by one answered turn |
| Runner.LlmIterationRunner.Proceed | pkg/agent/loop.go:1113-1128 | behind an answer steering input extends the list and discards the reply; without any the reply is handled |
| Runner.LlmIterationRunner.Iterate | pkg/agent/loop.go:1101-1128 | after one turn of the loop the list continues the one the provider answered: with steering input, with the requested turn and its results, with loop notices, or unchanged when the run is done |
| Runner.LlmIterationRunner.Run | pkg/agent/loop.go:1101-1132 | over a whole run, whatever the provider, the tools and steering do, every list handed to a provider is fit to be sent, and there are at most three calls an iteration |
| Runner.RunLLMIteration | pkg/agent/loop.go:1055-1132 | the same for a run begun from any session |
| Runner.SteeringMessages | pkg/agent/loop.go:1468-1481 | the trimmed non-blank steering texts as user messages |
| Runner.TurnMessages | pkg/agent/loop_tools.go:137-161 | the assistant message followed by one result for each call |
| InboundQueue.StepInv | pkg/agent/loop.go:366-436 | every step of dispatcher or worker keeps the invariant: at most maxConc messages in processing, at most one for each key, nothing lost or reordered |
| InboundQueue.InitInv | pkg/agent/loop.go:308-310 | the invariant holds at the start |
| InboundQueue.WorkerMoves | pkg/agent/loop.go:379-407 | a worker moves messages along its own bucket only: processed, in hand and queued together stay the same sequence |
| InboundQueue.ConsumeInOrder | pkg/agent/loop.go:431-437 | taking a message from the bus keeps each key's messages in order of arrival |
| InboundQueue.DivertInOrder | pkg/agent/loop.go:413-424 | diverting a steering message keeps the order of the rest and accounts for the diverted one |
| InboundQueue.NoDeadlock | pkg/agent/loop.go:378-437 | in every reachable state with work left some step is enabled, also with the dispatcher blocked on a full bucket and workers waiting for the semaphore |
| InboundQueue.StepProgress | pkg/agent/loop.go:378-437 | every step leaves strictly less to do |
| InboundQueue.RunInv | pkg/agent/loop.go:308-437 | the invariant and the bound on steps hold along every run |
| InboundQueue.RunArrived | pkg/agent/loop.go:431-437 | what was taken from the bus followed by what is on it is the input |
| InboundQueue.QuietProcessed | pkg/agent/loop.go:366-429 | when all is quiet each key has processed exactly its non-diverted input in order of arrival |
| InboundQueue.EveryRunCompletes | pkg/agent/loop.go:308-437 | every run over n messages has at most 13 n steps, and one that cannot go on has processed everything |
| JsonlStore.AddAppendsIff | pkg/memory/jsonl.go:218-268 | a completed append appends to the history if and only if the data file ends in a newline |
| JsonlStore.TornAppendLosesNext | pkg/memory/jsonl.go:239-243 | behind a torn line the next acknowledged message is lost |
| JsonlStore.TornRunsExact | pkg/memory/jsonl.go:218-268 | over any run of appends, torn appends, summaries and compactions exactly the first append behind a torn one is lost; all others are read back in order, then the torn part if it decodes |
| JsonlStore.EveryHappeningExact | pkg/memory/jsonl.go:218-438 | over every run of all operations, each cut short after any number of writes, and torn appends: the skip offset stays within the data file, and the exact history that each happening leaves |
| JsonlStore.CompletedRefinesIff | pkg/memory/jsonl.go:218-438 | after every such run a completed operation acts on the history as on a list if and only if it is neither an append behind a torn one nor a truncation that keeps a corrupt line and drops a message |
| JsonlStore.AfterValid | pkg/memory/jsonl.go:218-456 | the skip offset never exceeds the number of lines, at any crash point of any operation |
| JsonlStore.TruncateKeepsLastIff | pkg/memory/jsonl.go:327-361 | truncation keeps exactly the last n messages if and only if nothing is dropped or kept, no kept line is corrupt, or every dropped line is |
| JsonlStore.TruncateKeepsTooFew | pkg/memory/jsonl.go:327-361 | a run from the empty store that fails it: an append, a torn one and two more leave two messages, and truncating to two leaves one |
| JsonlStore.CompactKeeps | pkg/memory/jsonl.go:402-438 | a completed compaction leaves the history unchanged |
| JsonlStore.SetHistorySets | pkg/memory/jsonl.go:363-392 | a completed replacement is read back as given |
| JsonlStore.CompletedRefines | pkg/memory/jsonl.go:218-438 | on clean files every completed operation is its list operation |
| JsonlStore.CrashLosesNothing | pkg/memory/jsonl.go:382-392 | after a crash the history is the new one or ends in the old one |
| JsonlStore.EveryRunRefines | pkg/memory/jsonl.go:218-438 | along every run of operations, each of which may crash between any two file writes, the store refines a list |
| JsonlStore.AcknowledgedSurvive | pkg/memory/jsonl.go:218-268 | in a run without truncation or replacement every acknowledged message can be read back, in order |
| JsonlStore.JSONLStore.ReadMessages | pkg/memory/jsonl.go:131-177 | the scan returns the decodable lines behind the skip offset |
| JsonlStore.JSONLStore.GetHistory | pkg/memory/jsonl.go:270-290 | returns the history that the two files stand for |
| JsonlStore.JSONLStore.AddMsg | pkg/memory/jsonl.go:218-268 | the disk after any number of the writes of an append |
| JsonlStore.JSONLStore.TruncateHistory | pkg/memory/jsonl.go:327-361 | the disk after a truncation that crashed or completed |
| JsonlStore.JSONLStore.ReplaceHistory | pkg/memory/jsonl.go:363-392 | the disk after a replacement that crashed or completed |
| JsonlStore.JSONLStore.Rewrite | pkg/memory/jsonl.go:375-392 | metadata before data, with a crash possible between the two |
| JsonlStore.JSONLStore.CompactFile | pkg/memory/jsonl.go:402-438 | the disk after a compaction that crashed or completed |
| JsonlStore.JSONLStore.SaveSummary | pkg/memory/jsonl.go:306-325 | the disk after a summary write |
| JsonlStore.JSONLStore.CountLines | pkg/memory/jsonl.go:181-200 | counts the lines a scanner sees |
| Cron.AtRunsOnce | pkg/cron/service.go:101-217 | across any run of starts, stops, crashes, toggles and clock steps the handler of an "at" job starts at most once |
| Cron.EveryIsSpaced | pkg/cron/service_runner.go:126-142 | of two runs of an "every" job the later starts at least everyMs after the earlier began |
| Cron.NeverStranded | pkg/cron/service.go:182-217 | while the service is up an enabled recurring job has a next run, runs, or is in the due list |
| Cron.RunsAreClosed | pkg/cron/service_runner.go:68-116 | each begun run of a job still present is closed by exactly one record under its run id, in order, except the one running; the stored history is the last 20 of all records |
| Cron.DiskIsCurrent | pkg/cron/service_store.go:42-48 | after every step the file holds the jobs in memory |
| Cron.StepInv | pkg/cron/service.go:101-217 | every step keeps the invariant of the service |
| Cron.BeginKeeps | pkg/cron/service_runner.go:30-46 | the start of a run keeps what holds of its job |
| Cron.FinishKeeps | pkg/cron/service_runner.go:68-142 | the end of a run keeps it, with one more record and a new next run |
| Cron.StartKeeps | pkg/cron/service.go:101-123 | a restart keeps it, closing an open run as aborted |
| Cron.DueIdsExact | pkg/cron/service.go:189-195 | the collected ids are exactly those of the due jobs, each once |
| Cron.DisabledStartsIff | pkg/cron/service_runner.go:30-46 | in every reachable state: a job that is disabled can start again before it is enabled if and only if the loop had collected it by then |
| Cron.DisabledRuns | pkg/cron/service_runner.go:30-46 | a run from the start of the service in which a job disabled after it was collected runs |
| Cron.BarredNeverStarts | pkg/cron/service.go:182-212 | a job neither collected nor planned does not start in any run of events, unless it is enabled while its schedule has a next run |
| Cron.WaitingStarts | pkg/cron/service.go:197-212 | a collected job starts when nothing but the loop goes on |
| Cron.RestartPlansIff | pkg/cron/service.go:101-123 | after a restart a one-time job that has not run is planned exactly when it is enabled and its time lies ahead |
| Cron.RestartKeepsRunIff | pkg/cron/service_schedule.go:13-19 | in every reachable state: after a restart a one-time job that has not run can still start if and only if its time lies ahead; otherwise it is lost for good, even when it is enabled again |
| Cron.OneTimeRunLost | pkg/cron/service_schedule.go:59-67 | four runs from the start of the service that lose the run of a due job: a crash before and after it is collected, a stop, and its time passing while the process is down |
| Cron.CronService.StartService | pkg/cron/service.go:101-123 | loads the file, closes stale runs, recomputes next runs and saves |
| Cron.CronService.StopService | pkg/cron/service.go:125-137 | only the running flag changes |
| Cron.CronService.CheckJobs | pkg/cron/service.go:182-212 | collects the due jobs, clears their next runs and saves when there are any |
| Cron.CronService.BeginJobRun | pkg/cron/service_runner.go:30-46 | marks the job running unless it is gone or running already |
| Cron.CronService.FinishJobRun | pkg/cron/service_runner.go:68-142 | closes the run with one record and plans, disables or removes the job |
| Cron.CronService.ClearStaleRunningStates | pkg/cron/service_schedule.go:69-108 | every running job is closed as aborted |
| Cron.CronService.RecomputeNextRuns | pkg/cron/service_schedule.go:59-67 | every enabled job gets its next run |
| Cron.CronService.AddJob | pkg/cron/service_store.go:50-90 | adds exactly the accepted schedules |
| Cron.CronService.RemoveJob | pkg/cron/service_store.go:106-128 | removes the job and saves when there was one |
| Cron.CronService.EnableJob | pkg/cron/service_store.go:130-153 | toggles the first job with the id and recomputes its next run |
| Cron.CronService.CollectDue | pkg/cron/service.go:189-195 | the ids of the due jobs, in order |
| Cron.CronService.MarkCollected | pkg/cron/service.go:197-205 | clears the next runs of the collected jobs and of no other |
| Cron.CronService.FindJob | pkg/cron/service_runner.go:144-151 | the first job with the id |
| Cron.CronService.PickJob | pkg/cron/service_runner.go:10-12 | the loop takes the first due id and reads the clock |
| Cron.CronService.HandlerReturned | pkg/cron/service_runner.go:22-23 | the clock is read when the handler returns, before the lock |
| Cron.CronService.CrashAndLoad | pkg/cron/service.go:91-99 | a fresh process holds what is in the file and nothing else |
| Cooldown.NeverSooner | pkg/providers/cooldown.go:43-67 | after any run with a non-decreasing clock a further failure of any kind lowers neither deadline and makes the provider available at no new time, for every window of at least 24 h - 5 h - 1 ms |
| Cooldown.ShorterWindowFails | pkg/providers/cooldown.go:50-63 | for every shorter window a fifth billing failure brings the provider back sooner |
| Cooldown.FailureKeepsBounds | pkg/providers/cooldown.go:43-67 | each deadline stays within the last failure plus the backoff of its count, also when the window resets the counters |
| Cooldown.CountersMatchStreak | pkg/providers/cooldown.go:50-84 | the counters are the lengths of the current streak of failures, in all and by reason, and the total is the sum over the reasons |
| Cooldown.StandardTable | pkg/providers/cooldown.go:225-231 | one, five and twenty-five minutes, then an hour |
| Cooldown.BillingTable | pkg/providers/cooldown.go:240-249 | five, ten and twenty hours, then a day |
| Cooldown.CooldownTracker.MarkFailure | pkg/providers/cooldown.go:43-67 | only the provider's entry changes, to that of one more failure |
| Cooldown.CooldownTracker.MarkSuccess | pkg/providers/cooldown.go:70-84 | clears the counters and deadlines of a known provider only |
| Cooldown.CooldownTracker.IsAvailable | pkg/providers/cooldown.go:87-109 | true when neither deadline lies ahead |
| Cooldown.CooldownTracker.UnavailabilityReason | pkg/providers/cooldown.go:111-131 | gives a reason exactly while the provider is unavailable |
| Cooldown.CooldownTracker.CooldownRemaining | pkg/providers/cooldown.go:154-181 | the provider is available from then on and at no moment before |
| Cooldown.CooldownTracker.CountFailure | pkg/providers/cooldown.go:50-66 | resets expired counters, counts the failure and sets the deadline of its kind |
| Fallback.FallbackChain.Execute | pkg/providers/fallback.go:101-211 | stops at the first candidate that the chain does not pass, with the attempts, calls, ending and cooldowns that belong to it |
| Fallback.StopsOnce | pkg/providers/fallback.go:114-210 | there is exactly one such candidate |
| Fallback.NeverAsksUnavailable | pkg/providers/fallback.go:114-143 | candidates are called in order, each at most once, and never one whose provider is unavailable when it is checked |
| Fallback.CalledIff | pkg/providers/fallback.go:121-143 | before it stops the chain has called exactly the candidates available at their check |
| Fallback.SuccessMeans | pkg/providers/fallback.go:146-153 | success at candidate k means k attempts, all skips or retriable failures of candidates 0..k-1 in order, and the provider is available at once |
| Fallback.ExhaustedIff | pkg/providers/fallback.go:203-210 | the chain is exhausted if and only if it passes every candidate; then there is one attempt for each, in order |
| Fallback.FatalStops | pkg/providers/fallback.go:166-191 | a format or unclassified error stops at once and leaves all cooldowns as they were before that candidate |
| Fallback.SameProviderSkipped | pkg/providers/fallback.go:120-139 | after a retriable failure every later candidate of the same provider reached within a minute is skipped |
| VectorIndex.EnsuredIsFromScratch | pkg/agent/memory_vector.go:315-341 | after any run of edits, settings changes, restarts, lost files and failing embedders, an index that is made sure of holds exactly the documents and vectors of embedding everything afresh |
| VectorIndex.RebuiltIsFromScratch | pkg/agent/memory_vector.go:343-431 | a rebuild does so without any assumption on file stamps |
| VectorIndex.ReuseIsFromScratch | pkg/agent/memory_vector.go:357-403 | filling in reusable vectors gives what embedding everything gives |
| VectorIndex.RebuildIsRight | pkg/agent/memory_vector.go:343-431 | a rebuild that succeeds installs the right index in cache and file, one that fails changes nothing |
| VectorIndex.StepFaithful | pkg/agent/memory_vector.go:161-190 | every step keeps each index equal to what its fingerprint stands for |
| VectorIndex.AnswersRightIff | pkg/agent/memory_vector.go:315-331 | in every reachable state, with no assumption on size and time: an index that fits is served as it is and is right exactly when its texts are those of the files now; otherwise the answer is right exactly when the rebuild succeeds |
| VectorIndex.UnstampedEditIff | pkg/agent/memory_vector.go:315-331 | after an edit and a dirty mark, with a right index on disk: when the size or second of some file changed the answer is right exactly when the rebuild succeeds, and when none did exactly when the drafts are the same |
| VectorIndex.NoteMissed | pkg/agent/memory_vector.go:321-328 | a family of runs that fails it: a note is replaced by another of its size within the second, and the old one is served |
| VectorIndex.MemoryVectorStore.ApplySettings | pkg/agent/memory_vector.go:161-184 | replaces settings and embedder and drops the cache exactly when either changed |
| VectorIndex.MemoryVectorStore.CollectSourceFiles | pkg/agent/memory_vector.go:433-480 | the main file and the existing notes of the recent days, with their fingerprint |
| VectorIndex.MemoryVectorStore.BuildDocuments | pkg/agent/memory_vector.go:491-537 | the drafts of all non-blank files, in order |
| VectorIndex.MemoryVectorStore.LoadReusable | pkg/agent/memory_vector.go:357-373 | the vectors on disk by id, when the signature is the same and not blank |
| VectorIndex.MemoryVectorStore.FillVectors | pkg/agent/memory_vector.go:379-403 | every document gets its reused or fresh vector, or the call fails |
| VectorIndex.MemoryVectorStore.RebuildFromSources | pkg/agent/memory_vector.go:343-431 | the loops compute the rebuild step |
| VectorIndex.MemoryVectorStore.EnsureIndex | pkg/agent/memory_vector.go:315-333 | cache, file or rebuild, in this order |
| VectorIndex.MemoryVectorStore.DropCache | pkg/agent/memory_vector.go:186-190 | only the cache is dropped |
| VectorIndex.MemoryVectorStore.NewIndex | pkg/agent/memory_vector.go:352-425 | the index that a rebuild installs, or failure |
| MemoryBlocks.ParseMemoryBlocks | pkg/agent/memory_blocks.go:57-91 | the line loop computes ParseBlocks |
| MemoryBlocks.RenderMemoryBlocks | pkg/agent/memory_blocks.go:93-114 | the printer writes the four sections in order |
| MemoryBlocks.RoundTripIff | pkg/agent/memory_blocks.go:57-114 | parsing undoes printing if and only if no content line is itself the heading of a block |
| MemoryBlocks.WritableReadBack | pkg/agent/memory_blocks.go:57-114 | the writable blocks are read back whatever the read-only ones contain |
| MemoryBlocks.ParsedIsClean | pkg/agent/memory_blocks.go:73-90 | parsed contents contain no block heading |
| MemoryBlocks.HeadingOfName | pkg/agent/memory_blocks.go:74-84 | the printed heading of each block is recognised as that block |
| MemoryWriteback.ExtractBlockEntries | pkg/agent/memory_blocks.go:125-149 | the line loop computes Extract |
| MemoryWriteback.ExtractNeat | pkg/agent/memory_blocks.go:141-146 | every entry is one line, tight and with single spaces |
| Lines.CompactNeat | pkg/agent/memory_embedder.go:153-155 | a compacted text is neat or empty, and a neat text is left as it is |
| Lines.CompactInk | pkg/agent/memory_embedder.go:153-155 | compacting loses and reorders nothing but white space |
| MemoryWriteback.MergeBlockEntries | pkg/agent/memory_blocks.go:151-178 | the loop with its set of seen keys computes Merge |
| MemoryWriteback.DedupKeys | pkg/agent/memory_blocks.go:158-176 | merging loses no key |
| MemoryWriteback.DedupDistinct | pkg/agent/memory_blocks.go:158-176 | merging keeps one entry for each key |
| MemoryWriteback.DedupSubseq | pkg/agent/memory_blocks.go:158-176 | merging adds nothing and keeps the order |
| MemoryWriteback.MergeKeepsBase | pkg/agent/memory_blocks.go:171-176 | what was there stays in front |
| MemoryWriteback.ClipEntriesToLimit | pkg/agent/memory_blocks.go:180-208 | the backward loop and the reversal compute Clip |
| MemoryWriteback.ReverseInPlace | pkg/agent/memory_blocks.go:204-206 | the swapping loop reverses the list |
| MemoryWriteback.ClipKeepsNewest | pkg/agent/memory_blocks.go:180-208 | the newest entries that fit are kept, as many as fit, or the beginning of the newest when not even it fits; the result fits |
| MemoryWriteback.PrintedEntriesReadBack | pkg/agent/memory_blocks.go:125-222 | extracting printed entries returns them, and no item is a heading |
| MemoryWriteback.RenderEntryList | pkg/agent/memory_blocks.go:210-222 | the loop computes RenderEntries |
| MemoryWriteback.WritableSafe | pkg/agent/memory.go:245-257 | whatever was extracted, a writable block is within its limit, has no heading line and lists its entries |
| MemoryWriteback.WritebackReadsBack | pkg/agent/memory.go:235-260 | parsing the written file gives the writable blocks and their entries exactly |
| MemoryWriteback.FileReadsBack | pkg/agent/memory_blocks.go:241-253 | so does reading the file the way the store does |
| MemoryWriteback.ReadOnlyIndependent | pkg/agent/memory.go:247-252 | read-only blocks do not depend on the extracted text and stay within their limits |
| MemoryWriteback.SecondWritebackKeeps | pkg/agent/memory.go:254-256 | organizing a writable block again with nothing new leaves it as it is, rune for rune |
| MemoryWriteback.SecondFileKeeps | pkg/agent/memory.go:235-260 | the same for the whole file, written, read and written again |
| MemoryWriteback.ReadOnlySurvivesIff | pkg/agent/memory.go:234-263 | the read-only blocks are read back from the written file, freed of NULs, trimmed and cut to their limits, if and only if no line of those texts is the heading of a block |
| MemoryWriteback.ReadOnlyUntouchedIff | pkg/agent/memory.go:239-252 | organizing leaves a read-only block as it is if and only if that holds no NUL and is within its limit |
| MemoryWriteback.ReadOnlyUnchanged | pkg/agent/memory.go:234-263 | read-only blocks of a labelled file without NUL and within their limits come through the write-back and are read back unchanged |
| MemoryWriteback.TruncationForgesHeading | pkg/agent/memory.go:247-250 | cutting a read-only block to its limit can turn a line into a heading: a family of texts |
| MemoryWriteback.NulForgesHeading | pkg/agent/memory.go:239-243 | so can dropping NULs, with nothing cut: a file whose persona is within its limit and is not read back |
| MemoryWriteback.OrganizeBlock | pkg/agent/memory.go:239-257 | the content computed for one block |
| MemoryWriteback.MemoryStore.OrganizeWriteback | pkg/agent/memory.go:235-260 | the file becomes the printed organized blocks of its old content and the extracted text |
| MemoryWriteback.OrganizeBlocks | pkg/agent/memory.go:239-257 | every block is organized, in order |
| MemoryWriteback.MemoryStore.ReadAsBlocks | pkg/agent/memory_blocks.go:241-256 | the blocks of a text, with the older sections as a fallback |
| ScopeCache.HoldsMostRecent | pkg/agent/context_memory.go:59-139 | after any run of requests the cache holds exactly the latest distinct directories, as many as the limit allows |
| ScopeCache.RequestedIsKept | pkg/agent/context_memory.go:121-139 | the directory just requested is in front and never dropped |
| ScopeCache.CutThenRequest | pkg/agent/context_memory.go:69-95 | evicting before or after a request makes no difference within the limit |
| ScopeCache.OldestScope | pkg/agent/context_memory.go:73-87 | the scan finds the least recently used directory other than the preserved one |
| ScopeCache.Evict | pkg/agent/context_memory.go:69-95 | the loop ends within the limit and drops the least recently used directories only |
| ScopeCache.ScopedMemories.MemoryForSession | pkg/agent/context_memory.go:104-139 | refines the request on the list; a cached store is returned as it is, a new one is made otherwise, no other store changes |
| ScopeCache.DropOldest | pkg/agent/context_memory.go:89-94 | exactly the least recently used directory goes |
| ScopeCache.ScopedMemories.TouchScope | pkg/agent/context_memory.go:51-57 | the directory moves to the front with the latest tick |
| ScopeCache.ScopedMemories.EvictScopes | pkg/agent/context_memory.go:59-96 | the list is cut to the limit |
| MediaStore.StoreKeeps | pkg/media/store.go:101-106 | registering a file keeps the three maps consistent |
| MediaStore.WithoutKeeps | pkg/media/store.go:149-206 | removing any references keeps the three maps consistent, with no empty scope |
| MediaStore.ReleaseExact | pkg/media/store.go:138-157 | releasing a scope removes exactly its references and the scope |
| MediaStore.CleanExact | pkg/media/store.go:175-207 | cleaning removes exactly the references older than the cutoff |
| MediaStore.RemovalKeepsBackedIff | pkg/media/store.go:159-217 | the references left still lead to files if and only if none shares its file with a removed one |
| MediaStore.SharedFileLost | pkg/media/store.go:138-170 | a run from the empty store that fails it: one file registered in two scopes, of which the first is released, leaves the second without its file |
| MediaStore.FileMediaStore.Store | pkg/media/store.go:91-109 | registers an existing file under the new reference, else changes nothing |
| MediaStore.FileMediaStore.ReleaseAll | pkg/media/store.go:138-170 | maps and files become those of the release |
| MediaStore.FileMediaStore.CleanExpired | pkg/media/store.go:175-220 | maps and files become those of the cleaning, and the number removed is returned |
| MediaStore.FileMediaStore.Resolve | pkg/media/store.go:112-121 | finds the path of a known reference |
| MediaStore.FileMediaStore.DropRefs | pkg/media/store.go:149-155 | takes references out of both maps and collects their paths |
| MediaStore.FileMediaStore.DropExpired | pkg/media/store.go:186-207 | the sweep removes exactly the expired references from all three maps |
| MediaStore.FileMediaStore.CleanOne | pkg/media/store.go:190-206 | one reference is removed exactly when it is older than the cutoff |
| MediaStore.FileMediaStore.DropRef | pkg/media/store.go:194-204 | takes one reference out of all three maps, and its scope when it was the last |
| MediaStore.FileMediaStore.DeleteFiles | pkg/media/store.go:209-217 | the files of the removed references are deleted |

## Left out

- Splitter.SplitReturns: states a sufficient condition on all fence lines; an exact one is proved for texts whose only fence is at the head, since a longer fence line elsewhere does no harm when its block closes within reach.
- Splitter.OpenBlockDiverges: the block opens at the head of the text; behind other text it need not diverge, as Splitter.CutFenceReturns shows.
- Splitter: balance of fences within each chunk, which the code does not promise.
- JsonlStore.EveryRunRefines: an append is one write; runs with appends torn in the middle are stated apart, in JsonlStore.EveryHappeningExact and JsonlStore.CompletedRefinesIff.
- JsonlStore.TornRunsExact: nothing is truncated or replaced in the run; what each operation leaves in any run is stated in JsonlStore.EveryHappeningExact.
- JsonlStore: key sanitising, lines over the scanner limit, empty lines, JSON text and time stamps.
- InboundQueue.EveryRunCompletes: processing a message is taken to end, and cancellation and a stopped loop are not modelled; neither is the mode without a queue.
- InboundQueue: how a message gets its bucket key; the key is part of the message.
- Pruner: the float ratio of estimated tokens and the list of acknowledgement words are predicates.
- Runner: reasoning text, media, token accounting, model downgrade, asynchronous tools and the wording of budget messages; the legacy compaction mode and the test whether compaction is due.
- Runner.LlmIterationRunner.ExecuteAndApply: the tool executor returns one execution for each requested call, in order.
- Cron: UpdateJob, which replaces a job wholesale, and Start while an older loop still drains a handler; saves are taken to succeed and the clock not to go back.
- Cron: output previews, error texts and session keys of runs; time zones, which are part of the expression.
- Cron.CronService.AddJob: job ids are taken not to repeat, and run ids not to be blank.
- Cooldown: the wording of the unavailability detail.
- Fallback: the text classification of provider errors, which gives the reason; attempt durations; the image variant, which has no cooldowns.
- VectorIndex: how files are cut into drafts, hashing (ids and fingerprints are taken not to collide), scoring and search; an embedder is deterministic for its trimmed signature.
- MemoryBlocks: the older section format, whose conversion is a parameter; case folding outside ASCII letters.
- MemoryWriteback: writing the file may not fail.
- ScopeCache: how a session is routed to a directory, settings of the stores, overflow of the tick counter.
- MediaStore: failing file removal, the background loop and its settings.
- HTTP handlers, console, OAuth, provider clients, MCP transport, SQLite search and channel adapters: input and output over libraries.
- Placeholder scheduling and draining of MCP calls: their obvious safety claims fail in fine-grained interleavings.
- Config structs, migrations and routing facades: only easy members.
