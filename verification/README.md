# Gateway protocols and codecs in Dafny

A model of the durable protocols and the text codecs of the gateway, with proofs of what they keep. Every component is
a specification (functions and state machines over maps and sequences), the source's own imperative form proved equal
to it where the source changes things step by step, and lemmas about the specification. `dafny verify dfyconfig.toml`
checks everything.

Conventions. One SQL statement is one atomic step over maps, one transaction is one step, a crash is a step, and clocks,
process ids and liveness answers are parameters of the steps. Texts are sequences of characters, except in
`SessionKeys`, which works on UTF-8 bytes. The cron grammar, the interval grammar, RFC 3339 and the JSON reader are
function parameters (`Clockwork`, `Parser`); a cron expression's next run is only known to be some time or none.

| file | models |
|---|---|
| `Prelude`, `Text`, `Json` | options, results, sequences; the string operations of the Rust standard library; `serde_json::Value` |
| `Repeat` | the repeat counter inside a job's payload |
| `FailureSchedule` | backoff, the history query, the schedule after a failure |
| `CronRows`, `CronTables` | the two cron tables, every statement on them, and the scheduler's methods as class `Tables` |
| `CronProtocol` | any number of schedulers and executors interleaved, with reclaim split into decision and update |
| `CronCounter`, `CronSchedule` | what the counter says over whole runs, and the limit it enforces; when a job rests, and that one without a limit goes on |
| `StoreMerge` | the three-way upsert and the periodic sync, as class `JobTable` |
| `Chunker` | Markdown chunking, fence tracking and page headers |
| `LiveEdit`, `LiveEditProtocol` | the live-edit throttler: one message group as class `EditState`; its revisions, its fair mutex and any number of concurrent updates |
| `Ledger`, `LedgerProtocol` | delivery obligations as class `DeliveryLedger`; sweeps, senders and crashes of many processes |
| `Debounce` | the split-message debouncer as class `SplitMessageDebouncer`, its timers, and coalescing |
| `Stream` | line reassembly of a provider stream and assembly of its tool calls |
| `TurnLoop`, `TurnAnswer` | one agent turn over the app-server's frames as class `Turn`, and its single retry; what it says and when it ends |
| `EnvFile` | reading, overlaying and writing environment files |
| `SessionKeys` | the length-prefixed session key, both ways |
| `Cutover` | emptying the migrated cron stores as class `FileSystem`, with crashes and other writers |

What the code does not do, although its comments, names or tests suggest it, is stated as a lemma with a concrete case
and, where there is one, the exact condition:

- A payload whose `repeat` is not an object loses its counter (`Repeat.NonObjectRepeatLosesTheCount`,
  `Repeat.IncrementIsReadBack`).
- A manual trigger counts past `times`, and one that only reaches it leaves the job to its schedule, which then runs past
  it (`CronCounter.TriggerCountsPastTheLimit`); when that is (`CronCounter.TriggerBreaksTheLimitExactlyWhen`), and that
  the excess is never larger than the number of triggers (`CronCounter.LimitIsExceededByTriggersOnly`).
- A scheduler that has decided to reclaim ignores a lease renewed in between (`CronProtocol.ARenewedRunIsReclaimed`);
  without such a renewal it takes the lease it decided on (`CronProtocol.ReclaimHitsTheLastRenewal`).
- A finished one-shot whose file turns it into another kind of job starts at the second sync if the file also disagrees
  with the row about the switch, and otherwise never (`StoreMerge.OneImportMayNotSettle`,
  `StoreMerge.EditedLateOneShotNeverRuns`, `StoreMerge.RearmedExactlyWhenTheFileChangesIt`).
- The two counting passes of the paginator need not converge (`Chunker.TwoPassesMayNotConverge`,
  `Chunker.HeadersAreTruthfulExactlyWhen`).
- Of two final live edits the older one can be the last on the wire (`LiveEditProtocol.AnOlderFinalCanLandLast`), if and
  only if the newer one is called while the older has its revision but has not joined the queue of the mutex
  (`LiveEditProtocol.FinalsCrossExactlyWhen`).
- A jobs file that lists one id twice imports it twice at every sync, so that its row may never come to rest
  (`StoreMerge.TwiceListedSettlesExactlyWhen`).
- Recording an obligation under a known id takes it over even from a live owner
  (`LedgerProtocol.RecordingKeepsOneSenderExactlyWhen`).
- A sweep that read a row while it was pending, and claims it after its owner has sent and died, sends it again without
  the marker (`LedgerProtocol.StaleReadIsResentUnmarked`).
- The timer of a cancelled batch flushes the next batch early (`Debounce.StaleTimerFlushesEarly`,
  `Debounce.FlushIsEarlyExactlyWhenStale`).
- A stream's last line says nothing with its newline, but is read without it, when blanks precede `data:` and a value
  (`Stream.LastLineIsReadTheSameExactlyWhen`).
- A database error on the session row is reported as an agent failure, so that its wording can make a delivered turn be
  tried, and delivered, twice (`TurnLoop.BrokenPipeDeliversTwice`, `TurnLoop.TwoFinalsExactlyWhen`).

## Model

| member | source | states |
|---|---|---|
| Repeat.IncrementIsReadBack | src/cron/scheduler.rs:263-302 | a later read sees the incremented counter if and only if the payload has a clean shape |
| Repeat.IncrementKeepsTimes | src/cron/scheduler.rs:263-302 | on a clean shape the pair given to the limit check is the pair a later read sees, and `times` stays |
| Repeat.IncrementFrame | src/cron/scheduler.rs:277-302 | no other top-level field changes |
| Repeat.RepeatIsRead | src/cron/scheduler.rs:256-276 | limit and counter are the 64-bit numbers of `times` and `completed`, in `repeat` if there is one, else beside it |
| Repeat.NonObjectRepeatLosesTheCount | src/cron/scheduler.rs:277-302 | a concrete payload on which the increment is lost |
| FailureSchedule.BackoffIsMonotoneAndBounded | src/cron/scheduler.rs:1457-1465 | the backoff is monotone, between 10 and 3600 seconds, and its product stays small before the clamp |
| FailureSchedule.BackoffShape | src/cron/scheduler.rs:1457-1465 | it doubles from 10 seconds until the tenth failure and is capped from there |
| FailureSchedule.LeadingFailuresIsStreak | src/cron/scheduler.rs:1035-1048 | the failures counted off the newest-first history are the streak of runs newer than every other status |
| FailureSchedule.FiftyRunsAreEnough | src/cron/scheduler.rs:1035-1066 | the limit of 50 rows loses nothing: the retry is the later of the schedule and the backoff of the full streak |
| FailureSchedule.StreakIsTrailingFailures | src/cron/scheduler.rs:1035-1048 | with strictly increasing start times the streak is the unbroken tail of failures of the start log |
| CronRows.NextRunMeaning | src/cron/scheduler.rs:1377-1400 | a one-shot's next run is its instant until two minutes after it, and then none; any other schedule is asked for its next time |
| CronTables.ClaimSucceedsExactlyWhen | src/cron/scheduler.rs:719-799 | an undisturbed claim succeeds if and only if the job exists, is enabled with a next run not in the future if that is asked, and every running run of it has expired and did so 120 minutes ago or has no live owner |
| CronTables.ClaimedRunIsNew | src/cron/scheduler.rs:719-799 | a claim that succeeds leaves a running run of its own with a 30-minute lease and an attempt above all others, fails the runs it took over, and leaves all else alone |
| CronTables.WedgedOwnerIsBounded | src/cron/scheduler.rs:40-59 | once every lease is older than its expiry plus 120 minutes, a claim succeeds whatever owners are alive |
| CronTables.LiveLeaseIsExclusive | src/cron/scheduler.rs:40-59 | an unexpired lease, and until that bound a live owner's, is left alone and blocks every claim |
| CronTables.RenewedLeaseIsExclusive | src/cron/scheduler.rs:851-862 | after a heartbeat nobody else claims the job until the renewed lease expires, nor, if the owner is alive, before the safety net; other runs may be taken over exactly when they could before |
| CronTables.PruningIsInvisible | src/cron/store.rs:53-73 | every claim and completion is decided as without pruning, which commutes with later reclaims |
| CronTables.SuccessTouchesOneRun | src/cron/scheduler.rs:864-968 | a success changes its own run and its own job at most, and only while it holds the running run |
| CronTables.SuccessMovesJob | src/cron/scheduler.rs:906-968 | what a success makes of the row, for every case: a trigger counts only; a one-shot, or the completion that reaches a positive limit, switches the job off; any other moves an enabled job to its next run, and is rolled back if there is none |
| CronTables.SuccessEndsRun | src/cron/scheduler.rs:864-912 | a committed success ends its own run alone; any other outcome changes nothing, and tells a missing run, one of another claim, and a finished one apart |
| CronTables.FailureTouchesOneRun | src/cron/scheduler.rs:970-1104 | so does a failure, which also leaves every payload alone |
| CronTables.FailureMovesJob | src/cron/scheduler.rs:970-1104 | what a failure makes of the row: a trigger nothing; a one-shot and a job without a next run are switched off; an enabled one moves to a later run |
| CronTables.FailedRunIsRescheduled | src/cron/scheduler.rs:970-1066 | a failed scheduled run puts its job at the later of the schedule and now plus the backoff of the whole trailing streak |
| CronTables.Tables.QueryNextAttempt | src/cron/scheduler.rs:761-772 | the number is above every attempt of the job, by exactly one over the largest, or 1 |
| CronTables.Tables.QueryNewest | src/cron/scheduler.rs:1035-1040 | the newest run by start time and id |
| CronTables.Tables.QueryRecentStatuses | src/cron/scheduler.rs:1035-1043 | the first 50 statuses of the newest-first history |
| CronTables.Tables.ReclaimExpired | src/cron/scheduler.rs:731-754 | the loop of the claim reclaims exactly the reclaimable runs of the job |
| CronTables.Tables.ClaimJob | src/cron/scheduler.rs:719-799 | the claim is the reclaim of the job's expired runs and then the guarded insert |
| CronTables.Tables.Heartbeat | src/cron/scheduler.rs:851-862 | nothing but the leases of running runs with this token moves, and each of these to now plus 30 minutes |
| CronTables.Tables.Succeed | src/cron/scheduler.rs:864-968 | the success transaction with its guards, compare-and-swap and roll-back |
| CronTables.Tables.Fail | src/cron/scheduler.rs:970-1104 | the failure transaction with its guards and reschedule |
| CronTables.Tables.PauseJob | src/cron/scheduler.rs:627-637 | the job is disabled with no next run |
| CronTables.Tables.ResumeJob | src/cron/scheduler.rs:643-659 | the job is enabled at its next run; an impossible schedule changes nothing |
| CronTables.Tables.PruneTerminal | src/cron/store.rs:53-73 | a negative retention is an error; otherwise exactly the terminal runs completed before the cutoff go, their number is returned, and every other row stays |
| CronProtocol.EveryStateIsSafe | src/cron/scheduler.rs:719-799 | in every state of any interleaving each job has at most one running run and its surviving runs have distinct attempts |
| CronProtocol.EmptyDatabaseIsFresh | src/cron/scheduler.rs:719-799 | the empty database is such a state |
| CronProtocol.TerminalIsForever | src/cron/scheduler.rs:851-1104 | a terminal run keeps its whole row until it is pruned, and never comes back |
| CronProtocol.LateCompletionIsInert | src/cron/scheduler.rs:864-912 | a completion of a run that is no longer running changes neither table |
| CronProtocol.CompletionHappensOnce | src/cron/scheduler.rs:864-1104 | a completion is carried out once and then forgotten, and a failure ends the run it holds |
| CronProtocol.RunsEndForAReason | src/cron/scheduler.rs:731-1104 | a run ends by its own completion or by a decided reclaim, in every interleaving |
| CronProtocol.ReclaimsAreDecidedOnExpiry | src/cron/scheduler.rs:40-59 | and a reclaim is decided only on an expired lease 120 minutes late or without a live owner |
| CronProtocol.OperatorSteps | src/cron/scheduler.rs:627-672 | a pause takes switch and next run, a resume sets both from the schedule it read, a deletion takes the runs with it |
| CronProtocol.CrashForgets | src/cron/scheduler.rs:719-799 | a crash forgets what the lost executors held in memory, and nothing that is stored |
| CronProtocol.ReclaimFencesTheOldExecutor | src/cron/scheduler.rs:731-754 | after a reclaim nothing the old executor does, in any continuation, changes a table |
| CronProtocol.RenewalDoesNotStopADecidedReclaim | src/cron/scheduler.rs:740-754 | a lease renewed between the decision and the update does not save the run |
| CronProtocol.LeaseFollowsTheHeartbeats | src/cron/scheduler.rs:851-862 | while a run is running its lease is the one its own last heartbeat gave it, in every interleaving |
| CronProtocol.ReclaimHitsTheLastRenewal | src/cron/scheduler.rs:731-754 | a decided reclaim hits the expired lease it was decided on, unless the run itself renewed it in between, and then the renewed one |
| CronProtocol.ARenewedRunIsReclaimed | src/cron/scheduler.rs:740-754 | a run from an empty history in which a late owner renews its lease and is failed with that lease before it |
| CronProtocol.OnlyCommitsChangePayload | src/cron/scheduler.rs:914-968 | apart from outside edits, only the completion that moves its run from running to succeeded changes a payload |
| CronCounter.CompletedCountsSuccesses | src/cron/scheduler.rs:864-968 | over any run the counter grows by the successes less the scheduled successes that found the job disabled |
| CronCounter.NothingIsMissed | src/cron/scheduler.rs:914-968 | without a pause in the middle of a scheduled run none is missed |
| CronCounter.CounterIsStartPlusSuccesses | src/cron/scheduler.rs:277-302 | so the counter is its start value plus the number of succeeded runs |
| CronCounter.LimitedRowReads | src/cron/store.rs:440-440 | the row of a limited job reads, counts and merges as its file's job with the stored counter |
| CronCounter.LimitIsNeverExceeded | src/cron/scheduler.rs:699-717 | a job driven by scheduled runs, reclaims, failures and syncs never completes more than `times`; once there it is off for good |
| CronCounter.ImportStartsWithinLimit | src/cron/store.rs:438-443 | an imported job with completions left is where that guarantee starts |
| CronCounter.LimitIsExceededByTriggersOnly | src/cron/scheduler.rs:681-717 | with triggers allowed, completions exceed the limit by at most the number of triggers that succeeded |
| CronCounter.TriggerBreaksTheLimitExactlyWhen | src/cron/scheduler.rs:914-964 | after a triggered success some run of the schedule alone passes the limit if and only if the counter had reached it before, or reaches it now while the job has a next run and its row or its file is enabled |
| CronCounter.TriggerCountsPastTheLimit | src/cron/scheduler.rs:681-690 | a run from a fresh import: a job limited to one completion is triggered, stays enabled, and completes a second time |
| CronCounter.OneShotSucceedsAtMostOnce | src/cron/scheduler.rs:921-934 | a one-shot driven by its schedule and by syncs of its unchanged file succeeds at most once, and is then over |
| CronCounter.OneShotStaysOver | src/cron/store.rs:440-440 | a one-shot that is over stays disabled without a next run, and no run of it starts, whatever schedulers and syncs that keep it a one-shot do |
| CronCounter.ImportStartsPending | src/cron/store.rs:438-443 | an imported one-shot is where the guarantee of at most one success starts |
| CronSchedule.NothingStartsBeforeItsTime | src/cron/scheduler.rs:699-799 | after a success that leaves the next run `t`, no run of the job is added or running while it is claimed for its schedule only and before `t`, in any interleaving without resumes and outside writes of it |
| CronSchedule.UnlimitedJobGoesOn | src/cron/scheduler.rs:914-1066 | a recurring job without a limit stays enabled with a next run in every run without pauses and outside writes of it |
| StoreMerge.MergePayloadMeaning | src/cron/store.rs:440-440 | the merged payload is the file's, with the larger of the two counters |
| StoreMerge.CountNeverDecreases | src/cron/store.rs:440-440 | an import never lowers the stored counter |
| StoreMerge.UnchangedKeepsSchedule | src/cron/store.rs:440-440 | a job unchanged apart from its counter keeps the advanced next run and its switch |
| StoreMerge.EditsAreImported | src/cron/store.rs:440-440 | any other edit of an unfinished job takes the file's schedule and switch |
| StoreMerge.MergeMeaning | src/cron/store.rs:440-440 | every case of the upsert in terms of the row: a finished job, a one-shot or a repeat at its positive limit without next run, keeps its switch and gets no next run; any other takes the file's switch, and its next run if anything but the counter was edited |
| StoreMerge.RemoveCompletedMeaning | src/cron/store.rs:440-440 | two payloads count as the same if and only if all fields agree but the counter |
| StoreMerge.LikeOnceMeaning | src/cron/store.rs:440-440 | a schedule is a one-shot to the statement if it begins with `once:` in whatever case |
| StoreMerge.TextReadsAs | src/cron/store.rs:440-440 | a stored text counts as the number it begins with, behind spaces and a sign |
| StoreMerge.CastMeaning | src/cron/store.rs:440-440 | a stored value counts as the nearest 64-bit integer towards zero, a truth value as 1 or 0, anything else as 0 |
| StoreMerge.FinishedIsNotRearmed | src/cron/store.rs:440-440 | one import never re-arms a finished one-shot or an exhausted repeat |
| StoreMerge.TwoImportsSettle | src/cron/store.rs:440-440 | after two imports of the same file job a third changes only the time stamp |
| StoreMerge.FirstImportSettles | src/cron/store.rs:440-440 | for a new job the first import is already the fixed point |
| StoreMerge.ManyImportsAreTwo | src/cron/store.rs:440-440 | however often the same file job is imported after the second time, only the time stamp moves |
| StoreMerge.RearmedExactlyWhenTheFileChangesIt | src/cron/store.rs:440-440 | what the second import makes of any finished job: it takes the switch of the file if that made it another, unfinished job, and its next run only if the switch differed |
| StoreMerge.OneImportSettlesExactlyWhen | src/cron/store.rs:440-440 | one import is the fixed point unless it meets a finished row whose file job is unfinished and has another switch |
| StoreMerge.FinishedStaysWithoutNextRun | src/cron/store.rs:440-440 | a finished job whose switch the file agrees with never gets a next run, however often it is imported |
| StoreMerge.EditedLateOneShotNeverRuns | src/cron/store.rs:426-440 | a one-shot imported too late and then edited into a daily job: enabled, and without a next run after any number of imports |
| StoreMerge.OneImportMayNotSettle | src/cron/store.rs:440-440 | a concrete row and file that need the second import |
| StoreMerge.JobTable.Sync | src/cron/store.rs:393-458 | the loop over the stores, which ends at the first that cannot be loaded or imported |
| StoreMerge.JobTable.SyncOne | src/cron/store.rs:396-456 | the loop over the jobs of one file and the deletion of unlisted rows, with its error exits |
| StoreMerge.ImportJobsRowwise | src/cron/store.rs:399-445 | each listed job meets its own row and no other, as often as it is listed, whatever else the file lists |
| StoreMerge.SyncRowwise | src/cron/store.rs:393-458 | after a sync the row of a job listed once is its merge, unlisted rows of the source are gone, and rows of other sources are as before |
| StoreMerge.ExpressionMeaning | src/cron/store.rs:188-214 | the schedule text by kind: the cron text unless it is blank, `interval:` with the minutes, `once:` with the instant; any other kind has none |
| StoreMerge.ImportFailsExactlyWhen | src/cron/store.rs:417-437 | an import fails exactly for a job without a schedule text or with a time that is not one |
| StoreMerge.ImportBinds | src/cron/store.rs:417-444 | the bound row: the schedule text, the switch and the fields of the file, its counters in `repeat`, its source, and the next run it names or the clock does |
| StoreMerge.NewJobIsAsListed | src/cron/store.rs:393-458 | so a sync leaves a new job as its file lists it |
| StoreMerge.SyncStopsAtFirstError | src/cron/store.rs:399-437 | the first job without an id or with an error ends the sync: the jobs before it are imported, nothing is deleted |
| StoreMerge.SyncStopsAtFirstStore | src/cron/store.rs:393-458 | the first store that cannot be loaded or synced ends the whole sync |
| StoreMerge.SyncSettles | src/cron/store.rs:393-458 | three syncs of an unchanged file leave every row that it lists at most once, or not at all, as two do, time stamps aside |
| StoreMerge.DistinctIdsAreListedOnce | src/cron/store.rs:406-425 | a file with distinct ids lists every row at most once, so that it settles as a whole |
| StoreMerge.TwiceListedIsTwiceImported | src/cron/store.rs:399-445 | a sync leaves the row of a job listed twice as importing its first and then its second entry does |
| StoreMerge.TwiceListedSettlesExactlyWhen | src/cron/store.rs:399-445 | a job listed twice with two schedules, the first an unlimited one and no one-shot, is at rest from one sync to the next if and only if the second entry names its next run or the clock gives the same one again |
| StoreMerge.StoresKeepApart | src/cron/store.rs:393-458 | a sync of all stores does to the rows of each what a sync of that store alone does |
| StoreMerge.AllStoresSettle | src/cron/store.rs:393-458 | so three syncs of unchanged files leave such rows of every store as two do, time stamps aside |
| Chunker.ScanFences | src/discord/throttler.rs:364-375 | the loop carries the fence the recursive scan gives |
| Chunker.ScanMeaning | src/discord/throttler.rs:364-375 | behind an odd number of fence lines the text is in the fence of the last one, with its language; behind an even number in none |
| Chunker.PreferredBoundaryMeaning | src/discord/throttler.rs:349-362 | a cut falls behind the last line feed of the second half, else behind its last whitespace, else at the budget |
| Chunker.CutChunk | src/discord/throttler.rs:289-335 | one pass of the loop: its text, what it used up, and the fence it carries on |
| Chunker.ChunkMarkdownRaw | src/discord/throttler.rs:283-338 | the loop ends and returns the texts of the cuts |
| Chunker.PiecesConcatenateToContent | src/discord/throttler.rs:283-338 | without the added headers and fences the pieces are the text, for every text and limit |
| Chunker.ChunksFit | src/discord/throttler.rs:283-338 | every chunk is non-empty and within the limit, additions included |
| Chunker.EveryChunkReads | src/discord/throttler.rs:283-338 | what each chunk reads: its header, the fence it continues, and its text, cut behind a line feed or blank of the second half of the room and closed if it leaves a fence open; all the rest in the last one; bare text without room |
| Chunker.FencesAreBalanced | src/discord/throttler.rs:289-335 | every non-last budgeted chunk, scanned alone, ends outside a fence, and the next re-enters exactly the fence in force at the cut |
| Chunker.CarriedFenceIsTheDocuments | src/discord/throttler.rs:289-335 | while cuts fall after line feeds, the carried fence is the one the whole text has there |
| Chunker.CutsDependOnWidthOnly | src/discord/throttler.rs:290-307 | cut positions depend on the announced total only through its number of digits |
| Chunker.HeadersNumberTheChunks | src/discord/throttler.rs:290-307 | a budgeted chunk begins with a bracket in which the numbers before and after the slash read as its position and the announced total |
| Chunker.ChunkMarkdownPaginated | src/discord/throttler.rs:249-271 | the two counting passes and the last one, with the empty and the unpaged cases |
| Chunker.UnpagedChunks | src/discord/throttler.rs:249-262 | without pagination, and for one chunk, nothing is announced; an empty text is one space without width, a limit of 0 gives nothing |
| Chunker.HeadersAreTruthfulExactlyWhen | src/discord/throttler.rs:249-271 | the headers read as position and announced total, and that is the true total if and only if announcing any number of as many digits gives that many chunks |
| Chunker.EqualWidthsMakeHeadersTrue | src/discord/throttler.rs:249-271 | if the first two counts have equally many digits every header reads as position and number of chunks |
| Chunker.OneMorePassSettles | src/discord/throttler.rs:249-271 | a wrong total with the right number of digits would be put right by one more pass |
| Chunker.TwoPassesMayNotConverge | src/discord/throttler.rs:249-271 | a concrete text whose headers announce 10 chunks of 19 |
| LiveEdit.PreviewFitsExactlyWhen | src/discord/throttler.rs:221-234 | a preview fits its limit unless that is 1 and the text longer, shows a fitting text whole and else its start before an ellipsis |
| LiveEdit.PreviewEditShowsOneMessage | src/discord/throttler.rs:164-170 | a non-final edit shows the preview in the first tracked message and leaves every other message |
| LiveEdit.FinalEditShowsTheChunks | src/discord/throttler.rs:171-192 | after a final edit the tracked messages are the chunks in order, kept places stay, surplus messages are gone, others untouched |
| LiveEdit.EditState.ShowPreview | src/discord/throttler.rs:164-170 | an intermediate edit shows the preview in the first message |
| LiveEdit.EditState.EditOrSend | src/discord/throttler.rs:173-185 | each chunk is edited into its message or sent and tracked |
| LiveEdit.EditState.DeleteStale | src/discord/throttler.rs:187-192 | tracked messages beyond the chunks are deleted |
| LiveEdit.EditState.ShowFinal | src/discord/throttler.rs:171-196 | a final update is exactly that edit with the paginated chunks |
| LiveEditProtocol.StepKeepsInv | src/discord/throttler.rs:130-217 | every step of every interleaved update keeps the lock and revision invariant |
| LiveEditProtocol.EditsAreOrderlyInEveryRun | src/discord/throttler.rs:130-217 | a non-final edit is newer than everything before it on the wire, and starts the debounce after every earlier non-final one |
| LiveEditProtocol.NothingOlderFollowsTheNewestFinal | src/discord/throttler.rs:130-160 | after the final edit of the newest update only final updates reach the wire |
| LiveEditProtocol.FinalStepShowsTheChunks | src/discord/throttler.rs:171-196 | the step in which a final update reaches the wire leaves exactly its chunks there |
| LiveEditProtocol.PreviewStepShowsTheText | src/discord/throttler.rs:163-170 | the step in which a non-final update reaches the wire shows its preview there and changes nothing else |
| LiveEditProtocol.SleepsOutTheDebounce | src/discord/throttler.rs:141-160 | whoever sleeps, sleeps until the debounce after the last edit is over, and no longer |
| LiveEditProtocol.WakesOnTime | src/discord/throttler.rs:141-160 | and goes on when that time has come |
| LiveEditProtocol.SupersededGivesUp | src/discord/throttler.rs:130-162 | a non-final update that finds a newer one at one of its checks gives up and lets go of the mutex; the newest goes on |
| LiveEditProtocol.LoneUpdateIsShown | src/discord/throttler.rs:130-217 | a non-final update called a debounce later with nobody at the mutex, and left alone, is shown |
| LiveEditProtocol.OnlyEditsTouchTheWire | src/discord/throttler.rs:130-217 | between logged edits nothing touches the wire |
| LiveEditProtocol.AnOlderFinalCanLandLast | src/discord/throttler.rs:130-135 | a run in which the older of two final updates lands last |
| LiveEditProtocol.JoinedLandInJoiningOrder | src/discord/throttler.rs:130-196 | of two final updates that wait for the mutex the one that came to it first reaches the wire first, in every run |
| LiveEditProtocol.FinalsLandInOrder | src/discord/throttler.rs:130-196 | final updates reach the wire in the order of their calls in every run in which none is called while another has its revision and has not come to the mutex |
| LiveEditProtocol.FinalsCrossExactlyWhen | src/discord/throttler.rs:130-196 | a final update can end with an older one landing after a newer one if and only if, when it is called, another has its revision and has not come to the mutex |
| Ledger.DeliveryLedger.RecordObligation | src/ledger/service.rs:198-230 | a new obligation is pending with no attempts; a known one gets new content and owner only |
| Ledger.DeliveryLedger.MarkObligation | src/ledger/service.rs:232-270 | the state of a known obligation changes, an unknown one is an error |
| Ledger.DeliveryLedger.QueryRecoverable | src/ledger/service.rs:299-307 | all recoverable rows, each once, oldest first |
| Ledger.DeliveryLedger.SweepRecoverable | src/ledger/service.rs:291-350 | the loop over the rows as read: skip, abandon, or claim by compare-and-swap |
| Ledger.DeliveryLedger.Redeliver | src/main.rs:308-364 | the loop marks, sends and concludes each claimed obligation once, in order |
| Ledger.DeliveryLedger.RecoverPending | src/main.rs:301-366 | every claimed obligation is marked attempting, sent once, marked unless it was read pending, and concluded |
| Ledger.SweepMeaning | src/ledger/service.rs:291-350 | an undisturbed sweep abandons exactly the given-up rows of dead owners, claims exactly the other rows of dead owners, and touches no other |
| Ledger.RecoveryMeaning | src/main.rs:301-366 | what the startup redelivery makes of every row: a closed one, or one of a live owner, is left; one tried three times, or more than a day old, is abandoned; any other is taken over, sent exactly once, oldest first, under the marker unless it was read as pending, and ends delivered or failed with its error |
| Ledger.ClaimTakesFreeRows | src/ledger/service.rs:327-345 | a claim takes a row without owner, with the owner that was read, or its own, and changes owner and attempts only |
| LedgerProtocol.ClaimIsCurrent | src/ledger/service.rs:328-347 | a claim that succeeds takes over the ownership its sweep read, from a dead owner, below the attempt limit |
| LedgerProtocol.VisitDecides | src/ledger/service.rs:305-350 | a sweep claims, abandons or leaves each row it read by the owner, the attempts and the age it read, and by the owner there is now |
| LedgerProtocol.DeliveryGoesOn | src/main.rs:345-363 | a delivery marks its row attempting, sends once, and marks it delivered or failed, in this order |
| LedgerProtocol.EveryRunIsSound | src/ledger/service.rs:198-350 | ownership, attempts and sends stay consistent in every run of any number of processes |
| LedgerProtocol.OneSenderAtATime | src/ledger/service.rs:328-347 | at most one process at a time is delivering an obligation |
| LedgerProtocol.RecordingKeepsOneSenderExactlyWhen | src/ledger/service.rs:198-230 | recording any id, new or known, makes the recorder its owner, and keeps every id with one sender if and only if no other process is delivering that id |
| LedgerProtocol.OwnershipIsClaimedOnce | src/ledger/service.rs:291-350 | no two takeovers of an obligation are from the same dead owner |
| LedgerProtocol.RedeliveriesAreBounded | src/ledger/service.rs:317-347 | redeliveries, on top of the attempts a row started with, never exceed `max_attempts` |
| LedgerProtocol.UnmarkedDuplicateExactlyWhenLate | src/main.rs:328-346 | every message is the recorded content, bare or under the marker, and a bare one repeats an earlier message if and only if it was claimed after a send |
| LedgerProtocol.EverySendAfterTheFirstIsMarked | src/main.rs:328-346 | if claims of rows read as pending find them pending, every message after the first is the marker and the content |
| LedgerProtocol.StaleReadIsResentUnmarked | src/ledger/service.rs:299-347 | a run in which an obligation is sent twice and the second time without the marker |
| Debounce.CoalesceInboundEvents | src/discord/adapter.rs:506-547 | the loops build the merged event: first id and time, last delivery, joined contents, united attachments |
| Debounce.FirstOfEachIdMeaning | src/discord/adapter.rs:525-533 | the union keeps exactly the first attachment of each id, in order of arrival |
| Debounce.CoalescedMeaning | src/discord/adapter.rs:506-547 | a merged message has identity, session and arrival of the first, platform id of the last with its delivery id or one made of it, the texts that are not blank, and each attachment once |
| Debounce.JoinLinesMeaning | src/discord/adapter.rs:517-522 | texts are joined in order with one line feed between them |
| Debounce.SplitBatchesCoalesceTheSame | src/discord/adapter.rs:506-547 | a batch coalesced in two halves and again is the batch coalesced at once |
| Debounce.SplitMessageDebouncer.Enqueue | src/discord/adapter.rs:568-582 | the event joins its session's batch, the generation rises, and a timer of that generation starts |
| Debounce.SplitMessageDebouncer.Wake | src/discord/adapter.rs:583-611 | a timer takes out and routes the batch of its own generation, and nothing otherwise |
| Debounce.SplitMessageDebouncer.Cancel | src/discord/adapter.rs:614-617 | the session's batch is taken out |
| Debounce.NothingIsLostOrRepeated | src/discord/adapter.rs:549-617 | per session, batches taken out and then the buffer are the enqueued events, each once and in order, in every run |
| Debounce.EveryBatchHasItsTimer | src/discord/adapter.rs:568-612 | every buffered batch has an outstanding timer of its generation, which counts its events |
| Debounce.NothingIsStranded | src/discord/adapter.rs:568-612 | when no timer is left every event has been taken out |
| Debounce.OrderlyFlushesAreQuiet | src/discord/adapter.rs:583-612 | with timers waking in order and cancellations that find nothing buffered, a batch is flushed only by the timer of its last event |
| Debounce.FlushIsEarlyExactlyWhenStale | src/discord/adapter.rs:568-617 | with timers waking in order a flush leaves another timer of its session asleep if and only if some outstanding timer is older than the last removal |
| Debounce.StaleTimerFlushesEarly | src/discord/adapter.rs:568-617 | a run in which the timer of a cancelled batch flushes the next batch |
| Stream.AccumulateStreamToolCalls | src/agent/llm.rs:514-596 | one line applies its fragments, in order, to the calls of their indices |
| Stream.DataLineIsRead | src/agent/llm.rs:497-512 | a line is read without `data:` and the blanks around; the end mark and comments say nothing |
| Stream.OpenAiLine | src/agent/llm.rs:546-571 | such a line emits the `content` of the first choice's delta and one fragment for each of its `tool_calls` |
| Stream.OpenAiToolCall | src/agent/llm.rs:553-571 | a fragment goes to its index, or its position without one, with the id, name text and argument text there are |
| Stream.OllamaLine | src/agent/llm.rs:572-594 | such a line emits the `content` of its message and announces each whole call at its position |
| Stream.AnthropicLine | src/agent/llm.rs:520-545 | such a line emits the `text` of its delta, and announces a tool use or continues its arguments at its index |
| Stream.CallsDependOnTheirOwnIndex | src/agent/llm.rs:514-593 | the calls are ordered by index, and each is what the fragments of its own index assemble |
| Stream.ArgumentsAreConcatenated | src/agent/llm.rs:514-593 | a call's argument text is its fragments' texts end to end |
| Stream.DeltasAssemble | src/agent/llm.rs:546-571 | of a call streamed in deltas name and arguments are concatenated and the last id given stands |
| Stream.LastAnnouncementWins | src/agent/llm.rs:572-594 | of several whole announcements at one index only the last survives |
| Stream.LastBeginStands | src/agent/llm.rs:520-545 | a call announced and continued has id, name and input of the last announcement and all the argument texts |
| Stream.FinishedCallsMeaning | src/agent/llm.rs:598-622 | all calls in index order, each with its name, its id or one made of its index, and the parsed argument text, or its input without any; or the failure of the lowest index whose text does not parse |
| Stream.LinesAppend | src/agent/llm.rs:245-248 | what a packet adds depends only on the unfinished line before it |
| Stream.LinesMeaning | src/agent/llm.rs:246-249 | the text is its lines, each with its newline, and the rest, none of them with a newline |
| Stream.ReadLines | src/agent/llm.rs:246-262 | the inner loop reads every complete line of the buffer and leaves the rest |
| Stream.StreamWithToolCalls | src/agent/llm.rs:215-286 | contents, numbers, final chunk and tool calls depend only on the text received and the failure, not on how it was cut into packets |
| Stream.ChunksAreNumbered | src/agent/llm.rs:231-286 | chunks are numbered from 0 without gaps, one for each content of the lines in order; the last is the empty final chunk, or the failure, without calls |
| Stream.LastNewlineIsOptional | src/agent/llm.rs:265-286 | a stream says the same with and without its last newline unless blanks hide a last `data:` |
| Stream.LastDataIsTheSameExactlyWhen | src/agent/llm.rs:247-266 | without its newline the last line is handed to the parser as the same text if and only if no blank precedes its `data:` |
| Stream.LastLineIsReadTheSameExactlyWhen | src/agent/llm.rs:247-266 | it is read as the same value unless blanks precede `data:` and its data is a value, for every parser that, like a JSON parser, refuses texts beginning with `data:` |
| TurnLoop.Turn.HandleItem | src/agent/omo_backend.rs:484-523 | a started item is counted once per id, a completed agent message replaces the content |
| TurnLoop.Turn.Deliver | src/agent/omo_backend.rs:585-641 | the final chunk, the two writes with their failures, and the acknowledgement |
| TurnLoop.Turn.HandleFrame | src/agent/omo_backend.rs:438-666 | what each kind of frame does to the turn |
| TurnLoop.Turn.RunOnce | src/agent/omo_backend.rs:381-676 | the loop over the frames with its timeouts ends as the step function says |
| TurnLoop.Run | src/agent/omo_backend.rs:681-704 | the second attempt runs if and only if the first failed with retryable words |
| TurnLoop.RetryableExactlyWhen | src/agent/omo_backend.rs:688-699 | a second attempt is made for a failure of the agent whose words contain one of eight |
| TurnLoop.SilenceIsNotRetried | src/agent/omo_backend.rs:395-410 | a turn that fell silent is not tried again |
| TurnLoop.EveryTurnIsOpenOrClosed | src/agent/omo_backend.rs:381-676 | no final chunk before the end; at the end at most one, last and not empty, and persistence and acknowledgement exactly after success |
| TurnLoop.AttemptDeliversOnce | src/agent/omo_backend.rs:381-676 | an attempt delivers at most one final chunk, and fails after it only for storage |
| TurnLoop.TwoFinalsExactlyWhen | src/agent/omo_backend.rs:681-726 | two final chunks go out if and only if both attempts delivered and the row error of the first reads like a lost connection |
| TurnLoop.BrokenPipeDeliversTwice | src/agent/omo_backend.rs:681-726 | two attempts whose session row fails with "Broken pipe" send two final chunks |
| TurnLoop.LostConnectionIsRetried | src/agent/omo_backend.rs:669-704 | a stream that ends before the turn does is tried again |
| TurnLoop.ContentIsLastMessageAndLaterDeltas | src/agent/omo_backend.rs:512-540 | the content is the last completed agent message and the deltas after it |
| TurnLoop.FinalChunkShowsTheContent | src/agent/omo_backend.rs:576-625 | a delivered turn has one more chunk, final and numbered after every delta |
| TurnAnswer.FinalChunkIsTheAnswer | src/agent/omo_backend.rs:585-641 | the final chunk, in terms of the frames before it: the last message and later deltas, or a check mark if that is blank, and behind it, unless the session is cron or no tool ran, the badge with the number of calls and every tool once with its count, in order |
| TurnAnswer.DeltasShowTheAnswer | src/agent/omo_backend.rs:523-540 | while the turn runs each delta, and nothing else, is shown, as the whole answer so far |
| TurnAnswer.TurnRemembers | src/agent/omo_backend.rs:417-448 | acknowledgement, time of the last text and turn id are those the frames say |
| TurnAnswer.DeliversExactlyWhen | src/agent/omo_backend.rs:541-585 | a message delivers the final chunk if and only if it comes in time and concludes the turn of this thread without a failure, and there has been an answer or a tool call |
| TurnAnswer.FailsExactlyWhen | src/agent/omo_backend.rs:395-666 | a running turn fails before it delivers anything for exactly these reasons, the first of them first |
| TurnAnswer.DeadlineInterrupts | src/agent/omo_backend.rs:421-440 | a turn past its deadline is interrupted if its id is known |
| TurnLoop.DenialsAreCounted | src/agent/omo_backend.rs:449-484 | the denial counter is the approval requests since the turn or an item last moved |
| TurnLoop.FifthDenialAborts | src/agent/omo_backend.rs:449-475 | the fifth request in a row, and no earlier one, ends the turn, interrupting it if its id is known |
| TurnLoop.ToolCallsAreTallied | src/agent/omo_backend.rs:493-510 | total and per-tool counts agree with each other and with the tool items started, each id once |
| EnvFile.ParseEnvDocument | src/migrate/config_import.rs:208-242 | lines kept with their keys, last assignment wins, the first malformed line is the error |
| EnvFile.ReadMeaning | src/migrate/config_import.rs:214-236 | blank lines and comments say nothing; no equals sign, or no key before the first, is malformed; else key and unquoted value, both trimmed |
| EnvFile.QuotesAreStripped | src/migrate/config_import.rs:244-254 | one pair of equal quotes is taken off, and nothing else |
| EnvFile.FirstDefectIsReturned | src/migrate/config_import.rs:208-242 | the first malformed line is the error, with its number and kind |
| EnvFile.ParsedMeaning | src/migrate/config_import.rs:208-242 | without one every line is kept with its key, and of each key the last value |
| EnvFile.RenderMergedEnv | src/migrate/config_import.rs:378-411 | every line in place, overlaid where it assigns an overlaid key, and the missing keys after it |
| EnvFile.CleanExactlyWhenReadBack | src/migrate/config_import.rs:244-254 | a written value is read back if and only if it is trimmed and unquoted |
| EnvFile.ReadsBackExactlyWhenClean | src/migrate/config_import.rs:367-411 | reading the written file, with or without one before, gives exactly the merged values if and only if every overlay value is trimmed and unquoted |
| EnvFile.RenderingTwiceSettlesExactlyWhen | src/migrate/config_import.rs:378-411 | rendering over its own output changes nothing if and only if no line kept as it was ends in a carriage return |
| EnvFile.RenderingSettles | src/migrate/config_import.rs:378-411 | so a file without carriage returns settles at once |
| EnvFile.NewFileSettles | src/migrate/config_import.rs:378-411 | and a file that was not there before settles at once |
| EnvFile.OtherLinesSurvive | src/migrate/config_import.rs:385-400 | every line that assigns no overlaid key is in the output at its own place |
| EnvFile.NothingToOverlay | src/migrate/config_import.rs:378-411 | an empty overlay gives the file back, but for a missing last newline |
| SessionKeys.ReadComponentAt | src/dashboard.rs:1172-1194 | one component, with its length, its character boundaries and its overflow checks |
| SessionKeys.ParseStorageKey | src/dashboard.rs:1171-1219 | the loop over the components and the check of their number |
| SessionKeys.AllAreReadBack | src/dashboard.rs:1196-1207 | joined components are read back, whatever separators and digits they contain |
| SessionKeys.ParseInvertsStorageKey | src/models/session.rs:52-71 | parsing the storage key of any key gives the key back |
| SessionKeys.StorageKeysAreDistinct | src/models/session.rs:46-71 | distinct keys never share a storage key |
| SessionKeys.DigitsArePaddedNumeral | src/dashboard.rs:1181-1188 | a length is its numeral behind any number of zeros |
| SessionKeys.AcceptedTextNormalises | src/dashboard.rs:1171-1219 | whatever is accepted normalises to a key that parses to itself, and is its own encoding if and only if nothing is padded, trailing or an explicit absent bot |
| Cutover.FileSystem.Prepare | src/migrate/cron_cutover.rs:49-84 | the bytes verified, the job ids and the unverified jobs of one store, or its error |
| Cutover.FileSystem.CutoverStore | src/migrate/cron_cutover.rs:178-222 | an unchanged store is backed up and replaced; a changed or missing one is an error and nothing is written |
| Cutover.FileSystem.CutoverCronStores | src/migrate/cron_cutover.rs:40-124 | all stores are prepared before any is touched, and the run stops at the first refusal or error |
| Cutover.PreparedStoreMeaning | src/migrate/cron_cutover.rs:49-84 | a missing store has no jobs; one that cannot be read, or has a job without an id, is an error; else its bytes, its jobs, and those without a row under their id |
| Cutover.FirstErrorIsReturned | src/migrate/cron_cutover.rs:49-84 | the first store that cannot be prepared is the error of the run |
| Cutover.SummariesReport | src/migrate/cron_cutover.rs:86-102 | the report of every store, the same for a dry run, which changes nothing |
| Cutover.StepsWrite | src/migrate/cron_cutover.rs:178-222 | the undisturbed steps write the verified bytes to the backup, the empty store beside the store, and move it into place |
| Cutover.StopLeavesAPrefix | src/migrate/cron_cutover.rs:215-217 | a crash or failed write leaves any prefix of the file being written and every other file |
| Cutover.OneUnverifiedJobStopsEverything | src/migrate/cron_cutover.rs:104-114 | one job that was not imported, in any store, and no file changes |
| Cutover.RefusalNamesTheFirst | src/migrate/cron_cutover.rs:104-114 | the refusal names the first job of the first store that was not imported |
| Cutover.EveryStoreWithJobsIsEmptied | src/migrate/cron_cutover.rs:116-123 | a successful run empties exactly the stores that had jobs, and their backups hold the verified bytes |
| Cutover.SecondRunChangesNothing | src/migrate/cron_cutover.rs:116-123 | a run after a successful one succeeds and changes no file |
| Cutover.StoppedRunIsFinished | src/migrate/cron_cutover.rs:40-124 | from the files left by a cutover stopped at any point the next run succeeds, empties every store that had jobs with its original bytes in a backup, and leaves the others as they were |
| Cutover.EveryPointIsSafe | src/migrate/cron_cutover.rs:178-222 | the invariant of every crash point, with partial writes and other writers outside the lock |
| Cutover.VerifiedBytesAreNeverLost | src/migrate/cron_cutover.rs:178-222 | at every point the bytes that were read are in the store or in a backup, unless others replaced them first |
| Cutover.OutsideChangesSurvive | src/migrate/cron_cutover.rs:185-192 | what others wrote in place of the verified bytes is never overwritten |
| Cutover.OnlyBackedUpStoresAreEmptied | src/migrate/cron_cutover.rs:116-123 | only a store with jobs changes, from its verified bytes, with a whole backup in place, to the empty store |
| Cutover.AloneIsSequential | src/migrate/cron_cutover.rs:178-222 | without others the steps of the protocol on one store are the sequential cutover of it |
| Cutover.CutoverIsARun | src/migrate/cron_cutover.rs:116-123 | what the whole cutover prepares and leaves is a run of the protocol, stopped if and only if the cutover fails |

## Left out

- Payload text: payloads are compared as structures; the text comparison of the compare-and-swap, and stored payloads
  that are not JSON, are not modelled.
- `session_key` and `created_at` of a job row, notifications, delivery of job output, context files, wake gates and the
  silence rules: they do not take part in the protocol.
- StoreMerge.SyncSettles: does not cover a row that its file lists more than once, because such a row need not settle
  (`StoreMerge.TwiceListedSettlesExactlyWhen`).
- StoreMerge.AllStoresSettle: nor does it, for the same reason; no row may be listed or owned by two stores.
- StoreMerge.JobTable.SyncOne: takes one clock reading for the whole sync and deletes the unlisted rows in one step; the
  gateway lifecycle guard is one flag per job.
- CronProtocol.EveryStateIsSafe: does not model generation of unique ids; run ids and claim tokens are taken from
  those not issued before.
- CronCounter.LimitIsNeverExceeded: does not cover resumes and outside edits, because they re-arm the job; triggers are
  the subject of `CronCounter.LimitIsExceededByTriggersOnly` and `CronCounter.TriggerBreaksTheLimitExactlyWhen`.
- Byte positions of the chunker: texts are characters; only `preferred_boundary` measures UTF-8 lengths. The pagination
  switch of the environment is a parameter.
- LiveEditProtocol.EditsAreOrderlyInEveryRun: does not model transport failures, because a failed call leaves the update
  midway and nothing is promised then, and updates given up while they wait; revisions do not wrap, and the edits of one
  final update are one step under the mutex, which serves its waiters in the order in which they came, as tokio's does.
- Ledger.DeliveryLedger.RecoverPending: does not model the session lookup of a recovered row, and database errors of
  the marks, which the source ignores.
- LedgerProtocol.EveryRunIsSound: takes it as an assumption about the callers that no id is recorded twice; what a second
  recording does is `LedgerProtocol.RecordingKeepsOneSenderExactlyWhen`. A sweep's claims and redeliveries may
  interleave, which covers their order in the source.
- Debounce: generations do not wrap; the delay is not measured, timers wake in any order except where stated.
- Stream.StreamWithToolCalls: does not model a consumer that goes away, which ends the stream early, and invalid UTF-8
  inside a packet.
- TurnLoop.Turn.RunOnce: does not model the reading of frames from JSON; frames are the cases the loop tells apart, and a
  response that is also a notification is not one of them. Typing notices, denial answers and tracing have no state here.
- EnvFile: `map_values`, `read_yaml` and the masked summary; the overlay is any ordered map with good keys whose values
  pass `validate_output_values`.
- Cutover.FileSystem.CutoverCronStores: does not model the discovery of the profile directories, a store path that is
  not a file, and failing reads; failing and partial writes are in the protocol's `Stop`.
- The multiplexer, the voice and browser tools, Discord transport, the dashboard beyond the key parser, pairing,
  approvals, memory scores and attachments: foreign calls, or small enough to add only easy members.
