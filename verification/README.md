# Verification of the career dashboard's crawl and repair workers

This project models the long-running workers of the career dashboard that crawl, archive, probe and repair, and
proves what they promise. `dafny verify dfyconfig.toml` checks all of it.

## What is modelled

**The Common Crawl audit** (`scripts/audit_ats_common_crawl.ts`).
`AuditModel` is the resumable crawl as a transition system: the database, what AWS holds for the request tokens, and
the memory of the one worker. Every transaction, every single write and every AWS call is one step, and a crash may
fall between any two. A run is any number of invocations; each may add patterns and then takes any steps. The crawl
sources are oracles: a finite sequence of pages per pattern and index, and per query. `AuditWalk`, `AuditSubmission`,
`AuditCoverage` and `AuditAccounts` are its invariants, `AuditSoundness` what they mean for every reachable world.
`AuditQuantum` is one quantum as a function of the world and of how the outside behaves, and a run of the system;
`AuditStore` is the same quantum as a class whose methods change rows one operation at a time, proved equal to that
function, and `AuditContract` says field by field what a quantum does. `AuditGap` and `ReceiptOrder` are about what
receipts cover and when they are earned. `CooperativeScheduler` is the scheduler with its loops and a trace, over
callbacks that are pure functions of a state; `SchedulerFairness` reads the trace. `AuditProgress` and `AuditTermination`
put the scheduler, its waits and the quanta together.
`ProductiveBackoff`, `CandidateLifecycle`, `CandidateAttempts` and `CandidateDrain` are the waits and the life of a queued
candidate. `RunWindows` is the index windows, and `AuditInvocation` the outer loop over crawl, drain and verification.

**Archive and disposal** (`scripts/archive_ats_crawls.ts`, `scripts/dispose_ats_crawls.ts`). `ArchiveModel` gives each
of the two disks a live view and a saved view (the one a power loss leaves), with syncing of files and directories,
write-back by the kernel, process exits, power losses and damage by the medium at every operation of both workers.
`ArchiveDurability`, `ArchiveDisposal` and `ArchiveRetry` are the guarantees, `ArchiveHost` the two workers in the program's
own form, `ArchiveOutcome` what an undisturbed archive call comes to.
`RetentionCursor` is the keyset cursor and the loop both workers share.

**The liveness sweep** (`scripts/refresh_ats_board_liveness.ts`). `Interleave` is the order of the queue, `ProbePool` the
pool under every interleaving of its workers' undisturbed stretches, `LivenessBrakes` the brakes and the selections.

**Smaller workers.** `RepairLimiter` (`scripts/ats_pipeline_watchdog.ts`), `OwnershipRepair` and `OwnershipBatches`
(`scripts/repair_dayforce_postings.ts`), `CaseDuplicates` (`scripts/consolidate_case_duplicate_ats_boards.ts`).

`Basics`, `Ordering`, `CyclicArithmetic` and `RetryPolicy` are shared.

## Where the code does less than one might expect

Each of these is a proved statement: a counterexample and the exact condition under which the property does hold.

- A receipt earned through the direct API covers the pages before the first empty one. At every place of a walk it covers
  the whole index exactly when what stands behind that page adds no slug to what the walk's direct reads found by then
  (`AuditGap.DirectReceiptCoversIndexIff`); `AuditGap.GapLosesSlug` is a plan where a slug is lost.
- Without the catalog, a run is resumed from the receipts of a completed pattern. That works exactly when the pattern the
  database picks walked forward or had one index; a newest-first pattern makes the resume fail
  (`RunWindows.DurableSequenceIff`).
- At most six transient outcomes are recorded per candidate exactly when no candidate may have two tasks at a time
  (`CandidateAttempts.SixTransientOutcomesIff`). One process never overlaps itself, over any batches, deaths and restarts
  (`CandidateAttempts.ProgramKeepsBound`), and the two discovery services share a lock. Only a copy started by hand without
  that lock overlaps (`package.json:106`; `docs/COMMON_CRAWL_LOCAL_DISCOVERY.md:120-126` forbids it).
- A deletion retried after an exit between an unlink and the sync of its directory finds the file missing, syncs nothing
  and notes both copies as deleted; a power loss brings the copy back. The copies are gone for good exactly when no such
  removal was pending (`ArchiveDisposal.DeletionIsForGoodIff`, `ArchiveDisposal.ExitLeavesPendingRemoval`).
- The watchdog limits noted repairs. Repairs carried out stay within three per six hours exactly when none trails its note
  and no crash tears the ledger (`RepairLimiter.LimitHoldsIff`); with torn ledgers there is no limit at all
  (`RepairLimiter.TornLedgersDefeatLimit`).
- Repair events of Dayforce targets have unique keys that name only the target, so a second repair of the same card can
  never commit (`OwnershipBatches.SecondRepairNeverFinishes`).

## Model

| member | source | states |
|---|---|---|
| `RetryPolicy.DelayIsBoundedAndMonotone` | scripts/audit_ats_common_crawl.ts:56-59 | Delays lie between one and fifteen minutes, never shrink with more failures, and reach the cap exactly from the fifth on. |
| `RetryPolicy.DelayDoubles` | scripts/audit_ats_common_crawl.ts:56-59 | One minute up to the first failure; every further failure doubles the delay up to fifteen minutes. |
| `RetryPolicy.DelayIsPower` | scripts/audit_ats_common_crawl.ts:56-59 | After k failures before it a failure waits two to the k minutes, and at most fifteen. |
| `CooperativeScheduler.RunCooperativeAuditWork` | scripts/audit_ats_common_crawl.ts:71-137 | The scheduler returns, with every item complete, after a trace that is a cyclic walk with completed items skipped, the third strike answered by the backoff before anything else, and idling only after a quiet round; the missing-retry-time error is unreachable. |
| `CooperativeScheduler.RunRound` | scripts/audit_ats_common_crawl.ts:84-129 | One round extends the trace by its own events, uses up work or completes an item, or found every item cooling down and reports the earliest retry time. |
| `SchedulerFairness.WalkIsCyclic` | scripts/audit_ats_common_crawl.ts:88-94 | The k-th position passed is k modulo the number of items, across rounds, circuit breaks and idle waits; read from the trace discipline that `RunCooperativeAuditWork` establishes. |
| `SchedulerFairness.CompleteItemsRest` | scripts/audit_ats_common_crawl.ts:93-102 | No item is run again after it reported completion. |
| `SchedulerFairness.EveryOtherItemGetsATurn` | scripts/audit_ats_common_crawl.ts:88-129 | Between two consecutive quanta of an item every other still incomplete item gets one. |
| `SchedulerFairness.NoItemGetsTwoTurns` | scripts/audit_ats_common_crawl.ts:120-129 | ... and only one, so failing items cannot monopolise the retries. |
| `SchedulerFairness.ThreeStrikesOpenTheCircuit` | scripts/audit_ats_common_crawl.ts:112-128 | At most three failures since the last success or backoff, and the third is followed by the backoff before any quantum or wait. |
| `SchedulerFairness.BackoffsEscalate` | scripts/audit_ats_common_crawl.ts:118-128 | Successive backoffs without a success never shrink, stay within fifteen minutes, start at one, and each is twice the one before it up to the cap. |
| `SchedulerFairness.BackoffWaits` | scripts/audit_ats_common_crawl.ts:118-128 | After k backoffs since the last success the next one lasts two to the k minutes, and at most fifteen. |
| `SchedulerFairness.WaitsTakeTheirTime` | scripts/audit_ats_common_crawl.ts:118-135 | A backoff lets its milliseconds pass on the clock, and an idle wait ends no earlier than its retry time, whenever the callback does wait. |
| `SchedulerFairness.IdleWaitsAreMinimal` | scripts/audit_ats_common_crawl.ts:111-135 | An idle wait follows a full round without contact and targets exactly its least retry time; read from the trace discipline that `RunCooperativeAuditWork` establishes. |
| `SchedulerFairness.FinishedAreDone` | scripts/audit_ats_common_crawl.ts:96-102 | What reported completion is done in the final state, whatever ran in between. |
| `ProductiveBackoff.RunProductiveAuditBackoff` | scripts/audit_ats_common_crawl.ts:139-154 | The wait ends, not before its deadline, in the state its batches and naps lead to; it naps exactly after the batches that found nothing ready, until the deadline, but at least a millisecond and at most a minute. |
| `AuditWalk.StepKeepsWalk` | scripts/audit_ats_common_crawl.ts:696-748 | Every step keeps each pattern on its walk, receipts inside patterns times window, and finished patterns counted once. |
| `AuditWalk.OrderOfWindow` | scripts/audit_ats_common_crawl.ts:513-516 | Both directions visit each index of the window once; the target comes first newest-first and last forward. |
| `AuditWalk.MarkerMeansAllReceipts` | scripts/audit_ats_common_crawl.ts:526-532 | In both directions the completion marker, and the completion test, hold exactly when every index of the window has its receipt. |
| `AuditWalk.ReceiptsArePassedPrefix` | scripts/audit_ats_common_crawl.ts:696-743 | An unfinished pattern's receipts are exactly the part of its own order before its current index. |
| `AuditSubmission.StepKeepsOnce` | scripts/audit_ats_common_crawl.ts:553-600 | Every step keeps tokens private, stored ids equal to what AWS holds, and at most one execution per pattern and index not verified dead. |
| `AuditCoverage.StepKeepsCovered` | scripts/audit_ats_common_crawl.ts:696-788 | Every step keeps everything before either cursor durable and every receipt backed by a complete read. |
| `AuditAccounts.StepKeepsBalanced` | scripts/audit_ats_common_crawl.ts:699-784 | Every step keeps the run's counters equal to receipts plus live counters, and queued equal to candidate rows. |
| `AuditSoundness.ReachableInvariant` | scripts/audit_ats_common_crawl.ts:540-814 | The whole invariant holds after any invocations, plan expansions, steps and crashes. |
| `AuditSoundness.ExpansionKeepsInvariant` | scripts/audit_ats_common_crawl.ts:470-481 | Adding patterns to an unfinished run keeps everything already earned. |
| `AuditSoundness.CoverageIsCrashSafe` | scripts/audit_ats_common_crawl.ts:603-789 | A receipt means a complete read whose every slug is a durable candidate; a cursor means everything before it is. |
| `AuditSoundness.CountProvesProduct` | scripts/audit_ats_common_crawl.ts:791-806 | As many receipts as patterns times indexes can only be all of them. |
| `AuditSoundness.CompletionIsSound` | scripts/audit_ats_common_crawl.ts:791-814 | A completed run has exactly the product of its patterns and window as receipts, each completely read, every candidate classified, every pattern at its end; it is complete without remainder exactly when no candidate stayed unresolved. |
| `AuditSoundness.SubmitOnce` | scripts/audit_ats_common_crawl.ts:534-600 | Paid executions per pattern and index are at most one more than the verified dead ones, over any crashes; a stored id is AWS's own for the stored token. |
| `AuditSoundness.CountersAreConserved` | scripts/audit_ats_common_crawl.ts:752-784 | Pages, records and queued candidates of a run are the sums over receipts and unfinished checkpoints; queued is the number of rows. |
| `AuditGap.DirectReceiptCoversIndexIff` | scripts/audit_ats_common_crawl.ts:655-696 | At every place of every walk: direct receipts cover the whole index, in every run and whatever queries failed on the way, exactly when nothing behind its first empty page is new to what was read by then. |
| `AuditGap.GapHidesNothing` | scripts/audit_ats_common_crawl.ts:696-743 | Under that condition the direct receipts of a walk up to an index cover all pages of that index. |
| `AuditGap.GapLosesSlug` | scripts/audit_ats_common_crawl.ts:655-743 | A run over a listing with an empty page in front of a page with a slug earns the receipt without that slug. |
| `ReceiptOrder.FinishedPatternEarnedItsWalk` | scripts/audit_ats_common_crawl.ts:696-743 | Over all invocations and crashes of a run, a finished pattern earned its receipts exactly in the order of its walk. |
| `AuditQuantum.QuantumIsARun` | scripts/audit_ats_common_crawl.ts:603-789 | An uninterrupted quantum is a run of the transition system, for every behaviour of the outside. |
| `AuditContract.ReachableQuantumMeetsContract` | scripts/audit_ats_common_crawl.ts:603-789 | Every quantum in every world a run can reach: which source is contacted, what is submitted, polled, committed, earned or postponed, and the report, each field written out. |
| `AuditContract.SourcesStayApart` | scripts/audit_ats_common_crawl.ts:633-662 | A contact with a configured reader that knows the index never moves the page within the index and stores the id of a new query when the call went through; any other contact leaves AWS, and within the index the stored query, alone. |
| `AuditContract.StepsStayApart` | scripts/audit_ats_common_crawl.ts:633-662 | A quantum with a reader for its index takes no step that reads the direct API; any other takes none that asks AWS. |
| `AuditProgress.EveryAdvanceUsesUpWork` | scripts/audit_ats_common_crawl.ts:643-789 | Every advancing or completing quantum lowers (indexes left, query to submit, pages left) lexicographically. |
| `AuditProgress.FailureLosesNothing` | scripts/audit_ats_common_crawl.ts:667-694 | A failed or waiting quantum changes no cursor, candidate, receipt, counter or other row; the stored query goes only when AWS has doomed it. |
| `AuditProgress.DrainingNeverSubmits` | scripts/audit_ats_common_crawl.ts:862-883 | Visiting a pattern whose query id is stored never starts or mints anything at AWS. |
| `AuditTermination.CalmContactProgresses` | scripts/audit_ats_common_crawl.ts:603-789 | Once answers are good, every contact, restarts included, lowers the rank of its own row and changes no other row. |
| `AuditTermination.WaitIsLawful` | scripts/audit_ats_common_crawl.ts:139-154 | A wait with drains reaches its deadline or has used the time to get on. |
| `AuditTermination.EnoughPolls` | scripts/audit_ats_common_crawl.ts:139-154 | A wait comes to its deadline by itself after finitely many rounds of draining and napping, and any larger number of polls leaves its result the same. |
| `AuditTermination.DrainReachesPaidQueries` | scripts/audit_ats_common_crawl.ts:862-883 | Draining during a wait contacts a pattern whenever one with a stored query is due. |
| `AuditTermination.CrawlEveryPattern` | scripts/audit_ats_common_crawl.ts:852-885 | After any finite number of bad answers and over finite sources the crawl phase ends, and every pattern has every receipt, completely read. |
| `AuditStore.ExtractAuditCandidates` | scripts/audit_ats_common_crawl.ts:170-184 | The slugs of a page by exact spelling, each once: exactly the candidates the page contributes. |
| `AuditStore.AuditClient.InsertCandidates` | scripts/audit_ats_common_crawl.ts:186-205 | Chunked inserts that skip duplicates add exactly the new candidates and count them. |
| `AuditStore.AuditClient.ReadAthenaCheckpoint` | scripts/audit_ats_common_crawl.ts:540-601 | Whatever the read returns, completing it as the caller does is the quantum's function of the old state. |
| `AuditStore.AuditClient.CrawlPatternQuantum` | scripts/audit_ats_common_crawl.ts:603-789 | The new state and the report are those of `AfterQuantum` on the old state, and meet the field-by-field contract of a quantum. |
| `AuditStore.AuditClient.EarnIndexReceipt` | scripts/audit_ats_common_crawl.ts:696-748 | Receipt, move or marker, and finished count, as one transaction of the transition system. |
| `AuditStore.AuditClient.CommitCandidates` | scripts/audit_ats_common_crawl.ts:750-788 | Candidates, counters and one cursor, as one transaction of the transition system. |
| `AuditStore.AuditClient.VerifyAndComplete` | scripts/audit_ats_common_crawl.ts:791-814 | Succeeds exactly when every pattern has its marker, the receipts are as many as patterns times indexes and no candidate is open; the run is then complete exactly when no candidate is unresolved, and otherwise nothing changes. |
| `AuditStore.AuditClient.CompleteLocalAuditCheckpoints` | scripts/audit_ats_common_crawl.ts:895-915 | Marks every pattern complete exactly when every pattern has every receipt; a single missing one changes nothing. |
| `RunWindows.WindowIsShortestSuffix` | scripts/audit_ats_common_crawl.ts:431-445 | The new window is the shortest catalog suffix containing every uncovered pattern and index. |
| `RunWindows.NothingMissingIff` | scripts/audit_ats_common_crawl.ts:431-445 | Nothing is missing exactly when every pattern is covered through the whole catalog. |
| `RunWindows.OneRunCoversAll` | scripts/audit_ats_common_crawl.ts:499-511 | A completed run over that window leaves nothing uncovered. |
| `RunWindows.CreatedRunIsFresh` | scripts/audit_ats_common_crawl.ts:483-511 | A created run reaches from the first index some configured pattern lacks to the newest, and takes on exactly the configured patterns. |
| `RunWindows.WindowFoundIff` | scripts/audit_ats_common_crawl.ts:518-524 | A window is recovered from its length and target exactly when it still stands in the catalog in one piece. |
| `RunWindows.VerifiedIff` | scripts/audit_ats_common_crawl.ts:397-415 | A sequence of receipts stands in for the catalog exactly when it has the length of the run, names no index twice and ends with the target. |
| `RunWindows.WindowSurvivesNewerEntries` | scripts/audit_ats_common_crawl.ts:518-524 | Newer catalog entries do not move the window of a run. |
| `RunWindows.DurableSequenceIff` | scripts/audit_ats_common_crawl.ts:397-415 | The receipts a completed pattern earned over all invocations of a run, in that order, reproduce the window exactly when it walked forward or has one index, and are rejected otherwise. |
| `RunWindows.LocalOrderIsAPermutation` | scripts/audit_ats_common_crawl.ts:816-821 | A local scan visits each index once, those in progress first; it refuses exactly when a saved scan lies outside the window. |
| `RunWindows.DedupeKeepsOrder` | scripts/audit_ats_common_crawl.ts:447-461 | Patterns are taken up in the order of their first listing: configured ones first. |
| `RunWindows.LocalOrderIsNewestFirst` | scripts/audit_ats_common_crawl.ts:816-821 | Of two indexes not in progress the newer comes first, behind all that are in progress. |
| `AuditInvocation.AuditOneRun` | scripts/audit_ats_common_crawl.ts:864-890 | Crawl, drain and verification end with a complete run: receipts exactly patterns times window, each completely read, every candidate classified, and the status complete without remainder exactly when none stayed unresolved. |
| `AuditInvocation.FinishedCrawlIsProved` | scripts/audit_ats_common_crawl.ts:791-806 | After a finished crawl and with no candidate open the count comparison succeeds. |
| `AuditInvocation.DrainedIsARun` | scripts/audit_ats_common_crawl.ts:371-388 | Draining is a run of the transition system. |
| `AuditInvocation.DrainingIsVerdicts` | scripts/audit_ats_common_crawl.ts:371-388 | Whatever the queue does until no candidate is open amounts to one final verdict per open candidate. |
| `AuditInvocation.RunFullAudit` | scripts/audit_ats_common_crawl.ts:823-892 | An invocation refuses exactly for the stated reasons, and otherwise ends after at most two runs, each crawled, drained and verified, with everything covered; each round adds exactly its own patterns times its own window. |
| `CandidateLifecycle.ClassificationIsFinal` | scripts/audit_ats_common_crawl.ts:225-240 | Under any interleaving and crashes a classified candidate never changes again. |
| `CandidateLifecycle.RetryDelays` | scripts/audit_ats_common_crawl.ts:263-266 | One, five, fifteen minutes, one, three and then six hours. |
| `CandidateLifecycle.Decisions` | scripts/audit_ats_common_crawl.ts:289-341 | A known board makes its candidate existing or retired, a validated one is created and makes it active, an invalid one parks it, and a first-collection platform makes it wait. |
| `CandidateLifecycle.VerdictsAreWritten` | scripts/audit_ats_common_crawl.ts:207-241 | A verdict is written to an open row, with its own counter raised by one, and never to a classified one. |
| `CandidateLifecycle.TransientAnswers` | scripts/audit_ats_common_crawl.ts:268-288 | A transient outcome is recorded as a retry after its delay, or, as the sixth, closes the candidate as unresolved and is counted. |
| `CandidateLifecycle.CountersAddUp` | scripts/audit_ats_common_crawl.ts:214-241 | Each counter is the number of rows with its status, all counters and waiting rows are all rows, and what counts as a board has one. |
| `CandidateAttempts.SixTransientOutcomesAtMost` | scripts/audit_ats_common_crawl.ts:268-288 | With one task per candidate: at most six recorded transient outcomes, unresolved only after all six. |
| `CandidateAttempts.SixTransientOutcomesIff` | scripts/audit_ats_common_crawl.ts:268-315 | The bound of six holds over every run exactly when no candidate may have more than one task at a time. |
| `CandidateAttempts.ProgramKeepsBound` | scripts/audit_ats_common_crawl.ts:343-359 | Batches of different candidates, each awaited before the next, keep the bound over any interleaving of their tasks and any process deaths. |
| `CandidateAttempts.StaleTasksForgetAttempts` | scripts/audit_ats_common_crawl.ts:280-288 | With n overlapping tasks n transient outcomes can be recorded while the row says one. |
| `CandidateLifecycle.MovesClassify` | scripts/audit_ats_common_crawl.ts:207-341 | Every move of the lifecycle is an insertion, a classification of an open row, or nothing to the audit's model. |
| `CandidateDrain.FewestAttemptsFirst` | scripts/audit_ats_common_crawl.ts:343-353 | Ready candidates stand in turn: by attempts, and among equals as queued. |
| `CandidateDrain.BatchIsFirstFifty` | scripts/audit_ats_common_crawl.ts:343-353 | A batch has at most fifty candidates, all ready and in turn; who is ready and left out comes after all of a full batch. |
| `CandidateDrain.CandidateTable.MarkTransient` | scripts/audit_ats_common_crawl.ts:268-288 | The attempt is recorded with its next time, or the sixth closes the candidate. |
| `CandidateDrain.CandidateTable.ProcessReadyCandidates` | scripts/audit_ats_common_crawl.ts:343-359 | A batch processes the first fifty ready candidates and nothing else, five at a time with the five answering in any order, and uses up attempts unless nothing was ready. |
| `CandidateDrain.CandidateTable.DrainCandidates` | scripts/audit_ats_common_crawl.ts:371-388 | Draining ends with no candidate open, classified rows as they were, every other one with the verdict its answers lead to, none given up before its sixth attempt, and counters that add up. |
| `ArchiveDurability.ArchiveIsDurable` | scripts/archive_ats_crawls.ts:108-182 | Under every crash schedule: rows still there, or disposed, or each undamaged disk durably holds the encoded rows with the recorded digest. |
| `ArchiveDurability.CopyAdvances` | scripts/archive_ats_crawls.ts:108-140 | Each operation of writing a copy, also when one was left unsynced by an earlier attempt, establishes what the next needs, and the last leaves the copy stored. |
| `ArchiveDurability.StepKeepsInvariant` | scripts/archive_ats_crawls.ts:108-182 | Every operation, failure, exit, power loss, write-back and damage keeps the invariant. |
| `ArchiveHost.ArchiveDisk.WriteArchiveCopy` | scripts/archive_ats_crawls.ts:108-140 | Succeeds exactly when the disk can hold the copy: the same bytes at the final name, or nothing readable there, no temporary file in the way and a read-back that matches. Then the copy and the whole path to it are stored; a failure leaves the final name, and either way no other file is touched. |
| `ArchiveHost.RetentionHost.ArchiveOneCrawl` | scripts/archive_ats_crawls.ts:151-182 | Succeeds exactly when both disks can hold their copy and neither medium has changed it by the second reading. Rows go and the receipt appears together and only with both copies stored; a refusal leaves the database alone. |
| `ArchiveHost.RetentionHost.DeleteDisposedArchiveFiles` | scripts/dispose_ats_crawls.ts:77-111 | Removes both copies and nothing else or, on a mismatch of either or without a disposal, neither; throws exactly in those cases, and returns how many copies it found. |
| `ArchiveOutcome.ArchivesIff` | scripts/archive_ats_crawls.ts:108-182 | A call that nothing interrupts publishes its receipt and takes the rows away exactly when both disks can hold the copy, which is then stored on both; otherwise the database is as it was. |
| `ArchiveDisposal.OnlyDisposalRemoves` | scripts/dispose_ats_crawls.ts:77-104 | A copy is unlinked only by a deletion of a committed disposal that has checked both disks. |
| `ArchiveDisposal.DeletionOutcome` | scripts/dispose_ats_crawls.ts:85-110 | An uninterrupted deletion touches neither copy when a present one does not match, and otherwise removes both and says so. |
| `ArchiveDisposal.DeletionCanBeRetried` | scripts/dispose_ats_crawls.ts:76-111 | After a process exit at any operation a further call ends where the first would have. |
| `ArchiveRetry.CrashedDeletionCanBeRetried` | scripts/dispose_ats_crawls.ts:76-111 | On undamaged disks, after any history and a process exit or power loss at any operation of a deletion, a further call finds no mismatch and ends with both copies gone: for good after a power loss, and after an exit exactly when no removal was pending. |
| `ArchiveRetry.StepKeepsTrue` | scripts/dispose_ats_crawls.ts:85-104 | Every step, power losses included, keeps what a copy's name stands for equal to the archived bytes on undamaged disks. |
| `ArchiveDisposal.GoneForGoodIff` | scripts/dispose_ats_crawls.ts:99-110 | Once noted as deleted, no run shows a copy again exactly when no disk still has its entry saved. |
| `ArchiveDisposal.DeletionIsForGoodIff` | scripts/dispose_ats_crawls.ts:85-110 | A completed deletion is visible everywhere, and for good exactly when no unsynced removal was pending at its start. |
| `ArchiveDisposal.ExitLeavesPendingRemoval` | scripts/dispose_ats_crawls.ts:99-103 | An exit between an unlink and the directory sync leaves such a pending removal. |
| `RetentionCursor.RetentionWorker.RunOnce` | scripts/archive_ats_crawls.ts:223-254 | One run attempts a prefix of its selection, cut short only by time, readiness or exit; the saved state counts the batches retired and lists the last fifty held, and its cursor is at the last attempt. |
| `RetentionCursor.RecordedCounts` | scripts/archive_ats_crawls.ts:231-250 | Any attempts, one after another, count what they retired and keep the last fifty held. |
| `RetentionCursor.PassMovesForward` | scripts/archive_ats_crawls.ts:215-237 | All attempts of a pass, over all its runs, are strictly ascending, so none is repeated. |
| `RetentionCursor.NoBatchStarves` | scripts/archive_ats_crawls.ts:215-251 | A pass ends only after every batch that stayed eligible and unchanged was attempted, and the next starts from the beginning. |
| `RetentionCursor.NotReadyDoesNotPass` | scripts/archive_ats_crawls.ts:227-237 | A failed readiness check does not pass the batch it was about to attempt. |
| `RetentionCursor.PassIsBounded` | scripts/dispose_ats_crawls.ts:161-188 | A pass over finitely many batches takes finitely many runs. |
| `Interleave.InterleaveByPlatform` | scripts/refresh_ats_board_liveness.ts:104-118 | The queue is a permutation, stable within each platform, and round robin: no platform is taken again before every other with one left had its turn, and within a round platforms come in the order they first appear. |
| `ProbePool.ProbeRun.TakeNext` | scripts/refresh_ats_board_liveness.ts:243-266 | The first board of a platform neither active nor backing off is taken; skipped ones are closed for their reason; nothing taken with boards pending means a probe is in flight. |
| `ProbePool.ProbeRun.TakeTurn` | scripts/refresh_ats_board_liveness.ts:267-338 | Each undisturbed stretch takes a board, ends its probe or leaves. An ended probe records exactly the outcome of its answer, frees the platform and notes a refusal; no other outcome changes but those passed over for their reason. Pending, in-flight and finished stay a partition with one probe per platform, and the remaining effort shrinks unless it must wait. |
| `ProbePool.ProbeRun.Run` | scripts/refresh_ats_board_liveness.ts:226-339 | Under every interleaving the pool stays consistent, and when all workers have left every board has an outcome and was probed at most once; each outcome is that of the answer that ended its probe, or of the reason it was passed over for. Once each worker has had its turn as many times over as there was effort left, all have left. |
| `ProbePool.OutcomeMeans` | scripts/refresh_ats_board_liveness.ts:81-101 | Each outcome corresponds to exactly one kind of answer. |
| `ProbePool.SomebodyCanProceed` | scripts/refresh_ats_board_liveness.ts:267-276 | While a worker is there, some worker's turn makes progress. |
| `ProbePool.NoProbeAfterRefusal` | scripts/refresh_ats_board_liveness.ts:253-257 | After a platform refuses, none of its boards is started; part of the consistency that `ProbeRun.Run` keeps. |
| `ProbePool.AbsenceWasObserved` | scripts/refresh_ats_board_liveness.ts:312-332 | Evidence of absence comes from a contact of this sweep before any refusal; part of the consistency that `ProbeRun.Run` keeps. |
| `LivenessBrakes.CheckLivenessBrakes` | scripts/refresh_ats_board_liveness.ts:122-154 | Retirement is released exactly when something was swept, at most 15 % was inconclusive and no platform exceeds three times its share; the reason named is the first that applies. |
| `LivenessBrakes.OnlyMinoritiesDominate` | scripts/refresh_ats_board_liveness.ts:140-152 | The share brake can only trip for a platform with less than a third of the sweep. |
| `LivenessBrakes.SelectionsAreDisjoint` | scripts/refresh_ats_board_liveness.ts:399-406 | No board is both promoted and retired, none on inconclusive evidence, none without a contact; follows from the two filters alone. |
| `LivenessBrakes.SelectionByAnswer` | scripts/refresh_ats_board_liveness.ts:399-406 | What is promoted, retired or inconclusive, said of the answers themselves. |
| `RepairLimiter.Watchdog.NoteRepair` | scripts/ats_pipeline_watchdog.ts:285-292 | The ledger keeps exactly the stamps inside the window and gains the new one. |
| `RepairLimiter.LaterMeans` | scripts/ats_pipeline_watchdog.ts:271-283 | Recent are exactly the stamps after the cutoff. |
| `RepairLimiter.Watchdog.AttemptRepair` | scripts/ats_pipeline_watchdog.ts:294-328 | A repair is noted first, and only with fewer than three in the window; a crash leaves the stated ledger. |
| `RepairLimiter.ThreeNotesPerWindow` | scripts/ats_pipeline_watchdog.ts:271-300 | Over every run without a torn ledger any half-open six hours hold at most three noted repairs per action, although stamps are discarded. |
| `RepairLimiter.ThreeRepairsPerShorterWindow` | scripts/ats_pipeline_watchdog.ts:294-328 | Repairs carried out within a lag of their note are at most three in any window shorter by that lag. |
| `RepairLimiter.LimitHoldsIff` | scripts/ats_pipeline_watchdog.ts:271-328 | The limit on executed repairs holds over all runs exactly when there is no lag and no torn ledger. |
| `RepairLimiter.TornLedgersDefeatLimit` | scripts/ats_pipeline_watchdog.ts:271-292 | With ledgers torn by crashes any number of prompt repairs fits into one moment. |
| `RepairLimiter.EscalatedOrAttempted` | scripts/ats_pipeline_watchdog.ts:333-350 | A found condition is escalated or repaired, never passed over. |
| `OwnershipRepair.ChooseOwners` | scripts/repair_dayforce_postings.ts:230-243 | Every key a card may own has as owner the most preferred such card. |
| `OwnershipRepair.OwnerIsBest` | scripts/repair_dayforce_postings.ts:236-243 | An owner is applied-to if any eligible card is; then scored, never consolidated, oldest, and smallest by id, in this order. |
| `OwnershipRepair.PlanRepair` | scripts/repair_dayforce_postings.ts:244-277 | Each observation moves once, is held once, or is left alone, exactly by what it and its card are; cards are created exactly for keys with moves and no owner. |
| `OwnershipRepair.MovesAreJustified` | scripts/repair_dayforce_postings.ts:230-277 | A move leaves a card with a different own key for the unique owner or created card of the observation's key, on its own evidence, and is the only move of that observation. |
| `OwnershipRepair.OneTargetPerKey` | scripts/repair_dayforce_postings.ts:260-275 | All observations of a key go to one card; part of the plan that `PlanRepair` establishes. |
| `OwnershipBatches.MovesByTarget` | scripts/repair_dayforce_postings.ts:399-401 | Grouping by target keeps all moves, each in one group of its own target. |
| `OwnershipBatches.RepairDatabase.CommitBatch` | scripts/repair_dayforce_postings.ts:404-418 | A batch commits exactly when all its guards hold, and otherwise changes nothing. |
| `OwnershipBatches.BatchEffect` | scripts/repair_dayforce_postings.ts:404-418 | A committed batch moves exactly its observations to their targets, leaves all others, and writes its cards and events. |
| `OwnershipBatches.RepairDatabase.ApplyMoves` | scripts/repair_dayforce_postings.ts:402-422 | Wherever a run stops, exactly the first targets have been applied, and it stops at a refused batch, at its death or at the end. |
| `OwnershipBatches.AllOrNone` | scripts/repair_dayforce_postings.ts:403-418 | After any number of targets each has all of its moves or none. |
| `OwnershipBatches.StopsIff` | scripts/repair_dayforce_postings.ts:403-418 | A run reaches the end exactly when the database it found admits every target. |
| `OwnershipBatches.SecondRepairNeverFinishes` | scripts/repair_dayforce_postings.ts:413-417 | A plan that targets a card repaired before can never finish. |
| `CaseDuplicates.SurvivorIsStrongest` | scripts/consolidate_case_duplicate_ats_boards.ts:183-194 | The survivor is the strongest active, synchronised row; there is none exactly when no row is both. |
| `CaseDuplicates.SurvivorIsLatest` | scripts/consolidate_case_duplicate_ats_boards.ts:177-194 | The survivor was synchronised last; among equals it has most postings, then the latest check, then the first name. |
| `CaseDuplicates.SurvivorIgnoresInputOrder` | scripts/consolidate_case_duplicate_ats_boards.ts:177-194 | The choice does not depend on the order of the rows. |
| `CaseDuplicates.Judge` | scripts/consolidate_case_duplicate_ats_boards.ts:196-261 | One verdict per row; a row is retired only for another row that returned at least four fifths of what it returned. |
| `CaseDuplicates.RetirementIsSafe` | scripts/consolidate_case_duplicate_ats_boards.ts:312-324 | A group that loses a row keeps its active survivor, which lacks at most a fifth of the lost postings. |
| `CaseDuplicates.SurvivorStaysChosen` | scripts/consolidate_case_duplicate_ats_boards.ts:183-194 | Judging the group again after retirement keeps the same survivor. |

## Left out

- Prisma and SQL text, HTTP, AWS and Common Crawl clients, argument parsing, reports and console output: only their contracts appear (guarded atomic updates with a count, a page read, a token that stands for one execution).
- scanLocalCrawl, verifyCrawlArchive, classifyBoardForAbsence, dayforcePostingKey, validateDayforceSnapshot, SHA-256 and the encoding of archives: uninterpreted or parameters.
- Slug trimming and lower-casing of candidates are part of the extraction oracle; only the exact spelling identifies a candidate, as the unique key of the table does. The parallel first-collection table is not modelled.
- A page of an oracle source does not change between reads; a source that answers differently on a retry is not modelled. A page the client reports as empty, also after an HTTP 404 or 400, counts as the source's empty page.
- A succeeded query is taken to have at least one result page, as the result API returns one even for no rows.
- One clock reading per quantum stands for the several the code takes; `lastError` texts and the run's `validating` status are not modelled.
- AuditTermination.CrawlEveryPattern: candidate validation between and during quanta is left to CandidateDrain; bad answers must end at some contact, which no program could do without. The crawl's quanta, waits, drains and scheduler are all in it.
- AuditTermination.WaitIsLawful: a wait that is given fewer polls than it needs lets the rest of its time pass without draining; AuditTermination.EnoughPolls says when that cannot happen. Candidate batches processed during waits are left to CandidateDrain.
- AuditInvocation.RunFullAudit: the catalog is fixed and still lists a resumed run's window in one piece, as indexes are only ever added; patterns a resumed run takes on come after its own, where the program may list them in between, which changes only the order of turns; answers must be good from some contact on, as for the crawl.
- AuditGap.DirectReceiptCoversIndexIff: speaks of receipts no query can have earned; where a query not given up has all its results in the table as well, the database does not show which of the two earned the receipt.
- RunWindows.DurableSequenceIff: receipts of one pattern carry ascending completion times, as every contact is followed by a pause of at least five seconds on a clock that does not go back.
- AuditStore.AuditClient.CompleteLocalAuditCheckpoints: the local mode's scans that earn the receipts are not modelled, and AuditWalk and AuditAccounts speak of the non-local mode.
- CandidateDrain: what looking a candidate up and validating it answers is fixed per candidate and attempt, and does not change with the order in which a batch is processed.
- CandidateLifecycle: the case-insensitive and Gusto-specific matching of existing boards is an oracle keyed by the candidate itself.
- CandidateAttempts.SixTransientOutcomesAtMost: counts recorded outcomes; a validation whose process dies before recording it is not counted by the code either.
- ArchiveModel treats one batch at a time. Other batches share directories with it, which only adds directory syncs, and those are allowed at any time. The two directories above the copies are the version and the date directory.
- ArchiveDurability.ArchiveIsDurable: a disk whose medium corrupts a file after the last verification is exempt; no program could notice.
- Host checks on mounts, permissions and free space are one readiness answer per attempt; the retention selections' eligibility conditions are a set given per run.
- RetentionCursor.RetentionWorker.RunOnce: the disposal loop's counters of removed files and its separate pass over unfinished deletions are not part of it.
- Name, title and location matching, HTML cleaning, percentages for display; the shares of the brakes and of case duplicates are exact reals, where the program rounds to floating point.
- OwnershipRepair: how own keys and held cards are found, the patches to existing cards, and the posting identity of cards restored from their original source are not modelled; the plan lists keys in order of first appearance rather than sorted.
- CaseDuplicates.SurvivorIgnoresInputOrder: assumes that the collation tells any two names of a group apart.
- RepairLimiter: runs of the watchdog do not overlap, as its timer guarantees.
