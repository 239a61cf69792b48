# ReconcileFlow: verified model

A Dafny model of the parts of ReconcileFlow whose correctness depends on more than one function, with
machine-checked proofs. `dafny verify dfyconfig.toml` checks all of it.

**The reconciliation engine.** Bank entries, invoices and gateway entries are sorted, validated and taken through
eight passes that consume records into three used sets. The passes are one *agenda* of tasks (`Matching.dfy`), each
deciding from the ledger the earlier ones left; the methods in `Engine.dfy` run the loops of the source with their
dictionaries and candidate lists, and are proved to settle exactly that agenda. About the agenda: every record ends
in exactly one outcome (`Partition.dfy`), no money is lost or counted twice (`Conservation.dfy`), the input order
does not matter (`OrderIndependence.dfy`), an ineligible bank entry disturbs nothing (`Frame.dfy`), the report is
the one list in which each task, at its turn, reports what its rule's evidence supports and nothing else
(`Evidence.dfy`), the records an outcome names meet that rule's conditions, spelled out one by one
(`Justification.dfy`), no settlement is split between outcomes (`Settlements.dfy`), outcomes come in rule priority,
and a record reported by one rule was tried by every rule before it that is about that record, still unconsumed and
in vain (`Priority.dfy`), and an outcome keeps to one currency exactly under a condition on its links
(`Currency.dfy`, `Crossings.dfy`). The bounded subset-sum search is exact (`Combinations.dfy`).

All of this comes together in one description on the records alone: `RuleBook.dfy` says which outcome a turn calls
for, `Chronology.dfy` in which order records and turns come, and `RecordReport.ReportOnRecords` that a report is the
engine's if and only if it lists exactly the outcomes called for, turn by turn, in that order, numbered from 1.
`TextMatching.dfy` is the engine's own reading of references; the other modules leave it open, so they hold for any.

**The background-job protocol.** Any number of worker processes, the API and the retention cleanup act on one
database; every transaction is one atomic step, told on the records in `Steps.dfy`. A process keeps the snapshot of
the job it claimed, so it may stall, lose its lease and go on; it may crash at any point (relaunching a process
forgets what it was doing). `Jobs.dfy` holds the transactions, `JobStore.dfy` and `Worker.dfy` the repositories and
the worker that update records in place, proved to perform them, `Protocol.dfy` the step relation, `ExactlyOnce.dfy`
the invariant over all runs, `RunHistory.dfy` which results a run holds in the end, `ClaimOrder.dfy` the queue by
priority and waiting time, `JobHistory.dfy` the replayable event log, `Progress.dfy` termination and starvation
freedom, `StrandedRuns.dfy` the exact condition of a manual retry and the runs no retry can help, `Retention.dfy`
the cleanup loops.

**Ledgers.** AI usage reservations over the days and months of the calendar (`AiUsage.dfy`, `UsageStore.dfy`,
`Calendar.dfy`), storage accounting (`Storage.dfy`, `StorageService.dfy`), refresh-token families
(`RefreshTokens.dfy`, `TokenStore.dfy`), and candidate generation (`Candidates.dfy`). The first three are transition
systems over their records, each with a class that updates them in place; the last is a loop proved against a
declarative top-k.

`Ordering.dfy`, `Sums.dfy` and `MatchingFacts.dfy` hold the elementary facts the rest builds on.

## Where code and documentation differ

- The repository's README (line 260) says that currencies must agree. The quarantine of duplicates and the report
  of unsettled gateway funds link invoices without looking at their currency, and a settlement match compares
  invoices with the gateway's transaction currency, not the payout's. The model follows the code:
  `Currency.CurrenciesAgreeExactly` says of every reported outcome exactly when it keeps to one currency, and
  `Crossings` gives three inputs, one for each of these rules, whose whole report does not.
- `entry.invoice_reference in {...}` (`engine.py` lines 127 and 174) compares an absent reference with an absent
  payment reference, and Python's `None` equals `None`: a gateway entry without an invoice reference links every
  invoice without a payment reference. `Evidence.AbsentReferenceNames` says exactly so.

## What the code does not keep

- Token limits for hosted inference hold only as far as finalised usage fits; `AiUsage.FinalizeExactly` is the exact
  condition and `AiUsage.TokensCanOverrun` a run that breaks the limit.
- A failed job may leave its run RUNNING when a stale lease is recovered, and then it cannot be retried:
  `StrandedRuns.RetryExactly` is the exact condition, `StrandedRuns.RunsGetStranded` a run that ends so and
  `StrandedRuns.StrandedForever` says that nothing takes it out of there.
- The cleanup of abandoned uploads reads which objects are recorded and deletes the others later, one by one. An
  upload finalised in between loses its object: `Storage.SweepExactly` is the exact condition under which a record
  keeps its object, `Storage.SweepsCanBeLate` a history in which one does not.

## Model

| member | source | states |
|---|---|---|
| Engine.Reconcile | backend/src/reconcileflow/reconciliation/engine.py:61-186 | The whole run, loop by loop, answers the report the agenda defines, or the first kind with a repeated id |
| Engine.CollectTwinGroups | backend/src/reconcileflow/reconciliation/engine.py:80-83 | The fingerprint dictionary holds, in order of first appearance, the entries of each fingerprint in input order |
| Engine.CollectSettlements | backend/src/reconcileflow/reconciliation/engine.py:115-119 | The settlement dictionary in key order holds each settlement's entries in input order |
| Engine.QuarantineDuplicates | backend/src/reconcileflow/reconciliation/engine.py:79-101 | Pass 1 settles the quarantine tasks, by smallest first id of the group |
| Engine.MatchExact | backend/src/reconcileflow/reconciliation/engine.py:103-112 | Pass 2 settles one exact task per invoice |
| Engine.MatchPayouts | backend/src/reconcileflow/reconciliation/engine.py:114-132 | Pass 3 settles one payout task per settlement |
| Engine.MatchWithinTolerance | backend/src/reconcileflow/reconciliation/engine.py:134-144 | Pass 4 settles one tolerance task per invoice |
| Engine.MatchManyInvoices | backend/src/reconcileflow/reconciliation/engine.py:146-155 | Pass 5 settles one task per bank entry |
| Engine.MatchManyBanks | backend/src/reconcileflow/reconciliation/engine.py:157-166 | Pass 6 settles one task per invoice |
| Engine.ReportAwaiting | backend/src/reconcileflow/reconciliation/engine.py:168-177 | Pass 7 settles one task per settlement with entries left |
| Engine.ReportLeftovers | backend/src/reconcileflow/reconciliation/engine.py:179-185 | Pass 8 settles one task per bank entry, then one per invoice |
| Engine.AgendaByPasses | backend/src/reconcileflow/reconciliation/engine.py:79-185 | Running the passes one after the other on the ledger is settling the agenda |
| RecordReport.ReportOnRecords | backend/src/reconcileflow/reconciliation/engine.py:61-186 | A list of results is the report if and only if it is numbered from 1 and there is a list of all turns, in order, at which the records and what the outcomes before mention call for just these outcomes |
| RecordReport.AgendaIsInOrder | backend/src/reconcileflow/reconciliation/engine.py:67-181 | The engine takes every turn once: by pass, and within a pass by date and id, by settlement id, or by the id of the first duplicate; no other list of turns does |
| RecordReport.RefusedExactly | backend/src/reconcileflow/reconciliation/engine.py:203-210 | An input is refused if and only if an id occurs twice within its kind, with the first such kind of bank, invoice, gateway |
| RuleBook.SupportsIsCallsFor | backend/src/reconcileflow/reconciliation/engine.py:84-185 | Rule by rule, what the engine accepts as evidence is what the records call for: the one entry, or the smallest sole selection, among all unconsumed records that meet the conditions spelled out |
| RuleBook.BankTestsAreExact | backend/src/reconcileflow/reconciliation/engine.py:106-160 | The exact, tolerance and partial-payment tests on a bank entry hold if and only if it is a booked credit in the invoice's currency that mentions it within the date window, with equal amount, with a nonzero difference up to and including the tolerance, or with any amount |
| RuleBook.PayoutTestIsExact | backend/src/reconcileflow/reconciliation/engine.py:123-123 | The payout test holds if and only if the entry is a booked credit of the net total and some entry of the settlement carries its bank reference within the date window |
| RuleBook.InvoiceTestsAreExact | backend/src/reconcileflow/reconciliation/engine.py:87-174 | The four invoice tests hold if and only if some duplicate mentions it, the bank entry may pay it, some entry names it and it has the settlement's currency and gross total, or some entry names it |
| Chronology.SortedIsChronological | backend/src/reconcileflow/reconciliation/engine.py:67-69 | The sorted lists hold the same records, strictly ascending by date and then id |
| Ordering.StringLeIsByFirstDifference | backend/src/reconcileflow/reconciliation/engine.py:67-69 | Ids compare as Python strings do: a prefix first, else by the first differing character |
| TextMatching.MentionsExactly | backend/src/reconcileflow/reconciliation/engine.py:27-42 | An invoice is mentioned if and only if a nonempty text of the entry contains its id, its number or its nonempty payment reference, up to case |
| TextMatching.EngineFindsQuotes | backend/src/reconcileflow/reconciliation/engine.py:27-42 | The engine's text matching finds numbers quoted word for word, which is what the crossings need |
| Combinations.FindCombination | backend/src/reconcileflow/reconciliation/engine.py:188-200 | The answer is the only selection of its size that hits the target, of at least 2 and at most as many as there are or the maximum allows, and no smaller size has exactly one; it is empty only if no such size has exactly one |
| Combinations.SelectionsAreSound | backend/src/reconcileflow/reconciliation/engine.py:190-190 | The enumerator yields only increasing selections of the asked size |
| Combinations.SelectionsAreComplete | backend/src/reconcileflow/reconciliation/engine.py:190-190 | It yields every such selection |
| Combinations.SelectionsAreDistinct | backend/src/reconcileflow/reconciliation/engine.py:190-190 | It yields none of them twice |
| Combinations.SolutionsAreExact | backend/src/reconcileflow/reconciliation/engine.py:190-190 | The list of matches holds exactly the selections that sum to the target, each once |
| Combinations.OneMatchIsSoleSolution | backend/src/reconcileflow/reconciliation/engine.py:191-192 | One match in the list if and only if exactly one selection of that size solves the sum |
| Partition.PartitionTheorem | backend/src/reconcileflow/reconciliation/engine.py:70-186 | With unique ids every bank, invoice and gateway id occurs in the outcomes exactly once and no other id occurs |
| Partition.OutcomeCount | backend/src/reconcileflow/reconciliation/engine.py:76-186 | There are at most as many outcomes as input records |
| Partition.DecisionIsFresh | backend/src/reconcileflow/reconciliation/engine.py:85-185 | Whatever a turn reports mentions known, unconsumed ids, each once, and at least one |
| Partition.SettleKeepsAccounted | backend/src/reconcileflow/reconciliation/engine.py:72-77 | Along all passes the used sets are exactly the ids the results mention, none twice |
| Partition.EverythingIsUsed | backend/src/reconcileflow/reconciliation/engine.py:168-185 | After the last pass every input id is consumed |
| Conservation.ConservationTheorem | backend/src/reconcileflow/reconciliation/engine.py:79-186 | The non-null actual amounts sum to the bank amounts, once per distinct duplicate fingerprint |
| Conservation.FirstPassQuarantines | backend/src/reconcileflow/reconciliation/engine.py:79-101 | After pass 1 every entry that shares its fingerprint with another is consumed |
| OrderIndependence.OrderIndependenceTheorem | backend/src/reconcileflow/reconciliation/engine.py:67-119 | Permuting any of the three input lists leaves the report, numbers and errors included, identical |
| OrderIndependence.ValidationIsExact | backend/src/reconcileflow/reconciliation/engine.py:203-210 | Validation refuses exactly the inputs in which an id repeats within its kind, and names the first such kind |
| Frame.FrameTheorem | backend/src/reconcileflow/reconciliation/engine.py:42-186 | Adding one ineligible bank entry with a fresh fingerprint inserts its own unmatched outcome and leaves all others, in order, as they were |
| Evidence.DecisionIsExact | backend/src/reconcileflow/reconciliation/engine.py:84-185 | A turn reports an outcome if and only if the rule's evidence supports it: the one unconsumed candidate, or the one selection |
| Evidence.EveryOutcomeIsSupported | backend/src/reconcileflow/reconciliation/engine.py:84-185 | Each outcome is reported at the turn of a task of the agenda and supported by its rule's evidence, judged against what exactly the outcomes before it consumed |
| Evidence.ReportIsDetermined | backend/src/reconcileflow/reconciliation/engine.py:76-185 | A list of outcomes is the report if and only if every task of the agenda, in order, reports in it what its evidence supports given the outcomes before, and nothing else is in it |
| Justification.EveryOutcomeIsJustified | backend/src/reconcileflow/reconciliation/engine.py:85-185 | Rule by rule: eligible entries, equal currency, mention within the date window, whole duplicate groups and whole settlements, and the amount equation between the named records and the reported amounts |
| Justification.SupportedIsJustified | backend/src/reconcileflow/reconciliation/engine.py:85-185 | What a turn may report meets the conditions of its rule on the records themselves, given a ledger that has split no settlement |
| Settlements.OutcomeTakesWholeSettlement | backend/src/reconcileflow/reconciliation/engine.py:114-177 | An outcome that mentions gateway entries mentions those of one settlement, all of them |
| Settlements.NoSettlementIsSplit | backend/src/reconcileflow/reconciliation/engine.py:114-177 | Any two entries of one settlement end in the same outcome |
| Evidence.NothingIsOverlooked | backend/src/reconcileflow/reconciliation/engine.py:84-185 | When task j of the agenda has its turn, after exactly the tasks before it, it reports the next outcome, which is supported, or nothing was supported in that very ledger |
| Evidence.SettlementBalances | backend/src/reconcileflow/models/gateway.py:87-96 | A settlement match covers its whole settlement and pays gross less fees, taxes, refunds and chargebacks plus adjustments |
| Evidence.AbsentReferenceNames | backend/src/reconcileflow/reconciliation/engine.py:174-174 | An entry without an invoice reference links exactly the invoices without a payment reference; one with a reference links by id, number or payment reference |
| Priority.OutcomesFollowPriority | backend/src/reconcileflow/reconciliation/engine.py:79-186 | Outcomes are listed by the priority of their rules |
| Priority.HigherRulesWereTried | backend/src/reconcileflow/reconciliation/engine.py:103-185 | A record reported by one rule had, before that report, the turn of every task about it of a rule of higher priority: unconsumed at that turn, in the ledger of exactly that turn, and without unambiguous evidence |
| Priority.UnmatchedInvoiceWasTried | backend/src/reconcileflow/reconciliation/engine.py:103-185 | An invoice reported as unmatched had its turns in passes 2, 4 and 6, in this order, each time unconsumed and each time in vain |
| Priority.UnmatchedBankWasTried | backend/src/reconcileflow/reconciliation/engine.py:146-181 | A bank entry reported as unmatched had its turn in pass 5, unconsumed and in vain |
| Priority.AwaitedEntryWasTried | backend/src/reconcileflow/reconciliation/engine.py:114-177 | A gateway entry reported as awaiting settlement had its turn in pass 3 with its whole settlement, unconsumed and in vain |
| Currency.CurrenciesAgreeExactly | README.md:260-260 | In every report: bank entries have the outcome's currency, and the invoices have it if and only if, at the turn of the task that reports it, the unconsumed invoices it links are in that currency (for a payout: nothing is linked or the transaction currency is the payout's); six of the nine rules always do |
| Currency.LinksAgreeExactly | backend/src/reconcileflow/reconciliation/engine.py:84-185 | The same for a single turn, for any ledger that has split no settlement |
| Crossings.DuplicatesCross | backend/src/reconcileflow/reconciliation/engine.py:87-98 | The whole report on two duplicates in USD that quote an invoice in EUR is one quarantine that takes the invoice along |
| Crossings.PayoutCrosses | backend/src/reconcileflow/reconciliation/engine.py:124-132 | The whole report on a charge in USD paid out in EUR is one match that settles an invoice in USD by EUR |
| Crossings.AwaitingCrosses | backend/src/reconcileflow/reconciliation/engine.py:168-177 | The whole report on a charge in EUR not yet paid out is one outcome in EUR that takes an invoice in USD along |
| JobStore.JobRepository.Create | backend/src/reconcileflow/persistence/repositories.py:412-455 | One queued job per run of the organization, with its first event, or the source's errors in its order |
| JobStore.JobRepository.ClaimNext | backend/src/reconcileflow/persistence/repositories.py:638-718 | Refuses an ageing period below its minimum; takes the claimable job that goes before every other, or none if there is none; starts its lease, attempt and deadline, and leaves every other job alone |
| JobStore.JobRepository.RetryFailed | backend/src/reconcileflow/persistence/repositories.py:720-783 | Requeues a failed job and reopens its failed run, below the manual retry limit and without results |
| JobStore.JobRepository.Heartbeat | backend/src/reconcileflow/persistence/repositories.py:785-801 | Renews the lease of its owner only |
| JobStore.JobRepository.RecoverStale | backend/src/reconcileflow/persistence/repositories.py:803-850 | Recovers every stale job once, touches no other, and counts them |
| JobStore.JobRepository.UpdateProgress | backend/src/reconcileflow/persistence/repositories.py:852-883 | Progress of an active job, logged, with the errors in the source's order |
| JobStore.JobRepository.RequestCancellation | backend/src/reconcileflow/persistence/repositories.py:885-919 | Cancels a queued job at once and asks a running one |
| JobStore.JobRepository.Complete | backend/src/reconcileflow/persistence/repositories.py:921-982 | The allowed endings of an active job, whoever asks, with automatic retry while attempts are left |
| JobStore.JobRepository.AppendEvent | backend/src/reconcileflow/persistence/repositories.py:984-1008 | Appends one event numbered one past the largest |
| JobStore.JobRepository.TransitionRun | backend/src/reconcileflow/persistence/repositories.py:381-403 | Within the organization: the run's transition table, its start and finish stamps and what a transition clears or records |
| Jobs.FirstIsUnique | backend/src/reconcileflow/persistence/repositories.py:681-686 | The claim order has no ties |
| Jobs.FirstExists | backend/src/reconcileflow/persistence/repositories.py:681-686 | Whenever a job is claimable one of them comes first in the claim order |
| ClaimOrder.NextComesFirst | backend/src/reconcileflow/persistence/repositories.py:651-694 | `claim_next` takes the job that goes first of all claimable ones, told by status, schedule, retry time, attempts, priority and waiting time, and none if and only if there is none |
| ClaimOrder.ClaimOrderIsExact | backend/src/reconcileflow/persistence/repositories.py:651-686 | Within a priority the longest waiting goes first; a higher priority goes first until the lower job waits longer and has drawn level |
| ClaimOrder.FreshStaysBehind | backend/src/reconcileflow/persistence/repositories.py:657-673 | A job that has not waited one ageing period never goes before one submitted with a higher priority |
| ClaimOrder.OvertakesExactly | backend/src/reconcileflow/persistence/repositories.py:657-673 | Of two jobs the longer waiting one overtakes a higher priority if and only if: NORMAL after one ageing period; LOW after two, or NORMAL ahead of it after one while that one has not waited one itself |
| Worker.BackgroundWorker.Poll | backend/src/reconcileflow/worker/service.py:143-169 | The head transaction of `run_once` is the protocol's poll step: recover, then claim |
| Worker.BackgroundWorker.Checkpoint | backend/src/reconcileflow/worker/service.py:64-96 | A checkpoint is the protocol's: lease, progress, then cancellation before deadline |
| Worker.BackgroundWorker.Begin | backend/src/reconcileflow/worker/reconciliation.py:33-51 | The processor's first transaction is the protocol's begin step |
| Worker.BackgroundWorker.WriteResults | backend/src/reconcileflow/worker/reconciliation.py:110-124 | The result transaction is the protocol's: batch, audit trail and SUCCEEDED together, or nothing |
| Worker.BackgroundWorker.FailRun | backend/src/reconcileflow/worker/reconciliation.py:139-169 | `_fail_run` fails a running run and records the trail without its success event |
| Worker.BackgroundWorker.Finish | backend/src/reconcileflow/worker/service.py:207-278 | The four endings complete the job as the protocol's finish step does |
| Steps.PollOnRecords | backend/src/reconcileflow/worker/service.py:143-169 | Every job not heard of since the stale timeout is cancelled, queued again or failed, the others stay; then the job that comes first is claimed and remembered, if there is one |
| Steps.BeginOnRecords | backend/src/reconcileflow/worker/reconciliation.py:33-46 | A PENDING run is started, a RUNNING one continued, a SUCCEEDED one left, a FAILED or missing one raises |
| Steps.CheckpointOnRecords | backend/src/reconcileflow/worker/service.py:64-96 | The processor goes on if and only if its worker still holds the job, no cancellation is requested and the deadline is not reached; the lease is renewed and progress reported whenever the job is held |
| Steps.WriteOnRecords | backend/src/reconcileflow/worker/reconciliation.py:110-124 | Batch and trail are stored and the run succeeds if and only if the run is there and RUNNING; otherwise nothing is written |
| Steps.MarkOnRecords | backend/src/reconcileflow/worker/reconciliation.py:139-169 | The run fails with the processor's error and its trail if and only if it is there and RUNNING |
| Steps.FinishOnRecords | backend/src/reconcileflow/worker/service.py:207-278 | The job's new record for each status and each way the processor came back, retry time and failure code included |
| Steps.BreakOnRecords | backend/src/reconcileflow/worker/reconciliation.py:125-137 | Where an exception leads: to the end of the job, or first to marking the run failed if it was the last attempt |
| Steps.PurgeOnRecords | backend/src/reconcileflow/persistence/repositories.py:529-562 | Retention removes only SUCCEEDED, FAILED and CANCELLED jobs and changes nothing else |
| Steps.ExecuteOnRecords | backend/src/reconcileflow/persistence/repositories.py:412-455 | A job comes into being if and only if its run is PENDING, of the organization and without a job, the schedule is not past and attempts and timeout reach their minimum |
| ExactlyOnce.ExactlyOnceTheorem | backend/src/reconcileflow/worker/reconciliation.py:33-169 | In every reachable world each run's results were written at most once; the batch and the one RUN_SUCCEEDED event exist if and only if the run is SUCCEEDED; a run is stamped started unless PENDING and finished if and only if it is over; a SUCCEEDED job has a SUCCEEDED run |
| RunHistory.ResultsAreThoseWritten | backend/src/reconcileflow/worker/reconciliation.py:110-124 | Over every history a run is SUCCEEDED if and only if some action wrote its results; there is one such action, the run holds exactly its batch, and its audit trail ends with that process's trail, all six stages in order |
| RunHistory.RunChangesExactly | backend/src/reconcileflow/persistence/repositories.py:381-403 | An action changes the record of a reachable run only by starting it, writing its results, marking it failed or reopening it, and to exactly the record told |
| ExactlyOnce.SuccessIsForever | backend/src/reconcileflow/persistence/repositories.py:332-338 | A SUCCEEDED run, its results and its audit trail never change again |
| ExactlyOnce.ResultGuardIsImplied | backend/src/reconcileflow/persistence/repositories.py:735-740 | The look at persisted results in `retry_failed` never decides anything beyond the run-status check |
| StrandedRuns.RetryExactly | backend/src/reconcileflow/persistence/repositories.py:720-766 | In a reachable world a manual retry is granted if and only if the job is visible, has failed below the limit, and its run has failed too |
| StrandedRuns.StrandedForever | backend/src/reconcileflow/persistence/repositories.py:803-850 | A run left RUNNING whose jobs are over and which no process is at stays so, without results, along every continuation |
| StrandedRuns.RunsGetStranded | backend/src/reconcileflow/persistence/repositories.py:828-840 | A crash and a recovery after the last attempt leave a run so, and no retry of its job is granted |
| ExactlyOnce.PerformKeepsInv | backend/src/reconcileflow/worker/service.py:143-188 | Every step of the protocol, by a late worker or not, keeps the invariant and takes nothing back |
| ExactlyOnce.ReachableJobIsOk | backend/src/reconcileflow/persistence/repositories.py:582-1008 | Of every reachable job: lease fields set iff active, deadline the timeout after the start, completion stamp iff terminal, a queued job has attempts left, attempts bounded per manual retry, events numbered 1..n and replaying to status and counters, the CANCELLED-without-completion retention branch dead |
| JobHistory.CompleteKeepsOk | backend/src/reconcileflow/persistence/repositories.py:921-982 | Completing keeps timestamps, counters and the replay of the log |
| JobHistory.CancelKeepsOk | backend/src/reconcileflow/persistence/repositories.py:897-919 | So does cancelling, with one event or two |
| JobHistory.RecoverKeepsOk | backend/src/reconcileflow/persistence/repositories.py:818-848 | So does recovering |
| JobHistory.RequeueKeepsOk | backend/src/reconcileflow/persistence/repositories.py:750-782 | So does a manual retry, which starts a new attempt cycle |
| JobHistory.AttemptsAreBounded | backend/src/reconcileflow/persistence/repositories.py:695-717 | Lifetime attempts are at most the maximum times one more than the manual retries |
| Progress.MovesAreBounded | backend/src/reconcileflow/persistence/repositories.py:687-982 | From any reachable world a job changes status or is claimed at most a number of times fixed by its attempt and retry limits |
| Progress.PerformUsesUp | backend/src/reconcileflow/persistence/repositories.py:687-982 | No step raises a job's remaining measure and each status change lowers it |
| Progress.NobodyOvertakes | backend/src/reconcileflow/persistence/repositories.py:651-718 | While a job has waited twice the ageing period no step puts another job ahead of it |
| Progress.NextIsAhead | backend/src/reconcileflow/persistence/repositories.py:681-694 | Once a job has waited that long, the queue hands out it or a job with a smaller (eligible_since, created_at, id) |
| Progress.ClaimTakesFromTheFront | backend/src/reconcileflow/persistence/repositories.py:681-694 | A claim that could have taken it and did not takes one ahead of it, which is then no longer ahead |
| Progress.NoStarvation | backend/src/reconcileflow/persistence/repositories.py:651-718 | As long as such a job stays queued, the claims that could have taken it number at most the jobs ahead of it at that moment |
| Retention.RetentionCleanup.DeleteExpiredTerminal | backend/src/reconcileflow/persistence/repositories.py:529-562 | Deletes the oldest expired jobs up to the limit and counts them; refuses a limit below one |
| Retention.RetentionCleanup.DeleteJobs | backend/src/reconcileflow/maintenance/cleanup.py:76-86 | Terminates and deletes exactly the expired terminal jobs, for any batch size |
| Retention.RetentionCleanup.DeleteExpiredWorkers | backend/src/reconcileflow/persistence/repositories.py:1141-1159 | Deletes the expired workers with the oldest heartbeats up to the limit and counts them; refuses a limit below one |
| Retention.RetentionCleanup.DeleteWorkers | backend/src/reconcileflow/maintenance/cleanup.py:88-98 | Terminates and deletes exactly the expired workers, for any batch size |
| Retention.RetentionCleanup.Run | backend/src/reconcileflow/maintenance/cleanup.py:55-74 | Deletes as many jobs and as many workers as it first measured, exactly the expired ones, or none in a dry run |
| Retention.CleanupOfReachable | backend/src/reconcileflow/persistence/repositories.py:565-595 | On a reachable database the cleanup is one purge step of the protocol and removes exactly the terminal jobs whose completion stamp reached their status's cutoff |
| AiUsage.RequestQuotaTheorem | backend/src/reconcileflow/ai/usage.py:53-78 | Unreleased reservations created in any UTC day or month never exceed the largest request limit in force, late finalisation included |
| AiUsage.TokenQuotaTheorem | backend/src/reconcileflow/ai/usage.py:53-86 | Token totals stay within the limits if each finalised usage is at most its reservation |
| AiUsage.FinalizeExactly | backend/src/reconcileflow/persistence/repositories.py:1507-1519 | Finalising keeps a token limit if and only if the usage fits the reservation plus what the window has left |
| AiUsage.ReserveExactly | backend/src/reconcileflow/ai/usage.py:53-78 | Capacity is granted if and only if metering and policy are on, the run is known, and day and month have room for one more request and its tokens beside what was used or is still held; expired reservations take no room and are released |
| AiUsage.TokensCanOverrun | backend/src/reconcileflow/ai/usage.py:80-86 | A run in which finalised usage breaks the limit |
| Calendar.UtcDaysAreWindows | backend/src/reconcileflow/ai/usage.py:104-104 | UTC days are windows: a start is no later than its instants, later instants have no earlier start |
| Calendar.DayStartsAreExact | backend/src/reconcileflow/ai/usage.py:104-104 | A day starts at the last multiple of its length not after the instant |
| Calendar.UtcMonthsAreWindows | backend/src/reconcileflow/ai/usage.py:105-105 | So are UTC months of the Gregorian calendar |
| Calendar.MonthStartsAreExact | backend/src/reconcileflow/ai/usage.py:105-105 | Two instants have the same month start if and only if they lie in the same month |
| UsageStore.UsageLedger.Summarize | backend/src/reconcileflow/persistence/repositories.py:1541-1556 | Count and token sum of the selected reservations |
| UsageStore.UsageLedger.ReleaseExpired | backend/src/reconcileflow/persistence/repositories.py:1529-1539 | Releases exactly the expired reservations and counts them |
| UsageStore.UsageLedger.Reserve | backend/src/reconcileflow/ai/usage.py:53-78 | Grants exactly when all four limits leave room; a refusal changes nothing |
| UsageStore.UsageLedger.Finalize | backend/src/reconcileflow/persistence/repositories.py:1507-1519 | Finalises an active reservation, whatever the usage |
| UsageStore.UsageLedger.Release | backend/src/reconcileflow/persistence/repositories.py:1521-1527 | Releases an active reservation and leaves any other as it is |
| Storage.StorageLedgerTheorem | backend/src/reconcileflow/persistence/repositories.py:94-110 | After any history, cleanups and repairs included, the counter is the sum of the recorded sizes, within the quota, no two records share an object, and each has its object as long as no cleanup deleted one that got its record after the cleanup looked |
| Storage.SweepExactly | backend/src/reconcileflow/maintenance/orphan_cleanup.py:38-63 | From a reachable store in which every record has its object, an action keeps that so if and only if it is not such a late deletion |
| Storage.PlannedWasUnrecorded | backend/src/reconcileflow/maintenance/orphan_cleanup.py:45-61 | Over every history a cleanup deletes only objects that had no record when it looked |
| Storage.SweepsCanBeLate | backend/src/reconcileflow/maintenance/orphan_cleanup.py:51-63 | A history in which it happens |
| Storage.RepairChangesNothing | backend/src/reconcileflow/maintenance/storage_integrity.py:66-70 | Repairing the counter from the records never changes it |
| Storage.DeleteIsNeverBlocked | backend/src/reconcileflow/api/routes/files.py:149-181 | The clamp at zero is unreachable and the quota never blocks a delete |
| Storage.UploadExactly | backend/src/reconcileflow/api/routes/files.py:98-107 | An accepted upload goes through if and only if the recorded sizes leave room; refused, it leaves nothing behind |
| Storage.UploadOnRecords | backend/src/reconcileflow/api/routes/files.py:72-116 | An upload gets a record, an object and its charge if and only if the run is open, the storage accepts it, no file of the type is there and the quota has room; otherwise nothing changes |
| Storage.FinalizeOnRecords | backend/src/reconcileflow/api/routes/files.py:283-348 | A new key gets a record if and only if its object is of the stated size, within the maximum and verified, and the run admits it; a refused object is removed |
| Storage.DeleteOnRecords | backend/src/reconcileflow/api/routes/files.py:149-181 | A file goes with its object and its charge unless it is in use, foreign or out of reach |
| Storage.FinalizeChargesOnce | backend/src/reconcileflow/api/routes/files.py:289-295 | Finalising an upload again answers the existing file and charges nothing |
| StorageService.Service.ApplyDelta | backend/src/reconcileflow/persistence/repositories.py:101-110 | The counter update with its clamp and its refusal |
| StorageService.Service.UpdateQuota | backend/src/reconcileflow/persistence/repositories.py:94-99 | A quota below current usage is refused |
| StorageService.Service.Upload | backend/src/reconcileflow/api/routes/files.py:72-116 | Upload in the source's order of checks; a refused upload removes its object |
| StorageService.Service.Delete | backend/src/reconcileflow/api/routes/files.py:149-181 | Delete of a file of a pending run in the source's order of checks, namespace included; object first, then record and counter |
| StorageService.Service.FinalizeUpload | backend/src/reconcileflow/api/routes/files.py:274-348 | Finalisation in the source's order of checks; a key already on record changes nothing, a refused object that is not yet a file is removed |
| RefreshTokens.FamiliesAreChains | backend/src/reconcileflow/persistence/repositories.py:279-298 | After any history each family is one chain of replacements and at most its last token is live |
| RefreshTokens.ReuseEndsTheFamily | backend/src/reconcileflow/api/routes/auth.py:239-241 | Presenting a revoked token is answered as reuse, and its family never has a live token again |
| RefreshTokens.RevokeAllEndsSessions | backend/src/reconcileflow/api/routes/auth.py:348-389 | A password change or ending all sessions ends every family the user has, for good |
| RefreshTokens.RotatesAtMostOnce | backend/src/reconcileflow/api/routes/auth.py:235-257 | A token is rotated if and only if it is known, live, unexpired and its user active, and is replaced once, for good |
| RefreshTokens.RefreshOnRecords | backend/src/reconcileflow/api/routes/auth.py:235-257 | Verdict and table for every case: unknown, used before, expired, inactive user, rotated |
| TokenStore.TokenRepository.Rotate | backend/src/reconcileflow/persistence/repositories.py:279-298 | Creates the replacement in the same family and revokes and links the current token |
| TokenStore.TokenRepository.RevokeFamily | backend/src/reconcileflow/persistence/repositories.py:305-316 | Revokes exactly the live tokens of the family and counts them |
| TokenStore.TokenRepository.RevokeAllForUser | backend/src/reconcileflow/persistence/repositories.py:318-329 | Revokes exactly the live tokens of the user and counts them |
| TokenStore.TokenRepository.Refresh | backend/src/reconcileflow/api/routes/auth.py:219-257 | The refresh handler's token step with all its refusals |
| TokenStore.TokenRepository.Logout | backend/src/reconcileflow/api/routes/auth.py:285-302 | Logout revokes the presented token of its owner |
| Candidates.Generate | backend/src/reconcileflow/ai/candidates.py:76-125 | The loop over pairs, deduplication, sort and truncation answer `Best` |
| Candidates.CandidatesAreAdmissiblePairs | backend/src/reconcileflow/ai/candidates.py:80-118 | Before truncation: the candidates describe the pairs of records in scope from different sources, close in time and amount, each identity once and by its first pair, none left out; ids, similarities, currency flag and reference as computed from the two records |
| Candidates.SimilarityMeasures | backend/src/reconcileflow/ai/candidates.py:139-148 | The reference similarity is the best ratio over all pairs of normalised references, or zero if either side has none |
| Candidates.BestAreTop | backend/src/reconcileflow/ai/candidates.py:119-125 | The answer is as many as allowed, by descending amount, date and reference similarity and then reference, and nothing left out would be listed before anything returned |
| Candidates.PairsAre | backend/src/reconcileflow/ai/candidates.py:88-88 | Every two records in scope are looked at, in their order, and nothing else |
| Candidates.AmountRatioIsExact | backend/src/reconcileflow/ai/candidates.py:128-132 | The ratio test holds if and only if the difference is within that share of the larger amount, or the share is the whole |

## Left out

- Decimal rounding: amounts are integers in minor units and dates are day numbers.
- Case folding: `casefold` is an arbitrary function in `TextMatching`; every other theorem about the engine holds for any text matching.
- Result presentation: `RESULT-0001` is the number 1; status and `requires_review`, which the rule determines, and the explanation texts are not kept.
- Python's `sorted` is stood for by a stable insertion sort; `sorted(settlement_groups.items())` compares keys only, as settlement ids are distinct keys.
- Parsing, ingestion, exports and the rest of the record fields.
- Isolation and locking: each unit of work is one atomic step; `skip_locked` (a second worker passing over a locked row) is not modelled.
- Clocks: one clock that does not run backwards serves all processes; a transaction happens at one instant of it.
- Ids, tokens, hashes and storage keys are fresh numbers; worker names, status and failure messages are not kept. The worker table is there for the cleanup only; the heartbeats that maintain it are no part of the job protocol.
- Upper limits of the execute route (schedule within 365 days, maximum timeout) and its check for source files: without them the model allows more runs than the source.
- Job events are a field of their job, so deleting a job deletes its events by construction.
- Claims the source does not support are not stated: a cancellation request may be lost to a retry, `complete` does not ask who owns the lease, a cancelled job may belong to a SUCCEEDED run.
- Storage cleanup and verifier: batch limits, object ages and reported counts; a pass may look at any objects, and each deletion is a step of its own. The integrity verifier's deletions are the cleanup's.
- Retention with concurrent writers: the cleanup methods are proved for an undisturbed table; each batch by itself is a purge step of the protocol.
- Where a missing completion stamp sorts in the cleanup's order: the model puts it first; no reachable expired job lacks one (`Retention.CleanupOfReachable`).
- Other organizations: usage and storage are modelled for one organization, as every query in the source is restricted to one.
- Presigned upload URLs are represented by a client putting objects at any time, even over existing ones; their own quota check is advisory and left out.
- Login checks, lockout, password hashing, JWT decoding and audit events of the auth routes; an undecodable token is one that is not on record.
- `SequenceMatcher` on two references, their normalisation, rounding, float conversion and the hash of candidate references are arbitrary functions of the generator; its constructor's upper limits are not modelled.
- JobStore.JobRepository.ClaimNext: workers are numbers, so trimming the worker name and the check of its length are not modelled.
- StorageService.Service.Delete: storage failures midway, and legacy records without a storage key, are not modelled.
- StorageService.Service.FinalizeUpload: agreement of content type and checksum is one flag, `matches`, and the inspection of the contents one flag, `sound`.
- UsageStore.UsageLedger.Reserve: the creation stamp is a parameter that the quota theorems require to be no earlier than the time the quota was read, as the stamp is set by a transaction begun after it.
- Worker.BackgroundWorker.WriteResults: a commit whose caller sees an error is a step of the protocol only (`raises`), since the method itself returns normally.
