# Agent Machine: verification of the durable core

Agent Machine runs coding agents against an issue tracker. Several daemons share one SQLite store and
interleave their statements on the same rows: leases, worker tasks, results, heartbeats, payload refs,
attempt facts and events. On top of the store a reconciler decides what may be run or merged, a selector
picks the next issue, a merge worker carries out a destructive sequence, a handoff pipeline passes work
from stage to stage, and a cleanup worker deletes workspaces. This project models those parts in Dafny and
proves what they promise.

`dafny verify dfyconfig.toml` checks the whole project.

## How it is built

* `WorkQueue` says what each SQL statement does to the shared rows, as one atomic step. `StateStore` is the
  store as a class whose methods are proved against those statements. `QueueRuns` proves what holds along
  every run of statements: exclusive claims, claim accounting, bounded waiting, enforced backoff.
* `LaneProtocol` is a state machine of any number of lane runners in any number of daemons, with crashes,
  a clock, and every other process as an adversary that may issue any statement the program guards by
  status. Lane exclusion and sticky quarantine are invariants over every run. They rest on one assumption,
  `Timely`: whoever took a lease renews or releases it before the expiry it last wrote. `LaneWitnesses` has
  runs that show why the assumption cannot be weakened to "every body ends in time". `LaneRows` is
  about the lanes' own rows and the order in which a lease is given up, and `LaneRecovery` says when
  recovery never quarantines a live lane. `ClaimBatch` is the loop that gathers claims for one cycle
  and accounts for every lock.
* `MergeGate` and `Reconciler` are the merge gate and the reconciliation decision: a class whose fields are
  updated step by step, proved equal to a chain of early answers, and exact conditions for CanMerge and
  CanRun. `Answers` reads the decision as the answer to the first of 22 obstacles that stands, each with its
  condition and its answer. `CandidateSelection` (over `StableSort`) and `Explain` are selection and its
  predictor. `RetryBackoff` is the doubling loop on 64-bit nanoseconds, and `AttemptFacts` the tables behind
  the facts.
* `HandoffPipeline`, `MergeWorker` (with its outcomes in words in `MergeOutcomes`) and `Cleanup` are the
  workers with destructive or staged effects, under every pattern of failing calls. `EventLog` is the
  append-only log and `ShellQuote` the shell quoting against a scanner that follows sections 2.2.2 and
  2.2.3 of the POSIX.1-2017 Shell Command Language.

Where a property holds only under a condition, the condition is proved exact or a lemma gives the input
that breaks it: the claim order against time (`TextOrderExactly`), retry delays (`DelayIsIntended`), merge
verdicts that still ask for reconciliation (`MergeWithReconciliation`), handoff weights
(`ExecutionLowersTheWeight`), explain marks (`MarksExactly`), explain against the runner
(`ExplainAgreesExactly`), shared branches (`OthersChangeExactly`), stored merge events
(`CompletionIsLogged`), lane exclusion without the timing assumption (`LaneWitnesses`).

Code and documentation disagree in one place. `docs/specs/sqlite-orchestration-state.md:202` asks for
heartbeat evidence before an expired lease is taken over; `AcquireLease` does not look at heartbeats. The
model follows the code, and lane exclusion is proved without that evidence.

Times are integers in nanoseconds. Lookups, API calls, file reads, clocks and context cancellation are
parameters: the theorems hold for all their answers.

## Model

| member | source | states |
|---|---|---|
| WorkQueue.RankIsTextOrder | internal/state/store.go:596-601 | the integer rank that stands for a stored timestamp orders fractions of a second exactly as their RFC 3339 texts with trailing zeros dropped are ordered byte by byte |
| WorkQueue.TextOrderExactly | internal/state/store.go:596-601 | for any two times: the text of the earlier one sorts first if and only if the later one is at least one more in the last place that the earlier text keeps |
| WorkQueue.LastPlaceIsTheLast | internal/state/store.go:596-601 | that place is read off the length of the text |
| WorkQueue.EarlierGoesFirst | internal/state/store.go:774 | so an earlier available row is claimed before a later one, whatever priorities and keys, if and only if their times are that far apart |
| WorkQueue.TextOrderAcrossSeconds | internal/state/store.go:774 | times of different seconds always are |
| WorkQueue.TextOrderWithinASecond | internal/state/store.go:774 | instances where it is not: 0.5 s sorts before the full second, whose text has no fraction, and 0.55 s before 0.5 s |
| WorkQueue.BeforeTotal | internal/state/store.go:774 | two different rows are always ordered by the claim order, one way only |
| WorkQueue.BeforeTransitive | internal/state/store.go:774 | the claim order is transitive |
| WorkQueue.SomethingIsNext | internal/state/store.go:774-780 | claim-next finds a row exactly when some row of the role is queued and available |
| WorkQueue.NextIsUnique | internal/state/store.go:774 | at most one row is next, so one claim-next has one answer |
| WorkQueue.NextHasPriority | internal/state/store.go:774 | among rows that became available together the next one has the largest priority |
| WorkQueue.TiesGoToPriority | internal/state/store.go:774 | at equal times the larger priority goes first, then the smaller key |
| WorkQueue.ProtectedExactly | internal/state/store.go:955-986 | what protects a claim from recovery: a lease in force, or an expired one whose owner sent a heartbeat since the cutoff |
| WorkQueue.InForceExactly | internal/state/store.go:447-464 | a lease keeps others out while unreleased and strictly before its expiry |
| WorkQueue.BackoffByRole | internal/workertask/policy.go:68-83 | five minutes for implementation, two for the stages after it, one for everything else |
| WorkQueue.AvailableExactly | internal/workertask/policy.go:85-111 | at once, unless the last result is a failure in the same role, and then after its backoff |
| WorkQueue.FreshHeartbeatProtects | internal/state/store.go:955-986 | a fresh heartbeat of the owner protects an expired lease |
| QueueRuns.StepOnStatus | internal/state/store.go:738-800 | a claim takes a queued row, leaves it claimed and takes no other; a row becomes queued only by a write that queues it |
| QueueRuns.OnlyClaimedTasksComplete | internal/state/store.go:800-839 | complete, touch and quarantine change a row only while it is claimed, and change only its status and update time |
| QueueRuns.ClaimsAreSeparated | internal/state/store.go:738-800 | between two claims of one key, in any run of any processes, some statement queued it again |
| QueueRuns.ClaimAccounting | internal/state/store.go:738-839 | along every run, claims of a key plus one if it is queued now never exceed the writes that queued it |
| QueueRuns.AheadStep | internal/state/store.go:761-798 | one statement: the set of rows at or before a waiting row never grows, and shrinks with every claim-next that could serve it |
| QueueRuns.BoundedWaiting | internal/state/store.go:761-798 | a queued, available row is claimed within as many claim-nexts of its role as there are queued rows of that role at or before it, if later queuings land behind it |
| QueueRuns.AvailabilityFrozen | internal/state/store.go:692 | in any run only an upsert of the key or an operator requeue moves its availability |
| QueueRuns.BackoffEnforced | internal/workertask/policy.go:85-111 | if a failure that finished at f was on record when the key was enqueued, no claim from that enqueue happens before f + RetryBackoff(role), nor before the enqueue time |
| QueueRuns.RequeueBypassesBackoff | internal/workertask/policy.go:113-122 | the operator requeue is the way round it: a claim right after it succeeds during the backoff |
| QueueRuns.StaleDecisionHitsTheNextClaim | internal/state/store.go:928-1000 | deciding on recovery and marking are separate, and marking only asks for status claimed: a decision about one claim can quarantine the next one, which no recovery would choose |
| QueueRuns.MarkMeetsItsDecision | internal/state/store.go:901-1000 | over every run whose rewrites of the key are stamped after the cutoff: the row that is marked is the one decided on if and only if no statement in between rewrote it, and if and only if its update time is at most the cutoff; otherwise no decision with that cutoff covers the marked claim |
| StateStore.Store.AcquireLease | internal/state/store.go:424-470 | takes the lease exactly when no unreleased, unexpired row has the name (heartbeats are not consulted); otherwise nothing changes |
| StateStore.Store.RenewLease | internal/state/store.go:472-490 | extends any unreleased row of that name, whoever owns it; fails otherwise |
| StateStore.Store.ReleaseLease | internal/state/store.go:492-507 | releases any row of that name, whoever owns it |
| StateStore.Store.UpsertWorkerTask | internal/state/store.go:666-697 | overwrites every column but the creation time, whatever the status; a missing key or role or an invalid payload is an error |
| StateStore.Store.ClaimWorkerTask | internal/state/store.go:738-759 | moves the row from queued to claimed if it is available, and says whether it did |
| StateStore.Store.ClaimNextWorkerTask | internal/state/store.go:761-798 | claims the row that is first in the claim order among the queued, available rows of the role; none exactly when there is none |
| StateStore.Store.CompleteWorkerTask | internal/state/store.go:800-820 | sets the status of a claimed row; a row that is not claimed is an error and unchanged |
| StateStore.Store.TouchClaimedWorkerTask | internal/state/store.go:822-839 | moves the update time of a claimed row only |
| StateStore.Store.RequeueReconciliationNeeded | internal/state/store.go:841-892 | the only method that leaves quarantine: available at once, with one repair event, and an error without effect on every other status |
| StateStore.QuarantineOneMore | internal/state/store.go:988-1000 | marking one more claimed row extends the recovered set by that row and its result |
| StateStore.DecisionsAreIndependent | internal/state/store.go:928-952 | rows already marked in a recovery pass do not change the decision about the others |
| StateStore.RecoveryLeavesNothing | internal/state/store.go:901-953 | a second recovery at the same moment finds nothing |
| StateStore.Store.StaleKeys | internal/state/store.go:908-924 | lists, without repetition, exactly the claimed rows not updated since the cutoff |
| StateStore.Store.IsRecoverable | internal/state/store.go:955-986 | true exactly when the lease is unnamed, absent, released, or expired under an owner that is blank or has no heartbeat since the cutoff |
| StateStore.Store.MarkStaleClaimed | internal/state/store.go:901-953 | recovery is exact: precisely the recoverable claims move to reconciliation_needed, each with its result row, and nothing else changes |
| StateStore.Store.UpsertWorkerResult | internal/state/store.go:1035-1067 | one result row per key, overwritten; a missing key, role or status or an invalid payload is an error |
| StateStore.Store.WorkerResults | internal/state/store.go:1069-1108 | returns exactly the result rows of the role |
| StateStore.Store.AvailableAtAfterLatestFailure | internal/workertask/policy.go:85-111 | the scan computes the later of now and the end of the backoff of a recorded failure |
| StateStore.Store.EnqueueUnlessBlocked | implementation_worker_process.go:33-91 | a queued, claimed or quarantined row of the role blocks and is returned unchanged; otherwise a queued row with the backed-off availability is written |
| StateStore.Store.CompleteClaimed | implementation_worker_process.go:114-170 | two writes: the result row is replaced even when the row is no longer claimed, whose status then stays |
| LaneProtocol.InvStep | continuous.go:224-352 | every step of any runner, any other process and the clock keeps: each holder is backed by its lease row, one holder per lease, a key found dispatchable is still free |
| LaneProtocol.InvHolds | continuous.go:224-352 | so it holds in every state of every timely run |
| LaneProtocol.NobodyHoldsWhatIsFree | internal/state/store.go:447-464 | a lease that can be taken is held by nobody who keeps to the timing assumption |
| LaneProtocol.LaneMutualExclusion | continuous.go:224-476 | in every interleaving of any number of daemons, crashes included, at most one process is inside the body of a lane, if each holder renews or releases before its expiry |
| LaneProtocol.FoundByOne | continuous.go:113-132 | no two scheduler bodies are about to enqueue the same key |
| LaneProtocol.EnqueueIsAtomic | implementation_worker_process.go:33-91 | the check and the later unconditional write act as one step: whenever the scheduler writes, its check would still succeed |
| LaneProtocol.BlockedRowStep | internal/state/store.go:666-892 | one step: a quarantined issue row is unchanged unless the operator requeues it; a claimed row is never queued or overwritten; a queued row can only be claimed |
| LaneProtocol.BlockedRowInRun | implementation_worker_process.go:33-91 | the same in every state of every timely run |
| LaneProtocol.QuarantineIsSticky | internal/workertask/policy.go:59-66 | in every timely run a quarantined issue row stays exactly as it is until the operator requeues it |
| LaneProtocol.ClaimedTaskIsNotOverwritten | implementation_worker_process.go:42-54 | in every timely run a claimed issue row is only touched, completed or quarantined |
| LaneProtocol.LiveLaneIsNotRecoverable | continuous.go:465-476 | in every timely run recovery never chooses the row of a runner that holds its lease, nor any row that names that lease, whatever the heartbeats say |
| LaneProtocol.RunnerRowNamesItsLease | continuous.go:224-274 | in every timely run the row of a lane or process key names the lease of that key |
| LaneRows.CheckStopsTheCycle | continuous.go:233-240 | a cycle goes on from its check if and only if its row is neither claimed nor quarantined |
| LaneRows.QuarantinedLaneRowStep | continuous.go:233-268 | one step: a quarantined lane row changes if and only if the operator requeues it or a runner enqueues that checked it before |
| LaneRows.LaneQuarantineIsSticky | continuous.go:233-268 | in every timely run a quarantined lane row, with no runner past its check, stays exactly as it is until the operator requeues it |
| LaneRows.ClaimedLaneRowStep | continuous.go:233-268 | in every timely run a claimed lane row, with no runner past its check, is only touched, completed or quarantined, and nobody passes the check meanwhile |
| LaneRows.EnqueueAfterAnEarlierCheck | continuous.go:235-263 | check and enqueue are two statements: a runner that checked before the quarantine overwrites it |
| LaneRows.StagesInOrder | continuous.go:286-308 | a holder returns from its body, joins its supervision and completes its row, in this order, before it stops holding its lease |
| LaneRows.SettlingCompletes | continuous.go:330-338 | the row takes the status of the run if it is still claimed, and keeps its own otherwise |
| LaneRows.SupervisionEnds | continuous.go:286-300 | supervision ends as soon as the row is not claimed or the lease is released |
| LaneRows.RefusedClaimFails | continuous.go:274-283 | a runner whose lease is refused fails its claim |
| LaneRows.EnqueueWrites | continuous.go:252-263 | the row a cycle queues |
| LaneRows.AcquireTakesOrRefuses | continuous.go:274-283 | a claimed runner takes the lease for five minutes from its clock reading unless somebody has it in force then |
| LaneRecovery.NoLiveLaneIsQuarantined | internal/state/store.go:901-1000 | in a timely run whose stamps on the row do not move back, a mark that carries out an earlier decision on a row still not past the cutoff never hits the row of a runner that holds its lease, however many steps lie between |
| LaneRecovery.LiveLanesAreNeverMarked | internal/state/store.go:901-1000 | so if every mark on a lane row is of that kind, no step of the run marks the row of a live lane |
| LaneProtocol.SourceKeys | implementation_worker_process.go:15-20 | issue task keys belong to the scheduler; lane and process keys belong to their runners, each with its own lease name |
| LaneWitnesses.RowIsClaimedTwice | continuous.go:233-274 | two runners can both claim the row of one lane, so the row itself excludes nobody (for every lane) |
| LaneWitnesses.OverrunBreaksExclusion | internal/state/store.go:472-507 | if a body outlives its lease, two processes are inside it (for every lane) |
| LaneWitnesses.LateReleaseBreaksExclusion | internal/state/store.go:492-507 | ending every body in time is not enough: a late release frees the next owner's lease, because owners are not compared (for every lane) |
| LaneWitnesses.SourceLane | continuous.go:58-105 | every lane the daemon configures is one of these |
| LaneWitnesses.TwoSchedulers | continuous.go:58 | the scheduler lane for one: two scheduler bodies at once if the first outlives its lease |
| ClaimBatch.Batch.Run | continuous.go:150-217 | every lock that a batch takes is used exactly once: given back if a later round fails or is canceled, handed to an execution otherwise, and never more than the capacity |
| ClaimBatch.EndIsUnique | continuous.go:169-187 | gathering ends in exactly one round: the batch is full or the round grants nothing |
| ClaimBatch.EndsExactly | continuous.go:150-217 | where gathering ends, and which ends abort the batch |
| RetryBackoff.RetryBackoffDuration | candidate_selection.go:227-245 | the doubling loop on 64-bit nanoseconds, wrap-around included |
| RetryBackoff.ExactUpTo33 | candidate_selection.go:234-240 | the first 33 doublings of a second are exact |
| RetryBackoff.WrappedFrom34 | candidate_selection.go:234-240 | every later value has wrapped and stays below 2^33 s, and is zero from the 55th on |
| RetryBackoff.DelayIsIntended | candidate_selection.go:227-245 | the loop computes min(max, 2^(n-1) s) if and only if max is at most 2^33 s or n is at most 34 |
| RetryBackoff.DelayIsMonotone | candidate_selection.go:227-245 | there the delay is positive, capped and monotone in n |
| RetryBackoff.OverflowMeansNoDelay | candidate_selection.go:179-182 | beyond, the 35th retry has a negative delay, which opens the gate at once |
| AttemptFacts.AttemptStore.UpsertAttemptResult | internal/state/store.go:1536-1604 | writes the attempt row and feedback always, and the mapping, review, retry and terminal rows only if the result supplies them |
| AttemptFacts.AttemptStore.ReconciliationFacts | internal/state/store.go:1379-1412 | reads back the highest attempt with its side rows; none exactly when the issue has no attempt |
| AttemptFacts.RowIsTheLast | internal/state/store.go:1536-1604 | after any history the attempt row and feedback are those of the last result for that attempt |
| AttemptFacts.RecordInWords | internal/state/store.go:1536-1604 | what one result writes, column by column |
| AttemptFacts.RetryInWords | internal/state/store.go:1583-1595 | the retry row counts on, or starts over at the supplied count |
| AttemptFacts.UnwrittenIsEmpty | internal/state/store.go:1379-1412 | parts that were never written read back empty |
| AttemptFacts.WrittenIsRead | internal/state/store.go:1379-1412 | and those that were, as they were written |
| AttemptFacts.ReviewIsTheLastSupplied | internal/state/store.go:1571-1577 | the review row is that of the last result that supplied one |
| AttemptFacts.RetryIsTheLastSupplied | internal/state/store.go:1583-1595 | the retry row is that of the last result that supplied one, and its count is the last positive supplied count plus the retry results since |
| AttemptFacts.TerminalIsTheLastSupplied | internal/state/store.go:1596-1602 | the terminal row is that of the last result that supplied one |
| AttemptFacts.MappingIsTheLastSupplied | internal/state/store.go:1563-1569 | with its own branch and repository an attempt has one mapping, that of the last result that supplied one |
| AttemptFacts.FactsAreTheFold | internal/state/store.go:1379-1412 | over any starting tables, the facts of an issue are the fold of its history, reasons, branch and path included, whatever other issues do on other branches |
| AttemptFacts.OthersChangeExactly | internal/state/store.go:1563-1569 | a result of another issue changes the facts of an attempt with its own branch if and only if it supplies a pull-request part for that repository and branch and there was a URL to lose |
| AttemptFacts.OthersChangeNothing | internal/state/store.go:1563-1569 | a result of another issue that takes none of its mappings changes no fact, however many mappings there are |
| AttemptFacts.SharedBranchTakesTheMapping | internal/state/store.go:1563-1569 | one that takes the mapping leaves exactly the earlier facts without their URL |
| AttemptFacts.StreakOfRetries | internal/stateprojection/projection.go:95-99 | n retryable results in a row that supply no positive count add n to the count |
| AttemptFacts.GateOpensOnSchedule | candidate_selection.go:159-184 | after n such results the count is n and the gate opens exactly at the last decision plus min(max, 2^(n-1) s) |
| MergeGate.ChecksBlocked | internal/mergegate/mergegate.go:128-147 | false exactly when there is at least one check and all are green |
| MergeGate.EvaluatePullRequest | internal/mergegate/mergegate.go:38-53 | names the first obstacle among conflict, mergeability and checks; eligible exactly when there is none |
| MergeGate.Blocks | merge.go:33-45 | a non-empty reason exactly when the gate is closed |
| MergeGate.ChecksStatus | internal/mergegate/mergegate.go:88-110 | success, unavailable, pending or failed, each with its exact condition on the first check that is unknown or unfinished |
| MergeGate.GreenIsSettled | internal/mergegate/mergegate.go:88-110 | green checks are neither unknown nor unfinished, so the four answers exclude one another |
| MergeGate.ChecksByKind | internal/mergegate/mergegate.go:88-147 | check runs count by status and conclusion, status contexts by state, anything else never |
| MergeGate.OpenExactly | internal/mergegate/mergegate.go:38-53 | the gate is closed by exactly these: no checks, one that is not green, a conflict, or not being mergeable |
| Reconciler.Decision.Gather | reconciler.go:101-144 | what is known before anything is decided: record, facts, contradictions with the artifact |
| Reconciler.Decision.ApplyPR | reconciler.go:186-197 | the pull-request branch, with its two reconciliation flags |
| Reconciler.Decision.ApplyNoPR | reconciler.go:198-217 | the branch without a pull request |
| Reconciler.Reconcile | reconciler.go:92-217 | the step-by-step update of the decision computes the chain of early answers that the theorems are about |
| Reconciler.GuardsExactly | reconciler.go:145-185 | no guard applies exactly when no label, lock, lease, failed lookup, contradiction or closed state stands in the way |
| Reconciler.CanMergeExactly | reconciler.go:399-454 | CanMerge if and only if every gate holds, for every configuration, issue, pull request and evidence |
| Reconciler.CanMergeWithStore | reconciler.go:399-477 | with a store, no artifact argument and distinct state names: the gates spelled out |
| Reconciler.CanRunExactly | reconciler.go:186-454 | CanRun if and only if no guard applies and the traces of earlier attempts allow it |
| Reconciler.VerdictsAreConsistent | reconciler.go:92-217 | CanMerge excludes CanRun and blockers; quarantine excludes both; a store error forbids both |
| Reconciler.MergeWithReconciliation | reconciler.go:187-189 | a merge verdict asks for reconciliation exactly when the stored URL is non-empty and differs as text; never for URLs without surrounding white space |
| Reconciler.BlankInURLGivesBoth | reconciler.go:463-466 | a trailing blank in the stored URL gives a merge verdict that also asks for reconciliation |
| Reconciler.RepairKeepsTheGates | feedback.go:47-107 | the repair overlay neither adds nor removes a merge and only turns blocked, unquarantined verdicts into runs |
| Answers.FirstObstacleIsNamed | reconciler.go:92-217 | for every input the decision names the first of 22 obstacles that the evidence shows, in a fixed order, and none if and only if it shows none |
| Answers.AnswersFit | reconciler.go:371-485 | every obstacle always comes with its own lifecycle and next action; without one the issue is under review, in feedback, ready to merge, or ready |
| Answers.QuarantineExactly | reconciler.go:399-444 | quarantine if and only if an unguarded pull request with a known attempt status is foreign or fails only the last gate, and the operator is told which |
| Answers.FlagsExactly | reconciler.go:121-164 | reconciliation is asked for, and a store error recorded, in exactly these cases |
| Answers.ForeignExactly | reconciler.go:506-535 | what makes a pull request foreign: base, branch, author, commit authors |
| Answers.ReviewStartsExactly | reconciler.go:487-499 | when a review can start after its checks have turned green |
| Answers.SuccessExactly | reconciler.go:456-477 | what counts as the durable record of a reviewed success |
| Answers.RepairExactly | feedback.go:47-107 | the overlay repairs exactly the verdicts that only the tracker state stopped and that have findings to repair |
| StableSort.SortedIsInOrder | candidate_selection.go:301-328 | the sort puts no element after one it is less than |
| StableSort.SortedIsStable | candidate_selection.go:301-328 | tied elements keep their order |
| CandidateSelection.PrecedesIsAnOrder | candidate_selection.go:305-318 | the five-level comparison is a strict weak order, total on distinct identifiers |
| CandidateSelection.PrecedesByTheFields | candidate_selection.go:301-350 | the comparison is exactly: Ready, then safety and harness labels, then documentation and low risk, then the smaller priority with 99 for none, then the older, then the identifier |
| CandidateSelection.LevelsInWords | candidate_selection.go:301-350 | each level on its own, for issues alike above it |
| CandidateSelection.OrderedIsAStableSort | candidate_selection.go:301-344 | the ordered list is a stable sorted permutation of the tracker's list |
| CandidateSelection.RetryBackoffDecision | candidate_selection.go:159-184 | the retry gate, computed with the wrapping loop |
| CandidateSelection.RetryGateExactly | candidate_selection.go:159-184 | the gate is shut exactly for issues in needs-info or done, for another stored retry state, and during the backoff |
| CandidateSelection.NoRetryIsNotPicked | candidate_selection.go:57-60 | an issue that is not to be retried is never picked without feedback to work in |
| CandidateSelection.WaitingIsNotPicked | candidate_selection.go:57-60 | nor one whose backoff is running |
| CandidateSelection.RepairPassesTheGate | candidate_selection.go:57-60 | exactly which verdicts get past a shut gate |
| CandidateSelection.OpenCandidateIsPicked | candidate_selection.go:61-71 | past an open gate: picked if the verdict runs, or if a retryable record blocks it and its backoff has elapsed |
| CandidateSelection.ActiveTaskIsSkipped | candidate_selection.go:50-56 | a queued, claimed or quarantined task of the issue keeps it from being picked |
| CandidateSelection.ReviewResumesAreLeft | candidate_selection.go:42-49 | a review that could start is left to the review lane |
| CandidateSelection.JudgeCandidate | candidate_selection.go:42-71 | one candidate: skip, run, or a failed lookup |
| CandidateSelection.ReadyPass | candidate_selection.go:42-76 | the first pass stops at the first failed lookup or runnable Ready candidate |
| CandidateSelection.AnyPass | candidate_selection.go:77-103 | the second pass is one scan of all candidates |
| CandidateSelection.TwoPassesAreOne | candidate_selection.go:31-109 | in a sorted list what stops the first pass is what one scan finds |
| CandidateSelection.NextRunnableCandidate | candidate_selection.go:31-109 | with no failing lookup the two passes return what one scan of the sorted list returns |
| CandidateSelection.PickIsLeast | candidate_selection.go:301-344 | the pick is a runnable candidate that no runnable candidate precedes, and with distinct identifiers the unique least one |
| CandidateSelection.PickByTheFields | candidate_selection.go:31-109 | no runnable candidate goes before the pick in that order |
| CandidateSelection.ChoiceIgnoresTrackerOrder | candidate_selection.go:31-109 | with distinct identifiers the choice does not depend on the order the tracker returned |
| Explain.SelectName | explain.go:115-135 | the two passes, which repeat on an empty name, select the name of the first candidate that would run |
| Explain.ExplainCandidateSelection | explain.go:112-160 | marks exactly the entries that bear the selected name |
| Explain.ExplainAgreesExactly | explain.go:112-160 | on a candidate runner and explain agree if and only if a runnable one is not held for a review, not worked on and not behind a shut retry gate, and any other is not let through by an elapsed backoff unless it is worked on |
| Explain.AgreementPredicts | explain.go:112-160 | for every list of such candidates, with a store or without, explain names the runner's pick |
| Explain.ExplainPredicts | explain.go:112-160 | without a store and with default options they agree, for every list and pull-request map |
| Explain.MarksExactly | explain.go:153 | one mark whenever something would run, whatever that is, if and only if no two candidates share an identifier |
| Explain.NoMarkExactly | explain.go:153 | no mark when nothing would run if and only if no identifier is empty |
| Explain.RepeatedIdentifierMarksBoth | explain.go:153 | two candidates with one identifier, of which the first would run: both are marked |
| Explain.ExplainMarksThePick | explain.go:112-160 | with distinct non-empty identifiers and no store: one mark, on the runner's pick, or none |
| Explain.ActiveTaskIsNotExplained | candidate_selection.go:50-56 | an instance where they do not: an active task row makes the runner skip what explain would run |
| Explain.MergeColumnIsTheDecision | explain.go:163-191 | the extra gates of the merge column add nothing to the decision |
| HandoffPipeline.Pipeline.RecordPRHandoff | handoff_worker_process.go:65-96 | records the intent, then the ref, each of which may fail |
| HandoffPipeline.Pipeline.Mark | handoff_worker_process.go:121-134 | the deferred write retires the claimed ref as completed or failed, and reports its own failure |
| HandoffPipeline.Pipeline.MarkIntent | handoff_worker_process.go:136-151 | completes a pending intent only, and reports its own failure |
| HandoffPipeline.Pipeline.ExecutePRHandoff | handoff_worker_process.go:241-296 | one execution: which writes happened under every pattern of failures; review if configured, else handoff; the error returned includes failed marks |
| HandoffPipeline.Pipeline.ExecuteReview | review_worker_process.go:260-291 | one execution of the review stage; a terminal-pull-request error completes the ref and is returned |
| HandoffPipeline.Pipeline.ExecuteHandoff | handoff_worker_process.go:356-378 | one execution of the last stage, with the same errors |
| HandoffPipeline.WriteWeight | internal/state/store.go:1110-1206 | writing one ref changes the weight by that ref's part in it |
| HandoffPipeline.HandoffGoesToReview | handoff_worker_process.go:285-294 | a pull request handed over in full goes to the review if one is configured and to the last stage otherwise, and no ref of the other stage changes |
| HandoffPipeline.ReviewGoesToHandoff | review_worker_process.go:285-290 | a finished review goes to the last stage |
| HandoffPipeline.NothingIsPassedOn | handoff_worker_process.go:258-290 | in every other case no ref of a later stage is new or waits again |
| HandoffPipeline.HandoffIsRecordedAgain | handoff_worker_process.go:65-96 | the pull-request handoff is recorded again under the payload's issue once its intent is |
| HandoffPipeline.MarksExactly | handoff_worker_process.go:121-151 | a ref is marked failed exactly on the listed errors, a terminal pull request not among them; its intent gets the same mark unless it is final |
| HandoffPipeline.ReportsExactly | handoff_worker_process.go:247-253 | an execution reports no error exactly when nothing went wrong and every mark was written |
| HandoffPipeline.WeightAfter | handoff_worker_process.go:241-296 | the weight after any execution, as what it adds and what it retires |
| HandoffPipeline.ExecutionLowersTheWeight | handoff_worker_process.go:241-296 | an execution lowers the weight if and only if its ref was still waiting, is retired, and no other pull-request handoff is revived; one of a ref that no longer waits never lowers it |
| HandoffPipeline.ExecutionTouchesOnly | review_worker_process.go:260-291 | it creates at most its own ref again and one of a strictly later stage |
| HandoffPipeline.DrainTerminates | handoff_worker_process.go:157-181 | draining ends within as many executions as the weight at the start |
| HandoffPipeline.ForeignPayloadAddsWork | handoff_worker_process.go:254-258 | a payload that names another issue leaves more work than it found |
| HandoffPipeline.StaleClaimAddsWork | handoff_worker_process.go:191-217 | refs are listed before the lock is taken: an execution of one that no longer waits adds work if and only if it revives its handoff or passes on a ref that is not waiting |
| HandoffPipeline.FinalIntentsStay | internal/state/store.go:1208-1255 | the first final status of an intent is its last, over every run |
| HandoffPipeline.ClaimNext | handoff_worker_process.go:187-218 | takes the first ref whose workspace is not locked; one that cannot be used stops the scan with an error |
| HandoffPipeline.PassedExactly | handoff_worker_process.go:187-239 | what is passed over: a readable, complete payload whose workspace is locked |
| HandoffPipeline.BlankPayloadIsOwn | handoff_worker_process.go:220-239 | a payload that leaves its issue blank, or names the ref's, is the case draining is proved for |
| MergeWorker.Worker.Merge | merge_worker.go:95-118 | squash, delete branch and the events appended for them, with every early exit; a failed append is swallowed |
| MergeWorker.MergeIsAPrefix | merge_worker.go:95-134 | the effects of an attempted merge are a prefix of the whole sequence, and all of it exactly when no step fails |
| MergeWorker.Worker.AfterSquash | merge_worker.go:105-134 | what follows the squash, whatever fails |
| MergeWorker.Worker.Finish | merge_worker.go:119-134 | move to Done if that state exists, then remove the workspace, then completion |
| MergeWorker.Worker.HandleApproved | merge_worker.go:86-135 | an approved pull request is merged only if the decision allows it |
| MergeWorker.Worker.CaptureFeedback | merge_worker.go:47-67 | feedback is written before the issue moves back to Ready |
| MergeWorker.Worker.HandleChangesRequested | merge_worker.go:137-162 | requested changes are captured unless already addressed |
| MergeWorker.Worker.HandlePullRequest | merge_worker.go:21-84 | effects, error and stored events of one pull request, under every pattern of failing calls and appends |
| MergeWorker.Worker.MergeApprovedPRs | merge.go:112-139 | the list in order, stopping at the first error |
| MergeWorker.MergesExactly | merge_worker.go:71-91 | a merge is attempted exactly when every gate of the reconciler holds and nothing is canceled or unreadable |
| MergeOutcomes.EarlyErrors | merge_worker.go:21-53 | an error before anything is decided is recorded, unless the context was canceled |
| MergeOutcomes.OthersAreLeftAlone | merge_worker.go:31-33 | pull requests of no issue in handoff are left alone |
| MergeOutcomes.ForeignPRIsBlocked | merge_worker.go:34-38 | a foreign pull request is blocked and nothing is done to it |
| MergeOutcomes.ConflictIsCaptured | merge_worker.go:47-69 | a conflict is reported, captured as feedback, and the issue moved to Ready |
| MergeOutcomes.RequestedChangesAreCaptured | merge_worker.go:137-162 | requested changes are captured and the issue moved to Ready, unless they were addressed |
| MergeOutcomes.OtherReviewsAreAwaited | merge_worker.go:80-83 | anything but an approval or requested changes is waited for |
| MergeOutcomes.ApprovedButNotMergeable | merge_worker.go:71-93 | an approved pull request that may not be merged is blocked and nothing is done to it |
| MergeOutcomes.CompleteMerge | merge_worker.go:95-134 | a merge in which everything succeeds: all its effects and events, in order |
| MergeOutcomes.FailedMergeIsLogged | merge_worker.go:95-132 | the failure of a merge is appended with the phase it failed in, and no other |
| MergeOutcomes.StepsEndAsLogged | merge_worker.go:105-128 | how a step ended is appended as it ended |
| MergeOutcomes.RunFailsExactly | merge.go:112-139 | a run over a list reports an error exactly when handling some item fails |
| MergeWorker.NoOtherMerges | merge_worker.go:95-100 | a squash happens exactly in an attempted merge whose squash call succeeds |
| MergeWorker.RunOnEach | merge.go:112-139 | in a run over a list the effects and stored events of each pull request are those of handling it, if the run got there |
| MergeWorker.EffectsAreAPrefix | merge_worker.go:86-135 | for every list and every pattern of failures the effects on each pull request are a prefix of squash, delete branch, move to Done, remove workspace (or of the feedback capture), and a squash needs CanMerge and APPROVED |
| MergeWorker.CompletionIsLogged | merge_worker.go:95-135 | for every list and every pattern of failures, swallowed appends included: completion is logged if and only if the whole sequence and the last append went through, a squash if and only if it happened, the context did not end right after it and the second append went through, an attempt if and only if the run gets there, the gates hold and the first append went through |
| MergeWorker.LogOfOne | merge_worker.go:95-135 | the same for one pull request |
| Cleanup.DeletesExactly | cleanup.go:227-474 | delete exactly when safe, clean, backed by its own row, Done, and terminal or merged from its own branch |
| Cleanup.MergedPRExactly | cleanup.go:437-474 | the merged-pull-request path, exactly |
| Cleanup.AllowedInWords | cleanup.go:389-474 | the evidence a deletion needs, field by field |
| Cleanup.JudgedExactly | cleanup.go:227-474 | when no decision can be made, and the category that fits the evidence otherwise |
| Cleanup.CountsAgree | cleanup.go:138-186 | eligible plus kept is the sum of the category counts and the number of directories considered |
| Cleanup.EligibleMembers | cleanup.go:138-186 | a name is eligible exactly when a visible directory of that name may be deleted |
| Cleanup.EligibleExactly | cleanup.go:138-186 | eligible are exactly the visible directories that may be deleted, all of them, in order |
| Cleanup.StopsExactly | cleanup.go:148-176 | a pass ends with an error at exactly the entries that cannot be checked, decided or deleted |
| Cleanup.Worker.Execute | cleanup.go:120-192 | a dry run removes nothing; an error-free apply removes exactly the eligible directories; an error leaves a prefix of them removed |
| Cleanup.Worker.CleanupWorkspaces | cleanup.go:120-192 | with the store's decisions: it fails exactly when an entry breaks it, removes only what is allowed whatever fails, and an error-free apply removes a name if and only if an allowed workspace has it |
| Cleanup.Worker.RunQueued | internal/cleanupworker/task.go:151-221 | the queued form removes its workspace exactly when it is claimed, allowed and safe, and reports an error exactly in the listed cases, a failed claim or completion write included |
| Cleanup.QueuedExactly | internal/cleanupworker/task.go:165-221 | when the queued form deletes and when it fails, in words |
| Cleanup.OnlyAllowedAreEligible | cleanup.go:389-474 | everything eligible is Done and allowed |
| EventLog.Log.Append | internal/state/store.go:1778-1803 | rejects events without source or type, with a negative attempt or an invalid payload; an event without a time happens now; a known ID changes nothing |
| EventLog.ReverseInPlace | internal/state/store.go:1846-1848 | the in-place swaps reverse the array |
| EventLog.Log.Newest | internal/state/store.go:1837-1845 | the query returns the newest matching rows, newest first, at most the limit |
| EventLog.Log.Events | internal/state/store.go:1809-1850 | exactly the last min(limit, count) matching events in append order, ten for a limit that is not positive |
| EventLog.AppendIsIdempotent | internal/state/store.go:1789-1803 | appending an event twice leaves the log unchanged; IDs stay unique; the log only grows |
| EventLog.IssueIDIsNotDistinguished | internal/state/store.go:1894-1911 | the issue ID is not hashed: an event that differs in nothing else is dropped |
| EventLog.MatchingIsASubsequence | internal/state/store.go:1817-1836 | the filter keeps exactly the rows that match |
| EventLog.FoundExactly | internal/state/store.go:1817-1836 | an event is found if and only if it is in the log and agrees with every field the filter sets |
| EventLog.AnswersAreLimited | internal/state/store.go:1809-1816 | the answer is the end of what was found, ten unless the filter says |
| EventLog.KnownExactly | internal/state/store.go:1894-1911 | an event is known if and only if a row agrees with it in all but the issue ID |
| EventLog.QueryAfterAppend | internal/state/store.go:1809-1850 | a new matching event comes last and pushes out at most the oldest; any other append leaves the answer alone |
| ShellQuote.EscapedIsRead | internal/shell/shell.go:128-130 | inside the quotes the scanner reads the escaped value back character by character |
| ShellQuote.QuoteRoundTrip | internal/shell/shell.go:128-130 | after any prefix of ordinary characters the quoted value is read as exactly one word, prefix and value, ending unquoted, if and only if the value holds no NUL |
| ShellQuote.QuoteIsInjective | internal/shell/shell.go:128-130 | different NUL-free values are quoted differently |

## Left out

- The tracker, code-host, git, shell-execution and agent clients: their answers are parameters.
- SQL text, migrations, WAL settings and JSON encoding: each statement is an atomic step on maps. Store failures at a statement are modelled where the program continues after one (lease acquisition and release, payload refs, intents), not for every read.
- The rounding of `julianday` when times are compared in SQL: times are compared exactly.
- Timestamps outside the years 0 to 9999, whose texts have another width.
- Defaulting of zero times to the wall clock, apart from events: callers pass the time.
- Run-lock files, path-safety checks and `git status`: "locked", "busy", "safe" and "changed" are parameters.
- Author and commit ownership of a pull request: two parameters of the decision.
- Case folding is exact against the ASCII words the program compares with, not between arbitrary non-ASCII texts.
- Reason texts, comments, reports and log lines. A blocker is a constructor instead of a text, so the search for "blocked label" in the joined blockers is the test for that one blocker.
- The events that queue operations, selection and merges append beside their main effect, except the merge worker's own sequence and the repair event of a requeue.
- `ReclaimLease` and `UpsertLease`, which no modelled code calls.
- One-shot `am worker` processes that enqueue the same issue as a daemon under another lease: sticky quarantine is for `am start` runs.
- The scheduling loops around the enqueues, which call the modelled steps, and what an execution does with its claim.
- The cleanup decision from a run artifact alone, which is used only without a store, and the mirrored cleanup rows.
- The merge worker's queued tasks and their bookkeeping (merge.go:141-435), which use the modelled queue, and the failures of the client set-up and of the listing before the first pull request.
- The order of `WorkerResults`, `PendingWorkerPayloadRefs` and of the rows a recovery pass visits: the scans are proved for any order.
- Effects of a remote call that reports an error after having acted: an effect is recorded when its call succeeds.
- AttemptFacts.AttemptStore.ReconciliationFacts: an attempt with several mapping rows reads back the URL of one of them, as the query leaves open which; the cleanup columns and the output refs, which no modelled decision reads, are left out.
- EventLog.AppendIsIdempotent: takes the event hash as injective in the fields it covers.
- LaneProtocol.LaneMutualExclusion: wall-clock liveness is not proved; that a holder renews in time is the assumption `Timely`.
- LaneProtocol.LiveLaneIsNotRecoverable: it is about the decision to recover; `QueueRuns.MarkMeetsItsDecision` and `LaneRecovery.NoLiveLaneIsQuarantined` say when the separate write does what was decided; that the row was not rewritten since is a condition there, because the write does not test it. Issue tasks are left out because no modelled code takes their leases.
- StateStore.Store.UpsertWorkerTask: the defaults for zero times and the payload column are not modelled; a payload is only valid or not.
- StateStore.Store.UpsertWorkerResult: likewise, and the columns that no modelled decision reads are left out.
- StateStore.Store.WorkerResults: the order of the rows (by update time and key) is left open; its one modelled reader looks for a single key.
- StateStore.Store.AvailableAtAfterLatestFailure: a zero finish time, which falls back to the update time, is left out, because `UpsertWorkerResult` never stores one.
