# NoPager: proofs about the protocol parts

NoPager is an incident-response control plane. A worker plans at most one production operation per
incident, waits for approval where its policy asks for it, and has a small privileged helper restart one
enrolled container over a local socket. Its promises hold over whole runs with crashes, retries and
concurrency; this project models those parts in Dafny and proves the promises. Nothing was executed.

## What is modelled

* **The runtime helper** (`RuntimeProtocol`, `StateDirectory`, `HelperMachine`, `HelperSafety`,
  `HelperTheorems`, `HelperGates`, `RuntimeExecutor`). The request journal on a file system whose names and files each
  have a value seen now and a set of values a crash may leave behind; syncing shrinks that set. Every
  system call is one step, so concurrent connections, per-connection timeouts, crashes and restarts under
  another enrolment fall between any two of them. `RuntimeExecutor` holds the classes with the sequential
  code, proved equal to the machine's steps.
* **The whole restart protocol** (`Policy`, `RuntimeClient`, `OperationsDb`, `Operations`,
  `OperationsSafety`, `OperationsSteps`, `OperationsTheorems`, `OperationsHistory`, `OperationsOverwrite`,
  `OperationsDecisions`, `OverwrittenRestart`, `OperationsLaws`, `OperationsWorker`).
  Job handlers, the administrator, the other pipelines, the lossy socket and the helper above as one
  state machine whose steps are single SQL statements or messages; a statement may also take effect and
  still be reported as failed. `OperationsDb.Database` holds the transactions and
  `OperationsWorker.OperationsWorker` the handlers as the imperative code they are.
* **The job queue** (`JobQueue`): leases, attempts, idempotency keys, and the table as a class.
* **Incident status and rollback baseline** (`IncidentLifecycle`, `IncidentLaws`, `KnownGood`, `KnownGoodLaws`,
  `KnownGoodRuns`): the watch
  jobs with their keys, retries and handlers that err, in any interleaving with the rest.
* **Redaction and bounding** (`Redaction`, `TokenRedaction`, `TokenLaws`, `EmailRedaction`, `EmailLaws`,
  `ContextSanitizer`, `ContextLaws`).
* **Health debouncing**, both versions (`HealthDebounce`).

The modules called laws and gates say what each decision depends on in terms of inputs and outputs alone,
with every literal spelled out and without the definitions the code and the other theorems share.

Steps that are not enabled leave the state as it is, so every sequence of events is a run and the theorems
quantify over all of them. A helper process that receives a termination signal ends like a crash.

## Where the code does less than one might expect

* `OverwrittenRestart.IssuedThenRejected`: a planning job whose last statement took effect but was reported as
  failed is run again, finds the action it stored and marks it with its new verdict, whatever execution has
  recorded there meanwhile. So a restart that was issued can end as APPROVAL_REQUIRED, and an operator can then
  reject what had been approved and restarted. `OperationsOverwrite.IssuedRowsExactly` says exactly in which
  runs every issued restart stays recorded as one; `OverwrittenRestart.MarkedThenIssued` shows that the mark may
  also come first, while the request is under way. `OperationsDecisions.DecidedAgainExactly` says when a decided
  operation can be decided again.
* `KnownGoodRuns.FailedRepairBecomesBaseline`: the trigger of
  `crates/nopager-db/migrations/0005_external_known_good.sql` looks only for incidents without a resolution
  time, and rolling back sets that time. A repair whose durable deployment failed its watch can therefore
  become the rollback baseline at the next successful health check.
* `KnownGoodRuns.RepeatedCheckMarksFailed`: a check that passes and enqueues the next one, but reports an error,
  is run again; failing then, it leaves the next one in the queue, and the watch goes on to make its deployment
  the baseline. `KnownGood.BaselineProvenExactly` says exactly when neither of these two happens.
* `KnownGoodRuns.UnrecordedFailureIsForgotten`: a failed check whose handler errs before writing the failure is
  made again; `KnownGood.BaselineUnbrokenExactly` counts such failures too.
* `IncidentLifecycle.ApprovedYetAutonomous`: an approval that a later rejection overrules is forgotten when the
  incident is resolved; `IncidentLifecycle.AutonomousMeansUnapprovedExactly` says when this matters.
* `HealthDebounce.RowOpensTwice`: the database row forgets that it is down at the first failure after one
  success, and asks for an incident again; a second one is opened if the first was closed in between.
  `HealthDebounce.AgreeExactly` gives the exact set of histories on which both versions agree.
* `EmailRedaction.OverlapSurvives`: one pass can leave an address that overlapped a redacted one;
  `EmailRedaction.NothingLeftExactly` says when.
* The truncation marker for arrays in `sanitize_and_bound` is never appended: a truncated array is full.
* Terminal incident states are not absorbing (any state may go to paused), and a RUNNING job whose worker
  died is never reclaimed; neither is claimed anywhere here.

## Model

| member | source | states |
|---|---|---|
| HelperTheorems.AtMostOneRestart | apps/runtime-helper/src/lib.rs:304-384 | over every interleaving of connections, aborts, crashes that lose unsynced entries and re-enrolments, no request id has its restart issued twice |
| HelperTheorems.JournalTruth | apps/runtime-helper/src/lib.rs:532-588 | any record a crash may leave under a request's name is its own; a recorded success had an issued restart with both inspections passing that issue's enrolment and the container running after, a recorded rejection had none and can have none |
| HelperTheorems.RejectionIsFinal | apps/runtime-helper/src/lib.rs:304-384 | once any file a crash may leave under the request's name holds a rejection, in any run from an empty state directory, no restart of that id was issued and none is in any later run |
| HelperTheorems.SettledForever | apps/runtime-helper/src/lib.rs:565-588 | once a completion is settled, no interleaving, abort or crash changes what the journal says |
| HelperTheorems.SuccessIsReplayed | apps/runtime-helper/src/lib.rs:304-345 | after a reply of success, a readable repeat at any later time gets the same result with only `duplicate` set |
| HelperTheorems.RepeatNeverRestarts | apps/runtime-helper/src/lib.rs:532-563 | a request that finds its name taken issues nothing and is answered with the true record marked duplicate, an ambiguity, or a refusal |
| HelperTheorems.AnswersAreSound | apps/runtime-helper/src/lib.rs:255-384 | an answer of not started means this call issued nothing, a fresh success means it issued the one restart, and a call that issued one never answers not started |
| HelperGates.IssuedWasAdmitted | apps/runtime-helper/src/lib.rs:255-302 | over every run, each restart handed to Docker belongs to a connection that arrived with protocol version 1, from the allowed peer, with the credential and for the target enrolled at that moment and still in force |
| HelperGates.IssuedWasInspected | apps/runtime-helper/src/lib.rs:386-443 | over every run, each restart was issued after an inspection for the same connection in which Docker showed, by id and by name, the enrolled container outside the control plane |
| HelperGates.RefusedForGood | apps/runtime-helper/src/lib.rs:255-302 | in every run a request failing one of the four conditions is answered not started with the code of the first it fails, and nothing later changes that answer |
| HelperGates.ArrivalIsJudged | apps/runtime-helper/src/lib.rs:255-302 | each arrival leaves journal and issued restarts alone and gets the code of the first failed condition, or is let through to inspection or to the journal |
| HelperGates.InspectionIsJudged | apps/runtime-helper/src/lib.rs:386-495 | which code a failed inspection gives, by what Docker said first |
| HelperGates.RepeatIsJudged | apps/runtime-helper/src/lib.rs:532-563 | what a request that finds its name taken is told, by what it reads there |
| HelperGates.UnpersistedIsJudged | apps/runtime-helper/src/lib.rs:365-384 | a completion that cannot be made durable leaves a rejection as it is and makes a restart an ambiguity |
| HelperGates.SuccessMeansRunning | apps/runtime-helper/src/lib.rs:345-384 | in every run an answer that claims a restart shows the requested container, running afterwards |
| HelperSafety.StepInv | apps/runtime-helper/src/lib.rs:304-588 | every single step keeps the helper's invariant and moves others only forward |
| HelperSafety.CrashInv | apps/runtime-helper/src/lib.rs:532-611 | whatever values a crash keeps of unsynced names and files, the invariant holds after it |
| HelperSafety.AbortInv | apps/runtime-helper/src/main.rs:85-98 | dropping a connection at any point keeps the invariant |
| RuntimeProtocol.InspectEnrolled | apps/runtime-helper/src/lib.rs:386-443 | an inspection passes exactly when Docker answered, id and name lead to the enrolled container, and it is what was enrolled, outside the control plane |
| RuntimeExecutor.RequestJournal.Claim | apps/runtime-helper/src/lib.rs:532-563 | exclusive create, write, sync, directory sync, or reading what is there, with each system call allowed to fail |
| RuntimeExecutor.RequestJournal.Complete | apps/runtime-helper/src/lib.rs:565-588 | temporary file, sync, rename, directory sync; the disk left by every failure point |
| RuntimeExecutor.Executor.Handle | apps/runtime-helper/src/lib.rs:255-302 | the gates in order and then inspection or restart: state and reply are those of the machine's run; a request failing a gate gets exactly that code, not started, and leaves journal and issued restarts alone |
| RuntimeExecutor.Executor.Restart | apps/runtime-helper/src/lib.rs:304-345 | claim, replay of an existing record, or the mutation: state and reply are those of the machine's run |
| RuntimeExecutor.Executor.Mutate | apps/runtime-helper/src/lib.rs:345-384 | inspect, restart, inspect again, persist: one issue at most, and the reply the machine gives |
| RuntimeClient.ClientIsSound | crates/nopager-connectors/src/docker_ops.rs:111-290 | the client concludes not started exactly when nothing was sent or the helper said so for this request, and a restart exactly when the helper reported one for it |
| JobQueue.RunInv | crates/nopager-db/src/lib.rs:1593-1672 | attempts never exceed the maximum, a running row is exactly a locked one, and a worker's copy agrees with its row |
| JobQueue.LeaseIsExclusive | crates/nopager-db/src/lib.rs:1628-1672 | at most one worker holds a job, and only its report changes the row |
| JobQueue.FinalIsFinal | crates/nopager-db/src/lib.rs:1647-1672 | completed and failed jobs never change again |
| JobQueue.FirstEnqueueWins | crates/nopager-db/src/lib.rs:1593-1626 | enqueues with the same key leave one job with the first payload and limit |
| JobQueue.StartsAreAttempts | crates/nopager-db/src/lib.rs:1628-1645 | the attempt counts the handler's starts exactly, so a job of n attempts starts at most n times |
| JobQueue.ClaimsUseTheBudget | crates/nopager-db/src/lib.rs:1628-1672 | the sum of attempts left drops by one on each claim, grows only by new jobs, and nothing else changes it |
| JobQueue.ReportedFailure | crates/nopager-db/src/lib.rs:1656-1672 | a reported failure retries the job after 2, 4, ..., 1024 seconds by its attempt while attempts are left, and fails it for good otherwise, touching no other row |
| JobQueue.FailedMeansSpent | crates/nopager-db/src/lib.rs:1656-1672 | over every run a failed job has used all its attempts and one to be retried has not |
| JobQueue.TakesExactly | crates/nopager-db/src/lib.rs:1628-1645 | a claim takes a job exactly if the worker holds none and the job is pending or to be retried, and due |
| JobQueue.Table.Add | crates/nopager-db/src/lib.rs:1593-1626 | insertion unless the key exists, leaving all other rows |
| JobQueue.Table.Pick | crates/nopager-db/src/lib.rs:1628-1634 | the ready unlocked job that became available first, oldest among equals; none only if none is ready |
| JobQueue.Table.ClaimNext | crates/nopager-db/src/lib.rs:1628-1645 | the picked job becomes running, locked and one attempt further, and is leased |
| JobQueue.Table.CompleteJob | crates/nopager-db/src/lib.rs:1647-1654 | completes exactly the row this worker holds |
| JobQueue.Table.FailJob | crates/nopager-db/src/lib.rs:1656-1672 | exactly the row this worker holds: retry after the attempt's delay or final failure, by the attempts of the lease |
| OperationsDb.DecisionStep | crates/nopager-db/src/lib.rs:786-1013 | approving takes effect only from waiting and unpaused, rejecting only from waiting, and nothing undoes a decision |
| OperationsDb.FirstDecisionWins | crates/nopager-db/src/lib.rs:786-1013 | over any interleaving of approvals, rejections, pauses and mode changes, and among these alone, the first effective decision stays, and exactly an approved operation has its one execute job |
| OperationsDb.RepeatsChangeNothing | crates/nopager-db/src/lib.rs:791-889 | after a decision no approval or rejection changes anything; one that had read the decided row succeeds for the winning decision, one that had read it before is refused, whichever it is |
| OperationsLaws.ApprovalExactly | crates/nopager-db/src/lib.rs:786-889 | an approval is accepted without effect if it had read the row as approved and planned, running, executed or verified; otherwise it takes effect exactly on a waiting operation while protection is on |
| OperationsLaws.RejectionExactly | crates/nopager-db/src/lib.rs:927-1013 | a rejection is accepted without effect if it had read the row as rejected, and otherwise takes effect exactly on a waiting operation |
| OperationsLaws.PolicyExactly | crates/nopager-policy/src/lib.rs:73-103 | exactly when the policy allows, asks for approval or blocks, for every risk, mode and precondition |
| OperationsLaws.PlanIsStored | apps/worker/src/operations_runtime.rs:321-342 | what row planning stores, with the name of the verdict its readings lead to, or which one it finds |
| OperationsLaws.PlanIsApplied | apps/worker/src/operations_runtime.rs:361-429 | what planning does with the verdict: run, ask, hold and pause, or hold and escalate |
| OperationsLaws.VerdictExactly | crates/nopager-connectors/src/docker_ops.rs:111-290 | EXECUTED is recorded exactly on the helper's report of a restart for this request, FAILED_CLOSED exactly when no byte was sent or the helper said not started, AMBIGUOUS otherwise |
| OperationsLaws.ExchangeExactly | crates/nopager-connectors/src/docker_ops.rs:139-222 | a failed exchange counts as not started exactly if it was no mutation or nothing of it can have been sent |
| OperationsLaws.UnsetIsFailedClosed | crates/nopager-connectors/src/docker_ops.rs:272-293 | a client that could not be set up or reach the helper is recorded as FAILED_CLOSED |
| OperationsLaws.HelperMovesExactly | apps/runtime-helper/src/lib.rs:255-302 | in the whole system the helper moves on its own, and restarts reach it only as delivered requests |
| OperationsDb.Database.TransitionIncident | crates/nopager-db/src/lib.rs:1348-1421 | the guarded compare-and-set, or the error and no change |
| OperationsDb.Database.EscalateIncident | crates/nopager-db/src/lib.rs:758-784 | RESOLVED, ROLLED_BACK, ESCALATED, FAILED and CANCELLED incidents stay as they are, any other becomes ESCALATED |
| OperationsDb.Database.PersistAction | apps/worker/src/operations_runtime.rs:725-762 | one row per incident; a different operation is refused |
| OperationsDb.Database.MarkStatus | apps/worker/src/operations_runtime.rs:786-801 | the unconditional status write, on that row only |
| OperationsDb.Database.ClaimAction | apps/worker/src/operations_runtime.rs:477-488 | PLANNED becomes RUNNING, and the caller learns whether it did |
| OperationsDb.Database.ApproveIncident | crates/nopager-db/src/lib.rs:786-889 | the whole approval transaction, including its execute job, with the row as read before it began |
| OperationsDb.Database.RejectIncident | crates/nopager-db/src/lib.rs:927-1013 | the whole rejection transaction, with the row as read before it began |
| OperationsDb.Database.SetProtectionPaused | crates/nopager-db/src/lib.rs:1240-1320 | resuming sends exactly the paused incidents back to collecting context; pausing touches none |
| OperationsSteps.StepInv | apps/worker/src/operations_runtime.rs:70-715 | every step of the composed system keeps its invariant |
| OperationsTheorems.OneRestartPerIncident | apps/worker/src/operations_runtime.rs:431-526 | end to end, every restart belongs to an incident's one action and no two to the same incident |
| OperationsTheorems.RowsTellTheTruth | apps/worker/src/operations_runtime.rs:477-573 | executed, verified and verification-failed rows had exactly one proven restart; failed-closed rows none; an action whose execute job was never claimed none |
| OperationsTheorems.VerdictsAreSound | apps/worker/src/operations_runtime.rs:477-573 | of a handler that is about to record its verdict: EXECUTED then has exactly one proven restart and FAILED_CLOSED none, and an issued restart that is not proven gets AMBIGUOUS |
| OperationsTheorems.FailedClosedForever | apps/worker/src/operations_runtime.rs:528-573 | after FAILED_CLOSED no continuation of the run ever issues that restart |
| OperationsOverwrite.BegunRowsExactly | apps/worker/src/operations_runtime.rs:283-573 | in every run, every action whose execution was claimed and sent, or is about to be, is always RUNNING, EXECUTED, FAILED_CLOSED, AMBIGUOUS, VERIFIED or VERIFICATION_FAILED, exactly when no planning statement marks such an action |
| OperationsOverwrite.IssuedRowsExactly | apps/worker/src/operations_runtime.rs:725-801 | in every run, every action whose restart was issued is always RUNNING, AMBIGUOUS, EXECUTED, VERIFIED or VERIFICATION_FAILED, exactly when no planning statement marks an issued action and no restart is issued for one marked over before |
| OperationsOverwrite.IssuedStep | apps/worker/src/operations_runtime.rs:283-429 | the same for one step, with the condition on the state before it |
| OperationsOverwrite.UnprovenIsOpen | apps/worker/src/operations_runtime.rs:528-573 | in those runs an issued restart that is not proven is RUNNING or AMBIGUOUS |
| OperationsOverwrite.IssuedRowsActed | apps/worker/src/operations_runtime.rs:786-801 | it suffices that no planning statement marks an action whose execution has begun |
| OverwrittenRestart.IssuedThenRejected | apps/worker/src/operations_runtime.rs:725-801 | a concrete run from the start in which an approved and issued restart is marked APPROVAL_REQUIRED and then rejected: one restart, row REJECTED, incident CANCELLED |
| OverwrittenRestart.MarkedThenIssued | apps/worker/src/operations_runtime.rs:283-429 | a concrete run in which the mark comes while the request is under way and the restart is issued after it |
| OperationsDecisions.DecidedRowsExactly | apps/worker/src/operations_runtime.rs:361-429 | in every run of the whole system, a decided operation never waits for approval again exactly when no planning statement asks for approval of a decided one |
| OperationsDecisions.DecidedOnce | crates/nopager-db/src/lib.rs:786-1013 | in such runs at most one administrator's decision on an operation takes effect |
| OperationsDecisions.DecidedAgainExactly | crates/nopager-db/src/lib.rs:786-1013 | after every run, a decided operation can be decided again in some continuation, without planning asking first, exactly when its row waits for approval |
| OperationsHistory.ExecutionWasAllowed | apps/worker/src/operations_runtime.rs:321-453 | an action that is RUNNING or whose restart was issued had been approved, or allowed by the policy in Autopilot on a kill switch read as off, with cooldown clear; and execution had read protection as active |
| OperationsHistory.PlansWereRead | apps/worker/src/operations_runtime.rs:321-335 | the policy context a planner acts on is what it read from the database earlier in the run |
| OperationsHistory.VerifiedMeansChecked | apps/worker/src/operations_runtime.rs:609-715 | VERIFIED means exactly two checks after the restart, or three if the plan requires three or more, all passed; VERIFICATION_FAILED means the last one failed |
| OperationsHistory.ResolveMeansChecked | apps/worker/src/operations_runtime.rs:609-715 | a handler stands before its resolving statement only after exactly those two or three checks all passed, and each check is made after the one proven restart at its own number |
| OperationsHistory.ResolvedByWhom | apps/worker/src/operations_runtime.rs:609-715 | for every step of every run: an incident becomes RESOLVED only by another pipeline, or by this pipeline's last statement on the incident's own action after exactly the planned checks had passed behind the one proven restart |
| OperationsWorker.OperationsWorker.ProcessPlan | apps/worker/src/operations_runtime.rs:70-281 | the planning handler undisturbed has the effect of its steps, for each kind of decision |
| OperationsWorker.OperationsWorker.PlanContainerRestart | apps/worker/src/operations_runtime.rs:283-360 | target and verification checks, policy, and the stored action |
| OperationsWorker.OperationsWorker.ApplyPolicy | apps/worker/src/operations_runtime.rs:361-429 | allow, require approval or block, as the steps do |
| OperationsWorker.OperationsWorker.ProcessExecute | apps/worker/src/operations_runtime.rs:431-526 | the executing handler undisturbed has the effect of its steps and one exchange with the helper |
| OperationsWorker.OperationsWorker.FailClosedHelperExecution | apps/worker/src/operations_runtime.rs:528-573 | the disposition decides the status, then escalation |
| OperationsWorker.OperationsWorker.BeginVerification | apps/worker/src/operations_runtime.rs:575-607 | the transition and the first verification job |
| OperationsWorker.OperationsWorker.ProcessVerify | apps/worker/src/operations_runtime.rs:609-715 | one verification check undisturbed has the effect of its steps |
| IncidentLifecycle.ResolvedMeansVerified | crates/nopager-db/src/lib.rs:1348-1421 | every status write is an edge of the transition relation or source recovery's one exception, every resolution comes after a production verification, and the resolution time is set exactly when the incident was once resolved or rolled back |
| IncidentLifecycle.AutonomousExactly | crates/nopager-db/src/lib.rs:1366-1382 | a resolved incident counts as autonomous exactly when source recovery did not resolve it, no deployment approval took effect in its history, and the last effective decision on its operation was no approval |
| IncidentLifecycle.AutonomousMeansUnapprovedExactly | crates/nopager-db/src/lib.rs:1366-1382 | so it tells whether any approval ever took effect, exactly unless an approval of the operation was later overruled by a rejection |
| IncidentLifecycle.ApprovedYetAutonomous | crates/nopager-db/src/lib.rs:927-1013 | a concrete history in which an approved operation is marked as waiting for approval again by planning and rejected, and the incident resolved as autonomous |
| IncidentLifecycle.RunInv | crates/nopager-core/src/lib.rs:66-93 | rolling back, rolled back and resolved only after verifying production; attested reverts only after a rollback was read |
| IncidentLaws.TransitionExactly | crates/nopager-core/src/lib.rs:66-93 | a checked transition goes through exactly from the expected status, and only to a status reached from it or to one of the four that stop an incident; otherwise which error |
| IncidentLaws.EveryEdgeIsListed | crates/nopager-core/src/lib.rs:66-93 | over every run of an incident, where each of its statuses came from |
| IncidentLaws.EscalationExactly | crates/nopager-db/src/lib.rs:758-784 | escalation leaves the five closed statuses alone and escalates every other |
| IncidentLaws.ResolvedStays | apps/worker/src/operations_runtime.rs:70-715 | over every run of the whole system, a RESOLVED incident stays RESOLVED unless another pipeline stops it: no escalation, decision or late statement takes it out |
| IncidentLaws.ResolvedRowStays | crates/nopager-db/src/lib.rs:1348-1421 | in every run of an incident only a transition to a stopping status takes it out of RESOLVED |
| IncidentLaws.DecisionExactly | crates/nopager-db/src/lib.rs:786-1013 | when an approval, a rejection or resuming changes one incident's row, and to what |
| IncidentLaws.RecordExactly | apps/worker/src/source_recovery.rs:686-777 | what may be recorded on an incident, and that only a revert attested after a rollback was read lets source recovery resolve it |
| IncidentLaws.OthersMayExactly | crates/nopager-core/src/lib.rs:66-93 | what the other pipelines may do to an incident of this one |
| IncidentLaws.OpeningExactly | crates/nopager-db/src/lib.rs:1438-1463 | a new incident is paused from the start exactly while protection is |
| IncidentLifecycle.IncidentRow.TransitionIncident | crates/nopager-db/src/lib.rs:1348-1421 | the update with its resolution stamp and autonomy decision |
| IncidentLifecycle.IncidentRow.EscalateIncident | crates/nopager-db/src/lib.rs:758-784 | RESOLVED, ROLLED_BACK, ESCALATED, FAILED and CANCELLED incidents stay as they are, any other becomes ESCALATED |
| IncidentLifecycle.IncidentRow.ResolveEscalatedSourceRecovery | apps/worker/src/source_recovery.rs:686-777 | the one write outside the relation, under its status and attestation checks |
| KnownGood.ProvenStep | apps/worker/src/main.rs:810-904 | one step keeps every known-good deployment recorded at setup or passed three checks in a row, exactly when it is neither the trigger adopting another nor a third check marking one without two passed in a row; for both readings of which failed checks count |
| KnownGood.BaselineProvenExactly | apps/worker/src/main.rs:752-904 | over every run from setup: every known-good deployment is always the one recorded at setup or passed checks 0, 1, 2 of one watch with no job of that watch completing with a failure between, exactly when the trigger adopts only the one recorded at setup or one whose third check passed, and no third check marks for the first time a deployment whose watch had such a failure |
| KnownGood.BaselineUnbrokenExactly | apps/worker/src/main.rs:752-904 | the same with every failed check counted, also one whose handler erred: in runs where no passed check is repeated, exactly when moreover no check after the first had failed |
| KnownGood.BaselineByChecks | apps/worker/src/main.rs:810-904 | over every run and for both readings: exactly when the trigger adopts only the one recorded at setup or one whose third check passed, and each third check that marks a deployment for the first time finds checks 0 and 1 passed in order with no failure since the first |
| KnownGood.OnlyTheTriggerBreaksIt | crates/nopager-db/migrations/0005_external_known_good.sql:10-51 | in such runs only the trigger can break it, by adopting a deployment that was not recorded at setup and had no third check passed |
| KnownGood.WatchedIsEarned | apps/worker/src/main.rs:810-904 | while the baseline stays proven, a deployment passed three checks in a row exactly if a third check of it passed, or it is the one recorded at setup |
| KnownGood.ClearExactly | apps/worker/src/main.rs:786-810 | with its keys spent, a watch reaches its third check after two in a row exactly if no job of it completed with a failure |
| KnownGood.StepInv | crates/nopager-db/src/lib.rs:1593-1626 | every step keeps it that keys are never reused, each job follows passed checks with all smaller numbers, and no job is left or made again after completing with a failure |
| KnownGoodRuns.FailedRepairBecomesBaseline | crates/nopager-db/migrations/0005_external_known_good.sql:19-51 | a concrete run in which a failed repair becomes the baseline and the good deployment stops being it |
| KnownGoodRuns.RepeatedCheckMarksFailed | apps/worker/src/source_recovery.rs:420-523 | a concrete run in which a source recovery's deployment becomes the baseline after a check of its watch was recorded as failed |
| KnownGoodRuns.UnrecordedFailureIsForgotten | apps/worker/src/main.rs:752-904 | a concrete run in which a deployment becomes the baseline with a failed, never recorded check between passed ones |
| KnownGood.BaselineMovesOnlyByWatch | crates/nopager-db/src/lib.rs:718-748 | while an incident is unresolved only a third passed watch check moves the baseline, which then takes its deployment, and upserts never touch the flag |
| KnownGood.BaselineIsReplaced | crates/nopager-db/src/lib.rs:733-748 | whatever makes a production deployment known-good leaves it the only one |
| KnownGood.FailedCheckEndsWatch | apps/worker/src/main.rs:698-750 | a check whose job completes with a failure is never made again in any continuation of the run; it rolls a durable incident back, or escalates it without a baseline, and moves no baseline |
| KnownGoodLaws.ThirdCheckExactly | apps/worker/src/main.rs:810-904 | the third check makes its deployment the only production baseline exactly if it is healthy and, for a source recovery, the protected branch still ends in the recovered commit |
| KnownGoodLaws.EarlyCheckExactly | apps/worker/src/main.rs:786-810 | the first two checks enqueue the next one unless its key is spent, whatever the branch says |
| KnownGoodLaws.StartExactly | apps/worker/src/main.rs:752-808 | when the verification before it starts a watch |
| KnownGoodLaws.BeginExactly | apps/worker/src/main.rs:810-822 | a check is made exactly while its incident is verifying production, or escalated with that very revert attested |
| KnownGoodLaws.FailureExactly | apps/worker/src/main.rs:698-750 | what a failed check does: roll back with a known-good production deployment, escalate without, retry if the incident has moved on, leave it alone for a source recovery |
| KnownGoodLaws.ErringExactly | crates/nopager-db/src/lib.rs:1656-1672 | a check whose handler errs is queued again, with its writes made or not, and what the log then says |
| KnownGoodLaws.TriggerExactly | crates/nopager-db/migrations/0005_external_known_good.sql:10-51 | a healthy check moves the flag to the last stored ready production deployment exactly while every incident has been resolved or rolled back |
| KnownGoodLaws.SaveExactly | crates/nopager-db/src/lib.rs:718-731 | storing a deployment never touches its flag, and a new one has none |
| TokenRedaction.CopyRedacted | crates/nopager-providers/src/operations/sanitize.rs:205-229 | the copying scan computes the splice of the found tokens |
| TokenRedaction.RedactInPlace | crates/nopager-providers/src/http.rs:556-581 | the in-place scan ends and computes the very same text, for every non-empty prefix of token characters |
| TokenRedaction.ShortTokenIsSkipped | crates/nopager-providers/src/http.rs:573-576 | searching on from inside a short token finds what searching on behind it finds |
| TokenRedaction.RedactedIsClean | crates/nopager-providers/src/operations/sanitize.rs:205-229 | after a pass its prefix has no token left that reaches the minimum length |
| TokenRedaction.SpansAreHits | crates/nopager-providers/src/operations/sanitize.rs:205-229 | only such tokens are replaced, each to the end of its run |
| TokenRedaction.CleanIsKept | crates/nopager-providers/src/operations/sanitize.rs:205-229 | a text without such a token is left unchanged |
| TokenRedaction.LaterPassesKeepClean | crates/nopager-providers/src/operations/sanitize.rs:86-98 | no pass of the nine recreates what an earlier one removed |
| TokenRedaction.RedactTokens | crates/nopager-providers/src/operations/sanitize.rs:86-98 | the loop over the nine prefixes leaves none of them |
| TokenRedaction.RedactTokensInPlace | crates/nopager-providers/src/http.rs:323-335 | the other pipeline's loop gives the same text |
| TokenRedaction.TruncationKeepsClean | crates/nopager-providers/src/operations/sanitize.rs:231-239 | truncating afterwards keeps all nine clean and bounds the length |
| TokenLaws.CleanExactly | crates/nopager-providers/src/operations/sanitize.rs:86-98 | clean means: none of the nine listed prefixes with its minimum number of letters, digits, underscores, hyphens and dots, spelled out |
| Redaction.SpliceCreatesNothing | crates/nopager-providers/src/operations/sanitize.rs:86-99 | replacing spans by a bracketed marker only cuts token runs: what is found afterwards was there before, between the spans |
| EmailRedaction.LabelsSplit | crates/nopager-providers/src/http.rs:391-411 | the labels of a domain are its dot-free pieces: joining them gives the domain back |
| EmailLaws.ValidDomainExactly | crates/nopager-providers/src/http.rs:391-411 | a domain is valid exactly if it has at most 253 letters, digits, hyphens and dots, none of the latter at an end or a dot beside them, and ends in a dot and at least two letters |
| EmailLaws.AddressExactly | crates/nopager-providers/src/http.rs:343-365 | what is taken for an address is exactly an `@` between a non-empty maximal local run and such a domain, maximal too |
| EmailLaws.AllAddressesAreTouched | crates/nopager-providers/src/http.rs:343-365 | in every text each such address overlaps a replaced span, and each replaced span is one |
| EmailLaws.SingleAddressIsReplaced | crates/nopager-providers/src/http.rs:339-381 | in a text with one `@` it is replaced by the marker if it stands in such an address, and the text is unchanged if not |
| EmailRedaction.RedactEmailAddresses | crates/nopager-providers/src/http.rs:339-381 | the collecting and the copying loop compute the splice of the found addresses |
| EmailRedaction.AddressesAreOrdered | crates/nopager-providers/src/http.rs:357-366 | the replaced spans are disjoint and increasing |
| EmailRedaction.SpansAreAddresses | crates/nopager-providers/src/http.rs:343-365 | each replaced span is a maximal local run, `@` and a maximal valid domain |
| EmailRedaction.ResidueFollowsMarker | crates/nopager-providers/src/http.rs:339-381 | an address still in the output has its local part right behind a marker, starting with `_`, `%` or `+` |
| EmailRedaction.NothingLeftExactly | crates/nopager-providers/src/http.rs:357-366 | the output has no address exactly when no address overlaps the replaced one before it and goes on behind it |
| EmailRedaction.OverlapSurvives | crates/nopager-providers/src/http.rs:357-366 | a concrete text in which one does |
| EmailRedaction.EmailPassKeepsTokensClean | crates/nopager-providers/src/http.rs:312-337 | the e-mail pass leaves the nine token passes' result clean |
| ContextSanitizer.SanitizeAndBound | crates/nopager-providers/src/operations/sanitize.rs:11-51 | the rewriting walk computes the bounded tree |
| ContextSanitizer.SanitizeObject | crates/nopager-providers/src/operations/sanitize.rs:18-38 | an object's loop over its keys: kept, redacted, removed, and the truncation key |
| ContextSanitizer.SanitizeArray | crates/nopager-providers/src/operations/sanitize.rs:39-47 | an array's loop; its marker is never appended |
| ContextSanitizer.BoundedFits | crates/nopager-providers/src/operations/sanitize.rs:11-51 | for any tree: at most eight levels, 65 entries, 32 items, and every text bounded and free of the nine tokens |
| ContextSanitizer.BoundedHidesSecrets | crates/nopager-providers/src/operations/sanitize.rs:26-29 | every value under a sensitive key anywhere in the tree is the marker, without exception |
| ContextSanitizer.TruncationKeyIsPlain | crates/nopager-providers/src/operations/sanitize.rs:18-38 | the key added for removed entries is not itself a sensitive one, so the value true under it hides nothing |
| ContextLaws.SensitiveExactly | crates/nopager-providers/src/operations/sanitize.rs:53-75 | a key is sensitive exactly if its letters and digits, read in order and in lower case, contain or end in or are one of the listed words |
| ContextLaws.SanitizedHidesSecrets | crates/nopager-providers/src/operations/sanitize.rs:26-29 | anywhere in the output the value under such a key is the marker |
| ContextLaws.ObjectExactly | crates/nopager-providers/src/operations/sanitize.rs:18-38 | what an object becomes: its first 64 entries, each the marker or what its value alone becomes, and the truncation entry if there were more |
| ContextLaws.OthersExactly | crates/nopager-providers/src/operations/sanitize.rs:39-50 | what every other value becomes, at every depth |
| ContextLaws.TextExactly | crates/nopager-providers/src/operations/sanitize.rs:231-239 | a text is what the passes make of it, cut at 12000 characters with a note |
| ContextLaws.SanitizedIsSmall | crates/nopager-providers/src/operations/sanitize.rs:3-6 | for any tree at most eight levels, 65 entries, 32 items and 12023 characters, and none of the nine kinds of token |
| ContextLaws.OrderIsKept | crates/nopager-providers/src/operations/sanitize.rs:35-37 | keys in order stay in order, the truncation key among them |
| ContextSanitizer.ContextIsSmall | crates/nopager-providers/src/operations/sanitize.rs:3-6 | a fixed bound on the number of nodes |
| HealthDebounce.HealthDebouncer.Observe | crates/nopager-monitor/src/lib.rs:69-102 | saturating 16-bit counters give status and transition of unbounded counting, for all thresholds and histories, and which change of status is reported as what |
| HealthDebounce.DownMeans | crates/nopager-monitor/src/lib.rs:69-102 | down means enough failures in a row at some point and never enough successes in a row since |
| HealthDebounce.StatusMeans | crates/nopager-monitor/src/lib.rs:69-102 | unknown before the first result; otherwise down in that sense, or healthy or failing by the last result |
| HealthDebounce.HealthChecks.RecordObservation | crates/nopager-db/src/lib.rs:419-465 | the row's update, whether it asks for an incident, and that one is opened only if none with its key is active |
| HealthDebounce.AgreeExactly | crates/nopager-db/src/lib.rs:432-452 | row and debouncer agree in status after every result exactly when no failure comes right after the first success while down, and then ask for an incident at the same results |
| HealthDebounce.SameIncidents | crates/nopager-db/src/lib.rs:1438-1451 | on those histories both have opened the same incidents at every moment, whenever incidents are closed or reopened in between |
| HealthDebounce.RowOpensTwice | crates/nopager-db/src/lib.rs:432-452 | a history on which the row asks for an incident twice and the debouncer once: with the first closed in between it opens two and the debouncer one, without that each opens one |

## Left out

- The Docker CLI, the model providers, GitHub and Vercel: what they answer is a parameter of a step; the parser of the inspect output and the configuration checks of the helper are not modelled.
- The steps of deployment repair (`legacy_pipeline.rs`, most of `main.rs`) act on operations incidents as arbitrary status writes along the transition relation; their own proofs are those of `IncidentLifecycle` and `KnownGood`. The job that resuming enqueues belongs to them.
- The handler that takes an opened incident to collecting context and enqueues its plan is such a write and an enqueue. What the cooldown query answers is a parameter of the policy step.
- The escalation after a job's last failed attempt is one of those status writes.
- RuntimeExecutor.Executor.Handle: the sequential code is one undisturbed connection; what other connections do between its system calls is covered by the machine's own theorems, not by the class.
- OperationsWorker.OperationsWorker.ProcessExecute: the sequential code has no failing statement and no other step in between; both are covered by the machine's own theorems.
- JobQueue.Table.Add: the identifier of the stored job that enqueueing returns; a key names its job here.
- OperationsDb.Database.SetProtectionPaused: the diagnose job and the cleared attempt of each resumed incident belong to deployment repair.
- OperationsWorker.OperationsWorker.ProcessPlan: the job that delegation enqueues belongs to deployment repair.
- KnownGood.BaselineUnbrokenExactly: speaks of runs in which no passed check is repeated; `KnownGood.BaselineByChecks` covers all runs, with its condition on the checks logged so far.
- KnownGood.FailedCheckEndsWatch: a watch job may be retried any number of times while its handler errs; the limit of three attempts is that of `JobQueue`.
- OperationsDb.FirstDecisionWins: speaks of administrator events only; `OperationsDecisions.DecidedOnce` and `DecidedAgainExactly` speak of the whole system.
- The helper's limits on request size, connection count and connection lifetime appear only as connections that are refused or dropped at any point.
- The helper calls complete in the same connection that claimed; the blocking-task boundary around journal calls is treated as part of the connection, which may be dropped there or after it.
- The kill switch is read before the restart and not together with it, so no claim is made that pausing stops a restart already claimed.
- Two worker processes that share a process id also share a worker name; each worker here has its own.
- The decision a model returns is any decision; the validator in `operations/types.rs` only narrows it.
- Private-key blocks, assignments and URL credentials are redacted before the token passes; they are the parameter `earlier`, and object keys are not sanitised at all.
- ContextSanitizer.SanitizeAndBound: the private-key, assignment and URL passes are its parameter; it works on values, not on a tree rewritten in place, and the tree has one owner, so no aliasing is lost.
- The older post-deploy watch in `legacy_pipeline.rs` also marks deployments known-good, but `main.rs` never dispatches a job to it.
- Authentication, sessions, web-hook signatures, the user interface, the sandbox and patch application.
- Time is a number on jobs only; nothing is claimed about fairness or that a job is ever taken.
