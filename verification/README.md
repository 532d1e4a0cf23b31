# Session action protocol: a verified model

The repository runs work for agent sessions. Each session has a queue of durable **actions**; the action
at the head launches **runs**, one attempt at a time, and a session has a single **slot** that names the run
under way. Controllers reconcile stored status towards what they observe, and everything may fail at any
call. This project models that protocol and proves what holds over all its histories.

## How it is built

| file | content |
|---|---|
| `System.dfy` | one session as a state machine: actions, runs, slot, clock; one event is one whole reconcile or service call, and carries the answers of the outside world |
| `AgentRuns.dfy`, `Workloads.dfy`, `Actions.dfy`, `RunIds.dfy`, `RetryPolicies.dfy` | the run machine and what it does with workflows, action statuses and their builders, run ids, retry budget and backoff |
| `RunService.dfy`, `ActionQueue.dfy`, `ActionReconciler.dfy` | the service and the two controllers as classes that update their stores in place, each method proved to be the machine's event |
| `ActionMoves.dfy`, `SlotSafety.dfy`, `QueueSafety.dfy`, `AttemptBudget.dfy`, `Progress.dfy` | what every history keeps: one active action, one run, order of service, backoff, stop, budget and termination; and that a turn and a stop complete once calls go through |
| `Attempts.dfy`, `StuckStops.dfy`, `Outcomes.dfy` | how attempts start and fail; which stops can still end, and what becomes of the queue when one cannot; how the ends of actions and runs agree, and which runs are left behind |
| `Projection.dfy`, `Dedup.dfy`, `ProjectionSafety.dfy`, `ProjectionKeys.dfy`, `ProjectionExact.dfy`, `CallLog.dfy`, `ProjectionCalls.dfy`, `ToolBlocks.dfy`, `ProjectionOutput.dfy`, `Projector.dfy` | streamed output: a pure fold, its laws under at-least-once delivery, what is handed out, and the mutable projector that refines it |
| `ResourceConfig.dfy`, `ResourceParts.dfy`, `Reload.dfy` | revisions of session resources and the reload actions that realize them |
| `SessionGate.dfy`, `SessionConditions.dfy` | the status that the session reconciler derives and the gate that new actions pass |
| `Carriers.dfy` | mark and sweep of the volume claims of a session |

External calls (session load, run and workflow reads, workflow submit, cancel and delete, status writes,
claim listings) are parameters of each step and may answer anything, errors included; what they answer about
the stores modelled here is true, and a write that fails has not happened. Times in statuses are whole
seconds, as they are stored; backoff durations are nanoseconds.

## What the proofs found

* **A rollback can lose the slot.** Exactly two events take the slot from a live run: a session that fails over it,
  and a creation that meets the live run of its own id and rolls back (`SlotSafety.StepKeepsSlotIff`), so one run at
  a time holds along a history if and only if neither occurs in it (`SlotSafety.OneRunAtATime`). A launch whose
  status write fails loses nothing by itself; the next attempt to make the same run does
  (`SlotSafety.UnrecordedLaunchLosesTheSlot`).
* **A stop can block its queue for good.** Canceling a missing run answers a domain error, while the stop branch
  looks for the Kubernetes one: such a stop never ends (`StuckStops.MissingRunBlocksTheQueue`). A run that is deleted
  while it is under way never gets an end written to its status either; such a stop ends only if the run happens to
  be removed between the cancel and the read of one reconcile (`StuckStops.StuckStopEndsIff`). No other stop is stuck
  (`StuckStops.StopCanEndIff`). Deleting a run under way and stopping its action is enough.
* **A run can go on without its action.** When the session or the run cannot be read, the action retries or fails
  and drops the live run from its record, which keeps the slot. That and an unrecorded launch are the only ways
  (`Outcomes.RecordedThroughoutIff`, `Outcomes.LeavesRunLiveIff`).
* **First come, first served holds always, keeping one's turn does not.** Whoever makes an attempt is first in line
  (`QueueSafety.FirstComeFirstServed`), but the line depends on the clock's grain: an action created in the same
  second under a smaller name overtakes one that waits for its retry, and erases its retry time
  (`QueueSafety.LateArrivalOvertakes`, `QueueSafety.LateArrivalErasesRetryTime`). The exact conditions are
  `QueueSafety.OvertakenIff` and `QueueSafety.BackoffIsHonoured`.
* **An end event sets the last number back.** Exact text needs that no content follows an end of its message,
  and needs no more (`ProjectionExact.TextExactIff`).
* **The end of a tool call forgets it.** A start or a named chunk that is delivered again after the end begins the
  call anew, and stored arguments are then exact only if all of it comes again (`ProjectionCalls.ArgsExactAtIff`).
  A stream is safe under every delivery if and only if its calls never end, or are never named, or have all their
  arguments in the one event that names them (`ProjectionCalls.ArgsExactIff`).
* **A failed or exhausted action forgets its run id**, so the attempt bound counts one more for ended actions
  than for waiting ones; a session that is gone after the first launch already shows it
  (`AttemptBudget.TightThroughoutIff`, `AttemptBudget.FirstAttemptThenMissing`).
* **Slashes in ids may mix runs.** Keys join session, run and id by slashes without escaping. Exactly when two runs
  share a key is `ProjectionKeys.ShareKeyIff`; clearing one run may also reach another that shares none
  (`ProjectionKeys.ClearRunIsExactIff`). Ids without slashes are safe.
* **Doubling the delay may overflow 64 bits** when the cap is 2^62 nanoseconds or more; whether it does depends on
  the base too, and exactly when is `RetryPolicies.ClosedFormIff`.

## Model

| member | source | states |
|---|---|---|
| SlotSafety.OneRunAtATime | packages/platform-k8s/internal/agentruntime/agentruns/service.go:96-133 | Along every history, whatever the actions are called, every live run holds the slot throughout if and only if no session fails over a live run and no rollback meets a live run of its own id; then at most one run is under way, and it is the one the slot names. |
| SlotSafety.RegularNeverDrops | packages/platform-k8s/internal/agentruntime/agentsessionactions/run_turn.go:21-68 | Histories in which every launch that made a run is recorded, and no session fails over a live run, never drop the slot and stay in order. |
| SlotSafety.StepKeepsSlotIff | packages/platform-k8s/internal/agentruntime/agentsessions/status_derive.go:147-163 | Any event keeps the slot with the run under way if and only if it is not a session failure over a live run or a creation whose rollback meets a live run of the same id. |
| SlotSafety.StepKeepsOrder | packages/platform-k8s/internal/agentruntime/agentsessionactions/run_turn.go:21-68 | Regular events keep the joint invariant of slot, runs and actions: runs belong to actions, attempts not yet counted have no run. |
| SlotSafety.CreateKeepsSlot | packages/platform-k8s/internal/agentruntime/agentruns/service.go:109-133 | Claim, create and rollback together keep the slot with its run exactly unless the run already exists, is live, and the rollback releases it. |
| SlotSafety.UnrecordedLaunchLosesTheSlot | packages/platform-k8s/internal/agentruntime/agentsessionactions/controller.go:108-119 | A launch whose status write fails, followed at once by another reconcile, is met as a foreign run, and the rollback clears the slot under it. |
| SlotSafety.InitialInOrder | packages/platform-k8s/internal/agentruntime/agentsessionactions/controller.go:43-84 | A new session under a normalized policy is in order, so the slot theorems hold from the start. |
| AgentRuns.ReconcileIsProper | packages/platform-k8s/internal/agentruntime/agentruns/controller.go:119-182 | Every reconcile of a run releases the slot exactly when it ends the run, submits only a live run that is not canceled, and loses no result. |
| Workloads.SubmittedOnce | packages/platform-k8s/internal/agentruntime/agentruns/controller.go:119-161 | Over any history a new run is submitted at most once, and once more for each time its workflow was reported missing or the id of a submit was lost. |
| Workloads.SubmitsAreBounded | packages/platform-k8s/internal/agentruntime/agentruns/controller.go:119-161 | The same from any point of a run's life. |
| Workloads.SubmitsIff | packages/platform-k8s/internal/agentruntime/agentruns/controller.go:127-155 | A reconcile submits exactly for a valid live run that is not canceled or deleted, has been looked at before, and has no workload or whose workflow is reported missing. |
| Workloads.SubmitStoresId | packages/platform-k8s/internal/agentruntime/agentruns/controller_status.go:76-93 | What a submit returns is the stored workload id; if it cannot be stored the status stays as it was. |
| Workloads.WorkloadIsKept | packages/platform-k8s/internal/agentruntime/agentruns/controller_status.go:95-145 | A reconcile that does not find the workflow missing submits nothing and keeps the workload id. |
| Workloads.PollIsStored | packages/platform-k8s/internal/agentruntime/agentruns/controller_status.go:95-145 | A look at the workflow that can be stored leaves the run in the phase of its workflow. |
| Workloads.CancelsIff | packages/platform-k8s/internal/agentruntime/agentruns/cancel.go:15-78 | A workflow is canceled exactly for a live run with a workload whose cancel was requested, or for a run under deletion whose workflow is there and goes on. |
| Workloads.CanceledRunGoesOn | packages/platform-k8s/internal/agentruntime/agentruns/cancel.go:15-96 | How a canceled run goes on, case by case: also while its workflow still runs. |
| Workloads.InvalidRunFails | packages/platform-k8s/internal/agentruntime/agentruns/controller.go:119-126 | An invalid run fails, without a workload, as soon as that can be stored. |
| Workloads.CancelRequestIsNew | packages/platform-k8s/internal/agentruntime/agentruns/control.go:23-36 | A cancel request is made once, for a live run only, and raises its generation. |
| Workloads.NewRunIs | packages/platform-k8s/internal/agentruntime/agentruns/service.go:135-151 | A new run has not been looked at, has nothing asked of it and nothing done for it. |
| Workloads.DeleteRequestIsNew | packages/platform-k8s/internal/agentruntime/agentruns/controller.go:100-118 | A deletion request is made once and held back by the finalizer alone. |
| Workloads.FinalizerComesFirst | packages/platform-k8s/internal/agentruntime/agentruns/controller.go:100-118 | The finalizer is in place before any other work on a run. |
| Workloads.CallsAreCounted | packages/platform-k8s/internal/agentruntime/agentruns/controller.go:119-182 | Submits, cancels, releases and announcements are counted one by one. |
| AgentRuns.ReleasedOnce | packages/platform-k8s/internal/agentruntime/agentruns/controller.go:231-243 | Over any history Release is called at most once, FINISHED is announced at most as often, and a run has ended exactly when it was released. |
| AgentRuns.TerminalIsFinal | packages/platform-k8s/internal/agentruntime/agentruns/controller.go:127-132 | A run that has ended keeps its phase for good and is never submitted, released or announced again. |
| AgentRuns.NoSubmitAfterCancel | packages/platform-k8s/internal/agentruntime/agentruns/control.go:23-32 | Once cancel is requested no workflow is submitted any more. |
| AgentRuns.ResultIsKept | packages/platform-k8s/internal/agentruntime/agentruns/status.go:14-30 | A recorded result summary survives every reconcile, cancel and deletion request; only publishing again replaces it. |
| AgentRuns.FreshLife | packages/platform-k8s/internal/agentruntime/agentruns/service.go:135-151 | Every history of a newly created run satisfies the release invariant. |
| AgentRuns.GoneOnlyWhenOver | packages/platform-k8s/internal/agentruntime/agentruns/controller.go:184-220 | A run object disappears exactly when it is being deleted and its workflow is gone, or over and deleted; deletion never submits or releases. |
| SlotSafety.ObservedSlotIsTrue | packages/platform-k8s/internal/agentruntime/agentsessions/status_derive.go:147-163 | Once the session has read its run, the slot is free exactly when no run is under way. |
| RunService.RunService.Claim | packages/platform-k8s/internal/agentruntime/agentsessions/active_run.go:31-45 | Compare and set: an empty slot or our own is claimed, any other is refused and left alone; a claim that was stored and could not be read back is reported as an error and stays stored. |
| RunService.RunService.Create | packages/platform-k8s/internal/agentruntime/agentruns/service.go:96-133 | Claim, build, create with the deferred rollback leaves the runs, the slot and the reply of the pure Create. |
| RunService.RunService.Cancel | packages/platform-k8s/internal/agentruntime/agentruns/control.go:15-64 | Cancel marks a run that is under way and not yet canceled and changes nothing else; a blank id is a validation error, an unknown one is not found. |
| RunService.RunService.PublishTerminalResult | packages/platform-k8s/internal/agentruntime/agentruns/result.go:15-41 | Publishing writes the result of the one run and nothing else; a blank or unknown id is an error and changes nothing. |
| RunService.RunService.UpdateObservedStatus | packages/platform-k8s/internal/agentruntime/agentruns/controller.go:163-182 | Cleanup, status write, release and announcement in this order, each only when the one before went through. |
| RunService.RunService.ReconcileCanceledRun | packages/platform-k8s/internal/agentruntime/agentruns/cancel.go:15-96 | Canceling a run: without a workload at once, otherwise after its workflow was canceled and looked at. |
| RunService.RunService.ReconcileDeletedRun | packages/platform-k8s/internal/agentruntime/agentruns/controller.go:184-220 | A run under deletion goes only after its workflow is over or gone and cleaned up. |
| RunService.RunService.Reconcile | packages/platform-k8s/internal/agentruntime/agentruns/controller.go:92-161 | The controller's whole reconcile leaves runs, slot and call counts as the pure step says. |
| Progress.RunCompletes | packages/platform-k8s/internal/agentruntime/agentruns/controller.go:119-161 | Whatever a live run that nobody cancels or deletes has been through, three reconciles without errors, whose reads of the workflow find it over, end it as the workflow ended, with one release and one announcement in its whole life. |
| Progress.TurnCompletes | packages/platform-k8s/internal/agentruntime/agentsessionactions/run_turn.go:21-89 | From any state in order with a free slot, the owner's turn completes: launch, any number of polls, failed calls, looks, published results and time in between, then three smooth reconciles and one look end the run and settle the action by its end, its result and the budgets left, with the slot free again. |
| Progress.StopCompletes | packages/platform-k8s/internal/agentruntime/agentsessionactions/stop.go:25-61 | A stop whose run is live and not under deletion completes after any number of failing reconciles of the run: one that goes through frees the slot and the action ends CANCELED, or SUCCEEDED after all. |
| ActionMoves.DeriveMoves | packages/platform-k8s/internal/agentruntime/agentsessionactions/derive.go:20-51 | Every status derived for a stored action is one of five moves (stay, launch, retry, fall back, end); only the queue owner launches, retries, falls back or becomes active. |
| ActionMoves.AtMostOneActive | packages/platform-k8s/internal/agentruntime/agentsessionactions/queue.go:29-63 | In every history at most one action is active, counters stay in range, and a run id is empty or that of the last attempt. |
| ActionMoves.StepKeepsSound | packages/platform-k8s/internal/agentruntime/agentsessionactions/derive.go:25-40 | Each event keeps run identity, counters and the single active action. |
| QueueSafety.FirstComeFirstServed | packages/platform-k8s/internal/agentruntime/agentsessionactions/queue.go:13-41 | In every history, whoever makes an attempt is first in line: every action that sorts ahead has ended. |
| QueueSafety.AttemptsFollowCreation | packages/platform-k8s/internal/agentruntime/agentsessionactions/queue.go:13-41 | The same in stored times and names: along every history, whoever makes an attempt was created earlier than every other action that has not ended, or in the same second under the smaller name. |
| QueueSafety.CreatedWhenStored | packages/platform-k8s/internal/agentruntime/agentsessionactions/queue.go:65-77 | The stored creation time of an action is, in every history, the time at which it was created. |
| QueueSafety.OvertakenIff | packages/platform-k8s/internal/agentruntime/agentsessionactions/queue.go:29-63 | Along every history nobody that was started is overtaken if and only if no new action sorts ahead of one that waits and no active action is put off while another sorts ahead of it; then no other action makes an attempt while one is started. |
| QueueSafety.StepOvertakesIff | packages/platform-k8s/internal/agentruntime/agentsessionactions/queue.go:29-63 | The same for one event: exactly these two make a started action lose its turn. |
| QueueSafety.WaitsIff | packages/platform-k8s/internal/agentruntime/agentsessionactions/run_turn.go:26-89 | When an active action is put off, by what the reconcile meets: a failing call with a retry left, a run that failed and may be tried again with a retry or a candidate left, or a failing reset or reload with a retry left; status stored and no stop requested. |
| QueueSafety.InitialInQueue | packages/platform-k8s/internal/agentruntime/agentsessionactions/queue.go:13-41 | A new session is in queue order, so the queue theorems hold from the start. |
| QueueSafety.QueueingBehindIsEnough | packages/platform-k8s/internal/agentruntime/agentsessionactions/queue.go:18-26 | When every new action sorts behind whatever was started, nobody is ever overtaken. |
| QueueSafety.CreationKeepsQueueIff | packages/platform-k8s/internal/agentruntime/agentsessionactions/queue.go:19-25 | Creating an action keeps the order of service if and only if its key sorts behind every started action. |
| QueueSafety.LateArrivalOvertakes | packages/platform-k8s/internal/agentruntime/agentsessionactions/queue.go:19-25 | An action created in the same second under a smaller name overtakes one that waits for its retry. |
| QueueSafety.KeyIsForLife | packages/platform-k8s/internal/agentruntime/agentsessionactions/status_builders.go:124-144 | The sort key of an action never changes, and an action that has ended never changes at all. |
| QueueSafety.BackoffIsHonoured | packages/platform-k8s/internal/agentruntime/agentsessionactions/retry.go:11-31 | Until its retry time a waiting action is left exactly as it is along a history if and only if nobody stops it and it is not reconciled while another action owns the queue; and then it makes no attempt. |
| Progress.RetryStartsIff | packages/platform-k8s/internal/agentruntime/agentsessionactions/retry.go:11-31 | The attempt after a retry can start from its due time on and not before: the wait lasts for the policy's delay and no longer. |
| Progress.RetryCompletes | packages/platform-k8s/internal/agentruntime/agentsessionactions/retry.go:33-56 | Once its wait is over, the retried turn of the first in line completes. |
| Progress.RetryWaits | packages/platform-k8s/internal/agentruntime/agentsessionactions/run_turn.go:70-89 | A run that failed and may be tried again leaves its action waiting until now plus the policy's delay, with a retry more, no run, and everything else in order. |
| Progress.FailedTurnIsToBeRetried | packages/platform-k8s/internal/agentruntime/agentsessionactions/run_turn.go:70-89 | A turn whose workflow failed with a result that may be tried again, with a retry left, leaves its session as the retry lemmas ask. |
| QueueSafety.StepKeepsWaitingIff | packages/platform-k8s/internal/agentruntime/agentsessionactions/derive.go:28-40 | The same for one event; being blocked rewrites the status without its retry time. |
| QueueSafety.LateArrivalErasesRetryTime | packages/platform-k8s/internal/agentruntime/agentsessionactions/derive.go:35-40 | A new action that sorts ahead, and one reconcile of the waiting one, erase its retry time: the wait is over at once. |
| QueueSafety.QueueingBehindIsUndisturbed | packages/platform-k8s/internal/agentruntime/agentsessionactions/retry.go:11-31 | When new actions sort behind whatever was started, only a stop disturbs the wait. |
| QueueSafety.StopIsSafe | packages/platform-k8s/internal/agentruntime/agentsessionactions/stop.go:14-61 | After a stop request no attempt is made, no counter moves, and the only ends are CANCELED and SUCCEEDED. |
| StuckStops.StopCanEndIff | packages/platform-k8s/internal/agentruntime/agentsessionactions/stop.go:25-61 | A stopped run_turn action with a run on record can still end, in some history, if and only if its run is stored; and in some history in which the run is not removed between the cancel and the read of one reconcile, if and only if it is also over or not under deletion. |
| StuckStops.StuckStopEndsIff | packages/platform-k8s/internal/agentruntime/agentsessionactions/stop.go:39-59 | Along every history a stop whose run is missing, or live and under deletion, ends if and only if the run is removed between the cancel and the read of one of its reconciles; until then no action of the session makes an attempt. |
| StuckStops.MissingRunBlocksTheQueue | packages/platform-k8s/internal/agentruntime/agentsessionactions/stop.go:39-44 | A stop whose run is missing never ends in any history, and no action of the session ever makes an attempt again. |
| StuckStops.StuckIsReachable | packages/platform-k8s/internal/agentruntime/agentruns/controller.go:184-220 | Deleting the run under way of any action, with or without its finalizer, and stopping the action lead there. |
| Actions.BeforeIsOrder | packages/platform-k8s/internal/agentruntime/agentsessionactions/queue.go:18-26 | The queue order is a strict order, total on different names. |
| Actions.BeforeIsCreatedEarlier | packages/platform-k8s/internal/agentruntime/agentsessionactions/queue.go:18-26 | It is the order of creation: the earlier time first, in one second the name that is smaller at the first difference. |
| Text.LexLessIff | packages/platform-k8s/internal/agentruntime/agentsessionactions/queue.go:23-25 | Names are compared by their first difference. |
| ActionQueue.ListSessionActions | packages/platform-k8s/internal/agentruntime/agentsessionactions/queue.go:13-27 | The listing holds every stored action once, each one created earlier than those behind it, or in the same second under a smaller name. |
| ActionQueue.FirstActiveAction | packages/platform-k8s/internal/agentruntime/agentsessionactions/queue.go:43-50 | The scan returns the first active action of the list, or nothing when there is none. |
| ActionQueue.QueueOwnerId | packages/platform-k8s/internal/agentruntime/agentsessionactions/queue.go:29-41 | The returned name is the one owner: the first active action, else the first that has not ended. |
| ActionReconciler.ActionReconciler.ScheduleRetry | packages/platform-k8s/internal/agentruntime/agentsessionactions/retry.go:33-56 | The retry status with a delay computed by the doubling loop, or the exhausted status. |
| ActionReconciler.ActionReconciler.CreateOrGetRun | packages/platform-k8s/internal/agentruntime/agentsessionactions/run_turn.go:107-126 | Create, or on a known id read again; runs, slot, attempt and error as in the pure function. |
| ActionReconciler.ActionReconciler.DeriveRunTurnStatus | packages/platform-k8s/internal/agentruntime/agentsessionactions/run_turn.go:21-68 | The run_turn derivation leaves runs, slot and status as the pure derivation. |
| ActionReconciler.ActionReconciler.DeriveStoppedStatus | packages/platform-k8s/internal/agentruntime/agentsessionactions/stop.go:14-61 | The stop derivation cancels the recorded run in place and follows it. |
| ActionReconciler.ActionReconciler.DeriveStatus | packages/platform-k8s/internal/agentruntime/agentsessionactions/derive.go:20-51 | Terminal, stop, queue and retry-window checks in order, with the owner found by listing and scanning. |
| ActionReconciler.ActionReconciler.Reconcile | packages/platform-k8s/internal/agentruntime/agentsessionactions/controller.go:93-121 | One reconcile of the stored action is exactly one event of the session machine; on an error the store is unchanged. |
| ActionReconciler.ActionReconciler.ReconcileSessionActions | packages/platform-k8s/internal/agentruntime/agentsessionactions/controller.go:124-138 | A pass reconciles the listed actions in order until one fails, and is a history of the session machine. |
| ActionReconciler.ActionReconciler.Stop | packages/platform-k8s/internal/agentruntime/agentsessionactions/control.go:15-47 | Stop marks an action that has not ended and is exactly the stop event; a blank id is a validation error, an unknown one is not found. |
| ActionReconciler.ActionReconciler.Store | packages/platform-k8s/internal/agentruntime/agentsessionactions/service.go:105-110 | A known name is refused; a new one is stored with an empty status that carries its creation time. |
| AttemptBudget.BudgetHolds | packages/platform-k8s/internal/agentruntime/agentsessionactions/run_turn.go:70-89 | In every history each action keeps its attempts within index*(m+1)+retries, plus one while a run is on record or after it ended, so within candidates*(m+1); without the extra one for actions that neither have ended nor have a run on record. |
| AttemptBudget.BudgetIsTightOrOneOver | packages/platform-k8s/internal/agentruntime/agentsessionactions/status_builders.go:97-122 | The two bounds apart: either the tight one holds, with plus one only while a run id is set, or the action has ended without its run id and exceeds it by exactly one. |
| AttemptBudget.TightThroughoutIff | packages/platform-k8s/internal/agentruntime/agentsessionactions/run_turn.go:26-57 | Along every history the tight bound holds of an action throughout if and only if no reconcile makes it forget a run that used the bound up. |
| AttemptBudget.ReconcileKeepsTightIff | packages/platform-k8s/internal/agentruntime/agentsessionactions/run_turn.go:26-57 | For one reconcile, by what it meets: the run on record used the bound up, no stop is requested, list and write go through, and the session is gone or a call fails with no retry left; a blank run id never exceeds. |
| AttemptBudget.FirstAttemptThenMissing | packages/platform-k8s/internal/agentruntime/agentsessionactions/run_turn.go:26-29 | One reconcile that finds the session gone after a first launch is such a case. |
| AttemptBudget.StepLowersRank | packages/platform-k8s/internal/agentruntime/agentsessionactions/retry.go:33-67 | Candidates left, retries left and the empty run id form a rank that no step raises and every launch, retry and fallback lowers. |
| AttemptBudget.ProgressEnds | packages/platform-k8s/internal/agentruntime/agentsessionactions/run_turn.go:21-89 | Whatever runs and errors do, an action makes fewer than 2*candidates*(m+1) launches, retries and fallbacks. |
| AttemptBudget.AttemptsAreBounded | packages/platform-k8s/internal/agentruntime/agentsessionactions/run_turn.go:160-169 | Within its budget an action uses at most candidates*(m+1) run ids. |
| RetryPolicies.NormalizeRetryPolicy | packages/platform-k8s/internal/agentruntime/agentsessionactions/retry_policy.go:27-42 | Field by field the policy becomes normalized, and a normalized one is left alone. |
| RetryPolicies.RetryDelay | packages/platform-k8s/internal/agentruntime/agentsessionactions/retry.go:76-91 | For any policy the loop computes the recursive doubling in wrapping 64-bit arithmetic, cap checks included. |
| RetryPolicies.ClosedFormIff | packages/platform-k8s/internal/agentruntime/agentsessionactions/retry.go:76-91 | It equals min(base*2^(n-1), cap) for every n if and only if no doubling that it performs reaches 2^63. |
| RetryPolicies.SmallCapNeverWraps | packages/platform-k8s/internal/agentruntime/agentsessionactions/retry_policy.go:27-42 | Caps below 2^62 nanoseconds always meet that condition. |
| RetryPolicies.DelayIsMonotone | packages/platform-k8s/internal/agentruntime/agentsessionactions/retry.go:76-91 | Delays never shrink from one retry to the next and stay between base and cap. |
| RetryPolicies.CapAtTheLimit | packages/platform-k8s/internal/agentruntime/agentsessionactions/retry.go:82-83 | At a cap of 2^62 the base decides: with an equal base the second delay is -2^63, with half of it every delay is exact. |
| RetryPolicies.DefaultDelays | packages/platform-k8s/internal/agentruntime/agentsessionactions/retry_policy.go:5-25 | By default there are five retries, after 2, 4, 8, 16 and 32 seconds. |
| RetryPolicies.SecondsAreWhole | packages/platform-k8s/internal/agentruntime/agentsessionactions/retry.go:46-55 | Stored retry times show the delay cut to whole seconds. |
| Outcomes.EndsAgree | packages/platform-k8s/internal/agentruntime/agentsessionactions/run_turn.go:58-67 | Along every history a run_turn action that ended SUCCEEDED names a run, and an action that ended with a run on record ended as that run did while it is stored: SUCCEEDED with success, FAILED with failure, CANCELED with a run that failed or was canceled. |
| Attempts.AttemptStarts | packages/platform-k8s/internal/agentruntime/agentsessionactions/run_turn.go:33-44 | How an attempt starts: a validation fault blocks the action and costs nothing, any other spends a retry, and without one left the action fails for a retry by hand; the faults are told by what the creation meets. |
| Attempts.TurnFailsAs | packages/platform-k8s/internal/agentruntime/agentsessionactions/run_turn.go:26-89 | When a look at the run on record ends the action as FAILED, when it falls back instead, and whether a retry by hand is offered. |
| Attempts.OtherGoesAs | packages/platform-k8s/internal/agentruntime/agentsessionactions/reload_subject.go:18-45 | Each outcome of a reset or reload has its end, its retry or its wait. |
| Attempts.ClassesAlwaysFit | packages/platform-k8s/internal/agentruntime/agentsessionactions/status_builders.go:26-122 | Along every history phase and failure class fit: FAILED is given up for good or left to a retry by hand, PENDING is blocked or to be retried, and any other phase has no class. |
| Attempts.CandidateIsThere | packages/platform-k8s/internal/agentruntime/agentsessionactions/run_turn.go:141-150 | The candidate in use is one of those there are, and the stored one when that is. |
| Attempts.InvalidFails | packages/platform-k8s/internal/agentruntime/agentsessionactions/derive.go:21-24 | An action without an id or a session fails at once and touches nothing. |
| Attempts.StoredIdIsTrimmed | packages/platform-k8s/internal/agentruntime/agentsessionactions/status_builders.go:124-144 | Run ids are stored without white space around them. |
| Outcomes.LeavesRunLiveIff | packages/platform-k8s/internal/agentruntime/agentsessionactions/run_turn.go:26-57 | A reconcile ends an action and leaves its run under way if and only if the session is gone or a call fails with no retry left; the action is then FAILED and the slot unchanged. |
| Outcomes.RecordedThroughoutIff | packages/platform-k8s/internal/agentruntime/agentsessionactions/run_turn.go:26-57 | Along every history each run under way is on the record of an action that has not ended, if and only if no reconcile stores a status without having read the session and the live run on record, and no launch stays unrecorded. |
| Outcomes.StepKeepsRecordIff | packages/platform-k8s/internal/agentruntime/agentsessionactions/controller.go:93-121 | The same for one event of any kind. |
| Outcomes.InitialAgrees | packages/platform-k8s/internal/agentruntime/agentsessionactions/controller.go:43-84 | A new session meets the hypotheses of both. |
| RunIds.RunIdRoundTrip | packages/platform-k8s/internal/agentruntime/sessionapi/agui_turn_message_build.go:59-61 | The turn of each attempt of a validly named action is that action. |
| RunIds.LaterAttemptRoundTrip | packages/platform-k8s/internal/agentruntime/agentsessionactions/run_turn.go:171-177 | From the second attempt on, every run id leads back to its action, whatever the action is called. |
| RunIds.FirstAttemptRoundTrip | packages/platform-k8s/internal/agentruntime/sessionapi/agui_turn_message_build.go:12 | The first attempt leads back to its action if and only if the action id has no attempt suffix of its own. |
| RunIds.RunIdsDiffer | packages/platform-k8s/internal/agentruntime/agentsessionactions/run_turn.go:160-177 | Run ids of validly named actions are equal exactly when action and attempt are. |
| RunIds.AttemptsDiffer | packages/platform-k8s/internal/agentruntime/agentsessionactions/run_turn.go:171-177 | Different attempts of one action never share a run id. |
| RunIds.TurnIdCutsTheMatch | packages/platform-k8s/internal/agentruntime/sessionapi/agui_turn_message_build.go:12 | Cutting the suffix is the regular expression replacement: the match goes and nothing else does. |
| ProjectionExact.TextExactIff | packages/platform-k8s/internal/agentruntime/sessionapi/agui_turn_projector.go:84-165 | For increasing numbers, every at-least-once delivery gives exactly the concatenated deltas, if and only if no content of the message follows one of its ends. |
| ProjectionExact.MessageIsLog | packages/platform-k8s/internal/agentruntime/sessionapi/agui_turn_projector.go:117-148 | What the projector keeps of a message is the log of what the delivered events say about it. |
| ProjectionOutput.HandedOutIff | packages/platform-k8s/internal/agentruntime/sessionapi/agui_turn_projector.go:117-148 | Under every delivery of a stream that meets the condition of TextExactIff, a content or end event hands out its message if and only if the run has an id and the message is there with text or tool calls; and then with the deltas delivered so far, in the turn of its run, under the role its last start gave it. |
| ProjectionOutput.TurnIsTheAction | packages/platform-k8s/internal/agentruntime/sessionapi/agui_turn_message_build.go:59-61 | That turn is the action of which the run is an attempt. |
| ProjectionOutput.NumberIsTheMakers | packages/platform-k8s/internal/agentruntime/sessionapi/agui_turn_projector.go:84-115 | Under every delivery of an increasing stream the number of a message is that of the event that made it. |
| ProjectionOutput.NumberWraps | packages/platform-k8s/internal/agentruntime/sessionapi/agui_turn_projector.go:98-113 | Numbers are handed out modulo 2^64, between -2^63 and 2^63 - 1. |
| ProjectionOutput.EmitIff | packages/platform-k8s/internal/agentruntime/sessionapi/agui_turn_message_build.go:14-45 | Any event that concerns a message hands it out as it stands afterwards, if and only if it has a run and text or tool calls: with its ids, role, text and number, and tool calls for the assistant only. |
| ProjectionOutput.OthersHandOutNothing | packages/platform-k8s/internal/agentruntime/sessionapi/agui_turn_projector.go:38-82 | Starts, call starts, call deltas and events without ids hand out nothing. |
| ProjectionOutput.ResultIff | packages/platform-k8s/internal/agentruntime/sessionapi/agui_turn_tool_calls.go:114-132 | A tool result is handed out exactly when its ids and its run are there, and changes nothing. |
| ProjectionOutput.NewMessage | packages/platform-k8s/internal/agentruntime/sessionapi/agui_turn_projector.go:150-165 | A message that an event makes has the event's session, run and number, the assistant's role unless a start says otherwise, and no text but the event's own. |
| ProjectionOutput.StartChanges | packages/platform-k8s/internal/agentruntime/sessionapi/agui_turn_projector.go:94-106 | A later start takes over session, run, id and role, and the lesser number, and leaves text and calls. |
| ProjectionOutput.OthersKeep | packages/platform-k8s/internal/agentruntime/sessionapi/agui_turn_projector.go:117-148 | No other event changes session, run, id, role or number of a message. |
| ProjectionCalls.ArgsExactIff | packages/platform-k8s/internal/agentruntime/sessionapi/agui_turn_tool_calls.go:19-112 | For increasing numbers, the arguments stored for a call are exact under every at-least-once delivery if and only if no end of the call comes with an event that names it and a nonempty delta in another event. |
| ProjectionCalls.ArgsExactAtIff | packages/platform-k8s/internal/agentruntime/sessionapi/agui_turn_tool_calls.go:19-112 | Per delivery, what an event stores is exact if and only if, since the call was last forgotten, every delta delivered so far has come ahead of everything numbered after it: after an end, the whole call again, with anything else in between. |
| ProjectionCalls.CallIsLog | packages/platform-k8s/internal/agentruntime/sessionapi/agui_turn_tool_calls.go:19-112 | What the projector keeps of a call is the log of what the delivered events say about it. |
| ProjectionCalls.WrittenIsStored | packages/platform-k8s/internal/agentruntime/sessionapi/agui_turn_tool_calls.go:171-179 | A call that an event writes is in its message afterwards; an event that writes none leaves the calls of every message alone. |
| CallLog.ExactAtIff | packages/platform-k8s/internal/agentruntime/sessionapi/agui_turn_tool_calls.go:37-78 | The per-delivery condition on the log of one call. |
| CallLog.AlwaysExactIff | packages/platform-k8s/internal/agentruntime/sessionapi/agui_turn_tool_calls.go:50-112 | The all-deliveries condition on the log of one call, with a failing delivery for every stream that breaks it. |
| ProjectionExact.OpenArgsAreExact | packages/platform-k8s/internal/agentruntime/sessionapi/agui_turn_tool_calls.go:37-48 | Until a tool call ends its arguments are exactly the concatenation of its deltas, under every at-least-once delivery. |
| Dedup.DeliveryIsExact | packages/platform-k8s/internal/agentruntime/sessionapi/agui_turn_projector.go:121-127 | Deduplication by sequence number gives the exact text under every delivery in which nothing is added after a mark. |
| Dedup.InexactDelivery | packages/platform-k8s/internal/agentruntime/sessionapi/agui_turn_projector.go:138-141 | If something is added after a mark, some delivery adds it twice. |
| ProjectionSafety.TextOnlyGrows | packages/platform-k8s/internal/agentruntime/sessionapi/agui_turn_projector.go:117-130 | With no assumption on the events, text is only ever extended. |
| ProjectionSafety.ImmediateRedelivery | packages/platform-k8s/internal/agentruntime/sessionapi/agui_turn_projector.go:38-82 | Delivering any event again at once changes nothing, in any state. |
| ProjectionSafety.ChunkIsIgnoredIff | packages/platform-k8s/internal/agentruntime/sessionapi/agui_turn_tool_calls.go:80-112 | A chunk changes nothing if and only if it has no call id, or its call is open, its delta is empty or old, its name and parent are blank or the recorded ones, and the call is unnamed or its message holds it as it stands. |
| ProjectionSafety.CallIdsStayDistinct | packages/platform-k8s/internal/agentruntime/sessionapi/agui_turn_tool_calls.go:171-179 | Whatever is delivered, no message ever holds two tool calls of one id. |
| ProjectionSafety.UpsertMeans | packages/platform-k8s/internal/agentruntime/sessionapi/agui_turn_tool_calls.go:171-179 | Upsert replaces the call of this id where it stands or appends it, and leaves the others in place. |
| ProjectionKeys.KeysDifferIff | packages/platform-k8s/internal/agentruntime/sessionapi/agui_turn_message_build.go:47-49 | Keys tell session, run and id apart, for all ids, if and only if the two are of one run or neither run's prefix continues the other with something an id can begin with. |
| ProjectionKeys.ShareKeyIff | packages/platform-k8s/internal/agentruntime/sessionapi/agui_turn_message_build.go:47-49 | Two runs have a key for some ids in common if and only if one prefix continues the other in this way. |
| ProjectionKeys.KeysDiffer | packages/platform-k8s/internal/agentruntime/sessionapi/agui_turn_message_build.go:47-49 | For slash-free session and run ids, keys are equal exactly when session, run and id are. |
| ProjectionKeys.SlashesMixRuns | packages/platform-k8s/internal/agentruntime/sessionapi/agui_turn_tool_calls.go:167-169 | Two runs of different sessions, with slashes in their ids, that collide. |
| ProjectionKeys.OtherRunsUntouchedIff | packages/platform-k8s/internal/agentruntime/sessionapi/agui_turn_tool_calls.go:134-146 | The events of one run, in every state, touch no message and no tool call of another if and only if the two do not collide. |
| ProjectionKeys.OtherRunsUntouched | packages/platform-k8s/internal/agentruntime/sessionapi/agui_turn_tool_calls.go:134-146 | An event leaves the messages and tool calls of every run that its own does not collide with. |
| ProjectionKeys.ClearRunIsExactIff | packages/platform-k8s/internal/agentruntime/sessionapi/agui_turn_tool_calls.go:148-165 | clearRun removes what is stored of its run, and in every state nothing of another, if and only if the run id is blank, it is the same run, or no key of the other can start with its prefix. |
| ProjectionKeys.ClearRunIsExact | packages/platform-k8s/internal/agentruntime/sessionapi/agui_turn_tool_calls.go:148-165 | For slash-free ids it removes the messages and tool calls of the run and no others, and nothing for a blank run id. |
| ToolBlocks.BlockMakesCall | packages/platform-k8s/internal/agentruntime/sessionapi/agui_turn_tool_calls.go:19-78 | A start, deltas and an end close the call again and leave it in its message with exactly its arguments. |
| ToolBlocks.WholeReplay | packages/platform-k8s/internal/agentruntime/sessionapi/agui_turn_tool_calls.go:50-78 | Replaying the whole block of a finished call at once changes nothing. |
| ToolBlocks.ReplayIff | packages/platform-k8s/internal/agentruntime/sessionapi/agui_turn_tool_calls.go:19-78 | Whatever came in between, replaying the whole block of a closed call changes nothing if and only if its message still holds the call with exactly its arguments; call ids are distinct, as in every history. |
| ToolBlocks.BlockSettles | packages/platform-k8s/internal/agentruntime/sessionapi/agui_turn_tool_calls.go:50-78 | A block leaves its message holding the call with exactly its arguments. |
| ToolBlocks.StartAndEndAlone | packages/platform-k8s/internal/agentruntime/sessionapi/agui_turn_tool_calls.go:61-63 | After any block, the start and the end alone store the call without any arguments. |
| ToolBlocks.PartialReplay | packages/platform-k8s/internal/agentruntime/sessionapi/agui_turn_tool_calls.go:61-63 | Replaying a later delta ahead of the start makes the stored call lose its first delta. |
| Projector.Projector.Apply | packages/platform-k8s/internal/agentruntime/sessionapi/agui_turn_projector.go:38-82 | The mutable projector takes the pure step and hands out what that step hands out, for every event. |
| Projector.Projector.Start | packages/platform-k8s/internal/agentruntime/sessionapi/agui_turn_projector.go:84-115 | Start makes or restarts the message in place as the pure step does. |
| Projector.Projector.Append | packages/platform-k8s/internal/agentruntime/sessionapi/agui_turn_projector.go:117-130 | Append adds the delta in place as the pure step does and returns the message. |
| Projector.Projector.End | packages/platform-k8s/internal/agentruntime/sessionapi/agui_turn_projector.go:132-148 | End sets the last number of a known message and returns it. |
| Projector.Projector.ToolCallStart | packages/platform-k8s/internal/agentruntime/sessionapi/agui_turn_tool_calls.go:19-35 | A tool-call start opens or names the call and makes its parent message. |
| Projector.Projector.ToolCallArgs | packages/platform-k8s/internal/agentruntime/sessionapi/agui_turn_tool_calls.go:37-48 | A delta extends the call in place as the pure step does. |
| Projector.Projector.ToolCallEnd | packages/platform-k8s/internal/agentruntime/sessionapi/agui_turn_tool_calls.go:50-78 | An end deletes the call's state and puts the call into its parent message. |
| Projector.Projector.ToolCallChunk | packages/platform-k8s/internal/agentruntime/sessionapi/agui_turn_tool_calls.go:80-112 | A chunk updates the call and puts it into its parent message once it has a name. |
| Projector.TextMessage.Put | packages/platform-k8s/internal/agentruntime/sessionapi/agui_turn_tool_calls.go:171-179 | The upsert loop overwrites or appends in place as the recursive upsert does. |
| Projector.Projector.Clear | packages/platform-k8s/internal/agentruntime/sessionapi/agui_turn_tool_calls.go:148-165 | The two deletion loops leave what the pure clearRun leaves. |
| ResourceConfig.FilterConfig | packages/platform-k8s/internal/agentruntime/agentresourceconfig/subjects.go:140-170 | The append loops compute the part of a configuration that concerns a subject, which ResourceParts.PartKeepsItsOwn describes. |
| ResourceParts.PartKeepsItsOwn | packages/platform-k8s/internal/agentruntime/agentresourceconfig/subjects.go:140-170 | A part keeps exactly the entries of its own kind that are present, in their order, and none of the other list. |
| ResourceParts.RevisionIff | packages/platform-k8s/internal/agentruntime/agentresourceconfig/subjects.go:132-138 | With digests that tell configurations apart, the desired revision of a part differs for two configurations exactly when their entries of this part do. |
| ResourceParts.RevisionIgnoresOthers | packages/platform-k8s/internal/agentruntime/agentresourceconfig/subjects.go:132-138 | With any digest, it does not change when other entries change. |
| ResourceParts.BlankRevisionIff | packages/platform-k8s/internal/agentruntime/agentresourceconfig/subjects.go:172-184 | It is blank exactly when the part has no entries. |
| ResourceParts.SnapshotIff | packages/platform-k8s/internal/agentruntime/agentresourceconfig/subjects.go:37-47 | When a snapshot can be taken, and that it carries the part and its desired revision. |
| ResourceParts.RevisionIsDigest | packages/platform-k8s/internal/agentruntime/agentresourceconfig/subjects.go:172-184 | The revision is the digest of the entries without the snapshot id, and blank without entries. |
| ResourceConfig.FilterTwice | packages/platform-k8s/internal/agentruntime/agentresourceconfig/subjects.go:140-170 | Filtering what was filtered for the same subject changes nothing. |
| ResourceConfig.PendingSubjects | packages/platform-k8s/internal/agentruntime/agentresourceconfig/subjects.go:49-62 | Exactly the parts whose realized revision differs from the desired one, each once. |
| ResourceConfig.ReadyIffNothingPending | packages/platform-k8s/internal/agentruntime/agentresourceconfig/subjects.go:64-69 | Resources are ready exactly when no part is pending. |
| ResourceConfig.RealizedRevisions.Apply | packages/platform-k8s/internal/agentruntime/agentresourceconfig/subjects.go:85-102 | Applying a snapshot in place writes the revisions of its subject. |
| ResourceConfig.ApplySettles | packages/platform-k8s/internal/agentruntime/agentresourceconfig/subjects.go:71-102 | Applying the snapshot of a part makes it match, removes exactly that part from the pending ones and touches no other. |
| ResourceConfig.ReloadsReachReady | packages/platform-k8s/internal/agentruntime/agentresourceconfig/subjects.go:37-102 | Reloads in any order and with repeats reach readiness exactly when they cover what was pending. |
| ResourceConfig.WholeReloadSettles | packages/platform-k8s/internal/agentruntime/agentresourceconfig/subjects.go:85-94 | A reload of the whole configuration settles every part at once. |
| Reload.SessionStatus.DeriveReloadSubjectStatus | packages/platform-k8s/internal/agentruntime/agentsessionactions/reload_subject.go:18-98 | Outcome and written revisions of a reload, with superseded and failing cases, as in the pure derivation. |
| Reload.NoStaleReload | packages/platform-k8s/internal/agentruntime/agentsessionactions/reload_subject.go:31-98 | Whenever a part's reload changes realized revisions, its part is then what the present configuration asks for and the others are as before; superseded reloads write nothing. |
| Reload.SupersededIff | packages/platform-k8s/internal/agentruntime/agentsessionactions/reload_subject.go:47-57 | The snapshot of a part is superseded exactly when the present configuration has another snapshot id or other entries of this part. |
| Reload.OutcomeIff | packages/platform-k8s/internal/agentruntime/agentsessionactions/reload_subject.go:18-45 | When a reload fails, is canceled, succeeds, goes on or is to be retried, each by an exact condition. |
| Reload.SpaceIsIgnored | packages/platform-k8s/internal/agentruntime/agentresourceconfig/subjects.go:64-83 | White space around snapshot ids and revisions makes no difference. |
| Reload.WrittenIsTrimmed | packages/platform-k8s/internal/agentruntime/agentsessionactions/reload_subject.go:85-98 | Revisions that a reload writes are stored without white space around them. |
| Reload.NoStaleWholeReload | packages/platform-k8s/internal/agentruntime/agentsessionactions/reload_subject.go:31-98 | With digests that tell configurations apart, a reload of the whole configuration that writes or succeeds leaves the resources ready for the present one. |
| Reload.TwoReconcilesComplete | packages/platform-k8s/internal/agentruntime/agentsessionactions/reload_subject.go:34-44 | Two undisturbed reconciles without errors complete a reload. |
| SessionGate.GateAgrees | packages/platform-k8s/internal/agentruntime/agentsessionactions/service.go:118-151 | Right after a session reconcile the gate admits an action exactly when the session is prepared, no reset is pending and the session has a generation. |
| SessionGate.GateUntilSpecChanges | packages/platform-k8s/internal/agentruntime/agentsessionactions/service.go:132-143 | Until the next reconcile of the session, claims and releases of the slot and realized revisions leave the gate as it was; replacing the spec closes it. |
| SessionGate.AdmittedIsSettled | packages/platform-k8s/internal/agentruntime/agentsessionactions/snapshot.go:30-35 | A prepared session's status names no run, carries its generation in both config generations and a nonzero state generation. |
| SessionConditions.EvaluatedIff | packages/platform-k8s/internal/agentruntime/agentsessions/status_derive.go:60-145 | Each of the four checks by what was observed, and when the later ones are not asked. |
| SessionConditions.ConditionsSay | packages/platform-k8s/internal/agentruntime/agentsessions/readiness.go:93-177 | Each condition says what the evaluation says, at this generation, dated by its last change of status. |
| SessionConditions.OtherConditions | packages/platform-k8s/internal/agentruntime/agentsessions/readiness.go:179-187 | Conditions of other kinds are kept if known and dropped if not. |
| SessionConditions.PhaseIs | packages/platform-k8s/internal/agentruntime/agentsessions/status_derive.go:13-58 | FAILED exactly for an invalid spec, RUNNING exactly while a run is seen, READY exactly when all checks hold and none is. |
| SessionConditions.GenerationsAre | packages/platform-k8s/internal/agentruntime/agentsessions/status_derive.go:13-58 | Which generations and revisions the status of a valid session carries. |
| SessionConditions.InvalidKeepsNothing | packages/platform-k8s/internal/agentruntime/agentsessions/status_derive.go:13-30 | The status of an invalid session says nothing but that it refuses work. |
| SessionConditions.AdmittedIsPresent | packages/platform-k8s/internal/agentruntime/agentsessionactions/service.go:118-151 | Whatever status a session has, an action is admitted only when that says ready at the present generation, in every respect. |
| SessionConditions.SlotBetween | packages/platform-k8s/internal/agentruntime/agentsessions/active_run.go:31-60 | Between two reconciles the slot is claimed when free or the run's own, and released by the run that it names. |
| SessionGate.DeriveSessionStatus | packages/platform-k8s/internal/agentruntime/agentsessions/status_derive.go:13-58 | The status built step by step is the pure one. |
| SessionGate.EvaluateReadiness | packages/platform-k8s/internal/agentruntime/agentsessions/status_derive.go:60-145 | The evaluation overwritten check by check is the pure one. |
| SessionGate.BuildConditions | packages/platform-k8s/internal/agentruntime/agentsessions/readiness.go:93-158 | The condition list edited in place is the pure one. |
| SessionGate.ConditionList.Set | packages/platform-k8s/internal/agentruntime/agentsessions/readiness.go:168-177 | Setting a condition overwrites the first of its kind or appends it. |
| SessionGate.SetThenFind | packages/platform-k8s/internal/agentruntime/agentsessions/readiness.go:168-177 | A condition that was set is found with its status and generation, and no other kind is disturbed. |
| Carriers.ClaimNameIs | packages/platform-k8s/internal/agentruntime/agentsessions/carrier_pvc.go:43-51 | Claim names are built from trimmed ids, and a blank session or id gives none. |
| Carriers.CarrierManager.ReferencedNames | packages/platform-k8s/internal/agentruntime/agentsessions/carrier_manager.go:129-173 | Exactly the claims that the spec, a run_turn action or a run that has not ended names, unless a legacy reference is met. |
| Carriers.CarrierManager.CleanupStale | packages/platform-k8s/internal/agentruntime/agentsessions/carrier_manager.go:81-105 | No referenced or unlabeled claim is ever deleted; on success without legacy exactly the unreferenced labeled ones are gone; with a legacy reference or a failed listing nothing is. |
| Carriers.CarrierManager.Ensure | packages/platform-k8s/internal/agentruntime/agentsessions/carrier_manager.go:51-59 | After success the claims of the spec are there, what is gone was unreferenced, and what is new is the spec's own. |
| Carriers.CarrierManager.EnsureClaim | packages/platform-k8s/internal/agentruntime/agentsessions/carrier_ensure.go:28-39 | The claim is there afterwards; a known one is left as it is. |
| Carriers.CarrierManager.Cleanup | packages/platform-k8s/internal/agentruntime/agentsessions/carrier_manager.go:107-127 | A deleted session loses all its labeled claims and no others. |
| Carriers.CarrierManager.Observe | packages/platform-k8s/internal/agentruntime/agentsessions/carrier_manager.go:175-191 | Ready exactly when the reference is not blank and its claim can be read, exists and is not lost. |

## Left out

- SlotSafety.RegularNeverDrops: gives conditions that are enough; the exact one is that of SlotSafety.OneRunAtATime.
- ProjectionCalls.ArgsExactIff: takes streams in which the numbers of the starts and deltas of a call are positive and increase; so does the text theorem.
- Reload.NoStaleWholeReload: takes digests that are never empty and differ for different configurations.
- SessionGate.GateUntilSpecChanges: the events between two reconciles are claims and releases of the slot, realized revisions and new specs, of which the first three touch no condition by definition; how the session repository stores them is not part of this model.
- ActionReconciler.ActionReconciler.DeriveStatus: takes the outcome of the reset and reload branches from the environment; the reload's own derivation is in `Reload.dfy`.
- ProjectionKeys.KeysDiffer: takes slash-free ids; the exact condition for all ids is that of ProjectionKeys.KeysDifferIff.
- ProjectionKeys.ClearRunIsExact: takes slash-free ids too; for all ids see ProjectionKeys.ClearRunIsExactIff.
- Counters are unbounded integers; their 32-bit width is covered by the proved bound on attempts as long as candidates*(m+1) stays below 2^31.
- The checks on a run's spec are one flag, and the checks behind a claim, a session load or a run request are the faults that the calls return.
- Status messages, condition reasons, prepare-job lists, requeue intervals, and timeline events other than FINISHED.
- The steps of a reset action, which appears by its outcome only.
- Deletion of actions, several namespaces, and ReconcileRunActions, which reconciles a subset of the same list.
- How the session repository stores claims and releases of the slot; it is not part of the repository and is taken as compare and set.
- Interleaving inside one reconcile or service call, but for a run that is removed between the two calls of a stop: every other step is atomic.
- Errors of the turn-message constructors and the fields they fill in.
- Sub-second parts of stored times, phase conversion tables, label and claim-name sanitizing, digests and volume specs.
- A carrier manager without an action reader, which sweeps as if the session had no actions.
- Postgres, NATS, Temporal, Kubernetes and gRPC clients, the outbox, HTTP triggers and telemetry.
