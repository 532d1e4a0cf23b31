/**
 * Session actions: their stored status, the builders that make the next one, and the queue order.
 * The functions here look at one action; what a reconcile does to the stores is in module System.
 */
module Actions {
  import opened Wrappers
  import opened Text
  import opened RunIds
  import opened RetryPolicies

  datatype Phase = Unset | Pending | Running | Succeeded | Failed | Canceled
  datatype FailureClass = NoClass | Blocked | Transient | ManualRetry | Permanent
  datatype ActionType = RunTurn | ResetWarmState | ReloadSubject | OtherType

  /** candidates: the number of runtime candidates in the run_turn snapshot, None for a missing snapshot. */
  datatype ActionSpec = ActionSpec(
    actionId: string, sessionId: string, kind: ActionType, candidates: Option<nat>, stopRequested: bool)

  datatype ActionStatus = ActionStatus(
    phase: Phase, failureClass: FailureClass, retryCount: int, attemptCount: int, candidateIndex: int,
    nextRetryAt: Option<int>, runId: string, createdAt: Option<int>)

  datatype Action = Action(name: string, creation: Option<int>, spec: ActionSpec, status: ActionStatus)

  predicate IsTerminalPhase(p: Phase) {
    p.Succeeded? || p.Failed? || p.Canceled?
  }

  predicate IsTerminal(a: Action) {
    IsTerminalPhase(a.status.phase)
  }

  predicate IsActive(a: Action) {
    !IsTerminal(a) && (Trim(a.status.runId) != "" || a.status.phase.Running?)
  }

  // ---- Queue order ----

  /** Go's zero time, in seconds since 1970. */
  const ZERO_TIME := -62135596800

  function CreatedAt(a: Action): Option<int> {
    if a.status.createdAt.Some? then a.status.createdAt else a.creation
  }

  function SortTime(a: Action): int {
    if CreatedAt(a).Some? then CreatedAt(a).value else ZERO_TIME
  }

  predicate Before(a: Action, b: Action) {
    if SortTime(a) == SortTime(b) then LexLess(a.name, b.name) else SortTime(a) < SortTime(b)
  }

  lemma BeforeIsOrder(a: Action, b: Action, c: Action)
    ensures !Before(a, a)
    ensures a.name != b.name ==> Before(a, b) || Before(b, a)
    ensures !(Before(a, b) && Before(b, a))
    ensures Before(a, b) && Before(b, c) ==> Before(a, c)
  {
    LexTotal(a.name, b.name);
    LexTotal(a.name, a.name);
    if LexLess(a.name, b.name) && LexLess(b.name, c.name) { LexTransitive(a.name, b.name, c.name); }
  }

  /** Created earlier, or in the same second under the smaller name. */
  ghost predicate CreatedEarlier(a: Action, b: Action) {
    SortTime(a) < SortTime(b) || (SortTime(a) == SortTime(b) && exists i: nat :: SmallerAt(a.name, b.name, i))
  }

  /** The queue order is the order of creation. */
  lemma BeforeIsCreatedEarlier(a: Action, b: Action)
    ensures Before(a, b) <==> CreatedEarlier(a, b)
  {
    LexLessIff(a.name, b.name);
  }

  // ---- Status builders ----

  /** buildStatus, with the fields that builders choose. */
  function BuildStatus(a: Action, now: int, phase: Phase, runId: string, failureClass: FailureClass,
                       retryCount: int, attemptCount: int, candidateIndex: int, nextRetryAt: Option<int>)
    : ActionStatus
  {
    ActionStatus(phase, failureClass, retryCount, attemptCount, candidateIndex, nextRetryAt, Trim(runId),
                 if CreatedAt(a).Some? then CreatedAt(a) else Some(now))
  }

  function PendingBlockedStatus(a: Action, now: int): ActionStatus {
    BuildStatus(a, now, Pending, "", Blocked, a.status.retryCount, a.status.attemptCount, a.status.candidateIndex, None)
  }

  function RunningStatus(a: Action, now: int, runId: string, attemptCount: int, candidateIndex: int): ActionStatus {
    BuildStatus(a, now, Running, runId, NoClass, a.status.retryCount, attemptCount, candidateIndex, None)
  }

  function TerminalStatus(a: Action, now: int, phase: Phase, failureClass: FailureClass): ActionStatus {
    BuildStatus(a, now, phase, a.status.runId, failureClass,
                a.status.retryCount, a.status.attemptCount, a.status.candidateIndex, None)
  }

  function CanceledStatus(a: Action, now: int): ActionStatus {
    TerminalStatus(a, now, Canceled, NoClass)
  }

  function FailedStatus(a: Action, now: int): ActionStatus {
    BuildStatus(a, now, Failed, "", Permanent, a.status.retryCount, a.status.attemptCount,
                a.status.candidateIndex, None)
  }

  /** scheduleRetryStatus: another try after a delay, or failure when the budget is spent. */
  function ScheduleRetryStatus(a: Action, now: int, exhausted: FailureClass, policy: RetryPolicy): ActionStatus {
    var retryCount := a.status.retryCount + 1;
    if retryCount > policy.maxRetries then
      BuildStatus(a, now, Failed, "", exhausted, policy.maxRetries, a.status.attemptCount,
                  a.status.candidateIndex, None)
    else
      BuildStatus(a, now, Pending, "", Transient, retryCount, a.status.attemptCount, a.status.candidateIndex,
                  Some(now + DelaySeconds(retryCount, policy)))
  }

  function ScheduleFallbackStatus(a: Action, now: int, nextCandidate: int): ActionStatus {
    BuildStatus(a, now, Pending, "", Transient, 0, a.status.attemptCount, nextCandidate, None)
  }

  // ---- Attempts and candidates ----

  function CurrentAttemptCount(a: Action): int {
    if a.status.attemptCount > 0 then a.status.attemptCount
    else if Trim(a.status.runId) != "" then 1
    else 0
  }

  function CandidateCount(a: Action): nat {
    if a.spec.candidates.Some? then a.spec.candidates.value else 0
  }

  function CurrentCandidateIndex(a: Action): int {
    if 0 <= a.status.candidateIndex < CandidateCount(a) then a.status.candidateIndex else 0
  }

  function NextCandidateIndex(a: Action): Option<int> {
    var next := CurrentCandidateIndex(a) + 1;
    if next < CandidateCount(a) then Some(next) else None
  }

  /** nextRunAttempt: the id and number of the attempt to create, or of the one already recorded. */
  function NextRunAttempt(a: Action): (string, int) {
    if Trim(a.status.runId) != "" then (Trim(a.status.runId), CurrentAttemptCount(a))
    else (AttemptRunId(a.spec.actionId, CurrentAttemptCount(a) + 1), CurrentAttemptCount(a) + 1)
  }

  /** failedRunTurnStatus: retry, then fall back to the next candidate, then fail. */
  function FailedRunTurnStatus(a: Action, now: int, retryable: bool, policy: RetryPolicy): ActionStatus {
    if !retryable then TerminalStatus(a, now, Failed, Permanent)
    else if a.status.retryCount < policy.maxRetries then ScheduleRetryStatus(a, now, Transient, policy)
    else if NextCandidateIndex(a).Some? then ScheduleFallbackStatus(a, now, NextCandidateIndex(a).value)
    else TerminalStatus(a, now, Failed, ManualRetry)
  }

  /** pendingRetryWindow: Some when the action has to wait for its retry time. */
  function PendingRetryWindow(a: Action, now: int): Option<ActionStatus> {
    if a.status.phase.Pending? && a.status.failureClass.Transient? && a.status.nextRetryAt.Some?
       && a.status.nextRetryAt.value > now
    then
      Some(BuildStatus(a, now, Pending, "", Transient, a.status.retryCount, a.status.attemptCount,
                       a.status.candidateIndex, a.status.nextRetryAt))
    else None
  }

  /** invalidStatus: a missing spec.action shows here as blank ids. */
  predicate IsInvalid(a: Action) {
    Trim(a.spec.actionId) == "" || Trim(a.spec.sessionId) == ""
  }
}
