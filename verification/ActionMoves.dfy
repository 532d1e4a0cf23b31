/**
 * What a reconcile can do to one action, and what every reachable action therefore keeps: its
 * attempt budget, the identity of its run, and the single active action of a session.
 */
module ActionMoves {
  import opened Wrappers
  import opened Text
  import opened RunIds
  import opened RetryPolicies
  import opened Actions
  import opened System

  /** Stored under its own valid name, with a session and a creation time. */
  predicate Named(a: Action, name: string) {
    && a.name == name && a.spec.actionId == name && ValidId(name)
    && Trim(a.spec.sessionId) != "" && a.status.createdAt.Some?
  }

  /** Run identity and counters of one action under a limit of m retries per candidate. */
  predicate Counted(a: Action, m: int) {
    var t := a.status;
    && 0 <= t.retryCount <= m && 0 <= t.attemptCount
    && 0 <= t.candidateIndex && (t.candidateIndex == 0 || t.candidateIndex < CandidateCount(a))
    && (t.attemptCount > 0 ==> t.candidateIndex < CandidateCount(a))
    && (t.runId != "" ==>
          && a.spec.kind.RunTurn? && (t.phase.Running? || IsTerminal(a))
          && t.attemptCount >= 1 && t.runId == AttemptRunId(a.name, t.attemptCount))
    && (a.spec.kind.RunTurn? && t.phase.Running? ==> t.runId != "")
  }

  ghost predicate OneActive(actions: map<string, Action>) {
    forall m, n :: m in actions && n in actions && IsActive(actions[m]) && IsActive(actions[n]) ==> m == n
  }

  ghost predicate Sound(s: State) {
    && Normalized(s.policy)
    && (forall n :: n in s.actions ==> Named(s.actions[n], n) && Counted(s.actions[n], s.policy.maxRetries))
    && OneActive(s.actions)
  }

  predicate SameCounters(a: ActionStatus, t: ActionStatus) {
    a.retryCount == t.retryCount && a.attemptCount == t.attemptCount && a.candidateIndex == t.candidateIndex
  }

  // ---- The moves ----

  /** The action goes on with its counters and its run; a retry time is kept or dropped, never moved. */
  predicate Stays(a: ActionStatus, t: ActionStatus) {
    && SameCounters(a, t) && t.runId == a.runId && !IsTerminalPhase(t.phase) && (t.runId == "" || t.phase.Running?)
    && (t.failureClass.Transient? ==>
          t.phase.Pending? && a.phase.Pending? && a.failureClass.Transient? && t.nextRetryAt == a.nextRetryAt)
  }

  /** The next attempt: a new run id, one more attempt. */
  predicate Launches(a: Action, t: ActionStatus) {
    && a.status.runId == "" && t == RunningStatus(a, 0, AttemptRunId(a.name, a.status.attemptCount + 1),
                                                  a.status.attemptCount + 1, a.status.candidateIndex)
    && a.spec.kind.RunTurn? && a.status.candidateIndex < CandidateCount(a)
  }

  /** One more retry, due after the policy's delay; the present run is let go. */
  predicate Retries(a: Action, t: ActionStatus, now: int, policy: RetryPolicy) {
    && t.phase.Pending? && t.failureClass.Transient? && t.runId == ""
    && t.retryCount == a.status.retryCount + 1 <= policy.maxRetries
    && t.attemptCount == a.status.attemptCount && t.candidateIndex == a.status.candidateIndex
    && t.nextRetryAt == Some(now + DelaySeconds(t.retryCount, policy))
  }

  /** On to the next candidate with a fresh retry budget, once the present one is spent. */
  predicate FallsBack(a: Action, t: ActionStatus, policy: RetryPolicy) {
    && t.phase.Pending? && t.failureClass.Transient? && t.runId == "" && t.nextRetryAt.None?
    && a.status.runId != "" && a.status.retryCount == policy.maxRetries && t.retryCount == 0
    && t.candidateIndex == a.status.candidateIndex + 1 < CandidateCount(a)
    && t.attemptCount == a.status.attemptCount
  }

  predicate Ends(a: ActionStatus, t: ActionStatus) {
    SameCounters(a, t) && IsTerminalPhase(t.phase) && (t.runId == a.runId || t.runId == "")
  }

  /**
   * Every status a reconcile derives for a stored action is one of five moves. Only the owner launches,
   * retries, falls back or becomes active.
   */
  predicate Moves(a: Action, t: ActionStatus, now: int, policy: RetryPolicy, owner: bool) {
    && t.createdAt == a.status.createdAt
    && (IsTerminal(a) ==> t == a.status)
    && (!IsTerminal(a) ==>
          || Stays(a.status, t) || Ends(a.status, t)
          || (owner && (Launches(a, t) || Retries(a, t, now, policy) || FallsBack(a, t, policy))))
    && (IsActive(a.(status := t)) ==> IsActive(a) || owner)
    && (a.spec.kind.RunTurn? && t.phase.Running? ==> t.runId != "")
    && (a.spec.stopRequested && !IsTerminal(a) ==>
          Stays(a.status, t) || (Ends(a.status, t) && !t.phase.Failed?))
  }

  lemma OwnerWhenActive(s: State, name: string)
    requires Sound(s) && name in s.actions && IsActive(s.actions[name])
    ensures IsOwner(s.actions, name)
  {
  }

  lemma RunIdIsTrimmed(a: Action, m: int)
    requires Named(a, a.name) && Counted(a, m)
    ensures Trim(a.status.runId) == a.status.runId
    ensures Trim("") == ""
  {
    if a.status.runId != "" { RunIdIsClean(a.name, a.status.attemptCount); }
  }

  /** The action under reconcile: stored, not ended, and with a clean run id. */
  predicate AtWork(a: Action, policy: RetryPolicy, owner: bool) {
    && Named(a, a.name) && Counted(a, policy.maxRetries) && !IsTerminal(a)
    && Trim(a.status.runId) == a.status.runId && Trim("") == ""
    && (IsActive(a) ==> owner)
  }

  lemma WorkStarts(s: State, name: string)
    requires Sound(s) && name in s.actions && !IsTerminal(s.actions[name])
    ensures AtWork(s.actions[name], s.policy, IsOwner(s.actions, name))
  {
    RunIdIsTrimmed(s.actions[name], s.policy.maxRetries);
    if IsActive(s.actions[name]) { OwnerWhenActive(s, name); }
  }

  lemma EndIsMove(a: Action, phase: Phase, c: FailureClass, now: int, policy: RetryPolicy, owner: bool)
    requires AtWork(a, policy, owner) && IsTerminalPhase(phase) && (phase.Failed? ==> !a.spec.stopRequested)
    ensures Moves(a, TerminalStatus(a, now, phase, c), now, policy, owner)
    ensures !a.spec.stopRequested ==> Moves(a, FailedStatus(a, now), now, policy, owner)
  {
  }

  lemma RetryIsMove(a: Action, exhausted: FailureClass, now: int, policy: RetryPolicy, owner: bool)
    requires AtWork(a, policy, owner) && owner && !a.spec.stopRequested
    ensures Moves(a, ScheduleRetryStatus(a, now, exhausted, policy), now, policy, owner)
  {
    var t := ScheduleRetryStatus(a, now, exhausted, policy);
    assert !IsActive(a.(status := t));
    if a.status.retryCount + 1 > policy.maxRetries { assert Ends(a.status, t); }
  }

  lemma FailedTurnIsMove(a: Action, retryable: bool, now: int, policy: RetryPolicy, owner: bool)
    requires AtWork(a, policy, owner) && owner && !a.spec.stopRequested && a.status.runId != ""
    ensures Moves(a, FailedRunTurnStatus(a, now, retryable, policy), now, policy, owner)
  {
    if !retryable {
      EndIsMove(a, Failed, Permanent, now, policy, owner);
    } else if a.status.retryCount < policy.maxRetries {
      RetryIsMove(a, Transient, now, policy, owner);
    } else if NextCandidateIndex(a).Some? {
      var t := ScheduleFallbackStatus(a, now, NextCandidateIndex(a).value);
      assert CurrentCandidateIndex(a) == a.status.candidateIndex;
      assert !IsActive(a.(status := t)) && FallsBack(a, t, policy);
    } else {
      EndIsMove(a, Failed, ManualRetry, now, policy, owner);
    }
  }

  lemma WaitIsMove(a: Action, now: int, policy: RetryPolicy, owner: bool)
    requires AtWork(a, policy, owner) && a.spec.kind.RunTurn? && a.status.runId != ""
    ensures Moves(a, RunningStatus(a, now, a.status.runId, CurrentAttemptCount(a), CurrentCandidateIndex(a)),
                  now, policy, owner)
  {
    assert CurrentCandidateIndex(a) == a.status.candidateIndex && CurrentAttemptCount(a) == a.status.attemptCount;
  }

  lemma BlockIsMove(a: Action, now: int, policy: RetryPolicy, owner: bool)
    requires AtWork(a, policy, owner) && a.status.runId == "" && !a.spec.stopRequested
    ensures Moves(a, PendingBlockedStatus(a, now), now, policy, owner)
  {
    assert Stays(a.status, PendingBlockedStatus(a, now));
  }

  lemma LaunchIsMove(a: Action, now: int, policy: RetryPolicy, owner: bool)
    requires AtWork(a, policy, owner) && a.spec.kind.RunTurn? && owner && !a.spec.stopRequested
    requires a.status.runId == "" && CurrentCandidateIndex(a) < CandidateCount(a)
    ensures var (runId, attempt) := NextRunAttempt(a);
      && runId == AttemptRunId(a.name, a.status.attemptCount + 1) && attempt == a.status.attemptCount + 1
      && Moves(a, RunningStatus(a, now, runId, attempt, CurrentCandidateIndex(a)), now, policy, owner)
      && Launches(a, RunningStatus(a, now, runId, attempt, CurrentCandidateIndex(a)))
  {
    RunIdIsClean(a.name, a.status.attemptCount + 1);
    assert CurrentAttemptCount(a) == a.status.attemptCount && CurrentCandidateIndex(a) == a.status.candidateIndex;
  }

  lemma FirstTurnMoves(s: State, a: Action, env: ActionEnv, owner: bool)
    requires AtWork(a, s.policy, owner) && a.spec.kind.RunTurn? && owner && !a.spec.stopRequested
    requires a.status.runId == ""
    ensures var d := DeriveRunTurn(s, a, env); d.status.Some? && Moves(a, d.status.value, s.now, s.policy, owner)
  {
    EndIsMove(a, Failed, Permanent, s.now, s.policy, owner);
    RetryIsMove(a, ManualRetry, s.now, s.policy, owner);
    BlockIsMove(a, s.now, s.policy, owner);
    if CurrentCandidateIndex(a) < CandidateCount(a) { LaunchIsMove(a, s.now, s.policy, owner); }
  }

  lemma FollowUpMoves(s: State, a: Action, env: ActionEnv, owner: bool)
    requires AtWork(a, s.policy, owner) && a.spec.kind.RunTurn? && owner && !a.spec.stopRequested
    requires a.status.runId != ""
    ensures var d := DeriveRunTurn(s, a, env); d.status.Some? && Moves(a, d.status.value, s.now, s.policy, owner)
  {
    EndIsMove(a, Failed, Permanent, s.now, s.policy, owner);
    RetryIsMove(a, ManualRetry, s.now, s.policy, owner);
    WaitIsMove(a, s.now, s.policy, owner);
    if env.getOk && a.status.runId in s.runs {
      var run := s.runs[a.status.runId].status;
      EndIsMove(a, Succeeded, NoClass, s.now, s.policy, owner);
      EndIsMove(a, Canceled, NoClass, s.now, s.policy, owner);
      FailedTurnIsMove(a, run.result.Some? && run.result.value.retryable, s.now, s.policy, owner);
    }
  }

  lemma StoppedMoves(s: State, a: Action, env: ActionEnv, owner: bool)
    requires AtWork(a, s.policy, owner) && a.spec.stopRequested
    ensures var d := DeriveStopped(s, a, env); d.status.Some? && Moves(a, d.status.value, s.now, s.policy, owner)
  {
    EndIsMove(a, Succeeded, NoClass, s.now, s.policy, owner);
    EndIsMove(a, Canceled, NoClass, s.now, s.policy, owner);
    if a.spec.kind.RunTurn? && a.status.runId != "" { WaitIsMove(a, s.now, s.policy, owner); }
  }

  lemma OtherMoves(s: State, a: Action, env: ActionEnv, owner: bool)
    requires AtWork(a, s.policy, owner) && !a.spec.kind.RunTurn? && owner && !a.spec.stopRequested
    ensures Moves(a, DeriveOther(s, a, env), s.now, s.policy, owner)
  {
    EndIsMove(a, Succeeded, NoClass, s.now, s.policy, owner);
    EndIsMove(a, Canceled, NoClass, s.now, s.policy, owner);
    RetryIsMove(a, Permanent, s.now, s.policy, owner);
    assert Stays(a.status, RunningStatus(a, s.now, "", a.status.attemptCount, a.status.candidateIndex));
  }

  /** The transition table holds of every reconcile of every stored action. */
  lemma DeriveMoves(s: State, name: string, env: ActionEnv)
    requires Sound(s) && name in s.actions
    ensures var d := DeriveStatus(s, s.actions[name], env);
      d.status.Some? ==> Moves(s.actions[name], d.status.value, s.now, s.policy, IsOwner(s.actions, name))
  {
    var a, owner := s.actions[name], IsOwner(s.actions, name);
    assert Trim(name) == name by { TrimProperties(name); }
    assert !IsInvalid(a);
    if !IsTerminal(a) {
      WorkStarts(s, name);
      if a.spec.stopRequested {
        StoppedMoves(s, a, env, owner);
      } else if !owner {
        BlockIsMove(a, s.now, s.policy, owner);
      } else if PendingRetryWindow(a, s.now).Some? {
        var t := PendingRetryWindow(a, s.now).value;
        assert a.status.runId == "" && Stays(a.status, t);
      } else if a.spec.kind.RunTurn? {
        if a.status.runId == "" { FirstTurnMoves(s, a, env, owner); } else { FollowUpMoves(s, a, env, owner); }
      } else if a.spec.kind.OtherType? {
        EndIsMove(a, Failed, Permanent, s.now, s.policy, owner);
      } else {
        OtherMoves(s, a, env, owner);
      }
    }
  }

  // ---- Every reachable state is sound ----

  /** New actions are given valid names and a session. */
  predicate WellNamed(e: Event) {
    e.ActionCreated? ==> ValidId(e.name) && Trim(e.sessionId) != ""
  }

  lemma CountedAfterMove(a: Action, t: ActionStatus, now: int, policy: RetryPolicy, owner: bool)
    requires Named(a, a.name) && Counted(a, policy.maxRetries) && policy.maxRetries >= 0
    requires Moves(a, t, now, policy, owner)
    ensures Counted(a.(status := t), policy.maxRetries) && Named(a.(status := t), a.name)
  {
    if Launches(a, t) {
      RunIdIsClean(a.name, a.status.attemptCount + 1);
    }
  }

  /** One action changes: the others stay, and it becomes active only in the absence of another active one. */
  lemma UpdateKeepsSound(s: State, name: string, b: Action)
    requires Sound(s) && Named(b, name) && Counted(b, s.policy.maxRetries)
    requires IsActive(b) ==> forall n :: n in s.actions && n != name ==> !IsActive(s.actions[n])
    ensures Sound(s.(actions := s.actions[name := b]))
  {
  }

  lemma OthersRest(s: State, name: string, t: ActionStatus)
    requires Sound(s) && name in s.actions
    requires Moves(s.actions[name], t, s.now, s.policy, IsOwner(s.actions, name))
    ensures IsActive(s.actions[name].(status := t)) ==> forall n :: n in s.actions && n != name ==>
      !IsActive(s.actions[n])
  {
  }

  lemma ReconcileKeepsSound(s: State, name: string, env: ActionEnv)
    requires Sound(s) && name in s.actions
    ensures Sound(ReconcileAction(s, name, env))
  {
    DeriveMoves(s, name, env);
    var a, d := s.actions[name], DeriveStatus(s, s.actions[name], env);
    if d.status.Some? {
      CountedAfterMove(a, d.status.value, s.now, s.policy, IsOwner(s.actions, name));
      OthersRest(s, name, d.status.value);
      UpdateKeepsSound(s, name, a.(status := d.status.value));
    }
  }

  /** Whatever happens, run identities and counters stay in order and at most one action is active. */
  lemma StepKeepsSound(s: State, e: Event)
    requires Sound(s) && WellNamed(e)
    ensures Sound(Apply(s, e))
  {
    match e
    case ActionReconciled(name, env) =>
      if name in s.actions { ReconcileKeepsSound(s, name, env); }
    case ActionCreated(name, sessionId, kind, candidates) =>
      if name !in s.actions { CreationKeepsSound(s, name, NewAction(name, sessionId, kind, candidates, s.now)); }
    case ActionStopped(name) =>
      if name in s.actions { StopKeepsSound(s, name); }
    case _ =>
  }

  lemma CreationKeepsSound(s: State, name: string, a: Action)
    requires Sound(s) && name !in s.actions && ValidId(name) && Trim(a.spec.sessionId) != ""
    requires a == NewAction(name, a.spec.sessionId, a.spec.kind, a.spec.candidates, s.now)
    ensures Sound(s.(actions := s.actions[name := a]))
  {
    assert Trim("") == "" && !IsActive(a);
    UpdateKeepsSound(s, name, a);
  }

  lemma StopKeepsSound(s: State, name: string)
    requires Sound(s) && name in s.actions
    ensures Sound(s.(actions := s.actions[name := StopAction(s.actions[name])]))
  {
    UpdateKeepsSound(s, name, StopAction(s.actions[name]));
  }

  /** One event and one action: nothing, a stop request, or a move. */
  predicate Steps(a: Action, b: Action, now: int, policy: RetryPolicy, owner: bool) {
    b == a || b == StopAction(a) || (b == a.(status := b.status) && Moves(a, b.status, now, policy, owner))
  }

  /** Events about another action, or none, leave an action as it is. */
  lemma OtherEventsLeaveAlone(s: State, name: string, e: Event)
    requires name in s.actions && e != ActionStopped(name) && !(e.ActionReconciled? && e.name == name)
    ensures name in Apply(s, e).actions && Apply(s, e).actions[name] == s.actions[name]
  {
  }

  lemma ActionSteps(s: State, name: string, e: Event) returns (owner: bool)
    requires Sound(s) && name in s.actions
    ensures name in Apply(s, e).actions && Apply(s, e).policy == s.policy
    ensures Steps(s.actions[name], Apply(s, e).actions[name], s.now, s.policy, owner)
    ensures e == ActionStopped(name) || Apply(s, e).actions[name].spec == s.actions[name].spec
  {
    owner := false;
    if e.ActionReconciled? && e.name == name {
      owner := IsOwner(s.actions, name);
      ReconcileSteps(s, name, e.env);
    } else if e != ActionStopped(name) {
      OtherEventsLeaveAlone(s, name, e);
    }
  }

  lemma ReconcileSteps(s: State, name: string, env: ActionEnv)
    requires Sound(s) && name in s.actions
    ensures var b := ReconcileAction(s, name, env).actions[name];
      b == s.actions[name] ||
      (b == s.actions[name].(status := b.status) && Moves(s.actions[name], b.status, s.now, s.policy,
                                                          IsOwner(s.actions, name)))
  {
    DeriveMoves(s, name, env);
  }

  /** At every moment of every history of a session, at most one of its actions is active. */
  lemma {:induction false} AtMostOneActive(s: State, events: seq<Event>)
    requires Sound(s) && forall e :: e in events ==> WellNamed(e)
    ensures Sound(Exec(s, events)) && OneActive(Exec(s, events).actions)
    decreases |events|
  {
    if events == [] {
    } else {
      StepKeepsSound(s, events[0]);
      AtMostOneActive(Apply(s, events[0]), events[1..]);
    }
  }
}
