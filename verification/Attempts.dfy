/** How attempts start and fail: which fault blocks, which spends a retry, and when an action is given up. */
module Attempts {
  import opened Wrappers
  import opened Text
  import opened RunIds
  import opened RetryPolicies
  import opened Actions
  import opened System
  import opened ActionMoves
  import opened SlotSafety
  import opened QueueSafety
  import AgentRuns

  /** The candidate in use is one of those there are, the stored one when that is among them. */
  lemma CandidateIsThere(a: Action)
    requires CandidateCount(a) > 0
    ensures 0 <= CurrentCandidateIndex(a) < CandidateCount(a)
    ensures 0 <= a.status.candidateIndex < CandidateCount(a) ==> CurrentCandidateIndex(a) == a.status.candidateIndex
  {
  }

  /** An action without an id or a session fails at once, whatever it is about. */
  lemma InvalidFails(s: State, a: Action, env: ActionEnv)
    requires Trim(a.spec.actionId) == "" || Trim(a.spec.sessionId) == ""
    ensures var d := DeriveStatus(s, a, env);
      && d.runs == s.runs && d.slot == s.slot && d.status.Some? && d.status.value.phase.Failed?
      && d.status.value.failureClass.Permanent? && SameCounters(a.status, d.status.value)
  {
  }

  lemma BuiltIdIsTrimmed(runId: string)
    ensures Trim(Trim(runId)) == Trim(runId)
  {
    TrimProperties(runId);
  }

  lemma TurnIdIsTrimmed(s: State, a: Action, env: ActionEnv)
    ensures var d := DeriveRunTurn(s, a, env); d.status.Some? ==> Trim(d.status.value.runId) == d.status.value.runId
  {
    BuiltIdIsTrimmed(a.status.runId);
    BuiltIdIsTrimmed("");
    BuiltIdIsTrimmed(Trim(a.status.runId));
    BuiltIdIsTrimmed(NextRunAttempt(a).0);
  }

  lemma StopIdIsTrimmed(s: State, a: Action, env: ActionEnv)
    ensures var d := DeriveStopped(s, a, env); d.status.Some? ==> Trim(d.status.value.runId) == d.status.value.runId
  {
    BuiltIdIsTrimmed(a.status.runId);
  }

  lemma OtherIdIsTrimmed(s: State, a: Action, env: ActionEnv)
    ensures Trim(DeriveOther(s, a, env).runId) == DeriveOther(s, a, env).runId
  {
    BuiltIdIsTrimmed(a.status.runId);
    BuiltIdIsTrimmed("");
  }

  /** Run ids are stored without white space around them, whatever was stored before. */
  lemma StoredIdIsTrimmed(s: State, a: Action, env: ActionEnv)
    ensures var d := DeriveStatus(s, a, env);
      d.status.Some? && d.status != Some(a.status) ==> Trim(d.status.value.runId) == d.status.value.runId
  {
    BuiltIdIsTrimmed("");
    if a.spec.stopRequested {
      StopIdIsTrimmed(s, a, env);
    } else if a.spec.kind.RunTurn? {
      TurnIdIsTrimmed(s, a, env);
    } else {
      OtherIdIsTrimmed(s, a, env);
    }
  }

  // ---- How an attempt starts ----

  /** Why the run of a new attempt cannot be had; None when it is made, or was made before and can be read. */
  function AttemptFault(s: State, a: Action, env: ActionEnv): Option<AgentRuns.Fault> {
    var id, c := NextRunAttempt(a).0, env.create;
    if c.claimFault.Some? then c.claimFault
    else if s.slot != "" && s.slot != id then Some(c.heldFault)
    else if !c.claimReadable || !c.specOk then Some(AgentRuns.Validation)
    else if if id in s.runs then env.reGetOk else c.createOk then None
    else Some(AgentRuns.OtherFault)
  }

  lemma AttemptFaultIs(s: State, a: Action, env: ActionEnv)
    requires CurrentCandidateIndex(a) < CandidateCount(a)
    ensures CreateOrGetRun(s, a, env).1 == AttemptFault(s, a, env)
  {
  }

  /** What becomes of an action whose attempt was to start. */
  predicate StartedAs(a: ActionStatus, b: ActionStatus, id: string, fault: Option<AgentRuns.Fault>, now: int,
                      policy: RetryPolicy)
  {
    match fault
    case None => b.phase.Running? && b.runId == id && b.attemptCount == a.attemptCount + 1
                 && b.retryCount == a.retryCount && b.candidateIndex == a.candidateIndex
    case Some(Validation) => b.phase.Pending? && b.failureClass.Blocked? && b.runId == "" && b.nextRetryAt.None?
                             && SameCounters(a, b)
    case Some(OtherFault) =>
      && b.runId == "" && b.attemptCount == a.attemptCount && b.candidateIndex == a.candidateIndex
      && if a.retryCount < policy.maxRetries
         then b.phase.Pending? && b.failureClass.Transient? && b.retryCount == a.retryCount + 1
              && b.nextRetryAt == Some(now + DelaySeconds(b.retryCount, policy))
         else b.phase.Failed? && b.failureClass.ManualRetry? && b.retryCount == policy.maxRetries
  }

  /** A validation fault blocks the action and costs nothing; any other spends a retry, and the last one is final. */
  lemma AttemptStarts(s: State, name: string, env: ActionEnv)
    requires Sound(s) && StartsAttempt(s, name, env) && env.writeOk
    ensures StartedAs(s.actions[name].status, ReconcileAction(s, name, env).actions[name].status,
                      NextRunAttempt(s.actions[name]).0, AttemptFault(s, s.actions[name], env), s.now, s.policy)
  {
    var a := s.actions[name];
    RunIdIsTrimmed(a, s.policy.maxRetries);
    RunIdIsClean(name, a.status.attemptCount + 1);
    StartIsRunTurn(s, name, env);
    AttemptFaultIs(s, a, env);
    AttemptIsDerived(s, a, env);
  }

  lemma AttemptIsDerived(s: State, a: Action, env: ActionEnv)
    requires Counted(a, s.policy.maxRetries) && a.status.runId == "" && Trim("") == ""
    requires a.spec.candidates.Some? && env.session.SessionFound? && CurrentCandidateIndex(a) < CandidateCount(a)
    requires Trim(NextRunAttempt(a).0) == NextRunAttempt(a).0 && AttemptFault(s, a, env) == CreateOrGetRun(s, a, env).1
    ensures var d := DeriveRunTurn(s, a, env);
      && d.status.Some?
      && StartedAs(a.status, d.status.value, NextRunAttempt(a).0, AttemptFault(s, a, env), s.now, s.policy)
  {
  }

  // ---- How an action fails ----

  /** A look at the run on record ends the action as FAILED: when, and whether a retry by hand is offered. */
  lemma TurnFailsAs(s: State, a: Action, env: ActionEnv)
    requires Named(a, a.name) && Counted(a, s.policy.maxRetries) && !IsTerminal(a) && a.status.runId != ""
    ensures var d := DeriveRunTurn(s, a, env);
      var over := env.session.SessionFound? && env.getOk && a.status.runId in s.runs
                  && s.runs[a.status.runId].status.phase.Failed?;
      var spent := a.status.retryCount == s.policy.maxRetries;
      && d.status.Some?
      && (d.status.value.phase.Failed? <==>
            || env.session.SessionMissing? || (CallsFail(s, a, env) && spent)
            || (over && !(FailedRetryably(s, a, env) && (!spent || NextCandidateIndex(a).Some?))))
      && (d.status.value.phase.Failed? ==>
            d.status.value.failureClass == if CallsFail(s, a, env) || FailedRetryably(s, a, env) then ManualRetry
                                           else Permanent)
      && (FailedRetryably(s, a, env) && spent && NextCandidateIndex(a).Some? ==>
            && d.status.value.candidateIndex == a.status.candidateIndex + 1 && d.status.value.retryCount == 0
            && d.status.value.phase.Pending?)
  {
    RunIdIsTrimmed(a, s.policy.maxRetries);
    if a.status.runId !in s.runs { RecreatesIff(s, a, env); }
  }

  /** How a reset or reload goes: each outcome has its end, its retry or its wait. */
  lemma OtherGoesAs(s: State, name: string, env: ActionEnv)
    requires Sound(s) && name in s.actions && !IsTerminal(s.actions[name]) && !s.actions[name].spec.stopRequested
    requires env.listOk && env.writeOk && IsOwner(s.actions, name) && !RetryIsAhead(s.actions[name], s.now)
    requires s.actions[name].spec.kind.ResetWarmState? || s.actions[name].spec.kind.ReloadSubject?
    ensures var a, t := s.actions[name].status, ReconcileAction(s, name, env);
      var b := t.actions[name].status;
      && t.runs == s.runs && t.slot == s.slot && b.runId == "" && b.attemptCount == a.attemptCount
      && match env.other
         case OtherFails => b.phase.Failed? && b.failureClass.Permanent?
         case OtherCancels => b.phase.Canceled?
         case OtherSucceeds => b.phase.Succeeded?
         case OtherRuns => b.phase.Running? && SameCounters(a, b)
         case OtherRetries =>
           if a.retryCount < s.policy.maxRetries
           then b.phase.Pending? && b.failureClass.Transient? && b.retryCount == a.retryCount + 1
           else b.phase.Failed? && b.failureClass.Permanent?
  {
    TrimProperties(name);
    TrimProperties("");
  }

  // ---- What the failure class says ----

  /** A failed action is given up for good or left to a retry by hand; one that goes on or ended well has no class. */
  predicate ClassFits(t: ActionStatus) {
    match t.phase
    case Pending => t.failureClass.Blocked? || t.failureClass.Transient?
    case Failed => t.failureClass.Permanent? || t.failureClass.ManualRetry?
    case _ => t.failureClass.NoClass?
  }

  ghost predicate ClassesFit(s: State) {
    forall n :: n in s.actions ==> ClassFits(s.actions[n].status)
  }

  lemma RetryClassFits(a: Action, now: int, exhausted: FailureClass, policy: RetryPolicy)
    requires exhausted.Permanent? || exhausted.ManualRetry? || a.status.retryCount < policy.maxRetries
    ensures ClassFits(ScheduleRetryStatus(a, now, exhausted, policy))
  {
  }

  lemma FailedClassFits(a: Action, now: int, retryable: bool, policy: RetryPolicy)
    ensures ClassFits(FailedRunTurnStatus(a, now, retryable, policy))
  {
    if a.status.retryCount < policy.maxRetries { RetryClassFits(a, now, Transient, policy); }
  }

  lemma TurnClassFits(s: State, a: Action, env: ActionEnv)
    ensures var d := DeriveRunTurn(s, a, env); d.status.Some? ==> ClassFits(d.status.value)
  {
    RetryClassFits(a, s.now, ManualRetry, s.policy);
    FailedClassFits(a, s.now, true, s.policy);
    FailedClassFits(a, s.now, false, s.policy);
  }

  lemma StopClassFits(s: State, a: Action, env: ActionEnv)
    ensures var d := DeriveStopped(s, a, env); d.status.Some? ==> ClassFits(d.status.value)
  {
  }

  lemma OtherClassFits(s: State, a: Action, env: ActionEnv)
    ensures ClassFits(DeriveOther(s, a, env))
  {
  }

  lemma DerivedClassFits(s: State, a: Action, env: ActionEnv)
    requires ClassFits(a.status)
    ensures var d := DeriveStatus(s, a, env); d.status.Some? ==> ClassFits(d.status.value)
  {
    if a.spec.stopRequested {
      StopClassFits(s, a, env);
    } else if a.spec.kind.RunTurn? {
      TurnClassFits(s, a, env);
    } else {
      OtherClassFits(s, a, env);
    }
  }

  lemma StepKeepsClasses(s: State, e: Event)
    requires ClassesFit(s)
    ensures ClassesFit(Apply(s, e))
  {
    if e.ActionReconciled? && e.name in s.actions { DerivedClassFits(s, s.actions[e.name], e.env); }
  }

  /** Along every history, whatever the actions are called, phase and failure class fit together. */
  lemma {:induction false} ClassesAlwaysFit(s: State, events: seq<Event>)
    requires ClassesFit(s)
    ensures ClassesFit(Exec(s, events))
    decreases |events|
  {
    if events == [] {
    } else {
      StepKeepsClasses(s, events[0]);
      ClassesAlwaysFit(Apply(s, events[0]), events[1..]);
    }
  }
}
