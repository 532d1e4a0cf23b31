/** When calls stop failing: a turn runs to its end and leaves the session free, and a stop completes. */
module Progress {
  import opened Wrappers
  import opened Text
  import opened RunIds
  import opened RetryPolicies
  import opened Actions
  import opened System
  import opened ActionMoves
  import opened SlotSafety
  import opened QueueSafety
  import StuckStops
  import AgentRuns

  // ---- One run ----

  /** A run that nobody cancels or deletes. */
  predicate OnCourse(r: Run) {
    AgentRuns.WellFormed(r) && r.validSpec && !r.deleting && !r.cancelRequested
  }

  /** Every call succeeds, and the workflow is over. */
  predicate Smooth(env: AgentRuns.RunEnv) {
    && env.finalizerOk && env.submit.Some? && Trim(env.submit.value) != ""
    && env.cleanupOk && env.writeOk && env.releaseOk
    && env.workflow.WorkflowIs? && AgentRuns.IsTerminalWorkflow(env.workflow.phase)
  }

  /** The workflow is not seen to be over; calls may fail or not. */
  predicate Polls(env: AgentRuns.RunEnv) {
    env.workflow.WorkflowIs? ==> !AgentRuns.IsTerminalWorkflow(env.workflow.phase)
  }

  function PhaseOf(phase: AgentRuns.WorkflowPhase): AgentRuns.RunPhase {
    match phase
    case WfRunning => AgentRuns.Running
    case WfSucceeded => AgentRuns.Succeeded
    case WfFailed => AgentRuns.Failed
    case WfCanceled => AgentRuns.Canceled
    case WfOther => AgentRuns.Scheduled
  }

  /** How many smooth reconciles a run is from its end: queued, pending, submitted. */
  function Stage(r: Run): nat {
    if !AgentRuns.IsLive(r) then 0
    else if r.status.phase.Unset? then 3
    else if Trim(r.status.workloadId) == "" then 2
    else 1
  }

  lemma PollKeepsRun(r: Run, env: AgentRuns.RunEnv)
    requires OnCourse(r) && AgentRuns.IsLive(r) && Polls(env)
    ensures var s := AgentRuns.Reconcile(r, env);
      && s.run.Some? && OnCourse(s.run.value) && AgentRuns.IsLive(s.run.value) && !s.releases && !s.released
      && s.run.value.status.result == r.status.result
  {
    AgentRuns.ReconcileIsProper(r, env);
  }

  lemma SmoothBrings(r: Run, env: AgentRuns.RunEnv)
    requires OnCourse(r) && Smooth(env)
    ensures var s := AgentRuns.Reconcile(r, env);
      && s.run.Some? && OnCourse(s.run.value) && s.run.value.status.result == r.status.result
      && Stage(s.run.value) == (if Stage(r) == 0 then 0 else Stage(r) - 1)
      && (s.submits <==> Stage(r) == 2) && (s.releases <==> Stage(r) == 1) && (s.released <==> Stage(r) == 1)
      && (if Stage(r) == 1 then s.run.value.status.phase == PhaseOf(env.workflow.phase)
          else Stage(r) == 0 ==> s.run.value.status == r.status)
  {
    if AgentRuns.IsLive(r) { SmoothLive(r.(finalizer := true), env); } else { AgentRuns.ReconcileIsProper(r, env); }
  }

  lemma SmoothLive(r: Run, env: AgentRuns.RunEnv)
    requires OnCourse(r) && AgentRuns.IsLive(r) && Smooth(env)
    ensures var s := AgentRuns.ReconcileActive(r, env);
      && s.run.Some? && OnCourse(s.run.value) && s.run.value.status.result == r.status.result
      && Stage(s.run.value) == Stage(r) - 1
      && (s.submits <==> Stage(r) == 2) && (s.releases <==> Stage(r) == 1) && (s.released <==> Stage(r) == 1)
      && (Stage(r) == 1 ==> s.run.value.status.phase == PhaseOf(env.workflow.phase))
  {
    assert Trim("") == "";
    if Stage(r) == 3 {
      var next := AgentRuns.PhaseStatus(r, AgentRuns.Pending, "");
      assert AgentRuns.ReconcileActive(r, env) == AgentRuns.UpdateObserved(r, next, env);
    } else if Stage(r) == 2 {
      assert AgentRuns.ReconcileActive(r, env) == AgentRuns.SubmitRun(r, env);
    } else {
      var next := AgentRuns.ObservedWorkflowStatus(r, Trim(r.status.workloadId), env.workflow.phase);
      assert AgentRuns.ReconcileActive(r, env) == AgentRuns.UpdateObserved(r, next, env);
    }
  }

  /**
   * Whatever a run has been through, three smooth reconciles end it as its workflow ended, releasing and
   * announcing once.
   */
  lemma RunCompletes(l: AgentRuns.Life, e0: AgentRuns.RunEnv, e1: AgentRuns.RunEnv, e2: AgentRuns.RunEnv)
    requires AgentRuns.LifeInvariant(l) && l.run.Some? && OnCourse(l.run.value) && AgentRuns.IsLive(l.run.value)
    requires Smooth(e0) && Smooth(e1) && Smooth(e2) && e0.workflow == e1.workflow == e2.workflow
    ensures var m := AgentRuns.LiveThrough(l, [AgentRuns.Reconciled(e0), AgentRuns.Reconciled(e1),
                                               AgentRuns.Reconciled(e2)]);
      && m.run.Some? && m.run.value.status.phase == PhaseOf(e2.workflow.phase)
      && m.done.releases == l.done.releases + 1 == 1 && m.done.finished == l.done.finished + 1 == 1
      && m.done.submits == l.done.submits + if Stage(l.run.value) >= 2 then 1 else 0
  {
    var f0, f1, f2 := AgentRuns.Reconciled(e0), AgentRuns.Reconciled(e1), AgentRuns.Reconciled(e2);
    var l1 := AgentRuns.Live1(l, f0);
    SmoothBrings(l.run.value, e0);
    var l2 := AgentRuns.Live1(l1, f1);
    SmoothBrings(l1.run.value, e1);
    SmoothBrings(l2.run.value, e2);
    assert [f0, f1, f2][1..] == [f1, f2] && [f1, f2][1..] == [f2] && [f2][1..] == [];
    assert AgentRuns.LiveThrough(l2, [f2]) == AgentRuns.LiveThrough(AgentRuns.Live1(l2, f2), []);
    assert AgentRuns.LiveThrough(l1, [f1, f2]) == AgentRuns.LiveThrough(l2, [f2]);
  }

  // ---- One turn of a session ----

  predicate SmoothCreate(env: AgentRuns.CreateEnv) {
    env.Claims() && env.specOk && env.createOk && env.validRun
  }

  /** The launch: the run is there, it holds the slot, and the action says so. */
  lemma Launch(s: State, name: string, env: ActionEnv)
    requires InOrder(s) && StartsAttempt(s, name, env) && s.slot == "" && SmoothCreate(env.create) && env.writeOk
    ensures var a := s.actions[name];
      var id := AttemptRunId(name, a.status.attemptCount + 1);
      var t := RunningStatus(a, s.now, id, a.status.attemptCount + 1, a.status.candidateIndex);
      Apply(s, ActionReconciled(name, env)) == s.(
        runs := s.runs[id := AgentRuns.FreshRun(id, a.spec.sessionId, true)], slot := id,
        actions := s.actions[name := a.(status := t)])
  {
    var a := s.actions[name];
    NextAttemptIsNew(s, name, env);
    RunIdIsTrimmed(a, s.policy.maxRetries);
    WorkStarts(s, name);
    LaunchIsMove(a, s.now, s.policy, true);
    StartIsRunTurn(s, name, env);
  }

  /** The action waits for the end of its run. */
  predicate Awaits(s: State, name: string, id: string) {
    && name in s.actions && s.actions[name].status.phase.Running? && s.actions[name].status.runId == id != ""
    && s.actions[name].spec.kind.RunTurn? && s.actions[name].spec.candidates.Some?
    && !s.actions[name].spec.stopRequested
    && id in s.runs && OnCourse(s.runs[id])
  }

  /** The session while a turn runs. */
  ghost predicate Underway(s: State, name: string, id: string) {
    InOrder(s) && Awaits(s, name, id) && AgentRuns.IsLive(s.runs[id])
  }

  /**
   * What may happen meanwhile, any number of times: polls of the run, looks at the action, a published result,
   * time.
   */
  predicate Meanwhile(e: Event, name: string, id: string) {
    match e
    case RunReconciled(runId, env) => runId == id && Polls(env)
    case ActionReconciled(n, env) => n == name && env.session.SessionFound? && env.getOk
    case RunResultPublished(runId, _) => runId == id
    case SessionObserved(_) => true
    case TimePassed(_) => true
    case _ => false
  }

  lemma StaysInOrder(s: State, e: Event)
    requires InOrder(s) && WellNamed(e) && !e.SessionFailed?
    requires e.ActionReconciled? ==> e.env.writeOk || !StartsAttempt(s, e.name, e.env)
    ensures InOrder(Apply(s, e))
  {
    StepKeepsOrder(s, e);
  }

  lemma NoSecondStart(s: State, name: string, env: ActionEnv)
    requires Sound(s) && name in s.actions && s.actions[name].status.runId != ""
    ensures !StartsAttempt(s, name, env)
  {
    RunIdIsTrimmed(s.actions[name], s.policy.maxRetries);
  }

  /** An action that waits for its run is derived by looking at it. */
  lemma LooksAtRun(s: State, name: string, id: string, env: ActionEnv)
    requires Sound(s) && Awaits(s, name, id)
    ensures Trim(id) == id && !IsTerminal(s.actions[name])
    ensures env.listOk ==> DeriveStatus(s, s.actions[name], env) == DeriveRunTurn(s, s.actions[name], env)
    ensures !env.listOk ==> DeriveStatus(s, s.actions[name], env) == Derived(s.runs, s.slot, None)
  {
    RunIdIsTrimmed(s.actions[name], s.policy.maxRetries);
    TrimProperties(name);
    OwnerWhenActive(s, name);
  }

  lemma LookKeepsAwaiting(s: State, name: string, id: string, env: ActionEnv)
    requires Sound(s) && Awaits(s, name, id) && AgentRuns.IsLive(s.runs[id]) && env.session.SessionFound? && env.getOk
    ensures var t := ReconcileAction(s, name, env); Awaits(t, name, id) && t.runs == s.runs
  {
    LooksAtRun(s, name, id, env);
    if env.listOk { LookSeesRunning(s, name, id, env); }
  }

  lemma LookSeesRunning(s: State, name: string, id: string, env: ActionEnv)
    requires Awaits(s, name, id) && AgentRuns.IsLive(s.runs[id]) && env.session.SessionFound? && env.getOk
    requires Trim(id) == id
    ensures var a, d := s.actions[name], DeriveRunTurn(s, s.actions[name], env);
      && d.runs == s.runs && d.slot == s.slot
      && d.status == Some(RunningStatus(a, s.now, id, CurrentAttemptCount(a), CurrentCandidateIndex(a)))
  {
  }

  lemma MeanwhileKeepsTurn(s: State, name: string, id: string, e: Event)
    requires Underway(s, name, id) && Meanwhile(e, name, id)
    ensures Underway(Apply(s, e), name, id)
  {
    NoSecondStart(s, name, if e.ActionReconciled? then e.env else StuckStops.QuietEnv());
    StaysInOrder(s, e);
    match e
    case RunReconciled(_, env) => PollKeepsRun(s.runs[id], env);
    case ActionReconciled(_, env) => LookKeepsAwaiting(s, name, id, env);
    case _ =>
  }

  lemma {:induction false} AllMeanwhile(s: State, name: string, id: string, events: seq<Event>)
    requires Underway(s, name, id) && forall e :: e in events ==> Meanwhile(e, name, id)
    ensures Underway(Exec(s, events), name, id)
    decreases |events|
  {
    if events == [] {
    } else {
      MeanwhileKeepsTurn(s, name, id, events[0]);
      AllMeanwhile(Apply(s, events[0]), name, id, events[1..]);
    }
  }

  /** At most k smooth reconciles before the end of the run; at its end the slot is free. */
  ghost predicate Closing(s: State, name: string, id: string, k: nat, phase: AgentRuns.WorkflowPhase) {
    && InOrder(s) && Awaits(s, name, id) && Stage(s.runs[id]) <= k
    && (!AgentRuns.IsLive(s.runs[id]) ==> s.slot == "" && s.runs[id].status.phase == PhaseOf(phase))
  }

  lemma SmoothCloses(s: State, name: string, id: string, k: nat, env: AgentRuns.RunEnv)
    requires Smooth(env) && Closing(s, name, id, k, env.workflow.phase)
    ensures Closing(Apply(s, RunReconciled(id, env)), name, id, if k == 0 then 0 else k - 1, env.workflow.phase)
  {
    SmoothBrings(s.runs[id], env);
    StaysInOrder(s, RunReconciled(id, env));
  }

  lemma Closes(s: State, name: string, id: string, e0: AgentRuns.RunEnv, e1: AgentRuns.RunEnv, e2: AgentRuns.RunEnv)
    requires Underway(s, name, id)
    requires Smooth(e0) && Smooth(e1) && Smooth(e2) && e0.workflow == e1.workflow == e2.workflow
    ensures Closing(Exec(s, [RunReconciled(id, e0), RunReconciled(id, e1), RunReconciled(id, e2)]), name, id, 0,
                    e2.workflow.phase)
  {
    var f0, f1, f2 := RunReconciled(id, e0), RunReconciled(id, e1), RunReconciled(id, e2);
    SmoothCloses(s, name, id, 3, e0);
    SmoothCloses(Apply(s, f0), name, id, 2, e1);
    SmoothCloses(Apply(Apply(s, f0), f1), name, id, 1, e2);
    StuckStops.ExecThree(s, f0, f1, f2);
  }

  /** How an action ends when its run did: a failed run is followed up as its result and the budgets allow. */
  predicate Settles(a: Action, run: AgentRuns.RunStatus, policy: RetryPolicy, t: ActionStatus) {
    match run.phase
    case Succeeded => t.phase.Succeeded?
    case Canceled => t.phase.Canceled?
    case Failed =>
      if run.result.Some? && run.result.value.retryable
         && (a.status.retryCount < policy.maxRetries || NextCandidateIndex(a).Some?)
      then t.phase.Pending? && t.failureClass.Transient? && t.runId == ""
      else t.phase.Failed?
    case _ => false
  }

  lemma Settle(s: State, name: string, id: string, env: ActionEnv)
    requires Sound(s) && Awaits(s, name, id) && !AgentRuns.IsLive(s.runs[id])
    requires env.listOk && env.session.SessionFound? && env.getOk && env.writeOk
    ensures var t := Apply(s, ActionReconciled(name, env));
      && t.slot == s.slot && t.runs == s.runs && name in t.actions
      && Settles(s.actions[name], s.runs[id].status, s.policy, t.actions[name].status)
  {
    LooksAtRun(s, name, id, env);
    SettledStatus(s, name, id, env);
  }

  lemma SettledStatus(s: State, name: string, id: string, env: ActionEnv)
    requires Awaits(s, name, id) && !AgentRuns.IsLive(s.runs[id]) && env.session.SessionFound? && env.getOk
    requires Trim(id) == id
    ensures var d := DeriveRunTurn(s, s.actions[name], env);
      && d.runs == s.runs && d.slot == s.slot && d.status.Some?
      && Settles(s.actions[name], s.runs[id].status, s.policy, d.status.value)
  {
    assert Trim("") == "";
  }

  /**
   * What a turn meets: a launch that is recorded, whatever happens meanwhile, three smooth reconciles of the run once
   * its workflow is over, and a look at it.
   */
  datatype Course = Course(first: ActionEnv, events: seq<Event>, e0: AgentRuns.RunEnv, e1: AgentRuns.RunEnv,
                           e2: AgentRuns.RunEnv, last: ActionEnv)

  predicate SmoothCourse(c: Course, name: string, id: string) {
    && c.first.listOk && c.first.session.SessionFound? && SmoothCreate(c.first.create) && c.first.writeOk
    && (forall e :: e in c.events ==> Meanwhile(e, name, id))
    && Smooth(c.e0) && Smooth(c.e1) && Smooth(c.e2) && c.e0.workflow == c.e1.workflow == c.e2.workflow
    && c.last.listOk && c.last.session.SessionFound? && c.last.getOk && c.last.writeOk
  }

  /** The session when the run is over, and after the last look. */
  ghost function RunOver(s: State, name: string, id: string, c: Course): State {
    Exec(Exec(Apply(s, ActionReconciled(name, c.first)), c.events),
         [RunReconciled(id, c.e0), RunReconciled(id, c.e1), RunReconciled(id, c.e2)])
  }

  ghost function TurnOver(s: State, name: string, id: string, c: Course): State {
    Apply(RunOver(s, name, id, c), ActionReconciled(name, c.last))
  }

  /** The run ended as its workflow did, the action is settled accordingly, and the slot is free. */
  ghost predicate Completed(u: State, t: State, name: string, id: string, phase: AgentRuns.WorkflowPhase,
                            policy: RetryPolicy) {
    && InOrder(t) && t.slot == "" && name in u.actions && name in t.actions
    && id in t.runs && t.runs[id].status.phase == PhaseOf(phase)
    && Settles(u.actions[name], t.runs[id].status, policy, t.actions[name].status)
  }

  ghost predicate Completes(s: State, name: string, id: string, c: Course)
    requires c.e2.workflow.WorkflowIs?
  {
    Completed(RunOver(s, name, id, c), TurnOver(s, name, id, c), name, id, c.e2.workflow.phase, s.policy)
  }

  /** From any state in order with a free slot, the owner's turn completes. */
  lemma TurnCompletes(s: State, name: string, c: Course)
    requires InOrder(s) && s.slot == "" && StartsAttempt(s, name, c.first)
    requires SmoothCourse(c, name, AttemptRunId(name, s.actions[name].status.attemptCount + 1))
    ensures Completes(s, name, AttemptRunId(name, s.actions[name].status.attemptCount + 1), c)
  {
    var id := AttemptRunId(name, s.actions[name].status.attemptCount + 1);
    var s1 := Apply(s, ActionReconciled(name, c.first));
    Launch(s, name, c.first);
    RunIdIsClean(name, s.actions[name].status.attemptCount + 1);
    StaysInOrder(s, ActionReconciled(name, c.first));
    AllMeanwhile(s1, name, id, c.events);
    var s2 := Exec(s1, c.events);
    Closes(s2, name, id, c.e0, c.e1, c.e2);
    var u := RunOver(s, name, id, c);
    PolicyIsFixed(s1, c.events);
    PolicyIsFixed(s2, [RunReconciled(id, c.e0), RunReconciled(id, c.e1), RunReconciled(id, c.e2)]);
    Settle(u, name, id, c.last);
    NoSecondStart(u, name, c.last);
    StaysInOrder(u, ActionReconciled(name, c.last));
  }

  lemma {:induction false} PolicyIsFixed(s: State, events: seq<Event>)
    ensures Exec(s, events).policy == s.policy
    decreases |events|
  {
    if events == [] {
    } else {
      PolicyIsFixed(Apply(s, events[0]), events[1..]);
    }
  }

  // ---- One retry ----

  /** The run of the action has failed, may be tried again, and there is a retry left; nothing is in the way of it. */
  ghost predicate ToBeRetried(s: State, name: string, env: ActionEnv) {
    && InOrder(s) && s.slot == "" && name in s.actions && !BehindAnother(s.actions, name)
    && var a := s.actions[name];
    && !IsTerminal(a) && !a.spec.stopRequested && a.spec.kind.RunTurn? && a.spec.candidates.Some?
    && a.status.runId != "" && FailedRetryably(s, a, env) && a.status.retryCount < s.policy.maxRetries
    && env.listOk && env.writeOk
  }

  /** This is how a turn leaves its session whose workflow failed, with a result that says to try again. */
  lemma FailedTurnIsToBeRetried(s: State, name: string, id: string, env: ActionEnv)
    requires Closing(s, name, id, 0, AgentRuns.WfFailed) && !BehindAnother(s.actions, name)
    requires s.runs[id].status.result.Some? && s.runs[id].status.result.value.retryable
    requires s.actions[name].status.retryCount < s.policy.maxRetries
    requires env.listOk && env.writeOk && env.session.SessionFound? && env.getOk
    ensures ToBeRetried(s, name, env)
  {
  }

  lemma RetryIsDerived(s: State, a: Action, env: ActionEnv)
    requires FailedRetryably(s, a, env) && a.status.retryCount < s.policy.maxRetries && a.spec.candidates.Some?
    requires Trim(a.status.runId) == a.status.runId != ""
    ensures DeriveRunTurn(s, a, env) == OnlyStatus(s, ScheduleRetryStatus(a, s.now, Transient, s.policy))
  {
  }

  lemma RetryStatusWaits(a: Action, now: int, policy: RetryPolicy)
    requires a.status.retryCount < policy.maxRetries && !a.spec.stopRequested && a.status.createdAt.Some?
    ensures var b := a.(status := ScheduleRetryStatus(a, now, Transient, policy));
      && !IsActive(b) && !IsTerminal(b) && b.status.createdAt == a.status.createdAt
      && Waiting(b, now + DelaySeconds(a.status.retryCount + 1, policy))
      && b.status.attemptCount == a.status.attemptCount && b.status.candidateIndex == a.status.candidateIndex
  {
    TrimProperties("");
  }

  /** The session with the next attempt of the action put off by the delay of the policy. */
  function Retried(s: State, name: string): State
    requires name in s.actions
  {
    var a := s.actions[name];
    s.(actions := s.actions[name := a.(status := ScheduleRetryStatus(a, s.now, Transient, s.policy))])
  }

  lemma RetryWaits(s: State, name: string, env: ActionEnv)
    requires ToBeRetried(s, name, env)
    ensures Apply(s, ActionReconciled(name, env)) == Retried(s, name) && InOrder(Retried(s, name))
  {
    RunIdIsTrimmed(s.actions[name], s.policy.maxRetries);
    ActiveIsDerived(s, name, env);
    RetryIsDerived(s, s.actions[name], env);
    NoSecondStart(s, name, env);
    StaysInOrder(s, ActionReconciled(name, env));
  }

  lemma StillFirst(s: State, name: string, b: Action)
    requires Sound(s) && name in s.actions && IsActive(s.actions[name]) && !BehindAnother(s.actions, name)
    requires b.name == name && b.status.createdAt == s.actions[name].status.createdAt
    requires !IsTerminal(b) && !IsActive(b)
    ensures IsOwner(s.actions[name := b], name)
  {
    forall n | n in s.actions && n != name ensures !IsActive(s.actions[n]) {}
    OwnWhenWaiting(s.actions, name, b);
  }

  lemma DueStarts(t: State, name: string, env: ActionEnv)
    requires name in t.actions && Trim(name) == name != "" && Named(t.actions[name], name) && IsOwner(t.actions, name)
    requires t.actions[name].status.nextRetryAt.Some? && t.actions[name].status.nextRetryAt.value <= t.now
    requires var a := t.actions[name];
      && Waiting(a, a.status.nextRetryAt.value) && a.spec.kind.RunTurn? && a.spec.candidates.Some?
      && 0 <= a.status.candidateIndex < CandidateCount(a)
    requires env.listOk && env.session.SessionFound?
    ensures StartsAttempt(t, name, env)
  {
    TrimProperties("");
  }

  /** An action that was active and now waits, until a time that has come, can start. */
  lemma WaitedStarts(s: State, name: string, b: Action, now: int, env: ActionEnv)
    requires Sound(s) && name in s.actions && IsActive(s.actions[name]) && !BehindAnother(s.actions, name)
    requires Named(b, name) && b.status.createdAt == s.actions[name].status.createdAt && !IsActive(b)
    requires b.status.nextRetryAt.Some? && Waiting(b, b.status.nextRetryAt.value) && b.status.nextRetryAt.value <= now
    requires b.spec.kind.RunTurn? && b.spec.candidates.Some? && 0 <= b.status.candidateIndex < CandidateCount(b)
    requires env.listOk && env.session.SessionFound?
    ensures StartsAttempt(s.(actions := s.actions[name := b], now := now), name, env)
  {
    StillFirst(s, name, b);
    TrimProperties(name);
    DueStarts(s.(actions := s.actions[name := b], now := now), name, env);
  }

  /** Nothing keeps the action from its next attempt, once calls go through. */
  ghost predicate CanStart(s: State, name: string) {
    forall env: ActionEnv :: env.listOk && env.session.SessionFound? ==> StartsAttempt(s, name, env)
  }

  lemma RetryStarts(s: State, name: string, wait: nat)
    requires Sound(s) && name in s.actions && IsActive(s.actions[name]) && !BehindAnother(s.actions, name)
    requires var a := s.actions[name];
      && !a.spec.stopRequested && a.spec.kind.RunTurn? && a.spec.candidates.Some? && a.status.runId != ""
      && a.status.retryCount < s.policy.maxRetries && wait >= DelaySeconds(a.status.retryCount + 1, s.policy)
    ensures CanStart(Apply(Retried(s, name), TimePassed(wait)), name)
  {
    var b := Retried(s, name).actions[name];
    RetryStatusWaits(s.actions[name], s.now, s.policy);
    WaitedCanStart(s, name, b, s.now + wait);
  }

  lemma WaitedCanStart(s: State, name: string, b: Action, now: int)
    requires Sound(s) && name in s.actions && IsActive(s.actions[name]) && !BehindAnother(s.actions, name)
    requires Named(b, name) && b.status.createdAt == s.actions[name].status.createdAt && !IsActive(b)
    requires b.status.nextRetryAt.Some? && Waiting(b, b.status.nextRetryAt.value) && b.status.nextRetryAt.value <= now
    requires b.spec.kind.RunTurn? && b.spec.candidates.Some? && 0 <= b.status.candidateIndex < CandidateCount(b)
    ensures CanStart(s.(actions := s.actions[name := b], now := now), name)
  {
    forall env: ActionEnv | env.listOk && env.session.SessionFound?
      ensures StartsAttempt(s.(actions := s.actions[name := b], now := now), name, env)
    {
      WaitedStarts(s, name, b, now, env);
    }
  }

  lemma RetryRests(s: State, name: string, wait: nat)
    requires name in s.actions
    requires var a := s.actions[name];
      && !a.spec.stopRequested && a.status.createdAt.Some? && a.status.retryCount < s.policy.maxRetries
      && wait < DelaySeconds(a.status.retryCount + 1, s.policy)
    ensures AtRest(Apply(Retried(s, name), TimePassed(wait)), name)
  {
    RetryStatusWaits(s.actions[name], s.now, s.policy);
    WaitingRests(Apply(Retried(s, name), TimePassed(wait)), name,
                 s.now + DelaySeconds(s.actions[name].status.retryCount + 1, s.policy));
  }

  lemma TimeKeepsOrder(s: State, seconds: nat)
    requires InOrder(s)
    ensures InOrder(Apply(s, TimePassed(seconds)))
  {
    StaysInOrder(s, TimePassed(seconds));
  }

  /**
   * The next attempt after a retry can be made from its due time on and not before: it waits for the delay of the
   * policy and no longer. Retried is what the retry leaves, as RetryWaits says.
   */
  lemma RetryStartsIff(s: State, name: string, retry: ActionEnv, wait: nat)
    requires ToBeRetried(s, name, retry)
    ensures var t := Apply(Retried(s, name), TimePassed(wait));
      if wait >= DelaySeconds(s.actions[name].status.retryCount + 1, s.policy) then CanStart(t, name)
      else AtRest(t, name)
  {
    RunIdIsTrimmed(s.actions[name], s.policy.maxRetries);
    if wait >= DelaySeconds(s.actions[name].status.retryCount + 1, s.policy) {
      RetryStarts(s, name, wait);
    } else {
      RetryRests(s, name, wait);
    }
  }

  lemma RetriedInOrder(s: State, name: string, retry: ActionEnv, wait: nat)
    requires ToBeRetried(s, name, retry)
    ensures InOrder(Apply(Retried(s, name), TimePassed(wait)))
  {
    RetryWaits(s, name, retry);
    TimeKeepsOrder(Retried(s, name), wait);
  }

  lemma StartCompletes(s: State, name: string, k: int, c: Course)
    requires InOrder(s) && s.slot == "" && CanStart(s, name) && SmoothCourse(c, name, AttemptRunId(name, k))
    requires name in s.actions && s.actions[name].status.attemptCount + 1 == k
    ensures Completes(s, name, AttemptRunId(name, k), c)
  {
    assert StartsAttempt(s, name, c.first);
    TurnCompletes(s, name, c);
  }

  lemma RetriedSame(s: State, name: string, wait: nat)
    requires name in s.actions && s.actions[name].status.retryCount < s.policy.maxRetries
    ensures var t := Apply(Retried(s, name), TimePassed(wait));
      && t.slot == s.slot && name in t.actions
      && t.actions[name].status.attemptCount == s.actions[name].status.attemptCount
  {
  }

  /** So once the wait is over the retried turn completes, with one attempt more. */
  lemma RetryCompletes(s: State, name: string, retry: ActionEnv, wait: nat, c: Course)
    requires ToBeRetried(s, name, retry)
    requires wait >= DelaySeconds(s.actions[name].status.retryCount + 1, s.policy)
    requires SmoothCourse(c, name, AttemptRunId(name, s.actions[name].status.attemptCount + 1))
    ensures Completes(Apply(Retried(s, name), TimePassed(wait)), name,
                      AttemptRunId(name, s.actions[name].status.attemptCount + 1), c)
  {
    RetryStartsIff(s, name, retry, wait);
    RetriedInOrder(s, name, retry, wait);
    RetriedSame(s, name, wait);
    StartCompletes(Apply(Retried(s, name), TimePassed(wait)), name, s.actions[name].status.attemptCount + 1, c);
  }

  // ---- One stop ----

  /** A stopped action whose run is not under deletion, and is canceled unless it is over. */
  ghost predicate Canceling(s: State, name: string, id: string) {
    && InOrder(s) && StuckStops.Stopping(s, name) && s.actions[name].status.runId == id
    && id in s.runs && !s.runs[id].deleting && (AgentRuns.IsLive(s.runs[id]) ==> s.runs[id].cancelRequested)
  }

  /** The cancellation goes through, and the workflow is over or gone. */
  predicate Cancels(env: AgentRuns.RunEnv) {
    && env.finalizerOk && env.cleanupOk && env.writeOk && env.releaseOk && !env.cancel.CallError?
    && (env.workflow.WorkflowNotFound? ||
        (env.workflow.WorkflowIs? && AgentRuns.IsTerminalWorkflow(env.workflow.phase)))
  }

  lemma StopPassesOn(s: State, name: string, env: ActionEnv)
    requires InOrder(s) && StuckStops.Stopping(s, name) && env.cancelOk && !env.runGoes && env.writeOk
    requires var id := s.actions[name].status.runId;
      id in s.runs && AgentRuns.IsLive(s.runs[id]) && !s.runs[id].deleting
    ensures Canceling(Apply(s, ActionReconciled(name, env)), name, s.actions[name].status.runId)
  {
    StuckStops.StopBranch(s, name, env);
    StaysInOrder(s, ActionReconciled(name, env));
    StuckStops.StopCancels(s, name, env);
  }

  /** However often and however badly the run is reconciled, it stays canceled or comes to its end. */
  lemma TryKeepsCanceling(s: State, name: string, id: string, env: AgentRuns.RunEnv)
    requires Canceling(s, name, id)
    ensures Canceling(Apply(s, RunReconciled(id, env)), name, id)
  {
    StaysInOrder(s, RunReconciled(id, env));
    AgentRuns.ReconcileIsProper(s.runs[id], env);
    RunStays(s.runs[id], env);
  }

  lemma RunStays(r: Run, env: AgentRuns.RunEnv)
    requires !r.deleting
    ensures var s := AgentRuns.Reconcile(r, env); s.run.Some? && !s.run.value.deleting
  {
    AgentRuns.ActiveStays(r.(finalizer := true), env);
  }

  function Tries(id: string, envs: seq<AgentRuns.RunEnv>): seq<Event> {
    seq(|envs|, i requires 0 <= i < |envs| => RunReconciled(id, envs[i]))
  }

  lemma {:induction false} TriesKeepCanceling(s: State, name: string, id: string, envs: seq<AgentRuns.RunEnv>)
    requires Canceling(s, name, id)
    ensures Canceling(Exec(s, Tries(id, envs)), name, id)
    decreases |envs|
  {
    if envs == [] {
    } else {
      TryKeepsCanceling(s, name, id, envs[0]);
      TriesKeepCanceling(Apply(s, RunReconciled(id, envs[0])), name, id, envs[1..]);
      FirstTry(s, id, envs);
    }
  }

  lemma FirstTry(s: State, id: string, envs: seq<AgentRuns.RunEnv>)
    requires envs != []
    ensures Exec(s, Tries(id, envs)) == Exec(Apply(s, RunReconciled(id, envs[0])), Tries(id, envs[1..]))
  {
    assert Tries(id, envs)[1..] == Tries(id, envs[1..]);
  }

  lemma CancelEnds(r: Run, env: AgentRuns.RunEnv)
    requires !r.deleting && (AgentRuns.IsLive(r) ==> r.cancelRequested) && Cancels(env) && AgentRuns.WellFormed(r)
    requires r.validSpec || AgentRuns.IsLive(r) || r.status.phase.Failed?
    ensures var s := AgentRuns.Reconcile(r, env);
      s.run.Some? && !AgentRuns.IsLive(s.run.value) && (AgentRuns.IsLive(r) ==> s.released)
  {
    if AgentRuns.IsLive(r) { CancelEndsLive(r.(finalizer := true), env); } else { StaysEnded(r, env); }
  }

  lemma CancelEndsLive(r: Run, env: AgentRuns.RunEnv)
    requires AgentRuns.IsLive(r) && r.cancelRequested && Cancels(env)
    ensures var s := AgentRuns.ReconcileActive(r, env); s.run.Some? && !AgentRuns.IsLive(s.run.value) && s.released
  {
  }

  lemma StaysEnded(r: Run, env: AgentRuns.RunEnv)
    requires !AgentRuns.IsLive(r) && !r.deleting && AgentRuns.WellFormed(r) && (r.validSpec || r.status.phase.Failed?)
    ensures var s := AgentRuns.Reconcile(r, env); s.run.Some? && !AgentRuns.IsLive(s.run.value)
  {
    AgentRuns.ReconcileIsProper(r, env);
    RunStays(r, env);
  }

  lemma EndedRunFreesSlot(s: State, name: string, id: string, env: AgentRuns.RunEnv)
    requires Canceling(s, name, id) && Cancels(env)
    ensures var t := Apply(s, RunReconciled(id, env));
      Canceling(t, name, id) && !AgentRuns.IsLive(t.runs[id]) && (AgentRuns.IsLive(s.runs[id]) ==> t.slot == "")
  {
    TryKeepsCanceling(s, name, id, env);
    CancelInState(s, id, env);
  }

  lemma CancelInState(s: State, id: string, env: AgentRuns.RunEnv)
    requires HoldsSlot(s.runs, s.slot) && id in s.runs && RunInOrder(s.runs[id]) && !s.runs[id].deleting && Cancels(env)
    requires AgentRuns.IsLive(s.runs[id]) ==> s.runs[id].cancelRequested
    ensures var t := Apply(s, RunReconciled(id, env));
      id in t.runs && !AgentRuns.IsLive(t.runs[id]) && (AgentRuns.IsLive(s.runs[id]) ==> t.slot == "")
  {
    CancelEnds(s.runs[id], env);
  }

  lemma StopSettles(s: State, name: string, id: string, env: ActionEnv)
    requires Canceling(s, name, id) && !AgentRuns.IsLive(s.runs[id]) && env.cancelOk && env.getOk && env.writeOk
    ensures var t := Apply(s, ActionReconciled(name, env));
      && InOrder(t) && name in t.actions && t.slot == s.slot
      && t.actions[name].status.phase ==
         if s.runs[id].status.phase.Succeeded? && !env.runGoes then Succeeded else Canceled
  {
    StuckStops.StopBranch(s, name, env);
    StuckStops.StopSees(s, s.actions[name], env);
    StaysInOrder(s, ActionReconciled(name, env));
    StoredAnswers(s, name, DeriveStatus(s, s.actions[name], env));
  }

  lemma StoredAnswers(s: State, name: string, d: Derived)
    requires name in s.actions && d.status.Some?
    ensures var t := Stored(s, name, d, true);
      name in t.actions && t.actions[name].status == d.status.value && t.slot == d.slot && t.runs == d.runs
  {
  }

  /**
   * A stop completes when its run is stored and not under deletion: a reconcile passes the stop on, the run is
   * reconciled any number of times with any errors and then once with its workflow over or gone, and the next
   * reconcile of the action cancels it, or finds that it has succeeded after all. The reconcile that ends the run
   * frees the slot.
   */
  lemma StopCompletes(s: State, name: string, first: ActionEnv, envs: seq<AgentRuns.RunEnv>,
                      e: AgentRuns.RunEnv, last: ActionEnv)
    requires InOrder(s) && StuckStops.Stopping(s, name) && Cancels(e)
    requires first.cancelOk && !first.runGoes && first.writeOk
    requires var id := s.actions[name].status.runId;
      id in s.runs && AgentRuns.IsLive(s.runs[id]) && !s.runs[id].deleting
    requires last.cancelOk && last.getOk && last.writeOk
    ensures var id := s.actions[name].status.runId;
      var u := Exec(Apply(s, ActionReconciled(name, first)), Tries(id, envs));
      var t := Apply(Apply(u, RunReconciled(id, e)), ActionReconciled(name, last));
      && InOrder(t) && name in t.actions
      && (t.actions[name].status.phase.Canceled? || t.actions[name].status.phase.Succeeded?)
      && id in u.runs && (AgentRuns.IsLive(u.runs[id]) ==> t.slot == "")
  {
    var id := s.actions[name].status.runId;
    StopPassesOn(s, name, first);
    var s1 := Apply(s, ActionReconciled(name, first));
    TriesKeepCanceling(s1, name, id, envs);
    var u := Exec(s1, Tries(id, envs));
    EndedRunFreesSlot(u, name, id, e);
    StopSettles(Apply(u, RunReconciled(id, e)), name, id, last);
  }
}
