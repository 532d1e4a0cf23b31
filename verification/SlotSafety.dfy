/** The session slot: at most one run of a session is under way, and it is the one the slot names. */
module SlotSafety {
  import opened Wrappers
  import opened Text
  import opened RunIds
  import opened RetryPolicies
  import opened Actions
  import opened System
  import opened ActionMoves
  import AgentRuns

  /** Every run that has not ended holds the slot; so there is one at most. */
  ghost predicate HoldsSlot(runs: map<string, Run>, slot: string) {
    forall r :: r in runs && AgentRuns.IsLive(runs[r]) ==> slot == r
  }

  lemma AtMostOneLiveRun(s: State, q: string, r: string)
    requires HoldsSlot(s.runs, s.slot) && q in s.runs && r in s.runs
    requires AgentRuns.IsLive(s.runs[q]) && AgentRuns.IsLive(s.runs[r])
    ensures q == r == s.slot
  {
  }

  predicate RunInOrder(r: Run) {
    AgentRuns.WellFormed(r) && (r.validSpec || AgentRuns.IsLive(r) || r.status.phase.Failed?)
  }

  ghost predicate RunsInOrder(s: State) {
    "" !in s.runs && forall r :: r in s.runs ==> RunInOrder(s.runs[r])
  }

  /** The action waits for a retry time that has not come. */
  predicate RetryIsAhead(a: Action, now: int) {
    && a.status.phase.Pending? && a.status.failureClass.Transient?
    && a.status.nextRetryAt.Some? && now < a.status.nextRetryAt.value
  }

  /** The reconcile gets as far as creating a run for a new attempt. */
  ghost predicate StartsAttempt(s: State, name: string, env: ActionEnv) {
    name in s.actions
    && var a := s.actions[name];
    && !IsInvalid(a) && !IsTerminal(a) && !a.spec.stopRequested && env.listOk && IsOwner(s.actions, a.name)
    && !RetryIsAhead(a, s.now) && a.spec.kind.RunTurn? && a.spec.candidates.Some?
    && env.session.SessionFound? && Trim(a.status.runId) == "" && CurrentCandidateIndex(a) < CandidateCount(a)
  }

  /** The two ways in which the slot of a run under way is lost. */
  ghost predicate DropsSlot(s: State, e: Event) {
    match e
    case SessionFailed => s.slot != "" && s.slot in s.runs && AgentRuns.IsLive(s.runs[s.slot])
    case ActionReconciled(name, env) =>
      && StartsAttempt(s, name, env) && env.create.Claims() && env.create.releaseOk
      && var id := NextRunAttempt(s.actions[name]).0; id in s.runs && AgentRuns.IsLive(s.runs[id])
    case _ => false
  }

  /** Service.Create keeps the slot with its run exactly when it does not roll back under a live run of that id. */
  lemma CreateKeepsSlot(runs: map<string, Run>, slot: string, sessionId: string, id: string, env: AgentRuns.CreateEnv)
    requires HoldsSlot(runs, slot) && "" !in runs && id != ""
    ensures var c := AgentRuns.Create(runs, slot, sessionId, id, env);
      HoldsSlot(c.runs, c.slot) <==> !(env.Claims() && env.releaseOk && id in runs && AgentRuns.IsLive(runs[id]))
  {
    var c := AgentRuns.Create(runs, slot, sessionId, id, env);
    if env.Claims() && env.releaseOk && id in runs && AgentRuns.IsLive(runs[id]) {
      assert slot == id && c.slot == "";
      assert id in c.runs && AgentRuns.IsLive(c.runs[id]);
    }
  }

  lemma RunTurnKeepsSlot(s: State, a: Action, env: ActionEnv)
    requires HoldsSlot(s.runs, s.slot) && "" !in s.runs && Trim(a.spec.actionId) != ""
    ensures var d := DeriveRunTurn(s, a, env);
      HoldsSlot(d.runs, d.slot) <==>
      !(&& a.spec.candidates.Some? && env.session.SessionFound? && Trim(a.status.runId) == ""
        && CurrentCandidateIndex(a) < CandidateCount(a) && env.create.Claims() && env.create.releaseOk
        && NextRunAttempt(a).0 in s.runs && AgentRuns.IsLive(s.runs[NextRunAttempt(a).0]))
  {
    CreateKeepsSlot(s.runs, s.slot, a.spec.sessionId, NextRunAttempt(a).0, env.create);
  }

  lemma StopKeepsSlot(s: State, a: Action, env: ActionEnv)
    requires HoldsSlot(s.runs, s.slot)
    ensures var d := DeriveStopped(s, a, env); HoldsSlot(d.runs, d.slot)
  {
  }

  /** Only the stop branch and the owner's run_turn branch touch the runs and the slot. */
  lemma DeriveCases(s: State, a: Action, env: ActionEnv)
    ensures var d := DeriveStatus(s, a, env);
      || (d.runs == s.runs && d.slot == s.slot)
      || (a.spec.stopRequested && d == DeriveStopped(s, a, env))
      || (&& !IsInvalid(a) && !IsTerminal(a) && !a.spec.stopRequested && env.listOk && IsOwner(s.actions, a.name)
          && !RetryIsAhead(a, s.now) && a.spec.kind.RunTurn? && d == DeriveRunTurn(s, a, env))
  {
  }

  lemma ReconcileKeepsSlot(s: State, name: string, env: ActionEnv)
    requires HoldsSlot(s.runs, s.slot) && "" !in s.runs
    ensures var t := ReconcileAction(s, name, env);
      HoldsSlot(t.runs, t.slot) <==> !DropsSlot(s, ActionReconciled(name, env))
  {
    if name in s.actions {
      var a, d := s.actions[name], DeriveStatus(s, s.actions[name], env);
      DeriveCases(s, a, env);
      if a.spec.stopRequested {
        StopKeepsSlot(s, a, env);
      } else if StartsAttempt(s, name, env) {
        StartIsRunTurn(s, name, env);
        RunTurnKeepsSlot(s, a, env);
      } else if d.runs != s.runs || d.slot != s.slot {
        RunTurnKeepsSlot(s, a, env);
      }
    }
  }

  lemma StartIsRunTurn(s: State, name: string, env: ActionEnv)
    requires StartsAttempt(s, name, env)
    ensures DeriveStatus(s, s.actions[name], env) == DeriveRunTurn(s, s.actions[name], env)
  {
  }

  lemma RunStepKeepsSlot(s: State, runId: string, env: AgentRuns.RunEnv)
    requires HoldsSlot(s.runs, s.slot) && runId in s.runs && RunInOrder(s.runs[runId])
    ensures var t := Apply(s, RunReconciled(runId, env)); HoldsSlot(t.runs, t.slot)
  {
    AgentRuns.ReconcileIsProper(s.runs[runId], env);
  }

  /**
   * Any step from a state in order keeps the slot with its run, if and only if it is not one of the two named
   * above.
   */
  lemma StepKeepsSlotIff(s: State, e: Event)
    requires HoldsSlot(s.runs, s.slot) && RunsInOrder(s)
    ensures HoldsSlot(Apply(s, e).runs, Apply(s, e).slot) <==> !DropsSlot(s, e)
  {
    match e
    case ActionReconciled(name, env) => ReconcileKeepsSlot(s, name, env);
    case RunReconciled(runId, env) => if runId in s.runs { RunStepKeepsSlot(s, runId, env); }
    case SessionFailed =>
      if DropsSlot(s, e) { assert s.slot in Apply(s, e).runs && AgentRuns.IsLive(Apply(s, e).runs[s.slot]); }
    case _ =>
  }

  // ---- Whole histories ----

  ghost predicate HasAction(actions: map<string, Action>, runId: string) {
    exists n, k: int :: n in actions && 1 <= k && AttemptRunId(n, k) == runId
  }

  /** Attempts that have not been made have no run. */
  ghost predicate AttemptsAhead(s: State) {
    forall n, k: int :: n in s.actions && k >= 1 && k > s.actions[n].status.attemptCount ==>
      AttemptRunId(n, k) !in s.runs
  }

  /** Every run is an attempt of some action. */
  ghost predicate RunsBelong(s: State) {
    forall r :: r in s.runs ==> HasAction(s.actions, r)
  }

  ghost predicate InOrder(s: State) {
    Sound(s) && HoldsSlot(s.runs, s.slot) && RunsInOrder(s) && AttemptsAhead(s) && RunsBelong(s)
  }

  /**
   * Conditions on an event that are enough to keep the slot: new ids are valid, a session does not fail while
   * a run is under way, and a reconcile that creates the run of a new attempt records it.
   */
  ghost predicate Regular(s: State, e: Event) {
    && WellNamed(e)
    && (e.SessionFailed? ==> !DropsSlot(s, e))
    && (e.ActionReconciled? && StartsAttempt(s, e.name, e.env) && Apply(s, e).runs != s.runs ==> e.env.writeOk)
  }

  ghost predicate AllRegular(s: State, events: seq<Event>)
    decreases |events|
  {
    events != [] ==> Regular(s, events[0]) && AllRegular(Apply(s, events[0]), events[1..])
  }

  lemma NextAttemptIsNew(s: State, name: string, env: ActionEnv)
    requires InOrder(s) && StartsAttempt(s, name, env)
    ensures var a := s.actions[name];
      && NextRunAttempt(a).0 == AttemptRunId(name, a.status.attemptCount + 1) && NextRunAttempt(a).0 !in s.runs
      && a.status.runId == ""
  {
    var a := s.actions[name];
    RunIdIsTrimmed(a, s.policy.maxRetries);
  }

  lemma RegularStepKeepsSlot(s: State, e: Event)
    requires InOrder(s) && Regular(s, e)
    ensures !DropsSlot(s, e)
  {
    if e.ActionReconciled? && StartsAttempt(s, e.name, e.env) { NextAttemptIsNew(s, e.name, e.env); }
  }

  /** One new run, not yet looked at by its controller. */
  predicate Adds(before: map<string, Run>, after: map<string, Run>, id: string) {
    id !in before && id in after && after[id].status.phase.Unset? && after == before[id := after[id]]
  }

  lemma RunTurnRuns(s: State, a: Action, env: ActionEnv)
    ensures var d := DeriveRunTurn(s, a, env);
      d.runs == s.runs ||
      (&& Adds(s.runs, d.runs, NextRunAttempt(a).0) && CurrentCandidateIndex(a) < CandidateCount(a)
       && (Trim(a.status.runId) == "" ==>
             && a.spec.candidates.Some? && env.session.SessionFound?
             && d.status == Some(RunningStatus(a, s.now, NextRunAttempt(a).0, NextRunAttempt(a).1,
                                               CurrentCandidateIndex(a)))))
  {
  }

  lemma StoppedRuns(s: State, a: Action, env: ActionEnv)
    ensures var d := DeriveStopped(s, a, env);
      && d.runs.Keys <= s.runs.Keys
      && (forall r :: r in d.runs ==> d.runs[r] == s.runs[r] || d.runs[r] == AgentRuns.Cancel(s.runs[r]))
  {
  }

  /** What a reconcile leaves among the runs: those that were there, perhaps canceled, and the one it may create. */
  lemma ReconciledRuns(s: State, name: string, env: ActionEnv)
    requires name in s.actions
    ensures var runs, id := ReconcileAction(s, name, env).runs, NextRunAttempt(s.actions[name]).0;
      forall r :: r in runs && r != id ==>
        r in s.runs && (runs[r] == s.runs[r] || runs[r] == AgentRuns.Cancel(s.runs[r]))
    ensures var runs, id := ReconcileAction(s, name, env).runs, NextRunAttempt(s.actions[name]).0;
      id in runs && id in s.runs ==> runs[id] == s.runs[id] || runs[id] == AgentRuns.Cancel(s.runs[id])
  {
    DeriveCases(s, s.actions[name], env);
    StoppedRuns(s, s.actions[name], env);
    RunTurnRuns(s, s.actions[name], env);
  }

  lemma NextIdDiffers(s: State, name: string, other: string)
    requires Sound(s) && name in s.actions && other in s.actions && other != name && s.actions[name].status.runId != ""
    ensures NextRunAttempt(s.actions[other]).0 != s.actions[name].status.runId
  {
    var a, b := s.actions[name], s.actions[other];
    RunIdIsTrimmed(b, s.policy.maxRetries);
    var k := if b.status.runId != "" then b.status.attemptCount else b.status.attemptCount + 1;
    RunIdsDiffer(name, a.status.attemptCount, other, k);
  }

  /** A reconcile of one action neither makes nor changes the run on record of another, but that it may cancel it. */
  lemma RunOfAnother(s: State, name: string, other: string, env: ActionEnv)
    requires Sound(s) && name in s.actions && other in s.actions && other != name && s.actions[name].status.runId != ""
    ensures var id, runs := s.actions[name].status.runId, ReconcileAction(s, other, env).runs;
      id in runs ==> id in s.runs && (runs[id] == s.runs[id] || runs[id] == AgentRuns.Cancel(s.runs[id]))
  {
    NextIdDiffers(s, name, other);
    ReconciledRuns(s, other, env);
  }

  lemma RunsStayInOrder(s: State, name: string, env: ActionEnv)
    requires RunsInOrder(s) && name in s.actions
    ensures var runs := DeriveStatus(s, s.actions[name], env).runs; forall r :: r in runs ==> RunInOrder(runs[r])
  {
    DeriveCases(s, s.actions[name], env);
    StoppedRuns(s, s.actions[name], env);
    RunTurnRuns(s, s.actions[name], env);
  }

  /** What a reconcile can add to the runs: the missing run of its present attempt, or the run of its next one. */
  lemma RunsAfterReconcile(s: State, name: string, env: ActionEnv)
    requires InOrder(s) && name in s.actions
    ensures var a, d := s.actions[name], DeriveStatus(s, s.actions[name], env);
      && Accounted(a, s.runs.Keys, d)
      && (a.status.runId == "" && !(d.runs.Keys <= s.runs.Keys) ==> StartsAttempt(s, name, env))
  {
    var a, d := s.actions[name], DeriveStatus(s, s.actions[name], env);
    DeriveCases(s, a, env);
    if d.runs == s.runs {
    } else if a.spec.stopRequested {
      StoppedRuns(s, a, env);
    } else {
      RunIdIsTrimmed(a, s.policy.maxRetries);
      RunTurnRuns(s, a, env);
      if a.status.runId == "" {
        WorkStarts(s, name);
        NextAttemptIsNew(s, name, env);
        LaunchIsMove(a, s.now, s.policy, true);
      }
    }
  }

  /** Attempts stay ahead when the runs gain nothing but an attempt that is counted. */
  lemma AheadAfter(s: State, t: State, name: string, k: int)
    requires (forall n :: n in s.actions ==> ValidId(n)) && AttemptsAhead(s)
    requires name in s.actions && t.actions.Keys == s.actions.Keys
    requires forall n :: n in s.actions ==> t.actions[n].status.attemptCount >= s.actions[n].status.attemptCount
    requires t.runs.Keys <= s.runs.Keys + {AttemptRunId(name, k)} && 1 <= k <= t.actions[name].status.attemptCount
    ensures AttemptsAhead(t)
  {
    forall n, j: int | n in t.actions && j >= 1 && j > t.actions[n].status.attemptCount
      ensures AttemptRunId(n, j) !in t.runs
    {
      RunIdsDiffer(n, j, name, k);
    }
  }

  lemma BelongAfter(s: State, t: State, name: string, k: int)
    requires RunsBelong(s) && s.actions.Keys <= t.actions.Keys
    requires t.runs.Keys <= s.runs.Keys ||
      (name in s.actions && 1 <= k && t.runs.Keys <= s.runs.Keys + {AttemptRunId(name, k)})
    ensures RunsBelong(t)
  {
    forall r | r in t.runs ensures HasAction(t.actions, r) {
      if r in s.runs {
        var n, j: int :| n in s.actions && 1 <= j && AttemptRunId(n, j) == r;
        assert n in t.actions;
      } else {
        assert name in t.actions && AttemptRunId(name, k) == r;
      }
    }
  }

  /** What a reconcile may have added to the runs, given the status it derived. */
  ghost predicate Accounted(a: Action, before: set<string>, d: Derived) {
    || d.runs.Keys <= before
    || (a.status.runId != "" && d.runs.Keys == before + {a.status.runId})
    || (d.status.Some? && Launches(a, d.status.value)
        && d.runs.Keys == before + {AttemptRunId(a.name, a.status.attemptCount + 1)})
  }

  lemma AheadAfterStore(s: State, name: string, d: Derived, writeOk: bool, k: int)
    requires (forall n :: n in s.actions ==> ValidId(n)) && AttemptsAhead(s) && RunsBelong(s) && name in s.actions
    requires d.status.Some? ==> d.status.value.attemptCount >= s.actions[name].status.attemptCount
    requires d.runs.Keys <= s.runs.Keys ||
      (&& d.runs.Keys == s.runs.Keys + {AttemptRunId(name, k)}
       && 1 <= k <= Stored(s, name, d, writeOk).actions[name].status.attemptCount)
    ensures var t := Stored(s, name, d, writeOk); AttemptsAhead(t) && RunsBelong(t)
  {
    var t := Stored(s, name, d, writeOk);
    BelongAfter(s, t, name, k);
    if !(d.runs.Keys <= s.runs.Keys) { AheadAfter(s, t, name, k); }
  }

  lemma AttemptsGrow(a: Action, t: ActionStatus, now: int, policy: RetryPolicy, owner: bool)
    requires Moves(a, t, now, policy, owner)
    ensures t.attemptCount >= a.status.attemptCount
    ensures Launches(a, t) && !IsTerminal(a) ==> t.attemptCount == a.status.attemptCount + 1
  {
  }

  lemma ReconcileKeepsAhead(s: State, name: string, env: ActionEnv)
    requires InOrder(s) && name in s.actions && Regular(s, ActionReconciled(name, env))
    ensures AttemptsAhead(ReconcileAction(s, name, env)) && RunsBelong(ReconcileAction(s, name, env))
  {
    var k := RunsAreCounted(s, name, env);
    AheadAfterStore(s, name, DeriveStatus(s, s.actions[name], env), env.writeOk, k);
  }

  /** Whatever run a regular reconcile adds is that of an attempt that is counted once the status is stored. */
  lemma RunsAreCounted(s: State, name: string, env: ActionEnv) returns (k: int)
    requires InOrder(s) && name in s.actions && Regular(s, ActionReconciled(name, env))
    ensures var d := DeriveStatus(s, s.actions[name], env);
      && (d.status.Some? ==> d.status.value.attemptCount >= s.actions[name].status.attemptCount)
      && (d.runs.Keys <= s.runs.Keys ||
          (&& d.runs.Keys == s.runs.Keys + {AttemptRunId(name, k)}
           && 1 <= k <= Stored(s, name, d, env.writeOk).actions[name].status.attemptCount))
  {
    var a, d := s.actions[name], DeriveStatus(s, s.actions[name], env);
    RunsAfterReconcile(s, name, env);
    DerivedAttempts(s, name, env);
    k := if a.status.runId != "" then a.status.attemptCount else a.status.attemptCount + 1;
    if !(d.runs.Keys <= s.runs.Keys) && a.status.runId == "" { StartIsRecorded(s, name, env); }
  }

  lemma DerivedAttempts(s: State, name: string, env: ActionEnv)
    requires Sound(s) && name in s.actions
    ensures var a, d := s.actions[name], DeriveStatus(s, s.actions[name], env);
      && (d.status.Some? ==> d.status.value.attemptCount >= a.status.attemptCount)
      && (d.status.Some? && !IsTerminal(a) && Launches(a, d.status.value) ==>
            d.status.value.attemptCount == a.status.attemptCount + 1)
  {
    var a, d := s.actions[name], DeriveStatus(s, s.actions[name], env);
    DeriveMoves(s, name, env);
    if d.status.Some? { AttemptsGrow(a, d.status.value, s.now, s.policy, IsOwner(s.actions, name)); }
  }

  lemma StartIsRecorded(s: State, name: string, env: ActionEnv)
    requires name in s.actions && Regular(s, ActionReconciled(name, env)) && StartsAttempt(s, name, env)
    requires DeriveStatus(s, s.actions[name], env).runs != s.runs
    ensures env.writeOk && !IsTerminal(s.actions[name])
  {
    assert Apply(s, ActionReconciled(name, env)).runs == DeriveStatus(s, s.actions[name], env).runs;
  }

  lemma NewNameHasNoRuns(s: State, name: string, k: int)
    requires (forall n :: n in s.actions ==> ValidId(n)) && RunsBelong(s) && ValidId(name) && name !in s.actions
    requires k >= 1
    ensures AttemptRunId(name, k) !in s.runs
  {
    if AttemptRunId(name, k) in s.runs {
      var n, j: int :| n in s.actions && 1 <= j && AttemptRunId(n, j) == AttemptRunId(name, k);
      RunIdsDiffer(n, j, name, k);
    }
  }

  lemma CreateKeepsAhead(s: State, e: Event)
    requires Sound(s) && AttemptsAhead(s) && RunsBelong(s) && e.ActionCreated? && WellNamed(e)
    ensures AttemptsAhead(Apply(s, e)) && RunsBelong(Apply(s, e))
  {
    if e.name !in s.actions {
      var t := Apply(s, e);
      BelongAfter(s, t, e.name, 1);
      NewcomerKeepsAhead(s, e.name, t.actions[e.name]);
    }
  }

  lemma NewcomerKeepsAhead(s: State, name: string, a: Action)
    requires (forall n :: n in s.actions ==> ValidId(n)) && AttemptsAhead(s) && RunsBelong(s)
    requires ValidId(name) && name !in s.actions
    ensures AttemptsAhead(s.(actions := s.actions[name := a]))
  {
    forall k: int | k >= 1 ensures AttemptRunId(name, k) !in s.runs { NewNameHasNoRuns(s, name, k); }
  }

  lemma RunReconcileKeepsRuns(s: State, runId: string, env: AgentRuns.RunEnv)
    requires RunsInOrder(s) && runId in s.runs
    ensures var t := WithRun(s, runId, AgentRuns.Reconcile(s.runs[runId], env).run);
      RunsInOrder(t) && t.runs.Keys <= s.runs.Keys
  {
    AgentRuns.ReconcileIsProper(s.runs[runId], env);
    AgentRuns.ReconcileKeepsSpec(s.runs[runId], env);
    ChangedRunInOrder(s, runId, AgentRuns.Reconcile(s.runs[runId], env).run);
  }

  lemma RunStepKeepsRuns(s: State, e: Event)
    requires RunsInOrder(s) && !e.ActionReconciled?
    ensures RunsInOrder(Apply(s, e)) && Apply(s, e).runs.Keys <= s.runs.Keys
  {
    match e
    case RunReconciled(runId, env) =>
      if runId in s.runs { RunReconcileKeepsRuns(s, runId, env); }
    case RunCancelCalled(runId) =>
      if runId in s.runs { ChangedRunInOrder(s, runId, Some(AgentRuns.Cancel(s.runs[runId]))); }
    case RunResultPublished(runId, result) =>
      if runId in s.runs { ChangedRunInOrder(s, runId, Some(AgentRuns.Publish(s.runs[runId], result))); }
    case RunDeleted(runId) =>
      if runId in s.runs { ChangedRunInOrder(s, runId, AgentRuns.Delete(s.runs[runId])); }
    case _ =>
  }

  lemma ChangedRunInOrder(s: State, runId: string, run: Option<Run>)
    requires RunsInOrder(s) && runId in s.runs && (run.Some? ==> RunInOrder(run.value))
    ensures RunsInOrder(WithRun(s, runId, run)) && WithRun(s, runId, run).runs.Keys <= s.runs.Keys
  {
  }

  /** Along regular histories everything stays in order, and so the slot stays with the run under way. */
  lemma StepKeepsOrder(s: State, e: Event)
    requires InOrder(s) && Regular(s, e)
    ensures InOrder(Apply(s, e))
  {
    RegularStepKeepsSlot(s, e);
    StepKeepsSlotIff(s, e);
    StepKeepsSound(s, e);
    StepKeepsRuns(s, e);
    StepKeepsAhead(s, e);
  }

  lemma StepKeepsAhead(s: State, e: Event)
    requires InOrder(s) && Regular(s, e)
    ensures AttemptsAhead(Apply(s, e)) && RunsBelong(Apply(s, e))
  {
    match e
    case ActionReconciled(name, env) => if name in s.actions { ReconcileKeepsAhead(s, name, env); }
    case ActionCreated(name, _, _, _) => CreateKeepsAhead(s, e);
    case _ => OtherStepKeeps(s, e);
  }

  lemma OtherStepKeeps(s: State, e: Event)
    requires InOrder(s) && !e.ActionReconciled? && !e.ActionCreated?
    ensures AttemptsAhead(Apply(s, e)) && RunsBelong(Apply(s, e))
  {
    RunStepKeepsRuns(s, e);
    OtherStepKeepsAhead(s, e);
    BelongAfter(s, Apply(s, e), "", 1);
  }

  lemma OtherStepKeepsAhead(s: State, e: Event)
    requires AttemptsAhead(s) && !e.ActionReconciled? && !e.ActionCreated? && Apply(s, e).runs.Keys <= s.runs.Keys
    ensures AttemptsAhead(Apply(s, e))
  {
  }

  lemma NextIdIsNotBlank(a: Action)
    requires !IsInvalid(a)
    ensures NextRunAttempt(a).0 != ""
  {
  }

  lemma ReconcileKeepsRuns(s: State, name: string, env: ActionEnv)
    requires RunsInOrder(s) && name in s.actions
    ensures RunsInOrder(ReconcileAction(s, name, env))
  {
    var a := s.actions[name];
    RunsStayInOrder(s, name, env);
    DeriveCases(s, a, env);
    StoppedRuns(s, a, env);
    RunTurnRuns(s, a, env);
    if !IsInvalid(a) { NextIdIsNotBlank(a); }
  }

  /** Stored runs stay in order through every event, recorded or not. */
  lemma StepKeepsRuns(s: State, e: Event)
    requires RunsInOrder(s)
    ensures RunsInOrder(Apply(s, e))
  {
    if e.ActionReconciled? {
      if e.name in s.actions { ReconcileKeepsRuns(s, e.name, e.env); }
    } else {
      RunStepKeepsRuns(s, e);
    }
  }

  /** Where histories of the slot start: every run that has not ended holds it. */
  ghost predicate SlotState(s: State) {
    HoldsSlot(s.runs, s.slot) && RunsInOrder(s)
  }

  ghost predicate OneLiveRun(s: State) {
    forall q, r :: q in s.runs && r in s.runs && AgentRuns.IsLive(s.runs[q]) && AgentRuns.IsLive(s.runs[r])
      ==> q == r == s.slot
  }

  /** Along the whole history every run that has not ended holds the slot. */
  ghost predicate HeldThroughout(s: State, events: seq<Event>)
    decreases |events|
  {
    HoldsSlot(s.runs, s.slot) && (events != [] ==> HeldThroughout(Apply(s, events[0]), events[1..]))
  }

  /** None of the events is one of the two that lose the slot. */
  ghost predicate NeverDrops(s: State, events: seq<Event>)
    decreases |events|
  {
    events != [] ==> !DropsSlot(s, events[0]) && NeverDrops(Apply(s, events[0]), events[1..])
  }

  /**
   * Along every history, whatever the actions are called, the slot is held throughout if and only if no session
   * fails over a live run and no rollback meets a live run of its own id. Then at most one run is under way, and it
   * is the one the slot names.
   */
  lemma {:induction false} OneRunAtATime(s: State, events: seq<Event>)
    requires SlotState(s)
    ensures HeldThroughout(s, events) <==> NeverDrops(s, events)
    ensures HeldThroughout(s, events) ==> SlotState(Exec(s, events)) && OneLiveRun(Exec(s, events))
    decreases |events|
  {
    if events == [] {
      forall q, r | q in s.runs && r in s.runs && AgentRuns.IsLive(s.runs[q]) && AgentRuns.IsLive(s.runs[r])
        ensures q == r == s.slot
      {
        AtMostOneLiveRun(s, q, r);
      }
    } else {
      StepKeepsSlotIff(s, events[0]);
      StepKeepsRuns(s, events[0]);
      if !DropsSlot(s, events[0]) { OneRunAtATime(Apply(s, events[0]), events[1..]); }
    }
  }

  /** Regular histories never drop the slot, and attempts stay ahead of their runs. */
  lemma {:induction false} RegularNeverDrops(s: State, events: seq<Event>)
    requires InOrder(s) && AllRegular(s, events)
    ensures InOrder(Exec(s, events)) && NeverDrops(s, events)
    decreases |events|
  {
    if events == [] {
    } else {
      RegularStepKeepsSlot(s, events[0]);
      StepKeepsOrder(s, events[0]);
      RegularNeverDrops(Apply(s, events[0]), events[1..]);
    }
  }

  /**
   * Once the session has read its run, the slot is free exactly when no run is under way; a deleted run does not
   * hold it.
   */
  lemma ObservedSlotIsTrue(s: State)
    requires HoldsSlot(s.runs, s.slot) && "" !in s.runs
    ensures Apply(s, SessionObserved(true)).slot == "" <==> forall r :: r in s.runs ==> !AgentRuns.IsLive(s.runs[r])
  {
    if s.slot != "" && s.slot in s.runs && AgentRuns.IsLive(s.runs[s.slot]) {
      assert Apply(s, SessionObserved(true)).slot == s.slot;
    }
  }

  /** A new session is in order. */
  lemma InitialInOrder(policy: RetryPolicy, now: int)
    requires Normalized(policy)
    ensures InOrder(Initial(policy, now))
  {
  }

  /**
   * A history that drops the slot: when the run of an attempt is created but the status write fails, the next
   * reconcile meets its own run, takes it for a foreign one and rolls the slot back under it.
   */
  lemma UnrecordedLaunchLosesTheSlot(s: State, name: string, env: ActionEnv, next: ActionEnv)
    requires InOrder(s) && StartsAttempt(s, name, env) && s.slot == ""
    requires env.create.Claims() && env.create.specOk && env.create.createOk && !env.writeOk
    requires next.listOk && next.session.SessionFound? && next.create.Claims() && next.create.releaseOk
    ensures var t := Apply(Apply(s, ActionReconciled(name, env)), ActionReconciled(name, next));
      exists r :: r in t.runs && AgentRuns.IsLive(t.runs[r]) && t.slot != r
  {
    var a, t := s.actions[name], Apply(s, ActionReconciled(name, env));
    NextAttemptIsNew(s, name, env);
    LaunchMakesRun(s, a, env);
    ReconcileKeepsRuns(s, name, env);
    assert StartsAttempt(t, name, next) && DropsSlot(t, ActionReconciled(name, next));
    StepKeepsSlotIff(s, ActionReconciled(name, env));
    StepKeepsSlotIff(t, ActionReconciled(name, next));
  }

  lemma LaunchMakesRun(s: State, a: Action, env: ActionEnv)
    requires a.name in s.actions && s.actions[a.name] == a && StartsAttempt(s, a.name, env) && s.slot == ""
    requires NextRunAttempt(a).0 !in s.runs && env.create.Claims() && env.create.specOk && env.create.createOk
    requires !env.writeOk
    ensures var t := ReconcileAction(s, a.name, env);
      && t.actions == s.actions && t.now == s.now
      && NextRunAttempt(a).0 in t.runs && AgentRuns.IsLive(t.runs[NextRunAttempt(a).0])
  {
  }
}
