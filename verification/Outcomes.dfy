/** How the ends of actions and runs go together, and which runs are left behind. */
module Outcomes {
  import opened Text
  import opened RunIds
  import opened Actions
  import opened System
  import opened ActionMoves
  import opened SlotSafety
  import opened QueueSafety
  import opened AttemptBudget
  import AgentRuns
  import RetryPolicies

  // ---- An action that ended, and its run ----

  /** What the end of an action says of the run it names. */
  predicate EndsAs(phase: Phase, run: AgentRuns.RunPhase) {
    match phase
    case Succeeded => run.Succeeded?
    case Failed => run.Failed?
    case Canceled => run.Failed? || run.Canceled?
    case _ => true
  }

  /** An action that ended names a run, while that is stored, that ended accordingly; success always names one. */
  predicate Agrees(a: Action, runs: map<string, Run>) {
    && (a.spec.kind.RunTurn? && a.status.phase.Succeeded? ==> a.status.runId != "")
    && (a.status.runId in runs && a.status.runId != "" ==> EndsAs(a.status.phase, runs[a.status.runId].status.phase))
  }

  ghost predicate AllAgree(s: State) {
    forall n :: n in s.actions ==> Agrees(s.actions[n], s.runs)
  }

  lemma TurnAgrees(s: State, a: Action, env: ActionEnv)
    requires Named(a, a.name) && Counted(a, s.policy.maxRetries) && !IsTerminal(a)
    ensures var d := DeriveRunTurn(s, a, env); d.status.Some? && Agrees(a.(status := d.status.value), d.runs)
  {
    RunIdIsTrimmed(a, s.policy.maxRetries);
    if a.status.runId in s.runs { TurnEnds(s, a, env); } else { TurnGoesOn(s, a, env); }
  }

  lemma TurnEnds(s: State, a: Action, env: ActionEnv)
    requires !IsTerminal(a) && a.status.runId in s.runs && Trim(a.status.runId) == a.status.runId && Trim("") == ""
    ensures var d := DeriveRunTurn(s, a, env); d.status.Some? && Agrees(a.(status := d.status.value), d.runs)
  {
  }

  lemma TurnGoesOn(s: State, a: Action, env: ActionEnv)
    requires !IsTerminal(a) && a.status.runId !in s.runs && Trim(a.status.runId) == a.status.runId && Trim("") == ""
    ensures var d := DeriveRunTurn(s, a, env); d.status.Some? && Agrees(a.(status := d.status.value), d.runs)
  {
  }

  lemma StopAgrees(s: State, a: Action, env: ActionEnv)
    requires Named(a, a.name) && Counted(a, s.policy.maxRetries) && !IsTerminal(a)
    ensures var d := DeriveStopped(s, a, env); d.status.Some? && Agrees(a.(status := d.status.value), d.runs)
  {
    RunIdIsTrimmed(a, s.policy.maxRetries);
  }

  lemma OwnReconcileAgrees(s: State, name: string, env: ActionEnv)
    requires Sound(s) && name in s.actions && Agrees(s.actions[name], s.runs)
    ensures var t := ReconcileAction(s, name, env); Agrees(t.actions[name], t.runs)
  {
    var a := s.actions[name];
    TrimProperties(name);
    if IsTerminal(a) {
      assert !IsInvalid(a);
    } else {
      OpenAgrees(s, name, env);
    }
  }

  lemma OpenAgrees(s: State, name: string, env: ActionEnv)
    requires Sound(s) && name in s.actions && !IsTerminal(s.actions[name])
    ensures var t := ReconcileAction(s, name, env); Agrees(t.actions[name], t.runs)
  {
    var a := s.actions[name];
    DeriveCases(s, a, env);
    StopAgrees(s, a, env);
    TurnAgrees(s, a, env);
    DeriveMoves(s, name, env);
  }

  lemma OtherReconcileAgrees(s: State, name: string, other: string, env: ActionEnv)
    requires Sound(s) && name in s.actions && other in s.actions && other != name && Agrees(s.actions[name], s.runs)
    ensures var t := ReconcileAction(s, other, env); Agrees(t.actions[name], t.runs)
  {
    if s.actions[name].status.runId != "" { RunOfAnother(s, name, other, env); }
  }

  /** No event but a reconcile of an action brings a run into being or changes how one ended. */
  lemma EndedRunsStay(s: State, e: Event, r: string)
    requires RunsInOrder(s) && !e.ActionReconciled? && r in Apply(s, e).runs
    ensures r in s.runs
    ensures !AgentRuns.IsLive(s.runs[r]) ==> Apply(s, e).runs[r].status.phase == s.runs[r].status.phase
  {
    if e.RunReconciled? && e.runId == r && r in s.runs { AgentRuns.ReconcileIsProper(s.runs[r], e.runEnv); }
  }

  lemma StatusStays(s: State, name: string, e: Event)
    requires !e.ActionReconciled? && name in s.actions
    ensures var t := Apply(s, e);
      && name in t.actions && t.actions[name].status == s.actions[name].status
      && t.actions[name].spec.kind == s.actions[name].spec.kind
  {
  }

  lemma OtherEventAgrees(s: State, name: string, e: Event)
    requires Sound(s) && RunsInOrder(s) && !e.ActionReconciled? && name in s.actions && Agrees(s.actions[name], s.runs)
    ensures var t := Apply(s, e); name in t.actions && Agrees(t.actions[name], t.runs)
  {
    StatusStays(s, name, e);
    var id := s.actions[name].status.runId;
    if id in Apply(s, e).runs { EndedRunsStay(s, e, id); }
  }

  lemma StepKeepsAgreement(s: State, e: Event)
    requires Sound(s) && RunsInOrder(s) && AllAgree(s)
    ensures AllAgree(Apply(s, e))
  {
    var t := Apply(s, e);
    forall n | n in t.actions ensures Agrees(t.actions[n], t.runs) {
      if n !in s.actions {
        assert t.actions[n].status.runId == "" && t.actions[n].status.phase.Unset?;
      } else if !e.ActionReconciled? {
        OtherEventAgrees(s, n, e);
      } else if e.name == n {
        OwnReconcileAgrees(s, n, e.env);
      } else if e.name in s.actions {
        OtherReconcileAgrees(s, n, e.name, e.env);
      }
    }
  }

  /**
   * Along every history an action that ended with a run on record ended as that run did, as long as the run is
   * stored: SUCCEEDED with a run that succeeded, FAILED with one that failed, CANCELED with one that is over too.
   */
  lemma {:induction false} EndsAgree(s: State, events: seq<Event>)
    requires Sound(s) && RunsInOrder(s) && AllAgree(s) && forall e :: e in events ==> WellNamed(e)
    ensures AllAgree(Exec(s, events))
    decreases |events|
  {
    if events == [] {
    } else {
      StepKeepsSound(s, events[0]);
      StepKeepsRuns(s, events[0]);
      StepKeepsAgreement(s, events[0]);
      EndsAgree(Apply(s, events[0]), events[1..]);
    }
  }

  // ---- Runs that are left behind ----

  /** An action that ends while its run is under way leaves it so if and only if it forgets the run. */
  lemma LeavesRunLiveIff(s: State, name: string, env: ActionEnv)
    requires Sound(s) && name in s.actions && !IsTerminal(s.actions[name]) && s.actions[name].status.runId in s.runs
    requires s.actions[name].status.runId != "" && AgentRuns.IsLive(s.runs[s.actions[name].status.runId])
    ensures var t, id := ReconcileAction(s, name, env), s.actions[name].status.runId;
      && (IsTerminal(t.actions[name]) && id in t.runs && AgentRuns.IsLive(t.runs[id]) <==>
            ForgetsRun(s, s.actions[name], env))
      && (ForgetsRun(s, s.actions[name], env) ==> t.actions[name].status.phase.Failed? && t.slot == s.slot)
  {
    OpenAgrees(s, name, env);
    ReconcileForgetsIff(s, name, env);
    KnownRun(s, name, env);
  }

  /** A reconcile of an action whose run is stored and under way makes no run; it may cancel this one, or see it go. */
  lemma KnownRun(s: State, name: string, env: ActionEnv)
    requires Sound(s) && name in s.actions && !IsTerminal(s.actions[name]) && s.actions[name].status.runId in s.runs
    requires s.actions[name].status.runId != "" && AgentRuns.IsLive(s.runs[s.actions[name].status.runId])
    ensures var a, t := s.actions[name], ReconcileAction(s, name, env);
      && t.slot == s.slot
      && (!a.spec.stopRequested ==> t.runs == s.runs)
      && (a.spec.stopRequested && t.runs != s.runs ==>
            t.runs == s.runs[a.status.runId := AgentRuns.Cancel(s.runs[a.status.runId])]
            || t.runs == s.runs - {a.status.runId})
      && (LetsGo(s, a, env) ==> t.actions[name].status.runId == "" && !a.spec.stopRequested)
      && (!LetsGo(s, a, env) && a.status.runId in t.runs ==> Holds(t.actions[name], a.status.runId))
      && (ForgetsRun(s, a, env) ==> t.actions[name].status.phase.Failed?)
  {
    var a := s.actions[name];
    TrimProperties(name);
    RunIdIsTrimmed(a, s.policy.maxRetries);
    OwnerWhenActive(s, name);
    if a.spec.stopRequested {
      KnownRunStopped(s, a, env);
    } else if env.listOk {
      ActiveIsDerived(s, name, env);
      KnownRunTurn(s, a, env);
    }
  }

  lemma KnownRunStopped(s: State, a: Action, env: ActionEnv)
    requires a.spec.kind.RunTurn? && a.status.runId in s.runs && Trim(a.status.runId) == a.status.runId != ""
    requires AgentRuns.IsLive(s.runs[a.status.runId])
    ensures var d, run := DeriveStopped(s, a, env), s.runs[a.status.runId];
      && d.slot == s.slot && d.status.Some? && d.status.value.runId == a.status.runId
      && (d.runs == s.runs || d.runs == s.runs[a.status.runId := AgentRuns.Cancel(run)]
          || d.runs == s.runs - {a.status.runId})
      && (a.status.runId in d.runs ==> d.status.value.phase.Running?)
  {
    if env.runGoes {
      assert s.runs[a.status.runId := AgentRuns.Cancel(s.runs[a.status.runId])] - {a.status.runId}
        == s.runs - {a.status.runId};
    }
  }

  lemma KnownRunTurn(s: State, a: Action, env: ActionEnv)
    requires Named(a, a.name) && Counted(a, s.policy.maxRetries) && !IsTerminal(a)
    requires a.status.runId in s.runs && Trim(a.status.runId) == a.status.runId != ""
    requires AgentRuns.IsLive(s.runs[a.status.runId])
    ensures var d := DeriveRunTurn(s, a, env);
      && d.slot == s.slot && d.runs == s.runs && d.status.Some?
      && (if env.session.SessionFound? && env.getOk
          then d.status.value.phase.Running? && d.status.value.runId == a.status.runId
          else d.status.value.runId == "")
      && (env.session.SessionMissing? ==> d.status.value.phase.Failed?)
      && (a.status.retryCount == s.policy.maxRetries && CallsFail(s, a, env) ==> d.status.value.phase.Failed?)
  {
    assert Trim("") == "";
  }

  predicate Holds(a: Action, runId: string) {
    !IsTerminal(a) && a.status.runId == runId
  }

  ghost predicate OnRecord(actions: map<string, Action>, runId: string) {
    exists n :: n in actions && Holds(actions[n], runId)
  }

  /** Every run under way is on the record of an action that has not ended. */
  ghost predicate AllOnRecord(s: State) {
    forall r :: r in s.runs && AgentRuns.IsLive(s.runs[r]) ==> OnRecord(s.actions, r)
  }

  /** The session or the run on record is not read: the action retries, or fails, without that run. */
  predicate LetsGo(s: State, a: Action, env: ActionEnv) {
    && env.listOk && env.writeOk && !a.spec.stopRequested && !(env.session.SessionFound? && env.getOk)
  }

  /** The creation of the run of a new attempt goes through. */
  predicate MakesRun(s: State, a: Action, env: ActionEnv) {
    var id, c := NextRunAttempt(a).0, env.create;
    c.Claims() && AgentRuns.ClaimSucceeds(s.slot, id) && c.specOk && id !in s.runs && c.createOk
  }

  /** The two ways in which a run under way is left behind: its action lets it go, or its launch is not recorded. */
  ghost predicate LeavesBehind(s: State, e: Event) {
    && e.ActionReconciled? && e.name in s.actions
    && var a, env := s.actions[e.name], e.env;
    || (&& !IsTerminal(a) && a.status.runId != "" && a.status.runId in s.runs
        && AgentRuns.IsLive(s.runs[a.status.runId]) && LetsGo(s, a, env))
    || (StartsAttempt(s, e.name, env) && MakesRun(s, a, env) && !env.writeOk)
  }

  lemma HolderIsUnique(s: State, m: string, n: string, runId: string)
    requires Sound(s) && m in s.actions && n in s.actions && runId != ""
    requires s.actions[m].status.runId == runId && s.actions[n].status.runId == runId
    ensures m == n
  {
    RunIdsDiffer(m, s.actions[m].status.attemptCount, n, s.actions[n].status.attemptCount);
  }

  /** A run on the record of one action stays there when another changes. */
  lemma OthersHold(s: State, name: string, b: Action, r: string)
    requires Sound(s) && name in s.actions && r != ""
    ensures OnRecord(s.actions[name := b], r) <==>
      Holds(b, r) || (OnRecord(s.actions, r) && !Holds(s.actions[name], r))
  {
    forall n | n in s.actions && Holds(s.actions[n], r) && Holds(s.actions[name], r) ensures n == name {
      HolderIsUnique(s, n, name, r);
    }
    HolderAfterUpdate(s.actions, name, b, r);
  }

  lemma HolderAfterUpdate(actions: map<string, Action>, name: string, b: Action, r: string)
    requires name in actions
    requires Holds(actions[name], r) ==> forall n :: n in actions && Holds(actions[n], r) ==> n == name
    ensures OnRecord(actions[name := b], r) <==> Holds(b, r) || (OnRecord(actions, r) && !Holds(actions[name], r))
  {
    var t := actions[name := b];
    assert t[name] == b && forall n :: n in actions && n != name ==> t[n] == actions[n];
  }

  /** The runs under way after a reconcile, when its action had one on record. */
  lemma KnownRunLeftIff(s: State, name: string, env: ActionEnv)
    requires Sound(s) && RunsInOrder(s) && AllOnRecord(s) && name in s.actions && !IsTerminal(s.actions[name])
    requires s.actions[name].status.runId in s.runs && AgentRuns.IsLive(s.runs[s.actions[name].status.runId])
    ensures AllOnRecord(ReconcileAction(s, name, env)) <==> !LetsGo(s, s.actions[name], env)
  {
    var a, t, id := s.actions[name], ReconcileAction(s, name, env), s.actions[name].status.runId;
    var b := t.actions[name];
    KnownRun(s, name, env);
    ReconcileUpdates(s, name, env);
    OthersHold(s, name, b, id);
    forall r | r in t.runs && AgentRuns.IsLive(t.runs[r]) && r != id ensures OnRecord(t.actions, r) {
      assert r in s.runs && t.runs[r] == s.runs[r];
      OthersHold(s, name, b, r);
    }
    if LetsGo(s, a, env) { assert id in t.runs && !OnRecord(t.actions, id); }
  }

  /** What is under way after a reconcile is on record if it is that of this action now, or was that of another. */
  lemma RecordKept(s: State, name: string, env: ActionEnv)
    requires Sound(s) && "" !in ReconcileAction(s, name, env).runs && AllOnRecord(s) && name in s.actions
    requires var t := ReconcileAction(s, name, env);
      forall r :: r in t.runs && AgentRuns.IsLive(t.runs[r]) ==>
        || Holds(t.actions[name], r)
        || (r in s.runs && AgentRuns.IsLive(s.runs[r]) && !Holds(s.actions[name], r))
    ensures AllOnRecord(ReconcileAction(s, name, env))
  {
    var t := ReconcileAction(s, name, env);
    ReconcileUpdates(s, name, env);
    forall r | r in t.runs && AgentRuns.IsLive(t.runs[r]) ensures OnRecord(t.actions, r) {
      OthersHold(s, name, t.actions[name], r);
    }
  }

  lemma RecreatedIsRecorded(s: State, a: Action, env: ActionEnv)
    requires Trim(a.status.runId) == a.status.runId != "" && DeriveRunTurn(s, a, env).runs != s.runs
    ensures var d := DeriveRunTurn(s, a, env);
      d.status.Some? && d.status.value.phase.Running? && d.status.value.runId == a.status.runId
  {
  }

  /** An action whose run on record is missing or over leaves no run behind: at most it makes the missing one anew. */
  lemma LostRunLeavesNone(s: State, name: string, env: ActionEnv)
    requires Sound(s) && RunsInOrder(s) && AllOnRecord(s) && name in s.actions && !IsTerminal(s.actions[name])
    requires var id := s.actions[name].status.runId;
      id != "" && (id in s.runs ==> !AgentRuns.IsLive(s.runs[id]))
    ensures AllOnRecord(ReconcileAction(s, name, env))
  {
    var a, d := s.actions[name], DeriveStatus(s, s.actions[name], env);
    ReconcileKeepsRuns(s, name, env);
    RunIdIsTrimmed(a, s.policy.maxRetries);
    DeriveCases(s, a, env);
    StoppedRuns(s, a, env);
    RunTurnRuns(s, a, env);
    if d.runs != s.runs && !a.spec.stopRequested { RecreatedIsRecorded(s, a, env); }
    RecordKept(s, name, env);
  }

  lemma NewRunIff(s: State, name: string, env: ActionEnv)
    requires Sound(s) && name in s.actions && s.actions[name].status.runId == ""
    ensures var a, d, id := s.actions[name], DeriveStatus(s, s.actions[name], env), NextRunAttempt(s.actions[name]).0;
      if StartsAttempt(s, name, env) && MakesRun(s, a, env)
      then Adds(s.runs, d.runs, id) && d.status.Some? && d.status.value.phase.Running? && d.status.value.runId == id
      else d.runs == s.runs
  {
    var a := s.actions[name];
    RunIdIsTrimmed(a, s.policy.maxRetries);
    RunIdIsClean(name, CurrentAttemptCount(a) + 1);
    DeriveCases(s, a, env);
    if StartsAttempt(s, name, env) {
      StartIsRunTurn(s, name, env);
      CreationAdds(s, a, env);
    } else if !a.spec.stopRequested {
      RunTurnRuns(s, a, env);
    }
  }

  lemma CreationAdds(s: State, a: Action, env: ActionEnv)
    requires a.spec.candidates.Some? && env.session.SessionFound? && Trim(a.status.runId) == ""
    requires CurrentCandidateIndex(a) < CandidateCount(a) && Trim(NextRunAttempt(a).0) == NextRunAttempt(a).0
    ensures var d, id := DeriveRunTurn(s, a, env), NextRunAttempt(a).0;
      if MakesRun(s, a, env)
      then Adds(s.runs, d.runs, id) && d.status.Some? && d.status.value.phase.Running? && d.status.value.runId == id
      else d.runs == s.runs
  {
  }

  lemma NextId(s: State, name: string)
    requires Sound(s) && name in s.actions && s.actions[name].status.runId == ""
    ensures var a := s.actions[name];
      NextRunAttempt(a).0 == AttemptRunId(name, a.status.attemptCount + 1) && NextRunAttempt(a).0 != ""
  {
    RunIdIsTrimmed(s.actions[name], s.policy.maxRetries);
    RunIdIsClean(name, s.actions[name].status.attemptCount + 1);
  }

  lemma NobodyHoldsNext(s: State, name: string)
    requires Sound(s) && name in s.actions && s.actions[name].status.runId == ""
    ensures NextRunAttempt(s.actions[name]).0 != "" && !OnRecord(s.actions, NextRunAttempt(s.actions[name]).0)
  {
    var id := NextRunAttempt(s.actions[name]).0;
    NextId(s, name);
    if n :| n in s.actions && Holds(s.actions[n], id) {
      if n != name { NextIdDiffers(s, n, name); }
    }
  }

  lemma UnrecordedIsLeft(s: State, name: string, env: ActionEnv)
    requires Sound(s) && name in s.actions && s.actions[name].status.runId == ""
    requires StartsAttempt(s, name, env) && MakesRun(s, s.actions[name], env) && !env.writeOk
    ensures !AllOnRecord(ReconcileAction(s, name, env))
  {
    var t, id := ReconcileAction(s, name, env), NextRunAttempt(s.actions[name]).0;
    NewRunIff(s, name, env);
    NobodyHoldsNext(s, name);
    assert t.actions == s.actions && id in t.runs && AgentRuns.IsLive(t.runs[id]);
  }

  lemma NewRunIsKept(s: State, name: string, env: ActionEnv)
    requires Sound(s) && RunsInOrder(s) && AllOnRecord(s) && name in s.actions && s.actions[name].status.runId == ""
    requires !(StartsAttempt(s, name, env) && MakesRun(s, s.actions[name], env) && !env.writeOk)
    ensures AllOnRecord(ReconcileAction(s, name, env))
  {
    NewRunIff(s, name, env);
    ReconcileKeepsRuns(s, name, env);
    RecordKept(s, name, env);
  }

  lemma NewRunLeftIff(s: State, name: string, env: ActionEnv)
    requires Sound(s) && RunsInOrder(s) && AllOnRecord(s) && name in s.actions && s.actions[name].status.runId == ""
    ensures AllOnRecord(ReconcileAction(s, name, env)) <==>
      !(StartsAttempt(s, name, env) && MakesRun(s, s.actions[name], env) && !env.writeOk)
  {
    if StartsAttempt(s, name, env) && MakesRun(s, s.actions[name], env) && !env.writeOk {
      UnrecordedIsLeft(s, name, env);
    } else {
      NewRunIsKept(s, name, env);
    }
  }

  lemma EndedLeavesNone(s: State, name: string, env: ActionEnv)
    requires Sound(s) && AllOnRecord(s) && name in s.actions && IsTerminal(s.actions[name])
    ensures AllOnRecord(ReconcileAction(s, name, env))
  {
    TrimProperties(name);
    var t := ReconcileAction(s, name, env);
    assert t.runs == s.runs;
    assert t.actions[name] == s.actions[name] && t.actions == s.actions;
  }

  lemma OtherEventLeavesNone(s: State, e: Event)
    requires Sound(s) && RunsInOrder(s) && AllOnRecord(s) && !e.ActionReconciled?
    ensures AllOnRecord(Apply(s, e))
  {
    var t := Apply(s, e);
    forall r | r in t.runs && AgentRuns.IsLive(t.runs[r]) ensures OnRecord(t.actions, r) {
      EndedRunsStay(s, e, r);
      var n :| n in s.actions && Holds(s.actions[n], r);
      StatusStays(s, n, e);
      assert n in t.actions && Holds(t.actions[n], r);
    }
  }

  /** From a state where every run under way is on record, a step keeps it so if and only if it leaves none behind. */
  lemma StepKeepsRecordIff(s: State, e: Event)
    requires Sound(s) && RunsInOrder(s) && AllOnRecord(s)
    ensures AllOnRecord(Apply(s, e)) <==> !LeavesBehind(s, e)
  {
    if !e.ActionReconciled? {
      OtherEventLeavesNone(s, e);
    } else if e.name in s.actions {
      var a := s.actions[e.name];
      if IsTerminal(a) {
        EndedLeavesNone(s, e.name, e.env);
      } else if a.status.runId == "" {
        NewRunLeftIff(s, e.name, e.env);
      } else if a.status.runId in s.runs && AgentRuns.IsLive(s.runs[a.status.runId]) {
        RunIdIsTrimmed(a, s.policy.maxRetries);
        KnownRunLeftIff(s, e.name, e.env);
      } else {
        RunIdIsTrimmed(a, s.policy.maxRetries);
        LostRunLeavesNone(s, e.name, e.env);
      }
    }
  }

  /** Along the whole history every run under way is on record. */
  ghost predicate RecordedThroughout(s: State, events: seq<Event>)
    decreases |events|
  {
    AllOnRecord(s) && (events != [] ==> RecordedThroughout(Apply(s, events[0]), events[1..]))
  }

  ghost predicate NoneLeftBehind(s: State, events: seq<Event>)
    decreases |events|
  {
    events != [] ==> !LeavesBehind(s, events[0]) && NoneLeftBehind(Apply(s, events[0]), events[1..])
  }

  /**
   * Along every history each run under way is on the record of an action that has not ended, if and only if no
   * reconcile lets a run under way go unread and no launch stays unrecorded.
   */
  lemma {:induction false} RecordedThroughoutIff(s: State, events: seq<Event>)
    requires Sound(s) && RunsInOrder(s) && AllOnRecord(s) && forall e :: e in events ==> WellNamed(e)
    ensures RecordedThroughout(s, events) <==> NoneLeftBehind(s, events)
    decreases |events|
  {
    if events == [] {
    } else {
      StepKeepsRecordIff(s, events[0]);
      StepKeepsSound(s, events[0]);
      StepKeepsRuns(s, events[0]);
      if !LeavesBehind(s, events[0]) { RecordedThroughoutIff(Apply(s, events[0]), events[1..]); }
    }
  }

  /** A new session has no ends that disagree, and no runs. */
  lemma InitialAgrees(policy: RetryPolicies.RetryPolicy, now: int)
    requires RetryPolicies.Normalized(policy)
    ensures var s := Initial(policy, now); Sound(s) && RunsInOrder(s) && AllAgree(s) && AllOnRecord(s)
  {
  }
}
