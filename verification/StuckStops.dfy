/** When a stop can still end its action, and what becomes of the queue when it cannot. */
module StuckStops {
  import opened Wrappers
  import opened Text
  import opened Actions
  import opened System
  import opened ActionMoves
  import opened SlotSafety
  import opened QueueSafety
  import AgentRuns

  /** A stopped run_turn action that has a run on record and has not ended. */
  predicate Stopping(s: State, name: string) {
    name in s.actions
    && var a := s.actions[name];
    && a.spec.stopRequested && !IsTerminal(a) && a.spec.kind.RunTurn? && a.status.runId != ""
  }

  /** Its run is missing, or under way and under deletion: then no status will say that it is over. */
  predicate Stuck(s: State, name: string) {
    Stopping(s, name)
    && var id := s.actions[name].status.runId;
    id in s.runs ==> AgentRuns.IsLive(s.runs[id]) && s.runs[id].deleting
  }

  /** The stop branch on its own action, whatever becomes of its run. */
  lemma StopBranch(s: State, name: string, env: ActionEnv)
    requires Sound(s) && Stopping(s, name)
    ensures var a := s.actions[name];
      DeriveStatus(s, a, env) == DeriveStopped(s, a, env) && Trim(a.status.runId) == a.status.runId
      && RunningStatus(a, s.now, a.status.runId, CurrentAttemptCount(a),
                       CurrentCandidateIndex(a)).runId == a.status.runId
  {
    TrimProperties(name);
    RunIdIsTrimmed(s.actions[name], s.policy.maxRetries);
  }

  /** What the stop branch makes of a run that is over. */
  lemma StopSees(s: State, a: Action, env: ActionEnv)
    requires a.spec.kind.RunTurn? && a.status.runId != "" && Trim(a.status.runId) == a.status.runId
    requires a.status.runId in s.runs && !AgentRuns.IsLive(s.runs[a.status.runId]) && env.cancelOk && env.getOk
    ensures var d, phase := DeriveStopped(s, a, env), s.runs[a.status.runId].status.phase;
      && d.slot == s.slot && d.status.Some?
      && d.status.value.phase == if phase.Succeeded? && !env.runGoes then Succeeded else Canceled
  {
  }

  /** The run of the action is removed between the cancel and the read of one of its reconciles. */
  predicate Slips(s: State, name: string, e: Event) {
    && e.ActionReconciled? && e.name == name && e.env.runGoes && e.env.cancelOk && e.env.getOk && e.env.writeOk
    && name in s.actions && s.actions[name].status.runId in s.runs
  }

  lemma OwnReconcileKeepsStuckIff(s: State, name: string, env: ActionEnv)
    requires Sound(s) && Stuck(s, name)
    ensures var t := ReconcileAction(s, name, env);
      if Slips(s, name, ActionReconciled(name, env)) then name in t.actions && t.actions[name].status.phase.Canceled?
      else Stuck(t, name) && t.actions[name].status.runId == s.actions[name].status.runId
  {
    StopBranch(s, name, env);
  }

  lemma OtherReconcileKeepsStuck(s: State, name: string, other: string, env: ActionEnv)
    requires Sound(s) && Stuck(s, name) && other in s.actions && other != name
    ensures var t := ReconcileAction(s, other, env);
      Stuck(t, name) && t.actions[name].status.runId == s.actions[name].status.runId
  {
    RunOfAnother(s, name, other, env);
  }

  lemma RunEventKeepsStuck(s: State, name: string, e: Event)
    requires Stuck(s, name) && !e.ActionReconciled?
    ensures Stuck(Apply(s, e), name) && Apply(s, e).actions[name].status.runId == s.actions[name].status.runId
  {
  }

  /** A stuck stop stays stuck through every event but one; that one cancels it. */
  lemma StepKeepsStuckIff(s: State, name: string, e: Event)
    requires Sound(s) && Stuck(s, name)
    ensures var t := Apply(s, e);
      if Slips(s, name, e) then name in t.actions && t.actions[name].status.phase.Canceled?
      else Stuck(t, name) && t.actions[name].status.runId == s.actions[name].status.runId
  {
    if !e.ActionReconciled? {
      RunEventKeepsStuck(s, name, e);
    } else if e.name == name {
      OwnReconcileKeepsStuckIff(s, name, e.env);
    } else if e.name in s.actions {
      OtherReconcileKeepsStuck(s, name, e.name, e.env);
    }
  }

  lemma StepKeepsMissing(s: State, name: string, e: Event)
    requires Sound(s) && Stopping(s, name) && s.actions[name].status.runId !in s.runs
    ensures var t := Apply(s, e); Stopping(t, name) && t.actions[name].status.runId !in t.runs
  {
    StepKeepsStuckIff(s, name, e);
    if e.ActionReconciled? {
      if e.name == name {
        StopBranch(s, name, e.env);
      } else if e.name in s.actions {
        RunOfAnother(s, name, e.name, e.env);
      }
    }
  }

  lemma StuckRests(s: State, name: string, other: string)
    requires Sound(s) && Stuck(s, name)
    ensures AtRest(s, other)
  {
    RunIdIsTrimmed(s.actions[name], s.policy.maxRetries);
    assert IsActive(s.actions[name]);
    if other == name { StoppedRests(s, name); }
  }

  ghost predicate NeverSlips(s: State, name: string, events: seq<Event>)
    decreases |events|
  {
    events != [] ==> !Slips(s, name, events[0]) && NeverSlips(Apply(s, events[0]), name, events[1..])
  }

  /**
   * Along every history a stuck stop ends if and only if its run slips away between the two calls of one
   * reconcile; until then no other action of the session makes an attempt.
   */
  lemma {:induction false} StuckStopEndsIff(s: State, name: string, events: seq<Event>)
    requires Sound(s) && Stuck(s, name) && forall e :: e in events ==> WellNamed(e)
    ensures Sound(Exec(s, events)) && name in Exec(s, events).actions
    ensures IsTerminal(Exec(s, events).actions[name]) <==> !NeverSlips(s, name, events)
    ensures NeverSlips(s, name, events) ==>
      Stuck(Exec(s, events), name) && forall other :: AtRest(Exec(s, events), other)
    decreases |events|
  {
    if events == [] {
      forall other ensures AtRest(s, other) { StuckRests(s, name, other); }
    } else {
      var t := Apply(s, events[0]);
      StepKeepsSound(s, events[0]);
      StepKeepsStuckIff(s, name, events[0]);
      if Slips(s, name, events[0]) {
        AtMostOneActive(t, events[1..]);
        KeyIsForLife(t, name, events[1..]);
      } else {
        StuckStopEndsIff(t, name, events[1..]);
      }
    }
  }

  /** A stop whose run is missing never ends, and no other action of the session ever makes an attempt. */
  lemma {:induction false} MissingRunBlocksTheQueue(s: State, name: string, events: seq<Event>)
    requires Sound(s) && Stopping(s, name) && s.actions[name].status.runId !in s.runs
    requires forall e :: e in events ==> WellNamed(e)
    ensures var t := Exec(s, events); Stopping(t, name) && t.actions[name].status.runId !in t.runs
    ensures forall other :: AtRest(Exec(s, events), other)
    decreases |events|
  {
    if events == [] {
      forall other ensures AtRest(s, other) { StuckRests(s, name, other); }
    } else {
      StepKeepsSound(s, events[0]);
      StepKeepsMissing(s, name, events[0]);
      MissingRunBlocksTheQueue(Apply(s, events[0]), name, events[1..]);
    }
  }

  /** Deleting the run that is under way and stopping its action, in this order, is all it takes. */
  lemma StuckIsReachable(s: State, name: string)
    requires Sound(s) && name in s.actions && !IsTerminal(s.actions[name]) && s.actions[name].status.runId in s.runs
    requires s.actions[name].status.runId != "" && AgentRuns.IsLive(s.runs[s.actions[name].status.runId])
    ensures Stuck(Exec(s, [RunDeleted(s.actions[name].status.runId), ActionStopped(name)]), name)
  {
    var e, f := RunDeleted(s.actions[name].status.runId), ActionStopped(name);
    assert [e, f][1..] == [f] && [f][1..] == [];
    assert Exec(s, [e, f]) == Exec(Apply(s, e), [f]) == Apply(Apply(s, e), f);
  }

  // ---- When it still can end ----

  /** A history of well-named events that ends the action. */
  ghost predicate EndsBy(s: State, name: string, events: seq<Event>) {
    && (forall e :: e in events ==> WellNamed(e))
    && name in Exec(s, events).actions && IsTerminal(Exec(s, events).actions[name])
  }

  /** An answer to everything that gets in no one's way, and a workflow that is not there. */
  function QuietEnv(): ActionEnv {
    ActionEnv(true, SessionFound, true, true, true, false,
              AgentRuns.CreateEnv(None, AgentRuns.Validation, true, true, true, true, true), OtherRuns, true)
  }

  function QuietRunEnv(): AgentRuns.RunEnv {
    AgentRuns.RunEnv(true, None, AgentRuns.WorkflowNotFound, AgentRuns.CallNotFound, AgentRuns.CallOk, true, true, true)
  }

  /** A stop that is passed on to a live run marks it, and goes on. */
  lemma StopCancels(s: State, name: string, env: ActionEnv)
    requires Sound(s) && Stopping(s, name) && s.actions[name].status.runId in s.runs && env.cancelOk && !env.runGoes
    requires AgentRuns.IsLive(s.runs[s.actions[name].status.runId])
    ensures var id, t := s.actions[name].status.runId, Apply(s, ActionReconciled(name, env));
      && Stopping(t, name) && t.actions[name].status.runId == id && id in t.runs
      && t.runs[id] == AgentRuns.Cancel(s.runs[id])
  {
    StopBranch(s, name, env);
  }

  lemma CancelEndsRun(r: AgentRuns.Run)
    requires AgentRuns.IsLive(r) && !r.deleting
    ensures var s := AgentRuns.Reconcile(AgentRuns.Cancel(r), QuietRunEnv());
      s.run.Some? && !AgentRuns.IsLive(s.run.value)
  {
    var c := AgentRuns.Cancel(r).(finalizer := true);
    assert c.cancelRequested && AgentRuns.IsLive(c);
    assert AgentRuns.ReconcileActive(c, QuietRunEnv()).run.Some?;
  }

  lemma StopSeesTheEnd(s: State, name: string)
    requires Sound(s) && Stopping(s, name) && s.actions[name].status.runId in s.runs
    requires !AgentRuns.IsLive(s.runs[s.actions[name].status.runId])
    ensures name in Apply(s, ActionReconciled(name, QuietEnv())).actions
    ensures IsTerminal(Apply(s, ActionReconciled(name, QuietEnv())).actions[name])
  {
    StopBranch(s, name, QuietEnv());
    StopSees(s, s.actions[name], QuietEnv());
  }

  /** A stored run that slips away ends the stop, whatever state it is in. */
  lemma SlipEnds(s: State, name: string)
    requires Sound(s) && Stopping(s, name) && s.actions[name].status.runId in s.runs
    ensures EndsBy(s, name, [ActionReconciled(name, QuietEnv().(runGoes := true))])
  {
    var e := ActionReconciled(name, QuietEnv().(runGoes := true));
    StopBranch(s, name, e.env);
    assert [e][1..] == [] && Exec(s, [e]) == Exec(Apply(s, e), []) == Apply(s, e);
  }

  lemma OverEnds(s: State, name: string)
    requires Sound(s) && Stopping(s, name) && s.actions[name].status.runId in s.runs
    requires !AgentRuns.IsLive(s.runs[s.actions[name].status.runId])
    ensures EndsBy(s, name, [ActionReconciled(name, QuietEnv())])
    ensures NeverSlips(s, name, [ActionReconciled(name, QuietEnv())])
  {
    var e := ActionReconciled(name, QuietEnv());
    StopSeesTheEnd(s, name);
    assert [e][1..] == [] && Exec(s, [e]) == Exec(Apply(s, e), []) == Apply(s, e);
  }

  lemma LiveEnds(s: State, name: string) returns (events: seq<Event>)
    requires Sound(s) && Stopping(s, name) && s.actions[name].status.runId in s.runs
    requires var r := s.runs[s.actions[name].status.runId]; AgentRuns.IsLive(r) && !r.deleting
    ensures EndsBy(s, name, events) && NeverSlips(s, name, events)
  {
    var id := s.actions[name].status.runId;
    var e, f := ActionReconciled(name, QuietEnv()), RunReconciled(id, QuietRunEnv());
    StopCancels(s, name, QuietEnv());
    StepKeepsSound(s, e);
    CancelIsSeen(Apply(s, e), name, s.runs[id]);
    ExecThree(s, e, f, e);
    AllNamed(e, f);
    events := [e, f, e];
    assert events[1..] == [f, e] && [f, e][1..] == [e] && [e][1..] == [];
    assert !Slips(s, name, e) && !Slips(Apply(s, e), name, f) && !Slips(Apply(Apply(s, e), f), name, e);
    assert NeverSlips(Apply(Apply(s, e), f), name, [e]);
    assert NeverSlips(Apply(s, e), name, [f, e]);
  }

  lemma AllNamed(e: Event, f: Event)
    requires !e.ActionCreated? && !f.ActionCreated?
    ensures forall g :: g in [e, f, e] ==> WellNamed(g)
  {
  }

  lemma CancelIsSeen(s: State, name: string, r: AgentRuns.Run)
    requires Sound(s) && Stopping(s, name) && s.actions[name].status.runId in s.runs
    requires AgentRuns.IsLive(r) && !r.deleting && s.runs[s.actions[name].status.runId] == AgentRuns.Cancel(r)
    ensures var id := s.actions[name].status.runId;
      var t := Apply(Apply(s, RunReconciled(id, QuietRunEnv())), ActionReconciled(name, QuietEnv()));
      name in t.actions && IsTerminal(t.actions[name])
  {
    var f := RunReconciled(s.actions[name].status.runId, QuietRunEnv());
    CancelEndsRun(r);
    StepKeepsSound(s, f);
    StopSeesTheEnd(Apply(s, f), name);
  }

  lemma ExecThree(s: State, e: Event, f: Event, g: Event)
    ensures Exec(s, [e, f, g]) == Apply(Apply(Apply(s, e), f), g)
  {
    assert [e, f, g][1..] == [f, g] && [f, g][1..] == [g] && [g][1..] == [];
    var t := Apply(s, e);
    assert Exec(t, [f, g]) == Exec(Apply(t, f), [g]) == Apply(Apply(t, f), g);
  }

  /**
   * A stopped run_turn action with a run on record can still end if and only if its run is stored; and without
   * the run slipping away, if and only if it is also over or not under deletion.
   */
  lemma StopCanEndIff(s: State, name: string)
    requires Sound(s) && Stopping(s, name)
    ensures (exists events :: EndsBy(s, name, events)) <==> s.actions[name].status.runId in s.runs
    ensures (exists events :: EndsBy(s, name, events) && NeverSlips(s, name, events)) <==>
      var id := s.actions[name].status.runId;
      id in s.runs && (!AgentRuns.IsLive(s.runs[id]) || !s.runs[id].deleting)
  {
    var id := s.actions[name].status.runId;
    if id !in s.runs {
      forall events | EndsBy(s, name, events) ensures false { MissingRunBlocksTheQueue(s, name, events); }
    } else {
      SlipEnds(s, name);
      if Stuck(s, name) {
        forall events | EndsBy(s, name, events) && NeverSlips(s, name, events) ensures false {
          StuckStopEndsIff(s, name, events);
        }
      } else if AgentRuns.IsLive(s.runs[id]) {
        var events := LiveEnds(s, name);
      } else {
        OverEnds(s, name);
      }
    }
  }
}
