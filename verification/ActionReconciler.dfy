/**
 * The action reconciler of one session, working in place on the action store and, through the run
 * service, on the runs and the slot. Each of its methods is one event of module System.
 */
module ActionReconciler {
  import opened Wrappers
  import opened Text
  import opened RetryPolicies
  import opened Actions
  import opened System
  import opened ActionQueue
  import AgentRuns
  import RunService

  class ActionReconciler {
    const runs: RunService.RunService
    const policy: RetryPolicy
    var store: map<string, Action>
    var now: int

    constructor (runs: RunService.RunService, input: RetryPolicy, now: int)
      requires runs.Valid()
      ensures Valid() && this.runs == runs
      ensures Normalized(policy) && (Normalized(input) ==> policy == input)
      ensures View() == State.State(policy, now, map[], runs.runs, runs.slot)
    {
      var normalized := NormalizeRetryPolicy(input);
      this.runs, policy, store, this.now := runs, normalized, map[], now;
    }

    ghost predicate Valid()
      reads this, runs
    {
      runs.Valid() && Normalized(policy) && Keyed(store)
    }

    ghost function View(): State
      reads this, runs
    {
      State.State(policy, now, store, runs.runs, runs.slot)
    }

    method ScheduleRetry(a: Action, exhausted: FailureClass) returns (t: ActionStatus)
      requires Valid()
      ensures t == ScheduleRetryStatus(a, now, exhausted, policy)
    {
      var retryCount := a.status.retryCount + 1;
      if retryCount > policy.maxRetries {
        t := BuildStatus(a, now, Failed, "", exhausted, policy.maxRetries, a.status.attemptCount,
                         a.status.candidateIndex, None);
      } else {
        var delay := RetryDelay(retryCount, policy);
        t := BuildStatus(a, now, Pending, "", Transient, retryCount, a.status.attemptCount, a.status.candidateIndex,
                         Some(now + delay / SECOND));
      }
    }

    method CreateOrGetRun(a: Action, env: ActionEnv) returns (runId: string, attempt: int, fault: Option<Fault>)
      requires Valid()
      modifies runs`runs, runs`slot
      ensures Valid()
      ensures (runId, attempt) == NextRunAttempt(a)
      ensures var (c, f) := System.CreateOrGetRun(old(View()), a, env);
        runs.runs == c.runs && runs.slot == c.slot && fault == f
    {
      var next := NextRunAttempt(a);
      runId, attempt := next.0, next.1;
      if CurrentCandidateIndex(a) >= CandidateCount(a) { return runId, attempt, Some(AgentRuns.Validation); }
      var reply := runs.Create(a.spec.sessionId, runId, env.create);
      match reply
      case Created => fault := None;
      case AlreadyExists => fault := if env.reGetOk && runId in runs.runs then None else Some(AgentRuns.OtherFault);
      case Rejected(f) => fault := Some(f);
    }

    method DeriveRunTurnStatus(a: Action, env: ActionEnv) returns (t: ActionStatus)
      requires Valid()
      modifies runs`runs, runs`slot
      ensures Valid()
      ensures Derived(runs.runs, runs.slot, Some(t)) == DeriveRunTurn(old(View()), a, env)
    {
      if a.spec.candidates.None? || env.session.SessionMissing? { return FailedStatus(a, now); }
      if env.session.SessionError? {
        t := ScheduleRetry(a, ManualRetry);
        return;
      }
      if Trim(a.status.runId) == "" {
        var runId, attempt, fault := CreateOrGetRun(a, env);
        if fault.None? { return RunningStatus(a, now, runId, attempt, CurrentCandidateIndex(a)); }
        if fault.value.Validation? { return PendingBlockedStatus(a, now); }
        t := ScheduleRetry(a, ManualRetry);
        return;
      }
      var runId := Trim(a.status.runId);
      if env.getOk && runId in runs.runs {
        var run := runs.runs[runId].status;
        match run.phase {
          case Succeeded => t := TerminalStatus(a, now, Succeeded, NoClass);
          case Failed => t := FailedRunTurnStatus(a, now, run.result.Some? && run.result.value.retryable, policy);
          case Canceled => t := TerminalStatus(a, now, Canceled, NoClass);
          case _ => t := RunningStatus(a, now, a.status.runId, CurrentAttemptCount(a), CurrentCandidateIndex(a));
        }
        return;
      }
      if env.getOk {
        var missing, attempt, fault := CreateOrGetRun(a, env);
        if fault.None? { return RunningStatus(a, now, missing, attempt, CurrentCandidateIndex(a)); }
      }
      t := ScheduleRetry(a, ManualRetry);
    }

    method DeriveStoppedStatus(a: Action, env: ActionEnv) returns (t: ActionStatus)
      requires Valid()
      modifies runs`runs
      ensures Valid()
      ensures Derived(runs.runs, runs.slot, Some(t)) == DeriveStopped(old(View()), a, env)
    {
      if !a.spec.kind.RunTurn? || a.status.runId == "" { return CanceledStatus(a, now); }
      t := RunningStatus(a, now, a.status.runId, CurrentAttemptCount(a), CurrentCandidateIndex(a));
      var runId := Trim(a.status.runId);
      if !env.cancelOk { return; }
      TrimProperties(a.status.runId);
      var reply := runs.Cancel(runId);
      if !reply.CallOk? { return; }
      if env.runGoes { runs.runs := runs.runs - {runId}; }
      if !env.getOk { return; }
      if env.runGoes { return CanceledStatus(a, now); }
      match runs.runs[runId].status.phase
      case Succeeded => t := TerminalStatus(a, now, Succeeded, NoClass);
      case Failed => t := CanceledStatus(a, now);
      case Canceled => t := CanceledStatus(a, now);
      case _ =>
    }

    method DeriveStatus(a: Action, env: ActionEnv) returns (t: Option<ActionStatus>)
      requires Valid() && a.name in store && store[a.name] == a
      modifies runs`runs, runs`slot
      ensures Valid()
      ensures Derived(runs.runs, runs.slot, t) == System.DeriveStatus(old(View()), a, env)
    {
      if IsInvalid(a) { return Some(FailedStatus(a, now)); }
      if IsTerminal(a) { return Some(a.status); }
      if a.spec.stopRequested {
        var stopped := DeriveStoppedStatus(a, env);
        return Some(stopped);
      }
      if !env.listOk { return None; }
      var items := ListSessionActions(store);
      var owner := QueueOwnerId(items, store);
      if owner != a.name { return Some(PendingBlockedStatus(a, now)); }
      var waiting := PendingRetryWindow(a, now);
      if waiting.Some? { return waiting; }
      match a.spec.kind
      case RunTurn =>
        var derived := DeriveRunTurnStatus(a, env);
        t := Some(derived);
      case OtherType => t := Some(FailedStatus(a, now));
      case _ => t := Some(DeriveOther(State.State(policy, now, store, runs.runs, runs.slot), a, env));
    }

    /** Reconcile: derive, and write the status unless it is the same; ok is false when an error is returned. */
    method Reconcile(name: string, env: ActionEnv) returns (ok: bool)
      requires Valid()
      modifies this`store, runs`runs, runs`slot
      ensures Valid() && store.Keys == old(store).Keys
      ensures View() == Apply(old(View()), ActionReconciled(name, env))
      ensures !ok ==> store == old(store)
    {
      if name !in store { return true; }
      var resource := store[name];
      var next := DeriveStatus(resource, env);
      ghost var derived := Derived(runs.runs, runs.slot, next);
      assert Apply(old(View()), ActionReconciled(name, env)) == Stored(old(View()), name, derived, env.writeOk);
      if next.None? { return false; }
      if resource.status == next.value {
        assert store[name := resource] == store;
        return true;
      }
      if !env.writeOk { return false; }
      store := store[name := resource.(status := next.value)];
      ok := true;
    }

    /**
     * ReconcileSessionActions: one reconcile after the other, in queue order, until one returns an error.
     * The pass is a history of the session machine, so what holds of all its histories holds here.
     */
    method ReconcileSessionActions(envs: seq<ActionEnv>) returns (items: seq<Action>, tried: nat, ok: bool)
      requires Valid() && |envs| == |store|
      modifies this`store, runs`runs, runs`slot
      ensures Valid() && store.Keys == old(store).Keys
      ensures Lists(items, old(store)) && tried <= |items| <= |envs| && (ok ==> tried == |items|)
      ensures View() == Exec(old(View()), Pass(items[..tried], envs))
    {
      items := ListSessionActions(store);
      ListingIsShort(items, store);
      tried, ok := 0, true;
      while tried < |items| && ok
        invariant 0 <= tried <= |items| && Valid() && store.Keys == old(store).Keys
        invariant View() == Exec(old(View()), Pass(items[..tried], envs))
      {
        ok := Reconcile(items[tried].name, envs[tried]);
        PassSnoc(old(View()), items, envs, tried);
        tried := tried + 1;
      }
    }

    /** Service.Stop: a blank id is an error, an unknown one is not found. */
    method Stop(actionId: string) returns (reply: AgentRuns.CallReply)
      requires Valid()
      modifies this`store
      ensures Valid() && (reply.CallOk? <==> Trim(actionId) in old(store))
      ensures (reply.CallError? <==> Trim(actionId) == "")
      ensures View() == Apply(old(View()), ActionStopped(Trim(actionId)))
    {
      var name := Trim(actionId);
      if name == "" { return AgentRuns.CallError; }
      if name !in store { return AgentRuns.CallNotFound; }
      reply := AgentRuns.CallOk;
      var a := store[name];
      if !IsTerminal(a) && !a.spec.stopRequested { a := a.(spec := a.spec.(stopRequested := true)); }
      store := store[name := a];
    }

    /** The store's part of Service.Create: a new name gets a stored action, a known one is refused. */
    method Store(name: string, sessionId: string, kind: ActionType, candidates: Option<nat>) returns (ok: bool)
      requires Valid() && name != "" && Trim(name) == name
      modifies this`store
      ensures Valid() && ok == (name !in old(store))
      ensures View() == Apply(old(View()), ActionCreated(name, sessionId, kind, candidates))
    {
      ok := name !in store;
      if ok { store := store[name := NewAction(name, sessionId, kind, candidates, now)]; }
    }
  }

  /** The events of one pass over the listed actions. */
  function Pass(items: seq<Action>, envs: seq<ActionEnv>): (events: seq<Event>)
    requires |items| <= |envs|
  {
    seq(|items|, i requires 0 <= i < |items| => ActionReconciled(items[i].name, envs[i]))
  }

  lemma PassSnoc(s: State, items: seq<Action>, envs: seq<ActionEnv>, k: nat)
    requires k < |items| <= |envs|
    ensures Exec(s, Pass(items[..k + 1], envs)) == Apply(Exec(s, Pass(items[..k], envs)),
                                                         ActionReconciled(items[k].name, envs[k]))
  {
    ExecAppend(s, Pass(items[..k], envs), [ActionReconciled(items[k].name, envs[k])]);
    assert Pass(items[..k + 1], envs) == Pass(items[..k], envs) + [ActionReconciled(items[k].name, envs[k])];
  }

  /** A listing repeats nothing. */
  lemma {:induction false} ListingIsShort(items: seq<Action>, store: map<string, Action>)
    requires Sorted(items) && forall a :: a in items ==> a.name in store && store[a.name] == a
    ensures |items| <= |store|
    decreases |items|
  {
    if items == [] {
    } else {
      var last, rest := items[|items| - 1], items[..|items| - 1];
      forall a | a in rest ensures a.name in store - {last.name} {
        var i :| 0 <= i < |rest| && rest[i] == a;
        BeforeIsOrder(a, last, a);
        assert Before(items[i], items[|items| - 1]);
      }
      ListingIsShort(rest, store - {last.name});
      assert store.Keys == (store - {last.name}).Keys + {last.name};
      assert |store.Keys| == |(store - {last.name}).Keys| + 1;
    }
  }
}
