/**
 * One session as a state machine: its stored actions, its runs and its active-run slot. Every event is
 * one whole reconcile or service call; the environment it carries says what the outside world answers.
 */
module System {
  import opened Wrappers
  import opened Text
  import opened RetryPolicies
  import opened Actions
  import AgentRuns

  type Run = AgentRuns.Run
  type Fault = AgentRuns.Fault

  datatype State = State(
    policy: RetryPolicy, now: int, actions: map<string, Action>, runs: map<string, Run>, slot: string)

  datatype SessionLoad = SessionFound | SessionMissing | SessionError

  /** How a reset or reload action went this time. */
  datatype OtherOutcome = OtherFails | OtherRetries | OtherCancels | OtherSucceeds | OtherRuns

  /**
   * What the calls made by one action reconcile answer. Reads either fail or tell the truth, and a write
   * that fails has not happened. runGoes says that the run is removed after a stop has canceled it and before it
   * is read again.
   */
  datatype ActionEnv = ActionEnv(
    listOk: bool, session: SessionLoad, getOk: bool, reGetOk: bool, cancelOk: bool, runGoes: bool,
    create: AgentRuns.CreateEnv, other: OtherOutcome, writeOk: bool)

  /** createOrGetRun: what Create left behind, and the fault; None when a run is in hand. */
  function CreateOrGetRun(s: State, a: Action, env: ActionEnv): (AgentRuns.CreateOutcome, Option<Fault>) {
    if CurrentCandidateIndex(a) >= CandidateCount(a) then
      (AgentRuns.CreateOutcome(s.runs, s.slot, AgentRuns.Rejected(AgentRuns.Validation)), Some(AgentRuns.Validation))
    else
      var c := AgentRuns.Create(s.runs, s.slot, a.spec.sessionId, NextRunAttempt(a).0, env.create);
      (c, match c.reply
          case Created => None
          case AlreadyExists =>
            if env.reGetOk && NextRunAttempt(a).0 in c.runs then None else Some(AgentRuns.OtherFault)
          case Rejected(fault) => Some(fault))
  }

  /** The stores after a derivation, and the status it derived; None when it failed before deriving one. */
  datatype Derived = Derived(runs: map<string, Run>, slot: string, status: Option<ActionStatus>)

  function OnlyStatus(s: State, status: ActionStatus): Derived {
    Derived(s.runs, s.slot, Some(status))
  }

  /** deriveRunTurnStatus */
  function DeriveRunTurn(s: State, a: Action, env: ActionEnv): Derived {
    var retry := ScheduleRetryStatus(a, s.now, ManualRetry, s.policy);
    var runId := Trim(a.status.runId);
    if a.spec.candidates.None? || env.session.SessionMissing? then OnlyStatus(s, FailedStatus(a, s.now))
    else if env.session.SessionError? then OnlyStatus(s, retry)
    else if runId == "" then
      var (c, fault) := CreateOrGetRun(s, a, env);
      Derived(c.runs, c.slot, Some(
        match fault
        case None => RunningStatus(a, s.now, NextRunAttempt(a).0, NextRunAttempt(a).1, CurrentCandidateIndex(a))
        case Some(Validation) => PendingBlockedStatus(a, s.now)
        case Some(OtherFault) => retry))
    else if !env.getOk then OnlyStatus(s, retry)
    else if runId !in s.runs then
      var (c, fault) := CreateOrGetRun(s, a, env);
      Derived(c.runs, c.slot, Some(
        if fault.None? then RunningStatus(a, s.now, runId, CurrentAttemptCount(a),
                                          CurrentCandidateIndex(a)) else retry))
    else
      var run := s.runs[runId].status;
      OnlyStatus(s, match run.phase
        case Succeeded => TerminalStatus(a, s.now, Succeeded, NoClass)
        case Failed => FailedRunTurnStatus(a, s.now, run.result.Some? && run.result.value.retryable, s.policy)
        case Canceled => TerminalStatus(a, s.now, Canceled, NoClass)
        case _ => RunningStatus(a, s.now, a.status.runId, CurrentAttemptCount(a), CurrentCandidateIndex(a)))
  }

  /** deriveStoppedStatus: cancel the recorded run and follow it to its end, without another attempt. */
  function DeriveStopped(s: State, a: Action, env: ActionEnv): Derived {
    var runId := Trim(a.status.runId);
    var wait := RunningStatus(a, s.now, a.status.runId, CurrentAttemptCount(a), CurrentCandidateIndex(a));
    if !a.spec.kind.RunTurn? || a.status.runId == "" then OnlyStatus(s, CanceledStatus(a, s.now))
    else if !env.cancelOk || runId == "" || runId !in s.runs then OnlyStatus(s, wait)
    else
      var runs := s.runs[runId := AgentRuns.Cancel(s.runs[runId])];
      Derived(if env.runGoes then runs - {runId} else runs, s.slot, Some(
        if !env.getOk then wait
        else if env.runGoes then CanceledStatus(a, s.now)
        else match runs[runId].status.phase
          case Succeeded => TerminalStatus(a, s.now, Succeeded, NoClass)
          case Failed => CanceledStatus(a, s.now)
          case Canceled => CanceledStatus(a, s.now)
          case _ => wait))
  }

  /** Reset and reload actions make no runs; their own steps are reduced to their outcome. */
  function DeriveOther(s: State, a: Action, env: ActionEnv): ActionStatus {
    match env.other
    case OtherFails => FailedStatus(a, s.now)
    case OtherRetries => ScheduleRetryStatus(a, s.now, Permanent, s.policy)
    case OtherCancels => TerminalStatus(a, s.now, Canceled, NoClass)
    case OtherSucceeds => TerminalStatus(a, s.now, Succeeded, NoClass)
    case OtherRuns => RunningStatus(a, s.now, "", a.status.attemptCount, a.status.candidateIndex)
  }

  /** Who may work: the first active action in queue order, else the first that has not ended. */
  ghost predicate IsOwner(actions: map<string, Action>, name: string) {
    && name in actions
    && !IsTerminal(actions[name])
    && forall other :: other in actions && other != name && !IsTerminal(actions[other]) ==>
         if IsActive(actions[name]) then IsActive(actions[other]) ==> Before(actions[name], actions[other])
         else !IsActive(actions[other]) && Before(actions[name], actions[other])
  }

  /** deriveStatus */
  ghost function DeriveStatus(s: State, a: Action, env: ActionEnv): Derived {
    if IsInvalid(a) then OnlyStatus(s, FailedStatus(a, s.now))
    else if IsTerminal(a) then OnlyStatus(s, a.status)
    else if a.spec.stopRequested then DeriveStopped(s, a, env)
    else if !env.listOk then Derived(s.runs, s.slot, None)
    else if !IsOwner(s.actions, a.name) then OnlyStatus(s, PendingBlockedStatus(a, s.now))
    else if PendingRetryWindow(a, s.now).Some? then OnlyStatus(s, PendingRetryWindow(a, s.now).value)
    else match a.spec.kind
      case RunTurn => DeriveRunTurn(s, a, env)
      case OtherType => OnlyStatus(s, FailedStatus(a, s.now))
      case _ => OnlyStatus(s, DeriveOther(s, a, env))
  }

  /** The effects of a derivation stand even when the status write fails. */
  function Stored(s: State, name: string, d: Derived, writeOk: bool): State
    requires name in s.actions
  {
    s.(runs := d.runs, slot := d.slot,
       actions := if d.status.Some? && writeOk
                  then s.actions[name := s.actions[name].(status := d.status.value)] else s.actions)
  }

  /** Reconciler.Reconcile for one action. */
  ghost function ReconcileAction(s: State, name: string, env: ActionEnv): State {
    if name in s.actions then Stored(s, name, DeriveStatus(s, s.actions[name], env), env.writeOk) else s
  }

  /** A stored action starts with an empty status that carries its creation time. */
  function NewAction(name: string, sessionId: string, kind: ActionType, candidates: Option<nat>, now: int): Action {
    Action(name, Some(now), ActionSpec(name, sessionId, kind, candidates, false),
           ActionStatus(Unset, NoClass, 0, 0, 0, None, "", Some(now)))
  }

  function StopAction(a: Action): Action {
    if IsTerminal(a) || a.spec.stopRequested then a else a.(spec := a.spec.(stopRequested := true))
  }

  /** observeActiveRun: the slot keeps naming a run that exists and has not ended, or that could not be read. */
  function ObserveActiveRun(runs: map<string, Run>, slot: string, getOk: bool): string {
    if !getOk then slot
    else if slot !in runs || AgentRuns.IsTerminalPhase(runs[slot].status.phase) then ""
    else slot
  }

  datatype Event =
    | ActionCreated(name: string, sessionId: string, kind: ActionType, candidates: Option<nat>)
    | ActionStopped(name: string)
    | ActionReconciled(name: string, env: ActionEnv)
    | RunReconciled(runId: string, runEnv: AgentRuns.RunEnv)
    | RunCancelCalled(runId: string)
    | RunResultPublished(runId: string, result: AgentRuns.ResultSummary)
    | RunDeleted(runId: string)
    | SessionObserved(getOk: bool)
    | SessionFailed
    | TimePassed(seconds: nat)

  function WithRun(s: State, runId: string, run: Option<Run>): State {
    s.(runs := if run.Some? then s.runs[runId := run.value] else s.runs - {runId})
  }

  ghost function Apply(s: State, e: Event): State {
    match e
    case ActionCreated(name, sessionId, kind, candidates) =>
      if name in s.actions then s else s.(actions := s.actions[name := NewAction(name, sessionId, kind,
                                                                                 candidates, s.now)])
    case ActionStopped(name) =>
      if name in s.actions then s.(actions := s.actions[name := StopAction(s.actions[name])]) else s
    case ActionReconciled(name, env) => ReconcileAction(s, name, env)
    case RunReconciled(runId, env) =>
      if runId !in s.runs then s else
      var step := AgentRuns.Reconcile(s.runs[runId], env);
      WithRun(s, runId, step.run).(slot := if step.released then AgentRuns.Release(s.slot, runId) else s.slot)
    case RunCancelCalled(runId) =>
      if runId in s.runs then WithRun(s, runId, Some(AgentRuns.Cancel(s.runs[runId]))) else s
    case RunResultPublished(runId, result) =>
      if runId in s.runs then WithRun(s, runId, Some(AgentRuns.Publish(s.runs[runId], result))) else s
    case RunDeleted(runId) =>
      if runId in s.runs then WithRun(s, runId, AgentRuns.Delete(s.runs[runId])) else s
    case SessionObserved(getOk) => s.(slot := ObserveActiveRun(s.runs, s.slot, getOk))
    case SessionFailed => s.(slot := "")
    case TimePassed(seconds) => s.(now := s.now + seconds)
  }

  ghost function Exec(s: State, events: seq<Event>): State
    decreases |events|
  {
    if events == [] then s else Exec(Apply(s, events[0]), events[1..])
  }

  lemma {:induction false} ExecAppend(s: State, first: seq<Event>, rest: seq<Event>)
    ensures Exec(s, first + rest) == Exec(Exec(s, first), rest)
    ensures forall e :: Exec(s, [e]) == Apply(s, e)
    decreases |first|
  {
    forall e ensures Exec(s, [e]) == Apply(s, e) { assert [e][1..] == []; }
    if first == [] {
      assert first + rest == rest;
    } else {
      assert (first + rest)[1..] == first[1..] + rest;
      ExecAppend(Apply(s, first[0]), first[1..], rest);
    }
  }

  /** A session nobody has used yet. */
  function Initial(policy: RetryPolicy, now: int): State {
    State(policy, now, map[], map[], "")
  }
}
