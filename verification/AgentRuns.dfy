/**
 * One AgentRun: the status its controller derives from the workflow it observes, and the session
 * slot that a run claims when it is created and gives back when it ends.
 */
module AgentRuns {
  import opened Wrappers
  import opened Text

  datatype RunPhase = Unset | Pending | Scheduled | Running | Succeeded | Failed | Canceled

  datatype ResultSummary = ResultSummary(status: string, errorCode: string, errorMessage: string, retryable: bool)

  datatype RunStatus = RunStatus(
    phase: RunPhase, observedGeneration: int, workloadId: string, result: Option<ResultSummary>)

  datatype Run = Run(
    runId: string, sessionId: string, validSpec: bool, cancelRequested: bool,
    generation: int, finalizer: bool, deleting: bool, status: RunStatus)

  datatype WorkflowPhase = WfRunning | WfSucceeded | WfFailed | WfCanceled | WfOther
  datatype WorkflowReply = WorkflowError | WorkflowNotFound | WorkflowIs(phase: WorkflowPhase)
  datatype CallReply = CallOk | CallNotFound | CallError

  /** What the calls made by one reconcile answer. */
  datatype RunEnv = RunEnv(
    finalizerOk: bool, submit: Option<string>, workflow: WorkflowReply, cancel: CallReply, delete: CallReply,
    cleanupOk: bool, writeOk: bool, releaseOk: bool)

  predicate IsTerminalPhase(p: RunPhase) {
    p.Succeeded? || p.Failed? || p.Canceled?
  }

  predicate IsLive(r: Run) {
    !IsTerminalPhase(r.status.phase)
  }

  function FreshRun(runId: string, sessionId: string, validSpec: bool): Run {
    Run(runId, sessionId, validSpec, false, 1, false, false, RunStatus(Unset, 0, "", None))
  }

  // ---- The slot: compare and set on the session's active run id ----

  predicate ClaimSucceeds(slot: string, runId: string) {
    slot == "" || slot == runId
  }

  function Release(slot: string, runId: string): string {
    if slot == runId then "" else slot
  }

  // ---- Service.Create ----

  /** Error kinds that callers tell apart: a validation error blocks an action, any other is retried. */
  datatype Fault = Validation | OtherFault

  /**
   * What the calls made by one Create answer; heldFault is the error for a slot that another run holds, and
   * claimReadable says whether the session that a claim hands back can be read.
   */
  datatype CreateEnv = CreateEnv(
    claimFault: Option<Fault>, heldFault: Fault, claimReadable: bool,
    specOk: bool, createOk: bool, releaseOk: bool, validRun: bool)
  {
    predicate Claims() { claimFault.None? && claimReadable }
  }

  datatype CreateReply = Created | AlreadyExists | Rejected(fault: Fault)

  datatype CreateOutcome = CreateOutcome(runs: map<string, Run>, slot: string, reply: CreateReply)

  /** Claim, build, create, and give the slot back on any error after the claim; a claim that cannot be read stays. */
  function Create(runs: map<string, Run>, slot: string, sessionId: string, runId: string,
                  env: CreateEnv): CreateOutcome {
    if env.claimFault.Some? then CreateOutcome(runs, slot, Rejected(env.claimFault.value))
    else if !ClaimSucceeds(slot, runId) then CreateOutcome(runs, slot, Rejected(env.heldFault))
    else if !env.claimReadable then CreateOutcome(runs, runId, Rejected(Validation))
    else
      var rolledBack := if env.releaseOk then "" else runId;
      if !env.specOk then CreateOutcome(runs, rolledBack, Rejected(Validation))
      else if runId in runs then CreateOutcome(runs, rolledBack, AlreadyExists)
      else if !env.createOk then CreateOutcome(runs, rolledBack, Rejected(OtherFault))
      else CreateOutcome(runs[runId := FreshRun(runId, sessionId, env.validRun)], runId, Created)
  }

  // ---- Status derivation ----

  function PhaseStatus(r: Run, phase: RunPhase, workloadId: string): RunStatus {
    RunStatus(phase, r.generation, workloadId, None)
  }

  function ObservedWorkflowStatus(r: Run, workloadId: string, phase: WorkflowPhase): RunStatus {
    PhaseStatus(r, match phase
                   case WfRunning => Running
                   case WfSucceeded => Succeeded
                   case WfFailed => Failed
                   case WfCanceled => Canceled
                   case WfOther => Scheduled, workloadId)
  }

  predicate IsTerminalWorkflow(phase: WorkflowPhase) {
    phase.WfSucceeded? || phase.WfFailed? || phase.WfCanceled?
  }

  /**
   * The run after a reconcile (None: the object is gone) and what the reconcile did: submit or cancel a
   * workflow, call Release on the slot, and with success, which is when it also announces FINISHED.
   */
  datatype RunStep = RunStep(run: Option<Run>, submits: bool, cancels: bool, releases: bool, released: bool)

  function Quiet(run: Option<Run>): RunStep {
    RunStep(run, false, false, false, false)
  }

  /** How often a controller submitted and canceled workflows, called Release and announced FINISHED. */
  datatype Tally = Tally(submits: nat, cancels: nat, releases: nat, finished: nat) {
    function Plus(s: RunStep): Tally {
      Tally(if s.submits then submits + 1 else submits, if s.cancels then cancels + 1 else cancels,
            if s.releases then releases + 1 else releases, if s.released then finished + 1 else finished)
    }
  }

  /** The status to store keeps a recorded result. */
  function Stored(r: Run, next: RunStatus): Run {
    r.(status := if next.result.None? then next.(result := r.status.result) else next)
  }

  /** updateObservedStatus */
  function UpdateObserved(r: Run, next: RunStatus, env: RunEnv): RunStep {
    var ends := IsTerminalPhase(next.phase) && IsLive(r);
    if r.status == next || (ends && !env.cleanupOk) || !env.writeOk then
      Quiet(Some(r))
    else if ends then
      RunStep(Some(Stored(r, next)), false, false, true, env.releaseOk)
    else
      Quiet(Some(Stored(r, next)))
  }

  function SubmitRun(r: Run, env: RunEnv): RunStep {
    if env.submit.None? then Quiet(Some(r)).(submits := true)
    else UpdateObserved(r, PhaseStatus(r, Scheduled, env.submit.value), env).(submits := true)
  }

  /** The status after canceling the workflow and looking at it; None when one of the two fails. */
  function CanceledNext(r: Run, workloadId: string, env: RunEnv): Option<RunStatus> {
    if env.cancel.CallError? then None
    else if env.cancel.CallNotFound? || env.workflow.WorkflowNotFound? then Some(PhaseStatus(r, Canceled, workloadId))
    else if env.workflow.WorkflowError? then None
    else Some(ObservedWorkflowStatus(r, workloadId, env.workflow.phase))
  }

  /** reconcileCanceledRun */
  function ReconcileCanceled(r: Run, workloadId: string, env: RunEnv): RunStep {
    if workloadId == "" then UpdateObserved(r, PhaseStatus(r, Canceled, ""), env)
    else match CanceledNext(r, workloadId, env)
      case None => Quiet(Some(r)).(cancels := true)
      case Some(next) => UpdateObserved(r, next, env).(cancels := true)
  }

  /** reconcileDeletedRun */
  function ReconcileDeleted(r: Run, env: RunEnv): RunStep {
    var workloadId := Trim(r.status.workloadId);
    var finish := if env.cleanupOk && env.writeOk then None else Some(r);
    if !r.finalizer || (workloadId != "" && env.workflow.WorkflowError?) then Quiet(Some(r))
    else if workloadId != "" && env.workflow.WorkflowIs? && !IsTerminalWorkflow(env.workflow.phase) then
      Quiet(Some(r)).(cancels := true)
    else if workloadId != "" && env.workflow.WorkflowIs? && env.delete.CallError? then Quiet(Some(r))
    else Quiet(finish)
  }

  /** Reconcile, after the finalizer is in place. */
  function ReconcileActive(r: Run, env: RunEnv): RunStep {
    if !r.validSpec then UpdateObserved(r, PhaseStatus(r, Failed, ""), env)
    else if r.status.phase.Unset? then
      if r.cancelRequested then ReconcileCanceled(r, Trim(r.status.workloadId), env)
      else UpdateObserved(r, PhaseStatus(r, Pending, ""), env)
    else if IsTerminalPhase(r.status.phase) && r.status.observedGeneration == r.generation then Quiet(Some(r))
    else if r.cancelRequested then ReconcileCanceled(r, Trim(r.status.workloadId), env)
    else if Trim(r.status.workloadId) == "" then SubmitRun(r, env)
    else match env.workflow
      case WorkflowNotFound => SubmitRun(r, env)
      case WorkflowError => Quiet(Some(r))
      case WorkflowIs(phase) =>
        UpdateObserved(r, ObservedWorkflowStatus(r, Trim(r.status.workloadId), phase), env)
  }

  /** Reconciler.Reconcile on an existing run. */
  function Reconcile(r: Run, env: RunEnv): RunStep {
    if r.deleting then ReconcileDeleted(r, env)
    else if !r.finalizer && !env.finalizerOk then Quiet(Some(r))
    else ReconcileActive(r.(finalizer := true), env)
  }

  /** Service.Cancel: nothing to do for a run that has ended or is already canceled. */
  function Cancel(r: Run): Run {
    if IsTerminalPhase(r.status.phase) || r.cancelRequested then r
    else r.(cancelRequested := true, generation := r.generation + 1)
  }

  function Publish(r: Run, result: ResultSummary): Run {
    r.(status := r.status.(result := Some(result)))
  }

  /** Deletion is held back by the finalizer. */
  function Delete(r: Run): Option<Run> {
    if r.finalizer then Some(r.(deleting := true, generation := if r.deleting then r.generation else r.generation + 1))
    else None
  }

  /** A run that has ended was observed at its present generation, unless it is being deleted. */
  predicate WellFormed(r: Run) {
    IsTerminalPhase(r.status.phase) && !r.deleting ==> r.status.observedGeneration == r.generation
  }

  // ---- Whole histories of one run ----

  datatype RunEvent = Reconciled(env: RunEnv) | CancelCalled | ResultPublished(result: ResultSummary) | DeleteCalled

  /** A run, while it exists, and everything its controller has done so far. */
  datatype Life = Life(run: Option<Run>, done: Tally)

  function Live1(l: Life, e: RunEvent): Life {
    if l.run.None? then l
    else match e
      case Reconciled(env) => var s := Reconcile(l.run.value, env); Life(s.run, l.done.Plus(s))
      case CancelCalled => l.(run := Some(Cancel(l.run.value)))
      case ResultPublished(result) => l.(run := Some(Publish(l.run.value, result)))
      case DeleteCalled => l.(run := Delete(l.run.value))
  }

  function LiveThrough(l: Life, events: seq<RunEvent>): Life
    decreases |events|
  {
    if events == [] then l else LiveThrough(Live1(l, events[0]), events[1..])
  }

  /** The slot has been given back as often as the run has ended: once or never. */
  predicate LifeInvariant(l: Life) {
    && l.done.finished <= l.done.releases <= 1
    && (l.run.Some? ==>
          && WellFormed(l.run.value)
          && (l.done.releases == 1 <==> !IsLive(l.run.value))
          && (l.run.value.validSpec || IsLive(l.run.value) || l.run.value.status.phase.Failed?))
  }

  /** What one reconcile step may do: release exactly when it ends the run, and submit only a live run. */
  predicate Proper(r: Run, s: RunStep) {
    var ends := s.run.Some? && IsLive(r) && !IsLive(s.run.value);
    && s.releases == ends
    && (s.released ==> ends)
    && (s.submits ==> IsLive(r) && !r.cancelRequested)
    && (s.run.Some? ==>
          && WellFormed(s.run.value)
          && s.run.value.validSpec == r.validSpec
          && s.run.value.cancelRequested == r.cancelRequested
          && (r.status.result.Some? ==> s.run.value.status.result == r.status.result)
          && (!IsLive(r) ==> s.run.value.status.phase == r.status.phase))
  }

  lemma UpdateIsProper(r: Run, next: RunStatus, env: RunEnv)
    requires WellFormed(r) && next.observedGeneration == r.generation && next.result.None?
    requires IsLive(r) || next.phase == r.status.phase
    ensures Proper(r, UpdateObserved(r, next, env)) && !UpdateObserved(r, next, env).submits
    ensures Proper(r, UpdateObserved(r, next, env).(cancels := true))
    ensures IsLive(r) && !r.cancelRequested ==> Proper(r, UpdateObserved(r, next, env).(submits := true))
  {
  }

  lemma CancelIsProper(r: Run, workloadId: string, env: RunEnv)
    requires WellFormed(r) && IsLive(r)
    ensures Proper(r, ReconcileCanceled(r, workloadId, env))
    ensures !ReconcileCanceled(r, workloadId, env).submits
  {
    if workloadId == "" {
      UpdateIsProper(r, PhaseStatus(r, Canceled, ""), env);
    } else if env.cancel.CallError? {
    } else if env.cancel.CallNotFound? || env.workflow.WorkflowNotFound? {
      UpdateIsProper(r, PhaseStatus(r, Canceled, workloadId), env);
    } else if env.workflow.WorkflowIs? {
      UpdateIsProper(r, ObservedWorkflowStatus(r, workloadId, env.workflow.phase), env);
    }
  }

  lemma ActiveIsProper(r: Run, env: RunEnv)
    requires WellFormed(r) && !r.deleting && (r.validSpec || IsLive(r) || r.status.phase.Failed?)
    ensures Proper(r, ReconcileActive(r, env))
  {
    if !r.validSpec {
      UpdateIsProper(r, PhaseStatus(r, Failed, ""), env);
    } else if IsLive(r) {
      if r.cancelRequested {
        CancelIsProper(r, Trim(r.status.workloadId), env);
      } else {
        UpdateIsProper(r, PhaseStatus(r, Pending, ""), env);
        if env.submit.Some? { UpdateIsProper(r, PhaseStatus(r, Scheduled, env.submit.value), env); }
        if env.workflow.WorkflowIs? {
          UpdateIsProper(r, ObservedWorkflowStatus(r, Trim(r.status.workloadId), env.workflow.phase), env);
        }
      }
    }
  }

  /** Every reconcile of a run is proper. */
  lemma ReconcileIsProper(r: Run, env: RunEnv)
    requires WellFormed(r) && (r.validSpec || IsLive(r) || r.status.phase.Failed?)
    ensures Proper(r, Reconcile(r, env))
  {
    if !r.deleting { ActiveIsProper(r.(finalizer := true), env); }
  }

  /**
   * A run object disappears in a reconcile exactly when it is being deleted and its workflow, if it ever had
   * one, is gone or over and deleted; and then without a release, a submit or a cancel.
   */
  lemma GoneOnlyWhenOver(r: Run, env: RunEnv)
    ensures var s, w := Reconcile(r, env), env.workflow;
      && (s.run.None? <==>
            && r.deleting && r.finalizer && env.cleanupOk && env.writeOk
            && (Trim(r.status.workloadId) == "" || w.WorkflowNotFound?
                || (w.WorkflowIs? && IsTerminalWorkflow(w.phase) && !env.delete.CallError?)))
      && (r.deleting ==> !s.submits && !s.releases && !s.released && (s.run.None? || s.run == Some(r)))
  {
    if !r.deleting { ActiveStays(r.(finalizer := true), env); }
  }

  /** A step that leaves the run stored, and not under deletion if it was not. */
  predicate Stays(r: Run, s: RunStep) {
    s.run.Some? && s.run.value.deleting == r.deleting
  }

  lemma UpdateStays(r: Run, next: RunStatus, env: RunEnv)
    ensures Stays(r, UpdateObserved(r, next, env))
  {
  }

  lemma CancelStays(r: Run, workloadId: string, env: RunEnv)
    ensures Stays(r, ReconcileCanceled(r, workloadId, env))
  {
    UpdateStays(r, PhaseStatus(r, Canceled, workloadId), env);
    if env.workflow.WorkflowIs? { UpdateStays(r, ObservedWorkflowStatus(r, workloadId, env.workflow.phase), env); }
  }

  lemma ActiveStays(r: Run, env: RunEnv)
    ensures Stays(r, ReconcileActive(r, env))
  {
    CancelStays(r, Trim(r.status.workloadId), env);
    if !r.validSpec {
      UpdateStays(r, PhaseStatus(r, Failed, ""), env);
    } else if r.status.phase.Unset? {
      UpdateStays(r, PhaseStatus(r, Pending, ""), env);
    } else {
      if env.submit.Some? { UpdateStays(r, PhaseStatus(r, Scheduled, env.submit.value), env); }
      if env.workflow.WorkflowIs? {
        UpdateStays(r, ObservedWorkflowStatus(r, Trim(r.status.workloadId), env.workflow.phase), env);
      }
    }
  }

  /** The stored run keeps its spec, and unless that is valid it has not ended in another way than failure. */
  predicate SpecKept(r: Run, s: RunStep) {
    s.run.Some? ==>
      && s.run.value.validSpec == r.validSpec
      && (r.validSpec || IsLive(s.run.value) || s.run.value.status.phase.Failed?)
  }

  lemma UpdateKeepsSpec(r: Run, next: RunStatus, env: RunEnv)
    requires r.validSpec || IsLive(r) || r.status.phase.Failed?
    requires r.validSpec || next.phase.Failed?
    ensures SpecKept(r, UpdateObserved(r, next, env))
  {
  }

  /** A run that turned out invalid can only fail, so an invalid run never ends in another way. */
  lemma ReconcileKeepsSpec(r: Run, env: RunEnv)
    requires WellFormed(r) && (r.validSpec || IsLive(r) || r.status.phase.Failed?)
    ensures SpecKept(r, Reconcile(r, env))
  {
    ReconcileIsProper(r, env);
    if !r.deleting && !r.validSpec {
      UpdateKeepsSpec(r.(finalizer := true), PhaseStatus(r, Failed, ""), env);
    }
  }

  lemma StepKeepsInvariant(l: Life, e: RunEvent)
    requires LifeInvariant(l)
    ensures LifeInvariant(Live1(l, e))
    ensures l.run.Some? && Live1(l, e).run.Some? && !IsLive(l.run.value)
      ==> Live1(l, e).run.value.status.phase == l.run.value.status.phase
    ensures l.run.Some? && (!IsLive(l.run.value) || l.run.value.cancelRequested)
      ==> Live1(l, e).done.submits == l.done.submits
    ensures l.run.Some? && l.run.value.status.result.Some? && Live1(l, e).run.Some? && !e.ResultPublished?
      ==> Live1(l, e).run.value.status.result == l.run.value.status.result
    ensures l.run.Some? && l.run.value.cancelRequested && Live1(l, e).run.Some?
      ==> Live1(l, e).run.value.cancelRequested
  {
    if l.run.Some? && e.Reconciled? {
      ReconcileIsProper(l.run.value, e.env);
    }
  }

  /** Over any history of a new run the slot is released at most once, and FINISHED is announced with it. */
  lemma {:induction false} ReleasedOnce(l: Life, events: seq<RunEvent>)
    requires LifeInvariant(l)
    ensures LifeInvariant(LiveThrough(l, events))
    decreases |events|
  {
    if events == [] {
    } else {
      StepKeepsInvariant(l, events[0]);
      ReleasedOnce(Live1(l, events[0]), events[1..]);
    }
  }

  /** A run that has ended keeps its phase for good and is never submitted, released or announced again. */
  lemma {:induction false} TerminalIsFinal(l: Life, events: seq<RunEvent>)
    requires LifeInvariant(l) && l.run.Some? && !IsLive(l.run.value)
    ensures var m := LiveThrough(l, events);
      && (m.run.Some? ==> m.run.value.status.phase == l.run.value.status.phase)
      && m.done.submits == l.done.submits
      && m.done.releases == l.done.releases && m.done.finished == l.done.finished
    decreases |events|
  {
    if events == [] {
    } else {
      var m := Live1(l, events[0]);
      StepKeepsInvariant(l, events[0]);
      assert m.done.releases == l.done.releases && m.done.finished == l.done.finished;
      if m.run.Some? { TerminalIsFinal(m, events[1..]); } else { GoneIsFinal(m, events[1..]); }
    }
  }

  lemma {:induction false} GoneIsFinal(l: Life, events: seq<RunEvent>)
    requires l.run.None?
    ensures LiveThrough(l, events) == l
    decreases |events|
  {
    if events == [] {
    } else {
      GoneIsFinal(l, events[1..]);
    }
  }

  /** Once cancel is requested, no workflow is submitted any more. */
  lemma {:induction false} NoSubmitAfterCancel(l: Life, events: seq<RunEvent>)
    requires LifeInvariant(l) && l.run.Some? && l.run.value.cancelRequested
    ensures LiveThrough(l, events).done.submits == l.done.submits
    decreases |events|
  {
    if events == [] {
    } else {
      var m := Live1(l, events[0]);
      StepKeepsInvariant(l, events[0]);
      if m.run.Some? { NoSubmitAfterCancel(m, events[1..]); } else { GoneIsFinal(m, events[1..]); }
    }
  }

  /** A recorded result is lost by no reconcile; only publishing again replaces it. */
  lemma {:induction false} ResultIsKept(l: Life, events: seq<RunEvent>)
    requires LifeInvariant(l) && l.run.Some? && l.run.value.status.result.Some?
    ensures var m := LiveThrough(l, events);
      m.run.Some? ==>
        && m.run.value.status.result.Some?
        && ((forall e :: e in events ==> !e.ResultPublished?) ==>
              m.run.value.status.result == l.run.value.status.result)
    decreases |events|
  {
    if events == [] {
    } else {
      var m := Live1(l, events[0]);
      StepKeepsInvariant(l, events[0]);
      if m.run.Some? { ResultIsKept(m, events[1..]); } else { GoneIsFinal(m, events[1..]); }
    }
  }

  /** A new run starts outside any release, so the lemmas above hold of every history of it. */
  lemma FreshLife(runId: string, sessionId: string, validSpec: bool, events: seq<RunEvent>)
    ensures LifeInvariant(LiveThrough(Life(Some(FreshRun(runId, sessionId, validSpec)), Tally(0, 0, 0, 0)), events))
  {
    ReleasedOnce(Life(Some(FreshRun(runId, sessionId, validSpec)), Tally(0, 0, 0, 0)), events);
  }
}
