/** The workflow of a run: when it is submitted, canceled and looked at, and that its id is kept. */
module Workloads {
  import opened Wrappers
  import opened Text
  import opened AgentRuns

  predicate HasWorkload(r: Run) {
    Trim(r.status.workloadId) != ""
  }

  /** A run its controller has not looked at has no workload; an invalid one does not end but by failing. */
  predicate Tracked(r: Run) {
    && WellFormed(r) && (r.validSpec || IsLive(r) || r.status.phase.Failed?)
    && (r.status.phase.Unset? ==> !HasWorkload(r))
  }

  /** The reconcile gets as far as the workflow of the run. */
  predicate AtWorkflow(r: Run, env: RunEnv) {
    !r.deleting && (r.finalizer || env.finalizerOk) && r.validSpec && IsLive(r) && !r.status.phase.Unset?
  }

  // ---- Submit ----

  /** A workflow is submitted for a live run that has none, or whose workflow is reported missing. */
  predicate Submits(r: Run, env: RunEnv) {
    AtWorkflow(r, env) && !r.cancelRequested && (!HasWorkload(r) || env.workflow.WorkflowNotFound?)
  }

  lemma SubmitsIff(r: Run, env: RunEnv)
    requires Tracked(r)
    ensures Reconcile(r, env).submits <==> Submits(r, env)
  {
  }

  /** What a submit leaves: the id it returned, if that can be stored, and otherwise the run as it was. */
  lemma SubmitStoresId(r: Run, env: RunEnv)
    requires Tracked(r) && Submits(r, env)
    ensures var s := Reconcile(r, env);
      && s.run.Some? && IsLive(s.run.value) && !s.cancels
      && (if env.submit.Some? && env.writeOk
          then s.run.value.status.workloadId == env.submit.value && s.run.value.status.phase.Scheduled?
          else s.run.value.status == r.status)
  {
  }

  /** The workload of a run with a valid spec is kept by every reconcile that does not find its workflow missing. */
  lemma WorkloadIsKept(r: Run, env: RunEnv)
    requires Tracked(r) && r.validSpec && HasWorkload(r) && !env.workflow.WorkflowNotFound?
    ensures var s := Reconcile(r, env);
      !s.submits && (s.run.Some? ==> Trim(s.run.value.status.workloadId) == Trim(r.status.workloadId))
  {
    TrimProperties(r.status.workloadId);
    if !r.deleting && (r.finalizer || env.finalizerOk) {
      ActiveKeepsWorkload(r.(finalizer := true), env);
      SubmitsIff(r, env);
    }
  }

  lemma ActiveKeepsWorkload(r: Run, env: RunEnv)
    requires Tracked(r) && !r.deleting && r.validSpec && HasWorkload(r) && !env.workflow.WorkflowNotFound?
    requires Trim(Trim(r.status.workloadId)) == Trim(r.status.workloadId)
    ensures var s := ReconcileActive(r, env);
      s.run.Some? && Trim(s.run.value.status.workloadId) == Trim(r.status.workloadId)
  {
    var id := Trim(r.status.workloadId);
    UpdateKeepsWorkload(r, PhaseStatus(r, Canceled, id), env);
    if env.workflow.WorkflowIs? { UpdateKeepsWorkload(r, ObservedWorkflowStatus(r, id, env.workflow.phase), env); }
  }

  lemma UpdateKeepsWorkload(r: Run, next: RunStatus, env: RunEnv)
    requires Trim(next.workloadId) == Trim(r.status.workloadId)
    ensures var s := UpdateObserved(r, next, env);
      s.run.Some? && Trim(s.run.value.status.workloadId) == Trim(r.status.workloadId)
  {
  }

  /** A poll that can be stored leaves the run in the phase of its workflow. */
  lemma PollIsStored(r: Run, env: RunEnv)
    requires Tracked(r) && AtWorkflow(r, env) && !r.cancelRequested && HasWorkload(r) && env.workflow.WorkflowIs?
    requires env.writeOk && (IsTerminalWorkflow(env.workflow.phase) ==> env.cleanupOk)
    ensures var s := Reconcile(r, env);
      && s.run.Some? && !s.submits && !s.cancels
      && match env.workflow.phase
         case WfRunning => s.run.value.status.phase.Running?
         case WfSucceeded => s.run.value.status.phase.Succeeded?
         case WfFailed => s.run.value.status.phase.Failed?
         case WfCanceled => s.run.value.status.phase.Canceled?
         case WfOther => s.run.value.status.phase.Scheduled?
  {
  }

  // ---- Cancel ----

  /** Canceled by request: a live run that has a workload; canceled by deletion: its workflow is there and goes on. */
  predicate CancelsWorkflow(r: Run, env: RunEnv) {
    && HasWorkload(r)
    && if r.deleting then r.finalizer && env.workflow.WorkflowIs? && !IsTerminalWorkflow(env.workflow.phase)
       else AtWorkflow(r, env) && r.cancelRequested
  }

  lemma CancelsIff(r: Run, env: RunEnv)
    requires Tracked(r)
    ensures Reconcile(r, env).cancels <==> CancelsWorkflow(r, env)
  {
  }

  /**
   * How a canceled live run goes on: without a workload it is CANCELED; otherwise it is CANCELED when the workflow
   * is gone, goes by its workflow when that can be read, also when it is still running, and stays as it was on errors.
   */
  lemma CanceledRunGoesOn(r: Run, env: RunEnv)
    requires Tracked(r) && !r.deleting && (r.finalizer || env.finalizerOk) && r.validSpec && IsLive(r)
    requires r.cancelRequested && env.writeOk && env.cleanupOk
    ensures var s := Reconcile(r, env);
      && s.run.Some? && !s.submits
      && var phase := s.run.value.status.phase;
      if !HasWorkload(r) || (!env.cancel.CallError? && (env.cancel.CallNotFound? || env.workflow.WorkflowNotFound?))
      then phase.Canceled? && Trim(s.run.value.status.workloadId) == Trim(r.status.workloadId)
      else if env.cancel.CallError? || env.workflow.WorkflowError? then s.run.value.status == r.status
      else match env.workflow.phase
        case WfRunning => phase.Running?
        case WfSucceeded => phase.Succeeded?
        case WfFailed => phase.Failed?
        case WfCanceled => phase.Canceled?
        case WfOther => phase.Scheduled?
  {
    TrimProperties(r.status.workloadId);
  }

  /** A cancel request raises the generation of a live run and is made once; an ended run takes none. */
  lemma CancelRequestIsNew(r: Run)
    ensures IsLive(r) && !r.cancelRequested ==>
      Cancel(r).cancelRequested && Cancel(r).generation == r.generation + 1 && Cancel(r).status == r.status
    ensures !IsLive(r) || r.cancelRequested ==> Cancel(r) == r
  {
  }

  /** A deletion request is made once, and a run without finalizer goes at once. */
  lemma DeleteRequestIsNew(r: Run)
    ensures Delete(r).None? <==> !r.finalizer
    ensures r.finalizer ==>
      && Delete(r).value == r.(deleting := true, generation := Delete(r).value.generation)
      && Delete(r).value.generation == if r.deleting then r.generation else r.generation + 1
  {
  }

  predicate FlagsStay(r: Run, s: RunStep) {
    s.run.Some? && s.run.value.finalizer == r.finalizer && s.run.value.deleting == r.deleting
  }

  lemma UpdateKeepsFlags(r: Run, next: RunStatus, env: RunEnv)
    ensures FlagsStay(r, UpdateObserved(r, next, env))
  {
  }

  lemma CancelKeepsFlags(r: Run, env: RunEnv)
    ensures FlagsStay(r, ReconcileCanceled(r, Trim(r.status.workloadId), env))
  {
    UpdateKeepsFlags(r, PhaseStatus(r, Canceled, Trim(r.status.workloadId)), env);
    if env.workflow.WorkflowIs? {
      UpdateKeepsFlags(r, ObservedWorkflowStatus(r, Trim(r.status.workloadId), env.workflow.phase), env);
    }
  }

  lemma KeepsFlags(r: Run, env: RunEnv)
    ensures FlagsStay(r, ReconcileActive(r, env))
  {
    UpdateKeepsFlags(r, PhaseStatus(r, Failed, ""), env);
    UpdateKeepsFlags(r, PhaseStatus(r, Pending, ""), env);
    if env.submit.Some? { UpdateKeepsFlags(r, PhaseStatus(r, Scheduled, env.submit.value), env); }
    CancelKeepsFlags(r, env);
    if env.workflow.WorkflowIs? {
      UpdateKeepsFlags(r, ObservedWorkflowStatus(r, Trim(r.status.workloadId), env.workflow.phase), env);
    }
  }

  /** A reconcile of a run that is not under deletion puts the finalizer in place first, and does nothing without it. */
  lemma FinalizerComesFirst(r: Run, env: RunEnv)
    requires !r.deleting
    ensures var s := Reconcile(r, env);
      && s.run.Some? && !s.run.value.deleting
      && (r.finalizer || env.finalizerOk ==> s.run.value.finalizer)
      && (!r.finalizer && !env.finalizerOk ==> s == Quiet(Some(r)))
  {
    if r.finalizer || env.finalizerOk { KeepsFlags(r.(finalizer := true), env); }
  }

  /** An invalid run fails, without a workload, as soon as that can be stored. */
  lemma InvalidRunFails(r: Run, env: RunEnv)
    requires Tracked(r) && !r.deleting && (r.finalizer || env.finalizerOk) && !r.validSpec && IsLive(r)
    requires env.cleanupOk && env.writeOk
    ensures var s := Reconcile(r, env);
      && s.run.Some? && s.run.value.status.phase.Failed? && s.run.value.status.workloadId == ""
      && !s.submits && !s.cancels
  {
  }

  /** A new run: valid or not as its request, not looked at, nothing asked of it, and nothing done for it. */
  lemma NewRunIs(runId: string, sessionId: string, validSpec: bool)
    ensures var r := FreshRun(runId, sessionId, validSpec);
      && r.runId == runId && r.sessionId == sessionId && r.validSpec == validSpec && Tracked(r) && IsLive(r)
      && r.status.phase.Unset? && !HasWorkload(r) && r.status.result.None?
      && !r.cancelRequested && !r.deleting && !r.finalizer && r.generation == 1 && r.status.observedGeneration == 0
  {
    TrimProperties("");
  }

  /** Submits, cancels, releases and announcements are counted one by one, and nothing else is. */
  lemma CallsAreCounted(l: Life, e: RunEvent)
    ensures var d, m := l.done, Live1(l, e).done;
      if l.run.None? || !e.Reconciled? then m == d
      else
        var s := Reconcile(l.run.value, e.env);
        && m.submits - d.submits == (if s.submits then 1 else 0)
        && m.cancels - d.cancels == (if s.cancels then 1 else 0)
        && m.releases - d.releases == (if s.releases then 1 else 0)
        && m.finished - d.finished == (if s.released then 1 else 0)
  {
  }

  // ---- Histories ----

  /** Submitting leaves the run without a workload: nothing is returned, or what is returned cannot be stored. */
  predicate LosesWorkload(r: Run, env: RunEnv) {
    if env.submit.Some? && env.writeOk then Trim(env.submit.value) == "" else !HasWorkload(r)
  }

  /** How often a submit repeats one that should have done: its workflow is missing, or its id is lost. */
  function Repeats(l: Life, events: seq<RunEvent>): nat
    decreases |events|
  {
    if events == [] || l.run.None? then 0
    else
      var e := events[0];
      (if e.Reconciled? && Submits(l.run.value, e.env) && HasWorkload(l.run.value) then 1 else 0)
      + (if e.Reconciled? && Submits(l.run.value, e.env) && LosesWorkload(l.run.value, e.env) then 1 else 0)
      + Repeats(Live1(l, e), events[1..])
  }

  predicate TrackedLife(l: Life) {
    l.run.Some? ==> Tracked(l.run.value)
  }

  /** Whether the one submit that a run may make is still to come. */
  function Due(l: Life): nat {
    if l.run.Some? && l.run.value.validSpec && !HasWorkload(l.run.value) then 1 else 0
  }

  /** The step leaves the run as it was in status, or gives it a phase. */
  predicate PhaseSet(r: Run, s: RunStep) {
    s.run.Some? ==> s.run.value.status == r.status || !s.run.value.status.phase.Unset?
  }

  lemma UpdateSetsPhase(r: Run, next: RunStatus, env: RunEnv)
    requires !next.phase.Unset?
    ensures PhaseSet(r, UpdateObserved(r, next, env))
  {
  }

  lemma ActivePhaseIsSet(r: Run, env: RunEnv)
    ensures PhaseSet(r, ReconcileActive(r, env))
  {
    UpdateSetsPhase(r, PhaseStatus(r, Failed, ""), env);
    UpdateSetsPhase(r, PhaseStatus(r, Pending, ""), env);
    if env.submit.Some? { UpdateSetsPhase(r, PhaseStatus(r, Scheduled, env.submit.value), env); }
    CancelSetsPhase(r, env);
    if env.workflow.WorkflowIs? {
      UpdateSetsPhase(r, ObservedWorkflowStatus(r, Trim(r.status.workloadId), env.workflow.phase), env);
    }
  }

  lemma CancelSetsPhase(r: Run, env: RunEnv)
    ensures PhaseSet(r, ReconcileCanceled(r, Trim(r.status.workloadId), env))
  {
    UpdateSetsPhase(r, PhaseStatus(r, Canceled, Trim(r.status.workloadId)), env);
    if env.workflow.WorkflowIs? {
      UpdateSetsPhase(r, ObservedWorkflowStatus(r, Trim(r.status.workloadId), env.workflow.phase), env);
    }
  }

  lemma PhaseIsSet(r: Run, env: RunEnv)
    ensures PhaseSet(r, Reconcile(r, env))
  {
    if !r.deleting { ActivePhaseIsSet(r.(finalizer := true), env); }
  }

  lemma ReconcileKeepsTracked(r: Run, env: RunEnv)
    requires Tracked(r)
    ensures var s := Reconcile(r, env); s.run.Some? ==> Tracked(s.run.value) && s.run.value.validSpec == r.validSpec
  {
    ReconcileIsProper(r, env);
    ReconcileKeepsSpec(r, env);
    PhaseIsSet(r, env);
  }

  lemma StepKeepsTracked(l: Life, e: RunEvent)
    requires TrackedLife(l)
    ensures TrackedLife(Live1(l, e))
  {
    if l.run.Some? && e.Reconciled? { ReconcileKeepsTracked(l.run.value, e.env); }
  }

  lemma StepIsCounted(l: Life, e: RunEvent)
    requires TrackedLife(l) && l.run.Some?
    ensures var r, m := l.run.value, Live1(l, e);
      m.done.submits + Due(m) <= l.done.submits + Due(l)
        + (if e.Reconciled? && Submits(r, e.env) && HasWorkload(r) then 1 else 0)
        + (if e.Reconciled? && Submits(r, e.env) && LosesWorkload(r, e.env) then 1 else 0)
  {
    if e.Reconciled? {
      ReconcileKeepsTracked(l.run.value, e.env);
      SubmitsIff(l.run.value, e.env);
      if Submits(l.run.value, e.env) {
        SubmitStoresId(l.run.value, e.env);
      } else if l.run.value.validSpec && HasWorkload(l.run.value) {
        IdleKeepsWorkload(l.run.value, e.env);
      }
    }
  }

  lemma IdleKeepsWorkload(r: Run, env: RunEnv)
    requires Tracked(r) && r.validSpec && HasWorkload(r) && !Submits(r, env)
    ensures var s := Reconcile(r, env); s.run.Some? ==> HasWorkload(s.run.value)
  {
    TrimProperties(r.status.workloadId);
    if env.workflow.WorkflowNotFound? {
      UpdateKeepsWorkload(r.(finalizer := true), PhaseStatus(r, Canceled, Trim(r.status.workloadId)), env);
    } else {
      WorkloadIsKept(r, env);
    }
  }

  /** Over any history a run is submitted once, and once more for each time its workflow was missing or its id lost. */
  lemma {:induction false} SubmitsAreBounded(l: Life, events: seq<RunEvent>)
    requires TrackedLife(l)
    ensures LiveThrough(l, events).done.submits <= l.done.submits + Due(l) + Repeats(l, events)
    decreases |events|
  {
    if events == [] {
    } else if l.run.None? {
      GoneIsFinal(l, events);
    } else {
      StepKeepsTracked(l, events[0]);
      StepIsCounted(l, events[0]);
      SubmitsAreBounded(Live1(l, events[0]), events[1..]);
    }
  }

  /** So a new run is submitted at most once while its workflow is found and its id stored. */
  lemma SubmittedOnce(runId: string, sessionId: string, validSpec: bool, events: seq<RunEvent>)
    ensures var l := Life(Some(FreshRun(runId, sessionId, validSpec)), Tally(0, 0, 0, 0));
      LiveThrough(l, events).done.submits <= 1 + Repeats(l, events)
  {
    TrimProperties("");
    SubmitsAreBounded(Life(Some(FreshRun(runId, sessionId, validSpec)), Tally(0, 0, 0, 0)), events);
  }
}
