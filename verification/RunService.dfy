/** The run service and the run controller of one session, working in place on its runs and its slot. */
module RunService {
  import opened Wrappers
  import opened Text
  import opened AgentRuns

  /** How a call that names a run by its id begins. */
  function Lookup(runs: map<string, Run>, runId: string): CallReply {
    if Trim(runId) == "" then CallError else if Trim(runId) !in runs then CallNotFound else CallOk
  }

  class RunService {
    var runs: map<string, Run>
    var slot: string
    /** Everything the controller has done so far. */
    ghost var done: Tally

    constructor ()
      ensures Valid() && runs == map[] && slot == "" && done == Tally(0, 0, 0, 0)
    {
      runs, slot, done := map[], "", Tally(0, 0, 0, 0);
    }

    /** Runs are stored under their ids. */
    ghost predicate Valid()
      reads this
    {
      forall id :: id in runs ==> runs[id].runId == id
    }

    // ---- The service ----

    /** Take an empty slot, or keep one that is already ours; the slot stays taken when the reply cannot be read. */
    method Claim(runId: string, env: CreateEnv) returns (fault: Option<Fault>)
      modifies `slot
      ensures fault.None? <==> env.Claims() && ClaimSucceeds(old(slot), runId)
      ensures slot == if env.claimFault.None? && ClaimSucceeds(old(slot), runId) then runId else old(slot)
      ensures fault.Some? ==> fault == if env.claimFault.Some? then env.claimFault
                                       else if !ClaimSucceeds(old(slot), runId) then Some(env.heldFault)
                                       else Some(Validation)
    {
      if env.claimFault.Some? { return env.claimFault; }
      if slot != "" && slot != runId { return Some(env.heldFault); }
      slot := runId;
      fault := if env.claimReadable then None else Some(Validation);
    }

    method ReleaseSlot(runId: string, ok: bool)
      modifies `slot
      ensures slot == if ok then Release(old(slot), runId) else old(slot)
    {
      if ok && slot == runId { slot := ""; }
    }

    /** Service.Create: every way out after the claim, except success, runs the deferred rollback. */
    method Create(sessionId: string, runId: string, env: CreateEnv) returns (reply: CreateReply)
      requires Valid()
      modifies `runs, `slot
      ensures Valid()
      ensures CreateOutcome(runs, slot, reply) == AgentRuns.Create(old(runs), old(slot), sessionId, runId, env)
    {
      var fault := Claim(runId, env);
      if fault.Some? { return Rejected(fault.value); }
      var releaseOnError := true;
      if !env.specOk {
        reply := Rejected(Validation);
      } else if runId in runs {
        reply := AlreadyExists;
      } else if !env.createOk {
        reply := Rejected(OtherFault);
      } else {
        runs := runs[runId := FreshRun(runId, sessionId, env.validRun)];
        releaseOnError := false;
        reply := Created;
      }
      if releaseOnError { ReleaseSlot(runId, env.releaseOk); }
    }

    /** Service.Cancel: a blank id is an error, an unknown one is not found. */
    method Cancel(runId: string) returns (reply: CallReply)
      requires Valid()
      modifies `runs
      ensures Valid() && reply == Lookup(old(runs), runId)
      ensures var id := Trim(runId);
        runs == if reply.CallOk? then old(runs)[id := AgentRuns.Cancel(old(runs)[id])] else old(runs)
    {
      var id := Trim(runId);
      if id == "" { return CallError; }
      if id !in runs { return CallNotFound; }
      reply := CallOk;
      var r := runs[id];
      if IsTerminalPhase(r.status.phase) || r.cancelRequested {
        assert runs[id := r] == runs;
        return;
      }
      runs := runs[id := r.(cancelRequested := true, generation := r.generation + 1)];
    }

    method PublishTerminalResult(runId: string, result: ResultSummary) returns (reply: CallReply)
      requires Valid()
      modifies `runs
      ensures Valid() && reply == Lookup(old(runs), runId)
      ensures runs == if reply.CallOk? then old(runs)[Trim(runId) := Publish(old(runs)[Trim(runId)],
                                                                             result)] else old(runs)
    {
      var id := Trim(runId);
      if id == "" { return CallError; }
      if id !in runs { return CallNotFound; }
      reply := CallOk;
      var status := runs[id].status;
      status := status.(result := Some(result));
      runs := runs[id := runs[id].(status := status)];
    }

    // ---- The controller ----

    /** The state that one reconcile step of a run leaves behind. */
    ghost predicate After(runs0: map<string, Run>, slot0: string, done0: Tally, runId: string, step: RunStep)
      reads this
    {
      && runs == (if step.run.Some? then runs0[runId := step.run.value] else runs0 - {runId})
      && slot == (if step.released then Release(slot0, runId) else slot0)
      && done == done0.Plus(step)
    }

    method UpdateObservedStatus(runId: string, next: RunStatus, env: RunEnv)
      requires Valid() && runId in runs
      modifies this
      ensures Valid()
      ensures After(old(runs), old(slot), old(done), runId, UpdateObserved(old(runs)[runId], next, env))
    {
      var resource := runs[runId];
      var previous := resource.status;
      if previous == next { return; }
      if IsTerminalPhase(next.phase) && !IsTerminalPhase(previous.phase) {
        if !env.cleanupOk { return; }
      }
      if !env.writeOk { return; }
      runs := runs[runId := Stored(resource, next)];
      if IsTerminalPhase(next.phase) && !IsTerminalPhase(previous.phase) {
        done := done.(releases := done.releases + 1);
        ReleaseSlot(runId, env.releaseOk);
        if env.releaseOk { done := done.(finished := done.finished + 1); }
      }
    }

    method SubmitRun(runId: string, env: RunEnv)
      requires Valid() && runId in runs
      modifies this
      ensures Valid()
      ensures After(old(runs), old(slot), old(done), runId, AgentRuns.SubmitRun(old(runs)[runId], env))
    {
      done := done.(submits := done.submits + 1);
      if env.submit.None? { return; }
      var next := PhaseStatus(runs[runId], Scheduled, env.submit.value);
      UpdateObservedStatus(runId, next, env);
    }

    /** Cancel the workflow and look at it; None when one of the two fails. */
    method CancelWorkload(resource: Run, workloadId: string, env: RunEnv) returns (next: Option<RunStatus>)
      requires Valid()
      modifies this`done
      ensures Valid() && done == old(done).(cancels := old(done).cancels + 1)
      ensures next == CanceledNext(resource, workloadId, env)
    {
      done := done.(cancels := done.cancels + 1);
      if env.cancel.CallError? { return None; }
      next := Some(PhaseStatus(resource, Canceled, workloadId));
      if env.cancel.CallOk? {
        if env.workflow.WorkflowError? { return None; }
        if env.workflow.WorkflowIs? { next := Some(ObservedWorkflowStatus(resource, workloadId, env.workflow.phase)); }
      }
    }

    method ReconcileCanceledRun(runId: string, env: RunEnv)
      requires Valid() && runId in runs
      modifies this
      ensures Valid()
      ensures After(old(runs), old(slot), old(done), runId,
                    ReconcileCanceled(old(runs)[runId], Trim(old(runs)[runId].status.workloadId), env))
    {
      var resource := runs[runId];
      var workloadId := Trim(resource.status.workloadId);
      if workloadId == "" {
        UpdateObservedStatus(runId, PhaseStatus(resource, Canceled, ""), env);
        return;
      }
      var next := CancelWorkload(resource, workloadId, env);
      if next.Some? { UpdateObservedStatus(runId, next.value, env); }
    }

    /** Reconciling a run under deletion: end its workflow, clean up, and let it go by dropping the finalizer. */
    method ReconcileDeletedRun(runId: string, env: RunEnv)
      requires Valid() && runId in runs
      modifies this
      ensures Valid()
      ensures After(old(runs), old(slot), old(done), runId, ReconcileDeleted(old(runs)[runId], env))
    {
      var resource := runs[runId];
      if !resource.finalizer { return; }
      if Trim(resource.status.workloadId) != "" {
        if env.workflow.WorkflowError? { return; }
        if env.workflow.WorkflowIs? {
          if !IsTerminalWorkflow(env.workflow.phase) {
            done := done.(cancels := done.cancels + 1);
            return;
          }
          if env.delete.CallError? { return; }
        }
      }
      if !env.cleanupOk || !env.writeOk { return; }
      runs := runs - {runId};
    }

    method ReconcileActiveRun(runId: string, env: RunEnv)
      requires Valid() && runId in runs
      modifies this
      ensures Valid()
      ensures After(old(runs), old(slot), old(done), runId, ReconcileActive(old(runs)[runId], env))
    {
      var resource := runs[runId];
      var previous := resource.status;
      if !resource.validSpec {
        UpdateObservedStatus(runId, PhaseStatus(resource, Failed, ""), env);
        return;
      }
      if previous.phase.Unset? {
        if resource.cancelRequested {
          ReconcileCanceledRun(runId, env);
        } else {
          UpdateObservedStatus(runId, PhaseStatus(resource, Pending, ""), env);
        }
        return;
      }
      if IsTerminalPhase(previous.phase) && previous.observedGeneration == resource.generation { return; }
      if resource.cancelRequested {
        ReconcileCanceledRun(runId, env);
        return;
      }
      var workloadId := Trim(previous.workloadId);
      if workloadId == "" || env.workflow.WorkflowNotFound? {
        SubmitRun(runId, env);
        return;
      }
      if env.workflow.WorkflowIs? {
        UpdateObservedStatus(runId, ObservedWorkflowStatus(resource, workloadId, env.workflow.phase), env);
      }
    }

    /** Reconciler.Reconcile: a run that is gone is left alone; the finalizer is in place before any other work. */
    method Reconcile(runId: string, env: RunEnv)
      requires Valid()
      modifies this
      ensures Valid()
      ensures runId !in old(runs) ==> unchanged(this)
      ensures runId in old(runs) ==>
        After(old(runs), old(slot), old(done), runId, AgentRuns.Reconcile(old(runs)[runId], env))
    {
      if runId !in runs { return; }
      if runs[runId].deleting {
        ReconcileDeletedRun(runId, env);
        return;
      }
      if !runs[runId].finalizer {
        if !env.finalizerOk { return; }
        runs := runs[runId := runs[runId].(finalizer := true)];
      }
      ReconcileActiveRun(runId, env);
    }
  }
}
