/** What the status of a session says: each of its conditions, its phase and its generations, by what was observed. */
module SessionConditions {
  import opened Wrappers
  import opened Text
  import opened SessionGate
  import ResourceConfig
  import AgentRuns

  /** The claims were read, and no reset stands in the way. */
  predicate CarriersSettled(env: Env) {
    env.claims.ClaimsAre? && (env.resets.NoActionReader? || env.resets == ResetPending(false))
  }

  lemma CheckedIff(runtime: bool, resource: bool, env: Env)
    ensures var e, asked := Checked(runtime, resource, env), CarriersSettled(env) && runtime;
      && (e.workspace <==> env.claims.ClaimsAre? && env.claims.workspace)
      && (e.warmState <==> CarriersSettled(env) && env.claims.warmState)
      && (e.runtime <==> runtime && (asked ==> env.resolves))
      && (e.resource <==> resource &&
                          (asked && env.resolves ==> env.files.NoMaterializer? || env.files == FilesCurrent(true)))
  {
  }

  lemma RealizedIff(digest: ResourceConfig.Digest, spec: Spec, status: Status)
    ensures ResourcesRealized(digest, spec, status) <==>
      spec.resources.Some? && forall p :: !ResourceConfig.IsPending(digest, spec.resources, status.realized, p)
  {
    ResourceConfig.ReadyIffNothingPending(digest, spec.resources, status.realized);
  }

  /**
   * The evaluation, check by check. The resolver is asked only once the carriers are settled and the runtime is
   * configured, and the files are looked at only when it resolves.
   */
  lemma EvaluatedIff(digest: ResourceConfig.Digest, spec: Spec, status: Status, env: Env)
    ensures var e := Evaluate(digest, spec, status, env);
      var configured := Trim(spec.runtimeProviderId) != "" && spec.hasEndpoint;
      var asked := CarriersSettled(env) && configured;
      && (e.workspace <==> env.claims.ClaimsAre? && env.claims.workspace)
      && (e.warmState <==> CarriersSettled(env) && env.claims.warmState)
      && (e.runtime <==> configured && (asked ==> env.resolves))
      && (e.resource <==>
            && spec.resources.Some?
            && (forall p :: !ResourceConfig.IsPending(digest, spec.resources, status.realized, p))
            && (asked && env.resolves ==> env.files.NoMaterializer? || env.files == FilesCurrent(true)))
  {
    CheckedIff(RuntimeConfigured(spec), ResourcesRealized(digest, spec, status), env);
    RealizedIff(digest, spec, status);
  }

  // ---- Conditions ----

  lemma {:induction false} KnownKinds(conditions: seq<Condition>, known: Kind -> bool, kind: Kind)
    ensures FindCondition(Known(conditions, known), kind) ==
      if known(kind) then FindCondition(conditions, kind) else None
  {
    if conditions == [] {
    } else {
      KnownKinds(conditions[1..], known, kind);
    }
  }

  /** The time of a condition that is set is that of its last change of status. */
  lemma {:induction false} SetKeepsTime(conditions: seq<Condition>, c: Condition)
    ensures var before, after := FindCondition(conditions, c.kind), FindCondition(SetCondition(conditions, c), c.kind);
      && after.Some?
      && after.value.since ==
         if before.Some? && before.value.status == c.status then before.value.since else c.since
  {
    if conditions == [] || conditions[0].kind == c.kind {
    } else {
      SetKeepsTime(conditions[1..], c);
      assert SetCondition(conditions, c)[1..] == SetCondition(conditions[1..], c);
    }
  }

  predicate IsMarked(kind: Kind) { !kind.OtherKind? }

  /** What a status says of each of the five kinds. */
  predicate Says(e: Evaluation, activeRun: bool, kind: Kind) {
    match kind
    case WorkspaceReady => e.workspace
    case WarmStateReady => e.warmState
    case RuntimeConfigReady => e.runtime
    case ResourceConfigReady => e.resource
    case ReadyForNextRun => e.workspace && e.warmState && e.runtime && e.resource && !activeRun
    case OtherKind(_) => false
  }

  lemma MarkThenFind(conditions: seq<Condition>, c: Condition, kind: Kind)
    ensures var before, after := FindCondition(conditions, kind), FindCondition(SetCondition(conditions, c), kind);
      if kind == c.kind
      then after.Some? && after.value.status == c.status && after.value.observedGeneration == c.observedGeneration
           && after.value.since ==
              if before.Some? && before.value.status == c.status then before.value.since else c.since
      else after == before
  {
    SetThenFind(conditions, c, kind);
    SetKeepsTime(conditions, c);
  }

  /** Each condition is as the evaluation says, at this generation, and dated by its last change. */
  lemma ConditionsSay(e: Evaluation, previous: seq<Condition>, known: Kind -> bool, generation: int, now: int,
                      activeRun: bool, kind: Kind)
    ensures var before := FindCondition(Known(previous, known), kind);
      var after := FindCondition(Conditions(e, previous, known, generation, now, activeRun), kind);
      var truth := if Says(e, activeRun, kind) then True else False;
      if IsMarked(kind)
      then after.Some? && after.value.status == truth && after.value.observedGeneration == generation
           && after.value.since ==
              if before.Some? && before.value.status == truth then before.value.since else now
      else after == before
  {
    var c0 := Known(previous, known);
    var m1 := Condition(WorkspaceReady, if e.workspace then True else False, generation, now);
    var m2 := Condition(WarmStateReady, if e.warmState then True else False, generation, now);
    var m3 := Condition(RuntimeConfigReady, if e.runtime then True else False, generation, now);
    var m4 := Condition(ResourceConfigReady, if e.resource then True else False, generation, now);
    var m5 := Condition(ReadyForNextRun, if e.All() && !activeRun then True else False, generation, now);
    var c1 := SetCondition(c0, m1);
    var c2 := SetCondition(c1, m2);
    var c3 := SetCondition(c2, m3);
    var c4 := SetCondition(c3, m4);
    MarkThenFind(c0, m1, kind);
    MarkThenFind(c1, m2, kind);
    MarkThenFind(c2, m3, kind);
    MarkThenFind(c3, m4, kind);
    MarkThenFind(c4, m5, kind);
  }

  /** Conditions of unknown kinds are dropped, and other ones kept as they are. */
  lemma OtherConditions(e: Evaluation, previous: seq<Condition>, known: Kind -> bool, generation: int, now: int,
                        activeRun: bool, kind: Kind)
    requires kind.OtherKind?
    ensures FindCondition(Conditions(e, previous, known, generation, now, activeRun), kind) ==
      if known(kind) then FindCondition(previous, kind) else None
  {
    ConditionsSay(e, previous, known, generation, now, activeRun, kind);
    KnownKinds(previous, known, kind);
  }

  // ---- The checks of an admission ----

  /** Whatever status a session has, an action is admitted only at its present generation, in every respect. */
  lemma AdmittedIsPresent(s: Session, resetPending: Option<bool>)
    requires Admits(s, resetPending)
    ensures s.spec.Some? && s.generation != 0 && s.status.stateGeneration != 0 && resetPending == Some(false)
    ensures s.status.runtimeGeneration == s.status.resourceGeneration == s.generation
    ensures exists c :: c in s.status.conditions && c == Condition(ReadyForNextRun, True, s.generation, c.since)
  {
    FoundIsIn(s.status.conditions, ReadyForNextRun);
  }

  lemma {:induction false} FoundIsIn(conditions: seq<Condition>, kind: Kind)
    ensures var c := FindCondition(conditions, kind);
      c.Some? ==> c.value in conditions && c.value.kind == kind
  {
    if conditions == [] {
    } else {
      FoundIsIn(conditions[1..], kind);
    }
  }

  /** Between two reconciles the slot is claimed when it is free or the run's own, and released by the run it names. */
  lemma SlotBetween(s: Session, runId: string, phase: Phase)
    ensures var t := Apply(s, SlotClaimed(runId)).status;
      if s.status.activeRunId == "" || s.status.activeRunId == runId then t.activeRunId == runId && t.phase.Running?
      else t == s.status
    ensures var t := Apply(s, SlotReleased(runId, phase)).status;
      if s.status.activeRunId == runId then t.activeRunId == "" && t.phase == phase else t == s.status
  {
  }

  // ---- Phase and generations ----

  /** A run is under way as far as the session can see: its run cannot be read, or is there and has not ended. */
  predicate SeesRun(status: Status, env: Env) {
    var id := Trim(status.activeRunId);
    id != "" && (!env.runRead || (id in env.runs && AgentRuns.IsLive(env.runs[id])))
  }

  lemma SeesRunIff(status: Status, env: Env)
    ensures ObserveActiveRun(status, env) == if SeesRun(status, env) then Trim(status.activeRunId) else ""
  {
  }

  /** The phase: FAILED for an invalid spec, RUNNING while a run is seen, READY when all is well, PENDING otherwise. */
  lemma PhaseIs(digest: ResourceConfig.Digest, known: Kind -> bool, s: Session, env: Env)
    ensures var t := DeriveStatus(digest, known, s, env);
      && (t.phase.Failed? <==>
            || s.spec.None?
            || var spec := s.spec.value;
               Trim(spec.sessionId) == "" || Trim(spec.providerId) == "" || Trim(spec.executionClass) == "")
      && (t.phase.Running? <==> ValidSpec(s.spec) && SeesRun(s.status, env))
      && (t.phase.Ready? <==> ValidSpec(s.spec) && !SeesRun(s.status, env) &&
                              Evaluate(digest, s.spec.value, s.status, env).All())
      && (ValidSpec(s.spec) ==> t.activeRunId == if SeesRun(s.status, env) then Trim(s.status.activeRunId) else "")
  {
    SeesRunIff(s.status, env);
  }

  /**
   * The generations of a valid session: those of the configurations follow the session while they are ready, and stay
   * where they were otherwise; that of the home state is the one at which the present home was first seen ready.
   */
  lemma GenerationsAre(digest: ResourceConfig.Digest, known: Kind -> bool, s: Session, env: Env)
    requires ValidSpec(s.spec)
    ensures var t, e := DeriveStatus(digest, known, s, env), Evaluate(digest, s.spec.value, s.status, env);
      var home := Trim(s.spec.value.homeStateId);
      && t.runtimeGeneration == (if e.runtime then s.generation else s.status.runtimeGeneration)
      && t.resourceGeneration == (if e.resource then s.generation else s.status.resourceGeneration)
      && t.homeStateId == (if e.warmState then home else "")
      && t.stateGeneration == (
           if !e.warmState || home == "" then 0
           else if s.status.stateGeneration != 0 && Trim(s.status.homeStateId) == home then s.status.stateGeneration
           else s.generation)
      && t.realized.rule == Trim(s.status.realized.rule) && t.realized.skill == Trim(s.status.realized.skill)
      && t.realized.mcp == Trim(s.status.realized.mcp)
  {
  }

  /** An invalid session keeps nothing but the one condition that refuses work. */
  lemma InvalidKeepsNothing(digest: ResourceConfig.Digest, known: Kind -> bool, s: Session, env: Env, kind: Kind)
    requires !ValidSpec(s.spec)
    ensures var t := DeriveStatus(digest, known, s, env);
      && t.runtimeGeneration == t.resourceGeneration == t.stateGeneration == 0 && t.activeRunId == t.homeStateId == ""
      && t.realized == ResourceConfig.Revisions("", "", "")
      && var found := FindCondition(t.conditions, kind);
      if kind.ReadyForNextRun?
      then found.Some? && found.value.status.False? && found.value.observedGeneration == s.generation
      else found.None?
  {
    var kept := FindCondition(s.status.conditions, ReadyForNextRun);
    var list := if kept.Some? then [kept.value] else [];
    FoundIsIn(s.status.conditions, ReadyForNextRun);
    MarkThenFind(list, Condition(ReadyForNextRun, False, s.generation, env.now), kind);
  }
}
