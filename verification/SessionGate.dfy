/**
 * The readiness gate of a session: the status that the session reconciler derives, and the checks that
 * stand between that status and a new action.
 */
module SessionGate {
  import opened Wrappers
  import opened Text
  import ResourceConfig
  import System
  import AgentRuns

  // ---- Conditions ----

  datatype Kind =
    | WorkspaceReady | WarmStateReady | RuntimeConfigReady | ResourceConfigReady | ReadyForNextRun
    | OtherKind(name: string)

  datatype Truth = True | False | Unknown

  datatype Condition = Condition(kind: Kind, status: Truth, observedGeneration: int, since: int)

  /** meta.FindStatusCondition: the first of its kind. */
  function FindCondition(conditions: seq<Condition>, kind: Kind): Option<Condition> {
    if conditions == [] then None
    else if conditions[0].kind == kind then Some(conditions[0])
    else FindCondition(conditions[1..], kind)
  }

  /** meta.SetStatusCondition: overwrite the first of its kind, or append; the time changes with the status. */
  function SetCondition(conditions: seq<Condition>, c: Condition): seq<Condition> {
    if conditions == [] then [c]
    else if conditions[0].kind == c.kind then
      [Overwritten(conditions[0], c)] + conditions[1..]
    else [conditions[0]] + SetCondition(conditions[1..], c)
  }

  lemma {:induction false} SetThenFind(conditions: seq<Condition>, c: Condition, kind: Kind)
    ensures var found := FindCondition(SetCondition(conditions, c), kind);
      if kind == c.kind
      then found.Some? && found.value.status == c.status && found.value.observedGeneration == c.observedGeneration
      else found == FindCondition(conditions, kind)
  {
    if conditions != [] && conditions[0].kind != c.kind {
      SetThenFind(conditions[1..], c, kind);
      assert SetCondition(conditions, c)[1..] == SetCondition(conditions[1..], c);
    } else if conditions != [] {
      assert SetCondition(conditions, c)[1..] == conditions[1..];
    }
  }

  function Overwritten(known: Condition, c: Condition): Condition {
    if known.status == c.status then c.(since := known.since) else c
  }

  lemma {:induction false} SetAt(conditions: seq<Condition>, i: nat, c: Condition)
    requires i <= |conditions| && forall j :: 0 <= j < i ==> conditions[j].kind != c.kind
    ensures i == |conditions| ==> SetCondition(conditions, c) == conditions + [c]
    ensures i < |conditions| && conditions[i].kind == c.kind ==>
      SetCondition(conditions, c) == conditions[i := Overwritten(conditions[i], c)]
  {
    if i == 0 {
    } else {
      SetAt(conditions[1..], i - 1, c);
    }
  }

  /** The list of conditions as the reconciler edits it. */
  class ConditionList {
    var items: seq<Condition>

    /** knownSessionConditions: start from the conditions of known kinds. */
    constructor (previous: seq<Condition>, known: Kind -> bool)
      ensures items == Known(previous, known)
    {
      items := [];
      new;
      for i := 0 to |previous|
        modifies this
        invariant items == Known(previous[..i], known)
      {
        KnownSnoc(previous[..i], previous[i], known);
        assert previous[..i + 1] == previous[..i] + [previous[i]];
        if known(previous[i].kind) { items := items + [previous[i]]; }
      }
      assert previous[..|previous|] == previous;
    }

    method Set(kind: Kind, ready: bool, generation: int, now: int)
      modifies this
      ensures items == SetCondition(old(items), Condition(kind, if ready then True else False, generation, now))
    {
      var c := Condition(kind, if ready then True else False, generation, now);
      for i := 0 to |items|
        invariant items == old(items) && forall j :: 0 <= j < i ==> items[j].kind != kind
      {
        if items[i].kind == kind {
          SetAt(items, i, c);
          items := items[i := Overwritten(items[i], c)];
          return;
        }
      }
      SetAt(items, |items|, c);
      items := items + [c];
    }
  }

  function Known(conditions: seq<Condition>, known: Kind -> bool): seq<Condition> {
    if conditions == [] then []
    else if known(conditions[0].kind) then [conditions[0]] + Known(conditions[1..], known)
    else Known(conditions[1..], known)
  }

  lemma {:induction false} KnownSnoc(conditions: seq<Condition>, c: Condition, known: Kind -> bool)
    ensures Known(conditions + [c], known) == Known(conditions, known) + if known(c.kind) then [c] else []
  {
    if conditions == [] {
      assert conditions + [c] == [c] && [c][1..] == [];
    } else {
      assert (conditions + [c])[1..] == conditions[1..] + [c];
      KnownSnoc(conditions[1..], c, known);
    }
  }

  // ---- Sessions ----

  datatype Spec = Spec(
    sessionId: string, providerId: string, executionClass: string, homeStateId: string,
    runtimeProviderId: string, hasEndpoint: bool, resources: Option<ResourceConfig.Resources>)

  datatype Phase = Pending | Ready | Running | Failed

  datatype Status = Status(
    phase: Phase, conditions: seq<Condition>, runtimeGeneration: int, resourceGeneration: int,
    realized: ResourceConfig.Revisions, homeStateId: string, stateGeneration: int, activeRunId: string)

  datatype Session = Session(generation: int, spec: Option<Spec>, status: Status)

  /** What the reconciler sees of the world: claims, resets, the resolver, materialized files, the active run. */
  datatype Claims = NoCarriers | ClaimsUnread | ClaimsAre(workspace: bool, warmState: bool)
  datatype Resets = NoActionReader | ResetsUnread | ResetPending(pending: bool)
  datatype Files = NoMaterializer | FilesUnread | FilesCurrent(current: bool)

  datatype Env = Env(
    claims: Claims, resets: Resets, resolves: bool, files: Files, runs: map<string, AgentRuns.Run>, runRead: bool,
    now: int)

  datatype Evaluation = Evaluation(workspace: bool, warmState: bool, runtime: bool, resource: bool) {
    predicate All() { workspace && warmState && runtime && resource }
  }

  predicate RuntimeConfigured(spec: Spec) {
    Trim(spec.runtimeProviderId) != "" && spec.hasEndpoint
  }

  predicate ResourcesRealized(digest: ResourceConfig.Digest, spec: Spec, status: Status) {
    spec.resources.Some? && ResourceConfig.Ready(digest, spec.resources, status.realized)
  }

  /** The checks that overwrite what the spec and the realized revisions say. */
  function Checked(runtime: bool, resource: bool, env: Env): Evaluation {
    if !env.claims.ClaimsAre? then Evaluation(false, false, runtime, resource)
    else if env.resets == ResetsUnread || env.resets == ResetPending(true) then
      Evaluation(env.claims.workspace, false, runtime, resource)
    else
      var e := Evaluation(env.claims.workspace, env.claims.warmState, runtime, resource);
      if !runtime then e
      else if !env.resolves then e.(runtime := false)
      else if env.files == FilesUnread || env.files == FilesCurrent(false) then e.(resource := false)
      else e
  }

  /** Reconciler.evaluateReadiness, check after check. */
  function Evaluate(digest: ResourceConfig.Digest, spec: Spec, status: Status, env: Env): Evaluation {
    Checked(RuntimeConfigured(spec), ResourcesRealized(digest, spec, status), env)
  }

  /** observeActiveRun */
  function ObserveActiveRun(status: Status, env: Env): string {
    System.ObserveActiveRun(env.runs, Trim(status.activeRunId), env.runRead)
  }

  /** observeStateGeneration: the generation at which the present home state was first seen ready. */
  function ObserveStateGeneration(status: Status, spec: Spec, generation: int, warmStateReady: bool): (int, string) {
    var home := Trim(spec.homeStateId);
    if !warmStateReady || home == "" then (0, "")
    else if status.stateGeneration == 0 || Trim(status.homeStateId) != home then (generation, home)
    else (status.stateGeneration, home)
  }

  function Mark(conditions: seq<Condition>, kind: Kind, ready: bool, generation: int, now: int): seq<Condition> {
    SetCondition(conditions, Condition(kind, if ready then True else False, generation, now))
  }

  /** readinessEvaluation.conditions */
  function Conditions(e: Evaluation, previous: seq<Condition>, known: Kind -> bool,
                      generation: int, now: int, activeRun: bool): seq<Condition>
  {
    var c0 := Known(previous, known);
    var c1 := Mark(c0, WorkspaceReady, e.workspace, generation, now);
    var c2 := Mark(c1, WarmStateReady, e.warmState, generation, now);
    var c3 := Mark(c2, RuntimeConfigReady, e.runtime, generation, now);
    var c4 := Mark(c3, ResourceConfigReady, e.resource, generation, now);
    Mark(c4, ReadyForNextRun, e.All() && !activeRun, generation, now)
  }

  method BuildConditions(e: Evaluation, previous: seq<Condition>, known: Kind -> bool, generation: int,
                         now: int, activeRun: bool)
    returns (r: seq<Condition>)
    ensures r == Conditions(e, previous, known, generation, now, activeRun)
  {
    var list := new ConditionList(previous, known);
    list.Set(WorkspaceReady, e.workspace, generation, now);
    list.Set(WarmStateReady, e.warmState, generation, now);
    list.Set(RuntimeConfigReady, e.runtime, generation, now);
    list.Set(ResourceConfigReady, e.resource, generation, now);
    list.Set(ReadyForNextRun, e.All() && !activeRun, generation, now);
    r := list.items;
  }

  /** failedStatus: everything but the readiness condition is dropped. */
  function FailedStatus(status: Status, generation: int, now: int): Status {
    var kept := FindCondition(status.conditions, ReadyForNextRun);
    Status(Failed, Mark(if kept.Some? then [kept.value] else [], ReadyForNextRun, false, generation, now),
           0, 0, ResourceConfig.Revisions("", "", ""), "", 0, "")
  }

  predicate ValidSpec(spec: Option<Spec>) {
    && spec.Some? && Trim(spec.value.sessionId) != ""
    && Trim(spec.value.providerId) != "" && Trim(spec.value.executionClass) != ""
  }

  /** Reconciler.deriveStatus */
  function DeriveStatus(digest: ResourceConfig.Digest, known: Kind -> bool, s: Session, env: Env): Status {
    if !ValidSpec(s.spec) then FailedStatus(s.status, s.generation, env.now)
    else
      var e := Evaluate(digest, s.spec.value, s.status, env);
      var active := ObserveActiveRun(s.status, env);
      var (stateGeneration, home) := ObserveStateGeneration(s.status, s.spec.value, s.generation, e.warmState);
      Status(
        if active != "" then Running else if e.All() then Ready else Pending,
        Conditions(e, s.status.conditions, known, s.generation, env.now, active != ""),
        if e.runtime then s.generation else s.status.runtimeGeneration,
        if e.resource then s.generation else s.status.resourceGeneration,
        ResourceConfig.Revisions(Trim(s.status.realized.rule), Trim(s.status.realized.skill),
                                 Trim(s.status.realized.mcp)),
        home, stateGeneration, active)
  }

  method EvaluateReadiness(digest: ResourceConfig.Digest, spec: Spec, status: Status, env: Env) returns (e: Evaluation)
    ensures e == Evaluate(digest, spec, status, env)
  {
    e := Evaluation(false, false, RuntimeConfigured(spec), ResourcesRealized(digest, spec, status));
    match env.claims {
      case ClaimsAre(workspace, warmState) => e := e.(workspace := workspace, warmState := warmState);
      case _ => return;
    }
    match env.resets {
      case ResetsUnread => return e.(warmState := false);
      case ResetPending(pending) => if pending { return e.(warmState := false); }
      case NoActionReader =>
    }
    if !e.runtime { return; }
    if !env.resolves { return e.(runtime := false); }
    match env.files {
      case FilesUnread => return e.(resource := false);
      case FilesCurrent(current) => if !current { e := e.(resource := false); }
      case NoMaterializer =>
    }
  }

  /** deriveStatus, which adjusts the phase of the status it has built when a run is active. */
  method DeriveSessionStatus(digest: ResourceConfig.Digest, known: Kind -> bool, s: Session,
                             env: Env) returns (t: Status)
    ensures t == DeriveStatus(digest, known, s, env)
  {
    if !ValidSpec(s.spec) { return FailedStatus(s.status, s.generation, env.now); }
    var spec := s.spec.value;
    var e := EvaluateReadiness(digest, spec, s.status, env);
    var active := ObserveActiveRun(s.status, env);
    var observed := ObserveStateGeneration(s.status, spec, s.generation, e.warmState);
    var r := s.status.realized;
    t := Status(if e.All() then Ready else Pending, [],
                if e.runtime then s.generation else s.status.runtimeGeneration,
                if e.resource then s.generation else s.status.resourceGeneration,
                ResourceConfig.Revisions(Trim(r.rule), Trim(r.skill), Trim(r.mcp)), observed.1, observed.0, active);
    var conditions := BuildConditions(e, s.status.conditions, known, s.generation, env.now, active != "");
    t := t.(conditions := conditions);
    if active != "" { t := t.(phase := Running); }
  }

  // ---- The gate ----

  /** loadReadySession and the generation checks of buildRunTurnSnapshot; resetPending: None for a failed lookup. */
  predicate Admits(s: Session, resetPending: Option<bool>) {
    && s.spec.Some?
    && var c := FindCondition(s.status.conditions, ReadyForNextRun);
    && c.Some? && c.value.status.True? && c.value.observedGeneration == s.generation
    && s.status.runtimeGeneration == s.generation && s.status.resourceGeneration == s.generation
    && resetPending == Some(false)
    && s.generation != 0 && s.status.stateGeneration != 0
  }

  /**
   * What it takes for a session to accept work, told without the reconciler: nothing is missing and nothing is
   * going on.
   */
  ghost predicate Prepared(digest: ResourceConfig.Digest, s: Session, env: Env) {
    && ValidSpec(s.spec)
    && env.claims == ClaimsAre(true, true) && Trim(s.spec.value.homeStateId) != ""
    && env.resets in {NoActionReader, ResetPending(false)}
    && Trim(s.spec.value.runtimeProviderId) != "" && s.spec.value.hasEndpoint && env.resolves
    && s.spec.value.resources.Some? && env.files in {NoMaterializer, FilesCurrent(true)}
    && (forall p :: !ResourceConfig.IsPending(digest, s.spec.value.resources, s.status.realized, p))
    && (Trim(s.status.activeRunId) == "" ||
        (env.runRead && (Trim(s.status.activeRunId) in env.runs ==>
                           !AgentRuns.IsLive(env.runs[Trim(s.status.activeRunId)]))))
  }

  lemma ReadyCondition(e: Evaluation, previous: seq<Condition>, known: Kind -> bool, generation: int, now: int,
                       activeRun: bool)
    ensures var c := FindCondition(Conditions(e, previous, known, generation, now, activeRun), ReadyForNextRun);
      && c.Some? && c.value.observedGeneration == generation
      && c.value.status == if e.All() && !activeRun then True else False
  {
    var c0 := Known(previous, known);
    var c1 := Mark(c0, WorkspaceReady, e.workspace, generation, now);
    var c2 := Mark(c1, WarmStateReady, e.warmState, generation, now);
    var c3 := Mark(c2, RuntimeConfigReady, e.runtime, generation, now);
    var c4 := Mark(c3, ResourceConfigReady, e.resource, generation, now);
    SetThenFind(c4, Condition(ReadyForNextRun, if e.All() && !activeRun then True else False, generation, now),
                ReadyForNextRun);
  }

  lemma EvaluationIsPreparation(digest: ResourceConfig.Digest, s: Session, env: Env)
    requires ValidSpec(s.spec)
    ensures Prepared(digest, s, env) <==>
      (&& Evaluate(digest, s.spec.value, s.status, env).All() && ObserveActiveRun(s.status, env) == ""
       && Trim(s.spec.value.homeStateId) != "")
  {
    EvaluatedAll(digest, s.spec.value, s.status, env);
    NothingActive(s.status, env);
    ResourceConfig.ReadyIffNothingPending(digest, s.spec.value.resources, s.status.realized);
  }

  lemma CheckedAll(runtime: bool, resource: bool, env: Env)
    ensures Checked(runtime, resource, env).All() <==>
      (&& env.claims == ClaimsAre(true, true) && env.resets in {NoActionReader, ResetPending(false)}
       && runtime && env.resolves && resource && env.files in {NoMaterializer, FilesCurrent(true)})
  {
  }

  lemma EvaluatedAll(digest: ResourceConfig.Digest, spec: Spec, status: Status, env: Env)
    ensures Evaluate(digest, spec, status, env).All() <==>
      (&& env.claims == ClaimsAre(true, true) && env.resets in {NoActionReader, ResetPending(false)}
       && RuntimeConfigured(spec) && env.resolves
       && ResourcesRealized(digest, spec, status) && env.files in {NoMaterializer, FilesCurrent(true)})
  {
    CheckedAll(RuntimeConfigured(spec), ResourcesRealized(digest, spec, status), env);
  }

  lemma NothingActive(status: Status, env: Env)
    ensures var id := Trim(status.activeRunId);
      ObserveActiveRun(status, env) == "" <==>
        id == "" || (env.runRead && (id in env.runs ==> !AgentRuns.IsLive(env.runs[id])))
  {
  }

  /**
   * Agreement of the reconciler and the gate: right after a reconcile the gate admits an action exactly when
   * the session is prepared, no reset is pending by then, and the session has a generation at all.
   */
  lemma GateAgrees(digest: ResourceConfig.Digest, known: Kind -> bool, s: Session, env: Env, resetPending: Option<bool>)
    ensures Admits(s.(status := DeriveStatus(digest, known, s, env)), resetPending)
       <==> Prepared(digest, s, env) && resetPending == Some(false) && s.generation != 0
  {
    if ValidSpec(s.spec) {
      var e := Evaluate(digest, s.spec.value, s.status, env);
      ReadyCondition(e, s.status.conditions, known, s.generation, env.now, ObserveActiveRun(s.status, env) != "");
      EvaluationIsPreparation(digest, s, env);
    } else {
      FailedIsRefused(s, env.now, resetPending);
    }
  }

  lemma FailedIsRefused(s: Session, now: int, resetPending: Option<bool>)
    ensures !Admits(s.(status := FailedStatus(s.status, s.generation, now)), resetPending)
  {
    var kept := FindCondition(s.status.conditions, ReadyForNextRun);
    SetThenFind(if kept.Some? then [kept.value] else [], Condition(ReadyForNextRun, False, s.generation, now),
                ReadyForNextRun);
  }

  /**
   * An admitted status names no active run, and each of its generations is the session's own or an earlier one
   * that was seen.
   */
  lemma AdmittedIsSettled(digest: ResourceConfig.Digest, known: Kind -> bool, s: Session, env: Env)
    requires s.generation != 0 && Prepared(digest, s, env)
    ensures var t := DeriveStatus(digest, known, s, env);
      && t.phase.Ready? && t.activeRunId == ""
      && t.runtimeGeneration == t.resourceGeneration == s.generation
      && t.homeStateId == Trim(s.spec.value.homeStateId) != ""
      && t.stateGeneration == (if s.status.stateGeneration != 0 && Trim(s.status.homeStateId) == t.homeStateId
                               then s.status.stateGeneration else s.generation)
      && t.stateGeneration != 0
  {
    EvaluationIsPreparation(digest, s, env);
  }

  // ---- Closing the gate ----

  /**
   * What happens to a session between two reconciles of it: its spec is replaced, and runs claim and release the
   * slot.
   */
  datatype Event =
    | SpecReplaced(spec: Option<Spec>)
    | SlotClaimed(runId: string)
    | SlotReleased(runId: string, phase: Phase)
    | RevisionsRealized(r: ResourceConfig.Revisions)

  function Apply(s: Session, e: Event): Session {
    match e
    case SpecReplaced(spec) => s.(spec := spec, generation := s.generation + 1)
    case SlotClaimed(runId) =>
      if AgentRuns.ClaimSucceeds(s.status.activeRunId, runId)
      then s.(status := s.status.(activeRunId := runId, phase := Running)) else s
    case SlotReleased(runId, phase) =>
      if s.status.activeRunId != runId then s
      else s.(status := s.status.(activeRunId := AgentRuns.Release(runId, runId), phase := phase))
    case RevisionsRealized(r) => s.(status := s.status.(realized := r))
  }

  function ApplyAll(s: Session, events: seq<Event>): Session
    decreases |events|
  {
    if events == [] then s else ApplyAll(Apply(s, events[0]), events[1..])
  }

  ghost predicate ReplacesSpec(events: seq<Event>) {
    exists e :: e in events && e.SpecReplaced?
  }

  lemma {:induction false} GenerationsBetween(s: Session, events: seq<Event>)
    ensures var t := ApplyAll(s, events);
      && t.status.conditions == s.status.conditions && t.status.stateGeneration == s.status.stateGeneration
      && t.status.runtimeGeneration == s.status.runtimeGeneration
      && t.status.resourceGeneration == s.status.resourceGeneration
      && (if ReplacesSpec(events) then t.generation > s.generation
          else t.generation == s.generation && t.spec == s.spec)
    decreases |events|
  {
    if events == [] {
    } else {
      GenerationsBetween(Apply(s, events[0]), events[1..]);
      assert events == [events[0]] + events[1..];
    }
  }

  lemma DerivedIsCurrent(digest: ResourceConfig.Digest, known: Kind -> bool, s: Session, env: Env)
    ensures var c := FindCondition(DeriveStatus(digest, known, s, env).conditions, ReadyForNextRun);
      c.Some? && c.value.observedGeneration == s.generation
  {
    if ValidSpec(s.spec) {
      var e := Evaluate(digest, s.spec.value, s.status, env);
      ReadyCondition(e, s.status.conditions, known, s.generation, env.now, ObserveActiveRun(s.status, env) != "");
    } else {
      var kept := FindCondition(s.status.conditions, ReadyForNextRun);
      SetThenFind(if kept.Some? then [kept.value] else [], Condition(ReadyForNextRun, False, s.generation,
                                                                     env.now), ReadyForNextRun);
    }
  }

  /**
   * Between two reconciles the gate stays as the first one left it, through claims, releases and reloads, until the
   * spec is replaced: from then on it is closed.
   */
  lemma GateUntilSpecChanges(digest: ResourceConfig.Digest, known: Kind -> bool, s: Session, env: Env,
                             events: seq<Event>, resetPending: Option<bool>)
    ensures var t := s.(status := DeriveStatus(digest, known, s, env));
      Admits(ApplyAll(t, events), resetPending) <==> Admits(t, resetPending) && !ReplacesSpec(events)
  {
    GenerationsBetween(s.(status := DeriveStatus(digest, known, s, env)), events);
    DerivedIsCurrent(digest, known, s, env);
  }
}
