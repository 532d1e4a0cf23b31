/** How many attempts an action can make, and why automatic retry and fallback come to an end. */
module AttemptBudget {
  import opened Text
  import opened RunIds
  import opened RetryPolicies
  import opened Actions
  import opened System
  import opened ActionMoves
  import opened SlotSafety
  import opened QueueSafety
  import opened Progress

  /** The attempts made so far fit the budget used so far; a run that is recorded, or was last, counts one more. */
  predicate WithinBudget(a: Action, m: int) {
    a.status.attemptCount <= a.status.candidateIndex * (m + 1) + a.status.retryCount + LastAttempt(a)
  }

  /** The attempt that is under way, or was the last one, is not yet covered by a retry or a fallback. */
  function LastAttempt(a: Action): int {
    if a.status.runId != "" || IsTerminal(a) then 1 else 0
  }

  lemma MoveCounters(a: Action, t: ActionStatus, now: int, policy: RetryPolicy, owner: bool)
    requires Named(a, a.name) && Counted(a, policy.maxRetries) && Moves(a, t, now, policy, owner)
    ensures var u, m, b := a.status, policy.maxRetries, a.(status := t);
      || (SameCounters(u, t) && LastAttempt(a) <= LastAttempt(b))
      || (t == u.(phase := t.phase, failureClass := t.failureClass, nextRetryAt := t.nextRetryAt, runId := t.runId,
                  attemptCount := u.attemptCount + 1) && LastAttempt(a) == 0 && LastAttempt(b) == 1)
      || (t.attemptCount == u.attemptCount && t.candidateIndex == u.candidateIndex && t.retryCount == u.retryCount + 1)
      || (t.attemptCount == u.attemptCount && t.candidateIndex == u.candidateIndex + 1
          && t.retryCount == 0 && u.retryCount == m)
  {
    if !IsTerminal(a) && Launches(a, t) { RunIdIsClean(a.name, a.status.attemptCount + 1); }
  }

  lemma MoveKeepsBudget(a: Action, t: ActionStatus, now: int, policy: RetryPolicy, owner: bool)
    requires Named(a, a.name) && Counted(a, policy.maxRetries) && WithinBudget(a, policy.maxRetries)
    requires Moves(a, t, now, policy, owner)
    ensures WithinBudget(a.(status := t), policy.maxRetries)
  {
    MoveCounters(a, t, now, policy, owner);
    BudgetArithmetic(a.status.candidateIndex, policy.maxRetries);
  }

  lemma BudgetArithmetic(i: int, m: int)
    ensures (i + 1) * (m + 1) == i * (m + 1) + m + 1
  {
  }

  /** One more only while a run is on record; some actions that have ended exceed this. */
  predicate Tight(a: Action, m: int) {
    var t := a.status;
    t.attemptCount <= t.candidateIndex * (m + 1) + t.retryCount + if t.runId != "" then 1 else 0
  }

  /** The last attempt is one more than the retries and candidates used so far have paid for. */
  predicate UsedUp(a: Action, m: int) {
    a.status.attemptCount == a.status.candidateIndex * (m + 1) + a.status.retryCount + 1
  }

  /** An action that has ended without its run id, and spent its last attempt doing so. */
  predicate OneOver(a: Action, m: int) {
    IsTerminal(a) && a.status.runId == "" && UsedUp(a, m)
  }

  /** The budget is the tight bound, but for those actions, which exceed it by exactly one. */
  lemma BudgetIsTightOrOneOver(a: Action, m: int)
    ensures WithinBudget(a, m) <==> Tight(a, m) || OneOver(a, m)
    ensures !(Tight(a, m) && OneOver(a, m))
  {
  }

  /** A move exceeds the tight bound exactly when it ends the action and drops the run id that used up the bound. */
  lemma MoveKeepsTightIff(a: Action, t: ActionStatus, now: int, policy: RetryPolicy, owner: bool)
    requires Named(a, a.name) && Counted(a, policy.maxRetries) && Tight(a, policy.maxRetries) && !IsTerminal(a)
    requires Moves(a, t, now, policy, owner)
    ensures var m, u := policy.maxRetries, a.status;
      Tight(a.(status := t), m) <==> !(IsTerminalPhase(t.phase) && t.runId == "" && u.runId != "" && UsedUp(a, m))
  {
    var m, b := policy.maxRetries, a.(status := t);
    MoveKeepsBudget(a, t, now, policy, owner);
    BudgetIsTightOrOneOver(a, m);
    BudgetIsTightOrOneOver(b, m);
  }

  /** What makes an action end without its run id: a session that is gone, or a failing call with no retry left. */
  predicate ForgetsRun(s: State, a: Action, env: ActionEnv) {
    && a.status.runId != "" && !IsTerminal(a) && env.listOk && env.writeOk && !a.spec.stopRequested
    && (env.session.SessionMissing? || (CallsFail(s, a, env) && a.status.retryCount == s.policy.maxRetries))
  }

  lemma TurnForgetsIff(s: State, a: Action, env: ActionEnv)
    requires Named(a, a.name) && Counted(a, s.policy.maxRetries) && a.status.runId != "" && !IsTerminal(a)
    ensures var d := DeriveRunTurn(s, a, env);
      && d.status.Some?
      && (IsTerminalPhase(d.status.value.phase) && d.status.value.runId == "" <==>
            env.session.SessionMissing? || (CallsFail(s, a, env) && a.status.retryCount == s.policy.maxRetries))
  {
    RunIdIsTrimmed(a, s.policy.maxRetries);
    if a.status.runId !in s.runs { RecreatesIff(s, a, env); }
  }

  lemma StopRemembers(s: State, name: string, env: ActionEnv)
    requires Sound(s) && name in s.actions && s.actions[name].status.runId != "" && s.actions[name].spec.stopRequested
    requires !IsTerminal(s.actions[name])
    ensures ReconcileAction(s, name, env).actions[name].status.runId == s.actions[name].status.runId
  {
    RunIdIsTrimmed(s.actions[name], s.policy.maxRetries);
    StopIsDerived(s, name, env);
    StopKeepsId(s, s.actions[name], env);
  }

  lemma ReconcileForgetsIff(s: State, name: string, env: ActionEnv)
    requires Sound(s) && name in s.actions && s.actions[name].status.runId != "" && !IsTerminal(s.actions[name])
    ensures var b := ReconcileAction(s, name, env).actions[name];
      IsTerminal(b) && b.status.runId == "" <==> ForgetsRun(s, s.actions[name], env)
  {
    var a := s.actions[name];
    RunIdIsTrimmed(a, s.policy.maxRetries);
    if a.spec.stopRequested {
      StopRemembers(s, name, env);
    } else if env.listOk && env.writeOk {
      ActiveIsDerived(s, name, env);
      TurnForgetsIff(s, a, env);
    }
  }

  /** A reconcile exceeds the tight bound if and only if it makes the action forget a run that used the bound up. */
  lemma ReconcileKeepsTightIff(s: State, name: string, env: ActionEnv)
    requires Sound(s) && name in s.actions && Tight(s.actions[name], s.policy.maxRetries)
    ensures Tight(ReconcileAction(s, name, env).actions[name], s.policy.maxRetries) <==>
      !(ForgetsRun(s, s.actions[name], env) && UsedUp(s.actions[name], s.policy.maxRetries))
  {
    var a, b := s.actions[name], ReconcileAction(s, name, env).actions[name];
    ReconcileSteps(s, name, env);
    if !IsTerminal(a) {
      if a.status.runId != "" { ReconcileForgetsIff(s, name, env); }
      if b != a { MoveKeepsTightIff(a, b.status, s.now, s.policy, IsOwner(s.actions, name)); }
    }
  }

  predicate ForgetsLastRun(s: State, name: string, e: Event) {
    && e.ActionReconciled? && e.name == name && name in s.actions
    && ForgetsRun(s, s.actions[name], e.env) && UsedUp(s.actions[name], s.policy.maxRetries)
  }

  lemma StepKeepsTightIff(s: State, name: string, e: Event)
    requires Sound(s) && name in s.actions && Tight(s.actions[name], s.policy.maxRetries)
    ensures name in Apply(s, e).actions && Apply(s, e).policy == s.policy
    ensures Tight(Apply(s, e).actions[name], s.policy.maxRetries) <==> !ForgetsLastRun(s, name, e)
  {
    var owner := ActionSteps(s, name, e);
    if e.ActionReconciled? && e.name == name {
      ReconcileKeepsTightIff(s, name, e.env);
    } else if e != ActionStopped(name) {
      OtherEventsLeaveAlone(s, name, e);
    }
  }

  /** Along the whole history the tight bound holds of the action. */
  ghost predicate TightThroughout(s: State, name: string, events: seq<Event>)
    decreases |events|
  {
    && name in s.actions && Tight(s.actions[name], s.policy.maxRetries)
    && (events != [] ==> TightThroughout(Apply(s, events[0]), name, events[1..]))
  }

  ghost predicate NeverForgets(s: State, name: string, events: seq<Event>)
    decreases |events|
  {
    events != [] ==> !ForgetsLastRun(s, name, events[0]) && NeverForgets(Apply(s, events[0]), name, events[1..])
  }

  /** Along every history the tight bound holds of an action throughout if and only if it never forgets such a run. */
  lemma {:induction false} TightThroughoutIff(s: State, name: string, events: seq<Event>)
    requires Sound(s) && name in s.actions && Tight(s.actions[name], s.policy.maxRetries)
    requires forall e :: e in events ==> WellNamed(e)
    ensures TightThroughout(s, name, events) <==> NeverForgets(s, name, events)
    decreases |events|
  {
    if events == [] {
    } else {
      StepKeepsTightIff(s, name, events[0]);
      StepKeepsSound(s, events[0]);
      if !ForgetsLastRun(s, name, events[0]) { TightThroughoutIff(Apply(s, events[0]), name, events[1..]); }
    }
  }

  ghost predicate Budgeted(s: State) {
    Sound(s) && forall n :: n in s.actions ==> WithinBudget(s.actions[n], s.policy.maxRetries)
  }

  /** The two halves of the work an action may still cause: retries and candidates that are left, and one launch. */
  function Rank(a: Action, m: int): int {
    var left := if CandidateCount(a) == 0 then 0 else CandidateCount(a) - 1 - a.status.candidateIndex;
    if IsTerminal(a) then 0
    else 2 * (left * (m + 1) + m - a.status.retryCount) + if a.status.runId == "" then 1 else 0
  }

  /** A launch, a retry or a fallback. */
  predicate Progresses(a: Action, b: Action) {
    || b.status.attemptCount > a.status.attemptCount
    || b.status.retryCount > a.status.retryCount
    || b.status.candidateIndex > a.status.candidateIndex
  }

  lemma RankIsNatural(a: Action, m: int)
    requires Counted(a, m) && m >= 0
    ensures 0 <= Rank(a, m)
  {
    var left := if CandidateCount(a) == 0 then 0 else CandidateCount(a) - 1 - a.status.candidateIndex;
    assert left * (m + 1) >= 0;
  }

  /** No step raises the rank, and every launch, retry and fallback lowers it. */
  lemma StepLowersRank(a: Action, b: Action, now: int, policy: RetryPolicy, owner: bool)
    requires Named(a, a.name) && Counted(a, policy.maxRetries) && policy.maxRetries >= 0
    requires Steps(a, b, now, policy, owner)
    ensures Rank(b, policy.maxRetries) <= Rank(a, policy.maxRetries) - if Progresses(a, b) then 1 else 0
  {
    var m := policy.maxRetries;
    RankIsNatural(a, m);
    if b == a || b == StopAction(a) || IsTerminal(a) {
      assert Rank(b, m) == Rank(a, m) && !Progresses(a, b);
    } else if IsTerminal(b) {
      assert Rank(b, m) == 0;
      MoveIsSmall(a, b.status, now, policy, owner);
    } else if SameCounters(a.status, b.status) {
      MoveIsSmall(a, b.status, now, policy, owner);
    } else {
      MoveLowersRank(a, b.status, now, policy, owner);
    }
  }

  /** An end, or a move that leaves the counters alone, leaves the run id alone or drops it. */
  lemma MoveIsSmall(a: Action, t: ActionStatus, now: int, policy: RetryPolicy, owner: bool)
    requires Named(a, a.name) && Counted(a, policy.maxRetries) && !IsTerminal(a)
    requires Moves(a, t, now, policy, owner) && (IsTerminalPhase(t.phase) || SameCounters(a.status, t))
    ensures SameCounters(a.status, t) && (IsTerminalPhase(t.phase) || t.runId == a.status.runId)
  {
  }

  /** Launch, retry and fallback, by what they do to the counters. */
  lemma MoveLowersRank(a: Action, t: ActionStatus, now: int, policy: RetryPolicy, owner: bool)
    requires Named(a, a.name) && Counted(a, policy.maxRetries) && policy.maxRetries >= 0 && !IsTerminal(a)
    requires Moves(a, t, now, policy, owner) && !SameCounters(a.status, t) && !IsTerminalPhase(t.phase)
    ensures Rank(a.(status := t), policy.maxRetries) <= Rank(a, policy.maxRetries) - 1
  {
    var m, b := policy.maxRetries, a.(status := t);
    if Launches(a, t) {
      RunIdIsClean(a.name, a.status.attemptCount + 1);
    } else if Retries(a, t, now, policy) {
      assert Rank(b, m) <= Rank(a, m) - 1;
    } else {
      var left := CandidateCount(a) - 1 - a.status.candidateIndex;
      BudgetArithmetic(left - 1, m);
    }
  }

  lemma StepKeepsWithin(a: Action, b: Action, now: int, policy: RetryPolicy, owner: bool)
    requires Named(a, a.name) && Counted(a, policy.maxRetries) && WithinBudget(a, policy.maxRetries)
    requires Steps(a, b, now, policy, owner)
    ensures WithinBudget(b, policy.maxRetries)
  {
    if b != a && b != StopAction(a) { MoveKeepsBudget(a, b.status, now, policy, owner); }
  }

  lemma ActionKeepsBudget(s: State, name: string, e: Event)
    requires Budgeted(s) && name in s.actions
    ensures name in Apply(s, e).actions && WithinBudget(Apply(s, e).actions[name], s.policy.maxRetries)
  {
    var owner := ActionSteps(s, name, e);
    StepKeepsWithin(s.actions[name], Apply(s, e).actions[name], s.now, s.policy, owner);
  }

  lemma NewActionIsWithin(s: State, name: string, e: Event)
    requires name !in s.actions && name in Apply(s, e).actions
    ensures WithinBudget(Apply(s, e).actions[name], s.policy.maxRetries)
  {
    assert e.ActionCreated? && e.name == name;
  }

  lemma AllKeepBudget(s: State, e: Event)
    requires Budgeted(s)
    ensures Apply(s, e).policy == s.policy
    ensures forall n :: n in Apply(s, e).actions ==> WithinBudget(Apply(s, e).actions[n], s.policy.maxRetries)
  {
    var t := Apply(s, e);
    forall n | n in t.actions ensures WithinBudget(t.actions[n], s.policy.maxRetries) {
      if n in s.actions { ActionKeepsBudget(s, n, e); } else { NewActionIsWithin(s, n, e); }
    }
  }

  lemma StepKeepsBudget(s: State, e: Event)
    requires Budgeted(s) && WellNamed(e)
    ensures Budgeted(Apply(s, e))
  {
    StepKeepsSound(s, e);
    AllKeepBudget(s, e);
  }

  /** How often the action launches, retries or falls back along a history. */
  ghost function ProgressCount(s: State, name: string, events: seq<Event>): nat
    decreases |events|
  {
    if events == [] then 0
    else
      var t := Apply(s, events[0]);
      (if name in s.actions && name in t.actions && Progresses(s.actions[name], t.actions[name]) then 1 else 0)
      + ProgressCount(t, name, events[1..])
  }

  lemma EventLowersRank(s: State, name: string, e: Event)
    requires Sound(s) && name in s.actions
    ensures name in Apply(s, e).actions && Apply(s, e).policy == s.policy
    ensures var a, b, m := s.actions[name], Apply(s, e).actions[name], s.policy.maxRetries;
      Rank(b, m) <= Rank(a, m) - if Progresses(a, b) then 1 else 0
  {
    var owner := ActionSteps(s, name, e);
    StepLowersRank(s.actions[name], Apply(s, e).actions[name], s.now, s.policy, owner);
  }

  /** Whatever the runs and the environment do, automatic progress of an action is bounded by its rank. */
  lemma {:induction false} ProgressIsBounded(s: State, name: string, events: seq<Event>)
    requires Sound(s) && name in s.actions && forall e :: e in events ==> WellNamed(e)
    ensures ProgressCount(s, name, events) <= Rank(s.actions[name], s.policy.maxRetries)
    decreases |events|
  {
    RankIsNatural(s.actions[name], s.policy.maxRetries);
    if events == [] {
    } else {
      StepKeepsSound(s, events[0]);
      EventLowersRank(s, name, events[0]);
      ProgressIsBounded(Apply(s, events[0]), name, events[1..]);
    }
  }

  lemma ProductGrows(i: int, c: int, k: int)
    requires i <= c && 0 <= k
    ensures i * k <= c * k
  {
  }

  lemma RankBound(a: Action, m: int)
    requires Counted(a, m) && m >= 0 && CandidateCount(a) > 0
    ensures Rank(a, m) < 2 * (CandidateCount(a) * (m + 1))
  {
    var c, left := CandidateCount(a), CandidateCount(a) - 1 - a.status.candidateIndex;
    ProductGrows(left, c - 1, m + 1);
    ProductGrows(0, c - 1, m + 1);
    assert (c - 1) * (m + 1) == c * (m + 1) - (m + 1);
  }

  /**
   * An action with c candidates and m retries makes fewer than 2*c*(m+1) launches, retries and fallbacks in its
   * life.
   */
  lemma ProgressEnds(s: State, name: string, events: seq<Event>)
    requires Sound(s) && name in s.actions && forall e :: e in events ==> WellNamed(e)
    requires CandidateCount(s.actions[name]) > 0
    ensures ProgressCount(s, name, events) < 2 * (CandidateCount(s.actions[name]) * (s.policy.maxRetries + 1))
  {
    ProgressIsBounded(s, name, events);
    CountWithinBound(s.actions[name], s.policy.maxRetries, ProgressCount(s, name, events));
  }

  lemma CountWithinBound(a: Action, m: int, count: nat)
    requires Counted(a, m) && m >= 0 && CandidateCount(a) > 0 && count <= Rank(a, m)
    ensures count < 2 * (CandidateCount(a) * (m + 1))
  {
    RankBound(a, m);
  }

  /** An action makes at most c*(m+1) attempts, so it uses at most that many run ids. */
  lemma AttemptsAreBounded(a: Action, m: int)
    requires Counted(a, m) && WithinBudget(a, m) && m >= 0
    ensures a.status.attemptCount <= CandidateCount(a) * (m + 1)
  {
    var c, i := CandidateCount(a), a.status.candidateIndex;
    ProductGrows(0, c, m + 1);
    if a.status.attemptCount > 0 {
      ProductGrows(i + 1, c, m + 1);
      assert (i + 1) * (m + 1) == i * (m + 1) + m + 1;
    }
  }

  predicate FewAttempts(a: Action, m: int) {
    a.status.attemptCount <= CandidateCount(a) * (m + 1)
  }

  ghost predicate AllFewAttempts(s: State) {
    forall n :: n in s.actions ==> FewAttempts(s.actions[n], s.policy.maxRetries)
  }

  lemma AllAttemptsAreBounded(s: State)
    requires Budgeted(s)
    ensures AllFewAttempts(s)
  {
    forall n | n in s.actions ensures FewAttempts(s.actions[n], s.policy.maxRetries) {
      AttemptsAreBounded(s.actions[n], s.policy.maxRetries);
    }
  }

  /** The tight bound holds of every action that has not ended or still has its run on record. */
  ghost predicate TightUnlessEnded(s: State) {
    forall n :: n in s.actions && (!IsTerminal(s.actions[n]) || s.actions[n].status.runId != "")
      ==> Tight(s.actions[n], s.policy.maxRetries)
  }

  lemma BudgetGivesTight(s: State)
    requires Budgeted(s)
    ensures TightUnlessEnded(s)
  {
    forall n | n in s.actions { BudgetIsTightOrOneOver(s.actions[n], s.policy.maxRetries); }
  }

  /** The budget holds along every history; so 32-bit counters never overflow while c*(m+1) is below 2^31. */
  lemma {:induction false} BudgetHolds(s: State, events: seq<Event>)
    requires Budgeted(s) && forall e :: e in events ==> WellNamed(e)
    ensures Budgeted(Exec(s, events)) && AllFewAttempts(Exec(s, events)) && TightUnlessEnded(Exec(s, events))
    decreases |events|
  {
    if events == [] {
      AllAttemptsAreBounded(s);
      BudgetGivesTight(s);
    } else {
      StepKeepsBudget(s, events[0]);
      BudgetHolds(Apply(s, events[0]), events[1..]);
    }
  }

  /** The first launch uses the bound up. */
  lemma LaunchUsesUp(s: State, name: string, first: ActionEnv)
    requires InOrder(s) && StartsAttempt(s, name, first) && s.slot == "" && SmoothCreate(first.create) && first.writeOk
    requires var t := s.actions[name].status; t.attemptCount == t.retryCount == t.candidateIndex == 0
    ensures var t := Apply(s, ActionReconciled(name, first));
      && name in t.actions && t.policy == s.policy
      && var a := t.actions[name];
      && a.spec == s.actions[name].spec && a.status.phase.Running? && a.status.runId != ""
      && Tight(a, s.policy.maxRetries) && UsedUp(a, s.policy.maxRetries)
  {
    Launch(s, name, first);
    RunIdIsClean(name, 1);
  }

  /** A session that is gone by the first reconcile after the first launch is enough to exceed the tight bound. */
  lemma FirstAttemptThenMissing(s: State, name: string, first: ActionEnv, second: ActionEnv)
    requires InOrder(s) && StartsAttempt(s, name, first) && s.slot == "" && SmoothCreate(first.create) && first.writeOk
    requires var t := s.actions[name].status; t.attemptCount == t.retryCount == t.candidateIndex == 0
    requires second.listOk && second.session.SessionMissing? && second.writeOk
    ensures var t := Apply(Apply(s, ActionReconciled(name, first)), ActionReconciled(name, second));
      name in t.actions && !Tight(t.actions[name], t.policy.maxRetries)
  {
    LaunchUsesUp(s, name, first);
    StepKeepsSound(s, ActionReconciled(name, first));
    ReconcileKeepsTightIff(Apply(s, ActionReconciled(name, first)), name, second);
  }
}
