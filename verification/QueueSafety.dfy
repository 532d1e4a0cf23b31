/** The queue of one session over time: order of service, who can be overtaken, backoff, and stop. */
module QueueSafety {
  import opened Wrappers
  import opened Text
  import opened RetryPolicies
  import opened Actions
  import opened System
  import opened ActionMoves
  import opened SlotSafety
  import AgentRuns

  /** Work on the action has begun: it is active, or has made an attempt, or is to be retried. */
  predicate Started(a: Action) {
    && !IsTerminal(a)
    && (IsActive(a) || a.status.attemptCount > 0 || a.status.retryCount > 0 || a.status.failureClass.Transient?)
  }

  /** Whatever was started comes before everything else that has not ended. */
  ghost predicate StartedFirst(actions: map<string, Action>) {
    forall m, n :: m in actions && n in actions && m != n && Started(actions[m]) && !IsTerminal(actions[n])
      ==> Before(actions[m], actions[n])
  }

  ghost predicate InQueue(s: State) {
    Sound(s) && StartedFirst(s.actions)
  }

  /** A new action is queued behind whatever was started. */
  ghost predicate QueuesBehind(s: State, e: Event) {
    e.ActionCreated? && e.name !in s.actions ==>
      forall m :: m in s.actions && Started(s.actions[m])
        ==> Before(s.actions[m], NewAction(e.name, e.sessionId, e.kind, e.candidates, s.now))
  }

  lemma StartedIsOwner(s: State, name: string)
    requires InQueue(s) && name in s.actions && Started(s.actions[name])
    ensures IsOwner(s.actions, name)
  {
    forall other | other in s.actions && other != name && !IsTerminal(s.actions[other])
      ensures Before(s.actions[name], s.actions[other]) && !IsActive(s.actions[other])
    {
      BeforeIsOrder(s.actions[name], s.actions[other], s.actions[name]);
    }
  }

  lemma OwnerIsFirst(s: State, name: string)
    requires InQueue(s) && IsOwner(s.actions, name)
    ensures forall n :: n in s.actions && n != name && !IsTerminal(s.actions[n]) ==>
      Before(s.actions[name], s.actions[n])
  {
    if IsActive(s.actions[name]) { assert Started(s.actions[name]); }
  }

  lemma StartNeedsOwner(a: Action, t: ActionStatus, now: int, policy: RetryPolicy, owner: bool)
    requires Moves(a, t, now, policy, owner) && Started(a.(status := t))
    ensures !IsTerminal(a) && (Started(a) || owner)
  {
  }

  lemma ReconcileKeepsQueue(s: State, name: string, env: ActionEnv)
    requires InQueue(s) && name in s.actions
    ensures StartedFirst(ReconcileAction(s, name, env).actions)
  {
    DeriveMoves(s, name, env);
    var d := DeriveStatus(s, s.actions[name], env);
    if d.status.Some? { UpdateKeepsQueue(s, name, d.status.value); }
  }

  lemma UpdateKeepsQueue(s: State, name: string, t: ActionStatus)
    requires InQueue(s) && name in s.actions
    requires Moves(s.actions[name], t, s.now, s.policy, IsOwner(s.actions, name))
    ensures StartedFirst(s.actions[name := s.actions[name].(status := t)])
  {
    var a := s.actions[name];
    if Started(a.(status := t)) {
      StartNeedsOwner(a, t, s.now, s.policy, IsOwner(s.actions, name));
      if Started(a) { StartedIsOwner(s, name); }
      OwnerIsFirst(s, name);
    }
  }

  /** Creating an action keeps the order of service if and only if it is queued behind what was started. */
  lemma CreationKeepsQueueIff(s: State, e: Event)
    requires InQueue(s) && e.ActionCreated? && WellNamed(e)
    ensures StartedFirst(Apply(s, e).actions) <==> QueuesBehind(s, e)
  {
    if e.name !in s.actions {
      var a := NewAction(e.name, e.sessionId, e.kind, e.candidates, s.now);
      assert !Started(a) by { assert Trim("") == ""; }
      NewcomerKeepsQueueIff(s.actions, e.name, a);
    }
  }

  lemma NewcomerKeepsQueueIff(actions: map<string, Action>, name: string, a: Action)
    requires StartedFirst(actions) && name !in actions && !Started(a) && !IsTerminal(a)
    ensures StartedFirst(actions[name := a]) <==>
      forall m :: m in actions && Started(actions[m]) ==> Before(actions[m], a)
  {
    var t := actions[name := a];
    if StartedFirst(t) {
      forall m | m in actions && Started(actions[m]) ensures Before(actions[m], a) {
        assert t[m] == actions[m] && t[name] == a;
      }
    }
  }

  lemma StepKeepsQueue(s: State, e: Event)
    requires InQueue(s) && WellNamed(e) && QueuesBehind(s, e)
    ensures InQueue(Apply(s, e))
  {
    StepKeepsSound(s, e);
    match e
    case ActionReconciled(name, env) => if name in s.actions { ReconcileKeepsQueue(s, name, env); }
    case ActionCreated(_, _, _, _) => CreationKeepsQueueIff(s, e);
    case ActionStopped(name) => if name in s.actions { StopKeepsQueue(s, name); }
    case _ =>
  }

  lemma StopKeepsQueue(s: State, name: string)
    requires InQueue(s) && name in s.actions
    ensures StartedFirst(s.actions[name := StopAction(s.actions[name])])
  {
    var a := s.actions[name];
    assert Started(StopAction(a)) == Started(a);
    forall m, n | m in s.actions && n in s.actions && m != n && Started(s.actions[m]) && !IsTerminal(s.actions[n])
      ensures m == name ==> Before(StopAction(a), s.actions[n])
      ensures n == name ==> Before(s.actions[m], StopAction(a))
    {
    }
  }

  /**
   * An action created in the same second under a smaller name overtakes one that is waiting for its retry, and
   * may make its attempt first.
   */
  lemma LateArrivalOvertakes(s: State, m: string, e: Event, env: ActionEnv)
    requires InQueue(s) && m in s.actions && Started(s.actions[m]) && !IsActive(s.actions[m])
    requires e.ActionCreated? && WellNamed(e) && e.name !in s.actions && e.kind.RunTurn? && e.candidates.Some?
    requires e.candidates.value > 0
    requires Before(NewAction(e.name, e.sessionId, e.kind, e.candidates, s.now), s.actions[m])
    requires env.listOk && env.session.SessionFound?
    ensures StartsAttempt(Apply(s, e), e.name, env) && !IsTerminal(Apply(s, e).actions[m])
  {
    var t, a := Apply(s, e), NewAction(e.name, e.sessionId, e.kind, e.candidates, s.now);
    TrimProperties(e.name);
    assert Trim("") == "";
    forall n | n in t.actions && n != e.name && !IsTerminal(t.actions[n])
      ensures !IsActive(t.actions[n]) && Before(a, t.actions[n])
    {
      if n != m {
        BeforeIsOrder(s.actions[m], s.actions[n], s.actions[m]);
        BeforeIsOrder(a, s.actions[m], s.actions[n]);
      }
    }
    assert IsOwner(t.actions, e.name);
  }

  lemma InitialInQueue(policy: RetryPolicy, now: int)
    requires Normalized(policy)
    ensures InQueue(Initial(policy, now))
  {
  }

  ghost predicate AllQueueBehind(s: State, events: seq<Event>)
    decreases |events|
  {
    events != [] ==> WellNamed(events[0]) && QueuesBehind(s, events[0]) && AllQueueBehind(Apply(s, events[0]),
                                                                                          events[1..])
  }

  lemma AttemptsComeInOrder(s: State, name: string, env: ActionEnv)
    requires Sound(s) && StartsAttempt(s, name, env)
    ensures FirstInLine(s.actions, name)
  {
    RunIdIsTrimmed(s.actions[name], s.policy.maxRetries);
    assert !IsActive(s.actions[name]);
    forall n | n in s.actions && n != name && !IsTerminal(s.actions[n])
      ensures !Before(s.actions[n], s.actions[name])
    {
      BeforeIsOrder(s.actions[name], s.actions[n], s.actions[name]);
    }
  }

  /** Everything that sorts ahead has ended. */
  ghost predicate FirstInLine(actions: map<string, Action>, name: string) {
    name in actions && !BehindAnother(actions, name)
  }

  ghost predicate BehindAnother(actions: map<string, Action>, name: string)
    requires name in actions
  {
    exists n :: n in actions && n != name && !IsTerminal(actions[n]) && Before(actions[n], actions[name])
  }

  /** Whoever would make an attempt now is first in line. */
  ghost predicate ServesInOrder(s: State) {
    forall name, env :: StartsAttempt(s, name, env) ==> FirstInLine(s.actions, name)
  }

  /**
   * First come, first served: in every history no action makes an attempt before every action ahead of it has
   * ended.
   */
  lemma FirstComeFirstServed(s: State, events: seq<Event>)
    requires Sound(s) && forall e :: e in events ==> WellNamed(e)
    ensures ServesInOrder(Exec(s, events))
  {
    AtMostOneActive(s, events);
    var t := Exec(s, events);
    forall name, env | StartsAttempt(t, name, env) ensures FirstInLine(t.actions, name) {
      AttemptsComeInOrder(t, name, env);
    }
  }

  /** Whoever would make an attempt now was created ahead of everything else that has not ended. */
  ghost predicate ServesByCreation(s: State) {
    forall name, env, n :: StartsAttempt(s, name, env) && n in s.actions && n != name && !IsTerminal(s.actions[n])
      ==> CreatedAhead(s.actions[name], s.actions[n])
  }

  /** The stored creation time of a is earlier than that of b, or the same and the name of a is smaller. */
  ghost predicate CreatedAhead(a: Action, b: Action) {
    && a.status.createdAt.Some? && b.status.createdAt.Some?
    && var s, t := a.status.createdAt.value, b.status.createdAt.value;
    s < t || (s == t && exists i: nat :: SmallerAt(a.name, b.name, i))
  }

  /** In stored times and names: along every history attempts are made in the order of creation. */
  lemma AttemptsFollowCreation(s: State, events: seq<Event>)
    requires Sound(s) && forall e :: e in events ==> WellNamed(e)
    ensures ServesByCreation(Exec(s, events))
  {
    AtMostOneActive(s, events);
    var t := Exec(s, events);
    forall name, env, n | StartsAttempt(t, name, env) && n in t.actions && n != name && !IsTerminal(t.actions[n])
      ensures CreatedAhead(t.actions[name], t.actions[n])
    {
      AttemptsComeInOrder(t, name, env);
      BeforeIsOrder(t.actions[name], t.actions[n], t.actions[name]);
      BeforeIsCreatedEarlier(t.actions[name], t.actions[n]);
    }
  }

  // ---- Being overtaken ----

  /** Whatever was started is the one to be worked on. */
  ghost predicate NoneOvertaken(actions: map<string, Action>) {
    forall m :: m in actions && Started(actions[m]) ==> IsOwner(actions, m)
  }

  /** Creating the missing run of the present attempt goes through. */
  predicate Recreates(s: State, a: Action, env: ActionEnv) {
    var c := env.create;
    c.Claims() && AgentRuns.ClaimSucceeds(s.slot, a.status.runId) && c.specOk && c.createOk
  }

  /** A call that the turn needs for its run on record fails. */
  predicate CallsFail(s: State, a: Action, env: ActionEnv) {
    || env.session.SessionError?
    || (env.session.SessionFound? && (!env.getOk || (a.status.runId !in s.runs && !Recreates(s, a, env))))
  }

  /** The run on record has failed, and its result says that it may be tried again. */
  predicate FailedRetryably(s: State, a: Action, env: ActionEnv) {
    && env.session.SessionFound? && env.getOk && a.status.runId in s.runs
    && s.runs[a.status.runId].status.phase.Failed?
    && s.runs[a.status.runId].status.result.Some? && s.runs[a.status.runId].status.result.value.retryable
  }

  /** What puts an active action off: a failure that leaves it a retry, or a failed run that leaves it a candidate. */
  predicate PutOff(s: State, a: Action, env: ActionEnv) {
    && env.listOk && env.writeOk && !a.spec.stopRequested
    && var retriesLeft := a.status.retryCount < s.policy.maxRetries;
    match a.spec.kind
    case RunTurn =>
      || (CallsFail(s, a, env) && retriesLeft)
      || (FailedRetryably(s, a, env) && (retriesLeft || NextCandidateIndex(a).Some?))
    case OtherType => false
    case _ => env.other.OtherRetries? && retriesLeft
  }

  /** The action sorts ahead of one that was started and waits. */
  ghost predicate AheadOfWaiting(actions: map<string, Action>, a: Action) {
    exists m :: m in actions && Started(actions[m]) && !IsActive(actions[m]) && Before(a, actions[m])
  }

  /**
   * The two ways to be overtaken: a new action sorts ahead of one that was started and waits, or the active
   * action has to wait while another that has not ended sorts ahead of it.
   */
  ghost predicate Overtakes(s: State, e: Event) {
    match e
    case ActionCreated(name, sessionId, kind, candidates) =>
      name !in s.actions && AheadOfWaiting(s.actions, NewAction(name, sessionId, kind, candidates, s.now))
    case ActionReconciled(name, env) =>
      && name in s.actions && IsActive(s.actions[name]) && PutOff(s, s.actions[name], env)
      && BehindAnother(s.actions, name)
    case _ => false
  }

  lemma OwnersAgree(actions: map<string, Action>, m: string, n: string)
    requires IsOwner(actions, m) && IsOwner(actions, n) && actions[m].name == m && actions[n].name == n
    ensures m == n
  {
    BeforeIsOrder(actions[m], actions[n], actions[m]);
  }

  /** A started action that is its queue's owner leaves the others at rest. */
  lemma OthersRestBehind(s: State, m: string, other: string)
    requires Sound(s) && NoneOvertaken(s.actions) && m in s.actions && Started(s.actions[m]) && other != m
    ensures AtRest(s, other)
  {
    forall env ensures !StartsAttempt(s, other, env) {
      if StartsAttempt(s, other, env) { OwnersAgree(s.actions, m, other); }
    }
  }

  /** While an action is started, no other makes an attempt. */
  ghost predicate StartedAlone(s: State) {
    forall m, other :: m in s.actions && Started(s.actions[m]) && other != m ==> AtRest(s, other)
  }

  lemma RestBehindStarted(s: State)
    requires Sound(s) && NoneOvertaken(s.actions)
    ensures StartedAlone(s)
  {
    forall m, other | m in s.actions && Started(s.actions[m]) && other != m ensures AtRest(s, other) {
      OthersRestBehind(s, m, other);
    }
  }

  lemma CreationOvertakesIff(s: State, e: Event)
    requires Sound(s) && NoneOvertaken(s.actions) && e.ActionCreated? && WellNamed(e)
    ensures NoneOvertaken(Apply(s, e).actions) <==> !Overtakes(s, e)
  {
    if e.name !in s.actions {
      var a := NewAction(e.name, e.sessionId, e.kind, e.candidates, s.now);
      assert !Started(a) && !IsActive(a) by { assert Trim("") == ""; }
      NewcomerOvertakesIff(s.actions, e.name, a);
    }
  }

  lemma NewcomerOvertakesIff(actions: map<string, Action>, name: string, a: Action)
    requires NoneOvertaken(actions) && Keyed(actions) && name !in actions && a.name == name
    requires !Started(a) && !IsTerminal(a) && !IsActive(a)
    ensures NoneOvertaken(actions[name := a]) <==> !AheadOfWaiting(actions, a)
  {
    var t := actions[name := a];
    forall m | m in actions && Started(actions[m])
      ensures m in t && t[m] == actions[m]
      ensures IsOwner(t, m) <==> IsActive(actions[m]) || !Before(a, actions[m])
    {
      BeforeIsOrder(a, actions[m], a);
      OwnerWithNewcomer(actions, m, name, a);
    }
    forall m | m in t && Started(t[m]) ensures m in actions && t[m] == actions[m] {}
  }

  lemma OwnerWithNewcomer(actions: map<string, Action>, m: string, name: string, a: Action)
    requires IsOwner(actions, m) && name !in actions && !IsTerminal(a) && !IsActive(a)
    ensures IsOwner(actions[name := a], m) <==> IsActive(actions[m]) || Before(actions[m], a)
  {
    var b := actions[name := a];
    assert b[name] == a && b[m] == actions[m];
  }

  /** The owner after one action has changed: when it was not active before, only its own end or waiting can matter. */
  lemma OwnerAfterUpdate(actions: map<string, Action>, name: string, b: Action, m: string)
    requires name in actions && m in actions && m != name && IsOwner(actions, m)
    requires b.name == actions[name].name && SortTime(b) == SortTime(actions[name])
    requires !IsTerminal(b) ==> !IsTerminal(actions[name]) && (IsActive(b) ==> IsActive(actions[name]))
    ensures IsOwner(actions[name := b], m)
  {
  }

  lemma OwnItself(actions: map<string, Action>, name: string, b: Action)
    requires IsOwner(actions, name) && !IsTerminal(b)
    requires b.name == actions[name].name && SortTime(b) == SortTime(actions[name])
    requires forall n :: n in actions && n != name ==> !IsActive(actions[n])
    requires IsActive(b) || !IsActive(actions[name])
    ensures IsOwner(actions[name := b], name)
  {
  }

  /** An active action that is left waiting stays the owner unless another sorts ahead of it. */
  lemma OwnWhenWaiting(actions: map<string, Action>, name: string, b: Action)
    requires Keyed(actions) && name in actions && b.name == name && SortTime(b) == SortTime(actions[name])
    requires !IsTerminal(b) && !IsActive(b) && forall n :: n in actions && n != name ==> !IsActive(actions[n])
    ensures IsOwner(actions[name := b], name) <==> !BehindAnother(actions, name)
  {
    var c := actions[name := b];
    forall n | n in actions && n != name
      ensures c[n] == actions[n] && Before(b, c[n]) == !Before(actions[n], actions[name])
    {
      BeforeIsOrder(actions[name], actions[n], actions[name]);
    }
  }

  /** Names stand for their actions. */
  ghost predicate Keyed(actions: map<string, Action>) {
    forall n :: n in actions ==> actions[n].name == n
  }

  lemma SoleOwner(s: State, name: string, m: string)
    requires Sound(s) && NoneOvertaken(s.actions) && IsOwner(s.actions, name) && m in s.actions && Started(s.actions[m])
    ensures m == name
  {
    OwnersAgree(s.actions, m, name);
  }

  lemma WaitingKeepsOwners(s: State, name: string, b: Action)
    requires Sound(s) && NoneOvertaken(s.actions) && name in s.actions && !IsActive(s.actions[name])
    requires b == s.actions[name].(status := b.status)
    requires Moves(s.actions[name], b.status, s.now, s.policy, IsOwner(s.actions, name)) && b != s.actions[name]
    ensures NoneOvertaken(s.actions[name := b])
  {
    var a, u := s.actions[name], s.actions[name := b];
    forall m | m in u && Started(u[m]) ensures IsOwner(u, m) {
      if m == name {
        StartNeedsOwner(a, b.status, s.now, s.policy, IsOwner(s.actions, name));
        OwnItself(s.actions, name, b);
      } else {
        if IsActive(b) { SoleOwner(s, name, m); }
        OwnerAfterUpdate(s.actions, name, b, m);
      }
    }
  }

  lemma UpdateOvertakesIff(s: State, name: string, t: ActionStatus)
    requires Sound(s) && NoneOvertaken(s.actions) && name in s.actions
    requires Moves(s.actions[name], t, s.now, s.policy, IsOwner(s.actions, name)) && t != s.actions[name].status
    ensures var a, b := s.actions[name], s.actions[name].(status := t);
      NoneOvertaken(s.actions[name := b]) <==>
        !(IsActive(a) && Started(b) && !IsActive(b) && BehindAnother(s.actions, name))
  {
    var a, b := s.actions[name], s.actions[name].(status := t);
    var u := s.actions[name := b];
    if IsActive(a) {
      OwnerWhenActive(s, name);
      forall m | m in u && m != name ensures !Started(u[m]) {
        if Started(s.actions[m]) { SoleOwner(s, name, m); }
      }
      if IsTerminal(b) {
      } else if IsActive(b) {
        OwnItself(s.actions, name, b);
      } else {
        OwnWhenWaiting(s.actions, name, b);
      }
    } else {
      WaitingKeepsOwners(s, name, b);
    }
  }

  lemma ReconciledAnew(s: State, name: string, env: ActionEnv)
    requires Sound(s) && NoneOvertaken(s.actions) && name in s.actions
    ensures var a, b := s.actions[name], ReconcileAction(s, name, env).actions[name];
      NoneOvertaken(s.actions[name := b]) <==>
        !(IsActive(a) && Started(b) && !IsActive(b) && BehindAnother(s.actions, name))
  {
    var a, b := s.actions[name], ReconcileAction(s, name, env).actions[name];
    ReconcileSteps(s, name, env);
    if b == a {
      assert s.actions[name := b] == s.actions;
    } else {
      UpdateOvertakesIff(s, name, b.status);
    }
  }

  lemma ReconcileUpdates(s: State, name: string, env: ActionEnv)
    requires name in s.actions
    ensures var t := ReconcileAction(s, name, env).actions; name in t && t == s.actions[name := t[name]]
  {
  }

  lemma WaitsAfterRetry(a: Action, now: int, exhausted: FailureClass, policy: RetryPolicy)
    requires Trim("") == ""
    ensures var b := a.(status := ScheduleRetryStatus(a, now, exhausted, policy));
      Started(b) && !IsActive(b) <==> a.status.retryCount < policy.maxRetries
  {
  }

  lemma WaitsAfterFailedRun(a: Action, now: int, retryable: bool, policy: RetryPolicy)
    requires Trim("") == ""
    ensures var b := a.(status := FailedRunTurnStatus(a, now, retryable, policy));
      Started(b) && !IsActive(b) <==>
        retryable && (a.status.retryCount < policy.maxRetries || NextCandidateIndex(a).Some?)
  {
    WaitsAfterRetry(a, now, Transient, policy);
  }

  lemma RecreatesIff(s: State, a: Action, env: ActionEnv)
    requires Named(a, a.name) && Counted(a, s.policy.maxRetries) && a.status.runId != "" && a.status.runId !in s.runs
    ensures CreateOrGetRun(s, a, env).1.None? <==> Recreates(s, a, env)
  {
    RunIdIsTrimmed(a, s.policy.maxRetries);
  }

  lemma TurnWaitsIff(s: State, a: Action, env: ActionEnv)
    requires Named(a, a.name) && Counted(a, s.policy.maxRetries) && a.spec.kind.RunTurn? && a.status.runId != ""
    requires !IsTerminal(a)
    ensures var d := DeriveRunTurn(s, a, env);
      && d.status.Some?
      && var b := a.(status := d.status.value);
      Started(b) && !IsActive(b) <==>
        || (CallsFail(s, a, env) && a.status.retryCount < s.policy.maxRetries)
        || (FailedRetryably(s, a, env) && (a.status.retryCount < s.policy.maxRetries || NextCandidateIndex(a).Some?))
  {
    RunIdIsTrimmed(a, s.policy.maxRetries);
    WaitsAfterRetry(a, s.now, ManualRetry, s.policy);
    if a.status.runId !in s.runs {
      RecreatesIff(s, a, env);
    } else {
      var run := s.runs[a.status.runId].status;
      WaitsAfterFailedRun(a, s.now, run.result.Some? && run.result.value.retryable, s.policy);
    }
  }

  lemma OtherWaitsIff(s: State, a: Action, env: ActionEnv)
    requires Named(a, a.name) && !a.spec.kind.RunTurn?
    ensures var b := a.(status := DeriveOther(s, a, env));
      Started(b) && !IsActive(b) <==> env.other.OtherRetries? && a.status.retryCount < s.policy.maxRetries
  {
    TrimProperties("");
    WaitsAfterRetry(a, s.now, Permanent, s.policy);
  }

  /** What a reconcile of an active action derives when nothing stops it. */
  lemma ActiveIsDerived(s: State, name: string, env: ActionEnv)
    requires Sound(s) && name in s.actions && IsActive(s.actions[name])
    requires !s.actions[name].spec.stopRequested && env.listOk
    ensures var a := s.actions[name];
      DeriveStatus(s, a, env) ==
        match a.spec.kind
        case RunTurn => DeriveRunTurn(s, a, env)
        case OtherType => OnlyStatus(s, FailedStatus(a, s.now))
        case _ => OnlyStatus(s, DeriveOther(s, a, env))
  {
    TrimProperties(name);
    RunIdIsTrimmed(s.actions[name], s.policy.maxRetries);
    OwnerWhenActive(s, name);
  }

  lemma StopIsDerived(s: State, name: string, env: ActionEnv)
    requires Sound(s) && name in s.actions && s.actions[name].spec.stopRequested && !IsTerminal(s.actions[name])
    ensures DeriveStatus(s, s.actions[name], env) == DeriveStopped(s, s.actions[name], env)
  {
    TrimProperties(name);
  }

  lemma StopKeepsId(s: State, a: Action, env: ActionEnv)
    requires Trim(a.status.runId) == a.status.runId
    ensures var d := DeriveStopped(s, a, env);
      && d.status.Some? && d.status.value.runId == a.status.runId
      && (IsTerminalPhase(d.status.value.phase) || (d.status.value.phase.Running? && a.status.runId != ""))
  {
  }

  /** A stop leaves an active action active, or ends it. */
  lemma StopNeverWaits(s: State, name: string, env: ActionEnv)
    requires Sound(s) && name in s.actions && IsActive(s.actions[name]) && s.actions[name].spec.stopRequested
    ensures var b := ReconcileAction(s, name, env).actions[name]; !(Started(b) && !IsActive(b))
  {
    RunIdIsTrimmed(s.actions[name], s.policy.maxRetries);
    StopIsDerived(s, name, env);
    StopKeepsId(s, s.actions[name], env);
  }

  /** A reconcile leaves an active action waiting with work behind it if and only if that is put off. */
  lemma WaitsIff(s: State, name: string, env: ActionEnv)
    requires Sound(s) && name in s.actions && IsActive(s.actions[name])
    ensures var b := ReconcileAction(s, name, env).actions[name];
      Started(b) && !IsActive(b) <==> PutOff(s, s.actions[name], env)
  {
    var a := s.actions[name];
    if a.spec.stopRequested {
      StopNeverWaits(s, name, env);
    } else if env.listOk && env.writeOk {
      ActiveIsDerived(s, name, env);
      match a.spec.kind
      case RunTurn => RunIdIsTrimmed(a, s.policy.maxRetries); TurnWaitsIff(s, a, env);
      case OtherType =>
      case _ => OtherWaitsIff(s, a, env);
    }
  }

  lemma ReconcileOvertakesIff(s: State, name: string, env: ActionEnv)
    requires Sound(s) && NoneOvertaken(s.actions) && name in s.actions
    ensures NoneOvertaken(ReconcileAction(s, name, env).actions) <==> !Overtakes(s, ActionReconciled(name, env))
  {
    ReconcileUpdates(s, name, env);
    ReconciledAnew(s, name, env);
    if IsActive(s.actions[name]) { WaitsIff(s, name, env); }
  }

  /** From a state where nobody is overtaken, a step keeps it so if and only if it is not one of the two above. */
  lemma StepOvertakesIff(s: State, e: Event)
    requires Sound(s) && NoneOvertaken(s.actions) && WellNamed(e)
    ensures NoneOvertaken(Apply(s, e).actions) <==> !Overtakes(s, e)
  {
    match e
    case ActionCreated(_, _, _, _) => CreationOvertakesIff(s, e);
    case ActionReconciled(name, env) => if name in s.actions { ReconcileOvertakesIff(s, name, env); }
    case ActionStopped(name) => if name in s.actions { StopKeepsOwners(s, name); }
    case _ =>
  }

  lemma StopKeepsOwners(s: State, name: string)
    requires NoneOvertaken(s.actions) && name in s.actions
    ensures NoneOvertaken(s.actions[name := StopAction(s.actions[name])])
  {
    var t := s.actions[name := StopAction(s.actions[name])];
    forall m | m in t && Started(t[m]) ensures IsOwner(t, m) {
      assert Started(s.actions[m]) && IsOwner(s.actions, m);
    }
  }

  /** Along the whole history nobody is overtaken. */
  ghost predicate NeverOvertaken(s: State, events: seq<Event>)
    decreases |events|
  {
    NoneOvertaken(s.actions) && (events != [] ==> NeverOvertaken(Apply(s, events[0]), events[1..]))
  }

  ghost predicate NoOvertaking(s: State, events: seq<Event>)
    decreases |events|
  {
    events != [] ==> !Overtakes(s, events[0]) && NoOvertaking(Apply(s, events[0]), events[1..])
  }

  /**
   * Along every history, nobody is overtaken if and only if no event is one of the two above; then a started
   * action keeps every other action of the session from making an attempt.
   */
  lemma {:induction false} OvertakenIff(s: State, events: seq<Event>)
    requires Sound(s) && NoneOvertaken(s.actions) && forall e :: e in events ==> WellNamed(e)
    ensures NeverOvertaken(s, events) <==> NoOvertaking(s, events)
    ensures NeverOvertaken(s, events) ==> StartedAlone(Exec(s, events))
    decreases |events|
  {
    if events == [] {
      RestBehindStarted(s);
    } else {
      StepOvertakesIff(s, events[0]);
      StepKeepsSound(s, events[0]);
      if !Overtakes(s, events[0]) { OvertakenIff(Apply(s, events[0]), events[1..]); }
    }
  }

  lemma QueueIsNotOvertaken(s: State)
    requires InQueue(s)
    ensures NoneOvertaken(s.actions)
  {
    forall m | m in s.actions && Started(s.actions[m]) ensures IsOwner(s.actions, m) { StartedIsOwner(s, m); }
  }

  /** Queueing every new action behind whatever was started is enough for that. */
  lemma {:induction false} QueueingBehindIsEnough(s: State, events: seq<Event>)
    requires InQueue(s) && AllQueueBehind(s, events)
    ensures InQueue(Exec(s, events)) && NeverOvertaken(s, events)
    decreases |events|
  {
    QueueIsNotOvertaken(s);
    if events == [] {
    } else {
      StepKeepsQueue(s, events[0]);
      QueueingBehindIsEnough(Apply(s, events[0]), events[1..]);
    }
  }

  // ---- The key of an action never changes ----

  lemma StepKeepsKey(s: State, name: string, e: Event)
    requires Sound(s) && name in s.actions
    ensures var t := Apply(s, e);
      && name in t.actions && SortTime(t.actions[name]) == SortTime(s.actions[name])
      && t.actions[name].name == s.actions[name].name
      && (IsTerminal(s.actions[name]) ==> t.actions[name] == s.actions[name])
  {
    var owner := ActionSteps(s, name, e);
  }

  /** An action keeps its place in the queue for life, and once it has ended it never changes again. */
  lemma {:induction false} KeyIsForLife(s: State, name: string, events: seq<Event>)
    requires Sound(s) && name in s.actions && forall e :: e in events ==> WellNamed(e)
    ensures var t := Exec(s, events);
      && name in t.actions && SortTime(t.actions[name]) == SortTime(s.actions[name])
      && t.actions[name].name == s.actions[name].name
      && (IsTerminal(s.actions[name]) ==> t.actions[name] == s.actions[name])
    decreases |events|
  {
    if events == [] {
    } else {
      StepKeepsSound(s, events[0]);
      StepKeepsKey(s, name, events[0]);
      KeyIsForLife(Apply(s, events[0]), name, events[1..]);
    }
  }

  lemma {:induction false} CreationTimeStays(s: State, name: string, events: seq<Event>)
    requires Sound(s) && name in s.actions && forall e :: e in events ==> WellNamed(e)
    ensures name in Exec(s, events).actions
    ensures Exec(s, events).actions[name].status.createdAt == s.actions[name].status.createdAt
    decreases |events|
  {
    if events == [] {
    } else {
      StepKeepsSound(s, events[0]);
      var owner := ActionSteps(s, name, events[0]);
      CreationTimeStays(Apply(s, events[0]), name, events[1..]);
    }
  }

  /** The stored creation time of an action is, in every history, the time at which it was created. */
  lemma CreatedWhenStored(s: State, e: Event, events: seq<Event>)
    requires Sound(s) && e.ActionCreated? && e.name !in s.actions && WellNamed(e)
    requires forall f :: f in events ==> WellNamed(f)
    ensures var t := Exec(Apply(s, e), events);
      e.name in t.actions && t.actions[e.name].status.createdAt == Some(s.now)
  {
    StepKeepsSound(s, e);
    CreationTimeStays(Apply(s, e), e.name, events);
  }

  // ---- Backoff ----

  /** Put off until time until. */
  predicate Waiting(a: Action, until: int) {
    && a.status.phase.Pending? && a.status.failureClass.Transient? && a.status.runId == ""
    && a.status.nextRetryAt == Some(until) && !a.spec.stopRequested
  }

  /**
   * What ends the wait early: a stop, or a reconcile that finds the action is not the owner. That one blocks the
   * action and drops its retry time.
   */
  ghost predicate Disturbs(s: State, name: string, e: Event) {
    || e == ActionStopped(name)
    || (e.ActionReconciled? && e.name == name && e.env.listOk && e.env.writeOk && !IsOwner(s.actions, name))
  }

  lemma WaitingReconcile(s: State, a: Action, until: int, env: ActionEnv)
    requires Named(a, a.name) && Waiting(a, until) && s.now < until && Trim("") == ""
    ensures var d := DeriveStatus(s, a, env);
      d.status == if !env.listOk then None
                  else if IsOwner(s.actions, a.name) then Some(a.status) else Some(PendingBlockedStatus(a, s.now))
  {
    TrimProperties(a.name);
    assert !IsInvalid(a);
  }

  /** A waiting action is left exactly as it is by every event but those two. */
  lemma StepKeepsWaitingIff(s: State, name: string, until: int, e: Event)
    requires name in s.actions && Named(s.actions[name], name) && Waiting(s.actions[name], until) && s.now < until
    ensures name in Apply(s, e).actions
    ensures Apply(s, e).actions[name] == s.actions[name] <==> !Disturbs(s, name, e)
    ensures Disturbs(s, name, e) && e.ActionReconciled? ==>
      Apply(s, e).actions[name].status == PendingBlockedStatus(s.actions[name], s.now)
  {
    TrimProperties("");
    if e.ActionReconciled? && e.name == name { WaitingReconcile(s, s.actions[name], until, e.env); }
  }

  /** A late arrival that sorts ahead, and one reconcile: the retry time is gone, and with it the wait. */
  lemma LateArrivalErasesRetryTime(s: State, m: string, until: int, e: Event, env: ActionEnv)
    requires Sound(s) && m in s.actions && Waiting(s.actions[m], until) && s.now < until
    requires e.ActionCreated? && WellNamed(e) && e.name !in s.actions && env.listOk && env.writeOk
    requires Before(NewAction(e.name, e.sessionId, e.kind, e.candidates, s.now), s.actions[m])
    ensures var t := Apply(Apply(s, e), ActionReconciled(m, env));
      && m in t.actions && t.actions[m].status.nextRetryAt.None? && !IsTerminal(t.actions[m])
      && !RetryIsAhead(t.actions[m], t.now)
  {
    var u, a := Apply(s, e), NewAction(e.name, e.sessionId, e.kind, e.candidates, s.now);
    TrimProperties("");
    BeforeIsOrder(a, s.actions[m], a);
    assert u.actions[e.name] == a && u.actions[m] == s.actions[m];
    assert !IsOwner(u.actions, m);
    StepKeepsWaitingIff(u, m, until, ActionReconciled(m, env));
  }

  /** No reconcile of this action would start an attempt now, whatever the environment answers. */
  ghost predicate AtRest(s: State, name: string) {
    forall env :: !StartsAttempt(s, name, env)
  }

  lemma WaitingRests(s: State, name: string, until: int)
    requires name in s.actions && Waiting(s.actions[name], until) && s.now < until
    ensures AtRest(s, name)
  {
  }

  lemma StoppedRests(s: State, name: string)
    requires name in s.actions && s.actions[name].spec.stopRequested
    ensures AtRest(s, name)
  {
  }

  /** Along the whole history the action is what it was. */
  ghost predicate WaitsThroughout(s: State, name: string, a: Action, events: seq<Event>)
    decreases |events|
  {
    && name in s.actions && s.actions[name] == a
    && (events != [] ==> WaitsThroughout(Apply(s, events[0]), name, a, events[1..]))
  }

  ghost predicate Undisturbed(s: State, name: string, events: seq<Event>)
    decreases |events|
  {
    events != [] ==> !Disturbs(s, name, events[0]) && Undisturbed(Apply(s, events[0]), name, events[1..])
  }

  /**
   * Before its retry time, an action is left exactly as it is along a history if and only if nothing disturbs it
   * there; and then it makes no attempt.
   */
  lemma {:induction false} BackoffIsHonoured(s: State, name: string, until: int, events: seq<Event>)
    requires Sound(s) && (forall e :: e in events ==> WellNamed(e))
    requires name in s.actions && Waiting(s.actions[name], until) && Exec(s, events).now < until
    ensures WaitsThroughout(s, name, s.actions[name], events) <==> Undisturbed(s, name, events)
    ensures Undisturbed(s, name, events) ==> AtRest(Exec(s, events), name)
    decreases |events|
  {
    TimeOnlyPasses(s, events);
    if events == [] {
      WaitingRests(s, name, until);
    } else {
      var t := Apply(s, events[0]);
      TimeOnlyPasses(s, [events[0]]);
      TimeOnlyPasses(t, events[1..]);
      StepKeepsWaitingIff(s, name, until, events[0]);
      StepKeepsSound(s, events[0]);
      if !Disturbs(s, name, events[0]) { BackoffIsHonoured(t, name, until, events[1..]); }
    }
  }

  /** When new actions queue behind what was started, only a stop disturbs the wait. */
  lemma {:induction false} QueueingBehindIsUndisturbed(s: State, name: string, until: int, events: seq<Event>)
    requires InQueue(s) && AllQueueBehind(s, events) && name in s.actions && Waiting(s.actions[name], until)
    requires Exec(s, events).now < until && ActionStopped(name) !in events
    ensures Undisturbed(s, name, events)
    decreases |events|
  {
    if events == [] {
    } else {
      var t := Apply(s, events[0]);
      TimeOnlyPasses(s, [events[0]]);
      TimeOnlyPasses(t, events[1..]);
      StartedIsOwner(s, name);
      StepKeepsWaitingIff(s, name, until, events[0]);
      StepKeepsQueue(s, events[0]);
      QueueingBehindIsUndisturbed(t, name, until, events[1..]);
    }
  }

  lemma {:induction false} TimeOnlyPasses(s: State, events: seq<Event>)
    ensures Exec(s, events).now >= s.now
    decreases |events|
  {
    if events == [] {
    } else {
      TimeOnlyPasses(Apply(s, events[0]), events[1..]);
    }
  }

  // ---- Stop ----

  /** What holds of an action from the moment its stop is requested. */
  predicate Stopped(before: Action, a: Action) {
    && a.spec.stopRequested && SameCounters(before.status, a.status)
    && (IsTerminal(a) ==> a.status.phase.Canceled? || a.status.phase.Succeeded?)
  }

  lemma StepKeepsStopped(s: State, name: string, e: Event, before: Action)
    requires Sound(s) && name in s.actions && Stopped(before, s.actions[name])
    ensures name in Apply(s, e).actions && Stopped(before, Apply(s, e).actions[name])
  {
    var owner := ActionSteps(s, name, e);
  }

  /** After a stop request no attempt is made, no counter moves, and the action can only be canceled or succeed. */
  lemma {:induction false} StopIsSafe(s: State, name: string, events: seq<Event>, before: Action)
    requires Sound(s) && name in s.actions && Stopped(before, s.actions[name]) && forall e :: e in events ==>
      WellNamed(e)
    ensures name in Exec(s, events).actions && Stopped(before, Exec(s, events).actions[name])
    ensures AtRest(Exec(s, events), name)
    decreases |events|
  {
    if events == [] {
      StoppedRests(s, name);
    } else {
      StepKeepsSound(s, events[0]);
      StepKeepsStopped(s, name, events[0], before);
      StopIsSafe(Apply(s, events[0]), name, events[1..], before);
    }
  }
}
