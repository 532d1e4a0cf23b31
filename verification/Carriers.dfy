/**
 * The volume claims that carry a session's workspace and home state: created for the present spec, kept for
 * whoever still needs them, and swept otherwise. How claims are named is a parameter; names may collide.
 */
module Carriers {
  import opened Wrappers
  import opened Text

  datatype Kind = Workspace | HomeState

  /** A claim in the runtime namespace: the session it is labeled with, if this service manages it, and its health. */
  datatype Claim = Claim(session: string, managed: bool, lost: bool)

  datatype Refs = Refs(workspaceId: string, homeStateId: string)

  /** A run_turn action or a run that may still need claims; refs: None for a missing snapshot. */
  datatype ActionRef = ActionRef(sessionId: Option<string>, terminal: bool, runTurn: bool, refs: Option<Refs>)
  datatype RunRef = RunRef(sessionId: Option<string>, terminal: bool, refs: Refs)

  type Naming = (string, Kind, string) -> string

  /** carrierPVCName */
  function ClaimName(naming: Naming, session: string, kind: Kind, id: string): string {
    if Trim(session) == "" || Trim(id) == "" then "" else naming(Trim(session), kind, Trim(id))
  }

  /** Names are built from trimmed ids; a blank session or id gives none. */
  lemma ClaimNameIs(naming: Naming, session: string, kind: Kind, id: string)
    ensures Trim(session) != "" && Trim(id) != "" ==>
      ClaimName(naming, session, kind, id) == naming(Trim(session), kind, Trim(id))
    ensures Trim(session) == "" || Trim(id) == "" ==> ClaimName(naming, session, kind, id) == ""
    ensures ClaimName(naming, session, kind, id) == ClaimName(naming, Trim(session), kind, Trim(id))
  {
    TrimProperties(session);
    TrimProperties(id);
  }

  /** The claims that refs names, as far as it names any. */
  ghost predicate Names(naming: Naming, session: string, refs: Refs, name: string) {
    var s, w, h := Trim(session), Trim(refs.workspaceId), Trim(refs.homeStateId);
    || (w != "" && name == if s == "" then "" else naming(s, Workspace, w))
    || (h != "" && name == if s == "" then "" else naming(s, HomeState, h))
  }

  ghost predicate IsComplete(refs: Refs) {
    Trim(refs.workspaceId) != "" && Trim(refs.homeStateId) != ""
  }

  /** A run_turn action of this session that has not ended. */
  ghost predicate LiveAction(session: string, a: ActionRef) {
    a.sessionId.Some? && Trim(a.sessionId.value) == Trim(session) && !a.terminal && a.runTurn
  }

  ghost predicate LiveRun(session: string, r: RunRef) {
    r.sessionId.Some? && Trim(r.sessionId.value) == Trim(session) && !r.terminal
  }

  /** Made before claims were recorded: what it needs cannot be told. */
  ghost predicate LegacyAction(session: string, a: ActionRef) {
    LiveAction(session, a) && (a.refs.None? || !IsComplete(a.refs.value))
  }

  ghost predicate LegacyRun(session: string, r: RunRef) {
    LiveRun(session, r) && !IsComplete(r.refs)
  }

  ghost predicate ActionNeeds(naming: Naming, session: string, actions: seq<ActionRef>, name: string) {
    exists a :: a in actions && LiveAction(session, a) && a.refs.Some? && Names(naming, session, a.refs.value, name)
  }

  ghost predicate RunNeeds(naming: Naming, session: string, runs: seq<RunRef>, name: string) {
    exists r :: r in runs && LiveRun(session, r) && Names(naming, session, r.refs, name)
  }

  /** Somebody needs the claim: the present spec, an action that has not ended, or a run that has not ended. */
  ghost predicate Referenced(naming: Naming, session: string, spec: Refs, actions: seq<ActionRef>,
                             runs: seq<RunRef>, name: string) {
    Names(naming, session, spec, name) || ActionNeeds(naming, session, actions, name) || RunNeeds(naming,
                                                                                                  session, runs, name)
  }

  ghost predicate HasLegacy(session: string, actions: seq<ActionRef>, runs: seq<RunRef>) {
    (exists a :: a in actions && LegacyAction(session, a)) || (exists r :: r in runs && LegacyRun(session, r))
  }

  /** A claim that a sweep of this session looks at. */
  ghost predicate Labeled(session: string, c: Claim) {
    c.managed && c.session == Trim(session)
  }

  /** What is there to be read, and which calls succeed. */
  datatype Env = Env(
    actions: seq<ActionRef>, actionsOk: bool, runs: seq<RunRef>, runsOk: bool, claimsOk: bool,
    getOk: string -> bool, createOk: string -> bool, deleteOk: string -> bool)

  function Both(naming: Naming, session: string, refs: Refs): set<string> {
    {ClaimName(naming, session, Workspace, refs.workspaceId), ClaimName(naming, session, HomeState, refs.homeStateId)}
  }

  class CarrierManager {
    const naming: Naming
    var claims: map<string, Claim>

    constructor (naming: Naming, claims: map<string, Claim>)
      ensures this.naming == naming && this.claims == claims
    {
      this.naming, this.claims := naming, claims;
    }

    method AddLiveActions(session: string, actions: seq<ActionRef>,
                          spec: set<string>) returns (keep: set<string>, legacy: bool)
      ensures legacy <==> exists a :: a in actions && LegacyAction(session, a)
      ensures !legacy ==> forall n :: n in keep <==> n in spec || ActionNeeds(naming, session, actions, n)
    {
      keep := spec;
      for i := 0 to |actions|
        invariant forall j :: 0 <= j < i ==> !LegacyAction(session, actions[j])
        invariant forall n :: n in keep <==> n in spec || ActionNeeds(naming, session, actions[..i], n)
      {
        var a := actions[i];
        assert actions[..i + 1] == actions[..i] + [a];
        if a.sessionId.None? || Trim(a.sessionId.value) != Trim(session) || a.terminal || !a.runTurn { continue; }
        if a.refs.None? || Trim(a.refs.value.workspaceId) == "" || Trim(a.refs.value.homeStateId) == "" {
          assert LegacyAction(session, actions[i]);
          return keep, true;
        }
        keep := keep + Both(naming, session, a.refs.value);
      }
      assert actions[..|actions|] == actions;
      legacy := false;
    }

    method AddLiveRuns(session: string, runs: seq<RunRef>, known: set<string>) returns (keep: set<string>, legacy: bool)
      ensures legacy <==> exists r :: r in runs && LegacyRun(session, r)
      ensures !legacy ==> forall n :: n in keep <==> n in known || RunNeeds(naming, session, runs, n)
    {
      keep := known;
      for i := 0 to |runs|
        invariant forall j :: 0 <= j < i ==> !LegacyRun(session, runs[j])
        invariant forall n :: n in keep <==> n in known || RunNeeds(naming, session, runs[..i], n)
      {
        var r := runs[i];
        assert runs[..i + 1] == runs[..i] + [r];
        if r.sessionId.None? || Trim(r.sessionId.value) != Trim(session) || r.terminal { continue; }
        if Trim(r.refs.workspaceId) == "" || Trim(r.refs.homeStateId) == "" {
          assert LegacyRun(session, runs[i]);
          return keep, true;
        }
        keep := keep + Both(naming, session, r.refs);
      }
      assert runs[..|runs|] == runs;
      legacy := false;
    }

    /** referencedPVCNames: exactly the names somebody needs, unless a legacy reference hides some of them. */
    method ReferencedNames(session: string, spec: Refs, env: Env) returns (keep: set<string>, legacy: bool, ok: bool)
      ensures ok && legacy ==> HasLegacy(session, env.actions, env.runs)
      ensures ok && !legacy ==> !HasLegacy(session, env.actions, env.runs)
      ensures ok && !legacy ==> forall n :: n in keep <==> Referenced(naming, session, spec, env.actions, env.runs, n)
      ensures env.actionsOk && env.runsOk ==> ok
      ensures ok ==> env.actionsOk && (env.runsOk || legacy)
    {
      keep := {};
      if Trim(spec.workspaceId) != "" { keep := keep + {ClaimName(naming, session, Workspace, spec.workspaceId)}; }
      if Trim(spec.homeStateId) != "" { keep := keep + {ClaimName(naming, session, HomeState, spec.homeStateId)}; }
      if !env.actionsOk { return {}, false, false; }
      keep, legacy := AddLiveActions(session, env.actions, keep);
      if legacy { return keep, true, true; }
      if !env.runsOk { return {}, false, false; }
      keep, legacy := AddLiveRuns(session, env.runs, keep);
      ok := true;
    }

    /** cleanupStalePVCs: delete the listed claims that are not to be kept, one by one, until a delete fails. */
    method CleanupStale(session: string, spec: Refs, env: Env) returns (ok: bool)
      modifies this
      ensures claims.Keys <= old(claims).Keys && forall n :: n in claims ==> claims[n] == old(claims)[n]
      ensures forall n :: n in old(claims) && n !in claims ==>
        Labeled(session, old(claims)[n]) && !Referenced(naming, session, spec, env.actions, env.runs, n)
      ensures HasLegacy(session, env.actions, env.runs) || !env.actionsOk || !env.runsOk || !env.claimsOk ==>
        claims == old(claims)
      ensures ok && !HasLegacy(session, env.actions, env.runs) ==> forall n :: n in claims <==>
        n in old(claims) && (Labeled(session, old(claims)[n]) ==> Referenced(naming, session, spec, env.actions,
                                                                             env.runs, n))
    {
      var keep, legacy, found := ReferencedNames(session, spec, env);
      if !found || legacy { return found; }
      if !env.claimsOk { return false; }
      var left := set n | n in claims && claims[n].managed && claims[n].session == Trim(session);
      while left != {}
        invariant claims.Keys <= old(claims).Keys && forall n :: n in claims ==> claims[n] == old(claims)[n]
        invariant left <= claims.Keys && forall n :: n in left ==> Labeled(session, claims[n])
        invariant forall n :: n in old(claims) && n !in claims ==> Labeled(session, old(claims)[n]) && n !in keep
        invariant forall n :: n in claims && Labeled(session, claims[n]) && n !in left ==> n in keep
      {
        var n :| n in left;
        left := left - {n};
        if n in keep { continue; }
        if !env.deleteOk(n) { return false; }
        claims := claims - {n};
      }
      ok := true;
    }

    method EnsureClaim(session: string, kind: Kind, id: string, env: Env) returns (ok: bool)
      modifies this
      ensures ok ==> ClaimName(naming, session, kind, id) in claims
      ensures var n := ClaimName(naming, session, kind, id);
        ok <==> env.getOk(n) && (n in old(claims) || env.createOk(n))
      ensures claims == old(claims)
        || (ClaimName(naming, session, kind, id) !in old(claims)
            && claims == old(claims)[ClaimName(naming, session, kind, id) := Claim(Trim(session), true, false)])
    {
      var name := ClaimName(naming, session, kind, id);
      if !env.getOk(name) { return false; }
      if name in claims { return true; }
      if !env.createOk(name) { return false; }
      claims := claims[name := Claim(Trim(session), true, false)];
      ok := true;
    }

    /** Ensure: the claims of the present spec first, then the sweep. */
    method Ensure(session: string, spec: Refs, env: Env) returns (ok: bool)
      modifies this
      ensures ok ==> forall n :: Names(naming, session, spec, n) ==> n in claims
      ensures forall n :: n in old(claims) ==>
        if n in claims then claims[n] == old(claims)[n]
        else Labeled(session, old(claims)[n]) && !Referenced(naming, session, spec, env.actions, env.runs, n)
      ensures forall n :: n in claims && n !in old(claims) ==>
        Names(naming, session, spec, n) && claims[n] == Claim(Trim(session), true, false)
      ensures ok && !HasLegacy(session, env.actions, env.runs) ==>
        forall n :: n in claims && Labeled(session, claims[n]) ==>
        Referenced(naming, session, spec, env.actions, env.runs, n)
    {
      if Trim(spec.workspaceId) != "" {
        ok := EnsureClaim(session, Workspace, spec.workspaceId, env);
        if !ok { return; }
      }
      if Trim(spec.homeStateId) != "" {
        ok := EnsureClaim(session, HomeState, spec.homeStateId, env);
        if !ok { return; }
      }
      ok := CleanupStale(session, spec, env);
    }

    /** Cleanup of a deleted session: all its claims go, and nothing else does. */
    method Cleanup(session: string, env: Env) returns (ok: bool)
      modifies this
      ensures claims.Keys <= old(claims).Keys && forall n :: n in claims ==> claims[n] == old(claims)[n]
      ensures forall n :: n in old(claims) && n !in claims ==> Labeled(session, old(claims)[n])
      ensures ok ==> forall n :: n in claims ==> !Labeled(session, claims[n])
      ensures !env.claimsOk ==> !ok && claims == old(claims)
    {
      if !env.claimsOk { return false; }
      var left := set n | n in claims && claims[n].managed && claims[n].session == Trim(session);
      while left != {}
        invariant claims.Keys <= old(claims).Keys && forall n :: n in claims ==> claims[n] == old(claims)[n]
        invariant left <= claims.Keys && forall n :: n in left ==> Labeled(session, claims[n])
        invariant forall n :: n in old(claims) && n !in claims ==> Labeled(session, old(claims)[n])
        invariant forall n :: n in claims && Labeled(session, claims[n]) ==> n in left
      {
        var n :| n in left;
        if !env.deleteOk(n) { return false; }
        left := left - {n};
        claims := claims - {n};
      }
      ok := true;
    }

    /** observeCarrier: ready when the spec names a claim that is there and not lost; None for a failed read. */
    method Observe(session: string, kind: Kind, id: string, env: Env) returns (ready: Option<bool>)
      ensures ready == Some(true) <==>
        var n := ClaimName(naming, session, kind, id); Trim(id) != "" && env.getOk(n) && n in claims && !claims[n].lost
      ensures ready.None? <==> Trim(id) != "" && !env.getOk(ClaimName(naming, session, kind, id))
    {
      if Trim(id) == "" { return Some(false); }
      var name := ClaimName(naming, session, kind, id);
      if !env.getOk(name) { return None; }
      ready := Some(name in claims && !claims[name].lost);
    }
  }
}
