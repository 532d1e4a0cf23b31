/**
 * Reload actions: a snapshot of one subject of the session's configuration is written to its realized
 * revisions, unless the configuration has moved on. The outcomes are those of module System.
 */
module Reload {
  import opened Wrappers
  import opened Text
  import opened ResourceConfig
  import opened ResourceParts
  import opened System

  /** What of a session a reload reads and writes. */
  datatype Session = Session(config: Option<Resources>, realized: Revisions)

  datatype ReloadEnv = ReloadEnv(session: SessionLoad, getOk: bool, materializeOk: bool, writeOk: bool)

  function SnapshotIdOf(config: Option<Resources>): string {
    if config.None? then "" else Trim(config.value.snapshotId)
  }

  /** reloadSubjectSuperseded */
  predicate Superseded(digest: Digest, config: Option<Resources>, snapshot: Snapshot) {
    || SnapshotIdOf(config) != Trim(snapshot.snapshotId)
    || Filter(config, snapshot.subject).None?
    || Trim(Desired(digest, config, snapshot.subject)) != Trim(snapshot.revision)
  }

  /** deriveReloadSubjectStatus and applyReloadSubject: the outcome, and the revisions left behind. */
  function Derive(digest: Digest, session: Session, snapshot: Option<Snapshot>, running: bool, env: ReloadEnv)
    : (OtherOutcome, Revisions)
  {
    var r := session.realized;
    if snapshot.None? || env.session.SessionMissing? then (OtherFails, r)
    else if env.session.SessionError? then (OtherRetries, r)
    else if Superseded(digest, session.config, snapshot.value) then (OtherCancels, r)
    else if Matches(digest, r, snapshot.value) && (!snapshot.value.subject.WholeConfig? || running) then
      (OtherSucceeds, r)
    else if running then (OtherRuns, r)
    else if !env.getOk || session.config.None? || !env.materializeOk || !env.writeOk then (OtherRetries, r)
    else (OtherRuns, Applied(digest, Revisions(Trim(r.rule), Trim(r.skill), Trim(r.mcp)), snapshot.value))
  }

  /** The session's status in the repository. */
  class SessionStatus {
    const config: Option<Resources>
    var realized: Revisions

    constructor (config: Option<Resources>, realized: Revisions)
      ensures this.config == config && this.realized == realized
    {
      this.config, this.realized := config, realized;
    }

    method ApplyReloadSubject(digest: Digest, snapshot: Snapshot, env: ReloadEnv) returns (ok: bool)
      modifies this
      ensures ok == (env.getOk && config.Some? && env.materializeOk && env.writeOk)
      ensures !ok ==> realized == old(realized)
      ensures ok ==> var r := old(realized);
        realized == Applied(digest, Revisions(Trim(r.rule), Trim(r.skill), Trim(r.mcp)), snapshot)
    {
      if !env.getOk || config.None? || !env.materializeOk { return false; }
      var next := new RealizedRevisions(realized);
      next.Apply(digest, snapshot);
      if !env.writeOk { return false; }
      realized := next.Value();
      ok := true;
    }

    method DeriveReloadSubjectStatus(digest: Digest, snapshot: Option<Snapshot>, running: bool, env: ReloadEnv)
      returns (outcome: OtherOutcome)
      modifies this
      ensures (outcome, realized) == Derive(digest, Session(config, old(realized)), snapshot, running, env)
    {
      if snapshot.None? { return OtherFails; }
      match env.session {
        case SessionMissing => return OtherFails;
        case SessionError => return OtherRetries;
        case SessionFound =>
      }
      if Superseded(digest, config, snapshot.value) { return OtherCancels; }
      if Matches(digest, realized, snapshot.value) && (!snapshot.value.subject.WholeConfig? || running) {
        return OtherSucceeds;
      }
      if !running {
        var ok := ApplyReloadSubject(digest, snapshot.value, env);
        if !ok { return OtherRetries; }
      }
      outcome := OtherRuns;
    }
  }

  /** The same revisions, up to white space. */
  predicate SameRevisions(a: Revisions, b: Revisions) {
    Trim(a.rule) == Trim(b.rule) && Trim(a.skill) == Trim(b.skill) && Trim(a.mcp) == Trim(b.mcp)
  }

  lemma TrimmedRevisions(r: Revisions)
    ensures SameRevisions(r, Revisions(Trim(r.rule), Trim(r.skill), Trim(r.mcp)))
  {
    TrimProperties(r.rule);
    TrimProperties(r.skill);
    TrimProperties(r.mcp);
  }

  lemma AppliedParts(digest: Digest, earlier: Option<Resources>, config: Option<Resources>, r: Revisions,
                     subject: Subject)
    requires Hexadecimal(digest) && IsPart(subject) && TakeSnapshot(digest, earlier, subject).Some?
    requires !Superseded(digest, config, TakeSnapshot(digest, earlier, subject).value)
    ensures var s := TakeSnapshot(digest, earlier, subject).value;
      var after := Applied(digest, Revisions(Trim(r.rule), Trim(r.skill), Trim(r.mcp)), s);
      && Realized(after, subject) == Desired(digest, config, subject)
      && forall p :: p != subject ==> Realized(after, p) == Realized(r, p)
  {
    SnapshotAsks(digest, earlier, subject);
    DesiredIsTrimmed(digest, earlier, subject);
    DesiredIsTrimmed(digest, config, subject);
    TrimmedRevisions(r);
    var s := TakeSnapshot(digest, earlier, subject).value;
    AppliedTo(digest, Revisions(Trim(r.rule), Trim(r.skill), Trim(r.mcp)), s);
  }

  lemma AppliedTo(digest: Digest, r: Revisions, s: Snapshot)
    requires IsPart(s.subject)
    ensures Realized(Applied(digest, r, s), s.subject) == Trim(Desired(digest, s.config, s.subject))
    ensures forall p :: p != s.subject ==> Realized(Applied(digest, r, s), p) == Realized(r, p)
  {
  }

  lemma MatchedPart(digest: Digest, earlier: Option<Resources>, config: Option<Resources>, r: Revisions,
                    subject: Subject)
    requires Hexadecimal(digest) && IsPart(subject) && TakeSnapshot(digest, earlier, subject).Some?
    requires !Superseded(digest, config, TakeSnapshot(digest, earlier, subject).value)
    requires Matches(digest, r, TakeSnapshot(digest, earlier, subject).value)
    ensures !IsPending(digest, config, r, subject)
  {
    DesiredIsTrimmed(digest, config, subject);
  }

  /**
   * No stale reload. The snapshot was taken of an earlier configuration of the session, which may have been
   * replaced since. Whenever the reload changes the realized revisions, it brings its own part to what the
   * present configuration asks for and leaves the other parts alone; superseded or failing, it changes nothing.
   */
  lemma NoStaleReload(digest: Digest, earlier: Option<Resources>, session: Session, subject: Subject,
                      running: bool, env: ReloadEnv)
    requires Hexadecimal(digest) && IsPart(subject) && TakeSnapshot(digest, earlier, subject).Some?
    ensures var s := TakeSnapshot(digest, earlier, subject).value;
      var (outcome, after) := Derive(digest, session, Some(s), running, env);
      && (!SameRevisions(after, session.realized) ==>
            && outcome.OtherRuns? && !running
            && Realized(after, subject) == Desired(digest, session.config, subject)
            && forall p :: p != subject ==> Realized(after, p) == Realized(session.realized, p))
      && (Superseded(digest, session.config, s) ==> after == session.realized && !outcome.OtherSucceeds?)
      && (outcome.OtherSucceeds? ==> !IsPending(digest, session.config, after, subject))
  {
    var s := TakeSnapshot(digest, earlier, subject).value;
    if env.session.SessionFound? && !Superseded(digest, session.config, s) {
      if Matches(digest, session.realized, s) {
        MatchedPart(digest, earlier, session.config, session.realized, subject);
      } else if !running {
        AppliedParts(digest, earlier, session.config, session.realized, subject);
      }
    }
  }

  lemma SameDesired(digest: Digest, a: Resources, b: Resources, part: Subject)
    requires a.instructions == b.instructions && a.tools == b.tools && IsPart(part)
    ensures Desired(digest, Some(a), part) == Desired(digest, Some(b), part)
  {
  }

  /** A snapshot of the whole configuration that is not superseded asks for what the present configuration asks for. */
  lemma WholeSnapshotIsCurrent(digest: Digest, earlier: Option<Resources>, config: Option<Resources>)
    requires Hexadecimal(digest) && Injective(digest) && TakeSnapshot(digest, earlier, WholeConfig).Some?
    requires !Superseded(digest, config, TakeSnapshot(digest, earlier, WholeConfig).value)
    ensures DesiredRevisions(digest, earlier) == DesiredRevisions(digest, config)
  {
    DesiredIsTrimmed(digest, earlier, WholeConfig);
    DesiredIsTrimmed(digest, config, WholeConfig);
    SameContent(digest, earlier.value, config.value);
    SameDesired(digest, earlier.value, config.value, Rule);
    SameDesired(digest, earlier.value, config.value, Skill);
    SameDesired(digest, earlier.value, config.value, Mcp);
  }

  lemma AppliedWhole(digest: Digest, r: Revisions, s: Snapshot)
    requires Hexadecimal(digest) && s.subject.WholeConfig?
    ensures Ready(digest, s.config, Applied(digest, r, s))
    ensures Matches(digest, r, s) <==> Ready(digest, s.config, r)
  {
    DesiredIsTrimmed(digest, s.config, Rule);
    DesiredIsTrimmed(digest, s.config, Skill);
    DesiredIsTrimmed(digest, s.config, Mcp);
  }

  /**
   * The same for a reload of the whole configuration, given that digests tell configurations apart: whenever it
   * changes the realized revisions, and whenever it succeeds, the resources are ready for the present configuration.
   */
  lemma NoStaleWholeReload(digest: Digest, earlier: Option<Resources>, session: Session, running: bool, env: ReloadEnv)
    requires Hexadecimal(digest) && Injective(digest) && TakeSnapshot(digest, earlier, WholeConfig).Some?
    ensures var s := TakeSnapshot(digest, earlier, WholeConfig).value;
      var (outcome, after) := Derive(digest, session, Some(s), running, env);
      && (!SameRevisions(after, session.realized) ==>
            outcome.OtherRuns? && !running && Ready(digest, session.config, after))
      && (Superseded(digest, session.config, s) ==> after == session.realized && !outcome.OtherSucceeds?)
      && (outcome.OtherSucceeds? ==> Ready(digest, session.config, after))
  {
    var s := TakeSnapshot(digest, earlier, WholeConfig).value;
    var r := session.realized;
    if env.session.SessionFound? && !Superseded(digest, session.config, s) {
      WholeSnapshotIsCurrent(digest, earlier, session.config);
      AppliedWhole(digest, r, s);
      AppliedWhole(digest, Revisions(Trim(r.rule), Trim(r.skill), Trim(r.mcp)), s);
    }
  }

  /** White space around the ids, revisions and realized values of a snapshot and a status makes no difference. */
  lemma SpaceIsIgnored(digest: Digest, config: Option<Resources>, r: Revisions, s: Snapshot)
    ensures var t := s.(snapshotId := Trim(s.snapshotId), revision := Trim(s.revision));
      var q := Revisions(Trim(r.rule), Trim(r.skill), Trim(r.mcp));
      && Superseded(digest, config, s) == Superseded(digest, config, t)
      && Matches(digest, r, s) == Matches(digest, q, t) && Ready(digest, config, r) == Ready(digest, config, q)
  {
    TrimmedRevisions(r);
    TrimProperties(s.snapshotId);
    TrimProperties(s.revision);
  }

  lemma WritesApplied(digest: Digest, session: Session, snapshot: Option<Snapshot>, running: bool, env: ReloadEnv)
    ensures var after, r := Derive(digest, session, snapshot, running, env).1, session.realized;
      || after == r
      || (&& snapshot.Some?
          && after == Applied(digest, Revisions(Trim(r.rule), Trim(r.skill), Trim(r.mcp)), snapshot.value))
  {
  }

  predicate TrimmedAll(r: Revisions) {
    Trim(r.rule) == r.rule && Trim(r.skill) == r.skill && Trim(r.mcp) == r.mcp
  }

  lemma AppliedIsTrimmed(digest: Digest, r: Revisions, s: Snapshot)
    requires Hexadecimal(digest) && TrimmedAll(r)
    ensures TrimmedAll(Applied(digest, r, s))
  {
    DesiredIsTrimmed(digest, s.config, Rule);
    DesiredIsTrimmed(digest, s.config, Skill);
    DesiredIsTrimmed(digest, s.config, Mcp);
  }

  /** Revisions that a reload writes are stored without white space around them. */
  lemma WrittenIsTrimmed(digest: Digest, session: Session, snapshot: Option<Snapshot>, running: bool, env: ReloadEnv)
    requires Hexadecimal(digest)
    ensures var after := Derive(digest, session, snapshot, running, env).1;
      after == session.realized || TrimmedAll(after)
  {
    var r := session.realized;
    TrimmedRevisions(r);
    WritesApplied(digest, session, snapshot, running, env);
    if snapshot.Some? {
      AppliedIsTrimmed(digest, Revisions(Trim(r.rule), Trim(r.skill), Trim(r.mcp)), snapshot.value);
    }
  }

  /** How a reload goes, case by case. */
  lemma OutcomeIff(digest: Digest, session: Session, snapshot: Option<Snapshot>, running: bool, env: ReloadEnv)
    ensures var (outcome, after) := Derive(digest, session, snapshot, running, env);
      var current := snapshot.Some? && env.session.SessionFound? && !Superseded(digest, session.config, snapshot.value);
      var done := current && Matches(digest, session.realized, snapshot.value)
                  && (!snapshot.value.subject.WholeConfig? || running);
      var calls := env.getOk && env.materializeOk && env.writeOk;
      && (outcome.OtherFails? <==> snapshot.None? || env.session.SessionMissing?)
      && (outcome.OtherCancels? <==>
            snapshot.Some? && env.session.SessionFound? && Superseded(digest, session.config, snapshot.value))
      && (outcome.OtherSucceeds? <==> done)
      && (outcome.OtherRuns? <==> current && !done && (running || calls))
      && (outcome.OtherRetries? <==>
            (snapshot.Some? && env.session.SessionError?) || (current && !done && !running && !calls))
      && (running ==> after == session.realized)
  {
  }

  /**
   * The snapshot of a part, taken of an earlier configuration, is superseded exactly when the present one has another
   * snapshot id or other entries of this part.
   */
  lemma SupersededIff(digest: Digest, earlier: Option<Resources>, config: Option<Resources>, part: Subject)
    requires Hexadecimal(digest) && Injective(digest) && IsPart(part) && TakeSnapshot(digest, earlier, part).Some?
    ensures Superseded(digest, config, TakeSnapshot(digest, earlier, part).value) <==>
      || config.None? || Trim(config.value.snapshotId) != Trim(earlier.value.snapshotId)
      || !SameEntries(config, earlier, part)
  {
    TrimProperties(earlier.value.snapshotId);
    DesiredIsTrimmed(digest, config, part);
    DesiredIsTrimmed(digest, earlier, part);
    RevisionIff(digest, config, earlier, part);
  }

  /** Two reconciles of an undisturbed reload that meet no error complete it. */
  lemma TwoReconcilesComplete(digest: Digest, session: Session, subject: Subject, first: ReloadEnv, second: ReloadEnv)
    requires Hexadecimal(digest) && IsPart(subject) && TakeSnapshot(digest, session.config, subject).Some?
    requires first.session.SessionFound? && first.getOk && first.materializeOk && first.writeOk
    requires second.session.SessionFound?
    ensures var s := TakeSnapshot(digest, session.config, subject);
      var (outcome, after) := Derive(digest, session, s, false, first);
      && outcome == (if IsPending(digest, session.config, session.realized, subject) then OtherRuns else OtherSucceeds)
      && !IsPending(digest, session.config, after, subject)
      && Derive(digest, Session(session.config, after), s, true, second).0 == OtherSucceeds
  {
    SnapshotAsks(digest, session.config, subject);
    DesiredIsTrimmed(digest, session.config, subject);
    TrimProperties(session.config.value.snapshotId);
    TrimmedRevisions(session.realized);
  }
}
