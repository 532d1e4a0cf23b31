/**
 * Resource revisions of a session: what each subject of its configuration should be at, what it has been
 * brought to, and the reload actions in between. The digest of a configuration is a parameter.
 */
module ResourceConfig {
  import opened Wrappers
  import opened Text

  datatype InstructionKind = RuleKind | SkillKind | OtherInstruction
  datatype ToolKind = McpKind | OtherTool

  datatype Instruction = Instruction(kind: InstructionKind, name: string, content: string)
  datatype ToolBinding = ToolBinding(kind: ToolKind, name: string, endpoint: string)

  /** Lists may hold missing entries. */
  datatype Resources = Resources(snapshotId: string, instructions: seq<Option<Instruction>>,
                                 tools: seq<Option<ToolBinding>>)

  datatype Subject = WholeConfig | Rule | Skill | Mcp | UnknownSubject

  datatype Revisions = Revisions(rule: string, skill: string, mcp: string)

  type Digest = Resources -> string

  /** Digests are hexadecimal, so trimming leaves them alone. */
  ghost predicate Hexadecimal(digest: Digest) {
    forall c :: Trim(digest(c)) == digest(c)
  }

  // ---- Filtering ----

  function KeepInstructions(items: seq<Option<Instruction>>, kind: InstructionKind): seq<Option<Instruction>> {
    if items == [] then []
    else if items[0].Some? && items[0].value.kind == kind then [items[0]] + KeepInstructions(items[1..], kind)
    else KeepInstructions(items[1..], kind)
  }

  function KeepTools(items: seq<Option<ToolBinding>>, kind: ToolKind): seq<Option<ToolBinding>> {
    if items == [] then []
    else if items[0].Some? && items[0].value.kind == kind then [items[0]] + KeepTools(items[1..], kind)
    else KeepTools(items[1..], kind)
  }

  /** The part of a configuration that concerns one subject. */
  function Filter(config: Option<Resources>, subject: Subject): Option<Resources> {
    if config.None? then None
    else
      var c := config.value;
      match subject
      case WholeConfig => config
      case Rule => Some(Resources(Trim(c.snapshotId), KeepInstructions(c.instructions, RuleKind), []))
      case Skill => Some(Resources(Trim(c.snapshotId), KeepInstructions(c.instructions, SkillKind), []))
      case Mcp => Some(Resources(Trim(c.snapshotId), [], KeepTools(c.tools, McpKind)))
      case UnknownSubject => None
  }

  lemma {:induction false} KeepInstructionsSplit(a: seq<Option<Instruction>>, b: seq<Option<Instruction>>,
                                                 kind: InstructionKind)
    ensures KeepInstructions(a + b, kind) == KeepInstructions(a, kind) + KeepInstructions(b, kind)
  {
    if a == [] {
      assert a + b == b;
    } else {
      assert (a + b)[1..] == a[1..] + b;
      KeepInstructionsSplit(a[1..], b, kind);
    }
  }

  lemma {:induction false} KeepToolsSplit(a: seq<Option<ToolBinding>>, b: seq<Option<ToolBinding>>, kind: ToolKind)
    ensures KeepTools(a + b, kind) == KeepTools(a, kind) + KeepTools(b, kind)
  {
    if a == [] {
      assert a + b == b;
    } else {
      assert (a + b)[1..] == a[1..] + b;
      KeepToolsSplit(a[1..], b, kind);
    }
  }

  /** filter, as it appends item by item. */
  method FilterConfig(config: Option<Resources>, subject: Subject) returns (filtered: Option<Resources>)
    ensures filtered == Filter(config, subject)
  {
    if config.None? { return None; }
    var c := config.value;
    if subject.WholeConfig? { return config; }
    if subject.UnknownSubject? { return None; }
    var instructions: seq<Option<Instruction>>, tools: seq<Option<ToolBinding>> := [], [];
    if subject.Mcp? {
      for i := 0 to |c.tools|
        invariant tools == KeepTools(c.tools[..i], McpKind)
      {
        KeepToolsSplit(c.tools[..i], [c.tools[i]], McpKind);
        assert c.tools[..i + 1] == c.tools[..i] + [c.tools[i]];
        if c.tools[i].Some? && c.tools[i].value.kind == McpKind { tools := tools + [c.tools[i]]; }
      }
      assert c.tools[..|c.tools|] == c.tools;
    } else {
      var kind := if subject.Rule? then RuleKind else SkillKind;
      for i := 0 to |c.instructions|
        invariant instructions == KeepInstructions(c.instructions[..i], kind)
      {
        KeepInstructionsSplit(c.instructions[..i], [c.instructions[i]], kind);
        assert c.instructions[..i + 1] == c.instructions[..i] + [c.instructions[i]];
        if c.instructions[i].Some? && c.instructions[i].value.kind == kind {
          instructions := instructions + [c.instructions[i]];
        }
      }
      assert c.instructions[..|c.instructions|] == c.instructions;
    }
    filtered := Some(Resources(Trim(c.snapshotId), instructions, tools));
  }

  lemma {:induction false} KeepInstructionsTwice(items: seq<Option<Instruction>>, kind: InstructionKind)
    ensures KeepInstructions(KeepInstructions(items, kind), kind) == KeepInstructions(items, kind)
  {
    if items == [] {
    } else {
      KeepInstructionsTwice(items[1..], kind);
    }
  }

  lemma {:induction false} KeepToolsTwice(items: seq<Option<ToolBinding>>, kind: ToolKind)
    ensures KeepTools(KeepTools(items, kind), kind) == KeepTools(items, kind)
  {
    if items == [] {
    } else {
      KeepToolsTwice(items[1..], kind);
    }
  }

  /** Filtering what was filtered for the same subject changes nothing. */
  lemma FilterTwice(config: Option<Resources>, subject: Subject)
    ensures Filter(Filter(config, subject), subject) == Filter(config, subject)
  {
    if config.Some? {
      TrimProperties(config.value.snapshotId);
      KeepInstructionsTwice(config.value.instructions, RuleKind);
      KeepInstructionsTwice(config.value.instructions, SkillKind);
      KeepToolsTwice(config.value.tools, McpKind);
    }
  }

  // ---- Revisions ----

  /** revision: empty for an empty configuration; the snapshot id plays no part. */
  function Revision(digest: Digest, c: Resources): string {
    if c.instructions == [] && c.tools == [] then "" else digest(c.(snapshotId := ""))
  }

  function Desired(digest: Digest, config: Option<Resources>, subject: Subject): string {
    var filtered := Filter(config, subject);
    if filtered.None? then "" else Revision(digest, filtered.value)
  }

  function DesiredRevisions(digest: Digest, config: Option<Resources>): Revisions {
    Revisions(Desired(digest, config, Rule), Desired(digest, config, Skill), Desired(digest, config, Mcp))
  }

  datatype Snapshot = Snapshot(subject: Subject, snapshotId: string, revision: string, config: Option<Resources>)

  /** The snapshot that a reload action carries, as it is built from the configuration of the session. */
  function TakeSnapshot(digest: Digest, config: Option<Resources>, subject: Subject): Option<Snapshot> {
    var filtered := Filter(config, subject);
    if filtered.None? || Trim(config.value.snapshotId) == "" then None
    else Some(Snapshot(subject, Trim(config.value.snapshotId), Revision(digest, filtered.value), filtered))
  }

  /** The three subjects that have a revision of their own. */
  predicate IsPart(subject: Subject) { subject.Rule? || subject.Skill? || subject.Mcp? }

  function Realized(r: Revisions, subject: Subject): string {
    match subject
    case Rule => Trim(r.rule)
    case Skill => Trim(r.skill)
    case Mcp => Trim(r.mcp)
    case _ => ""
  }

  /** A part whose realized revision is not the desired one. */
  predicate IsPending(digest: Digest, config: Option<Resources>, r: Revisions, subject: Subject) {
    IsPart(subject) && Desired(digest, config, subject) != Realized(r, subject)
  }

  method PendingSubjects(digest: Digest, config: Option<Resources>, r: Revisions) returns (pending: seq<Subject>)
    ensures forall s :: s in pending <==> IsPending(digest, config, r, s)
    ensures |pending| <= 3 && forall i, j :: 0 <= i < j < |pending| ==> pending[i] != pending[j]
  {
    var desired := DesiredRevisions(digest, config);
    pending := [];
    if desired.rule != Trim(r.rule) { pending := pending + [Rule]; }
    if desired.skill != Trim(r.skill) { pending := pending + [Skill]; }
    if desired.mcp != Trim(r.mcp) { pending := pending + [Mcp]; }
  }

  predicate Ready(digest: Digest, config: Option<Resources>, r: Revisions) {
    var desired := DesiredRevisions(digest, config);
    desired.rule == Trim(r.rule) && desired.skill == Trim(r.skill) && desired.mcp == Trim(r.mcp)
  }

  /** Resources are ready exactly when no part is pending. */
  lemma ReadyIffNothingPending(digest: Digest, config: Option<Resources>, r: Revisions)
    ensures Ready(digest, config, r) <==> forall s :: !IsPending(digest, config, r, s)
  {
    if !Ready(digest, config, r) {
      assert IsPending(digest, config, r, Rule) || IsPending(digest, config, r, Skill) || IsPending(digest,
                                                                                                    config, r, Mcp);
    }
  }

  predicate Matches(digest: Digest, r: Revisions, snapshot: Snapshot) {
    if snapshot.subject.WholeConfig? then
      && Trim(r.rule) == Desired(digest, snapshot.config, Rule)
      && Trim(r.skill) == Desired(digest, snapshot.config, Skill)
      && Trim(r.mcp) == Desired(digest, snapshot.config, Mcp)
    else
      Realized(r, snapshot.subject) == Trim(snapshot.revision)
  }

  function Applied(digest: Digest, r: Revisions, snapshot: Snapshot): Revisions {
    var desired := DesiredRevisions(digest, snapshot.config);
    match snapshot.subject
    case WholeConfig => desired
    case Rule => r.(rule := desired.rule)
    case Skill => r.(skill := desired.skill)
    case Mcp => r.(mcp := desired.mcp)
    case UnknownSubject => r
  }

  /** The realized revisions in the session's status, updated in place. */
  class RealizedRevisions {
    var rule: string
    var skill: string
    var mcp: string

    constructor (r: Revisions)
      ensures Value() == Revisions(Trim(r.rule), Trim(r.skill), Trim(r.mcp))
    {
      rule, skill, mcp := Trim(r.rule), Trim(r.skill), Trim(r.mcp);
    }

    function Value(): Revisions
      reads this
    {
      Revisions(rule, skill, mcp)
    }

    method Apply(digest: Digest, snapshot: Snapshot)
      modifies this
      ensures Value() == Applied(digest, old(Value()), snapshot)
    {
      var desired := DesiredRevisions(digest, snapshot.config);
      match snapshot.subject
      case WholeConfig =>
        rule := desired.rule;
        skill := desired.skill;
        mcp := desired.mcp;
      case Rule => rule := desired.rule;
      case Skill => skill := desired.skill;
      case Mcp => mcp := desired.mcp;
      case UnknownSubject =>
    }
  }

  lemma DesiredIsTrimmed(digest: Digest, config: Option<Resources>, subject: Subject)
    requires Hexadecimal(digest)
    ensures Trim(Desired(digest, config, subject)) == Desired(digest, config, subject)
  {
    TrimProperties("");
  }

  /** What a snapshot of a part asks for is what the configuration asks for. */
  lemma SnapshotAsks(digest: Digest, config: Option<Resources>, subject: Subject)
    requires TakeSnapshot(digest, config, subject).Some?
    ensures var s := TakeSnapshot(digest, config, subject).value;
      Desired(digest, s.config, subject) == Desired(digest, config, subject) == s.revision
  {
    FilterTwice(config, subject);
  }

  /** Applying the snapshot of a part settles that part and leaves the others as they are. */
  lemma ApplySettles(digest: Digest, config: Option<Resources>, r: Revisions, subject: Subject)
    requires Hexadecimal(digest) && IsPart(subject) && TakeSnapshot(digest, config, subject).Some?
    ensures var s := TakeSnapshot(digest, config, subject).value;
      && Matches(digest, Applied(digest, r, s), s)
      && forall p :: IsPending(digest, config, Applied(digest, r, s), p) <==>
        IsPending(digest, config, r, p) && p != subject
  {
    SnapshotAsks(digest, config, subject);
    DesiredIsTrimmed(digest, config, subject);
  }

  function ApplyAll(digest: Digest, config: Option<Resources>, r: Revisions, subjects: seq<Subject>): Revisions
    decreases |subjects|
  {
    if subjects == [] then r
    else
      var s := TakeSnapshot(digest, config, subjects[0]);
      ApplyAll(digest, config, if s.Some? then Applied(digest, r, s.value) else r, subjects[1..])
  }

  /** Any order and any repetition of reloads leaves pending exactly what was pending and not reloaded. */
  lemma {:induction false} ReloadsSettle(digest: Digest, config: Option<Resources>, r: Revisions,
                                         subjects: seq<Subject>)
    requires Hexadecimal(digest) && config.Some? && Trim(config.value.snapshotId) != ""
    requires forall s :: s in subjects ==> IsPart(s)
    ensures forall p :: IsPending(digest, config, ApplyAll(digest, config, r, subjects), p)
                   <==> IsPending(digest, config, r, p) && p !in subjects
    decreases |subjects|
  {
    if subjects == [] {
    } else {
      var s := TakeSnapshot(digest, config, subjects[0]);
      ApplySettles(digest, config, r, subjects[0]);
      ReloadsSettle(digest, config, Applied(digest, r, s.value), subjects[1..]);
      assert subjects == [subjects[0]] + subjects[1..];
    }
  }

  /** So the pending reloads, in any order and with repeats, make the resources ready, and nothing less does. */
  lemma ReloadsReachReady(digest: Digest, config: Option<Resources>, r: Revisions, subjects: seq<Subject>)
    requires Hexadecimal(digest) && config.Some? && Trim(config.value.snapshotId) != ""
    requires forall s :: s in subjects ==> IsPart(s)
    ensures Ready(digest, config, ApplyAll(digest, config, r, subjects))
       <==> forall s :: IsPending(digest, config, r, s) ==> s in subjects
  {
    ReloadsSettle(digest, config, r, subjects);
    ReadyIffNothingPending(digest, config, ApplyAll(digest, config, r, subjects));
  }

  /** A reload of the whole configuration settles every part at once. */
  lemma WholeReloadSettles(digest: Digest, config: Option<Resources>, r: Revisions)
    requires Hexadecimal(digest) && TakeSnapshot(digest, config, WholeConfig).Some?
    ensures var s := TakeSnapshot(digest, config, WholeConfig).value;
      Matches(digest, Applied(digest, r, s), s) && Ready(digest, config, Applied(digest, r, s))
  {
    DesiredIsTrimmed(digest, config, Rule);
    DesiredIsTrimmed(digest, config, Skill);
    DesiredIsTrimmed(digest, config, Mcp);
  }
}
