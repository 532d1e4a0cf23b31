/** What the parts of a configuration are: the entries that each one keeps, and the revision that follows from them. */
module ResourceParts {
  import opened Wrappers
  import opened Text
  import opened ResourceConfig

  // ---- The entries of a part ----

  predicate IsInstruction(item: Option<Instruction>, kind: InstructionKind) {
    item.Some? && item.value.kind == kind
  }

  predicate IsTool(item: Option<ToolBinding>, kind: ToolKind) {
    item.Some? && item.value.kind == kind
  }

  predicate Increasing(at: seq<nat>, n: nat) {
    (forall i :: 0 <= i < |at| ==> at[i] < n) && (forall i, j :: 0 <= i < j < |at| ==> at[i] < at[j])
  }

  /** kept is what items has at these places, in their order. */
  predicate PickedAt<T(==)>(kept: seq<T>, items: seq<T>, at: seq<nat>) {
    Increasing(at, |items|) && |kept| == |at| && forall i :: 0 <= i < |at| ==> kept[i] == items[at[i]]
  }

  /** kept is all instructions of this kind that are present, in order, and nothing else. */
  ghost predicate AreInstructions(kept: seq<Option<Instruction>>, items: seq<Option<Instruction>>,
                                  kind: InstructionKind)
  {
    exists at: seq<nat> :: PickedAt(kept, items, at) && forall j :: 0 <= j < |items| ==>
      (j in at <==> IsInstruction(items[j], kind))
  }

  ghost predicate AreTools(kept: seq<Option<ToolBinding>>, items: seq<Option<ToolBinding>>, kind: ToolKind) {
    exists at: seq<nat> :: PickedAt(kept, items, at) && forall j :: 0 <= j < |items| ==>
      (j in at <==> IsTool(items[j], kind))
  }

  function Shifted(at: seq<nat>): (r: seq<nat>)
    ensures |r| == |at| && forall i :: 0 <= i < |at| ==> r[i] == at[i] + 1
  {
    seq(|at|, i requires 0 <= i < |at| => at[i] + 1)
  }

  lemma ShiftedHas(at: seq<nat>, j: nat)
    ensures j + 1 in Shifted(at) <==> j in at
  {
    if j in at {
      var i :| 0 <= i < |at| && at[i] == j;
      assert Shifted(at)[i] == j + 1;
    }
  }

  /** Places in the rest of the list are one further on in the list. */
  lemma PickedFromRest<T>(kept: seq<T>, items: seq<T>, at: seq<nat>)
    requires items != [] && PickedAt(kept, items[1..], at)
    ensures PickedAt(kept, items, Shifted(at)) && PickedAt([items[0]] + kept, items, [0] + Shifted(at))
  {
  }

  lemma {:induction false} KeptInstructions(items: seq<Option<Instruction>>, kind: InstructionKind)
    returns (at: seq<nat>)
    ensures PickedAt(KeepInstructions(items, kind), items, at)
    ensures forall j :: 0 <= j < |items| ==> (j in at <==> IsInstruction(items[j], kind))
  {
    if items == [] {
      at := [];
    } else {
      var rest := KeptInstructions(items[1..], kind);
      PickedFromRest(KeepInstructions(items[1..], kind), items, rest);
      at := if IsInstruction(items[0], kind) then [0] + Shifted(rest) else Shifted(rest);
      forall j | 0 <= j < |items| ensures j in at <==> IsInstruction(items[j], kind) {
        if j > 0 { ShiftedHas(rest, j - 1); }
      }
    }
  }

  lemma {:induction false} KeptTools(items: seq<Option<ToolBinding>>, kind: ToolKind) returns (at: seq<nat>)
    ensures PickedAt(KeepTools(items, kind), items, at)
    ensures forall j :: 0 <= j < |items| ==> (j in at <==> IsTool(items[j], kind))
  {
    if items == [] {
      at := [];
    } else {
      var rest := KeptTools(items[1..], kind);
      PickedFromRest(KeepTools(items[1..], kind), items, rest);
      at := if IsTool(items[0], kind) then [0] + Shifted(rest) else Shifted(rest);
      forall j | 0 <= j < |items| ensures j in at <==> IsTool(items[j], kind) {
        if j > 0 { ShiftedHas(rest, j - 1); }
      }
    }
  }

  /** A part keeps exactly the entries of its own kind, in order, and none of the other list. */
  lemma PartKeepsItsOwn(c: Resources)
    ensures var rule := Filter(Some(c), Rule);
      && rule.Some? && AreInstructions(rule.value.instructions, c.instructions, RuleKind) && rule.value.tools == []
    ensures var skill := Filter(Some(c), Skill);
      && skill.Some? && AreInstructions(skill.value.instructions, c.instructions, SkillKind) && skill.value.tools == []
    ensures var mcp := Filter(Some(c), Mcp);
      && mcp.Some? && AreTools(mcp.value.tools, c.tools, McpKind) && mcp.value.instructions == []
    ensures Filter(Some(c), WholeConfig) == Some(c) && Filter(Some(c), UnknownSubject) == None
    ensures forall p :: IsPart(p) ==> Filter(Some(c), p).value.snapshotId == Trim(c.snapshotId)
  {
    var rules := KeptInstructions(c.instructions, RuleKind);
    var skills := KeptInstructions(c.instructions, SkillKind);
    var tools := KeptTools(c.tools, McpKind);
  }

  /** A snapshot can be taken of a known subject of a configuration that has a snapshot id, and carries its part. */
  lemma SnapshotIff(digest: Digest, config: Option<Resources>, subject: Subject)
    ensures var s := TakeSnapshot(digest, config, subject);
      && (s.Some? <==> config.Some? && Trim(config.value.snapshotId) != "" && !subject.UnknownSubject?)
      && (s.Some? ==>
            && s.value.subject == subject && s.value.snapshotId == Trim(config.value.snapshotId)
            && s.value.config == Filter(config, subject) && s.value.revision == Desired(digest, config, subject))
  {
  }

  // ---- The revision of a part ----

  /** Different configurations have different digests, and none has an empty one. */
  ghost predicate Injective(digest: Digest) {
    && (forall c, d :: digest(c) == digest(d) ==> c == d)
    && (forall c :: digest(c) != "")
  }

  function InstructionsOf(config: Option<Resources>): seq<Option<Instruction>> {
    if config.Some? then config.value.instructions else []
  }

  function ToolsOf(config: Option<Resources>): seq<Option<ToolBinding>> {
    if config.Some? then config.value.tools else []
  }

  /** Two configurations have the same entries of this part. */
  predicate SameEntries(c: Option<Resources>, d: Option<Resources>, part: Subject) {
    match part
    case Rule => KeepInstructions(InstructionsOf(c), RuleKind) == KeepInstructions(InstructionsOf(d), RuleKind)
    case Skill => KeepInstructions(InstructionsOf(c), SkillKind) == KeepInstructions(InstructionsOf(d), SkillKind)
    case Mcp => KeepTools(ToolsOf(c), McpKind) == KeepTools(ToolsOf(d), McpKind)
    case _ => false
  }

  /** No entry of this part is present. */
  predicate NoEntries(c: Option<Resources>, part: Subject) {
    match part
    case Rule => NoInstructions(InstructionsOf(c), RuleKind)
    case Skill => NoInstructions(InstructionsOf(c), SkillKind)
    case Mcp => NoTools(ToolsOf(c), McpKind)
    case _ => true
  }

  predicate NoInstructions(items: seq<Option<Instruction>>, kind: InstructionKind) {
    forall i :: 0 <= i < |items| ==> !IsInstruction(items[i], kind)
  }

  predicate NoTools(items: seq<Option<ToolBinding>>, kind: ToolKind) {
    forall i :: 0 <= i < |items| ==> !IsTool(items[i], kind)
  }

  /** The revision of a configuration with entries is the digest of the entries, without the snapshot id. */
  lemma RevisionIsDigest(digest: Digest, c: Resources)
    ensures Revision(digest, c) ==
      if |c.instructions| + |c.tools| == 0 then "" else digest(Resources("", c.instructions, c.tools))
  {
  }

  /** Whatever changes among the other entries, the desired revision of a part stays. */
  lemma RevisionIgnoresOthers(digest: Digest, c: Option<Resources>, d: Option<Resources>, part: Subject)
    requires IsPart(part) && SameEntries(c, d, part)
    ensures Desired(digest, c, part) == Desired(digest, d, part)
  {
  }

  lemma SameContent(digest: Digest, a: Resources, b: Resources)
    requires Injective(digest) && Revision(digest, a) == Revision(digest, b)
    ensures a.instructions == b.instructions && a.tools == b.tools
  {
    assert digest(a.(snapshotId := "")) == digest(b.(snapshotId := "")) ==>
      a.(snapshotId := "") == b.(snapshotId := "");
  }

  /** The desired revision of a part is blank exactly when none of its entries is present. */
  lemma BlankRevisionIff(digest: Digest, c: Option<Resources>, part: Subject)
    requires Injective(digest) && IsPart(part)
    ensures Desired(digest, c, part) == "" <==> NoEntries(c, part)
  {
    if c.Some? {
      match part
      case Rule => NoInstructionsIff(c.value.instructions, RuleKind);
      case Skill => NoInstructionsIff(c.value.instructions, SkillKind);
      case Mcp => NoToolsIff(c.value.tools, McpKind);
    }
  }

  lemma NoInstructionsIff(items: seq<Option<Instruction>>, kind: InstructionKind)
    ensures KeepInstructions(items, kind) == [] <==> NoInstructions(items, kind)
  {
    var at := KeptInstructions(items, kind);
    if at != [] { assert at[0] in at; }
  }

  lemma NoToolsIff(items: seq<Option<ToolBinding>>, kind: ToolKind)
    ensures KeepTools(items, kind) == [] <==> NoTools(items, kind)
  {
    var at := KeptTools(items, kind);
    if at != [] { assert at[0] in at; }
  }

  /** Given digests that tell configurations apart, the desired revision of a part changes exactly with its entries. */
  lemma RevisionIff(digest: Digest, c: Option<Resources>, d: Option<Resources>, part: Subject)
    requires Injective(digest) && IsPart(part)
    ensures Desired(digest, c, part) == Desired(digest, d, part) <==> SameEntries(c, d, part)
  {
    var none := Resources("", [], []);
    var a := if c.Some? then Filter(c, part).value else none;
    var b := if d.Some? then Filter(d, part).value else none;
    if Desired(digest, c, part) == Desired(digest, d, part) { SameContent(digest, a, b); }
  }
}
