/** A whole tool call, from its start over its argument deltas to its end, and what its replay does. */
module ToolBlocks {
  import opened Text
  import opened Dedup
  import opened Projection
  import ProjectionSafety
  import ProjectionExact

  predicate StartsWith(e: OutputEvent, id: string, name: string, parent: string) {
    && e.body.ToolStart? && Trim(e.body.toolCallId) == id && Trim(e.body.name) == name
    && parent == if Trim(e.body.parent) == "" then id else Trim(e.body.parent)
  }

  /** A start, argument deltas, and an end of one tool call in one run. */
  ghost predicate Block(b: seq<OutputEvent>, id: string, name: string, parent: string) {
    && |b| >= 2 && id != "" && name != "" && parent != "" && Trim(id) == id
    && StartsWith(b[0], id, name, parent)
    && (forall i :: 0 < i < |b| - 1 ==> b[i].body.ToolArgs? && Trim(b[i].body.toolCallId) == id)
    && b[|b| - 1].body.ToolEnd? && Trim(b[|b| - 1].body.toolCallId) == id
    && (forall i :: 0 <= i < |b| ==> RunPrefix(b[i].sessionId, b[i].runId) == RunPrefix(b[0].sessionId, b[0].runId))
  }

  function CallKey(b: seq<OutputEvent>, id: string): string
    requires b != []
  {
    Key(b[0], id)
  }

  function Ops(b: seq<OutputEvent>, id: string): seq<Op>
    requires b != []
  {
    ProjectionExact.ToolOps(b, CallKey(b, id))
  }

  /** The deltas of a block, put together. */
  function Args(b: seq<OutputEvent>, id: string): string
    requires b != []
  {
    Deltas(Ops(b, id)[..|b| - 1])
  }

  lemma RunSnoc(s: State, b: seq<OutputEvent>, n: nat)
    requires n < |b|
    ensures Run(s, b[..n + 1]) == Step(Run(s, b[..n]), b[n])
  {
    assert b[..n + 1][..n] == b[..n];
  }

  /** The start opens the call, or names one that is open already. */
  lemma StartNames(s: State, e: OutputEvent, id: string, name: string, parent: string, t: Tool)
    requires StartsWith(e, id, name, parent) && id != "" && name != "" && t == ToolFor(s.tools, e, id)
    ensures Step(s, e) == State(Ensure(s.messages, e, parent),
                                s.tools[Key(e, id) := t.(parent := parent, name := name, last := Seen(t.last, e.num))])
  {
  }

  function ArgsTool(t: Tool, e: OutputEvent): Tool
    requires e.body.ToolArgs?
  {
    if e.body.delta == "" then t else Extended(t, e.num, e.body.delta)
  }

  lemma ArgsExtend(s: State, e: OutputEvent, k: string, t: Tool)
    requires e.body.ToolArgs? && Trim(e.body.toolCallId) != "" && Key(e, Trim(e.body.toolCallId)) == k
    ensures Step(State(s.messages, s.tools[k := t]), e) == State(s.messages, s.tools[k := ArgsTool(t, e)])
  {
    assert s.tools[k := t][k := ArgsTool(t, e)] == s.tools[k := ArgsTool(t, e)];
  }

  lemma ArgsAreOp(t: Tool, e: OutputEvent, k: string)
    requires e.body.ToolArgs? && Trim(e.body.toolCallId) != "" && Key(e, Trim(e.body.toolCallId)) == k
    ensures var m := DoAndOpen(Log(true, t.args, t.last), ProjectionExact.ToolOp(e, k), true);
      ArgsTool(t, e) == t.(args := m.text, last := m.last)
  {
  }

  lemma BlockKey(b: seq<OutputEvent>, id: string, name: string, parent: string, i: nat)
    requires Block(b, id, name, parent) && i < |b|
    ensures Key(b[i], id) == CallKey(b, id)
  {
  }

  /** Halfway through a block the call is open with the deltas so far. */
  lemma {:induction false} OpenCall(s: State, b: seq<OutputEvent>, id: string, name: string, parent: string, n: nat)
    returns (last: nat)
    requires Block(b, id, name, parent) && Ordered(Ops(b, id)) && CallKey(b, id) !in s.tools && 1 <= n < |b|
    ensures var args := Deltas(Ops(b, id)[..n]);
      && Run(s, b[..n]) == State(Ensure(s.messages, b[0], parent),
                                 s.tools[CallKey(b, id) := Tool(id, parent, name, args, last)])
      && Behind(Log(true, args, last), Ops(b, id), n)
  {
    RunSnoc(s, b, n - 1);
    if n == 1 {
      StartIsFirst(s, b, id, name, parent);
      last := b[0].num;
    } else {
      var before := OpenCall(s, b, id, name, parent, n - 1);
      last := NextArgs(State(Ensure(s.messages, b[0], parent), s.tools), b, id, name, parent, n - 1, before);
    }
  }

  lemma StartIsFirst(s: State, b: seq<OutputEvent>, id: string, name: string, parent: string)
    requires Block(b, id, name, parent) && Ordered(Ops(b, id)) && CallKey(b, id) !in s.tools
    ensures var args := Deltas(Ops(b, id)[..1]);
      && args == ""
      && Run(s, b[..0]) == s
      && Step(s, b[0]) == State(Ensure(s.messages, b[0], parent),
                                s.tools[CallKey(b, id) := Tool(id, parent, name, args, b[0].num)])
      && Behind(Log(true, args, b[0].num), Ops(b, id), 1)
  {
    StartOp(b, id, name, parent);
    FirstOp(Ops(b, id));
    StartNames(s, b[0], id, name, parent, FreshTool(id));
  }

  lemma StartOp(b: seq<OutputEvent>, id: string, name: string, parent: string)
    requires Block(b, id, name, parent)
    ensures Ops(b, id)[0] == Bump(b[0].num)
  {
  }

  lemma FirstOp(ops: seq<Op>)
    requires |ops| > 0 && ops[0].Bump? && Ordered(ops)
    ensures Deltas(ops[..1]) == "" && Behind(Log(true, "", ops[0].num), ops, 1)
  {
    DeltasSnoc(ops, 0);
    assert ops[..0] == [];
  }

  lemma NextArgs(s: State, b: seq<OutputEvent>, id: string, name: string, parent: string, n: nat, before: nat)
    returns (last: nat)
    requires Block(b, id, name, parent) && Ordered(Ops(b, id)) && 1 <= n < |b| - 1
    requires Behind(Log(true, Deltas(Ops(b, id)[..n]), before), Ops(b, id), n)
    ensures var k, args, more := CallKey(b, id), Deltas(Ops(b, id)[..n]), Deltas(Ops(b, id)[..n + 1]);
      && Step(State(s.messages, s.tools[k := Tool(id, parent, name, args, before)]), b[n])
         == State(s.messages, s.tools[k := Tool(id, parent, name, more, last)])
      && Behind(Log(true, more, last), Ops(b, id), n + 1)
  {
    var ops, k := Ops(b, id), CallKey(b, id);
    var l := Log(true, Deltas(ops[..n]), before);
    BlockKey(b, id, name, parent, n);
    NextIsAdded(l, ops, n, true);
    ArgsExtend(s, b[n], k, Tool(id, parent, name, l.text, before));
    ArgsAreOp(Tool(id, parent, name, l.text, before), b[n], k);
    last := DoAndOpen(l, ops[n], true).last;
  }

  lemma EndOfBlock(s: State, b: seq<OutputEvent>, id: string, name: string, parent: string, t: Tool)
    requires Block(b, id, name, parent) && CallKey(b, id) !in s.tools
    requires t.id == id && t.parent == parent && t.name == name
    ensures Step(State(Ensure(s.messages, b[0], parent), s.tools[CallKey(b, id) := t]), b[|b| - 1])
         == State(WithCall(s.messages, b[0], parent, t), s.tools)
  {
    assert s.tools[CallKey(b, id) := t] - {CallKey(b, id)} == s.tools;
  }

  /** A whole block closes the call again and leaves it in its message with exactly its arguments. */
  lemma BlockMakesCall(s: State, b: seq<OutputEvent>, id: string, name: string, parent: string)
    requires Block(b, id, name, parent) && Ordered(Ops(b, id)) && CallKey(b, id) !in s.tools
    ensures Run(s, b) == State(WithCall(s.messages, b[0], parent, Tool(id, parent, name, Args(b, id), 0)), s.tools)
  {
    var n := |b| - 1;
    var last := OpenCall(s, b, id, name, parent, n);
    RunSnoc(s, b, n);
    assert b[..|b|] == b;
    EndOfBlock(s, b, id, name, parent, Tool(id, parent, name, Args(b, id), last));
  }

  /** The call is closed, and its message holds it with exactly the arguments of the block. */
  predicate Settled(s: State, b: seq<OutputEvent>, id: string, name: string, parent: string)
    requires b != []
  {
    && CallKey(b, id) !in s.tools && Key(b[0], parent) in s.messages
    && ToolCall(id, name, Args(b, id)) in s.messages[Key(b[0], parent)].toolCalls
  }

  /**
   * Whatever came in between, replaying the whole block of a closed call changes nothing if and only if it is
   * settled.
   */
  lemma ReplayIff(s: State, b: seq<OutputEvent>, id: string, name: string, parent: string)
    requires Block(b, id, name, parent) && Ordered(Ops(b, id)) && CallKey(b, id) !in s.tools
    requires ProjectionSafety.AllDistinct(s)
    ensures Run(s, b) == s <==> Settled(s, b, id, name, parent)
  {
    BlockMakesCall(s, b, id, name, parent);
    var k, t := Key(b[0], parent), WithCall(s.messages, b[0], parent, Tool(id, parent, name, Args(b, id), 0));
    assert k in t;
    if k in s.messages {
      var m := s.messages[k];
      ProjectionSafety.UpsertIsIdleIff(m.toolCalls, ToolCall(id, name, Args(b, id)));
      assert t == s.messages[k := m.(toolCalls := Upsert(m.toolCalls, ToolCall(id, name, Args(b, id))))];
      assert s.messages[k := m] == s.messages;
      assert t == s.messages ==> t[k] == m;
    }
  }

  /** A block settles its call. */
  lemma BlockSettles(s: State, b: seq<OutputEvent>, id: string, name: string, parent: string)
    requires Block(b, id, name, parent) && Ordered(Ops(b, id)) && CallKey(b, id) !in s.tools
    ensures Settled(Run(s, b), b, id, name, parent)
  {
    BlockMakesCall(s, b, id, name, parent);
    ProjectionSafety.UpsertMeans(Ensure(s.messages, b[0], parent)[Key(b[0], parent)].toolCalls,
                                 ToolCall(id, name, Args(b, id)));
  }

  /** The start and the end alone, after any block, store the call without arguments. */
  lemma StartAndEndAlone(s: State, b: seq<OutputEvent>, id: string, name: string, parent: string)
    requires Block(b, id, name, parent) && Ordered(Ops(b, id)) && CallKey(b, id) !in s.tools
    ensures Run(Run(s, b), [b[0], b[|b| - 1]])
         == State(WithCall(Run(s, b).messages, b[0], parent, Tool(id, parent, name, "", 0)), s.tools)
  {
    var d, e := Run(s, b), [b[0], b[|b| - 1]];
    BlockMakesCall(s, b, id, name, parent);
    RunTwo(d, e);
    StartNames(d, b[0], id, name, parent, FreshTool(id));
    EndOfBlock(d, b, id, name, parent, Tool(id, parent, name, "", b[0].num));
  }

  /** Replaying the whole block of a finished tool call changes nothing at all. */
  lemma WholeReplay(s: State, b: seq<OutputEvent>, id: string, name: string, parent: string)
    requires Block(b, id, name, parent) && Ordered(Ops(b, id)) && CallKey(b, id) !in s.tools
    ensures Run(Run(s, b), b) == Run(s, b)
  {
    BlockMakesCall(s, b, id, name, parent);
    BlockMakesCall(Run(s, b), b, id, name, parent);
    ProjectionSafety.CallTwice(s.messages, b[0], parent, Tool(id, parent, name, Args(b, id), 0));
  }

  /**
   * Replaying only part of it does harm: the state of a finished call is gone, so a second delta that comes
   * back ahead of the start makes the replayed first one look old, and the call is stored with the second alone.
   */
  lemma PartialReplay(s: State, b: seq<OutputEvent>, id: string, name: string, parent: string)
    requires Block(b, id, name, parent) && |b| == 4 && Ordered(Ops(b, id)) && CallKey(b, id) !in s.tools
    requires b[1].body.delta != "" && b[2].body.delta != ""
    ensures var t := Run(Run(s, b), [b[2], b[0], b[1], b[3]]);
      && Run(s, b).messages == WithCall(s.messages, b[0], parent,
                                        Tool(id, parent, name, b[1].body.delta + b[2].body.delta, 0))
      && t == State(WithCall(Run(s, b).messages, b[0], parent, Tool(id, parent, name, b[2].body.delta, 0)), s.tools)
  {
    var d, e := Run(s, b), [b[2], b[0], b[1], b[3]];
    BlockMakesCall(s, b, id, name, parent);
    BlockArgs(b, id, name, parent);
    RunFour(d, e);
    ReplayOpens(d, b, id, name, parent);
    EndOfBlock(d, b, id, name, parent, Tool(id, parent, name, b[2].body.delta, b[2].num));
  }

  lemma RunFour(s: State, e: seq<OutputEvent>)
    requires |e| == 4
    ensures Run(s, e) == Step(Step(Step(Step(s, e[0]), e[1]), e[2]), e[3])
  {
    RunTwo(s, e[..2]);
    assert e[..2][0] == e[0] && e[..2][1] == e[1];
    RunSnoc(s, e, 2);
    RunSnoc(s, e, 3);
    assert e[..4] == e;
  }

  lemma RunTwo(s: State, e: seq<OutputEvent>)
    requires |e| == 2
    ensures Run(s, e) == Step(Step(s, e[0]), e[1])
  {
    RunSnoc(s, e, 0);
    RunSnoc(s, e, 1);
    assert e[..2] == e && Run(s, e[..0]) == s;
  }

  lemma TwoDeltas(ops: seq<Op>)
    requires |ops| >= 3 && ops[0].Bump? && ops[1].Add? && ops[2].Add?
    ensures Deltas(ops[..3]) == ops[1].delta + ops[2].delta
  {
    assert ops[..0] == [];
    DeltasSnoc(ops, 0);
    DeltasSnoc(ops, 1);
    DeltasSnoc(ops, 2);
  }

  lemma ShortBlock(b: seq<OutputEvent>, id: string, name: string, parent: string)
    requires Block(b, id, name, parent) && |b| == 4 && b[1].body.delta != "" && b[2].body.delta != ""
    ensures Key(b[0], id) == Key(b[1], id) == Key(b[2], id) == CallKey(b, id)
    ensures Ops(b, id)[0] == Bump(b[0].num) && Ops(b, id)[1] == Add(b[1].num, b[1].body.delta)
    ensures Ops(b, id)[2] == Add(b[2].num, b[2].body.delta)
    ensures Ordered(Ops(b, id)) ==> 0 < b[0].num < b[1].num < b[2].num
  {
    StartOp(b, id, name, parent);
    PieceOp(b, id, name, parent, 1);
    PieceOp(b, id, name, parent, 2);
  }

  lemma PieceOp(b: seq<OutputEvent>, id: string, name: string, parent: string, i: nat)
    requires Block(b, id, name, parent) && 0 < i < |b| - 1 && b[i].body.delta != ""
    ensures Key(b[i], id) == CallKey(b, id) && Ops(b, id)[i] == Add(b[i].num, b[i].body.delta)
  {
    BlockKey(b, id, name, parent, i);
  }

  lemma BlockArgs(b: seq<OutputEvent>, id: string, name: string, parent: string)
    requires Block(b, id, name, parent) && |b| == 4 && b[1].body.delta != "" && b[2].body.delta != ""
    ensures Args(b, id) == b[1].body.delta + b[2].body.delta
  {
    ShortBlock(b, id, name, parent);
    TwoDeltas(Ops(b, id));
  }

  lemma ArgsOpen(d: State, e: OutputEvent, id: string)
    requires e.body.ToolArgs? && Trim(e.body.toolCallId) == id != "" && e.body.delta != "" && e.num > 0
    requires Key(e, id) !in d.tools
    ensures Step(d, e) == State(d.messages, d.tools[Key(e, id) := Tool(id, id, "", e.body.delta, e.num)])
  {
    assert "" + e.body.delta == e.body.delta;
  }

  lemma ReplayOpens(d: State, b: seq<OutputEvent>, id: string, name: string, parent: string)
    requires Block(b, id, name, parent) && |b| == 4 && Ordered(Ops(b, id)) && CallKey(b, id) !in d.tools
    requires b[1].body.delta != "" && b[2].body.delta != ""
    ensures Step(Step(Step(d, b[2]), b[0]), b[1])
      == State(Ensure(d.messages, b[0], parent), d.tools[CallKey(b, id) := Tool(id, parent, name,
                                                                                b[2].body.delta, b[2].num)])
  {
    var t := Tool(id, id, "", b[2].body.delta, b[2].num);
    ShortBlock(b, id, name, parent);
    ArgsOpen(d, b[2], id);
    NameOpen(d, b[0], id, name, parent, t);
    var t2 := t.(parent := parent, name := name);
    ArgsExtend(State(Ensure(d.messages, b[0], parent), d.tools), b[1], CallKey(b, id), t2);
  }

  lemma NameOpen(d: State, e: OutputEvent, id: string, name: string, parent: string, t: Tool)
    requires StartsWith(e, id, name, parent) && id != "" && name != "" && e.num <= t.last
    ensures Step(State(d.messages, d.tools[Key(e, id) := t]), e)
         == State(Ensure(d.messages, e, parent), d.tools[Key(e, id) := t.(parent := parent, name := name)])
  {
    var k, t2 := Key(e, id), t.(parent := parent, name := name);
    StartNames(State(d.messages, d.tools[k := t]), e, id, name, parent, t);
    assert d.tools[k := t][k := t2] == d.tools[k := t2];
  }
}
