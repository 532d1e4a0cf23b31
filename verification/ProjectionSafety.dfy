/** What every event keeps: text only grows, ids stay distinct, and immediate repetition is harmless. */
module ProjectionSafety {
  import opened Text
  import opened Projection

  /** The message as it was, or a new one without text and calls. */
  function Before(s: State, e: OutputEvent, id: string): Message {
    if Key(e, id) in s.messages then s.messages[Key(e, id)] else FreshMessage(e, id)
  }

  /** How an event changes the one message it concerns: text may be added, and one tool call be put in. */
  ghost predicate Evolves(m: Message, n: Message) {
    m.text <= n.text && (n.toolCalls == m.toolCalls || exists call :: n.toolCalls == Upsert(m.toolCalls, call))
  }

  ghost predicate OnlyMessage(s: State, e: OutputEvent, t: map<string, Message>, id: string) {
    || t == s.messages
    || (Key(e, id) in t && t == s.messages[Key(e, id) := t[Key(e, id)]] && Evolves(Before(s, e, id), t[Key(e, id)]))
  }

  lemma CallEvolves(s: State, e: OutputEvent, id: string, t: Tool)
    ensures OnlyMessage(s, e, WithCall(s.messages, e, id, t), id)
  {
    var call := ToolCall(t.id, t.name, t.args);
    assert WithCall(s.messages, e, id, t)[Key(e, id)].toolCalls == Upsert(Before(s, e, id).toolCalls, call);
  }

  lemma EnsureEvolves(s: State, e: OutputEvent, id: string)
    ensures OnlyMessage(s, e, Ensure(s.messages, e, id), id)
  {
  }

  lemma TextTouches(s: State, e: OutputEvent, id: string)
    requires match e.body
      case TextStart(m, _) => id == Trim(m) case TextContent(m, _) => id == Trim(m) case TextEnd(m) => id == Trim(m)
      case _ => false
    ensures OnlyMessage(s, e, Step(s, e).messages, id)
  {
    match e.body
    case TextStart(_, _) => StartTouches(s, e, id);
    case TextContent(_, _) => ContentTouches(s, e, id);
    case TextEnd(_) => EndTouches(s, e, id);
  }

  lemma StartTouches(s: State, e: OutputEvent, id: string)
    requires e.body.TextStart? && id == Trim(e.body.messageId)
    ensures OnlyMessage(s, e, Step(s, e).messages, id)
  {
  }

  lemma ContentTouches(s: State, e: OutputEvent, id: string)
    requires e.body.TextContent? && id == Trim(e.body.messageId)
    ensures OnlyMessage(s, e, Step(s, e).messages, id)
  {
  }

  lemma EndTouches(s: State, e: OutputEvent, id: string)
    requires e.body.TextEnd? && id == Trim(e.body.messageId)
    ensures OnlyMessage(s, e, Step(s, e).messages, id)
  {
  }

  lemma ToolTouches(s: State, e: OutputEvent) returns (id: string)
    requires e.body.ToolStart? || e.body.ToolEnd? || e.body.ToolChunk?
    ensures OnlyMessage(s, e, Step(s, e).messages, id)
  {
    var toolId := Trim(e.body.toolCallId);
    if e.body.ToolStart? {
      id := if Trim(e.body.parent) == "" then toolId else Trim(e.body.parent);
      EnsureEvolves(s, e, id);
    } else {
      var t := ToolFor(s.tools, e, toolId);
      if e.body.ToolChunk? {
        t := ChunkTool(t, Trim(e.body.name), Trim(e.body.parent), e.num, e.body.delta);
        id := t.parent;
      } else {
        id := ParentOf(t);
      }
      CallEvolves(s, e, id, t);
    }
  }

  /** An event concerns one message at most. */
  lemma StepTouches(s: State, e: OutputEvent) returns (id: string)
    ensures OnlyMessage(s, e, Step(s, e).messages, id)
  {
    match e.body
    case TextStart(m, _) => id := Trim(m); TextTouches(s, e, id);
    case TextContent(m, _) => id := Trim(m); TextTouches(s, e, id);
    case TextEnd(m) => id := Trim(m); TextTouches(s, e, id);
    case ToolArgs(m, _) => id := "";
    case ToolResult(_, _, _) => id := "";
    case OtherBody => id := "";
    case _ => id := ToolTouches(s, e);
  }

  // ---- Text only grows ----

  /** No event takes text away; no stream assumption is made. */
  lemma StepGrows(s: State, e: OutputEvent, k: string)
    requires k in s.messages
    ensures k in Step(s, e).messages && s.messages[k].text <= Step(s, e).messages[k].text
  {
    var id := StepTouches(s, e);
  }

  lemma {:induction false} TextOnlyGrows(s: State, events: seq<OutputEvent>, k: string)
    requires k in s.messages
    ensures k in Run(s, events).messages && s.messages[k].text <= Run(s, events).messages[k].text
    decreases |events|
  {
    if events == [] {
    } else {
      TextOnlyGrows(s, events[..|events| - 1], k);
      StepGrows(Run(s, events[..|events| - 1]), events[|events| - 1], k);
    }
  }

  // ---- Tool calls of a message ----

  ghost predicate Distinct(calls: seq<ToolCall>) {
    forall i, j :: 0 <= i < j < |calls| ==> calls[i].id != calls[j].id
  }

  /** Upsert puts the call in its place, or at the end, and leaves every other call where it is. */
  lemma {:induction false} UpsertMeans(calls: seq<ToolCall>, call: ToolCall)
    ensures var r := Upsert(calls, call);
      && |calls| <= |r| <= |calls| + 1 && call in r
      && (forall i :: 0 <= i < |calls| ==> r[i].id == calls[i].id && (r[i] == calls[i] || r[i] == call))
      && (|r| > |calls| <==> forall i :: 0 <= i < |calls| ==> calls[i].id != call.id)
      && (|r| > |calls| ==> r == calls + [call])
  {
    if calls == [] || calls[0].id == call.id {
    } else {
      UpsertMeans(calls[1..], call);
    }
  }

  lemma {:induction false} UpsertTwice(calls: seq<ToolCall>, call: ToolCall)
    ensures Upsert(Upsert(calls, call), call) == Upsert(calls, call)
  {
    if calls == [] || calls[0].id == call.id {
    } else {
      UpsertTwice(calls[1..], call);
      assert Upsert(calls, call)[1..] == Upsert(calls[1..], call);
    }
  }

  /** Among distinct calls, putting one in changes nothing exactly when it is there as it stands. */
  lemma {:induction false} UpsertIsIdleIff(calls: seq<ToolCall>, call: ToolCall)
    requires Distinct(calls)
    ensures Upsert(calls, call) == calls <==> call in calls
  {
    if calls == [] {
    } else if calls[0].id == call.id {
      assert Upsert(calls, call)[0] == call;
      if calls[0] == call { assert Upsert(calls, call) == calls; }
    } else {
      UpsertIsIdleIff(calls[1..], call);
      assert calls == [calls[0]] + calls[1..];
      assert Upsert(calls, call)[1..] == Upsert(calls[1..], call);
    }
  }

  lemma UpsertKeepsDistinct(calls: seq<ToolCall>, call: ToolCall)
    requires Distinct(calls)
    ensures Distinct(Upsert(calls, call))
  {
    UpsertMeans(calls, call);
  }

  ghost predicate AllDistinct(s: State) {
    forall k :: k in s.messages ==> Distinct(s.messages[k].toolCalls)
  }

  lemma StepKeepsDistinct(s: State, e: OutputEvent)
    requires AllDistinct(s)
    ensures AllDistinct(Step(s, e))
  {
    var id := StepTouches(s, e);
    var m := Before(s, e, id);
    forall call ensures Distinct(Upsert(m.toolCalls, call)) { UpsertKeepsDistinct(m.toolCalls, call); }
  }

  /** Whatever is delivered, no message ever holds two tool calls of one id. */
  lemma {:induction false} CallIdsStayDistinct(s: State, events: seq<OutputEvent>)
    requires AllDistinct(s)
    ensures AllDistinct(Run(s, events))
    decreases |events|
  {
    if events == [] {
    } else {
      CallIdsStayDistinct(s, events[..|events| - 1]);
      StepKeepsDistinct(Run(s, events[..|events| - 1]), events[|events| - 1]);
    }
  }

  // ---- The same event twice in a row ----

  lemma CallTwice(messages: map<string, Message>, e: OutputEvent, id: string, t: Tool)
    ensures WithCall(WithCall(messages, e, id, t), e, id, t) == WithCall(messages, e, id, t)
  {
    UpsertTwice(Ensure(messages, e, id)[Key(e, id)].toolCalls, ToolCall(t.id, t.name, t.args));
  }

  lemma ChunkTwice(s: State, e: OutputEvent)
    requires e.body.ToolChunk?
    ensures Step(Step(s, e), e) == Step(s, e)
  {
    var t, id := Step(s, e), Trim(e.body.toolCallId);
    if id != "" {
      var tool := t.tools[Key(e, id)];
      assert ChunkTool(tool, Trim(e.body.name), Trim(e.body.parent), e.num, e.body.delta) == tool;
      CallTwice(s.messages, e, tool.parent, tool);
    }
  }

  lemma ToolEventTwice(s: State, e: OutputEvent)
    requires e.body.ToolStart? || e.body.ToolArgs? || e.body.ToolEnd?
    ensures Step(Step(s, e), e) == Step(s, e)
  {
    match e.body
    case ToolStart(_, _, _) => ToolStartTwice(s, e);
    case ToolArgs(_, _) => ToolArgsTwice(s, e);
    case ToolEnd(_) =>
  }

  lemma ToolStartTwice(s: State, e: OutputEvent)
    requires e.body.ToolStart?
    ensures Step(Step(s, e), e) == Step(s, e)
  {
  }

  lemma ToolArgsTwice(s: State, e: OutputEvent)
    requires e.body.ToolArgs?
    ensures Step(Step(s, e), e) == Step(s, e)
  {
  }

  lemma TextEventTwice(s: State, e: OutputEvent)
    requires e.body.TextStart? || e.body.TextContent? || e.body.TextEnd?
    ensures Step(Step(s, e), e) == Step(s, e)
  {
    match e.body
    case TextStart(_, _) => StartTwice(s, e);
    case TextContent(_, _) => ContentTwice(s, e);
    case TextEnd(_) =>
  }

  lemma StartTwice(s: State, e: OutputEvent)
    requires e.body.TextStart?
    ensures Step(Step(s, e), e) == Step(s, e)
  {
  }

  lemma ContentTwice(s: State, e: OutputEvent)
    requires e.body.TextContent?
    ensures Step(Step(s, e), e) == Step(s, e)
  {
  }

  /** Delivering any event again at once changes nothing, in any state. */
  lemma ImmediateRedelivery(s: State, e: OutputEvent)
    ensures Step(Step(s, e), e) == Step(s, e)
  {
    if e.body.ToolChunk? {
      ChunkTwice(s, e);
    } else if e.body.ToolStart? || e.body.ToolArgs? || e.body.ToolEnd? {
      ToolEventTwice(s, e);
    } else if e.body.TextStart? || e.body.TextContent? || e.body.TextEnd? {
      TextEventTwice(s, e);
    }
  }

  // ---- A chunk that comes again later ----

  /** The message under this key has this call as it stands. */
  predicate HoldsCall(messages: map<string, Message>, k: string, call: ToolCall) {
    k in messages && call in messages[k].toolCalls
  }

  /** The chunk says nothing new: an old or empty delta for an open call under its recorded name and parent. */
  predicate SaysNothingNew(s: State, e: OutputEvent)
    requires e.body.ToolChunk?
  {
    var k := Key(e, Trim(e.body.toolCallId));
    && k in s.tools
    && (e.body.delta == "" || e.num <= s.tools[k].last)
    && (Trim(e.body.name) == "" || Trim(e.body.name) == s.tools[k].name)
    && (Trim(e.body.parent) == "" || Trim(e.body.parent) == s.tools[k].parent)
  }

  lemma ChunkKeepsToolsIff(s: State, e: OutputEvent)
    requires e.body.ToolChunk? && Trim(e.body.toolCallId) != ""
    ensures Step(s, e).tools == s.tools <==> SaysNothingNew(s, e)
  {
    var k := Key(e, Trim(e.body.toolCallId));
    var t := ToolFor(s.tools, e, Trim(e.body.toolCallId));
    var u := ChunkTool(t, Trim(e.body.name), Trim(e.body.parent), e.num, e.body.delta);
    assert Step(s, e).tools == s.tools[k := u];
    assert s.tools[k := u][k] == u;
    if k in s.tools && u == t { assert s.tools[k := u] == s.tools; }
    ChunkSaysNothingIff(t, Trim(e.body.name), Trim(e.body.parent), e.num, e.body.delta);
  }

  lemma ChunkSaysNothingIff(t: Tool, name: string, parent: string, num: nat, delta: string)
    ensures ChunkTool(t, name, parent, num, delta) == t <==>
      (delta == "" || num <= t.last) && (name == "" || name == t.name) && (parent == "" || parent == t.parent)
  {
  }

  lemma WithCallIsIdleIff(messages: map<string, Message>, e: OutputEvent, t: Tool)
    requires forall k :: k in messages ==> Distinct(messages[k].toolCalls)
    ensures WithCall(messages, e, t.parent, t) == messages <==>
      HoldsCall(messages, Key(e, t.parent), ToolCall(t.id, t.name, t.args))
  {
    var k, call, r := Key(e, t.parent), ToolCall(t.id, t.name, t.args), WithCall(messages, e, t.parent, t);
    assert k in r;
    if k in messages {
      var m := messages[k];
      UpsertIsIdleIff(m.toolCalls, call);
      assert r == messages[k := m.(toolCalls := Upsert(m.toolCalls, call))];
      assert messages[k := m] == messages;
    }
  }

  /**
   * A chunk changes nothing if and only if it is for no call, or says nothing new about a call that is open and,
   * once it has a name, stands in its message as it is.
   */
  lemma ChunkIsIgnoredIff(s: State, e: OutputEvent)
    requires e.body.ToolChunk? && AllDistinct(s)
    ensures Step(s, e) == s <==>
      || Trim(e.body.toolCallId) == ""
      || (&& SaysNothingNew(s, e)
          && var t := s.tools[Key(e, Trim(e.body.toolCallId))];
          t.name == "" || HoldsCall(s.messages, Key(e, t.parent), ToolCall(t.id, t.name, t.args)))
  {
    if Trim(e.body.toolCallId) != "" {
      ChunkKeepsToolsIff(s, e);
      if SaysNothingNew(s, e) {
        var t := s.tools[Key(e, Trim(e.body.toolCallId))];
        ChunkSaysNothingIff(t, Trim(e.body.name), Trim(e.body.parent), e.num, e.body.delta);
        WithCallIsIdleIff(s.messages, e, t);
      }
    }
  }
}
