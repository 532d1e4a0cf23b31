/**
 * The projector as it runs: one object per message and per open tool call, updated in place. Every method is
 * proved against the pure step of module Projection, so everything proved there holds of this class.
 */
module Projector {
  import opened Wrappers
  import opened Text
  import opened Projection

  class TextMessage {
    var sessionId: string
    var runId: string
    var messageId: string
    var role: string
    var text: string
    var toolCalls: seq<ToolCall>
    var first: int
    var last: nat

    constructor (e: OutputEvent, messageId: string, role: string, last: nat)
      ensures Value() == FreshMessage(e, messageId).(role := role, last := last)
    {
      this.sessionId, this.runId, this.messageId, this.role := e.sessionId, e.runId, messageId, role;
      text, toolCalls, first, this.last := "", [], ToInt64(e.num), last;
    }

    function Value(): Message
      reads this
    {
      Message(sessionId, runId, messageId, role, text, toolCalls, first, last)
    }

    method Restart(e: OutputEvent, messageId: string, role: string)
      modifies this
      ensures Value() == Started(Some(old(Value())), e, messageId, role)
    {
      this.sessionId, this.runId, this.messageId, this.role := e.sessionId, e.runId, messageId, role;
      if first == 0 || ToInt64(e.num) < first { first := ToInt64(e.num); }
      if e.num > last { last := e.num; }
    }

    method Append(num: nat, delta: string)
      modifies this
      ensures Value() == Appended(old(Value()), num, delta)
    {
      if num > last {
        text := text + delta;
        last := num;
      }
    }

    /** upsertAGUIToolCall: overwrite the call with this id where it stands, or append it. */
    method Put(call: ToolCall)
      modifies this
      ensures Value() == old(Value()).(toolCalls := Upsert(old(toolCalls), call))
    {
      var i := 0;
      while i < |toolCalls|
        invariant 0 <= i <= |toolCalls| && Value() == old(Value())
        invariant Upsert(toolCalls, call) == toolCalls[..i] + Upsert(toolCalls[i..], call)
      {
        if toolCalls[i].id == call.id {
          assert toolCalls[i := call] == toolCalls[..i] + ([call] + toolCalls[i..][1..]);
          toolCalls := toolCalls[i := call];
          return;
        }
        assert toolCalls[..i + 1] == toolCalls[..i] + [toolCalls[i]] && toolCalls[i..][1..] == toolCalls[i + 1..];
        i := i + 1;
      }
      toolCalls := toolCalls + [call];
    }
  }

  class ToolCallState {
    const toolCallId: string
    var parent: string
    var name: string
    var args: string
    var last: nat

    constructor (toolCallId: string)
      ensures Value() == FreshTool(toolCallId)
    {
      this.toolCallId, parent, name, args, last := toolCallId, toolCallId, "", "", 0;
    }

    function Value(): Tool
      reads this
    {
      Tool(toolCallId, parent, name, args, last)
    }

    method Name(name: string, parent: string, num: nat)
      modifies this
      ensures Value() == old(Value()).(parent := parent, name := name, last := Seen(old(last), num))
    {
      this.parent, this.name := parent, name;
      if num > last { last := num; }
    }

    method Extend(num: nat, delta: string)
      modifies this
      ensures Value() == Extended(old(Value()), num, delta)
    {
      if num > last {
        args := args + delta;
        last := num;
      }
    }

    method Chunk(name: string, parent: string, num: nat, delta: string)
      modifies this
      ensures Value() == ChunkTool(old(Value()), name, parent, num, delta)
    {
      if parent != "" { this.parent := parent; }
      if name != "" { this.name := name; }
      if delta != "" && num > last {
        args := args + delta;
        last := num;
      }
    }
  }

  /** A chunk, spelled out. */
  lemma ChunkStep(s: State, e: OutputEvent, id: string, t: Tool)
    requires e.body.ToolChunk? && id == Trim(e.body.toolCallId) && id != ""
    requires t == ChunkTool(ToolFor(s.tools, e, id), Trim(e.body.name), Trim(e.body.parent), e.num, e.body.delta)
    ensures Step(s, e) == State(if t.name == "" then s.messages else WithCall(s.messages, e, t.parent, t),
                                s.tools[Key(e, id) := t])
    ensures t.name == "" ==> Emit(s, e) == None
    ensures t.name != "" ==> Emit(s, e) == Build(WithCall(s.messages, e, t.parent, t)[Key(e, t.parent)])
  {
    var key := Key(e, id);
    assert s.tools[key := t] == Step(s, e).tools;
  }

  lemma PutTwice<T>(m: map<string, T>, k: string, x: T, y: T)
    ensures m[k := x][k := y] == m[k := y]
  {
  }

  class Projector {
    var messages: map<string, TextMessage>
    var tools: map<string, ToolCallState>

    constructor ()
      ensures Valid() && View() == State(map[], map[])
    {
      messages, tools := map[], map[];
    }

    /** No two keys share an object. */
    ghost predicate Valid()
      reads this
    {
      && (forall j, k :: j in messages && k in messages && messages[j] == messages[k] ==> j == k)
      && (forall j, k :: j in tools && k in tools && tools[j] == tools[k] ==> j == k)
    }

    ghost function Messages(): map<string, Message>
      reads this`messages, messages.Values
    {
      map k | k in messages :: messages[k].Value()
    }

    ghost function Tools(): map<string, Tool>
      reads this`tools, tools.Values
    {
      map k | k in tools :: tools[k].Value()
    }

    ghost function View(): State
      reads this, messages.Values, tools.Values
    {
      State(Messages(), Tools())
    }

    /** Every message object is one from before, or new. */
    twostate predicate MessagesGrown()
      reads this`messages
    {
      forall k :: k in messages ==> (k in old(messages) && messages[k] == old(messages[k])) || fresh(messages[k])
    }

    twostate predicate ToolsGrown()
      reads this`tools
    {
      forall k :: k in tools ==> (k in old(tools) && tools[k] == old(tools[k])) || fresh(tools[k])
    }

    /** Only the object under key has changed. */
    twostate lemma OneMessageChanged(key: string)
      requires old(Valid()) && messages == old(messages) && key in messages
      requires forall k :: k in messages && k != key ==> unchanged(messages[k])
      ensures Messages() == old(Messages())[key := messages[key].Value()]
    {
    }

    twostate lemma OneToolChanged(key: string)
      requires old(Valid()) && tools == old(tools) && key in tools
      requires forall k :: k in tools && k != key ==> unchanged(tools[k])
      ensures Tools() == old(Tools())[key := tools[key].Value()]
    {
    }

    method EnsureMessage(e: OutputEvent, id: string) returns (m: TextMessage)
      requires Valid()
      modifies this`messages
      ensures Valid() && MessagesGrown()
      ensures Messages() == Ensure(old(Messages()), e, id)
      ensures Key(e, id) in messages && messages[Key(e, id)] == m
    {
      var key := Key(e, id);
      if key in messages { return messages[key]; }
      m := new TextMessage(e, id, ASSISTANT, 0);
      messages := messages[key := m];
    }

    method EnsureToolCall(e: OutputEvent, id: string) returns (t: ToolCallState)
      requires Valid()
      modifies this`tools
      ensures Valid() && ToolsGrown()
      ensures Tools() == old(Tools())[Key(e, id) := ToolFor(old(Tools()), e, id)]
      ensures Key(e, id) in tools && tools[Key(e, id)] == t && t.Value() == ToolFor(old(Tools()), e, id)
    {
      var key := Key(e, id);
      if key in tools { return tools[key]; }
      t := new ToolCallState(id);
      tools := tools[key := t];
    }

    /** Nothing has happened to the tool calls. */
    twostate lemma ToolsKept()
      requires tools == old(tools) && forall k :: k in tools ==> unchanged(tools[k])
      ensures Tools() == old(Tools())
    {
    }

    twostate lemma MessagesKept()
      requires messages == old(messages) && forall k :: k in messages ==> unchanged(messages[k])
      ensures Messages() == old(Messages())
    {
    }

    method Restart(e: OutputEvent, id: string, role: string)
      requires Valid()
      modifies this`messages, messages.Values
      ensures Valid() && MessagesGrown() && Tools() == old(Tools())
      ensures Messages() == old(Messages())[Key(e, id) := Started(Find(old(Messages()), Key(e, id)), e, id, role)]
    {
      var key := Key(e, id);
      if key in messages {
        messages[key].Restart(e, id, role);
        OneMessageChanged(key);
      } else {
        var m := new TextMessage(e, id, role, e.num);
        messages := messages[key := m];
      }
      ToolsKept();
    }

    method Start(e: OutputEvent, messageId: string, role: string)
      requires Valid() && e.body.TextStart? && messageId == Trim(e.body.messageId) && role == Trim(e.body.role)
      modifies this`messages, messages.Values
      ensures Valid() && MessagesGrown() && View() == Step(old(View()), e)
    {
      if messageId == "" { return; }
      Restart(e, messageId, if role == "" then ASSISTANT else role);
    }

    method AppendTo(e: OutputEvent, id: string, delta: string) returns (m: TextMessage)
      requires Valid()
      modifies this`messages, messages.Values
      ensures Valid() && MessagesGrown() && Tools() == old(Tools())
      ensures Key(e, id) in messages && messages[Key(e, id)] == m
      ensures var known := Ensure(old(Messages()), e, id);
        Messages() == known[Key(e, id) := Appended(known[Key(e, id)], e.num, delta)]
    {
      m := EnsureMessage(e, id);
      label Known:
      m.Append(e.num, delta);
      OneMessageChanged@Known(Key(e, id));
      ToolsKept();
    }

    method Append(e: OutputEvent, messageId: string, delta: string) returns (out: Option<TurnMessage>)
      requires Valid() && e.body.TextContent? && messageId == Trim(e.body.messageId) && delta == e.body.delta
      modifies this`messages, messages.Values
      ensures Valid() && MessagesGrown() && View() == Step(old(View()), e) && out == Emit(old(View()), e)
    {
      if messageId == "" || delta == "" { return None; }
      var m := AppendTo(e, messageId, delta);
      out := Build(m.Value());
    }

    method End(e: OutputEvent, messageId: string) returns (out: Option<TurnMessage>)
      requires Valid() && e.body.TextEnd? && messageId == Trim(e.body.messageId)
      modifies messages.Values
      ensures Valid() && View() == Step(old(View()), e) && out == Emit(old(View()), e)
    {
      var key := Key(e, messageId);
      if messageId == "" || key !in messages { return None; }
      var m := messages[key];
      m.last := e.num;
      OneMessageChanged(key);
      ToolsKept();
      out := Build(m.Value());
    }

    method NameAt(key: string, name: string, parent: string, num: nat)
      requires Valid() && key in tools
      modifies tools[key]
      ensures Messages() == old(Messages())
      ensures var t := old(Tools())[key];
        Tools() == old(Tools())[key := t.(parent := parent, name := name, last := Seen(t.last, num))]
    {
      tools[key].Name(name, parent, num);
      OneToolChanged(key);
      MessagesKept();
    }

    method NameCall(e: OutputEvent, id: string, name: string, parent: string)
      requires Valid()
      modifies this`tools, tools.Values
      ensures Valid() && ToolsGrown() && Messages() == old(Messages())
      ensures var t := ToolFor(old(Tools()), e, id);
        Tools() == old(Tools())[Key(e, id) := t.(parent := parent, name := name, last := Seen(t.last, e.num))]
    {
      var t := EnsureToolCall(e, id);
      ghost var tool := t.Value();
      NameAt(Key(e, id), name, parent, e.num);
      PutTwice(old(Tools()), Key(e, id), tool,
               tool.(parent := parent, name := name, last := Seen(tool.last, e.num)));
    }

    method ToolCallStart(e: OutputEvent, id: string, name: string, parentId: string)
      requires Valid() && e.body.ToolStart?
      requires id == Trim(e.body.toolCallId) && name == Trim(e.body.name) && parentId == Trim(e.body.parent)
      modifies this`messages, this`tools, tools.Values
      ensures Valid() && MessagesGrown() && ToolsGrown() && View() == Step(old(View()), e)
    {
      if id == "" || name == "" { return; }
      var parent := if parentId == "" then id else parentId;
      NameCall(e, id, name, parent);
      label Named:
      var m := EnsureMessage(e, parent);
      ToolsKept@Named();
    }

    method ExtendAt(key: string, num: nat, delta: string)
      requires Valid() && key in tools
      modifies tools[key]
      ensures Tools() == old(Tools())[key := Extended(old(Tools())[key], num, delta)] && Messages() == old(Messages())
    {
      tools[key].Extend(num, delta);
      OneToolChanged(key);
      MessagesKept();
    }

    method ExtendCall(e: OutputEvent, id: string, delta: string)
      requires Valid()
      modifies this`tools, tools.Values
      ensures Valid() && ToolsGrown() && Messages() == old(Messages())
      ensures Tools() == old(Tools())[Key(e, id) := Extended(ToolFor(old(Tools()), e, id), e.num, delta)]
    {
      var t := EnsureToolCall(e, id);
      ghost var tool := t.Value();
      ExtendAt(Key(e, id), e.num, delta);
      PutTwice(old(Tools()), Key(e, id), tool, Extended(tool, e.num, delta));
    }

    method ToolCallArgs(e: OutputEvent, id: string, delta: string)
      requires Valid() && e.body.ToolArgs? && id == Trim(e.body.toolCallId) && delta == e.body.delta
      modifies this`tools, tools.Values
      ensures Valid() && ToolsGrown() && View() == Step(old(View()), e)
    {
      if id == "" || delta == "" { return; }
      ExtendCall(e, id, delta);
    }

    /** The parent message takes the tool call as it stands. */
    method PutCall(e: OutputEvent, id: string, t: Tool) returns (m: TextMessage)
      requires Valid()
      modifies this`messages, messages.Values
      ensures Valid() && MessagesGrown() && Tools() == old(Tools())
      ensures Key(e, id) in messages && messages[Key(e, id)] == m
      ensures Messages() == WithCall(old(Messages()), e, id, t)
    {
      m := EnsureMessage(e, id);
      label Known:
      m.Put(ToolCall(t.id, t.name, t.args));
      OneMessageChanged@Known(Key(e, id));
      ToolsKept();
    }

    method CloseCall(key: string) returns (t: Tool)
      requires Valid() && key in tools
      modifies this`tools
      ensures Valid() && ToolsGrown() && Messages() == old(Messages())
      ensures t == old(Tools())[key] && Tools() == old(Tools()) - {key}
    {
      t := tools[key].Value();
      tools := tools - {key};
      MessagesKept();
    }

    method ToolCallEnd(e: OutputEvent, id: string) returns (out: Option<TurnMessage>)
      requires Valid() && e.body.ToolEnd? && id == Trim(e.body.toolCallId)
      modifies this, messages.Values
      ensures Valid() && MessagesGrown() && ToolsGrown()
      ensures View() == Step(old(View()), e) && out == Emit(old(View()), e)
    {
      var key := Key(e, id);
      if id == "" || key !in tools || tools[key].name == "" { return None; }
      var t := CloseCall(key);
      var m := PutCall(e, ParentOf(t), t);
      out := Build(m.Value());
    }

    method ChunkAt(key: string, name: string, parent: string, num: nat, delta: string)
      requires Valid() && key in tools
      modifies tools[key]
      ensures Tools() == old(Tools())[key := ChunkTool(old(Tools())[key], name, parent, num, delta)]
      ensures Messages() == old(Messages())
    {
      tools[key].Chunk(name, parent, num, delta);
      OneToolChanged(key);
      MessagesKept();
    }

    method CallChunk(e: OutputEvent, id: string, name: string, parent: string, delta: string)
      requires Valid()
      modifies this`tools, tools.Values
      ensures Valid() && ToolsGrown() && Messages() == old(Messages())
      ensures Key(e, id) in tools
      ensures Tools() == old(Tools())[Key(e, id) := ChunkTool(ToolFor(old(Tools()), e, id), name, parent, e.num, delta)]
    {
      var t := EnsureToolCall(e, id);
      ghost var tool := t.Value();
      ChunkAt(Key(e, id), name, parent, e.num, delta);
      PutTwice(old(Tools()), Key(e, id), tool, ChunkTool(tool, name, parent, e.num, delta));
    }

    method ToolCallChunk(e: OutputEvent, id: string, name: string, parentId: string, delta: string)
      returns (out: Option<TurnMessage>)
      requires Valid() && e.body.ToolChunk? && delta == e.body.delta
      requires id == Trim(e.body.toolCallId) && name == Trim(e.body.name) && parentId == Trim(e.body.parent)
      modifies this, messages.Values, tools.Values
      ensures Valid() && MessagesGrown() && ToolsGrown()
      ensures View() == Step(old(View()), e) && out == Emit(old(View()), e)
    {
      if id == "" { return None; }
      CallChunk(e, id, name, parentId, delta);
      var t := tools[Key(e, id)];
      assert t.Value() == Tools()[Key(e, id)];
      ChunkStep(old(View()), e, id, t.Value());
      if t.name == "" { return None; }
      var m := PutCall(e, t.parent, t.Value());
      out := Build(m.Value());
    }

    /** Apply: dispatch on the type of the event, with its ids trimmed. */
    method Apply(e: OutputEvent) returns (out: Option<TurnMessage>)
      requires Valid()
      modifies this, messages.Values, tools.Values
      ensures Valid() && MessagesGrown() && ToolsGrown()
      ensures View() == Step(old(View()), e) && out == Emit(old(View()), e)
    {
      out := None;
      match e.body
      case TextStart(messageId, role) => Start(e, Trim(messageId), Trim(role));
      case TextContent(messageId, delta) => out := Append(e, Trim(messageId), delta);
      case TextEnd(messageId) => out := End(e, Trim(messageId));
      case ToolStart(toolCallId, name, parent) => ToolCallStart(e, Trim(toolCallId), Trim(name), Trim(parent));
      case ToolArgs(toolCallId, delta) => ToolCallArgs(e, Trim(toolCallId), delta);
      case ToolEnd(toolCallId) => out := ToolCallEnd(e, Trim(toolCallId));
      case ToolChunk(toolCallId, name, parent, delta) =>
        out := ToolCallChunk(e, Trim(toolCallId), Trim(name), Trim(parent), delta);
      case ToolResult(messageId, toolCallId, content) =>
        out := ResultTurn(e, Trim(messageId), Trim(toolCallId), content);
      case OtherBody =>
    }

    method ClearMessages(prefix: string)
      requires Valid()
      modifies this`messages
      ensures Valid() && Messages() == map k | k in old(Messages()) && !(prefix <= k) :: old(Messages())[k]
    {
      var left := messages.Keys;
      while left != {}
        invariant left <= old(messages).Keys
        invariant messages == map k | k in old(messages) && (k in left || !(prefix <= k)) :: old(messages)[k]
      {
        var key :| key in left;
        if prefix <= key { messages := messages - {key}; }
        left := left - {key};
      }
    }

    method ClearTools(prefix: string)
      requires Valid()
      modifies this`tools
      ensures Valid() && Tools() == map k | k in old(Tools()) && !(prefix <= k) :: old(Tools())[k]
    {
      var left := tools.Keys;
      while left != {}
        invariant left <= old(tools).Keys
        invariant tools == map k | k in old(tools) && (k in left || !(prefix <= k)) :: old(tools)[k]
      {
        var key :| key in left;
        if prefix <= key { tools := tools - {key}; }
        left := left - {key};
      }
    }

    /** clearRun: delete key after key; a blank run id clears nothing. */
    method Clear(sessionId: string, runId: string)
      requires Valid()
      modifies this
      ensures Valid() && View() == ClearRun(old(View()), sessionId, runId)
    {
      if Trim(runId) == "" { return; }
      ClearMessages(RunPrefix(sessionId, runId));
      ToolsKept();
      label Cleared:
      ClearTools(RunPrefix(sessionId, runId));
      MessagesKept@Cleared();
    }
  }
}
