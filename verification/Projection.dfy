/**
 * The projection of streamed output events onto turn messages, as a pure fold: what the mutable projector
 * keeps per message and per open tool call, and what it hands out after each event.
 */
module Projection {
  import opened Wrappers
  import opened Text
  import RunIds

  const ASSISTANT := "assistant"
  const TOOL := "tool"

  datatype Body =
    | TextStart(messageId: string, role: string)
    | TextContent(messageId: string, delta: string)
    | TextEnd(messageId: string)
    | ToolStart(toolCallId: string, name: string, parent: string)
    | ToolArgs(toolCallId: string, delta: string)
    | ToolEnd(toolCallId: string)
    | ToolChunk(toolCallId: string, name: string, parent: string, delta: string)
    | ToolResult(messageId: string, toolCallId: string, content: string)
    | OtherBody

  datatype OutputEvent = OutputEvent(sessionId: string, runId: string, num: nat, body: Body)

  datatype ToolCall = ToolCall(id: string, name: string, args: string)

  datatype Message = Message(
    sessionId: string, runId: string, messageId: string, role: string,
    text: string, toolCalls: seq<ToolCall>, first: int, last: nat)

  datatype Tool = Tool(id: string, parent: string, name: string, args: string, last: nat)

  datatype State = State(messages: map<string, Message>, tools: map<string, Tool>)

  datatype TurnMessage =
    | Turn(sessionId: string, turnId: string, runId: string, messageId: string,
           role: string, text: string, toolCalls: seq<ToolCall>, first: int)
    | ToolTurn(sessionId: string, turnId: string, runId: string, messageId: string,
               toolCallId: string, content: string, first: int)

  // ---- Keys ----

  function RunPrefix(sessionId: string, runId: string): string {
    Trim(sessionId) + "/" + Trim(runId) + "/"
  }

  /** aguiTextMessageKey and aguiToolCallKey */
  function Key(e: OutputEvent, id: string): string {
    RunPrefix(e.sessionId, e.runId) + Trim(id)
  }

  /** Go's conversion of an unsigned to a signed 64-bit number. */
  function ToInt64(n: nat): int {
    var r := n % 0x1_0000_0000_0000_0000;
    if r < 0x8000_0000_0000_0000 then r else r - 0x1_0000_0000_0000_0000
  }

  // ---- One message, one tool call ----

  function FreshMessage(e: OutputEvent, id: string): Message {
    Message(e.sessionId, e.runId, id, ASSISTANT, "", [], ToInt64(e.num), 0)
  }

  function FreshTool(id: string): Tool {
    Tool(id, id, "", "", 0)
  }

  function Seen(last: nat, num: nat): nat {
    if num > last then num else last
  }

  function Started(known: Option<Message>, e: OutputEvent, id: string, role: string): Message {
    match known
    case None => FreshMessage(e, id).(role := role, last := e.num)
    case Some(m) =>
      m.(sessionId := e.sessionId, runId := e.runId, messageId := id, role := role, last := Seen(m.last, e.num),
         first := if m.first == 0 || ToInt64(e.num) < m.first then ToInt64(e.num) else m.first)
  }

  function Appended(m: Message, num: nat, delta: string): Message {
    if num > m.last then m.(text := m.text + delta, last := num) else m
  }

  function Extended(t: Tool, num: nat, delta: string): Tool {
    if num > t.last then t.(args := t.args + delta, last := num) else t
  }

  /** upsertAGUIToolCall: replace the call with this id, or append it. */
  function Upsert(calls: seq<ToolCall>, call: ToolCall): seq<ToolCall> {
    if calls == [] then [call]
    else if calls[0].id == call.id then [call] + calls[1..]
    else [calls[0]] + Upsert(calls[1..], call)
  }

  // ---- One event ----

  function Find<T>(m: map<string, T>, k: string): Option<T> {
    if k in m then Some(m[k]) else None
  }

  /** ensureMessageLocked */
  function Ensure(messages: map<string, Message>, e: OutputEvent, id: string): map<string, Message> {
    if Key(e, id) in messages then messages else messages[Key(e, id) := FreshMessage(e, id)]
  }

  /** ensureToolCallLocked */
  function ToolFor(tools: map<string, Tool>, e: OutputEvent, id: string): Tool {
    if Key(e, id) in tools then tools[Key(e, id)] else FreshTool(id)
  }

  /** The message with the tool call as it stands. */
  function WithCall(messages: map<string, Message>, e: OutputEvent, id: string, t: Tool): map<string, Message> {
    var known := Ensure(messages, e, id);
    var m := known[Key(e, id)];
    known[Key(e, id) := m.(toolCalls := Upsert(m.toolCalls, ToolCall(t.id, t.name, t.args)))]
  }

  function ChunkTool(t: Tool, name: string, parent: string, num: nat, delta: string): Tool {
    var named := t.(parent := if parent != "" then parent else t.parent, name := if name != "" then name else t.name);
    if delta == "" then named else Extended(named, num, delta)
  }

  function ParentOf(t: Tool): string {
    if t.parent == "" then t.id else t.parent
  }

  function Step(s: State, e: OutputEvent): State {
    match e.body
    case TextStart(messageId, role) =>
      var id := Trim(messageId);
      if id == "" then s
      else s.(messages := s.messages[Key(e, id) := Started(Find(s.messages, Key(e, id)), e, id,
                                                           if Trim(role) == "" then ASSISTANT else Trim(role))])
    case TextContent(messageId, delta) =>
      var id := Trim(messageId);
      if id == "" || delta == "" then s
      else
        var known := Ensure(s.messages, e, id);
        s.(messages := known[Key(e, id) := Appended(known[Key(e, id)], e.num, delta)])
    case TextEnd(messageId) =>
      var id := Trim(messageId);
      if id == "" || Key(e, id) !in s.messages then s
      else s.(messages := s.messages[Key(e, id) := s.messages[Key(e, id)].(last := e.num)])
    case ToolStart(toolCallId, name, parent) =>
      var id, p := Trim(toolCallId), if Trim(parent) == "" then Trim(toolCallId) else Trim(parent);
      if id == "" || Trim(name) == "" then s
      else
        var t := ToolFor(s.tools, e, id);
        State(Ensure(s.messages, e, p),
              s.tools[Key(e, id) := t.(parent := p, name := Trim(name), last := Seen(t.last, e.num))])
    case ToolArgs(toolCallId, delta) =>
      var id := Trim(toolCallId);
      if id == "" || delta == "" then s
      else s.(tools := s.tools[Key(e, id) := Extended(ToolFor(s.tools, e, id), e.num, delta)])
    case ToolEnd(toolCallId) =>
      var id := Trim(toolCallId);
      if id == "" || Key(e, id) !in s.tools || s.tools[Key(e, id)].name == "" then s
      else
        var t := s.tools[Key(e, id)];
        State(WithCall(s.messages, e, ParentOf(t), t), s.tools - {Key(e, id)})
    case ToolChunk(toolCallId, name, parent, delta) =>
      var id := Trim(toolCallId);
      if id == "" then s
      else
        var t := ChunkTool(ToolFor(s.tools, e, id), Trim(name), Trim(parent), e.num, delta);
        State(if t.name == "" then s.messages else WithCall(s.messages, e, t.parent, t), s.tools[Key(e, id) := t])
    case _ => s
  }

  function Run(s: State, events: seq<OutputEvent>): State
    decreases |events|
  {
    if events == [] then s else Step(Run(s, events[..|events| - 1]), events[|events| - 1])
  }

  /** clearRun: drop what is stored under the run's prefix. */
  function ClearRun(s: State, sessionId: string, runId: string): State {
    if Trim(runId) == "" then s
    else
      State(map k | k in s.messages && !(RunPrefix(sessionId, runId) <= k) :: s.messages[k],
            map k | k in s.tools && !(RunPrefix(sessionId, runId) <= k) :: s.tools[k])
  }

  // ---- What is handed out ----

  function PersistentId(role: string, runId: string, messageId: string): string {
    (if Trim(role) == "" then ASSISTANT else Trim(role)) + "-" + Trim(runId) + "-" + Trim(messageId)
  }

  /** buildAGUITurnMessage: nothing for a message without text and tool calls, or without a run. */
  function Build(m: Message): Option<TurnMessage> {
    if (Trim(m.text) == "" && m.toolCalls == []) || Trim(m.runId) == "" then None
    else Some(Turn(m.sessionId, RunIds.TurnIdFromRunId(Trim(m.runId)), Trim(m.runId),
                   PersistentId(m.role, Trim(m.runId), m.messageId), m.role, m.text,
                   if m.role == ASSISTANT then m.toolCalls else [], m.first))
  }

  function ResultTurn(e: OutputEvent, messageId: string, toolCallId: string, content: string): Option<TurnMessage> {
    if messageId == "" || toolCallId == "" || Trim(e.runId) == "" then None
    else Some(ToolTurn(e.sessionId, RunIds.TurnIdFromRunId(Trim(e.runId)), Trim(e.runId),
                       PersistentId(TOOL, Trim(e.runId), messageId), toolCallId, content, ToInt64(e.num)))
  }

  /** The key of the message that an event hands out, if it does. */
  function EmittedKey(s: State, e: OutputEvent): Option<string> {
    match e.body
    case TextContent(messageId, delta) =>
      if Trim(messageId) == "" || delta == "" then None else Some(Key(e, Trim(messageId)))
    case TextEnd(messageId) =>
      if Trim(messageId) == "" || Key(e, Trim(messageId)) !in s.messages then None else Some(Key(e, Trim(messageId)))
    case ToolEnd(toolCallId) =>
      var id := Trim(toolCallId);
      if id == "" || Key(e, id) !in s.tools || s.tools[Key(e, id)].name == "" then None
      else Some(Key(e, ParentOf(s.tools[Key(e, id)])))
    case ToolChunk(toolCallId, name, parent, delta) =>
      var id := Trim(toolCallId);
      if id == "" then None
      else
        var t := ChunkTool(ToolFor(s.tools, e, id), Trim(name), Trim(parent), e.num, delta);
        if t.name == "" then None else Some(Key(e, t.parent))
    case _ => None
  }

  lemma EmittedIsStored(s: State, e: OutputEvent)
    requires EmittedKey(s, e).Some?
    ensures EmittedKey(s, e).value in Step(s, e).messages
  {
  }

  /** What Apply returns: the affected message as it is after the event. */
  function Emit(s: State, e: OutputEvent): Option<TurnMessage> {
    if e.body.ToolResult? then ResultTurn(e, Trim(e.body.messageId), Trim(e.body.toolCallId), e.body.content)
    else if EmittedKey(s, e).None? then None
    else
      EmittedIsStored(s, e);
      Build(Step(s, e).messages[EmittedKey(s, e).value])
  }
}
