/**
 * Exactly-once text from at-least-once delivery: the text of each message and the arguments of each open
 * tool call are logs in the sense of module Dedup, so its theorems hold of every stream of events.
 */
module ProjectionExact {
  import opened Text
  import opened Dedup
  import P = Projection

  /** The projection of the events with the given indices, delivered one by one to a new projector. */
  function Project(stream: seq<P.OutputEvent>, d: seq<nat>): P.State
    requires forall i :: 0 <= i < |d| ==> d[i] < |stream|
  {
    if d == [] then P.State(map[], map[]) else P.Step(Project(stream, d[..|d| - 1]), stream[d[|d| - 1]])
  }

  // ---- The text of one message ----

  function MessageLog(s: P.State, k: string): Log {
    if k in s.messages then Log(true, s.messages[k].text, s.messages[k].last) else Empty()
  }

  /** What an event says about the message with key k. */
  function MessageOp(e: P.OutputEvent, k: string): Op {
    match e.body
    case TextStart(id, _) => if Trim(id) != "" && P.Key(e, Trim(id)) == k then Bump(e.num) else Skip
    case TextContent(id, delta) =>
      if Trim(id) != "" && delta != "" && P.Key(e, Trim(id)) == k then Add(e.num, delta) else Skip
    case TextEnd(id) => if Trim(id) != "" && P.Key(e, Trim(id)) == k then Mark(e.num) else Skip
    case _ => Skip
  }

  function MessageOps(stream: seq<P.OutputEvent>, k: string): seq<Op> {
    seq(|stream|, i requires 0 <= i < |stream| => MessageOp(stream[i], k))
  }

  function MessageOpens(stream: seq<P.OutputEvent>, d: seq<nat>, k: string): (o: seq<bool>)
    requires forall i :: 0 <= i < |d| ==> d[i] < |stream|
    ensures |o| == |d|
  {
    if d == [] then [] else MessageOpens(stream, d[..|d| - 1], k) + [k in Project(stream, d).messages]
  }

  lemma CallKeepsLog(s: P.State, e: P.OutputEvent, id: string, t: P.Tool, k: string, tools: map<string, P.Tool>)
    ensures var n := P.State(P.WithCall(s.messages, e, id, t), tools);
      MessageLog(n, k) == DoAndOpen(MessageLog(s, k), Skip, k in n.messages)
  {
  }

  lemma TextEventStep(s: P.State, e: P.OutputEvent, k: string)
    requires e.body.TextStart? || e.body.TextContent? || e.body.TextEnd?
    ensures MessageLog(P.Step(s, e), k) == DoAndOpen(MessageLog(s, k), MessageOp(e, k), k in P.Step(s, e).messages)
  {
  }

  lemma CallEventStep(s: P.State, e: P.OutputEvent, k: string)
    requires e.body.ToolEnd? || e.body.ToolChunk?
    ensures MessageLog(P.Step(s, e), k) == DoAndOpen(MessageLog(s, k), Skip, k in P.Step(s, e).messages)
  {
    var t, id := P.Step(s, e), Trim(e.body.toolCallId);
    var tool := P.ToolFor(s.tools, e, id);
    if e.body.ToolEnd? {
      CallKeepsLog(s, e, P.ParentOf(tool), tool, k, t.tools);
    } else {
      tool := P.ChunkTool(tool, Trim(e.body.name), Trim(e.body.parent), e.num, e.body.delta);
      CallKeepsLog(s, e, tool.parent, tool, k, t.tools);
    }
  }

  /** One event: the log of message k does what the event says of k. */
  lemma MessageStep(s: P.State, e: P.OutputEvent, k: string)
    ensures MessageLog(P.Step(s, e), k) == DoAndOpen(MessageLog(s, k), MessageOp(e, k), k in P.Step(s, e).messages)
  {
    if e.body.TextStart? || e.body.TextContent? || e.body.TextEnd? {
      TextEventStep(s, e, k);
    } else if e.body.ToolEnd? || e.body.ToolChunk? {
      CallEventStep(s, e, k);
    }
  }

  lemma {:induction false} MessageIsLog(stream: seq<P.OutputEvent>, d: seq<nat>, k: string)
    requires forall i :: 0 <= i < |d| ==> d[i] < |stream|
    ensures MessageLog(Project(stream, d), k) == Deliver(MessageOps(stream, k), d, MessageOpens(stream, d, k))
  {
    if d == [] {
    } else {
      var c := d[..|d| - 1];
      MessageIsLog(stream, c, k);
      MessageStep(Project(stream, c), stream[d[|d| - 1]], k);
      assert MessageOpens(stream, d, k)[..|d| - 1] == MessageOpens(stream, c, k);
    }
  }

  function TextOf(s: P.State, k: string): string {
    if k in s.messages then s.messages[k].text else ""
  }

  ghost predicate TextIsExact(stream: seq<P.OutputEvent>, d: seq<nat>, k: string)
    requires forall i :: 0 <= i < |d| ==> d[i] < |stream|
  {
    Front(d) <= |stream| && TextOf(Project(stream, d), k) == Deltas(MessageOps(stream, k)[..Front(d)])
  }

  ghost predicate TextIsAlwaysExact(stream: seq<P.OutputEvent>, k: string) {
    forall d :: Delivery(|stream|, d) ==> TextIsExact(stream, d, k)
  }

  lemma TextWhenEndIsLast(stream: seq<P.OutputEvent>, d: seq<nat>, k: string)
    requires Ordered(MessageOps(stream, k)) && MarkIsLast(MessageOps(stream, k)) && Delivery(|stream|, d)
    ensures TextIsExact(stream, d, k)
  {
    MessageIsLog(stream, d, k);
    DeliveryIsExact(MessageOps(stream, k), d, MessageOpens(stream, d, k));
  }

  lemma TextAfterEnd(stream: seq<P.OutputEvent>, k: string, i: nat, j: nat)
    requires Ordered(MessageOps(stream, k)) && i < j < |stream|
    requires MessageOp(stream[i], k).Mark? && Adds(MessageOp(stream[j], k))
    ensures !TextIsAlwaysExact(stream, k)
  {
    var ops := MessageOps(stream, k);
    var d := InexactDelivery(ops, i, j);
    MessageIsLog(stream, d, k);
    assert Inexact(ops, d, MessageOpens(stream, d, k));
    assert !TextIsExact(stream, d, k);
  }

  /**
   * For a stream whose numbers are positive and increase, the text of a message is exactly the concatenation
   * of its deltas delivered so far, under every delivery that may repeat what it delivered before, if and only
   * if no nonempty content of the message follows one of its end events.
   */
  lemma TextExactIff(stream: seq<P.OutputEvent>, k: string)
    requires Ordered(MessageOps(stream, k))
    ensures TextIsAlwaysExact(stream, k) <==> MarkIsLast(MessageOps(stream, k))
  {
    var ops := MessageOps(stream, k);
    if MarkIsLast(ops) {
      forall d | Delivery(|stream|, d) ensures TextIsExact(stream, d, k) { TextWhenEndIsLast(stream, d, k); }
    } else {
      var i, j :| 0 <= i < j < |ops| && ops[i].Mark? && Adds(ops[j]);
      TextAfterEnd(stream, k, i, j);
    }
  }

  // ---- The arguments of one tool call, while it is open ----

  function ToolLog(s: P.State, k: string): Log {
    if k in s.tools then Log(true, s.tools[k].args, s.tools[k].last) else Empty()
  }

  function ToolOp(e: P.OutputEvent, k: string): Op {
    match e.body
    case ToolStart(id, name, _) =>
      if Trim(id) != "" && Trim(name) != "" && P.Key(e, Trim(id)) == k then Bump(e.num) else Skip
    case ToolArgs(id, delta) =>
      if Trim(id) != "" && delta != "" && P.Key(e, Trim(id)) == k then Add(e.num, delta) else Skip
    case ToolChunk(id, _, _, delta) =>
      if Trim(id) != "" && delta != "" && P.Key(e, Trim(id)) == k then Add(e.num, delta) else Skip
    case _ => Skip
  }

  function ToolOps(stream: seq<P.OutputEvent>, k: string): seq<Op> {
    seq(|stream|, i requires 0 <= i < |stream| => ToolOp(stream[i], k))
  }

  predicate EndsTool(e: P.OutputEvent, k: string) {
    e.body.ToolEnd? && P.Key(e, Trim(e.body.toolCallId)) == k
  }

  function ToolOpens(stream: seq<P.OutputEvent>, d: seq<nat>, k: string): (o: seq<bool>)
    requires forall i :: 0 <= i < |d| ==> d[i] < |stream|
    ensures |o| == |d|
  {
    if d == [] then [] else ToolOpens(stream, d[..|d| - 1], k) + [k in Project(stream, d).tools]
  }

  lemma ToolStep(s: P.State, e: P.OutputEvent, k: string)
    requires !EndsTool(e, k)
    ensures ToolLog(P.Step(s, e), k) == DoAndOpen(ToolLog(s, k), ToolOp(e, k), k in P.Step(s, e).tools)
  {
    match e.body
    case ToolStart(_, _, _) => OpenEventStep(s, e, k);
    case ToolArgs(_, _) => OpenEventStep(s, e, k);
    case ToolEnd(_) => EndEventStep(s, e, k);
    case ToolChunk(_, _, _, _) => ChunkEventStep(s, e, k);
    case _ =>
  }

  lemma OpenEventStep(s: P.State, e: P.OutputEvent, k: string)
    requires e.body.ToolStart? || e.body.ToolArgs?
    ensures ToolLog(P.Step(s, e), k) == DoAndOpen(ToolLog(s, k), ToolOp(e, k), k in P.Step(s, e).tools)
  {
  }

  lemma EndEventStep(s: P.State, e: P.OutputEvent, k: string)
    requires e.body.ToolEnd? && !EndsTool(e, k)
    ensures ToolLog(P.Step(s, e), k) == DoAndOpen(ToolLog(s, k), Skip, k in P.Step(s, e).tools)
  {
  }

  lemma ChunkEventStep(s: P.State, e: P.OutputEvent, k: string)
    requires e.body.ToolChunk?
    ensures ToolLog(P.Step(s, e), k) == DoAndOpen(ToolLog(s, k), ToolOp(e, k), k in P.Step(s, e).tools)
  {
  }

  lemma {:induction false} ToolIsLog(stream: seq<P.OutputEvent>, d: seq<nat>, k: string)
    requires forall i :: 0 <= i < |d| ==> d[i] < |stream| && !EndsTool(stream[d[i]], k)
    ensures ToolLog(Project(stream, d), k) == Deliver(ToolOps(stream, k), d, ToolOpens(stream, d, k))
  {
    if d == [] {
    } else {
      var c := d[..|d| - 1];
      ToolIsLog(stream, c, k);
      ToolStep(Project(stream, c), stream[d[|d| - 1]], k);
      assert ToolOpens(stream, d, k)[..|d| - 1] == ToolOpens(stream, c, k);
    }
  }

  /** Until a tool call ends, its arguments are exactly the concatenation of its deltas delivered so far. */
  lemma OpenArgsAreExact(stream: seq<P.OutputEvent>, d: seq<nat>, k: string)
    requires Ordered(ToolOps(stream, k)) && Delivery(|stream|, d)
    requires forall i :: 0 <= i < |d| ==> !EndsTool(stream[d[i]], k)
    ensures Front(d) <= |stream|
    ensures k in Project(stream, d).tools ==> Project(stream, d).tools[k].args == Deltas(ToolOps(stream, k)[..Front(d)])
  {
    ToolIsLog(stream, d, k);
    DeliveryIsExact(ToolOps(stream, k), d, ToolOpens(stream, d, k));
  }
}
