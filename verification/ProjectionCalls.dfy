/**
 * Tool calls of the projector under at-least-once delivery: what the projector keeps of a call is a log in the
 * sense of module CallLog, so the exact conditions proved there are those of the projector.
 */
module ProjectionCalls {
  import opened Wrappers
  import opened Text
  import opened Dedup
  import C = CallLog
  import P = Projection
  import PE = ProjectionExact
  import PS = ProjectionSafety

  /** What the projector keeps of the call with key k. */
  function CallOf(s: P.State, k: string): C.Call {
    if k in s.tools then C.Call(s.tools[k].name != "", s.tools[k].args, s.tools[k].last) else C.Closed()
  }

  /** What an event says about the call with key k. */
  function OpOf(e: P.OutputEvent, k: string): C.CallOp {
    match e.body
    case ToolStart(id, name, _) =>
      if Trim(id) != "" && Trim(name) != "" && P.Key(e, Trim(id)) == k then C.Begin(e.num) else C.Other
    case ToolArgs(id, delta) =>
      if Trim(id) != "" && delta != "" && P.Key(e, Trim(id)) == k then C.Piece(e.num, delta) else C.Other
    case ToolChunk(id, name, _, delta) =>
      if Trim(id) != "" && P.Key(e, Trim(id)) == k then C.Chunk(e.num, delta, Trim(name) != "") else C.Other
    case ToolEnd(id) => if Trim(id) != "" && P.Key(e, Trim(id)) == k then C.Finish else C.Other
    case _ => C.Other
  }

  function OpsOf(stream: seq<P.OutputEvent>, k: string): seq<C.CallOp> {
    seq(|stream|, i requires 0 <= i < |stream| => OpOf(stream[i], k))
  }

  /** The tool call that an event puts into its message. */
  function Written(s: P.State, e: P.OutputEvent): Option<P.ToolCall> {
    match e.body
    case ToolEnd(id) =>
      var k := P.Key(e, Trim(id));
      if Trim(id) == "" || k !in s.tools || s.tools[k].name == "" then None
      else Some(P.ToolCall(s.tools[k].id, s.tools[k].name, s.tools[k].args))
    case ToolChunk(id, name, parent, delta) =>
      var t := P.ChunkTool(P.ToolFor(s.tools, e, Trim(id)), Trim(name), Trim(parent), e.num, delta);
      if Trim(id) == "" || t.name == "" then None else Some(P.ToolCall(t.id, t.name, t.args))
    case _ => None
  }

  /** The key of the call that an event is about. */
  function KeyOf(e: P.OutputEvent): string {
    match e.body
    case ToolEnd(id) => P.Key(e, Trim(id))
    case ToolChunk(id, _, _, _) => P.Key(e, Trim(id))
    case _ => ""
  }

  /** No message has its tool calls changed. */
  ghost predicate CallsKept(s: P.State, t: P.State) {
    forall k :: k in s.messages ==> k in t.messages && t.messages[k].toolCalls == s.messages[k].toolCalls
  }

  /** A written call is in its message afterwards; an event that writes none leaves the calls of every message alone. */
  lemma WrittenIsStored(s: P.State, e: P.OutputEvent)
    ensures Written(s, e).Some? ==>
      var k := P.EmittedKey(s, e);
      k.Some? && k.value in P.Step(s, e).messages && Written(s, e).value in P.Step(s, e).messages[k.value].toolCalls
    ensures Written(s, e).None? ==> CallsKept(s, P.Step(s, e))
  {
    if Written(s, e).Some? {
      P.EmittedIsStored(s, e);
      CallIsWritten(s, e);
    } else {
      NothingWritten(s, e);
    }
  }

  lemma CallIsWritten(s: P.State, e: P.OutputEvent)
    requires Written(s, e).Some?
    ensures var k := P.EmittedKey(s, e);
      k.Some? && k.value in P.Step(s, e).messages && Written(s, e).value in P.Step(s, e).messages[k.value].toolCalls
  {
    var id := Trim(e.body.toolCallId);
    var t := P.ToolFor(s.tools, e, id);
    var parent := P.ParentOf(t);
    if e.body.ToolChunk? {
      t := P.ChunkTool(t, Trim(e.body.name), Trim(e.body.parent), e.num, e.body.delta);
      parent := t.parent;
    }
    var known := P.Ensure(s.messages, e, parent);
    PS.UpsertMeans(known[P.Key(e, parent)].toolCalls, P.ToolCall(t.id, t.name, t.args));
  }

  lemma NothingWritten(s: P.State, e: P.OutputEvent)
    requires Written(s, e).None?
    ensures CallsKept(s, P.Step(s, e))
  {
    if e.body.TextStart? || e.body.TextContent? || e.body.TextEnd? {
      TextWritesNothing(s, e);
    }
  }

  lemma TextWritesNothing(s: P.State, e: P.OutputEvent)
    requires e.body.TextStart? || e.body.TextContent? || e.body.TextEnd?
    ensures CallsKept(s, P.Step(s, e))
  {
  }

  /** One event: the log of call k does what the event says of k, and what is written is what the log stores. */
  lemma CallStep(s: P.State, e: P.OutputEvent, k: string)
    ensures CallOf(P.Step(s, e), k) == C.Do(CallOf(s, k), OpOf(e, k))
  {
    match e.body
    case ToolStart(_, _, _) => OpenStep(s, e, k);
    case ToolArgs(_, _) => OpenStep(s, e, k);
    case ToolEnd(_) => EndStep(s, e, k);
    case ToolChunk(_, _, _, _) => ChunkStep(s, e, k);
    case _ =>
  }

  lemma OpenStep(s: P.State, e: P.OutputEvent, k: string)
    requires e.body.ToolStart? || e.body.ToolArgs?
    ensures CallOf(P.Step(s, e), k) == C.Do(CallOf(s, k), OpOf(e, k))
  {
  }

  lemma EndStep(s: P.State, e: P.OutputEvent, k: string)
    requires e.body.ToolEnd?
    ensures CallOf(P.Step(s, e), k) == C.Do(CallOf(s, k), OpOf(e, k))
  {
  }

  lemma ChunkStep(s: P.State, e: P.OutputEvent, k: string)
    requires e.body.ToolChunk?
    ensures CallOf(P.Step(s, e), k) == C.Do(CallOf(s, k), OpOf(e, k))
  {
    var id := Trim(e.body.toolCallId);
    var t := P.ToolFor(s.tools, e, id);
    var u := P.ChunkTool(t, Trim(e.body.name), Trim(e.body.parent), e.num, e.body.delta);
    ChunkIsOp(t, Trim(e.body.name), Trim(e.body.parent), e.num, e.body.delta);
    assert id != "" ==> P.Step(s, e).tools == s.tools[P.Key(e, id) := u];
  }

  function CallOfTool(t: P.Tool): C.Call { C.Call(t.name != "", t.args, t.last) }

  lemma ChunkIsOp(t: P.Tool, name: string, parent: string, num: nat, delta: string)
    ensures CallOfTool(P.ChunkTool(t, name, parent, num, delta)) == C.Do(CallOfTool(t), C.Chunk(num, delta, name != ""))
  {
  }

  lemma WrittenIsLogged(s: P.State, e: P.OutputEvent)
    requires e.body.ToolEnd? || e.body.ToolChunk?
    ensures var stored := C.Stores(CallOf(s, KeyOf(e)), OpOf(e, KeyOf(e)));
      if Written(s, e).None? then stored.None? else stored == Some(Written(s, e).value.args)
  {
  }

  lemma {:induction false} CallIsLog(stream: seq<P.OutputEvent>, d: seq<nat>, k: string)
    requires forall i :: 0 <= i < |d| ==> d[i] < |stream|
    ensures CallOf(PE.Project(stream, d), k) == C.After(OpsOf(stream, k), d)
  {
    if d == [] {
    } else {
      CallIsLog(stream, d[..|d| - 1], k);
      CallStep(PE.Project(stream, d[..|d| - 1]), stream[d[|d| - 1]], k);
    }
  }

  /** What the last event of a delivery writes of call k, if it writes it. */
  function WrittenAt(stream: seq<P.OutputEvent>, d: seq<nat>, k: string): Option<string>
    requires d != [] && forall i :: 0 <= i < |d| ==> d[i] < |stream|
  {
    var s, e := PE.Project(stream, d[..|d| - 1]), stream[d[|d| - 1]];
    if (e.body.ToolEnd? || e.body.ToolChunk?) && KeyOf(e) == k && Written(s, e).Some?
    then Some(Written(s, e).value.args) else None
  }

  lemma WrittenAtIsStoredAt(stream: seq<P.OutputEvent>, d: seq<nat>, k: string)
    requires d != [] && forall i :: 0 <= i < |d| ==> d[i] < |stream|
    ensures WrittenAt(stream, d, k) == C.StoredAt(OpsOf(stream, k), d)
  {
    var s, e := PE.Project(stream, d[..|d| - 1]), stream[d[|d| - 1]];
    CallIsLog(stream, d[..|d| - 1], k);
    if e.body.ToolEnd? || e.body.ToolChunk? { WrittenIsLogged(s, e); }
  }

  /** Whenever the last event writes call k, it writes exactly the arguments delivered so far. */
  ghost predicate ArgsAreExact(stream: seq<P.OutputEvent>, d: seq<nat>, k: string)
    requires d != [] && forall i :: 0 <= i < |d| ==> d[i] < |stream|
  {
    WrittenAt(stream, d, k).Some? ==>
      Front(d) <= |stream| && WrittenAt(stream, d, k).value == C.Total(OpsOf(stream, k), Front(d))
  }

  ghost predicate ArgsAreAlwaysExact(stream: seq<P.OutputEvent>, k: string) {
    forall d :: d != [] && Delivery(|stream|, d) ==> ArgsAreExact(stream, d, k)
  }

  /**
   * Per delivery: what is written of a call is exact if and only if, since the call was last forgotten, every one
   * of its deltas delivered so far has come, or come again, ahead of everything numbered after it. After an end
   * that means the whole call again, with anything else in between.
   */
  lemma ArgsExactAtIff(stream: seq<P.OutputEvent>, d: seq<nat>, k: string)
    requires C.InSequence(OpsOf(stream, k)) && d != [] && Delivery(|stream|, d) && WrittenAt(stream, d, k).Some?
    ensures Front(d) <= |stream|
    ensures var ops := OpsOf(stream, k); ArgsAreExact(stream, d, k) <==> C.Whole(ops, C.Made(ops, d), Front(d))
  {
    WrittenAtIsStoredAt(stream, d, k);
    C.ExactAtIff(OpsOf(stream, k), d);
  }

  /**
   * Over all deliveries of a stream whose numbers increase, what is written of a call is always exact if and only
   * if no end of the call comes with an event that names it and a nonempty delta in another event.
   */
  lemma ArgsExactIff(stream: seq<P.OutputEvent>, k: string)
    requires C.InSequence(OpsOf(stream, k))
    ensures ArgsAreAlwaysExact(stream, k) <==> !C.Restartable(OpsOf(stream, k))
  {
    var ops := OpsOf(stream, k);
    C.AlwaysExactIff(ops);
    forall d | d != [] && Delivery(|stream|, d) ensures ArgsAreExact(stream, d, k) <==> C.Exact(ops, d) {
      WrittenAtIsStoredAt(stream, d, k);
    }
    assert |ops| == |stream|;
    if C.AlwaysExact(ops) {
      forall d | d != [] && Delivery(|stream|, d) ensures ArgsAreExact(stream, d, k) { assert C.Exact(ops, d); }
    }
    if ArgsAreAlwaysExact(stream, k) {
      forall d | d != [] && Delivery(|ops|, d) ensures C.Exact(ops, d) { assert ArgsAreExact(stream, d, k); }
    }
  }
}
