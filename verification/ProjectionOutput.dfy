/** What the projector hands out: when it does, and with which text, turn, role, number and tool calls. */
module ProjectionOutput {
  import opened Wrappers
  import opened Text
  import opened Dedup
  import opened ProjectionKeys
  import P = Projection
  import PE = ProjectionExact
  import RunIds

  // ---- One event ----

  /** A message is worth handing out when it says something or calls something. */
  predicate Worth(m: P.Message) {
    Trim(m.text) != "" || m.toolCalls != []
  }

  /** The handed-out form of a message: everything of it, and tool calls only for the assistant. */
  predicate Shows(t: P.TurnMessage, m: P.Message) {
    && t.Turn? && t.sessionId == m.sessionId && t.runId == Trim(m.runId)
    && t.turnId == RunIds.TurnIdFromRunId(m.runId)
    && t.messageId == (if Trim(m.role) == "" then "assistant" else Trim(m.role)) + "-" + Trim(m.runId) + "-"
                      + Trim(m.messageId)
    && t.role == m.role && t.text == m.text && t.first == m.first
    && t.toolCalls == if m.role == "assistant" then m.toolCalls else []
  }

  /** A message is handed out if and only if it has a run and is worth it; and then as it stands. */
  lemma BuildIff(m: P.Message)
    ensures P.Build(m).Some? <==> Trim(m.runId) != "" && Worth(m)
    ensures P.Build(m).Some? ==> Shows(P.Build(m).value, m)
  {
    TrimProperties(m.runId);
  }

  /** The message with key k is what the event hands out, if anything. */
  predicate Concerns(s: P.State, e: P.OutputEvent, k: string) {
    match e.body
    case TextContent(id, delta) => Trim(id) != "" && delta != "" && k == P.Key(e, Trim(id))
    case TextEnd(id) => Trim(id) != "" && k == P.Key(e, Trim(id)) && k in s.messages
    case ToolEnd(id) =>
      && Trim(id) != "" && P.Key(e, Trim(id)) in s.tools && s.tools[P.Key(e, Trim(id))].name != ""
      && k == P.Key(e, P.ParentOf(s.tools[P.Key(e, Trim(id))]))
    case ToolChunk(id, name, parent, delta) =>
      && Trim(id) != ""
      && var t := P.ToolFor(s.tools, e, Trim(id));
      && (Trim(name) != "" || t.name != "")
      && k == P.Key(e, if Trim(parent) != "" then Trim(parent) else t.parent)
    case _ => false
  }

  /** Content, ends and tool calls hand out the message they concern, as it is after the event. */
  lemma EmitIff(s: P.State, e: P.OutputEvent, k: string)
    requires Concerns(s, e, k)
    ensures k in P.Step(s, e).messages
    ensures var m := P.Step(s, e).messages[k];
      && (P.Emit(s, e).Some? <==> Trim(m.runId) != "" && Worth(m))
      && (P.Emit(s, e).Some? ==> Shows(P.Emit(s, e).value, m))
  {
    TrimProperties(if e.body.TextContent? || e.body.TextEnd? then e.body.messageId else e.body.toolCallId);
    EmittedIs(s, e, k);
    P.EmittedIsStored(s, e);
    BuildIff(P.Step(s, e).messages[k]);
  }

  lemma EmittedIs(s: P.State, e: P.OutputEvent, k: string)
    requires Concerns(s, e, k)
    ensures P.EmittedKey(s, e) == Some(k) && !e.body.ToolResult?
  {
  }

  lemma OthersHandOutNothing(s: P.State, e: P.OutputEvent)
    requires !e.body.ToolResult? && forall k :: !Concerns(s, e, k)
    ensures P.Emit(s, e).None?
  {
    if P.EmittedKey(s, e).Some? { assert Concerns(s, e, P.EmittedKey(s, e).value); }
  }

  /** A tool result is handed out when its ids and its run are there, under the role of a tool. */
  lemma ResultIff(s: P.State, e: P.OutputEvent)
    requires e.body.ToolResult?
    ensures P.Emit(s, e).Some? <==>
      Trim(e.body.messageId) != "" && Trim(e.body.toolCallId) != "" && Trim(e.runId) != ""
    ensures P.Emit(s, e).Some? ==>
      P.Emit(s, e).value == P.ToolTurn(
        e.sessionId, RunIds.TurnIdFromRunId(e.runId), Trim(e.runId),
        "tool-" + Trim(e.runId) + "-" + Trim(e.body.messageId), Trim(e.body.toolCallId), e.body.content,
        P.ToInt64(e.num))
    ensures P.Step(s, e) == s
  {
    TrimProperties(e.runId);
    TrimProperties(e.body.messageId);
    TrimProperties("tool");
    assert Trim("tool") == "tool";
  }

  // ---- A new message ----

  /** A message that was not there has the event's session, run and number, and no text but the event's own. */
  predicate NewOf(m: P.Message, e: P.OutputEvent) {
    && m.sessionId == e.sessionId && m.runId == e.runId && m.first == P.ToInt64(e.num)
    && m.role == (if e.body.TextStart? && Trim(e.body.role) != "" then Trim(e.body.role) else "assistant")
    && m.text == (if e.body.TextContent? && e.num > 0 then e.body.delta else "")
  }

  lemma NewMessage(s: P.State, e: P.OutputEvent, k: string)
    requires k !in s.messages && k in P.Step(s, e).messages
    ensures NewOf(P.Step(s, e).messages[k], e)
    ensures P.RunPrefix(e.sessionId, e.runId) + Trim(P.Step(s, e).messages[k].messageId) == k
  {
    match e.body
    case TextStart(id, _) => TrimProperties(id);
    case TextContent(id, delta) => TrimProperties(id); assert "" + delta == delta;
    case TextEnd(_) =>
    case _ => NewFromTool(s, e, k);
  }

  lemma NewFromTool(s: P.State, e: P.OutputEvent, k: string)
    requires k !in s.messages && k in P.Step(s, e).messages
    requires !e.body.TextStart? && !e.body.TextContent? && !e.body.TextEnd?
    ensures NewOf(P.Step(s, e).messages[k], e)
    ensures P.RunPrefix(e.sessionId, e.runId) + Trim(P.Step(s, e).messages[k].messageId) == k
  {
  }

  /** A start gives a known message the session, run, id and role of the event, and the lesser number. */
  lemma StartChanges(s: P.State, e: P.OutputEvent)
    requires e.body.TextStart? && Trim(e.body.messageId) != "" && P.Key(e, Trim(e.body.messageId)) in s.messages
    ensures var k := P.Key(e, Trim(e.body.messageId));
      k in P.Step(s, e).messages
      && var m, n := s.messages[k], P.Step(s, e).messages[k];
      && n.sessionId == e.sessionId && n.runId == e.runId && n.messageId == Trim(e.body.messageId)
      && n.role == (if Trim(e.body.role) != "" then Trim(e.body.role) else "assistant")
      && n.text == m.text && n.toolCalls == m.toolCalls
      && (m.first > 0 && 0 < P.ToInt64(e.num) ==>
            n.first <= m.first && n.first <= P.ToInt64(e.num) && n.first in {m.first, P.ToInt64(e.num)})
  {
  }

  /** Every other event leaves session, run, id, role and number of a known message alone. */
  lemma OthersKeep(s: P.State, e: P.OutputEvent, k: string)
    requires k in s.messages
    requires !(e.body.TextStart? && Trim(e.body.messageId) != "" && P.Key(e, Trim(e.body.messageId)) == k)
    ensures k in P.Step(s, e).messages
    ensures var m, n := s.messages[k], P.Step(s, e).messages[k];
      && n.sessionId == m.sessionId && n.runId == m.runId && n.messageId == m.messageId
      && n.role == m.role && n.first == m.first
  {
    match e.body
    case TextStart(_, _) =>
    case TextContent(_, _) =>
    case TextEnd(_) =>
    case _ => ToolEventsKeep(s, e, k);
  }

  lemma ToolEventsKeep(s: P.State, e: P.OutputEvent, k: string)
    requires k in s.messages && !e.body.TextStart? && !e.body.TextContent? && !e.body.TextEnd?
    ensures k in P.Step(s, e).messages
    ensures var m, n := s.messages[k], P.Step(s, e).messages[k];
      && n.sessionId == m.sessionId && n.runId == m.runId && n.messageId == m.messageId
      && n.role == m.role && n.first == m.first
  {
  }

  // ---- Deliveries ----

  /** The event starts the message with key k. */
  predicate StartsMessage(e: P.OutputEvent, k: string) {
    e.body.TextStart? && Trim(e.body.messageId) != "" && P.Key(e, Trim(e.body.messageId)) == k
  }

  /** The role that the last start of the message gave it. */
  function RoleSaid(stream: seq<P.OutputEvent>, d: seq<nat>, k: string): string
    requires forall i :: 0 <= i < |d| ==> d[i] < |stream|
  {
    if d == [] then "assistant"
    else
      var e := stream[d[|d| - 1]];
      if StartsMessage(e, k) then (if Trim(e.body.role) != "" then Trim(e.body.role) else "assistant")
      else RoleSaid(stream, d[..|d| - 1], k)
  }

  lemma {:induction false} RoleIsSaid(stream: seq<P.OutputEvent>, d: seq<nat>, k: string)
    requires forall i :: 0 <= i < |d| ==> d[i] < |stream|
    ensures k in PE.Project(stream, d).messages ==> PE.Project(stream, d).messages[k].role == RoleSaid(stream, d, k)
    ensures k !in PE.Project(stream, d).messages ==> RoleSaid(stream, d, k) == "assistant"
  {
    if d == [] {
    } else {
      var s, e := PE.Project(stream, d[..|d| - 1]), stream[d[|d| - 1]];
      RoleIsSaid(stream, d[..|d| - 1], k);
      if k in s.messages {
        if StartsMessage(e, k) { StartChanges(s, e); } else { OthersKeep(s, e, k); }
      } else {
        StartMakes(s, e, k);
        if k in P.Step(s, e).messages { MadeRole(s, e, k); }
      }
    }
  }

  lemma StartMakes(s: P.State, e: P.OutputEvent, k: string)
    ensures StartsMessage(e, k) ==> k in P.Step(s, e).messages
  {
  }

  lemma MadeRole(s: P.State, e: P.OutputEvent, k: string)
    requires k !in s.messages && k in P.Step(s, e).messages
    ensures P.Step(s, e).messages[k].role ==
      if StartsMessage(e, k) && Trim(e.body.role) != "" then Trim(e.body.role) else "assistant"
  {
    NewMessage(s, e, k);
  }

  /** All events of the stream that could touch the run of e are of that run. */
  predicate OnlyRun(stream: seq<P.OutputEvent>, e: P.OutputEvent) {
    forall i :: 0 <= i < |stream| ==> SameRun(stream[i], e.sessionId, e.runId) || !Collide(stream[i], e)
  }

  lemma {:induction false} RunIsKept(stream: seq<P.OutputEvent>, d: seq<nat>, e: P.OutputEvent, id: string)
    requires (forall i :: 0 <= i < |d| ==> d[i] < |stream|) && OnlyRun(stream, e)
    ensures var k, messages := P.Key(e, id), PE.Project(stream, d).messages;
      k in messages ==>
        && Trim(messages[k].sessionId) == Trim(e.sessionId) && Trim(messages[k].runId) == Trim(e.runId)
        && Trim(messages[k].messageId) == Trim(id)
  {
    if d == [] {
    } else {
      var s, f, k := PE.Project(stream, d[..|d| - 1]), stream[d[|d| - 1]], P.Key(e, id);
      RunIsKept(stream, d[..|d| - 1], e, id);
      if k in P.Step(s, f).messages {
        if StartsMessage(f, k) {
          TrimProperties(f.body.messageId);
          SharedKeyCollides(f, Trim(f.body.messageId), e, id);
          SamePrefixSameId(f, Trim(f.body.messageId), e, id);
          StartMakesOf(s, f, k);
        } else if k in s.messages {
          OthersKeep(s, f, k);
        } else {
          NewMessage(s, f, k);
          TrimProperties(P.Step(s, f).messages[k].messageId);
          SharedKeyCollides(f, P.Step(s, f).messages[k].messageId, e, id);
          SamePrefixSameId(f, P.Step(s, f).messages[k].messageId, e, id);
        }
      }
    }
  }

  lemma StartMakesOf(s: P.State, e: P.OutputEvent, k: string)
    requires StartsMessage(e, k)
    ensures k in P.Step(s, e).messages
    ensures var m := P.Step(s, e).messages[k];
      m.sessionId == e.sessionId && m.runId == e.runId && m.messageId == Trim(e.body.messageId)
  {
  }

  /** The event hands out a message of text: content that says something, or an end. */
  predicate SpeaksOf(e: P.OutputEvent, id: string) {
    || (e.body.TextContent? && Trim(e.body.messageId) == id != "" && e.body.delta != "")
    || (e.body.TextEnd? && Trim(e.body.messageId) == id != "")
  }

  /**
   * Under every delivery of a stream that meets the exact condition for its text, a content or end event hands out its
   * message if and only if the run has an id and the message is there and worth it; and then with the deltas delivered
   * so far as its text, in the turn that the run id leads back to, under the role its last start gave it.
   */
  lemma HandedOutIff(stream: seq<P.OutputEvent>, d: seq<nat>, id: string)
    requires d != [] && Delivery(|stream|, d) && SpeaksOf(stream[d[|d| - 1]], id)
    requires var e := stream[d[|d| - 1]];
      && OnlyRun(stream, e) && Ordered(PE.MessageOps(stream, P.Key(e, id)))
      && MarkIsLast(PE.MessageOps(stream, P.Key(e, id)))
    ensures Front(d) <= |stream|
    ensures var e := stream[d[|d| - 1]];
      var k, messages := P.Key(e, id), PE.Project(stream, d).messages;
      var text := Deltas(PE.MessageOps(stream, k)[..Front(d)]);
      var out := P.Emit(PE.Project(stream, d[..|d| - 1]), e);
      && (out.Some? <==>
            Trim(e.runId) != "" && k in messages && (Trim(text) != "" || messages[k].toolCalls != []))
      && (out.Some? ==>
            && out.value.Turn? && out.value.text == text && out.value.runId == Trim(e.runId)
            && out.value.turnId == RunIds.TurnIdFromRunId(e.runId) && out.value.role == RoleSaid(stream, d, k))
  {
    var s, e := PE.Project(stream, d[..|d| - 1]), stream[d[|d| - 1]];
    var k := P.Key(e, id);
    PE.TextWhenEndIsLast(stream, d, k);
    RunIsKept(stream, d, e, id);
    RoleIsSaid(stream, d, k);
    TrimProperties(e.body.messageId);
    TrimProperties(e.runId);
    if Concerns(s, e, k) {
      EmitIff(s, e, k);
      SameTurn(P.Step(s, e).messages[k].runId, e.runId);
    } else {
      EndOfNothing(s, e, k);
    }
  }

  lemma SameTurn(a: string, b: string)
    requires Trim(a) == Trim(b)
    ensures RunIds.TurnIdFromRunId(a) == RunIds.TurnIdFromRunId(b)
  {
  }

  lemma EndOfNothing(s: P.State, e: P.OutputEvent, k: string)
    requires e.body.TextEnd? && k == P.Key(e, Trim(e.body.messageId)) && k !in s.messages
    ensures P.Step(s, e) == s && P.Emit(s, e).None?
  {
  }

  /** So every attempt of an action hands its messages out in the turn of that action. */
  lemma TurnIsTheAction(actionId: string, attempt: int, runId: string)
    requires RunIds.ValidId(actionId) && attempt >= 1 && Trim(runId) == RunIds.AttemptRunId(actionId, attempt)
    ensures RunIds.TurnIdFromRunId(runId) == actionId
  {
    RunIds.RunIdRoundTrip(actionId, attempt);
    SameTurn(runId, RunIds.AttemptRunId(actionId, attempt));
  }

  // ---- The number of a message ----

  /** Numbers are positive, fit into 63 bits and increase along the stream. */
  predicate Rising(stream: seq<P.OutputEvent>) {
    && (forall i :: 0 <= i < |stream| ==> 0 < stream[i].num < 0x8000_0000_0000_0000)
    && (forall i, j :: 0 <= i < j < |stream| ==> stream[i].num < stream[j].num)
  }

  /** The event that made the message: the first that left it there. */
  function Maker(stream: seq<P.OutputEvent>, d: seq<nat>, k: string): (c: nat)
    requires (forall i :: 0 <= i < |d| ==> d[i] < |stream|) && k in PE.Project(stream, d).messages
    ensures c in d
  {
    if k in PE.Project(stream, d[..|d| - 1]).messages then Maker(stream, d[..|d| - 1], k) else d[|d| - 1]
  }

  lemma DeliveryPrefix(n: nat, d: seq<nat>)
    requires d != [] && Delivery(n, d)
    ensures Delivery(n, d[..|d| - 1]) && d[|d| - 1] <= Front(d[..|d| - 1])
  {
    var c := d[..|d| - 1];
    forall i | 0 <= i < |c| ensures c[i] < n && c[i] <= Front(c[..i]) { assert c[..i] == d[..i]; }
  }

  /** What lies behind the front was delivered. */
  lemma {:induction false} BehindFrontIff(n: nat, d: seq<nat>, i: nat)
    requires Delivery(n, d)
    ensures i < Front(d) <==> i in d
  {
    if d == [] {
    } else {
      DeliveryPrefix(n, d);
      BehindFrontIff(n, d[..|d| - 1], i);
      assert d == d[..|d| - 1] + [d[|d| - 1]];
    }
  }

  lemma StartKeepsNumber(s: P.State, e: P.OutputEvent, k: string)
    requires k in s.messages && 0 < s.messages[k].first && 0 < e.num < 0x8000_0000_0000_0000
    requires StartsMessage(e, k) ==> s.messages[k].first <= e.num
    ensures k in P.Step(s, e).messages && P.Step(s, e).messages[k].first == s.messages[k].first
  {
    if StartsMessage(e, k) { StartChanges(s, e); } else { OthersKeep(s, e, k); }
  }

  /** A message that is not there was never started. */
  lemma {:induction false} NoStartBefore(stream: seq<P.OutputEvent>, d: seq<nat>, k: string, i: nat)
    requires (forall j :: 0 <= j < |d| ==> d[j] < |stream|) && i < |d| && k !in PE.Project(stream, d).messages
    ensures !StartsMessage(stream[d[i]], k)
  {
    var s := PE.Project(stream, d[..|d| - 1]);
    if k in s.messages { OthersStay(s, stream[d[|d| - 1]], k); }
    if i == |d| - 1 {
      StartMakes(s, stream[d[i]], k);
    } else {
      NoStartBefore(stream, d[..|d| - 1], k, i);
    }
  }

  lemma OthersStay(s: P.State, e: P.OutputEvent, k: string)
    requires k in s.messages
    ensures k in P.Step(s, e).messages
  {
    if StartsMessage(e, k) { StartMakes(s, e, k); } else { OthersKeep(s, e, k); }
  }

  /** The events of the stream that start the message. */
  function StartsOf(stream: seq<P.OutputEvent>, k: string): set<nat> {
    set i: nat | i < |stream| && StartsMessage(stream[i], k)
  }

  /** Nothing delivered so far that is in this set comes from ahead of m. */
  ghost predicate NoneAhead(starts: set<nat>, d: seq<nat>, m: nat) {
    forall x :: x in d && x in starts ==> m <= x
  }

  /** Whatever is delivered next does not come from ahead of an event that was delivered, unless it was too. */
  lemma NextIsBehind(n: nat, starts: set<nat>, d: seq<nat>, m: nat)
    requires d != [] && Delivery(n, d) && m in d[..|d| - 1] && NoneAhead(starts, d[..|d| - 1], m)
    ensures NoneAhead(starts, d, m)
  {
    var c, x := d[..|d| - 1], d[|d| - 1];
    DeliveryPrefix(n, d);
    BehindFrontIff(n, c, m);
    BehindFrontIff(n, c, x);
    assert d == c + [x];
  }

  lemma NoStarts(stream: seq<P.OutputEvent>, c: seq<nat>, k: string)
    requires (forall j :: 0 <= j < |c| ==> c[j] < |stream|) && k !in PE.Project(stream, c).messages
    ensures forall x :: x in c ==> x !in StartsOf(stream, k)
  {
    forall i | 0 <= i < |c| ensures c[i] !in StartsOf(stream, k) { NoStartBefore(stream, c, k, i); }
  }

  lemma FirstStart(starts: set<nat>, d: seq<nat>)
    requires d != [] && forall x :: x in d[..|d| - 1] ==> x !in starts
    ensures NoneAhead(starts, d, d[|d| - 1])
  {
    assert d == d[..|d| - 1] + [d[|d| - 1]];
  }

  /** Under every delivery, the number of a message is that of the event that made it, whatever comes or comes again. */
  lemma {:induction false} NumberIsTheMakers(stream: seq<P.OutputEvent>, d: seq<nat>, k: string)
    requires Rising(stream) && Delivery(|stream|, d) && k in PE.Project(stream, d).messages
    ensures PE.Project(stream, d).messages[k].first == stream[Maker(stream, d, k)].num
    ensures NoneAhead(StartsOf(stream, k), d, Maker(stream, d, k))
  {
    var c := d[..|d| - 1];
    DeliveryPrefix(|stream|, d);
    if k in PE.Project(stream, c).messages {
      NumberIsTheMakers(stream, c, k);
      NextIsBehind(|stream|, StartsOf(stream, k), d, Maker(stream, c, k));
      NumberStays(stream, c, d[|d| - 1], k, Maker(stream, c, k));
    } else {
      NumberStarts(stream, c, d[|d| - 1], k);
      NoStarts(stream, c, k);
      FirstStart(StartsOf(stream, k), d);
    }
  }

  lemma NumberStarts(stream: seq<P.OutputEvent>, c: seq<nat>, x: nat, k: string)
    requires Rising(stream) && (forall j :: 0 <= j < |c| ==> c[j] < |stream|) && x < |stream|
    requires k !in PE.Project(stream, c).messages && k in P.Step(PE.Project(stream, c), stream[x]).messages
    ensures P.Step(PE.Project(stream, c), stream[x]).messages[k].first == stream[x].num
  {
    NewNumber(PE.Project(stream, c), stream[x], k);
  }

  lemma NewNumber(s: P.State, e: P.OutputEvent, k: string)
    requires k !in s.messages && k in P.Step(s, e).messages && 0 < e.num < 0x8000_0000_0000_0000
    ensures P.Step(s, e).messages[k].first == e.num
  {
    NewMessage(s, e, k);
    SmallNumber(e.num);
  }

  /** Numbers are handed out as 64-bit integers: the same modulo 2^64, from -2^63 up to 2^63 - 1. */
  lemma NumberWraps(n: nat)
    ensures -0x8000_0000_0000_0000 <= P.ToInt64(n) < 0x8000_0000_0000_0000
    ensures exists k: int :: P.ToInt64(n) == n + k * 0x1_0000_0000_0000_0000
  {
    var q := n / 0x1_0000_0000_0000_0000;
    assert P.ToInt64(n) == n + -q * 0x1_0000_0000_0000_0000 || P.ToInt64(n) == n + (-q - 1) * 0x1_0000_0000_0000_0000;
  }

  lemma SmallNumber(n: nat)
    requires n < 0x8000_0000_0000_0000
    ensures P.ToInt64(n) == n
  {
  }

  lemma NumberStays(stream: seq<P.OutputEvent>, c: seq<nat>, x: nat, k: string, m: nat)
    requires Rising(stream) && (forall j :: 0 <= j < |c| ==> c[j] < |stream|) && x < |stream| && m < |stream|
    requires k in PE.Project(stream, c).messages && PE.Project(stream, c).messages[k].first == stream[m].num
    requires x in StartsOf(stream, k) ==> m <= x
    ensures k in P.Step(PE.Project(stream, c), stream[x]).messages
    ensures P.Step(PE.Project(stream, c), stream[x]).messages[k].first == stream[m].num
  {
    LaterNumber(stream, m, x);
    StartKeepsNumber(PE.Project(stream, c), stream[x], k);
  }

  lemma LaterNumber(stream: seq<P.OutputEvent>, m: nat, x: nat)
    requires Rising(stream) && m < |stream| && x < |stream|
    ensures m <= x ==> stream[m].num <= stream[x].num
    ensures 0 < stream[m].num && 0 < stream[x].num < 0x8000_0000_0000_0000
  {
  }
}
