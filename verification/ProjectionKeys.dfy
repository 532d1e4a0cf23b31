/** The keys under which the projector stores messages and tool calls, and how far they tell runs apart. */
module ProjectionKeys {
  import opened Text
  import opened Projection
  import opened ProjectionSafety

  /** The session and the run of an event, as keys see them. */
  predicate SameRun(e: OutputEvent, sessionId: string, runId: string) {
    Trim(e.sessionId) == Trim(sessionId) && Trim(e.runId) == Trim(runId)
  }

  function PrefixOf(e: OutputEvent): string {
    RunPrefix(e.sessionId, e.runId)
  }

  /** q is p, or p with something behind it that an id can begin with. */
  predicate Continues(p: string, q: string) {
    p <= q && (|p| == |q| || !IsSpace(q[|p|]))
  }

  /** The prefix of one run continues that of the other. */
  predicate Collide(d: OutputEvent, e: OutputEvent) {
    Continues(PrefixOf(d), PrefixOf(e)) || Continues(PrefixOf(e), PrefixOf(d))
  }

  ghost predicate ShareKey(d: OutputEvent, e: OutputEvent) {
    exists i: string, j: string :: Trim(i) != "" && Trim(j) != "" && Key(d, i) == Key(e, j)
  }

  lemma LongerContinues(p: string, x: string, q: string, y: string)
    requires p + x == q + y && |p| <= |q| && Trimmed(x)
    ensures Continues(p, q)
  {
    assert p == (p + x)[..|p|] == (q + y)[..|p|] == q[..|p|];
    if |p| < |q| { assert x[0] == (p + x)[|p|] == (q + y)[|p|] == q[|p|]; }
  }

  lemma SharedKeyCollides(d: OutputEvent, i: string, e: OutputEvent, j: string)
    requires Key(d, i) == Key(e, j)
    ensures Collide(d, e)
  {
    TrimProperties(i);
    TrimProperties(j);
    if |PrefixOf(d)| <= |PrefixOf(e)| {
      LongerContinues(PrefixOf(d), Trim(i), PrefixOf(e), Trim(j));
    } else {
      LongerContinues(PrefixOf(e), Trim(j), PrefixOf(d), Trim(i));
    }
  }

  /** Under a prefix that is continued, there is an id for every id under the continuation. */
  lemma ContinuedShares(d: OutputEvent, e: OutputEvent) returns (i: string, j: string)
    requires Continues(PrefixOf(d), PrefixOf(e))
    ensures Trim(i) != "" && Trim(j) != "" && Key(d, i) == Key(e, j)
  {
    var p, q := PrefixOf(d), PrefixOf(e);
    i, j := q[|p|..] + "x", "x";
    TrimProperties(i);
    TrimProperties(j);
    assert i[|i| - 1] == 'x';
    assert p + q[|p|..] == q && p + i == q + j;
  }

  /** Two runs have a key in common if and only if the prefix of one continues that of the other. */
  lemma ShareKeyIff(d: OutputEvent, e: OutputEvent)
    ensures ShareKey(d, e) <==> Collide(d, e)
  {
    if ShareKey(d, e) {
      var i: string, j: string :| Trim(i) != "" && Trim(j) != "" && Key(d, i) == Key(e, j);
      SharedKeyCollides(d, i, e, j);
    }
    if Continues(PrefixOf(d), PrefixOf(e)) {
      var i, j := ContinuedShares(d, e);
    } else if Continues(PrefixOf(e), PrefixOf(d)) {
      var j, i := ContinuedShares(e, d);
      assert Key(d, i) == Key(e, j);
    }
  }

  /** Equal keys mean the same run and the same id. */
  ghost predicate ToldApart(d: OutputEvent, e: OutputEvent) {
    forall i, j :: Key(d, i) == Key(e, j) ==> SameRun(d, e.sessionId, e.runId) && Trim(i) == Trim(j)
  }

  lemma SamePrefixSameId(d: OutputEvent, i: string, e: OutputEvent, j: string)
    requires PrefixOf(d) == PrefixOf(e) && Key(d, i) == Key(e, j)
    ensures Trim(i) == Trim(j)
  {
    var p := PrefixOf(d);
    assert Trim(i) == Key(d, i)[|p|..] == Key(e, j)[|p|..] == Trim(j);
  }

  /**
   * Keys tell two events apart, whatever message and call ids they carry, if and only if they are of one run or
   * their runs do not collide.
   */
  lemma KeysDifferIff(d: OutputEvent, e: OutputEvent)
    ensures ToldApart(d, e) <==> SameRun(d, e.sessionId, e.runId) || !Collide(d, e)
  {
    ShareKeyIff(d, e);
    forall i, j | Key(d, i) == Key(e, j) ensures Collide(d, e) { SharedKeyCollides(d, i, e, j); }
    if SameRun(d, e.sessionId, e.runId) {
      forall i, j | Key(d, i) == Key(e, j) ensures Trim(i) == Trim(j) { SamePrefixSameId(d, i, e, j); }
    }
  }

  // ---- What events of other runs leave alone ----

  predicate LeavesAlone(s: State, e: OutputEvent, k: string) {
    Find(Step(s, e).messages, k) == Find(s.messages, k) && Find(Step(s, e).tools, k) == Find(s.tools, k)
  }

  /** An event leaves alone whatever is not stored under a key of its run. */
  lemma StepIsLocal(s: State, e: OutputEvent, k: string)
    requires forall id :: Key(e, id) != k
    ensures LeavesAlone(s, e, k)
  {
    var id := StepTouches(s, e);
    var toolId := match e.body
      case ToolStart(t, _, _) => Trim(t) case ToolArgs(t, _) => Trim(t) case ToolEnd(t) => Trim(t)
      case ToolChunk(t, _, _, _) => Trim(t) case _ => "";
    assert Key(e, id) != k && Key(e, toolId) != k;
  }

  /** Events of the run of e, whatever they say and in every state, touch nothing that belongs to the run of d. */
  ghost predicate KeepsOff(e: OutputEvent, d: OutputEvent) {
    forall s, num, body, id :: LeavesAlone(s, OutputEvent(e.sessionId, e.runId, num, body), Key(d, id))
  }

  lemma OtherRunsUntouched(s: State, e: OutputEvent, d: OutputEvent, id: string)
    requires !Collide(d, e)
    ensures LeavesAlone(s, e, Key(d, id))
  {
    forall j ensures Key(e, j) != Key(d, id) {
      if Key(d, id) == Key(e, j) { SharedKeyCollides(d, id, e, j); }
    }
    StepIsLocal(s, e, Key(d, id));
  }

  lemma SharedKeyIsTouched(d: OutputEvent, i: string, e: OutputEvent, j: string)
    requires Trim(j) != "" && Key(d, i) == Key(e, j)
    ensures !LeavesAlone(State(map[], map[]), OutputEvent(e.sessionId, e.runId, e.num, TextStart(j, "")), Key(d, i))
  {
    TrimProperties(j);
  }

  /** The events of a run never touch the messages and tool calls of another if and only if the two do not collide. */
  lemma OtherRunsUntouchedIff(e: OutputEvent, d: OutputEvent)
    ensures KeepsOff(e, d) <==> !Collide(d, e)
  {
    if Collide(d, e) {
      ShareKeyIff(d, e);
      var i: string, j: string :| Trim(i) != "" && Trim(j) != "" && Key(d, i) == Key(e, j);
      SharedKeyIsTouched(d, i, e, j);
    } else {
      forall s, num, body, id ensures LeavesAlone(s, OutputEvent(e.sessionId, e.runId, num, body), Key(d, id)) {
        OtherRunsUntouched(s, OutputEvent(e.sessionId, e.runId, num, body), d, id);
      }
    }
  }

  // ---- Clearing a run ----

  /** Some key of a run with prefix q starts with p. */
  predicate Covers(p: string, q: string) {
    p <= q || Continues(q, p)
  }

  ghost predicate Reaches(p: string, d: OutputEvent) {
    exists id: string :: Trim(id) != "" && p <= Key(d, id)
  }

  lemma PrefixEnds(sessionId: string, runId: string)
    ensures var p := RunPrefix(sessionId, runId); p[|p| - 1] == '/'
  {
  }

  lemma ReachedIsCovered(p: string, d: OutputEvent, id: string)
    requires p <= Key(d, id)
    ensures Covers(p, PrefixOf(d))
  {
    var q := PrefixOf(d);
    TrimProperties(id);
    if |q| < |p| {
      assert q == Key(d, id)[..|q|] == p[..|q|];
      assert p[|q|] == Key(d, id)[|q|] == Trim(id)[0];
    } else {
      assert p == Key(d, id)[..|p|] == q[..|p|];
    }
  }

  lemma ReachesIff(sessionId: string, runId: string, d: OutputEvent)
    ensures Reaches(RunPrefix(sessionId, runId), d) <==> Covers(RunPrefix(sessionId, runId), PrefixOf(d))
  {
    var p, q := RunPrefix(sessionId, runId), PrefixOf(d);
    if Reaches(p, d) {
      var id: string :| Trim(id) != "" && p <= Key(d, id);
      ReachedIsCovered(p, d, id);
    }
    if p <= q {
      TrimProperties("x");
      assert p <= Key(d, "x");
    } else if Continues(q, p) {
      var id := p[|q|..];
      PrefixEnds(sessionId, runId);
      TrimProperties(id);
      assert id[|id| - 1] == '/' && q + id == p;
      assert Trim(id) != "" && p <= Key(d, id);
    }
  }

  /** Clearing a run removes what is stored under this key if it is one of the run's, and leaves it alone otherwise. */
  predicate ClearsRightly(s: State, sessionId: string, runId: string, d: OutputEvent, id: string) {
    var t, k := ClearRun(s, sessionId, runId), Key(d, id);
    if Trim(runId) != "" && SameRun(d, sessionId, runId) then k !in t.messages && k !in t.tools
    else Find(t.messages, k) == Find(s.messages, k) && Find(t.tools, k) == Find(s.tools, k)
  }

  ghost predicate ClearsExactly(sessionId: string, runId: string, d: OutputEvent) {
    forall s, id :: ClearsRightly(s, sessionId, runId, d, id)
  }

  lemma ReachedIsCleared(sessionId: string, runId: string, d: OutputEvent, id: string)
    requires Trim(runId) != "" && !SameRun(d, sessionId, runId) && RunPrefix(sessionId, runId) <= Key(d, id)
    ensures !ClearsRightly(State(map[Key(d, id) := FreshMessage(d, id)], map[]), sessionId, runId, d, id)
  {
  }

  /**
   * clearRun removes the messages and tool calls of its run; it removes none of another run, in any state, if and
   * only if its run id is blank or no key of that run lies under its prefix.
   */
  lemma ClearRunIsExactIff(sessionId: string, runId: string, d: OutputEvent)
    ensures ClearsExactly(sessionId, runId, d) <==>
      || Trim(runId) == "" || SameRun(d, sessionId, runId)
      || !Covers(RunPrefix(sessionId, runId), PrefixOf(d))
  {
    var p := RunPrefix(sessionId, runId);
    ReachesIff(sessionId, runId, d);
    if Trim(runId) == "" || SameRun(d, sessionId, runId) {
    } else if Reaches(p, d) {
      var id: string :| Trim(id) != "" && p <= Key(d, id);
      ReachedIsCleared(sessionId, runId, d, id);
    } else {
      forall s, id ensures ClearsRightly(s, sessionId, runId, d, id) {
        if p <= Key(d, id) { ReachedIsCovered(p, d, id); }
      }
    }
  }

  // ---- Ids without slashes ----

  predicate SlashFree(id: string) { forall i :: 0 <= i < |id| ==> id[i] != '/' }

  predicate CleanIds(sessionId: string, runId: string) {
    SlashFree(Trim(sessionId)) && SlashFree(Trim(runId))
  }

  /** A string splits at its first slash in one way only. */
  lemma {:induction false} FirstSlash(a: string, b: string, x: string, y: string)
    requires SlashFree(a) && SlashFree(b) && a + "/" + x <= b + "/" + y
    ensures a == b && x <= y
  {
    var s, t := a + "/" + x, b + "/" + y;
    assert s[0] == t[0];
    if a == "" || b == "" {
      assert s[1..] == x && t[1..] == y;
    } else {
      assert s[1..] == a[1..] + "/" + x && t[1..] == b[1..] + "/" + y;
      FirstSlash(a[1..], b[1..], x, y);
      assert a == [a[0]] + a[1..] && b == [b[0]] + b[1..];
    }
  }

  lemma PrefixShape(sessionId: string, runId: string, x: string)
    ensures RunPrefix(sessionId, runId) + x == Trim(sessionId) + "/" + (Trim(runId) + "/" + x)
    ensures RunPrefix(sessionId, runId) == Trim(sessionId) + "/" + (Trim(runId) + "/" + "")
  {
  }

  /** A key lies under the prefix of a run exactly when it belongs to that run. */
  lemma PrefixIsRun(e: OutputEvent, id: string, sessionId: string, runId: string)
    requires CleanIds(e.sessionId, e.runId) && CleanIds(sessionId, runId)
    ensures RunPrefix(sessionId, runId) <= Key(e, id) <==> SameRun(e, sessionId, runId)
  {
    PrefixShape(sessionId, runId, "");
    PrefixShape(e.sessionId, e.runId, Trim(id));
    if RunPrefix(sessionId, runId) <= Key(e, id) {
      FirstSlash(Trim(sessionId), Trim(e.sessionId), Trim(runId) + "/" + "", Trim(e.runId) + "/" + Trim(id));
      FirstSlash(Trim(runId), Trim(e.runId), "", Trim(id));
    }
  }

  /** Runs whose ids have no slashes collide, or are cleared together, only when they are the same. */
  lemma SlashFreeRunsDiffer(d: OutputEvent, e: OutputEvent)
    requires CleanIds(d.sessionId, d.runId) && CleanIds(e.sessionId, e.runId)
    ensures Collide(d, e) <==> SameRun(d, e.sessionId, e.runId)
    ensures Covers(PrefixOf(e), PrefixOf(d)) <==> SameRun(d, e.sessionId, e.runId)
  {
    PrefixIsRun(d, "", e.sessionId, e.runId);
    PrefixIsRun(e, "", d.sessionId, d.runId);
    TrimProperties("");
    assert Key(d, "") == PrefixOf(d) && Key(e, "") == PrefixOf(e);
  }

  /** So keys tell everything apart. */
  lemma KeysDiffer(d: OutputEvent, i: string, e: OutputEvent, j: string)
    requires CleanIds(d.sessionId, d.runId) && CleanIds(e.sessionId, e.runId)
    ensures Key(d, i) == Key(e, j) <==> SameRun(d, e.sessionId, e.runId) && Trim(i) == Trim(j)
  {
    SlashFreeRunsDiffer(d, e);
    KeysDifferIff(d, e);
  }

  /** And clearing a run is exact. */
  lemma ClearRunIsExact(s: State, sessionId: string, runId: string, d: OutputEvent, id: string)
    requires CleanIds(sessionId, runId) && CleanIds(d.sessionId, d.runId)
    ensures ClearsRightly(s, sessionId, runId, d, id)
  {
    SlashFreeRunsDiffer(d, d.(sessionId := sessionId, runId := runId));
    ClearRunIsExactIff(sessionId, runId, d);
  }

  /** With slashes they may: here are two runs of different sessions. */
  lemma SlashesMixRuns(num: nat, body: Body)
    ensures Collide(OutputEvent("a/b", "c", num, body), OutputEvent("a", "b/c", num, body))
    ensures !SameRun(OutputEvent("a/b", "c", num, body), "a", "b/c")
  {
    assert TrimRight("a") == "a" && TrimRight("c") == "c";
    assert "a/b"[..2] == "a/" && "b/c"[..2] == "b/";
    assert RunPrefix("a/b", "c") == "a/b/c/" && RunPrefix("a", "b/c") == "a/b/c/";
  }
}
