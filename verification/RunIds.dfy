/** Run ids: one id per attempt of an action, and the turn an id belongs to. */
module RunIds {
  import opened Text

  const ATTEMPT_MARK := "-attempt-"

  /** attemptRunID: the first attempt reuses the action id, later ones carry a suffix. */
  function AttemptRunId(actionId: string, attempt: int): string {
    if attempt <= 1 then Trim(actionId) else Trim(actionId) + ATTEMPT_MARK + Decimal(attempt)
  }

  /** s without the digits at its end. */
  function StripDigits(s: string): string {
    if s != "" && IsDigit(s[|s| - 1]) then StripDigits(s[..|s| - 1]) else s
  }

  predicate EndsWith(s: string, suffix: string) {
    |suffix| <= |s| && s[|s| - |suffix|..] == suffix
  }

  /** Whether s ends in an attempt mark and at least one digit. */
  predicate HasAttemptSuffix(s: string) {
    |StripDigits(s)| < |s| && EndsWith(StripDigits(s), ATTEMPT_MARK)
  }

  /** turnIDFromRunID: the run id with a final attempt suffix removed. */
  function TurnIdFromRunId(runId: string): string {
    var t := Trim(runId);
    if HasAttemptSuffix(t) then StripDigits(t)[..|StripDigits(t)| - |ATTEMPT_MARK|] else t
  }

  /** Whether the pattern -attempt-[0-9]+$ matches s at position i. */
  ghost predicate SuffixAt(s: string, i: nat) {
    && i + |ATTEMPT_MARK| < |s|
    && s[i..i + |ATTEMPT_MARK|] == ATTEMPT_MARK
    && AllDigits(s[i + |ATTEMPT_MARK|..])
  }

  lemma {:induction false} StrippedParts(s: string)
    ensures var h := StripDigits(s); h <= s && AllDigits(s[|h|..]) && (h == "" || !IsDigit(h[|h| - 1]))
  {
    if s == "" || !IsDigit(s[|s| - 1]) {
    } else {
      StrippedParts(s[..|s| - 1]);
      assert s == s[..|s| - 1] + [s[|s| - 1]];
    }
  }

  lemma {:induction false} StripDigitsOf(head: string, digits: string)
    requires AllDigits(digits) && head != "" && !IsDigit(head[|head| - 1])
    ensures StripDigits(head + digits) == head
  {
    if digits == "" {
      assert head + digits == head;
    } else {
      var s := head + digits;
      assert s[..|s| - 1] == head + digits[..|digits| - 1];
      StripDigitsOf(head, digits[..|digits| - 1]);
    }
  }

  lemma MatchIsCut(s: string, i: nat)
    requires SuffixAt(s, i)
    ensures HasAttemptSuffix(s) && StripDigits(s) == s[..i + |ATTEMPT_MARK|]
    ensures |StripDigits(s)| - |ATTEMPT_MARK| == i
  {
    var j := i + |ATTEMPT_MARK|;
    assert s[i..j][|ATTEMPT_MARK| - 1] == s[j - 1];
    assert s[..j] + s[j..] == s;
    StripDigitsOf(s[..j], s[j..]);
    assert s[..j][i..] == s[i..j];
  }

  /** Cutting the suffix is what the regular expression replacement does: the match goes, nothing else does. */
  lemma TurnIdCutsTheMatch(runId: string)
    ensures forall i: nat :: SuffixAt(Trim(runId), i) ==> TurnIdFromRunId(runId) == Trim(runId)[..i]
    ensures (forall i: nat :: !SuffixAt(Trim(runId), i)) ==> TurnIdFromRunId(runId) == Trim(runId)
  {
    var t := Trim(runId);
    forall i: nat | SuffixAt(t, i)
      ensures TurnIdFromRunId(runId) == t[..i]
    {
      MatchIsCut(t, i);
    }
    if HasAttemptSuffix(t) {
      StrippedParts(t);
      var h := StripDigits(t);
      assert h[|h| - |ATTEMPT_MARK|..] == t[|h| - |ATTEMPT_MARK|..|h|];
      assert SuffixAt(t, |h| - |ATTEMPT_MARK|);
    }
  }

  lemma SuffixedParts(base: string, digits: string)
    requires Trimmed(base) && digits != "" && AllDigits(digits)
    ensures var id := base + ATTEMPT_MARK + digits;
      Trimmed(id) && SuffixAt(id, |base|) && id[..|base|] == base
  {
    var id := base + ATTEMPT_MARK + digits;
    assert id[|id| - 1] == digits[|digits| - 1] && IsDigit(digits[|digits| - 1]);
    assert id[0] == if base == "" then '-' else base[0];
  }

  /** From the second attempt on, every id leads back to its action. */
  lemma LaterAttemptRoundTrip(actionId: string, attempt: int)
    requires attempt >= 2
    ensures TurnIdFromRunId(AttemptRunId(actionId, attempt)) == Trim(actionId)
    ensures Trimmed(AttemptRunId(actionId, attempt))
  {
    var id := AttemptRunId(actionId, attempt);
    TrimProperties(actionId);
    SuffixedParts(Trim(actionId), Decimal(attempt));
    TrimProperties(id);
    MatchIsCut(id, |Trim(actionId)|);
  }

  /** The first attempt leads back to its action exactly when the action id has no suffix of its own. */
  lemma FirstAttemptRoundTrip(actionId: string)
    ensures TurnIdFromRunId(AttemptRunId(actionId, 1)) == Trim(actionId)
       <==> !HasAttemptSuffix(Trim(actionId))
  {
    TrimProperties(actionId);
  }

  /** Different attempts of one action never share an id. */
  lemma AttemptsDiffer(actionId: string, m: int, n: int)
    requires 1 <= m && 1 <= n && AttemptRunId(actionId, m) == AttemptRunId(actionId, n)
    ensures m == n
  {
    var base := Trim(actionId);
    if m >= 2 && n >= 2 {
      var prefix := base + ATTEMPT_MARK;
      assert (prefix + Decimal(m))[|prefix|..] == Decimal(m);
      assert (prefix + Decimal(n))[|prefix|..] == Decimal(n);
      DecimalInjective(m, n);
    }
  }

  /** An id that actions are given: not blank, trimmed and without an attempt suffix. */
  predicate ValidId(id: string) {
    id != "" && Trimmed(id) && !HasAttemptSuffix(id)
  }

  /** Each attempt of a validly named action leads back to that action. */
  lemma RunIdRoundTrip(a: string, m: int)
    requires ValidId(a) && 1 <= m
    ensures TurnIdFromRunId(AttemptRunId(a, m)) == a
  {
    TrimProperties(a);
    if m >= 2 { LaterAttemptRoundTrip(a, m); } else { FirstAttemptRoundTrip(a); }
  }

  /** Run ids of validly named actions never meet. */
  lemma RunIdsDiffer(a: string, m: int, b: string, n: int)
    requires ValidId(a) && ValidId(b) && 1 <= m && 1 <= n
    ensures AttemptRunId(a, m) == AttemptRunId(b, n) <==> a == b && m == n
  {
    RunIdRoundTrip(a, m);
    RunIdRoundTrip(b, n);
    if AttemptRunId(a, m) == AttemptRunId(b, n) { AttemptsDiffer(a, m, n); }
  }

  lemma RunIdIsClean(a: string, m: int)
    requires ValidId(a) && 1 <= m
    ensures AttemptRunId(a, m) != "" && Trim(AttemptRunId(a, m)) == AttemptRunId(a, m)
  {
    TrimProperties(a);
    TrimProperties(AttemptRunId(a, m));
    if m >= 2 { LaterAttemptRoundTrip(a, m); }
  }
}
