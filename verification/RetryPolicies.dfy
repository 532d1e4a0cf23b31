/** The automatic retry budget and its capped exponential backoff. */
module RetryPolicies {

  const SECOND := 1_000_000_000
  const DEFAULT_BASE_BACKOFF := 2 * SECOND
  const DEFAULT_MAX_BACKOFF := 60 * SECOND
  const DEFAULT_RETRY_LIMIT := 5
  const INT64_LIMIT := 0x8000_0000_0000_0000

  datatype RetryPolicy = RetryPolicy(maxRetries: int, baseBackoff: int, maxBackoff: int)

  predicate Normalized(p: RetryPolicy) {
    p.maxRetries >= 0 && 0 < p.baseBackoff <= p.maxBackoff
  }

  /** The policy used when none is configured. */
  function DefaultRetryPolicy(): RetryPolicy {
    RetryPolicy(DEFAULT_RETRY_LIMIT, DEFAULT_BASE_BACKOFF, DEFAULT_MAX_BACKOFF)
  }

  /** normalizeRetryPolicy, field by field. */
  method NormalizeRetryPolicy(input: RetryPolicy) returns (p: RetryPolicy)
    ensures Normalized(p)
    ensures Normalized(input) ==> p == input
    ensures p.maxRetries == if input.maxRetries < 0 then 0 else input.maxRetries
    ensures p.baseBackoff == if input.baseBackoff <= 0 then DEFAULT_BASE_BACKOFF else input.baseBackoff
    ensures input.maxBackoff > 0 && input.maxBackoff >= p.baseBackoff ==> p.maxBackoff == input.maxBackoff
    ensures input.maxBackoff > 0 && input.maxBackoff < p.baseBackoff ==> p.maxBackoff == p.baseBackoff
    ensures input.maxBackoff <= 0 && DEFAULT_MAX_BACKOFF >= p.baseBackoff ==> p.maxBackoff == DEFAULT_MAX_BACKOFF
    ensures input.maxBackoff <= 0 && DEFAULT_MAX_BACKOFF < p.baseBackoff ==> p.maxBackoff == p.baseBackoff
  {
    var defaults := DefaultRetryPolicy();
    p := input;
    if p.maxRetries < 0 { p := p.(maxRetries := 0); }
    if p.baseBackoff <= 0 { p := p.(baseBackoff := defaults.baseBackoff); }
    if p.maxBackoff <= 0 { p := p.(maxBackoff := defaults.maxBackoff); }
    if p.maxBackoff < p.baseBackoff { p := p.(maxBackoff := p.baseBackoff); }
  }

  function Pow2(n: nat): (r: nat)
    ensures r >= 1
  {
    if n == 0 then 1 else 2 * Pow2(n - 1)
  }

  /** A delay doubled k times. */
  function Grown(base: int, k: nat): int {
    base * Pow2(k)
  }

  /** The delay before retry number n, in closed form. */
  function Delay(n: int, p: RetryPolicy): int {
    if n <= 0 then p.baseBackoff
    else if Grown(p.baseBackoff, n - 1) < p.maxBackoff then Grown(p.baseBackoff, n - 1)
    else p.maxBackoff
  }

  lemma GrownStep(base: int, k: nat)
    ensures Grown(base, k + 1) == 2 * Grown(base, k) && Grown(base, 0) == base
  {
  }

  lemma {:induction false} GrownGrows(base: int, m: nat, n: nat)
    requires base > 0 && m <= n
    ensures 0 < base <= Grown(base, m) <= Grown(base, n)
  {
    if m == n {
      if n > 0 {
        GrownStep(base, n - 1);
        GrownGrows(base, n - 1, n - 1);
      }
    } else {
      GrownStep(base, n - 1);
      GrownGrows(base, m, n - 1);
    }
  }

  /** The delay stays within the policy's bounds and never shrinks from one retry to the next. */
  lemma DelayIsMonotone(m: int, n: int, p: RetryPolicy)
    requires Normalized(p) && m <= n
    ensures p.baseBackoff <= Delay(m, p) <= Delay(n, p) <= p.maxBackoff
  {
    if n >= 1 { GrownGrows(p.baseBackoff, 0, n - 1); }
    if m >= 1 {
      GrownGrows(p.baseBackoff, 0, m - 1);
      GrownGrows(p.baseBackoff, m - 1, n - 1);
    }
  }

  // ---- The loop in 64-bit arithmetic ----

  /** Two's complement wrap-around of a 64-bit duration. */
  function Wrap64(x: int): int {
    (x + INT64_LIMIT) % (2 * INT64_LIMIT) - INT64_LIMIT
  }

  /** The rest of the loop: left more doublings, unless the cap is reached before. */
  function Doubled(delay: int, left: nat, cap: int): int
    decreases left
  {
    if left == 0 then (if delay > cap then cap else delay)
    else if Wrap64(delay * 2) >= cap then cap
    else Doubled(Wrap64(delay * 2), left - 1, cap)
  }

  /** What retryDelay computes, for any policy. */
  function LoopDelay(n: int, p: RetryPolicy): int {
    if n <= 0 then p.baseBackoff else Doubled(p.baseBackoff, n - 1, p.maxBackoff)
  }

  /** The delay as stored times show it: in whole seconds. */
  function DelaySeconds(n: int, p: RetryPolicy): int {
    LoopDelay(n, p) / SECOND
  }

  /** retryDelay */
  method RetryDelay(retryCount: int, policy: RetryPolicy) returns (delay: int)
    ensures delay == LoopDelay(retryCount, policy)
  {
    if retryCount <= 0 { return policy.baseBackoff; }
    delay := policy.baseBackoff;
    var attempt := 1;
    while attempt < retryCount
      invariant 1 <= attempt <= retryCount
      invariant Doubled(delay, retryCount - attempt, policy.maxBackoff) == LoopDelay(retryCount, policy)
    {
      delay := Wrap64(delay * 2);
      if delay >= policy.maxBackoff { return policy.maxBackoff; }
      attempt := attempt + 1;
    }
    if delay > policy.maxBackoff { return policy.maxBackoff; }
  }

  /** The k-th doubling of the loop happens: the first always, later ones while the delay is below the cap. */
  predicate Doubles(p: RetryPolicy, k: nat) {
    k == 0 || Grown(p.baseBackoff, k) < p.maxBackoff
  }

  /** No doubling that happens leaves 64 bits. */
  ghost predicate NeverWraps(p: RetryPolicy) {
    forall k: nat :: Doubles(p, k) ==> Grown(p.baseBackoff, k + 1) < INT64_LIMIT
  }

  /** Whatever a policy holds are 64-bit numbers. */
  predicate Fits(p: RetryPolicy) {
    Normalized(p) && p.maxBackoff < INT64_LIMIT
  }

  lemma EarlierDoubles(p: RetryPolicy, j: nat, k: nat)
    requires Normalized(p) && j <= k && Doubles(p, k)
    ensures Doubles(p, j)
  {
    if j > 0 { GrownGrows(p.baseBackoff, j, k); }
  }

  /** From k doublings on, with none of the remaining ones wrapping, the loop ends with the closed form. */
  lemma {:induction false} LoopFrom(p: RetryPolicy, k: nat, left: nat)
    requires Fits(p) && (k > 0 ==> Grown(p.baseBackoff, k) < p.maxBackoff)
    requires forall j: nat :: k <= j < k + left && Doubles(p, j) ==> Grown(p.baseBackoff, j + 1) < INT64_LIMIT
    ensures Doubled(Grown(p.baseBackoff, k), left, p.maxBackoff) == Delay(k + left + 1, p)
    decreases left
  {
    if left == 0 {
      GrownStep(p.baseBackoff, k);
    } else {
      var d := Grown(p.baseBackoff, k + 1);
      assert Doubles(p, k);
      GrownStep(p.baseBackoff, k);
      GrownGrows(p.baseBackoff, 0, k + 1);
      assert Wrap64(d) == d;
      if d >= p.maxBackoff { GrownGrows(p.baseBackoff, k + 1, k + left); } else { LoopFrom(p, k + 1, left - 1); }
    }
  }

  /** The first doubling that wraps makes the next delay negative. */
  lemma {:induction false} WrapShows(p: RetryPolicy, j: nat, k: nat)
    requires Fits(p) && j <= k && Doubles(p, k) && Grown(p.baseBackoff, k + 1) >= INT64_LIMIT
    requires forall i: nat :: j < i <= k ==> Grown(p.baseBackoff, i) < INT64_LIMIT
    ensures Doubled(Grown(p.baseBackoff, j), k + 1 - j, p.maxBackoff) < 0
    decreases k - j
  {
    var d := Grown(p.baseBackoff, j + 1);
    GrownStep(p.baseBackoff, j);
    GrownGrows(p.baseBackoff, 0, j);
    if j == k {
      GrownStep(p.baseBackoff, 0);
      assert Grown(p.baseBackoff, k) < INT64_LIMIT;
      assert INT64_LIMIT <= d < 2 * INT64_LIMIT && Wrap64(d) == d - 2 * INT64_LIMIT < 0;
    } else {
      EarlierDoubles(p, j + 1, k);
      assert Wrap64(d) == d;
      WrapShows(p, j + 1, k);
    }
  }

  lemma {:induction false} FirstWrap(p: RetryPolicy, k: nat) returns (first: nat)
    requires Normalized(p) && Doubles(p, k) && Grown(p.baseBackoff, k + 1) >= INT64_LIMIT
    ensures first <= k && Doubles(p, first) && Grown(p.baseBackoff, first + 1) >= INT64_LIMIT
    ensures forall i: nat :: 0 < i <= first ==> Grown(p.baseBackoff, i) < INT64_LIMIT
  {
    if k == 0 || Grown(p.baseBackoff, k) < INT64_LIMIT {
      first := k;
      forall i: nat | 0 < i <= k ensures Grown(p.baseBackoff, i) < INT64_LIMIT { GrownGrows(p.baseBackoff, i, k); }
    } else {
      EarlierDoubles(p, k - 1, k);
      first := FirstWrap(p, k - 1);
    }
  }

  ghost predicate AlwaysClosedForm(p: RetryPolicy) {
    forall n :: LoopDelay(n, p) == Delay(n, p)
  }

  lemma WrapFails(p: RetryPolicy, k: nat)
    requires Fits(p) && Doubles(p, k) && Grown(p.baseBackoff, k + 1) >= INT64_LIMIT
    ensures !AlwaysClosedForm(p)
  {
    var first := FirstWrap(p, k);
    WrapShows(p, 0, first);
    GrownStep(p.baseBackoff, 0);
    DelayIsMonotone(first + 2, first + 2, p);
    assert LoopDelay(first + 2, p) != Delay(first + 2, p);
  }

  /** The loop computes min(base * 2^(n-1), cap) for every n if and only if no doubling it performs wraps. */
  lemma ClosedFormIff(p: RetryPolicy)
    requires Fits(p)
    ensures AlwaysClosedForm(p) <==> NeverWraps(p)
  {
    if NeverWraps(p) {
      forall n ensures LoopDelay(n, p) == Delay(n, p) {
        GrownStep(p.baseBackoff, 0);
        if n >= 1 { LoopFrom(p, 0, n - 1); }
      }
    } else {
      var k: nat :| Doubles(p, k) && Grown(p.baseBackoff, k + 1) >= INT64_LIMIT;
      WrapFails(p, k);
    }
  }

  /** A cap below 2^62 nanoseconds, some 146 years, is always enough. */
  lemma SmallCapNeverWraps(p: RetryPolicy)
    requires Normalized(p) && p.maxBackoff < INT64_LIMIT / 2
    ensures NeverWraps(p)
  {
    forall k: nat | Doubles(p, k) ensures Grown(p.baseBackoff, k + 1) < INT64_LIMIT {
      GrownStep(p.baseBackoff, k);
      GrownStep(p.baseBackoff, 0);
    }
  }

  /** At 2^62 it depends on the base: equal to the cap it wraps on the first doubling, half of it never does. */
  lemma CapAtTheLimit()
    ensures LoopDelay(2, RetryPolicy(5, INT64_LIMIT / 2, INT64_LIMIT / 2)) == -INT64_LIMIT
    ensures AlwaysClosedForm(RetryPolicy(5, INT64_LIMIT / 4, INT64_LIMIT / 2))
  {
    assert Wrap64(INT64_LIMIT) == -INT64_LIMIT;
    assert Doubled(-INT64_LIMIT, 0, INT64_LIMIT / 2) == -INT64_LIMIT;
    var p := RetryPolicy(5, INT64_LIMIT / 4, INT64_LIMIT / 2);
    forall k: nat | Doubles(p, k) ensures Grown(p.baseBackoff, k + 1) < INT64_LIMIT {
      GrownStep(p.baseBackoff, 0);
      if k > 0 {
        GrownStep(p.baseBackoff, 1);
        GrownGrows(p.baseBackoff, 1, k);
      }
    }
    ClosedFormIff(p);
  }

  // ---- As stored times show it ----

  /** The delay in whole seconds is what the loop computes, cut to seconds. */
  lemma SecondsAreWhole(n: int, p: RetryPolicy)
    ensures DelaySeconds(n, p) * SECOND <= LoopDelay(n, p) < (DelaySeconds(n, p) + 1) * SECOND
  {
  }

  /** By default the five retries come after 2, 4, 8, 16 and 32 seconds, and a minute would be the most. */
  lemma DefaultDelays()
    ensures var p := DefaultRetryPolicy();
      && Normalized(p) && AlwaysClosedForm(p) && p.maxRetries == 5
      && DelaySeconds(1, p) == 2 && DelaySeconds(2, p) == 4 && DelaySeconds(3, p) == 8 && DelaySeconds(4, p) == 16
      && DelaySeconds(5, p) == 32 && forall n :: n >= 6 ==> DelaySeconds(n, p) == 60
  {
    var p := DefaultRetryPolicy();
    SmallCapNeverWraps(p);
    ClosedFormIff(p);
    assert Pow2(1) == 2 && Pow2(2) == 4 && Pow2(3) == 8 && Pow2(4) == 16 && Pow2(5) == 32;
    assert forall n :: LoopDelay(n, p) == Delay(n, p);
    forall n | n >= 6 ensures DelaySeconds(n, p) == 60 { GrownGrows(p.baseBackoff, 5, n - 1); }
  }
}
