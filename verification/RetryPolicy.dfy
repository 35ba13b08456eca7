/** Classifying a task failure, and the delay before the next attempt. Durations are milliseconds. */
module RetryPolicy {
  import opened Wrappers
  import opened TaskModel

  const FIRST_DELAY := 15_000
  const MAX_DELAY := 1_800_000
  const MAX_RETRY_AFTER := 86_400_000

  function MaxAttempts(kind: Kind): nat {
    match kind case Analysis => 5 case Notification => 8 case Reply => 3
  }

  function Min(a: int, b: int): int { if a < b then a else b }
  function Max(a: int, b: int): int { if a > b then a else b }

  function Pow2(n: nat): nat { if n == 0 then 1 else 2 * Pow2(n - 1) }

  lemma {:induction false} Pow2Grows(a: nat, b: nat)
    requires a <= b
    ensures 1 <= Pow2(a) <= Pow2(b)
    decreases b
  {
    if b == 0 {
    } else if a == b {
      if a > 0 { Pow2Grows(a - 1, a - 1); }
    } else {
      Pow2Grows(a, b - 1);
    }
  }

  /** 15 seconds, doubled before every further attempt, at most half an hour. */
  function Backoff(attempts: int): int {
    Min(FIRST_DELAY * Pow2(if attempts > 1 then attempts - 1 else 0), MAX_DELAY)
  }

  /** mailTaskRetryDelay: the doubling loop stops as soon as the cap is reached. */
  method RetryDelay(attempts: int) returns (delay: int)
    ensures delay == Backoff(attempts)
  {
    delay := FIRST_DELAY;
    var i := 1;
    while i < attempts && delay < MAX_DELAY
      invariant 1 <= i && (i <= attempts || i == 1)
      invariant delay == FIRST_DELAY * Pow2(i - 1)
    {
      delay := delay * 2;
      i := i + 1;
    }
    if i < attempts { Pow2Grows(i - 1, attempts - 1); }
    delay := Min(delay, MAX_DELAY);
  }

  /** The token's hash spreads retries by plus or minus a fifth. */
  function OwnDelay(attempts: int, hash: nat): int {
    Min(Backoff(attempts) * (80 + hash % 41) / 100, MAX_DELAY)
  }

  lemma SpreadBounds(unit: nat, spread: int)
    requires 80 <= spread <= 120
    ensures 80 * unit <= unit * spread <= 120 * unit
  {}

  lemma ScaleExact(base: int, spread: int)
    requires base % 100 == 0
    ensures base * spread / 100 == (base / 100) * spread
  {
    var unit := base / 100;
    assert base * spread == 100 * (unit * spread);
  }

  lemma OwnDelayBounds(attempts: int, hash: nat)
    ensures var base := Backoff(attempts);
      var own := OwnDelay(attempts, hash);
      4 * base <= 5 * own <= 6 * base && own <= MAX_DELAY && FIRST_DELAY <= base <= MAX_DELAY
  {
    Pow2Grows(0, if attempts > 1 then attempts - 1 else 0);
    BackoffDivides(attempts);
    var base := Backoff(attempts);
    var spread := 80 + hash % 41;
    ScaleExact(base, spread);
    SpreadBounds(base / 100, spread);
  }

  lemma BackoffDivides(attempts: int)
    ensures Backoff(attempts) % 100 == 0
  {
    var p := Pow2(if attempts > 1 then attempts - 1 else 0);
    assert FIRST_DELAY * p == 100 * (150 * p);
  }

  // ------------------------------------------------------------ classification

  /** The Retry-After header: absent or unusable, a count of seconds, or a date that far ahead. */
  datatype Header = NoHeader | Seconds(n: int) | Date(aheadMs: int)

  function Requested(h: Header): int {
    match h case NoHeader => 0 case Seconds(n) => 1000 * n case Date(ahead) => ahead
  }

  /** The delay kept from a response: seconds must fit 32 bits, and nothing beyond a day is kept. */
  function HeaderDelay(h: Header): int {
    var delay := match h
      case NoHeader => 0
      case Seconds(n) => if 0 < n < 0x8000_0000 then 1000 * n else 0
      case Date(ahead) => Max(0, ahead);
    Min(delay, MAX_RETRY_AFTER)
  }

  /** A header is kept from zero to a day; a count of seconds that is not positive or exceeds 31 bits is none. */
  lemma WhatIsKept(h: Header)
    ensures var asked := if h.Seconds? && !(1 <= h.n <= 2_147_483_647) then 0 else Requested(h);
      HeaderDelay(h) == if asked < 0 then 0 else if asked <= 86_400_000 then asked else 86_400_000
  {}

  datatype Upstream = Upstream(code: int, header: Header)
  datatype Explicit = Explicit(kind: Text, permanent: bool)

  /** Which of the tested errors the cause wraps; several may hold at once. */
  datatype Cause = Cause(canceled: bool, deadline: bool, explicit: Option<Explicit>, upstream: Option<Upstream>,
                         skill: bool, output: bool, network: bool, networkTimeout: bool, message: Text)

  /** What the runner records instead of executing a task beyond its limit. */
  const ATTEMPT_LIMIT := Cause(false, false, Some(Explicit("attempt_limit", true)), None, false, false, false, false,
                               "mail task exceeded its recovery attempt limit")

  datatype Policy = Policy(kind: Text, retryable: bool, delay: int, interrupted: bool)

  predicate RetryableCode(code: int) {
    code >= 500 || code == 408 || code == 409 || code == 425 || code == 429
  }

  /** classifyMailTaskFailure: the first matching case decides, then the attempt limit applies. */
  function Classify(kind: Kind, attempts: int, c: Cause): Policy {
    var p :=
      if c.canceled then Policy("cancelled", true, 0, true)
      else if c.deadline then Policy("timeout", true, 0, false)
      else if c.explicit.Some? then Policy(c.explicit.value.kind, !c.explicit.value.permanent, 0, false)
      else if c.upstream.Some? then
        var code := c.upstream.value.code;
        Policy(if code == 401 || code == 403 then "authentication"
               else if code == 429 then "rate_limit" else "upstream_http",
               RetryableCode(code), HeaderDelay(c.upstream.value.header), false)
      else if c.skill then Policy("configuration", false, 0, false)
      else if c.output then Policy("invalid_output", attempts < 2, 0, false)
      else if c.network then Policy(if c.networkTimeout then "timeout" else "network", true, 0, false)
      else Policy("transient", true, 0, false);
    if attempts >= MaxAttempts(kind) && !p.interrupted then p.(retryable := false) else p
  }

  /** What failMailTask writes: now is read for the delay, later again when the run was interrupted. */
  function Judge(kind: Kind, attempts: int, hash: nat, c: Cause, now: int, later: int): Verdict {
    var p := Classify(kind, attempts, c);
    var next := if p.retryable then Unix(now + Max(OwnDelay(attempts, hash), p.delay)) else 0;
    Verdict(if p.retryable then Pending else Failed,
            if p.interrupted then Max(0, attempts - 1) else attempts,
            if p.interrupted then Unix(later) else next,
            c.message,
            if p.interrupted then Interrupted else FailedRun)
  }

  /** Imperative form, in the order of the source. */
  method JudgeFailure(kind: Kind, attempts: int, hash: nat, c: Cause, now: int, later: int) returns (v: Verdict)
    ensures v == Judge(kind, attempts, hash, c, now, later)
  {
    var policy := Classify(kind, attempts, c);
    var base := RetryDelay(attempts);
    var own := Min(base * (80 + hash % 41) / 100, MAX_DELAY);
    var status, run, left := Pending, FailedRun, attempts;
    var next := Unix(now + Max(own, policy.delay));
    if !policy.retryable {
      status, next := Failed, 0;
    }
    if policy.interrupted {
      left := Max(0, left - 1);
      next := Unix(later);
      run := Interrupted;
    }
    v := Verdict(status, left, next, c.message, run);
  }

  /**
   A retryable, uninterrupted failure at attempt a waits its own delay, which is within a
   fifth of min(15 * 2^(a-1), 1800) seconds and at most half an hour, or the server's, if longer.
   */
  lemma RetryWaits(kind: Kind, attempts: int, hash: nat, c: Cause, now: int, later: int)
    requires Classify(kind, attempts, c).retryable && !Classify(kind, attempts, c).interrupted
    ensures var v := Judge(kind, attempts, hash, c, now, later);
      var own := OwnDelay(attempts, hash);
      && attempts < MaxAttempts(kind) && v.status.Pending? && v.attempts == attempts
      && 4 * Backoff(attempts) <= 5 * own <= 6 * Backoff(attempts) && own <= MAX_DELAY
      && v.next >= Unix(now + own)
      && (c.upstream.Some? && !c.deadline && c.explicit.None? ==>
           v.next >= Unix(now + HeaderDelay(c.upstream.value.header)))
      && (v.next == Unix(now + own) || v.next == Unix(now + Classify(kind, attempts, c).delay))
  {
    OwnDelayBounds(attempts, hash);
  }

  /** As durations: the delay that is used covers the server's request exactly when that is at most a day. */
  lemma DelayCoversRetryAfter(attempts: int, hash: nat, h: Header)
    ensures Max(OwnDelay(attempts, hash), HeaderDelay(h)) >= Requested(h) <==> Requested(h) <= MAX_RETRY_AFTER
  {
    OwnDelayBounds(attempts, hash);
  }

  /** A two-day Retry-After is cut to one day. */
  lemma LongRetryAfterExample()
    ensures Max(OwnDelay(1, 20), HeaderDelay(Seconds(172_800))) < Requested(Seconds(172_800))
  {
    DelayCoversRetryAfter(1, 20, Seconds(172_800));
  }

  /** The longer of the own delay and the server's. */
  function Wait(kind: Kind, attempts: int, hash: nat, c: Cause): int {
    Max(OwnDelay(attempts, hash), Classify(kind, attempts, c).delay)
  }

  /** At the attempt limit only an interruption is retried; a failure ends the task. */
  lemma LimitEndsTask(kind: Kind, attempts: int, hash: nat, c: Cause, now: int, later: int)
    requires attempts >= MaxAttempts(kind)
    ensures var v := Judge(kind, attempts, hash, c, now, later);
      if c.canceled then v.status.Pending? && v.attempts == attempts - 1 && v.run.Interrupted?
      else v.status.Failed? && v.next == 0 && v.run.FailedRun?
  {
    assert MaxAttempts(kind) >= 3;
  }
}
