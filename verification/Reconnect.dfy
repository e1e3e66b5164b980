/** The agent's reconnect loop (src/agent/main.py) and its backoff (src/agent/tunnel.py), over the real numbers. */
module Reconnect {
  import opened Wrappers

  datatype BackoffError = NegativeAttempt | NotPositive | JitterOutOfRange

  function Pow2(n: nat): (p: nat)
    ensures p >= 1
  {
    if n == 0 then 1 else 2 * Pow2(n - 1)
  }

  function Min(a: real, b: real): real {
    if b < a then b else a
  }

  /** The delay of a valid call: capped exponential, scaled by the jitter and capped again. */
  function Delay(attempt: nat, base: real, max: real, jitter: real): real {
    Scaled(Min(max, base * Pow2(attempt) as real), max, jitter)
  }

  function Scaled(seconds: real, max: real, jitter: real): real {
    Min(max, seconds * (0.5 + jitter))
  }

  function NextReconnectDelay(attempt: int, base: real, max: real, jitter: real): Result<real, BackoffError> {
    if attempt < 0 then Err(NegativeAttempt)
    else if base <= 0.0 || max <= 0.0 then Err(NotPositive)
    else if jitter < 0.0 || jitter > 1.0 then Err(JitterOutOfRange)
    else Ok(Delay(attempt, base, max, jitter))
  }

  // ---------------------------------------------------------------- the delays of a burst

  lemma NonNegativeProduct(x: real, y: real)
    requires x >= 0.0 && y >= 0.0
    ensures x * y >= 0.0
  {
  }

  lemma Distributes(x: real, y: real, z: real)
    ensures x * (y + z) == x * y + x * z && (x - y) * z == x * z - y * z
  {
  }

  lemma ScaledBounds(e: real, max: real, jitter: real)
    requires 0.0 < e <= max && 0.0 <= jitter <= 1.0
    ensures 0.5 * e <= Scaled(e, max, jitter) <= max
  {
    Distributes(e, 0.5, jitter);
    NonNegativeProduct(e, jitter);
  }

  lemma ScaledMonotone(a: real, b: real, max: real, jitter: real)
    requires a <= b && 0.0 <= jitter
    ensures Scaled(a, max, jitter) <= Scaled(b, max, jitter)
  {
    Distributes(b, a, 0.5 + jitter);
    NonNegativeProduct(b - a, 0.5 + jitter);
  }

  /** The capped exponential. */
  function Capped(attempt: nat, base: real, max: real): real {
    Min(max, base * Pow2(attempt) as real)
  }

  lemma DelayShape(attempt: nat, base: real, max: real, jitter: real)
    ensures Delay(attempt, base, max, jitter) == Scaled(Capped(attempt, base, max), max, jitter)
  {
  }

  lemma CappedPositive(attempt: nat, base: real, max: real)
    requires base > 0.0 && max > 0.0
    ensures 0.0 < Capped(attempt, base, max) <= max
  {
    PositiveProduct(base, Pow2(attempt) as real);
  }

  lemma PositiveProduct(x: real, y: real)
    requires x > 0.0 && y > 0.0
    ensures x * y > 0.0
  {
  }

  /** Bad arguments are refused, the attempt first and the jitter last. */
  lemma DelayRefused(attempt: int, base: real, max: real, jitter: real)
    ensures var r := NextReconnectDelay(attempt, base, max, jitter);
            && (r.Ok? <==> attempt >= 0 && base > 0.0 && max > 0.0 && 0.0 <= jitter <= 1.0)
            && (r.Err? ==> r.error == if attempt < 0 then NegativeAttempt
                                      else if base <= 0.0 || max <= 0.0 then NotPositive else JitterOutOfRange)
  {
  }

  /**
   The delay exactly: the base doubled with every attempt until the cap, then times 0.5 to 1.5 as the jitter says, and
   never more than the cap.
   */
  lemma DelayIs(attempt: nat, base: real, max: real, jitter: real, grown: real, scaled: real)
    requires grown == base * Pow2(attempt) as real && scaled == Least(max, grown) * (0.5 + jitter)
    requires base > 0.0 && max > 0.0 && 0.0 <= jitter <= 1.0
    ensures NextReconnectDelay(attempt, base, max, jitter) == Ok(Least(max, scaled))
    ensures Pow2(0) == 1 && Pow2(attempt + 1) == 2 * Pow2(attempt)
  {
    assert Capped(attempt, base, max) == Least(max, grown);
    DelayShape(attempt, base, max, jitter);
    ScaledIs(Least(max, grown), max, jitter, scaled);
  }

  lemma ScaledIs(e: real, max: real, jitter: real, scaled: real)
    requires scaled == e * (0.5 + jitter)
    ensures Scaled(e, max, jitter) == Least(max, scaled)
  {
  }

  function Least(a: real, b: real): (m: real)
    ensures m <= a && m <= b && m in {a, b}
  {
    if a <= b then a else b
  }

  /** With the jitter in the middle and a cap of 60 the loop's delays are 1, 2, 4, 8, 16, 32 and from then on 60 seconds. */
  lemma DefaultDelays(i: nat, jitters: seq<real>)
    requires i < |jitters| && jitters[i] == 0.5
    ensures Plan(60.0, jitters)(0, i) == 1.0 && Plan(60.0, jitters)(1, i) == 2.0 && Plan(60.0, jitters)(2, i) == 4.0
    ensures Plan(60.0, jitters)(3, i) == 8.0 && Plan(60.0, jitters)(4, i) == 16.0 && Plan(60.0, jitters)(5, i) == 32.0
    ensures forall n: nat :: n >= 6 ==> Plan(60.0, jitters)(n, i) == 60.0
  {
    assert Pow2(1) == 2 && Pow2(2) == 4 && Pow2(3) == 8 && Pow2(4) == 16 && Pow2(5) == 32 && Pow2(6) == 64;
    forall n: nat | n >= 6 ensures Plan(60.0, jitters)(n, i) == 60.0 {
      Pow2Monotone(6, n);
    }
  }

  /** Every delay lies between half the capped exponential and the cap. */
  lemma DelayBounds(attempt: nat, base: real, max: real, jitter: real)
    requires base > 0.0 && max > 0.0 && 0.0 <= jitter <= 1.0
    ensures NextReconnectDelay(attempt, base, max, jitter) == Ok(Delay(attempt, base, max, jitter))
    ensures 0.5 * Capped(attempt, base, max) <= Delay(attempt, base, max, jitter) <= max
    ensures Delay(attempt, base, max, jitter) > 0.0
  {
    DelayShape(attempt, base, max, jitter);
    CappedPositive(attempt, base, max);
    ScaledBounds(Capped(attempt, base, max), max, jitter);
  }

  lemma {:induction false} Pow2Monotone(i: nat, j: nat)
    requires i <= j
    ensures Pow2(i) <= Pow2(j)
  {
    if i < j { Pow2Monotone(i, j - 1); }
  }

  lemma ProductMonotone(base: real, x: real, y: real)
    requires base > 0.0 && x <= y
    ensures base * x <= base * y
  {
  }

  lemma CappedMonotone(i: nat, j: nat, base: real, max: real)
    requires i <= j && base > 0.0
    ensures Capped(i, base, max) <= Capped(j, base, max)
  {
    Pow2Monotone(i, j);
    ProductMonotone(base, Pow2(i) as real, Pow2(j) as real);
  }

  /** For the same jitter, a later attempt of a burst never waits less. */
  lemma DelayMonotone(i: nat, j: nat, base: real, max: real, jitter: real)
    requires i <= j && base > 0.0 && max > 0.0 && 0.0 <= jitter <= 1.0
    ensures Delay(i, base, max, jitter) <= Delay(j, base, max, jitter)
  {
    CappedMonotone(i, j, base, max);
    DelayShape(i, base, max, jitter);
    DelayShape(j, base, max, jitter);
    ScaledMonotone(Capped(i, base, max), Capped(j, base, max), max, jitter);
  }

  // ---------------------------------------------------------------- the loop

  /** How one tunnel ends: cleanly, with an error that the loop catches, or with one that it does not. */
  datatype Outcome = Clean | Retryable | Fatal

  datatype End = StillRunning | LimitReached | Escaped | BackoffInvalid

  /** The failures at the end of the first `n` tunnels, back to the last success. */
  function Streak(outcomes: seq<Outcome>, n: nat): (k: nat)
    requires n <= |outcomes|
    ensures k <= n
  {
    if n == 0 || outcomes[n - 1] != Retryable then 0 else 1 + Streak(outcomes, n - 1)
  }

  lemma {:induction false} StreakIsLongest(outcomes: seq<Outcome>, n: nat)
    requires n <= |outcomes|
    ensures var k := Streak(outcomes, n);
            && (forall i :: n - k <= i < n ==> outcomes[i] == Retryable)
            && (k < n ==> outcomes[n - k - 1] != Retryable)
  {
    if n > 0 && outcomes[n - 1] == Retryable { StreakIsLongest(outcomes, n - 1); }
  }

  /** The delay that the loop takes at its `i`-th tunnel after so many failures, given what the generator draws. */
  function Plan(max: real, jitters: seq<real>): (nat, nat) -> real {
    (attempt: nat, i: nat) => if i < |jitters| then Delay(attempt, 1.0, max, jitters[i]) else 0.0
  }

  /** The sleeps that the first `n` tunnels cause, if none of them ends the loop. */
  function Sleeps(outcomes: seq<Outcome>, n: nat, delay: (nat, nat) -> real): seq<real>
    requires n <= |outcomes|
  {
    if n == 0 then []
    else
      Sleeps(outcomes, n - 1, delay)
      + if outcomes[n - 1] == Retryable then [delay(Streak(outcomes, n - 1), n - 1)] else []
  }

  /** None of the first `n` tunnels ends the loop. */
  ghost predicate KeepsRunning(outcomes: seq<Outcome>, n: nat, limit: int)
    requires n <= |outcomes|
  {
    && (forall i :: 0 <= i < n ==> outcomes[i] != Fatal)
    && (limit > 0 ==> forall k :: 0 <= k <= n ==> Streak(outcomes, k) <= limit)
  }

  /**
   `_run_tunnel` over the outcomes of its tunnels. It gives up exactly at the first run of `limit` + 1 failures since
   the last success, and has slept before each of the others; with no limit it never gives up.
   */
  method RunTunnel(outcomes: seq<Outcome>, limit: int, max: real, jitters: seq<real>)
    returns (end: End, ended: nat, sleeps: seq<real>)
    requires |outcomes| <= |jitters| && forall i :: 0 <= i < |jitters| ==> 0.0 <= jitters[i] <= 1.0
    ensures ended <= |outcomes| && KeepsRunning(outcomes, ended, limit)
    ensures sleeps == Sleeps(outcomes, ended, Plan(max, jitters))
    ensures end == StillRunning <==> ended == |outcomes|
    ensures end == Escaped ==> outcomes[ended] == Fatal
    ensures end == LimitReached ==> limit > 0 && Streak(outcomes, ended + 1) == limit + 1
    ensures end == BackoffInvalid ==> max <= 0.0 && outcomes[ended] == Retryable
    ensures max > 0.0 ==> (end == StillRunning <==> KeepsRunning(outcomes, |outcomes|, limit))
  {
    var attempt := 0;
    ghost var plan := Plan(max, jitters);
    sleeps, ended := [], 0;
    while ended < |outcomes|
      invariant 0 <= ended <= |outcomes| && KeepsRunning(outcomes, ended, limit)
      invariant attempt == Streak(outcomes, ended)
      invariant sleeps == Sleeps(outcomes, ended, plan)
    {
      assert limit > 0 ==> Streak(outcomes, ended) <= limit;
      match outcomes[ended] {
        case Fatal => return Escaped, ended, sleeps;
        case Clean => attempt := 0;
        case Retryable =>
          if limit > 0 && attempt >= limit { return LimitReached, ended, sleeps; }
          var delay := NextReconnectDelay(attempt, 1.0, max, jitters[ended]);
          if delay.Err? { return BackoffInvalid, ended, sleeps; }
          attempt := attempt + 1;
          sleeps := sleeps + [delay.value];
      }
      ended := ended + 1;
    }
    end := StillRunning;
  }

  // ---------------------------------------------------------------- what a burst sleeps

  function Sum(xs: seq<real>): real {
    if xs == [] then 0.0 else Sum(xs[..|xs| - 1]) + xs[|xs| - 1]
  }

  function Times(n: nat, x: real): real {
    n as real * x
  }

  lemma TimesStep(n: nat, x: real)
    ensures Times(n + 1, x) == Times(n, x) + x
  {
    assert (n + 1) as real == n as real + 1.0;
  }

  /** A success or the start, and then failures from tunnel `at` up to tunnel `at + n`. */
  ghost predicate IsBurst(outcomes: seq<Outcome>, at: nat, n: nat) {
    at + n <= |outcomes| && Streak(outcomes, at) == 0 && forall i :: at <= i < at + n ==> outcomes[i] == Retryable
  }

  /** The delays of a burst that begins with tunnel number `at`. */
  function BurstDelays(n: nat, delay: (nat, nat) -> real, at: nat): seq<real> {
    if n == 0 then [] else BurstDelays(n - 1, delay, at) + [delay(n - 1, at + n - 1)]
  }

  /** A burst of `n` failures sleeps `n` times, its i-th sleep being the i-th delay. */
  lemma {:induction false} BurstSleeps(outcomes: seq<Outcome>, at: nat, n: nat, delay: (nat, nat) -> real)
    requires IsBurst(outcomes, at, n)
    ensures Streak(outcomes, at + n) == n
    ensures Sleeps(outcomes, at + n, delay) == Sleeps(outcomes, at, delay) + BurstDelays(n, delay, at)
  {
    if n > 0 { BurstSleeps(outcomes, at, n - 1, delay); }
  }

  lemma {:induction false} DelaysBounded(n: nat, max: real, jitters: seq<real>, at: nat)
    requires max > 0.0 && at + n <= |jitters| && forall i :: 0 <= i < |jitters| ==> 0.0 <= jitters[i] <= 1.0
    ensures |BurstDelays(n, Plan(max, jitters), at)| == n
    ensures forall i :: 0 <= i < n ==>
      0.5 * Capped(i, 1.0, max) <= BurstDelays(n, Plan(max, jitters), at)[i] <= max
  {
    if n > 0 {
      DelaysBounded(n - 1, max, jitters, at);
      DelayBounds(n - 1, 1.0, max, jitters[at + n - 1]);
    }
  }

  lemma {:induction false} SumBound(xs: seq<real>, max: real)
    requires forall i :: 0 <= i < |xs| ==> xs[i] <= max
    ensures Sum(xs) <= Times(|xs|, max)
  {
    if xs != [] {
      SumBound(xs[..|xs| - 1], max);
      TimesStep(|xs| - 1, max);
    }
  }

  /** A burst that the limit ends sleeps at most the cap for each failure that it is allowed. */
  lemma BurstTotal(outcomes: seq<Outcome>, at: nat, limit: nat, max: real, jitters: seq<real>)
    requires IsBurst(outcomes, at, limit) && max > 0.0 && |outcomes| <= |jitters|
    requires forall i :: 0 <= i < |jitters| ==> 0.0 <= jitters[i] <= 1.0
    ensures var earlier, all := Sleeps(outcomes, at, Plan(max, jitters)), Sleeps(outcomes, at + limit, Plan(max, jitters));
            earlier <= all && |all| == |earlier| + limit && Sum(all[|earlier|..]) <= Times(limit, max)
  {
    var plan := Plan(max, jitters);
    BurstSleeps(outcomes, at, limit, plan);
    DelaysBounded(limit, max, jitters, at);
    SumBound(BurstDelays(limit, plan, at), max);
    var earlier, all := Sleeps(outcomes, at, plan), Sleeps(outcomes, at + limit, plan);
    assert all[|earlier|..] == BurstDelays(limit, plan, at);
  }
}
