/**
 * Retries with backoff and deadline-bounded polling (parsl_ephemeral_provider/error_handling.py).
 * Calls, jitter draws and elapsed times are given by attempt number, counted from 1.
 */
module Retry {
  import opened Collections

  /** `types` holds every class the exception is an instance of. */
  datatype Failure = Failure(types: set<string>, errorCode: string, statusCode: int)

  datatype RetryConfig = RetryConfig(
    maxAttempts: int, baseDelay: real, maxDelay: real, exponentialBackoff: bool, jitter: bool, jitterFactor: real,
    retryOnExceptions: seq<string>, retryOnStatusCodes: seq<int>)

  const NON_RETRYABLE_CODES := [
    "AccessDenied", "InvalidUserID.NotFound", "InvalidGroup.NotFound",
    "UnauthorizedOperation", "ValidationException", "InvalidParameterValue"]

  predicate ShouldRetry(config: RetryConfig, e: Failure, attempt: int) {
    if attempt >= config.maxAttempts then false
    else if exists t :: t in config.retryOnExceptions && t in e.types then
      if "ClientError" in e.types then
        if e.errorCode in NON_RETRYABLE_CODES then false else e.statusCode in config.retryOnStatusCodes
      else true
    else false
  }

  /**
   * An error no further attempt is made for: of none of the listed classes, or a `ClientError` with
   * one of the codes that stay what they are, or with a status that is not listed.
   */
  ghost predicate Hopeless(config: RetryConfig, e: Failure) {
    || (forall t :: t in config.retryOnExceptions ==> t !in e.types)
    || ("ClientError" in e.types
        && (e.errorCode in NON_RETRYABLE_CODES || e.statusCode !in config.retryOnStatusCodes))
  }

  lemma RetriesUnlessHopeless(config: RetryConfig, e: Failure, attempt: int)
    ensures ShouldRetry(config, e, attempt) <==> attempt < config.maxAttempts && !Hopeless(config, e)
  {
    if forall t :: t in config.retryOnExceptions ==> t !in e.types {
      assert !exists t :: t in config.retryOnExceptions && t in e.types;
    } else {
      var t :| t in config.retryOnExceptions && t in e.types;
    }
  }

  // ---------------------------------------------------------------- delays

  function Power(n: nat): (r: real)
    ensures r >= 1.0
  {
    if n == 0 then 1.0 else 2.0 * Power(n - 1)
  }

  function Min(x: real, y: real): real {
    if x <= y then x else y
  }

  function Grown(config: RetryConfig, attempt: nat): real
    requires attempt > 0
  {
    config.baseDelay * Power(attempt - 1)
  }

  /** The delay of an attempt before jitter. */
  function Nominal(config: RetryConfig, attempt: nat): real
    requires attempt > 0
  {
    Min(if config.exponentialBackoff then Grown(config, attempt) else config.baseDelay, config.maxDelay)
  }

  /** `random.uniform(-a, a)` is `-a + 2 * a * draw` for a draw in [0, 1]. */
  function Jittered(delay: real, factor: real, draw: real): real {
    var amount := delay * factor;
    delay + (-amount + 2.0 * amount * draw)
  }

  function GetDelay(config: RetryConfig, attempt: nat, draw: real): real
    requires attempt > 0
  {
    var delay := Nominal(config, attempt);
    var jittered := if config.jitter then Jittered(delay, config.jitterFactor, draw) else delay;
    if jittered > 0.0 then jittered else 0.0
  }

  predicate Sane(config: RetryConfig) {
    0.0 <= config.baseDelay && 0.0 <= config.maxDelay && 0.0 <= config.jitterFactor <= 1.0
  }

  ghost predicate Draws(draw: nat -> real) {
    forall k :: 0.0 <= draw(k) <= 1.0
  }

  /** The least delay any attempt can draw. */
  function Least(config: RetryConfig): real {
    Min(config.baseDelay, config.maxDelay) * (1.0 - config.jitterFactor)
  }

  lemma NonNegative(x: real, y: real)
    requires 0.0 <= x && 0.0 <= y
    ensures 0.0 <= x * y
  {
  }

  lemma JitterBounds(delay: real, factor: real, draw: real)
    requires 0.0 <= delay && 0.0 <= factor && 0.0 <= draw <= 1.0
    ensures var amount := delay * factor;
            delay * (1.0 - factor) <= delay + (-amount + 2.0 * amount * draw) <= delay * (1.0 + factor)
    ensures delay * (1.0 - factor) <= Jittered(delay, factor, draw) <= delay * (1.0 + factor)
  {
    var amount := delay * factor;
    NonNegative(delay, factor);
    NonNegative(amount, draw);
    NonNegative(amount, 1.0 - draw);
  }

  lemma NominalBounds(config: RetryConfig, attempt: nat)
    requires Sane(config) && attempt > 0
    ensures 0.0 <= Min(config.baseDelay, config.maxDelay) <= Nominal(config, attempt) <= config.maxDelay
    ensures config.exponentialBackoff ==> Nominal(config, attempt) <= Grown(config, attempt)
  {
    NonNegative(config.baseDelay, Power(attempt - 1) - 1.0);
  }

  lemma GrowsTwofold(config: RetryConfig, attempt: nat)
    requires Sane(config) && attempt > 0
    ensures 0.0 <= Grown(config, attempt) && Grown(config, attempt + 1) == 2.0 * Grown(config, attempt)
    ensures Grown(config, 1) == config.baseDelay
  {
    NonNegative(config.baseDelay, Power(attempt - 1));
    assert Power(attempt) == 2.0 * Power(attempt - 1);
  }

  lemma PlainDelay(config: RetryConfig, attempt: nat, draw: real)
    requires Sane(config) && attempt > 0
    ensures GetDelay(config.(jitter := false), attempt, draw) == Nominal(config, attempt)
  {
    NominalBounds(config, attempt);
  }

  /**
   * What the delays are before jitter: the least of base and cap, always so when they do not grow, and
   * at first when they do; from then on twice the one before until the cap.
   */
  lemma PlainDelaysAre(config: RetryConfig, attempt: nat, draw: real)
    requires Sane(config) && !config.jitter && attempt > 0
    ensures var delay := GetDelay(config, attempt, draw);
            && (attempt == 1 || !config.exponentialBackoff ==>
                  delay == if config.baseDelay <= config.maxDelay then config.baseDelay else config.maxDelay)
            && (config.exponentialBackoff ==>
                  GetDelay(config, attempt + 1, draw) ==
                    if 2.0 * delay <= config.maxDelay then 2.0 * delay else config.maxDelay)
  {
    assert config == config.(jitter := false);
    PlainDelay(config, attempt, draw);
    PlainDelay(config, attempt + 1, draw);
    GrowsTwofold(config, attempt);
  }

  lemma JitterOf(config: RetryConfig, attempt: nat, draw: real)
    requires Sane(config) && config.jitter && attempt > 0 && 0.0 <= draw <= 1.0
    ensures GetDelay(config, attempt, draw) == Jittered(Nominal(config, attempt), config.jitterFactor, draw)
  {
    NominalBounds(config, attempt);
    JitterKeepsBounds(config, Nominal(config, attempt), draw);
  }

  lemma JitterSpans(delay: real, factor: real)
    ensures Jittered(delay, factor, 0.0) == delay - delay * factor
    ensures Jittered(delay, factor, 0.5) == delay
    ensures Jittered(delay, factor, 1.0) == delay + delay * factor
  {
  }

  /** Jitter spreads a delay by its factor either way: the extremes at the ends of the draw, none in the middle. */
  lemma JitterMoves(config: RetryConfig, attempt: nat)
    requires Sane(config) && config.jitter && attempt > 0
    ensures var delay := GetDelay(config.(jitter := false), attempt, 0.5);
            var amount := delay * config.jitterFactor;
            && GetDelay(config, attempt, 0.0) == delay - amount
            && GetDelay(config, attempt, 0.5) == delay
            && GetDelay(config, attempt, 1.0) == delay + amount
  {
    var delay := GetDelay(config.(jitter := false), attempt, 0.5);
    PlainDelay(config, attempt, 0.5);
    JitterOf(config, attempt, 0.0);
    JitterOf(config, attempt, 0.5);
    JitterOf(config, attempt, 1.0);
    JitterSpans(delay, config.jitterFactor);
  }

  /** The factor of full jitter. */
  function Headroom(config: RetryConfig): real {
    1.0 + config.jitterFactor
  }

  /** The most an attempt can draw. */
  function Most(config: RetryConfig, attempt: nat): real
    requires attempt > 0
  {
    Nominal(config, attempt) * Headroom(config)
  }

  lemma JitterKeepsBounds(config: RetryConfig, delay: real, draw: real)
    requires Sane(config) && 0.0 <= delay && 0.0 <= draw <= 1.0
    ensures var jittered := if config.jitter then Jittered(delay, config.jitterFactor, draw) else delay;
            0.0 <= delay * (1.0 - config.jitterFactor) <= jittered <= delay * (1.0 + config.jitterFactor)
  {
    JitterBounds(delay, config.jitterFactor, if config.jitter then draw else 0.5);
    NonNegative(delay, 1.0 - config.jitterFactor);
  }

  /** A delay is at most the nominal one with full jitter. */
  lemma DelayAtMost(config: RetryConfig, attempt: nat, draw: real)
    requires Sane(config) && attempt > 0 && 0.0 <= draw <= 1.0
    ensures 0.0 <= GetDelay(config, attempt, draw) <= Most(config, attempt)
  {
    NominalBounds(config, attempt);
    JitterKeepsBounds(config, Nominal(config, attempt), draw);
  }

  /** No delay is under the least one. */
  lemma DelayAtLeast(config: RetryConfig, attempt: nat, draw: real)
    requires Sane(config) && attempt > 0 && 0.0 <= draw <= 1.0
    ensures 0.0 <= Least(config) <= GetDelay(config, attempt, draw)
  {
    var least, rest := Min(config.baseDelay, config.maxDelay), 1.0 - config.jitterFactor;
    NominalBounds(config, attempt);
    JitterKeepsBounds(config, Nominal(config, attempt), draw);
    NonNegative(least, rest);
    NonNegative(Nominal(config, attempt) - least, rest);
  }

  function Total(sleeps: seq<real>): real {
    if sleeps == [] then 0.0 else Total(sleeps[..|sleeps| - 1]) + sleeps[|sleeps| - 1]
  }

  lemma TotalMore(sleeps: seq<real>, s: real)
    ensures Total(sleeps + [s]) == Total(sleeps) + s
  {
    assert (sleeps + [s])[..|sleeps|] == sleeps;
  }

  // ---------------------------------------------------------------- retry_with_backoff

  datatype CallResult<T> = Returned(value: T) | Threw(error: Failure)

  /** `raise None` is what a configuration without a single attempt ends in. */
  datatype Outcome<T> = Success(value: T) | Reraised(error: Failure) | RaisedNothing

  /** Another attempt follows a failed one: its handler resolved it, or it may be retried. */
  predicate GoesOn<T>(config: RetryConfig, call: nat -> CallResult<T>, resolved: nat -> bool, attempt: nat) {
    call(attempt).Threw? && (resolved(attempt) || ShouldRetry(config, call(attempt).error, attempt))
  }

  /** The sleeps behind the first `n` failed attempts; a resolved one is retried at once. */
  function Slept(config: RetryConfig, resolved: nat -> bool, draw: nat -> real, n: nat): seq<real> {
    if n == 0 then []
    else if resolved(n) then Slept(config, resolved, draw, n - 1)
    else Slept(config, resolved, draw, n - 1) + [GetDelay(config, n, draw(n))]
  }

  /** `resolved(k)` is the error handler's verdict on attempt `k`; without a handler it is false. */
  method RetryWithBackoff<T>(config: RetryConfig, call: nat -> CallResult<T>, resolved: nat -> bool, draw: nat -> real)
      returns (outcome: Outcome<T>, attempts: nat, sleeps: seq<real>)
    ensures attempts == 0 <==> config.maxAttempts <= 0
    ensures forall k :: 1 <= k < attempts ==>
              call(k).Threw? && (resolved(k) || (k < config.maxAttempts && !Hopeless(config, call(k).error)))
    ensures outcome.Reraised? && attempts < config.maxAttempts ==>
              !resolved(attempts) && Hopeless(config, outcome.error)
    ensures attempts > 0 ==> attempts <= config.maxAttempts
    ensures forall k :: 1 <= k < attempts ==> GoesOn(config, call, resolved, k)
    ensures match outcome
            case Success(v) => attempts > 0 && call(attempts) == Returned(v)
            case Reraised(e) =>
              && attempts > 0 && call(attempts) == Threw(e)
              && (attempts == config.maxAttempts || !GoesOn(config, call, resolved, attempts))
            case RaisedNothing => attempts == 0
    ensures sleeps == Slept(config, resolved, draw, if attempts > 0 then attempts - 1 else 0)
  {
    var lastException: Option<Failure> := None;
    sleeps, attempts := [], 0;
    while attempts < config.maxAttempts
      invariant 0 <= attempts && (attempts > 0 ==> attempts <= config.maxAttempts)
      invariant forall k :: 1 <= k <= attempts ==> GoesOn(config, call, resolved, k)
      invariant forall k :: 1 <= k <= attempts ==>
                  call(k).Threw? && (resolved(k) || (k < config.maxAttempts && !Hopeless(config, call(k).error)))
      invariant attempts > 0 ==> call(attempts).Threw? && lastException == Some(call(attempts).error)
      invariant attempts == 0 ==> lastException.None? && sleeps == []
      invariant attempts < config.maxAttempts ==> sleeps == Slept(config, resolved, draw, attempts)
      invariant 0 < attempts == config.maxAttempts ==> sleeps == Slept(config, resolved, draw, attempts - 1)
    {
      attempts := attempts + 1;
      match call(attempts) {
        case Returned(value) =>
          return Success(value), attempts, sleeps;
        case Threw(e) =>
          lastException := Some(e);
          if !resolved(attempts) {
            RetriesUnlessHopeless(config, e, attempts);
            if !ShouldRetry(config, e, attempts) {
              break;
            }
            if attempts < config.maxAttempts {
              sleeps := sleeps + [GetDelay(config, attempts, draw(attempts))];
            }
          }
      }
    }
    outcome := if lastException.Some? then Reraised(lastException.value) else RaisedNothing;
    if outcome.Reraised? {
      RetriesUnlessHopeless(config, outcome.error, attempts);
    }
  }

  /** The most the first `n` failed attempts can sleep. */
  function Budget(config: RetryConfig, n: nat): real {
    if n == 0 then 0.0 else Budget(config, n - 1) + Most(config, n)
  }

  lemma {:induction false} SleptWithinBudget(config: RetryConfig, resolved: nat -> bool, draw: nat -> real, n: nat)
    requires Sane(config) && Draws(draw)
    ensures Total(Slept(config, resolved, draw, n)) <= Budget(config, n)
  {
    if n > 0 {
      SleptWithinBudget(config, resolved, draw, n - 1);
      DelayAtMost(config, n, draw(n));
      if !resolved(n) {
        TotalMore(Slept(config, resolved, draw, n - 1), GetDelay(config, n, draw(n)));
      }
    }
  }

  lemma MostIsNonNegative(config: RetryConfig, attempt: nat)
    requires Sane(config) && attempt > 0
    ensures 0.0 <= Most(config, attempt)
  {
    NominalBounds(config, attempt);
    NonNegative(Nominal(config, attempt), Headroom(config));
  }

  lemma {:induction false} BudgetGrows(config: RetryConfig, n: nat, m: nat)
    requires Sane(config) && n <= m
    ensures Budget(config, n) <= Budget(config, m)
    decreases m
  {
    if n < m {
      BudgetGrows(config, n, m - 1);
      MostIsNonNegative(config, m);
    }
  }

  /**
   * However a run of `RetryWithBackoff` goes, its sleeps add up to at most the sum of the capped
   * nominal delays of all but the last attempt, each with full jitter.
   */
  lemma RetrySleepsWithinBudget(config: RetryConfig, resolved: nat -> bool, draw: nat -> real, attempts: nat)
    requires Sane(config) && Draws(draw) && 0 < attempts <= config.maxAttempts
    ensures Total(Slept(config, resolved, draw, attempts - 1)) <= Budget(config, config.maxAttempts - 1)
  {
    SleptWithinBudget(config, resolved, draw, attempts - 1);
    BudgetGrows(config, attempts - 1, config.maxAttempts - 1);
  }

  lemma HighestDelay(config: RetryConfig, attempt: nat)
    requires Sane(config) && config.jitter && attempt > 0
    ensures GetDelay(config, attempt, 1.0) == Most(config, attempt)
  {
    NominalBounds(config, attempt);
    NonNegative(Nominal(config, attempt), 1.0 + config.jitterFactor);
  }

  /** The bound is reached when nothing is resolved and every draw is the highest. */
  lemma {:induction false} BudgetReached(config: RetryConfig, resolved: nat -> bool, draw: nat -> real, n: nat)
    requires Sane(config) && config.jitter
    requires forall k :: !resolved(k) && draw(k) == 1.0
    ensures Total(Slept(config, resolved, draw, n)) == Budget(config, n)
  {
    if n > 0 {
      BudgetReached(config, resolved, draw, n - 1);
      assert !resolved(n) && draw(n) == 1.0;
      HighestDelay(config, n);
      TotalMore(Slept(config, resolved, draw, n - 1), GetDelay(config, n, draw(n)));
    }
  }

  lemma Distributes(n: nat, x: real)
    ensures (n + 1) as real * x == n as real * x + x
  {
  }

  lemma Scales(x: real, y: real, factor: real)
    requires x <= y && 0.0 <= factor
    ensures x * factor <= y * factor
  {
    NonNegative(y - x, factor);
  }

  /** The most any attempt can draw. */
  function Ceiling(config: RetryConfig): real {
    config.maxDelay * Headroom(config)
  }

  lemma MostIsCapped(config: RetryConfig, attempt: nat)
    requires Sane(config) && attempt > 0
    ensures Most(config, attempt) <= Ceiling(config)
  {
    NominalBounds(config, attempt);
    Scales(Nominal(config, attempt), config.maxDelay, Headroom(config));
  }

  lemma OneMoreCap(n: nat, x: real, before: real, one: real)
    requires n > 0 && before <= (n - 1) as real * x && one <= x
    ensures before + one <= n as real * x
  {
    Distributes(n - 1, x);
  }

  /** In total the cap is never exceeded per attempt. */
  lemma {:induction false} BudgetCapped(config: RetryConfig, n: nat)
    requires Sane(config)
    ensures Budget(config, n) <= n as real * Ceiling(config)
  {
    if n > 0 {
      BudgetCapped(config, n - 1);
      MostIsCapped(config, n);
      OneMoreCap(n, Ceiling(config), Budget(config, n - 1), Most(config, n));
    }
  }

  /** The sum of the doubling delays of the first `n` attempts. */
  function Doubled(config: RetryConfig, n: nat): real {
    config.baseDelay * (Power(n) - 1.0)
  }

  lemma LessOne(x: real, y: real)
    ensures x * (y - 1.0) == x * y - x
  {
  }

  lemma Twice(x: real, y: real)
    ensures x * (2.0 * y) == x * y + x * y
  {
  }

  lemma Sum(x: real, y: real, f: real)
    ensures x * f + y * f == (x + y) * f
  {
  }

  lemma DoublesOnce(config: RetryConfig, n: nat)
    requires n > 0
    ensures Doubled(config, n - 1) + Grown(config, n) == Doubled(config, n)
  {
    LessOne(config.baseDelay, Power(n - 1));
    LessOne(config.baseDelay, 2.0 * Power(n - 1));
    Twice(config.baseDelay, Power(n - 1));
  }

  /** In total the delays double at most: `base * (2^n - 1)` and its jitter bound them all. */
  lemma {:induction false} BudgetDoubles(config: RetryConfig, n: nat)
    requires Sane(config) && config.exponentialBackoff
    ensures Budget(config, n) <= Doubled(config, n) * Headroom(config)
  {
    if n > 0 {
      BudgetDoubles(config, n - 1);
      MostIsGrown(config, n);
      DoublesOnce(config, n);
      Sum(Doubled(config, n - 1), Grown(config, n), Headroom(config));
    } else {
      NothingDoubled(config);
    }
  }

  lemma NothingDoubled(config: RetryConfig)
    ensures Doubled(config, 0) * Headroom(config) == 0.0
  {
    assert Doubled(config, 0) == 0.0;
  }

  lemma MostIsGrown(config: RetryConfig, n: nat)
    requires Sane(config) && config.exponentialBackoff && n > 0
    ensures Most(config, n) <= Grown(config, n) * Headroom(config)
  {
    NominalBounds(config, n);
    Scales(Nominal(config, n), Grown(config, n), Headroom(config));
  }

  // ---------------------------------------------------------------- poll_until

  datatype Probe<T> = Truthy(value: T) | NotYet | Raised(error: Failure)
  datatype PollOutcome<T> = Satisfied(value: T) | TimedOut

  /** How long attempt `k`'s predicate runs, and how much longer than asked its sleep lasts. */
  datatype Elapsing = Elapsing(call: nat -> real, oversleep: nat -> real)

  /** The clock advances by at least each sleep, and by at least `tick` over each predicate call. */
  ghost predicate Advances(elapsing: Elapsing, tick: real) {
    0.0 <= tick && forall k :: tick <= elapsing.call(k) && 0.0 <= elapsing.oversleep(k)
  }

  /** The errors handed to `on_error` by the first `n` attempts. */
  function Errors<T>(probe: nat -> Probe<T>, n: nat): seq<Failure> {
    if n == 0 then []
    else if probe(n).Raised? then Errors(probe, n - 1) + [probe(n).error]
    else Errors(probe, n - 1)
  }

  /** Those errors are the ones the attempts at the positions `at` raised, which are all that raised. */
  lemma {:induction false} ErrorsAt<T>(probe: nat -> Probe<T>, n: nat) returns (at: seq<nat>)
    ensures |at| == |Errors(probe, n)| && Increasing(at)
    ensures forall k :: 0 <= k < |at| ==> 1 <= at[k] <= n && probe(at[k]) == Raised(Errors(probe, n)[k])
    ensures forall m: nat :: 1 <= m <= n && probe(m).Raised? ==> m in at
  {
    if n == 0 {
      at := [];
    } else {
      at := ErrorsAt(probe, n - 1);
      if probe(n).Raised? {
        IncreasingSnoc(at, n);
        at := at + [n];
      }
    }
  }

  function Ceil(x: real): int {
    -((-x).Floor)
  }

  function MostCalls(timeout: real, gap: real): int
    requires gap > 0.0
  {
    if Ceil(timeout / gap) > 1 then Ceil(timeout / gap) else 1
  }

  /** `calls` rounds of at least `gap` each fit under `clock`. */
  predicate Paced(calls: nat, gap: real, clock: real) {
    calls as real * gap <= clock
  }

  lemma CallsFit(calls: nat, timeout: real, gap: real, clock: real)
    requires gap > 0.0 && Paced(calls, gap, clock) && clock < timeout
    ensures calls < MostCalls(timeout, gap)
  {
    var ratio := timeout / gap;
    assert ratio * gap == timeout;
    if ratio <= calls as real {
      NonNegative(calls as real - ratio, gap);
      assert false;
    }
  }

  lemma OneMoreRound(calls: nat, gap: real, before: real, after: real)
    requires calls > 0 && Paced(calls - 1, gap, before) && before + gap <= after
    ensures Paced(calls, gap, after)
  {
    Distributes(calls - 1, gap);
  }

  /**
   * `gap` is the least time one whole round takes. `clock` runs from 0 at the call; the deadline is
   * `timeout`.
   */
  method PollUntil<T>(config: RetryConfig, probe: nat -> Probe<T>, timeout: real, draw: nat -> real,
          elapsing: Elapsing, ghost tick: real)
      returns (outcome: PollOutcome<T>, attempts: nat, sleeps: seq<real>, reported: seq<Failure>, clock: real)
    requires Sane(config) && Draws(draw) && Advances(elapsing, tick) && tick + Least(config) > 0.0
    ensures 1 <= attempts <= MostCalls(timeout, tick + Least(config))
    ensures forall k :: 1 <= k < attempts ==> !probe(k).Truthy?
    ensures match outcome
            case Satisfied(v) => probe(attempts) == Truthy(v)
            case TimedOut => !probe(attempts).Truthy? && clock >= timeout
    ensures Total(sleeps) <= if timeout > 0.0 then timeout else 0.0
    ensures |sleeps| == attempts || |sleeps| == attempts - 1
    ensures forall k :: 1 <= k < attempts ==> sleeps[k - 1] == GetDelay(config, k, draw(k))
    ensures reported == Errors(probe, attempts)
  {
    attempts, sleeps, reported, clock, outcome := 0, [], [], 0.0, TimedOut;
    ghost var gap := tick + Least(config);
    ghost var most := MostCalls(timeout, gap);
    while true
      invariant |sleeps| == attempts < most
      invariant Paced(attempts, gap, clock) && 0.0 <= clock
      invariant attempts > 0 ==> clock < timeout
      invariant Total(sleeps) <= clock
      invariant forall k :: 1 <= k <= attempts ==> !probe(k).Truthy? && sleeps[k - 1] == GetDelay(config, k, draw(k))
      invariant reported == Errors(probe, attempts)
      decreases most - attempts
    {
      ghost var roundStart := clock;
      attempts := attempts + 1;
      clock := clock + elapsing.call(attempts);
      match probe(attempts) {
        case Truthy(value) =>
          outcome := Satisfied(value);
          return;
        case NotYet =>
        case Raised(e) =>
          reported := reported + [e];
      }
      var delay := GetDelay(config, attempts, draw(attempts));
      DelayAtLeast(config, attempts, draw(attempts));
      var remaining := timeout - clock;
      if remaining <= 0.0 {
        break;
      }
      TotalMore(sleeps, Min(delay, remaining));
      sleeps := sleeps + [Min(delay, remaining)];
      clock := clock + Min(delay, remaining) + elapsing.oversleep(attempts);
      if clock >= timeout {
        break;
      }
      OneMoreRound(attempts, gap, roundStart, clock);
      CallsFit(attempts, timeout, gap, clock);
    }
  }
}
