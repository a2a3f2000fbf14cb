/**
 Retrying an operation with exponential backoff and jitter. Delays are real numbers of
 milliseconds; `Math.round` is the floor of its argument plus one half.
 */
module Retries {
  import opened Wrappers

  datatype Classification = Transient | Permanent

  /** How a call of the operation ends; only instances of `TransientError` are worth another attempt. */
  datatype Outcome<+R> = Returned(value: R) | ThrewTransient | ThrewOther

  function ClassifyError<R>(outcome: Outcome<R>): Classification
  {
    if outcome.ThrewTransient? then Transient else Permanent
  }

  /** `None` stands for a value that is not an integer, or not a finite number. */
  datatype Options = Options(maxAttempts: Option<int>, baseDelayMs: Option<real>, jitterRatio: Option<real>)

  predicate ValidOptions(options: Options)
  {
    && options.maxAttempts.Some? && options.maxAttempts.value > 0
    && options.baseDelayMs.Some? && options.baseDelayMs.value > 0.0
    && options.jitterRatio.Some? && 0.0 <= options.jitterRatio.value <= 1.0
  }

  datatype Stage = RetryDelayStage | DeadLetterPublication

  datatype Result<+R> =
    | Completed(value: R)
    | InvalidOptions
    | Unprepared
    | DeadLettered(attempts: nat, classification: Classification)
    | InfrastructureFailed(stage: Stage, attempts: nat, classification: Classification)

  datatype Letter<+M> = Letter(originalMessage: M, attempts: nat, maxAttempts: int, classification: Classification)

  /**
   What the caller supplies. The operation gets the message itself and may leave it changed; `random`
   answers `None` when it throws or its value is not finite; `prepares` is false when copying the
   message or reading the clock throws; `publishes` is false when the dead-letter queue refuses.
   */
  datatype Environment<!M, R> = Environment(
    message: M, operation: (nat, M) -> (Outcome<R>, M), random: nat -> Option<real>, delays: nat -> bool,
    prepares: bool, publishes: bool)

  // ----- Backoff

  function Pow2(n: nat): (p: nat)
    ensures p >= 1
  {
    if n == 0 then 1 else 2 * Pow2(n - 1)
  }

  /** base * 2^n. */
  function Doubled(base: real, n: nat): (d: real)
    requires base >= 0.0
    ensures d >= 0.0
  {
    if n == 0 then base else 2.0 * Doubled(base, n - 1)
  }

  lemma {:induction false} DoubledIsPower(base: real, n: nat)
    requires base >= 0.0
    ensures Doubled(base, n) == base * Pow2(n) as real
  {
    if n > 0 {
      DoubledIsPower(base, n - 1);
      assert Pow2(n) as real == 2.0 * Pow2(n - 1) as real;
    }
  }

  function Round(x: real): (n: int)
    ensures x - 0.5 < n as real <= x + 0.5
  {
    (x + 0.5).Floor
  }

  /** Math.round of a scaled delay. */
  function Scaled(delay: real, multiplier: real): int
  {
    Round(delay * multiplier)
  }

  /** The multiplier that a random value between zero and one gives. */
  function Multiplier(j: real, random: real): (m: real)
    requires 0.0 <= j <= 1.0 && 0.0 <= random <= 1.0
    ensures 1.0 - j <= m <= 1.0 + j
    ensures (random == 0.0 ==> m == 1.0 - j) && (random == 1.0 ==> m == 1.0 + j) && (random == 0.5 ==> m == 1.0)
  {
    Scales(j, random, 1.0);
    assert 0.0 <= j * random <= j;
    1.0 - j + 2.0 * j * random
  }

  /** `None` when the random source is refused. */
  function RetryDelay(options: Options, attempt: nat, random: Option<real>): (d: Option<int>)
    requires ValidOptions(options) && attempt >= 1
  {
    if random.None? || random.value < 0.0 || random.value > 1.0 then None
    else Some(Scaled(Doubled(options.baseDelayMs.value, attempt - 1), Multiplier(options.jitterRatio.value, random.value)))
  }

  lemma Scales(x: real, a: real, b: real)
    requires x >= 0.0 && a <= b
    ensures x * a <= x * b
  {}

  lemma Rounded(x: real, y: real)
    requires x <= y
    ensures Round(x) <= Round(y)
  {}

  lemma ScaledWithin(e: real, low: real, m: real, high: real)
    requires e >= 0.0 && low <= m <= high
    ensures Scaled(e, low) <= Scaled(e, m) <= Scaled(e, high)
    ensures NearTo(e, low, high, Scaled(e, m))
  {
    var x, y, z := e * low, e * m, e * high;
    assert x <= y <= z by {
      Scales(e, low, m);
      Scales(e, m, high);
    }
    Rounded(x, y);
    Rounded(y, z);
  }

  /** A whole number within one half of the interval that the multipliers give. */
  predicate NearTo(e: real, low: real, high: real, d: int)
  {
    e * low - 0.5 <= d as real <= e * high + 0.5
  }

  /** The delay after an attempt lies between the rounded ends of the jitter interval, and within one half of it. */
  lemma DelayBounds(options: Options, attempt: nat, random: real)
    requires ValidOptions(options) && attempt >= 1 && 0.0 <= random <= 1.0
    ensures RetryDelay(options, attempt, Some(random)).Some?
    ensures var e, j := Doubled(options.baseDelayMs.value, attempt - 1), options.jitterRatio.value;
            var d := RetryDelay(options, attempt, Some(random)).value;
            Scaled(e, 1.0 - j) <= d <= Scaled(e, 1.0 + j) && NearTo(e, 1.0 - j, 1.0 + j, d)
  {
    var e, j := Doubled(options.baseDelayMs.value, attempt - 1), options.jitterRatio.value;
    ScaledWithin(e, 1.0 - j, Multiplier(j, random), 1.0 + j);
  }

  /** A point of the interval from `low` to `high`, in proportion to the random value. */
  function Between01(low: real, high: real, random: real): real { low + random * (high - low) }

  lemma ScaledPoint(e: real, j: real, random: real, low: real, high: real)
    requires 0.0 <= j <= 1.0 && 0.0 <= random <= 1.0 && low == e * (1.0 - j) && high == e * (1.0 + j)
    ensures e * Multiplier(j, random) == Between01(low, high, random)
  {
    var x := e * j;
    assert low == e - x && high == e + x;
    assert e * (2.0 * j * random) == 2.0 * x * random;
    assert e * (1.0 - j + 2.0 * j * random) == low + e * (2.0 * j * random);
  }

  /** The delay doubles with every attempt. */
  function Exponential(options: Options, attempt: nat): real
    requires ValidOptions(options) && attempt >= 1
  {
    options.baseDelayMs.value * Pow2(attempt - 1) as real
  }

  lemma DelayIsScaled(options: Options, attempt: nat, random: real, e: real)
    requires ValidOptions(options) && attempt >= 1 && 0.0 <= random <= 1.0
    requires e == Doubled(options.baseDelayMs.value, attempt - 1)
    ensures RetryDelay(options, attempt, Some(random)) == Some(Scaled(e, Multiplier(options.jitterRatio.value, random)))
  {}

  lemma ScaledIs(e: real, m: real, point: real)
    requires e * m == point
    ensures Scaled(e, m) == Round(point)
  {}

  lemma PointIsDelay(options: Options, attempt: nat, random: real, e: real, m: real, point: real)
    requires ValidOptions(options) && attempt >= 1
    requires RetryDelay(options, attempt, Some(random)) == Some(Scaled(e, m)) && e * m == point
    ensures RetryDelay(options, attempt, Some(random)) == Some(Round(point))
  {
    ScaledIs(e, m, point);
  }

  /**
   The delay after an attempt is the rounded point that the random value picks between
   base * 2^(attempt - 1) * (1 - j) and base * 2^(attempt - 1) * (1 + j); any other random value is refused.
   */
  lemma DelayInterpolates(options: Options, attempt: nat, random: Option<real>, low: real, high: real)
    requires ValidOptions(options) && attempt >= 1
    requires low == Exponential(options, attempt) * (1.0 - options.jitterRatio.value)
    requires high == Exponential(options, attempt) * (1.0 + options.jitterRatio.value)
    ensures RetryDelay(options, attempt, random)
         == if random.Some? && 0.0 <= random.value <= 1.0 then Some(Round(Between01(low, high, random.value))) else None
  {
    DoubledIsPower(options.baseDelayMs.value, attempt - 1);
    if random.Some? && 0.0 <= random.value <= 1.0 {
      ScaledPoint(Exponential(options, attempt), options.jitterRatio.value, random.value, low, high);
      DelayIsScaled(options, attempt, random.value, Exponential(options, attempt));
      PointIsDelay(options, attempt, random.value, Exponential(options, attempt),
                   Multiplier(options.jitterRatio.value, random.value), Between01(low, high, random.value));
    }
  }

  lemma Ends(low: real, high: real)
    ensures Between01(low, high, 0.0) == low && Between01(low, high, 1.0) == high
    ensures Between01(low, high, 0.5) == (low + high) / 2.0
  {}

  lemma Middle(e: real, j: real)
    ensures (e * (1.0 - j) + e * (1.0 + j)) / 2.0 == e
  {}

  /** The smallest random value gives the shortest delay, the largest the longest, and the middle the delay without jitter. */
  lemma DelayEnds(options: Options, attempt: nat, low: real, high: real)
    requires ValidOptions(options) && attempt >= 1
    requires low == Exponential(options, attempt) * (1.0 - options.jitterRatio.value)
    requires high == Exponential(options, attempt) * (1.0 + options.jitterRatio.value)
    ensures RetryDelay(options, attempt, Some(0.0)) == Some(Round(low))
    ensures RetryDelay(options, attempt, Some(0.5)) == Some(Round(Exponential(options, attempt)))
    ensures RetryDelay(options, attempt, Some(1.0)) == Some(Round(high))
  {
    DelayInterpolates(options, attempt, Some(0.0), low, high);
    DelayInterpolates(options, attempt, Some(0.5), low, high);
    DelayInterpolates(options, attempt, Some(1.0), low, high);
    Ends(low, high);
    Middle(Exponential(options, attempt), options.jitterRatio.value);
  }

  lemma PointGrows(low: real, high: real, random: real, random': real)
    requires low <= high && random <= random'
    ensures Between01(low, high, random) <= Between01(low, high, random')
  {
    Scales(high - low, random, random');
  }

  /** A larger random value never gives a shorter delay. */
  lemma DelayGrows(options: Options, attempt: nat, random: real, random': real)
    requires ValidOptions(options) && attempt >= 1 && 0.0 <= random <= random' <= 1.0
    ensures RetryDelay(options, attempt, Some(random)).Some? && RetryDelay(options, attempt, Some(random')).Some?
    ensures RetryDelay(options, attempt, Some(random)).value <= RetryDelay(options, attempt, Some(random')).value
  {
    var e, j := Exponential(options, attempt), options.jitterRatio.value;
    var low, high := e * (1.0 - j), e * (1.0 + j);
    DoubledIsPower(options.baseDelayMs.value, attempt - 1);
    Scales(e, 1.0 - j, 1.0 + j);
    DelayInterpolates(options, attempt, Some(random), low, high);
    DelayInterpolates(options, attempt, Some(random'), low, high);
    PointGrows(low, high, random, random');
    Rounded(Between01(low, high, random), Between01(low, high, random'));
  }

  function Total(delays: seq<int>): int
  {
    if delays == [] then 0 else Total(delays[..|delays| - 1]) + delays[|delays| - 1]
  }

  /** The delays after attempts 1, 2, ... in turn. */
  ghost predicate Backoff(options: Options, random: nat -> Option<real>, delays: seq<int>)
    requires ValidOptions(options)
  {
    forall i :: 0 <= i < |delays| ==> RetryDelay(options, i + 1, random(i + 1)) == Some(delays[i])
  }

  /** Each delay doubles between the two bases, give or take the rounding. */
  ghost predicate Within(low: real, high: real, delays: seq<int>)
    requires low >= 0.0 && high >= 0.0
  {
    forall i :: 0 <= i < |delays| ==> Doubled(low, i) - 0.5 <= delays[i] as real <= Doubled(high, i) + 0.5
  }

  lemma {:induction false} DoubledScales(base: real, multiplier: real, n: nat)
    requires base >= 0.0 && multiplier >= 0.0
    ensures base * multiplier >= 0.0 && Doubled(base * multiplier, n) == Doubled(base, n) * multiplier
  {
    Scales(base, 0.0, multiplier);
    if n > 0 {
      DoubledScales(base, multiplier, n - 1);
      Twice(Doubled(base, n - 1), multiplier);
    }
  }

  lemma Twice(x: real, y: real)
    ensures 2.0 * (x * y) == 2.0 * x * y
  {}

  lemma FitsFrom(base: real, n: nat, low: real, high: real, delay: real)
    requires base >= 0.0 && low >= 0.0 && high >= 0.0
    requires Doubled(base, n) * low - 0.5 <= delay <= Doubled(base, n) * high + 0.5
    ensures base * low >= 0.0 && base * high >= 0.0
    ensures Doubled(base * low, n) - 0.5 <= delay <= Doubled(base * high, n) + 0.5
  {
    DoubledScales(base, low, n);
    DoubledScales(base, high, n);
  }

  /** The delay of each attempt is the doubling base times a multiplier from low to high, rounded. */
  ghost predicate Between(base: real, low: real, high: real, delays: seq<int>)
    requires base >= 0.0
  {
    forall i :: 0 <= i < |delays| ==> NearTo(Doubled(base, i), low, high, delays[i])
  }

  lemma BackoffBetween(options: Options, random: nat -> Option<real>, delays: seq<int>)
    requires ValidOptions(options) && Backoff(options, random, delays)
    ensures Between(options.baseDelayMs.value, 1.0 - options.jitterRatio.value, 1.0 + options.jitterRatio.value, delays)
  {
    forall i | 0 <= i < |delays|
      ensures NearTo(Doubled(options.baseDelayMs.value, i),
                     1.0 - options.jitterRatio.value, 1.0 + options.jitterRatio.value, delays[i])
    {
      assert RetryDelay(options, i + 1, random(i + 1)) == Some(delays[i]);
      DelayBounds(options, i + 1, random(i + 1).value);
    }
  }

  lemma BetweenWithin(base: real, low: real, high: real, delays: seq<int>)
    requires base >= 0.0 && low >= 0.0 && high >= 0.0 && Between(base, low, high, delays)
    ensures base * low >= 0.0 && base * high >= 0.0 && Within(base * low, base * high, delays)
  {
    Scales(base, 0.0, low);
    Scales(base, 0.0, high);
    forall i | 0 <= i < |delays|
      ensures Doubled(base * low, i) - 0.5 <= delays[i] as real <= Doubled(base * high, i) + 0.5
    {
      assert NearTo(Doubled(base, i), low, high, delays[i]);
      FitsFrom(base, i, low, high, delays[i] as real);
    }
  }

  /** Terms that double add up to the next one less the first. */
  lemma {:induction false} WithinTotals(low: real, high: real, delays: seq<int>)
    requires low >= 0.0 && high >= 0.0 && Within(low, high, delays)
    ensures var n := |delays|;
            Doubled(low, n) - low - 0.5 * n as real <= Total(delays) as real <= Doubled(high, n) - high + 0.5 * n as real
  {
    if delays != [] {
      WithinTotals(low, high, delays[..|delays| - 1]);
    }
  }

  /** What n delays that double from a scaled base add up to, with every one rounded up, or down, by one half. */
  function Longest(base: real, multiplier: real, n: nat): real
  {
    base * multiplier * (Pow2(n) as real - 1.0) + 0.5 * n as real
  }

  function Shortest(base: real, multiplier: real, n: nat): real
  {
    base * multiplier * (Pow2(n) as real - 1.0) - 0.5 * n as real
  }

  lemma PowerForm(b: real, n: nat)
    requires b >= 0.0
    ensures Doubled(b, n) - b == b * (Pow2(n) as real - 1.0)
  {
    DoubledIsPower(b, n);
  }

  lemma ClosedForms(base: real, multiplier: real, n: nat)
    requires base >= 0.0 && multiplier >= 0.0
    ensures base * multiplier >= 0.0
    ensures Longest(base, multiplier, n) == Doubled(base * multiplier, n) - base * multiplier + 0.5 * n as real
    ensures Shortest(base, multiplier, n) == Doubled(base * multiplier, n) - base * multiplier - 0.5 * n as real
  {
    Scales(base, 0.0, multiplier);
    PowerForm(base * multiplier, n);
  }

  lemma BetweenTotals(base: real, low: real, high: real, delays: seq<int>)
    requires base >= 0.0 && low >= 0.0 && high >= 0.0 && Between(base, low, high, delays)
    ensures base * low >= 0.0 && base * high >= 0.0
    ensures var n, l, h := |delays|, base * low, base * high;
            Doubled(l, n) - l - 0.5 * n as real <= Total(delays) as real <= Doubled(h, n) - h + 0.5 * n as real
  {
    BetweenWithin(base, low, high, delays);
    WithinTotals(base * low, base * high, delays);
  }

  lemma BetweenClosed(base: real, low: real, high: real, delays: seq<int>)
    requires base >= 0.0 && low >= 0.0 && high >= 0.0 && Between(base, low, high, delays)
    ensures Shortest(base, low, |delays|) <= Total(delays) as real <= Longest(base, high, |delays|)
  {
    BetweenTotals(base, low, high, delays);
    ClosedForms(base, low, |delays|);
    ClosedForms(base, high, |delays|);
  }

  /** Whatever the random values, n delays add up to base * (2^n - 1) give or take the jitter and the rounding. */
  lemma TotalBounds(options: Options, random: nat -> Option<real>, delays: seq<int>)
    requires ValidOptions(options) && Backoff(options, random, delays)
    ensures var b, j := options.baseDelayMs.value, options.jitterRatio.value;
            Shortest(b, 1.0 - j, |delays|) <= Total(delays) as real <= Longest(b, 1.0 + j, |delays|)
  {
    BackoffBetween(options, random, delays);
    BetweenClosed(options.baseDelayMs.value, 1.0 - options.jitterRatio.value, 1.0 + options.jitterRatio.value, delays);
  }

  /** Without jitter and with a whole base every delay is exactly base * 2^(attempt - 1). */
  lemma ExactDelay(options: Options, attempt: nat, random: Option<real>, base: int)
    requires ValidOptions(options) && attempt >= 1 && RetryDelay(options, attempt, random).Some?
    requires options.jitterRatio.value == 0.0 && options.baseDelayMs.value == base as real
    ensures RetryDelay(options, attempt, random) == Some(base * Pow2(attempt - 1))
  {
    DoubledIsPower(base as real, attempt - 1);
    assert Doubled(base as real, attempt - 1) == (base * Pow2(attempt - 1)) as real;
    assert Multiplier(0.0, random.value) == 1.0;
  }

  lemma Doubling(base: int, n: nat)
    requires n >= 1
    ensures base * (Pow2(n) - 1) == base * (Pow2(n - 1) - 1) + base * Pow2(n - 1)
  {}

  lemma {:induction false} ExactBackoff(options: Options, random: nat -> Option<real>, delays: seq<int>, base: int)
    requires ValidOptions(options) && Backoff(options, random, delays)
    requires options.jitterRatio.value == 0.0 && options.baseDelayMs.value == base as real
    ensures Total(delays) == base * (Pow2(|delays|) - 1)
  {
    var n := |delays|;
    if n > 0 {
      ExactBackoff(options, random, delays[..n - 1], base);
      assert RetryDelay(options, n, random(n)) == Some(delays[n - 1]);
      ExactDelay(options, n, random(n), base);
      Doubling(base, n);
    }
  }

  lemma {:induction false} Pow2Grows(m: nat, n: nat)
    requires m <= n
    ensures Pow2(m) <= Pow2(n)
    decreases n
  {
    if m < n {
      Pow2Grows(m, n - 1);
    }
  }

  lemma LongestGrows(base: real, multiplier: real, m: nat, n: nat)
    requires base >= 0.0 && multiplier >= 0.0 && m <= n
    ensures Longest(base, multiplier, m) <= Longest(base, multiplier, n)
  {
    Pow2Grows(m, n);
    Scales(base, 0.0, multiplier);
    Scales(base * multiplier, Pow2(m) as real - 1.0, Pow2(n) as real - 1.0);
  }

  /** However the run ends, the time spent waiting is bounded by the options alone. */
  lemma TotalWithinLimit(options: Options, random: nat -> Option<real>, delays: seq<int>)
    requires ValidOptions(options) && Backoff(options, random, delays) && |delays| < options.maxAttempts.value
    ensures Total(delays) as real
         <= Longest(options.baseDelayMs.value, 1.0 + options.jitterRatio.value, options.maxAttempts.value - 1)
  {
    TotalBounds(options, random, delays);
    LongestGrows(options.baseDelayMs.value, 1.0 + options.jitterRatio.value, |delays|, options.maxAttempts.value - 1);
  }

  // ----- The attempts

  /** The message as the operation finds it at an attempt, changed by all attempts before it. */
  function ContentAt<M, R>(env: Environment<M, R>, attempt: nat): M
    requires attempt >= 1
  {
    if attempt == 1 then env.message else env.operation(attempt - 1, ContentAt(env, attempt - 1)).1
  }

  function OutcomeAt<M, R>(env: Environment<M, R>, attempt: nat): Outcome<R>
    requires attempt >= 1
  {
    env.operation(attempt, ContentAt(env, attempt)).0
  }

  /** An attempt is followed by another one. */
  predicate Retried<M, R>(env: Environment<M, R>, options: Options, attempt: nat)
    requires ValidOptions(options) && attempt >= 1
  {
    && OutcomeAt(env, attempt).ThrewTransient? && attempt < options.maxAttempts.value
    && RetryDelay(options, attempt, env.random(attempt)).Some? && env.delays(attempt)
  }

  /** What the caller gets when `attempt` is the last one. */
  function Verdict<M, R>(env: Environment<M, R>, options: Options, attempt: nat): Result<R>
    requires ValidOptions(options) && attempt >= 1
  {
    var outcome := OutcomeAt(env, attempt);
    if outcome.Returned? then Completed(outcome.value)
    else if outcome.ThrewTransient? && attempt < options.maxAttempts.value then
      InfrastructureFailed(RetryDelayStage, attempt, Transient)
    else if env.publishes then DeadLettered(attempt, ClassifyError(outcome))
    else InfrastructureFailed(DeadLetterPublication, attempt, ClassifyError(outcome))
  }

  /**
   The attempts are 1, 2, ..., k, where k is the first that is not retried. At most one letter is
   written, only for a message given up, and it holds the message as it was before the first
   attempt, whatever the attempts did to it since.
   */
  method ExecuteWithRetry<M, R>(env: Environment<M, R>, options: Options)
    returns (result: Result<R>, message: M, attempts: seq<nat>, waited: seq<int>, letter: Option<Letter<M>>)
    ensures !ValidOptions(options) ==> result == InvalidOptions && attempts == [] && message == env.message
    ensures ValidOptions(options) && !env.prepares ==> result == Unprepared && attempts == [] && message == env.message
    ensures attempts == [] ==> waited == [] && letter == None
    ensures ValidOptions(options) && env.prepares ==>
              && 1 <= |attempts| <= options.maxAttempts.value
              && (forall i :: 0 <= i < |attempts| ==> attempts[i] == i + 1)
              && (forall a :: 1 <= a < |attempts| ==> Retried(env, options, a))
              && !Retried(env, options, |attempts|)
              && result == Verdict(env, options, |attempts|)
              && message == ContentAt(env, |attempts| + 1)
              && |waited| == |attempts| - 1 && Backoff(options, env.random, waited)
    ensures letter == if result.DeadLettered?
                      then Some(Letter(env.message, result.attempts, options.maxAttempts.value, result.classification))
                      else None
    ensures result.DeadLettered? || result.InfrastructureFailed? ==>
              attempts != [] && (result.classification.Transient? <==> OutcomeAt(env, |attempts|).ThrewTransient?)
    ensures letter.Some? ==> (letter.value.classification.Transient? <==> OutcomeAt(env, |attempts|).ThrewTransient?)
  {
    message, attempts, waited, letter := env.message, [], [], None;
    if options.maxAttempts.None? || options.maxAttempts.value <= 0 {
      return InvalidOptions, message, attempts, waited, letter;
    }
    if options.baseDelayMs.None? || options.baseDelayMs.value <= 0.0 {
      return InvalidOptions, message, attempts, waited, letter;
    }
    if options.jitterRatio.None? || options.jitterRatio.value < 0.0 || options.jitterRatio.value > 1.0 {
      return InvalidOptions, message, attempts, waited, letter;
    }
    if !env.prepares {
      return Unprepared, message, attempts, waited, letter;
    }
    var originalMessage := message;
    var attempt := 1;
    while attempt <= options.maxAttempts.value
      invariant 1 <= attempt <= options.maxAttempts.value
      invariant |attempts| == attempt - 1 && forall i :: 0 <= i < |attempts| ==> attempts[i] == i + 1
      invariant forall a :: 1 <= a < attempt ==> Retried(env, options, a)
      invariant message == ContentAt(env, attempt) && letter == None
      invariant |waited| == attempt - 1 && Backoff(options, env.random, waited)
      decreases options.maxAttempts.value - attempt
    {
      var (outcome, after) := env.operation(attempt, message);
      message, attempts := after, attempts + [attempt];
      if outcome.Returned? {
        return Completed(outcome.value), message, attempts, waited, letter;
      }
      var classification := ClassifyError(outcome);
      var shouldRetry := classification == Transient && attempt < options.maxAttempts.value;
      if !shouldRetry {
        if !env.publishes {
          return InfrastructureFailed(DeadLetterPublication, attempt, classification), message, attempts, waited, letter;
        }
        letter := Some(Letter(originalMessage, attempt, options.maxAttempts.value, classification));
        return DeadLettered(attempt, classification), message, attempts, waited, letter;
      }
      var delay := RetryDelay(options, attempt, env.random(attempt));
      if delay.None? || !env.delays(attempt) {
        return InfrastructureFailed(RetryDelayStage, attempt, classification), message, attempts, waited, letter;
      }
      waited := waited + [delay.value];
      attempt := attempt + 1;
    }
    assert false;
  }
}
