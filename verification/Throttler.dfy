/** The adaptive throttler: cached queue metrics turned into a decision and a retry delay. */
module Throttler {
  import opened Numbers

  const INT64_MAX := 0x7FFF_FFFF_FFFF_FFFF

  /** Durations are int64 nanoseconds. */
  function Wrap64(x: int): int
  {
    (x + INT64_MAX + 1) % (2 * (INT64_MAX + 1)) - (INT64_MAX + 1)
  }

  /** `time.Duration(n) * time.Second` */
  function Seconds(n: int): int
  {
    Wrap64(n * NANOS)
  }

  /** Whole seconds whose nanosecond product fits an int64. */
  predicate Fits(n: int)
  {
    -9223372036 <= n <= 9223372036
  }

  datatype Config = Config(
    enabled: bool,
    softDepthLimit: int,
    maxMessageAge: int,
    rateLimitScore: real,
    circuitOpenScore: real,
    metricsUpdateInterval: int,
    estimatedDrainRate: real,
    minRetryAfter: int,
    maxRetryAfter: int)
  {
    /** The conjuncts of validateThrottler about the fields the code reads. */
    predicate Valid()
    {
      && 0 < softDepthLimit && 0 < maxMessageAge
      && 0.0 < rateLimitScore < circuitOpenScore
      && 0 < metricsUpdateInterval && 0.0 < estimatedDrainRate
      && 0 < minRetryAfter < maxRetryAfter
    }
  }

  datatype Decision = Allow | RateLimit | CircuitOpen

  function Max(a: real, b: real): real
  {
    if a > b then a else b
  }

  function Score(c: Config, depth: int, age: int): real
    requires c.Valid()
  {
    Max(depth as real / c.softDepthLimit as real, age as real / c.maxMessageAge as real)
  }

  /** The estimate computeRetryAfter makes before truncating it. */
  function RawSeconds(c: Config, depth: int, pending: int, age: int): real
    requires c.Valid()
  {
    var base := (depth + pending) as real / c.estimatedDrainRate;
    if age > c.maxMessageAge then base * (age as real / c.maxMessageAge as real) else base
  }

  function Clamp(c: Config, d: int): int
  {
    var low := if d < c.minRetryAfter then c.minRetryAfter else d;
    if low > c.maxRetryAfter then c.maxRetryAfter else low
  }

  /** computeRetryAfter */
  function RetryAfter(c: Config, depth: int, pending: int, age: int): int
    requires c.Valid()
  {
    Clamp(c, Seconds(Trunc(RawSeconds(c, depth, pending, age))))
  }

  /** Decision, once the metrics have been read: `stamp` in whole seconds, `now` in nanoseconds. */
  function Decide(c: Config, depth: int, pending: int, ageSeconds: int, stamp: int, now: int): (Decision, int)
    requires c.enabled ==> c.Valid()
  {
    if !c.enabled then (Allow, 0)
    else if now - stamp * NANOS > 2 * c.metricsUpdateInterval then (Allow, 0)
    else
      var age := Seconds(ageSeconds);
      var score := Score(c, depth, age);
      if score > c.circuitOpenScore then (CircuitOpen, 0)
      else if score > c.rateLimitScore then (RateLimit, RetryAfter(c, depth, pending, age))
      else (Allow, 0)
  }

  predicate Stale(c: Config, stamp: int, now: int)
  {
    now - stamp * NANOS > 2 * c.metricsUpdateInterval
  }

  // ---- Arithmetic ----

  /** The product is exact for just these whole seconds. */
  lemma FitsExact(n: int)
    ensures Seconds(n) == n * NANOS <==> Fits(n)
  {
  }

  lemma RatioAbove(x: int, limit: int, score: real)
    requires 0 < limit
    ensures x as real / limit as real > score <==> x as real > score * limit as real
  {
    var q := x as real / limit as real;
    assert q * limit as real == x as real;
    if q > score {
      assert (q - score) * limit as real > 0.0;
    }
    if q <= score {
      assert (score - q) * limit as real >= 0.0;
    }
  }

  /** The decision, without quotients: it is Allow on metrics older than twice the update interval, and on others both
      thresholds are crossed by depth or by age. */
  lemma Thresholds(c: Config, depth: int, pending: int, ageSeconds: int, stamp: int, now: int)
    requires c.enabled && c.Valid() && Fits(ageSeconds)
    ensures var d := Decide(c, depth, pending, ageSeconds, stamp, now);
            var age := ageSeconds * NANOS;
            var current := now - stamp * NANOS <= 2 * c.metricsUpdateInterval;
            && (d.0 == CircuitOpen <==>
                 && current
                 && (|| depth as real > c.circuitOpenScore * c.softDepthLimit as real
                     || age as real > c.circuitOpenScore * c.maxMessageAge as real))
            && (d.0 != Allow <==>
                 && current
                 && (|| depth as real > c.rateLimitScore * c.softDepthLimit as real
                     || age as real > c.rateLimitScore * c.maxMessageAge as real))
            && (d.0 != RateLimit ==> d.1 == 0)
  {
    FitsExact(ageSeconds);
    hide Seconds, RetryAfter, Fits;
    var age := ageSeconds * NANOS;
    RatioAbove(depth, c.softDepthLimit, c.circuitOpenScore);
    RatioAbove(age, c.maxMessageAge, c.circuitOpenScore);
    RatioAbove(depth, c.softDepthLimit, c.rateLimitScore);
    RatioAbove(age, c.maxMessageAge, c.rateLimitScore);
  }

  /** Depth alone opens the circuit, whatever the other metrics. */
  lemma DeepOpensCircuit(c: Config, depth: int, pending: int, age: int, stamp: int, now: int)
    requires c.enabled && c.Valid() && !Stale(c, stamp, now)
    requires depth as real > c.circuitOpenScore * c.softDepthLimit as real
    ensures Decide(c, depth, pending, age, stamp, now) == (CircuitOpen, 0)
  {
    RatioAbove(depth, c.softDepthLimit, c.circuitOpenScore);
    hide Seconds, RetryAfter;
  }

  /** More depth or more age never lowers the severity. */
  lemma SeverityMonotone(c: Config, depth: int, depth': int, pending: int, pending': int, age: int, age': int,
                         stamp: int, now: int)
    requires c.enabled && c.Valid() && Fits(age) && Fits(age') && depth <= depth' && age <= age'
    ensures var d, d' := Decide(c, depth, pending, age, stamp, now).0, Decide(c, depth', pending', age', stamp, now).0;
            (d == CircuitOpen ==> d' == CircuitOpen) && (d == RateLimit ==> d' != Allow)
  {
    if !Stale(c, stamp, now) {
      Thresholds(c, depth, pending, age, stamp, now);
      Thresholds(c, depth', pending', age', stamp, now);
      hide Decide;
    }
  }

  lemma QuotientMonotone(x: real, y: real, d: real)
    requires x <= y && 0.0 < d
    ensures x / d <= y / d
  {
    var a, b := x / d, y / d;
    assert a * d == x && b * d == y;
    assert (b - a) * d >= 0.0;
  }

  lemma ProductMonotone(a: real, b: real, x: real, y: real)
    requires 0.0 <= a <= b && 0.0 <= x <= y
    ensures a * x <= b * y
  {
    assert a * x <= b * x;
    assert b * x <= b * y;
  }

  /** The factor by which message age stretches the estimate. */
  function AgeFactor(c: Config, age: int): real
    requires c.Valid()
  {
    if age > c.maxMessageAge then age as real / c.maxMessageAge as real else 1.0
  }

  lemma AgeFactorMonotone(c: Config, age: int, age': int)
    requires c.Valid() && age <= age'
    ensures 1.0 <= AgeFactor(c, age) <= AgeFactor(c, age')
  {
    var m := c.maxMessageAge as real;
    assert m / m == 1.0;
    if age > c.maxMessageAge {
      QuotientMonotone(m, age as real, m);
      QuotientMonotone(age as real, age' as real, m);
    } else if age' > c.maxMessageAge {
      QuotientMonotone(m, age' as real, m);
    }
  }

  lemma RawFactored(c: Config, depth: int, pending: int, age: int)
    requires c.Valid()
    ensures RawSeconds(c, depth, pending, age) == (depth + pending) as real / c.estimatedDrainRate * AgeFactor(c, age)
  {
  }

  lemma RawMonotone(c: Config, depth: int, depth': int, pending: int, pending': int, age: int, age': int)
    requires c.Valid() && 0 <= depth <= depth' && 0 <= pending <= pending' && age <= age'
    ensures 0.0 <= RawSeconds(c, depth, pending, age) <= RawSeconds(c, depth', pending', age')
  {
    var d := c.estimatedDrainRate;
    QuotientMonotone(0.0, (depth + pending) as real, d);
    QuotientMonotone((depth + pending) as real, (depth' + pending') as real, d);
    AgeFactorMonotone(c, age, age');
    RawFactored(c, depth, pending, age);
    RawFactored(c, depth', pending', age');
    hide RawSeconds, AgeFactor;
    ProductMonotone((depth + pending) as real / d, (depth' + pending') as real / d,
                    AgeFactor(c, age), AgeFactor(c, age'));
    ProductMonotone(0.0, (depth + pending) as real / d, 0.0, AgeFactor(c, age));
  }

  /** The estimate is what the queue takes to drain, stretched by the age of its oldest message past the limit. */
  lemma RawDrains(c: Config, depth: int, pending: int, age: int)
    requires c.Valid()
    ensures var q := RawSeconds(c, depth, pending, age);
            && (age <= c.maxMessageAge ==> q * c.estimatedDrainRate == (depth + pending) as real)
            && (age > c.maxMessageAge ==>
                 q * c.estimatedDrainRate * c.maxMessageAge as real == (depth + pending) as real * age as real)
  {
    var load, d := (depth + pending) as real, c.estimatedDrainRate;
    var base := load / d;
    assert base * d == load;
    if age > c.maxMessageAge {
      var m := c.maxMessageAge as real;
      var f := age as real / m;
      assert f * m == age as real;
      assert base * f * d * m == (base * d) * (f * m);
    }
  }

  /** The delay for every input: n is the whole seconds of the estimate q, wrapped is their nanoseconds as an int64, and
      the delay is that kept within the configured bounds. */
  lemma DelayExact(c: Config, depth: int, pending: int, age: int) returns (q: real, n: nat, wrapped: int, wraps: nat)
    requires c.Valid() && 0 <= depth && 0 <= pending
    ensures age <= c.maxMessageAge ==> q * c.estimatedDrainRate == (depth + pending) as real
    ensures age > c.maxMessageAge ==>
              q * c.estimatedDrainRate * c.maxMessageAge as real == (depth + pending) as real * age as real
    ensures n as real <= q < n as real + 1.0
    ensures -0x8000_0000_0000_0000 <= wrapped < 0x8000_0000_0000_0000
    ensures n * 1_000_000_000 == wrapped + wraps * 0x1_0000_0000_0000_0000
    ensures n <= 9223372036 ==> wraps == 0
    ensures var r := RetryAfter(c, depth, pending, age);
            && (wrapped <= c.minRetryAfter ==> r == c.minRetryAfter)
            && (c.minRetryAfter <= wrapped <= c.maxRetryAfter ==> r == wrapped)
            && (c.maxRetryAfter <= wrapped ==> r == c.maxRetryAfter)
  {
    RawDrains(c, depth, pending, age);
    RawMonotone(c, depth, depth, pending, pending, age, age);
    hide RawSeconds;
    q := RawSeconds(c, depth, pending, age);
    n := q.Floor;
    wrapped, wraps := WrapOf(n);
  }

  lemma WrapOf(n: nat) returns (wrapped: int, wraps: nat)
    ensures wrapped == Seconds(n)
    ensures -0x8000_0000_0000_0000 <= wrapped < 0x8000_0000_0000_0000
    ensures n * 1_000_000_000 == wrapped + wraps * 0x1_0000_0000_0000_0000
    ensures n <= 9223372036 ==> wraps == 0
  {
    wrapped := Seconds(n);
    wraps := (n * NANOS + INT64_MAX + 1) / (2 * (INT64_MAX + 1));
  }

  /** The delay grows with depth, pending count and age, across the age branch, until the product overflows. */
  lemma DelayMonotone(c: Config, depth: int, depth': int, pending: int, pending': int, age: int, age': int)
    requires c.Valid() && 0 <= depth <= depth' && 0 <= pending <= pending' && age <= age'
    requires var load := (depth' + pending') as real / c.estimatedDrainRate;
             (if age' > c.maxMessageAge then load * (age' as real / c.maxMessageAge as real) else load) < 9223372037.0
    ensures RetryAfter(c, depth, pending, age) <= RetryAfter(c, depth', pending', age')
    ensures c.minRetryAfter <= RetryAfter(c, depth, pending, age) <= c.maxRetryAfter
  {
    RawMonotone(c, depth, depth', pending, pending', age, age');
    assert RawSeconds(c, depth', pending', age') < 9223372037.0;
    hide RawSeconds;
    var x, y := RawSeconds(c, depth, pending, age), RawSeconds(c, depth', pending', age');
    assert 0 <= x.Floor <= y.Floor;
    FitsExact(x.Floor);
    FitsExact(y.Floor);
    hide Wrap64;
  }

  lemma AgeFactorBound(c: Config, age: int)
    requires c.Valid() && 1.0 <= c.circuitOpenScore && age as real <= c.circuitOpenScore * c.maxMessageAge as real
    ensures AgeFactor(c, age) <= c.circuitOpenScore
  {
    RatioAbove(age, c.maxMessageAge, c.circuitOpenScore);
  }

  /** The estimate in the rate-limited zone is bounded by the configuration and the pending count. */
  lemma RawInZone(c: Config, depth: int, pending: int, age: int)
    requires c.Valid() && 1.0 <= c.circuitOpenScore && 0 <= depth && 0 <= pending
    requires depth as real <= c.circuitOpenScore * c.softDepthLimit as real
    requires age as real <= c.circuitOpenScore * c.maxMessageAge as real
    ensures 0.0 <= RawSeconds(c, depth, pending, age)
    ensures RawSeconds(c, depth, pending, age)
            <= c.circuitOpenScore * ((c.circuitOpenScore * c.softDepthLimit as real + pending as real)
                                     / c.estimatedDrainRate)
  {
    var top := c.circuitOpenScore * c.softDepthLimit as real + pending as real;
    QuotientMonotone((depth + pending) as real, top, c.estimatedDrainRate);
    QuotientMonotone(0.0, (depth + pending) as real, c.estimatedDrainRate);
    AgeFactorBound(c, age);
    AgeFactorMonotone(c, age, age);
    RawFactored(c, depth, pending, age);
    hide RawSeconds, AgeFactor;
    var q := (depth + pending) as real / c.estimatedDrainRate;
    ProductMonotone(q, top / c.estimatedDrainRate, AgeFactor(c, age), c.circuitOpenScore);
    ProductMonotone(0.0, q, 0.0, AgeFactor(c, age));
  }

  /** When the bound of the rate-limited zone is below 2^63 nanoseconds, every rate-limited delay is the estimate q in
      whole seconds n, kept within the configured bounds: no product in it overflows. */
  lemma RateLimitExact(c: Config, depth: int, pending: int, ageSeconds: int, stamp: int, now: int)
    returns (q: real, n: nat)
    requires c.enabled && c.Valid() && 1.0 <= c.circuitOpenScore && 0 <= depth && 0 <= pending && Fits(ageSeconds)
    requires c.circuitOpenScore * ((c.circuitOpenScore * c.softDepthLimit as real + pending as real)
                                   / c.estimatedDrainRate) < 9223372037.0
    requires Decide(c, depth, pending, ageSeconds, stamp, now).0 == RateLimit
    ensures var age := ageSeconds * 1_000_000_000;
            && (age <= c.maxMessageAge ==> q * c.estimatedDrainRate == (depth + pending) as real)
            && (age > c.maxMessageAge ==>
                 q * c.estimatedDrainRate * c.maxMessageAge as real == (depth + pending) as real * age as real)
    ensures n as real <= q < n as real + 1.0
    ensures var nanos, delay := n * 1_000_000_000, Decide(c, depth, pending, ageSeconds, stamp, now).1;
            && (nanos <= c.minRetryAfter ==> delay == c.minRetryAfter)
            && (c.minRetryAfter <= nanos <= c.maxRetryAfter ==> delay == nanos)
            && (c.maxRetryAfter <= nanos ==> delay == c.maxRetryAfter)
  {
    Thresholds(c, depth, pending, ageSeconds, stamp, now);
    FitsExact(ageSeconds);
    var age := ageSeconds * NANOS;
    RawInZone(c, depth, pending, age);
    hide Seconds, Fits;
    var wrapped, wraps;
    q, n, wrapped, wraps := DelayExact(c, depth, pending, age);
    EstimateUnique(c, depth, pending, age, q);
  }

  /** The two equations of the estimate have one solution. */
  lemma EstimateUnique(c: Config, depth: int, pending: int, age: int, q: real)
    requires c.Valid()
    requires age <= c.maxMessageAge ==> q * c.estimatedDrainRate == (depth + pending) as real
    requires age > c.maxMessageAge ==>
               q * c.estimatedDrainRate * c.maxMessageAge as real == (depth + pending) as real * age as real
    ensures q == RawSeconds(c, depth, pending, age)
  {
    RawDrains(c, depth, pending, age);
    var raw, d, m := RawSeconds(c, depth, pending, age), c.estimatedDrainRate, c.maxMessageAge as real;
    hide RawSeconds;
    if age <= c.maxMessageAge {
      Cancel(q, raw, d);
    } else {
      Cancel(q * d, raw * d, m);
      Cancel(q, raw, d);
    }
  }

  lemma Cancel(x: real, y: real, d: real)
    requires 0.0 < d && x * d == y * d
    ensures x == y
  {
    assert (x - y) * d == 0.0;
  }

  // ---- Exactly when no rate-limited delay overflows ----

  /** A request judged on fresh metrics is rate limited. */
  predicate Limited(c: Config, depth: int, pending: int, ageSeconds: int)
    requires c.enabled && c.Valid()
  {
    Decide(c, depth, pending, ageSeconds, 0, 0).0 == RateLimit
  }

  /** The estimate in whole seconds. */
  function Estimate(c: Config, depth: int, pending: int, ageSeconds: int): int
    requires c.Valid()
  {
    Trunc(RawSeconds(c, depth, pending, ageSeconds * NANOS))
  }

  /** It is the number whose product DelayExact finds wrapped. */
  lemma EstimateExact(c: Config, depth: int, pending: int, ageSeconds: int, q: real)
    requires c.Valid() && 0 <= depth && 0 <= pending
    requires ageSeconds * NANOS <= c.maxMessageAge ==> q * c.estimatedDrainRate == (depth + pending) as real
    requires ageSeconds * NANOS > c.maxMessageAge ==>
               q * c.estimatedDrainRate * c.maxMessageAge as real
               == (depth + pending) as real * (ageSeconds * NANOS) as real
    ensures 0 <= Estimate(c, depth, pending, ageSeconds)
    ensures Estimate(c, depth, pending, ageSeconds) as real <= q < Estimate(c, depth, pending, ageSeconds) as real + 1.0
  {
    EstimateUnique(c, depth, pending, ageSeconds * NANOS, q);
    RawMonotone(c, depth, depth, pending, pending, ageSeconds * NANOS, ageSeconds * NANOS);
    hide RawSeconds;
  }

  /** With at most `most` pending, every rate-limited estimate survives its conversion to nanoseconds. */
  ghost predicate OverflowFree(c: Config, most: int)
    requires c.enabled && c.Valid()
  {
    forall depth: int, pending: int, age: int ::
      0 <= depth && 0 <= pending <= most && Fits(age) && Limited(c, depth, pending, age) ==>
        Seconds(Estimate(c, depth, pending, age)) == Estimate(c, depth, pending, age) * NANOS
  }

  /** The largest depth and the largest age in whole seconds at which the circuit is still closed. */
  function CornerDepth(c: Config): int
    requires c.Valid()
  {
    (c.circuitOpenScore * c.softDepthLimit as real).Floor
  }

  function CornerAge(c: Config): int
    requires c.Valid()
  {
    var a := (c.circuitOpenScore * c.maxMessageAge as real / NANOS as real).Floor;
    if a > 9223372036 then 9223372036 else a
  }

  lemma ProductPositive(a: real, b: real)
    requires 0.0 < a && 0.0 < b
    ensures 0.0 < a * b
  {
  }

  lemma BelowFloor(n: int, x: real)
    ensures n as real <= x <==> n <= x.Floor
  {
  }

  lemma AgeBelow(age: int, limit: real)
    ensures (age * NANOS) as real <= limit <==> age <= (limit / NANOS as real).Floor
  {
    var q := limit / NANOS as real;
    assert q * NANOS as real == limit;
    BelowFloor(age, q);
    assert (age * NANOS) as real == age as real * NANOS as real;
  }

  lemma FreshAtZero(c: Config)
    requires c.Valid()
    ensures !Stale(c, 0, 0)
  {
  }

  /** The circuit is closed exactly up to the corner. */
  lemma ClosedIff(c: Config, depth: int, pending: int, age: int)
    requires c.enabled && c.Valid() && Fits(age)
    ensures Decide(c, depth, pending, age, 0, 0).0 != CircuitOpen <==> depth <= CornerDepth(c) && age <= CornerAge(c)
  {
    hide Decide, Stale;
    assert !Stale(c, 0, 0) by { FreshAtZero(c); }
    Thresholds(c, depth, pending, age, 0, 0);
    BelowFloor(depth, c.circuitOpenScore * c.softDepthLimit as real);
    AgeBelow(age, c.circuitOpenScore * c.maxMessageAge as real);
  }

  lemma CornerInRange(c: Config)
    requires c.Valid()
    ensures 0 <= CornerDepth(c) && Fits(CornerAge(c))
  {
    ProductPositive(c.circuitOpenScore, c.softDepthLimit as real);
    ProductPositive(c.circuitOpenScore, c.maxMessageAge as real);
    QuotientMonotone(0.0, c.circuitOpenScore * c.maxMessageAge as real, NANOS as real);
  }

  lemma EstimateMonotone(c: Config, depth: int, depth': int, pending: int, pending': int, age: int, age': int)
    requires c.Valid() && 0 <= depth <= depth' && 0 <= pending <= pending' && age <= age'
    ensures 0 <= Estimate(c, depth, pending, age) <= Estimate(c, depth', pending', age')
  {
    RawMonotone(c, depth, depth', pending, pending', age * NANOS, age' * NANOS);
    hide RawSeconds;
  }

  /** With at most `most` pending, no rate-limited delay overflows if and only if the estimate at the corner fits, or
      the corner itself is not rate limited. */
  lemma OverflowFreeIff(c: Config, most: int)
    requires c.enabled && c.Valid() && 0 <= most
    ensures var depth, age := CornerDepth(c), CornerAge(c);
            OverflowFree(c, most) <==> !Limited(c, depth, most, age) || Fits(Estimate(c, depth, most, age))
  {
    var depth, age := CornerDepth(c), CornerAge(c);
    CornerInRange(c);
    FitsExact(Estimate(c, depth, most, age));
    hide Estimate, Seconds, CornerDepth, CornerAge, Decide;
    if !Limited(c, depth, most, age) || Fits(Estimate(c, depth, most, age)) {
      forall d: int, p: int, a: int | 0 <= d && 0 <= p <= most && Fits(a) && Limited(c, d, p, a)
        ensures Seconds(Estimate(c, d, p, a)) == Estimate(c, d, p, a) * NANOS
      {
        InsideCorner(c, most, d, p, a);
      }
    }
  }

  lemma InsideCorner(c: Config, most: int, depth: int, pending: int, age: int)
    requires c.enabled && c.Valid() && 0 <= depth && 0 <= pending <= most && Fits(age)
    requires Limited(c, depth, pending, age)
    requires !Limited(c, CornerDepth(c), most, CornerAge(c)) || Fits(Estimate(c, CornerDepth(c), most, CornerAge(c)))
    ensures Seconds(Estimate(c, depth, pending, age)) == Estimate(c, depth, pending, age) * NANOS
  {
    CornerInRange(c);
    ClosedIff(c, depth, pending, age);
    ClosedIff(c, CornerDepth(c), most, CornerAge(c));
    SeverityMonotone(c, depth, CornerDepth(c), pending, most, age, CornerAge(c), 0, 0);
    EstimateMonotone(c, depth, CornerDepth(c), pending, most, age, CornerAge(c));
    hide Decide, Estimate, Seconds, CornerDepth, CornerAge;
    FitsExact(Estimate(c, depth, pending, age));
  }

  /** A product can wrap: under this valid configuration a queue of depth 20 is told to come
      back sooner than one of depth 11. */
  lemma OverflowShortensDelay()
    ensures var c := Config(true, 10, NANOS, 1.0, 2.0, NANOS, 0.000000002, NANOS, 60 * NANOS);
            && c.Valid()
            && Decide(c, 11, 0, 0, 0, 0) == (RateLimit, 60 * NANOS)
            && Decide(c, 20, 0, 0, 0, 0) == (RateLimit, NANOS)
  {
    var c := Config(true, 10, NANOS, 1.0, 2.0, NANOS, 0.000000002, NANOS, 60 * NANOS);
    assert RawSeconds(c, 11, 0, 0) == 5500000000.0;
    assert RawSeconds(c, 20, 0, 0) == 10000000000.0;
  }
}
