/** The consume loop's exponential backoff. */
module Backoff {
  import opened Numbers

  function Pow2(k: nat): nat
  {
    if k == 0 then 1 else 2 * Pow2(k - 1)
  }

  /** How many failures end a trace of polls; true stands for a failed Consume. */
  function TrailingFailures(trace: seq<bool>): nat
  {
    if trace == [] || !trace[|trace| - 1] then 0 else 1 + TrailingFailures(trace[..|trace| - 1])
  }

  /** Doubling and capping step by step is capping the power at once. */
  lemma DoubleCapped(min: int, max: int, k: nat)
    requires 0 < min <= max
    ensures Min(max, 2 * Min(max, min * Pow2(k))) == Min(max, min * Pow2(k + 1))
  {
    assert min * Pow2(k + 1) == 2 * (min * Pow2(k));
  }

  lemma PowAtLeastOne(k: nat, min: int)
    requires 0 < min
    ensures min <= min * Pow2(k)
  {
    if 0 < k {
      PowAtLeastOne(k - 1, min);
      assert min * Pow2(k) == 2 * (min * Pow2(k - 1));
    }
  }

  /** The delay is 75% to 125% of the full one, evenly as r goes from 0 to 1, in whole nanoseconds toward the middle. */
  ghost predicate Jittered(full: int, r: real, delay: int)
  {
    && 3 * full <= 4 * delay <= 5 * full
    && -1.0 < delay as real - Spread(full, r) < 1.0
    && (0.5 <= r ==> delay as real <= Spread(full, r))
    && (r <= 0.5 ==> Spread(full, r) <= delay as real)
  }

  ghost function Spread(full: int, r: real): real
  {
    full as real * (0.75 + 0.5 * r)
  }

  /** exponentialBackoff; `trace` records the polls it has seen. */
  class ExponentialBackoff {
    var current: int
    const min: int
    const max: int
    ghost var trace: seq<bool>

    /** After k failures in a row the stored delay is min * 2^k, capped at max. */
    ghost predicate Valid()
      reads this
    {
      && 0 < min <= max
      && current == Min(max, min * Pow2(TrailingFailures(trace)))
    }

    constructor (min: int, max: int)
      requires 0 < min <= max
      ensures Valid() && this.min == min && this.max == max && trace == []
    {
      this.min := min;
      this.max := max;
      current := min;
      trace := [];
    }

    /** `r` is what rand.Float64 returns. */
    method Next(r: real) returns (delay: int)
      requires Valid() && 0.0 <= r < 1.0
      modifies this
      ensures Valid() && trace == old(trace) + [true]
      ensures var full := Min(max, min * Pow2(TrailingFailures(old(trace))));
              Jittered(full, r, delay)
      ensures min <= current <= max
    {
      hide Jittered, Trunc;
      var before := current;
      current := 2 * current;
      if current > max {
        current := max;
      }
      var jitter := before as real * (0.25 * (r * 2.0 - 1.0));
      delay := before + Trunc(jitter);
      trace := trace + [true];
      assert trace[..|trace| - 1] == old(trace);
      DoubleCapped(min, max, TrailingFailures(old(trace)));
      PowAtLeastOne(TrailingFailures(trace), min);
      PowAtLeastOne(TrailingFailures(old(trace)), min);
      JitterExact(before, r, jitter);
    }

    method Reset()
      requires Valid()
      modifies this
      ensures Valid() && trace == old(trace) + [false] && current == min
    {
      current := min;
      trace := trace + [false];
    }
  }

  lemma Scaled(a: real, b: real)
    requires 0.0 <= a && 0.0 <= b
    ensures 0.0 <= a * b
  {
  }

  lemma TruncNear(x: real)
    ensures -1.0 < Trunc(x) as real - x < 1.0
    ensures (0.0 <= x ==> Trunc(x) as real <= x) && (x <= 0.0 ==> x <= Trunc(x) as real)
  {
  }

  lemma SpreadOut(b: real, r: real)
    requires 0.0 < b
    ensures var x := b * (0.25 * (r * 2.0 - 1.0));
            b + x == b * (0.75 + 0.5 * r) && (0.5 <= r ==> 0.0 <= x) && (r <= 0.5 ==> x <= 0.0)
  {
    var u := 0.25 * (r * 2.0 - 1.0);
    assert 0.75 + 0.5 * r == 1.0 + u;
    assert b * (1.0 + u) == b + b * u;
    if 0.5 <= r {
      Scaled(b, u);
    }
    if r <= 0.5 {
      Scaled(b, -u);
      assert b * -u == -(b * u);
    }
  }

  lemma JitterSign(before: int, r: real, x: real)
    requires 0 < before && x == before as real * (0.25 * (r * 2.0 - 1.0))
    ensures before as real + x == Spread(before, r) && (0.5 <= r ==> 0.0 <= x) && (r <= 0.5 ==> x <= 0.0)
  {
    var b := before as real;
    SpreadOut(b, r);
    var x' := b * (0.25 * (r * 2.0 - 1.0));
    assert x' == x;
    assert Spread(before, r) == b * (0.75 + 0.5 * r);
  }

  lemma JitterSum(before: int, r: real, x: real)
    requires before as real + x == Spread(before, r) && (0.5 <= r ==> 0.0 <= x) && (r <= 0.5 ==> x <= 0.0)
    requires -before <= 4 * Trunc(x) <= before
    ensures Jittered(before, r, before + Trunc(x))
  {
    TruncNear(x);
    hide Trunc, Spread;
    assert (before + Trunc(x)) as real == before as real + Trunc(x) as real;
  }

  lemma JitterExact(before: int, r: real, x: real)
    requires 0 < before && 0.0 <= r < 1.0 && x == before as real * (0.25 * (r * 2.0 - 1.0))
    ensures Jittered(before, r, before + Trunc(x))
  {
    hide Trunc, Spread, Jittered;
    JitterSign(before, r, x);
    JitterBound(before, 0.25 * (r * 2.0 - 1.0), x);
    JitterSum(before, r, x);
  }

  lemma JitterBound(before: int, spread: real, x: real)
    requires 0 < before && -0.25 <= spread <= 0.25 && x == before as real * spread
    ensures -before <= 4 * Trunc(x) <= before
  {
    Scaled(before as real, 0.25 - spread);
    Scaled(before as real, 0.25 + spread);
    assert x + before as real * (0.25 - spread) == before as real * 0.25;
    assert before as real * (0.25 + spread) - x == before as real * 0.25;
    if x >= 0.0 {
      assert x.Floor as real <= x;
    } else {
      assert (-x).Floor as real <= -x;
    }
  }
}
