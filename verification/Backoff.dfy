/** The retry delay of the access startup probe (internal/controller/state_machine_access.go), in
    32-bit arithmetic. */
module Backoff {

  const BACKOFF_RETRIES: int := 10
  const MAX_DELAY: int := 302
  const MAX_INT32: int := 0x7fff_ffff

  predicate IsInt32(n: int) {
    -0x8000_0000 <= n <= MAX_INT32
  }

  type Int32 = n: int | IsInt32(n)

  /** The value of an int32 expression. */
  function Wrap(n: int): (r: int)
    ensures IsInt32(r) && (IsInt32(n) ==> r == n)
  {
    (n + 0x8000_0000) % 0x1_0000_0000 - 0x8000_0000
  }

  function Max(a: int, b: int): int {
    if a >= b then a else b
  }

  function Min(a: int, b: int): int {
    if a <= b then a else b
  }

  /** Failures up to this count retry after the plain period. */
  function BackoffStart(threshold: int): int {
    Max(threshold - BACKOFF_RETRIES, 0)
  }

  /** What the doubling loop returns with `n` rounds to go. */
  function Doubled(backoff: int, n: nat): (r: int)
    requires IsInt32(backoff)
    ensures IsInt32(r)
    decreases n
  {
    if n == 0 then backoff
    else
      var next := Wrap(backoff * 2);
      if next >= MAX_DELAY then MAX_DELAY else Doubled(next, n - 1)
  }

  function Delay(period: int, failures: int, threshold: int): (r: int)
    requires IsInt32(period)
  {
    var start := BackoffStart(threshold);
    if failures <= start then period else Doubled(period, failures - start)
  }

  method ProbeRetrySeconds(period: int, failures: int, threshold: int) returns (r: int)
    requires IsInt32(period) && IsInt32(failures) && 1 <= threshold <= MAX_INT32
    ensures r == Delay(period, failures, threshold)
  {
    var start := Max(threshold - BACKOFF_RETRIES, 0);
    if failures <= start {
      return period;
    }
    var backoff := period;
    var i := 0;
    while i < failures - start
      invariant 0 <= i <= failures - start && IsInt32(backoff)
      invariant Doubled(period, failures - start) == Doubled(backoff, failures - start - i)
    {
      backoff := Wrap(backoff * 2);
      if backoff >= MAX_DELAY {
        return MAX_DELAY;
      }
      i := i + 1;
    }
    return backoff;
  }

  // ---------------------------------------------------------------- the formula

  function Pow2(n: nat): (r: nat)
    ensures r >= 1
  {
    if n == 0 then 1 else 2 * Pow2(n - 1)
  }

  lemma {:induction false} DoubledFormula(period: int, n: nat)
    requires 1 <= period < 0x4000_0000 && n >= 1
    ensures Doubled(period, n) == Min(period * Pow2(n), MAX_DELAY)
    decreases n
  {
    var next := 2 * period;
    assert Wrap(period * 2) == next;
    assert period * Pow2(n) == next * Pow2(n - 1);
    if next >= MAX_DELAY {
      assert next * Pow2(n - 1) >= next;
    } else if n > 1 {
      DoubledFormula(next, n - 1);
    }
  }

  /** The plain period for all but the last ten failures before the threshold; from there on the period
      doubles with each failure, up to 302 seconds. */
  lemma {:induction false} DelayFormula(period: int, failures: int, threshold: int)
    requires 1 <= period < 0x4000_0000
    ensures var k := failures - Max(threshold - 10, 0);
            Delay(period, failures, threshold) == if k <= 0 then period else Min(period * Pow2(k), 302)
  {
    hide Doubled, Pow2;
    var k := failures - Max(threshold - 10, 0);
    if k > 0 {
      DoubledFormula(period, k);
    }
  }

  /** The doubling is capped exponential growth for every number of rounds exactly when the period is
      below 2^30: from there on the first doubling overflows to a negative delay. */
  lemma {:induction false} FormulaIff(period: int)
    requires 1 <= period <= MAX_INT32
    ensures (forall n: nat :: n >= 1 ==> Doubled(period, n) == Min(period * Pow2(n), MAX_DELAY)) <==> period < 0x4000_0000
  {
    if period < 0x4000_0000 {
      forall n: nat | n >= 1 ensures Doubled(period, n) == Min(period * Pow2(n), MAX_DELAY) { DoubledFormula(period, n); }
    } else {
      assert Wrap(period * 2) == period * 2 - 0x1_0000_0000 < 0;
      var next := Wrap(period * 2);
      assert Doubled(next, 0) == next;
      assert Doubled(period, 1) == next;
      assert Pow2(0) == 1 && Pow2(1) == 2;
      assert Min(period * Pow2(1), MAX_DELAY) == MAX_DELAY;
    }
  }

  lemma {:induction false} DoubledGrows(period: int, n: nat)
    requires 1 <= period < 0x4000_0000 && n >= 1
    ensures Doubled(period, n) <= Doubled(period, n + 1) <= MAX_DELAY
    ensures Min(period, MAX_DELAY) <= Doubled(period, n)
  {
    assert Pow2(n + 1) == 2 * Pow2(n);
    hide Doubled, Pow2;
    DoubledFormula(period, n);
    DoubledFormula(period, n + 1);
    Scaled(period, Pow2(n));
  }

  lemma {:induction false} Scaled(period: int, p: nat)
    requires period >= 1 && p >= 1
    ensures period <= period * p <= period * (2 * p)
  {
    assert period * (2 * p) == period * p + period * p;
  }

  /** Delays never shrink while failures grow towards the threshold. */
  ghost predicate NeverShrinks(period: int, threshold: int)
    requires IsInt32(period)
  {
    forall f :: 1 <= f < threshold - 1 ==> Delay(period, f, threshold) <= Delay(period, f + 1, threshold)
  }

  /** That is so exactly when the period does not exceed the cap, or every retry is a backoff retry. */
  lemma {:induction false} NeverShrinksIff(period: int, threshold: int)
    requires 1 <= period < 0x4000_0000 && threshold >= 1
    ensures NeverShrinks(period, threshold) <==> period <= MAX_DELAY || threshold <= BACKOFF_RETRIES
  {
    hide Doubled;
    var start := BackoffStart(threshold);
    if period <= MAX_DELAY || threshold <= BACKOFF_RETRIES {
      forall f | 1 <= f < threshold - 1 ensures Delay(period, f, threshold) <= Delay(period, f + 1, threshold) {
        if f + 1 > start {
          if f > start { DoubledGrows(period, f - start); } else { DoubledGrows(period, 1); }
        }
      }
    } else {
      DoubledGrows(period, 1);
      assert Delay(period, start, threshold) == period;
      assert Delay(period, start + 1, threshold) == Doubled(period, 1);
      assert 1 <= start < threshold - 1;
      assert Delay(period, start, threshold) > Delay(period, start + 1, threshold);
    }
  }

  /** The waiting after failures 1 to `n`. */
  function TotalDelay(period: int, threshold: int, n: nat): int
    requires IsInt32(period)
  {
    if n == 0 then 0 else TotalDelay(period, threshold, n - 1) + Delay(period, n, threshold)
  }

  lemma {:induction false} TotalBound(period: int, threshold: int, n: nat)
    requires 1 <= period < 0x4000_0000 && threshold >= 1
    ensures var start := BackoffStart(threshold);
            TotalDelay(period, threshold, n) <= Min(n, start) * period + Max(n - start, 0) * MAX_DELAY
    decreases n
  {
    hide Doubled;
    if n > 0 {
      TotalBound(period, threshold, n - 1);
      var start := BackoffStart(threshold);
      if n <= start {
        assert n * period == (n - 1) * period + period;
      } else {
        DoubledFormula(period, n - start);
      }
    }
  }

  /** Giving up takes at most this long: all retries before the threshold. */
  lemma {:induction false} GiveUpTime(period: int, threshold: int)
    requires 1 <= period < 0x4000_0000 && threshold >= 1
    ensures TotalDelay(period, threshold, threshold - 1) <= Max(threshold - 10, 0) * period + Min(threshold - 1, 9) * 302
  {
    hide TotalDelay;
    TotalBound(period, threshold, threshold - 1);
  }
}
