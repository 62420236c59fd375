/** Retry delays of the outbox relay: exponential, capped, and safe in 64-bit arithmetic. */
module Backoff {
  import opened Common

  /** base doubled n times. */
  function Doubled(base: int, n: nat): int {
    if n == 0 then base else 2 * Doubled(base, n - 1)
  }

  function Pow2(n: nat): nat {
    if n == 0 then 1 else 2 * Pow2(n - 1)
  }

  function Max(a: int, b: int): int {
    if a >= b then a else b
  }

  function BaseOf(base: int64): int {
    if base <= 0 then SECOND else base as int
  }

  function CapOf(max: int64): int {
    if max <= 0 then 300 * SECOND else max as int
  }

  /** The delay before the given attempt: min(max, base * 2^(max(attempt, 1) - 1)) after defaults. */
  function Delay(attempt: int64, base: int64, max: int64): int {
    Min(CapOf(max), BaseOf(base) * Pow2(Max(attempt as int, 1) - 1))
  }

  lemma {:induction false} DoubledIsPower(base: int, n: nat)
    ensures Doubled(base, n) == base * Pow2(n)
  {
    if n > 0 {
      DoubledIsPower(base, n - 1);
    }
  }

  lemma {:induction false} DoubledMonotone(base: int, m: nat, n: nat)
    requires base > 0 && m <= n
    ensures 0 < Doubled(base, m) <= Doubled(base, n)
    decreases n
  {
    if m < n {
      DoubledMonotone(base, m, n - 1);
    } else if n > 0 {
      DoubledMonotone(base, m - 1, n - 1);
    }
  }

  lemma {:induction false} DoubledGrows(base: int, n: nat)
    requires base > 0
    ensures Doubled(base, n) > n
  {
    if n > 0 {
      DoubledGrows(base, n - 1);
    }
  }

  /**
   Backoff as written, on 64-bit durations: no product overflows, the result is Delay, and
   the loop doubles only while the delay stays within the cap, however large attempt is.
   */
  method Backoff(attempt: int64, base: int64, max: int64) returns (delay: int64, ghost doublings: nat)
    ensures delay as int == Delay(attempt, base, max)
    ensures doublings == 0 || BaseOf(base) * Pow2(doublings) <= CapOf(max)
  {
    var n := if attempt < 1 then 1 else attempt;
    var first := if base <= 0 then SECOND as int64 else base;
    var cap := if max <= 0 then (300 * SECOND) as int64 else max;
    delay, doublings := first, 0;
    DoubledIsPower(BaseOf(base), n as int - 1);
    var i: int64 := 1;
    while i < n
      invariant 1 <= i <= n && doublings == i as int - 1
      invariant delay as int == Doubled(BaseOf(base), doublings)
      invariant doublings == 0 || delay <= cap
    {
      DoubledMonotone(BaseOf(base), doublings + 1, n as int - 1);
      DoubledIsPower(BaseOf(base), doublings);
      if delay >= cap || delay > cap / 2 {
        return cap, doublings;
      }
      delay := delay * 2;
      doublings := doublings + 1;
      i := i + 1;
    }
    DoubledIsPower(BaseOf(base), doublings);
    if delay > cap {
      delay := cap;
    }
  }

  /** The settings of a relay that matter for delays, before New has filled in defaults. */
  datatype Config = Config(maxAttempts: int64, baseBackoff: int64, maxBackoff: int64)

  /** New replaces missing back-off settings by the same defaults Backoff uses. */
  function WithDefaults(c: Config): Config {
    c.(baseBackoff := BaseOf(c.baseBackoff) as int64, maxBackoff := CapOf(c.maxBackoff) as int64)
  }

  /** The delay fail schedules for an event that has been attempted before; the increment wraps at 64 bits. */
  function FailDelay(c: Config, attempts: int64): int {
    var attempt := Wrap64(attempts as int + 1);
    if c.maxAttempts > 0 && attempt >= c.maxAttempts then c.maxBackoff as int
    else Delay(attempt, c.baseBackoff, c.maxBackoff)
  }

  /** What New fills in: a base of one second and a cap of five minutes, each only where none is given. */
  lemma DefaultsFilledIn(c: Config)
    ensures var d := WithDefaults(c);
      && d.maxAttempts == c.maxAttempts
      && d.baseBackoff as int == (if c.baseBackoff > 0 then c.baseBackoff as int else 1_000_000_000)
      && d.maxBackoff as int == (if c.maxBackoff > 0 then c.maxBackoff as int else 300_000_000_000)
  {
  }

  /**
   The exhausted branch: from the last allowed attempt on the delay is MaxBackoff; before it,
   and always without a limit, it is min(MaxBackoff, base * 2^attempts).
   */
  lemma FailDelayExactly(c: Config, attempts: int64)
    requires 0 <= attempts as int < MAX_INT64
    ensures var d := WithDefaults(c);
      FailDelay(d, attempts) == if d.maxAttempts > 0 && attempts as int + 1 >= d.maxAttempts as int then d.maxBackoff as int
                                else Min(d.maxBackoff as int, d.baseBackoff as int * Pow2(attempts as int))
  {
  }

  lemma DelayBounds(attempt: int64, base: int64, max: int64)
    ensures 0 < Delay(attempt, base, max) <= CapOf(max)
  {
    DoubledIsPower(BaseOf(base), Max(attempt as int, 1) - 1);
    DoubledMonotone(BaseOf(base), 0, Max(attempt as int, 1) - 1);
  }

  lemma DelayMonotone(a: int64, b: int64, base: int64, max: int64)
    requires a <= b
    ensures Delay(a, base, max) <= Delay(b, base, max)
  {
    var m, n := Max(a as int, 1) - 1, Max(b as int, 1) - 1;
    DoubledIsPower(BaseOf(base), m);
    DoubledIsPower(BaseOf(base), n);
    DoubledMonotone(BaseOf(base), m, n);
  }

  /** Whatever the settings and the counter, fail schedules a positive delay of at most MaxBackoff. */
  lemma FailDelayBounds(c: Config, attempts: int64)
    ensures 0 < FailDelay(WithDefaults(c), attempts) <= WithDefaults(c).maxBackoff as int
  {
    var d := WithDefaults(c);
    DelayBounds(Wrap64(attempts as int + 1), d.baseBackoff, d.maxBackoff);
  }

  /** Below the largest counter, delays never shrink as attempts grow, across the exhausted branch too. */
  lemma FailDelayMonotone(c: Config, a: int64, b: int64)
    requires a <= b && (b as int) < MAX_INT64
    ensures FailDelay(WithDefaults(c), a) <= FailDelay(WithDefaults(c), b)
  {
    var d := WithDefaults(c);
    DelayMonotone(Wrap64(a as int + 1), Wrap64(b as int + 1), d.baseBackoff, d.maxBackoff);
    DelayBounds(Wrap64(a as int + 1), d.baseBackoff, d.maxBackoff);
  }

  /** At the largest counter the attempt number wraps and the delay falls back to the first one. */
  lemma FailDelayAtLargest(c: Config)
    ensures var d := WithDefaults(c);
      && FailDelay(d, MAX_INT64 as int64) == Min(d.maxBackoff as int, d.baseBackoff as int)
      && FailDelay(d, (MAX_INT64 - 1) as int64) == d.maxBackoff as int
  {
    var d := WithDefaults(c);
    DoubledIsPower(d.baseBackoff as int, MAX_INT64 - 1);
    DoubledGrows(d.baseBackoff as int, MAX_INT64 - 1);
  }

  lemma FailDelayFlat(d: Config, attempts: int64)
    requires d.baseBackoff >= d.maxBackoff > 0
    ensures FailDelay(d, attempts) == d.maxBackoff as int
  {
    var n := Max(Wrap64(attempts as int + 1) as int, 1) - 1;
    DoubledIsPower(BaseOf(d.baseBackoff), n);
    DoubledMonotone(BaseOf(d.baseBackoff), 0, n);
  }

  /** Over all 64-bit counters delays never shrink exactly when the base is not below the cap. */
  lemma FailDelayMonotoneEverywhere(c: Config)
    ensures (forall a: int64, b: int64 :: a <= b ==> FailDelay(WithDefaults(c), a) <= FailDelay(WithDefaults(c), b))
      <==> WithDefaults(c).baseBackoff >= WithDefaults(c).maxBackoff
  {
    var d := WithDefaults(c);
    FailDelayAtLargest(c);
    if d.baseBackoff >= d.maxBackoff {
      forall a: int64, b: int64 | a <= b
        ensures FailDelay(d, a) <= FailDelay(d, b)
      {
        FailDelayFlat(d, a);
        FailDelayFlat(d, b);
      }
    } else {
      assert FailDelay(d, (MAX_INT64 - 1) as int64) > FailDelay(d, MAX_INT64 as int64);
    }
  }
}
