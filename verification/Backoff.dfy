/**
  Retry delays. `Duration` is the source's 64-bit nanosecond count, so every arithmetic step below is
  also shown not to overflow.
*/
module Backoff {
  import opened Powers

  newtype Duration = x: int | -0x8000_0000_0000_0000 <= x <= 0x7fff_ffff_ffff_ffff

  newtype Attempt = x: int | 0 <= x <= 0xffff_ffff_ffff_ffff

  const SECOND: Duration := 1_000_000_000
  const DEFAULT_BASE: Duration := 5 * SECOND
  const MAX_DELIVERY_DELAY: Duration := 300 * SECOND

  function Min(a: int, b: int): int {
    if a <= b then a else b
  }

  function Base(base: Duration): (b: Duration)
    ensures b >= 1
  {
    if base <= 0 then DEFAULT_BASE else base
  }

  function Tries(attempt: Attempt): (n: nat)
    ensures n >= 1
  {
    if attempt == 0 then 1 else attempt as nat
  }

  /** The exact delay ceiling: base times 2^(attempt - 1), capped at five minutes. */
  function Ceiling(base: Duration, attempt: Attempt): int {
    Min(Base(base) as int * Pow2(Tries(attempt) - 1), MAX_DELIVERY_DELAY as int)
  }

  /** The ceiling in nanoseconds: the base is five seconds unless a positive one is set, the cap five minutes. */
  lemma CeilingInNanoseconds(base: Duration, attempt: Attempt)
    ensures
      var b, n := if base <= 0 then 5_000_000_000 else base as int, if attempt == 0 then 1 else attempt as int;
      Ceiling(base, attempt) == if b * Pow2(n - 1) <= 300_000_000_000 then b * Pow2(n - 1) else 300_000_000_000
  {
    hide Pow2;
  }

  lemma Scaled(b: int, m: nat, n: nat)
    requires b >= 1 && m <= n
    ensures b * Pow2(m) <= b * Pow2(n)
  {
    Pow2Grows(m, n);
  }

  /** The doubling loop of retryDelayForDelivery; it stops early without ever overflowing. */
  method DeliveryCeiling(base: Duration, attempt: Attempt) returns (ceiling: Duration)
    ensures ceiling as int == Ceiling(base, attempt)
    ensures ceiling >= 1
  {
    var tries := if attempt > 0 then attempt else 1;
    ceiling := Base(base);
    var n: Attempt := 1;
    while n < tries && ceiling < MAX_DELIVERY_DELAY
      invariant 1 <= n <= tries && ceiling >= 1
      invariant ceiling as int == Base(base) as int * Pow2(n as int - 1)
      decreases tries as int - n as int
    {
      if ceiling > MAX_DELIVERY_DELAY / 2 {
        Scaled(Base(base) as int, n as int, Tries(attempt) - 1);
        ceiling := MAX_DELIVERY_DELAY;
        return;
      }
      ceiling := ceiling * 2;
      n := n + 1;
    }
    Scaled(Base(base) as int, n as int - 1, Tries(attempt) - 1);
    if ceiling > MAX_DELIVERY_DELAY {
      ceiling := MAX_DELIVERY_DELAY;
    }
  }

  /** Equal jitter: a random delay from half the ceiling up to the ceiling. */
  method DeliveryRetryDelay(base: Duration, attempt: Attempt) returns (delay: Duration)
    ensures Ceiling(base, attempt) / 2 <= delay as int <= Ceiling(base, attempt)
  {
    hide Ceiling;
    var ceiling := DeliveryCeiling(base, attempt);
    var lower := ceiling / 2;
    var range := ceiling - lower;
    var draw: Duration :| 0 <= draw <= range;
    delay := lower + draw;
  }

  function Shifted(n: nat): (d: Duration)
    requires n <= 29
    ensures d as int == Pow2(n) * SECOND as int
  {
    Pow2Grows(n, 29);
    assert Pow2(29) == 536870912 by {
      assert Pow2(10) == 1024;
      assert Pow2(20) == 1024 * 1024 by {
        PowAdds(10, 10);
      }
      assert Pow2(9) == 512;
      PowAdds(20, 9);
    }
    Pow2(n) as Duration * SECOND
  }

  /** backoffDuration of the effect publisher. */
  function BackoffDuration(attempts: int): Duration {
    var a := if attempts < 1 then 1 else if attempts > 30 then 30 else attempts;
    var delay := Shifted(a - 1);
    if delay > 60 * SECOND then 60 * SECOND else delay
  }

  /** scheduledRetryDelay of the scheduler. */
  function ScheduledRetryDelay(attempt: int): Duration {
    var a := if attempt < 1 then 1 else if attempt > 7 then 7 else attempt;
    var delay := Shifted(a - 1);
    if delay > 60 * SECOND then 60 * SECOND else delay
  }

  /** Both clamps are the same function on all integers: 2^(max(a, 1) - 1) seconds, capped at a minute. */
  lemma BackoffsAgree(a: int)
    ensures BackoffDuration(a) == ScheduledRetryDelay(a)
    ensures
      var p := Pow2((if a < 1 then 1 else a) - 1);
      BackoffDuration(a) as int == if p <= 60 then p * 1_000_000_000 else 60_000_000_000
    ensures SECOND <= BackoffDuration(a) <= 60 * SECOND
  {
    var n := (if a < 1 then 1 else a) - 1;
    assert Pow2(6) == 64;
    if n >= 6 {
      Pow2Grows(6, n);
      Pow2Grows(6, if n > 29 then 29 else n);
    } else {
      Pow2Grows(n, 5);
      assert Pow2(5) == 32;
    }
  }
}
