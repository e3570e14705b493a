/**
 Durations as the program computes them: nanoseconds in 64 bits. A product wraps around, the
 time since an instant saturates. The fields of a lifecycle policy are 32-bit numbers.
 */
module Durations {

  const TWO_63 := 0x8000_0000_0000_0000
  const TWO_64 := 0x1_0000_0000_0000_0000
  const MAX_INT32 := 0x7FFF_FFFF

  const MINUTE := 60_000_000_000
  const HOUR := 3_600_000_000_000
  const DAY := 86_400_000_000_000

  predicate IsInt64(x: int) { -TWO_63 <= x < TWO_63 }

  /** The 64-bit number a product leaves. */
  function Wrap64(x: int): (r: int)
    ensures IsInt64(r) && (r == x <==> IsInt64(x)) && (r - x) % TWO_64 == 0
  {
    (x + TWO_63) % TWO_64 - TWO_63
  }

  function Clamp64(x: int): int
  {
    if x < -TWO_63 then -TWO_63 else if x >= TWO_63 then TWO_63 - 1 else x
  }

  function Days(n: int): int { Wrap64(Wrap64(n * 24) * HOUR) }

  function Hours(n: int): int { Wrap64(n * HOUR) }

  function Minutes(n: int): int { Wrap64(n * MINUTE) }

  /** The time elapsed since an instant. */
  function Since(now: int, then_: int): int { Clamp64(now - then_) }

  /** The thresholds mean what they say exactly up to these values, which 32-bit fields can exceed. */
  lemma ThresholdsExact(n: int)
    requires 0 < n <= MAX_INT32
    ensures Days(n) == n * DAY <==> n <= 106_751
    ensures Hours(n) == n * HOUR <==> n <= 2_562_047
    ensures Minutes(n) == n * MINUTE <==> n <= 153_722_867
  {
    assert Wrap64(n * 24) == n * 24;
  }

  /** One day more, and from there on for as long again, the threshold is negative. */
  lemma LongInactivityWraps(n: int)
    requires 106_752 <= n <= 213_503
    ensures Days(n) == n * DAY - TWO_64 < 0
  {
    assert Wrap64(n * 24) == n * 24;
  }

  /** Saturation does no harm: a limit is reached exactly when the clock has passed start plus limit. */
  lemma ReachedExactly(now: int, then_: int, limit: int)
    requires then_ <= now && IsInt64(limit)
    ensures Since(now, then_) >= limit <==> now >= then_ + limit
    ensures Since(now, then_) < limit ==> limit - Since(now, then_) == then_ + limit - now
  {
  }
}
