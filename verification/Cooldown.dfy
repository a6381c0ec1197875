/** Breaker cooldown durations, in nanoseconds held in a 64-bit signed integer. A failure kind has a
    base and a cap; each further failure in a row doubles the wait until a level of fifteen or the
    cap is reached, and a hint of the upstream overrides it for rate limits and quotas. */
module Cooldown {
  import opened Facets

  const SECOND := 1_000_000_000
  const BASE_COOLDOWN := SECOND
  const MAX_COOLDOWN := 120 * SECOND
  const MAX_BACKOFF_LEVEL := 15
  const RATE_LIMIT_BASE := 60 * SECOND
  const RATE_LIMIT_MAX := 900 * SECOND
  const ERRORED_BASE := 5 * SECOND
  const QUOTA_FALLBACK := 3600 * SECOND
  const TWO_63 := 0x8000_0000_0000_0000
  const TWO_64 := 0x1_0000_0000_0000_0000

  /** Two's-complement wrap-around of a 64-bit signed integer. */
  function Wrap64(x: int): int {
    (x + TWO_63) % TWO_64 - TWO_63
  }

  function Pow2(n: nat): (r: int)
    ensures r >= 1
  {
    if n == 0 then 1 else 2 * Pow2(n - 1)
  }

  /** `d << level` on a 64-bit integer: one doubling per bit, each wrapped. */
  function ShiftLeft64(d: int, level: nat): int {
    if level == 0 then d else Wrap64(2 * ShiftLeft64(d, level - 1))
  }

  function ClampLevel(level: int): nat {
    if level < 0 then 0 else if level > MAX_BACKOFF_LEVEL then MAX_BACKOFF_LEVEL else level
  }

  function ScaledCooldown(base: int, level: int, max: int): int {
    var d := ShiftLeft64(base, ClampLevel(level));
    if d > max || d <= 0 then max else d
  }

  function CalculateCooldown(level: int): int {
    var d := ShiftLeft64(BASE_COOLDOWN, ClampLevel(level));
    if d > MAX_COOLDOWN then MAX_COOLDOWN else d
  }

  function CooldownFor(kind: FailureKind, level: int, retryAfter: int): int {
    match kind
    case RateLimit => if retryAfter > 0 then retryAfter else ScaledCooldown(RATE_LIMIT_BASE, level, RATE_LIMIT_MAX)
    case Quota => if retryAfter > 0 then retryAfter else QUOTA_FALLBACK
    case Errored => ScaledCooldown(ERRORED_BASE, level, MAX_COOLDOWN)
    case Transient => CalculateCooldown(level)
  }

  function Min(a: int, b: int): int {
    if a < b then a else b
  }

  function BaseOf(kind: FailureKind): int {
    match kind
    case RateLimit => RATE_LIMIT_BASE
    case Quota => QUOTA_FALLBACK
    case Errored => ERRORED_BASE
    case Transient => BASE_COOLDOWN
  }

  function CapOf(kind: FailureKind): int {
    match kind
    case RateLimit => RATE_LIMIT_MAX
    case Quota => QUOTA_FALLBACK
    case _ => MAX_COOLDOWN
  }

  lemma {:induction false} Pow2Monotone(a: nat, b: nat)
    requires a <= b
    ensures Pow2(a) <= Pow2(b)
    decreases b
  {
    if a < b {
      Pow2Monotone(a, b - 1);
    }
  }

  lemma Pow2AtClamp(level: int)
    ensures 1 <= Pow2(ClampLevel(level)) <= 32768
  {
    Pow2Monotone(ClampLevel(level), 15);
    assert Pow2(5) == 32;
    assert Pow2(10) == 1024;
    assert Pow2(15) == 32768;
  }

  lemma WrapIdentity(x: int)
    requires 0 <= x < TWO_63
    ensures Wrap64(x) == x
  {
  }

  lemma {:induction false} ShiftIsProduct(d: int, level: nat)
    requires 0 < d <= RATE_LIMIT_BASE && Pow2(level) <= 32768
    ensures ShiftLeft64(d, level) == d * Pow2(level)
    ensures 0 < ShiftLeft64(d, level) < TWO_63
  {
    MulMonotone(d, 1, Pow2(level));
    MulMonotone(Pow2(level), d, RATE_LIMIT_BASE);
    if level > 0 {
      ShiftIsProduct(d, level - 1);
      assert d * Pow2(level) == 2 * (d * Pow2(level - 1));
      WrapIdentity(d * Pow2(level));
    }
  }

  lemma MulMonotone(k: int, a: int, b: int)
    requires 0 <= k && a <= b
    ensures k * a <= k * b
  {
  }

  /** What the case split, the shift and the two clamps amount to: the upstream's own
      hint when a rate-limit or quota failure carries one, otherwise base * 2^level
      capped per kind. No input overflows the 64-bit shift. */
  lemma CooldownExact(kind: FailureKind, level: int, retryAfter: int)
    ensures CooldownFor(kind, level, retryAfter) ==
            if (kind.RateLimit? || kind.Quota?) && retryAfter > 0 then retryAfter
            else Min(BaseOf(kind) * Pow2(ClampLevel(level)), CapOf(kind))
    ensures CooldownFor(kind, level, retryAfter) > 0
  {
    Pow2AtClamp(level);
    if kind.Quota? {
      MulMonotone(QUOTA_FALLBACK, 1, Pow2(ClampLevel(level)));
    } else {
      ShiftIsProduct(BaseOf(kind), ClampLevel(level));
    }
  }

  /** The same in nanoseconds, kind by kind. */
  lemma CooldownInNumbers(kind: FailureKind, level: nat, retryAfter: int)
    requires level <= 15
    ensures CooldownFor(kind, level, retryAfter) ==
      match kind
      case RateLimit =>
        if retryAfter > 0 then retryAfter else Min(60_000_000_000 * Pow2(level), 900_000_000_000)
      case Quota => if retryAfter > 0 then retryAfter else 3_600_000_000_000
      case Errored => Min(5_000_000_000 * Pow2(level), 120_000_000_000)
      case Transient => Min(1_000_000_000 * Pow2(level), 120_000_000_000)
  {
    CooldownExact(kind, level, retryAfter);
    MulMonotone(QUOTA_FALLBACK, 1, Pow2(level));
  }

  /** A longer failure streak never shortens the computed cooldown. */
  lemma CooldownMonotone(kind: FailureKind, low: int, high: int, retryAfter: int)
    requires low <= high
    ensures CooldownFor(kind, low, retryAfter) <= CooldownFor(kind, high, retryAfter)
  {
    CooldownExact(kind, low, retryAfter);
    CooldownExact(kind, high, retryAfter);
    Pow2Monotone(ClampLevel(low), ClampLevel(high));
    MulMonotone(BaseOf(kind), Pow2(ClampLevel(low)), Pow2(ClampLevel(high)));
  }
}
