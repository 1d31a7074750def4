/**
Capacities, links and the back-pressure arithmetic. Durations are nanoseconds. The 64-bit width
of usize and u64 is explicit; floating point is idealised to real numbers.
*/
module Config {
  import opened Wrappers

  const U64_MAX := 0xffff_ffff_ffff_ffff
  const USIZE_MAX := 0xffff_ffff_ffff_ffff
  const I32_MAX := 0x7fff_ffff
  const I32_MIN := -0x8000_0000
  const U32_MAX := 0xffff_ffff

  type usize = x: int | 0 <= x <= USIZE_MAX
  type u64 = x: int | 0 <= x <= U64_MAX
  type u32 = x: int | 0 <= x <= U32_MAX
  type i32 = x: int | I32_MIN <= x <= I32_MAX
  type Nanos = nat

  datatype Link = Detached | Attached(timer: Nanos)

  datatype BackPressure = BackPressure(startsAt: usize, baseNs: u64, growth: Option<real>)

  datatype Capacity = Bounded(size: usize) | Unbounded(backPressure: BackPressure)

  /** None where the source panics: the timeout does not fit in a u64. */
  function Linear(startsAt: usize, timeout: Nanos): Option<BackPressure> {
    if timeout > U64_MAX then None else Some(BackPressure(startsAt, timeout, None))
  }

  /** None where the source panics: a negative factor, or a timeout that does not fit. */
  function Exponential(startsAt: usize, timeout: Nanos, factor: real): Option<BackPressure> {
    if factor < 0.0 || timeout > U64_MAX then None
    else Some(BackPressure(startsAt, timeout, Some(factor)))
  }

  function Disabled(): BackPressure {
    BackPressure(USIZE_MAX, 0, None)
  }

  function Power(base: real, exponent: nat): real {
    if exponent == 0 then 1.0 else base * Power(base, exponent - 1)
  }

  /** The cast of a non-negative floating-point number to u64, which saturates. */
  function SaturateToU64(ns: real): u64
    requires ns >= 0.0
  {
    if ns >= U64_MAX as real then U64_MAX else ns.Floor
  }

  predicate Sound(bp: BackPressure) {
    bp.growth.Some? ==> bp.growth.value >= 0.0
  }

  function Exponent(bp: BackPressure, count: usize): nat
    requires bp.startsAt <= count
  {
    Min(count - bp.startsAt, I32_MAX)
  }

  /** u64::saturating_mul. */
  function SaturatingMul(a: u64, b: u64): (r: u64)
    ensures r == Min(a * b, U64_MAX)
  {
    ProductNonNegative(a, b);
    Min(a * b, U64_MAX)
  }

  /**
  The timeout a sender must respect with `count` messages in the channel. The `+ 1` of the
  linear case is a usize addition, which wraps around.
  */
  function GetTimeout(bp: BackPressure, count: usize): Option<u64>
    requires Sound(bp)
  {
    if count < bp.startsAt then None
    else match bp.growth
      case Some(factor) => Some(SaturateToU64(IdealNanos(bp.baseNs, factor, Exponent(bp, count))))
      case None => Some(SaturatingMul(bp.baseNs, (count - bp.startsAt + 1) % (USIZE_MAX + 1)))
  }

  function IdealNanos(baseNs: u64, factor: real, exponent: nat): (ns: real)
    requires factor >= 0.0
    ensures ns >= 0.0
  {
    PowerNonNegative(factor, exponent);
    Times(baseNs as real, Power(factor, exponent))
  }

  function Times(a: real, b: real): (r: real)
    ensures a >= 0.0 && b >= 0.0 ==> r >= 0.0
  {
    a * b
  }

  // ---------------------------------------------------------------------------------------
  // Arithmetic
  // ---------------------------------------------------------------------------------------

  lemma ProductNonNegative(a: int, b: int)
    requires a >= 0 && b >= 0
    ensures a * b >= 0
  {
  }

  lemma ProductMonotone(a: int, b: int, c: int)
    requires 0 <= a && b <= c
    ensures a * b <= a * c
  {
    ProductNonNegative(a, c - b);
  }

  lemma RealProductMonotone(a: real, b: real, c: real)
    requires a <= b && 0.0 <= c
    ensures a * c <= b * c
  {
    assert 0.0 <= (b - a) * c;
  }

  lemma TimesGrows(a: real, b: real, c: real)
    requires 0.0 <= a && b <= c
    ensures Times(a, b) <= Times(a, c)
  {
    assert 0.0 <= a * (c - b);
  }

  lemma {:induction false} PowerNonNegative(base: real, exponent: nat)
    requires base >= 0.0
    ensures Power(base, exponent) >= 0.0
  {
    if exponent > 0 {
      PowerNonNegative(base, exponent - 1);
      RealProductMonotone(0.0, base, Power(base, exponent - 1));
    }
  }

  lemma {:induction false} PowerMonotone(base: real, m: nat, n: nat)
    requires m <= n && base >= 0.0
    ensures base >= 1.0 ==> Power(base, m) <= Power(base, n)
    ensures base <= 1.0 ==> Power(base, n) <= Power(base, m)
  {
    if m < n {
      PowerMonotone(base, m, n - 1);
      PowerNonNegative(base, n - 1);
      if base >= 1.0 {
        RealProductMonotone(1.0, base, Power(base, n - 1));
      }
      if base <= 1.0 {
        RealProductMonotone(base, 1.0, Power(base, n - 1));
      }
    }
  }

  lemma SaturationMonotone(x: real, y: real)
    requires 0.0 <= x <= y
    ensures SaturateToU64(x) <= SaturateToU64(y)
  {
    if y < U64_MAX as real {
      assert x.Floor <= y.Floor;
    }
  }

  // ---------------------------------------------------------------------------------------
  // What the timeouts promise
  // ---------------------------------------------------------------------------------------

  /** What the constructors build is sound, and demands exactly the given timeout at its start. */
  lemma BuiltStartsWithTimeout(startsAt: usize, timeout: Nanos, factor: real)
    ensures var bp := Linear(startsAt, timeout);
            && (bp.Some? <==> timeout <= U64_MAX)
            && (bp.Some? ==> Sound(bp.value) && bp.value.growth == None && bp.value.startsAt == startsAt
                             && GetTimeout(bp.value, startsAt) == Some(timeout))
    ensures var bp := Exponential(startsAt, timeout, factor);
            && (bp.Some? <==> timeout <= U64_MAX && factor >= 0.0)
            && (bp.Some? ==> Sound(bp.value) && bp.value.growth == Some(factor) && bp.value.startsAt == startsAt
                             && GetTimeout(bp.value, startsAt) == Some(timeout))
    ensures Sound(Disabled()) && GetTimeout(Disabled(), USIZE_MAX) == Some(0)
  {
    if Exponential(startsAt, timeout, factor).Some? {
      StartIsBase(Exponential(startsAt, timeout, factor).value);
    }
    if timeout <= U64_MAX {
      LinearFormulaExactlyWithoutOverflow(Linear(startsAt, timeout).value, startsAt);
    }
  }

  /** Sending waits exactly from `startsAt` messages on. */
  lemma TimeoutExactlyFromStart(bp: BackPressure, count: usize)
    requires Sound(bp)
    ensures GetTimeout(bp, count).None? <==> count < bp.startsAt
    ensures bp == Disabled() && count < USIZE_MAX ==> GetTimeout(bp, count).None?
  {
    if count >= bp.startsAt && bp.growth.Some? {
      assert GetTimeout(bp, count) ==
             Some(SaturateToU64(IdealNanos(bp.baseNs, bp.growth.value, Exponent(bp, count))));
    }
  }

  /**
  Linear back pressure is base * (count - startsAt + 1), cut off at u64::MAX, exactly when the
  usize addition does not overflow or the base is zero.
  */
  lemma LinearFormulaExactlyWithoutOverflow(bp: BackPressure, count: usize)
    requires bp.growth.None? && bp.startsAt <= count
    ensures GetTimeout(bp, count) == Some(Min(bp.baseNs * (count - bp.startsAt + 1), U64_MAX))
            <==> bp.baseNs == 0 || bp.startsAt > 0 || count < USIZE_MAX
  {
    var steps := count - bp.startsAt + 1;
    assert steps <= USIZE_MAX + 1;
    if steps == USIZE_MAX + 1 {
      assert steps % (USIZE_MAX + 1) == 0;
      ProductMonotone(USIZE_MAX + 1, 0, bp.baseNs);
      if bp.baseNs > 0 {
        ProductMonotone(USIZE_MAX + 1, 1, bp.baseNs);
      }
    } else {
      assert steps % (USIZE_MAX + 1) == steps;
    }
  }

  lemma LinearMonotone(bp: BackPressure, fewer: usize, more: usize)
    requires bp.growth.None? && bp.startsAt <= fewer <= more
    requires bp.startsAt > 0 || more < USIZE_MAX
    ensures GetTimeout(bp, fewer).value <= GetTimeout(bp, more).value
  {
    LinearFormulaExactlyWithoutOverflow(bp, fewer);
    LinearFormulaExactlyWithoutOverflow(bp, more);
    ProductMonotone(bp.baseNs, fewer - bp.startsAt + 1, more - bp.startsAt + 1);
  }

  /** Growing factors never shorten the wait; shrinking factors never lengthen it. */
  lemma ExponentialMonotone(bp: BackPressure, fewer: usize, more: usize)
    requires Sound(bp) && bp.growth.Some? && bp.startsAt <= fewer <= more
    ensures bp.growth.value >= 1.0 ==> GetTimeout(bp, fewer).value <= GetTimeout(bp, more).value
    ensures bp.growth.value <= 1.0 ==> GetTimeout(bp, more).value <= GetTimeout(bp, fewer).value
    ensures more - bp.startsAt >= I32_MAX && fewer - bp.startsAt >= I32_MAX
            ==> GetTimeout(bp, fewer) == GetTimeout(bp, more)
    ensures GetTimeout(bp, bp.startsAt) == Some(bp.baseNs)
  {
    var factor := bp.growth.value;
    IdealNanosMonotone(bp.baseNs, factor, Exponent(bp, fewer), Exponent(bp, more));
    StartIsBase(bp);
  }

  /** Up to the clamp of the exponent, each further message multiplies the ideal timeout by the factor. */
  lemma ExponentialGrowsByFactor(bp: BackPressure, count: usize)
    requires Sound(bp) && bp.growth.Some? && bp.startsAt <= count && count - bp.startsAt < I32_MAX && count < USIZE_MAX
    ensures var ns := IdealNanos(bp.baseNs, bp.growth.value, count - bp.startsAt);
            && GetTimeout(bp, count) == Some(SaturateToU64(ns))
            && Times(bp.growth.value, ns) >= 0.0
            && GetTimeout(bp, count + 1) == Some(SaturateToU64(Times(bp.growth.value, ns)))
  {
    var factor, n := bp.growth.value, count - bp.startsAt;
    TimesReorders(bp.baseNs as real, factor, Power(factor, n));
    assert IdealNanos(bp.baseNs, factor, n + 1) == Times(factor, IdealNanos(bp.baseNs, factor, n));
  }

  lemma TimesReorders(a: real, b: real, c: real)
    ensures Times(a, b * c) == Times(b, Times(a, c))
  {
    assert a * (b * c) == (a * b) * c == (b * a) * c == b * (a * c);
  }

  lemma IdealNanosMonotone(baseNs: u64, factor: real, m: nat, n: nat)
    requires m <= n && factor >= 0.0
    ensures factor >= 1.0
            ==> SaturateToU64(IdealNanos(baseNs, factor, m)) <= SaturateToU64(IdealNanos(baseNs, factor, n))
    ensures factor <= 1.0
            ==> SaturateToU64(IdealNanos(baseNs, factor, n)) <= SaturateToU64(IdealNanos(baseNs, factor, m))
  {
    PowerMonotone(factor, m, n);
    if factor >= 1.0 {
      IdealNanosFollowPower(baseNs, factor, m, n);
    }
    if factor <= 1.0 {
      IdealNanosFollowPower(baseNs, factor, n, m);
    }
  }

  lemma IdealNanosFollowPower(baseNs: u64, factor: real, m: nat, n: nat)
    requires factor >= 0.0 && Power(factor, m) <= Power(factor, n)
    ensures SaturateToU64(IdealNanos(baseNs, factor, m)) <= SaturateToU64(IdealNanos(baseNs, factor, n))
  {
    hide Power, SaturateToU64, Times;
    TimesGrows(baseNs as real, Power(factor, m), Power(factor, n));
    SaturationMonotone(IdealNanos(baseNs, factor, m), IdealNanos(baseNs, factor, n));
  }

  /** The cast cuts off the fraction, and stops at u64::MAX. */
  lemma CastTruncates(ns: real)
    requires ns >= 0.0
    ensures ns >= U64_MAX as real ==> SaturateToU64(ns) == U64_MAX
    ensures ns < U64_MAX as real ==> SaturateToU64(ns) as real <= ns < SaturateToU64(ns) as real + 1.0
  {
  }

  /** The ideal timeout starts with the base and grows by the factor. */
  lemma IdealNanosRecurs(baseNs: u64, factor: real, exponent: nat)
    requires factor >= 0.0
    ensures IdealNanos(baseNs, factor, 0) == baseNs as real
    ensures IdealNanos(baseNs, factor, exponent + 1) == factor * IdealNanos(baseNs, factor, exponent)
  {
    TimesReorders(baseNs as real, factor, Power(factor, exponent));
  }

  lemma StartIsBase(bp: BackPressure)
    requires Sound(bp) && bp.growth.Some?
    ensures GetTimeout(bp, bp.startsAt) == Some(bp.baseNs)
  {
    assert Exponent(bp, bp.startsAt) == 0;
    assert IdealNanos(bp.baseNs, bp.growth.value, 0) == bp.baseNs as real;
  }
}
