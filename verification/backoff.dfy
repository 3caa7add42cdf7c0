/** Full-jitter exponential backoff (internal/retry/backoff.go). Durations are int64
    nanoseconds, and doubling wraps around; the draw is a real in [0, 1). */
module Backoff {
  import opened Common

  const INT64_MAX := 0x7fff_ffff_ffff_ffff
  const INT64_MIN := -0x8000_0000_0000_0000

  predicate InRange(x: int) {
    INT64_MIN <= x <= INT64_MAX
  }

  datatype Policy = Policy(base: int, limit: int)
  {
    /** Any two durations: the constructor checks nothing. */
    predicate Representable() {
      InRange(base) && InRange(limit)
    }

    /** No negative durations, and anything below the cap can be doubled once in 64 bits. */
    predicate Valid() {
      0 <= base && 0 <= limit && base <= INT64_MAX && 2 * (limit - 1) <= INT64_MAX
    }
  }

  function Pow2(n: nat): (r: nat)
    ensures r > n
  {
    if n == 0 then 1 else 2 * Pow2(n - 1)
  }

  /** The 1-based attempt that just failed. */
  function Failed(attempt: int): nat {
    if attempt < 1 then 1 else attempt
  }

  function Doubled(base: int, n: nat): int {
    base * Pow2(n)
  }

  /** The closed form: min(cap, base * 2^(attempt-1)), in unbounded arithmetic. */
  function Ceiling(p: Policy, attempt: int): int {
    Min(p.limit, Doubled(p.base, Failed(attempt) - 1))
  }

  // ------------------------------------------------------------------ the loop in 64 bits

  /** Twice a 64-bit value, as the hardware doubles it. */
  function Twice(x: int): (r: int)
    requires InRange(x)
    ensures InRange(r) && (InRange(2 * x) ==> r == 2 * x)
    ensures 2 * x > INT64_MAX ==> r < 0
  {
    if 2 * x > INT64_MAX then 2 * x - 0x1_0000_0000_0000_0000
    else if 2 * x < INT64_MIN then 2 * x + 0x1_0000_0000_0000_0000
    else 2 * x
  }

  /** The loop variable after at most n rounds. */
  function Rounds(p: Policy, n: nat): (r: int)
    requires p.Representable()
    ensures InRange(r)
  {
    if n == 0 then p.base
    else if Rounds(p, n - 1) >= p.limit then Rounds(p, n - 1) else Twice(Rounds(p, n - 1))
  }

  /** The ceiling the code computes, for whatever durations it was given. */
  function Actual(p: Policy, attempt: int): int
    requires p.Representable()
  {
    Min(p.limit, Rounds(p, Failed(attempt) - 1))
  }

  /** Some doubling below the cap leaves 64 bits. */
  ghost predicate Overflows(p: Policy) {
    exists n: nat :: 0 <= Doubled(p.base, n) < p.limit && 2 * Doubled(p.base, n) > INT64_MAX
  }

  /** Short of an overflow the loop variable is the doubled base, until it passes the cap. */
  lemma {:induction false} RoundsDouble(p: Policy, n: nat)
    requires p.Representable() && 0 <= p.base
    requires forall m: nat :: m < n && Doubled(p.base, m) < p.limit ==> 2 * Doubled(p.base, m) <= INT64_MAX
    ensures Rounds(p, n) == Doubled(p.base, n) || (Rounds(p, n) >= p.limit && Doubled(p.base, n) >= p.limit)
    ensures Rounds(p, n) >= 0
  {
    hide Doubled, Twice;
    if n == 0 {
      DoubledOnce(p.base);
    } else {
      RoundsDouble(p, n - 1);
      DoubledTwice(p.base, n);
      DoubledNonNegative(p.base, n - 1);
    }
  }

  lemma DoubledOnce(base: int)
    ensures Doubled(base, 0) == base
  {
  }

  lemma DoubledTwice(base: int, n: nat)
    requires n > 0
    ensures Doubled(base, n) == 2 * Doubled(base, n - 1)
  {
  }

  /** 64 doublings of a negative base leave 64 bits. */
  lemma NegativeRunsAway(p: Policy)
    requires p.Representable() && p.base < 0
    ensures Actual(p, 65) != Ceiling(p, 65)
  {
    hide Rounds, Pow2;
    SixtyFourDoublings();
    AtLeastOnce(p.base, Pow2(64));
  }

  lemma SixtyFourDoublings()
    ensures Pow2(64) == 0x1_0000_0000_0000_0000
  {
    Sixteen();
    hide Pow2;
    Pow2Sum(4, 4);
    Pow2Sum(8, 8);
    Pow2Sum(16, 16);
    Pow2Sum(32, 32);
  }

  lemma Sixteen()
    ensures Pow2(4) == 16
  {
  }

  lemma {:induction false} Pow2Sum(m: nat, n: nat)
    ensures Pow2(m + n) == Pow2(m) * Pow2(n)
  {
    hide Pow2;
    if n > 0 {
      Pow2Sum(m, n - 1);
      Pow2Next(m + n);
      Pow2Next(n);
      TwiceEither(Pow2(m), Pow2(n - 1));
    } else {
      Pow2Zero();
    }
  }

  lemma Pow2Zero()
    ensures Pow2(0) == 1
  {
  }

  lemma Pow2Next(n: nat)
    requires n > 0
    ensures Pow2(n) == 2 * Pow2(n - 1)
  {
  }

  lemma TwiceEither(a: int, b: int)
    ensures 2 * (a * b) == a * (2 * b)
  {
  }

  lemma AtLeastOnce(base: int, power: int)
    requires base < 0 && power > 0
    ensures base * power <= -power
  {
  }

  /** The first doubling that overflows makes the ceiling negative. */
  lemma OverflowShows(p: Policy, n: nat)
    requires p.Representable() && 0 <= Doubled(p.base, n) < p.limit && 2 * Doubled(p.base, n) > INT64_MAX
    requires forall m: nat :: m < n && Doubled(p.base, m) < p.limit ==> 2 * Doubled(p.base, m) <= INT64_MAX
    requires 0 <= p.base
    ensures Actual(p, n + 2) < 0 <= Ceiling(p, n + 2) && InRange(n + 2)
  {
    DoubledExceeds(p.base, n);
    RoundsDouble(p, n);
    DoubledTwice(p.base, n + 1);
  }

  /** Doubling a positive base exceeds the count of doublings. */
  lemma DoubledExceeds(base: int, n: nat)
    requires 0 <= base && 2 * Doubled(base, n) > 0
    ensures n < Doubled(base, n)
  {
    assert base > 0;
  }

  lemma {:induction false} FirstOverflow(p: Policy, n: nat) returns (first: nat)
    requires 0 <= Doubled(p.base, n) < p.limit && 2 * Doubled(p.base, n) > INT64_MAX
    ensures 0 <= Doubled(p.base, first) < p.limit && 2 * Doubled(p.base, first) > INT64_MAX
    ensures forall m: nat :: m < first && 0 <= Doubled(p.base, m) < p.limit ==> 2 * Doubled(p.base, m) <= INT64_MAX
  {
    first := n;
    if m: nat :| m < n && 0 <= Doubled(p.base, m) < p.limit && 2 * Doubled(p.base, m) > INT64_MAX {
      first := FirstOverflow(p, m);
    }
  }

  lemma DoubledNonNegative(base: int, n: nat)
    requires 0 <= base
    ensures 0 <= Doubled(base, n)
  {
  }

  /** For every policy, exactly: the loop yields the closed form for all int64 attempts if and only
      if the base is not negative and no doubling below the cap leaves 64 bits. */
  lemma ClosedFormExactly(p: Policy)
    requires p.Representable()
    ensures (forall attempt :: InRange(attempt) ==> Actual(p, attempt) == Ceiling(p, attempt)) <==> 0 <= p.base && !Overflows(p)
  {
    if p.base < 0 {
      NegativeRunsAway(p);
    } else if Overflows(p) {
      var n: nat :| 0 <= Doubled(p.base, n) < p.limit && 2 * Doubled(p.base, n) > INT64_MAX;
      var first := FirstOverflow(p, n);
      forall m: nat ensures 0 <= Doubled(p.base, m) {
        DoubledNonNegative(p.base, m);
      }
      OverflowShows(p, first);
    } else {
      forall attempt | InRange(attempt) ensures Actual(p, attempt) == Ceiling(p, attempt) {
        forall m: nat ensures 0 <= Doubled(p.base, m) {
          DoubledNonNegative(p.base, m);
        }
        RoundsDouble(p, Failed(attempt) - 1);
      }
    }
  }

  /** In terms of the cap alone: a cap is safe for every base and every attempt if and only if
      the largest value still below it doubles inside 64 bits. */
  lemma SafeCaps(limit: int)
    requires InRange(limit)
    ensures (forall base :: 0 <= base <= INT64_MAX ==> !Overflows(Policy(base, limit)))
            <==> 2 * (limit - 1) <= INT64_MAX
  {
    if 2 * (limit - 1) > INT64_MAX {
      assert Doubled(limit - 1, 0) == limit - 1;
      assert Overflows(Policy(limit - 1, limit));
    }
  }

  lemma ValidIsClosed(p: Policy, attempt: int)
    requires p.Valid()
    ensures p.Representable() && Actual(p, attempt) == Ceiling(p, attempt) && 0 <= Ceiling(p, attempt) <= p.limit
  {
    SafeCaps(p.limit);
    forall m: nat ensures 0 <= Doubled(p.base, m) {
      DoubledNonNegative(p.base, m);
    }
    RoundsDouble(p, Failed(attempt) - 1);
  }

  // ------------------------------------------------------------------ the window

  /** The ceiling never shrinks as attempts accumulate, and never passes the cap. */
  lemma CeilingMonotone(p: Policy, a: int, b: int)
    requires 0 <= p.base && a <= b
    ensures Ceiling(p, a) <= Ceiling(p, b) <= p.limit
  {
    DoubledMonotone(p.base, Failed(a) - 1, Failed(b) - 1);
  }

  lemma {:induction false} DoubledMonotone(base: int, m: nat, n: nat)
    requires 0 <= base && m <= n
    ensures Doubled(base, m) <= Doubled(base, n)
  {
    if m < n {
      DoubledMonotone(base, m, n - 1);
      DoubledTwice(base, n);
      DoubledNonNegative(base, n - 1);
    }
  }

  /** The first attempt, and whatever is numbered below it, waits within the base. */
  lemma FirstWindow(p: Policy, attempt: int)
    requires p.Representable() && attempt <= 1
    ensures Ceiling(p, attempt) == Actual(p, attempt) == Min(p.limit, p.base)
  {
    DoubledOnce(p.base);
  }

  /** Every window up to the cap is twice the one before. */
  lemma CeilingDoubles(p: Policy, attempt: int)
    requires 0 <= p.base && attempt >= 1
    requires p.limit >= 0
    ensures Ceiling(p, attempt + 1) == Min(p.limit, 2 * Ceiling(p, attempt))
  {
    DoubledTwice(p.base, Failed(attempt + 1) - 1);
  }

  /** Under a valid policy no doubling the loop makes leaves 64 bits. */
  lemma NoRoundWraps(p: Policy, n: nat)
    requires p.Valid() && Rounds(p, n) < p.limit
    ensures InRange(2 * Rounds(p, n)) && Rounds(p, n + 1) == 2 * Rounds(p, n)
  {
    SafeCaps(p.limit);
    forall m: nat ensures 0 <= Doubled(p.base, m) {
      DoubledNonNegative(p.base, m);
    }
    RoundsDouble(p, n);
  }

  /** The doubling loop with its early exit, for whatever durations it was given. */
  method CeilingLoop(p: Policy, attempt: int) returns (ceiling: int)
    requires p.Representable()
    ensures ceiling == Actual(p, attempt)
    ensures p.Valid() ==> ceiling == Ceiling(p, attempt)
  {
    var failed := Failed(attempt);
    ceiling := p.base;
    var i := 1;
    while i < failed
      invariant 1 <= i <= failed && InRange(ceiling) && ceiling == Rounds(p, i - 1)
    {
      if ceiling >= p.limit {
        RoundsRest(p, i - 1, failed - 1);
        break;
      }
      ceiling := Twice(ceiling);
      i := i + 1;
    }
    if ceiling > p.limit {
      ceiling := p.limit;
    }
    if p.Valid() {
      ValidIsClosed(p, attempt);
    }
  }

  /** Past the cap the loop variable rests. */
  lemma {:induction false} RoundsRest(p: Policy, m: nat, n: nat)
    requires p.Representable() && m <= n && Rounds(p, m) >= p.limit
    ensures Rounds(p, n) == Rounds(p, m)
  {
    if m < n {
      RoundsRest(p, m, n - 1);
    }
  }

  /** The float product, over reals. */
  function Scaled(draw: real, window: int): real {
    draw * window as real
  }

  /** Conversion to an integer drops the fraction. */
  function Truncated(x: real): int {
    if x >= 0.0 then x.Floor else -(-x).Floor
  }

  /** The delay before the next attempt, for one draw. */
  function Drawn(p: Policy, attempt: int, draw: real): int
    requires p.Representable()
  {
    Truncated(Scaled(draw, Actual(p, attempt)))
  }

  /** The delay is the draw's share of the window, its fraction dropped: rounded down, or up if
      the window is negative. */
  lemma DrawnIsTheShare(p: Policy, attempt: int, draw: real)
    requires p.Representable() && 0.0 <= draw < 1.0
    ensures var delay, window := Drawn(p, attempt, draw) as real, Actual(p, attempt) as real;
            if window >= 0.0 then delay <= draw * window < delay + 1.0 else delay - 1.0 < draw * window <= delay
    ensures p.Valid() ==> var delay := Drawn(p, attempt, draw) as real; delay <= draw * Ceiling(p, attempt) as real < delay + 1.0
  {
    hide Actual, Ceiling;
    if p.Valid() {
      ValidIsClosed(p, attempt);
    }
    var window := Actual(p, attempt);
    assert Scaled(draw, window) == draw * window as real;
    ScaledStaysInside(draw, window);
    TruncatedStaysInside(draw * window as real, window);
  }

  /** A uniform draw scaled to the window and truncated toward zero: between zero and the
      window, and for a valid policy in [0, ceiling]. */
  method Delay(p: Policy, attempt: int, draw: real) returns (delay: int)
    requires p.Representable() && 0.0 <= draw < 1.0
    ensures delay == Drawn(p, attempt, draw)
    ensures Min(0, Actual(p, attempt)) <= delay <= Max(0, Actual(p, attempt))
    ensures p.Valid() ==> 0 <= delay <= Ceiling(p, attempt) <= p.limit
    ensures p.Valid() ==> delay as real <= draw * Ceiling(p, attempt) as real < delay as real + 1.0
    ensures var window := Actual(p, attempt) as real;
            if window >= 0.0 then delay as real <= draw * window < delay as real + 1.0
            else delay as real - 1.0 < draw * window <= delay as real
  {
    hide Actual, Ceiling, Scaled;
    DrawnIsTheShare(p, attempt, draw);
    var ceiling := CeilingLoop(p, attempt);
    if p.Valid() {
      ValidIsClosed(p, attempt);
    }
    ScaledStaysInside(draw, ceiling);
    delay := Truncated(Scaled(draw, ceiling));
    TruncatedStaysInside(Scaled(draw, ceiling), ceiling);
  }

  lemma ScaledStaysInside(draw: real, window: int)
    requires 0.0 <= draw < 1.0
    ensures window >= 0 ==> 0.0 <= Scaled(draw, window) <= window as real
    ensures window < 0 ==> window as real <= Scaled(draw, window) <= 0.0
  {
    if window >= 0 {
      ProductShrinks(draw, window as real);
    } else {
      ProductShrinks(draw, -(window as real));
    }
  }

  lemma TruncatedStaysInside(x: real, window: int)
    requires window >= 0 ==> 0.0 <= x <= window as real
    requires window < 0 ==> window as real <= x <= 0.0
    ensures Min(0, window) <= Truncated(x) <= Max(0, window)
    ensures x >= 0.0 ==> Truncated(x) as real <= x < Truncated(x) as real + 1.0
    ensures x <= 0.0 ==> Truncated(x) as real - 1.0 < x <= Truncated(x) as real
  {
  }

  lemma ProductShrinks(draw: real, window: real)
    requires 0.0 <= draw < 1.0 && window >= 0.0
    ensures 0.0 <= draw * window <= window
  {
  }
}
