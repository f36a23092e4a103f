/** The quota is computed in IEEE 754 binary64 arithmetic. For weights below 2^48 the
    two roundings never change the ceiling. */
module Floats {
  import opened Quotas

  const TWO_48: nat := 0x1_0000_0000_0000
  const TWO_49: nat := 0x2_0000_0000_0000
  const TWO_52: nat := 0x10_0000_0000_0000
  const TWO_53: nat := 0x20_0000_0000_0000

  function Pow2(n: nat): (r: nat)
    ensures r > 0
  {
    if n == 0 then 1 else 2 * Pow2(n - 1)
  }

  /** `n / d` rounded to the nearest integer, ties to even. */
  function Nearest(n: nat, d: nat): nat
    requires d > 0
  {
    var q, r := n / d, n % d;
    if 2 * r < d then q
    else if 2 * r > d then q + 1
    else if q % 2 == 0 then q
    else q + 1
  }

  /** The number `mantissa / 2^scale`. */
  datatype Float = Float(mantissa: nat, scale: nat)

  /** The scale at which `n / d` has a 53-bit mantissa. */
  function ScaleFrom(n: nat, d: nat, s: nat): (scale: nat)
    requires 0 < d <= n && s <= 52 && n * Pow2(s) < TWO_53 * d
    ensures s <= scale <= 52
    ensures TWO_52 * d <= n * Pow2(scale) < TWO_53 * d
    decreases 52 - s
  {
    if n * Pow2(s) >= TWO_52 * d then s
    else
      LargestScale(n, d, s);
      ScaleFrom(n, d, s + 1)
  }

  lemma {:induction false} LargestScale(n: nat, d: nat, s: nat)
    requires 0 < d <= n && s <= 52 && n * Pow2(s) < TWO_52 * d
    ensures s < 52 && n * Pow2(s + 1) < TWO_53 * d
  {
    Double(n, Pow2(s));
    if s == 52 {
      Pow2Of52();
      ScaledOrder(TWO_52, d, n);
    }
  }

  lemma Double(n: int, x: int)
    ensures n * (2 * x) == 2 * (n * x)
  {
  }

  lemma {:induction false} Pow2Add(a: nat, b: nat)
    ensures Pow2(a + b) == Pow2(a) * Pow2(b)
  {
    if a > 0 {
      Pow2Add(a - 1, b);
      assert 2 * (Pow2(a - 1) * Pow2(b)) == Pow2(a) * Pow2(b);
    }
  }

  lemma {:induction false} Pow2Of52()
    ensures Pow2(52) == TWO_52
  {
    Pow2Add(4, 9);
    Pow2Add(13, 13);
    Pow2Add(26, 26);
    assert Pow2(3) == 8 && Pow2(4) == 16;
    assert Pow2(6) == 64 && Pow2(9) == 512;
  }

  /** `n / d`, at least 1 and below 2^53, rounded to binary64. */
  function Round(n: nat, d: nat): Float
    requires 0 < d <= n < TWO_53 * d
  {
    var s := ScaleFrom(n, d, 0);
    Float(Nearest(n * Pow2(s), d), s)
  }

  function Ceiling(f: Float): nat {
    (f.mantissa + Pow2(f.scale) - 1) / Pow2(f.scale)
  }

  lemma {:induction false} NearestIsNear(n: nat, d: nat)
    requires d > 0
    ensures -(d as int) <= 2 * (Nearest(n, d) * d - n) <= d
  {
    var q := n / d;
    assert n == q * d + n % d;
    assert (q + 1) * d == q * d + d;
  }

  // ---------- The two operations ----------

  /** The quotient of the weights. */
  function Ratio(weight: nat, lightest: nat): Float
    requires 0 < lightest <= weight < TWO_49
  {
    InDivisionRange(weight, lightest);
    Round(weight, lightest)
  }

  lemma {:induction false} InDivisionRange(weight: nat, lightest: nat)
    requires 0 < lightest <= weight < TWO_49
    ensures weight < TWO_53 * lightest
  {
    ScaledOrder(TWO_53, 1, lightest);
  }

  /** What is known of the quotient: its mantissa has 53 bits (or is 2^53), it is off
      by at most half a unit, and a unit is small beside the weights. */
  lemma {:induction false} RatioIsClose(weight: nat, lightest: nat)
    requires 0 < lightest <= weight < TWO_49
    ensures var f := Ratio(weight, lightest);
            var unit := Pow2(f.scale);
            && TWO_52 <= f.mantissa <= TWO_53
            && -(lightest as int) <= 2 * (f.mantissa * lightest - weight * unit) <= lightest
            && 8 * lightest < unit && (weight < TWO_48 ==> 16 * lightest < unit)
            && f.scale <= 52
  {
    var s := Ratio(weight, lightest).scale;
    var m := Ratio(weight, lightest).mantissa;
    NearestIsNear(weight * Pow2(s), lightest);
    MantissaFits(m, weight * Pow2(s), lightest);
    UnitIsSmall(weight, lightest, Pow2(s));
  }

  lemma {:induction false} MantissaFits(m: nat, n: nat, d: nat)
    requires d > 0 && TWO_52 * d <= n < TWO_53 * d
    requires -(d as int) <= 2 * (m * d - n) <= d
    ensures TWO_52 <= m <= TWO_53
  {
    ScaledOrder(d, m, TWO_52 - 1);
    ScaledOrder(d, TWO_53 + 1, m);
  }

  lemma {:induction false} UnitIsSmall(weight: nat, lightest: nat, unit: nat)
    requires weight < TWO_49 && TWO_52 * lightest <= weight * unit && lightest > 0
    ensures 8 * lightest < unit
    ensures weight < TWO_48 ==> 16 * lightest < unit
  {
    ScaledOrder(unit, weight, TWO_49 - 1);
    ScaledOrder(unit, weight, TWO_48 - 1);
  }

  /** Ten times a quotient. */
  function TimesTen(f: Float): Float
    requires Pow2(f.scale) <= 10 * f.mantissa < TWO_53 * Pow2(f.scale)
  {
    Round(10 * f.mantissa, Pow2(f.scale))
  }

  // ---------- The roundings do not move the ceiling ----------

  /** Two roundings, of `a / b` to `m / unit` and of `10 * m` to `r * step`, cannot
      reach an integer above ... */
  lemma {:induction false} StaysBelow(a: int, b: int, unit: int, m: int, step: int, r: int, q: int)
    requires b > 0 && unit > 13 * b && step <= 16
    requires 2 * (m * b - a * unit) <= b && 2 * (r * step - 10 * m) <= step
    requires 10 * a < q * b
    ensures r * step < q * unit
  {
    var p := r * step;
    ScaledOrder(b, 2 * p, 20 * m + 16);
    ScaledOrder(unit, 10 * a, q * b - 1);
    Rearrange(a, b, unit, m, q, p);
    ScaledOrder(b, q * unit, p);
  }

  /** ... nor one at or below. */
  lemma {:induction false} StaysAbove(a: int, b: int, unit: int, m: int, step: int, r: int, q: int)
    requires b > 0 && unit > 13 * b && step <= 16
    requires 2 * (m * b - a * unit) >= -b && 2 * (r * step - 10 * m) >= -step
    requires 10 * a > q * b
    ensures r * step > q * unit
  {
    var p := r * step;
    ScaledOrder(b, 20 * m - 16, 2 * p);
    ScaledOrder(unit, q * b + 1, 10 * a);
    Rearrange(a, b, unit, m, q, p);
    ScaledOrder(b, p, q * unit);
  }

  lemma Rearrange(a: int, b: int, unit: int, m: int, q: int, p: int)
    ensures b * (20 * m + 16) == 20 * (m * b) + 16 * b && b * (20 * m - 16) == 20 * (m * b) - 16 * b
    ensures b * (2 * p) == 2 * (b * p)
    ensures unit * (10 * a) == 10 * (a * unit)
    ensures unit * (q * b - 1) == b * (q * unit) - unit && unit * (q * b + 1) == b * (q * unit) + unit
  {
  }

  // ---------- Exact quotients ----------

  /** When `10 * a / b` is an integer `q`, ten times the rounded quotient is within 4
      of `q` units. */
  lemma {:induction false} ExactTenth(a: int, b: int, unit: int, m: int, q: int)
    requires b > 0 && unit % 2 == 0 && 10 * a == q * b
    requires -b <= 2 * (m * b - a * unit) <= b
    ensures -4 <= 10 * m - q * unit <= 4
  {
    var e := 10 * m - q * unit;
    TenthError(a, b, unit, m, q);
    assert -5 * b <= b * e <= 5 * b;
    ScaledOrder(b, 6, e);
    ScaledOrder(b, e, -6);
    EvenProduct(q, unit);
  }

  lemma {:induction false} TenthError(a: int, b: int, unit: int, m: int, q: int)
    requires 10 * a == q * b
    ensures b * (10 * m - q * unit) == 10 * (m * b - a * unit)
  {
    assert b * (q * unit) == (q * b) * unit;
    assert (10 * a) * unit == 10 * (a * unit);
  }

  lemma {:induction false} EvenProduct(q: int, unit: int)
    requires unit % 2 == 0
    ensures (q * unit) % 2 == 0
  {
    var half := unit / 2;
    assert q * unit == 2 * (q * half);
  }

  /** Rounding a number within 4 of an even multiple of the step, which is 8 or 16,
      gives that multiple. */
  lemma NearEvenMultiple(n: nat, step: nat, multiple: nat)
    requires step == 8 || step == 16
    requires multiple % 2 == 0 && -4 <= n - multiple * step <= 4
    ensures Nearest(n, step) == multiple
  {
  }

  // ---------- The second rounding ----------

  lemma {:induction false} Pow2Monotone(a: nat, b: nat)
    requires a <= b
    ensures Pow2(a) <= Pow2(b)
  {
    if a < b {
      Pow2Monotone(a, b - 1);
    }
  }

  /** Rounding does not depend on a common factor. */
  lemma {:induction false} NearestScales(n: nat, d: nat, c: nat)
    requires d > 0 && c > 0
    ensures d * c > 0 && Nearest(n * c, d * c) == Nearest(n, d)
  {
    var q, r := n / d, n % d;
    assert d * c > 0;
    assert n == q * d + r;
    FactorOut(n, d, c, q, r);
    QuotientIs(n * c, d * c, q, r * c);
    ScaledOrder(c, 2 * r, d);
    ScaledOrder(c, d, 2 * r);
    ScaledOrder(c, 2 * r + 1, d);
    ScaledOrder(c, d + 1, 2 * r);
    Double(c, r);
  }

  lemma {:induction false} FactorOut(n: nat, d: nat, c: nat, q: nat, r: nat)
    requires n == q * d + r && r < d && c > 0
    ensures n * c == q * (d * c) + r * c && r * c < d * c
    ensures r * c == c * r && d * c == c * d
  {
    ScaledOrder(c, r + 1, d);
    assert (q * d + r) * c == q * (d * c) + r * c;
  }

  lemma {:induction false} QuotientIs(n: nat, d: nat, q: nat, r: nat)
    requires d > 0 && n == q * d + r && r < d
    ensures n / d == q && n % d == r
  {
    var q2, r2 := n / d, n % d;
    assert n == q2 * d + r2;
    ScaledOrder(d, q + 1, q2);
    ScaledOrder(d, q2 + 1, q);
  }

  lemma {:induction false} RatioFitsTimesTen(weight: nat, lightest: nat)
    requires 0 < lightest <= weight < TWO_49
    ensures var f := Ratio(weight, lightest);
            Pow2(f.scale) <= 10 * f.mantissa < TWO_53 * Pow2(f.scale)
  {
    var f := Ratio(weight, lightest);
    var unit := Pow2(f.scale);
    RatioIsClose(weight, lightest);
    Pow2Monotone(f.scale, 52);
    Pow2Of52();
    RatioBelow(weight, lightest, unit, f.mantissa);
  }

  lemma {:induction false} RatioBelow(a: nat, b: nat, unit: nat, m: nat)
    requires 0 < b && a < TWO_49 && 2 * (m * b - a * unit) <= b && unit > 8 * b
    ensures 10 * m < TWO_53 * unit
  {
    ScaledOrder(unit, a, TWO_49);
    ScaledOrder(TWO_49 * unit + 1, 1, b);
    assert (TWO_49 * unit + 1) * b >= TWO_49 * unit + 1;
    assert m * b <= TWO_49 * unit * b + b by {
      ScaledOrder(TWO_49 * unit, 1, b);
    }
    assert b * (TWO_49 * unit + 1) == TWO_49 * unit * b + b;
    ScaledOrder(b, TWO_49 * unit + 2, m);
  }

  /** The second rounding drops three or four bits. */
  lemma {:induction false} SecondRounding(f: Float) returns (step: nat)
    requires TWO_52 <= f.mantissa <= TWO_53
    requires Pow2(f.scale) <= 10 * f.mantissa < TWO_53 * Pow2(f.scale)
    ensures step == 8 || step == 16
    ensures TimesTen(f).scale <= f.scale <= TimesTen(f).scale + 4
    ensures Pow2(f.scale) == step * Pow2(TimesTen(f).scale)
    ensures TimesTen(f).mantissa == Nearest(10 * f.mantissa, step)
  {
    var n, unit := 10 * f.mantissa, Pow2(f.scale);
    var s := ScaleFrom(n, unit, 0);
    assert s < f.scale by {
      if f.scale <= s {
        Pow2Monotone(f.scale, s);
        ScaledOrder(n, unit, Pow2(s));
        ScaledOrder(unit, TWO_53, n);
      }
    }
    step := Pow2(f.scale - s);
    Pow2Add(f.scale - s, s);
    NearestScales(n, step, Pow2(s));
    StepBounds(n, unit, step, Pow2(s));
    StepIsEightOrSixteen(f.scale - s);
  }

  lemma {:induction false} StepBounds(n: nat, unit: nat, step: nat, rest: nat)
    requires unit == step * rest && rest > 0
    requires TWO_52 * unit <= n * rest < TWO_53 * unit
    requires 10 * TWO_52 <= n <= 10 * TWO_53
    ensures 5 < step <= 20
  {
    assert TWO_52 * (step * rest) == rest * (TWO_52 * step);
    assert TWO_53 * (step * rest) == rest * (TWO_53 * step);
    ScaledOrder(rest, n + 1, TWO_52 * step);
    ScaledOrder(rest, TWO_53 * step, n);
  }

  lemma {:induction false} SmallPowers()
    ensures Pow2(2) == 4 && Pow2(3) == 8 && Pow2(4) == 16 && Pow2(5) == 32
  {
    assert Pow2(4) == 4 * Pow2(2) && Pow2(5) == 4 * Pow2(3);
  }

  lemma {:induction false} StepIsEightOrSixteen(k: nat)
    requires 5 < Pow2(k) <= 20
    ensures k <= 4 && (Pow2(k) == 8 || Pow2(k) == 16)
  {
    SmallPowers();
    if k >= 5 {
      Pow2Monotone(5, k);
    } else if k <= 2 {
      Pow2Monotone(k, 2);
    }
  }

  // ---------- All sizes ----------

  /** `n / d`, at least 2^52, rounded to binary64: an integer. */
  function Large(n: nat, d: nat): (r: nat)
    requires d > 0
    decreases n - d
  {
    if n < TWO_53 * d then Nearest(n, d) else 2 * Large(n, 2 * d)
  }

  /** `n / d` rounded to binary64. Doubling a number only changes its exponent. */
  function Rounded(n: nat, d: nat): (f: Float)
    requires n > 0 && d > 0
    ensures f.mantissa > 0
    decreases d - n
  {
    if n >= TWO_53 * d then
      LargeIsLarge(n, d);
      Float(Large(n, d), 0)
    else if n >= d then
      MantissaIsPositive(n, d);
      Round(n, d)
    else
      var f := Rounded(2 * n, d);
      Float(f.mantissa, f.scale + 1)
  }

  lemma {:induction false} NearestOrder(n: nat, d: nat, k: nat)
    requires d > 0
    ensures n >= k * d ==> Nearest(n, d) >= k
    ensures n <= k * d ==> Nearest(n, d) <= k
  {
    var m := Nearest(n, d);
    NearestIsNear(n, d);
    if m < k {
      ScaledOrder(d, m + 1, k);
    } else if k < m {
      ScaledOrder(d, k + 1, m);
    }
  }

  lemma {:induction false} LargeIsLarge(n: nat, d: nat)
    requires d > 0 && n >= TWO_52 * d
    ensures Large(n, d) >= TWO_52
    ensures n >= TWO_53 * d ==> Large(n, d) >= TWO_53
    decreases n - d
  {
    if n < TWO_53 * d {
      NearestOrder(n, d, TWO_52);
    } else {
      LargeIsLarge(n, 2 * d);
    }
  }

  lemma {:induction false} MantissaIsPositive(n: nat, d: nat)
    requires 0 < d <= n < TWO_53 * d
    ensures Round(n, d).mantissa > 0
  {
    var s := Round(n, d).scale;
    NearestOrder(n * Pow2(s), d, TWO_52);
  }

  /** The conversion of a 64-bit unsigned value to binary64. */
  function ToFloat(u: nat): (r: nat)
    requires u > 0
    ensures r > 0
  {
    if u < TWO_53 then u else
      LargeIsLarge(u, 1);
      Large(u, 1)
  }

  /** The code's `ceil(float64(weight) / float64(lightest) * 10)`. */
  function FloatQuota(weight: nat, lightest: nat): nat
    requires weight > 0 && lightest > 0
  {
    var f := Rounded(ToFloat(weight), ToFloat(lightest));
    Ceiling(Rounded(10 * f.mantissa, Pow2(f.scale)))
  }

  lemma {:induction false} FloatQuotaBelow49(weight: nat, lightest: nat)
    requires 0 < lightest <= weight < TWO_49
    ensures var f := Ratio(weight, lightest);
            && Pow2(f.scale) <= 10 * f.mantissa < TWO_53 * Pow2(f.scale)
            && FloatQuota(weight, lightest) == Ceiling(TimesTen(f))
  {
    InDivisionRange(weight, lightest);
    RatioFitsTimesTen(weight, lightest);
  }

  /** For all weights below 2^48 the floating-point quota is the exact ceiling. */
  lemma {:induction false} FloatQuotaIsExact(weight: nat, lightest: nat)
    requires 0 < lightest <= weight < TWO_48
    ensures FloatQuota(weight, lightest) == Quota(weight, lightest)
  {
    FloatQuotaBelow49(weight, lightest);
    var f := Ratio(weight, lightest);
    RatioIsClose(weight, lightest);
    RatioFitsTimesTen(weight, lightest);
    var step := SecondRounding(f);
    var g := TimesTen(f);
    var q := Quota(weight, lightest);
    QuotaIsCeiling(weight, lightest);
    NearestIsNear(10 * f.mantissa, step);
    var half := EvenUnit(f.scale, g.scale);
    Bracketed(weight, lightest, f.mantissa, step, g.mantissa, Pow2(g.scale), q, half);
    CeilingIs(g.mantissa, Pow2(g.scale), q);
  }

  /** A unit above 16 leaves the coarser unit even. */
  lemma {:induction false} EvenUnit(s: nat, t: nat) returns (half: nat)
    requires Pow2(s) > 16 && s <= t + 4
    ensures Pow2(t) == 2 * half
  {
    SmallPowers();
    assert t > 0 by {
      if t == 0 {
        Pow2Monotone(s, 4);
      }
    }
    half := Pow2(t - 1);
  }

  lemma {:induction false} Bracketed(a: nat, b: nat, m: nat, step: nat, r: nat, rest: nat, q: nat, half: nat)
    requires b > 0 && rest == 2 * half && (step == 8 || step == 16) && 16 * b < step * rest
    requires -(b as int) <= 2 * (m * b - a * (step * rest)) <= b
    requires r == Nearest(10 * m, step) && -(step as int) <= 2 * (r * step - 10 * m) <= step
    requires 10 * a <= b * q < 10 * a + b
    ensures (q - 1) * rest < r <= q * rest
  {
    ScaledOrder(b, q, q);
    StaysAbove(a, b, step * rest, m, step, r, q - 1);
    Unscale(r, step, q - 1, rest);
    Unscale(r, step, q, rest);
    if 10 * a < b * q {
      StaysBelow(a, b, step * rest, m, step, r, q);
    } else {
      ExactlyOn(a, b, m, step, rest, q, half);
    }
  }

  lemma {:induction false} Unscale(r: int, step: int, q: int, rest: int)
    requires step > 0
    ensures r * step > q * (step * rest) ==> r > q * rest
    ensures r * step < q * (step * rest) ==> r < q * rest
  {
    Regroup(q, step, rest);
    ScaledOrder(step, r, q * rest);
    ScaledOrder(step, q * rest, r);
  }

  lemma {:induction false} ExactlyOn(a: nat, b: nat, m: nat, step: nat, rest: nat, q: nat, half: nat)
    requires b > 0 && rest == 2 * half && (step == 8 || step == 16)
    requires -(b as int) <= 2 * (m * b - a * (step * rest)) <= b
    requires 10 * a == b * q
    ensures Nearest(10 * m, step) == q * rest
  {
    EvenProduct(step, rest);
    ExactTenth(a, b, step * rest, m, q);
    Regroup(q, step, rest);
    EvenProduct(q, rest);
    NearEvenMultiple(10 * m, step, q * rest);
  }

  lemma {:induction false} CeilingIs(r: nat, t: nat, q: nat)
    requires t > 0 && (q - 1) * t < r <= q * t
    ensures (r + t - 1) / t == q
  {
    assert (q - 1) * t == q * t - t;
    QuotientIs(r + t - 1, t, q, r + t - 1 - q * t);
  }

  // ---------- The bound is needed ----------

  lemma {:induction false} ScaleIs(n: nat, d: nat, s: nat, scale: nat)
    requires 0 < d <= n && s <= scale <= 52 && n * Pow2(s) < TWO_53 * d
    requires TWO_52 * d <= n * Pow2(scale) < TWO_53 * d
    ensures ScaleFrom(n, d, s) == scale
    decreases scale - s
  {
    if s < scale {
      Pow2Monotone(s + 1, scale);
      ScaledOrder(n, Pow2(s + 1), Pow2(scale));
      Double(n, Pow2(s));
      ScaleIs(n, d, s + 1, scale);
    }
  }

  /** Not for all weights below 2^49: here the exact quota is 12, but the second
      rounding falls on 11. */
  lemma {:induction false} LargerWeightsRoundDown()
    ensures Quota(561874516112249, 510795014647499) == 12
    ensures FloatQuota(561874516112249, 510795014647499) == 11
  {
    Pow2Of49();
    FirstFallsShort();
    FloatQuotaBelow49(561874516112249, 510795014647499);
    SecondFallsShort();
  }

  lemma {:induction false} FirstFallsShort()
    ensures Ratio(561874516112249, 510795014647499) == Float(4953959590107546, 52)
  {
    Pow2Of52();
    InDivisionRange(561874516112249, 510795014647499);
    ScaleIs(561874516112249, 510795014647499, 0, 52);
  }

  lemma {:induction false} SecondFallsShort()
    ensures Pow2(52) <= 49539595901075460 < TWO_53 * Pow2(52)
    ensures TimesTen(Float(4953959590107546, 52)) == Float(6192449487634432, 49)
  {
    Pow2Of52();
    Pow2Of49();
    ScaleIs(49539595901075460, TWO_52, 0, 49);
  }

  lemma {:induction false} Pow2Of49()
    ensures Pow2(49) == TWO_49
  {
    Pow2Of52();
    assert Pow2(52) == 2 * Pow2(51) && Pow2(51) == 2 * Pow2(50) && Pow2(50) == 2 * Pow2(49);
  }
}
