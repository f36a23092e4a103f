/** The quota as the code computes it, from any weights: in binary64, then converted to
    an int. */
module CodeQuotas {
  import opened Int64
  import opened Quotas
  import opened Floats

  /** The conversion of a float to an int. What comes of a float of 2^63 or more is up to
      the platform: `overflow`. */
  function FloatToInt(x: nat, overflow: int): int {
    if x < TWO_63 then x else overflow
  }

  function CodeQuota(weight: nat, lightest: nat, overflow: int): int
    requires weight > 0 && lightest > 0
  {
    FloatToInt(FloatQuota(weight, lightest), overflow)
  }

  // ---------- Rounding keeps order ----------

  /** `f` is at least `c`. */
  predicate AtLeast(f: Float, c: nat) {
    f.mantissa >= c * Pow2(f.scale)
  }

  predicate AtMost(f: Float, c: nat) {
    f.mantissa <= c * Pow2(f.scale)
  }

  lemma {:induction false} NearestInUnits(n: nat, d: nat, unit: nat, c: nat)
    requires d > 0
    ensures n >= c * d ==> Nearest(n * unit, d) >= c * unit
    ensures n <= c * d ==> Nearest(n * unit, d) <= c * unit
  {
    InUnits(n, d, unit, c);
    NearestOrder(n * unit, d, c * unit);
  }

  lemma {:induction false} InUnits(n: nat, d: nat, unit: nat, c: nat)
    ensures n >= c * d ==> n * unit >= c * unit * d
    ensures n <= c * d ==> n * unit <= c * unit * d
  {
    var m := c * d;
    assert c * unit * d == unit * m;
    assert n * unit == unit * n;
    if n >= m {
      ScaledOrder(unit, m, n);
    } else {
      ScaledOrder(unit, n, m);
    }
  }

  lemma {:induction false} RoundedAtLeast(n: nat, d: nat, c: nat)
    requires n > 0 && d > 0 && 0 < c <= TWO_53 && n >= c * d
    ensures AtLeast(Rounded(n, d), c)
  {
    if n >= TWO_53 * d {
      LargeIsLarge(n, d);
    } else {
      ScaledOrder(d, 1, c);
      NearestInUnits(n, d, Pow2(Round(n, d).scale), c);
    }
  }

  lemma {:induction false} RoundedAtMost(n: nat, d: nat, c: nat)
    requires n > 0 && d > 0 && 0 < c < TWO_53 && n <= c * d
    ensures AtMost(Rounded(n, d), c)
    decreases d - n
  {
    ScaledOrder(d, c + 1, TWO_53);
    if n >= d {
      NearestInUnits(n, d, Pow2(Round(n, d).scale), c);
    } else {
      RoundedAtMost(2 * n, d, 2);
      ScaledOrder(Pow2(Rounded(n, d).scale), 1, c);
    }
  }

  lemma {:induction false} RoundedHalf(n: nat, d: nat)
    requires n > 0 && 2 * n <= d
    ensures 2 * Rounded(n, d).mantissa <= Pow2(Rounded(n, d).scale)
  {
    RoundedAtMost(2 * n, d, 1);
  }

  lemma {:induction false} CeilingOrder(f: Float, c: nat)
    ensures AtLeast(f, c) ==> Ceiling(f) >= c
    ensures AtMost(f, c) ==> Ceiling(f) <= c
  {
    var t := Pow2(f.scale);
    var x := f.mantissa + t - 1;
    var q := Ceiling(f);
    assert x == t * q + x % t;
    if AtLeast(f, c) && q < c {
      ScaledOrder(t, q + 1, c);
    }
    if AtMost(f, c) && q > c {
      ScaledOrder(t, c + 1, q);
    }
  }

  lemma {:induction false} NearestMonotone(n: nat, m: nat, d: nat)
    requires d > 0 && n <= m
    ensures Nearest(n, d) <= Nearest(m, d)
  {
    var q, r := n / d, m / d;
    assert n == d * q + n % d && m == d * r + m % d;
    if r < q {
      ScaledOrder(d, r + 1, q);
    }
  }

  lemma {:induction false} LargeMonotone(n: nat, m: nat, d: nat)
    requires d > 0 && n <= m
    ensures Large(n, d) <= Large(m, d)
    decreases m - d
  {
    if m < TWO_53 * d {
      NearestMonotone(n, m, d);
    } else if n < TWO_53 * d {
      NearestOrder(n, d, TWO_53);
      LargeIsLarge(m, d);
    } else {
      LargeMonotone(n, m, 2 * d);
    }
  }

  lemma {:induction false} LargeScales(n: nat, d: nat)
    requires d > 0
    ensures Large(2 * n, 2 * d) == Large(n, d)
    decreases n - d
  {
    if n < TWO_53 * d {
      NearestScales(n, d, 2);
    } else {
      LargeScales(n, 2 * d);
    }
  }

  lemma {:induction false} LargeOfInteger(n: nat)
    requires TWO_52 <= n < TWO_53
    ensures Large(2 * n, 1) == 2 * n
  {
    NearestOrder(2 * n, 2, n);
  }

  /** The conversion to binary64 keeps order ... */
  lemma {:induction false} ToFloatMonotone(u: nat, v: nat)
    requires 0 < u <= v
    ensures ToFloat(u) <= ToFloat(v)
  {
    if TWO_53 <= u {
      LargeMonotone(u, v, 1);
    } else if TWO_53 <= v {
      LargeIsLarge(v, 1);
    }
  }

  /** ... and commutes with doubling. */
  lemma {:induction false} ToFloatDoubles(u: nat)
    requires u > 0
    ensures ToFloat(2 * u) == 2 * ToFloat(u)
  {
    if TWO_53 <= u {
      LargeScales(u, 1);
    } else if TWO_52 <= u {
      LargeOfInteger(u);
    }
  }

  // ---------- The minimum ----------

  /** A queue no lighter than the one the quotas are relative to gets at least ten, and
      that one itself exactly ten ... */
  lemma {:induction false} FloatQuotaAtLeastTen(weight: nat, lightest: nat)
    requires 0 < lightest <= weight
    ensures FloatQuota(weight, lightest) >= 10
    ensures weight == lightest ==> FloatQuota(weight, lightest) == 10
  {
    ToFloatMonotone(lightest, weight);
    var f := Rounded(ToFloat(weight), ToFloat(lightest));
    var g := Rounded(10 * f.mantissa, Pow2(f.scale));
    RoundedAtLeast(ToFloat(weight), ToFloat(lightest), 1);
    RoundedAtLeast(10 * f.mantissa, Pow2(f.scale), 10);
    CeilingOrder(g, 10);
    if weight == lightest {
      RoundedAtMost(ToFloat(weight), ToFloat(lightest), 1);
      RoundedAtMost(10 * f.mantissa, Pow2(f.scale), 10);
    }
  }

  /** ... but one of less than half its weight at most five. */
  lemma {:induction false} FloatQuotaAtMostFive(weight: nat, lightest: nat)
    requires weight > 0 && 2 * weight <= lightest
    ensures FloatQuota(weight, lightest) <= 5
  {
    ToFloatMonotone(2 * weight, lightest);
    ToFloatDoubles(weight);
    var f := Rounded(ToFloat(weight), ToFloat(lightest));
    RoundedHalf(ToFloat(weight), ToFloat(lightest));
    RoundedAtMost(10 * f.mantissa, Pow2(f.scale), 5);
    CeilingOrder(Rounded(10 * f.mantissa, Pow2(f.scale)), 5);
  }

  // ---------- When the quota fits an int ----------

  const TWO_59: nat := 0x800_0000_0000_0000
  const TWO_60: nat := 0x1000_0000_0000_0000

  /** From this ratio of the weights on, ten times the ratio rounds to 2^63 or more. */
  const TOO_HEAVY: nat := 922337203685477568

  lemma {:induction false} LargeAtMost(n: nat, d: nat, m: nat, e: nat)
    requires d > 0 && m < TWO_53 && n <= m * Pow2(e) * d
    ensures Large(n, d) <= m * Pow2(e)
    decreases e
  {
    if n < TWO_53 * d {
      NearestOrder(n, d, m * Pow2(e));
    } else if e == 0 {
      ScaledOrder(d, m + 1, TWO_53);
      assert false;
    } else {
      HalfPower(m, e, d);
      LargeAtMost(n, 2 * d, m, e - 1);
    }
  }

  lemma {:induction false} HalfPower(m: nat, e: nat, d: nat)
    requires e > 0
    ensures m * Pow2(e) * d == m * Pow2(e - 1) * (2 * d)
    ensures m * Pow2(e) == 2 * (m * Pow2(e - 1))
  {
    var p := Pow2(e - 1);
    assert m * (2 * p) == 2 * (m * p);
    assert 2 * (m * p) * d == m * p * (2 * d);
  }

  lemma {:induction false} LargeAtLeast(n: nat, d: nat, m: nat, e: nat)
    requires d > 0 && m < TWO_53 && n >= m * Pow2(e) * d && n >= TWO_52 * d
    ensures Large(n, d) >= m * Pow2(e)
    decreases e
  {
    if n < TWO_53 * d {
      NearestOrder(n, d, m * Pow2(e));
    } else if e == 0 {
      LargeIsLarge(n, d);
    } else {
      HalfPower(m, e, d);
      LargeAtLeast(n, 2 * d, m, e - 1);
    }
  }

  /** How many bits are dropped depends on the size alone. */
  lemma {:induction false} LargeIs(n: nat, d: nat, e: nat, unit: nat)
    requires d > 0 && unit == d * Pow2(e) && TWO_52 * unit <= n < TWO_53 * unit
    ensures unit > 0 && Large(n, d) == Pow2(e) * Nearest(n, unit)
    decreases e
  {
    if e > 0 {
      HalfPower(d, e, 1);
      ScaledOrder(d, 1, Pow2(e - 1));
      SameUnit(d, e);
      LargeIs(n, 2 * d, e - 1, unit);
      DoubleProduct(Pow2(e - 1), Nearest(n, unit));
    }
  }

  lemma {:induction false} SameUnit(d: nat, e: nat)
    requires e > 0
    ensures 2 * d * Pow2(e - 1) == d * Pow2(e)
  {
    DoubleProduct(d, Pow2(e - 1));
    assert d * (2 * Pow2(e - 1)) == 2 * (d * Pow2(e - 1));
  }

  lemma DoubleProduct(a: int, b: int)
    ensures 2 * (a * b) == 2 * a * b
  {
  }

  // ---------- Rounding is to nearest, ties to even ----------

  ghost predicate NearestEven(m: nat, n: nat, d: nat) {
    && -(d as int) <= 2 * (m * d - n) <= d
    && (2 * (m * d - n) == d || 2 * (m * d - n) == -(d as int) ==> m % 2 == 0)
  }

  lemma {:induction false} NearestIsEven(n: nat, d: nat)
    requires d > 0
    ensures NearestEven(Nearest(n, d), n, d)
  {
    var q, r := n / d, n % d;
    assert n == q * d + r;
    assert (q + 1) * d == q * d + d;
  }

  lemma {:induction false} MantissaRange(n: nat, d: nat)
    requires d > 0 && TWO_52 * d <= n <= TWO_53 * d
    ensures TWO_52 <= Nearest(n, d) <= TWO_53
  {
    NearestOrder(n, d, TWO_52);
    NearestOrder(n, d, TWO_53);
  }

  /** Below 2^53 the result has a 53-bit mantissa nearest to the quotient, ... */
  lemma {:induction false} RoundedIsNearest(n: nat, d: nat)
    requires 0 < n < TWO_53 * d
    ensures var f := Rounded(n, d);
            TWO_52 <= f.mantissa <= TWO_53 && NearestEven(f.mantissa, n * Pow2(f.scale), d)
    decreases d - n
  {
    if n >= d {
      var s := Round(n, d).scale;
      NearestIsEven(n * Pow2(s), d);
      MantissaRange(n * Pow2(s), d);
    } else {
      RoundedIsNearest(2 * n, d);
      var s := Rounded(2 * n, d).scale;
      assert 2 * n * Pow2(s) == n * Pow2(s + 1);
    }
  }

  /** ... and from there on it is one times a power of two. */
  lemma {:induction false} LargeIsNearest(n: nat, d: nat) returns (e: nat, m: nat)
    requires d > 0 && n >= TWO_52 * d
    ensures Large(n, d) == Pow2(e) * m && TWO_52 <= m <= TWO_53 && NearestEven(m, n, d * Pow2(e))
    decreases n - d
  {
    if n < TWO_53 * d {
      e, m := 0, Nearest(n, d);
      NearestIsEven(n, d);
      MantissaRange(n, d);
    } else {
      e, m := LargeIsNearest(n, 2 * d);
      SameUnit(d, e + 1);
      DoubleProduct(Pow2(e), m);
      e := e + 1;
    }
  }

  /** So is the conversion of an unsigned value, exact below 2^53. */
  lemma {:induction false} ToFloatIsNearest(u: nat) returns (e: nat, m: nat)
    requires u > 0
    ensures u < TWO_53 ==> ToFloat(u) == u
    ensures u >= TWO_53 ==>
              ToFloat(u) == Pow2(e) * m && TWO_52 <= m <= TWO_53 && NearestEven(m, u, 1 * Pow2(e))
  {
    e, m := 0, u;
    if u >= TWO_53 {
      e, m := LargeIsNearest(u, 1);
    }
  }

  lemma {:induction false} Powers()
    ensures Pow2(7) == 128 && Pow2(10) == 1024 && Pow2(59) == TWO_59 && Pow2(60) == TWO_60
    ensures Pow2(63) == TWO_63
  {
    SmallPowers();
    Pow2Of52();
    Pow2Add(4, 3);
    Pow2Add(5, 5);
    Pow2Add(52, 7);
    Pow2Add(59, 4);
  }

  /** With an odd bound the tie goes above it. */
  lemma {:induction false} NearestAtMostOdd(n: nat, d: nat, k: nat)
    requires d > 0 && k % 2 == 1
    ensures Nearest(n, d) <= k <==> 2 * n < (2 * k + 1) * d
  {
    var q, r := n / d, n % d;
    assert n == d * q + r;
    assert (2 * k + 1) * d == 2 * (d * k) + d;
    if q < k {
      ScaledOrder(d, q + 1, k);
    } else if k < q {
      ScaledOrder(d, k + 1, q);
    }
  }

  /** The quotient. */
  lemma {:induction false} QuotientFitsIff(n: nat, d: nat)
    requires d > 0 && n >= TWO_53 * d
    ensures Large(n, d) <= TOO_HEAVY - 64 <==> n < TOO_HEAVY * d
    ensures TWO_59 <= Large(n, d) < TWO_60 ==> Large(n, d) % 128 == 0
  {
    Powers();
    if n < TWO_59 * d {
      LargeAtMost(n, d, 1, 59);
    } else if n >= TWO_60 * d {
      LargeAtLeast(n, d, 1, 60);
    } else {
      MiddleFitsIff(n, d);
    }
  }

  lemma {:induction false} MiddleFitsIff(n: nat, d: nat)
    requires d > 0 && TWO_59 * d <= n < TWO_60 * d
    ensures Large(n, d) <= TOO_HEAVY - 64 <==> n < TOO_HEAVY * d
    ensures Large(n, d) % 128 == 0
  {
    Powers();
    LargeIs(n, d, 7, 128 * d);
    NearestAtMostOdd(n, 128 * d, 7205759403792793);
  }

  /** Ten times the quotient. */
  lemma {:induction false} TenfoldFitsIff(r: nat)
    requires r >= TWO_53 && (TWO_59 <= r < TWO_60 ==> r % 128 == 0)
    ensures Large(10 * r, 1) < TWO_63 <==> r <= TOO_HEAVY - 64
  {
    Powers();
    if r < TWO_59 {
      LargeAtMost(10 * r, 1, 10, 59);
    } else if 10 * r >= TWO_63 {
      LargeAtLeast(10 * r, 1, 1, 63);
    } else {
      LargeIs(10 * r, 1, 10, 1024);
      NearestAtMostOdd(10 * r, 1024, TWO_53 - 1);
    }
  }

  /** The quota fits an int if and only if the weights, as floats, are less than that
      ratio apart. */
  lemma {:induction false} QuotaFitsIff(weight: nat, lightest: nat)
    requires weight > 0 && lightest > 0
    ensures FloatQuota(weight, lightest) < TWO_63 <==> ToFloat(weight) < TOO_HEAVY * ToFloat(lightest)
  {
    var n, d := ToFloat(weight), ToFloat(lightest);
    if n >= TWO_53 * d {
      LargeQuota(n, d);
      QuotientFitsIff(n, d);
      TenfoldFitsIff(Large(n, d));
    } else {
      SmallQuotaFits(n, d);
    }
  }

  lemma {:induction false} LargeQuota(n: nat, d: nat)
    requires d > 0 && n >= TWO_53 * d
    ensures Large(n, d) >= TWO_53 && Rounded(n, d) == Float(Large(n, d), 0)
    ensures Ceiling(Rounded(10 * Large(n, d), Pow2(0))) == Large(10 * Large(n, d), 1)
  {
    LargeIsLarge(n, d);
  }

  lemma {:induction false} SmallQuotaFits(n: nat, d: nat)
    requires 0 < n < TWO_53 * d
    ensures var f := Rounded(n, d);
            Ceiling(Rounded(10 * f.mantissa, Pow2(f.scale))) < TWO_63
    ensures n < TOO_HEAVY * d
  {
    var f := Rounded(n, d);
    var t := Pow2(f.scale);
    RoundedBelow(n, d);
    var m := 10 * f.mantissa;
    if m >= TWO_53 * t {
      Pow2Of52();
      assert 20 * Pow2(52) == 10 * TWO_53;
      LargeAtMost(m, t, 20, 52);
    } else {
      RoundedBelow(m, t);
      CeilingOrder(Rounded(m, t), TWO_53);
    }
  }

  lemma {:induction false} RoundedBelow(n: nat, d: nat)
    requires 0 < n < TWO_53 * d
    ensures AtMost(Rounded(n, d), TWO_53)
  {
    if n >= d {
      NearestInUnits(n, d, Pow2(Round(n, d).scale), TWO_53);
    } else {
      RoundedAtMost(n, d, 1);
    }
  }

  // ---------- A list of queues ----------

  ghost predicate Weighs(weights: seq<nat>) {
    weights != [] && forall i :: 0 <= i < |weights| ==> 0 < weights[i] < TWO_64
  }

  /** The quotas of a list of queues, as the code computes them. */
  function CodeMax(weights: seq<nat>, overflow: int): (max: seq<int>)
    requires weights != [] && forall i :: 0 <= i < |weights| ==> weights[i] > 0
    ensures |max| == |weights|
  {
    QuotaList(weights, CodeLightest(weights), overflow)
  }

  function QuotaList(weights: seq<nat>, lightest: nat, overflow: int): (max: seq<int>)
    requires lightest > 0 && forall i :: 0 <= i < |weights| ==> weights[i] > 0
    ensures |max| == |weights|
  {
    if weights == [] then []
    else
      var n := |weights| - 1;
      QuotaList(weights[..n], lightest, overflow) + [CodeQuota(weights[n], lightest, overflow)]
  }

  lemma {:induction false} QuotaListAt(weights: seq<nat>, lightest: nat, overflow: int, i: nat)
    requires lightest > 0 && i < |weights| && forall i :: 0 <= i < |weights| ==> weights[i] > 0
    ensures QuotaList(weights, lightest, overflow)[i] == CodeQuota(weights[i], lightest, overflow)
  {
    if i < |weights| - 1 {
      QuotaListAt(weights[..|weights| - 1], lightest, overflow, i);
    }
  }

  /** The loop that computes them. */
  method ComputeQuotas(weights: seq<nat>, overflow: int) returns (max: seq<int>)
    requires weights != [] && forall i :: 0 <= i < |weights| ==> weights[i] > 0
    ensures max == CodeMax(weights, overflow)
  {
    var lightest := Lightest(weights);
    max := [];
    for k := 0 to |weights|
      invariant max == QuotaList(weights[..k], lightest, overflow)
    {
      assert weights[..k + 1][..k] == weights[..k];
      max := max + [CodeQuota(weights[k], lightest, overflow)];
    }
    assert weights[..|weights|] == weights;
  }

  lemma {:induction false} FloatQuotaIsPositive(weight: nat, lightest: nat)
    requires weight > 0 && lightest > 0
    ensures FloatQuota(weight, lightest) > 0
  {
    var f := Rounded(ToFloat(weight), ToFloat(lightest));
    CeilingIsPositive(Rounded(10 * f.mantissa, Pow2(f.scale)));
  }

  lemma {:induction false} CeilingIsPositive(f: Float)
    requires f.mantissa > 0
    ensures Ceiling(f) > 0
  {
    var t := Pow2(f.scale);
    var x := f.mantissa + t - 1;
    assert x == t * (x / t) + x % t;
  }

  /** Every queue has a quota to use if and only if all of them fit an int. */
  lemma {:induction false} QuotasArePositiveIff(weights: seq<nat>, overflow: int)
    requires Weighs(weights) && overflow <= 0
    ensures (forall i :: 0 <= i < |weights| ==> CodeMax(weights, overflow)[i] > 0)
            <==> forall i :: 0 <= i < |weights| ==>
                   ToFloat(weights[i]) < TOO_HEAVY * ToFloat(CodeLightest(weights))
  {
    forall i | 0 <= i < |weights|
      ensures CodeMax(weights, overflow)[i] > 0
              <==> ToFloat(weights[i]) < TOO_HEAVY * ToFloat(CodeLightest(weights))
    {
      QuotaListAt(weights, CodeLightest(weights), overflow, i);
      FloatQuotaIsPositive(weights[i], CodeLightest(weights));
      QuotaFitsIff(weights[i], CodeLightest(weights));
    }
  }

  /** For weights below 2^48 they are the exact ceilings. */
  lemma {:induction false} SmallWeightsAreExact(weights: seq<nat>, overflow: int)
    requires Weighs(weights) && forall i :: 0 <= i < |weights| ==> weights[i] < TWO_48
    ensures CodeMax(weights, overflow) == QuotasOf(weights)
  {
    CodeLightestIsMin(weights);
    var light := MinWeight(weights);
    forall i | 0 <= i < |weights| ensures CodeMax(weights, overflow)[i] == Quota(weights[i], light) {
      QuotaListAt(weights, light, overflow, i);
      FloatQuotaIsExact(weights[i], light);
      QuotaBelow(weights[i], light);
    }
  }

  lemma {:induction false} QuotaBelow(weight: nat, lightest: nat)
    requires 0 < lightest && weight < TWO_48
    ensures Quota(weight, lightest) < TWO_63
  {
    QuotaIsCeiling(weight, lightest);
    ScaledOrder(Quota(weight, lightest), 1, lightest);
    if Quota(weight, lightest) >= TWO_63 {
      ScaledOrder(lightest, TWO_63, Quota(weight, lightest));
      ScaledOrder(TWO_63 - 1, 1, lightest);
    }
  }

  /** The promise that every queue gets at least ten: it is kept, in whatever order the
      queues are listed, if and only if all weights are less than 2^63 apart and every
      quota fits an int. */
  lemma {:induction false} MinimumKeptIff(weights: seq<nat>, overflow: int)
    requires Weighs(weights) && overflow < 10
    ensures (forall order: seq<nat>, i :: Reorders(order, weights) && 0 <= i < |order| ==>
               CodeQuota(order[i], CodeLightest(order), overflow) >= 10)
            <==> Comparable(weights) && AllFit(weights)
  {
    if Comparable(weights) && AllFit(weights) {
      forall order: seq<nat>, i | Reorders(order, weights) && 0 <= i < |order|
        ensures CodeQuota(order[i], CodeLightest(order), overflow) >= 10
      {
        MinimumInOrder(weights, order, i, overflow);
      }
    } else if Comparable(weights) {
      CodeLightestIsMin(weights);
      var i :| 0 <= i < |weights| && ToFloat(weights[i]) >= TOO_HEAVY * ToFloat(MinWeight(weights));
      QuotaFitsIff(weights[i], MinWeight(weights));
      assert Reorders(weights, weights);
    } else {
      var order := FarOrder(weights);
      ReordersWeigh(order, weights);
      var k :| 0 <= k < |order| && order[k] + TWO_63 <= CodeLightest(order);
      FloatQuotaAtMostFive(order[k], CodeLightest(order));
    }
  }

  ghost predicate Reorders(order: seq<nat>, weights: seq<nat>)
    requires Weighs(weights)
    ensures Reorders(order, weights) ==> order != [] && forall i :: 0 <= i < |order| ==> order[i] > 0
  {
    ReordersWeigh(order, weights);
    multiset(order) == multiset(weights)
  }

  lemma {:induction false} ReordersWeigh(order: seq<nat>, weights: seq<nat>)
    requires Weighs(weights)
    ensures multiset(order) == multiset(weights) ==> Weighs(order)
  {
    if multiset(order) == multiset(weights) {
      assert |multiset(order)| == |multiset(weights)|;
      forall i | 0 <= i < |order| ensures 0 < order[i] < TWO_64 {
        assert order[i] in multiset(order);
      }
    }
  }

  /** No weight is too far above the least. */
  ghost predicate AllFit(weights: seq<nat>)
    requires Weighs(weights)
  {
    forall i :: 0 <= i < |weights| ==> ToFloat(weights[i]) < TOO_HEAVY * ToFloat(MinWeight(weights))
  }

  lemma {:induction false} MinimumInOrder(weights: seq<nat>, order: seq<nat>, i: nat, overflow: int)
    requires Weighs(weights) && Comparable(weights) && AllFit(weights)
    requires Reorders(order, weights) && i < |order|
    ensures CodeQuota(order[i], CodeLightest(order), overflow) >= 10
  {
    var light := MinWeight(weights);
    SameLightest(weights, order);
    assert order[i] in multiset(weights);
    var k :| 0 <= k < |weights| && weights[k] == order[i];
    FloatQuotaAtLeastTen(order[i], light);
    QuotaFitsIff(order[i], light);
  }

  lemma {:induction false} SameLightest(weights: seq<nat>, order: seq<nat>)
    requires Weighs(weights) && Comparable(weights) && Reorders(order, weights)
    ensures CodeLightest(order) == MinWeight(weights)
  {
    SameWeightsComparable(weights, order);
    CodeLightestIsLightest(order);
    assert CodeLightest(order) in multiset(weights) && MinWeight(weights) in multiset(order);
  }

  /** Weights 2^60 and 1: the quota of the heavier queue does not fit. */
  lemma {:induction false} HeavyQuotaOverflows(overflow: int)
    ensures CodeQuota(TWO_60, 1, overflow) == overflow
  {
    Powers();
    LargeAtLeast(TWO_60, 1, 1, 60);
    QuotaFitsIff(TWO_60, 1);
  }

  /** Weights 2^64 - 1 and 1: the heavier one passes for the lightest, and the quota of
      the other falls below the minimum. */
  lemma {:induction false} FarApartWeights(overflow: int)
    ensures CodeLightest([TWO_64 - 1, 1]) == TWO_64 - 1
    ensures CodeQuota(1, TWO_64 - 1, overflow) <= 5
  {
    assert [TWO_64 - 1, 1][..1] == [TWO_64 - 1];
    FloatQuotaAtMostFive(1, TWO_64 - 1);
  }
}
