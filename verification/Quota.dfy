/** The per-round binding quota of a queue, relative to the lightest queue. */
module Quotas {
  import opened Int64

  const MINIMUM_BINDINGS: nat := 10

  /** The ceiling of `10 * weight / lightest`. */
  function Quota(weight: nat, lightest: nat): nat
    requires lightest > 0
  {
    (MINIMUM_BINDINGS * weight + lightest - 1) / lightest
  }

  lemma {:induction false} QuotaIsCeiling(weight: nat, lightest: nat)
    requires lightest > 0
    ensures 10 * weight <= lightest * Quota(weight, lightest) < 10 * weight + lightest
  {
    var x := 10 * weight + lightest - 1;
    assert x == lightest * (x / lightest) + x % lightest;
  }

  lemma {:induction false} ScaledOrder(d: int, a: int, b: int)
    requires d >= 0
    ensures a <= b ==> d * a <= d * b
    ensures d * (a + 1) == d * a + d && d * (a - 1) == d * a - d
  {
    if a <= b {
      assert 0 <= d * (b - a);
    }
  }

  lemma Regroup(a: int, b: int, c: int)
    ensures a * (b * c) == b * (a * c)
  {
  }

  /** Two integers whose products bracket the same number are equal. */
  lemma {:induction false} CeilingIsUnique(x: nat, d: nat, q1: int, q2: int)
    requires d > 0 && x <= d * q1 < x + d && x <= d * q2 < x + d
    ensures q1 == q2
  {
    ScaledOrder(d, q1 + 1, q2);
    ScaledOrder(d, q2 + 1, q1);
  }

  /** The lightest queue gets exactly the minimum, and no queue gets less. */
  lemma {:induction false} QuotaAtLeastMinimum(weight: nat, lightest: nat)
    requires 0 < lightest <= weight
    ensures Quota(lightest, lightest) == MINIMUM_BINDINGS
    ensures Quota(weight, lightest) >= MINIMUM_BINDINGS
  {
    QuotaIsCeiling(lightest, lightest);
    CeilingIsUnique(10 * lightest, lightest, Quota(lightest, lightest), 10);
    QuotaIsMonotone(lightest, weight, lightest);
  }

  lemma {:induction false} QuotaIsMonotone(lighter: nat, heavier: nat, lightest: nat)
    requires 0 < lightest && lighter <= heavier
    ensures Quota(lighter, lightest) <= Quota(heavier, lightest)
  {
    QuotaIsCeiling(lighter, lightest);
    QuotaIsCeiling(heavier, lightest);
    var q1, q2 := Quota(lighter, lightest), Quota(heavier, lightest);
    ScaledOrder(lightest, q2 + 1, q1);
  }

  /** Only the proportions of the weights matter. */
  lemma {:induction false} QuotaIgnoresScale(weight: nat, lightest: nat, factor: nat)
    requires lightest > 0 && factor > 0
    ensures factor * lightest > 0
    ensures Quota(factor * weight, factor * lightest) == Quota(weight, lightest)
  {
    QuotaIsCeiling(weight, lightest);
    ScaledOrder(factor, 1, lightest);
    QuotaIsCeiling(factor * weight, factor * lightest);
    ScaleBracket(weight, lightest, Quota(weight, lightest), factor);
    CeilingIsUnique(10 * (factor * weight), factor * lightest,
                    Quota(factor * weight, factor * lightest), Quota(weight, lightest));
  }

  lemma {:induction false} ScaleBracket(weight: nat, lightest: nat, q: nat, factor: nat)
    requires factor > 0 && 10 * weight <= lightest * q < 10 * weight + lightest
    ensures 10 * (factor * weight) <= factor * lightest * q < 10 * (factor * weight) + factor * lightest
  {
    ScaledOrder(factor, 10 * weight, lightest * q);
    ScaledOrder(factor, lightest * q + 1, 10 * weight + lightest);
    Associate(factor, lightest, q, weight);
  }

  lemma Associate(a: int, b: int, c: int, d: int)
    ensures a * (b * c) == a * b * c && a * (10 * d) == 10 * (a * d)
    ensures a * (10 * d + b) == 10 * (a * d) + a * b
  {
  }

  ghost predicate IsLightest(weights: seq<nat>, w: nat) {
    w in weights && forall i :: 0 <= i < |weights| ==> w <= weights[i]
  }

  function MinWeight(weights: seq<nat>): (w: nat)
    requires weights != []
    ensures IsLightest(weights, w)
  {
    if |weights| == 1 then weights[0]
    else
      var w := MinWeight(weights[1..]);
      if weights[0] <= w then weights[0] else w
  }

  /** The quotas of a list of queues, from the weights alone. */
  function QuotasOf(weights: seq<nat>): (max: seq<int>)
    requires weights != [] && forall i :: 0 <= i < |weights| ==> weights[i] > 0
    ensures |max| == |weights|
    ensures forall i :: 0 <= i < |weights| ==> max[i] == Quota(weights[i], MinWeight(weights))
    ensures forall i :: 0 <= i < |weights| ==> max[i] >= MINIMUM_BINDINGS
  {
    forall i: nat | i < |weights| ensures Quota(weights[i], MinWeight(weights)) >= MINIMUM_BINDINGS {
      QuotaAtLeastMinimum(weights[i], MinWeight(weights));
    }
    seq(|weights|, i requires 0 <= i < |weights| => Quota(weights[i], MinWeight(weights)))
  }

  // ---------- The lightest weight, in 64 bits ----------

  /** The code compares weights by the sign of their difference in 64 bits. */
  predicate SignedLess(a: nat, b: nat) {
    Wrap(ToInt(a) - ToInt(b)) < 0
  }

  /** That is right exactly for weights less than 2^63 apart (or 2^63 below). */
  lemma SignedLessIff(a: nat, b: nat)
    requires a < TWO_64 && b < TWO_64
    ensures (SignedLess(a, b) <==> a < b) <==> -TWO_63 <= a - b < TWO_63
  {
  }

  /** The weight the scan ends with. */
  function CodeLightest(weights: seq<nat>): (w: nat)
    requires weights != []
    ensures w in weights
  {
    var n := |weights| - 1;
    if n == 0 then weights[0]
    else
      var w := CodeLightest(weights[..n]);
      if SignedLess(weights[n], w) then weights[n] else w
  }

  ghost predicate Comparable(weights: seq<nat>) {
    forall i, j :: 0 <= i < |weights| && 0 <= j < |weights| ==>
                     weights[i] < TWO_64 && weights[i] - weights[j] < TWO_63
  }

  lemma {:induction false} LightestIsUnique(weights: seq<nat>, v: nat, w: nat)
    requires IsLightest(weights, v) && IsLightest(weights, w)
    ensures v == w
  {
    var i :| 0 <= i < |weights| && weights[i] == v;
    var j :| 0 <= j < |weights| && weights[j] == w;
  }

  /** If all weights are less than 2^63 apart it is the lightest. */
  lemma {:induction false} CodeLightestIsMin(weights: seq<nat>)
    requires weights != [] && Comparable(weights)
    ensures CodeLightest(weights) == MinWeight(weights)
  {
    CodeLightestIsLightest(weights);
    LightestIsUnique(weights, CodeLightest(weights), MinWeight(weights));
  }

  lemma {:induction false} CodeLightestIsLightest(weights: seq<nat>)
    requires weights != [] && Comparable(weights)
    ensures IsLightest(weights, CodeLightest(weights))
  {
    var n := |weights| - 1;
    if n > 0 {
      var w := CodeLightest(weights[..n]);
      CodeLightestIsLightest(weights[..n]);
      var i :| 0 <= i < n && weights[..n][i] == w;
      assert weights[i] == w;
      SignedLessIff(weights[n], w);
      forall k | 0 <= k < n ensures w <= weights[k] {
        assert weights[k] == weights[..n][k];
      }
    }
  }

  /** The weights less than 2^63 above `m`, or the others. */
  function Near(weights: seq<nat>, m: nat, near: bool): (ws: seq<nat>)
    ensures forall w :: w in ws <==> w in weights && (w - m < TWO_63 <==> near)
  {
    if weights == [] then []
    else (if weights[0] - m < TWO_63 <==> near then [weights[0]] else []) + Near(weights[1..], m, near)
  }

  lemma {:induction false} NearAndFar(weights: seq<nat>, m: nat)
    ensures multiset(Near(weights, m, true) + Near(weights, m, false)) == multiset(weights)
  {
    if weights != [] {
      NearAndFar(weights[1..], m);
      assert weights == [weights[0]] + weights[1..];
    }
  }

  /** A scan that comes from `m` to weights 2^63 and more above it never returns. */
  lemma {:induction false} FarTakesOver(near: seq<nat>, far: seq<nat>, m: nat)
    requires near != [] && far != [] && CodeLightest(near) == m
    requires forall w :: w in far ==> TWO_63 <= w - m && w < TWO_64
    ensures CodeLightest(near + far) in far
  {
    var n := |far| - 1;
    assert (near + far)[..|near + far| - 1] == near + far[..n] && (near + far)[|near + far| - 1] == far[n];
    assert far[n] in far;
    if n == 0 {
      assert near + far[..n] == near;
      SignedLessIff(far[0], m);
    } else {
      forall w | w in far[..n] ensures w in far {
      }
      FarTakesOver(near, far[..n], m);
    }
  }

  /** The code finds the lightest queue in whatever order they are listed if and only if
      all weights are less than 2^63 apart. */
  lemma {:induction false} LightestInAnyOrderIff(weights: seq<nat>)
    requires weights != [] && forall i :: 0 <= i < |weights| ==> weights[i] < TWO_64
    ensures (forall order: seq<nat> :: multiset(order) == multiset(weights) && order != [] ==>
               IsLightest(order, CodeLightest(order)))
            <==> Comparable(weights)
  {
    if Comparable(weights) {
      forall order: seq<nat> | multiset(order) == multiset(weights) && order != []
        ensures IsLightest(order, CodeLightest(order))
      {
        SameWeightsComparable(weights, order);
        CodeLightestIsLightest(order);
      }
    } else {
      var order := FarOrder(weights);
      assert !IsLightest(order, CodeLightest(order));
    }
  }

  lemma {:induction false} SameWeightsComparable(weights: seq<nat>, order: seq<nat>)
    requires multiset(order) == multiset(weights) && Comparable(weights)
    ensures Comparable(order)
  {
    forall i, j | 0 <= i < |order| && 0 <= j < |order|
      ensures order[i] < TWO_64 && order[i] - order[j] < TWO_63
    {
      assert order[i] in multiset(order) && order[j] in multiset(order);
      var a :| 0 <= a < |weights| && weights[a] == order[i];
      var b :| 0 <= b < |weights| && weights[b] == order[j];
    }
  }

  lemma {:induction false} FarOrder(weights: seq<nat>) returns (order: seq<nat>)
    requires weights != [] && !Comparable(weights)
    requires forall i :: 0 <= i < |weights| ==> weights[i] < TWO_64
    ensures multiset(order) == multiset(weights) && order != []
    ensures exists k :: 0 <= k < |order| && order[k] + TWO_63 <= CodeLightest(order)
  {
    var m := MinWeight(weights);
    var near, far := Near(weights, m, true), Near(weights, m, false);
    NearAndFar(weights, m);
    order := near + far;
    NearFindsLightest(weights, m);
    var i, j :| 0 <= i < |weights| && 0 <= j < |weights| && weights[i] - weights[j] >= TWO_63;
    assert weights[i] in far;
    FarTakesOver(near, far, m);
    var k :| 0 <= k < |near| && near[k] == m;
    assert order[k] == m;
  }

  lemma {:induction false} NearFindsLightest(weights: seq<nat>, m: nat)
    requires IsLightest(weights, m) && forall i :: 0 <= i < |weights| ==> weights[i] < TWO_64
    ensures var near := Near(weights, m, true);
            m in near && CodeLightest(near) == m
  {
    var near := Near(weights, m, true);
    forall i | 0 <= i < |near| ensures m <= near[i] < TWO_64 && near[i] - m < TWO_63 {
      assert near[i] in near;
    }
    CodeLightestIsLightest(near);
    LightestIsUnique(near, CodeLightest(near), m);
  }

  /** The scan for the lightest weight. */
  method Lightest(weights: seq<nat>) returns (w: nat)
    requires weights != []
    ensures w == CodeLightest(weights)
  {
    w := weights[0];
    for k := 1 to |weights|
      invariant w == CodeLightest(weights[..k])
    {
      assert weights[..k + 1][..k] == weights[..k];
      if SignedLess(weights[k], w) {
        w := weights[k];
      }
    }
    assert weights[..|weights|] == weights;
  }
}
