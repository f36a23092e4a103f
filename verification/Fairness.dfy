/** Weighted fairness of the round-robin reader over whole rounds. */
module Fairness {
  import opened Types
  import opened Config
  import opened Quotas
  import opened Floats
  import opened CodeQuotas
  import opened RoundRobin
  import opened Iterator
  import opened Safety
  import opened Sums
  import opened Progress

  /** The bindings queue `i` was served in a run. */
  function Served(es: seq<Event>, i: nat): nat {
    if es == [] then 0
    else (if es[0].Pop? && es[0].i == i then |es[0].r.bindings| else 0) + Served(es[1..], i)
  }

  /** One reader throughout, and every queue is found non-empty on its turn. */
  ghost predicate Busy(es: seq<Event>) {
    forall k :: 0 <= k < |es| ==> !es[k].Miss? && !es[k].Start?
  }

  /** The most a queue can be served in one round. */
  function RoundLimit(p: Setup, i: nat): int
    requires i < Count(p) == |p.max|
  {
    p.max[i] + p.configs[i].maxSize - 1
  }

  lemma {:induction false} BusyStep(p: Setup, s: State, e: Event, i: nat)
    requires Sane(p) && Inv(p, s) && p.algorithm.RoundRobinReads? && i < Count(p)
    requires Enabled(p, s, e) && !e.Miss? && !e.Start?
    ensures var t := Apply(p, s, e);
            if e.Choose? && NextQueue(p.max, s.read) < 0 then
              t.read[i] == 0 && p.max[i] <= s.read[i] <= RoundLimit(p, i)
            else
              t.read[i] == s.read[i] + Served([e], i)
  {
    if e.Choose? && NextQueue(p.max, s.read) < 0 {
      assert !QuotaLeft(p.max, s.read)[i];
    }
  }

  lemma {:induction false} ServedOneMore(es: seq<Event>, i: nat)
    requires es != []
    ensures Served(es, i) == Served([es[0]], i) + Served(es[1..], i)
  {
    assert [es[0]][1..] == [];
  }

  /** Over any busy run, a queue is served at least its quota and at most its quota
      plus all but one binding of a largest request, for every round begun. */
  lemma {:induction false} RoundsServeQuota(p: Setup, s: State, es: seq<Event>, i: nat)
    requires Sane(p) && Inv(p, s) && p.algorithm.RoundRobinReads? && i < Count(p)
    requires Run(p, s, es) && Busy(es)
    ensures var rounds := NewRounds(p, s, es);
            var last := Final(p, s, es).read[i];
            && Times(rounds, p.max[i]) + last <= s.read[i] + Served(es, i)
            && s.read[i] + Served(es, i) <= Times(rounds, RoundLimit(p, i)) + last
    decreases |es|
  {
    if es != [] {
      var t, rest := Apply(p, s, es[0]), es[1..];
      InvKept(p, s, es[0]);
      BusyStep(p, s, es[0], i);
      RoundsServeQuota(p, t, rest, i);
      ServedOneMore(es, i);
    }
  }

  /** Between two round boundaries. */
  ghost predicate WholeRounds(p: Setup, s: State, es: seq<Event>) {
    && Shaped(p, s) && Run(p, s, es) && Busy(es)
    && s.read == Zeros(Count(p)) && Final(p, s, es).read == Zeros(Count(p))
  }

  lemma {:induction false} WholeRoundsServe(p: Setup, s: State, es: seq<Event>, i: nat)
    requires Sane(p) && Inv(p, s) && p.algorithm.RoundRobinReads? && i < Count(p)
    requires WholeRounds(p, s, es)
    ensures Times(NewRounds(p, s, es), p.max[i]) <= Served(es, i)
    ensures Served(es, i) <= Times(NewRounds(p, s, es), p.max[i] + p.configs[i].maxSize - 1)
  {
    RoundsServeQuota(p, s, es, i);
    assert s.read[i] == 0 && Final(p, s, es).read[i] == 0;
  }

  /** So in whole rounds every queue gets its quota and never a full request more. */
  lemma {:induction false} WholeRoundsServeQuota(p: Setup, s: State, es: seq<Event>, i: nat)
    requires Sane(p) && Inv(p, s) && p.algorithm.RoundRobinReads? && i < Count(p)
    requires WholeRounds(p, s, es)
    ensures var rounds := NewRounds(p, s, es);
            rounds * p.max[i] <= Served(es, i) <= rounds * (p.max[i] + p.configs[i].maxSize - 1)
  {
    WholeRoundsServe(p, s, es, i);
    TimesIsProduct(NewRounds(p, s, es), p.max[i]);
    TimesIsProduct(NewRounds(p, s, es), RoundLimit(p, i));
  }

  /** The quotas are ten times the weights, scaled by the lightest weight and rounded
      up: `10 * w_i <= light * max_i < 10 * w_i + light`. */
  ghost predicate Proportional(p: Setup, light: nat)
    requires |p.max| == Count(p)
  {
    && light > 0
    && forall i :: 0 <= i < Count(p) ==>
                     && p.configs[i].weight > 0 && p.max[i] > 0
                     && 10 * p.configs[i].weight <= Times(light, p.max[i]) < 10 * p.configs[i].weight + light
  }

  /** Every weight is below 2^48. */
  ghost predicate SmallWeights(p: Setup) {
    forall i :: 0 <= i < Count(p) ==> p.configs[i].weight < TWO_48
  }

  /** Then the quotas the code computes are all positive, and the exact ones. */
  lemma {:induction false} SmallWeightsAreValid(p: Setup)
    requires Configured(p) && p.algorithm.RoundRobinReads? && SmallWeights(p)
    ensures ValidSetup(p) && p.max == QuotasOf(Weights(p.configs))
  {
    SmallWeightsAreExact(Weights(p.configs), p.overflow);
  }

  lemma {:induction false} ValidSetupIsProportional(p: Setup)
    requires Configured(p) && p.algorithm.RoundRobinReads? && SmallWeights(p)
    ensures |p.max| == Count(p) && Proportional(p, MinWeight(Weights(p.configs)))
  {
    SmallWeightsAreValid(p);
    QuotasAreProportional(Weights(p.configs));
  }

  lemma {:induction false} QuotasAreProportional(weights: seq<nat>)
    requires weights != [] && forall i :: 0 <= i < |weights| ==> weights[i] > 0
    ensures var light, max := MinWeight(weights), QuotasOf(weights);
            && light > 0 && |max| == |weights|
            && forall i :: 0 <= i < |weights| ==>
                             && max[i] > 0
                             && 10 * weights[i] <= Times(light, max[i]) < 10 * weights[i] + light
  {
    forall i | 0 <= i < |weights|
      ensures var max := QuotasOf(weights)[i];
              && max > 0
              && 10 * weights[i] <= Times(MinWeight(weights), max) < 10 * weights[i] + MinWeight(weights)
    {
      QuotaIsProportional(weights[i], MinWeight(weights));
    }
  }

  lemma {:induction false} QuotaIsProportional(weight: nat, light: nat)
    requires weight > 0 && light > 0
    ensures Quota(weight, light) > 0
    ensures 10 * weight <= Times(light, Quota(weight, light)) < 10 * weight + light
  {
    QuotaIsCeiling(weight, light);
    TimesIsProduct(light, Quota(weight, light));
  }

  /** Weighted fairness: over whole rounds the bindings served to two queues are in
      proportion to their weights, to within one largest request a round:
      `w_j * B_i - w_i * B_j < rounds * w_j * maxSize_i`. */
  lemma {:induction false} WeightedFairness(p: Setup, light: nat, s: State, es: seq<Event>, i: nat, j: nat)
    requires Sane(p) && Proportional(p, light) && Inv(p, s) && p.algorithm.RoundRobinReads?
    requires i < Count(p) && j < Count(p)
    requires WholeRounds(p, s, es) && NewRounds(p, s, es) > 0
    ensures Times(p.configs[j].weight, Served(es, i)) - Times(p.configs[i].weight, Served(es, j))
          < Times(NewRounds(p, s, es), Times(p.configs[j].weight, p.configs[i].maxSize))
  {
    WholeRoundsServe(p, s, es, i);
    WholeRoundsServe(p, s, es, j);
    ServedInProportion(p, light, NewRounds(p, s, es), i, j, Served(es, i), Served(es, j));
  }

  /** The same for every validated configuration with weights below 2^48 and every
      reachable state. */
  lemma {:induction false} EveryRunIsFair(p: Setup, s: State, es: seq<Event>, i: nat, j: nat)
    requires Configured(p) && p.algorithm.RoundRobinReads? && SmallWeights(p) && Reachable(p, s)
    requires i < Count(p) && j < Count(p)
    requires WholeRounds(p, s, es) && NewRounds(p, s, es) > 0
    ensures p.configs[j].weight * Served(es, i) - p.configs[i].weight * Served(es, j)
          < NewRounds(p, s, es) * p.configs[j].weight * p.configs[i].maxSize
  {
    SmallWeightsAreValid(p);
    ValidSetupIsSane(p);
    ReachableStatesAreSafe(p, s);
    ValidSetupIsProportional(p);
    WeightedFairness(p, MinWeight(Weights(p.configs)), s, es, i, j);
    AsTimes(NewRounds(p, s, es), p.configs[i].weight, p.configs[j].weight, p.configs[i].maxSize,
            Served(es, i), Served(es, j));
  }

  /** Why: each round serves a queue its quota, less than one request over. */
  lemma {:induction false} ServedInProportion(p: Setup, light: nat, k: nat, i: nat, j: nat, bi: nat, bj: nat)
    requires |p.max| == Count(p) && Proportional(p, light) && i < Count(p) && j < Count(p)
    requires k > 0 && p.configs[i].maxSize > 0
    requires bi <= Times(k, p.max[i] + p.configs[i].maxSize - 1) && Times(k, p.max[j]) <= bj
    ensures Times(p.configs[j].weight, bi) - Times(p.configs[i].weight, bj)
          < Times(k, Times(p.configs[j].weight, p.configs[i].maxSize))
  {
    FairnessAlgebra(k, p.configs[i].weight, p.configs[j].weight, light,
                    p.max[i], p.max[j], p.configs[i].maxSize, bi, bj);
  }

  lemma {:induction false} FairnessAlgebra(
    k: nat, wi: nat, wj: nat, light: nat, qi: nat, qj: nat, size: nat, bi: nat, bj: nat)
    requires k > 0 && light > 0 && wj > 0 && size > 0
    requires Times(light, qi) < 10 * wi + light && 10 * wj <= Times(light, qj)
    requires bi <= Times(k, qi + size - 1) && Times(k, qj) <= bj
    ensures Times(wj, bi) - Times(wi, bj) < Times(k, Times(wj, size))
  {
    MostServed(k, wi, light, qi, size, bi);
    LeastServed(k, wj, light, qj, bj);
    CompareServed(k, wi, wj, light, size, bi, bj);
    AsTimes(k, wi, wj, size, bi, bj);
  }

  lemma {:induction false} AsTimes(k: nat, wi: nat, wj: nat, size: nat, bi: nat, bj: nat)
    ensures Times(wj, bi) == wj * bi && Times(wi, bj) == wi * bj
    ensures Times(k, Times(wj, size)) == k * wj * size
  {
    TimesIsProduct(wj, bi);
    TimesIsProduct(wi, bj);
    TwiceTimes(k, wj, size);
  }

  lemma {:induction false} TwiceTimes(a: nat, b: nat, c: nat)
    ensures Times(a, Times(b, c)) == a * b * c
  {
    TimesIsProduct(b, c);
    TimesIsProduct(a, b * c);
    Associate(a, b, c, 0);
  }

  /** The most a queue is served in k rounds, scaled, ... */
  lemma {:induction false} MostServed(k: nat, w: nat, light: nat, q: nat, size: nat, b: nat)
    requires size > 0
    requires Times(light, q) < 10 * w + light && b <= Times(k, q + size - 1)
    ensures light * b <= k * (10 * w - 1 + light * size)
  {
    var x := q + size - 1;
    TimesIsProduct(light, q);
    TimesIsProduct(k, x);
    ScaledOrder(light, b, k * x);
    Regroup(light, k, x);
    Distribute(light, q, size);
    ScaledOrder(k, light * x, 10 * w - 1 + light * size);
  }

  /** ... and the least. */
  lemma {:induction false} LeastServed(k: nat, w: nat, light: nat, q: nat, b: nat)
    requires 10 * w <= Times(light, q) && Times(k, q) <= b
    ensures k * (10 * w) <= light * b
  {
    TimesIsProduct(light, q);
    TimesIsProduct(k, q);
    ScaledOrder(light, k * q, b);
    Regroup(light, k, q);
    ScaledOrder(k, 10 * w, light * q);
  }

  lemma {:induction false} CompareServed(k: nat, wi: nat, wj: nat, light: nat, size: nat, bi: nat, bj: nat)
    requires k > 0 && wj > 0 && light > 0
    requires light * bi <= k * (10 * wi - 1 + light * size) && k * (10 * wj) <= light * bj
    ensures wj * bi - wi * bj < k * wj * size
  {
    var m := k * wj;
    var x := wj * bi - wi * bj;
    ScaledOrder(wj, light * bi, k * (10 * wi - 1 + light * size));
    ScaledOrder(wi, k * (10 * wj), light * bj);
    Expand(k, wi, wj, light, size);
    Gather(light, wi, wj, bi, bj);
    ScaledOrder(wj, 1, k);
    assert light * x < light * (m * size);
    ScaledOrder(light, m * size, x);
  }

  lemma Distribute(a: int, b: int, c: int)
    ensures a * (b + c - 1) == a * b + a * c - a
  {
  }

  lemma Expand(k: int, wi: int, wj: int, light: int, size: int)
    ensures wj * (k * (10 * wi - 1 + light * size)) - wi * (k * (10 * wj))
         == light * (k * wj * size) - k * wj
  {
  }

  lemma Gather(light: int, wi: int, wj: int, bi: int, bj: int)
    ensures wj * (light * bi) - wi * (light * bj) == light * (wj * bi - wi * bj)
  {
  }
}
