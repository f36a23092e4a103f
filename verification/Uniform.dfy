/** The weighted random reader, which drops empty queues from the draw. */
module Uniform {
  import opened Types
  import opened Int64
  import opened Config
  import opened PriorityQueues
  import opened Readers
  import opened Sums

  // ---------- One draw ----------

  /** The draw falls into the prefix-sum interval of position `i`. */
  ghost predicate Selects(weights: seq<nat>, draw: int, i: int) {
    0 <= i < |weights| && Sum(weights[..i]) < draw <= Sum(weights[..i]) + weights[i]
  }

  /** The position a draw picks: the first whose cumulated weight reaches it. */
  function Select(weights: seq<nat>, draw: int): (i: nat)
    requires 1 <= draw <= Sum(weights)
    ensures i < |weights|
  {
    if draw <= weights[0] then 0 else 1 + Select(weights[1..], draw - weights[0])
  }

  lemma {:induction false} SelectSelects(weights: seq<nat>, draw: int)
    requires 1 <= draw <= Sum(weights)
    ensures Selects(weights, draw, Select(weights, draw))
  {
    if draw > weights[0] {
      var i := Select(weights[1..], draw - weights[0]);
      SelectSelects(weights[1..], draw - weights[0]);
      assert weights[..i + 1][1..] == weights[1..][..i];
    }
  }

  lemma {:induction false} PrefixSumsGrow(weights: seq<nat>, i: nat, j: nat)
    requires i < j <= |weights|
    ensures Sum(weights[..i]) + weights[i] <= Sum(weights[..j])
  {
    assert weights[..j] == weights[..i] + weights[i..j];
    SumConcat(weights[..i], weights[i..j]);
    assert weights[i..j][0] == weights[i];
    SumNonNegative(weights[i..j][1..]);
  }

  /** A draw selects exactly one position. */
  lemma {:induction false} SelectionIsUnique(weights: seq<nat>, draw: int, i: int)
    requires 1 <= draw <= Sum(weights)
    ensures Selects(weights, draw, i) <==> i == Select(weights, draw)
  {
    var k := Select(weights, draw);
    SelectSelects(weights, draw);
    if 0 <= i < k {
      PrefixSumsGrow(weights, i, k);
    } else if k < i < |weights| {
      PrefixSumsGrow(weights, k, i);
    }
  }

  /** How many of the draws 1..draws select position `i`. */
  function DrawsSelecting(weights: seq<nat>, i: nat, draws: nat): nat
    requires draws <= Sum(weights)
  {
    if draws == 0 then 0
    else DrawsSelecting(weights, i, draws - 1) + if Select(weights, draws) == i then 1 else 0
  }

  lemma {:induction false} DrawsSelectingUpTo(weights: seq<nat>, i: nat, draws: nat)
    requires i < |weights| && draws <= Sum(weights)
    ensures DrawsSelecting(weights, i, draws) ==
            var past := draws - Sum(weights[..i]);
            if past <= 0 then 0 else if past <= weights[i] then past else weights[i]
  {
    SumNonNegative(weights[..i]);
    if draws > 0 {
      DrawsSelectingUpTo(weights, i, draws - 1);
      SelectionIsUnique(weights, draws, i);
    }
  }

  /** Of all the draws in 1..total, exactly `weights[i]` select position `i`. */
  lemma {:induction false} DrawsPerQueue(weights: seq<nat>, i: nat)
    requires i < |weights|
    ensures Sum(weights) >= 0
    ensures DrawsSelecting(weights, i, Sum(weights)) == weights[i]
  {
    SumNonNegative(weights);
    DrawsSelectingUpTo(weights, i, Sum(weights));
    PrefixSumsGrow(weights, i, |weights|);
    assert weights[..|weights|] == weights;
  }

  // ---------- The same in 64 bits ----------

  /** The first position from `i` on whose cumulated weight, in 64 bits, reaches the
      draw. With none the code panics. */
  function PickFrom(weights: seq<nat>, draw: int, i: nat): (pick: Option<nat>)
    requires i <= |weights|
    ensures pick.Some? ==> pick.value < |weights|
    decreases |weights| - i
  {
    if i == |weights| then None
    else if draw <= Wrap(Sum(weights[..i + 1])) then Some(i)
    else PickFrom(weights, draw, i + 1)
  }

  /** While the sum of the weights is below 2^63 the pick is the selected position. */
  lemma {:induction false} PickIsSelect(weights: seq<nat>, draw: int, i: nat)
    requires 1 <= draw <= Sum(weights) < TWO_63 && i <= Select(weights, draw)
    ensures PickFrom(weights, draw, i) == Some(Select(weights, draw))
    decreases |weights| - i
  {
    var at := Select(weights, draw);
    SelectSelects(weights, draw);
    SumSplit(weights, i);
    PrefixFits(weights, i + 1);
    if i < at {
      PrefixSumsGrow(weights, i, at);
      PickIsSelect(weights, draw, i + 1);
    }
  }

  lemma {:induction false} PrefixFits(weights: seq<nat>, i: nat)
    requires i <= |weights| && Sum(weights) < TWO_63
    ensures Wrap(Sum(weights[..i])) == Sum(weights[..i])
  {
    assert weights == weights[..i] + weights[i..];
    SumConcat(weights[..i], weights[i..]);
    SumNonNegative(weights[..i]);
    SumNonNegative(weights[i..]);
    WrapIsExactIff(Sum(weights[..i]));
  }

  /** The total, as 64-bit additions leave it. */
  method TotalWeight(weights: seq<nat>) returns (total: int)
    ensures total == Wrap(Sum(weights))
  {
    total := 0;
    for k := 0 to |weights|
      invariant total == Wrap(Sum(weights[..k]))
    {
      SumSplit(weights, k);
      WrapAdds(Sum(weights[..k]), weights[k]);
      total := Wrap(total + ToInt(weights[k]));
    }
    assert weights[..|weights|] == weights;
  }

  /** It is the sum of the weights exactly if that is below 2^63; from there on, up to
      2^64, it is negative, and rand.Intn panics. */
  lemma {:induction false} TotalIsExactIff(weights: seq<nat>)
    ensures Sum(weights) >= 0
    ensures Wrap(Sum(weights)) == Sum(weights) <==> Sum(weights) < TWO_63
    ensures TWO_63 <= Sum(weights) < TWO_64 ==> Wrap(Sum(weights)) < 0
  {
    SumNonNegative(weights);
    WrapIsExactIff(Sum(weights));
  }

  /** How many of the draws 1..draws the code gives to position `i`. */
  function Picks(weights: seq<nat>, i: nat, draws: nat): nat {
    if draws == 0 then 0
    else Picks(weights, i, draws - 1) + if PickFrom(weights, draws, 0) == Some(i) then 1 else 0
  }

  lemma {:induction false} PicksAreDraws(weights: seq<nat>, i: nat, draws: nat)
    requires draws <= Sum(weights) < TWO_63
    ensures Picks(weights, i, draws) == DrawsSelecting(weights, i, draws)
  {
    if draws > 0 {
      PicksAreDraws(weights, i, draws - 1);
      PickIsSelect(weights, draws, 0);
    }
  }

  lemma {:induction false} FirstPicks(weights: seq<nat>, draws: nat)
    requires weights != []
    ensures var w := Wrap(weights[0]);
            Picks(weights, 0, draws) == if w <= 0 then 0 else if w <= draws then w else draws
  {
    assert weights[..1] == [weights[0]] && [weights[0]][1..] == [];
    assert Sum(weights[..1]) == weights[0];
    if draws > 0 {
      FirstPicks(weights, draws - 1);
      NotFirst(weights, draws, 1);
    }
  }

  lemma {:induction false} NotFirst(weights: seq<nat>, draw: int, i: nat)
    requires 0 < i <= |weights|
    ensures PickFrom(weights, draw, i) != Some(0)
    decreases |weights| - i
  {
    if i < |weights| {
      NotFirst(weights, draw, i + 1);
    }
  }

  /** The code's draw gives every queue its share of the total, if and only if the
      weights add up to less than 2^63. */
  lemma {:induction false} DrawIsProportionalIff(weights: seq<nat>)
    requires |weights| >= 2 && forall i :: 0 <= i < |weights| ==> 0 < weights[i] < TWO_64
    requires Wrap(Sum(weights)) > 0
    ensures (forall i: nat :: i < |weights| ==>
               Picks(weights, i, Wrap(Sum(weights))) * Sum(weights) == Wrap(Sum(weights)) * weights[i])
            <==> Sum(weights) < TWO_63
  {
    var total, t := Sum(weights), Wrap(Sum(weights));
    TotalIsExactIff(weights);
    if total < TWO_63 {
      forall i: nat | i < |weights| ensures Picks(weights, i, t) * total == t * weights[i] {
        PicksAreDraws(weights, i, total);
        DrawsPerQueue(weights, i);
      }
    } else {
      FirstPicks(weights, t);
      MoreThanFirst(weights);
      FirstShareIsWrong(Picks(weights, 0, t), weights[0], total, t);
    }
  }

  lemma {:induction false} MoreThanFirst(weights: seq<nat>)
    requires |weights| >= 2 && weights[1] > 0
    ensures weights[0] < Sum(weights)
  {
    SumNonNegative(weights[1..][1..]);
  }

  lemma {:induction false} FirstShareIsWrong(picks: nat, w: nat, total: nat, t: nat)
    requires 0 < w < total && w < TWO_64 && total >= TWO_63 && 0 < t < TWO_63
    requires picks == if Wrap(w) <= 0 then 0 else if Wrap(w) <= t then Wrap(w) else t
    ensures picks * total != t * w
  {
    WrapIsExactIff(w);
    LargerProduct(w, t, total);
    LargerProduct(t, w, total);
    LargerProduct(t, 0, w);
    assert picks == 0 || picks == w || picks == t;
  }

  lemma LargerProduct(a: nat, b: nat, c: nat)
    requires a > 0 && b < c
    ensures a * b < a * c && a * b == b * a
  {
  }

  /** The scan of `next` for a draw. */
  method Scan(weights: seq<nat>, selected: int) returns (pick: Option<nat>)
    ensures pick == PickFrom(weights, selected, 0)
  {
    var sum := 0;
    for i := 0 to |weights|
      invariant sum == Wrap(Sum(weights[..i]))
      invariant PickFrom(weights, selected, 0) == PickFrom(weights, selected, i)
    {
      SumSplit(weights, i);
      WrapAdds(Sum(weights[..i]), weights[i]);
      sum := Wrap(sum + ToInt(weights[i]));
      if selected <= sum {
        return Some(i);
      }
    }
    return None;
  }

  // ---------- A read: draw, drop the empty queue, draw again ----------

  /** A queue in the draw: where it is in the configuration, its weight, and
      whether it has anything queued. */
  datatype Entry = Entry(id: nat, weight: nat, nonEmpty: bool)

  function WeightsOf(es: seq<Entry>): (w: seq<nat>)
    ensures |w| == |es| && forall k :: 0 <= k < |es| ==> w[k] == es[k].weight
  {
    seq(|es|, k requires 0 <= k < |es| => es[k].weight)
  }

  function Without(es: seq<Entry>, k: nat): (rest: seq<Entry>)
    requires k < |es|
    ensures |rest| == |es| - 1
  {
    es[..k] + es[k + 1..]
  }

  ghost predicate Positive(es: seq<Entry>) {
    forall k :: 0 <= k < |es| ==> es[k].weight > 0
  }

  lemma {:induction false} PositiveTotal(es: seq<Entry>)
    requires Positive(es) && es != []
    ensures Sum(WeightsOf(es)) > 0
  {
    SumNonNegative(WeightsOf(es)[1..]);
  }

  // ---------- The distribution ----------

  /** The sum of `value[Select(weights, d)]` over the draws 1..draws. */
  function SumOverDraws(weights: seq<nat>, value: seq<real>, draws: nat): real
    requires |weights| == |value| && draws <= Sum(weights)
  {
    if draws == 0 then 0.0
    else SumOverDraws(weights, value, draws - 1) + value[Select(weights, draws)]
  }

  /** The chance that a read serves queue `id`, each draw in 1..total being
      equally likely: an empty queue is dropped and the draw repeated. */
  function Chance(es: seq<Entry>, id: nat): real
    requires Positive(es)
    decreases |es|, 1
  {
    if es == [] then 0.0
    else
      PositiveTotal(es);
      SumOverDraws(WeightsOf(es), Outcomes(es, id), Sum(WeightsOf(es))) / Sum(WeightsOf(es)) as real
  }

  /** The chance of serving queue `id` given the position drawn. */
  function Outcomes(es: seq<Entry>, id: nat): (value: seq<real>)
    requires Positive(es)
    ensures |value| == |es|
    decreases |es|, 0
  {
    seq(|es|, k requires 0 <= k < |es| =>
      if es[k].nonEmpty then (if es[k].id == id then 1.0 else 0.0)
      else Chance(Without(es, k), id))
  }

  /** `n` times `x`. */
  function Scale(n: nat, x: real): real {
    if n == 0 then 0.0 else x + Scale(n - 1, x)
  }

  lemma {:induction false} ScaleIsProduct(n: nat, x: real)
    ensures Scale(n, x) == n as real * x
  {
    if n > 0 {
      ScaleIsProduct(n - 1, x);
      assert n as real * x == (n - 1) as real * x + x;
    }
  }

  lemma {:induction false} ScaleAdds(a: nat, b: nat, x: real)
    ensures Scale(a + b, x) == Scale(a, x) + Scale(b, x)
  {
    if a > 0 {
      ScaleAdds(a - 1, b, x);
    }
  }

  lemma {:induction false} ScaleUnits(n: nat)
    ensures Scale(n, 1.0) == n as real && Scale(n, 0.0) == 0.0
  {
    if n > 0 {
      ScaleUnits(n - 1);
    }
  }

  lemma {:induction false} ScaleIsMonotone(n: nat, x: real, y: real)
    requires x < y && n > 0
    ensures Scale(n, x) < Scale(n, y)
  {
    if n > 1 {
      ScaleIsMonotone(n - 1, x, y);
    }
  }

  lemma {:induction false} ScaleIsInjective(n: nat, x: real, y: real)
    requires Scale(n, x) == Scale(n, y) && n > 0
    ensures x == y
  {
    if x < y {
      ScaleIsMonotone(n, x, y);
    } else if y < x {
      ScaleIsMonotone(n, y, x);
    }
  }

  lemma {:induction false} ScaleUndoesAverage(sum: real, n: nat)
    requires n > 0
    ensures Scale(n, sum / n as real) == sum
  {
    ScaleIsProduct(n, sum / n as real);
  }

  function Weighted(weights: seq<nat>, value: seq<real>): real
    requires |weights| == |value|
  {
    if weights == [] then 0.0
    else Scale(weights[0], value[0]) + Weighted(weights[1..], value[1..])
  }

  lemma {:induction false} FirstDraws(weights: seq<nat>, value: seq<real>, draws: nat)
    requires |weights| == |value| && weights != [] && draws <= weights[0] && draws <= Sum(weights)
    ensures SumOverDraws(weights, value, draws) == Scale(draws, value[0])
  {
    if draws > 0 {
      FirstDraws(weights, value, draws - 1);
    }
  }

  lemma {:induction false} LaterDraws(weights: seq<nat>, value: seq<real>, draws: nat)
    requires |weights| == |value| && weights != [] && draws <= Sum(weights[1..])
    ensures SumOverDraws(weights, value, weights[0] + draws)
         == Scale(weights[0], value[0]) + SumOverDraws(weights[1..], value[1..], draws)
  {
    if draws == 0 {
      FirstDraws(weights, value, weights[0]);
    } else {
      LaterDraws(weights, value, draws - 1);
    }
  }

  /** Summing over all draws weighs each position by its weight. */
  lemma {:induction false} DrawsWeighPositions(weights: seq<nat>, value: seq<real>)
    requires |weights| == |value|
    ensures Sum(weights) >= 0
    ensures SumOverDraws(weights, value, Sum(weights)) == Weighted(weights, value)
  {
    SumNonNegative(weights);
    if weights != [] {
      SumNonNegative(weights[1..]);
      DrawsWeighPositions(weights[1..], value[1..]);
      LaterDraws(weights, value, Sum(weights[1..]));
    }
  }

  /** The total weight of the queues that have something queued, or have not. */
  function WeightWhere(es: seq<Entry>, nonEmpty: bool): nat {
    if es == [] then 0
    else (if es[0].nonEmpty == nonEmpty then es[0].weight else 0) + WeightWhere(es[1..], nonEmpty)
  }

  lemma {:induction false} WeightsAddUp(es: seq<Entry>)
    ensures Sum(WeightsOf(es)) == WeightWhere(es, true) + WeightWhere(es, false)
  {
    if es != [] {
      assert WeightsOf(es)[1..] == WeightsOf(es[1..]);
      WeightsAddUp(es[1..]);
    }
  }

  lemma {:induction false} DroppingEmptyKeepsLive(es: seq<Entry>, k: nat)
    requires k < |es| && !es[k].nonEmpty
    ensures WeightWhere(Without(es, k), true) == WeightWhere(es, true)
  {
    if k == 0 {
      assert Without(es, k) == es[1..];
    } else {
      assert Without(es, k)[1..] == Without(es[1..], k - 1);
      DroppingEmptyKeepsLive(es[1..], k - 1);
    }
  }

  /** The weighted sum of outcomes: position `m` counts fully, the empty ones
      `c` each, the other live ones nothing. */
  lemma {:induction false} WeighOutcomes(es: seq<Entry>, value: seq<real>, m: int, c: real)
    requires |value| == |es|
    requires 0 <= m < |es| ==> es[m].nonEmpty
    requires forall k :: 0 <= k < |es| ==>
               value[k] == if !es[k].nonEmpty then c else if k == m then 1.0 else 0.0
    ensures Weighted(WeightsOf(es), value)
         == (if 0 <= m < |es| then es[m].weight as real else 0.0) + Scale(WeightWhere(es, false), c)
  {
    if es != [] {
      assert WeightsOf(es)[1..] == WeightsOf(es[1..]);
      WeighOutcomes(es[1..], value[1..], m - 1, c);
      ScaleAdds(es[0].weight, WeightWhere(es[1..], false), c);
      ScaleUnits(es[0].weight);
    }
  }

  ghost predicate DistinctIds(es: seq<Entry>) {
    forall i, j :: 0 <= i < j < |es| ==> es[i].id != es[j].id
  }

  /** A read serves a non-empty queue with a chance of exactly its weight over the
      weight of all non-empty queues, whatever the empty queues are. */
  lemma {:induction false} UniformReadIsProportional(es: seq<Entry>, m: nat)
    requires Positive(es) && DistinctIds(es) && m < |es| && es[m].nonEmpty
    ensures WeightWhere(es, true) > 0
    ensures Chance(es, es[m].id) == Share(es[m].weight, WeightWhere(es, true))
    decreases |es|
  {
    LiveWeightPositive(es, m);
    var c := Share(es[m].weight, WeightWhere(es, true));
    forall k: nat | k < |es| && !es[k].nonEmpty ensures Chance(Without(es, k), es[m].id) == c {
      var rest, at := Without(es, k), if m < k then m else m - 1;
      assert rest[at] == es[m];
      DroppingEmptyKeepsLive(es, k);
      UniformReadIsProportional(rest, at);
    }
    ChanceAverages(es, es[m].id);
    ScaleUndoesAverage(es[m].weight as real, WeightWhere(es, true));
    OneDraw(es, m, c, Chance(es, es[m].id));
  }

  function Share(weight: nat, total: nat): real
    requires total > 0
  {
    weight as real / total as real
  }

  lemma {:induction false} ChanceAverages(es: seq<Entry>, id: nat)
    requires Positive(es) && es != []
    ensures Sum(WeightsOf(es)) > 0
    ensures Scale(Sum(WeightsOf(es)), Chance(es, id)) == Weighted(WeightsOf(es), Outcomes(es, id))
  {
    PositiveTotal(es);
    DrawsWeighPositions(WeightsOf(es), Outcomes(es, id));
    ScaleUndoesAverage(SumOverDraws(WeightsOf(es), Outcomes(es, id), Sum(WeightsOf(es))), Sum(WeightsOf(es)));
  }

  /** If every empty queue drawn leaves a chance `c`, and `c` is the share of queue
      `m` among the non-empty queues, then one draw averages to `c` too. */
  lemma {:induction false} OneDraw(es: seq<Entry>, m: nat, c: real, x: real)
    requires Positive(es) && DistinctIds(es) && m < |es| && es[m].nonEmpty
    requires Scale(WeightWhere(es, true), c) == es[m].weight as real
    requires forall k: nat :: k < |es| && !es[k].nonEmpty ==> Chance(Without(es, k), es[m].id) == c
    requires Sum(WeightsOf(es)) > 0
    requires Scale(Sum(WeightsOf(es)), x) == Weighted(WeightsOf(es), Outcomes(es, es[m].id))
    ensures x == c
  {
    WeighOutcomes(es, Outcomes(es, es[m].id), m, c);
    WeightsAddUp(es);
    ScaleAdds(WeightWhere(es, true), WeightWhere(es, false), c);
    ScaleIsInjective(Sum(WeightsOf(es)), x, c);
  }

  lemma {:induction false} LiveWeightPositive(es: seq<Entry>, m: nat)
    requires Positive(es) && m < |es| && es[m].nonEmpty
    ensures WeightWhere(es, true) >= es[m].weight > 0
  {
    if m > 0 {
      LiveWeightPositive(es[1..], m - 1);
    }
  }

  // ---------- The reader ----------

  /** `random(k, n)` is the result of the k-th call of rand.Intn, called with `n`. */
  type Random = (nat, nat) -> nat

  ghost predicate InRange(random: Random) {
    forall k: nat, n: nat :: n > 0 ==> random(k, n) < n
  }

  /** The position drawn with the k-th random number. */
  ghost function Drawn(es: seq<Entry>, random: Random, k: nat): (i: nat)
    requires es != [] && Positive(es) && InRange(random)
    ensures i < |es|
  {
    PositiveTotal(es);
    Select(WeightsOf(es), random(k, Sum(WeightsOf(es))) + 1)
  }

  /** The queue a read serves, given the random numbers from the k-th on. */
  ghost function Served(es: seq<Entry>, random: Random, k: nat): Option<nat>
    requires Positive(es) && InRange(random)
    decreases |es|
  {
    if es == [] then None
    else
      var i := Drawn(es, random, k);
      if es[i].nonEmpty then Some(es[i].id) else Served(Without(es, i), random, k + 1)
  }

  /** Whatever the random numbers, a read serves a non-empty queue ... */
  lemma {:induction false} ServedIsNonEmpty(es: seq<Entry>, random: Random, k: nat)
    requires Positive(es) && InRange(random) && Served(es, random, k).Some?
    ensures exists e :: e in es && e.nonEmpty && e.id == Served(es, random, k).value
    decreases |es|
  {
    var i := Drawn(es, random, k);
    if es[i].nonEmpty {
      assert es[i] in es;
    } else {
      WithoutMembers(es, i);
      ServedIsNonEmpty(Without(es, i), random, k + 1);
    }
  }

  ghost predicate AllEmpty(es: seq<Entry>) {
    forall e :: e in es ==> !e.nonEmpty
  }

  lemma {:induction false} AllEmptyWithout(es: seq<Entry>, i: nat)
    requires i < |es|
    ensures AllEmpty(es) <==> !es[i].nonEmpty && AllEmpty(Without(es, i))
  {
    WithoutMembers(es, i);
  }

  /** ... and serves nothing exactly when every queue is empty. */
  lemma {:induction false} NothingServedIfAllEmpty(es: seq<Entry>, random: Random, k: nat)
    requires Positive(es) && InRange(random)
    ensures Served(es, random, k).None? <==> AllEmpty(es)
    decreases |es|
  {
    if es != [] {
      var i := Drawn(es, random, k);
      AllEmptyWithout(es, i);
      if !es[i].nonEmpty {
        NothingServedIfAllEmpty(Without(es, i), random, k + 1);
      }
    }
  }

  lemma {:induction false} WithoutMembers(es: seq<Entry>, i: nat)
    requires i < |es|
    ensures forall e :: e in es <==> e == es[i] || e in Without(es, i)
  {
    assert es == es[..i] + [es[i]] + es[i + 1..];
  }

  // ---------- The chance is an average over draws ----------

  /** `random` with `d` for the result of the k-th call, if that is called with `n`. */
  function With(random: Random, k: nat, n: nat, d: nat): Random {
    (i, m) => if i == k && m == n then d else random(i, m)
  }

  ghost predicate AgreeBelow(r: Random, random: Random, k: nat) {
    forall i: nat, n: nat :: i < k ==> r(i, n) == random(i, n)
  }

  lemma {:induction false} DrawnWith(es: seq<Entry>, random: Random, k: nat, d: nat)
    requires Positive(es) && InRange(random) && d < Sum(WeightsOf(es)) && es != []
    ensures var r := With(random, k, Sum(WeightsOf(es)), d);
            InRange(r) && AgreeBelow(r, random, k) && Drawn(es, r, k) == Select(WeightsOf(es), d + 1)
  {
    var n := Sum(WeightsOf(es));
    var r := With(random, k, n, d);
    assert InRange(r);
    assert r(k, n) == d;
  }

  function Indicator(served: Option<nat>, id: nat): real {
    if served == Some(id) then 1.0 else 0.0
  }

  /** The average, over all results of the calls from the k-th on, of whether a read of
      `all` serves queue `id`. The calls before it are given by `random` and have left
      the entries `es` in the draw; each call has its possible results equally likely. */
  ghost function Average(all: seq<Entry>, es: seq<Entry>, random: Random, k: nat, id: nat): real
    requires Positive(all) && Positive(es) && InRange(random)
    decreases |es|, 1, 0
  {
    if es == [] then Indicator(Served(all, random, 0), id)
    else
      PositiveTotal(es);
      var total := Sum(WeightsOf(es));
      SumOfAverages(all, es, random, k, id, total) / total as real
  }

  /** The sum over the results 0, ..., draws - 1 of the k-th call. */
  ghost function SumOfAverages(
    all: seq<Entry>, es: seq<Entry>, random: Random, k: nat, id: nat, draws: nat): real
    requires Positive(all) && Positive(es) && InRange(random) && es != [] && draws <= Sum(WeightsOf(es))
    decreases |es|, 0, draws
  {
    if draws == 0 then 0.0
    else
      DrawnWith(es, random, k, draws - 1);
      var r := With(random, k, Sum(WeightsOf(es)), draws - 1);
      var i := Drawn(es, r, k);
      SumOfAverages(all, es, random, k, id, draws - 1)
      + if es[i].nonEmpty then Indicator(Served(all, r, 0), id) else Average(all, Without(es, i), r, k + 1, id)
  }

  /** Whatever the calls from the k-th on return, a read of `all` comes down to a read of
      `es` from the k-th call on. */
  ghost predicate ComesDownTo(all: seq<Entry>, es: seq<Entry>, random: Random, k: nat)
    requires Positive(all) && Positive(es)
  {
    forall r: Random {:trigger AgreeBelow(r, random, k)} ::
      InRange(r) && AgreeBelow(r, random, k) ==> Served(all, r, 0) == Served(es, r, k)
  }

  lemma {:induction false} ComesDownFurther(
    all: seq<Entry>, es: seq<Entry>, random: Random, k: nat, r: Random)
    requires Positive(all) && Positive(es) && es != [] && InRange(r)
    requires ComesDownTo(all, es, random, k) && AgreeBelow(r, random, k)
    requires !es[Drawn(es, r, k)].nonEmpty
    ensures ComesDownTo(all, Without(es, Drawn(es, r, k)), r, k + 1)
  {
    PositiveTotal(es);
    forall q: Random | InRange(q) && AgreeBelow(q, r, k + 1)
      ensures Served(all, q, 0) == Served(Without(es, Drawn(es, r, k)), q, k + 1)
    {
      assert AgreeBelow(q, random, k);
      assert q(k, Sum(WeightsOf(es))) == r(k, Sum(WeightsOf(es)));
      assert Drawn(es, q, k) == Drawn(es, r, k);
    }
  }

  lemma {:induction false} AverageIsChance(all: seq<Entry>, es: seq<Entry>, random: Random, k: nat, id: nat)
    requires Positive(all) && Positive(es) && InRange(random) && ComesDownTo(all, es, random, k)
    ensures Average(all, es, random, k, id) == Chance(es, id)
    decreases |es|, 1, 0
  {
    if es == [] {
      assert AgreeBelow(random, random, k);
    } else {
      PositiveTotal(es);
      SumOfAveragesIs(all, es, random, k, id, Sum(WeightsOf(es)));
    }
  }

  lemma {:induction false} SumOfAveragesIs(
    all: seq<Entry>, es: seq<Entry>, random: Random, k: nat, id: nat, draws: nat)
    requires Positive(all) && Positive(es) && InRange(random) && ComesDownTo(all, es, random, k)
    requires es != [] && draws <= Sum(WeightsOf(es))
    ensures SumOfAverages(all, es, random, k, id, draws) == SumOverDraws(WeightsOf(es), Outcomes(es, id), draws)
    decreases |es|, 0, draws
  {
    if draws > 0 {
      SumOfAveragesIs(all, es, random, k, id, draws - 1);
      var r := With(random, k, Sum(WeightsOf(es)), draws - 1);
      DrawnWith(es, random, k, draws - 1);
      AfterOneDraw(all, es, random, k, id, r);
    }
  }

  /** Once the k-th result is known, the average is the chance given the position drawn. */
  lemma {:induction false} AfterOneDraw(
    all: seq<Entry>, es: seq<Entry>, random: Random, k: nat, id: nat, r: Random)
    requires Positive(all) && Positive(es) && es != [] && ComesDownTo(all, es, random, k)
    requires InRange(r) && AgreeBelow(r, random, k)
    ensures var i := Drawn(es, r, k);
            Outcomes(es, id)[i] == if es[i].nonEmpty then Indicator(Served(all, r, 0), id)
                                   else Average(all, Without(es, i), r, k + 1, id)
    decreases |es|, 0, 0
  {
    var i := Drawn(es, r, k);
    if !es[i].nonEmpty {
      ComesDownFurther(all, es, random, k, r);
      AverageIsChance(all, Without(es, i), r, k + 1, id);
    }
  }

  /** The chance of serving a queue is the average of what reads serve, over all results
      of rand.Intn. */
  lemma {:induction false} ChanceIsAverageServed(es: seq<Entry>, random: Random, id: nat)
    requires Positive(es) && InRange(random)
    ensures Average(es, es, random, 0, id) == Chance(es, id)
  {
    AverageIsChance(es, es, random, 0, id);
  }

  // ---------- The read in 64 bits ----------

  /** How a read ends: it finds every queue empty, serves a queue, or panics. */
  datatype ReadResult = Nothing | Serves(id: nat) | Panics

  /** The position drawn with the k-th random number, unless rand.Intn or the scan
      panics. */
  ghost function Drawn64(es: seq<Entry>, random: Random, k: nat): (pick: Option<nat>)
    ensures pick.Some? ==> pick.value < |es|
  {
    var total := Wrap(Sum(WeightsOf(es)));
    if total <= 0 then None else PickFrom(WeightsOf(es), random(k, total) + 1, 0)
  }

  ghost function Result(es: seq<Entry>, random: Random, k: nat): ReadResult
    decreases |es|
  {
    if es == [] then Nothing
    else
      match Drawn64(es, random, k)
      case None => Panics
      case Some(i) => if es[i].nonEmpty then Serves(es[i].id) else Result(Without(es, i), random, k + 1)
  }

  ghost function Exactly(served: Option<nat>): ReadResult {
    match served
    case None => Nothing
    case Some(id) => Serves(id)
  }

  lemma {:induction false} WithoutWeighsLess(es: seq<Entry>, i: nat)
    requires i < |es| && Positive(es)
    ensures Sum(WeightsOf(Without(es, i))) <= Sum(WeightsOf(es))
  {
    var w := WeightsOf(es);
    assert w == w[..i] + w[i..] && WeightsOf(Without(es, i)) == w[..i] + w[i + 1..];
    SumConcat(w[..i], w[i..]);
    SumConcat(w[..i], w[i + 1..]);
    assert w[i..][1..] == w[i + 1..];
  }

  lemma {:induction false} DrawnIsExact(es: seq<Entry>, random: Random, k: nat)
    requires Positive(es) && InRange(random) && es != [] && Sum(WeightsOf(es)) < TWO_63
    ensures Drawn64(es, random, k) == Some(Drawn(es, random, k))
  {
    var w := WeightsOf(es);
    PositiveTotal(es);
    TotalIsExactIff(w);
    PickIsSelect(w, random(k, Sum(w)) + 1, 0);
  }

  lemma {:induction false} ResultIsServed(es: seq<Entry>, random: Random, k: nat)
    requires Positive(es) && InRange(random) && Sum(WeightsOf(es)) < TWO_63
    ensures Result(es, random, k) == Exactly(Served(es, random, k))
    decreases |es|
  {
    if es != [] {
      DrawnIsExact(es, random, k);
      var i := Drawn(es, random, k);
      WithoutWeighsLess(es, i);
      if !es[i].nonEmpty {
        ResultIsServed(Without(es, i), random, k + 1);
      }
    }
  }

  /** The scan catches every draw within the total, whatever the weights: ... */
  lemma {:induction false} PickFound(weights: seq<nat>, draw: int, i: nat)
    requires i < |weights| && draw <= Wrap(Sum(weights))
    ensures PickFrom(weights, draw, i).Some?
    decreases |weights| - i
  {
    if i + 1 < |weights| {
      PickFound(weights, draw, i + 1);
    } else {
      assert weights[..i + 1] == weights;
    }
  }

  /** ... a draw panics if and only if the total, in 64 bits, is not positive. It is
      rand.Intn that panics, never the scan. */
  lemma {:induction false} DrawPanicsIff(es: seq<Entry>, random: Random, k: nat)
    requires es != [] && InRange(random)
    ensures Drawn64(es, random, k).None? <==> Wrap(Sum(WeightsOf(es))) <= 0
  {
    var total := Wrap(Sum(WeightsOf(es)));
    if total > 0 {
      PickFound(WeightsOf(es), random(k, total) + 1, 0);
    }
  }

  /** Two queues of weight 2^62 are enough. */
  lemma {:induction false} TwoHeavyQueuesPanic(random: Random, k: nat)
    requires InRange(random)
    ensures var w := 0x4000_0000_0000_0000;
            Result([Entry(0, w, true), Entry(1, w, true)], random, k) == Panics
  {
    var w := 0x4000_0000_0000_0000;
    var es := [Entry(0, w, true), Entry(1, w, true)];
    assert WeightsOf(es) == [w] + [w];
    assert [w][1..] == [];
    assert Sum([w]) == w;
    SumConcat([w], [w]);
    TotalIsExactIff(WeightsOf(es));
    DrawPanicsIff(es, random, k);
  }

  /** A read that ends like this returns `r`, or panics, and leaves `left`. */
  ghost predicate TakenFrom(result: ReadResult, queued: seq<multiset<Request>>, r: Option<Request>,
                            panicked: bool, left: seq<multiset<Request>>)
  {
    match result
    case Nothing => r.None? && !panicked && left == queued
    case Panics => r.None? && panicked && left == queued
    case Serves(i) =>
      && r.Some? && !panicked && i < |queued|
      && Oldest(queued[i], r.value) && left == Taken(queued, i, r)
  }

  class UniformReader {
    const configs: seq<QueueConfig<PlacementRequestQueue>>
    ghost const heaps: seq<PriorityQueue>

    ghost predicate Valid() {
      && |heaps| == |configs| && Distinct(heaps)
      && forall i :: 0 <= i < |configs| ==>
                       && configs[i].queueRef.Some? && configs[i].queueRef.value.queue == heaps[i]
                       && configs[i].weight > 0
    }

    constructor (configs: seq<QueueConfig<PlacementRequestQueue>>)
      requires WellFormed(configs)
      requires forall i, j :: 0 <= i < j < |configs| ==>
                                configs[i].queueRef.value.queue != configs[j].queueRef.value.queue
      ensures Valid() && this.configs == configs
    {
      this.configs := configs;
      heaps := seq(|configs|, i requires 0 <= i < |configs| => configs[i].queueRef.value.queue);
    }

    /** A read takes an oldest request from the queue the draws lead to, in 64 bits. */
    method Read(random: Random, ghost queued: seq<multiset<Request>>)
      returns (r: Option<Request>, panicked: bool, ghost left: seq<multiset<Request>>)
      requires Valid() && Holds(heaps, queued) && InRange(random)
      modifies heaps
      ensures Holds(heaps, left)
      ensures TakenFrom(Result(Draw(queued), random, 0), queued, r, panicked, left)
    {
      r, panicked, left := DrawUntilFound(random, Draw(queued), queued);
    }

    method DrawUntilFound(random: Random, ghost all: seq<Entry>, ghost queued: seq<multiset<Request>>)
      returns (r: Option<Request>, panicked: bool, ghost left: seq<multiset<Request>>)
      requires Valid() && Holds(heaps, queued) && InRange(random) && InDraw(configs, all, queued)
      modifies heaps
      ensures Holds(heaps, left)
      ensures TakenFrom(Result(all, random, 0), queued, r, panicked, left)
    {
      var rest := configs;
      ghost var es := all;
      var k := 0;
      while k < |configs|
        invariant 0 <= k == |configs| - |rest|
        invariant Holds(heaps, queued) && InDraw(rest, es, queued)
        invariant Result(all, random, 0) == Result(es, random, k)
      {
        r, panicked, rest, es, left := TryOne(rest, es, random, k, queued);
        if panicked || r.Some? {
          return;
        }
        k := k + 1;
      }
      return None, false, queued;
    }

    /** Draw one queue and pop it; an empty one leaves the draw. */
    method TryOne(rest: seq<QueueConfig<PlacementRequestQueue>>, ghost es: seq<Entry>, random: Random,
                  k: nat, ghost queued: seq<multiset<Request>>)
      returns (r: Option<Request>, panicked: bool, after: seq<QueueConfig<PlacementRequestQueue>>,
               ghost others: seq<Entry>, ghost left: seq<multiset<Request>>)
      requires Valid() && Holds(heaps, queued) && InRange(random) && InDraw(rest, es, queued) && rest != []
      modifies heaps
      ensures Holds(heaps, left)
      ensures panicked || r.Some? ==> TakenFrom(Result(es, random, k), queued, r, panicked, left)
      ensures !panicked ==> |after| == |rest| - 1 && InDraw(after, others, queued)
      ensures !panicked && r.None? ==> left == queued && Result(es, random, k) == Result(others, random, k + 1)
    {
      var pick := Next(rest, es, random, k, queued);
      if pick.None? {
        return None, true, rest, es, queued;
      }
      var i := pick.value;
      panicked := false;
      r, left := PopFrom(rest[i].queueRef.value, heaps, es[i].id, queued);
      after, others := rest[..i] + rest[i + 1..], Without(es, i);
    }

    /** The position drawn next, or a panic. */
    method Next(rest: seq<QueueConfig<PlacementRequestQueue>>, ghost es: seq<Entry>, random: Random,
                k: nat, ghost queued: seq<multiset<Request>>) returns (pick: Option<nat>)
      requires Valid() && InRange(random) && InDraw(rest, es, queued) && rest != []
      ensures pick == Drawn64(es, random, k)
      ensures pick.Some? ==>
                && pick.value < |rest|
                && InDraw(rest[..pick.value] + rest[pick.value + 1..], Without(es, pick.value), queued)
    {
      assert Weights(rest) == WeightsOf(es);
      var total := TotalWeight(Weights(rest));
      if total <= 0 {
        return None;
      }
      pick := Scan(Weights(rest), random(k, total) + 1);
      if pick.Some? {
        DropKeepsInDraw(rest, es, queued, pick.value);
      }
    }

    lemma DropKeepsInDraw(rest: seq<QueueConfig<PlacementRequestQueue>>, es: seq<Entry>,
                          queued: seq<multiset<Request>>, i: nat)
      requires InDraw(rest, es, queued) && i < |rest|
      ensures InDraw(rest[..i] + rest[i + 1..], Without(es, i), queued)
    {
      var after, others := rest[..i] + rest[i + 1..], Without(es, i);
      forall j | 0 <= j < |others| ensures Describes(others[j], after[j], queued) && others[j].weight > 0 {
        if j < i {
          assert others[j] == es[j] && after[j] == rest[j];
        } else {
          assert others[j] == es[j + 1] && after[j] == rest[j + 1];
        }
      }
    }

    /** Every queue is in the draw when a read begins. */
    ghost function Draw(queued: seq<multiset<Request>>): (es: seq<Entry>)
      requires Valid() && |configs| == |queued|
      ensures InDraw(configs, es, queued) && DistinctIds(es)
    {
      seq(|configs|, i requires 0 <= i < |configs| => Entry(i, configs[i].weight, queued[i] != multiset{}))
    }

    /** The queues still in the draw, as the entries describe them. */
    ghost predicate InDraw(rest: seq<QueueConfig<PlacementRequestQueue>>, es: seq<Entry>,
                           queued: seq<multiset<Request>>)
    {
      && |rest| == |es| && Positive(es)
      && forall j :: 0 <= j < |es| ==> Describes(es[j], rest[j], queued)
    }

    ghost predicate Describes(e: Entry, config: QueueConfig<PlacementRequestQueue>, queued: seq<multiset<Request>>) {
      && e.id < |configs| == |queued| && config == configs[e.id] && e.weight == config.weight
      && e.nonEmpty == (queued[e.id] != multiset{})
    }
  }
}
