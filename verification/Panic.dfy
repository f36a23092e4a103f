/** What becomes of a validated configuration whose weights are too large. */
module Panics {
  import opened Types
  import opened Bags
  import opened Int64
  import opened Sums
  import opened Config
  import opened Quotas
  import opened Floats
  import opened CodeQuotas
  import opened RoundRobin
  import opened Iterator
  import opened Safety
  import opened Starvation
  import opened Uniform

  // ---------- The uniform reader ----------

  lemma {:induction false} WeightInBelow(weights: seq<nat>, n: nat)
    requires n <= |weights|
    ensures WeightIn(weights, Below(n)) == Sum(weights[..n])
    decreases |weights|
  {
    if weights != [] {
      var last := |weights| - 1;
      if n <= last {
        WeightInBelow(weights[..last], n);
        assert weights[..last][..n] == weights[..n];
      } else {
        WeightInWithin(weights[..last], Below(n), Below(last));
        WeightInBelow(weights[..last], last);
        SumSplit(weights, last);
        assert weights[..last][..last] == weights[..last] && weights[..last + 1] == weights[..n];
      }
    }
  }

  /** Only the queues of the list count. */
  lemma {:induction false} WeightInWithin(weights: seq<nat>, a: set<nat>, b: set<nat>)
    requires forall i: nat :: i < |weights| ==> (i in a <==> i in b)
    ensures WeightIn(weights, a) == WeightIn(weights, b)
  {
    if weights != [] {
      WeightInWithin(weights[..|weights| - 1], a, b);
    }
  }

  lemma {:induction false} WeightInOne(weights: seq<nat>, i: nat)
    requires i < |weights|
    ensures WeightIn(weights, {i}) == weights[i]
    decreases |weights|
  {
    var last := |weights| - 1;
    if i < last {
      WeightInOne(weights[..last], i);
    } else {
      WeightInWithin(weights[..last], {i}, {});
      WeightInNone(weights[..last]);
    }
  }

  lemma {:induction false} WeightInNone(weights: seq<nat>)
    ensures WeightIn(weights, {}) == 0
  {
    if weights != [] {
      WeightInNone(weights[..|weights| - 1]);
    }
  }

  /** The first queue with which the weights reach 2^63. */
  lemma {:induction false} Crossing(weights: seq<nat>) returns (k: nat)
    requires Sum(weights) >= TWO_63
    ensures k < |weights| && Sum(weights[..k]) < TWO_63 <= Sum(weights[..k + 1])
    decreases |weights|
  {
    var n := |weights| - 1;
    SumSplit(weights, n);
    assert weights[..n + 1] == weights;
    if Sum(weights[..n]) >= TWO_63 {
      k := Crossing(weights[..n]);
      assert weights[..n][..k] == weights[..k] && weights[..n][..k + 1] == weights[..k + 1];
    } else {
      k := n;
    }
  }

  /** If the weights add up to 2^63 or more, a draw among some of the queues panics. */
  lemma {:induction false} SomeDrawFails(weights: seq<nat>) returns (rest: set<nat>)
    requires Sum(weights) >= TWO_63 && forall i :: 0 <= i < |weights| ==> weights[i] < TWO_64
    ensures rest != {} && rest <= Below(|weights|) && Wrap(WeightIn(weights, rest)) <= 0
  {
    var k := Crossing(weights);
    SumSplit(weights, k);
    if weights[k] >= TWO_63 {
      rest := {k};
      WeightInOne(weights, k);
    } else {
      rest := Below(k + 1);
      WeightInBelow(weights, k + 1);
    }
    WrapIsExactIff(WeightIn(weights, rest));
    assert k in rest;
  }

  ghost predicate AllIdle(s: State) {
    && (forall i :: 0 <= i < |s.queues| ==> s.queues[i] == multiset{})
    && (forall i :: 0 <= i < |s.locks| ==> s.locks[i] == Unlocked)
  }

  lemma {:induction false} ProperSubset(few: set<nat>, many: set<nat>)
    requires few <= many && few != many
    ensures exists i :: i in many && i !in few
  {
    assert !(many <= few);
  }

  /** With all queues empty the draw may be narrowed down to any of them. */
  lemma {:induction false} NarrowDown(p: Setup, s: State, rest: set<nat>) returns (es: seq<Event>)
    requires Shaped(p, s) && AllIdle(s) && s.place.Drawing?
    requires rest != {} && rest <= s.place.rest && p.fails(rest)
    ensures Run(p, s, es) && Final(p, s, es).place.Panicked?
    decreases s.place.rest
  {
    if p.fails(s.place.rest) {
      RunOne(p, s, Crash);
      es := [Crash];
    } else {
      ProperSubset(rest, s.place.rest);
      var i :| i in s.place.rest && i !in rest;
      var more := NarrowDown(p, Apply(p, s, Miss(i)), rest);
      RunMore(p, s, Miss(i), more);
      es := [Miss(i)] + more;
    }
  }

  ghost predicate MayPanic(p: Setup) {
    exists s :: Reachable(p, s) && s.place.Panicked?
  }

  /** With a uniform reader some run panics if and only if the weights add up to 2^63 or
      more. */
  lemma {:induction false} UniformPanicsIff(p: Setup)
    requires Configured(p) && p.algorithm.UniformReads?
    ensures MayPanic(p) <==> Sum(Weights(p.configs)) >= TWO_63
  {
    if Sum(Weights(p.configs)) >= TWO_63 {
      var rest := SomeDrawFails(Weights(p.configs));
      PanicReached(p, rest);
    } else {
      forall s | Reachable(p, s) ensures !s.place.Panicked? {
        ReachableStatesAreSafe(p, s);
      }
    }
  }

  lemma {:induction false} PanicReached(p: Setup, rest: set<nat>)
    requires Configured(p) && p.algorithm.UniformReads?
    requires rest != {} && rest <= Below(Count(p)) && p.fails(rest)
    ensures MayPanic(p)
  {
    var start := InitialState(p);
    var es := NarrowDown(p, Apply(p, start, Start), rest);
    RunMore(p, start, Start, es);
    assert Reachable(p, Final(p, start, [Start] + es));
  }

  ghost function Ids(es: seq<Entry>): set<nat> {
    set e | e in es :: e.id
  }

  lemma {:induction false} WeightInMore(weights: seq<nat>, rest: set<nat>, i: nat)
    requires i < |weights| && i !in rest
    ensures WeightIn(weights, rest + {i}) == WeightIn(weights, rest) + weights[i]
    decreases |weights|
  {
    var last := |weights| - 1;
    if i < last {
      WeightInMore(weights[..last], rest, i);
    } else {
      WeightInWithin(weights[..last], rest + {i}, rest);
    }
  }

  lemma {:induction false} WeightInIds(weights: seq<nat>, es: seq<Entry>)
    requires DistinctIds(es)
    requires forall k :: 0 <= k < |es| ==> es[k].id < |weights| && weights[es[k].id] == es[k].weight
    ensures WeightIn(weights, Ids(es)) == Sum(WeightsOf(es))
  {
    if es == [] {
      assert Ids(es) == {};
      WeightInNone(weights);
    } else {
      var rest := es[1..];
      WeightInIds(weights, rest);
      assert es == [es[0]] + rest && Ids(es) == Ids(rest) + {es[0].id};
      WeightInMore(weights, Ids(rest), es[0].id);
      assert WeightsOf(es)[1..] == WeightsOf(rest);
    }
  }

  /** The step system panics where the reader does. */
  lemma {:induction false} FailsAsDrawn(p: Setup, es: seq<Entry>, random: Random, k: nat)
    requires Configured(p) && es != [] && DistinctIds(es) && InRange(random)
    requires forall k :: 0 <= k < |es| ==> es[k].id < Count(p) && p.configs[es[k].id].weight == es[k].weight
    ensures p.fails(Ids(es)) <==> Drawn64(es, random, k).None?
  {
    WeightInIds(Weights(p.configs), es);
    DrawPanicsIff(es, random, k);
  }

  // ---------- The round-robin reader ----------

  ghost predicate Walking(p: Setup, s: State) {
    && Shaped(p, s) && !s.place.Drawing? && !s.place.Panicked?
    && (forall k :: 0 <= k < Count(p) ==> s.read[k] >= 0)
    && (s.place.Popping? ==> s.read[s.place.i] < p.max[s.place.i])
  }

  lemma {:induction false} WalkingKept(p: Setup, s: State, e: Event)
    requires p.algorithm.RoundRobinReads? && Walking(p, s) && Enabled(p, s, e)
    requires exists i :: 0 <= i < |p.max| && p.max[i] > 0
    ensures Walking(p, Apply(p, s, e))
  {
    if e.Choose? {
      var i :| 0 <= i < |p.max| && p.max[i] > 0;
      assert QuotaLeft(p.max, Zeros(Count(p)))[i];
    }
  }

  lemma {:induction false} WalkingKeptByRun(p: Setup, s: State, es: seq<Event>)
    requires p.algorithm.RoundRobinReads? && Walking(p, s) && Run(p, s, es)
    requires exists i :: 0 <= i < |p.max| && p.max[i] > 0
    ensures Walking(p, Final(p, s, es))
    ensures forall k :: 0 <= k < |es| && es[k].Pop? ==> es[k].i < Count(p) && p.max[es[k].i] > 0
    decreases |es|
  {
    if es != [] {
      WalkingKept(p, s, es[0]);
      WalkingKeptByRun(p, Apply(p, s, es[0]), es[1..]);
    }
  }

  /** The queue the quotas are relative to has a quota of ten. */
  lemma {:induction false} SomeQuotaIsPositive(weights: seq<nat>, overflow: int)
    requires Weighs(weights)
    ensures exists i :: 0 <= i < |weights| && CodeMax(weights, overflow)[i] > 0
  {
    var light := CodeLightest(weights);
    var i :| 0 <= i < |weights| && weights[i] == light;
    QuotaListAt(weights, light, overflow, i);
    FloatQuotaAtLeastTen(light, light);
    assert CodeMax(weights, overflow)[i] > 0;
  }

  /** With a round-robin reader nothing panics, whatever the weights; but a queue whose
      quota is not positive is never served. */
  lemma {:induction false} NeverServed(p: Setup, es: seq<Event>)
    requires Configured(p) && p.algorithm.RoundRobinReads?
    requires Shaped(p, InitialState(p)) && Run(p, InitialState(p), es)
    ensures !Final(p, InitialState(p), es).place.Panicked?
    ensures forall k :: 0 <= k < |es| && es[k].Pop? ==> es[k].i < Count(p) && p.max[es[k].i] > 0
  {
    SomeQuotaIsPositive(Weights(p.configs), p.overflow);
    WalkingKeptByRun(p, InitialState(p), es);
  }

  /** Queue `j` and no other holds something, and a read begins. */
  ghost predicate OnlyQueued(p: Setup, s: State, j: nat) {
    && Shaped(p, s) && j < Count(p)
    && (forall i :: 0 <= i < Count(p) ==> s.locks[i] == Unlocked && (s.queues[i] != multiset{} <==> i == j))
  }

  lemma {:induction false} ScanUpTo(p: Setup, s: State, j: nat) returns (es: seq<Event>)
    requires OnlyQueued(p, s, j) && s.place.Scanning? && s.place.k <= j
    ensures Run(p, s, es) && Final(p, s, es) == s.(place := Choosing)
    decreases j - s.place.k
  {
    if s.place.k == j {
      RunOne(p, s, Observe);
      es := [Observe];
    } else {
      var more := ScanUpTo(p, Apply(p, s, Observe), j);
      RunMore(p, s, Observe, more);
      es := [Observe] + more;
    }
  }

  ghost predicate PopsFrom(es: seq<Event>, j: nat) {
    exists k :: 0 <= k < |es| && es[k].Pop? && es[k].i == j
  }

  /** The scan for a queue with quota passes over the empty ones and comes to `j`. */
  lemma {:induction false} ComesToQueue(p: Setup, s: State, j: nat) returns (es: seq<Event>)
    requires OnlyQueued(p, s, j) && s.place == Scanning(0) && s.read[j] < p.max[j]
    ensures Run(p, s, es) && PopsFrom(es, j)
    decreases QuotaCount(p.max, s.read), 1
  {
    var scan := ScanUpTo(p, s, j);
    var choosing := s.(place := Choosing);
    assert QuotaLeft(p.max, s.read)[j];
    var i := NextQueue(p.max, s.read);
    var more := TakesQueue(p, s, i, j);
    RunMore(p, choosing, Choose, more);
    RunAppend(p, s, scan, [Choose] + more);
    es := scan + ([Choose] + more);
    PopsLater([Choose], more, j);
    PopsLater(scan, [Choose] + more, j);
  }

  lemma {:induction false} PopsLater(first: seq<Event>, more: seq<Event>, j: nat)
    requires PopsFrom(more, j)
    ensures PopsFrom(first + more, j)
  {
    var k :| 0 <= k < |more| && more[k].Pop? && more[k].i == j;
    assert (first + more)[|first| + k] == more[k];
  }

  lemma {:induction false} TakesQueue(p: Setup, s: State, i: nat, j: nat) returns (es: seq<Event>)
    requires OnlyQueued(p, s, j) && s.place == Scanning(0) && s.read[j] < p.max[j]
    requires i < Count(p) && s.read[i] < p.max[i]
    ensures Run(p, s.(place := Popping(i)), es) && PopsFrom(es, j)
    decreases QuotaCount(p.max, s.read), 0
  {
    var popping := s.(place := Popping(i));
    if i == j {
      var r := OldestExists(s.queues[j]);
      RunOne(p, popping, Pop(j, r));
      es := [Pop(j, r)];
      assert es[0].Pop? && es[0].i == j;
    } else {
      ExhaustLowersCount(p.max, s.read, i);
      var more := ComesToQueue(p, Apply(p, popping, Miss(i)), j);
      RunMore(p, popping, Miss(i), more);
      es := [Miss(i)] + more;
      PopsLater([Miss(i)], more, j);
    }
  }

  ghost predicate Servable(p: Setup, j: nat) {
    && Shaped(p, InitialState(p))
    && exists es :: Run(p, InitialState(p), es) && PopsFrom(es, j)
  }

  /** A queue that admits requests at all is served in some run if and only if its quota
      is positive. Where the platform turns a quota too large for an int into a negative
      number, that is so if and only if the weights are less than `TOO_HEAVY` apart. */
  lemma {:induction false} ServableIff(p: Setup, j: nat, x: Request)
    requires Configured(p) && p.algorithm.RoundRobinReads? && Admits(p, j, x)
    ensures Servable(p, j) <==> p.max[j] > 0
    ensures var light := CodeLightest(Weights(p.configs));
            p.overflow <= 0 ==>
              (p.max[j] > 0 <==> ToFloat(p.configs[j].weight) < TOO_HEAVY * ToFloat(light))
  {
    var weights := Weights(p.configs);
    QuotaListAt(weights, CodeLightest(weights), p.overflow, j);
    FloatQuotaIsPositive(weights[j], CodeLightest(weights));
    QuotaFitsIff(weights[j], CodeLightest(weights));
    if p.max[j] > 0 {
      ServedOnce(p, j, x);
    } else {
      forall es | Run(p, InitialState(p), es) ensures !PopsFrom(es, j) {
        NeverServed(p, es);
      }
    }
  }

  lemma {:induction false} ServedOnce(p: Setup, j: nat, x: Request)
    requires Shaped(p, InitialState(p)) && p.algorithm.RoundRobinReads? && Admits(p, j, x) && p.max[j] > 0
    ensures Servable(p, j)
  {
    var start := InitialState(p);
    var push := PushOnce(p, start, j, x);
    var pushed := Final(p, start, push);
    var more := ComesToQueue(p, Apply(p, pushed, Start), j);
    RunMore(p, pushed, Start, more);
    RunAppend(p, start, push, [Start] + more);
    PopsLater([Start], more, j);
    PopsLater(push, [Start] + more, j);
  }
}
