/** When a single request is delivered under the round-robin reader. */
module Delivery {
  import opened Types
  import opened Waiting
  import opened Iterator
  import opened Sums
  import opened Starvation

  /** How many requests in `queue` were created no later than `time`. */
  ghost function NoYounger(queue: multiset<Request>, time: int): nat
    decreases |queue|
  {
    if queue == multiset{} then 0
    else
      var y :| y in queue;
      NoYounger(queue - multiset{y}, time) + if y.created <= time then 1 else 0
  }

  lemma {:induction false} NoYoungerAdd(queue: multiset<Request>, y: Request, time: int)
    ensures NoYounger(queue + multiset{y}, time)
         == NoYounger(queue, time) + if y.created <= time then 1 else 0
    decreases |queue|
  {
    var all := queue + multiset{y};
    var z :| z in all && NoYounger(all, time)
                         == NoYounger(all - multiset{z}, time) + if z.created <= time then 1 else 0;
    if z == y {
      assert all - multiset{z} == queue;
    } else {
      var rest := queue - multiset{z};
      assert all - multiset{z} == rest + multiset{y} && queue == rest + multiset{z};
      NoYoungerAdd(rest, y, time);
      NoYoungerAdd(rest, z, time);
    }
  }

  function CreatedBy(s: seq<Request>, time: int): nat {
    if s == [] then 0
    else
      var n := |s| - 1;
      CreatedBy(s[..n], time) + if s[n].created <= time then 1 else 0
  }

  /** It counts them, in whatever order they are listed. */
  lemma {:induction false} NoYoungerCounts(s: seq<Request>, time: int)
    ensures NoYounger(multiset(s), time) == CreatedBy(s, time)
  {
    if s != [] {
      var n := |s| - 1;
      NoYoungerCounts(s[..n], time);
      NoYoungerAdd(multiset(s[..n]), s[n], time);
      assert s == s[..n] + [s[n]];
    }
  }

  /** The requests of `queue` that may be popped before `x`. */
  ghost function Ahead(queue: multiset<Request>, x: Request): nat {
    NoYounger(queue - multiset{x}, x.created)
  }

  lemma {:induction false} YoungerDoesNotPass(queue: multiset<Request>, x: Request, y: Request)
    requires x in queue && x.created < y.created
    ensures Ahead(queue + multiset{y}, x) == Ahead(queue, x)
  {
    assert queue + multiset{y} - multiset{x} == (queue - multiset{x}) + multiset{y};
    NoYoungerAdd(queue - multiset{x}, y, x.created);
  }

  lemma {:induction false} PopMovesAhead(queue: multiset<Request>, x: Request, y: Request)
    requires x in queue && Oldest(queue, y) && x != y
    ensures Ahead(queue, x) == Ahead(queue - multiset{y}, x) + 1
  {
    var rest := queue - multiset{y} - multiset{x};
    assert queue - multiset{x} == rest + multiset{y};
    NoYoungerAdd(rest, y, x.created);
  }

  /** One round of the queues other than `j`. */
  ghost function OneRound(p: Setup, j: nat): nat
    requires |p.max| == Count(p) && j < Count(p)
  {
    if OtherQuotas(p.max, j) < 0 then 0 else OtherQuotas(p.max, j)
  }

  /** How many requests of queue `j` are in flight. */
  ghost function InFlightFrom(s: State, j: nat): nat {
    if FlyingFrom(s, j) then 1 else 0
  }

  /** How many requests may still be sent before `x`, which waits in queue `j`. */
  ghost function SentBefore(p: Setup, s: State, j: nat, x: Request): int
    requires Shaped(p, s) && j < Count(p)
  {
    if s.place == Delivering(j, x) then 0
    else Times(Ahead(s.queues[j], x), OneRound(p, j) + 1) + Before(p, s, j) + InFlightFrom(s, j)
  }

  /** `x` is in queue `j`, or was popped from it and is not sent yet. */
  ghost predicate Waits(s: State, j: nat, x: Request)
    requires j < |s.queues|
  {
    x in s.queues[j] || s.place == Delivering(j, x)
  }

  /** A step that neither sends `x`, nor throws anything away, nor pushes into its
      queue a request as old as `x`. */
  ghost predicate Harmless(e: Event, j: nat, x: Request) {
    !e.Discard? && e != Send(j, x) && (e.Insert? && e.i == j ==> x.created < e.r.created)
  }

  ghost predicate AllHarmless(es: seq<Event>, j: nat, x: Request) {
    forall k :: 0 <= k < |es| ==> Harmless(es[k], j, x)
  }

  lemma {:induction false} StepsLowerSentBefore(p: Setup, s: State, e: Event, j: nat, x: Request)
    requires RoundRobinState(p, s) && j < Count(p) && x in s.queues[j] && s.place != Delivering(j, x)
    requires Enabled(p, s, e) && Harmless(e, j, x)
    ensures var t := Apply(p, s, e);
            && SentBefore(p, t, j, x) + (if e.Send? then Charge(e.i, e.r, j) else 0) <= SentBefore(p, s, j, x)
            && RoundRobinState(p, t) && Waits(t, j, x)
  {
    StateKept(p, s, e);
    BeforeIsBounded(p, s, j);
    if e.Pop? && e.i == j {
      PopLowersSentBefore(p, s, e.r, j, x);
    } else {
      StepsLowerBefore(p, s, e, j);
      AheadKept(p, s, e, j, x);
    }
  }

  lemma {:induction false} AheadKept(p: Setup, s: State, e: Event, j: nat, x: Request)
    requires Shaped(p, s) && j < Count(p) && x in s.queues[j]
    requires Enabled(p, s, e) && Harmless(e, j, x) && !(e.Pop? && e.i == j)
    ensures x in Apply(p, s, e).queues[j]
    ensures Ahead(Apply(p, s, e).queues[j], x) == Ahead(s.queues[j], x)
    ensures InFlightFrom(Apply(p, s, e), j) + (if e.Send? && e.i == j then 1 else 0) == InFlightFrom(s, j)
  {
    if e.Insert? && e.i == j {
      YoungerDoesNotPass(s.queues[j], x, e.r);
    }
  }

  lemma {:induction false} PopLowersSentBefore(p: Setup, s: State, r: Request, j: nat, x: Request)
    requires RoundRobinState(p, s) && j < Count(p) && x in s.queues[j] && s.place != Delivering(j, x)
    requires Enabled(p, s, Pop(j, r)) && RoundRobinState(p, Apply(p, s, Pop(j, r)))
    ensures var t := Apply(p, s, Pop(j, r));
            && SentBefore(p, t, j, x) <= SentBefore(p, s, j, x)
            && Waits(t, j, x)
  {
    BeforeIsBounded(p, s, j);
    if r != x {
      BeforeIsBounded(p, Apply(p, s, Pop(j, r)), j);
      PopMovesAhead(s.queues[j], x, r);
    }
  }

  /** With `x` in flight nothing is sent before it. */
  lemma {:induction false} FlyingIsSentFirst(p: Setup, s: State, es: seq<Event>, j: nat, x: Request)
    requires Shaped(p, s) && Run(p, s, es) && s.place == Delivering(j, x)
    requires AllHarmless(es, j, x)
    ensures Sends(es) == 0
    decreases |es|
  {
    if es != [] {
      FlyingIsSentFirst(p, Apply(p, s, es[0]), es[1..], j, x);
    }
  }

  lemma {:induction false} SendsBefore(p: Setup, s: State, es: seq<Event>, j: nat, x: Request)
    requires RoundRobinState(p, s) && j < Count(p) && Waits(s, j, x)
    requires Run(p, s, es) && AllHarmless(es, j, x)
    ensures Sends(es) <= SentBefore(p, s, j, x) + FreeSends(es, j)
    decreases |es|
  {
    BeforeIsBounded(p, s, j);
    if s.place == Delivering(j, x) {
      FlyingIsSentFirst(p, s, es, j, x);
    } else if es != [] {
      StepsLowerSentBefore(p, s, es[0], j, x);
      SendsBefore(p, Apply(p, s, es[0]), es[1..], j, x);
    }
  }

  /** `m` requests and `m + 1` rounds of the other queues, and one in flight. */
  ghost function SendBound(p: Setup, s: State, j: nat, x: Request): nat
    requires Shaped(p, s) && j < Count(p)
  {
    var m := Ahead(s.queues[j], x);
    m + Times(m + 1, OneRound(p, j)) + InFlightFrom(s, j)
  }

  lemma {:induction false} SentBeforeIsBounded(p: Setup, s: State, j: nat, x: Request)
    requires RoundRobinState(p, s) && j < Count(p)
    ensures OtherQuotas(p.max, j) >= 0
    ensures SentBefore(p, s, j, x) <= SendBound(p, s, j, x)
  {
    BeforeIsBounded(p, s, j);
    OneMoreEach(Ahead(s.queues[j], x), OneRound(p, j));
  }

  lemma {:induction false} OneMoreEach(m: nat, b: nat)
    ensures Times(m, b + 1) + b == m + Times(m + 1, b)
  {
    if m > 0 {
      OneMoreEach(m - 1, b);
    }
  }

  /** Delivery bound: a request with `m` queue-mates no younger than itself, whose
      queue only receives younger ones, is sent after at most `m` requests and `m + 1`
      rounds of the other queues, plus one if a request of its own queue was in flight:
      at most `m + (m + 1) * b` others, with `b` the other queues' quotas. Requests of
      other queues that have no bindings come on top. */
  lemma {:induction false} DeliveryIsBounded(p: Setup, s: State, es: seq<Event>, j: nat, x: Request)
    requires RoundRobinState(p, s) && j < Count(p) && x in s.queues[j]
    requires Run(p, s, es) && AllHarmless(es, j, x)
    ensures OtherQuotas(p.max, j) >= 0
    ensures Sends(es) <= SendBound(p, s, j, x) + FreeSends(es, j)
  {
    SendsBefore(p, s, es, j, x);
    SentBeforeIsBounded(p, s, j, x);
  }

  /** The same for every valid configuration and every history in which each request
      carries a binding. */
  lemma {:induction false} EveryRequestIsDelivered(
    p: Setup, past: seq<Event>, s: State, es: seq<Event>, j: nat, x: Request)
    requires ValidSetup(p) && p.algorithm.RoundRobinReads? && Reached(p, past, s)
    requires Shaped(p, s) && j < Count(p) && x in s.queues[j]
    requires Run(p, s, es) && SizedInserts(es) && AllHarmless(es, j, x)
    ensures var m := Ahead(s.queues[j], x);
            Sends(es) <= m + (m + 1) * OtherQuotas(p.max, j) + InFlightFrom(s, j)
  {
    ReachedIsSized(p, past, s);
    ReachableIsRoundRobin(p, s);
    DeliveryIsBounded(p, s, es, j, x);
    NothingGoesFree(p, s, es, j);
    TimesIsProduct(Ahead(s.queues[j], x) + 1, OtherQuotas(p.max, j));
  }
}
