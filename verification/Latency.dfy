/** How many of its own steps the iterator takes before it sends a given request. */
module Latency {
  import opened Types
  import opened Sums
  import opened Iterator
  import opened Safety
  import opened Progress
  import opened Starvation
  import opened Delivery

  /** While queue `j` is not empty, the iterator's steps to its next send, at most. A pass
      that is past queue `j` may end in vain: then it falls asleep, wakes and starts over. */
  ghost function NextSend(p: Setup, s: State, j: nat): nat
    requires Shaped(p, s)
  {
    match s.place
    case Delivering(_, _) => 1
    case AtTop => ReadBound(p) + 2
    case Sleeping => ReadBound(p) + 3
    case Stopped => 0
    case Panicked => 0
    case _ => ReadRank(p, s) + if StillToObserve(s, j) then 2 else ReadBound(p) + 4
  }

  lemma {:induction false} NextSendIsBounded(p: Setup, s: State, j: nat)
    requires Shaped(p, s)
    ensures NextSend(p, s, j) <= 2 * ReadBound(p) + 3
  {
    RankBounded(p, s);
  }

  /** Before cancellation, each of the iterator's steps brings the next send closer, and
      nobody else puts it off. */
  lemma {:induction false} StepsLowerNextSend(p: Setup, s: State, e: Event, j: nat)
    requires RoundRobinState(p, s) && j < Count(p) && s.queues[j] != multiset{} && !s.cancelled
    requires Enabled(p, s, e) && !e.Send?
    ensures NextSend(p, Apply(p, s, e), j) + (if ByIterator(e) then 1 else 0) <= NextSend(p, s, j)
  {
    RankBounded(p, Apply(p, s, e));
    if !ByIterator(e) {
      OthersDoNotDelay(p, s, e);
    } else if InRead(s) && !e.Pop? && !e.GiveUp? {
      ReadStepsLowerRank(p, s, e);
      StaysObserved(p, s, e, j);
    }
  }

  lemma {:induction false} StaysObserved(p: Setup, s: State, e: Event, j: nat)
    requires RoundRobinState(p, s) && j < Count(p) && s.queues[j] != multiset{}
    requires Enabled(p, s, e) && InRead(s) && ByIterator(e) && !e.Pop? && !e.GiveUp?
    ensures StillToObserve(s, j) ==> StillToObserve(Apply(p, s, e), j)
  {
    if StillToObserve(s, j) {
      StillFound(p, s, e, j);
    }
  }

  /** A send is followed by a read that begins with the first queue. */
  lemma {:induction false} NextSendAfterSend(p: Setup, s: State, e: Event, j: nat)
    requires RoundRobinState(p, s) && Enabled(p, s, e) && e.Send?
    ensures NextSend(p, Apply(p, s, e), j) <= ReadBound(p) + 1
  {
    RankBounded(p, Apply(p, s, e));
  }

  /** With `x` in flight the iterator has nothing to do but send it. */
  lemma {:induction false} FlyingIsNext(p: Setup, s: State, es: seq<Event>, j: nat, x: Request)
    requires Shaped(p, s) && Run(p, s, es) && s.place == Delivering(j, x) && AllHarmless(es, j, x)
    ensures IteratorSteps(es) == 0
    decreases |es|
  {
    if es != [] {
      FlyingIsNext(p, Apply(p, s, es[0]), es[1..], j, x);
    }
  }

  /** What one step does to the two bounds: on the requests sent before `x`, and on the
      steps to the next send. */
  lemma {:induction false} StepLowersBoth(p: Setup, s: State, e: Event, j: nat, x: Request)
    requires RoundRobinState(p, s) && j < Count(p) && x in s.queues[j] && s.place != Delivering(j, x)
    requires Enabled(p, s, e) && Harmless(e, j, x) && !s.cancelled && !e.Cancel?
    ensures var t := Apply(p, s, e);
            && RoundRobinState(p, t) && Waits(t, j, x) && !t.cancelled
            && 0 <= SentBefore(p, t, j, x)
            && SentBefore(p, t, j, x) + (if e.Send? then Charge(e.i, e.r, j) else 0) <= SentBefore(p, s, j, x)
            && NextSend(p, t, j) + (if ByIterator(e) then 1 else 0)
               <= if e.Send? then ReadBound(p) + 2 else NextSend(p, s, j)
  {
    StepsLowerSentBefore(p, s, e, j, x);
    BeforeIsBounded(p, Apply(p, s, e), j);
    if e.Send? {
      NextSendAfterSend(p, s, e, j);
    } else {
      StepsLowerNextSend(p, s, e, j);
    }
  }

  lemma {:induction false} TimesGrows(a: nat, b: nat, x: nat)
    requires a <= b
    ensures Times(a, x) + (if a < b then x else 0) <= Times(b, x)
    decreases b
  {
    if a + 1 < b {
      TimesGrows(a, b - 1, x);
    }
  }

  /** The iterator's steps for `n` sends, each with a read before it, and `next` more. */
  function Budget(read: nat, n: nat, next: nat): nat {
    Times(n, read + 2) + next
  }

  lemma {:induction false} BudgetStep(read: nat, e: Event, n: nat, next: nat, fewer: nat, later: nat)
    requires fewer + (if e.Send? then 1 else 0) <= n
    requires later + (if ByIterator(e) then 1 else 0) <= if e.Send? then read + 2 else next
    ensures Budget(read, fewer, later) + (if ByIterator(e) then 1 else 0) <= Budget(read, n, next)
  {
    TimesGrows(fewer, n, read + 2);
  }

  ghost predicate Uncancelled(es: seq<Event>) {
    forall k :: 0 <= k < |es| ==> !es[k].Cancel?
  }

  /** `x` waits, at most `n` requests are sent before it, and the next send is at most
      `next` of the iterator's steps away. */
  ghost predicate Within(p: Setup, s: State, es: seq<Event>, j: nat, x: Request, n: nat, next: nat) {
    && RoundRobinState(p, s) && j < Count(p) && Waits(s, j, x) && !s.cancelled
    && SentBefore(p, s, j, x) + FreeSends(es, j) <= n && NextSend(p, s, j) <= next
  }

  lemma {:induction false} StepWithin(
    p: Setup, s: State, es: seq<Event>, j: nat, x: Request, n: nat, next: nat)
    returns (fewer: nat, later: nat)
    requires Within(p, s, es, j, x, n, next) && s.place != Delivering(j, x)
    requires es != [] && Enabled(p, s, es[0]) && Harmless(es[0], j, x) && !es[0].Cancel?
    ensures Within(p, Apply(p, s, es[0]), es[1..], j, x, fewer, later)
    ensures Budget(ReadBound(p), fewer, later) + (if ByIterator(es[0]) then 1 else 0)
         <= Budget(ReadBound(p), n, next)
  {
    StepLowersBoth(p, s, es[0], j, x);
    fewer := if es[0].Send? then n - 1 else n;
    later := NextSend(p, Apply(p, s, es[0]), j);
    BudgetStep(ReadBound(p), es[0], n, next, fewer, later);
  }

  lemma {:induction false} StepsBefore(
    p: Setup, s: State, es: seq<Event>, j: nat, x: Request, n: nat, next: nat)
    requires Within(p, s, es, j, x, n, next) && Run(p, s, es) && AllHarmless(es, j, x) && Uncancelled(es)
    ensures IteratorSteps(es) <= Budget(ReadBound(p), n, next)
    decreases |es|
  {
    if s.place == Delivering(j, x) {
      FlyingIsNext(p, s, es, j, x);
    } else if es != [] {
      var fewer, later := StepWithin(p, s, es, j, x, n, next);
      StepsBefore(p, Apply(p, s, es[0]), es[1..], j, x, fewer, later);
    }
  }

  /** Latency: for every valid configuration and every history, before cancellation a
      waiting request is sent within this many of the iterator's own steps, whatever
      producers do and counting passes that end in vain and readers made anew. With `m`
      queue-mates no younger and `b` the other queues' quotas it is
      `(m + (m + 1) * b + f) * (R + 2) + 2 * R + 3`, where `R` bounds one read and `f`
      counts a request of its own queue in flight. */
  lemma {:induction false} EveryRequestIsSentInTime(
    p: Setup, past: seq<Event>, s: State, es: seq<Event>, j: nat, x: Request)
    requires ValidSetup(p) && p.algorithm.RoundRobinReads? && Reached(p, past, s)
    requires Shaped(p, s) && j < Count(p) && x in s.queues[j] && !s.cancelled
    requires Run(p, s, es) && SizedInserts(es) && AllHarmless(es, j, x) && Uncancelled(es)
    ensures IteratorSteps(es) <= SendBound(p, s, j, x) * (ReadBound(p) + 2) + (2 * ReadBound(p) + 3)
    ensures !Quiescent(p, Final(p, s, es))
  {
    ReachedIsSized(p, past, s);
    ReachableIsRoundRobin(p, s);
    NothingGoesFree(p, s, es, j);
    SentInTime(p, s, es, j, x);
    StillWaits(p, s, es, j, x);
  }

  /** From any state with the invariant, as long as nothing goes free. */
  lemma {:induction false} SentInTime(p: Setup, s: State, es: seq<Event>, j: nat, x: Request)
    requires RoundRobinState(p, s) && j < Count(p) && x in s.queues[j] && !s.cancelled
    requires Run(p, s, es) && AllHarmless(es, j, x) && Uncancelled(es) && FreeSends(es, j) == 0
    ensures IteratorSteps(es) <= SendBound(p, s, j, x) * (ReadBound(p) + 2) + (2 * ReadBound(p) + 3)
  {
    SentBeforeIsBounded(p, s, j, x);
    NextSendIsBounded(p, s, j);
    StepsBefore(p, s, es, j, x, SendBound(p, s, j, x), 2 * ReadBound(p) + 3);
    BudgetIsProduct(ReadBound(p), SendBound(p, s, j, x), 2 * ReadBound(p) + 3);
  }

  lemma {:induction false} BudgetIsProduct(read: nat, n: nat, next: nat)
    ensures Budget(read, n, next) == n * (read + 2) + next
  {
    TimesIsProduct(n, read + 2);
  }

  /** And as long as it waits, something is bound to happen. */
  lemma {:induction false} StillWaits(p: Setup, s: State, es: seq<Event>, j: nat, x: Request)
    requires RoundRobinState(p, s) && j < Count(p) && Waits(s, j, x) && !s.cancelled
    requires Run(p, s, es) && AllHarmless(es, j, x) && Uncancelled(es)
    ensures !Quiescent(p, Final(p, s, es))
    decreases |es|
  {
    if es == [] {
      QuiescentIff(p, s);
    } else if s.place == Delivering(j, x) {
      StateKept(p, s, es[0]);
      StillWaits(p, Apply(p, s, es[0]), es[1..], j, x);
    } else {
      StepLowersBoth(p, s, es[0], j, x);
      StillWaits(p, Apply(p, s, es[0]), es[1..], j, x);
    }
  }
}
