/** The iterator works only as much as it is given to do: it wakes at most once for every
    push, and does not spin. */
module Wakeups {
  import opened Bags
  import opened Sums
  import opened Iterator
  import opened Safety
  import opened Progress

  function Wakes(es: seq<Event>): nat {
    if es == [] then 0 else (if es[0].Wake? then 1 else 0) + Wakes(es[1..])
  }

  function Signals(es: seq<Event>): nat {
    if es == [] then 0 else (if es[0].Signal? then 1 else 0) + Signals(es[1..])
  }

  function Inserts(es: seq<Event>): nat {
    if es == [] then 0 else (if es[0].Insert? then 1 else 0) + Inserts(es[1..])
  }

  // ---------- Tokens ----------

  /** A signal adds one token unless the buffer is full, waking up takes one, and nothing
      else touches them. */
  lemma {:induction false} TokensStep(p: Setup, s: State, e: Event)
    requires Shaped(p, s) && Enabled(p, s, e)
    ensures var t := Apply(p, s, e);
            && (e.Signal? ==> t.tokens == if s.tokens < p.capacity then s.tokens + 1 else s.tokens)
            && (e.Wake? ==> t.tokens == s.tokens - 1)
            && (!e.Signal? && !e.Wake? ==> t.tokens == s.tokens)
  {
  }

  /** No wake-up without a signal of its own: those in the buffer and those sent meanwhile
      are enough for all wake-ups and what is left in the buffer. */
  lemma {:induction false} WakesAreSignalled(p: Setup, s: State, es: seq<Event>)
    requires Shaped(p, s) && Run(p, s, es)
    ensures Wakes(es) + Final(p, s, es).tokens <= s.tokens + Signals(es)
    decreases |es|
  {
    if es != [] {
      TokensStep(p, s, es[0]);
      WakesAreSignalled(p, Apply(p, s, es[0]), es[1..]);
    }
  }

  /** Producers between insert and signal. */
  function AboutToSignal(locks: seq<Lock>): nat {
    if locks == [] then 0 else (if locks[0] == HasInserted then 1 else 0) + AboutToSignal(locks[1..])
  }

  lemma {:induction false} AboutToSignalUpdate(locks: seq<Lock>, i: nat, lock: Lock)
    requires i < |locks|
    ensures AboutToSignal(locks[i := lock]) + (if locks[i] == HasInserted then 1 else 0)
         == AboutToSignal(locks) + (if lock == HasInserted then 1 else 0)
  {
    if i == 0 {
      assert locks[i := lock][1..] == locks[1..];
    } else {
      assert locks[i := lock][1..] == locks[1..][i - 1 := lock];
      AboutToSignalUpdate(locks[1..], i - 1, lock);
    }
  }

  lemma {:induction false} SignalStep(p: Setup, s: State, e: Event)
    requires Shaped(p, s) && Enabled(p, s, e)
    ensures AboutToSignal(Apply(p, s, e).locks) + (if e.Signal? then 1 else 0)
         == AboutToSignal(s.locks) + (if e.Insert? then 1 else 0)
  {
    if e.Insert? {
      AboutToSignalUpdate(s.locks, e.i, HasInserted);
    } else if e.Signal? {
      AboutToSignalUpdate(s.locks, e.i, HasSignalled);
    } else if e.Unlock? {
      AboutToSignalUpdate(s.locks, e.i, Unlocked);
    } else {
      assert Apply(p, s, e).locks == s.locks;
    }
  }

  /** Every push signals once. */
  lemma {:induction false} PushesSignalOnce(p: Setup, s: State, es: seq<Event>)
    requires Shaped(p, s) && Run(p, s, es)
    ensures Signals(es) + AboutToSignal(Final(p, s, es).locks) == AboutToSignal(s.locks) + Inserts(es)
    decreases |es|
  {
    if es != [] {
      SignalStep(p, s, es[0]);
      PushesSignalOnce(p, Apply(p, s, es[0]), es[1..]);
    }
  }

  /** From the start, n pushes cause at most n wake-ups. */
  lemma {:induction false} WakesArePushes(p: Setup, es: seq<Event>)
    requires Shaped(p, InitialState(p)) && Run(p, InitialState(p), es)
    ensures Wakes(es) + Final(p, InitialState(p), es).tokens <= Inserts(es)
  {
    WakesAreSignalled(p, InitialState(p), es);
    PushesSignalOnce(p, InitialState(p), es);
    NobodySignals(InitialState(p).locks);
  }

  lemma {:induction false} NobodySignals(locks: seq<Lock>)
    requires forall i :: 0 <= i < |locks| ==> locks[i] == Unlocked
    ensures AboutToSignal(locks) == 0
  {
    if locks != [] {
      NobodySignals(locks[1..]);
    }
  }

  // ---------- No busy waiting ----------

  /** The steps the iterator has left from here until it sleeps. */
  ghost function ToSleep(p: Setup, s: State): nat
    requires Shaped(p, s)
  {
    match s.place
    case AtTop => ReadBound(p) + 2
    case Delivering(_, _) => ReadBound(p) + 2
    case Sleeping => 0
    case Stopped => 0
    case Panicked => 0
    case _ => ReadRank(p, s) + 1
  }

  /** Each step brings sleep closer, except that a pop and a wake-up give more to do. */
  lemma {:induction false} StepsTowardsSleep(p: Setup, s: State, e: Event)
    requires Sane(p) && Inv(p, s) && !s.cancelled && Enabled(p, s, e)
    ensures ToSleep(p, Apply(p, s, e)) + (if ByIterator(e) then 1 else 0)
         <= ToSleep(p, s) + (if e.Pop? then ReadBound(p) + 2 else 0) + (if e.Wake? then ReadBound(p) + 3 else 0)
    ensures Inv(p, Apply(p, s, e))
  {
    InvKept(p, s, e);
    RankBounded(p, Apply(p, s, e));
    if !ByIterator(e) {
      OthersDoNotDelay(p, s, e);
    } else if InRead(s) && !e.Pop? && !e.GiveUp? {
      ReadStepsLowerRank(p, s, e);
    }
  }

  /** The iterator takes a bounded number of steps for each request it pops and for each
      wake-up. So without pushes, and with the queues empty and the buffer too, it comes to
      rest; and over a run its work is proportional to what was pushed. */
  lemma {:induction false} NoBusyWaiting(p: Setup, s: State, es: seq<Event>)
    requires Sane(p) && Inv(p, s) && !s.cancelled && Run(p, s, es) && !Final(p, s, es).cancelled
    ensures IteratorSteps(es) + ToSleep(p, Final(p, s, es))
         <= ToSleep(p, s) + Work(ReadBound(p), Pops(es), Wakes(es))
    decreases |es|
  {
    if es != [] {
      var t := Apply(p, s, es[0]);
      StaysUncancelled(p, t, es[1..]);
      StepsTowardsSleep(p, s, es[0]);
      NoBusyWaiting(p, t, es[1..]);
      WorkStep(ReadBound(p), es[0], Pops(es[1..]), Wakes(es[1..]));
    }
  }

  /** The steps for so many pops and wake-ups. */
  function Work(read: nat, pops: nat, wakes: nat): nat {
    Times(pops, read + 2) + Times(wakes, read + 3)
  }

  lemma {:induction false} WorkStep(read: nat, e: Event, pops: nat, wakes: nat)
    ensures Work(read, pops + (if e.Pop? then 1 else 0), wakes + (if e.Wake? then 1 else 0))
         == Work(read, pops, wakes) + (if e.Pop? then read + 2 else 0) + (if e.Wake? then read + 3 else 0)
  {
  }

  lemma {:induction false} WorkIsBounded(read: nat, pops: nat, wakes: nat, n: nat)
    requires pops <= n && wakes <= n
    ensures Work(read, pops, wakes) <= n * (read + 2) + n * (read + 3)
  {
    TimesMonotone(pops, n, read + 2);
    TimesMonotone(wakes, n, read + 3);
    TimesIsProduct(n, read + 2);
    TimesIsProduct(n, read + 3);
  }

  /** A run ends cancelled exactly if it began so or was cancelled on the way. */
  lemma {:induction false} CancelledIff(p: Setup, s: State, es: seq<Event>)
    requires Shaped(p, s) && Run(p, s, es)
    ensures Final(p, s, es).cancelled <==> s.cancelled || Cancel in es
    decreases |es|
  {
    if es != [] {
      CancelledIff(p, Apply(p, s, es[0]), es[1..]);
      assert es == [es[0]] + es[1..];
    }
  }

  lemma {:induction false} StaysUncancelled(p: Setup, s: State, es: seq<Event>)
    requires Shaped(p, s) && Run(p, s, es) && !Final(p, s, es).cancelled
    ensures !s.cancelled
  {
    CancelledIff(p, s, es);
  }

  /** Every pop takes something that was pushed. */
  lemma {:induction false} PopsAreInserts(p: Setup, s: State, es: seq<Event>)
    requires Shaped(p, s) && Run(p, s, es)
    ensures Pops(es) + |Total(Final(p, s, es).queues)| == |Total(s.queues)| + Inserts(es)
    decreases |es|
  {
    if es != [] {
      TotalStep(p, s, es[0]);
      PopsAreInserts(p, Apply(p, s, es[0]), es[1..]);
    }
  }

  lemma {:induction false} TotalStep(p: Setup, s: State, e: Event)
    requires Shaped(p, s) && Enabled(p, s, e)
    ensures |Total(Apply(p, s, e).queues)| + (if e.Pop? then 1 else 0)
         == |Total(s.queues)| + (if e.Insert? then 1 else 0)
  {
    if e.Insert? {
      TotalUpdate(s.queues, e.i, s.queues[e.i] + multiset{e.r});
    } else {
      PopsLowerTotal(p, s, e);
    }
  }

  lemma {:induction false} TimesMonotone(a: nat, b: nat, x: nat)
    requires a <= b
    ensures Times(a, x) <= Times(b, x)
  {
    if a < b {
      TimesMonotone(a, b - 1, x);
    }
  }

  /** From the start and before cancellation: after n pushes the iterator has taken at most
      (R + 2) + n * (R + 2) + n * (R + 3) steps, R bounding one read. */
  lemma {:induction false} WorkIsProportional(p: Setup, es: seq<Event>)
    requires ValidSetup(p) && Shaped(p, InitialState(p)) && Run(p, InitialState(p), es)
    requires !Final(p, InitialState(p), es).cancelled
    ensures var n, r := Inserts(es), ReadBound(p);
            IteratorSteps(es) <= (r + 2) + n * (r + 2) + n * (r + 3)
  {
    ValidSetupIsSane(p);
    WorkFromStart(p, es);
    WorkIsBounded(ReadBound(p), Pops(es), Wakes(es), Inserts(es));
  }

  lemma {:induction false} WorkFromStart(p: Setup, es: seq<Event>)
    requires Sane(p) && Shaped(p, InitialState(p)) && Run(p, InitialState(p), es)
    requires !Final(p, InitialState(p), es).cancelled
    ensures Pops(es) <= Inserts(es) && Wakes(es) <= Inserts(es)
    ensures IteratorSteps(es) <= ReadBound(p) + 2 + Work(ReadBound(p), Pops(es), Wakes(es))
  {
    InvHoldsInitially(p);
    NoBusyWaiting(p, InitialState(p), es);
    WakesArePushes(p, es);
    PopsAreInserts(p, InitialState(p), es);
    TotalEmpty(InitialState(p).queues);
  }

  // ---------- A cancelled iterator drains the queues ----------

  /** Whatever is queued will still be looked at in the pass under way. */
  ghost predicate StillDraining(p: Setup, s: State)
    requires Shaped(p, s)
  {
    forall i: nat :: i < Count(p) && s.queues[i] != multiset{} ==>
                       (InRead(s) || s.place.Delivering?) && StillToObserve(s, i)
  }

  lemma {:induction false} DrainingKept(p: Setup, s: State, e: Event)
    requires Sane(p) && Inv(p, s) && Enabled(p, s, e) && !e.Insert? && StillDraining(p, s)
    ensures StillDraining(p, Apply(p, s, e))
  {
    var t := Apply(p, s, e);
    forall i: nat | i < Count(p) && t.queues[i] != multiset{}
      ensures (InRead(t) || t.place.Delivering?) && StillToObserve(t, i)
    {
      if InRead(s) && !e.Pop? {
        StillFound(p, s, e, i);
      }
    }
  }

  /** Once the reader has begun on what is queued, a cancelled iterator reads on until the
      queues are empty before it stops: with no further pushes, nothing is left behind. */
  lemma {:induction false} StopsDrained(p: Setup, s: State, es: seq<Event>)
    requires Sane(p) && Inv(p, s) && StillDraining(p, s) && Run(p, s, es) && NoInserts(es)
    requires Final(p, s, es).place.Stopped? || Final(p, s, es).place.Sleeping?
    ensures forall i :: 0 <= i < Count(p) ==> Final(p, s, es).queues[i] == multiset{}
    decreases |es|
  {
    if es != [] {
      InvKept(p, s, es[0]);
      DrainingKept(p, s, es[0]);
      StopsDrained(p, Apply(p, s, es[0]), es[1..]);
    }
  }
}
