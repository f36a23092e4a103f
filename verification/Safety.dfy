/** What every reachable state of the iterator satisfies. */
module Safety {
  import opened Types
  import opened Int64
  import opened Sums
  import opened Bags
  import opened Config
  import opened RoundRobin
  import opened Cursor
  import opened Iterator

  /** The request was meant for queue `i` and is not too large for it. */
  ghost predicate Fits(p: Setup, i: nat, r: Request) {
    i < Count(p) && r.schedulerName == p.configs[i].schedulerName && |r.bindings| <= p.configs[i].maxSize
  }

  /** What the proofs need of a setup. */
  ghost predicate Sane(p: Setup) {
    && Count(p) > 0 && |p.max| == Count(p) && p.capacity > 0
    && PositiveMax(p.max)
    && (forall i :: 0 <= i < Count(p) ==> p.configs[i].maxSize > 0)
    && (forall i, r :: Admits(p, i, r) ==> Fits(p, i, r))
    && (p.algorithm.UniformReads? ==>
          forall rest: set<nat> :: rest != {} && (forall i :: i in rest ==> i < Count(p)) ==> !p.fails(rest))
  }

  lemma {:induction false} ValidSetupIsSane(p: Setup)
    requires ValidSetup(p)
    ensures Sane(p) && Shaped(p, InitialState(p))
  {
    forall i: nat, r | Admits(p, i, r) ensures Fits(p, i, r) {
      AdmissionIsExact(p.configs, p.routes, r);
    }
    if p.algorithm.UniformReads? {
      forall rest: set<nat> | rest != {} && (forall i :: i in rest ==> i < Count(p)) ensures !p.fails(rest) {
        DrawSucceeds(Weights(p.configs), rest);
      }
    }
  }

  /** If the weights add up to less than 2^63, no draw panics. */
  lemma {:induction false} DrawSucceeds(weights: seq<nat>, rest: set<nat>)
    requires Sum(weights) < TWO_63 && (forall i :: 0 <= i < |weights| ==> weights[i] > 0)
    requires rest != {} && forall i :: i in rest ==> i < |weights|
    ensures Wrap(WeightIn(weights, rest)) > 0
  {
    WeightInIsBounded(weights, rest);
    var i :| i in rest;
    WeightInIsPositive(weights, rest, i);
    WrapIsExactIff(WeightIn(weights, rest));
  }

  lemma {:induction false} WeightInIsBounded(weights: seq<nat>, rest: set<nat>)
    ensures WeightIn(weights, rest) <= Sum(weights)
  {
    if weights != [] {
      var n := |weights| - 1;
      WeightInIsBounded(weights[..n], rest);
      SumSplit(weights, n);
      assert weights[..n + 1] == weights;
    }
  }

  lemma {:induction false} WeightInIsPositive(weights: seq<nat>, rest: set<nat>, i: nat)
    requires i in rest && i < |weights| && weights[i] > 0
    ensures WeightIn(weights, rest) > 0
  {
    var n := |weights| - 1;
    if i < n {
      WeightInIsPositive(weights[..n], rest, i);
    }
  }

  // ---------- Admission and overshoot ----------

  ghost predicate AllFit(p: Setup, s: State)
    requires Shaped(p, s)
  {
    && (forall i: nat, r :: i < Count(p) && r in s.queues[i] ==> Fits(p, i, r))
    && (s.place.Delivering? ==> Fits(p, s.place.from, s.place.r))
  }

  /** No counter is more than one request past its quota. */
  ghost predicate BoundedOvershoot(p: Setup, s: State)
    requires Shaped(p, s)
  {
    forall i :: 0 <= i < Count(p) ==> 0 <= s.read[i] < p.max[i] + p.configs[i].maxSize
  }

  // ---------- The cursor ----------

  ghost predicate CursorKept(p: Setup, s: State)
    requires Shaped(p, s)
  {
    && CursorOrder(p.max, s.read)
    && (s.place.Popping? ==> NextQueue(p.max, s.read) == s.place.i)
    && (s.place.Delivering? && p.algorithm.RoundRobinReads? ==>
          CursorAt(p.max, s.read, s.place.from) && s.read[s.place.from] >= |s.place.r.bindings|)
  }

  // ---------- Control ----------

  ghost predicate SomeQueued(s: State) {
    exists i :: 0 <= i < |s.queues| && s.queues[i] != multiset{}
  }

  ghost predicate ControlKept(p: Setup, s: State) {
    && !s.place.Panicked?
    && (s.place.Choosing? ==> SomeQueued(s))
    && (s.place.Stopped? ==> s.cancelled)
    && s.tokens <= p.capacity
    && match p.algorithm
       case RoundRobinReads => !s.place.Drawing?
       case UniformReads => !s.place.Scanning? && !s.place.Choosing? && !s.place.Popping?
  }

  // ---------- Wake-ups ----------

  /** Queue `i` is still to be looked at before the iterator goes to sleep. */
  ghost predicate StillToObserve(s: State, i: nat) {
    match s.place
    case Scanning(k) => k <= i
    case Drawing(rest) => i in rest
    case Sleeping => false
    case _ => true
  }

  /** Nothing is queued unseen: a non-empty queue is still to be looked at, or a
      wake-up is buffered, or its producer is about to signal. */
  ghost predicate NothingForgotten(p: Setup, s: State)
    requires Shaped(p, s)
  {
    forall i: nat :: i < Count(p) && s.queues[i] != multiset{} ==>
                       StillToObserve(s, i) || s.tokens > 0 || s.locks[i] == HasInserted
  }

  ghost predicate Inv(p: Setup, s: State) {
    && Shaped(p, s) && AllFit(p, s) && BoundedOvershoot(p, s) && CursorKept(p, s)
    && ControlKept(p, s) && NothingForgotten(p, s)
  }

  lemma InvHoldsInitially(p: Setup)
    requires Sane(p)
    ensures Inv(p, InitialState(p))
  {
  }

  lemma {:induction false} InvKept(p: Setup, s: State, e: Event)
    requires Sane(p) && Inv(p, s) && Enabled(p, s, e)
    ensures Inv(p, Apply(p, s, e))
  {
    AllFitKept(p, s, e);
    CountersKept(p, s, e);
    NothingForgottenKept(p, s, e);
    ControlStep(p, s, e);
  }

  lemma AllFitKept(p: Setup, s: State, e: Event)
    requires Sane(p) && Shaped(p, s) && AllFit(p, s) && Enabled(p, s, e)
    ensures AllFit(p, Apply(p, s, e))
  {
  }

  lemma {:induction false} CountersKept(p: Setup, s: State, e: Event)
    requires Sane(p) && Inv(p, s) && Enabled(p, s, e)
    ensures BoundedOvershoot(p, Apply(p, s, e)) && CursorKept(p, Apply(p, s, e))
  {
    if e.Pop? {
      PopKeepsCounters(p, s, e);
    } else if e.Miss? && s.place.Popping? {
      SkipRefines(p.max, s.read, e.i);
    }
  }

  lemma {:induction false} PopKeepsCounters(p: Setup, s: State, e: Event)
    requires Sane(p) && Inv(p, s) && Enabled(p, s, e) && e.Pop?
    ensures BoundedOvershoot(p, Apply(p, s, e)) && CursorKept(p, Apply(p, s, e))
  {
    if s.place.Popping? {
      ServeRefines(p.max, s.read, e.i, |e.r.bindings|);
    }
    assert Fits(p, e.i, e.r);
  }

  lemma {:induction false} ControlStep(p: Setup, s: State, e: Event)
    requires Sane(p) && Inv(p, s) && Enabled(p, s, e)
    ensures ControlKept(p, Apply(p, s, e))
  {
    if s.place.Choosing? {
      var i :| 0 <= i < |s.queues| && s.queues[i] != multiset{};
      assert Apply(p, s, e).place.Choosing? ==> Apply(p, s, e).queues[i] != multiset{};
    }
  }

  lemma {:induction false} NothingForgottenKept(p: Setup, s: State, e: Event)
    requires Sane(p) && Inv(p, s) && Enabled(p, s, e)
    ensures NothingForgotten(p, Apply(p, s, e))
  {
    var t := Apply(p, s, e);
    forall i: nat | i < Count(p) && t.queues[i] != multiset{}
      ensures StillToObserve(t, i) || t.tokens > 0 || t.locks[i] == HasInserted
    {
      NotForgotten(p, s, e, i);
    }
  }

  lemma NotForgotten(p: Setup, s: State, e: Event, i: nat)
    requires p.capacity > 0 && Shaped(p, s) && Enabled(p, s, e) && i < Count(p)
    requires s.queues[i] != multiset{} ==>
               StillToObserve(s, i) || s.tokens > 0 || s.locks[i] == HasInserted
    ensures var t := Apply(p, s, e);
            t.queues[i] != multiset{} ==>
              StillToObserve(t, i) || t.tokens > 0 || t.locks[i] == HasInserted
  {
    if ByIterator(e) {
      assert Apply(p, s, e).locks == s.locks;
    }
  }

  // ---------- Whole runs ----------

  lemma {:induction false} InvKeptByRun(p: Setup, s: State, es: seq<Event>)
    requires Sane(p) && Inv(p, s) && Run(p, s, es)
    ensures Inv(p, Final(p, s, es))
    decreases |es|
  {
    if es != [] {
      InvKept(p, s, es[0]);
      InvKeptByRun(p, Apply(p, s, es[0]), es[1..]);
    }
  }

  /** In every reachable state queued requests fit their queue, no counter is more
      than one request past its quota, the counters hide a cursor, and nothing has
      panicked. */
  lemma {:induction false} ReachableStatesAreSafe(p: Setup, s: State)
    requires ValidSetup(p) && Reachable(p, s)
    ensures Inv(p, s)
    ensures exists c :: CursorAt(p.max, s.read, c)
  {
    ValidSetupIsSane(p);
    var es :| Run(p, InitialState(p), es) && Final(p, InitialState(p), es) == s;
    InvHoldsInitially(p);
    InvKeptByRun(p, InitialState(p), es);
    CursorExists(p.max, s.read);
  }

  /** No lost wake-up: an iterator asleep with no token buffered and no producer
      between insert and signal has left every queue empty. */
  lemma {:induction false} NoLostWakeUp(p: Setup, s: State)
    requires ValidSetup(p) && Reachable(p, s)
    requires s.place == Sleeping && s.tokens == 0
    requires forall i :: 0 <= i < |s.locks| ==> s.locks[i] != HasInserted
    ensures forall i :: 0 <= i < |s.queues| ==> s.queues[i] == multiset{}
  {
    ReachableStatesAreSafe(p, s);
  }

  /** Each step of the round-robin reader is the step of the one-cursor machine. */
  lemma {:induction false} StepMovesCursor(p: Setup, s: State, e: Event)
    requires ValidSetup(p) && Reachable(p, s) && Shaped(p, s) && Enabled(p, s, e)
    requires p.algorithm.RoundRobinReads?
    ensures var at := Here(p.max, s.read);
            Here(p.max, Apply(p, s, e).read) ==
            match e
            case Pop(_, r) => assert at.queue < |p.max| by { ReachableStatesAreSafe(p, s); }
              ServeHere(p.max, at, |r.bindings|)
            case Miss(_) => SkipHere(at)
            case Choose => if at.queue == Count(p) then Position(0, 0) else at
            case Start => Position(0, 0)
            case _ => at
  {
    ReachableStatesAreSafe(p, s);
    ValidSetupIsSane(p);
    match e
    case Pop(i, r) => ServeRefines(p.max, s.read, i, |r.bindings|);
    case Miss(i) => SkipRefines(p.max, s.read, i);
    case Choose =>
      if NextQueue(p.max, s.read) < 0 {
        NewRoundRefines(p.max, s.read);
      }
    case Start => HereIs(p.max, Zeros(Count(p)), 0);
    case _ =>
  }

  // ---------- Exactly-once hand-off ----------

  ghost function InsertedIn(es: seq<Event>): multiset<Request> {
    if es == [] then multiset{}
    else (if es[0].Insert? then multiset{es[0].r} else multiset{}) + InsertedIn(es[1..])
  }

  ghost function SentIn(es: seq<Event>): multiset<Request> {
    if es == [] then multiset{}
    else (if es[0].Send? then multiset{es[0].r} else multiset{}) + SentIn(es[1..])
  }

  ghost function DiscardedIn(es: seq<Event>): multiset<Request> {
    if es == [] then multiset{}
    else (if es[0].Discard? then multiset{es[0].r} else multiset{}) + DiscardedIn(es[1..])
  }

  ghost function InFlight(s: State): multiset<Request> {
    if s.place.Delivering? then multiset{s.place.r} else multiset{}
  }

  /** What is queued or in flight. */
  ghost function Held(s: State): multiset<Request> {
    Total(s.queues) + InFlight(s)
  }

  lemma HeldCounts(s: State, x: Request)
    ensures Held(s)[x] == Holding(s, x)
  {
  }

  /** How often request `x` is queued or in flight. */
  ghost function Holding(s: State, x: Request): nat {
    Total(s.queues)[x] + if s.place.Delivering? && s.place.r == x then 1 else 0
  }

  lemma {:induction false} InsertCounts(queues: seq<multiset<Request>>, i: nat, r: Request, x: Request)
    requires i < |queues|
    ensures Total(queues[i := queues[i] + multiset{r}])[x] == Total(queues)[x] + multiset{r}[x]
  {
    TotalUpdate(queues, i, queues[i] + multiset{r});
  }

  lemma {:induction false} PopCounts(queues: seq<multiset<Request>>, i: nat, r: Request, x: Request)
    requires i < |queues| && r in queues[i]
    ensures Total(queues[i := queues[i] - multiset{r}])[x] + multiset{r}[x] == Total(queues)[x]
  {
    TotalUpdate(queues, i, queues[i] - multiset{r});
  }

  lemma {:induction false} InsertConserves(p: Setup, s: State, e: Event, x: Request)
    requires Shaped(p, s) && Enabled(p, s, e) && e.Insert?
    ensures Holding(s, x) + (if e.r == x then 1 else 0) == Holding(Apply(p, s, e), x)
  {
    InsertCounts(s.queues, e.i, e.r, x);
  }

  lemma {:induction false} PopConserves(p: Setup, s: State, e: Event, x: Request)
    requires Shaped(p, s) && Enabled(p, s, e) && e.Pop?
    ensures Holding(s, x) == Holding(Apply(p, s, e), x)
  {
    PopCounts(s.queues, e.i, e.r, x);
  }

  lemma {:induction false} OneStepConserves(p: Setup, s: State, e: Event, x: Request)
    requires Shaped(p, s) && Enabled(p, s, e)
    ensures Holding(s, x) + (if e.Insert? && e.r == x then 1 else 0)
         == Holding(Apply(p, s, e), x) + (if (e.Send? || e.Discard?) && e.r == x then 1 else 0)
  {
    if e.Insert? {
      InsertConserves(p, s, e, x);
    } else if e.Pop? {
      PopConserves(p, s, e, x);
    } else {
      OtherStepsConserve(p, s, e, x);
    }
  }

  lemma OtherStepsConserve(p: Setup, s: State, e: Event, x: Request)
    requires Shaped(p, s) && Enabled(p, s, e) && !e.Insert? && !e.Pop?
    ensures Apply(p, s, e).queues == s.queues
    ensures (s.place.Delivering? && s.place.r == x)
            <==> (Apply(p, s, e).place.Delivering? && Apply(p, s, e).place.r == x)
                 || ((e.Send? || e.Discard?) && e.r == x)
    ensures e.Send? || e.Discard? ==> !Apply(p, s, e).place.Delivering?
  {
  }

  lemma {:induction false} RunConserves(p: Setup, s: State, es: seq<Event>, x: Request)
    requires Shaped(p, s) && Run(p, s, es)
    ensures Holding(s, x) + InsertedIn(es)[x]
         == Holding(Final(p, s, es), x) + SentIn(es)[x] + DiscardedIn(es)[x]
    decreases |es|
  {
    if es != [] {
      OneStepConserves(p, s, es[0], x);
      RunConserves(p, Apply(p, s, es[0]), es[1..], x);
    }
  }

  /** Over any run, with either reader, what was queued or in flight and what was
      pushed is what is still queued, in flight, sent, or thrown away. */
  lemma {:induction false} ExactlyOnce(p: Setup, s: State, es: seq<Event>)
    requires Shaped(p, s) && Run(p, s, es)
    ensures Held(s) + InsertedIn(es) == Held(Final(p, s, es)) + SentIn(es) + DiscardedIn(es)
  {
    var t := Final(p, s, es);
    forall x ensures (Held(s) + InsertedIn(es))[x] == (Held(t) + SentIn(es) + DiscardedIn(es))[x] {
      RunConserves(p, s, es, x);
      HeldCounts(s, x);
      HeldCounts(t, x);
    }
  }

  /** Nothing is thrown away before the context is cancelled. */
  lemma {:induction false} NothingDiscardedBeforeCancel(p: Setup, s: State, es: seq<Event>)
    requires Shaped(p, s) && Run(p, s, es) && !Final(p, s, es).cancelled
    ensures !s.cancelled && DiscardedIn(es) == multiset{}
    decreases |es|
  {
    if es != [] {
      NothingDiscardedBeforeCancel(p, Apply(p, s, es[0]), es[1..]);
    }
  }

  lemma {:induction false} NothingHeldInitially(p: Setup)
    ensures Held(InitialState(p)) == multiset{}
  {
    TotalEmpty(InitialState(p).queues);
  }

  lemma Nothing(bag: multiset<Request>)
    ensures multiset{} + bag == bag == bag + multiset{}
  {
  }

  /** From the start and before cancellation, every pushed request is queued, in
      flight, or sent, each exactly once. */
  lemma {:induction false} PushedIsQueuedOrSent(p: Setup, es: seq<Event>)
    requires ValidSetup(p) && Shaped(p, InitialState(p)) && Run(p, InitialState(p), es)
    requires !Final(p, InitialState(p), es).cancelled
    ensures var s := Final(p, InitialState(p), es);
            InsertedIn(es) == Held(s) + SentIn(es)
  {
    NothingDiscardedBeforeCancel(p, InitialState(p), es);
    NothingHeldInitially(p);
    ExactlyOnce(p, InitialState(p), es);
    Nothing(InsertedIn(es));
    Nothing(Held(Final(p, InitialState(p), es)) + SentIn(es));
  }
}
