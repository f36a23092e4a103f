/** Bounded waiting under the round-robin reader. */
module Starvation {
  import opened Types
  import opened RoundRobin
  import opened Waiting
  import opened Iterator
  import opened Safety
  import opened Bags

  function Sends(es: seq<Event>): nat {
    if es == [] then 0 else (if es[0].Send? then 1 else 0) + Sends(es[1..])
  }

  /** The requests without bindings that queues other than `j` sent: they go free. */
  function FreeSends(es: seq<Event>, j: nat): nat {
    if es == [] then 0
    else (if es[0].Send? then 1 - Charge(es[0].i, es[0].r, j) else 0) + FreeSends(es[1..], j)
  }

  /** What sending `r` from queue `i` takes off the wait of queue `j`. */
  function Charge(i: nat, r: Request, j: nat): (c: nat)
    ensures c <= 1
  {
    if i == j || |r.bindings| > 0 then 1 else 0
  }

  // ---------- The queue-level bound ----------

  /** How many requests may still be sent before one of queue `j` is popped, not
      counting one of `j` in flight nor those that go free. */
  ghost function Before(p: Setup, s: State, j: nat): int
    requires Shaped(p, s) && j < Count(p)
  {
    match s.place
    case Delivering(i, r) => (if i == j then 0 else Charge(i, r, j)) + Wait(p.max, s.read, j)
    case Scanning(k) => if k <= j then Wait(p.max, s.read, j) else OtherQuotas(p.max, j)
    case Choosing => Wait(p.max, s.read, j)
    case Popping(_) => Wait(p.max, s.read, j)
    case _ => OtherQuotas(p.max, j)
  }

  ghost predicate RoundRobinState(p: Setup, s: State) {
    Sane(p) && Inv(p, s) && p.algorithm.RoundRobinReads?
  }

  lemma {:induction false} StateKept(p: Setup, s: State, e: Event)
    requires RoundRobinState(p, s) && Enabled(p, s, e)
    ensures RoundRobinState(p, Apply(p, s, e))
  {
    InvKept(p, s, e);
  }

  lemma {:induction false} BeforeIsBounded(p: Setup, s: State, j: nat)
    requires RoundRobinState(p, s) && j < Count(p)
    ensures 0 <= Before(p, s, j) <= OtherQuotas(p.max, j)
  {
    WaitIsBounded(p.max, s.read, j);
    if s.place.Delivering? && s.place.from != j && |s.place.r.bindings| > 0 {
      WaitAfterServe(p.max, s.read, s.place.from, j);
    }
  }

  /** While queue `j` is not empty, no step other than popping it raises the bound,
      and sending a request with bindings of another queue lowers it. */
  lemma {:induction false} StepsLowerBefore(p: Setup, s: State, e: Event, j: nat)
    requires RoundRobinState(p, s) && j < Count(p) && s.queues[j] != multiset{}
    requires Enabled(p, s, e) && !e.Discard? && !(e.Pop? && e.i == j)
    ensures Before(p, Apply(p, s, e), j) + (if e.Send? && e.i != j then Charge(e.i, e.r, j) else 0) <= Before(p, s, j)
  {
    if e.Start? || e.Choose? || e.Miss? || e.Pop? {
      CountingSteps(p, s, e, j);
    } else if ByIterator(e) {
      WalkingSteps(p, s, e, j);
    }
  }

  /** The iterator's steps that leave the counters alone. */
  lemma {:induction false} WalkingSteps(p: Setup, s: State, e: Event, j: nat)
    requires RoundRobinState(p, s) && j < Count(p) && s.queues[j] != multiset{}
    requires Enabled(p, s, e) && ByIterator(e)
    requires e.Close? || e.Observe? || e.GiveUp? || e.Send? || e.Wake? || e.Abort?
    ensures Before(p, Apply(p, s, e), j) + (if e.Send? && e.i != j then Charge(e.i, e.r, j) else 0) <= Before(p, s, j)
  {
    WaitIsBounded(p.max, s.read, j);
  }

  /** The steps that change the counters. */
  lemma {:induction false} CountingSteps(p: Setup, s: State, e: Event, j: nat)
    requires RoundRobinState(p, s) && j < Count(p) && s.queues[j] != multiset{}
    requires Enabled(p, s, e) && !(e.Pop? && e.i == j)
    requires e.Start? || e.Choose? || e.Miss? || e.Pop?
    ensures Before(p, Apply(p, s, e), j) <= Before(p, s, j)
  {
    match e
    case Start => WaitIsBounded(p.max, Zeros(Count(p)), j);
    case Choose => ChoiceKeepsBefore(p, s, j);
    case Pop(i, r) => PopLowersBefore(p, s, i, r, j);
    case Miss(i) => SkipKeepsWait(p.max, s.read, i, j);
  }

  lemma {:induction false} ChoiceKeepsBefore(p: Setup, s: State, j: nat)
    requires RoundRobinState(p, s) && j < Count(p) && Enabled(p, s, Choose)
    ensures Before(p, Apply(p, s, Choose), j) <= Before(p, s, j)
  {
    NewRoundKeepsWait(p.max, s.read, j);
    ControlStep(p, s, Choose);
  }

  lemma {:induction false} PopLowersBefore(p: Setup, s: State, i: nat, r: Request, j: nat)
    requires RoundRobinState(p, s) && j < Count(p) && i != j && Enabled(p, s, Pop(i, r))
    ensures Before(p, Apply(p, s, Pop(i, r)), j) <= Before(p, s, j)
  {
    ServeShortensWait(p.max, s.read, i, j, |r.bindings|);
  }

  /** How many requests may still be sent before the next one of queue `j`. */
  ghost function BeforeNext(p: Setup, s: State, j: nat): int
    requires Shaped(p, s) && j < Count(p)
  {
    if FlyingFrom(s, j) then 0 else Before(p, s, j)
  }

  ghost predicate FlyingFrom(s: State, j: nat) {
    s.place.Delivering? && s.place.from == j
  }

  /** Queue `j` has a request to send. */
  ghost predicate Pending(s: State, j: nat)
    requires j < |s.queues|
  {
    s.queues[j] != multiset{} || FlyingFrom(s, j)
  }

  /** Until a request of `j` is sent, each request sent lowers the bound or goes free. */
  lemma {:induction false} StepsLowerBeforeNext(p: Setup, s: State, e: Event, j: nat)
    requires RoundRobinState(p, s) && j < Count(p) && Pending(s, j)
    requires Enabled(p, s, e) && !e.Discard? && (e.Send? ==> e.i != j)
    ensures var t := Apply(p, s, e);
            && RoundRobinState(p, t) && Pending(t, j)
            && BeforeNext(p, t, j) + (if e.Send? then Charge(e.i, e.r, j) else 0) <= BeforeNext(p, s, j)
  {
    StateKept(p, s, e);
    BeforeIsBounded(p, s, j);
    if !FlyingFrom(s, j) && !(e.Pop? && e.i == j) {
      StepsLowerBefore(p, s, e, j);
    }
  }

  ghost predicate NoDiscards(es: seq<Event>) {
    forall k :: 0 <= k < |es| ==> !es[k].Discard?
  }

  ghost predicate NoneSentFrom(es: seq<Event>, j: nat) {
    forall k :: 0 <= k < |es| && es[k].Send? ==> es[k].i != j
  }

  /** No starvation: once queue `j` is not empty, and whatever is pushed meanwhile, at
      most one round of the other queues is sent before the next request of `j`, plus
      the requests without bindings. */
  lemma {:induction false} NoStarvation(p: Setup, s: State, es: seq<Event>, j: nat)
    requires RoundRobinState(p, s) && j < Count(p) && Pending(s, j)
    requires Run(p, s, es) && NoDiscards(es) && NoneSentFrom(es, j)
    ensures Sends(es) <= BeforeNext(p, s, j) + FreeSends(es, j)
    ensures BeforeNext(p, s, j) <= OtherQuotas(p.max, j)
    decreases |es|
  {
    BeforeIsBounded(p, s, j);
    if es != [] {
      StepsLowerBeforeNext(p, s, es[0], j);
      NoStarvation(p, Apply(p, s, es[0]), es[1..], j);
    }
  }

  // ---------- Over whole runs ----------

  lemma {:induction false} ReachableIsRoundRobin(p: Setup, s: State)
    requires ValidSetup(p) && p.algorithm.RoundRobinReads? && Reachable(p, s)
    ensures RoundRobinState(p, s)
  {
    ValidSetupIsSane(p);
    ReachableStatesAreSafe(p, s);
  }

  /** For every valid configuration and every reachable state: what delays a queue by
      more than one round is exactly what goes free. */
  lemma {:induction false} OnlyEmptyRequestsDelay(p: Setup, s: State, es: seq<Event>, j: nat)
    requires ValidSetup(p) && p.algorithm.RoundRobinReads? && Reachable(p, s)
    requires Shaped(p, s) && j < Count(p) && Pending(s, j)
    requires Run(p, s, es) && NoDiscards(es) && NoneSentFrom(es, j)
    ensures Sends(es) <= OtherQuotas(p.max, j) + FreeSends(es, j)
  {
    ReachableIsRoundRobin(p, s);
    NoStarvation(p, s, es, j);
  }

  /** Every request carries at least one binding. */
  ghost predicate Sized(p: Setup, s: State)
    requires Shaped(p, s)
  {
    && (forall i: nat, r :: i < Count(p) && r in s.queues[i] ==> |r.bindings| > 0)
    && (s.place.Delivering? ==> |s.place.r.bindings| > 0)
  }

  ghost predicate SizedInserts(es: seq<Event>) {
    forall k :: 0 <= k < |es| && es[k].Insert? ==> |es[k].r.bindings| > 0
  }

  lemma SizedKept(p: Setup, s: State, e: Event)
    requires Shaped(p, s) && Sized(p, s) && Enabled(p, s, e) && (e.Insert? ==> |e.r.bindings| > 0)
    ensures Sized(p, Apply(p, s, e))
  {
  }

  lemma {:induction false} SizedKeptByRun(p: Setup, s: State, es: seq<Event>)
    requires Shaped(p, s) && Sized(p, s) && Run(p, s, es) && SizedInserts(es)
    ensures Sized(p, Final(p, s, es))
    decreases |es|
  {
    if es != [] {
      SizedKept(p, s, es[0]);
      SizedKeptByRun(p, Apply(p, s, es[0]), es[1..]);
    }
  }

  /** If every request has a binding, none goes free. */
  lemma {:induction false} NothingGoesFree(p: Setup, s: State, es: seq<Event>, j: nat)
    requires Shaped(p, s) && Sized(p, s) && Run(p, s, es) && SizedInserts(es)
    ensures FreeSends(es, j) == 0
    decreases |es|
  {
    if es != [] {
      SizedKept(p, s, es[0]);
      NothingGoesFree(p, Apply(p, s, es[0]), es[1..], j);
    }
  }

  /** The events `past` lead from the start to `s`, and push only requests with a
      binding. */
  ghost predicate Reached(p: Setup, past: seq<Event>, s: State) {
    && Shaped(p, InitialState(p)) && Run(p, InitialState(p), past) && SizedInserts(past)
    && Final(p, InitialState(p), past) == s
  }

  lemma {:induction false} ReachedIsSized(p: Setup, past: seq<Event>, s: State)
    requires Reached(p, past, s)
    ensures Reachable(p, s) && Shaped(p, s) && Sized(p, s)
  {
    SizedKeptByRun(p, InitialState(p), past);
  }

  /** No starvation, for every valid configuration and every history in which each
      request carries a binding. */
  lemma {:induction false} NoQueueStarves(p: Setup, past: seq<Event>, s: State, es: seq<Event>, j: nat)
    requires ValidSetup(p) && p.algorithm.RoundRobinReads? && Reached(p, past, s)
    requires Shaped(p, s) && j < Count(p) && Pending(s, j)
    requires Run(p, s, es) && SizedInserts(es) && NoDiscards(es) && NoneSentFrom(es, j)
    ensures Sends(es) <= OtherQuotas(p.max, j)
  {
    ReachedIsSized(p, past, s);
    OnlyEmptyRequestsDelay(p, s, es, j);
    NothingGoesFree(p, s, es, j);
  }

  // ---------- Why a request must carry a binding ----------

  lemma {:induction false} SendsMore(e: Event, es: seq<Event>)
    ensures Sends([e] + es) == Sends(es) + if e.Send? then 1 else 0
  {
    assert ([e] + es)[1..] == es;
  }

  /** A request without bindings leaves the reader where it was ... */
  lemma {:induction false} ServeEmptyRequest(p: Setup, s: State, r: Request)
    requires Sane(p) && Shaped(p, s) && p.algorithm.RoundRobinReads?
    requires s.place == Scanning(0) && s.locks[0] == Unlocked && s.read[0] < p.max[0]
    requires Oldest(s.queues[0], r) && |r.bindings| == 0
    ensures var t := s.(queues := s.queues[0 := s.queues[0] - multiset{r}]);
            && Enabled(p, s, Observe) && Apply(p, s, Observe) == s.(place := Choosing)
            && Apply(p, s.(place := Choosing), Choose) == s.(place := Popping(0))
            && Enabled(p, s.(place := Popping(0)), Pop(0, r))
            && Apply(p, s.(place := Popping(0)), Pop(0, r)) == t.(place := Delivering(0, r))
            && Apply(p, t.(place := Delivering(0, r)), Send(0, r)) == t
  {
    FirstTrueIs(QuotaLeft(p.max, s.read), 0);
    assert Charged(s.read, 0, 0) == s.read;
  }

  /** ... so any number of them in the first queue is sent before anything of another. */
  lemma {:induction false} EmptyRequestsGoFirst(p: Setup, s: State) returns (es: seq<Event>)
    requires Sane(p) && Shaped(p, s) && p.algorithm.RoundRobinReads?
    requires s.place == Scanning(0) && s.locks[0] == Unlocked && s.read[0] < p.max[0]
    requires forall r :: r in s.queues[0] ==> |r.bindings| == 0
    ensures Run(p, s, es) && Sends(es) == |s.queues[0]|
    ensures forall k :: 0 <= k < |es| ==> !es[k].Insert? && !es[k].Discard? && (es[k].Send? ==> es[k].i == 0)
    decreases |s.queues[0]|
  {
    if s.queues[0] == multiset{} {
      es := [];
    } else {
      var r := OldestExists(s.queues[0]);
      var t := s.(queues := s.queues[0 := s.queues[0] - multiset{r}]);
      var rest := EmptyRequestsGoFirst(p, t);
      ServeEmptyThen(p, s, r, rest);
      es := [Observe] + ([Choose] + ([Pop(0, r)] + ([Send(0, r)] + rest)));
    }
  }

  lemma {:induction false} ServeEmptyThen(p: Setup, s: State, r: Request, rest: seq<Event>)
    requires Sane(p) && Shaped(p, s) && p.algorithm.RoundRobinReads?
    requires s.place == Scanning(0) && s.locks[0] == Unlocked && s.read[0] < p.max[0]
    requires Oldest(s.queues[0], r) && |r.bindings| == 0
    requires Run(p, s.(queues := s.queues[0 := s.queues[0] - multiset{r}]), rest)
    ensures var es := [Observe] + ([Choose] + ([Pop(0, r)] + ([Send(0, r)] + rest)));
            Run(p, s, es) && Sends(es) == Sends(rest) + 1
  {
    var t := s.(queues := s.queues[0 := s.queues[0] - multiset{r}]);
    ServeEmptyRequest(p, s, r);
    var sent := [Send(0, r)] + rest;
    var popped := [Pop(0, r)] + sent;
    RunMore(p, t.(place := Delivering(0, r)), Send(0, r), rest);
    RunMore(p, s.(place := Popping(0)), Pop(0, r), sent);
    RunMore(p, s.(place := Choosing), Choose, popped);
    RunMore(p, s, Observe, [Choose] + popped);
    SendsMore(Send(0, r), rest);
    SendsMore(Pop(0, r), sent);
    SendsMore(Choose, popped);
    SendsMore(Observe, [Choose] + popped);
  }

  /** A push changes one queue and the tokens. */
  ghost predicate AfterPushes(s: State, i: nat, t: State, n: nat)
    requires i < |s.queues|
  {
    && |t.queues| == |s.queues| && t == s.(queues := s.queues[i := t.queues[i]], tokens := t.tokens)
    && |t.queues[i]| == |s.queues[i]| + n
  }

  lemma {:induction false} PushOnce(p: Setup, s: State, i: nat, r: Request) returns (es: seq<Event>)
    requires Shaped(p, s) && i < Count(p) && s.locks[i] == Unlocked && Admits(p, i, r)
    ensures Run(p, s, es) && AfterPushes(s, i, Final(p, s, es), 1)
    ensures Final(p, s, es).queues[i] == s.queues[i] + multiset{r}
  {
    var s1 := Apply(p, s, Insert(i, r));
    var s2 := Apply(p, s1, Signal(i));
    assert Apply(p, s2, Unlock(i)).locks == s.locks;
    RunOne(p, s2, Unlock(i));
    RunMore(p, s1, Signal(i), [Unlock(i)]);
    RunMore(p, s, Insert(i, r), [Signal(i)] + [Unlock(i)]);
    es := [Insert(i, r)] + ([Signal(i)] + [Unlock(i)]);
  }

  lemma {:induction false} PushMany(p: Setup, s: State, i: nat, r: Request, n: nat) returns (es: seq<Event>)
    requires Shaped(p, s) && i < Count(p) && s.locks[i] == Unlocked && Admits(p, i, r)
    ensures Run(p, s, es) && AfterPushes(s, i, Final(p, s, es), n)
    ensures forall y :: y in Final(p, s, es).queues[i] ==> y in s.queues[i] || y == r
    decreases n
  {
    if n == 0 {
      es := [];
    } else {
      var first := PushOnce(p, s, i, r);
      var rest := PushMany(p, Final(p, s, first), i, r, n - 1);
      RunAppend(p, s, first, rest);
      es := first + rest;
    }
  }

  /** So without bindings there is no bound: for any number `n` there is a history after
      which `x` waits in its queue while `n` requests of the first queue are sent. */
  lemma {:induction false} EmptyRequestsStarve(p: Setup, r: Request, j: nat, x: Request, n: nat)
    returns (s: State, es: seq<Event>)
    requires ValidSetup(p) && p.algorithm.RoundRobinReads? && 0 < j < Count(p)
    requires Admits(p, 0, r) && |r.bindings| == 0 && Admits(p, j, x)
    ensures Reachable(p, s) && Shaped(p, s) && x in s.queues[j]
    ensures Run(p, s, es) && NoDiscards(es) && NoneSentFrom(es, j) && Sends(es) == n
  {
    ValidSetupIsSane(p);
    var past;
    past, s := EmptyRequestsPushed(p, r, j, x, n);
    es := EmptyRequestsGoFirst(p, s);
  }

  lemma {:induction false} EmptyRequestsPushed(p: Setup, r: Request, j: nat, x: Request, n: nat)
    returns (past: seq<Event>, s: State)
    requires Sane(p) && Shaped(p, InitialState(p)) && p.algorithm.RoundRobinReads? && 0 < j < Count(p)
    requires Admits(p, 0, r) && |r.bindings| == 0 && Admits(p, j, x)
    ensures Run(p, InitialState(p), past) && Final(p, InitialState(p), past) == s && Shaped(p, s)
    ensures x in s.queues[j] && |s.queues[0]| == n && (forall y :: y in s.queues[0] ==> y == r)
    ensures s.place == Scanning(0) && s.locks[0] == Unlocked && s.read == Zeros(Count(p))
  {
    var start := InitialState(p);
    var first := PushOnce(p, start, j, x);
    var more := PushMany(p, Final(p, start, first), 0, r, n);
    RunAppend(p, start, first, more);
    var queued := Final(p, start, first + more);
    s := Apply(p, queued, Start);
    RunOne(p, queued, Start);
    RunAppend(p, start, first + more, [Start]);
    past := first + more + [Start];
  }
}
