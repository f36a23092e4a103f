/** Reads end, and so does the iterator once it is cancelled. */
module Progress {
  import opened Types
  import opened Bags
  import opened Readers
  import opened Sums
  import opened RoundRobin
  import opened Iterator
  import opened Safety

  // ---------- The measure of a read ----------

  ghost predicate InRead(s: State) {
    s.place.Scanning? || s.place.Choosing? || s.place.Popping? || s.place.Drawing?
  }

  /** First whether no non-empty queue has quota left, then how many queues have. */
  ghost function Round(p: Setup, s: State): nat
    requires Shaped(p, s)
  {
    (if Stalled(p.max, s.read, NonEmpty(s.queues)) then Count(p) + 1 else 0) + QuotaCount(p.max, s.read)
  }

  /** How far the current call is from its pop. */
  ghost function Phase(p: Setup, s: State): nat
    requires Shaped(p, s)
  {
    match s.place
    case Scanning(k) => Count(p) - k + 2
    case Choosing => 1
    case _ => 0
  }

  ghost function ReadRank(p: Setup, s: State): nat
    requires Shaped(p, s)
  {
    if s.place.Drawing? then |s.place.rest| else Times(Round(p, s), Count(p) + 3) + Phase(p, s)
  }

  ghost function ReadBound(p: Setup): nat {
    Times(2 * Count(p) + 2, Count(p) + 3)
  }

  lemma {:induction false} QuotaCountBounded(max: seq<int>, read: seq<int>)
    requires |max| == |read|
    ensures QuotaCount(max, read) <= |max|
  {
    if max != [] {
      QuotaCountBounded(max[1..], read[1..]);
    }
  }

  lemma {:induction false} Lexicographic(a: nat, b: nat, width: nat, x: nat, y: nat)
    requires a < b && x < width
    ensures Times(a, width) + x < Times(b, width) + y
    decreases b
  {
    if a + 1 < b {
      Lexicographic(a, b - 1, width, x, y);
    }
  }

  lemma {:induction false} RankBounded(p: Setup, s: State)
    requires Shaped(p, s)
    ensures ReadRank(p, s) < ReadBound(p)
  {
    if s.place.Drawing? {
      SubsetOfBelow(s.place.rest, Count(p));
    } else {
      QuotaCountBounded(p.max, s.read);
      Lexicographic(Round(p, s), 2 * Count(p) + 2, Count(p) + 3, Phase(p, s), 0);
    }
  }

  lemma {:induction false} SubsetOfBelow(rest: set<nat>, n: nat)
    requires forall i :: i in rest ==> i < n
    ensures |rest| <= n
  {
    if n > 0 {
      SubsetOfBelow(rest - {n - 1}, n - 1);
    }
  }

  /** More requests never stall a read. */
  lemma {:induction false} StalledIsMonotone(max: seq<int>, read: seq<int>, few: seq<bool>, many: seq<bool>)
    requires |max| == |read| == |few| == |many|
    requires forall k :: 0 <= k < |few| && few[k] ==> many[k]
    requires Stalled(max, read, many)
    ensures Stalled(max, read, few)
  {
    FirstTrueNone(Both(QuotaLeft(max, read), few));
  }

  /** What others do never makes a read longer. */
  lemma {:induction false} OthersDoNotDelay(p: Setup, s: State, e: Event)
    requires Sane(p) && Shaped(p, s) && Enabled(p, s, e) && !ByIterator(e)
    ensures ReadRank(p, Apply(p, s, e)) <= ReadRank(p, s)
  {
    MoreQueuedDoesNotDelay(p, s, Apply(p, s, e));
  }

  lemma {:induction false} MoreQueuedDoesNotDelay(p: Setup, s: State, t: State)
    requires Shaped(p, s) && Shaped(p, t) && t.read == s.read && t.place == s.place
    requires forall k :: 0 <= k < |s.queues| && s.queues[k] != multiset{} ==> t.queues[k] != multiset{}
    ensures ReadRank(p, t) <= ReadRank(p, s)
  {
    if Stalled(p.max, t.read, NonEmpty(t.queues)) {
      StalledIsMonotone(p.max, s.read, NonEmpty(s.queues), NonEmpty(t.queues));
    }
    if Round(p, t) < Round(p, s) {
      Lexicographic(Round(p, t), Round(p, s), Count(p) + 3, Phase(p, t), Phase(p, s));
    }
  }

  /** Every step of a read returns a result or lowers the measure. */
  lemma {:induction false} ReadStepsLowerRank(p: Setup, s: State, e: Event)
    requires Sane(p) && Inv(p, s) && Enabled(p, s, e) && ByIterator(e) && InRead(s)
    requires !e.Pop? && !e.GiveUp?
    ensures InRead(Apply(p, s, e))
    ensures ReadRank(p, Apply(p, s, e)) < ReadRank(p, s)
  {
    if e.Miss? {
      MissLowersRank(p, s, e);
    } else if e.Choose? {
      ChooseLowersRank(p, s);
    }
  }

  /** An empty queue goes out of quota, or leaves the draw. */
  lemma {:induction false} MissLowersRank(p: Setup, s: State, e: Event)
    requires Sane(p) && Inv(p, s) && Enabled(p, s, e) && e.Miss?
    ensures InRead(Apply(p, s, e)) && ReadRank(p, Apply(p, s, e)) < ReadRank(p, s)
  {
    if s.place.Popping? {
      var t := Apply(p, s, e);
      SkipKeepsTurn(p.max, s.read, NonEmpty(s.queues), e.i);
      ExhaustLowersCount(p.max, s.read, e.i);
      Lexicographic(Round(p, t), Round(p, s), Count(p) + 3, Phase(p, t), Phase(p, s));
    }
  }

  lemma {:induction false} ChooseLowersRank(p: Setup, s: State)
    requires Sane(p) && Inv(p, s) && Enabled(p, s, Choose)
    ensures InRead(Apply(p, s, Choose)) && ReadRank(p, Apply(p, s, Choose)) < ReadRank(p, s)
  {
    ControlStep(p, s, Choose);
    if NextQueue(p.max, s.read) < 0 {
      NewRoundLowersRank(p, s, Choose);
    }
  }

  /** A new round leaves a non-empty queue with quota. */
  lemma {:induction false} NewRoundLowersRank(p: Setup, s: State, e: Event)
    requires Sane(p) && Inv(p, s) && Enabled(p, s, e) && e.Choose? && NextQueue(p.max, s.read) < 0
    ensures ReadRank(p, Apply(p, s, e)) < ReadRank(p, s)
  {
    var t := Apply(p, s, e);
    QueuedIsNonEmpty(s);
    ChoiceKeepsTurn(p.max, s.read, NonEmpty(s.queues));
    QuotaCountBounded(p.max, t.read);
    Lexicographic(Round(p, t), Round(p, s), Count(p) + 3, Phase(p, t), Phase(p, s));
  }

  lemma {:induction false} QueuedIsNonEmpty(s: State)
    requires SomeQueued(s)
    ensures FirstTrue(NonEmpty(s.queues)) >= 0
  {
    var i :| 0 <= i < |s.queues| && s.queues[i] != multiset{};
    assert NonEmpty(s.queues)[i];
  }

  // ---------- One call of Read ----------

  ghost predicate InsideOneRead(es: seq<Event>) {
    forall k :: 0 <= k < |es| ==> !es[k].Pop? && !es[k].GiveUp?
  }

  function IteratorSteps(es: seq<Event>): nat {
    if es == [] then 0 else (if ByIterator(es[0]) then 1 else 0) + IteratorSteps(es[1..])
  }

  /** New rounds begun in a run. */
  ghost function NewRounds(p: Setup, s: State, es: seq<Event>): nat
    requires Shaped(p, s) && Run(p, s, es)
    decreases |es|
  {
    if es == [] then 0
    else (if es[0].Choose? && NextQueue(p.max, s.read) < 0 then 1 else 0)
         + NewRounds(p, Apply(p, s, es[0]), es[1..])
  }

  /** Whatever is pushed meanwhile, a read ends within a fixed number of its own
      steps, and begins at most one new round. */
  lemma {:induction false} ReadTerminates(p: Setup, s: State, es: seq<Event>)
    requires Sane(p) && Inv(p, s) && InRead(s) && Run(p, s, es) && InsideOneRead(es)
    ensures IteratorSteps(es) <= ReadRank(p, s) < ReadBound(p)
    ensures NewRounds(p, s, es) <= (if Stalled(p.max, s.read, NonEmpty(s.queues)) then 1 else 0)
    decreases |es|
  {
    RankBounded(p, s);
    if es != [] {
      var e, t := es[0], Apply(p, s, es[0]);
      InvKept(p, s, e);
      if ByIterator(e) {
        ReadStepsLowerRank(p, s, e);
      } else {
        OthersDoNotDelay(p, s, e);
      }
      StalledStep(p, s, e);
      ReadTerminates(p, t, es[1..]);
    }
  }

  /** A read that is not stalled does not stall, and a new round ends a stall. */
  lemma {:induction false} StalledStep(p: Setup, s: State, e: Event)
    requires Sane(p) && Inv(p, s) && InRead(s) && Enabled(p, s, e) && !e.Pop? && !e.GiveUp?
    ensures Stalled(p.max, Apply(p, s, e).read, NonEmpty(Apply(p, s, e).queues)) ==>
              Stalled(p.max, s.read, NonEmpty(s.queues)) && !(e.Choose? && NextQueue(p.max, s.read) < 0)
    ensures e.Choose? && NextQueue(p.max, s.read) < 0 ==> Stalled(p.max, s.read, NonEmpty(s.queues))
  {
    var t := Apply(p, s, e);
    match e
    case Insert(_, _) =>
      if Stalled(p.max, t.read, NonEmpty(t.queues)) {
        StalledIsMonotone(p.max, s.read, NonEmpty(s.queues), NonEmpty(t.queues));
      }
    case Miss(i) =>
      if s.place.Popping? {
        SkipKeepsTurn(p.max, s.read, NonEmpty(s.queues), i);
      }
    case Choose =>
      QueuedIsNonEmpty(s);
      ChoiceKeepsTurn(p.max, s.read, NonEmpty(s.queues));
    case _ =>
  }

  /** A read begun while queue `j` is not empty never comes back with nothing: until
      it pops, `j` stays non-empty and still to be looked at. */
  lemma {:induction false} NonEmptyQueueIsFound(p: Setup, s: State, es: seq<Event>, j: nat)
    requires Sane(p) && Inv(p, s) && InRead(s) && Run(p, s, es)
    requires j < Count(p) && s.queues[j] != multiset{} && StillToObserve(s, j)
    requires forall k :: 0 <= k < |es| ==> !es[k].Pop?
    ensures InRead(Final(p, s, es)) && InsideOneRead(es)
    ensures !Enabled(p, Final(p, s, es), GiveUp)
    decreases |es|
  {
    if es != [] {
      InvKept(p, s, es[0]);
      StillFound(p, s, es[0], j);
      NonEmptyQueueIsFound(p, Apply(p, s, es[0]), es[1..], j);
    }
  }

  lemma {:induction false} StillFound(p: Setup, s: State, e: Event, j: nat)
    requires Sane(p) && Inv(p, s) && InRead(s) && Enabled(p, s, e) && !e.Pop?
    requires j < Count(p) && s.queues[j] != multiset{} && StillToObserve(s, j)
    ensures !e.GiveUp?
    ensures var t := Apply(p, s, e);
            InRead(t) && t.queues[j] != multiset{} && StillToObserve(t, j)
  {
    ControlStep(p, s, e);
  }

  // ---------- A read without interference ----------

  /** In a round-robin read, with something to find. */
  ghost predicate ReadingQueued(p: Setup, s: State) {
    Sane(p) && Inv(p, s) && p.algorithm.RoundRobinReads? && InRead(s) && SomeQueued(s)
  }

  /** Nobody but the iterator takes a step. */
  ghost predicate Quiet(es: seq<Event>) {
    forall k :: 0 <= k < |es| ==> ByIterator(es[k])
  }

  /** Undisturbed, the steps of a read do not change whose turn it is. */
  lemma {:induction false} QuietStepKeepsTurn(p: Setup, s: State, e: Event)
    requires ReadingQueued(p, s) && Enabled(p, s, e) && ByIterator(e) && !e.Pop? && !e.GiveUp?
    ensures var t := Apply(p, s, e);
            && ReadingQueued(p, t) && t.queues == s.queues
            && Turn(p.max, t.read, NonEmpty(s.queues)) == Turn(p.max, s.read, NonEmpty(s.queues))
            && CountersAtTurn(p.max, t.read, NonEmpty(s.queues))
               == CountersAtTurn(p.max, s.read, NonEmpty(s.queues))
  {
    InvKept(p, s, e);
    ReadStepsLowerRank(p, s, e);
    if e.Miss? {
      SkipKeepsTurn(p.max, s.read, NonEmpty(s.queues), e.i);
    } else if e.Choose? {
      QueuedIsNonEmpty(s);
      ChoiceKeepsTurn(p.max, s.read, NonEmpty(s.queues));
    }
  }

  lemma {:induction false} PopServesTurn(p: Setup, s: State, i: nat, r: Request)
    requires Inv(p, s) && p.algorithm.RoundRobinReads? && InRead(s) && Enabled(p, s, Pop(i, r))
    ensures i == Turn(p.max, s.read, NonEmpty(s.queues))
    ensures Apply(p, s, Pop(i, r)).queues == Taken(s.queues, i, Some(r))
    ensures Apply(p, s, Pop(i, r)).read
         == Charged(CountersAtTurn(p.max, s.read, NonEmpty(s.queues)), i, |r.bindings|)
  {
    NextIsTurn(p.max, s.read, NonEmpty(s.queues));
  }

  /** Undisturbed, the steps of a read amount to what the reader's `Read` promises: the
      queue whose turn it is gives up a request and is charged for it. */
  lemma {:induction false} QuietReadServesTurn(p: Setup, s: State, es: seq<Event>, i: nat, r: Request)
    requires ReadingQueued(p, s)
    requires Run(p, s, es) && InsideOneRead(es) && Quiet(es) && Enabled(p, Final(p, s, es), Pop(i, r))
    ensures i == Turn(p.max, s.read, NonEmpty(s.queues))
    ensures Apply(p, Final(p, s, es), Pop(i, r)).queues == Taken(s.queues, i, Some(r))
    ensures Apply(p, Final(p, s, es), Pop(i, r)).read
         == Charged(CountersAtTurn(p.max, s.read, NonEmpty(s.queues)), i, |r.bindings|)
    decreases |es|
  {
    if es == [] {
      PopServesTurn(p, s, i, r);
    } else {
      QuietStepKeepsTurn(p, s, es[0]);
      QuietReadServesTurn(p, Apply(p, s, es[0]), es[1..], i, r);
    }
  }

  // ---------- The iterator can always move ----------

  /** When no producer holds a lock, the iterator has a step to take unless it has
      stopped, or is asleep with no token and not cancelled. Once cancelled, that step
      needs neither a receiver on the channel nor a wake-up. */
  lemma {:induction false} IteratorCanMove(p: Setup, s: State) returns (e: Event)
    requires Sane(p) && Inv(p, s) && !s.place.Stopped?
    requires forall i :: 0 <= i < Count(p) ==> s.locks[i] == Unlocked
    requires s.place.Sleeping? ==> s.tokens > 0 || s.cancelled
    ensures ByIterator(e) && Enabled(p, s, e)
    ensures s.cancelled ==> !e.Send? && !e.Wake?
  {
    match s.place
    case AtTop => e := if s.cancelled then Close else Start;
    case Scanning(k) => e := if k < Count(p) then Observe else GiveUp;
    case Choosing => e := Choose;
    case Popping(i) => e := PopOrMiss(p, s, i);
    case Drawing(rest) =>
      if rest == {} {
        e := GiveUp;
      } else {
        var i :| i in rest;
        e := PopOrMiss(p, s, i);
      }
    case Delivering(i, r) => e := if s.cancelled then Discard(i, r) else Send(i, r);
    case Sleeping => e := if s.cancelled then Abort else Wake;
  }

  lemma {:induction false} PopOrMiss(p: Setup, s: State, i: nat) returns (e: Event)
    requires Shaped(p, s) && MayPop(p, s, i)
    ensures ByIterator(e) && Enabled(p, s, e) && !e.Send? && !e.Wake?
  {
    if s.queues[i] == multiset{} {
      e := Miss(i);
    } else {
      var r := OldestExists(s.queues[i]);
      e := Pop(i, r);
    }
  }

  // ---------- Nothing gets stuck ----------

  /** The steps that are bound to be taken: those of the iterator, and those with which
      a producer finishes a push. */
  predicate MustHappen(e: Event) {
    ByIterator(e) || e.Signal? || e.Unlock?
  }

  ghost predicate Quiescent(p: Setup, s: State)
    requires Shaped(p, s)
  {
    forall e :: MustHappen(e) ==> !Enabled(p, s, e)
  }

  ghost predicate AllUnlocked(s: State) {
    forall i :: 0 <= i < |s.locks| ==> s.locks[i] == Unlocked
  }

  /** Nothing is left to happen exactly when no push is under way and the iterator has
      stopped, or sleeps without a token and uncancelled; and then there is nothing
      queued that it should have seen. */
  lemma {:induction false} QuiescentIff(p: Setup, s: State)
    requires Sane(p) && Inv(p, s)
    ensures Quiescent(p, s) <==>
              && AllUnlocked(s)
              && (s.place.Stopped? || (s.place.Sleeping? && s.tokens == 0 && !s.cancelled))
    ensures Quiescent(p, s) && !s.place.Stopped? ==> !SomeQueued(s)
  {
    if !AllUnlocked(s) {
      var i: nat :| i < |s.locks| && s.locks[i] != Unlocked;
      var e := if s.locks[i] == HasInserted then Signal(i) else Unlock(i);
      assert MustHappen(e) && Enabled(p, s, e);
    } else if !s.place.Stopped? && (s.place.Sleeping? ==> s.tokens > 0 || s.cancelled) {
      var e := IteratorCanMove(p, s);
      assert MustHappen(e);
    }
  }

  // ---------- Shutdown ----------

  ghost predicate NoInserts(es: seq<Event>) {
    forall k :: 0 <= k < |es| ==> !es[k].Insert?
  }

  /** The steps for so many more reads that pop something. */
  ghost function ReadsLeft(p: Setup, queued: nat): nat {
    Times(queued, ReadBound(p) + 1)
  }

  lemma OneReadLess(p: Setup, queued: nat)
    requires queued > 0
    ensures ReadsLeft(p, queued) == ReadsLeft(p, queued - 1) + ReadBound(p) + 1
  {
  }

  /** The steps a cancelled iterator still has to take, at most. */
  ghost function WorkLeft(p: Setup, s: State): nat
    requires Shaped(p, s)
  {
    match s.place
    case Stopped => 0
    case AtTop => 1
    case Sleeping => 2
    case Delivering(_, _) => ReadsLeft(p, |Total(s.queues)|) + ReadBound(p) + 4
    case Panicked => 0
    case _ => ReadsLeft(p, |Total(s.queues)|) + ReadRank(p, s) + 4
  }

  lemma {:induction false} CancelledStepsLowerWork(p: Setup, s: State, e: Event)
    requires Sane(p) && Inv(p, s) && s.cancelled && Enabled(p, s, e) && !e.Insert?
    ensures ByIterator(e) ==> WorkLeft(p, Apply(p, s, e)) < WorkLeft(p, s)
    ensures !ByIterator(e) ==> WorkLeft(p, Apply(p, s, e)) <= WorkLeft(p, s)
  {
    RankBounded(p, Apply(p, s, e));
    PopsLowerTotal(p, s, e);
    if !ByIterator(e) {
      OthersDoNotDelay(p, s, e);
    } else if e.Pop? {
      OneReadLess(p, |Total(s.queues)|);
    } else if InRead(s) && !e.GiveUp? {
      ReadStepsLowerRank(p, s, e);
    }
  }

  /** Once cancelled, and with no more pushes, the iterator stops within a bounded
      number of steps, of which at most one pop per queued request. */
  lemma {:induction false} ShutdownIsBounded(p: Setup, s: State, es: seq<Event>)
    requires Sane(p) && Inv(p, s) && s.cancelled && Run(p, s, es) && NoInserts(es)
    ensures IteratorSteps(es) + WorkLeft(p, Final(p, s, es)) <= WorkLeft(p, s)
    ensures Pops(es) + |Total(Final(p, s, es).queues)| == |Total(s.queues)|
    decreases |es|
  {
    if es != [] {
      InvKept(p, s, es[0]);
      CancelledStepsLowerWork(p, s, es[0]);
      PopsLowerTotal(p, s, es[0]);
      ShutdownIsBounded(p, Apply(p, s, es[0]), es[1..]);
    }
  }

  /** How many steps the pushes under way still take. */
  function PushesLeft(locks: seq<Lock>): nat {
    if locks == [] then 0
    else (match locks[0] case Unlocked => 0 case HasInserted => 2 case HasSignalled => 1) + PushesLeft(locks[1..])
  }

  lemma {:induction false} PushesLeftUpdate(locks: seq<Lock>, i: nat, lock: Lock)
    requires i < |locks|
    ensures PushesLeft(locks[i := lock]) + PushesLeft([locks[i]]) == PushesLeft(locks) + PushesLeft([lock])
  {
    if i == 0 {
      assert locks[i := lock][1..] == locks[1..];
    } else {
      assert locks[i := lock][1..] == locks[1..][i - 1 := lock];
      PushesLeftUpdate(locks[1..], i - 1, lock);
    }
  }

  /** A cancelled iterator without more pushes runs down: every step that is bound to
      happen brings the end closer. */
  lemma {:induction false} CancelledStepsRunDown(p: Setup, s: State, e: Event)
    requires Sane(p) && Inv(p, s) && s.cancelled && Enabled(p, s, e) && MustHappen(e)
    ensures WorkLeft(p, Apply(p, s, e)) + PushesLeft(Apply(p, s, e).locks) < WorkLeft(p, s) + PushesLeft(s.locks)
    ensures Inv(p, Apply(p, s, e)) && Apply(p, s, e).cancelled
  {
    InvKept(p, s, e);
    CancelledStepsLowerWork(p, s, e);
    PushesRunDown(p, s, e);
  }

  lemma {:induction false} PushesRunDown(p: Setup, s: State, e: Event)
    requires Shaped(p, s) && Enabled(p, s, e) && MustHappen(e)
    ensures PushesLeft(Apply(p, s, e).locks) + (if ByIterator(e) then 0 else 1) <= PushesLeft(s.locks)
    ensures s.cancelled ==> Apply(p, s, e).cancelled
  {
    if e.Signal? {
      PushesLeftUpdate(s.locks, e.i, HasSignalled);
    } else if e.Unlock? {
      PushesLeftUpdate(s.locks, e.i, Unlocked);
    } else {
      assert Apply(p, s, e).locks == s.locks;
    }
  }

  lemma {:induction false} CancelledCanStep(p: Setup, s: State) returns (e: Event)
    requires Sane(p) && Inv(p, s) && s.cancelled && !s.place.Stopped?
    ensures Enabled(p, s, e) && !e.Insert? && Inv(p, Apply(p, s, e)) && Apply(p, s, e).cancelled
    ensures WorkLeft(p, Apply(p, s, e)) + PushesLeft(Apply(p, s, e).locks) < WorkLeft(p, s) + PushesLeft(s.locks)
  {
    QuiescentIff(p, s);
    e :| MustHappen(e) && Enabled(p, s, e);
    CancelledStepsRunDown(p, s, e);
  }

  /** Shutdown: from every cancelled state the iterator can come to a stop without any
      further push, ... */
  lemma {:induction false} CancelledCanStop(p: Setup, s: State) returns (es: seq<Event>)
    requires Sane(p) && Inv(p, s) && s.cancelled
    ensures Run(p, s, es) && NoInserts(es) && Final(p, s, es).place.Stopped?
    decreases WorkLeft(p, s) + PushesLeft(s.locks)
  {
    if s.place.Stopped? {
      es := [];
    } else {
      var e := CancelledCanStep(p, s);
      var rest := CancelledCanStop(p, Apply(p, s, e));
      RunMore(p, s, e, rest);
      es := [e] + rest;
    }
  }

  /** ... and however it is scheduled, it only ever comes to rest there. */
  lemma {:induction false} CancelledRestsStopped(p: Setup, s: State, es: seq<Event>)
    requires Sane(p) && Inv(p, s) && s.cancelled && Run(p, s, es) && Quiescent(p, Final(p, s, es))
    ensures Final(p, s, es).place.Stopped?
  {
    InvKeptByRun(p, s, es);
    StaysCancelled(p, s, es);
    QuiescentIff(p, Final(p, s, es));
  }

  lemma {:induction false} StaysCancelled(p: Setup, s: State, es: seq<Event>)
    requires Shaped(p, s) && Run(p, s, es) && s.cancelled
    ensures Final(p, s, es).cancelled
    decreases |es|
  {
    if es != [] {
      StaysCancelled(p, Apply(p, s, es[0]), es[1..]);
    }
  }

  lemma {:induction false} PopsLowerTotal(p: Setup, s: State, e: Event)
    requires Shaped(p, s) && Enabled(p, s, e) && !e.Insert?
    ensures |Total(Apply(p, s, e).queues)| + (if e.Pop? then 1 else 0) == |Total(s.queues)|
    ensures s.cancelled ==> Apply(p, s, e).cancelled
  {
    if e.Pop? {
      TotalTaken(s.queues, e.i, e.r);
    } else {
      assert Apply(p, s, e).queues == s.queues;
    }
  }

  function Pops(es: seq<Event>): nat {
    if es == [] then 0 else (if es[0].Pop? then 1 else 0) + Pops(es[1..])
  }

  function Closes(es: seq<Event>): nat {
    if es == [] then 0 else (if es[0].Close? then 1 else 0) + Closes(es[1..])
  }

  /** The channel is closed once, on the way out, and nothing is sent after. */
  lemma {:induction false} ClosesOnce(p: Setup, s: State, es: seq<Event>)
    requires Sane(p) && Inv(p, s) && Run(p, s, es)
    ensures Closes(es) == (if Final(p, s, es).place.Stopped? && !s.place.Stopped? then 1 else 0)
    decreases |es|
  {
    if s.place.Stopped? {
      StoppedForGood(p, s, es);
    } else if es != [] {
      InvKept(p, s, es[0]);
      StopsByClosing(p, s, es[0]);
      ClosesOnce(p, Apply(p, s, es[0]), es[1..]);
      if es[0].Close? {
        StoppedForGood(p, Apply(p, s, es[0]), es[1..]);
      }
    }
  }

  lemma StopsByClosing(p: Setup, s: State, e: Event)
    requires Shaped(p, s) && Enabled(p, s, e) && !s.place.Stopped?
    ensures Apply(p, s, e).place.Stopped? <==> e.Close?
  {
  }

  /** A stopped iterator takes no step, and so sends nothing. */
  lemma {:induction false} StoppedForGood(p: Setup, s: State, es: seq<Event>)
    requires Shaped(p, s) && Run(p, s, es) && s.place.Stopped?
    ensures Final(p, s, es).place.Stopped?
    ensures IteratorSteps(es) == 0 && Closes(es) == 0 && SentIn(es) == multiset{}
    decreases |es|
  {
    if es != [] {
      StoppedForGood(p, Apply(p, s, es[0]), es[1..]);
    }
  }
}
