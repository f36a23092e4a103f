/** The iterator, its producers and its consumer as an interleaved step system.
    Every lock acquisition, channel operation and queue access is one step. */
module Iterator {
  import opened Types
  import opened Int64
  import opened Config
  import opened Sums
  import opened CodeQuotas
  import opened RoundRobin
  import opened Cursor

  datatype Algorithm = RoundRobinReads | UniformReads

  /** What is fixed while the iterator runs. Queue `i` belongs to configuration
      `i`; `max` holds the quotas, `routes` is the controller's map by name. `overflow`
      is what the platform makes of a quota too large for an int, and `fails` says of
      which queues a weighted draw panics. */
  datatype Setup = Setup(
    configs: seq<QueueConfig<nat>>,
    routes: map<string, QueueConfig<nat>>,
    max: seq<int>,
    overflow: int,
    fails: set<nat> -> bool,
    capacity: nat,
    algorithm: Algorithm)

  /** The weight of the queues in `rest`. */
  function WeightIn(weights: seq<nat>, rest: set<nat>): nat {
    if weights == [] then 0
    else
      var n := |weights| - 1;
      WeightIn(weights[..n], rest) + if n in rest then weights[n] else 0
  }

  /** What the code makes of a validated configuration, whatever its weights. A uniform
      reader has no quotas; any positive numbers stand in for them. */
  ghost predicate Configured(p: Setup) {
    && p.configs != [] && WellFormed(p.configs) && MapsToLast(p.configs, p.routes)
    && (forall i :: 0 <= i < |p.configs| ==>
                      && p.configs[i].queueRef == Some(i)
                      && p.configs[i].maxSize < TWO_64 && p.configs[i].weight < TWO_64)
    && |p.max| == |p.configs| && p.capacity > 0
    && (forall rest :: p.fails(rest) <==> Wrap(WeightIn(Weights(p.configs), rest)) <= 0)
    && match p.algorithm
       case RoundRobinReads => p.max == CodeMax(Weights(p.configs), p.overflow)
       case UniformReads => PositiveMax(p.max)
  }

  /** ... and the weights are such that it works: every quota is positive, or the weights
      add up to less than 2^63. */
  ghost predicate ValidSetup(p: Setup) {
    && Configured(p) && PositiveMax(p.max)
    && (p.algorithm.UniformReads? ==> Sum(Weights(p.configs)) < TWO_63)
  }

  /** Who holds the lock of a queue: nobody, or a producer that has inserted its
      request, or one that has also run the push handler. */
  datatype Lock = Unlocked | HasInserted | HasSignalled

  /** Where the iterator is. `Scanning(k)`: in `empty`, about to look at queue k.
      `Drawing(rest)`: in a uniform read, with the queues `rest` still in the draw. */
  datatype Place =
    | AtTop
    | Scanning(k: nat)
    | Choosing
    | Popping(i: nat)
    | Drawing(rest: set<nat>)
    | Delivering(from: nat, r: Request)
    | Sleeping
    | Stopped
    | Panicked

  datatype State = State(
    queues: seq<multiset<Request>>,
    locks: seq<Lock>,
    tokens: nat,
    read: seq<int>,
    place: Place,
    cancelled: bool)

  datatype Event =
    // producers
    | Insert(i: nat, r: Request)
    | Signal(i: nat)
    | Unlock(i: nat)
    // the context
    | Cancel
    // the iterator
    | Start
    | Close
    | Observe
    | GiveUp
    | Choose
    | Pop(i: nat, r: Request)
    | Miss(i: nat)
    | Crash
    | Send(i: nat, r: Request)
    | Discard(i: nat, r: Request)
    | Wake
    | Abort

  predicate ByIterator(e: Event) {
    !e.Insert? && !e.Signal? && !e.Unlock? && !e.Cancel?
  }

  function Count(p: Setup): nat {
    |p.configs|
  }

  /** The set {0, ..., n-1}. */
  function Below(n: nat): (all: set<nat>)
    ensures |all| == n && forall i: nat :: i in all <==> i < n
  {
    if n == 0 then {} else Below(n - 1) + {n - 1}
  }

  function InitialState(p: Setup): State {
    State(seq(Count(p), _ => multiset{}), seq(Count(p), _ => Unlocked), 0, Zeros(Count(p)), AtTop, false)
  }

  predicate Shaped(p: Setup, s: State) {
    && |p.max| == Count(p) == |s.queues| == |s.locks| == |s.read|
    && match s.place
       case Scanning(k) => k <= Count(p)
       case Popping(i) => i < Count(p)
       case Drawing(rest) => forall i :: i in rest ==> i < Count(p)
       case Delivering(i, _) => i < Count(p)
       case _ => true
  }

  /** The iterator may pop queue `i` now: it has settled on it (round robin), or
      drawn it (uniform, if the draw does not panic), and no producer holds its lock. */
  predicate MayPop(p: Setup, s: State, i: nat)
    requires Shaped(p, s)
  {
    && i < Count(p) && s.locks[i] == Unlocked
    && (s.place == Popping(i) || (s.place.Drawing? && i in s.place.rest && !p.fails(s.place.rest)))
  }

  /** The controller routes `r` to queue `i`. */
  predicate Admits(p: Setup, i: nat, r: Request) {
    && i < Count(p)
    && (forall name :: name in p.routes ==> p.routes[name].queueRef.Some?)
    && |r.bindings| < TWO_63
    && Admit(p.routes, r) == Pushed(i)
  }

  ghost predicate Enabled(p: Setup, s: State, e: Event)
    requires Shaped(p, s)
  {
    match e
    case Insert(i, r) => i < Count(p) && s.locks[i] == Unlocked && Admits(p, i, r)
    case Signal(i) => i < Count(p) && s.locks[i] == HasInserted
    case Unlock(i) => i < Count(p) && s.locks[i] == HasSignalled
    case Cancel => true
    case Start => s.place == AtTop && !s.cancelled
    case Close => s.place == AtTop && s.cancelled
    case Observe => s.place.Scanning? && s.place.k < Count(p) && s.locks[s.place.k] == Unlocked
    case GiveUp => s.place == Scanning(Count(p)) || s.place == Drawing({})
    case Choose => s.place == Choosing
    case Pop(i, r) => MayPop(p, s, i) && Oldest(s.queues[i], r)
    case Miss(i) => MayPop(p, s, i) && s.queues[i] == multiset{}
    case Crash => s.place.Drawing? && s.place.rest != {} && p.fails(s.place.rest)
    case Send(i, r) => s.place == Delivering(i, r)
    case Discard(i, r) => s.place == Delivering(i, r) && s.cancelled
    case Wake => s.place == Sleeping && s.tokens > 0
    case Abort => s.place == Sleeping && s.cancelled
  }

  /** Where a call of the reader's `Read` begins. */
  function ReadEntry(p: Setup): Place {
    match p.algorithm
    case RoundRobinReads => Scanning(0)
    case UniformReads => Drawing(Below(Count(p)))
  }

  function AfterChoice(p: Setup, s: State): State
    requires Shaped(p, s)
  {
    var read := Chosen(p.max, s.read);
    var i := NextQueue(p.max, read);
    s.(read := read, place := if i < 0 then Panicked else Popping(i))
  }

  function Apply(p: Setup, s: State, e: Event): (t: State)
    requires Shaped(p, s) && Enabled(p, s, e)
    ensures Shaped(p, t)
  {
    match e
    case Insert(i, r) => s.(queues := s.queues[i := s.queues[i] + multiset{r}], locks := s.locks[i := HasInserted])
    case Signal(i) =>
      s.(tokens := if s.tokens < p.capacity then s.tokens + 1 else s.tokens, locks := s.locks[i := HasSignalled])
    case Unlock(i) => s.(locks := s.locks[i := Unlocked])
    case Cancel => s.(cancelled := true)
    case Start => s.(read := Zeros(Count(p)), place := ReadEntry(p))
    case Close => s.(place := Stopped)
    case Observe => s.(place := if s.queues[s.place.k] == multiset{} then Scanning(s.place.k + 1) else Choosing)
    case GiveUp => s.(place := Sleeping)
    case Choose => AfterChoice(p, s)
    case Pop(i, r) =>
      s.(queues := s.queues[i := s.queues[i] - multiset{r}],
         read := if s.place.Popping? then Charged(s.read, i, |r.bindings|) else s.read,
         place := Delivering(i, r))
    case Miss(i) =>
      if s.place.Popping? then s.(read := s.read[i := p.max[i]], place := Scanning(0))
      else s.(place := Drawing(s.place.rest - {i}))
    case Crash => s.(place := Panicked)
    case Send(_, _) => s.(place := ReadEntry(p))
    case Discard(_, _) => s.(place := ReadEntry(p))
    case Wake => s.(tokens := s.tokens - 1, place := AtTop)
    case Abort => s.(place := AtTop)
  }

  /** The events can happen one after the other, from state `s`. */
  ghost predicate Run(p: Setup, s: State, es: seq<Event>)
    requires Shaped(p, s)
    decreases |es|
  {
    es != [] ==> Enabled(p, s, es[0]) && Run(p, Apply(p, s, es[0]), es[1..])
  }

  ghost function Final(p: Setup, s: State, es: seq<Event>): (t: State)
    requires Shaped(p, s) && Run(p, s, es)
    ensures Shaped(p, t)
    decreases |es|
  {
    if es == [] then s else Final(p, Apply(p, s, es[0]), es[1..])
  }

  ghost predicate Reachable(p: Setup, s: State) {
    && Shaped(p, InitialState(p))
    && exists es :: Run(p, InitialState(p), es) && Final(p, InitialState(p), es) == s
  }

  // ---------- Putting runs together ----------

  lemma {:induction false} RunOne(p: Setup, s: State, e: Event)
    requires Shaped(p, s) && Enabled(p, s, e)
    ensures Run(p, s, [e]) && Final(p, s, [e]) == Apply(p, s, e)
  {
    assert [e][1..] == [];
    assert Final(p, Apply(p, s, e), []) == Apply(p, s, e);
  }

  lemma {:induction false} RunMore(p: Setup, s: State, e: Event, es: seq<Event>)
    requires Shaped(p, s) && Enabled(p, s, e) && Run(p, Apply(p, s, e), es)
    ensures Run(p, s, [e] + es) && Final(p, s, [e] + es) == Final(p, Apply(p, s, e), es)
  {
    assert ([e] + es)[1..] == es;
  }

  lemma {:induction false} RunAppend(p: Setup, s: State, es: seq<Event>, fs: seq<Event>)
    requires Shaped(p, s) && Run(p, s, es) && Run(p, Final(p, s, es), fs)
    ensures Run(p, s, es + fs) && Final(p, s, es + fs) == Final(p, Final(p, s, es), fs)
    decreases |es|
  {
    if es == [] {
      assert es + fs == fs;
    } else {
      var e, rest := es[0], es[1..];
      RunAppend(p, Apply(p, s, e), rest, fs);
      assert (es + fs)[0] == e && (es + fs)[1..] == rest + fs;
    }
  }
}
