/** Queue configuration, and the admission of requests into the queues. */
module Config {
  import opened Types
  import opened Int64

  /** `weight` and `maxSize` are 64-bit unsigned; `queueRef` may be nil. */
  datatype QueueConfig<Q> = QueueConfig(
    schedulerName: string, weight: nat, maxSize: nat, queueRef: Option<Q>)

  datatype ConfigError =
    | EmptyName
    | ZeroWeight
    | ZeroMaxSize
    | NilQueue
    | DuplicateName(name: string)

  function Validate<Q>(c: QueueConfig<Q>): (err: Option<ConfigError>)
    ensures err.None? <==> c.schedulerName != "" && c.weight > 0 && c.maxSize > 0 && c.queueRef.Some?
    ensures err == Some(EmptyName) <==> c.schedulerName == ""
    ensures err == Some(ZeroWeight) <==> c.schedulerName != "" && c.weight == 0
    ensures err == Some(ZeroMaxSize) <==> c.schedulerName != "" && c.weight > 0 && c.maxSize == 0
    ensures err.Some? ==> err.value in {EmptyName, ZeroWeight, ZeroMaxSize, NilQueue}
  {
    if c.schedulerName == "" then Some(EmptyName)
    else if c.weight == 0 then Some(ZeroWeight)
    else if c.maxSize == 0 then Some(ZeroMaxSize)
    else if c.queueRef.None? then Some(NilQueue)
    else None
  }

  ghost predicate DistinctNames<Q>(cs: seq<QueueConfig<Q>>) {
    forall i, j :: 0 <= i < j < |cs| ==> cs[i].schedulerName != cs[j].schedulerName
  }

  ghost predicate WellFormed<Q>(cs: seq<QueueConfig<Q>>) {
    DistinctNames(cs) && forall i :: 0 <= i < |cs| ==> Validate(cs[i]).None?
  }

  function Weights<Q>(queues: seq<QueueConfig<Q>>): (w: seq<nat>)
    ensures |w| == |queues| && forall i :: 0 <= i < |queues| ==> w[i] == queues[i].weight
  {
    seq(|queues|, i requires 0 <= i < |queues| => queues[i].weight)
  }

  /** The first fault of a list is at `k`: a name seen before, or else an invalid entry. */
  ghost predicate FaultAt<Q>(cs: seq<QueueConfig<Q>>, k: int, err: ConfigError) {
    && 0 <= k < |cs| && WellFormed(cs[..k])
    && if exists i :: 0 <= i < k && cs[i].schedulerName == cs[k].schedulerName
       then err == DuplicateName(cs[k].schedulerName)
       else Validate(cs[k]) == Some(err)
  }

  /** Accepts exactly the lists whose entries are valid and differently named. */
  method ValidateAll<Q>(cs: seq<QueueConfig<Q>>) returns (err: Option<ConfigError>)
    ensures err.None? <==> WellFormed(cs)
    ensures err.Some? ==> exists k :: FaultAt(cs, k, err.value)
  {
    var seen: set<string> := {};
    var k := 0;
    while k < |cs|
      invariant k <= |cs|
      invariant seen == set i | 0 <= i < k :: cs[i].schedulerName
      invariant WellFormed(cs[..k])
    {
      if cs[k].schedulerName in seen {
        assert FaultAt(cs, k, DuplicateName(cs[k].schedulerName));
        return Some(DuplicateName(cs[k].schedulerName));
      }
      seen := seen + {cs[k].schedulerName};
      var invalid := Validate(cs[k]);
      if invalid.Some? {
        assert FaultAt(cs, k, invalid.value);
        return invalid;
      }
      assert cs[..k + 1] == cs[..k] + [cs[k]];
      k := k + 1;
    }
    assert cs[..k] == cs;
    return None;
  }

  /** The last configuration with a given name. */
  ghost predicate LastNamed<Q>(cs: seq<QueueConfig<Q>>, name: string, i: int) {
    && 0 <= i < |cs| && cs[i].schedulerName == name
    && forall j :: i < j < |cs| ==> cs[j].schedulerName != name
  }

  /** What the map from names to configurations holds: for each name, its last
      configuration. */
  ghost predicate MapsToLast<Q>(cs: seq<QueueConfig<Q>>, m: map<string, QueueConfig<Q>>) {
    && (forall name :: name in m ==> exists i :: LastNamed(cs, name, i) && m[name] == cs[i])
    && (forall i :: 0 <= i < |cs| ==> cs[i].schedulerName in m)
  }

  method ToMap<Q>(cs: seq<QueueConfig<Q>>) returns (m: map<string, QueueConfig<Q>>)
    ensures MapsToLast(cs, m)
  {
    m := map[];
    var k := 0;
    while k < |cs|
      invariant k <= |cs|
      invariant MapsToLast(cs[..k], m)
    {
      MapsToLastExtends(cs, m, k);
      m := m[cs[k].schedulerName := cs[k]];
      k := k + 1;
    }
    assert cs[..k] == cs;
  }

  lemma {:induction false} MapsToLastExtends<Q>(cs: seq<QueueConfig<Q>>, m: map<string, QueueConfig<Q>>, k: nat)
    requires k < |cs| && MapsToLast(cs[..k], m)
    ensures MapsToLast(cs[..k + 1], m[cs[k].schedulerName := cs[k]])
  {
    var done, after := cs[..k + 1], m[cs[k].schedulerName := cs[k]];
    forall name | name in after
      ensures exists i :: LastNamed(done, name, i) && after[name] == done[i]
    {
      if name == cs[k].schedulerName {
        assert LastNamed(done, name, k);
      } else {
        var i :| LastNamed(cs[..k], name, i) && m[name] == cs[..k][i];
        StaysLast(cs, k, name, i);
      }
    }
    forall i | 0 <= i < k + 1 ensures done[i].schedulerName in after {
      assert i < k ==> cs[..k][i] == done[i];
    }
  }

  lemma {:induction false} StaysLast<Q>(cs: seq<QueueConfig<Q>>, k: nat, name: string, i: int)
    requires k < |cs| && LastNamed(cs[..k], name, i) && name != cs[k].schedulerName
    ensures LastNamed(cs[..k + 1], name, i)
  {
    assert cs[..k + 1] == cs[..k] + [cs[k]];
  }

  /** With distinct names the map holds every configuration. */
  lemma {:induction false} DistinctNamesKeepAll<Q>(cs: seq<QueueConfig<Q>>, m: map<string, QueueConfig<Q>>, i: nat)
    requires DistinctNames(cs) && MapsToLast(cs, m) && i < |cs|
    ensures cs[i].schedulerName in m && m[cs[i].schedulerName] == cs[i]
  {
    var j :| LastNamed(cs, cs[i].schedulerName, j) && m[cs[i].schedulerName] == cs[j];
    assert i == j;
  }

  /** What `enqueue` does with a request. */
  datatype Admission<Q> = Ignored | QueueNotFound | TooLarge | Pushed(queue: Q)

  function Admit<Q>(queues: map<string, QueueConfig<Q>>, r: Request): Admission<Q>
    requires forall name :: name in queues ==> queues[name].queueRef.Some?
  {
    if r.schedulerName == "" then Ignored
    else if r.schedulerName !in queues then QueueNotFound
    else if |r.bindings| > ToInt(queues[r.schedulerName].maxSize) then TooLarge
    else Pushed(queues[r.schedulerName].queueRef.value)
  }

  ghost predicate NamedAt<Q>(cs: seq<QueueConfig<Q>>, r: Request, i: int) {
    0 <= i < |cs| && cs[i].schedulerName == r.schedulerName
  }

  ghost predicate AdmittedAt<Q>(cs: seq<QueueConfig<Q>>, r: Request, i: int)
  {
    0 <= i < |cs| && cs[i].schedulerName == r.schedulerName && |r.bindings| <= cs[i].maxSize
  }

  /** A request without a scheduler name is ignored, one whose scheduler no configuration
      names finds no queue, and one with more bindings than the limit is too large. It
      reaches a queue exactly when some configuration names its scheduler and allows its
      size, and then it is that configuration's queue. A `maxSize` of 2^63 or more turns
      negative and shuts the queue. */
  lemma {:induction false} AdmissionIsExact<Q>(cs: seq<QueueConfig<Q>>, m: map<string, QueueConfig<Q>>, r: Request)
    requires WellFormed(cs) && MapsToLast(cs, m)
    requires forall i :: 0 <= i < |cs| ==> cs[i].maxSize < TWO_64
    requires |r.bindings| < TWO_63
    ensures forall name :: name in m ==> m[name].queueRef.Some?
    ensures Admit(m, r) == Ignored <==> r.schedulerName == ""
    ensures Admit(m, r) == QueueNotFound <==> r.schedulerName != "" && !exists i :: NamedAt(cs, r, i)
    ensures Admit(m, r) == TooLarge <==>
              exists i :: NamedAt(cs, r, i) && |r.bindings| > ToInt(cs[i].maxSize)
    ensures Admit(m, r).Pushed? <==> exists i :: AdmittedAt(cs, r, i) && cs[i].maxSize < TWO_63
    ensures Admit(m, r).Pushed? ==>
              exists i :: AdmittedAt(cs, r, i) && cs[i].queueRef == Some(Admit(m, r).queue)
  {
    forall name | name in m ensures m[name].queueRef.Some? {
      var i :| LastNamed(cs, name, i) && m[name] == cs[i];
    }
    forall i | NamedAt(cs, r, i)
      ensures cs[i].schedulerName in m && m[cs[i].schedulerName] == cs[i]
      ensures Validate(cs[i]).None?
    {
      DistinctNamesKeepAll(cs, m, i);
    }
    if r.schedulerName in m {
      var i :| LastNamed(cs, r.schedulerName, i) && m[r.schedulerName] == cs[i];
      assert NamedAt(cs, r, i);
      assert Admit(m, r).Pushed? ==> AdmittedAt(cs, r, i);
    }
  }
}
