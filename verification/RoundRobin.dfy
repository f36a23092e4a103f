/** The weighted round-robin reader. */
module RoundRobin {
  import opened Types
  import opened Bags
  import opened Config
  import opened PriorityQueues
  import opened CodeQuotas
  import opened Readers

  // ---------- Counters ----------

  /** The position of the first `true`, or -1. */
  function FirstTrue(flags: seq<bool>): (i: int)
    ensures -1 <= i < |flags|
    ensures i == -1 ==> forall k :: 0 <= k < |flags| ==> !flags[k]
    ensures i >= 0 ==> flags[i] && forall k :: 0 <= k < i ==> !flags[k]
  {
    if flags == [] then -1
    else if flags[0] then 0
    else
      var i := FirstTrue(flags[1..]);
      if i < 0 then -1 else i + 1
  }

  /** Which queues still have quota, given the bindings read this round. */
  function QuotaLeft(max: seq<int>, read: seq<int>): (flags: seq<bool>)
    requires |max| == |read|
    ensures |flags| == |max| && forall k :: 0 <= k < |max| ==> flags[k] == (read[k] < max[k])
  {
    seq(|max|, k requires 0 <= k < |max| => read[k] < max[k])
  }

  function Zeros(n: nat): (z: seq<int>)
    ensures |z| == n && forall k :: 0 <= k < n ==> z[k] == 0
  {
    seq(n, _ => 0)
  }

  /** The queue `next` returns: the first with quota left. */
  function NextQueue(max: seq<int>, read: seq<int>): int
    requires |max| == |read|
  {
    FirstTrue(QuotaLeft(max, read))
  }

  // ---------- What one call of Read amounts to ----------

  function Both(a: seq<bool>, b: seq<bool>): (c: seq<bool>)
    requires |a| == |b|
    ensures |c| == |a| && forall k :: 0 <= k < |a| ==> c[k] == (a[k] && b[k])
  {
    seq(|a|, k requires 0 <= k < |a| => a[k] && b[k])
  }

  /** The queue whose turn it is: the first non-empty one with quota left, or,
      when there is none, the first non-empty one. */
  function Turn(max: seq<int>, read: seq<int>, nonEmpty: seq<bool>): int
    requires |max| == |read| == |nonEmpty|
  {
    var i := FirstTrue(Both(QuotaLeft(max, read), nonEmpty));
    if i >= 0 then i else FirstTrue(nonEmpty)
  }

  /** The counters when that queue is served: the queues passed over are out of
      quota, and a new round has begun if no non-empty queue had quota left. */
  function CountersAtTurn(max: seq<int>, read: seq<int>, nonEmpty: seq<bool>): (c: seq<int>)
    requires |max| == |read| == |nonEmpty|
    ensures |c| == |max|
  {
    var i := Turn(max, read, nonEmpty);
    if FirstTrue(Both(QuotaLeft(max, read), nonEmpty)) >= 0 then
      seq(|max|, k requires 0 <= k < |max| => if k < i && read[k] < max[k] then max[k] else read[k])
    else
      seq(|max|, k requires 0 <= k < |max| => if k < i then max[k] else 0)
  }

  lemma FirstTrueIs(flags: seq<bool>, i: nat)
    requires i < |flags| && flags[i] && forall k :: 0 <= k < i ==> !flags[k]
    ensures FirstTrue(flags) == i
  {
  }

  lemma FirstTrueNone(flags: seq<bool>)
    requires forall k :: 0 <= k < |flags| ==> !flags[k]
    ensures FirstTrue(flags) == -1
  {
  }

  /** The first queue with quota left, when it is not empty, is next. */
  lemma {:induction false} NextIsTurn(max: seq<int>, read: seq<int>, nonEmpty: seq<bool>)
    requires |max| == |read| == |nonEmpty|
    requires NextQueue(max, read) >= 0 && nonEmpty[NextQueue(max, read)]
    ensures Turn(max, read, nonEmpty) == NextQueue(max, read)
    ensures CountersAtTurn(max, read, nonEmpty) == read
  {
    FirstTrueIs(Both(QuotaLeft(max, read), nonEmpty), NextQueue(max, read));
  }

  /** Passing over an empty queue does not change whose turn it is. */
  lemma {:induction false} SkipKeepsTurn(max: seq<int>, read: seq<int>, nonEmpty: seq<bool>, m: nat)
    requires |max| == |read| == |nonEmpty| && m < |max|
    requires m == NextQueue(max, read) && !nonEmpty[m]
    ensures Turn(max, read[m := max[m]], nonEmpty) == Turn(max, read, nonEmpty)
    ensures CountersAtTurn(max, read[m := max[m]], nonEmpty) == CountersAtTurn(max, read, nonEmpty)
    ensures Stalled(max, read[m := max[m]], nonEmpty) == Stalled(max, read, nonEmpty)
  {
    var i := FirstTrue(Both(QuotaLeft(max, read), nonEmpty));
    if i >= 0 {
      FirstTrueIs(Both(QuotaLeft(max, read[m := max[m]]), nonEmpty), i);
    } else {
      FirstTrueNone(Both(QuotaLeft(max, read[m := max[m]]), nonEmpty));
    }
  }

  /** The counters after `Read` has looked for a queue, with a new round if need be. */
  function Chosen(max: seq<int>, read: seq<int>): (c: seq<int>)
    requires |max| == |read|
    ensures |c| == |max|
  {
    if NextQueue(max, read) < 0 then Zeros(|max|) else read
  }

  /** Nor does a new round, once every queue is out of quota. */
  lemma {:induction false} ChoiceKeepsTurn(max: seq<int>, read: seq<int>, nonEmpty: seq<bool>)
    requires |max| == |read| == |nonEmpty|
    requires forall k :: 0 <= k < |max| ==> max[k] > 0
    requires FirstTrue(nonEmpty) >= 0
    ensures Turn(max, Chosen(max, read), nonEmpty) == Turn(max, read, nonEmpty)
    ensures CountersAtTurn(max, Chosen(max, read), nonEmpty) == CountersAtTurn(max, read, nonEmpty)
    ensures NextQueue(max, read) < 0 ==>
              Stalled(max, read, nonEmpty) && !Stalled(max, Chosen(max, read), nonEmpty)
  {
    if NextQueue(max, read) < 0 {
      FirstTrueNone(Both(QuotaLeft(max, read), nonEmpty));
      assert Both(QuotaLeft(max, Zeros(|max|)), nonEmpty) == nonEmpty;
      assert CountersAtTurn(max, Zeros(|max|), nonEmpty) == CountersAtTurn(max, read, nonEmpty);
    }
  }

  // ---------- The reader ----------

  datatype ExtendedQueueConfig = ExtendedQueueConfig(
    queueRef: PlacementRequestQueue, maximumBindings: int, bindingsRead: int)

  type Extended = seq<ExtendedQueueConfig>

  function Max(cs: Extended): (s: seq<int>)
    ensures |s| == |cs| && forall i :: 0 <= i < |cs| ==> s[i] == cs[i].maximumBindings
  {
    seq(|cs|, i requires 0 <= i < |cs| => cs[i].maximumBindings)
  }

  function Counters(cs: Extended): (s: seq<int>)
    ensures |s| == |cs| && forall i :: 0 <= i < |cs| ==> s[i] == cs[i].bindingsRead
  {
    seq(|cs|, i requires 0 <= i < |cs| => cs[i].bindingsRead)
  }

  function WithCounter(cs: Extended, i: nat, counter: int): (ds: Extended)
    requires i < |cs|
    ensures |ds| == |cs| && Max(ds) == Max(cs) && Counters(ds) == Counters(cs)[i := counter]
    ensures forall k :: 0 <= k < |cs| ==>
              ds[k].queueRef == cs[k].queueRef && ds[k].maximumBindings == cs[k].maximumBindings
  {
    var ds := cs[i := cs[i].(bindingsRead := counter)];
    assert Max(ds) == Max(cs);
    assert Counters(ds) == Counters(cs)[i := counter];
    ds
  }

  class RoundRobinReader {
    var configs: Extended
    ghost const heaps: seq<PriorityQueue>

    ghost predicate Valid()
      reads this
    {
      && |heaps| == |configs|
      && Distinct(heaps)
      && (forall i :: 0 <= i < |configs| ==>
                        configs[i].queueRef.queue == heaps[i] && configs[i].maximumBindings > 0)
    }

    /** Every queue gets its quota relative to the lightest one the scan finds, in
        binary64 and converted to an int. */
    constructor (queues: seq<QueueConfig<PlacementRequestQueue>>, overflow: int)
      requires queues != [] && WellFormed(queues)
      requires forall i, j :: 0 <= i < j < |queues| ==>
                                queues[i].queueRef.value.queue != queues[j].queueRef.value.queue
      ensures |heaps| == |queues| && Counters(configs) == Zeros(|queues|)
      ensures forall i :: 0 <= i < |queues| ==> heaps[i] == queues[i].queueRef.value.queue
      ensures Max(configs) == CodeMax(Weights(queues), overflow)
      ensures Valid() <==> forall i :: 0 <= i < |queues| ==> Max(configs)[i] > 0
    {
      var extended := Extend(queues, overflow);
      configs := extended;
      heaps := seq(|queues|, i requires 0 <= i < |queues| => queues[i].queueRef.value.queue);
    }

    static method Extend(queues: seq<QueueConfig<PlacementRequestQueue>>, overflow: int)
      returns (extended: Extended)
      requires queues != [] && WellFormed(queues)
      ensures |extended| == |queues| && Counters(extended) == Zeros(|queues|)
      ensures forall i :: 0 <= i < |queues| ==> extended[i].queueRef == queues[i].queueRef.value
      ensures Max(extended) == CodeMax(Weights(queues), overflow)
    {
      var max := ComputeQuotas(Weights(queues), overflow);
      extended := ExtendWith(queues, max);
    }

    static method ExtendWith(queues: seq<QueueConfig<PlacementRequestQueue>>, max: seq<int>)
      returns (extended: Extended)
      requires WellFormed(queues) && |max| == |queues|
      ensures |extended| == |queues| && Counters(extended) == Zeros(|queues|) && Max(extended) == max
      ensures forall i :: 0 <= i < |queues| ==> extended[i].queueRef == queues[i].queueRef.value
    {
      extended := [];
      for k := 0 to |queues|
        invariant |extended| == k
        invariant forall i :: 0 <= i < k ==>
                    extended[i] == ExtendedQueueConfig(queues[i].queueRef.value, max[i], 0)
      {
        extended := extended + [ExtendedQueueConfig(queues[k].queueRef.value, max[k], 0)];
      }
      assert Max(extended) == max;
      assert Counters(extended) == Zeros(|queues|);
    }

    method Empty(ghost queued: seq<multiset<Request>>) returns (empty: bool)
      requires Valid() && Holds(heaps, queued)
      ensures empty <==> FirstTrue(NonEmpty(queued)) < 0
    {
      var k := 0;
      while k < |configs|
        invariant k <= |configs|
        invariant forall i :: 0 <= i < k ==> !NonEmpty(queued)[i]
      {
        if configs[k].queueRef.Len() > 0 {
          assert NonEmpty(queued)[k];
          return false;
        }
        k := k + 1;
      }
      return true;
    }

    method Reset()
      modifies this
      ensures |configs| == |old(configs)|
      ensures forall i :: 0 <= i < |configs| ==> configs[i] == old(configs)[i].(bindingsRead := 0)
    {
      var k := 0;
      while k < |configs|
        invariant k <= |configs| == |old(configs)|
        invariant forall i :: 0 <= i < |configs| ==>
                    configs[i] == if i < k then old(configs)[i].(bindingsRead := 0) else old(configs)[i]
      {
        configs := configs[k := configs[k].(bindingsRead := 0)];
        k := k + 1;
      }
    }

    method Next() returns (i: int)
      ensures i == NextQueue(Max(configs), Counters(configs))
    {
      var k := 0;
      while k < |configs|
        invariant k <= |configs|
        invariant forall i :: 0 <= i < k ==> !QuotaLeft(Max(configs), Counters(configs))[i]
      {
        if configs[k].bindingsRead < configs[k].maximumBindings {
          FirstTrueIs(QuotaLeft(Max(configs), Counters(configs)), k);
          return k;
        }
        k := k + 1;
      }
      FirstTrueNone(QuotaLeft(Max(configs), Counters(configs)));
      return -1;
    }

    /** Find a queue with quota left, beginning a new round if there is none.
        A new round always finds one, so the panic is out of reach. */
    method Choose() returns (index: int)
      requires Valid() && |configs| > 0
      modifies this
      ensures Valid() && Max(configs) == old(Max(configs))
      ensures 0 <= index < |configs| && index == NextQueue(Max(configs), Counters(configs))
      ensures Counters(configs) ==
              Chosen(old(Max(configs)), old(Counters(configs)))
    {
      index := Next();
      if index < 0 {
        Reset();
        index := Next();
        assert QuotaLeft(Max(configs), Counters(configs))[0];
      }
    }

    /** Pop from one queue and charge it, or take it out of this round. */
    method TryQueue(index: nat, ghost queued: seq<multiset<Request>>)
      returns (r: Option<Request>, ghost left: seq<multiset<Request>>)
      requires Valid() && Holds(heaps, queued) && index < |configs|
      modifies this, heaps[index]
      ensures Valid() && Max(configs) == old(Max(configs)) && Holds(heaps, left)
      ensures r.None? <==> queued[index] == multiset{}
      ensures left == Taken(queued, index, r)
      ensures r.None? ==> Counters(configs) == old(Counters(configs))[index := Max(configs)[index]]
      ensures r.Some? ==> Oldest(queued[index], r.value)
                          && Counters(configs) == Charged(old(Counters(configs)), index, |r.value.bindings|)
    {
      r, left := PopFrom(configs[index].queueRef, heaps, index, queued);
      Charge(index, r);
    }

    method Charge(index: nat, r: Option<Request>)
      requires Valid() && index < |configs|
      modifies this
      ensures Valid() && Max(configs) == old(Max(configs))
      ensures r.None? ==> Counters(configs) == old(Counters(configs))[index := Max(configs)[index]]
      ensures r.Some? ==> Counters(configs) == Charged(old(Counters(configs)), index, |r.value.bindings|)
    {
      var counter := if r.Some? then configs[index].bindingsRead + |r.value.bindings|
                     else configs[index].maximumBindings;
      configs := WithCounter(configs, index, counter);
    }

    /** One read. Nothing is returned exactly when every queue is empty, and then
        nothing changes; otherwise the queue whose turn it is loses an oldest
        request and is charged for its bindings. */
    method Read(ghost queued: seq<multiset<Request>>)
      returns (r: Option<Request>, ghost turn: int, ghost left: seq<multiset<Request>>)
      requires Valid() && Holds(heaps, queued)
      modifies this, heaps
      ensures Valid() && Max(configs) == old(Max(configs)) && Holds(heaps, left)
      ensures turn == Turn(Max(configs), old(Counters(configs)), NonEmpty(queued))
      ensures r.None? <==> turn < 0
      ensures r.None? ==> left == queued && configs == old(configs)
      ensures r.Some? ==>
                && 0 <= turn < |configs|
                && Oldest(queued[turn], r.value)
                && left == Taken(queued, turn, r)
                && Counters(configs) == Charged(
                     CountersAtTurn(Max(configs), old(Counters(configs)), NonEmpty(queued)), turn, |r.value.bindings|)
      decreases Stalled(Max(configs), Counters(configs), NonEmpty(queued)),
                QuotaCount(Max(configs), Counters(configs))
    {
      ghost var max, before, nonEmpty := Max(configs), Counters(configs), NonEmpty(queued);
      turn := Turn(max, before, nonEmpty);
      var empty := Empty(queued);
      if empty {
        FirstTrueNone(Both(QuotaLeft(max, before), nonEmpty));
        return None, turn, queued;
      }
      var index := Choose();
      ghost var now := Counters(configs);
      ChoiceKeepsTurn(max, before, nonEmpty);
      r, left := TryQueue(index, queued);
      if r.Some? {
        NextIsTurn(max, now, nonEmpty);
        return r, turn, left;
      }
      SkipKeepsTurn(max, now, nonEmpty, index);
      ExhaustLowersCount(max, now, index);
      ghost var again;
      r, again, left := Read(queued);
    }

    /** The iterator's inner loop, with no pushes in between: read until nothing
        comes. Every queue hands over all it held, oldest first. */
    method ReadAll(ghost queued: seq<multiset<Request>>)
      returns (out: seq<Request>, ghost from: seq<int>, ghost left: seq<multiset<Request>>)
      requires Valid() && Holds(heaps, queued)
      modifies this, heaps
      ensures Valid() && Holds(heaps, left) && Total(left) == multiset{}
      ensures multiset(out) == Total(queued) && |out| == |from|
      ensures forall i :: 0 <= i < |queued| ==>
                multiset(OutOf(out, from, i)) == queued[i] && OldestFirst(OutOf(out, from, i))
    {
      out, from, left := [], [], queued;
      while true
        invariant Valid() && Holds(heaps, left) && PassStates(queued, out, from, left)
        decreases |Total(left)|
      {
        var r: Option<Request>;
        ghost var turn, after;
        r, turn, after := Read(left);
        if r.None? {
          PassDone(queued, out, from, left);
          break;
        }
        PassStep(queued, out, from, left, turn, r.value);
        out, from, left := out + [r.value], from + [turn], after;
      }
    }
  }

  function Charged(counters: seq<int>, i: int, size: nat): seq<int>
    requires 0 <= i < |counters|
  {
    counters[i := counters[i] + size]
  }

  /** No non-empty queue has quota left. */
  predicate Stalled(max: seq<int>, read: seq<int>, nonEmpty: seq<bool>)
    requires |max| == |read| == |nonEmpty|
  {
    FirstTrue(Both(QuotaLeft(max, read), nonEmpty)) < 0
  }

  function QuotaCount(max: seq<int>, read: seq<int>): nat
    requires |max| == |read|
  {
    if max == [] then 0 else (if read[0] < max[0] then 1 else 0) + QuotaCount(max[1..], read[1..])
  }

  lemma {:induction false} ExhaustLowersCount(max: seq<int>, read: seq<int>, m: nat)
    requires |max| == |read| && m < |max| && read[m] < max[m]
    ensures QuotaCount(max, read[m := max[m]]) == QuotaCount(max, read) - 1
  {
    if m == 0 {
      assert read[m := max[m]][1..] == read[1..];
    } else {
      assert read[m := max[m]][1..] == read[1..][m - 1 := max[1..][m - 1]];
      ExhaustLowersCount(max[1..], read[1..], m - 1);
    }
  }
}
