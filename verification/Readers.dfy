/** What the two queue readers share. */
module Readers {
  import opened Types
  import opened Bags
  import opened PriorityQueues

  ghost predicate Distinct(heaps: seq<PriorityQueue>) {
    forall i, j :: 0 <= i < j < |heaps| ==> heaps[i] != heaps[j]
  }

  /** The queues are well-formed heaps of the requests in `queued`. */
  ghost predicate Holds(heaps: seq<PriorityQueue>, queued: seq<multiset<Request>>)
    reads heaps
  {
    && |queued| == |heaps|
    && forall i :: 0 <= i < |heaps| ==> heaps[i].Valid() && multiset(heaps[i].items) == queued[i]
  }

  /** What is left queued after queue `i` gave up `r`. */
  ghost function Taken(queued: seq<multiset<Request>>, i: int, r: Option<Request>): seq<multiset<Request>>
    requires 0 <= i < |queued|
  {
    if r.None? then queued else queued[i := queued[i] - multiset{r.value}]
  }

  lemma {:induction false} TotalTaken(queued: seq<multiset<Request>>, i: int, r: Request)
    requires 0 <= i < |queued| && r in queued[i]
    ensures Total(Taken(queued, i, Some(r))) + multiset{r} == Total(queued)
    ensures |Total(Taken(queued, i, Some(r)))| == |Total(queued)| - 1
  {
    TotalUpdate(queued, i, queued[i] - multiset{r});
    assert Total(queued) - queued[i] + (queued[i] - multiset{r}) + multiset{r} == Total(queued);
  }

  function NonEmpty(queued: seq<multiset<Request>>): (s: seq<bool>)
    ensures |s| == |queued| && forall i :: 0 <= i < |s| ==> s[i] == (queued[i] != multiset{})
  {
    seq(|queued|, i requires 0 <= i < |queued| => queued[i] != multiset{})
  }

  /** Popping one queue leaves the others alone. */
  method PopFrom(q: PlacementRequestQueue, ghost heaps: seq<PriorityQueue>, ghost index: nat,
                 ghost queued: seq<multiset<Request>>)
    returns (r: Option<Request>, ghost left: seq<multiset<Request>>)
    requires Distinct(heaps) && Holds(heaps, queued) && index < |heaps| && q.queue == heaps[index]
    modifies q.queue
    ensures r.None? <==> queued[index] == multiset{}
    ensures r.Some? ==> Oldest(queued[index], r.value)
    ensures left == Taken(queued, index, r) && Holds(heaps, left)
  {
    r := q.Pop();
    left := Taken(queued, index, r);
    forall i | 0 <= i < |heaps|
      ensures heaps[i].Valid() && multiset(heaps[i].items) == left[i]
    {
      if i != index {
        assert heaps[i] != heaps[index];
      }
    }
  }

  // ---------- The output of a whole pass ----------

  /** The requests in `out` that came out of queue `i`, in order. */
  ghost function OutOf(out: seq<Request>, from: seq<int>, i: int): seq<Request>
    requires |out| == |from|
  {
    if out == [] then []
    else
      var n := |out| - 1;
      OutOf(out[..n], from[..n], i) + if from[n] == i then [out[n]] else []
  }

  lemma {:induction false} OutOfSnoc(out: seq<Request>, from: seq<int>, r: Request, turn: int, i: int)
    requires |out| == |from|
    ensures OutOf(out + [r], from + [turn], i)
         == OutOf(out, from, i) + if turn == i then [r] else []
  {
    assert (out + [r])[..|out|] == out && (from + [turn])[..|out|] == from;
  }

  ghost predicate OldestFirst(s: seq<Request>) {
    forall a, b :: 0 <= a < b < |s| ==> s[a].created <= s[b].created
  }

  /** Mid-pass, what came out of queue `i` and what it still holds make up what it
      held, and nothing that came out is younger than what is left. */
  ghost predicate PassState(all: multiset<Request>, out: seq<Request>, left: multiset<Request>) {
    && multiset(out) + left == all
    && OldestFirst(out)
    && forall x, y :: x in out && y in left ==> x.created <= y.created
  }

  lemma {:induction false} PassStateExtends(
    all: multiset<Request>, out: seq<Request>, left: multiset<Request>, r: Request)
    requires PassState(all, out, left) && Oldest(left, r)
    ensures PassState(all, out + [r], left - multiset{r})
  {
    assert multiset(out + [r]) == multiset(out) + multiset{r};
    forall x, y | x in out + [r] && y in left - multiset{r} ensures x.created <= y.created {
      assert y in left;
    }
    forall a | 0 <= a < |out| ensures out[a].created <= r.created {
      assert out[a] in out;
    }
  }

  ghost predicate PassStates(queued: seq<multiset<Request>>, out: seq<Request>, from: seq<int>,
                             left: seq<multiset<Request>>)
  {
    && |out| == |from| && |left| == |queued|
    && multiset(out) + Total(left) == Total(queued)
    && forall i :: 0 <= i < |queued| ==> PassState(queued[i], OutOf(out, from, i), left[i])
  }

  lemma {:induction false} PassStep(queued: seq<multiset<Request>>, out: seq<Request>, from: seq<int>,
                 left: seq<multiset<Request>>, turn: int, r: Request)
    requires PassStates(queued, out, from, left)
    requires 0 <= turn < |left| && Oldest(left[turn], r)
    ensures PassStates(queued, out + [r], from + [turn], Taken(left, turn, Some(r)))
    ensures |Total(Taken(left, turn, Some(r)))| < |Total(left)|
  {
    TotalTaken(left, turn, r);
    assert multiset(out + [r]) == multiset(out) + multiset{r};
    forall i | 0 <= i < |queued|
      ensures PassState(queued[i], OutOf(out + [r], from + [turn], i), Taken(left, turn, Some(r))[i])
    {
      PassStepAt(queued[i], out, from, left, turn, r, i);
    }
  }

  lemma {:induction false} PassStepAt(all: multiset<Request>, out: seq<Request>, from: seq<int>,
                   left: seq<multiset<Request>>, turn: int, r: Request, i: nat)
    requires |out| == |from| && i < |left| && PassState(all, OutOf(out, from, i), left[i])
    requires 0 <= turn < |left| && Oldest(left[turn], r)
    ensures PassState(all, OutOf(out + [r], from + [turn], i), Taken(left, turn, Some(r))[i])
  {
    OutOfSnoc(out, from, r, turn, i);
    if i == turn {
      PassStateExtends(all, OutOf(out, from, i), left[i], r);
    } else {
      assert OutOf(out, from, i) + [] == OutOf(out, from, i);
    }
  }

  /** A pass that leaves nothing queued has handed over everything, in order. */
  lemma {:induction false} PassDone(queued: seq<multiset<Request>>, out: seq<Request>, from: seq<int>,
                 left: seq<multiset<Request>>)
    requires PassStates(queued, out, from, left)
    requires forall i :: 0 <= i < |left| ==> left[i] == multiset{}
    ensures Total(left) == multiset{} && multiset(out) == Total(queued)
    ensures forall i :: 0 <= i < |queued| ==>
              multiset(OutOf(out, from, i)) == queued[i] && OldestFirst(OutOf(out, from, i))
  {
    TotalEmpty(left);
    forall i | 0 <= i < |queued|
      ensures multiset(OutOf(out, from, i)) == queued[i] && OldestFirst(OutOf(out, from, i))
    {
      assert PassState(queued[i], OutOf(out, from, i), left[i]);
    }
  }
}
