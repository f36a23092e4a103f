/** The API promises that a higher `Priority` is served first. A queue orders by creation
    time alone; this is exactly when that comes to the same. */
module Priorities {
  import opened Types
  import opened Bags
  import opened Readers

  /** An order in which a queue may hand over all it holds. */
  ghost predicate MayServe(queue: multiset<Request>, out: seq<Request>) {
    multiset(out) == queue && OldestFirst(out)
  }

  ghost predicate ByPriority(out: seq<Request>) {
    forall a, b :: 0 <= a < b < |out| ==> out[a].priority >= out[b].priority
  }

  /** No request has a lower priority than one that was not created before it. */
  ghost predicate OlderIsMoreUrgent(queue: multiset<Request>) {
    forall x, y :: x in queue && y in queue && x.created <= y.created ==> x.priority >= y.priority
  }

  /** A queue is sure to serve by priority if and only if its requests were created in
      the order of their priorities, those created together having the same. */
  lemma {:induction false} ServedByPriorityIff(queue: multiset<Request>)
    ensures (forall out :: MayServe(queue, out) ==> ByPriority(out)) <==> OlderIsMoreUrgent(queue)
  {
    if OlderIsMoreUrgent(queue) {
      forall out: seq<Request> | MayServe(queue, out) ensures ByPriority(out) {
        forall a, b | 0 <= a < b < |out| ensures out[a].priority >= out[b].priority {
          assert out[a] in multiset(out) && out[b] in multiset(out);
        }
      }
    } else {
      var x, y :| x in queue && y in queue && x.created <= y.created && x.priority < y.priority;
      var out := ServeBefore(queue, x, y);
      assert !ByPriority(out);
    }
  }

  ghost predicate Precedes(out: seq<Request>, x: Request, y: Request) {
    exists a, b :: 0 <= a < b < |out| && out[a] == x && out[b] == y
  }

  /** Of two requests either may be served first, unless it is the younger one. */
  lemma {:induction false} ServeBefore(queue: multiset<Request>, x: Request, y: Request)
    returns (out: seq<Request>)
    requires x in queue && y in queue && x != y && x.created <= y.created
    ensures MayServe(queue, out) && Precedes(out, x, y)
    decreases |queue|
  {
    var rest;
    if Oldest(queue, x) {
      rest := ServeAll(queue - multiset{x});
      ServeFirst(queue, x, rest);
      FirstPrecedes(x, rest, y);
      out := [x] + rest;
    } else {
      var o := OldestExists(queue);
      rest := ServeBefore(queue - multiset{o}, x, y);
      ServeFirst(queue, o, rest);
      StillPrecedes(o, rest, x, y);
      out := [o] + rest;
    }
  }

  lemma {:induction false} FirstPrecedes(x: Request, rest: seq<Request>, y: Request)
    requires y in multiset(rest)
    ensures Precedes([x] + rest, x, y)
  {
    var i :| 0 <= i < |rest| && rest[i] == y;
    assert ([x] + rest)[0] == x && ([x] + rest)[i + 1] == y;
  }

  lemma {:induction false} StillPrecedes(o: Request, rest: seq<Request>, x: Request, y: Request)
    requires Precedes(rest, x, y)
    ensures Precedes([o] + rest, x, y)
  {
    var a, b :| 0 <= a < b < |rest| && rest[a] == x && rest[b] == y;
    assert ([o] + rest)[a + 1] == x && ([o] + rest)[b + 1] == y;
  }

  lemma {:induction false} ServeAll(queue: multiset<Request>) returns (out: seq<Request>)
    ensures MayServe(queue, out)
    decreases |queue|
  {
    if queue == multiset{} {
      out := [];
    } else {
      var o := OldestExists(queue);
      var rest := ServeAll(queue - multiset{o});
      ServeFirst(queue, o, rest);
      out := [o] + rest;
    }
  }

  lemma {:induction false} ServeFirst(queue: multiset<Request>, o: Request, rest: seq<Request>)
    requires Oldest(queue, o) && MayServe(queue - multiset{o}, rest)
    ensures MayServe(queue, [o] + rest)
  {
    forall b | 0 <= b < |rest| ensures o.created <= rest[b].created {
      assert rest[b] in multiset(rest);
    }
  }

  /** Two requests, the more urgent one created a moment later: it is served last. */
  lemma {:induction false} UrgentServedLast() returns (low: Request, high: Request)
    ensures low.priority < high.priority && low != high && |low.bindings| > 0 && |high.bindings| > 0
    ensures forall out :: MayServe(multiset{low, high}, out) ==> out == [low, high]
  {
    low := Request("low", 0, 1, false, "s", Lenient, [Binding("p", "1", "n")]);
    high := Request("high", 1, 2, false, "s", Lenient, [Binding("q", "2", "n")]);
    forall out | MayServe(multiset{low, high}, out) ensures out == [low, high] {
      assert |out| == |multiset(out)| == 2;
      assert out[0] in multiset(out) && out[1] in multiset(out);
      assert out == [out[0], out[1]];
      assert multiset{low, high}[out[0]] == 1;
    }
  }
}
