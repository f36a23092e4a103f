/** The order in which the heap hands over requests created at the same time: it depends
    on the order they were pushed in, so any of them may come first. */
module HeapOrders {
  import opened Types
  import opened PriorityQueues
  import opened Priorities

  /** The heap after pushing these requests one after the other. */
  function PushAll(order: seq<Request>): seq<Request> {
    if order == [] then []
    else
      var n := |order| - 1;
      HeapPush(PushAll(order[..n]), order[n])
  }

  /** What popping the heap until it is empty hands over. */
  function Drain(s: seq<Request>): (out: seq<Request>)
    ensures |out| == |s|
    decreases |s|
  {
    if s == [] then []
    else
      var (r, rest) := HeapPop(s);
      [r] + Drain(rest)
  }

  lemma {:induction false} PushAllIsHeap(order: seq<Request>)
    ensures HeapOrder(PushAll(order)) && multiset(PushAll(order)) == multiset(order)
  {
    if order != [] {
      var n := |order| - 1;
      PushAllIsHeap(order[..n]);
      HeapPushKeeps(PushAll(order[..n]), order[n]);
      assert order == order[..n] + [order[n]];
    }
  }

  lemma {:induction false} DrainServes(s: seq<Request>)
    requires HeapOrder(s)
    ensures MayServe(multiset(s), Drain(s))
    decreases |s|
  {
    if s != [] {
      var (r, rest) := HeapPop(s);
      HeapPopKeeps(s);
      DrainServes(rest);
      ServeFirst(multiset(s), r, Drain(rest));
    }
  }

  /** What the heap hands over when the requests are pushed in this order. */
  function Served(order: seq<Request>): (out: seq<Request>) {
    Drain(PushAll(order))
  }

  lemma {:induction false} ServedMayServe(order: seq<Request>)
    ensures MayServe(multiset(order), Served(order))
  {
    PushAllIsHeap(order);
    DrainServes(PushAll(order));
  }

  // ---------- The heap looks at creation times only ----------

  ghost predicate KeepsTime(f: Request -> Request) {
    forall r :: f(r).created == r.created
  }

  function Map(f: Request -> Request, s: seq<Request>): (t: seq<Request>)
    ensures |t| == |s| && forall k :: 0 <= k < |s| ==> t[k] == f(s[k])
  {
    seq(|s|, k requires 0 <= k < |s| => f(s[k]))
  }

  lemma {:induction false} MapSwapped(f: Request -> Request, s: seq<Request>, i: nat, j: nat)
    requires i < |s| && j < |s|
    ensures Map(f, Swapped(s, i, j)) == Swapped(Map(f, s), i, j)
  {
  }

  lemma {:induction false} MapSiftUp(f: Request -> Request, s: seq<Request>, j: nat)
    requires KeepsTime(f) && j < |s|
    ensures Map(f, SiftUp(s, j)) == SiftUp(Map(f, s), j)
    decreases j
  {
    var i := (j - 1) / 2;
    if j > 0 && s[j].created < s[i].created {
      MapSwapped(f, s, i, j);
      MapSiftUp(f, Swapped(s, i, j), i);
    }
  }

  lemma {:induction false} MapSiftDown(f: Request -> Request, s: seq<Request>, n: nat, i: nat)
    requires KeepsTime(f) && i < n <= |s|
    ensures Map(f, SiftDown(s, n, i)) == SiftDown(Map(f, s), n, i)
    decreases n - i
  {
    if 2 * i + 1 < n {
      var j := OlderChild(s, n, i);
      assert j == OlderChild(Map(f, s), n, i);
      if s[j].created < s[i].created {
        MapSwapped(f, s, i, j);
        MapSiftDown(f, Swapped(s, i, j), n, j);
      }
    }
  }

  lemma {:induction false} MapPushAll(f: Request -> Request, order: seq<Request>)
    requires KeepsTime(f)
    ensures Map(f, PushAll(order)) == PushAll(Map(f, order))
  {
    if order != [] {
      var n := |order| - 1;
      var heap := PushAll(order[..n]);
      MapPushAll(f, order[..n]);
      assert Map(f, order)[..n] == Map(f, order[..n]);
      assert Map(f, heap + [order[n]]) == Map(f, heap) + [f(order[n])];
      MapSiftUp(f, heap + [order[n]], |heap|);
    }
  }

  lemma {:induction false} MapPop(f: Request -> Request, s: seq<Request>)
    requires KeepsTime(f) && s != []
    ensures HeapPop(Map(f, s)) == (f(HeapPop(s).0), Map(f, HeapPop(s).1))
  {
    var n := |s| - 1;
    if n > 0 {
      MapSwapped(f, s, 0, n);
      MapSiftDown(f, Swapped(s, 0, n), n, 0);
    }
    assert Map(f, RootOut(s)) == RootOut(Map(f, s));
    assert Map(f, RootOut(s)[..n]) == Map(f, RootOut(s))[..n];
  }

  lemma {:induction false} MapDrain(f: Request -> Request, s: seq<Request>)
    requires KeepsTime(f)
    ensures Map(f, Drain(s)) == Drain(Map(f, s))
    decreases |s|
  {
    if s != [] {
      MapPop(f, s);
      MapDrain(f, HeapPop(s).1);
    }
  }

  lemma {:induction false} MapServed(f: Request -> Request, order: seq<Request>)
    requires KeepsTime(f)
    ensures Map(f, Served(order)) == Served(Map(f, order))
  {
    MapPushAll(f, order);
    MapDrain(f, PushAll(order));
  }

  // ---------- Either of two requests may come first ----------

  /** The requests with their place in the push order for a priority. */
  function Tagged(order: seq<Request>): (t: seq<Request>)
    ensures |t| == |order| && forall k :: 0 <= k < |t| ==> t[k] == order[k].(priority := k)
  {
    seq(|order|, k requires 0 <= k < |order| => order[k].(priority := k))
  }

  /** Replaces a tagged request by the one at that place of `order`. */
  function Untag(order: seq<Request>): Request -> Request {
    (r: Request) =>
      if 0 <= r.priority < |order| && order[r.priority].created == r.created then order[r.priority] else r
  }

  ghost predicate SameTimes(a: seq<Request>, b: seq<Request>) {
    |a| == |b| && forall k :: 0 <= k < |a| ==> a[k].created == b[k].created
  }

  lemma {:induction false} UntagTagged(order: seq<Request>, other: seq<Request>)
    requires SameTimes(order, other)
    ensures KeepsTime(Untag(other)) && Map(Untag(other), Tagged(order)) == other
  {
  }

  lemma {:induction false} ServedAreTagged(order: seq<Request>, k: nat)
    requires k < |order|
    ensures |Served(Tagged(order))| == |order|
    ensures Served(Tagged(order))[k] in Tagged(order)
  {
    var tagged := Tagged(order);
    ServedMayServe(tagged);
    assert |multiset(Served(tagged))| == |multiset(tagged)|;
    assert Served(tagged)[k] in multiset(Served(tagged));
  }

  /** Orders with the same creation times are served alike, place by place. */
  lemma {:induction false} ServedAlike(order: seq<Request>, other: seq<Request>, k: nat, a: nat)
    requires SameTimes(order, other) && k < |order| && a < |order|
    requires |Served(Tagged(order))| == |order| && Served(Tagged(order))[k] == Tagged(order)[a]
    ensures |Served(other)| == |order| && Served(other)[k] == other[a]
  {
    UntagTagged(order, other);
    MapServed(Untag(other), Tagged(order));
  }

  /** Where the heap puts the request pushed at place `a`. */
  lemma {:induction false} PlaceOf(order: seq<Request>, a: nat) returns (p: nat)
    requires a < |order|
    ensures p < |Served(Tagged(order))| == |order| && Served(Tagged(order))[p] == Tagged(order)[a]
  {
    ServedAreTagged(order, a);
    ServedMayServe(Tagged(order));
    assert Tagged(order)[a] in multiset(Served(Tagged(order)));
    p :| 0 <= p < |Served(Tagged(order))| && Served(Tagged(order))[p] == Tagged(order)[a];
  }

  /** A request goes before one not created before it, if they are pushed in the right
      order. */
  lemma {:induction false} PushedToPrecede(queue: multiset<Request>, x: Request, y: Request)
    returns (order: seq<Request>)
    requires x in queue && y in queue && x != y && x.created <= y.created
    ensures multiset(order) == queue && Precedes(Served(order), x, y)
  {
    var base := ServeAll(queue);
    assert x in multiset(base) && y in multiset(base);
    var a: nat :| a < |base| && base[a] == x;
    var b: nat :| b < |base| && base[b] == y;
    order := PushedInTurn(base, a, b);
  }

  lemma {:induction false} PushedInTurn(base: seq<Request>, a: nat, b: nat) returns (order: seq<Request>)
    requires a < |base| && b < |base| && a != b && base[a].created <= base[b].created
    ensures multiset(order) == multiset(base) && Precedes(Served(order), base[a], base[b])
  {
    var p := PlaceOf(base, a);
    var q := PlaceOf(base, b);
    if p < q {
      order := base;
      ServedAlike(base, base, p, a);
      ServedAlike(base, base, q, b);
    } else {
      NotLater(base, a, b, p, q);
      order := Swapped(base, a, b);
      ServedAlike(base, order, p, a);
      ServedAlike(base, order, q, b);
    }
  }

  lemma {:induction false} NotLater(order: seq<Request>, a: nat, b: nat, p: nat, q: nat)
    requires a < |order| && b < |order| && a != b && order[a].created <= order[b].created
    requires q <= p < |Served(Tagged(order))|
    requires Served(Tagged(order))[p] == Tagged(order)[a] && Served(Tagged(order))[q] == Tagged(order)[b]
    ensures q < p && order[a].created == order[b].created
  {
    ServedMayServe(Tagged(order));
  }

  /** The heap is sure to serve by priority, in whatever order the requests are pushed, if
      and only if no request has a lower priority than one not created before it. */
  lemma {:induction false} HeapServesByPriorityIff(queue: multiset<Request>)
    ensures (forall order :: multiset(order) == queue ==> ByPriority(Served(order))) <==> OlderIsMoreUrgent(queue)
  {
    if OlderIsMoreUrgent(queue) {
      ServedByPriorityIff(queue);
      forall order: seq<Request> | multiset(order) == queue ensures ByPriority(Served(order)) {
        ServedMayServe(order);
      }
    } else {
      var x: Request, y: Request :|
        x in queue && y in queue && x.created <= y.created && x.priority < y.priority;
      var order := PushedToPrecede(queue, x, y);
      assert !ByPriority(Served(order));
    }
  }
}
