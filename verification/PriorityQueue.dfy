/** The binary min-heap on creation time, and the locked queue around it. */
module PriorityQueues {
  import opened Types

  /** In a binary heap laid out in a sequence, `k` is a child of `p`. */
  predicate Child(p: nat, k: nat) {
    k == 2 * p + 1 || k == 2 * p + 2
  }

  /** Heap order: no item is older than its parent. */
  ghost predicate HeapOrder(s: seq<Request>) {
    forall p, k :: 0 <= p < k < |s| && Child(p, k) ==> s[p].created <= s[k].created
  }

  /** Heap order except between `hole` and its parent. */
  ghost predicate HeapExceptAbove(s: seq<Request>, hole: nat)
    requires hole < |s|
  {
    && (forall p, k :: 0 <= p < k < |s| && Child(p, k) && k != hole ==> s[p].created <= s[k].created)
    && (forall k :: hole < k < |s| && Child(hole, k) && hole > 0 ==>
                      s[(hole - 1) / 2].created <= s[k].created)
  }

  /** Heap order of the first `n` items except between `hole` and its children. */
  ghost predicate HeapExceptBelow(s: seq<Request>, n: nat, hole: nat)
    requires hole < n <= |s|
  {
    && (forall p, k :: 0 <= p < k < n && Child(p, k) && p != hole ==> s[p].created <= s[k].created)
    && (forall k :: hole < k < n && Child(hole, k) && hole > 0 ==>
                      s[(hole - 1) / 2].created <= s[k].created)
  }

  /** Heap order puts the oldest item first. */
  lemma {:induction false} RootIsOldest(s: seq<Request>, k: nat)
    requires HeapOrder(s) && k < |s|
    ensures s[0].created <= s[k].created
    decreases k
  {
    if k > 0 {
      assert Child((k - 1) / 2, k);
      RootIsOldest(s, (k - 1) / 2);
    }
  }

  /** So the first item is one that may leave the queue. */
  lemma {:induction false} OldestIsFirst(s: seq<Request>)
    requires HeapOrder(s) && s != []
    ensures Oldest(multiset(s), s[0])
  {
    forall other | other in multiset(s) ensures s[0].created <= other.created {
      var k :| 0 <= k < |s| && s[k] == other;
      RootIsOldest(s, k);
    }
  }

  function Swapped(s: seq<Request>, i: nat, j: nat): (t: seq<Request>)
    requires i < |s| && j < |s|
    ensures |t| == |s| && t[i] == s[j] && t[j] == s[i]
    ensures forall k :: 0 <= k < |s| && k != i && k != j ==> t[k] == s[k]
    ensures multiset(t) == multiset(s)
  {
    s[i := s[j]][j := s[i]]
  }

  /** Swapping a hole with its older parent moves the hole up. */
  lemma {:induction false} HoleMovesUp(s: seq<Request>, j: nat)
    requires 0 < j < |s| && HeapExceptAbove(s, j)
    requires s[j].created < s[(j - 1) / 2].created
    ensures HeapExceptAbove(Swapped(s, (j - 1) / 2, j), (j - 1) / 2)
  {
    var i := (j - 1) / 2;
    assert Child(i, j);
    assert i > 0 ==> Child((i - 1) / 2, i);
  }

  /** Swapping a hole with its oldest child moves the hole down. */
  lemma {:induction false} HoleMovesDown(s: seq<Request>, n: nat, i: nat, j: nat)
    requires i < j < n <= |s| && HeapExceptBelow(s, n, i) && Child(i, j)
    requires s[j].created < s[i].created
    requires forall k :: i < k < n && Child(i, k) ==> s[j].created <= s[k].created
    ensures HeapExceptBelow(Swapped(s, i, j), n, j)
  {
    assert i > 0 ==> Child((i - 1) / 2, i);
  }

  /** A hole no younger child can fill is no hole. */
  lemma HoleSettles(s: seq<Request>, n: nat, i: nat)
    requires i < n <= |s| && HeapExceptBelow(s, n, i)
    requires forall k :: i < k < n && Child(i, k) ==> s[i].created <= s[k].created
    ensures HeapOrder(s[..n])
  {
  }

  /** With the root moved out to the end, the rest has its hole at the root. */
  lemma RootBecomesHole(s: seq<Request>)
    requires HeapOrder(s) && |s| > 1
    ensures HeapExceptBelow(Swapped(s, 0, |s| - 1), |s| - 1, 0)
  {
  }

  /** Whatever the rest was sifted into, cutting the end off takes out an oldest item. */
  lemma {:induction false} RootLeaves(before: seq<Request>, after: seq<Request>)
    requires HeapOrder(before) && before != [] && |after| == |before|
    requires multiset(after) == multiset(before)
    requires after[|after| - 1..] == Swapped(before, 0, |before| - 1)[|before| - 1..]
    ensures Oldest(multiset(before), after[|after| - 1])
    ensures multiset(after[..|after| - 1]) == multiset(before) - multiset{after[|after| - 1]}
  {
    var n := |after| - 1;
    assert after[n] == after[n..][0] == before[0];
    OldestIsFirst(before);
    assert after == after[..n] + [after[n]];
  }

  // ---------- container/heap as functions ----------

  /** container/heap's `up`: sift the item at `j` towards the root. */
  function SiftUp(s: seq<Request>, j: nat): (t: seq<Request>)
    requires j < |s|
    ensures |t| == |s|
    decreases j
  {
    var i := (j - 1) / 2;
    if j == 0 || !(s[j].created < s[i].created) then s else SiftUp(Swapped(s, i, j), i)
  }

  /** The older child of `i` among the first `n` items. */
  function OlderChild(s: seq<Request>, n: nat, i: nat): (j: nat)
    requires 2 * i + 1 < n <= |s|
    ensures i < j < n
  {
    var j := 2 * i + 1;
    if j + 1 < n && s[j + 1].created < s[j].created then j + 1 else j
  }

  lemma OlderChildIsOlder(s: seq<Request>, n: nat, i: nat)
    requires 2 * i + 1 < n <= |s|
    ensures var j := OlderChild(s, n, i);
            Child(i, j) && forall k :: i < k < n && Child(i, k) ==> s[j].created <= s[k].created
  {
  }

  /** container/heap's `down`: sift the item at `i` away from the root, within the first
      `n` items. */
  function SiftDown(s: seq<Request>, n: nat, i: nat): (t: seq<Request>)
    requires i < n <= |s|
    ensures |t| == |s|
    decreases n - i
  {
    if 2 * i + 1 >= n then s
    else
      var j := OlderChild(s, n, i);
      if !(s[j].created < s[i].created) then s else SiftDown(Swapped(s, i, j), n, j)
  }

  lemma {:induction false} SiftDownStep(s: seq<Request>, n: nat, i: nat, j: nat)
    requires 2 * i + 1 < n <= |s|
    requires j == if 2 * i + 2 < n && s[2 * i + 2].created < s[2 * i + 1].created then 2 * i + 2 else 2 * i + 1
    ensures SiftDown(s, n, i)
         == if s[j].created < s[i].created then SiftDown(Swapped(s, i, j), n, j) else s
  {
    assert j == OlderChild(s, n, i);
  }

  function HeapPush(s: seq<Request>, r: Request): (t: seq<Request>)
    ensures |t| == |s| + 1
  {
    SiftUp(s + [r], |s|)
  }

  /** The heap just before heap.Pop cuts the end off. */
  function RootOut(s: seq<Request>): (t: seq<Request>)
    requires s != []
    ensures |t| == |s|
  {
    var n := |s| - 1;
    if n == 0 then s else SiftDown(Swapped(s, 0, n), n, 0)
  }

  function HeapPop(s: seq<Request>): (Request, seq<Request>)
    requires s != []
  {
    var n := |s| - 1;
    (RootOut(s)[n], RootOut(s)[..n])
  }

  /** Sifting up closes the hole. */
  lemma {:induction false} SiftUpRestores(s: seq<Request>, j: nat)
    requires j < |s| && HeapExceptAbove(s, j)
    ensures HeapOrder(SiftUp(s, j)) && multiset(SiftUp(s, j)) == multiset(s)
    decreases j
  {
    var i := (j - 1) / 2;
    if j > 0 && s[j].created < s[i].created {
      HoleMovesUp(s, j);
      SiftUpRestores(Swapped(s, i, j), i);
    }
  }

  /** So does sifting down, without touching the rest. */
  lemma {:induction false} SiftDownRestores(s: seq<Request>, n: nat, i: nat)
    requires i < n <= |s| && HeapExceptBelow(s, n, i)
    ensures var t := SiftDown(s, n, i);
            HeapOrder(t[..n]) && multiset(t) == multiset(s) && t[n..] == s[n..]
    decreases n - i
  {
    if 2 * i + 1 >= n {
      HoleSettles(s, n, i);
    } else {
      var j := OlderChild(s, n, i);
      OlderChildIsOlder(s, n, i);
      if s[j].created < s[i].created {
        HoleMovesDown(s, n, i, j);
        SiftDownRestores(Swapped(s, i, j), n, j);
      } else {
        HoleSettles(s, n, i);
      }
    }
  }

  /** Pushing keeps heap order and adds the request. */
  lemma {:induction false} HeapPushKeeps(s: seq<Request>, r: Request)
    requires HeapOrder(s)
    ensures HeapOrder(HeapPush(s, r)) && multiset(HeapPush(s, r)) == multiset(s) + multiset{r}
  {
    SiftUpRestores(s + [r], |s|);
  }

  /** Popping keeps heap order and takes out an oldest request. */
  lemma {:induction false} HeapPopKeeps(s: seq<Request>)
    requires HeapOrder(s) && s != []
    ensures var (r, rest) := HeapPop(s);
            HeapOrder(rest) && Oldest(multiset(s), r) && multiset(rest) == multiset(s) - multiset{r}
  {
    var n := |s| - 1;
    if n > 0 {
      RootBecomesHole(s);
      SiftDownRestores(Swapped(s, 0, n), n, 0);
    }
    RootLeaves(s, RootOut(s));
  }

  class PriorityQueue {
    var items: seq<Request>

    ghost predicate Valid()
      reads this
    {
      HeapOrder(items)
    }

    constructor ()
      ensures Valid() && items == []
    {
      items := [];
    }

    function Len(): nat
      reads this
    {
      |items|
    }

    predicate Less(i: nat, j: nat)
      requires i < |items| && j < |items|
      reads this
    {
      items[i].created < items[j].created
    }

    /** The loop of `up`. */
    method Up(start: nat)
      requires start < |items|
      modifies this
      ensures items == SiftUp(old(items), start)
    {
      var j := start;
      while j > 0
        invariant 0 <= j < |items| && SiftUp(items, j) == SiftUp(old(items), start)
      {
        var i := (j - 1) / 2;
        if !Less(j, i) {
          break;
        }
        items := Swapped(items, i, j);
        j := i;
      }
    }

    /** The loop of `down`. */
    method Down(start: nat, n: nat)
      requires start < n <= |items|
      modifies this
      ensures items == SiftDown(old(items), n, start)
    {
      var i := start;
      while true
        invariant i < n <= |items| && SiftDown(items, n, i) == SiftDown(old(items), n, start)
        decreases n - i
      {
        var j1 := 2 * i + 1;
        if j1 >= n {
          return;
        }
        var j := j1;
        if j1 + 1 < n && Less(j1 + 1, j1) {
          j := j1 + 1;
        }
        SiftDownStep(items, n, i, j);
        if !Less(j, i) {
          return;
        }
        items := Swapped(items, i, j);
        i := j;
      }
    }

    /** heap.Push: append, then sift up. */
    method Push(r: Request)
      requires Valid()
      modifies this
      ensures Valid() && items == HeapPush(old(items), r)
      ensures multiset(items) == old(multiset(items)) + multiset{r}
    {
      items := items + [r];
      Up(|items| - 1);
      HeapPushKeeps(old(items), r);
    }

    /** heap.Pop: swap the root to the end, sift down, cut the end off. */
    method Pop() returns (r: Request)
      requires Valid() && items != []
      modifies this
      ensures Valid() && (r, items) == HeapPop(old(items))
      ensures Oldest(old(multiset(items)), r)
      ensures multiset(items) == old(multiset(items)) - multiset{r}
    {
      HeapPopKeeps(items);
      var n := |items| - 1;
      items := Swapped(items, 0, n);
      if n > 0 {
        Down(0, n);
      }
      r := items[n];
      items := items[..n];
    }
  }

  /** The iterator's `resume` channel: a bounded buffer of wake-up tokens. */
  class ResumeChannel {
    const capacity: nat
    var tokens: nat

    constructor (capacity: nat)
      ensures this.capacity == capacity && tokens == 0
    {
      this.capacity := capacity;
      tokens := 0;
    }

    /** A non-blocking send: a full buffer drops the signal. */
    method Resume()
      modifies this
      ensures tokens == if old(tokens) < capacity then old(tokens) + 1 else old(tokens)
    {
      if tokens < capacity {
        tokens := tokens + 1;
      }
    }
  }

  /** The number of buffered tokens after one non-blocking send. */
  function Signalled(capacity: nat, tokens: nat): nat {
    if tokens < capacity then tokens + 1 else tokens
  }

  /** ... and after `n` of them. */
  function SignalledTimes(capacity: nat, tokens: nat, n: nat): (r: nat)
    ensures n > 0 && capacity > 0 ==> r > 0
    ensures tokens <= capacity ==> r == if tokens + n <= capacity then tokens + n else capacity
    ensures tokens > capacity ==> r == tokens
  {
    if n == 0 then tokens else Signalled(capacity, SignalledTimes(capacity, tokens, n - 1))
  }

  /** How often a handler is registered. */
  function Registrations(handlers: seq<ResumeChannel>, h: ResumeChannel): (n: nat)
    ensures h in handlers ==> n > 0
  {
    if handlers == [] then 0
    else
      var last := |handlers| - 1;
      Registrations(handlers[..last], h) + if handlers[last] == h then 1 else 0
  }

  class PlacementRequestQueue {
    const queue: PriorityQueue
    var pushHandlers: seq<ResumeChannel>

    constructor ()
      ensures fresh(queue) && queue.Valid() && Contents() == multiset{} && pushHandlers == []
    {
      queue := new PriorityQueue();
      pushHandlers := [];
    }

    ghost function Contents(): multiset<Request>
      reads queue
    {
      multiset(queue.items)
    }

    /** Insert, then run every push handler. */
    method Push(r: Request)
      requires queue.Valid()
      modifies queue, pushHandlers
      ensures queue.Valid() && Contents() == old(Contents()) + multiset{r}
      ensures forall h :: h in pushHandlers ==>
                h.tokens == SignalledTimes(h.capacity, old(h.tokens), Registrations(pushHandlers, h))
    {
      queue.Push(r);
      RunHandlers();
    }

    method RunHandlers()
      modifies pushHandlers
      ensures forall h :: h in pushHandlers ==>
                h.tokens == SignalledTimes(h.capacity, old(h.tokens), Registrations(pushHandlers, h))
    {
      for k := 0 to |pushHandlers|
        invariant forall h :: h in pushHandlers ==>
                    h.tokens == SignalledTimes(h.capacity, old(h.tokens), Registrations(pushHandlers[..k], h))
      {
        assert pushHandlers[..k + 1][..k] == pushHandlers[..k];
        pushHandlers[k].Resume();
      }
      assert pushHandlers[..|pushHandlers|] == pushHandlers;
    }

    /** Remove an oldest request, or report that the queue is empty. */
    method Pop() returns (r: Option<Request>)
      requires queue.Valid()
      modifies queue
      ensures queue.Valid()
      ensures r.None? <==> old(Contents()) == multiset{}
      ensures r.None? ==> Contents() == multiset{}
      ensures r.Some? ==> Oldest(old(Contents()), r.value) && Contents() == old(Contents()) - multiset{r.value}
    {
      if queue.Len() == 0 {
        return None;
      }
      assert queue.items[0] in Contents();
      var top := queue.Pop();
      r := Some(top);
    }

    function Len(): (n: nat)
      reads queue
      ensures n == |Contents()|
    {
      queue.Len()
    }

    method AddPushHandler(handler: ResumeChannel)
      modifies this
      ensures pushHandlers == old(pushHandlers) + [handler]
    {
      pushHandlers := pushHandlers + [handler];
    }
  }
}
