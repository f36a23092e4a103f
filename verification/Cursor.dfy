/** The counters of the round-robin reader hide a single cursor. */
module Cursor {
  import opened RoundRobin

  /** While a queue still has quota, the queues after it have not been read. */
  ghost predicate CursorOrder(max: seq<int>, read: seq<int>) {
    && |max| == |read|
    && forall i, k :: 0 <= i < k < |max| && read[i] < max[i] ==> read[k] == 0
  }

  /** Everything before `c` is out of quota and everything after it untouched. */
  ghost predicate CursorAt(max: seq<int>, read: seq<int>, c: int) {
    && |max| == |read| && 0 <= c <= |max|
    && (forall k :: 0 <= k < c ==> read[k] >= max[k])
    && (forall k :: c < k < |max| ==> read[k] == 0)
  }

  ghost predicate PositiveMax(max: seq<int>) {
    forall k :: 0 <= k < |max| ==> max[k] > 0
  }

  lemma {:induction false} CursorExists(max: seq<int>, read: seq<int>)
    requires |max| == |read|
    ensures CursorOrder(max, read) <==> exists c :: CursorAt(max, read, c)
  {
    if CursorOrder(max, read) {
      var c := NextQueue(max, read);
      assert CursorAt(max, read, if c < 0 then |max| else c);
    }
  }

  /** The one-cursor machine: the queue being read and what it has used. */
  datatype Position = Position(queue: nat, used: int)

  function Here(max: seq<int>, read: seq<int>): Position
    requires |max| == |read|
  {
    var i := NextQueue(max, read);
    if i < 0 then Position(|max|, 0) else Position(i, read[i])
  }

  function ServeHere(max: seq<int>, at: Position, size: nat): Position
    requires at.queue < |max|
  {
    if at.used + size < max[at.queue] then Position(at.queue, at.used + size) else Position(at.queue + 1, 0)
  }

  function SkipHere(at: Position): Position {
    Position(at.queue + 1, 0)
  }

  lemma {:induction false} HereIs(max: seq<int>, read: seq<int>, c: int)
    requires CursorAt(max, read, c) && (c < |max| ==> read[c] < max[c])
    ensures Here(max, read) == if c < |max| then Position(c, read[c]) else Position(|max|, 0)
  {
    if c < |max| {
      FirstTrueIs(QuotaLeft(max, read), c);
    } else {
      FirstTrueNone(QuotaLeft(max, read));
    }
  }

  /** Serving a request, passing over an empty queue and beginning a new round do
      to the counters what the cursor machine does to its position. */
  lemma {:induction false} ServeRefines(max: seq<int>, read: seq<int>, i: nat, size: nat)
    requires CursorOrder(max, read) && PositiveMax(max) && i == NextQueue(max, read) && i < |max|
    ensures CursorAt(max, Charged(read, i, size), i) && CursorOrder(max, Charged(read, i, size))
    ensures Here(max, Charged(read, i, size)) == ServeHere(max, Here(max, read), size)
  {
    var after := Charged(read, i, size);
    HereIs(max, after, if after[i] < max[i] then i else i + 1);
  }

  lemma {:induction false} SkipRefines(max: seq<int>, read: seq<int>, i: nat)
    requires CursorOrder(max, read) && PositiveMax(max) && i == NextQueue(max, read) && i < |max|
    ensures CursorOrder(max, read[i := max[i]])
    ensures Here(max, read[i := max[i]]) == SkipHere(Here(max, read))
  {
    HereIs(max, read[i := max[i]], i + 1);
  }

  lemma {:induction false} NewRoundRefines(max: seq<int>, read: seq<int>)
    requires |max| == |read| && max != [] && PositiveMax(max) && NextQueue(max, read) < 0
    ensures CursorOrder(max, Chosen(max, read))
    ensures Here(max, read) == Position(|max|, 0) && Here(max, Chosen(max, read)) == Position(0, 0)
  {
    HereIs(max, Zeros(|max|), 0);
  }
}
