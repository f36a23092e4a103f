/** How many requests of other queues the round-robin reader may still serve
    before queue `j`, read off its counters. */
module Waiting {
  import opened Sums
  import opened RoundRobin
  import opened Cursor

  /** The quota each queue has left in this round. */
  function Left(max: seq<int>, read: seq<int>): (s: seq<int>)
    requires |max| == |read|
    ensures |s| == |max|
    ensures forall k :: 0 <= k < |s| ==> s[k] == if read[k] < max[k] then max[k] - read[k] else 0
  {
    seq(|max|, k requires 0 <= k < |max| => if read[k] < max[k] then max[k] - read[k] else 0)
  }

  /** If `j` has quota left, what the queues before it have left; otherwise what the
      queues after it have left, and then a round of those before it. */
  function Wait(max: seq<int>, read: seq<int>, j: nat): int
    requires |max| == |read| && j < |max|
  {
    if read[j] < max[j] then Sum(Left(max, read)[..j])
    else Sum(Left(max, read)[j + 1..]) + Sum(max[..j])
  }

  /** A full round of all the other queues. */
  function OtherQuotas(max: seq<int>, j: nat): int
    requires j < |max|
  {
    Sum(max[..j]) + Sum(max[j + 1..])
  }

  ghost predicate NonNegative(read: seq<int>) {
    forall k :: 0 <= k < |read| ==> read[k] >= 0
  }

  lemma {:induction false} WaitIsBounded(max: seq<int>, read: seq<int>, j: nat)
    requires |max| == |read| && j < |max| && NonNegative(read) && PositiveMax(max)
    ensures 0 <= Wait(max, read, j) <= OtherQuotas(max, j)
  {
    var left := Left(max, read);
    SumNonNegative(left[..j]);
    SumNonNegative(left[j + 1..]);
    SumNonNegative(max[..j]);
    SumNonNegative(max[j + 1..]);
    SumMonotone(left[..j], max[..j]);
    SumMonotone(left[j + 1..], max[j + 1..]);
  }

  /** Just after another queue was served, one turn is already used up. */
  lemma {:induction false} WaitAfterServe(max: seq<int>, read: seq<int>, i: nat, j: nat)
    requires CursorAt(max, read, i) && i < |max| && j < |max| && i != j
    requires NonNegative(read) && PositiveMax(max) && read[i] > 0
    ensures Wait(max, read, j) < OtherQuotas(max, j)
  {
    var left := Left(max, read);
    SumNonNegative(max[..j]);
    SumNonNegative(max[j + 1..]);
    if i < j {
      SumStrictlyMonotone(left[..j], max[..j], i);
    } else {
      SumStrictlyMonotone(left[j + 1..], max[j + 1..], i - j - 1);
    }
  }

  /** Serving another queue shortens the wait, unless it takes no quota. */
  lemma {:induction false} ServeShortensWait(max: seq<int>, read: seq<int>, i: nat, j: nat, size: nat)
    requires CursorOrder(max, read) && PositiveMax(max) && i == NextQueue(max, read) && i < |max|
    requires j < |max| && i != j
    ensures Wait(max, Charged(read, i, size), j) + (if size > 0 then 1 else 0) <= Wait(max, read, j)
  {
    if size == 0 {
      assert Charged(read, i, 0) == read;
      return;
    }
    var before, after := Left(max, read), Left(max, Charged(read, i, size));
    if read[j] < max[j] {
      SumStrictlyMonotone(after[..j], before[..j], i);
    } else {
      assert i > j;
      SumStrictlyMonotone(after[j + 1..], before[j + 1..], i - j - 1);
    }
  }

  lemma {:induction false} SkipKeepsWait(max: seq<int>, read: seq<int>, i: nat, j: nat)
    requires |max| == |read| && i < |max| && j < |max| && i != j && read[i] < max[i]
    ensures Wait(max, read[i := max[i]], j) <= Wait(max, read, j)
  {
    var before, after := Left(max, read), Left(max, read[i := max[i]]);
    SumMonotone(after[..j], before[..j]);
    SumMonotone(after[j + 1..], before[j + 1..]);
  }

  lemma {:induction false} NewRoundKeepsWait(max: seq<int>, read: seq<int>, j: nat)
    requires |max| == |read| && j < |max| && PositiveMax(max)
    ensures Wait(max, Chosen(max, read), j) <= Wait(max, read, j)
  {
    if NextQueue(max, read) < 0 {
      assert !QuotaLeft(max, read)[j];
      assert Left(max, Zeros(|max|)) == max;
      SumNonNegative(Left(max, read)[j + 1..]);
    }
  }
}
