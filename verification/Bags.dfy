/** Several queues seen as one bag of requests. */
module Bags {
  import opened Types

  ghost function Total(queues: seq<multiset<Request>>): multiset<Request> {
    if queues == [] then multiset{} else queues[0] + Total(queues[1..])
  }

  lemma {:induction false} TotalUpdate(queues: seq<multiset<Request>>, i: nat, q: multiset<Request>)
    requires i < |queues|
    ensures queues[i] <= Total(queues)
    ensures Total(queues[i := q]) == Total(queues) - queues[i] + q
  {
    if i == 0 {
      assert queues[i := q][1..] == queues[1..];
    } else {
      assert queues[i := q][1..] == queues[1..][i - 1 := q];
      TotalUpdate(queues[1..], i - 1, q);
    }
  }

  lemma {:induction false} TotalEmpty(queues: seq<multiset<Request>>)
    ensures Total(queues) == multiset{} <==> forall i :: 0 <= i < |queues| ==> queues[i] == multiset{}
  {
    if queues != [] {
      TotalEmpty(queues[1..]);
      if forall i :: 0 <= i < |queues| ==> queues[i] == multiset{} {
        assert forall i :: 0 <= i < |queues[1..]| ==> queues[1..][i] == queues[i + 1];
      } else {
        var i :| 0 <= i < |queues| && queues[i] != multiset{};
        TotalUpdate(queues, i, multiset{});
        assert |queues[i]| > 0;
      }
    }
  }

  lemma {:induction false} OldestExists(queue: multiset<Request>) returns (r: Request)
    requires queue != multiset{}
    ensures Oldest(queue, r)
    decreases |queue|
  {
    r :| r in queue;
    var rest := queue - multiset{r};
    if rest != multiset{} {
      var other := OldestExists(rest);
      if other.created < r.created {
        r := other;
      }
    }
  }
}
