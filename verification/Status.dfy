/** The status of a placement request: one result per pod, and the verdict. */
module Status {
  import opened Types

  datatype Result = Unknown | Success | PartialSuccess | Failure | Rejected

  /** The result of one binding. */
  datatype Entry = Entry(binding: Binding, result: Result, reason: string)

  datatype Status = Status(result: Result, reason: string, bindings: seq<Entry>)

  /** How one binding went. */
  datatype Outcome = Outcome(result: Result, reason: string)

  class PlacementRequest {
    const request: Request
    var status: Status

    constructor (request: Request)
      ensures this.request == request && status == Status(Unknown, "", [])
    {
      this.request := request;
      status := Status(Unknown, "", []);
    }
  }

  datatype ValidationError = NoBindings | UnsupportedPolicy

  function ValidateRequest(r: Request): (err: Option<ValidationError>)
    ensures err.None? <==> r.bindings != [] && r.policy == Lenient
    ensures err == Some(NoBindings) <==> r.bindings == []
  {
    if |r.bindings| == 0 then Some(NoBindings)
    else if r.policy != Lenient then Some(UnsupportedPolicy)
    else None
  }

  // ---------- One entry per pod ----------

  function EntryFor(b: Binding, o: Outcome): Entry {
    Entry(b, o.result, o.reason)
  }

  /** The entry is about that binding, with that result and reason. */
  predicate Tells(e: Entry, b: Binding, result: Result, reason: string) {
    e.binding == b && e.result == result && e.reason == reason
  }

  /** The position of the first entry for a pod, or the end. */
  function Position(entries: seq<Entry>, uid: string): (i: nat)
    ensures i <= |entries|
    ensures i < |entries| ==> entries[i].binding.podUID == uid
    ensures forall k :: 0 <= k < i ==> entries[k].binding.podUID != uid
  {
    if entries == [] then 0
    else if entries[0].binding.podUID == uid then 0
    else 1 + Position(entries[1..], uid)
  }

  lemma PositionIs(entries: seq<Entry>, uid: string, i: nat)
    requires i <= |entries| && (i < |entries| ==> entries[i].binding.podUID == uid)
    requires forall k :: 0 <= k < i ==> entries[k].binding.podUID != uid
    ensures Position(entries, uid) == i
  {
  }

  /** Overwrite the entry for the pod, or append one. */
  function Upsert(entries: seq<Entry>, b: Binding, o: Outcome): seq<Entry> {
    var i := Position(entries, b.podUID);
    if i < |entries| then entries[i := EntryFor(b, o)] else entries + [EntryFor(b, o)]
  }

  /** The first entry of the pod, or a new one at the end, tells that result of the
      binding, and every other entry is as before. */
  ghost predicate Rewritten(before: seq<Entry>, after: seq<Entry>, b: Binding, result: Result, reason: string) {
    var i := Position(before, b.podUID);
    && |after| == (if i < |before| then |before| else |before| + 1)
    && Tells(after[i], b, result, reason)
    && forall k :: 0 <= k < |before| && k != i ==> after[k] == before[k]
  }

  lemma UpsertRewrites(entries: seq<Entry>, b: Binding, o: Outcome)
    ensures Rewritten(entries, Upsert(entries, b, o), b, o.result, o.reason)
  {
  }

  method SetPodBindingResult(pr: PlacementRequest, b: Binding, o: Outcome)
    modifies pr
    ensures pr.status == old(pr.status).(bindings := Upsert(old(pr.status.bindings), b, o))
    ensures Rewritten(old(pr.status.bindings), pr.status.bindings, b, o.result, o.reason)
  {
    UpsertRewrites(pr.status.bindings, b, o);
    var i := 0;
    while i < |pr.status.bindings|
      invariant i <= |pr.status.bindings|
      invariant pr.status == old(pr.status)
      invariant forall k :: 0 <= k < i ==> pr.status.bindings[k].binding.podUID != b.podUID
    {
      if pr.status.bindings[i].binding.podUID == b.podUID {
        PositionIs(pr.status.bindings, b.podUID, i);
        pr.status := pr.status.(bindings := pr.status.bindings[i := Entry(b, o.result, o.reason)]);
        return;
      }
      i := i + 1;
    }
    PositionIs(pr.status.bindings, b.podUID, i);
    pr.status := pr.status.(bindings := pr.status.bindings + [Entry(b, o.result, o.reason)]);
  }

  /** Recording the outcomes of a list of bindings one after the other. */
  function Recorded(entries: seq<Entry>, spec: seq<Binding>, outs: seq<Outcome>): seq<Entry>
    requires |spec| == |outs|
  {
    if spec == [] then entries
    else
      var n := |spec| - 1;
      Upsert(Recorded(entries, spec[..n], outs[..n]), spec[n], outs[n])
  }

  lemma {:induction false} RecordedMore(spec: seq<Binding>, outs: seq<Outcome>, o: Outcome)
    requires |outs| < |spec|
    ensures Recorded([], spec[..|outs| + 1], outs + [o])
         == Upsert(Recorded([], spec[..|outs|], outs), spec[|outs|], o)
  {
    var k := |outs|;
    assert spec[..k + 1][..k] == spec[..k] && (outs + [o])[..k] == outs;
  }

  // ---------- What the entries end up as ----------

  /** The pods of a spec, in order of first mention. */
  function Pods(spec: seq<Binding>): seq<string> {
    if spec == [] then []
    else
      var n := |spec| - 1;
      Pods(spec[..n]) + if spec[n].podUID in Pods(spec[..n]) then [] else [spec[n].podUID]
  }

  /** `k` is where the spec mentions the pod last. */
  ghost predicate LastMention(spec: seq<Binding>, uid: string, k: int) {
    && 0 <= k < |spec| && spec[k].podUID == uid
    && forall j :: k < j < |spec| ==> spec[j].podUID != uid
  }

  ghost predicate FirstMention(spec: seq<Binding>, uid: string, k: int) {
    && 0 <= k < |spec| && spec[k].podUID == uid
    && forall j :: 0 <= j < k ==> spec[j].podUID != uid
  }

  lemma {:induction false} PodsAreMentioned(spec: seq<Binding>)
    ensures forall uid :: uid in Pods(spec) <==> exists k :: 0 <= k < |spec| && spec[k].podUID == uid
  {
    if spec != [] {
      PodsAreMentioned(spec[..|spec| - 1]);
    }
  }

  /** `Pods` lists the pods of the spec by first mention. */
  lemma {:induction false} PodsByFirstMention(spec: seq<Binding>)
    ensures forall a, b, j, k ::
              0 <= a < b < |Pods(spec)|
              && FirstMention(spec, Pods(spec)[a], j) && FirstMention(spec, Pods(spec)[b], k)
              ==> j < k
  {
    if spec != [] {
      var n := |spec| - 1;
      PodsByFirstMention(spec[..n]);
      PodsAreMentioned(spec[..n]);
      assert forall uid, k :: 0 <= k < n ==> (FirstMention(spec, uid, k) <==> FirstMention(spec[..n], uid, k));
    }
  }

  /** The entry of a pod is its last binding in the spec with that binding's own outcome. */
  ghost predicate HoldsLast(e: Entry, uid: string, spec: seq<Binding>, outs: seq<Outcome>)
    requires |spec| == |outs|
  {
    exists k :: LastMention(spec, uid, k) && Tells(e, spec[k], outs[k].result, outs[k].reason)
  }

  lemma {:induction false} HoldsLastExtends(e: Entry, uid: string, spec: seq<Binding>, outs: seq<Outcome>, n: nat)
    requires |spec| == |outs| == n + 1 && spec[n].podUID != uid
    requires HoldsLast(e, uid, spec[..n], outs[..n])
    ensures HoldsLast(e, uid, spec, outs)
  {
    var k :| LastMention(spec[..n], uid, k) && Tells(e, spec[..n][k], outs[..n][k].result, outs[..n][k].reason);
    assert LastMention(spec, uid, k);
  }

  lemma {:induction false} PodsAreDistinct(spec: seq<Binding>)
    ensures forall a, b :: 0 <= a < b < |Pods(spec)| ==> Pods(spec)[a] != Pods(spec)[b]
  {
    if spec != [] {
      PodsAreDistinct(spec[..|spec| - 1]);
    }
  }

  /** Status fold: whatever the duplicates and the outcomes, processing a spec from
      an empty status leaves one entry per pod, in order of first mention, each
      holding the pod's last binding and that binding's own outcome. */
  lemma {:induction false} RecordedIsLastPerPod(spec: seq<Binding>, outs: seq<Outcome>)
    requires |spec| == |outs|
    ensures |Recorded([], spec, outs)| == |Pods(spec)|
    ensures forall i :: 0 <= i < |Pods(spec)| ==>
              HoldsLast(Recorded([], spec, outs)[i], Pods(spec)[i], spec, outs)
  {
    if spec != [] {
      var n := |spec| - 1;
      RecordedIsLastPerPod(spec[..n], outs[..n]);
      RecordLast(Recorded([], spec[..n], outs[..n]), Pods(spec[..n]), spec, outs, n);
    }
  }

  /** Recording one more binding keeps one entry per pod. */
  lemma {:induction false} RecordLast(
    entries: seq<Entry>, pods: seq<string>, spec: seq<Binding>, outs: seq<Outcome>, n: nat)
    requires |spec| == |outs| == n + 1 && |entries| == |pods| && pods == Pods(spec[..n])
    requires forall i :: 0 <= i < |pods| ==> HoldsLast(entries[i], pods[i], spec[..n], outs[..n])
    ensures var after := Upsert(entries, spec[n], outs[n]);
            && |after| == |Pods(spec)|
            && forall i :: 0 <= i < |after| ==> HoldsLast(after[i], Pods(spec)[i], spec, outs)
  {
    var uid, after := spec[n].podUID, Upsert(entries, spec[n], outs[n]);
    var at := Position(entries, uid);
    PodsAreDistinct(spec[..n]);
    assert forall i :: 0 <= i < |pods| ==> entries[i].binding.podUID == pods[i];
    assert at < |entries| <==> uid in pods;
    forall i | 0 <= i < |after| ensures HoldsLast(after[i], Pods(spec)[i], spec, outs) {
      if i == at {
        assert LastMention(spec, uid, n) && after[i] == EntryFor(spec[n], outs[n]);
      } else {
        assert Pods(spec)[i] == pods[i] && pods[i] != uid;
        HoldsLastExtends(entries[i], pods[i], spec, outs, n);
      }
    }
  }

  // ---------- The verdict ----------

  function Succeeded(entries: seq<Entry>): nat {
    if entries == [] then 0
    else (if entries[|entries| - 1].result == Success then 1 else 0) + Succeeded(entries[..|entries| - 1])
  }

  function Verdict(entries: seq<Entry>): Result {
    if entries == [] then Rejected
    else if Succeeded(entries) == 0 then Failure
    else if Succeeded(entries) == |entries| then Success
    else PartialSuccess
  }

  lemma {:induction false} SucceededCounts(entries: seq<Entry>)
    ensures Succeeded(entries) <= |entries|
    ensures Succeeded(entries) == |entries| <==> forall k :: 0 <= k < |entries| ==> entries[k].result == Success
    ensures Succeeded(entries) == 0 <==> forall k :: 0 <= k < |entries| ==> entries[k].result != Success
  {
    if entries != [] {
      SucceededCounts(entries[..|entries| - 1]);
    }
  }

  /** The verdict says whether all, some or none of the entries succeeded. */
  method AssessResult(pr: PlacementRequest) returns (verdict: Result)
    ensures verdict == Verdict(pr.status.bindings)
    ensures var es := pr.status.bindings;
            && (verdict == Rejected <==> es == [])
            && (verdict == Success <==> es != [] && forall k :: 0 <= k < |es| ==> es[k].result == Success)
            && (verdict == Failure <==> es != [] && forall k :: 0 <= k < |es| ==> es[k].result != Success)
            && verdict in {Rejected, Success, Failure, PartialSuccess}
  {
    SucceededCounts(pr.status.bindings);
    if |pr.status.bindings| == 0 {
      return Rejected;
    }
    var successes := 0;
    for k := 0 to |pr.status.bindings|
      invariant successes == Succeeded(pr.status.bindings[..k])
    {
      assert pr.status.bindings[..k + 1][..k] == pr.status.bindings[..k];
      if pr.status.bindings[k].result == Success {
        successes := successes + 1;
      }
    }
    assert pr.status.bindings[..|pr.status.bindings|] == pr.status.bindings;
    verdict := if successes == 0 then Failure
               else if successes == |pr.status.bindings| then Success
               else PartialSuccess;
  }
}
