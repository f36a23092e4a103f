/** The controller: admission into the queues and the processing of one request. */
module Controller {
  import opened Types
  import opened Int64
  import opened Config
  import opened PriorityQueues
  import opened Status

  // ---------- Admission ----------

  /** The queue of the request's scheduler takes it: there is one, and the request is
      not too large for it. */
  predicate Accepted(queues: map<string, QueueConfig<PlacementRequestQueue>>, r: Request) {
    && r.schedulerName != "" && r.schedulerName in queues
    && |r.bindings| <= ToInt(queues[r.schedulerName].maxSize)
  }

  /** Either the request ends up in the queue of its scheduler, or its status says
      why not, or (with no scheduler name) nothing happens. */
  method Enqueue(queues: map<string, QueueConfig<PlacementRequestQueue>>, pr: PlacementRequest,
                 ghost heaps: set<PriorityQueue>, ghost channels: set<ResumeChannel>)
    requires forall name :: name in queues ==>
               && queues[name].queueRef.Some?
               && queues[name].queueRef.value.queue in heaps
               && queues[name].queueRef.value.queue.Valid()
               && forall h :: h in queues[name].queueRef.value.pushHandlers ==> h in channels
    modifies pr, heaps, channels
    ensures pr.request.schedulerName == "" || Accepted(queues, pr.request) ==> pr.status == old(pr.status)
    ensures pr.request.schedulerName != "" && pr.request.schedulerName !in queues ==>
              pr.status == Status(Rejected, "QueueNotFound", old(pr.status.bindings))
    ensures pr.request.schedulerName != "" && pr.request.schedulerName in queues
            && |pr.request.bindings| > ToInt(queues[pr.request.schedulerName].maxSize) ==>
              pr.status == Status(Rejected, "PlacementRequestTooLarge", old(pr.status.bindings))
    ensures Accepted(queues, pr.request) ==>
              var q := queues[pr.request.schedulerName].queueRef.value;
              && q.queue.Valid() && q.Contents() == old(q.Contents()) + multiset{pr.request}
              && forall h :: h in q.pushHandlers ==>
                   h.tokens == SignalledTimes(h.capacity, old(h.tokens), Registrations(q.pushHandlers, h))
    ensures forall h :: h in heaps
              && !(Accepted(queues, pr.request) && h == queues[pr.request.schedulerName].queueRef.value.queue)
              ==> h.items == old(h.items)
    ensures forall c :: c in channels
              && !(Accepted(queues, pr.request)
                   && c in queues[pr.request.schedulerName].queueRef.value.pushHandlers)
              ==> c.tokens == old(c.tokens)
    ensures Accepted(queues, pr.request) <==> Admit(queues, pr.request).Pushed?
  {
    if pr.request.schedulerName == "" {
      return;
    }
    if pr.request.schedulerName !in queues {
      Reject(pr, "QueueNotFound");
      return;
    }
    var config := queues[pr.request.schedulerName];
    if |pr.request.bindings| > ToInt(config.maxSize) {
      Reject(pr, "PlacementRequestTooLarge");
      return;
    }
    config.queueRef.value.Push(pr.request);
  }

  method Reject(pr: PlacementRequest, reason: string)
    modifies pr
    ensures pr.status == Status(Rejected, reason, old(pr.status.bindings))
  {
    pr.status := Status(Rejected, reason, pr.status.bindings);
  }

  // ---------- Processing ----------

  /** What the pod cache says about a pod: an error, or the node it is bound to, with
      the empty name for none. */
  datatype Lookup = LookupError | Found(nodeName: string)

  /** The outside world's answers for one binding: the cache, and the API server's
      reply should it be asked to bind. */
  datatype Answer = Answer(lookup: Lookup, accepted: bool)

  /** The API server is asked only about a pod the cache holds to be unbound. */
  predicate AsksToBind(a: Answer) {
    a.lookup == Found("")
  }

  function OutcomeOf(b: Binding, a: Answer): Outcome {
    match a.lookup
    case LookupError => Outcome(Failure, "API error")
    case Found(node) =>
      if node != "" then
        if node == b.nodeName then Outcome(Success, "Binding unneeded")
        else Outcome(Failure, "Pod already bound")
      else if a.accepted then Outcome(Success, "Binding successful")
      else Outcome(Failure, "API denied binding")
  }

  /** How a binding goes, case by case: the cache fails; it has the pod where it should
      be, or elsewhere; or it has the pod unbound, and the API server agrees or not. */
  ghost predicate GoesAs(b: Binding, a: Answer, result: Result, reason: string) {
    && (a.lookup.LookupError? ==> result == Failure && reason == "API error")
    && (a.lookup.Found? && a.lookup.nodeName != "" && a.lookup.nodeName == b.nodeName ==>
          result == Success && reason == "Binding unneeded")
    && (a.lookup.Found? && a.lookup.nodeName != "" && a.lookup.nodeName != b.nodeName ==>
          result == Failure && reason == "Pod already bound")
    && (a.lookup == Found("") && a.accepted ==> result == Success && reason == "Binding successful")
    && (a.lookup == Found("") && !a.accepted ==> result == Failure && reason == "API denied binding")
  }

  /** A binding is a Success exactly if the cache has the pod on its node already, or has
      it unbound and the API server agrees. */
  lemma OutcomeIsExact(b: Binding, a: Answer)
    ensures GoesAs(b, a, OutcomeOf(b, a).result, OutcomeOf(b, a).reason)
    ensures OutcomeOf(b, a).result == Success <==>
              (a.lookup == Found(b.nodeName) && b.nodeName != "") || (a.lookup == Found("") && a.accepted)
    ensures OutcomeOf(b, a).result != Success ==> OutcomeOf(b, a).result == Failure
  {
  }

  function Outcomes(spec: seq<Binding>, answers: seq<Answer>): (outs: seq<Outcome>)
    requires |spec| == |answers|
    ensures |outs| == |spec|
    ensures forall k :: 0 <= k < |spec| ==> outs[k] == OutcomeOf(spec[k], answers[k])
  {
    seq(|spec|, k requires 0 <= k < |spec| => OutcomeOf(spec[k], answers[k]))
  }

  /** The bindings sent to the API server. */
  function Asked(spec: seq<Binding>, answers: seq<Answer>): seq<Binding>
    requires |spec| == |answers|
  {
    if spec == [] then []
    else
      var n := |spec| - 1;
      Asked(spec[..n], answers[..n]) + if AsksToBind(answers[n]) then [spec[n]] else []
  }

  /** A request that is deleted or already has a result is left alone. */
  predicate Skipped(r: Request, status: Status) {
    r.deleted || status.result != Unknown
  }

  /** The status `ScheduleOne` leaves, and the bindings it asks for. */
  function Scheduled(r: Request, status: Status, answers: seq<Answer>): (Status, seq<Binding>)
    requires |answers| == |r.bindings|
  {
    if Skipped(r, status) then (status, [])
    else if ValidateRequest(r).Some? then (status.(result := Rejected), [])
    else
      var entries := Recorded(status.bindings, r.bindings, Outcomes(r.bindings, answers));
      (status.(result := Verdict(entries), bindings := entries), Asked(r.bindings, answers))
  }

  method ScheduleOne(pr: PlacementRequest, answers: seq<Answer>, updateSucceeds: bool)
    returns (asked: seq<Binding>, updated: bool, failed: bool)
    requires |answers| == |pr.request.bindings|
    modifies pr
    ensures (pr.status, asked) == Scheduled(pr.request, old(pr.status), answers)
    ensures updated <==> !pr.request.deleted && old(pr.status.result) == Unknown
    ensures failed <==> updated && !updateSucceeds
  {
    asked := [];
    if pr.request.deleted || pr.status.result != Unknown {
      return [], false, false;
    }
    var invalid := ValidateRequest(pr.request);
    if invalid.Some? {
      pr.status := pr.status.(result := Rejected);
      return [], true, !updateSucceeds;
    }
    ghost var spec, outs := pr.request.bindings, Outcomes(pr.request.bindings, answers);
    for k := 0 to |pr.request.bindings|
      invariant pr.status == old(pr.status).(bindings := Recorded(old(pr.status.bindings), spec[..k], outs[..k]))
      invariant asked == Asked(spec[..k], answers[..k])
    {
      assert spec[..k + 1][..k] == spec[..k] && outs[..k + 1][..k] == outs[..k];
      assert answers[..k + 1][..k] == answers[..k];
      var step := ProcessBinding(pr, pr.request.bindings[k], answers[k]);
      asked := asked + step;
    }
    assert spec[..|spec|] == spec && outs[..|spec|] == outs && answers[..|spec|] == answers;
    var verdict := AssessResult(pr);
    pr.status := pr.status.(result := verdict);
    return asked, true, !updateSucceeds;
  }

  /** One round of the loop over the bindings. */
  method ProcessBinding(pr: PlacementRequest, b: Binding, a: Answer) returns (asked: seq<Binding>)
    modifies pr
    ensures pr.status == old(pr.status).(bindings := Upsert(old(pr.status.bindings), b, OutcomeOf(b, a)))
    ensures exists result, reason ::
              && GoesAs(b, a, result, reason)
              && Rewritten(old(pr.status.bindings), pr.status.bindings, b, result, reason)
    ensures asked == if a.lookup == Found("") then [b] else []
  {
    OutcomeIsExact(b, a);
    UpsertRewrites(pr.status.bindings, b, OutcomeOf(b, a));
    if a.lookup.LookupError? {
      SetPodBindingResult(pr, b, Outcome(Failure, "API error"));
      return [];
    } else if a.lookup.nodeName != "" {
      if a.lookup.nodeName == b.nodeName {
        SetPodBindingResult(pr, b, Outcome(Success, "Binding unneeded"));
        return [];
      }
      SetPodBindingResult(pr, b, Outcome(Failure, "Pod already bound"));
      return [];
    }
    if !a.accepted {
      SetPodBindingResult(pr, b, Outcome(Failure, "API denied binding"));
      return [b];
    }
    SetPodBindingResult(pr, b, Outcome(Success, "Binding successful"));
    return [b];
  }

  // ---------- What processing promises ----------

  lemma {:induction false} RecordedIsNotEmpty(entries: seq<Entry>, spec: seq<Binding>, outs: seq<Outcome>)
    requires |spec| == |outs| && (entries != [] || spec != [])
    ensures Recorded(entries, spec, outs) != []
  {
    if spec != [] && |spec| > 1 {
      RecordedIsNotEmpty(entries, spec[..|spec| - 1], outs[..|spec| - 1]);
    }
  }

  /** A request that is deleted or has a result is left alone. A live one without a
      result gets one: Rejected exactly when it has no bindings or another policy, and
      then nothing else happens; otherwise as all, none, or some of its entries
      succeeded. */
  lemma {:induction false} VerdictIsExact(r: Request, status: Status, answers: seq<Answer>)
    requires |answers| == |r.bindings|
    ensures var (after, asked) := Scheduled(r, status, answers);
            var es := after.bindings;
            var invalid := r.bindings == [] || r.policy != Lenient;
            && after.reason == status.reason
            && (r.deleted || status.result != Unknown ==> after == status && asked == [])
            && (!r.deleted && status.result == Unknown ==>
                  && after.result in {Rejected, Success, Failure, PartialSuccess}
                  && (after.result == Rejected <==> invalid)
                  && (invalid ==> es == status.bindings && asked == [])
                  && (after.result == Success <==>
                        !invalid && forall k :: 0 <= k < |es| ==> es[k].result == Success)
                  && (after.result == Failure <==>
                        !invalid && forall k :: 0 <= k < |es| ==> es[k].result != Success))
  {
    if ValidateRequest(r).None? {
      var entries := Recorded(status.bindings, r.bindings, Outcomes(r.bindings, answers));
      RecordedIsNotEmpty(status.bindings, r.bindings, Outcomes(r.bindings, answers));
      SucceededCounts(entries);
    }
  }

  /** The entry is about the pod's last binding in the spec, and tells how that went. */
  ghost predicate TellsLast(e: Entry, uid: string, spec: seq<Binding>, answers: seq<Answer>)
    requires |spec| == |answers|
  {
    exists k :: LastMention(spec, uid, k) && e.binding == spec[k] && GoesAs(spec[k], answers[k], e.result, e.reason)
  }

  /** Every binding is processed: from an empty status, a live and valid request ends up
      with one entry per pod of its spec, in order of first mention, and each tells how
      the pod's last binding went. */
  lemma {:induction false} EveryBindingIsProcessed(r: Request, status: Status, answers: seq<Answer>)
    requires |answers| == |r.bindings| && !r.deleted && status.result == Unknown && status.bindings == []
    requires r.bindings != [] && r.policy == Lenient
    ensures var es := Scheduled(r, status, answers).0.bindings;
            && |es| == |Pods(r.bindings)|
            && forall i :: 0 <= i < |es| ==> TellsLast(es[i], Pods(r.bindings)[i], r.bindings, answers)
  {
    var outs := Outcomes(r.bindings, answers);
    var es := Recorded([], r.bindings, outs);
    RecordedIsLastPerPod(r.bindings, outs);
    forall i | 0 <= i < |es| ensures TellsLast(es[i], Pods(r.bindings)[i], r.bindings, answers) {
      assert HoldsLast(es[i], Pods(r.bindings)[i], r.bindings, outs);
      var k :| LastMention(r.bindings, Pods(r.bindings)[i], k)
               && Tells(es[i], r.bindings[k], outs[k].result, outs[k].reason);
      OutcomeIsExact(r.bindings[k], answers[k]);
    }
  }

  /** `at` lists the places whose pod the cache has unbound, in order. */
  ghost predicate Unbound(answers: seq<Answer>, at: seq<nat>) {
    && (forall m :: 0 <= m < |at| ==> at[m] < |answers|)
    && (forall m, n :: 0 <= m < n < |at| ==> at[m] < at[n])
    && (forall k: nat :: k < |answers| ==> (k in at <==> answers[k].lookup == Found("")))
  }

  /** `bindings` are those of the spec at these places. */
  ghost predicate AreAt(bindings: seq<Binding>, spec: seq<Binding>, at: seq<nat>) {
    |bindings| == |at| && forall m :: 0 <= m < |at| ==> at[m] < |spec| && bindings[m] == spec[at[m]]
  }

  /** The API server is asked for exactly the bindings whose pod the cache has unbound,
      in the order of the spec. */
  lemma {:induction false} AsksForUnbound(spec: seq<Binding>, answers: seq<Answer>) returns (at: seq<nat>)
    requires |spec| == |answers|
    ensures Unbound(answers, at) && AreAt(Asked(spec, answers), spec, at)
  {
    if spec == [] {
      at := [];
    } else {
      var n := |spec| - 1;
      var before := AsksForUnbound(spec[..n], answers[..n]);
      at := AskedMore(spec, answers, n, before);
    }
  }

  lemma {:induction false} AskedMore(spec: seq<Binding>, answers: seq<Answer>, n: nat, before: seq<nat>)
    returns (at: seq<nat>)
    requires |spec| == |answers| == n + 1
    requires Unbound(answers[..n], before) && AreAt(Asked(spec[..n], answers[..n]), spec[..n], before)
    ensures Unbound(answers, at) && AreAt(Asked(spec, answers), spec, at)
  {
    var asked := Asked(spec[..n], answers[..n]);
    UnboundMore(answers, before, n);
    AreAtMore(asked, spec, before, n);
    if answers[n].lookup == Found("") {
      assert Asked(spec, answers) == asked + [spec[n]];
      at := before + [n];
    } else {
      assert Asked(spec, answers) == asked;
      at := before;
    }
  }

  lemma {:induction false} AreAtMore(bindings: seq<Binding>, spec: seq<Binding>, at: seq<nat>, n: nat)
    requires n < |spec| && AreAt(bindings, spec[..n], at)
    ensures AreAt(bindings, spec, at) && AreAt(bindings + [spec[n]], spec, at + [n])
  {
  }

  lemma {:induction false} UnboundMore(answers: seq<Answer>, before: seq<nat>, n: nat)
    requires |answers| == n + 1 && Unbound(answers[..n], before)
    ensures Unbound(answers, if answers[n].lookup == Found("") then before + [n] else before)
  {
    var at := if answers[n].lookup == Found("") then before + [n] else before;
    forall k: nat | k < |answers| ensures k in at <==> answers[k].lookup == Found("") {
      if k < n {
        assert answers[..n][k] == answers[k];
        assert k in at <==> k in before;
      } else {
        assert n !in before;
      }
    }
  }

  /** So it is for a whole request. */
  lemma {:induction false} RequestAsksForUnbound(r: Request, status: Status, answers: seq<Answer>)
    returns (at: seq<nat>)
    requires |answers| == |r.bindings| && !r.deleted && status.result == Unknown
    requires r.bindings != [] && r.policy == Lenient
    ensures Unbound(answers, at) && AreAt(Scheduled(r, status, answers).1, r.bindings, at)
  {
    at := AsksForUnbound(r.bindings, answers);
  }

  /** Processing a request again, with whatever answers, asks for nothing and changes
      nothing. */
  lemma {:induction false} SchedulingIsIdempotent(
    r: Request, status: Status, answers: seq<Answer>, again: seq<Answer>)
    requires |answers| == |again| == |r.bindings|
    ensures var after := Scheduled(r, status, answers).0;
            Scheduled(r, after, again) == (after, [])
  {
    VerdictIsExact(r, status, answers);
  }
}
