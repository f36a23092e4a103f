/** The controller, a stale pod cache, an API server and outside binders as a step
    system: what a Success in a status says about the cluster. */
module Placement {
  import opened Types
  import opened Status
  import opened Controller

  datatype Pod = Pod(uid: string, nodeName: string)

  /** The pods of the namespace, by name. */
  type Server = map<string, Pod>

  /** Pods are not deleted or recreated, and a bound pod stays where it is. */
  ghost predicate Extends(before: Server, after: Server) {
    forall name :: name in before ==>
      && name in after && after[name].uid == before[name].uid
      && (before[name].nodeName != "" ==> after[name].nodeName == before[name].nodeName)
  }

  /** A request and how far it is processed: for each binding so far, `outs` holds its
      outcome, `answers` what cache and API server answered, and `shown` the UID of the
      pod the cache returned, if it did. */
  datatype Tracked = Tracked(
    request: Request, status: Status, outs: seq<Outcome>, answers: seq<Answer>, shown: seq<Option<string>>)

  /** The status a request is submitted with. */
  const NEW: Status := Status(Unknown, "", [])

  /** Every version of the server so far, and the requests. */
  datatype World = World(history: seq<Server>, requests: seq<Tracked>)

  function Now(w: World): Server
    requires w.history != []
  {
    w.history[|w.history| - 1]
  }

  /** How the API server answers a bind: it does it; it refuses; or it does it but
      the answer is lost. */
  datatype Reply = Accepts | Refuses | LosesReply

  datatype Step =
    | Outside(server: Server)
    | Submit(request: Request)
    /** Process the next binding of request `i`, with the cache at version `seen` of
        the server, or failing. */
    | Process(i: nat, seen: Option<nat>, reply: Reply)
    | Finish(i: nat)
    | RejectInvalid(i: nat)

  /** What the pod cache returns when it is at version `seen`. */
  function CacheLookup(w: World, name: string, seen: Option<nat>): Lookup
    requires seen.Some? ==> seen.value < |w.history|
  {
    if seen.None? then LookupError
    else if name !in w.history[seen.value] then LookupError
    else Found(w.history[seen.value][name].nodeName)
  }

  /** The UID of that pod. */
  function ShownUID(w: World, name: string, seen: Option<nat>): Option<string>
    requires seen.Some? ==> seen.value < |w.history|
  {
    if seen.None? || name !in w.history[seen.value] then None else Some(w.history[seen.value][name].uid)
  }

  /** The server binds a pod only if it exists under that name, and under the UID if
      the binding gives one, is unbound, and the binding names a node. */
  predicate CanBind(server: Server, b: Binding) {
    && b.nodeName != "" && b.podName in server
    && (b.podUID == "" || server[b.podName].uid == b.podUID)
    && server[b.podName].nodeName == ""
  }

  function Bound(server: Server, b: Binding): Server
    requires b.podName in server
  {
    server[b.podName := server[b.podName].(nodeName := b.nodeName)]
  }

  predicate InProgress(t: Tracked) {
    !Skipped(t.request, t.status) && ValidateRequest(t.request).None? && |t.outs| < |t.request.bindings|
  }

  ghost predicate Possible(w: World, e: Step) {
    w.history != [] &&
    match e
    case Outside(server) => Extends(Now(w), server)
    case Submit(_) => true
    case Process(i, seen, reply) =>
      && i < |w.requests| && InProgress(w.requests[i])
      && (seen.Some? ==> seen.value < |w.history|)
      && var b := w.requests[i].request.bindings[|w.requests[i].outs|];
         CacheLookup(w, b.podName, seen) == Found("") && reply != Refuses ==> CanBind(Now(w), b)
    case Finish(i) =>
      && i < |w.requests| && !Skipped(w.requests[i].request, w.requests[i].status)
      && ValidateRequest(w.requests[i].request).None?
      && |w.requests[i].outs| == |w.requests[i].request.bindings|
    case RejectInvalid(i) =>
      && i < |w.requests| && !Skipped(w.requests[i].request, w.requests[i].status)
      && ValidateRequest(w.requests[i].request).Some?
  }

  function Record(t: Tracked, b: Binding, a: Answer, uid: Option<string>): Tracked {
    t.(status := t.status.(bindings := Upsert(t.status.bindings, b, OutcomeOf(b, a))),
       outs := t.outs + [OutcomeOf(b, a)], answers := t.answers + [a], shown := t.shown + [uid])
  }

  function After(w: World, e: Step): World
    requires Possible(w, e)
  {
    match e
    case Outside(server) => w.(history := w.history + [server])
    case Submit(r) => w.(requests := w.requests + [Tracked(r, NEW, [], [], [])])
    case Process(i, seen, reply) =>
      var t := w.requests[i];
      var b := t.request.bindings[|t.outs|];
      var answer := Answer(CacheLookup(w, b.podName, seen), reply == Accepts);
      World(if AsksToBind(answer) && reply != Refuses then w.history + [Bound(Now(w), b)] else w.history,
            w.requests[i := Record(t, b, answer, ShownUID(w, b.podName, seen))])
    case Finish(i) =>
      var t := w.requests[i];
      w.(requests := w.requests[i := t.(status := t.status.(result := Verdict(t.status.bindings)))])
    case RejectInvalid(i) =>
      var t := w.requests[i];
      w.(requests := w.requests[i := t.(status := t.status.(result := Rejected))])
  }

  // ---------- Soundness ----------

  /** The server has the pod on that node. */
  ghost predicate InPlace(server: Server, b: Binding) {
    b.nodeName != "" && b.podName in server && server[b.podName].nodeName == b.nodeName
  }

  /** The API server bound the pod at the controller's request. */
  predicate BoundHere(result: Result, reason: string) {
    result == Success && reason == "Binding successful"
  }

  /** The pod of that name has the UID of the binding. */
  ghost predicate SamePod(server: Server, b: Binding) {
    b.podName in server && server[b.podName].uid == b.podUID
  }

  /** What a Success of `b` says: the pod of that name is on that node; it is the pod of
      that UID exactly if the cache showed that UID; and if the server bound it for the
      controller, it is the pod of the UID given. */
  ghost predicate Placed(server: Server, b: Binding, o: Outcome, shown: Option<string>) {
    && InPlace(server, b)
    && (SamePod(server, b) <==> shown == Some(b.podUID))
    && (BoundHere(o.result, o.reason) && b.podUID != "" ==> SamePod(server, b))
  }

  /** Every version of the server is kept up by the current one. */
  ghost predicate Monotone(w: World) {
    w.history != [] && forall v :: 0 <= v < |w.history| ==> Extends(w.history[v], Now(w))
  }

  /** An outcome follows from the answers, and if it is a Success the pod is in place. */
  ghost predicate Sincere(server: Server, b: Binding, a: Answer, o: Outcome, shown: Option<string>) {
    o == OutcomeOf(b, a) && (o.result == Success ==> Placed(server, b, o, shown))
  }

  ghost predicate AllSincere(server: Server, t: Tracked)
    requires |t.shown| == |t.answers| == |t.outs| <= |t.request.bindings|
  {
    forall k :: 0 <= k < |t.outs| ==>
                  Sincere(server, t.request.bindings[k], t.answers[k], t.outs[k], t.shown[k])
  }

  /** The status of a request records its outcomes so far, and whatever went well is
      in place. Only a full record earns a Success. */
  ghost predicate Sound(server: Server, t: Tracked) {
    && |t.shown| == |t.answers| == |t.outs| <= |t.request.bindings|
    && AllSincere(server, t)
    && t.status.reason == "" && (t.outs != [] ==> ValidateRequest(t.request).None?)
    && (t.status.result == Unknown || AsScheduled(t))
    && t.status.bindings == Recorded([], t.request.bindings[..|t.outs|], t.outs)
    && (t.status.result == Success ==>
          |t.outs| == |t.request.bindings| > 0 && Verdict(t.status.bindings) == Success)
  }

  /** The request has been through: its status is what the controller makes of the answers. */
  ghost predicate AsScheduled(t: Tracked) {
    if t.request.bindings == [] || t.request.policy != Lenient then t.status == NEW.(result := Rejected)
    else
      && |t.answers| == |t.request.bindings|
      && t.status == Scheduled(t.request, NEW, t.answers).0
  }

  ghost predicate WorldSound(w: World) {
    Monotone(w) && forall i :: 0 <= i < |w.requests| ==> Sound(Now(w), w.requests[i])
  }

  lemma SoundPersists(before: Server, after: Server, t: Tracked)
    requires Extends(before, after) && Sound(before, t)
    ensures Sound(after, t)
  {
  }

  /** A new version of the server keeps every request sound. */
  lemma {:induction false} ServerMayGrow(w: World, server: Server)
    requires WorldSound(w) && Extends(Now(w), server)
    ensures WorldSound(w.(history := w.history + [server]))
  {
    var after := w.(history := w.history + [server]);
    forall v | 0 <= v < |after.history| ensures Extends(after.history[v], Now(after)) {
      if v < |w.history| {
        assert Extends(w.history[v], Now(w));
      }
    }
    forall i | 0 <= i < |w.requests| ensures Sound(server, w.requests[i]) {
      SoundPersists(Now(w), server, w.requests[i]);
    }
  }

  /** Changing one request for a sound one keeps the world sound. */
  lemma RequestMayChange(w: World, i: nat, t: Tracked)
    requires WorldSound(w) && i < |w.requests| && Sound(Now(w), t)
    ensures WorldSound(w.(requests := w.requests[i := t]))
  {
  }

  lemma {:induction false} RecordIsSound(server: Server, t: Tracked, a: Answer, uid: Option<string>)
    requires Sound(server, t) && InProgress(t)
    requires var b := t.request.bindings[|t.outs|];
             OutcomeOf(b, a).result == Success ==> Placed(server, b, OutcomeOf(b, a), uid)
    ensures Sound(server, Record(t, t.request.bindings[|t.outs|], a, uid))
  {
    var k, spec := |t.outs|, t.request.bindings;
    RecordedMore(spec, t.outs, OutcomeOf(spec[k], a));
    OneMoreSincere(server, t, a, uid);
  }

  lemma {:induction false} OneMoreSincere(server: Server, t: Tracked, a: Answer, uid: Option<string>)
    requires |t.shown| == |t.answers| == |t.outs| < |t.request.bindings| && AllSincere(server, t)
    requires var b := t.request.bindings[|t.outs|];
             OutcomeOf(b, a).result == Success ==> Placed(server, b, OutcomeOf(b, a), uid)
    ensures AllSincere(server, Record(t, t.request.bindings[|t.outs|], a, uid))
  {
    var k, spec := |t.outs|, t.request.bindings;
    var u := Record(t, spec[k], a, uid);
    forall j | 0 <= j < |u.outs| ensures Sincere(server, spec[j], u.answers[j], u.outs[j], u.shown[j]) {
      if j < k {
        assert Sincere(server, spec[j], t.answers[j], t.outs[j], t.shown[j]);
      }
    }
  }

  /** A binding that went well is in place: the cache can be stale, but a pod it ever
      held to be bound is bound there still. It is the pod the binding means exactly if
      the cache shows the UID of the binding. */
  lemma {:induction false} SuccessIsInPlace(w: World, b: Binding, seen: Option<nat>, reply: Reply, after: Server)
    requires Monotone(w) && (seen.Some? ==> seen.value < |w.history|)
    requires var lookup := CacheLookup(w, b.podName, seen);
             && (lookup == Found("") && reply != Refuses ==> CanBind(Now(w), b) && after == Bound(Now(w), b))
             && Extends(Now(w), after)
    requires OutcomeOf(b, Answer(CacheLookup(w, b.podName, seen), reply == Accepts)).result == Success
    ensures var o := OutcomeOf(b, Answer(CacheLookup(w, b.podName, seen), reply == Accepts));
            Placed(after, b, o, ShownUID(w, b.podName, seen))
  {
    if seen.Some? {
      assert Extends(w.history[seen.value], Now(w));
    }
  }

  lemma {:induction false} WorldSoundKept(w: World, e: Step)
    requires WorldSound(w) && Possible(w, e)
    ensures WorldSound(After(w, e))
  {
    match e
    case Outside(server) => ServerMayGrow(w, server);
    case Submit(r) =>
    case Process(i, seen, reply) => ProcessKeepsSound(w, i, seen, reply);
    case Finish(i) =>
      FinishKeepsSound(w, i);
    case RejectInvalid(i) =>
      var t := w.requests[i];
      RequestMayChange(w, i, t.(status := t.status.(result := Rejected)));
  }

  lemma {:induction false} FinishKeepsSound(w: World, i: nat)
    requires WorldSound(w) && Possible(w, Finish(i))
    ensures WorldSound(After(w, Finish(i)))
  {
    var t := w.requests[i];
    var spec := t.request.bindings;
    assert spec[..|t.outs|] == spec && t.outs == Outcomes(spec, t.answers);
    RequestMayChange(w, i, t.(status := t.status.(result := Verdict(t.status.bindings))));
  }

  lemma {:induction false} ProcessKeepsSound(w: World, i: nat, seen: Option<nat>, reply: Reply)
    requires WorldSound(w) && Possible(w, Process(i, seen, reply))
    ensures WorldSound(After(w, Process(i, seen, reply)))
  {
    var t := w.requests[i];
    var b := t.request.bindings[|t.outs|];
    var answer := Answer(CacheLookup(w, b.podName, seen), reply == Accepts);
    var grown := w;
    if AsksToBind(answer) && reply != Refuses {
      ServerMayGrow(w, Bound(Now(w), b));
      grown := w.(history := w.history + [Bound(Now(w), b)]);
    }
    if OutcomeOf(b, answer).result == Success {
      SuccessIsInPlace(w, b, seen, reply, Now(grown));
    }
    var uid := ShownUID(w, b.podName, seen);
    RecordIsSound(Now(grown), t, answer, uid);
    RequestMayChange(grown, i, Record(t, b, answer, uid));
  }

  // ---------- Whole runs ----------

  ghost predicate WorldRun(w: World, es: seq<Step>)
    decreases |es|
  {
    es != [] ==> Possible(w, es[0]) && WorldRun(After(w, es[0]), es[1..])
  }

  ghost function WorldAfter(w: World, es: seq<Step>): World
    requires WorldRun(w, es)
    decreases |es|
  {
    if es == [] then w else WorldAfter(After(w, es[0]), es[1..])
  }

  lemma {:induction false} WorldStaysSound(w: World, es: seq<Step>)
    requires WorldSound(w) && WorldRun(w, es)
    ensures WorldSound(WorldAfter(w, es))
    decreases |es|
  {
    if es != [] {
      WorldSoundKept(w, es[0]);
      WorldStaysSound(After(w, es[0]), es[1..]);
    }
  }

  /** `e` is the record of the binding at `k`, the last one of its pod so far. */
  ghost predicate RecordedFrom(t: Tracked, e: Entry, k: int) {
    && 0 <= k < |t.outs| == |t.shown| && |t.outs| <= |t.request.bindings|
    && Tells(e, t.request.bindings[k], t.outs[k].result, t.outs[k].reason)
    && LastMention(t.request.bindings[..|t.outs|], e.binding.podUID, k)
  }

  lemma {:induction false} SuccessfulEntryIsInPlace(server: Server, t: Tracked, e: Entry)
    requires Sound(server, t) && e in t.status.bindings && e.result == Success
    ensures exists k :: RecordedFrom(t, e, k) && Placed(server, e.binding, t.outs[k], t.shown[k])
  {
    var done := t.request.bindings[..|t.outs|];
    RecordedIsLastPerPod(done, t.outs);
    var i :| 0 <= i < |t.status.bindings| && t.status.bindings[i] == e;
    assert HoldsLast(e, Pods(done)[i], done, t.outs);
    var k :| LastMention(done, Pods(done)[i], k) && Tells(e, done[k], t.outs[k].result, t.outs[k].reason);
    assert done[k] == t.request.bindings[k];
    assert RecordedFrom(t, e, k);
  }

  lemma {:induction false} SuccessVerdictPlacesAll(server: Server, t: Tracked, uid: string, k: int)
    requires Sound(server, t) && t.status.result == Success
    requires LastMention(t.request.bindings, uid, k)
    ensures InPlace(server, t.request.bindings[k])
  {
    var spec := t.request.bindings;
    assert spec[..|t.outs|] == spec;
    RecordedIsLastPerPod(spec, t.outs);
    PodsAreMentioned(spec);
    SucceededCounts(t.status.bindings);
    assert spec[k].podUID in Pods(spec);
    var i :| 0 <= i < |Pods(spec)| && Pods(spec)[i] == uid;
    assert HoldsLast(t.status.bindings[i], uid, spec, t.outs);
    var last :| LastMention(spec, uid, last)
                && Tells(t.status.bindings[i], spec[last], t.outs[last].result, t.outs[last].reason);
    assert last == k;
  }

  /** Placement soundness: from a cluster with no requests, whatever the cache shows,
      the API server answers and others bind, every Success entry of every request
      names a pod that the server has on that entry's node; it is the pod of the entry's
      UID exactly if the cache showed that UID when the binding was processed; and a
      request whose verdict is Success has the last-listed binding of every pod of its
      spec in place. */
  lemma {:induction false} PlacementIsSound(server: Server, es: seq<Step>, i: nat)
    requires WorldRun(World([server], []), es)
    requires i < |WorldAfter(World([server], []), es).requests|
    ensures var w := WorldAfter(World([server], []), es);
            var t := w.requests[i];
            && w.history != []
            && (forall e :: e in t.status.bindings && e.result == Success ==>
                  exists k :: RecordedFrom(t, e, k) && Placed(Now(w), e.binding, t.outs[k], t.shown[k]))
            && (t.status.result == Success ==>
                  forall uid, k :: LastMention(t.request.bindings, uid, k) ==>
                                     InPlace(Now(w), t.request.bindings[k]))
  {
    var w := WorldAfter(World([server], []), es);
    WorldStaysSound(World([server], []), es);
    var t := w.requests[i];
    forall e | e in t.status.bindings && e.result == Success
      ensures exists k :: RecordedFrom(t, e, k) && Placed(Now(w), e.binding, t.outs[k], t.shown[k])
    {
      SuccessfulEntryIsInPlace(Now(w), t, e);
    }
    if t.status.result == Success {
      forall uid, k | LastMention(t.request.bindings, uid, k) ensures InPlace(Now(w), t.request.bindings[k]) {
        SuccessVerdictPlacesAll(Now(w), t, uid, k);
      }
    }
  }

  /** Every request that has a result in some run has the status the controller gives it
      for the answers it got. */
  lemma {:induction false} ResultIsScheduled(server: Server, es: seq<Step>, i: nat)
    requires WorldRun(World([server], []), es)
    requires i < |WorldAfter(World([server], []), es).requests|
    ensures var t := WorldAfter(World([server], []), es).requests[i];
            t.status.result != Unknown ==> AsScheduled(t)
  {
    WorldStaysSound(World([server], []), es);
  }

  /** The last step of a request gives it that status, and changes nothing else. */
  lemma {:induction false} LastStepIsScheduled(w: World, i: nat, e: Step)
    requires WorldSound(w) && (e == Finish(i) || e == RejectInvalid(i)) && Possible(w, e)
    ensures var after := After(w, e);
            && after.history == w.history && |after.requests| == |w.requests|
            && after.requests[i].status.result != Unknown && AsScheduled(after.requests[i])
            && (forall j :: 0 <= j < |w.requests| && j != i ==> after.requests[j] == w.requests[j])
  {
    WorldSoundKept(w, e);
    assert Sound(Now(w), After(w, e).requests[i]);
  }

  /** What processing one binding does, to the cluster and to the status: the server binds
      the pod exactly if the cache has it unbound and the server does not refuse, and the
      entry of the pod tells how it went. So a bind that is accepted is a Success. */
  lemma {:induction false} ProcessIsRecorded(w: World, i: nat, seen: Option<nat>, reply: Reply)
    requires Possible(w, Process(i, seen, reply))
    ensures var t := w.requests[i];
            var b := t.request.bindings[|t.outs|];
            var lookup := if seen.None? || b.podName !in w.history[seen.value] then LookupError
                          else Found(w.history[seen.value][b.podName].nodeName);
            var after := After(w, Process(i, seen, reply));
            && |after.requests| == |w.requests| && after.history != []
            && (lookup == Found("") && reply != Refuses ==> InPlace(Now(after), b))
            && (lookup != Found("") || reply == Refuses ==> after.history == w.history)
            && (forall j :: 0 <= j < |w.requests| && j != i ==> after.requests[j] == w.requests[j])
            && exists result, reason ::
                 && GoesAs(b, Answer(lookup, reply == Accepts), result, reason)
                 && Rewritten(t.status.bindings, after.requests[i].status.bindings, b, result, reason)
  {
    var t := w.requests[i];
    var b := t.request.bindings[|t.outs|];
    var a := Answer(CacheLookup(w, b.podName, seen), reply == Accepts);
    var o := OutcomeOf(b, a);
    OutcomeIsExact(b, a);
    UpsertRewrites(t.status.bindings, b, o);
    var after := After(w, Process(i, seen, reply));
    assert Rewritten(t.status.bindings, after.requests[i].status.bindings, b, o.result, o.reason);
  }

  /** One call, in terms of what the caller could look up before it: a binding recorded
      as a Success is about the pod of its UID if and only if the cache holds the pod of
      that name under that UID. */
  lemma {:induction false} SuccessIsSamePodIff(w: World, i: nat, seen: Option<nat>, reply: Reply)
    requires WorldSound(w) && Possible(w, Process(i, seen, reply))
    ensures var t := w.requests[i];
            var b := t.request.bindings[|t.outs|];
            var answer := Answer(CacheLookup(w, b.podName, seen), reply == Accepts);
            OutcomeOf(b, answer).result == Success ==>
              && seen.Some? && b.podName in w.history[seen.value]
              && After(w, Process(i, seen, reply)).history != []
              && (SamePod(Now(After(w, Process(i, seen, reply))), b)
                  <==> w.history[seen.value][b.podName].uid == b.podUID)
  {
    if seen.Some? {
      assert Extends(w.history[seen.value], Now(w));
    }
  }

  /** Where the cache already has a pod of that name on that node, its UID is not
      looked at: a Success can be recorded for a UID no pod has. */
  lemma {:induction false} UnneededBindingIgnoresUID() returns (server: Server, es: seq<Step>)
    ensures WorldRun(World([server], []), es)
    ensures var w := WorldAfter(World([server], []), es);
            && |w.requests| == 1 && |w.requests[0].status.bindings| == 1 && w.history != []
            && w.requests[0].status.bindings[0].result == Success
            && !SamePod(Now(w), w.requests[0].status.bindings[0].binding)
  {
    var b := Binding("pod", "old", "node");
    var r := Request("r", 0, 0, false, "s", Lenient, [b]);
    server := map["pod" := Pod("new", "node")];
    es := [Submit(r), Process(0, Some(0), Refuses)];
    var w := World([server], []);
    var w1 := After(w, es[0]);
    assert es[1..] == [es[1]] && es[1..][1..] == [];
    var w2 := After(w1, es[1]);
    assert WorldRun(w2, []) && WorldRun(w1, es[1..]);
    assert WorldAfter(w1, es[1..]) == w2;
  }
}
