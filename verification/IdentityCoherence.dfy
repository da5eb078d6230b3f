/**
 * The two caches together, with calls that overlap. The cluster cache's build of a workload-identity cluster is
 * one caller among others of the cache underneath, and waits there while specs change and other callers come
 * and go.
 */
module IdentityCoherence {
  import opened Outcomes
  import opened ManagementCluster
  import opened CacheState
  import opened WorkloadIdentity
  import C = CacheCoherence
  import I = IdentityRuns

  /** `asking` is the call the build under the lock has made, `recordedBy` the one that got each cached config. */
  datatype World = World(cache: C.World, identity: I.World, asking: Option<nat>, recordedBy: map<ObjectRef, nat>)

  datatype Event =
    | Above(step: C.Event)
    | Below(call: I.Event)
    | Ask(caller: nat)
    | Receive

  datatype Run = Start(env: Env, hash: IdentitySpec -> string, now: int) | Then(before: Run, event: Event)

  /** A build gets a cloud provider's config by asking for it and receiving the answer, and in no other way. All
      read the same management cluster. */
  ghost predicate Enabled(w: World, e: Event) {
    match e
    case Above(step) => C.Enabled(w.cache, step) && !(step.Read? && w.cache.build.AtProvider?)
    case Below(step) => I.Enabled(w.identity, step) && (step.ReadCa? ==> step.env == w.cache.env)
    case Ask(c) => w.cache.build.AtProvider? && w.asking.None? && c !in w.identity.callers
    case Receive =>
      && w.cache.build.AtProvider? && w.asking.Some? && w.asking.value in w.identity.callers
      && w.identity.callers[w.asking.value].Answered?
  }

  function Question(b: C.Build, c: nat): I.Event
    requires b.AtProvider?
  {
    I.Call(c, b.id.namespace, b.id.name, b.identity)
  }

  function Answer(w: World): C.Event
    requires w.cache.build.AtProvider? && w.asking.Some? && w.asking.value in w.identity.callers
    requires w.identity.callers[w.asking.value].Answered?
  {
    C.Read(C.AtLookup(w.cache.build.id, Some(w.identity.callers[w.asking.value].config)))
  }

  ghost function Step(w: World, e: Event): World
    requires Enabled(w, e)
  {
    match e
    case Above(step) =>
      World(C.Step(w.cache, step), w.identity,
            if step.Record? || step.Abandon? then None else w.asking,
            if step.Record? then Recorded(w.recordedBy, RefOf(w.cache.build.id), w.asking) else w.recordedBy)
    case Below(step) => w.(identity := I.Step(w.identity, step))
    case Ask(c) => w.(identity := I.Step(w.identity, Question(w.cache.build, c)), asking := Some(c))
    case Receive => w.(cache := C.Step(w.cache, Answer(w)))
  }

  function Recorded(recordedBy: map<ObjectRef, nat>, cluster: ObjectRef, asking: Option<nat>): map<ObjectRef, nat> {
    if asking.Some? then recordedBy[cluster := asking.value] else recordedBy - {cluster}
  }

  ghost predicate Legal(r: Run)
    decreases r, 0
  {
    match r
    case Start(_, _, _) => true
    case Then(b, e) => Legal(b) && Enabled(After(b), e)
  }

  ghost function After(r: Run): World
    requires Legal(r)
    decreases r, 1
  {
    match r
    case Start(env, hash, now) =>
      World(C.World(env, EMPTY, C.Idle, {}, {}), I.World(hash, now, map[], map[], map[], {}), None, map[])
    case Then(b, e) => Step(After(b), e)
  }

  /** The call was made for this cluster with this spec. */
  predicate AsksFor(w: I.World, c: nat, id: ClusterId, spec: IdentitySpec) {
    c in w.callers && w.callers[c].key == CacheKey(id.namespace, id.name) && w.callers[c].spec == spec
  }

  /** The call returned this config for this cluster. */
  predicate Got(w: I.World, c: nat, id: ClusterId, config: Option<RestConfig>) {
    && c in w.callers && w.callers[c].Answered? && w.callers[c].key == CacheKey(id.namespace, id.name)
    && config == Some(w.callers[c].config)
  }

  /** A build without a call is not one for a cloud provider; one with a call carries its answer. */
  ghost predicate AskingOk(w: World) {
    var b := w.cache.build;
    match w.asking
    case None =>
      b.AtLookup? && b.id !in w.cache.dirtyClusters ==> !SourceOf(w.cache.env, b.id).CloudProvider?
    case Some(c) =>
      || (b.AtProvider? && AsksFor(w.identity, c, b.id, b.identity))
      || (b.AtLookup? && Got(w.identity, c, b.id, b.config)
          && (b.id !in w.cache.dirtyClusters ==>
               SourceOf(w.cache.env, b.id) == CloudProvider(w.identity.callers[c].spec)))
  }

  /** A cached config of a workload-identity cluster without a pending change was got by a call with the present
      spec. */
  ghost predicate RecordOk(w: World, id: ClusterId) {
    RefOf(id) in w.cache.cache.configs && id !in w.cache.dirtyClusters && SourceOf(w.cache.env, id).CloudProvider? ==>
      && RefOf(id) in w.recordedBy
      && Got(w.identity, w.recordedBy[RefOf(id)], id, w.cache.cache.configs[RefOf(id)])
      && w.identity.callers[w.recordedBy[RefOf(id)]].spec == SourceOf(w.cache.env, id).identity
  }

  ghost predicate Linked(w: World) {
    C.Coherent(w.cache) && I.Traced(w.identity) && AskingOk(w) && forall id :: RecordOk(w, id)
  }

  /** What the cache underneath knows of a call never changes but for its getting on. */
  lemma CallersStay(w: I.World, e: I.Event, c: nat)
    requires I.Enabled(w, e) && c in w.callers
    ensures c in I.Step(w, e).callers
    ensures I.Step(w, e).callers[c].key == w.callers[c].key && I.Step(w, e).callers[c].spec == w.callers[c].spec
    ensures w.callers[c].Answered? ==> I.Step(w, e).callers[c] == w.callers[c]
  {
  }

  lemma BelowKeeps(w: World, step: I.Event)
    requires Linked(w) && I.Enabled(w.identity, step)
    ensures Linked(w.(identity := I.Step(w.identity, step)))
  {
    var w' := w.(identity := I.Step(w.identity, step));
    I.StepKeepsTraced(w.identity, step);
    if w.asking.Some? {
      CallersStay(w.identity, step, w.asking.value);
    }
    forall id ensures RecordOk(w', id) {
      assert RecordOk(w, id);
      if RefOf(id) in w.recordedBy && w.recordedBy[RefOf(id)] in w.identity.callers {
        CallersStay(w.identity, step, w.recordedBy[RefOf(id)]);
      }
    }
  }

  lemma AskKeeps(w: World, c: nat)
    requires Linked(w) && Enabled(w, Ask(c))
    ensures Linked(Step(w, Ask(c)))
  {
    var question := Question(w.cache.build, c);
    BelowKeeps(w, question);
    var w' := w.(identity := I.Step(w.identity, question));
    forall id ensures RecordOk(Step(w, Ask(c)), id) {
      assert RecordOk(w', id);
    }
  }

  lemma ReceiveKeeps(w: World)
    requires Linked(w) && Enabled(w, Receive)
    ensures Linked(Step(w, Receive))
  {
    C.StepKeeps(w.cache, Answer(w));
    forall id ensures RecordOk(Step(w, Receive), id) {
      assert RecordOk(w, id);
    }
  }

  /** Specs, invalidations and stored configs: whatever loses its call has a pending change or is gone. */
  lemma ChangeKeepsRecords(w: World, step: C.Event, id: ClusterId)
    requires RecordOk(w, id) && Enabled(w, Above(step)) && !step.Record?
    ensures RecordOk(Step(w, Above(step)), id)
  {
    if step.StoreConfig? && RefOf(step.id) == RefOf(id) {
      RefOfInjective(step.id, id);
    }
  }

  lemma RecordKeepsRecords(w: World, id: ClusterId)
    requires RecordOk(w, id) && AskingOk(w) && Enabled(w, Above(C.Record))
    ensures RecordOk(Step(w, Above(C.Record)), id)
  {
    if RefOf(id) == RefOf(w.cache.build.id) {
      RefOfInjective(id, w.cache.build.id);
    }
  }

  lemma AboveKeepsAsking(w: World, step: C.Event)
    requires Linked(w) && Enabled(w, Above(step))
    ensures AskingOk(Step(w, Above(step)))
  {
  }

  lemma AboveKeeps(w: World, step: C.Event)
    requires Linked(w) && Enabled(w, Above(step))
    ensures Linked(Step(w, Above(step)))
  {
    C.StepKeeps(w.cache, step);
    AboveKeepsAsking(w, step);
    forall id ensures RecordOk(Step(w, Above(step)), id) {
      assert RecordOk(w, id);
      if step.Record? {
        RecordKeepsRecords(w, id);
      } else {
        ChangeKeepsRecords(w, step, id);
      }
    }
  }

  lemma {:induction false} AlwaysLinked(r: Run)
    requires Legal(r)
    ensures Linked(After(r))
  {
    if r.Then? {
      AlwaysLinked(r.before);
      match r.event
      case Above(step) => AboveKeeps(After(r.before), step);
      case Below(step) => BelowKeeps(After(r.before), step);
      case Ask(c) => AskKeeps(After(r.before), c);
      case Receive => ReceiveKeeps(After(r.before));
    }
  }

  /** The provider call behind an answer: the caller's own, its flight leader's, or for a hit one for a spec with
      the caller's hash. */
  ghost predicate Behind(w: I.World, c: nat, i: I.Issue)
    requires c in w.callers && w.callers[c].Answered?
  {
    var a := w.callers[c];
    && i in w.issues && i.key == a.key && i.config == a.config
    && match a.path
       case Hit => w.hash(i.spec) == w.hash(a.spec) && i.expiresAt - a.at > REFRESH_THRESHOLD
       case Led => i.leader == c
       case Joined(leader, _) => i.leader == leader
  }

  /** The call joined a flight that was led with another spec. */
  predicate JoinedAnother(a: I.Caller, spec: IdentitySpec)
    requires a.Answered?
  {
    a.path.Joined? && a.path.with != spec
  }

  /** Every answer has a provider call behind it, which was made for the caller's own spec exactly when the caller
      did not join a flight led with another. */
  lemma AnswersFitUnlessJoined(w: I.World, c: nat)
    requires I.Traced(w) && I.Injective(w.hash) && c in w.callers && w.callers[c].Answered?
    ensures exists i :: Behind(w, c, i)
    ensures forall i :: Behind(w, c, i) ==>
      (i.spec == w.callers[c].spec <==> !JoinedAnother(w.callers[c], w.callers[c].spec))
    ensures forall i :: Behind(w, c, i) ==> i.config.FromIdentity? && i.config.endpoint == i.spec.endpoint
    ensures w.callers[c].path.Joined? ==> forall i :: Behind(w, c, i) ==> i.spec == w.callers[c].path.with
  {
    var a := w.callers[c];
    assert I.AnswerGood(w, c, a);
    match a.path
    case Hit =>
      assert I.GoodHit(w, a);
      var i :| i in w.issues && i.key == a.key && i.config == a.config
        && w.hash(i.spec) == w.hash(a.spec) && i.expiresAt - a.at > REFRESH_THRESHOLD;
      assert Behind(w, c, i);
    case Led =>
      var i :| i in w.issues && i.leader == c && i.key == a.key && i.config == a.config && i.spec == a.spec;
      assert Behind(w, c, i);
    case Joined(leader, with) =>
      var i :| i in w.issues && i.leader == leader && i.key == a.key && i.config == a.config && i.spec == with;
      assert Behind(w, c, i);
  }

  /** The call that got the cached config of a settled workload-identity cluster. */
  ghost predicate RecordedFor(w: World, id: ClusterId, c: nat) {
    && RefOf(id) in w.recordedBy && w.recordedBy[RefOf(id)] == c && RefOf(id) in w.cache.cache.configs
    && Got(w.identity, c, id, w.cache.cache.configs[RefOf(id)])
    && SourceOf(w.cache.env, id) == CloudProvider(w.identity.callers[c].spec)
  }

  ghost predicate Prefix(p: Run, r: Run) {
    p == r || (r.Then? && Prefix(p, r.before))
  }

  /** The CA Secret that a spec names, as it read at that point of the run. */
  ghost function CaAt(p: Run, namespace: string, spec: IdentitySpec): Result<string, IdentityError>
    requires Legal(p)
  {
    CaData(After(p).cache.env, namespace, spec.caSecret)
  }

  /** What a flight carries is what its spec's CA Secret read at some point of the run. */
  lemma {:induction false} FlightReadItsCa(r: Run, key: string) returns (p: Run)
    requires Legal(r) && key in After(r).identity.flights && After(r).identity.flights[key].Asking?
    ensures Prefix(p, r) && Legal(p)
    ensures var f := After(r).identity.flights[key]; CaAt(p, f.namespace, f.spec) == Ok(f.ca)
  {
    if r.event.Below? && r.event.call.ReadCa? && r.event.call.key == key {
      p := r.before;
    } else {
      p := FlightReadItsCa(r.before, key);
    }
  }

  /** A provider call that a step completes is the one of a flight that was asking. */
  lemma NewIssue(w: World, e: Event, i: I.Issue)
    requires Enabled(w, e) && i in Step(w, e).identity.issues && i !in w.identity.issues
    ensures i.key in w.identity.flights && w.identity.flights[i.key].Asking?
    ensures var f := w.identity.flights[i.key];
      i.namespace == f.namespace && i.spec == f.spec && i.config.FromIdentity? && i.config.ca == f.ca
  {
  }

  /** So is the CA in any config a provider call led to. */
  lemma {:induction false} IssueReadItsCa(r: Run, i: I.Issue) returns (p: Run)
    requires Legal(r) && i in After(r).identity.issues
    ensures Prefix(p, r) && Legal(p) && i.config.FromIdentity?
    ensures CaAt(p, i.namespace, i.spec) == Ok(i.config.ca)
  {
    if i in After(r.before).identity.issues {
      p := IssueReadItsCa(r.before, i);
    } else {
      NewIssue(After(r.before), r.event, i);
      p := FlightReadItsCa(r.before, i.key);
    }
  }

  /** In terms of the Secret alone: no CA where none is named, and otherwise what the named Secret had under
      "ca.crt" at some point of the run. */
  lemma IssuesCarryTheNamedCa(r: Run, i: I.Issue)
    requires Legal(r) && i in After(r).identity.issues
    ensures i.config.FromIdentity?
    ensures i.spec.caSecret.None? ==> i.config.ca == ""
    ensures i.spec.caSecret.Some? ==>
      var secret := ObjectRef(i.namespace, i.spec.caSecret.value, "Secret", "v1");
      exists p :: Prefix(p, r) && Legal(p) && secret in After(p).cache.env.secrets
                  && "ca.crt" in After(p).cache.env.secrets[secret]
                  && i.config.ca == After(p).cache.env.secrets[secret]["ca.crt"]
  {
    var p := IssueReadItsCa(r, i);
    assert Prefix(p, r) && Legal(p);
  }

  /** The provider call behind an answer, and a point of the run at which it may have read its CA Secret. */
  ghost predicate Origin(r: Run, c: nat, i: I.Issue, p: Run)
    requires Legal(r) && c in After(r).identity.callers && After(r).identity.callers[c].Answered?
  {
    Behind(After(r).identity, c, i) && Prefix(p, r) && Legal(p) && i.config.FromIdentity?
    && CaAt(p, i.namespace, i.spec) == Ok(i.config.ca)
  }

  /** Every cached config of a workload-identity cluster without pending change has an origin. */
  lemma SettledHitHasAnOrigin(r: Run, id: ClusterId)
    requires Legal(r) && I.Injective(After(r).identity.hash) && id !in After(r).cache.dirtyClusters
    requires RefOf(id) in After(r).cache.cache.configs && SourceOf(After(r).cache.env, id).CloudProvider?
    ensures RefOf(id) in After(r).recordedBy && RecordedFor(After(r), id, After(r).recordedBy[RefOf(id)])
    ensures exists i, p :: Origin(r, After(r).recordedBy[RefOf(id)], i, p)
  {
    AlwaysLinked(r);
    var w := After(r);
    assert RecordOk(w, id);
    var c := w.recordedBy[RefOf(id)];
    AnswersFitUnlessJoined(w.identity, c);
    var i :| Behind(w.identity, c, i);
    var p := IssueReadItsCa(r, i);
    assert Origin(r, c, i, p);
  }

  /** Coherence for workload-identity clusters, exactly. A hit for a cluster without pending change is what an
      uncached build could return now if and only if the provider call it comes from was for the endpoint of the
      present spec, and the present spec's CA Secret reads as that call's did when the call read it. The call was
      made for the present spec if and only if the one that recorded it did not join a flight led with another. */
  lemma SettledHitIsAnUncachedBuild(r: Run, id: ClusterId, i: I.Issue, p: Run)
    requires Legal(r) && I.Injective(After(r).identity.hash) && id !in After(r).cache.dirtyClusters
    requires RefOf(id) in After(r).cache.cache.configs && SourceOf(After(r).cache.env, id).CloudProvider?
    requires RefOf(id) in After(r).recordedBy && RecordedFor(After(r), id, After(r).recordedBy[RefOf(id)])
    requires Origin(r, After(r).recordedBy[RefOf(id)], i, p)
    ensures
      var spec := SourceOf(After(r).cache.env, id).identity;
      BuildsTo(After(r).cache.env, id, After(r).cache.cache.configs[RefOf(id)]) <==>
        i.spec.endpoint == spec.endpoint && CaAt(r, id.namespace, spec) == CaAt(p, i.namespace, i.spec)
    ensures
      var spec, c := SourceOf(After(r).cache.env, id).identity, After(r).recordedBy[RefOf(id)];
      i.spec == spec <==> !JoinedAnother(After(r).identity.callers[c], spec)
  {
    AlwaysLinked(r);
    AnswersFitUnlessJoined(After(r).identity, After(r).recordedBy[RefOf(id)]);
  }

  /** The cluster cache's build, up to its asking the provider. */
  function Asking(r: Run, id: ClusterId, spec: IdentitySpec, c: nat): Run {
    var seen := Then(Then(r, Above(C.Begin(id))), Above(C.Read(C.AtSpec(id))));
    Then(Then(seen, Above(C.Read(C.AtProvider(id, spec)))), Ask(c))
  }

  lemma ReachesAsking(r: Run, id: ClusterId, c: nat)
    requires Legal(r) && After(r).cache.build.Idle? && RefOf(id) !in After(r).cache.cache.configs
    requires SourceOf(After(r).cache.env, id).CloudProvider? && c !in After(r).identity.callers
    ensures
      var w, spec := After(r), SourceOf(After(r).cache.env, id).identity;
      var asking := Asking(r, id, spec, c);
      && Legal(asking)
      && After(asking) == World(w.cache.(build := C.AtProvider(id, spec)),
                                I.Step(w.identity, I.Call(c, id.namespace, id.name, spec)), Some(c), w.recordedBy)
  {
    AlwaysLinked(r);
    var w, spec := After(r), SourceOf(After(r).cache.env, id).identity;
    var begun := Then(r, Above(C.Begin(id)));
    assert Legal(begun) && After(begun) == w.(cache := w.cache.(build := C.AtCluster(id)));
    var seen := Then(begun, Above(C.Read(C.AtSpec(id))));
    assert Legal(seen) && After(seen) == w.(cache := w.cache.(build := C.AtSpec(id)));
    var at := Then(seen, Above(C.Read(C.AtProvider(id, spec))));
    assert Legal(at) && After(at) == w.(cache := w.cache.(build := C.AtProvider(id, spec)));
    assert Legal(Then(at, Ask(c)));
  }

  /** The call enters the running flight, which is answered and lands; the config is received and recorded. */
  function Joining(r: Run, c: nat, fetch: I.Event): Run
    requires fetch.Fetch?
  {
    var landed := Then(Then(Then(r, Below(I.Enter(c))), Below(fetch)), Below(I.Land(fetch.key)));
    Then(Then(landed, Receive), Above(C.Record))
  }

  lemma JoinsAndLands(r: Run, c: nat, fetch: I.Event)
    requires Legal(r) && fetch.Fetch? && I.Enabled(After(r).identity, fetch)
    requires c in After(r).identity.callers && After(r).identity.callers[c].Missed?
    requires After(r).identity.callers[c].key == fetch.key
    ensures
      var w, landed := After(r), Then(Then(Then(r, Below(I.Enter(c))), Below(fetch)), Below(I.Land(fetch.key)));
      var f := w.identity.flights[fetch.key];
      && Legal(landed) && After(landed) == w.(identity := After(landed).identity)
      && c in After(landed).identity.callers
      && After(landed).identity.callers[c] == I.Answered(fetch.key, w.identity.callers[c].spec,
           I.Joined(f.leader, f.spec), I.Handed(w.identity, fetch.key, fetch.token), w.identity.now)
  {
    var w := After(r);
    var f := w.identity.flights[fetch.key];
    var entered := Then(r, Below(I.Enter(c)));
    assert Legal(entered);
    assert After(entered).identity == w.identity.(callers := w.identity.callers[c :=
      I.Waiting(fetch.key, w.identity.callers[c].spec, I.Joined(f.leader, f.spec))]);
    var fetched := Then(entered, Below(fetch));
    assert Legal(fetched) && After(fetched).identity.callers == After(entered).identity.callers;
    assert After(fetched).identity.flights[fetch.key] ==
      I.Stored(f.leader, f.spec, I.Handed(w.identity, fetch.key, fetch.token));
    assert Legal(Then(fetched, Below(I.Land(fetch.key))));
  }

  lemma ReceivesAndRecords(r: Run, c: nat)
    requires Legal(r) && Enabled(After(r), Receive) && After(r).asking == Some(c)
    requires SecretOf(After(r).cache.env, After(r).cache.build.id).Some?
    ensures
      var recorded, id := Then(Then(r, Receive), Above(C.Record)), After(r).cache.build.id;
      && Legal(recorded) && After(recorded).cache.env == After(r).cache.env
      && After(recorded).cache.dirtyClusters == After(r).cache.dirtyClusters
      && RefOf(id) in After(recorded).cache.cache.configs
      && After(recorded).cache.cache.configs[RefOf(id)] == Some(After(r).identity.callers[c].config)
  {
    var received := Then(r, Receive);
    assert Legal(received);
    assert Legal(Then(received, Above(C.Record)));
  }

  /** The other side of the condition occurs: while a flight with an older spec runs, the spec changes to another
      endpoint and the cluster is removed from the cache. The next build joins that flight, and the cache then holds
      the old endpoint's config for a cluster without pending change. */
  lemma SettledHitForAnotherEndpoint(r: Run, id: ClusterId, c: nat, fetch: I.Event)
    requires Legal(r) && After(r).cache.build.Idle? && RefOf(id) !in After(r).cache.cache.configs
    requires id !in After(r).cache.dirtyClusters && SourceOf(After(r).cache.env, id).CloudProvider?
    requires c !in After(r).identity.callers && CacheKey(id.namespace, id.name) !in After(r).identity.entries
    requires fetch.Fetch? && fetch.key == CacheKey(id.namespace, id.name) && I.Enabled(After(r).identity, fetch)
    requires After(r).identity.flights[fetch.key].spec.endpoint != SourceOf(After(r).cache.env, id).identity.endpoint
    ensures
      var spec := SourceOf(After(r).cache.env, id).identity;
      var r' := Joining(Asking(r, id, spec, c), c, fetch);
      && Legal(r') && RefOf(id) in After(r').cache.cache.configs && id !in After(r').cache.dirtyClusters
      && After(r').cache.env == After(r).cache.env
      && !BuildsTo(After(r').cache.env, id, After(r').cache.cache.configs[RefOf(id)])
  {
    var w, spec := After(r), SourceOf(After(r).cache.env, id).identity;
    var asking := Asking(r, id, spec, c);
    ReachesAsking(r, id, c);
    JoinsAndLands(asking, c, fetch);
    var landed := Then(Then(Then(asking, Below(I.Enter(c))), Below(fetch)), Below(I.Land(fetch.key)));
    assert After(landed).cache == w.cache.(build := C.AtProvider(id, spec)) && After(landed).asking == Some(c);
    ReceivesAndRecords(landed, c);
  }

  /** The CA Secret changes, and is removed from the cluster cache as a changed Secret is, and the cluster evicted
      from the cache underneath. */
  function CaRotated(r: Run, id: ClusterId, secret: ObjectRef, data: map<string, string>): Run {
    var changed := Then(r, Above(C.ChangeSecret(secret, Some(data))));
    Then(Then(changed, Above(C.RemoveSecret(secret))), Below(I.Evict(id.namespace, id.name)))
  }

  /** The other failing side: RemoveSecret finds clusters by the Secret they are tracked to, which the CA Secret
      need not be. After it has changed, with no change pending, the old CA's config is still returned. */
  lemma SettledHitWithAnOldCa(r: Run, id: ClusterId, data: map<string, string>)
    requires Legal(r) && After(r).cache.build.Idle?
    requires RefOf(id) in After(r).cache.cache.configs && C.Settled(After(r).cache, id)
    requires SourceOf(After(r).cache.env, id).CloudProvider? && SourceOf(After(r).cache.env, id).identity.caSecret.Some?
    requires BuildsTo(After(r).cache.env, id, After(r).cache.cache.configs[RefOf(id)])
    requires var ca := SecretRef(id.namespace, SourceOf(After(r).cache.env, id).identity.caSecret.value);
      ca in After(r).cache.cache.secrets ==> RefOf(id) !in After(r).cache.cache.secrets[ca]
    requires CA_KEY in data ==> data[CA_KEY] != After(r).cache.cache.configs[RefOf(id)].value.ca
    ensures
      var ca := SecretRef(id.namespace, SourceOf(After(r).cache.env, id).identity.caSecret.value);
      var r' := CaRotated(r, id, ca, data);
      && Legal(r') && C.Settled(After(r').cache, id) && ca !in After(r').cache.dirtySecrets
      && CacheKey(id.namespace, id.name) !in After(r').identity.entries
      && RefOf(id) in After(r').cache.cache.configs
      && !BuildsTo(After(r').cache.env, id, After(r').cache.cache.configs[RefOf(id)])
  {
    var ca := SecretRef(id.namespace, SourceOf(After(r).cache.env, id).identity.caSecret.value);
    var changed := Then(r, Above(C.ChangeSecret(ca, Some(data))));
    assert Legal(changed) && SourceOf(After(changed).cache.env, id) == SourceOf(After(r).cache.env, id);
    var removed := Then(changed, Above(C.RemoveSecret(ca)));
    assert Legal(removed);
    assert Legal(Then(removed, Below(I.Evict(id.namespace, id.name))));
  }
}
