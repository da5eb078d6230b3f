/**
 * InvalidateOnAuthError while other calls go on: it removes the cluster from the cluster cache first and evicts it
 * from the cache underneath afterwards, and holds no lock over both.
 */
module InvalidationRaces {
  import opened Outcomes
  import opened ManagementCluster
  import opened WorkloadIdentity
  import opened IdentityCoherence
  import C = CacheCoherence
  import I = IdentityRuns

  function KeyOf(id: ClusterId): string {
    CacheKey(id.namespace, id.name)
  }

  /** The step gives the cluster another spec, stores a config for it from outside, or has the provider hand out the
      rejected config once more. */
  ghost predicate Interferes(w: World, e: Event, id: ClusterId, bad: RestConfig)
    requires Enabled(w, e)
  {
    match e
    case Above(step) => (step.ChangeCluster? || step.StoreConfig?) && step.id == id
    case Below(call) => call.Fetch? && call.key == KeyOf(id) && I.Handed(w.identity, call.key, call.token) == bad
    case _ => false
  }

  /** m continues p, and nothing interferes. */
  ghost predicate Between(p: Run, m: Run, id: ClusterId, bad: RestConfig)
    requires Legal(m)
  {
    m == p || (m.Then? && Between(p, m.before, id, bad) && !Interferes(After(m.before), m.event, id, bad))
  }

  /** The flight for the cluster has come to the rejected config, and still takes on callers. */
  predicate FlightHas(w: World, id: ClusterId, bad: RestConfig) {
    && KeyOf(id) in w.identity.flights && w.identity.flights[KeyOf(id)].Stored?
    && w.identity.flights[KeyOf(id)].config == bad
  }

  /** The cache underneath can still hand out the rejected config for the present spec. */
  predicate StillBelow(w: World, id: ClusterId, bad: RestConfig)
    requires SourceOf(w.cache.env, id).CloudProvider?
  {
    var i, key := w.identity, KeyOf(id);
    || (key in i.entries && i.entries[key].config == bad
        && Reusable(i.entries[key], i.hash(SourceOf(w.cache.env, id).identity), i.now))
    || FlightHas(w, id, bad)
  }

  predicate Holds(w: World, id: ClusterId, bad: RestConfig) {
    RefOf(id) in w.cache.cache.configs && w.cache.cache.configs[RefOf(id)] == Some(bad)
  }

  /** Neither the cluster cache nor the build under its lock has the rejected config. */
  predicate Clean(w: World, id: ClusterId, bad: RestConfig) {
    && !Holds(w, id, bad)
    && (w.cache.build.AtLookup? && w.cache.build.id == id ==> w.cache.build.config != Some(bad))
    && (w.cache.build.AtProvider? && w.cache.build.id == id && w.asking.Some? ==>
         w.asking.value in w.identity.callers
         && (w.identity.callers[w.asking.value].Answered? ==> w.identity.callers[w.asking.value].config != bad))
  }

  /** Since w0 the spec has stayed, and the rejected config has not come up anew underneath. */
  ghost predicate Steady(w0: World, w: World, id: ClusterId, bad: RestConfig) {
    && SourceOf(w0.cache.env, id).CloudProvider? && SourceOf(w.cache.env, id) == SourceOf(w0.cache.env, id)
    && id !in w.cache.dirtyClusters && w.identity.hash == w0.identity.hash && w0.identity.now <= w.identity.now
    && (KeyOf(id) in w.identity.entries && w.identity.entries[KeyOf(id)].config == bad ==>
         KeyOf(id) in w0.identity.entries && w0.identity.entries[KeyOf(id)] == w.identity.entries[KeyOf(id)])
    && (FlightHas(w, id, bad) ==> FlightHas(w0, id, bad))
  }

  /** Nor has it come up from there, unless w0 had it there. */
  ghost predicate Contained(w0: World, w: World, id: ClusterId, bad: RestConfig) {
    Steady(w0, w, id, bad) && (!StillBelow(w0, id, bad) ==> Clean(w, id, bad))
  }

  lemma AboveSteady(w0: World, w: World, step: C.Event, id: ClusterId, bad: RestConfig)
    requires Steady(w0, w, id, bad) && Enabled(w, Above(step)) && !Interferes(w, Above(step), id, bad)
    ensures Steady(w0, Step(w, Above(step)), id, bad)
  {
  }

  lemma AboveClean(w: World, step: C.Event, id: ClusterId, bad: RestConfig)
    requires Linked(w) && Clean(w, id, bad) && bad.FromIdentity?
    requires Enabled(w, Above(step)) && !Interferes(w, Above(step), id, bad)
    ensures Clean(Step(w, Above(step)), id, bad)
  {
    if step.Record? && RefOf(w.cache.build.id) == RefOf(id) {
      RefOfInjective(w.cache.build.id, id);
    }
    if step.StoreConfig? && RefOf(step.id) == RefOf(id) {
      RefOfInjective(step.id, id);
    }
  }

  lemma BelowSteady(w0: World, w: World, call: I.Event, id: ClusterId, bad: RestConfig)
    requires Steady(w0, w, id, bad) && Enabled(w, Below(call)) && !Interferes(w, Below(call), id, bad)
    ensures Steady(w0, Step(w, Below(call)), id, bad)
  {
  }

  lemma BelowClean(w0: World, w: World, call: I.Event, id: ClusterId, bad: RestConfig)
    requires Linked(w) && Steady(w0, w, id, bad) && !StillBelow(w0, id, bad) && Clean(w, id, bad)
    requires Enabled(w, Below(call))
    ensures Clean(Step(w, Below(call)), id, bad)
  {
    if w.asking.Some? {
      CallersStay(w.identity, call, w.asking.value);
    }
  }

  lemma AskContained(w0: World, w: World, c: nat, id: ClusterId, bad: RestConfig)
    requires Linked(w) && Contained(w0, w, id, bad) && Enabled(w, Ask(c))
    ensures Contained(w0, Step(w, Ask(c)), id, bad)
  {
  }

  lemma ReceiveContained(w0: World, w: World, id: ClusterId, bad: RestConfig)
    requires Linked(w) && Contained(w0, w, id, bad) && Enabled(w, Receive)
    ensures Contained(w0, Step(w, Receive), id, bad)
  {
  }

  lemma {:induction false} WindowContained(p: Run, first: Run, m: Run, id: ClusterId, bad: RestConfig)
    requires Legal(p) && After(p).cache.build.Idle? && SourceOf(After(p).cache.env, id).CloudProvider?
    requires first == Then(p, Above(C.RemoveCluster(id))) && bad.FromIdentity?
    requires Legal(m) && Between(first, m, id, bad)
    ensures Contained(After(p), After(m), id, bad)
  {
    if m != first {
      WindowContained(p, first, m.before, id, bad);
      AlwaysLinked(m.before);
      match m.event
      case Above(step) =>
        AboveSteady(After(p), After(m.before), step, id, bad);
        if !StillBelow(After(p), id, bad) {
          AboveClean(After(m.before), step, id, bad);
        }
      case Below(call) =>
        BelowSteady(After(p), After(m.before), call, id, bad);
        if !StillBelow(After(p), id, bad) {
          BelowClean(After(p), After(m.before), call, id, bad);
        }
      case Ask(c) => AskContained(After(p), After(m.before), c, id, bad);
      case Receive => ReceiveContained(After(p), After(m.before), id, bad);
    }
  }

  /** An entry and the flight that made it agree. */
  lemma {:induction false} StoredIsCached(r: Run, key: string)
    requires Legal(r) && key in After(r).identity.flights && After(r).identity.flights[key].Stored?
    requires key in After(r).identity.entries
    ensures After(r).identity.entries[key].config == After(r).identity.flights[key].config
  {
    if !(r.event.Below? && r.event.call.Fetch? && r.event.call.key == key) {
      StoredIsCached(r.before, key);
    }
  }

  lemma {:induction false} FreshNumber(used: set<nat>) returns (c: nat)
    ensures forall x :: x in used ==> x < c
  {
    if used == {} {
      c := 0;
    } else {
      var x :| x in used;
      var above := FreshNumber(used - {x});
      c := if above > x then above else x + 1;
      forall y | y in used ensures y < c {
        assert y == x || y in used - {x};
      }
    }
  }

  /** The next build for the cluster is answered from underneath with the rejected config. */
  lemma AskGetsBad(p: Run, id: ClusterId, bad: RestConfig) returns (m: Run, c: nat)
    requires Legal(p) && After(p).cache.build.Idle? && SourceOf(After(p).cache.env, id).CloudProvider?
    requires StillBelow(After(p), id, bad)
    ensures Legal(m) && Between(Then(p, Above(C.RemoveCluster(id))), m, id, bad)
    ensures Enabled(After(m), Receive) && After(m).asking == Some(c) && After(m).cache.build.id == id
    ensures After(m).identity.callers[c].config == bad && SecretOf(After(m).cache.env, id).Some?
  {
    var first, spec := Then(p, Above(C.RemoveCluster(id))), SourceOf(After(p).cache.env, id).identity;
    assert Legal(first);
    c := FreshNumber(After(p).identity.callers.Keys);
    ReachesAsking(first, id, c);
    m := Asking(first, id, spec, c);
    AskingIsBetween(first, id, spec, c, bad);
    if FlightHas(After(p), id, bad) && KeyOf(id) in After(p).identity.entries {
      StoredIsCached(p, KeyOf(id));
    }
    if After(m).identity.callers[c].Missed? {
      m := JoinsAndReturns(first, m, c, id, bad);
    }
  }

  lemma AskingIsBetween(first: Run, id: ClusterId, spec: IdentitySpec, c: nat, bad: RestConfig)
    requires Legal(Asking(first, id, spec, c))
    ensures Between(first, Asking(first, id, spec, c), id, bad)
  {
    var at := Asking(first, id, spec, c).before;
    assert Legal(at);
    var seen := at.before;
    assert Legal(seen);
    var begun := seen.before;
    assert Legal(begun) && begun.before == first && Legal(first);
    assert Between(first, first, id, bad) && Between(first, begun, id, bad);
    assert Between(first, seen, id, bad) && Between(first, at, id, bad);
  }

  lemma JoinsAndReturns(first: Run, r: Run, c: nat, id: ClusterId, bad: RestConfig) returns (m: Run)
    requires Legal(r) && Between(first, r, id, bad) && FlightHas(After(r), id, bad)
    requires c in After(r).identity.callers && After(r).identity.callers[c].Missed?
    requires After(r).identity.callers[c].key == KeyOf(id)
    ensures Legal(m) && Between(first, m, id, bad)
    ensures After(m) == After(r).(identity := After(m).identity)
    ensures c in After(m).identity.callers && After(m).identity.callers[c].Answered?
    ensures After(m).identity.callers[c].config == bad
  {
    var entered := Then(r, Below(I.Enter(c)));
    assert Legal(entered) && Between(first, entered, id, bad) && FlightHas(After(entered), id, bad);
    m := Then(entered, Below(I.Land(KeyOf(id))));
    assert Legal(m);
  }

  /** Nothing interferes between the removal and the eviction, after which the cluster cache holds the rejected
      config. */
  ghost predicate HandsBack(first: Run, m: Run, id: ClusterId, bad: RestConfig) {
    && Legal(m) && Between(first, m, id, bad)
    && Holds(After(Then(m, Below(I.Evict(id.namespace, id.name)))), id, bad)
  }

  lemma RecordsBad(first: Run, asked: Run, c: nat, id: ClusterId, bad: RestConfig) returns (m: Run)
    requires Legal(asked) && Between(first, asked, id, bad) && Enabled(After(asked), Receive)
    requires After(asked).asking == Some(c) && After(asked).cache.build.id == id
    requires After(asked).identity.callers[c].config == bad && SecretOf(After(asked).cache.env, id).Some?
    ensures HandsBack(first, m, id, bad)
  {
    ReceivesAndRecords(asked, c);
    var received := Then(asked, Receive);
    m := Then(received, Above(C.Record));
    assert Between(first, received, id, bad) && Between(first, m, id, bad);
    assert Legal(Then(m, Below(I.Evict(id.namespace, id.name))));
  }

  /** When invalidating leaves the rejected config in the cluster cache, exactly: with other calls between its two
      steps, but no new spec, no config from outside and no such config from the provider, it can be back there
      after the second if and only if, before the first, the cache underneath could still hand it out for the present
      spec, from its entry or from a flight that has not landed. */
  lemma InvalidationIsUndoneExactlyFromBelow(p: Run, id: ClusterId, bad: RestConfig)
    requires Legal(p) && After(p).cache.build.Idle? && SourceOf(After(p).cache.env, id).CloudProvider?
    requires bad.FromIdentity?
    ensures (exists m :: HandsBack(Then(p, Above(C.RemoveCluster(id))), m, id, bad)) <==> StillBelow(After(p), id, bad)
  {
    var first := Then(p, Above(C.RemoveCluster(id)));
    forall m | HandsBack(first, m, id, bad) ensures StillBelow(After(p), id, bad) {
      WindowContained(p, first, m, id, bad);
    }
    if StillBelow(After(p), id, bad) {
      var asked, c := AskGetsBad(p, id, bad);
      var m := RecordsBad(first, asked, c, id, bad);
    }
  }
}
