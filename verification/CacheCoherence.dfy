/** Runs of the cluster cache. A build holds the cache's lock but not the management cluster: specs and
    Secrets may change between any two of its reads. */
module CacheCoherence {
  import opened Outcomes
  import opened ManagementCluster
  import opened CacheState

  /** How far the build under the lock has come, and what it carries from its earlier reads. */
  datatype Build =
    | Idle
    | AtCluster(id: ClusterId)
    | AtSpec(id: ClusterId)
    | AtProvider(id: ClusterId, identity: IdentitySpec)
    | AtSecretName(id: ClusterId)
    | AtSecret(id: ClusterId, secret: ObjectRef, key: string)
    | AtLookup(id: ClusterId, config: Option<RestConfig>)

  /** `dirtyClusters` have a change (or a stored config) that no RemoveCluster has followed yet,
      `dirtySecrets` a change that no RemoveSecret has followed. */
  datatype World = World(
    env: Env, cache: Cache, build: Build, dirtyClusters: set<ClusterId>, dirtySecrets: set<ObjectRef>)

  datatype Event =
    | ChangeCluster(id: ClusterId, spec: Option<ClusterSpec>)
    | ChangeSecret(secret: ObjectRef, data: Option<map<string, string>>)
    | RemoveCluster(id: ClusterId)
    | RemoveSecret(secret: ObjectRef)
    | StoreConfig(id: ClusterId, config: Option<RestConfig>)
    | Begin(id: ClusterId)
    | Read(next: Build)
    | Abandon
    | Record

  datatype Run = Start(env: Env) | Then(before: Run, event: Event)

  /** One read of an uncached build, in the order in which the build makes them. */
  predicate Reads(env: Env, b: Build, next: Build) {
    match b
    case AtCluster(id) =>
      && id in env.clusters
      && (match env.clusters[id]
          case CapiSpec =>
            && id.clusterType.Capi?
            && next == AtSecret(id, SecretRef(id.namespace, id.name + CAPI_POSTFIX), CAPI_KUBECONFIG_KEY)
          case SveltosSpec(pullMode, _, _, _) =>
            && id.clusterType.Sveltos?
            && next == if pullMode then AtLookup(id, None) else AtSpec(id))
    case AtSpec(id) =>
      && id in env.clusters && env.clusters[id].SveltosSpec? && id.clusterType.Sveltos?
      && (if env.clusters[id].identity.Some? then next == AtProvider(id, env.clusters[id].identity.value)
          else if env.clusters[id].pullMode then next == AtLookup(id, None)
          else next == AtSecretName(id))
    case AtProvider(id, _) => next.AtLookup? && next.id == id && next.config.Some?
    case AtSecretName(id) =>
      && SecretOf(env, id).Some? && id.clusterType.Sveltos?
      && next == AtSecret(id, SecretOf(env, id).value, env.clusters[id].kubeconfigKey)
    case AtSecret(id, secret, key) =>
      && next.AtLookup? && next.id == id && next.config.Some? && next.config.value.FromKubeconfig?
      && next.config.value.content !in env.malformed
      && ReadsAs(env, secret, key, next.config.value.content)
    case _ => false
  }

  ghost predicate Enabled(w: World, e: Event) {
    match e
    case ChangeCluster(_, _) => true
    case ChangeSecret(_, _) => true
    case RemoveCluster(_) => w.build.Idle?
    case RemoveSecret(_) => w.build.Idle?
    case StoreConfig(_, _) => w.build.Idle?
    case Begin(id) => w.build.Idle? && RefOf(id) !in w.cache.configs
    case Read(next) => Reads(w.env, w.build, next)
    case Abandon => !w.build.Idle?
    case Record => w.build.AtLookup? && SecretOf(w.env, w.build.id).Some?
  }

  function Put<K, V>(m: map<K, V>, k: K, v: Option<V>): map<K, V> {
    if v.Some? then m[k := v.value] else m - {k}
  }

  ghost function Step(w: World, e: Event): World
    requires Enabled(w, e)
  {
    match e
    case ChangeCluster(id, spec) =>
      w.(env := w.env.(clusters := Put(w.env.clusters, id, spec)), dirtyClusters := w.dirtyClusters + {id})
    case ChangeSecret(secret, data) =>
      w.(env := w.env.(secrets := Put(w.env.secrets, secret, data)), dirtySecrets := w.dirtySecrets + {secret})
    case RemoveCluster(id) =>
      w.(cache := ClusterRemoved(w.cache, RefOf(id)), dirtyClusters := w.dirtyClusters - {id})
    case RemoveSecret(secret) =>
      w.(cache := SecretRemoved(w.cache, secret), dirtySecrets := w.dirtySecrets - {secret})
    case StoreConfig(id, config) =>
      w.(cache := ConfigStored(w.cache, RefOf(id), config), dirtyClusters := w.dirtyClusters + {id})
    case Begin(id) => w.(build := AtCluster(id))
    case Read(next) => w.(build := next)
    case Abandon => w.(build := Idle)
    case Record =>
      w.(cache := Cached(w.cache, RefOf(w.build.id), SecretOf(w.env, w.build.id).value, w.build.config), build := Idle)
  }

  ghost predicate Legal(r: Run)
    decreases r, 0
  {
    match r
    case Start(_) => true
    case Then(before, e) => Legal(before) && Enabled(After(before), e)
  }

  ghost function After(r: Run): World
    requires Legal(r)
    decreases r, 1
  {
    match r
    case Start(env) => World(env, EMPTY, Idle, {}, {})
    case Then(before, e) => Step(After(before), e)
  }

  /** A config built for the cluster that need not be rebuilt now, as far as this cache can tell: a cloud
      provider's is left to IdentityCoherence. */
  ghost predicate Current(w: World, id: ClusterId, config: Option<RestConfig>) {
    || BuildsTo(w.env, id, config)
    || (SourceOf(w.env, id).Kubeconfig? && SourceOf(w.env, id).secret in w.dirtySecrets)
    || (SourceOf(w.env, id).CloudProvider? && config.Some?)
  }

  /** A cached cluster without a pending change is tracked to its own Secret and holds a current config. */
  ghost predicate EntryFresh(w: World, id: ClusterId) {
    RefOf(id) in w.cache.configs && id !in w.dirtyClusters ==>
      && RefOf(id) in w.cache.clusters
      && Current(w, id, w.cache.configs[RefOf(id)])
      && Some(w.cache.clusters[RefOf(id)]) == SecretOf(w.env, id)
      && RefOf(id) in w.cache.mappers && w.cache.mappers[RefOf(id)] == ClientsOf(w.cache.configs[RefOf(id)])
      && RefOf(id) in w.cache.discovery && w.cache.discovery[RefOf(id)] == ClientsOf(w.cache.configs[RefOf(id)])
  }

  /** What a build has read so far still holds, unless its cluster has a pending change. */
  ghost predicate BuildFresh(w: World) {
    match w.build
    case Idle => true
    case AtCluster(id) => true
    case AtSpec(id) => id !in w.dirtyClusters ==>
      SourceOf(w.env, id).CloudProvider? || SourceOf(w.env, id).Kubeconfig?
    case AtProvider(id, identity) => id !in w.dirtyClusters ==> SourceOf(w.env, id) == CloudProvider(identity)
    case AtSecretName(id) => id !in w.dirtyClusters ==> SourceOf(w.env, id).Kubeconfig?
    case AtSecret(id, secret, key) => id !in w.dirtyClusters ==> SourceOf(w.env, id) == Kubeconfig(secret, key)
    case AtLookup(id, config) => id !in w.dirtyClusters ==> Current(w, id, config)
  }

  ghost predicate Coherent(w: World) {
    && Indexed(w.cache)
    && (forall id :: EntryFresh(w, id))
    && BuildFresh(w)
    && (!w.build.Idle? ==> RefOf(w.build.id) !in w.cache.configs)
  }

  lemma ChangeClusterKeeps(w: World, id: ClusterId, spec: Option<ClusterSpec>)
    requires Coherent(w)
    ensures Coherent(Step(w, ChangeCluster(id, spec)))
  {
    var w' := Step(w, ChangeCluster(id, spec));
    forall c | c != id ensures SourceOf(w'.env, c) == SourceOf(w.env, c) && SecretOf(w'.env, c) == SecretOf(w.env, c) {
    }
    forall c ensures EntryFresh(w', c) {
      assert EntryFresh(w, c);
    }
  }

  lemma ChangeSecretKeeps(w: World, secret: ObjectRef, data: Option<map<string, string>>)
    requires Coherent(w)
    ensures Coherent(Step(w, ChangeSecret(secret, data)))
  {
    var w' := Step(w, ChangeSecret(secret, data));
    forall c, r | Current(w, c, r) ensures Current(w', c, r) {
      assert SourceOf(w'.env, c) == SourceOf(w.env, c);
    }
    forall c ensures EntryFresh(w', c) {
      assert EntryFresh(w, c);
    }
  }

  lemma RemoveClusterKeeps(w: World, id: ClusterId)
    requires Coherent(w) && w.build.Idle?
    ensures Coherent(Step(w, RemoveCluster(id)))
  {
    var w' := Step(w, RemoveCluster(id));
    ClusterRemovedIndexed(w.cache, RefOf(id));
    forall c ensures EntryFresh(w', c) {
      assert EntryFresh(w, c);
    }
  }

  /** Every cluster that is tracked to the Secret is evicted, so those left never depended on it. */
  lemma RemoveSecretKeeps(w: World, secret: ObjectRef)
    requires Coherent(w) && w.build.Idle?
    ensures Coherent(Step(w, RemoveSecret(secret)))
  {
    var w' := Step(w, RemoveSecret(secret));
    SecretRemovedIndexed(w.cache, secret);
    forall c ensures EntryFresh(w', c) {
      assert EntryFresh(w, c);
    }
  }

  lemma StoreConfigKeeps(w: World, id: ClusterId, config: Option<RestConfig>)
    requires Coherent(w) && w.build.Idle?
    ensures Coherent(Step(w, StoreConfig(id, config)))
  {
    var w' := Step(w, StoreConfig(id, config));
    forall c ensures EntryFresh(w', c) {
      assert EntryFresh(w, c);
      if c != id && RefOf(c) == RefOf(id) {
        RefOfInjective(c, id);
      }
    }
  }

  lemma ReadKeeps(w: World, next: Build)
    requires Coherent(w) && Reads(w.env, w.build, next)
    ensures Coherent(Step(w, Read(next)))
  {
    var w' := Step(w, Read(next));
    forall c ensures EntryFresh(w', c) {
      assert EntryFresh(w, c);
    }
  }

  lemma RecordKeeps(w: World)
    requires Coherent(w) && Enabled(w, Record)
    ensures Coherent(Step(w, Record))
  {
    var w', id := Step(w, Record), w.build.id;
    CachedIndexed(w.cache, RefOf(id), SecretOf(w.env, id).value, w.build.config);
    forall c ensures EntryFresh(w', c) {
      assert EntryFresh(w, c);
      if c != id && RefOf(c) == RefOf(id) {
        RefOfInjective(c, id);
      }
    }
  }

  lemma StepKeeps(w: World, e: Event)
    requires Coherent(w) && Enabled(w, e)
    ensures Coherent(Step(w, e))
  {
    match e
    case ChangeCluster(id, spec) => ChangeClusterKeeps(w, id, spec);
    case ChangeSecret(secret, data) => ChangeSecretKeeps(w, secret, data);
    case RemoveCluster(id) => RemoveClusterKeeps(w, id);
    case RemoveSecret(secret) => RemoveSecretKeeps(w, secret);
    case StoreConfig(id, config) => StoreConfigKeeps(w, id, config);
    case Read(next) => ReadKeeps(w, next);
    case Record => RecordKeeps(w);
    case _ => // Begin and Abandon leave the cache and the management cluster alone
      forall c ensures EntryFresh(Step(w, e), c) {
        assert EntryFresh(w, c);
      }
  }

  lemma {:induction false} AlwaysCoherent(r: Run)
    requires Legal(r)
    ensures Coherent(After(r))
  {
    if r.Then? {
      AlwaysCoherent(r.before);
      StepKeeps(After(r.before), r.event);
    }
  }

  /** A cluster, and the Secret it reads, have been invalidated since they last changed. */
  ghost predicate Settled(w: World, id: ClusterId) {
    && id !in w.dirtyClusters
    && (SourceOf(w.env, id).Kubeconfig? ==> SourceOf(w.env, id).secret !in w.dirtySecrets)
  }

  /** Coherence: a hit is what an uncached build could return now, and the clients go with it. What it takes for
      a workload-identity cluster is SettledHitIsAnUncachedBuild of IdentityCoherence. */
  lemma HitIsAnUncachedBuild(r: Run, id: ClusterId)
    requires Legal(r) && Settled(After(r), id) && RefOf(id) in After(r).cache.configs
    ensures !SourceOf(After(r).env, id).CloudProvider? ==>
      BuildsTo(After(r).env, id, After(r).cache.configs[RefOf(id)])
    ensures RefOf(id) in After(r).cache.mappers && RefOf(id) in After(r).cache.discovery
    ensures After(r).cache.mappers[RefOf(id)] == ClientsOf(After(r).cache.configs[RefOf(id)])
    ensures After(r).cache.discovery[RefOf(id)] == ClientsOf(After(r).cache.configs[RefOf(id)])
  {
    AlwaysCoherent(r);
    assert EntryFresh(After(r), id);
  }

  /** Where builds are determined, a hit equals every uncached build. */
  lemma HitEqualsEveryUncachedBuild(r: Run, id: ClusterId, uncached: Option<RestConfig>)
    requires Legal(r) && Settled(After(r), id) && RefOf(id) in After(r).cache.configs
    requires !SourceOf(After(r).env, id).CloudProvider? && !ManyAnswers(After(r).env, id)
    requires BuildsTo(After(r).env, id, uncached)
    ensures After(r).cache.configs[RefOf(id)] == uncached
  {
    HitIsAnUncachedBuild(r, id);
    BuildIsDetermined(After(r).env, id);
  }

  /** A build that has come to its lookup returns such a config too, recorded or not. */
  lemma MissIsAnUncachedBuild(r: Run)
    requires Legal(r) && After(r).build.AtLookup? && Settled(After(r), After(r).build.id)
    requires !SourceOf(After(r).env, After(r).build.id).CloudProvider?
    ensures BuildsTo(After(r).env, After(r).build.id, After(r).build.config)
  {
    AlwaysCoherent(r);
  }

  /** The config that the latest build to record the cluster had come to. */
  ghost function LatestRecord(r: Run, id: ClusterId): Option<Option<RestConfig>>
    requires Legal(r)
  {
    match r
    case Start(_) => None
    case Then(b, e) =>
      if e.Record? && After(b).build.id == id then Some(After(b).build.config) else LatestRecord(b, id)
  }

  /** In every run, whatever the cache has for a cluster in the way of clients, the latest record put there. */
  lemma {:induction false} ClientsAreOfTheLatestRecord(r: Run, id: ClusterId)
    requires Legal(r) && RefOf(id) in After(r).cache.mappers
    ensures LatestRecord(r, id).Some?
    ensures After(r).cache.mappers[RefOf(id)] == ClientsOf(LatestRecord(r, id).value)
    ensures RefOf(id) in After(r).cache.discovery
    ensures After(r).cache.discovery[RefOf(id)] == ClientsOf(LatestRecord(r, id).value)
  {
    var b, e := r.before, r.event;
    AlwaysCoherent(r);
    if e.Record? && RefOf(After(b).build.id) == RefOf(id) {
      RefOfInjective(After(b).build.id, id);
    } else {
      ClientsAreOfTheLatestRecord(b, id);
    }
  }

  ghost predicate Prefix(p: Run, r: Run) {
    p == r || (r.Then? && Prefix(p, r.before))
  }

  predicate InPullMode(env: Env, id: ClusterId) {
    id in env.clusters && env.clusters[id].SveltosSpec? && env.clusters[id].pullMode
  }

  /** A build comes to nil only by reading that the cluster is in pull mode. */
  lemma {:induction false} NilBuildReadPullMode(r: Run) returns (p: Run)
    requires Legal(r) && After(r).build.AtLookup? && After(r).build.config.None?
    ensures Prefix(p, r) && Legal(p) && InPullMode(After(p).env, After(r).build.id)
  {
    if r.event.Read? {
      p := r.before;
    } else {
      p := NilBuildReadPullMode(r.before);
    }
  }

  lemma {:induction false} NilRecordReadPullMode(r: Run, id: ClusterId) returns (p: Run)
    requires Legal(r) && LatestRecord(r, id) == Some(None)
    ensures Prefix(p, r) && Legal(p) && InPullMode(After(p).env, id)
  {
    if r.event.Record? && After(r.before).build.id == id {
      p := NilBuildReadPullMode(r.before);
    } else {
      p := NilRecordReadPullMode(r.before, id);
    }
  }

  /** In every run the clients of a cluster, which ResetMapper and InvalidateDiscoveryClient call without looking, are
      nil if and only if the latest build to record it had come to nil, and then that build read pull mode. */
  lemma NilClientsExactlyAfterANilRecord(r: Run, id: ClusterId)
    requires Legal(r) && RefOf(id) in After(r).cache.mappers
    ensures RefOf(id) in After(r).cache.discovery
    ensures After(r).cache.mappers[RefOf(id)].None? <==> LatestRecord(r, id) == Some(None)
    ensures After(r).cache.discovery[RefOf(id)].None? <==> LatestRecord(r, id) == Some(None)
    ensures LatestRecord(r, id) == Some(None) ==> exists p :: Prefix(p, r) && Legal(p) && InPullMode(After(p).env, id)
  {
    ClientsAreOfTheLatestRecord(r, id);
    if LatestRecord(r, id) == Some(None) {
      var p := NilRecordReadPullMode(r, id);
    }
  }

  /** For a settled cluster that means it is in pull mode now. */
  lemma NilClientsMeanPullMode(r: Run, id: ClusterId)
    requires Legal(r) && Settled(After(r), id) && RefOf(id) in After(r).cache.mappers
    ensures LatestRecord(r, id) == Some(None) <==> SourceOf(After(r).env, id).PullMode?
    ensures After(r).cache.mappers[RefOf(id)].None? <==> SourceOf(After(r).env, id).PullMode?
  {
    AlwaysCoherent(r);
    NilClientsExactlyAfterANilRecord(r, id);
    assert EntryFresh(After(r), id);
  }

  /** RemoveSecret, in any state the cache can be in. */
  lemma NothingStaysTrackedToARemovedSecret(r: Run, secret: ObjectRef)
    requires Legal(Then(r, RemoveSecret(secret)))
    ensures forall c :: c in After(Then(r, RemoveSecret(secret))).cache.clusters ==>
      After(Then(r, RemoveSecret(secret))).cache.clusters[c] != secret
    ensures forall c :: c in After(r).cache.clusters && After(r).cache.clusters[c] == secret ==>
      c !in After(Then(r, RemoveSecret(secret))).cache.configs
  {
    AlwaysCoherent(r);
    SecretRemovedIndexed(After(r).cache, secret);
  }

  predicate StoresNothing(r: Run) {
    r.Then? ==> StoresNothing(r.before) && !r.event.StoreConfig?
  }

  /** Without StoreRestConfig whatever has a config has a mapper, so GetMapper cannot find the one
      without the other. */
  lemma {:induction false} ConfigsHaveMappers(r: Run)
    requires Legal(r) && StoresNothing(r)
    ensures After(r).cache.configs.Keys == After(r).cache.mappers.Keys == After(r).cache.discovery.Keys
  {
    if r.Then? {
      ConfigsHaveMappers(r.before);
      AlwaysCoherent(r.before);
      var s, s' := After(r.before).cache, After(r).cache;
      match r.event
      case RemoveCluster(id) =>
        assert s'.configs.Keys == s.configs.Keys - {RefOf(id)} && s'.mappers.Keys == s.mappers.Keys - {RefOf(id)};
        assert s'.discovery.Keys == s.discovery.Keys - {RefOf(id)};
      case RemoveSecret(x) =>
        if x in s.secrets {
          assert s'.configs.Keys == s.configs.Keys - s.secrets[x] && s'.mappers.Keys == s.mappers.Keys - s.secrets[x];
          assert s'.discovery.Keys == s.discovery.Keys - s.secrets[x];
        }
      case _ =>
    }
  }

  /** GetMapper finds a config without a mapper. */
  predicate Mapperless(s: Cache, id: ClusterId) {
    RefOf(id) in s.configs && RefOf(id) !in s.mappers
  }

  /** The cluster's latest StoreRestConfig found it without a mapper, and the config is still there. */
  ghost predicate StoredOnly(r: Run, id: ClusterId)
    requires Legal(r)
  {
    && r.Then? && RefOf(id) in After(r).cache.configs
    && if r.event.StoreConfig? && r.event.id == id then RefOf(id) !in After(r.before).cache.mappers
       else StoredOnly(r.before, id)
  }

  /** When GetMapper cannot succeed, exactly: in every run a cluster has a config but no mapper if and only if the
      config was stored from outside when the cluster had no mapper, and has not been removed since. */
  lemma {:induction false} MapperlessExactlyWhenStored(r: Run, id: ClusterId)
    requires Legal(r)
    ensures Mapperless(After(r).cache, id) <==> StoredOnly(r, id)
  {
    if r.Then? {
      MapperlessExactlyWhenStored(r.before, id);
      AlwaysCoherent(r.before);
      AlwaysCoherent(r);
      if !(r.event.StoreConfig? && r.event.id == id) {
        MapperStep(After(r.before), r.event, id);
      }
    }
  }

  lemma MapperStep(w: World, e: Event, id: ClusterId)
    requires Enabled(w, e) && Coherent(w) && !(e.StoreConfig? && e.id == id)
    ensures Mapperless(Step(w, e).cache, id) <==> Mapperless(w.cache, id) && RefOf(id) in Step(w, e).cache.configs
  {
    if e.StoreConfig? && RefOf(e.id) == RefOf(id) {
      RefOfInjective(e.id, id);
    }
  }

  /** A config stored for a cluster the cache does not know has no mapper, and no later event but the
      removal of that cluster, or of a Secret it was once tracked to, changes that. */
  lemma StoredConfigStaysWithoutMapper(r: Run, e: Event, id: ClusterId)
    requires Legal(Then(r, e)) && RefOf(id) !in After(r).cache.mappers
    requires RefOf(id) in After(r).cache.configs || (e.StoreConfig? && e.id == id)
    requires e != RemoveCluster(id)
    requires e.RemoveSecret? && e.secret in After(r).cache.secrets ==> RefOf(id) !in After(r).cache.secrets[e.secret]
    ensures RefOf(id) in After(Then(r, e)).cache.configs && RefOf(id) !in After(Then(r, e)).cache.mappers
  {
    AlwaysCoherent(r);
    if e.RemoveCluster? && RefOf(e.id) == RefOf(id) {
      RefOfInjective(e.id, id);
    }
  }

  predicate RemovesNoSecret(r: Run) {
    r.Then? ==> RemovesNoSecret(r.before) && !r.event.RemoveSecret?
  }

  /** Without RemoveSecret the reverse index holds exactly the tracked clusters. */
  lemma {:induction false} ReverseIsExactWithoutRemoveSecret(r: Run)
    requires Legal(r) && RemovesNoSecret(r)
    ensures ReverseExact(After(r).cache)
  {
    if r.Then? {
      ReverseIsExactWithoutRemoveSecret(r.before);
      AlwaysCoherent(r.before);
      var w := After(r.before);
      match r.event
      case RemoveCluster(id) => ClusterRemovedReverse(w.cache, RefOf(id));
      case Record => CachedReverse(w.cache, RefOf(w.build.id), SecretOf(w.env, w.build.id).value, w.build.config);
      case _ =>
    }
  }

  /** RemoveSecret evicts the clusters but keeps listing them, so the index is exact after it if and only if it
      was before and no cluster was listed for the Secret. */
  lemma RemoveSecretKeepsItsReverseSet(r: Run, secret: ObjectRef)
    requires Legal(Then(r, RemoveSecret(secret)))
    ensures After(Then(r, RemoveSecret(secret))).cache.secrets == After(r).cache.secrets
    ensures ReverseExact(After(Then(r, RemoveSecret(secret))).cache) <==>
      ReverseExact(After(r).cache) && secret !in After(r).cache.secrets
  {
    AlwaysCoherent(r);
    SecretRemovedReverse(After(r).cache, secret);
  }

  /** The events of a build that nothing disturbs and that comes to the given config. */
  ghost function Fetched(r: Run, id: ClusterId, config: Option<RestConfig>): Run
    requires Legal(r)
  {
    var begun := Then(r, Begin(id));
    var loaded := match SourceOf(After(r).env, id)
      case Nowhere => begun
      case PullMode => begun
      case CloudProvider(identity) => Then(Then(begun, Read(AtSpec(id))), Read(AtProvider(id, identity)))
      case Kubeconfig(secret, key) =>
        var named := if id.clusterType.Capi? then begun
                     else Then(Then(begun, Read(AtSpec(id))), Read(AtSecretName(id)));
        Then(named, Read(AtSecret(id, secret, key)));
    Then(Then(loaded, Read(AtLookup(id, config))), Record)
  }

  lemma LastSteps(r: Run, w: World, id: ClusterId, config: Option<RestConfig>)
    requires Legal(r) && !After(r).build.Idle? && After(r) == w.(build := After(r).build) && w.build.Idle?
    requires Reads(w.env, After(r).build, AtLookup(id, config)) && SecretOf(w.env, id).Some?
    ensures Legal(Then(Then(r, Read(AtLookup(id, config))), Record))
    ensures After(Then(Then(r, Read(AtLookup(id, config))), Record)) ==
      w.(cache := Cached(w.cache, RefOf(id), SecretOf(w.env, id).value, config))
  {
    var read := Then(r, Read(AtLookup(id, config)));
    assert Legal(read) && After(read) == w.(build := AtLookup(id, config));
  }

  lemma ReachesSpec(r: Run, id: ClusterId)
    requires Legal(r) && After(r).build.Idle? && RefOf(id) !in After(r).cache.configs && id.clusterType.Sveltos?
    requires SourceOf(After(r).env, id).CloudProvider? || SourceOf(After(r).env, id).Kubeconfig?
    ensures Legal(Then(Then(r, Begin(id)), Read(AtSpec(id))))
    ensures After(Then(Then(r, Begin(id)), Read(AtSpec(id)))) == After(r).(build := AtSpec(id))
  {
    var begun := Then(r, Begin(id));
    assert Legal(begun) && After(begun) == After(r).(build := AtCluster(id));
  }

  /** Whatever an uncached build can return can be fetched, and an undisturbed fetch has the effect of one
      atomic insertion, which is how GetKubernetesRestConfig is specified. */
  lemma FetchIsAtomic(r: Run, id: ClusterId, config: Option<RestConfig>)
    requires Legal(r) && After(r).build.Idle? && RefOf(id) !in After(r).cache.configs
    requires BuildsTo(After(r).env, id, config)
    ensures Legal(Fetched(r, id, config))
    ensures After(Fetched(r, id, config)) ==
      After(r).(cache := Cached(After(r).cache, RefOf(id), SecretOf(After(r).env, id).value, config))
  {
    var w, begun := After(r), Then(r, Begin(id));
    assert Legal(begun) && After(begun) == w.(build := AtCluster(id));
    match SourceOf(w.env, id)
    case PullMode => LastSteps(begun, w, id, config);
    case CloudProvider(identity) =>
      ReachesSpec(r, id);
      var seen := Then(begun, Read(AtSpec(id)));
      var asked := Then(seen, Read(AtProvider(id, identity)));
      assert Legal(asked) && After(asked) == w.(build := AtProvider(id, identity));
      LastSteps(asked, w, id, config);
    case Kubeconfig(secret, key) =>
      var named := begun;
      if id.clusterType.Sveltos? {
        ReachesSpec(r, id);
        var seen := Then(begun, Read(AtSpec(id)));
        named := Then(seen, Read(AtSecretName(id)));
        assert Legal(named) && After(named) == w.(build := AtSecretName(id));
      }
      var found := Then(named, Read(AtSecret(id, secret, key)));
      assert Legal(found) && After(found) == w.(build := AtSecret(id, secret, key));
      LastSteps(found, w, id, config);
  }

  /** The pairing is needed: a Secret that changes under a cached cluster leaves a hit no build would
      return, until RemoveSecret is called. */
  lemma StaleUntilRemoveSecret(r: Run, id: ClusterId, before: string, after: string)
    requires Legal(r) && After(r).build.Idle? && RefOf(id) !in After(r).cache.configs && before != after
    requires SourceOf(After(r).env, id).Kubeconfig? && BuildsTo(After(r).env, id, Some(FromKubeconfig(before)))
    ensures
      var s := SourceOf(After(r).env, id);
      var fetched := Fetched(r, id, Some(FromKubeconfig(before)));
      var changed := Then(fetched, ChangeSecret(s.secret, Some(map[s.key := after])));
      && Legal(changed) && RefOf(id) in After(changed).cache.configs
      && After(changed).cache.configs[RefOf(id)] == Some(FromKubeconfig(before))
      && !BuildsTo(After(changed).env, id, Some(FromKubeconfig(before)))
      && Legal(Then(changed, RemoveSecret(s.secret)))
      && RefOf(id) !in After(Then(changed, RemoveSecret(s.secret))).cache.configs
  {
    var s, config := SourceOf(After(r).env, id), Some(FromKubeconfig(before));
    FetchIsAtomic(r, id, config);
    TrackedSecretIsTheSource(After(r).env, id);
    var fetched := Fetched(r, id, config);
    var changed := Then(fetched, ChangeSecret(s.secret, Some(map[s.key := after])));
    assert Legal(changed) && SourceOf(After(changed).env, id) == s;
    assert Legal(Then(changed, RemoveSecret(s.secret)));
  }
}
