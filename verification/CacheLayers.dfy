/** The cluster cache over the workload-identity cache: calls that no other call overlaps. */
module CacheLayers {
  import opened Outcomes
  import opened ManagementCluster
  import opened CacheState
  import opened WorkloadIdentity

  datatype CacheError = BuildFailed | NotInitialised

  datatype ApiError = Unauthorized | Forbidden | OtherError

  /** What the environment lets happen in one call: whether the reads of the build, the creation of a
      discovery client and the lookup of the Secret's name get through, the clock, and what a cloud
      provider or the administrator's own kubeconfig would yield. */
  datatype Answers = Answers(
    builds: bool, discovers: bool, looksUp: bool, now: int, provider: ProviderAnswer, admin: Built)

  const KUBERNETES_ADMIN := "kubernetes-admin"

  datatype Layers = Layers(cache: Cache, entries: map<string, Entry>)

  type Built = Result<Option<RestConfig>, CacheError>

  /** A call that gets through to everything it asks for. */
  predicate Succeeds(env: Env, id: ClusterId, a: Answers) {
    && Buildable(env, id) && a.builds && a.discovers
    && (SourceOf(env, id).CloudProvider? ==> a.provider.Token?)
  }

  /** What the workload-identity cache makes of a build. */
  function Underneath(
    env: Env, id: ClusterId, a: Answers, hash: IdentitySpec -> string, entries: map<string, Entry>): Reply
    requires SourceOf(env, id).CloudProvider?
  {
    Replied(hash, entries, env, id.namespace, id.name, SourceOf(env, id).identity, a.now, a.provider)
  }

  function Lifted(r: Result<RestConfig, IdentityError>): Built {
    if r.Ok? then Ok(Some(r.value)) else Err(BuildFailed)
  }

  /** An uncached build and what it leaves in the workload-identity cache. */
  ghost predicate Builds(
    hash: IdentitySpec -> string, entries: map<string, Entry>, env: Env, id: ClusterId, a: Answers,
    r: Built, entries': map<string, Entry>)
  {
    && (r.Ok? ==> a.builds && (SourceOf(env, id).CloudProvider? || BuildsTo(env, id, r.value)))
    && (Succeeds(env, id, a) ==> r.Ok?)
    && if a.builds && SourceOf(env, id).CloudProvider? then
         && entries' == Underneath(env, id, a, hash, entries).entries
         && r == Lifted(Underneath(env, id, a, hash, entries).result)
       else entries' == entries
  }

  /** GetKubernetesRestConfig without an administrator: a hit is returned as it is, whatever the time; a miss
      is built, and recorded in all five maps or in none. */
  ghost predicate Gets(
    hash: IdentitySpec -> string, l: Layers, env: Env, id: ClusterId, a: Answers, r: Built, l': Layers)
  {
    if RefOf(id) in l.cache.configs then r == Ok(l.cache.configs[RefOf(id)]) && l' == l
    else
      && (exists built: Built ::
            && Builds(hash, l.entries, env, id, a, built, l'.entries)
            && r == if built.Ok? && built.value.Some? && !a.discovers then Err(BuildFailed) else built)
      && l'.cache == if r.Ok? && a.looksUp then Cached(l.cache, RefOf(id), SecretOf(env, id).value, r.value)
                     else l.cache
  }

  /** The content can be loaded, and the Secret has it: under the key if one is named, under any otherwise. */
  predicate ComesFrom(env: Env, secret: ObjectRef, key: string, content: string) {
    && content !in env.malformed && secret in env.secrets
    && (key != "" ==> key in env.secrets[secret] && env.secrets[secret][key] == content)
    && (key == "" ==> exists k :: k in env.secrets[secret] && env.secrets[secret][k] == content)
  }

  /** What a call that misses returns, in terms of the cluster's spec and the Secrets alone, and under which
      Secret it is tracked. */
  lemma WhatAMissReturns(
    hash: IdentitySpec -> string, l: Layers, env: Env, id: ClusterId, a: Answers, r: Built, l': Layers)
    requires Gets(hash, l, env, id, a, r, l') && RefOf(id) !in l.cache.configs
    ensures id !in env.clusters ==> r.Err?
    ensures r.Ok? && id.clusterType == Capi ==>
      && r.value.Some? && r.value.value.FromKubeconfig?
      && var secret := ObjectRef(id.namespace, id.name + "-kubeconfig", "Secret", "v1");
         ComesFrom(env, secret, "value", r.value.value.content)
    ensures r.Ok? && id.clusterType == Sveltos ==> id in env.clusters && env.clusters[id].SveltosSpec?
    ensures r.Ok? && id.clusterType == Sveltos ==>
      var s := env.clusters[id];
      var name := if s.kubeconfigName == "" then id.name + "-sveltos-kubeconfig" else s.kubeconfigName;
      && (s.pullMode ==> r.value == None)
      && (!s.pullMode && s.identity.None? ==>
           && r.value.Some? && r.value.value.FromKubeconfig?
           && ComesFrom(env, ObjectRef(id.namespace, name, "Secret", "v1"), s.kubeconfigKey, r.value.value.content))
      && (!s.pullMode && s.identity.Some? ==> r.value.Some?)
      && (a.looksUp ==>
           && RefOf(id) in l'.cache.clusters
           && l'.cache.clusters[RefOf(id)] == ObjectRef(id.namespace, name, "Secret", "v1"))
    ensures r.Ok? && id.clusterType == Capi && a.looksUp ==>
      && RefOf(id) in l'.cache.clusters
      && l'.cache.clusters[RefOf(id)] == ObjectRef(id.namespace, id.name + "-kubeconfig", "Secret", "v1")
    ensures r.Ok? && a.looksUp ==> RefOf(id) in l'.cache.configs && l'.cache.configs[RefOf(id)] == r.value
    ensures r.Err? || !a.looksUp ==> l'.cache == l.cache
  {
    if r.Ok? && r.value.Some? && r.value.value.FromKubeconfig? && SourceOf(env, id).Kubeconfig? {
      var data := env.secrets[SourceOf(env, id).secret];
      assert r.value.value.content in data.Values;
    }
  }

  /** When a call that misses succeeds, in the same terms, if everything it asks for answers. */
  lemma WhenAMissSucceeds(
    hash: IdentitySpec -> string, l: Layers, env: Env, id: ClusterId, a: Answers, r: Built, l': Layers)
    requires Gets(hash, l, env, id, a, r, l') && RefOf(id) !in l.cache.configs && a.builds && a.discovers
    requires id in env.clusters
    ensures id.clusterType == Capi && env.clusters[id] == CapiSpec
      ==>
        var secret := ObjectRef(id.namespace, id.name + "-kubeconfig", "Secret", "v1");
        (exists c :: ComesFrom(env, secret, "value", c)) ==> r.Ok?
    ensures id.clusterType == Sveltos && env.clusters[id].SveltosSpec? && env.clusters[id].pullMode ==> r.Ok?
    ensures
      id.clusterType == Sveltos && env.clusters[id].SveltosSpec?
      && !env.clusters[id].pullMode && env.clusters[id].identity.None? && env.clusters[id].kubeconfigKey != "" ==>
        var s := env.clusters[id];
        var name := if s.kubeconfigName == "" then id.name + "-sveltos-kubeconfig" else s.kubeconfigName;
        (exists c :: ComesFrom(env, ObjectRef(id.namespace, name, "Secret", "v1"), s.kubeconfigKey, c)) ==> r.Ok?
  {
    if id.clusterType == Capi {
      var secret := ObjectRef(id.namespace, id.name + "-kubeconfig", "Secret", "v1");
      if c :| ComesFrom(env, secret, "value", c) {
        assert "value" in env.secrets[secret];
      }
    }
  }

  /** Asking for a client the cache does not hold. If it has the config all the same, that was stored from
      outside, and the call fails. If not, the cluster is initialised and its new client returned, unless the
      build or the lookup of the Secret fails. */
  ghost predicate Initialises(
    hash: IdentitySpec -> string, l: Layers, env: Env, id: ClusterId, a: Answers,
    r: Result<Option<Client>, CacheError>, l': Layers)
  {
    exists got: Built ::
      && Gets(hash, l, env, id, a, got, l')
      && if RefOf(id) in l.cache.configs then r == Err(NotInitialised) && l' == l
         else if got.Err? then r == Err(BuildFailed) && l'.cache == l.cache
         else if !a.looksUp then r == Err(NotInitialised) && l'.cache == l.cache
         else
           && r == Ok(ClientsOf(got.value))
           && l'.cache == Cached(l.cache, RefOf(id), SecretOf(env, id).value, got.value)
  }

  /** GetKubernetesRestConfig on behalf of an administrator: the cluster's own config for the default one,
      otherwise the administrator's, which a cluster in pull mode has no more than its own. */
  ghost predicate AdminGets(
    hash: IdentitySpec -> string, entries: map<string, Entry>, env: Env, id: ClusterId, adminName: string, a: Answers,
    r: Built, entries': map<string, Entry>)
  {
    if adminName == "" || adminName == KUBERNETES_ADMIN then Builds(hash, entries, env, id, a, r, entries')
    else
      && entries' == entries
      && r == if id.clusterType.Sveltos? && (!a.builds || SourceOf(env, id).Nowhere?) then Err(BuildFailed)
              else if SourceOf(env, id).PullMode? then Ok(None)
              else a.admin
  }

  /** A named administrator gets that administrator's config, or none in pull mode; never the cluster's own. */
  lemma WhatAnAdminGets(
    hash: IdentitySpec -> string, entries: map<string, Entry>, env: Env, id: ClusterId, adminName: string, a: Answers,
    r: Built, entries': map<string, Entry>)
    requires AdminGets(hash, entries, env, id, adminName, a, r, entries')
    requires adminName != "" && adminName != "kubernetes-admin"
    ensures entries' == entries
    ensures id.clusterType == Capi ==> r == a.admin
    ensures id.clusterType == Sveltos && a.builds && id in env.clusters && env.clusters[id].SveltosSpec? ==>
      r == if env.clusters[id].pullMode then Ok(None) else a.admin
    ensures id.clusterType == Sveltos && (!a.builds || id !in env.clusters) ==> r.Err?
  {
  }

  predicate Rejects(err: Option<ApiError>) {
    err.Some? && !err.value.OtherError?
  }

  function WithoutEntry(l: Layers, namespace: string, name: string): Layers {
    l.(entries := l.entries - {CacheKey(namespace, name)})
  }

  /** InvalidateOnAuthError. */
  function Invalidated(l: Layers, id: ClusterId, err: Option<ApiError>): Layers {
    if Rejects(err) then WithoutEntry(l.(cache := ClusterRemoved(l.cache, RefOf(id))), id.namespace, id.name) else l
  }

  /** Neither cache holds anything for the cluster. */
  ghost predicate Out(l: Layers, id: ClusterId) {
    && RefOf(id) !in l.cache.configs && RefOf(id) !in l.cache.clusters
    && RefOf(id) !in l.cache.mappers && RefOf(id) !in l.cache.discovery
    && CacheKey(id.namespace, id.name) !in l.entries
  }

  datatype Op =
    | Get(env: Env, id: ClusterId, answers: Answers)
    | Identify(env: Env, namespace: string, name: string, spec: IdentitySpec, now: int, answer: ProviderAnswer)
    | Invalidate(id: ClusterId, err: Option<ApiError>)
    | DropCluster(id: ClusterId)
    | DropSecret(secret: ObjectRef)
    | Evict(namespace: string, name: string)
    | Store(id: ClusterId, config: Option<RestConfig>)

  /** One call by anyone in the process. Identify is a build that goes past the cluster cache. */
  ghost predicate Does(hash: IdentitySpec -> string, l: Layers, op: Op, l': Layers) {
    match op
    case Get(env, id, a) => exists r: Built :: Gets(hash, l, env, id, a, r, l')
    case Identify(env, ns, n, spec, now, answer) =>
      l' == l.(entries := Replied(hash, l.entries, env, ns, n, spec, now, answer).entries)
    case Invalidate(id, err) => l' == Invalidated(l, id, err)
    case DropCluster(id) => l' == l.(cache := ClusterRemoved(l.cache, RefOf(id)))
    case DropSecret(secret) => l' == l.(cache := SecretRemoved(l.cache, secret))
    case Evict(ns, n) => l' == WithoutEntry(l, ns, n)
    case Store(id, config) => l' == l.(cache := ConfigStored(l.cache, RefOf(id), config))
  }

  /** The calls that can bring a cluster back into either cache: those for its namespace and name. */
  predicate Concerns(op: Op, namespace: string, name: string) {
    match op
    case Get(_, id, _) => id.namespace == namespace && id.name == name
    case Identify(_, ns, n, _, _, _) => ns == namespace && n == name
    case Store(id, _) => id.namespace == namespace && id.name == name
    case _ => false
  }

  /** Kubernetes allows no '/' in a namespace. */
  predicate SaneNamespace(op: Op) {
    match op
    case Get(_, id, _) => '/' !in id.namespace
    case Identify(_, ns, _, _, _, _) => '/' !in ns
    case _ => true
  }

  ghost predicate Trace(hash: IdentitySpec -> string, ls: seq<Layers>, ops: seq<Op>) {
    && |ls| == |ops| + 1
    && forall i :: 0 <= i < |ops| ==> Does(hash, ls[i], ops[i], ls[i + 1])
  }

  /** Both caches forget the cluster on a 401 or 403, and only then. */
  lemma InvalidationEmptiesBoth(l: Layers, id: ClusterId, err: Option<ApiError>)
    requires Indexed(l.cache)
    ensures err == Some(Unauthorized) || err == Some(Forbidden) ==> Out(Invalidated(l, id, err), id)
    ensures err == None || err == Some(OtherError) ==> Invalidated(l, id, err) == l
  {
    ClusterRemovedIndexed(l.cache, RefOf(id));
  }

  /** Other clusters keep what they have, in both caches. */
  lemma InvalidationSparesTheOthers(l: Layers, id: ClusterId, err: Option<ApiError>, other: ClusterId)
    requires '/' !in id.namespace && '/' !in other.namespace
    requires (other.namespace, other.name) != (id.namespace, id.name)
    ensures
      var l' := Invalidated(l, id, err);
      && (RefOf(other) in l'.cache.configs <==> RefOf(other) in l.cache.configs)
      && (RefOf(other) in l.cache.configs ==> l'.cache.configs[RefOf(other)] == l.cache.configs[RefOf(other)])
      && (RefOf(other) in l'.cache.mappers <==> RefOf(other) in l.cache.mappers)
      && (RefOf(other) in l.cache.mappers ==> l'.cache.mappers[RefOf(other)] == l.cache.mappers[RefOf(other)])
      && (CacheKey(other.namespace, other.name) in l'.entries <==> CacheKey(other.namespace, other.name) in l.entries)
      && (CacheKey(other.namespace, other.name) in l.entries ==>
            l'.entries[CacheKey(other.namespace, other.name)] == l.entries[CacheKey(other.namespace, other.name)])
  {
    if RefOf(other) == RefOf(id) {
      RefOfInjective(other, id);
    }
    if CacheKey(other.namespace, other.name) == CacheKey(id.namespace, id.name) {
      CacheKeyInjective(other.namespace, other.name, id.namespace, id.name);
    }
  }

  lemma OneCallKeepsItOut(hash: IdentitySpec -> string, l: Layers, op: Op, l': Layers, id: ClusterId)
    requires Does(hash, l, op, l') && Out(l, id) && '/' !in id.namespace
    requires SaneNamespace(op) && !Concerns(op, id.namespace, id.name)
    ensures Out(l', id)
  {
    match op
    case Get(env, other, a) =>
      if RefOf(other) == RefOf(id) {
        RefOfInjective(other, id);
      }
      if CacheKey(other.namespace, other.name) == CacheKey(id.namespace, id.name) {
        CacheKeyInjective(other.namespace, other.name, id.namespace, id.name);
      }
    case Identify(env, ns, n, spec, now, answer) =>
      if CacheKey(ns, n) == CacheKey(id.namespace, id.name) {
        CacheKeyInjective(ns, n, id.namespace, id.name);
      }
    case Store(other, config) =>
      if RefOf(other) == RefOf(id) {
        RefOfInjective(other, id);
      }
    case _ =>
  }

  /** Whatever calls for other clusters follow, the cluster stays out of both caches. */
  lemma {:induction false} StaysOut(hash: IdentitySpec -> string, ls: seq<Layers>, ops: seq<Op>, id: ClusterId)
    requires Trace(hash, ls, ops) && Out(ls[0], id) && '/' !in id.namespace
    requires forall i :: 0 <= i < |ops| ==> SaneNamespace(ops[i]) && !Concerns(ops[i], id.namespace, id.name)
    ensures Out(ls[|ops|], id)
  {
    if ops != [] {
      var n := |ops| - 1;
      StaysOut(hash, ls[..|ls| - 1], ops[..n], id);
      OneCallKeepsItOut(hash, ls[n], ops[n], ls[n + 1], id);
    }
  }

  /** After a rejected credential the next call for the cluster gets what the provider answers now. */
  lemma NextGetReachesTheProvider(
    hash: IdentitySpec -> string, l: Layers, err: Option<ApiError>, ls: seq<Layers>, ops: seq<Op>,
    env: Env, id: ClusterId, a: Answers, r: Built, l': Layers)
    requires Indexed(l.cache) && Rejects(err) && '/' !in id.namespace
    requires Trace(hash, ls, ops) && ls[0] == Invalidated(l, id, err)
    requires forall i :: 0 <= i < |ops| ==> SaneNamespace(ops[i]) && !Concerns(ops[i], id.namespace, id.name)
    requires SourceOf(env, id).CloudProvider? && Gets(hash, ls[|ops|], env, id, a, r, l')
    ensures r.Ok? ==> BuildsTo(env, id, r.value)
    ensures r.Ok? ==>
      && a.provider.Token? && CaData(env, id.namespace, SourceOf(env, id).identity.caSecret).Ok?
      && r == Ok(Some(FromIdentity(SourceOf(env, id).identity.endpoint, a.provider.token,
                                   CaData(env, id.namespace, SourceOf(env, id).identity.caSecret).value)))
    ensures Succeeds(env, id, a) ==> r.Ok?
  {
    InvalidationEmptiesBoth(l, id, err);
    StaysOut(hash, ls, ops, id);
  }

  /** The call brought the cluster into the cluster cache. */
  ghost predicate Records(l: Layers, op: Op, l': Layers, id: ClusterId) {
    op.Get? && op.id == id && RefOf(id) !in l.cache.configs && RefOf(id) in l'.cache.configs
  }

  /** The last call of the trace that recorded the cluster. */
  ghost function Recorder(ls: seq<Layers>, ops: seq<Op>, id: ClusterId): (m: nat)
    requires |ls| == |ops| + 1
    ensures ops != [] ==> m < |ops|
  {
    if ops == [] then 0
    else
      var n := |ops| - 1;
      if n == 0 || Records(ls[n], ops[n], ls[n + 1], id) then n else Recorder(ls[..n + 1], ops[..n], id)
  }

  /** The cluster is on workload identity throughout, and its config comes from builds alone. */
  ghost predicate StaysOnIdentity(ops: seq<Op>, id: ClusterId) {
    && (forall i :: 0 <= i < |ops| && ops[i].Get? && ops[i].id == id ==> SourceOf(ops[i].env, id).CloudProvider?)
    && (forall i :: 0 <= i < |ops| && ops[i].Store? ==> ops[i].id != id)
  }

  /** The entry below can still be used for the cluster's spec. */
  predicate Reuses(hash: IdentitySpec -> string, l: Layers, env: Env, id: ClusterId, now: int)
    requires SourceOf(env, id).CloudProvider?
  {
    var key := CacheKey(id.namespace, id.name);
    key in l.entries && Reusable(l.entries[key], hash(SourceOf(env, id).identity), now)
  }

  /** When the token expires that a call gets which the cluster cache does not answer. */
  function ExpiryGot(hash: IdentitySpec -> string, l: Layers, env: Env, id: ClusterId, a: Answers): int
    requires SourceOf(env, id).CloudProvider?
  {
    if Reuses(hash, l, env, id, a.now) then l.entries[CacheKey(id.namespace, id.name)].expiresAt
    else if a.provider.Token? then a.provider.expiresAt
    else a.now
  }

  /** Right after the call, the cache below holds this config, expiring then. */
  predicate Holds(l: Layers, id: ClusterId, config: Option<RestConfig>, expiresAt: int) {
    var key := CacheKey(id.namespace, id.name);
    key in l.entries && config == Some(l.entries[key].config) && expiresAt == l.entries[key].expiresAt
  }

  lemma MissHolds(hash: IdentitySpec -> string, l: Layers, env: Env, id: ClusterId, a: Answers, r: Built, l': Layers)
    requires Gets(hash, l, env, id, a, r, l') && RefOf(id) !in l.cache.configs
    requires SourceOf(env, id).CloudProvider? && r.Ok?
    ensures Holds(l', id, r.value, ExpiryGot(hash, l, env, id, a))
    ensures !Reuses(hash, l, env, id, a.now) ==> a.provider.Token?
    ensures RefOf(id) in l'.cache.configs ==> l'.cache.configs[RefOf(id)] == r.value
  {
  }

  /** A call that does not record the cluster leaves its cached config as it is, or drops it. */
  lemma OthersKeepConfig(hash: IdentitySpec -> string, l: Layers, op: Op, l': Layers, id: ClusterId)
    requires Does(hash, l, op, l') && !Records(l, op, l', id) && !(op.Store? && op.id == id)
    requires RefOf(id) in l'.cache.configs
    ensures RefOf(id) in l.cache.configs && l'.cache.configs[RefOf(id)] == l.cache.configs[RefOf(id)]
  {
    match op
    case Get(_, other, _) =>
      if RefOf(other) == RefOf(id) {
        RefOfInjective(other, id);
      }
    case Store(other, _) =>
      if RefOf(other) == RefOf(id) {
        RefOfInjective(other, id);
      }
    case _ =>
  }

  lemma RecordedHolds(hash: IdentitySpec -> string, l: Layers, op: Op, l': Layers, id: ClusterId)
    requires Does(hash, l, op, l') && Records(l, op, l', id) && SourceOf(op.env, id).CloudProvider?
    ensures Holds(l', id, l'.cache.configs[RefOf(id)], ExpiryGot(hash, l, op.env, id, op.answers))
  {
    var r: Built :| Gets(hash, l, op.env, op.id, op.answers, r, l');
    MissHolds(hash, l, op.env, id, op.answers, r, l');
  }

  /** What is cached is what its recorder got. */
  lemma {:induction false} CachedIsRecorded(hash: IdentitySpec -> string, ls: seq<Layers>, ops: seq<Op>, id: ClusterId)
    requires Trace(hash, ls, ops) && RefOf(id) !in ls[0].cache.configs && RefOf(id) in ls[|ops|].cache.configs
    requires StaysOnIdentity(ops, id)
    ensures ops != []
    ensures
      var m, config := Recorder(ls, ops, id), ls[|ops|].cache.configs[RefOf(id)];
      && Records(ls[m], ops[m], ls[m + 1], id) && SourceOf(ops[m].env, id).CloudProvider?
      && Holds(ls[m + 1], id, config, ExpiryGot(hash, ls[m], ops[m].env, id, ops[m].answers))
  {
    var n := |ops| - 1;
    assert Does(hash, ls[n], ops[n], ls[n + 1]);
    if Records(ls[n], ops[n], ls[n + 1], id) {
      RecordedHolds(hash, ls[n], ops[n], ls[n + 1], id);
    } else {
      OthersKeepConfig(hash, ls[n], ops[n], ls[n + 1], id);
      CachedIsRecorded(hash, ls[..n + 1], ops[..n], id);
    }
  }

  /** When the token expires that the recording call got. */
  ghost function RecordedExpiry(hash: IdentitySpec -> string, ls: seq<Layers>, ops: seq<Op>, id: ClusterId): int
    requires |ls| == |ops| + 1 && ops != [] && ops[Recorder(ls, ops, id)].Get?
    requires SourceOf(ops[Recorder(ls, ops, id)].env, id).CloudProvider?
  {
    var m := Recorder(ls, ops, id);
    ExpiryGot(hash, ls[m], ops[m].env, id, ops[m].answers)
  }

  predicate Usable(expiresAt: int, now: int) {
    expiresAt - now > REFRESH_THRESHOLD
  }

  /** The cache below holds this config, with a token that is still usable. */
  predicate HoldsUsable(l: Layers, id: ClusterId, config: Option<RestConfig>, now: int) {
    var key := CacheKey(id.namespace, id.name);
    key in l.entries && config == Some(l.entries[key].config) && Usable(l.entries[key].expiresAt, now)
  }

  /** A miss returns a config whose token is usable exactly if the cache below could reuse its entry, or the
      provider gave a usable token. */
  lemma TimeLeftOnAMiss(
    hash: IdentitySpec -> string, l: Layers, env: Env, id: ClusterId, a: Answers, r: Built, l': Layers)
    requires SourceOf(env, id).CloudProvider? && Gets(hash, l, env, id, a, r, l') && r.Ok?
    requires RefOf(id) !in l.cache.configs
    ensures HoldsUsable(l', id, r.value, a.now) <==>
      Reuses(hash, l, env, id, a.now) || (a.provider.Token? && Usable(a.provider.expiresAt, a.now))
  {
    MissHolds(hash, l, env, id, a, r, l');
  }

  /** A hit returns what was recorded, whatever the time. */
  lemma TimeLeftOnAHit(hash: IdentitySpec -> string, ls: seq<Layers>, ops: seq<Op>, id: ClusterId, now: int)
    requires Trace(hash, ls, ops) && RefOf(id) !in ls[0].cache.configs && RefOf(id) in ls[|ops|].cache.configs
    requires StaysOnIdentity(ops, id)
    ensures
      var m := Recorder(ls, ops, id);
      && ops != [] && Records(ls[m], ops[m], ls[m + 1], id) && SourceOf(ops[m].env, id).CloudProvider?
      && (HoldsUsable(ls[m + 1], id, ls[|ops|].cache.configs[RefOf(id)], now) <==>
           Usable(RecordedExpiry(hash, ls, ops, id), now))
  {
    CachedIsRecorded(hash, ls, ops, id);
  }

  /** The state right after the call that got what the cluster cache would return now: this call, or the recorder. */
  ghost function GotIn(ls: seq<Layers>, ops: seq<Op>, id: ClusterId, l': Layers): Layers
    requires |ls| == |ops| + 1
  {
    if RefOf(id) !in ls[|ops|].cache.configs || ops == [] then l' else ls[Recorder(ls, ops, id) + 1]
  }

  /** How long a returned config is good for, exactly: the cluster cache does not look at the clock. After any
      calls, with a provider that gives usable tokens, the token behind a config returned for a workload-identity
      cluster is usable if and only if the call missed the cluster cache, or the token that the recording call
      got is still usable. */
  lemma TimeLeftOnAReturnedConfig(
    hash: IdentitySpec -> string, ls: seq<Layers>, ops: seq<Op>,
    env: Env, id: ClusterId, a: Answers, r: Built, l': Layers)
    requires Trace(hash, ls, ops) && RefOf(id) !in ls[0].cache.configs && StaysOnIdentity(ops, id)
    requires SourceOf(env, id).CloudProvider? && Gets(hash, ls[|ops|], env, id, a, r, l') && r.Ok?
    requires a.provider.Token? ==> Usable(a.provider.expiresAt, a.now)
    ensures RefOf(id) in ls[|ops|].cache.configs ==>
      ops != [] && ops[Recorder(ls, ops, id)].Get? && SourceOf(ops[Recorder(ls, ops, id)].env, id).CloudProvider?
    ensures HoldsUsable(GotIn(ls, ops, id, l'), id, r.value, a.now) <==>
      (RefOf(id) in ls[|ops|].cache.configs ==> Usable(RecordedExpiry(hash, ls, ops, id), a.now))
  {
    if RefOf(id) !in ls[|ops|].cache.configs {
      TimeLeftOnAMiss(hash, ls[|ops|], env, id, a, r, l');
      MissHolds(hash, ls[|ops|], env, id, a, r, l');
    } else {
      TimeLeftOnAHit(hash, ls, ops, id, a.now);
    }
  }
}
