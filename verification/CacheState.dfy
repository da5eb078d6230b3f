/** The cluster cache's five maps as values, and the effect on them of each operation. */
module CacheState {
  import opened Outcomes
  import opened ManagementCluster

  /** A discovery client or REST mapper, known by the rest.Config it was built on; nil in pull mode. */
  datatype Client = ClientFor(config: RestConfig)

  datatype Cache = Cache(
    configs: map<ObjectRef, Option<RestConfig>>,
    clusters: map<ObjectRef, ObjectRef>,
    mappers: map<ObjectRef, Option<Client>>,
    discovery: map<ObjectRef, Option<Client>>,
    secrets: map<ObjectRef, set<ObjectRef>>)

  const EMPTY := Cache(map[], map[], map[], map[], map[])

  function ClientsOf(config: Option<RestConfig>): Option<Client> {
    match config
    case None => None
    case Some(c) => Some(ClientFor(c))
  }

  /** updateSecretMap. */
  function Unlinked(secrets: map<ObjectRef, set<ObjectRef>>, secret: ObjectRef, cluster: ObjectRef)
    : map<ObjectRef, set<ObjectRef>>
  {
    if secret !in secrets then secrets
    else if secrets[secret] - {cluster} == {} then secrets - {secret}
    else secrets[secret := secrets[secret] - {cluster}]
  }

  function Linked(secrets: map<ObjectRef, set<ObjectRef>>, secret: ObjectRef, cluster: ObjectRef)
    : map<ObjectRef, set<ObjectRef>>
  {
    secrets[secret := (if secret in secrets then secrets[secret] else {}) + {cluster}]
  }

  function ClusterRemoved(s: Cache, cluster: ObjectRef): Cache {
    Cache(s.configs - {cluster}, s.clusters - {cluster}, s.mappers - {cluster}, s.discovery - {cluster},
          if cluster in s.clusters then Unlinked(s.secrets, s.clusters[cluster], cluster) else s.secrets)
  }

  /** The reverse entry itself stays. */
  function SecretRemoved(s: Cache, secret: ObjectRef): Cache {
    if secret !in s.secrets then s
    else
      var gone := s.secrets[secret];
      s.(configs := s.configs - gone, clusters := s.clusters - gone,
         mappers := s.mappers - gone, discovery := s.discovery - gone)
  }

  function Cached(s: Cache, cluster: ObjectRef, secret: ObjectRef, config: Option<RestConfig>): Cache {
    Cache(s.configs[cluster := config], s.clusters[cluster := secret],
          s.mappers[cluster := ClientsOf(config)], s.discovery[cluster := ClientsOf(config)],
          Linked(s.secrets, secret, cluster))
  }

  function ConfigStored(s: Cache, cluster: ObjectRef, config: Option<RestConfig>): Cache {
    s.(configs := s.configs[cluster := config])
  }

  /** What ties the five maps together. */
  ghost predicate Indexed(s: Cache) {
    && s.clusters.Keys == s.mappers.Keys == s.discovery.Keys
    && s.clusters.Keys <= s.configs.Keys
    && (forall c :: c in s.clusters ==> s.clusters[c] in s.secrets && c in s.secrets[s.clusters[c]])
    && (forall x :: x in s.secrets ==> s.secrets[x] != {})
  }

  lemma ClusterRemovedIndexed(s: Cache, cluster: ObjectRef)
    requires Indexed(s)
    ensures Indexed(ClusterRemoved(s, cluster))
    ensures cluster !in ClusterRemoved(s, cluster).configs && cluster !in ClusterRemoved(s, cluster).clusters
  {
    var s' := ClusterRemoved(s, cluster);
    assert s'.clusters.Keys == s.clusters.Keys - {cluster};
    assert s'.mappers.Keys == s.mappers.Keys - {cluster} && s'.discovery.Keys == s.discovery.Keys - {cluster};
    forall c | c in s'.clusters ensures s'.clusters[c] in s'.secrets && c in s'.secrets[s'.clusters[c]] {
      assert c in s.secrets[s.clusters[c]] && c != cluster;
      assert c in s.secrets[s.clusters[c]] - {cluster};
    }
  }

  /** Evicting a Secret leaves no cluster tracked to it. */
  lemma SecretRemovedIndexed(s: Cache, secret: ObjectRef)
    requires Indexed(s)
    ensures Indexed(SecretRemoved(s, secret))
    ensures forall c :: c in SecretRemoved(s, secret).clusters ==> SecretRemoved(s, secret).clusters[c] != secret
  {
    if secret in s.secrets {
      var s', gone := SecretRemoved(s, secret), s.secrets[secret];
      assert s'.clusters.Keys == s.clusters.Keys - gone;
      assert s'.mappers.Keys == s.mappers.Keys - gone && s'.discovery.Keys == s.discovery.Keys - gone;
    }
  }

  lemma CachedIndexed(s: Cache, cluster: ObjectRef, secret: ObjectRef, config: Option<RestConfig>)
    requires Indexed(s) && cluster !in s.configs
    ensures Indexed(Cached(s, cluster, secret, config))
  {
  }

  /** The reverse index lists nothing but tracked clusters. */
  ghost predicate ReverseExact(s: Cache) {
    forall x, c :: x in s.secrets && c in s.secrets[x] ==> c in s.clusters && s.clusters[c] == x
  }

  lemma ClusterRemovedReverse(s: Cache, cluster: ObjectRef)
    requires ReverseExact(s)
    ensures ReverseExact(ClusterRemoved(s, cluster))
  {
    var s' := ClusterRemoved(s, cluster);
    forall x, c | x in s'.secrets && c in s'.secrets[x] ensures c in s'.clusters && s'.clusters[c] == x {
      assert x in s.secrets && c in s.secrets[x] && s.clusters[c] == x;
    }
  }

  lemma CachedReverse(s: Cache, cluster: ObjectRef, secret: ObjectRef, config: Option<RestConfig>)
    requires ReverseExact(s) && cluster !in s.clusters
    ensures ReverseExact(Cached(s, cluster, secret, config))
  {
    var s' := Cached(s, cluster, secret, config);
    forall x, c | x in s'.secrets && c in s'.secrets[x] ensures c in s'.clusters && s'.clusters[c] == x {
      assert c == cluster || (x in s.secrets && c in s.secrets[x]);
    }
  }

  lemma SecretRemovedReverse(s: Cache, secret: ObjectRef)
    requires Indexed(s)
    ensures ReverseExact(SecretRemoved(s, secret)) <==> ReverseExact(s) && secret !in s.secrets
  {
    if secret in s.secrets {
      var c :| c in s.secrets[secret];
      assert c !in SecretRemoved(s, secret).clusters;
    }
  }
}
