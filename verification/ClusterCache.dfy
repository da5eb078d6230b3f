/** The cluster cache object: five maps updated in place, the reverse index through shared Set objects. */
module ClusterCache {
  import opened Outcomes
  import opened ManagementCluster
  import opened CacheState
  import opened WorkloadIdentity
  import opened CacheLayers

  /** The repository's Set: a mutable set behind a pointer. */
  class RefSet {
    var data: set<ObjectRef>

    constructor ()
      ensures data == {}
    {
      data := {};
    }

    method Insert(entry: ObjectRef)
      modifies this
      ensures data == old(data) + {entry}
    {
      data := data + {entry};
    }

    method Erase(entry: ObjectRef)
      modifies this
      ensures data == old(data) - {entry}
    {
      data := data - {entry};
    }
  }

  class ClusterCache {
    /** The workload-identity cache underneath, which other users of the process share. */
    const identities: IdentityCache
    var configs: map<ObjectRef, Option<RestConfig>>
    var clusters: map<ObjectRef, ObjectRef>
    var mappers: map<ObjectRef, Option<Client>>
    var discovery: map<ObjectRef, Option<Client>>
    var secrets: map<ObjectRef, RefSet>

    ghost function Sets(): set<RefSet>
      reads `secrets
    {
      set s | s in secrets :: secrets[s]
    }

    /** No Set object stands for two Secrets. */
    ghost predicate Valid()
      reads `secrets
    {
      forall s, t :: s in secrets && t in secrets && s != t ==> secrets[s] != secrets[t]
    }

    ghost function Reverse(): map<ObjectRef, set<ObjectRef>>
      reads `secrets, Sets()
    {
      map s | s in secrets :: secrets[s].data
    }

    ghost function State(): Cache
      reads this, Sets()
    {
      Cache(configs, clusters, mappers, discovery, Reverse())
    }

    constructor (identities: IdentityCache)
      ensures Valid() && Sets() == {} && State() == EMPTY && this.identities == identities
    {
      this.identities := identities;
      configs, clusters, mappers, discovery, secrets := map[], map[], map[], map[], map[];
    }

    method UpdateSecretMap(secret: ObjectRef, cluster: ObjectRef)
      requires Valid()
      modifies `secrets, Sets()
      ensures Valid() && Sets() <= old(Sets())
      ensures Reverse() == Unlinked(old(Reverse()), secret, cluster)
    {
      if secret in secrets {
        var entries := secrets[secret];
        entries.Erase(cluster);
        if |entries.data| == 0 {
          secrets := secrets - {secret};
        }
      }
    }

    method RemoveCluster(id: ClusterId)
      requires Valid()
      modifies this, Sets()
      ensures Valid() && Sets() <= old(Sets())
      ensures State() == ClusterRemoved(old(State()), RefOf(id))
    {
      var cluster := RefOf(id);
      configs := configs - {cluster};
      assert Reverse() == old(Reverse());
      if cluster in clusters {
        UpdateSecretMap(clusters[cluster], cluster);
      }
      Untrack(cluster);
    }

    method Untrack(cluster: ObjectRef)
      modifies `clusters, `mappers, `discovery
      ensures clusters == old(clusters) - {cluster}
      ensures mappers == old(mappers) - {cluster} && discovery == old(discovery) - {cluster}
    {
      clusters := clusters - {cluster};
      mappers := mappers - {cluster};
      discovery := discovery - {cluster};
    }

    method RemoveSecret(secret: ObjectRef)
      requires Valid()
      modifies `configs, `clusters, `mappers, `discovery
      ensures Valid() && secrets == old(secrets)
      ensures State() == SecretRemoved(old(State()), secret)
    {
      if secret !in secrets {
        return;
      }
      var items := secrets[secret].data;
      var left := items;
      while left != {}
        invariant left <= items
        invariant configs == old(configs) - (items - left)
        invariant clusters == old(clusters) - (items - left)
        invariant mappers == old(mappers) - (items - left)
        invariant discovery == old(discovery) - (items - left)
        decreases left
      {
        var cluster :| cluster in left;
        configs := configs - {cluster};
        clusters := clusters - {cluster};
        discovery := discovery - {cluster};
        mappers := mappers - {cluster};
        left := left - {cluster};
      }
      assert items - left == items;
    }

    method StoreRestConfig(id: ClusterId, config: Option<RestConfig>)
      requires Valid()
      modifies `configs
      ensures Valid() && State() == ConfigStored(old(State()), RefOf(id), config)
      ensures configs == old(configs)[RefOf(id) := config]
    {
      configs := configs[RefOf(id) := config];
    }

    /** A build that bypasses this cache, though not the one underneath. */
    method Build(env: Env, id: ClusterId, answers: Answers) returns (r: Built)
      modifies identities
      ensures Builds(identities.hash, old(identities.entries), env, id, answers, r, identities.entries)
    {
      if !answers.builds {
        return Err(BuildFailed);
      }
      match SourceOf(env, id)
      case Nowhere => r := Err(BuildFailed);
      case PullMode => r := Ok(None);
      case Kubeconfig(secret, key) => r := Load(env, secret, key);
      case CloudProvider(spec) =>
        var config := identities.GetRestConfig(env, id.namespace, id.name, spec, answers.now, answers.provider);
        r := Lifted(config);
    }

    /** Reads the kubeconfig out of the Secret: the named entry, or whichever comes first. */
    method Load(env: Env, secret: ObjectRef, key: string) returns (r: Built)
      ensures r.Ok? ==>
        && r.value.Some? && r.value.value.FromKubeconfig? && r.value.value.content !in env.malformed
        && ReadsAs(env, secret, key, r.value.value.content)
      ensures r.Err? ==>
        || secret !in env.secrets || env.secrets[secret] == map[]
        || (key != "" && key !in env.secrets[secret])
        || exists content :: ReadsAs(env, secret, key, content) && content in env.malformed
    {
      if secret !in env.secrets || env.secrets[secret] == map[] {
        return Err(BuildFailed);
      }
      var data := env.secrets[secret];
      var content: string;
      if key != "" {
        if key !in data {
          return Err(BuildFailed);
        }
        content := data[key];
      } else {
        var k :| k in data.Keys;
        content := data[k];
      }
      assert ReadsAs(env, secret, key, content);
      if content in env.malformed {
        return Err(BuildFailed);
      }
      return Ok(Some(FromKubeconfig(content)));
    }

    ghost function Both(): Layers
      reads this, Sets(), identities
    {
      Layers(State(), identities.entries)
    }

    /** Configs fetched for an administrator are never cached. */
    method GetKubernetesRestConfig(env: Env, id: ClusterId, adminNamespace: string, adminName: string, answers: Answers)
      returns (r: Built)
      requires Valid()
      modifies this, Sets(), identities
      ensures Valid() && fresh(Sets() - old(Sets()))
      ensures adminNamespace == "" && adminName == "" ==>
        Gets(identities.hash, old(Both()), env, id, answers, r, Both())
      ensures (adminNamespace != "" || adminName != "") ==>
        && AdminGets(identities.hash, old(identities.entries), env, id, adminName, answers, r, identities.entries)
        && State() == old(State())
    {
      if adminNamespace != "" || adminName != "" {
        r := BuildForAdmin(env, id, adminName, answers);
        return;
      }
      var cluster := RefOf(id);
      if cluster in configs {
        return Ok(configs[cluster]);
      }
      r := Build(env, id, answers);
      if r.Err? {
        return;
      }
      var config := r.value;
      var client: Option<Client> := None;
      if config.Some? {
        if !answers.discovers {
          return Err(BuildFailed);
        }
        client := Some(ClientFor(config.value));
      }
      var secretInfo := if answers.looksUp then SecretOf(env, id) else None;
      if secretInfo.Some? {
        Record(cluster, secretInfo.value, config, client);
      }
    }

    method BuildForAdmin(env: Env, id: ClusterId, adminName: string, answers: Answers) returns (r: Built)
      modifies identities
      ensures AdminGets(identities.hash, old(identities.entries), env, id, adminName, answers, r, identities.entries)
    {
      if adminName == "" || adminName == KUBERNETES_ADMIN {
        r := Build(env, id, answers);
        return;
      }
      if id.clusterType.Sveltos? {
        if !answers.builds || SourceOf(env, id).Nowhere? {
          return Err(BuildFailed);
        }
        if SourceOf(env, id).PullMode? {
          return Ok(None);
        }
      }
      return answers.admin;
    }

    method Link(secret: ObjectRef, cluster: ObjectRef)
      requires Valid()
      modifies `secrets, Sets()
      ensures Valid() && fresh(Sets() - old(Sets()))
      ensures Reverse() == Linked(old(Reverse()), secret, cluster)
    {
      var v: RefSet;
      if secret in secrets {
        v := secrets[secret];
      } else {
        v := new RefSet();
      }
      v.Insert(cluster);
      secrets := secrets[secret := v];
    }

    method Record(cluster: ObjectRef, secret: ObjectRef, config: Option<RestConfig>, client: Option<Client>)
      requires Valid() && client == ClientsOf(config)
      modifies this, Sets()
      ensures Valid() && fresh(Sets() - old(Sets()))
      ensures State() == Cached(old(State()), cluster, secret, config)
    {
      configs := configs[cluster := config];
      clusters := clusters[cluster := secret];
      discovery := discovery[cluster := client];
      mappers := mappers[cluster := client];
      assert Reverse() == old(Reverse());
      Link(secret, cluster);
    }

    method GetMapper(env: Env, id: ClusterId, answers: Answers) returns (r: Result<Option<Client>, CacheError>)
      requires Valid()
      modifies this, Sets(), identities
      ensures Valid() && fresh(Sets() - old(Sets()))
      ensures RefOf(id) in old(mappers) ==> r == Ok(old(mappers)[RefOf(id)]) && Both() == old(Both())
      ensures RefOf(id) !in old(mappers) ==> Initialises(identities.hash, old(Both()), env, id, answers, r, Both())
    {
      var cluster := RefOf(id);
      if cluster in mappers {
        return Ok(mappers[cluster]);
      }
      var config := GetKubernetesRestConfig(env, id, "", "", answers);
      if config.Err? {
        return Err(BuildFailed);
      }
      if cluster in mappers {
        return Ok(mappers[cluster]);
      }
      return Err(NotInitialised);
    }

    method GetCachedDiscoveryClient(env: Env, id: ClusterId, answers: Answers)
      returns (r: Result<Option<Client>, CacheError>)
      requires Valid()
      modifies this, Sets(), identities
      ensures Valid() && fresh(Sets() - old(Sets()))
      ensures RefOf(id) in old(discovery) ==> r == Ok(old(discovery)[RefOf(id)]) && Both() == old(Both())
      ensures RefOf(id) !in old(discovery) ==> Initialises(identities.hash, old(Both()), env, id, answers, r, Both())
    {
      var cluster := RefOf(id);
      if cluster in discovery {
        return Ok(discovery[cluster]);
      }
      var config := GetKubernetesRestConfig(env, id, "", "", answers);
      if config.Err? {
        return Err(BuildFailed);
      }
      if cluster in discovery {
        return Ok(discovery[cluster]);
      }
      return Err(NotInitialised);
    }

    /** A 401 or 403 empties both caches for the cluster. */
    method InvalidateOnAuthError(id: ClusterId, err: Option<ApiError>) returns (evicted: bool)
      requires Valid()
      modifies this, Sets(), identities
      ensures Valid() && Sets() <= old(Sets())
      ensures evicted == Rejects(err) && Both() == Invalidated(old(Both()), id, err)
      ensures evicted <==> err == Some(Unauthorized) || err == Some(Forbidden)
      ensures evicted ==>
        && RefOf(id) !in configs && RefOf(id) !in clusters && RefOf(id) !in mappers && RefOf(id) !in discovery
        && identities.entries == old(identities.entries) - {id.namespace + "/" + id.name}
      ensures !evicted ==> Both() == old(Both())
    {
      if err.None? || (err.value != Unauthorized && err.value != Forbidden) {
        return false;
      }
      RemoveCluster(id);
      identities.Evict(id.namespace, id.name);
      return true;
    }
  }
}
