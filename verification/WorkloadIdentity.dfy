/** The workload-identity cache: keys, entries, and what one undisturbed call does to them. */
module WorkloadIdentity {
  import opened Outcomes
  import opened ManagementCluster

  /** Times are in seconds. */
  const REFRESH_THRESHOLD := 300
  const EKS_TOKEN_TTL := 900

  datatype Entry = Entry(config: RestConfig, expiresAt: int, specHash: string)

  /** What the cloud provider does when it is asked for a token. */
  datatype ProviderAnswer = Token(token: string, expiresAt: int) | Denied

  /** wiCacheKey. */
  function CacheKey(namespace: string, name: string): string {
    namespace + "/" + name
  }

  lemma FirstSlash(namespace: string, name: string)
    requires '/' !in namespace
    ensures forall i :: 0 <= i < |namespace| ==> CacheKey(namespace, name)[i] != '/'
    ensures CacheKey(namespace, name)[|namespace|] == '/'
    ensures CacheKey(namespace, name)[..|namespace|] == namespace
    ensures CacheKey(namespace, name)[|namespace| + 1..] == name
  {
  }

  /** The key leaves no doubt about the cluster as long as namespaces have no '/'. */
  lemma {:induction false} CacheKeyInjective(ns1: string, n1: string, ns2: string, n2: string)
    requires '/' !in ns1 && '/' !in ns2 && CacheKey(ns1, n1) == CacheKey(ns2, n2)
    ensures ns1 == ns2 && n1 == n2
  {
    FirstSlash(ns1, n1);
    FirstSlash(ns2, n2);
    assert |ns1| >= |ns2| && |ns2| >= |ns1|;
  }

  /** Any '/' in a namespace makes its key another cluster's as well. */
  lemma CacheKeysCollide(namespace: string, name: string, i: nat)
    requires i < |namespace| && namespace[i] == '/'
    ensures CacheKey(namespace, name) == CacheKey(namespace[..i], namespace[i + 1..] + "/" + name)
  {
    assert namespace == namespace[..i] + "/" + namespace[i + 1..];
  }

  /** The test of the fast path. */
  predicate Reusable(e: Entry, specHash: string, now: int) {
    e.specHash == specHash && e.expiresAt - now > REFRESH_THRESHOLD
  }

  /** What the slow path hands out. */
  function Fetched(env: Env, namespace: string, spec: IdentitySpec, answer: ProviderAnswer)
    : Result<RestConfig, IdentityError>
  {
    var ca := CaData(env, namespace, spec.caSecret);
    if ca.Err? then Err(ca.error)
    else if spec.provider !in PROVIDERS then Err(UnknownProvider)
    else if answer.Denied? then Err(Refused)
    else Ok(FromIdentity(spec.endpoint, answer.token, ca.value))
  }

  datatype Reply = Reply(result: Result<RestConfig, IdentityError>, entries: map<string, Entry>)

  /** One call that no other call joins: a reusable entry answers by itself; otherwise the provider's answer
      decides, and only a success is kept. */
  function Replied(
    hash: IdentitySpec -> string, entries: map<string, Entry>,
    env: Env, namespace: string, name: string, spec: IdentitySpec, now: int, answer: ProviderAnswer): Reply
  {
    var key := CacheKey(namespace, name);
    if key in entries && Reusable(entries[key], hash(spec), now) then Reply(Ok(entries[key].config), entries)
    else
      var r := Fetched(env, namespace, spec, answer);
      Reply(r, if r.Ok? then entries[key := Entry(r.value, answer.expiresAt, hash(spec))] else entries)
  }

  /** The process-wide cache. Hashing a spec is a fixed function. */
  class IdentityCache {
    const hash: IdentitySpec -> string
    var entries: map<string, Entry>

    constructor (hash: IdentitySpec -> string)
      ensures entries == map[] && this.hash == hash
    {
      this.hash := hash;
      entries := map[];
    }

    method Evict(namespace: string, name: string)
      modifies this
      ensures entries == old(entries) - {namespace + "/" + name}
    {
      entries := entries - {CacheKey(namespace, name)};
    }

    method GetRestConfig(
      env: Env, namespace: string, name: string, spec: IdentitySpec, now: int, answer: ProviderAnswer)
      returns (r: Result<RestConfig, IdentityError>)
      modifies this
      ensures Reply(r, entries) == Replied(hash, old(entries), env, namespace, name, spec, now, answer)
      ensures
        var key := namespace + "/" + name;
        if key in old(entries) && old(entries)[key].specHash == hash(spec)
           && old(entries)[key].expiresAt - now > 300 then
          r == Ok(old(entries)[key].config) && entries == old(entries)
        else
          var secret := ObjectRef(namespace, if spec.caSecret.Some? then spec.caSecret.value else "", "Secret", "v1");
          var named := spec.caSecret.Some?;
          && (r == Err(NoCaSecret) <==> named && secret !in env.secrets)
          && (r == Err(NoCaKey) <==> named && secret in env.secrets && "ca.crt" !in env.secrets[secret])
          && (r == Err(UnknownProvider) <==>
               && (named ==> secret in env.secrets && "ca.crt" in env.secrets[secret])
               && spec.provider != "AWS" && spec.provider != "GCP" && spec.provider != "Azure")
          && (r.Ok? <==>
               && (named ==> secret in env.secrets && "ca.crt" in env.secrets[secret])
               && (spec.provider == "AWS" || spec.provider == "GCP" || spec.provider == "Azure") && answer.Token?)
          && (r.Ok? ==>
               && r.value.FromIdentity? && r.value.endpoint == spec.endpoint && r.value.token == answer.token
               && r.value.ca == (if named then env.secrets[secret]["ca.crt"] else "")
               && entries == old(entries)[key := Entry(r.value, answer.expiresAt, hash(spec))])
          && (r.Err? ==> entries == old(entries))
    {
      var key := CacheKey(namespace, name);
      var specHash := hash(spec);
      if key in entries && Reusable(entries[key], specHash, now) {
        return Ok(entries[key].config);
      }
      var ca := CaData(env, namespace, spec.caSecret);
      if ca.Err? {
        return Err(ca.error);
      }
      if spec.provider !in PROVIDERS {
        return Err(UnknownProvider);
      }
      match answer
      case Denied => return Err(Refused);
      case Token(token, expiresAt) =>
        var config := FromIdentity(spec.endpoint, token, ca.value);
        entries := entries[key := Entry(config, expiresAt, specHash)];
        return Ok(config);
    }
  }
}
