/** What the cluster cache reads from the management cluster: cluster specs and kubeconfig Secrets. */
module ManagementCluster {
  import opened Outcomes

  datatype ObjectRef = ObjectRef(namespace: string, name: string, kind: string, apiVersion: string)

  datatype ClusterType = Capi | Sveltos

  /** A cluster as callers name it. */
  datatype ClusterId = ClusterId(namespace: string, name: string, clusterType: ClusterType)

  /** spec.workloadIdentity; `details` stands for what only the provider named in it looks at. */
  datatype IdentitySpec = IdentitySpec(provider: string, endpoint: string, caSecret: Option<string>, details: string)

  datatype ClusterSpec =
    | CapiSpec
    | SveltosSpec(pullMode: bool, identity: Option<IdentitySpec>, kubeconfigName: string, kubeconfigKey: string)

  datatype RestConfig =
    | FromKubeconfig(content: string)
    | FromIdentity(endpoint: string, token: string, ca: string)

  datatype IdentityError = NoCaSecret | NoCaKey | UnknownProvider | Refused

  /** `malformed` lists the kubeconfigs client-go cannot load. */
  datatype Env = Env(
    clusters: map<ClusterId, ClusterSpec>,
    secrets: map<ObjectRef, map<string, string>>,
    malformed: set<string>)

  const CA_KEY := "ca.crt"
  const PROVIDERS := {"AWS", "GCP", "Azure"}
  const CAPI_KUBECONFIG_KEY := "value"
  const CAPI_POSTFIX := "-kubeconfig"
  const SVELTOS_POSTFIX := "-sveltos-kubeconfig"

  /** getClusterObjectReference. */
  function RefOf(c: ClusterId): ObjectRef {
    if c.clusterType.Sveltos? then ObjectRef(c.namespace, c.name, "SveltosCluster", "lib.projectsveltos.io/v1beta1")
    else ObjectRef(c.namespace, c.name, "Cluster", "cluster.x-k8s.io/v1beta2")
  }

  lemma RefOfInjective(c: ClusterId, d: ClusterId)
    requires RefOf(c) == RefOf(d)
    ensures c == d
  {
    assert "SveltosCluster"[0] == 'S' && "Cluster"[0] == 'C';
  }

  /** GetClusterType reads the type back from the group; any other group is not a cluster's. */
  function ClusterTypeOf(ref: ObjectRef): Option<ClusterType> {
    if InGroup(ref.apiVersion, "lib.projectsveltos.io") then Some(Sveltos)
    else if InGroup(ref.apiVersion, "cluster.x-k8s.io") then Some(Capi)
    else None
  }

  predicate InGroup(apiVersion: string, group: string) {
    |group| < |apiVersion| && apiVersion[..|group|] == group && apiVersion[|group|] == '/'
  }

  lemma ClusterTypeReadsBack(c: ClusterId)
    ensures ClusterTypeOf(RefOf(c)) == Some(c.clusterType)
    ensures RefOf(c).kind == "SveltosCluster" <==> c.clusterType == Sveltos
    ensures RefOf(c).kind == "Cluster" <==> c.clusterType == Capi
    ensures RefOf(c).namespace == c.namespace && RefOf(c).name == c.name
  {
    var version := RefOf(c).apiVersion;
    if c.clusterType.Capi? {
      assert version[0] == 'c' && "lib.projectsveltos.io"[0] == 'l';
      assert version[..|"cluster.x-k8s.io"|] == "cluster.x-k8s.io";
      assert RefOf(c).kind[0] == 'C' && "SveltosCluster"[0] == 'S';
    } else {
      assert version[..|"lib.projectsveltos.io"|] == "lib.projectsveltos.io";
      assert RefOf(c).kind[0] == 'S' && "Cluster"[0] == 'C';
    }
  }

  function SecretRef(namespace: string, name: string): ObjectRef {
    ObjectRef(namespace, name, "Secret", "v1")
  }

  /** getSecretObjectReference: a CAPI cluster's Secret follows from its name, a SveltosCluster must be read. */
  function SecretOf(env: Env, c: ClusterId): Option<ObjectRef> {
    if c.clusterType.Capi? then Some(SecretRef(c.namespace, c.name + CAPI_POSTFIX))
    else if c !in env.clusters || !env.clusters[c].SveltosSpec? then None
    else
      var name := env.clusters[c].kubeconfigName;
      Some(SecretRef(c.namespace, if name == "" then c.name + SVELTOS_POSTFIX else name))
  }

  /** The Secret may be read as this kubeconfig. With no key named, any entry may be returned. */
  predicate ReadsAs(env: Env, secret: ObjectRef, key: string, content: string) {
    && secret in env.secrets
    && if key != "" then key in env.secrets[secret] && env.secrets[secret][key] == content
       else content in env.secrets[secret].Values
  }

  /** Where a build gets a cluster's access from. Nowhere: there is no such cluster. */
  datatype Source =
    | Kubeconfig(secret: ObjectRef, key: string)
    | CloudProvider(identity: IdentitySpec)
    | PullMode
    | Nowhere

  /** Pull mode is looked at first, then workload identity, then the kubeconfig Secret. */
  function SourceOf(env: Env, c: ClusterId): Source {
    if c !in env.clusters || env.clusters[c].CapiSpec? != c.clusterType.Capi? then Nowhere
    else match env.clusters[c]
      case CapiSpec => Kubeconfig(SecretRef(c.namespace, c.name + CAPI_POSTFIX), CAPI_KUBECONFIG_KEY)
      case SveltosSpec(pullMode, identity, _, key) =>
        if pullMode then PullMode
        else if identity.Some? then CloudProvider(identity.value)
        else Kubeconfig(SecretOf(env, c).value, key)
  }

  /** An uncached build for the cluster, done now, may return this. In pull mode there is no rest.Config; a
      cloud provider may hand out any token, but it goes with the endpoint and the CA Secret of the present spec. */
  predicate BuildsTo(env: Env, c: ClusterId, r: Option<RestConfig>) {
    match SourceOf(env, c)
    case Nowhere => false
    case PullMode => r.None?
    case CloudProvider(spec) =>
      && r.Some? && r.value.FromIdentity? && r.value.endpoint == spec.endpoint
      && CaData(env, c.namespace, spec.caSecret) == Ok(r.value.ca)
    case Kubeconfig(secret, key) =>
      && r.Some? && r.value.FromKubeconfig? && r.value.content !in env.malformed
      && ReadsAs(env, secret, key, r.value.content)
  }

  /** getCAData; no reference means the system's certificates. */
  function CaData(env: Env, namespace: string, caSecret: Option<string>): Result<string, IdentityError> {
    match caSecret
    case None => Ok("")
    case Some(name) =>
      if SecretRef(namespace, name) !in env.secrets then Err(NoCaSecret)
      else if CA_KEY !in env.secrets[SecretRef(namespace, name)] then Err(NoCaKey)
      else Ok(env.secrets[SecretRef(namespace, name)][CA_KEY])
  }

  /** A build that reaches everything it asks for cannot fail. */
  predicate Buildable(env: Env, c: ClusterId) {
    match SourceOf(env, c)
    case Nowhere => false
    case PullMode => true
    case CloudProvider(spec) => spec.provider in PROVIDERS && CaData(env, c.namespace, spec.caSecret).Ok?
    case Kubeconfig(secret, key) =>
      && secret in env.secrets && env.secrets[secret] != map[]
      && (key != "" ==> key in env.secrets[secret])
      && forall content :: ReadsAs(env, secret, key, content) ==> content !in env.malformed
  }

  /** The Secret a cluster is tracked to is the one its kubeconfig comes from. */
  lemma TrackedSecretIsTheSource(env: Env, c: ClusterId)
    ensures SourceOf(env, c).Kubeconfig? ==> SecretOf(env, c) == Some(SourceOf(env, c).secret)
  {
  }

  /** Two builds may differ: no key is named and the Secret has several readable entries. */
  predicate ManyAnswers(env: Env, c: ClusterId) {
    && SourceOf(env, c).Kubeconfig? && SourceOf(env, c).key == "" && SourceOf(env, c).secret in env.secrets
    && var readable := env.secrets[SourceOf(env, c).secret].Values;
       exists a, b ::
         && a in readable && b in readable
         && a != b && a !in env.malformed && b !in env.malformed
  }

  /** For a cluster that is not on workload identity, an uncached build is a function of the management
      cluster exactly when a kubeconfig entry is named or only one can be read. */
  lemma BuildIsDetermined(env: Env, c: ClusterId)
    requires !SourceOf(env, c).CloudProvider?
    ensures (forall r, r' :: BuildsTo(env, c, r) && BuildsTo(env, c, r') ==> r == r') <==> !ManyAnswers(env, c)
  {
    if ManyAnswers(env, c) {
      var data := env.secrets[SourceOf(env, c).secret];
      var a, b :| a in data.Values && b in data.Values && a != b && a !in env.malformed && b !in env.malformed;
      assert BuildsTo(env, c, Some(FromKubeconfig(a))) && BuildsTo(env, c, Some(FromKubeconfig(b)));
    }
  }
}
