/** The policy being deployed and the API server it goes to, both changed step by step. */
module Applier {
  import opened Outcomes
  import opened Objects
  import opened Ownership
  import Decimal
  import OwnerReferences

  datatype ApiError = NotFound | Conflict | Invalid | ImmutableField | Unauthorized | Forbidden | Other

  const CRD_KIND := "CustomResourceDefinition"
  const CRD_GROUP := "apiextensions.k8s.io"
  const FORCE_RECREATE := "projectsveltos.io/forceRecreate"
  const NAMESPACE_KIND := "Namespace"

  /** retry.DefaultRetry. */
  const RETRY_STEPS := 5

  /** A minute of polls two seconds apart. */
  const RECREATE_POLLS := 30

  /** An error only delete and recreate can resolve. */
  predicate RequiresRecreate(e: ApiError) {
    e.Invalid? || e.ImmutableField?
  }

  predicate AnyRequiresRecreate(errors: seq<ApiError>) {
    exists i :: 0 <= i < |errors| && RequiresRecreate(errors[i])
  }

  predicate IsCustomResourceDefinition(key: ResourceKey) {
    key.kind == CRD_KIND && key.group == CRD_GROUP
  }

  function NamespaceKey(name: string): ResourceKey {
    ResourceKey("", NAMESPACE_KIND, "", name)
  }

  /** unstructured.Unstructured: the policy on its way to a cluster. Version 0 is the empty resourceVersion. */
  class Unstructured {
    const key: ResourceKey
    var annotations: map<string, string>
    var labels: map<string, string>
    var ownerReferences: seq<OwnerReference>
    var content: string
    var resourceVersion: nat

    function Value(): Object
      reads this
    {
      Object(annotations, labels, ownerReferences, content)
    }

    constructor (key: ResourceKey, o: Object)
      ensures this.key == key && Value() == o && resourceVersion == 0
    {
      this.key := key;
      annotations, labels, ownerReferences, content := o.annotations, o.labels, o.ownerReferences, o.content;
      resourceVersion := 0;
    }

    method AddLabel(key: string, value: string)
      modifies this
      ensures Value() == old(Value()).(labels := old(labels)[key := value])
      ensures resourceVersion == old(resourceVersion)
    {
      labels := labels[key := value];
    }

    method AddAnnotation(key: string, value: string)
      modifies this
      ensures Value() == old(Value()).(annotations := old(annotations)[key := value])
      ensures resourceVersion == old(resourceVersion)
    {
      annotations := annotations[key := value];
    }

    /** GetResource's stamping of the policy; the hash is computed elsewhere. */
    method StampFor(a: Attempt)
      requires a.manifest == Value()
      modifies this
      ensures Value() == Stamped(a)
      ensures labels == old(labels)["projectsveltos.io/reason" := a.feature]
      ensures annotations == old(annotations) + map[
        "projectsveltos.io/reference-kind" := a.reference.kind,
        "projectsveltos.io/reference-name" := a.reference.name,
        "projectsveltos.io/reference-namespace" := a.reference.namespace,
        "projectsveltos.io/reference-tier" := Decimal.Print(a.referenceTier),
        "projectsveltos.io/hash" := a.hash,
        "projectsveltos.io/owner-tier" := Decimal.Print(a.tier),
        "projectsveltos.io/owner-name" := a.profile.name,
        "projectsveltos.io/owner-kind" := a.profile.kind]
      ensures unchanged(`ownerReferences) && unchanged(`content)
      ensures resourceVersion == old(resourceVersion)
    {
      AddLabel(REASON, a.feature);
      ghost var written: map<string, string> := map[];
      assert annotations == old(annotations) + written;
      written := Stamp(REFERENCE_KIND, a.reference.kind, old(annotations), written);
      written := Stamp(REFERENCE_NAME, a.reference.name, old(annotations), written);
      written := Stamp(REFERENCE_NAMESPACE, a.reference.namespace, old(annotations), written);
      written := Stamp(REFERENCE_TIER, Decimal.Print(a.referenceTier), old(annotations), written);
      written := Stamp(POLICY_HASH, a.hash, old(annotations), written);
      written := Stamp(OWNER_TIER, Decimal.Print(a.tier), old(annotations), written);
      written := Stamp(OWNER_NAME, a.profile.name, old(annotations), written);
      written := Stamp(OWNER_KIND, a.profile.kind, old(annotations), written);
    }

    /** One AddAnnotation, with the stamps written so far kept apart from what was there before. */
    method Stamp(key: string, value: string, ghost before: map<string, string>, ghost written: map<string, string>)
      returns (ghost written': map<string, string>)
      requires annotations == before + written
      modifies this
      ensures written' == written[key := value] && annotations == before + written'
      ensures Value() == old(Value()).(annotations := annotations) && resourceVersion == old(resourceVersion)
    {
      AddAnnotation(key, value);
      written' := written[key := value];
    }

    method AddMetadata(version: nat, extraLabels: map<string, string>, extraAnnotations: map<string, string>)
      modifies this
      ensures Value() == WithExtras(old(Value()), extraLabels, extraAnnotations)
      ensures labels == old(labels) + extraLabels && annotations == old(annotations) + extraAnnotations
      ensures unchanged(`ownerReferences) && unchanged(`content)
      ensures resourceVersion == version
    {
      resourceVersion := version;
      AddExtraLabels(extraLabels);
      AddExtraAnnotations(extraAnnotations);
    }

    method AddExtraLabels(extra: map<string, string>)
      modifies `labels
      ensures labels == old(labels) + extra
    {
      var left := extra.Keys;
      while left != {}
        invariant left <= extra.Keys
        invariant labels == old(labels) + (extra - left)
        decreases left
      {
        var k :| k in left;
        labels := labels[k := extra[k]];
        left := left - {k};
      }
    }

    method AddExtraAnnotations(extra: map<string, string>)
      modifies `annotations
      ensures annotations == old(annotations) + extra
    {
      var left := extra.Keys;
      while left != {}
        invariant left <= extra.Keys
        invariant annotations == old(annotations) + (extra - left)
        decreases left
      {
        var k :| k in left;
        annotations := annotations[k := extra[k]];
        left := left - {k};
      }
    }

    method AddOwnerReference(owner: Profile)
      modifies `ownerReferences
      ensures ownerReferences == OwnerReferences.Added(old(ownerReferences), owner)
    {
      ownerReferences := OwnerReferences.AddOwnerReference(ownerReferences, owner);
    }

    method RemoveOwnerReference(owner: Profile)
      modifies `ownerReferences
      ensures ownerReferences == OwnerReferences.Removed(old(ownerReferences), owner)
    {
      ownerReferences := OwnerReferences.RemoveOwnerReference(ownerReferences, owner);
    }
  }

  /**
   * A cluster's API server. Any call may fail for reasons outside the model (network, admission, quota);
   * what a failed or dry-run call may not do is change the store.
   */
  class ApiServer {
    var objects: map<ResourceKey, Stored>
    var lastVersion: nat
    /** Deletions asked for, successful or not. */
    ghost var deletions: seq<ResourceKey>
    /** The errors that applies were answered with. */
    ghost var rejections: seq<ApiError>

    function Content(key: ResourceKey): Option<Object>
      reads this
    {
      if key in objects then Some(objects[key].obj) else None
    }

    /** Everything but the named object is as it was. */
    twostate predicate OnlyTouches(key: ResourceKey)
      reads this
    {
      objects - {key} == old(objects) - {key}
    }

    method AnyError() returns (e: ApiError)
      ensures !e.NotFound? && !e.Conflict?
    {
      if * { return Invalid; }
      if * { return ImmutableField; }
      if * { return Unauthorized; }
      if * { return Forbidden; }
      return Other;
    }

    method Get(key: ResourceKey) returns (r: Result<Stored, ApiError>)
      ensures r.Ok? ==> key in objects && r.value == objects[key]
      ensures r == Err(NotFound) ==> key !in objects
    {
      if * {
        var e := AnyError();
        return Err(e);
      }
      return if key in objects then Ok(objects[key]) else Err(NotFound);
    }

    /** Server-side apply. A version that is not the stored one is a conflict. */
    method Patch(key: ResourceKey, o: Object, version: nat, dryRun: bool) returns (r: Result<Object, ApiError>)
      modifies `objects, `lastVersion, `rejections
      ensures rejections == if r.Err? then old(rejections) + [r.error] else old(rejections)
      ensures dryRun || r.Err? ==> objects == old(objects) && lastVersion == old(lastVersion)
      ensures r.Ok? ==> r.value == Applied(old(Content(key)), o)
      ensures r.Ok? && version != 0 && key in old(objects) ==> old(objects)[key].version == version
      ensures r.Ok? && !dryRun ==> OnlyTouches(key) && Content(key) == Some(Applied(old(Content(key)), o))
    {
      if key in objects && version != 0 && objects[key].version != version {
        rejections := rejections + [Conflict];
        return Err(Conflict);
      }
      if * { // the namespace is missing
        rejections := rejections + [NotFound];
        return Err(NotFound);
      }
      if * {
        var e := AnyError();
        rejections := rejections + [e];
        return Err(e);
      }
      var merged := Applied(Content(key), o);
      if !dryRun {
        lastVersion := lastVersion + 1;
        objects := objects[key := Stored(merged, lastVersion)];
      }
      return Ok(merged);
    }

    /** Apply to a subresource such as status: metadata stays as it is. */
    method PatchSubresource(key: ResourceKey, subresourceContent: string, dryRun: bool)
      returns (r: Result<(), ApiError>)
      modifies `objects, `lastVersion
      ensures dryRun || r.Err? ==> objects == old(objects) && lastVersion == old(lastVersion)
      ensures OnlyTouches(key)
      ensures key in objects <==> key in old(objects)
      ensures r.Ok? && !dryRun ==> key in objects && objects[key].obj.content == subresourceContent
      ensures key in objects ==>
        objects[key].obj == old(objects)[key].obj.(content := objects[key].obj.content)
    {
      if key !in objects {
        return Err(NotFound);
      }
      if * {
        var e := AnyError();
        return Err(e);
      }
      if !dryRun {
        lastVersion := lastVersion + 1;
        objects := objects[key := Stored(objects[key].obj.(content := subresourceContent), lastVersion)];
      }
      return Ok(());
    }

    method Create(key: ResourceKey, o: Object, dryRun: bool) returns (r: Result<Object, ApiError>)
      modifies `objects, `lastVersion
      ensures dryRun || r.Err? ==> objects == old(objects) && lastVersion == old(lastVersion)
      ensures r.Ok? ==> r.value == o && key !in old(objects)
      ensures r.Ok? && !dryRun ==> OnlyTouches(key) && Content(key) == Some(o)
    {
      if key in objects {
        return Err(Other);
      }
      if * {
        var e := AnyError();
        return Err(e);
      }
      if !dryRun {
        lastVersion := lastVersion + 1;
        objects := objects[key := Stored(o, lastVersion)];
      }
      return Ok(o);
    }

    /** Full replacement of an existing object under the version it must still have. */
    method Update(key: ResourceKey, o: Object, version: nat, dryRun: bool) returns (r: Result<Object, ApiError>)
      modifies `objects, `lastVersion
      ensures dryRun || r.Err? ==> objects == old(objects) && lastVersion == old(lastVersion)
      ensures r.Ok? ==> r.value == o && key in old(objects)
      ensures r.Ok? && version != 0 ==> old(objects)[key].version == version
      ensures r.Ok? && !dryRun ==> OnlyTouches(key) && Content(key) == Some(o)
    {
      if key !in objects {
        return Err(NotFound);
      }
      if version != 0 && objects[key].version != version {
        return Err(Conflict);
      }
      if * {
        var e := AnyError();
        return Err(e);
      }
      if !dryRun {
        lastVersion := lastVersion + 1;
        objects := objects[key := Stored(o, lastVersion)];
      }
      return Ok(o);
    }

    /** No precondition on what is deleted: whatever is stored under the key goes, at once or, when finalizers
        hold it back, some time later. */
    method Delete(key: ResourceKey) returns (r: Result<(), ApiError>)
      modifies this
      ensures objects == old(objects) || (r.Ok? && objects == old(objects) - {key})
      ensures r == Err(NotFound) ==> key !in objects
      ensures lastVersion == old(lastVersion) && rejections == old(rejections) && deletions == old(deletions) + [key]
    {
      deletions := deletions + [key];
      if key !in objects {
        return Err(NotFound);
      }
      if * {
        var e := AnyError();
        return Err(e);
      }
      if * {
        objects := objects - {key};
      }
      return Ok(());
    }

    /** Time passes on an object being deleted: its finalizers may complete. */
    method Finalize(key: ResourceKey)
      modifies `objects
      ensures objects == old(objects) || objects == old(objects) - {key}
    {
      if * {
        objects := objects - {key};
      }
    }
  }

  datatype ResourceInfo = ResourceInfo(current: Stored, ownerTier: string, hash: string)

  method HasSveltosResources(refs: seq<OwnerReference>) returns (r: bool)
    ensures r <==> HasSveltosOwnerReference(refs)
  {
    for i := 0 to |refs|
      invariant forall j :: 0 <= j < i ==> !Contains(refs[j].apiVersion, SVELTOS)
    {
      if Contains(refs[i].apiVersion, SVELTOS) {
        return true;
      }
    }
    return false;
  }

  method ValidateSveltosOwner(o: Object, profile: Profile) returns (conflict: bool)
    ensures conflict <==> OwnerConflict(o, profile)
    ensures Lookup(o.annotations, "projectsveltos.io/owner-name") != "" ==>
      (conflict <==>
        Lookup(o.annotations, "projectsveltos.io/owner-name") != profile.name
        || Lookup(o.annotations, "projectsveltos.io/owner-kind") != profile.kind)
    ensures Lookup(o.annotations, "projectsveltos.io/owner-name") == "" ==>
      (conflict <==>
        && (exists i :: 0 <= i < |o.ownerReferences| && Contains(o.ownerReferences[i].apiVersion, "projectsveltos.io"))
        && forall i :: 0 <= i < |o.ownerReferences| ==>
             o.ownerReferences[i].kind != profile.kind || o.ownerReferences[i].name != profile.name)
  {
    var ownerName, ownerKind := Lookup(o.annotations, OWNER_NAME), Lookup(o.annotations, OWNER_KIND);
    if ownerName != "" {
      return ownerName != profile.name || ownerKind != profile.kind;
    }
    var sveltos := HasSveltosResources(o.ownerReferences);
    if !sveltos {
      return false;
    }
    var own := OwnerReferences.IsOwnerReference(o.ownerReferences, profile);
    return !own;
  }

  /** Looks the object up and fills in what the caller needs to know of it. The hash is only reported
      when there is no conflict. */
  method ValidateObjectForUpdate(server: ApiServer, key: ResourceKey, a: Attempt)
    returns (r: Result<Option<ResourceInfo>, ApiError>, conflict: bool)
    ensures r.Err? ==> !conflict && !r.error.NotFound?
    ensures r.Ok? ==> (r.value.None? <==> key !in server.objects)
    ensures r.Ok? && r.value.Some? ==>
      && r.value.value.current == server.objects[key]
      && r.value.value.ownerTier == Lookup(server.objects[key].obj.annotations, OWNER_TIER)
      && r.value.value.hash == (if conflict then "" else Lookup(server.objects[key].obj.annotations, POLICY_HASH))
    ensures r.Ok? && r.value.Some? && !conflict ==>
      r.value.value.hash == Lookup(server.objects[key].obj.annotations, "projectsveltos.io/hash")
    ensures conflict ==> r.Ok? && r.value.Some?
    ensures r.Ok? && r.value.Some? ==> (conflict <==>
      ReferenceConflict(server.objects[key].obj, a) || OwnerConflict(server.objects[key].obj, a.profile))
  {
    conflict := false;
    var got := server.Get(key);
    if got.Err? {
      return if got.error.NotFound? then Ok(None) else Err(got.error), false;
    }
    var o := got.value.obj;
    var info := ResourceInfo(got.value, "", "");
    if OWNER_TIER in o.annotations {
      info := info.(ownerTier := o.annotations[OWNER_TIER]);
    }
    var reference, tier := GetReference(o), GetReferenceTier(o);
    if a.referenceTier >= tier {
      if reference.kind != "" {
        if reference.kind != a.reference.kind {
          return Ok(Some(info)), true;
        }
        if reference.namespace != a.reference.namespace {
          return Ok(Some(info)), true;
        }
        if reference.name != a.reference.name {
          return Ok(Some(info)), true;
        }
      }
    }
    conflict := ValidateSveltosOwner(o, a.profile);
    if conflict {
      return Ok(Some(info)), true;
    }
    info := info.(hash := Lookup(o.annotations, POLICY_HASH));
    return Ok(Some(info)), false;
  }

  datatype DeployError = ConflictError | Api(error: ApiError)

  method CanDeployResource(server: ApiServer, key: ResourceKey, a: Attempt)
    returns (info: Option<ResourceInfo>, r: Result<bool, DeployError>)
    ensures r.Ok? ==> Decide(server.Content(key), a) == Deploy(r.value)
    ensures key !in server.objects && r.Ok? ==> !r.value
    ensures key in server.objects && Managed(server.objects[key].obj) && r.Ok? ==>
      var h, c := HolderOf(server.objects[key].obj), ClaimOf(a);
      r.value <==>
        !(h.kind == c.kind && h.name == c.name && (c.reference == h.reference || c.referenceTier < h.referenceTier))
    ensures r == Err(ConflictError) ==> Decide(server.Content(key), a) == Refuse
    ensures r.Err? && r.error.Api? ==> info.None?
    ensures !(r.Err? && r.error.Api?) ==> (info.Some? <==> key in server.objects)
    ensures info.Some? ==> key in server.objects && info.value.current == server.objects[key]
  {
    var checked, conflict := ValidateObjectForUpdate(server, key, a);
    if checked.Err? {
      return None, Err(Api(checked.error));
    }
    info := checked.value;
    if conflict {
      if HasHigherOwnershipPriority(GetTier(info.value.ownerTier), a.tier) {
        return info, Ok(true);
      }
      return info, Err(ConflictError);
    }
    return info, Ok(false);
  }

  method CreateNamespace(server: ApiServer, isDryRun: bool, name: string) returns (r: Result<(), ApiError>)
    modifies server
    ensures isDryRun || name == "" ==> r.Ok? && server.objects == old(server.objects)
    ensures !isDryRun && name != "" && r.Ok? ==> ResourceKey("", "Namespace", "", name) in server.objects
    ensures forall k :: k in old(server.objects) ==> k in server.objects && server.objects[k] == old(server.objects)[k]
    ensures forall k :: k in server.objects && k !in old(server.objects) ==> k == ResourceKey("", "Namespace", "", name)
    ensures server.deletions == old(server.deletions)
  {
    if isDryRun {
      return Ok(());
    }
    if name == "" {
      return Ok(());
    }
    var key := NamespaceKey(name);
    var got := server.Get(key);
    if got.Err? {
      if got.error.NotFound? {
        var created := server.Create(key, Object(map[], map[], [], ""), false);
        FrameOfOne(old(server.objects), server.objects, key);
        return if created.Ok? then Ok(()) else Err(created.error);
      }
      return Err(got.error);
    }
    return Ok(());
  }

  lemma FrameOfOne<T>(before: map<ResourceKey, T>, after: map<ResourceKey, T>, key: ResourceKey)
    ensures before - {key} == after - {key} ==>
      forall k :: k != key ==> (k in before <==> k in after) && (k in before ==> before[k] == after[k])
  {
    if before - {key} == after - {key} {
      forall k | k != key
        ensures (k in before <==> k in after) && (k in before ==> before[k] == after[k])
      {
        assert k in before <==> k in before - {key};
        assert k in after <==> k in after - {key};
        if k in before {
          assert (before - {key})[k] == (after - {key})[k];
        }
      }
    }
  }

  /** Deletes the object and waits until it is gone; other errors, and a wait that times out, are reported. */
  method RecreateResource(server: ApiServer, key: ResourceKey) returns (r: Result<(), ApiError>)
    modifies server
    ensures server.objects == old(server.objects) || server.objects == old(server.objects) - {key}
    ensures r.Ok? ==> key !in server.objects
    ensures server.deletions == old(server.deletions) + [key] && server.rejections == old(server.rejections)
  {
    var deleted := server.Delete(key);
    if deleted.Err? && !deleted.error.NotFound? {
      return Err(deleted.error);
    }
    var polls := 0;
    while polls < RECREATE_POLLS
      invariant server.objects == old(server.objects) || server.objects == old(server.objects) - {key}
      invariant server.deletions == old(server.deletions) + [key] && server.rejections == old(server.rejections)
    {
      server.Finalize(key);
      assert old(server.objects) - {key} - {key} == old(server.objects) - {key};
      var got := server.Get(key);
      if got == Err(NotFound) {
        return Ok(());
      }
      if got.Err? {
        return Err(got.error);
      }
      polls := polls + 1;
    }
    return Err(Other);
  }

  lemma OneMoreRejection(earlier: seq<ApiError>, e: ApiError)
    ensures AnyRequiresRecreate(earlier + [e]) <==> AnyRequiresRecreate(earlier) || RequiresRecreate(e)
  {
    var all := earlier + [e];
    assert all[|earlier|] == e && forall i :: 0 <= i < |earlier| ==> all[i] == earlier[i];
  }

  /** Sends the same data again after a conflict, a bounded number of times. In a dry run a missing namespace
      counts as a creation. */
  method PatchWithRetry(server: ApiServer, key: ResourceKey, o: Object, version: nat, isDryRun: bool)
    returns (r: Result<Object, ApiError>)
    modifies server`objects, server`lastVersion, server`rejections
    ensures isDryRun || r.Err? ==> server.objects == old(server.objects)
    ensures old(server.rejections) <= server.rejections && |server.rejections| <= |old(server.rejections)| + 5
    ensures r == Err(Conflict) ==> |server.rejections| == |old(server.rejections)| + 5
    ensures AnyRequiresRecreate(server.rejections[|old(server.rejections)|..]) <==> r.Err? && RequiresRecreate(r.error)
    ensures r.Ok? ==> r.value == Applied(old(server.Content(key)), o) || (isDryRun && r.value == o)
    ensures r.Ok? && !isDryRun ==>
      && server.OnlyTouches(key) && server.Content(key) == Some(Applied(old(server.Content(key)), o))
      && (version != 0 && key in old(server.objects) ==> old(server.objects)[key].version == version)
  {
    r := Err(Conflict);
    var tries := 0;
    while tries < RETRY_STEPS && r == Err(Conflict)
      invariant isDryRun || r.Err? ==> server.objects == old(server.objects)
      invariant old(server.rejections) <= server.rejections
      invariant tries <= RETRY_STEPS && |server.rejections| <= |old(server.rejections)| + tries
      invariant r == Err(Conflict) ==> |server.rejections| == |old(server.rejections)| + tries
      invariant AnyRequiresRecreate(server.rejections[|old(server.rejections)|..]) <==>
        r.Err? && RequiresRecreate(r.error)
      invariant r.Ok? ==> r.value == Applied(old(server.Content(key)), o) || (isDryRun && r.value == o)
      invariant r.Ok? && !isDryRun ==>
        && server.OnlyTouches(key) && server.Content(key) == Some(Applied(old(server.Content(key)), o))
        && (version != 0 && key in old(server.objects) ==> old(server.objects)[key].version == version)
    {
      ghost var before := server.rejections;
      r := server.Patch(key, o, version, isDryRun);
      if r.Err? {
        OneMoreRejection(before[|old(server.rejections)|..], r.error);
        assert (before + [r.error])[|old(server.rejections)|..] == before[|old(server.rejections)|..] + [r.error];
      }
      if isDryRun && r == Err(NotFound) {
        r := Ok(o);
      }
      tries := tries + 1;
    }
  }

  /** A CustomResourceDefinition is created, or replaced under the version it has at that moment. */
  method UpdateCrd(server: ApiServer, u: Unstructured, isDryRun: bool) returns (r: Result<Object, ApiError>)
    modifies server`objects, server`lastVersion, u`resourceVersion
    ensures isDryRun || r.Err? ==> server.objects == old(server.objects)
    ensures r.Ok? ==> r.value == old(u.Value())
    ensures r.Ok? && !isDryRun ==> server.OnlyTouches(u.key) && server.Content(u.key) == Some(old(u.Value()))
    ensures r.Ok? && u.key in old(server.objects) ==> u.resourceVersion == old(server.objects)[u.key].version
  {
    r := Err(Conflict);
    var tries := 0;
    while tries < RETRY_STEPS && r == Err(Conflict)
      invariant isDryRun || r.Err? ==> server.objects == old(server.objects)
      invariant r.Ok? ==> r.value == old(u.Value())
      invariant r.Ok? && !isDryRun ==> server.OnlyTouches(u.key) && server.Content(u.key) == Some(old(u.Value()))
      invariant r.Ok? && u.key in old(server.objects) ==> u.resourceVersion == old(server.objects)[u.key].version
    {
      var got := server.Get(u.key);
      if got.Err? {
        if got.error.NotFound? {
          r := server.Create(u.key, u.Value(), isDryRun);
        } else {
          r := Err(got.error);
        }
      } else {
        u.resourceVersion := got.value.version;
        r := server.Update(u.key, u.Value(), u.resourceVersion, isDryRun);
      }
      tries := tries + 1;
    }
  }

  /** Sent without a resourceVersion. */
  method ApplySubresources(server: ApiServer, u: Unstructured, subresources: seq<string>, isDryRun: bool)
    returns (r: Result<(), ApiError>)
    modifies server`objects, server`lastVersion, u`resourceVersion
    ensures isDryRun || subresources == [] ==> server.objects == old(server.objects)
    ensures subresources == [] ==> r.Ok?
    ensures r.Ok? && subresources != [] && !isDryRun ==>
      u.key in server.objects && server.objects[u.key].obj.content == u.content
    ensures u.resourceVersion == if subresources == [] then old(u.resourceVersion) else 0
    ensures server.OnlyTouches(u.key) && (u.key in server.objects <==> u.key in old(server.objects))
    ensures u.key in server.objects ==>
      server.objects[u.key].obj == old(server.objects)[u.key].obj.(content := server.objects[u.key].obj.content)
  {
    if |subresources| == 0 {
      return Ok(());
    }
    u.resourceVersion := 0;
    r := server.PatchSubresource(u.key, u.content, isDryRun);
  }

  /** Force was asked for, by the caller or on the object itself. */
  predicate MayRecreate(o: Object, forceRecreate: bool) {
    forceRecreate || FORCE_RECREATE in o.annotations
  }

  /** What a live, successful update leaves under the key, subresource content aside. */
  ghost predicate Landed(before: Option<Object>, manifest: Object, after: Option<Object>, crd: bool, recreated: bool) {
    && after.Some?
    && var written :=
         if crd then manifest else if recreated then Applied(None, manifest) else Applied(before, manifest);
       after.value == written.(content := after.value.content)
  }

  /** The fields a profile wants left out of drift evaluation. The patcher that removes them is not modelled;
      `trimmed` is what it makes of the policy at hand. */
  datatype Exclusions = Exclusions(detection: bool, trimmed: Option<Result<Object, ApiError>>)

  /** removeDriftExclusionsFields: under drift detection when the object exists, otherwise in a dry run. */
  predicate Trims(x: Exclusions, found: bool, isDryRun: bool) {
    x.trimmed.Some? && if x.detection then found else isDryRun
  }

  /** What is sent. */
  function Sent(o: Object, x: Exclusions, found: bool, isDryRun: bool): Object {
    if Trims(x, found, isDryRun) && x.trimmed.value.Ok? then x.trimmed.value.value else o
  }

  method RemoveDriftExclusionsFields(server: ApiServer, key: ResourceKey, x: Exclusions, isDryRun: bool)
    returns (r: Result<bool, ApiError>)
    ensures r.Ok? ==> r.value == Trims(x, key in server.objects, isDryRun)
    ensures r.Ok? ==>
      (r.value <==> x.trimmed.Some? && ((x.detection && key in server.objects) || (!x.detection && isDryRun)))
    ensures r.Err? ==> x.detection && x.trimmed.Some? && r.error != NotFound
  {
    if x.detection {
      if x.trimmed.Some? {
        var got := server.Get(key);
        if got.Ok? {
          return Ok(true);
        }
        return if got.error.NotFound? then Ok(false) else Err(got.error);
      }
    }
    return Ok(isDryRun && x.trimmed.Some?);
  }

  /** What an update amounts to, given what it sent and under which version. One deletion is asked for if and
      only if the update is live, the object is not a CustomResourceDefinition, recreating it was allowed, and an
      apply was rejected with an error that calls for it. */
  twostate predicate Updated(
    server: ApiServer, key: ResourceKey, manifest: Object, version: nat, isDryRun: bool, forceRecreate: bool,
    new r: Result<Object, ApiError>)
    reads server
  {
    var crd, before := IsCustomResourceDefinition(key), old(server.Content(key));
    && old(server.rejections) <= server.rejections
    && server.deletions == (
         if !isDryRun && !crd && MayRecreate(manifest, forceRecreate)
            && AnyRequiresRecreate(server.rejections[|old(server.rejections)|..])
         then old(server.deletions) + [key] else old(server.deletions))
    && (r.Ok? && isDryRun ==> r.value == manifest || r.value == Applied(before, manifest))
    && (r.Ok? && !isDryRun ==>
         var recreated := server.deletions != old(server.deletions);
         && Landed(before, manifest, Some(r.value), crd, recreated)
         && Landed(before, manifest, server.Content(key), crd, recreated)
         && (!recreated && !crd && version != 0 && key in old(server.objects) ==>
              old(server.objects)[key].version == version))
  }

  /** The object is the manifest, subresource content aside: nothing it had before is left. */
  predicate Replaced(o: Object, manifest: Object) {
    && o.annotations == manifest.annotations && o.labels == manifest.labels
    && o.ownerReferences == manifest.ownerReferences
  }

  /** The object is the manifest laid over what was there, subresource content aside. */
  predicate Merged(before: Option<Object>, manifest: Object, o: Object) {
    && o.annotations == (if before.Some? then before.value.annotations + manifest.annotations else manifest.annotations)
    && o.labels == (if before.Some? then before.value.labels + manifest.labels else manifest.labels)
  }

  /** An apply was rejected as invalid or for an immutable field. */
  predicate Refused(errors: seq<ApiError>) {
    Invalid in errors || ImmutableField in errors
  }

  lemma RefusedMeansRecreate(errors: seq<ApiError>)
    ensures Refused(errors) <==> AnyRequiresRecreate(errors)
  {
    if AnyRequiresRecreate(errors) {
      var i :| 0 <= i < |errors| && RequiresRecreate(errors[i]);
      assert errors[i] in errors;
    }
  }

  /**
   * UpdateResource. A dry run never changes the cluster, on any path. Live, only the object itself is
   * touched, and outside the recreate path a failure to write it leaves it alone.
   */
  method UpdateResource(
    server: ApiServer, u: Unstructured, x: Exclusions, isDryRun: bool, forceRecreate: bool, subresources: seq<string>)
    returns (r: Result<Object, ApiError>)
    modifies server, u`resourceVersion
    ensures isDryRun ==> server.objects == old(server.objects)
    ensures server.OnlyTouches(u.key)
    ensures r.Err? && subresources == [] && server.deletions == old(server.deletions) ==>
      server.objects == old(server.objects)
    ensures Trims(x, u.key in old(server.objects), isDryRun) && x.trimmed.value.Err? ==> r.Err?
    ensures Updated(server, u.key, Sent(old(u.Value()), x, u.key in old(server.objects), isDryRun),
                    old(u.resourceVersion), isDryRun, forceRecreate, r)
    ensures u.key.kind == "CustomResourceDefinition" && u.key.group == "apiextensions.k8s.io" ==>
      server.deletions == old(server.deletions)
    ensures
      var crd := u.key.kind == "CustomResourceDefinition" && u.key.group == "apiextensions.k8s.io";
      var trims := x.trimmed.Some? && ((x.detection && u.key in old(server.objects)) || (!x.detection && isDryRun));
      var sent := if trims && x.trimmed.value.Ok? then x.trimmed.value.value else old(u.Value());
      var forced := forceRecreate || "projectsveltos.io/forceRecreate" in sent.annotations;
      var refused := Refused(server.rejections[|old(server.rejections)|..]);
      var kept := if server.deletions == old(server.deletions) then old(server.Content(u.key)) else None;
      && server.deletions == old(server.deletions) + (if !crd && !isDryRun && forced && refused then [u.key] else [])
      && (r.Ok? && !isDryRun ==>
           && u.key in server.objects
           && if crd then Replaced(server.objects[u.key].obj, sent) else Merged(kept, sent, server.objects[u.key].obj))
  {
    var trims := RemoveDriftExclusionsFields(server, u.key, x, isDryRun);
    if trims.Err? {
      assert server.rejections[|server.rejections|..] == [];
      return Err(trims.error);
    }
    var sent := u;
    if trims.value {
      match x.trimmed.value
      case Err(e) =>
        assert server.rejections[|server.rejections|..] == [];
        return Err(e);
      case Ok(o) =>
        sent := new Unstructured(u.key, o);
        sent.resourceVersion := u.resourceVersion;
    }
    r := Send(server, sent, isDryRun, forceRecreate, subresources);
    RefusedMeansRecreate(server.rejections[|old(server.rejections)|..]);
  }

  /** The rest of UpdateResource, on what is to be sent. */
  method Send(server: ApiServer, u: Unstructured, isDryRun: bool, forceRecreate: bool, subresources: seq<string>)
    returns (r: Result<Object, ApiError>)
    modifies server, u`resourceVersion
    ensures isDryRun ==> server.objects == old(server.objects)
    ensures server.OnlyTouches(u.key)
    ensures r.Err? && subresources == [] && server.deletions == old(server.deletions) ==>
      server.objects == old(server.objects)
    ensures Updated(server, u.key, old(u.Value()), old(u.resourceVersion), isDryRun, forceRecreate, r)
  {
    var crd := IsCustomResourceDefinition(u.key);
    var manifest, version := u.Value(), u.resourceVersion;
    ghost var recreated := false;
    if crd {
      r := UpdateCrd(server, u, isDryRun);
    } else {
      r := PatchWithRetry(server, u.key, manifest, version, isDryRun);
      if r.Err? && !isDryRun && MayRecreate(manifest, forceRecreate) && RequiresRecreate(r.error) {
        var gone := RecreateResource(server, u.key);
        assert server.OnlyTouches(u.key) && |server.deletions| == |old(server.deletions)| + 1;
        if gone.Err? {
          return Err(gone.error);
        }
        recreated := true;
        ghost var refused := server.rejections;
        r := server.Patch(u.key, manifest, version, false);
        if r.Err? {
          OneMoreRejection(refused[|old(server.rejections)|..], r.error);
          assert server.rejections[|old(server.rejections)|..] == refused[|old(server.rejections)|..] + [r.error];
        }
      }
    }
    if r.Err? {
      return r;
    }
    assert !isDryRun ==>
      && Landed(old(server.Content(u.key)), manifest, server.Content(u.key), crd, recreated)
      && Landed(old(server.Content(u.key)), manifest, Some(r.value), crd, recreated);
    assert server.OnlyTouches(u.key);
    var sub := ApplySubresources(server, u, subresources, isDryRun);
    if sub.Err? {
      r := Err(sub.error);
    }
    assert !isDryRun ==>
      Landed(old(server.Content(u.key)), manifest, server.Content(u.key), crd, recreated);
  }
}
