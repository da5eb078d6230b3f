/** Withdrawing what a profile no longer deploys: whose objects a cleanup may delete or release. */
module Cleanup {
  import opened Outcomes
  import opened Slices
  import opened Objects
  import opened Ownership
  import opened Applier
  import OwnerReferences

  /** GetPolicyInfo. */
  function PolicyInfo(k: ResourceKey): string {
    k.kind + "." + k.group + ":" + k.namespace + ":" + k.name
  }

  /** Not among the policies the profile deploys now, which are looked up by PolicyInfo. */
  predicate CanDelete(k: ResourceKey, currentPolicies: set<ResourceKey>) {
    PolicyInfo(k) !in set p | p in currentPolicies :: PolicyInfo(p)
  }

  predicate HasEntry(m: map<string, string>, key: string, value: string) {
    if value == "" then key in m else Lookup(m, key) == value
  }

  predicate IsResourceOwner(o: Object, profile: Profile) {
    if Lookup(o.annotations, OWNER_KIND) != "" then
      Lookup(o.annotations, OWNER_KIND) == profile.kind && Lookup(o.annotations, OWNER_NAME) == profile.name
    else OwnerReferences.Has(o.ownerReferences, profile.kind, profile.name)
  }

  /** What a cleanup is asked to do, apart from the object it is shown. */
  datatype Request = Request(
    profile: Profile, currentPolicies: set<ResourceKey>,
    leavePolicies: bool, skipKey: string, skipValue: string)

  datatype Intent = Ignore | Delete | Release

  /** The object was deployed by Sveltos, and passes the caller's filter. */
  predicate Considered(o: Object, q: Request) {
    && (REFERENCE_NAME in o.labels || REFERENCE_NAME in o.annotations)
    && (q.skipKey == "" || HasEntry(o.annotations, q.skipKey, q.skipValue))
  }

  /** What a live cleanup does to an object it is shown as o. */
  function IntentOn(k: ResourceKey, o: Object, q: Request): Intent {
    if Considered(o, q) && CanDelete(k, q.currentPolicies) && IsResourceOwner(o, q.profile) then
      if q.leavePolicies then Release else Delete
    else Ignore
  }

  const RELEASED_LABELS := {REFERENCE_KIND, REFERENCE_NAME, REFERENCE_NAMESPACE}
  const RELEASED_ANNOTATIONS :=
    {REFERENCE_KIND, REFERENCE_NAME, REFERENCE_NAMESPACE, REFERENCE_TIER, OWNER_KIND, OWNER_NAME, OWNER_TIER}

  /** The object without its stamps. */
  function Released(o: Object): Object {
    o.(labels := o.labels - RELEASED_LABELS, annotations := o.annotations - RELEASED_ANNOTATIONS)
  }

  /** Ten marks are gone, and nothing else. */
  predicate OnlyMarksGone(before: Object, after: Object) {
    && (forall k :: k in after.labels ==> k in before.labels && after.labels[k] == before.labels[k])
    && (forall k :: k in after.annotations ==> k in before.annotations && after.annotations[k] == before.annotations[k])
    && (forall k :: k in before.labels ==>
         (k !in after.labels <==>
           k in ["projectsveltos.io/reference-kind", "projectsveltos.io/reference-name",
                 "projectsveltos.io/reference-namespace"]))
    && (forall k :: k in before.annotations ==>
         (k !in after.annotations <==>
           k in ["projectsveltos.io/reference-kind", "projectsveltos.io/reference-name",
                 "projectsveltos.io/reference-namespace", "projectsveltos.io/reference-tier",
                 "projectsveltos.io/owner-kind", "projectsveltos.io/owner-name", "projectsveltos.io/owner-tier"]))
    && after.ownerReferences == before.ownerReferences && after.content == before.content
  }

  lemma ReleaseTakesOnlyMarks(o: Object)
    ensures OnlyMarksGone(o, Released(o))
    ensures !HasSveltosOwnerReference(o.ownerReferences) ==> Unmanaged(Released(o))
  {
  }

  /** A released object that no older owner reference holds is anyone's, and nobody is requeued for it. */
  lemma ReleasedObjectsAreFree(o: Object, released: Object, a: Attempt)
    requires OnlyMarksGone(o, released) && !HasSveltosOwnerReference(o.ownerReferences)
    ensures Decide(Some(released), a) == Deploy(false)
  {
    assert OWNER_NAME !in released.annotations && REFERENCE_KIND !in released.annotations;
    assert REFERENCE_KIND !in released.labels;
    DecideOnUnmanaged(released, a);
  }

  datatype Report = Report(key: ResourceKey)

  /**
   * UndeployStaleResource on a listed copy of the object. A dry run asks nothing of the cluster and reports a
   * deletion exactly when the live run would ask for one.
   */
  method UndeployStaleResource(server: ApiServer, key: ResourceKey, listed: Stored, q: Request, isDryRun: bool)
    returns (r: Result<Option<Report>, ApiError>)
    modifies server
    ensures isDryRun ==> server.objects == old(server.objects) && server.deletions == old(server.deletions)
    ensures isDryRun ==> r == Ok(if IntentOn(key, listed.obj, q).Delete? then Some(Report(key)) else None)
    ensures !isDryRun ==>
      server.deletions == old(server.deletions) + if IntentOn(key, listed.obj, q).Delete? then [key] else []
    ensures !isDryRun && r.Ok? ==> r.value.None?
    ensures !isDryRun && r.Ok? && IntentOn(key, listed.obj, q).Release? ==>
      && server.Content(key) == Some(Released(listed.obj))
      && key in server.objects && OnlyMarksGone(listed.obj, server.objects[key].obj)
      && (!HasSveltosOwnerReference(listed.obj.ownerReferences) ==> Unmanaged(server.objects[key].obj))
    ensures
      var o := listed.obj;
      var name, kind := "projectsveltos.io/owner-name", "projectsveltos.io/owner-kind";
      var deployed :=
        "projectsveltos.io/reference-name" in o.labels || "projectsveltos.io/reference-name" in o.annotations;
      var kept := q.skipKey == ""
        || (q.skipKey in o.annotations && (q.skipValue == "" || o.annotations[q.skipKey] == q.skipValue));
      var own :=
        if Lookup(o.annotations, kind) != "" then
          Lookup(o.annotations, kind) == q.profile.kind && Lookup(o.annotations, name) == q.profile.name
        else exists i :: 0 <= i < |o.ownerReferences| && o.ownerReferences[i].kind == q.profile.kind
                         && o.ownerReferences[i].name == q.profile.name;
      var acts := deployed && kept && own && CanDelete(key, q.currentPolicies);
      && (isDryRun ==> r == Ok(if acts && !q.leavePolicies then Some(Report(key)) else None))
      && (!isDryRun ==>
           server.deletions == old(server.deletions) + if acts && !q.leavePolicies then [key] else [])
      && (!acts ==> server.objects == old(server.objects))
      && (!isDryRun && acts && q.leavePolicies && r.Ok? ==>
           key in server.objects && OnlyMarksGone(o, server.objects[key].obj))
    ensures match IntentOn(key, listed.obj, q)
      case Ignore => server.objects == old(server.objects)
      case Delete => server.objects == old(server.objects) || server.objects == old(server.objects) - {key}
      case Release =>
        || server.objects == old(server.objects)
        || (server.OnlyTouches(key) && server.Content(key) == Some(Released(listed.obj))
            && key in old(server.objects)
            && (listed.version != 0 ==> old(server.objects)[key].version == listed.version))
  {
    var o := listed.obj;
    if REFERENCE_NAME !in o.labels && REFERENCE_NAME !in o.annotations {
      return Ok(None);
    }
    if q.skipKey != "" {
      if !HasEntry(o.annotations, q.skipKey, q.skipValue) {
        return Ok(None);
      }
    }
    var report: Option<Report> := None;
    if isDryRun {
      if CanDelete(key, q.currentPolicies) && IsResourceOwner(o, q.profile) && !q.leavePolicies {
        report := Some(Report(key));
      }
    } else if CanDelete(key, q.currentPolicies) {
      if IsResourceOwner(o, q.profile) {
        var done := HandleResourceDelete(server, key, listed, q.leavePolicies);
        if done.Err? {
          return Err(done.error);
        }
      }
    }
    return Ok(report);
  }

  method HandleResourceDelete(server: ApiServer, key: ResourceKey, listed: Stored, leavePolicies: bool)
    returns (r: Result<(), ApiError>)
    modifies server
    ensures leavePolicies ==> server.deletions == old(server.deletions)
    ensures leavePolicies && r.Ok? ==>
      && server.Content(key) == Some(Released(listed.obj))
      && key in server.objects && OnlyMarksGone(listed.obj, server.objects[key].obj)
      && (!HasSveltosOwnerReference(listed.obj.ownerReferences) ==> Unmanaged(server.objects[key].obj))
    ensures leavePolicies ==>
      || server.objects == old(server.objects)
      || (server.OnlyTouches(key) && server.Content(key) == Some(Released(listed.obj))
          && key in old(server.objects)
          && (listed.version != 0 ==> old(server.objects)[key].version == listed.version))
    ensures !leavePolicies ==> server.deletions == old(server.deletions) + [key]
    ensures !leavePolicies ==>
      server.objects == old(server.objects) || server.objects == old(server.objects) - {key}
  {
    if leavePolicies {
      var labels := listed.obj.labels;
      labels := labels - {REFERENCE_KIND};
      labels := labels - {REFERENCE_NAME};
      labels := labels - {REFERENCE_NAMESPACE};
      var annotations := listed.obj.annotations;
      annotations := annotations - {REFERENCE_KIND};
      annotations := annotations - {REFERENCE_NAME};
      annotations := annotations - {REFERENCE_NAMESPACE};
      annotations := annotations - {REFERENCE_TIER};
      annotations := annotations - {OWNER_KIND};
      annotations := annotations - {OWNER_NAME};
      annotations := annotations - {OWNER_TIER};
      assert labels == listed.obj.labels - RELEASED_LABELS;
      assert annotations == listed.obj.annotations - RELEASED_ANNOTATIONS;
      var released := listed.obj.(labels := labels, annotations := annotations);
      ReleaseTakesOnlyMarks(listed.obj);
      var updated := server.Update(key, released, listed.version, false);
      return if updated.Ok? then Ok(()) else Err(updated.error);
    }
    r := server.Delete(key);
  }

  /** The kinds, groups and namespaces Kubernetes allows: no '.' in a kind, no ':' in any of the three. */
  predicate PlainKey(k: ResourceKey) {
    '.' !in k.kind && ':' !in k.kind && ':' !in k.group && ':' !in k.namespace
  }

  /** A text cut at the first occurrence of a character it was built around. */
  lemma CutAt(a: string, b: string, a': string, b': string, c: char)
    requires c !in a && c !in a' && a + [c] + b == a' + [c] + b'
    ensures a == a' && b == b'
  {
    var s := a + [c] + b;
    assert s[..|a|] == a && s[..|a'|] == a';
    IndexOfIs(s, c, |a|);
    IndexOfIs(s, c, |a'|);
    assert s[|a| + 1..] == b && s[|a'| + 1..] == b';
  }

  lemma PolicyInfoInjective(k: ResourceKey, l: ResourceKey)
    requires PlainKey(k) && PlainKey(l) && PolicyInfo(k) == PolicyInfo(l)
    ensures k == l
  {
    var kHead, lHead := k.kind + "." + k.group, l.kind + "." + l.group;
    var kTail, lTail := k.namespace + ":" + k.name, l.namespace + ":" + l.name;
    assert PolicyInfo(k) == kHead + ":" + kTail && PolicyInfo(l) == lHead + ":" + lTail;
    CutAt(kHead, kTail, lHead, lTail, ':');
    CutAt(k.kind, k.group, l.kind, l.group, '.');
    CutAt(k.namespace, k.name, l.namespace, l.name, ':');
  }

  /** What the profile still deploys is never up for deletion; among plain keys, all the rest is. */
  lemma CanDeleteExactly(k: ResourceKey, currentPolicies: set<ResourceKey>)
    ensures k in currentPolicies ==> !CanDelete(k, currentPolicies)
    ensures PlainKey(k) && (forall p :: p in currentPolicies ==> PlainKey(p)) ==>
      (CanDelete(k, currentPolicies) <==> k !in currentPolicies)
  {
    if PlainKey(k) && (forall p :: p in currentPolicies ==> PlainKey(p)) && !CanDelete(k, currentPolicies) {
      var p :| p in currentPolicies && PolicyInfo(p) == PolicyInfo(k);
      PolicyInfoInjective(k, p);
    }
  }

  /** Without the restriction, a dot can move between kind and group. */
  lemma PolicyInfoCanCollide()
    ensures exists k: ResourceKey, l: ResourceKey :: k != l && PolicyInfo(k) == PolicyInfo(l)
  {
    var k, l := ResourceKey("c", "A.b", "ns", "n"), ResourceKey("b.c", "A", "ns", "n");
    assert PolicyInfo(k) == PolicyInfo(l);
  }
}
