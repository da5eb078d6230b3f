/** Kubernetes objects, as far as ownership looks at them. */
module Objects {
  /** What the API server files an object under. The API version is not part of it. */
  datatype ResourceKey = ResourceKey(group: string, kind: string, namespace: string, name: string)

  datatype OwnerReference = OwnerReference(apiVersion: string, kind: string, name: string, uid: string)

  /** A nil annotation or label map reads like an empty one. */
  datatype Object = Object(
    annotations: map<string, string>,
    labels: map<string, string>,
    ownerReferences: seq<OwnerReference>,
    content: string)

  /** The profile asking. Ownership compares kind and name only. */
  datatype Profile = Profile(apiVersion: string, kind: string, name: string, uid: string)

  /** A stored object and its resourceVersion. */
  datatype Stored = Stored(obj: Object, version: nat)

  function Lookup(m: map<string, string>, key: string): string {
    if key in m then m[key] else ""
  }

  /** strings.Contains. */
  predicate Contains(s: string, sub: string) {
    exists i: nat :: i <= |s| && OccursAt(s, sub, i)
  }

  predicate OccursAt(s: string, sub: string, i: nat) {
    i + |sub| <= |s| && s[i..i + |sub|] == sub
  }
}
