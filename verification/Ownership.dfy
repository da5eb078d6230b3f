/** Who may deploy an object: the stamps on it, and the tiers that settle conflicts. */
module Ownership {
  import opened Outcomes
  import opened Decimal
  import opened Objects
  import OwnerReferences

  const REFERENCE_KIND := "projectsveltos.io/reference-kind"
  const REFERENCE_NAME := "projectsveltos.io/reference-name"
  const REFERENCE_NAMESPACE := "projectsveltos.io/reference-namespace"
  const REFERENCE_TIER := "projectsveltos.io/reference-tier"
  const POLICY_HASH := "projectsveltos.io/hash"
  const OWNER_TIER := "projectsveltos.io/owner-tier"
  const OWNER_NAME := "projectsveltos.io/owner-name"
  const OWNER_KIND := "projectsveltos.io/owner-kind"
  const REASON := "projectsveltos.io/reason"
  const SVELTOS := "projectsveltos.io"

  const DEFAULT_REFERENCE_TIER := 100

  /** The ConfigMap, Secret or other source the object comes from. */
  datatype Reference = Reference(kind: string, namespace: string, name: string)

  const NO_REFERENCE := Reference("", "", "")

  /** One profile's wish to deploy one version of the object. */
  datatype Attempt = Attempt(
    profile: Profile, tier: int, reference: Reference, referenceTier: int,
    feature: string, hash: string, manifest: Object)

  predicate HasHigherOwnershipPriority(currentOwnerTier: int, claimingTier: int) {
    claimingTier < currentOwnerTier
  }

  /** Unreadable tiers, and the impossible tier 0, give way to everyone. */
  function GetTier(tierData: string): int {
    match ParseInt32(tierData)
    case None => INT32_MAX
    case Some(value) => if value == 0 then INT32_MAX else value
  }

  function GetReferenceTier(o: Object): int {
    if REFERENCE_TIER !in o.annotations then DEFAULT_REFERENCE_TIER
    else
      match ParseInt32(o.annotations[REFERENCE_TIER])
      case None => DEFAULT_REFERENCE_TIER
      case Some(tier) => tier
  }

  /** Annotations first, the deprecated labels when no kind is found there. */
  function GetReference(o: Object): Reference {
    if Lookup(o.annotations, REFERENCE_KIND) != "" then
      Reference(Lookup(o.annotations, REFERENCE_KIND),
                Lookup(o.annotations, REFERENCE_NAMESPACE),
                Lookup(o.annotations, REFERENCE_NAME))
    else if REFERENCE_KIND in o.labels then
      Reference(o.labels[REFERENCE_KIND],
                Lookup(o.labels, REFERENCE_NAMESPACE),
                Lookup(o.labels, REFERENCE_NAME))
    else NO_REFERENCE
  }

  predicate HasSveltosOwnerReference(refs: seq<OwnerReference>) {
    exists i :: 0 <= i < |refs| && Contains(refs[i].apiVersion, SVELTOS)
  }

  /** Another source already provides the object, and the new one is not of a lower reference tier. */
  predicate ReferenceConflict(o: Object, a: Attempt) {
    && a.referenceTier >= GetReferenceTier(o)
    && GetReference(o).kind != ""
    && GetReference(o) != a.reference
  }

  /** Another profile already owns the object, by annotation or by the older owner references. */
  predicate OwnerConflict(o: Object, profile: Profile) {
    if Lookup(o.annotations, OWNER_NAME) != "" then
      Lookup(o.annotations, OWNER_NAME) != profile.name || Lookup(o.annotations, OWNER_KIND) != profile.kind
    else
      HasSveltosOwnerReference(o.ownerReferences) && !OwnerReferences.Has(o.ownerReferences, profile.kind, profile.name)
  }

  datatype Decision = Deploy(requeueOldOwner: bool) | Refuse

  /** CanDeployResource on what the check saw. */
  function Decide(current: Option<Object>, a: Attempt): Decision {
    match current
    case None => Deploy(false)
    case Some(o) =>
      if !ReferenceConflict(o, a) && !OwnerConflict(o, a.profile) then Deploy(false)
      else if HasHigherOwnershipPriority(GetTier(Lookup(o.annotations, OWNER_TIER)), a.tier) then Deploy(true)
      else Refuse
  }

  /** The annotations GetResource leaves on a policy. */
  function Stamps(a: Attempt): map<string, string> {
    map[REFERENCE_KIND := a.reference.kind,
        REFERENCE_NAME := a.reference.name,
        REFERENCE_NAMESPACE := a.reference.namespace,
        REFERENCE_TIER := Print(a.referenceTier),
        POLICY_HASH := a.hash,
        OWNER_TIER := Print(a.tier),
        OWNER_NAME := a.profile.name,
        OWNER_KIND := a.profile.kind]
  }

  function Stamped(a: Attempt): Object {
    a.manifest.(annotations := a.manifest.annotations + Stamps(a),
                labels := a.manifest.labels[REASON := a.feature])
  }

  /** A forced server-side apply: what the manifest sets wins, what it does not mention stays. */
  function Applied(current: Option<Object>, manifest: Object): Object {
    match current
    case None => manifest
    case Some(o) =>
      manifest.(annotations := o.annotations + manifest.annotations,
                labels := o.labels + manifest.labels,
                ownerReferences := if manifest.ownerReferences == [] then o.ownerReferences
                                   else manifest.ownerReferences)
  }

  /** Check, stamp and apply with nothing in between. */
  function Attempted(current: Option<Object>, a: Attempt): Option<Object> {
    if Decide(current, a).Refuse? then current else Some(Applied(current, Stamped(a)))
  }

  /** Names and kinds are non-empty, tiers are at least 1, and both tiers fit an int32. */
  predicate ValidAttempt(a: Attempt) {
    && a.profile.name != "" && a.reference.kind != ""
    && 1 <= a.tier <= INT32_MAX && IsInt32(a.referenceTier)
  }

  /** What ownership comes down to. */
  datatype Holder = Holder(kind: string, name: string, tier: int, reference: Reference, referenceTier: int)

  function HolderOf(o: Object): Holder {
    Holder(Lookup(o.annotations, OWNER_KIND), Lookup(o.annotations, OWNER_NAME),
           GetTier(Lookup(o.annotations, OWNER_TIER)), GetReference(o), GetReferenceTier(o))
  }

  function ClaimOf(a: Attempt): Holder {
    Holder(a.profile.kind, a.profile.name, a.tier, a.reference, a.referenceTier)
  }

  predicate SameOwner(h: Holder, g: Holder) {
    h.kind == g.kind && h.name == g.name
  }

  /** The object carries a profile's full stamp. */
  predicate Managed(o: Object) {
    HolderOf(o).name != "" && HolderOf(o).reference.kind != ""
  }

  /** Nothing on the object says a Sveltos profile put it there. */
  predicate Unmanaged(o: Object) {
    && HolderOf(o).name == "" && GetReference(o).kind == ""
    && !HasSveltosOwnerReference(o.ownerReferences)
  }

  /** The stamp, read back through decimal text, names exactly the attempt it was made from. */
  lemma StampReadsBack(current: Option<Object>, a: Attempt)
    requires ValidAttempt(a)
    ensures HolderOf(Applied(current, Stamped(a))) == ClaimOf(a)
    ensures Managed(Applied(current, Stamped(a)))
  {
    ParsePrint(a.tier);
    ParsePrint(a.referenceTier);
    StampsWin(current, a, OWNER_KIND);
    StampsWin(current, a, OWNER_NAME);
    StampsWin(current, a, OWNER_TIER);
    StampsWin(current, a, REFERENCE_KIND);
    StampsWin(current, a, REFERENCE_NAMESPACE);
    StampsWin(current, a, REFERENCE_NAME);
    StampsWin(current, a, REFERENCE_TIER);
  }

  lemma StampsWin(current: Option<Object>, a: Attempt, key: string)
    requires key in Stamps(a)
    ensures var annotations := Applied(current, Stamped(a)).annotations;
      key in annotations && annotations[key] == Stamps(a)[key]
  {
    assert key in Stamped(a).annotations;
  }

  /** The decision in ownership terms: a lower tier always wins; otherwise only the present owner
      may deploy, from the present source or from one of a lower reference tier. */
  predicate MayTake(h: Holder, claim: Holder) {
    claim.tier < h.tier
    || (SameOwner(h, claim) && (claim.reference == h.reference || claim.referenceTier < h.referenceTier))
  }

  /** Text that is no tier gives way to everyone, and text that is no reference tier counts as 100. */
  lemma UnreadableTiers(tierData: string, o: Object)
    ensures ParseInt32(tierData) == None || ParseInt32(tierData) == Some(0) ==> GetTier(tierData) == 0x7FFF_FFFF
    ensures ParseInt32(tierData).Some? && ParseInt32(tierData) != Some(0) ==>
      Some(GetTier(tierData)) == ParseInt32(tierData)
    ensures "projectsveltos.io/reference-tier" !in o.annotations ==> GetReferenceTier(o) == 100
    ensures "projectsveltos.io/reference-tier" in o.annotations ==>
      var text := o.annotations["projectsveltos.io/reference-tier"];
      GetReferenceTier(o) == if ParseInt32(text).Some? then ParseInt32(text).value else 100
  {
  }

  /** Sources are read from the annotations, or from the labels that used to carry them. */
  lemma SourcesOfOldLabels(o: Object)
    ensures
      var kind := "projectsveltos.io/reference-kind";
      var namespace, name := "projectsveltos.io/reference-namespace", "projectsveltos.io/reference-name";
      var from := if Lookup(o.annotations, kind) != "" then o.annotations else o.labels;
      GetReference(o).kind == Lookup(from, kind)
      && (kind in from ==>
           GetReference(o).namespace == Lookup(from, namespace) && GetReference(o).name == Lookup(from, name))
  {
  }

  /** What the next check finds of a deployed policy: its hash, and no conflict with the attempt itself. */
  lemma NextCheckFindsTheHash(current: Option<Object>, a: Attempt)
    requires ValidAttempt(a)
    ensures var o := Applied(current, Stamped(a));
      && Lookup(o.annotations, "projectsveltos.io/hash") == a.hash
      && !ReferenceConflict(o, a) && !OwnerConflict(o, a.profile)
      && o.labels["projectsveltos.io/reason"] == a.feature
  {
    StampReadsBack(current, a);
    StampsWin(current, a, POLICY_HASH);
    assert REASON in Stamped(a).labels;
  }

  /** The present owner, from the present source or from one of a lower reference tier: nobody is displaced. */
  predicate Continues(h: Holder, claim: Holder) {
    SameOwner(h, claim) && (claim.reference == h.reference || claim.referenceTier < h.referenceTier)
  }

  lemma DecideOnManaged(o: Object, a: Attempt)
    requires Managed(o)
    ensures Decide(Some(o), a).Deploy? <==> MayTake(HolderOf(o), ClaimOf(a))
    ensures Decide(Some(o), a).Deploy? ==>
      (Decide(Some(o), a).requeueOldOwner <==> !Continues(HolderOf(o), ClaimOf(a)))
  {
  }

  lemma DecideOnUnmanaged(o: Object, a: Attempt)
    requires Unmanaged(o)
    ensures Decide(Some(o), a) == Deploy(false)
  {
  }

  /** What older versions deployed carries an owner reference and no tier: its owner keeps it, and anyone else of a
      tier below the highest takes it, for the owner to be requeued. */
  lemma DecideOnOwnerReferences(o: Object, a: Attempt)
    requires HolderOf(o).name == "" && GetReference(o).kind == "" && HasSveltosOwnerReference(o.ownerReferences)
    requires "projectsveltos.io/owner-tier" !in o.annotations
    ensures Decide(Some(o), a) ==
      if OwnerReferences.Has(o.ownerReferences, a.profile.kind, a.profile.name) then Deploy(false)
      else if a.tier < 0x7FFF_FFFF then Deploy(true)
      else Refuse
  {
  }

  /** AddMetadata: extra labels and annotations are laid over the stamped policy. */
  function WithExtras(o: Object, extraLabels: map<string, string>, extraAnnotations: map<string, string>): Object {
    o.(labels := o.labels + extraLabels, annotations := o.annotations + extraAnnotations)
  }

  /** Extra annotations leave every stamp alone exactly when those that reuse a stamp's key repeat its value. */
  lemma ExtrasKeepStamps(a: Attempt, extraLabels: map<string, string>, extraAnnotations: map<string, string>)
    ensures (forall k :: k in Stamps(a) ==>
               Lookup(WithExtras(Stamped(a), extraLabels, extraAnnotations).annotations, k) == Stamps(a)[k])
       <==> (forall k :: k in Stamps(a) && k in extraAnnotations ==> extraAnnotations[k] == Stamps(a)[k])
  {
    var with := WithExtras(Stamped(a), extraLabels, extraAnnotations).annotations;
    forall k | k in Stamps(a)
      ensures Lookup(with, k) == if k in extraAnnotations then extraAnnotations[k] else Stamps(a)[k]
    {
      assert k in Stamped(a).annotations;
    }
  }
}
