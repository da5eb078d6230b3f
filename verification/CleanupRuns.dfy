/** Deploys, takeovers and cleanups by many profiles on one cluster, interleaved. */
module CleanupRuns {
  import opened Outcomes
  import opened Objects
  import opened Ownership
  import opened Cleanup

  /** What a client was shown when it listed an object. */
  datatype Listing = Listing(key: ResourceKey, stored: Stored)

  datatype World = World(objects: map<ResourceKey, Stored>, lastVersion: nat, listings: map<nat, Listing>)

  datatype Event =
    | Reconcile(key: ResourceKey, attempt: Attempt)
    | List(client: nat, key: ResourceKey)
    | Undeploy(client: nat, request: Request)
    | ForeignWrite(key: ResourceKey, obj: Object)

  /** From an empty cluster; what was there before Sveltos arrives by ForeignWrite. */
  datatype Run = Start | Then(before: Run, event: Event)

  function Content(w: World, key: ResourceKey): Option<Object> {
    if key in w.objects then Some(w.objects[key].obj) else None
  }

  function Put(w: World, key: ResourceKey, o: Object): World {
    w.(objects := w.objects[key := Stored(o, w.lastVersion + 1)], lastVersion := w.lastVersion + 1)
  }

  function Step(w: World, e: Event): World {
    match e
    case Reconcile(key, a) =>
      if Decide(Content(w, key), a).Refuse? then w
      else Put(w, key, Applied(Content(w, key), Stamped(a)))
    case List(client, key) =>
      if key !in w.objects then w
      else w.(listings := w.listings[client := Listing(key, w.objects[key])])
    case Undeploy(client, q) =>
      if client !in w.listings then w
      else
        var shown := w.listings[client];
        (match IntentOn(shown.key, shown.stored.obj, q)
         case Ignore => w
         case Delete => w.(objects := w.objects - {shown.key})
         case Release =>
           if Stale(w, shown) then w else Put(w, shown.key, Released(shown.stored.obj)))
    case ForeignWrite(key, o) => Put(w, key, o)
  }

  /** The object has been written or deleted since it was listed. */
  predicate Stale(w: World, shown: Listing) {
    shown.key !in w.objects || w.objects[shown.key].version != shown.stored.version
  }

  function After(r: Run): World {
    match r
    case Start => World(map[], 1, map[])
    case Then(b, e) => Step(After(b), e)
  }

  predicate Prefix(p: Run, r: Run) {
    p == r || (r.Then? && Prefix(p, r.before))
  }

  /** Versions never repeat, so a listing that is not stale shows the object as it is. */
  ghost predicate ListingsSound(w: World) {
    && (forall k :: k in w.objects ==> w.objects[k].version <= w.lastVersion)
    && (forall i :: i in w.listings ==>
         && w.listings[i].stored.version <= w.lastVersion
         && (!Stale(w, w.listings[i]) ==> w.objects[w.listings[i].key] == w.listings[i].stored))
  }

  lemma PutKeepsListings(w: World, key: ResourceKey, o: Object)
    requires ListingsSound(w)
    ensures ListingsSound(Put(w, key, o))
  {
  }

  lemma StepKeepsListings(w: World, e: Event)
    requires ListingsSound(w)
    ensures ListingsSound(Step(w, e))
  {
    match e
    case Reconcile(key, a) => PutKeepsListings(w, key, Applied(Content(w, key), Stamped(a)));
    case List(_, _) =>
    case Undeploy(client, q) =>
      if client in w.listings {
        PutKeepsListings(w, w.listings[client].key, Released(w.listings[client].stored.obj));
      }
    case ForeignWrite(key, o) => PutKeepsListings(w, key, o);
  }

  lemma {:induction false} ListingsAreSound(r: Run)
    ensures ListingsSound(After(r))
  {
    if r.Then? {
      ListingsAreSound(r.before);
      StepKeepsListings(After(r.before), r.event);
    }
  }

  /** The object is the caller's to withdraw. */
  predicate MayWithdraw(w: World, key: ResourceKey, q: Request) {
    key in w.objects && IsResourceOwner(w.objects[key].obj, q.profile) && CanDelete(key, q.currentPolicies)
  }

  /** A cleanup touches at most the object it was shown; unless it deletes from a stale listing, it
      touches it only if the calling profile owns it now and no longer deploys it. */
  lemma CleanupTouchesOnlyItsOwn(r: Run, client: nat, q: Request)
    requires client in After(r).listings
    requires !(Stale(After(r), After(r).listings[client]) && !q.leavePolicies)
    ensures var w, shown := After(r), After(r).listings[client];
      var w' := Step(w, Undeploy(client, q));
      && w'.objects - {shown.key} == w.objects - {shown.key}
      && (w'.objects != w.objects ==> MayWithdraw(w, shown.key, q))
  {
    ListingsAreSound(r);
  }

  /** r continues p, in which the client lists nothing else. */
  predicate KeepsListing(p: Run, r: Run, client: nat) {
    r == p || (r.Then? && KeepsListing(p, r.before, client) && !(r.event.List? && r.event.client == client))
  }

  lemma {:induction false} ListingStays(p: Run, r: Run, client: nat)
    requires KeepsListing(p, r, client) && client in After(p).listings
    ensures client in After(r).listings && After(r).listings[client] == After(p).listings[client]
  {
    if r != p {
      ListingStays(p, r.before, client);
    }
  }

  /** An object another profile has stamped. */
  function OthersObject(profile: Profile): Object {
    Object(map[OWNER_KIND := profile.kind + "'", OWNER_NAME := profile.name], map[], [], "")
  }

  /** When a cleanup may take what is not its profile's, exactly: the API call names the object, not the version
      that was judged, so it can be used against a later owner if and only if the listing calls for a deletion.
      A release can never be. */
  lemma CleanupCanHitOthersExactlyWhenDeleting(p: Run, client: nat, q: Request)
    requires client in After(p).listings
    ensures
      var shown := After(p).listings[client];
      (exists r :: KeepsListing(p, r, client)
                   && Step(After(r), Undeploy(client, q)).objects != After(r).objects
                   && !MayWithdraw(After(r), shown.key, q))
      <==> IntentOn(shown.key, shown.stored.obj, q).Delete?
  {
    var shown := After(p).listings[client];
    if IntentOn(shown.key, shown.stored.obj, q).Delete? {
      var r := Then(p, ForeignWrite(shown.key, OthersObject(q.profile)));
      assert KeepsListing(p, p, client) && KeepsListing(p, r, client);
      ListingStays(p, r, client);
      assert After(r).objects[shown.key].obj == OthersObject(q.profile);
      assert !IsResourceOwner(OthersObject(q.profile), q.profile);
      DeletionRemoves(After(r), client, q, shown.key);
    } else {
      forall r | KeepsListing(p, r, client) && Step(After(r), Undeploy(client, q)).objects != After(r).objects
        ensures MayWithdraw(After(r), shown.key, q)
      {
        ListingStays(p, r, client);
        ListingsAreSound(r);
      }
    }
  }

  /** A profile owns the object through a full stamp. */
  predicate HeldBy(w: World, key: ResourceKey, h: Holder) {
    && key in w.objects && Managed(w.objects[key].obj)
    && SameOwner(HolderOf(w.objects[key].obj), h) && HolderOf(w.objects[key].obj).tier == h.tier
  }

  /** The steps that may cost h the object: a write from outside, a deploy from a lower tier, its own
      profile's cleanup, and a deletion decided on a stale listing. */
  predicate Threatens(w: World, e: Event, key: ResourceKey, h: Holder) {
    match e
    case Reconcile(k, a) =>
      k == key && !(ValidAttempt(a) &&
        if SameOwner(ClaimOf(a), h) then a.tier == h.tier else a.tier >= h.tier)
    case List(_, _) => false
    case Undeploy(client, q) =>
      && client in w.listings && w.listings[client].key == key
      && if Stale(w, w.listings[client]) then IntentOn(key, w.listings[client].stored.obj, q).Delete?
         else q.profile.kind == h.kind && q.profile.name == h.name && CanDelete(key, q.currentPolicies)
    case ForeignWrite(k, _) => k == key
  }

  predicate Untouched(p: Run, r: Run, key: ResourceKey, h: Holder)
    requires Prefix(p, r)
  {
    p == r || (Untouched(p, r.before, key, h) && !Threatens(After(r.before), r.event, key, h))
  }

  lemma OwnerByStamp(o: Object, profile: Profile, h: Holder)
    requires SameOwner(HolderOf(o), h) && h.kind != ""
    ensures IsResourceOwner(o, profile) <==> profile.kind == h.kind && profile.name == h.name
  {
  }

  lemma DeployKeepsOwner(w: World, key: ResourceKey, a: Attempt, h: Holder)
    requires HeldBy(w, key, h) && !Threatens(w, Reconcile(key, a), key, h)
    ensures HeldBy(Step(w, Reconcile(key, a)), key, h)
  {
    var o := w.objects[key].obj;
    DecideOnManaged(o, a);
    StampReadsBack(Some(o), a);
  }

  lemma UndeployKeepsOwner(w: World, client: nat, q: Request, key: ResourceKey, h: Holder)
    requires ListingsSound(w) && h.kind != ""
    requires HeldBy(w, key, h) && !Threatens(w, Undeploy(client, q), key, h)
    ensures HeldBy(Step(w, Undeploy(client, q)), key, h)
  {
    OwnerByStamp(w.objects[key].obj, q.profile, h);
  }

  /** Cleanup is safe over whole runs: once a profile owns an object, nothing that profiles of the same or a
      higher tier deploy, and no cleanup by a profile it displaced, takes the object away from it. */
  lemma {:induction false} OwnedObjectsStay(p: Run, r: Run, key: ResourceKey, h: Holder)
    requires Prefix(p, r) && HeldBy(After(p), key, h) && h.kind != ""
    requires Untouched(p, r, key, h)
    ensures HeldBy(After(r), key, h)
  {
    if p != r {
      OwnedObjectsStay(p, r.before, key, h);
      ListingsAreSound(r.before);
      var w := After(r.before);
      match r.event
      case Reconcile(k, a) =>
        if k == key {
          DeployKeepsOwner(w, key, a, h);
        }
      case Undeploy(client, q) => UndeployKeepsOwner(w, client, q, key, h);
      case _ =>
    }
  }

  function DeployListTakeover(key: ResourceKey, loser: Attempt, winner: Attempt): Run {
    Then(Then(Then(Start, Reconcile(key, loser)), List(0, key)), Reconcile(key, winner))
  }

  lemma AfterTakeover(key: ResourceKey, loser: Attempt, winner: Attempt)
    requires ValidAttempt(loser) && ValidAttempt(winner) && winner.tier < loser.tier
    ensures var w := After(DeployListTakeover(key, loser, winner));
      && key in w.objects && HolderOf(w.objects[key].obj) == ClaimOf(winner)
      && w.listings == map[0 := Listing(key, Stored(Applied(None, Stamped(loser)), 2))] && w.objects[key].version == 3
  {
    StampReadsBack(None, loser);
    var first := Applied(None, Stamped(loser));
    var r1 := Then(Start, Reconcile(key, loser));
    assert After(r1) == World(map[key := Stored(first, 2)], 2, map[]);
    var r2 := Then(r1, List(0, key));
    assert After(r2) == World(map[key := Stored(first, 2)], 2, map[0 := Listing(key, Stored(first, 2))]);
    DecideOnManaged(first, winner);
    StampReadsBack(Some(first), winner);
  }

  /** The hole a stale deletion leaves: list, be displaced by a lower tier, clean up, and the new owner's object is
      gone. */
  lemma DisplacedOwnerCanStillDelete(key: ResourceKey, loser: Attempt, winner: Attempt, q: Request)
    requires ValidAttempt(loser) && ValidAttempt(winner) && winner.tier < loser.tier && loser.profile.kind != ""
    requires q.profile == loser.profile && q.skipKey == "" && !q.leavePolicies && CanDelete(key, q.currentPolicies)
    ensures var r := DeployListTakeover(key, loser, winner);
      && key in After(r).objects && HolderOf(After(r).objects[key].obj) == ClaimOf(winner)
      && key !in After(Then(r, Undeploy(0, q))).objects
  {
    var w := After(DeployListTakeover(key, loser, winner));
    AfterTakeover(key, loser, winner);
    OwnStampIsWithdrawn(key, loser, q);
    DeletionRemoves(w, 0, q, key);
  }

  lemma DeletionRemoves(w: World, client: nat, q: Request, key: ResourceKey)
    requires client in w.listings && w.listings[client].key == key
    requires IntentOn(key, w.listings[client].stored.obj, q).Delete?
    ensures key !in Step(w, Undeploy(client, q)).objects
  {
  }

  lemma OwnStampIsWithdrawn(key: ResourceKey, a: Attempt, q: Request)
    requires ValidAttempt(a) && a.profile.kind != ""
    requires q.profile == a.profile && q.skipKey == "" && !q.leavePolicies && CanDelete(key, q.currentPolicies)
    ensures IntentOn(key, Applied(None, Stamped(a)), q) == Delete
  {
    StampReadsBack(None, a);
    StampsWin(None, a, REFERENCE_NAME);
    OwnerByStamp(Applied(None, Stamped(a)), q.profile, ClaimOf(a));
  }
}
