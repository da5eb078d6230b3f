/**
 * Checks and applies of many profiles on one object, interleaved. The API server compares the
 * resourceVersion a write carries with the stored one, as the Kubernetes API Conventions prescribe
 * ("Concurrency Control and Consistency"), and changes it with every write that changes the object.
 */
module Interleaving {
  import opened Outcomes
  import opened Objects
  import opened Ownership

  /** What a client will send, encoded once: the stamped policy with the resourceVersion its check saw.
      No version means the write is unconditional. For a CustomResourceDefinition the version the object had
      when it was fetched again takes the place of the checked one. */
  datatype Pending = Pending(attempt: Attempt, version: Option<nat>, fetched: Option<Option<nat>>)

  datatype Cluster = Cluster(stored: Option<Stored>, lastVersion: nat, pending: map<nat, Pending>)

  datatype Event =
    | Check(client: nat, attempt: Attempt)
    | Apply(client: nat)
    | Refetch(client: nat)
    | Replace(client: nat)
    | ForeignWrite(obj: Object)

  datatype Run = Start(initial: Option<Object>) | Then(before: Run, event: Event)

  function Content(c: Cluster): Option<Object> {
    match c.stored
    case None => None
    case Some(s) => Some(s.obj)
  }

  /** Store a new value; a write that changes nothing leaves the resourceVersion alone. */
  function Written(c: Cluster, o: Object): Cluster {
    if Content(c) == Some(o) then c
    else c.(stored := Some(Stored(o, c.lastVersion + 1)), lastVersion := c.lastVersion + 1)
  }

  /** The write carries no version, or the stored one. */
  predicate Accepted(c: Cluster, p: Pending) {
    p.version.None? || (c.stored.Some? && c.stored.value.version == p.version.value)
  }

  predicate Succeeds(c: Cluster, e: Event) {
    e.Apply? && e.client in c.pending && Accepted(c, c.pending[e.client])
  }

  function VersionNow(c: Cluster): Option<nat> {
    if c.stored.Some? then Some(c.stored.value.version) else None
  }

  /** updateCRD's write: a creation if nothing was found, an update under the fetched version otherwise. */
  predicate Replaces(c: Cluster, e: Event) {
    e.Replace? && e.client in c.pending && c.pending[e.client].fetched == Some(VersionNow(c))
  }

  /** A rejected apply changes nothing, and the client may send the very same data again. */
  function Step(c: Cluster, e: Event): Cluster {
    match e
    case Check(client, a) =>
      if Decide(Content(c), a).Refuse? then c.(pending := c.pending - {client})
      else
        c.(pending := c.pending[client := Pending(a, VersionNow(c), None)])
    case Apply(client) =>
      if !Succeeds(c, e) then c
      else
        Written(c, Applied(Content(c), Stamped(c.pending[client].attempt))).(pending := c.pending - {client})
    case Refetch(client) =>
      if client !in c.pending then c
      else c.(pending := c.pending[client := c.pending[client].(fetched := Some(VersionNow(c)))])
    case Replace(client) =>
      if !Replaces(c, e) then c
      else Written(c, Stamped(c.pending[client].attempt)).(pending := c.pending - {client})
    case ForeignWrite(o) => Written(c, o)
  }

  function After(r: Run): Cluster {
    match r
    case Start(None) => Cluster(None, 0, map[])
    case Start(Some(o)) => Cluster(Some(Stored(o, 1)), 1, map[])
    case Then(b, e) => Step(After(b), e)
  }

  /** A run with each check-and-apply done at once. */
  datatype Atomic = Do(attempt: Attempt) | Write(obj: Object)

  /** Checks and rejected applies dropped, each successful apply at its own place. The replacement of a
      CustomResourceDefinition is a write like any other. */
  function Linearised(r: Run): seq<Atomic> {
    match r
    case Start(_) => []
    case Then(b, e) =>
      if Succeeds(After(b), e) then Linearised(b) + [Do(After(b).pending[e.client].attempt)]
      else if Replaces(After(b), e) then Linearised(b) + [Write(Stamped(After(b).pending[e.client].attempt))]
      else if e.ForeignWrite? then Linearised(b) + [Write(e.obj)]
      else Linearised(b)
  }

  function Replay(before: Option<Object>, step: Atomic): Option<Object> {
    match step
    case Do(a) => Attempted(before, a)
    case Write(o) => Some(o)
  }

  function Replayed(initial: Option<Object>, steps: seq<Atomic>): Option<Object> {
    if steps == [] then initial
    else Replay(Replayed(initial, steps[..|steps| - 1]), steps[|steps| - 1])
  }

  function Initial(r: Run): Option<Object> {
    match r
    case Start(o) => o
    case Then(b, _) => Initial(b)
  }

  /** The object existed at every check. */
  predicate SeenAtEveryCheck(r: Run) {
    match r
    case Start(_) => true
    case Then(b, e) => SeenAtEveryCheck(b) && (e.Check? ==> After(b).stored.Some?)
  }

  /** A pending version is one the object has had; while it still has it, the check's answer still stands. */
  ghost predicate PendingSound(c: Cluster) {
    && (c.stored.Some? ==> c.stored.value.version <= c.lastVersion)
    && (forall i :: i in c.pending && c.pending[i].version.Some? ==>
         && c.pending[i].version.value <= c.lastVersion
         && (Accepted(c, c.pending[i]) ==> Decide(Content(c), c.pending[i].attempt).Deploy?))
  }

  lemma WrittenKeepsPending(c: Cluster, o: Object)
    requires PendingSound(c)
    ensures PendingSound(Written(c, o))
  {
  }

  lemma {:induction false} PendingIsSound(r: Run)
    ensures PendingSound(After(r))
  {
    if r.Then? {
      PendingIsSound(r.before);
      var c := After(r.before);
      if Succeeds(c, r.event) {
        WrittenKeepsPending(c, Applied(Content(c), Stamped(c.pending[r.event.client].attempt)));
      } else if Replaces(c, r.event) {
        WrittenKeepsPending(c, Stamped(c.pending[r.event.client].attempt));
      } else if r.event.ForeignWrite? {
        WrittenKeepsPending(c, r.event.obj);
      }
    }
  }

  lemma {:induction false} NoUnconditionalWrites(r: Run)
    requires SeenAtEveryCheck(r)
    ensures forall i :: i in After(r).pending ==> After(r).pending[i].version.Some?
  {
    if r.Then? {
      NoUnconditionalWrites(r.before);
    }
  }

  /** A conditional apply that succeeds is one the tiers entitle its profile to at that very moment. */
  lemma ConditionalApplyIsEntitled(r: Run, client: nat)
    requires Succeeds(After(r), Apply(client)) && After(r).pending[client].version.Some?
    ensures Decide(Content(After(r)), After(r).pending[client].attempt).Deploy?
  {
    PendingIsSound(r);
  }

  lemma ReplayedLast(initial: Option<Object>, steps: seq<Atomic>, last: Atomic)
    ensures Replayed(initial, steps + [last]) == Replay(Replayed(initial, steps), last)
  {
    assert (steps + [last])[..|steps|] == steps;
  }

  /** An accepted apply has the effect of check-and-apply at once. */
  lemma AcceptedApplyIsAtomic(r: Run, client: nat)
    requires SeenAtEveryCheck(r) && Succeeds(After(r), Apply(client))
    ensures Content(After(Then(r, Apply(client)))) == Attempted(Content(After(r)), After(r).pending[client].attempt)
  {
    NoUnconditionalWrites(r);
    ConditionalApplyIsEntitled(r, client);
  }

  lemma ReplayedStep(r: Run, e: Event, step: Atomic)
    requires Linearised(Then(r, e)) == Linearised(r) + [step]
    requires Content(After(r)) == Replayed(Initial(r), Linearised(r))
    requires Content(After(Then(r, e))) == Replay(Content(After(r)), step)
    ensures Content(After(Then(r, e))) == Replayed(Initial(Then(r, e)), Linearised(Then(r, e)))
  {
    ReplayedLast(Initial(r), Linearised(r), step);
  }

  /** Checks, refetches and rejected writes leave the object alone. */
  lemma OtherStepsAreSilent(r: Run, e: Event)
    requires !Succeeds(After(r), e) && !Replaces(After(r), e) && !e.ForeignWrite?
    ensures Content(After(Then(r, e))) == Content(After(r)) && Linearised(Then(r, e)) == Linearised(r)
  {
  }

  lemma ReplaceWrites(r: Run, client: nat)
    requires Replaces(After(r), Replace(client))
    ensures Content(After(Then(r, Replace(client)))) == Some(Stamped(After(r).pending[client].attempt))
  {
  }

  lemma ForeignWriteWrites(r: Run, o: Object)
    ensures Content(After(Then(r, ForeignWrite(o)))) == Some(o)
  {
  }

  /** Optimistic locking: when every check found the object, any interleaving leaves the object exactly as if
      each successful apply had been checked and applied at once, at the point where it was accepted. */
  lemma {:induction false} InterleavingIsAtomic(r: Run)
    requires SeenAtEveryCheck(r)
    ensures Content(After(r)) == Replayed(Initial(r), Linearised(r))
  {
    if r.Then? {
      var b, e := r.before, r.event;
      InterleavingIsAtomic(b);
      if Succeeds(After(b), e) {
        AcceptedApplyIsAtomic(b, e.client);
        ReplayedStep(b, e, Do(After(b).pending[e.client].attempt));
      } else if Replaces(After(b), e) {
        ReplaceWrites(b, e.client);
        ReplayedStep(b, e, Write(Stamped(After(b).pending[e.client].attempt)));
      } else if e.ForeignWrite? {
        ForeignWriteWrites(b, e.obj);
        ReplayedStep(b, e, Write(e.obj));
      } else {
        OtherStepsAreSilent(b, e);
      }
    }
  }

  /** r continues p, in which the client neither checks nor writes. It may fetch the object again. */
  predicate LeavesPending(p: Run, r: Run, client: nat) {
    r == p || (r.Then? && LeavesPending(p, r.before, client)
               && !((r.event.Check? || r.event.Apply? || r.event.Replace?) && r.event.client == client))
  }

  lemma {:induction false} PendingStays(p: Run, r: Run, client: nat)
    requires LeavesPending(p, r, client) && client in After(p).pending
    ensures client in After(r).pending
    ensures After(r).pending[client].attempt == After(p).pending[client].attempt
    ensures After(r).pending[client].version == After(p).pending[client].version
  {
    if r != p {
      PendingStays(p, r.before, client);
    }
  }

  /** Another profile, of the lowest tier there is. */
  function Rival(a: Attempt): Attempt {
    a.(profile := a.profile.(name := a.profile.name + "'"), tier := 1)
  }

  lemma RivalRefuses(a: Attempt)
    requires ValidAttempt(a)
    ensures Decide(Some(Stamped(Rival(a))), a).Refuse?
  {
    assert ValidAttempt(Rival(a));
    StampReadsBack(None, Rival(a));
    DecideOnManaged(Stamped(Rival(a)), a);
  }

  /** The lock's exact condition, known to the client before it sends: what it is about to send can be accepted
      for an object the tiers deny it if and only if its check found no object, and so gave it no version. */
  lemma LockProtectsExactlyWithAVersion(p: Run, client: nat)
    requires client in After(p).pending && ValidAttempt(After(p).pending[client].attempt)
    ensures
      (exists r :: LeavesPending(p, r, client) && Succeeds(After(r), Apply(client))
                   && Decide(Content(After(r)), After(p).pending[client].attempt).Refuse?)
      <==> After(p).pending[client].version.None?
  {
    var sent := After(p).pending[client];
    if sent.version.None? {
      var taken := Then(p, ForeignWrite(Stamped(Rival(sent.attempt))));
      RivalRefuses(sent.attempt);
      ForeignWriteWrites(p, Stamped(Rival(sent.attempt)));
      assert LeavesPending(p, p, client) && LeavesPending(p, taken, client);
      PendingStays(p, taken, client);
      assert Succeeds(After(taken), Apply(client));
    } else {
      forall r | LeavesPending(p, r, client) && Succeeds(After(r), Apply(client))
        ensures Decide(Content(After(r)), sent.attempt).Deploy?
      {
        PendingStays(p, r, client);
        ConditionalApplyIsEntitled(r, client);
      }
    }
  }

  /** For a CustomResourceDefinition no check protects: whatever version it saw, the definition can go to
      another profile and be fetched again, and the replacement is accepted against the tiers. */
  lemma RefetchDefeatsEveryCheck(p: Run, client: nat)
    requires client in After(p).pending && ValidAttempt(After(p).pending[client].attempt)
    ensures exists r :: LeavesPending(p, r, client) && Replaces(After(r), Replace(client))
              && Decide(Content(After(r)), After(p).pending[client].attempt).Refuse?
  {
    var a := After(p).pending[client].attempt;
    var taken := Then(p, ForeignWrite(Stamped(Rival(a))));
    var fetched := Then(taken, Refetch(client));
    RivalRefuses(a);
    ForeignWriteWrites(p, Stamped(Rival(a)));
    assert LeavesPending(p, p, client) && LeavesPending(p, taken, client) && LeavesPending(p, fetched, client);
    PendingStays(p, taken, client);
    assert Content(After(fetched)) == Content(After(taken)) && Replaces(After(fetched), Replace(client));
  }

  /** What the client's latest refetch returned. */
  function SeenAtRefetch(r: Run, client: nat): Option<Object> {
    match r
    case Start(_) => None
    case Then(b, e) => if e == Refetch(client) then Content(After(b)) else SeenAtRefetch(b, client)
  }

  ghost predicate FetchedSound(r: Run, client: nat) {
    var c := After(r);
    && (c.stored.Some? ==> c.stored.value.version <= c.lastVersion)
    && (client in c.pending && c.pending[client].fetched.Some? ==>
         && (c.pending[client].fetched.value.Some? ==> c.pending[client].fetched.value.value <= c.lastVersion)
         && (c.pending[client].fetched.value == VersionNow(c) ==> Content(c) == SeenAtRefetch(r, client)))
  }

  lemma {:induction false} FetchedIsSound(r: Run, client: nat)
    ensures FetchedSound(r, client)
  {
    if r.Then? {
      FetchedIsSound(r.before, client);
    }
  }

  /** What the refetched version does protect: a replacement overwrites what the refetch returned, nothing newer. */
  lemma ReplaceOverwritesWhatWasFetched(r: Run, client: nat)
    requires Replaces(After(r), Replace(client))
    ensures Content(After(r)) == SeenAtRefetch(r, client)
  {
    FetchedIsSound(r, client);
  }

  function BothChecked(a: Attempt, b: Attempt): Run {
    Then(Then(Start(None), Check(0, a)), Check(1, b))
  }

  lemma AfterBothChecks(a: Attempt, b: Attempt)
    ensures After(BothChecked(a, b)) == Cluster(None, 0, map[0 := Pending(a, None, None), 1 := Pending(b, None, None)])
    ensures Linearised(BothChecked(a, b)) == [] && Initial(BothChecked(a, b)) == None
  {
    var r0: Run := Start(None);
    assert After(r0) == Cluster(None, 0, map[]) && Linearised(r0) == [] && Initial(r0) == None;
    var r1 := Then(r0, Check(0, a));
    assert After(r1) == Cluster(None, 0, map[0 := Pending(a, None, None)]);
    assert Linearised(r1) == [] && Initial(r1) == None;
  }

  lemma AfterBothApplies(a: Attempt, b: Attempt)
    ensures var r := Then(Then(BothChecked(a, b), Apply(0)), Apply(1));
      && Linearised(r) == [Do(a), Do(b)]
      && var first := Applied(None, Stamped(a));
      && Content(After(r)) == Some(Applied(Some(first), Stamped(b)))
  {
    AfterBothChecks(a, b);
    var r := Then(BothChecked(a, b), Apply(0));
    assert Succeeds(After(BothChecked(a, b)), Apply(0));
    assert Linearised(r) == [Do(a)];
    assert After(r).pending == map[1 := Pending(b, None, None)];
    assert Succeeds(After(r), Apply(1));
  }

  /** Two profiles that both check before the object exists: the last to apply gets it, even though
      done at once its attempt would have been refused. */
  lemma AbsentChecksLoseTheLock(a: Attempt, b: Attempt)
    requires ValidAttempt(a) && ValidAttempt(b)
    requires !SameOwner(ClaimOf(a), ClaimOf(b)) && a.tier <= b.tier
    ensures var r := Then(Then(BothChecked(a, b), Apply(0)), Apply(1));
      && Content(After(r)).Some? && HolderOf(Content(After(r)).value) == ClaimOf(b)
      && Replayed(None, Linearised(r)).Some? && HolderOf(Replayed(None, Linearised(r)).value) == ClaimOf(a)
  {
    AfterBothApplies(a, b);
    var first := Applied(None, Stamped(a));
    StampReadsBack(None, a);
    StampReadsBack(Some(first), b);
    DecideOnManaged(first, b);
    ReplayedLast(None, [], Do(a));
    ReplayedLast(None, [Do(a)], Do(b));
    assert [] + [Do(a)] == [Do(a)] && [Do(a)] + [Do(b)] == [Do(a), Do(b)];
  }
}
