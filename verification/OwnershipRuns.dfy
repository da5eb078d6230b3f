/** Sequences of attempts on one object: who ends up owning it, and how often it can change hands. */
module OwnershipRuns {
  import opened Outcomes
  import opened Objects
  import opened Ownership

  /** A profile has one tier, and one reference tier for each source it deploys from. */
  ghost predicate FixedTiers(attempts: seq<Attempt>) {
    forall i, j :: 0 <= i < |attempts| && 0 <= j < |attempts| ==> Agree(ClaimOf(attempts[i]), ClaimOf(attempts[j]))
  }

  predicate Agree(h: Holder, g: Holder) {
    && (SameOwner(h, g) ==> h.tier == g.tier)
    && (SameOwner(h, g) && h.reference == g.reference ==> h.referenceTier == g.referenceTier)
  }

  ghost predicate AllValid(attempts: seq<Attempt>) {
    forall i :: 0 <= i < |attempts| ==> ValidAttempt(attempts[i])
  }

  function ObjectAfter(initial: Option<Object>, attempts: seq<Attempt>): Option<Object> {
    if attempts == [] then initial
    else Attempted(ObjectAfter(initial, attempts[..|attempts| - 1]), attempts[|attempts| - 1])
  }

  /** The same in ownership terms only. */
  function HolderAfter(claims: seq<Holder>): Holder
    requires claims != []
  {
    var last := claims[|claims| - 1];
    if |claims| == 1 then last
    else
      var h := HolderAfter(claims[..|claims| - 1]);
      if MayTake(h, last) then last else h
  }

  function Claims(attempts: seq<Attempt>): (claims: seq<Holder>)
    ensures |claims| == |attempts|
  {
    seq(|attempts|, i requires 0 <= i < |attempts| => ClaimOf(attempts[i]))
  }

  /** Annotation text, decimal tiers and label fallback never get in the way: the object's stamps are
      those of the holder that the claims alone determine. */
  lemma {:induction false} ObjectRefinesHolder(initial: Option<Object>, attempts: seq<Attempt>)
    requires initial.None? || Unmanaged(initial.value)
    requires attempts != [] && AllValid(attempts)
    ensures ObjectAfter(initial, attempts).Some? && Managed(ObjectAfter(initial, attempts).value)
    ensures HolderOf(ObjectAfter(initial, attempts).value) == HolderAfter(Claims(attempts))
  {
    var n := |attempts| - 1;
    var before, a := ObjectAfter(initial, attempts[..n]), attempts[n];
    StampReadsBack(before, a);
    assert Claims(attempts)[..n] == Claims(attempts[..n]);
    if n == 0 {
      assert attempts[..0] == [];
      if initial.Some? {
        DecideOnUnmanaged(initial.value, a);
      }
    } else {
      ObjectRefinesHolder(initial, attempts[..n]);
      DecideOnManaged(before.value, a);
    }
  }

  ghost predicate Fixed(claims: seq<Holder>) {
    forall i, j :: 0 <= i < |claims| && 0 <= j < |claims| ==> Agree(claims[i], claims[j])
  }

  /** Claim i is the first of the lowest tier. */
  ghost predicate FirstOfLowestTier(claims: seq<Holder>, i: nat) {
    && i < |claims|
    && (forall j :: 0 <= j < |claims| ==> claims[i].tier <= claims[j].tier)
    && (forall j :: 0 <= j < i ==> claims[i].tier < claims[j].tier)
  }

  /** Claim i is the owner's first of its lowest reference tier. */
  ghost predicate FirstOfLowestReference(claims: seq<Holder>, owner: Holder, i: nat) {
    && i < |claims| && SameOwner(claims[i], owner)
    && (forall j :: 0 <= j < |claims| && SameOwner(claims[j], owner) ==>
         claims[i].referenceTier <= claims[j].referenceTier)
    && (forall j :: 0 <= j < i && SameOwner(claims[j], owner) ==>
         claims[i].referenceTier < claims[j].referenceTier)
  }

  function WonBy(owner: Holder, source: Holder): Holder {
    owner.(reference := source.reference, referenceTier := source.referenceTier)
  }

  lemma {:induction false} HolderIsWinner(claims: seq<Holder>) returns (i: nat, j: nat)
    requires claims != [] && Fixed(claims)
    ensures FirstOfLowestTier(claims, i) && FirstOfLowestReference(claims, claims[i], j)
    ensures HolderAfter(claims) == WonBy(claims[i], claims[j])
  {
    var n := |claims| - 1;
    if n == 0 {
      i, j := 0, 0;
    } else {
      var before, claim := claims[..n], claims[n];
      i, j := HolderIsWinner(before);
      assert Agree(claims[i], claim) && Agree(claims[j], claim);
      if claim.tier < claims[i].tier {
        FirstAttemptOfNewOwner(claims, i);
        i, j := n, n;
      } else if SameOwner(claim, claims[i]) && claim.referenceTier < claims[j].referenceTier {
        j := n;
      }
    }
  }

  /** A claim of a tier below all earlier ones is its owner's first. */
  lemma FirstAttemptOfNewOwner(claims: seq<Holder>, i: nat)
    requires claims != [] && Fixed(claims) && FirstOfLowestTier(claims[..|claims| - 1], i)
    requires claims[|claims| - 1].tier < claims[i].tier
    ensures forall j :: 0 <= j < |claims| - 1 ==> !SameOwner(claims[j], claims[|claims| - 1])
  {
    var n := |claims| - 1;
    forall j | 0 <= j < n ensures !SameOwner(claims[j], claims[n]) {
      assert claims[..n][j] == claims[j] && Agree(claims[j], claims[n]);
    }
  }

  /** Whatever the order in which profiles try, the object ends with the profile of the earliest attempt of the
      lowest tier, deployed from that profile's earliest source of its lowest reference tier. */
  lemma LowestTierWins(initial: Option<Object>, attempts: seq<Attempt>) returns (i: nat, j: nat)
    requires initial.None? || Unmanaged(initial.value)
    requires attempts != [] && AllValid(attempts) && FixedTiers(attempts)
    ensures FirstOfLowestTier(Claims(attempts), i)
    ensures FirstOfLowestReference(Claims(attempts), ClaimOf(attempts[i]), j)
    ensures ObjectAfter(initial, attempts).Some?
    ensures HolderOf(ObjectAfter(initial, attempts).value) == WonBy(ClaimOf(attempts[i]), ClaimOf(attempts[j]))
  {
    ObjectRefinesHolder(initial, attempts);
    i, j := HolderIsWinner(Claims(attempts));
  }

  /** Over any sequence of attempts, an accepted attempt asks for the old owner to be requeued if and only if it
      displaces it: another owner comes in, or another source of no lower reference tier. */
  lemma DisplacedOwnersAreRequeued(initial: Option<Object>, attempts: seq<Attempt>, a: Attempt)
    requires initial.None? || Unmanaged(initial.value)
    requires attempts != [] && AllValid(attempts) && ValidAttempt(a)
    requires Decide(ObjectAfter(initial, attempts), a).Deploy?
    ensures
      var before, h, c := ObjectAfter(initial, attempts), HolderAfter(Claims(attempts)), ClaimOf(a);
      && (Decide(before, a).requeueOldOwner <==>
           !(h.kind == c.kind && h.name == c.name && (c.reference == h.reference || c.referenceTier < h.referenceTier)))
      && ObjectAfter(initial, attempts + [a]).Some? && HolderOf(ObjectAfter(initial, attempts + [a]).value) == c
  {
    ObjectRefinesHolder(initial, attempts);
    DecideOnManaged(ObjectAfter(initial, attempts).value, a);
    StampReadsBack(ObjectAfter(initial, attempts), a);
    assert (attempts + [a])[..|attempts|] == attempts;
  }

  /** There is only one such winner. */
  lemma WinnerIsUnique(claims: seq<Holder>, i: nat, j: nat, i': nat, j': nat)
    requires FirstOfLowestTier(claims, i) && FirstOfLowestReference(claims, claims[i], j)
    requires FirstOfLowestTier(claims, i') && FirstOfLowestReference(claims, claims[i'], j')
    ensures i == i' && j == j'
  {
    assert i <= i' && i' <= i;
    assert j <= j' && j' <= j;
  }

  /** (tier, reference tier), lower is stronger. */
  predicate Stronger(h: Holder, g: Holder) {
    h.tier < g.tier || (h.tier == g.tier && h.referenceTier < g.referenceTier)
  }

  predicate SameHands(h: Holder, g: Holder) {
    SameOwner(h, g) && h.reference == g.reference
  }

  /** Any change of owner or source is to a strictly stronger pair of tiers. */
  lemma HandoverIsUpward(h: Holder, claim: Holder)
    requires Agree(h, claim) && MayTake(h, claim)
    ensures SameHands(h, claim) || Stronger(claim, h)
  {
  }

  lemma {:induction false} HolderIsAClaim(claims: seq<Holder>) returns (i: nat)
    requires claims != []
    ensures i < |claims| && HolderAfter(claims) == claims[i]
  {
    var n := |claims| - 1;
    if n == 0 || MayTake(HolderAfter(claims[..n]), claims[n]) {
      i := n;
    } else {
      i := HolderIsAClaim(claims[..n]);
    }
  }

  /** From one point of a run to a later one the holder is the same or stronger. */
  lemma {:induction false} HolderOnlyGetsStronger(claims: seq<Holder>, m: nat)
    requires 0 < m <= |claims| && Fixed(claims)
    ensures HolderAfter(claims) == HolderAfter(claims[..m]) || Stronger(HolderAfter(claims), HolderAfter(claims[..m]))
  {
    var n := |claims| - 1;
    if m == |claims| {
      assert claims[..m] == claims;
    } else {
      HolderOnlyGetsStronger(claims[..n], m);
      assert claims[..n][..m] == claims[..m];
      var i := HolderIsAClaim(claims[..n]);
      assert Agree(claims[i], claims[n]);
      if MayTake(HolderAfter(claims[..n]), claims[n]) {
        HandoverIsUpward(HolderAfter(claims[..n]), claims[n]);
      }
    }
  }

  /** No ping-pong: an owner and source that lost the object never get it back. */
  lemma NeverReturns(claims: seq<Holder>, m: nat, n: nat)
    requires 0 < m <= n <= |claims| && Fixed(claims)
    requires SameHands(HolderAfter(claims[..m]), HolderAfter(claims))
    ensures HolderAfter(claims[..n]) == HolderAfter(claims)
  {
    assert claims[..n][..m] == claims[..m];
    HolderOnlyGetsStronger(claims[..n], m);
    HolderOnlyGetsStronger(claims, n);
    var i := HolderIsAClaim(claims[..m]);
    var j := HolderIsAClaim(claims);
    assert Agree(claims[i], claims[j]);
  }

  /** How often the owner or the source changed. */
  function Handovers(claims: seq<Holder>): nat
    requires claims != []
  {
    var n := |claims| - 1;
    if n == 0 then 0
    else Handovers(claims[..n]) + if SameHands(HolderAfter(claims), HolderAfter(claims[..n])) then 0 else 1
  }

  function HandsOf(h: Holder): (string, string, Reference) {
    (h.kind, h.name, h.reference)
  }

  /** Everyone who ever held the object. */
  function PastHands(claims: seq<Holder>): set<(string, string, Reference)>
    requires claims != []
  {
    var n := |claims| - 1;
    var now := {HandsOf(HolderAfter(claims))};
    if n == 0 then now else PastHands(claims[..n]) + now
  }

  /** Everyone who ever tried. */
  function AllHands(claims: seq<Holder>): set<(string, string, Reference)> {
    set i | 0 <= i < |claims| :: HandsOf(claims[i])
  }

  lemma {:induction false} PastHandsMember(claims: seq<Holder>, hands: (string, string, Reference)) returns (m: nat)
    requires claims != [] && hands in PastHands(claims)
    ensures 0 < m <= |claims| && HandsOf(HolderAfter(claims[..m])) == hands
  {
    var n := |claims| - 1;
    if hands == HandsOf(HolderAfter(claims)) {
      m := |claims|;
      assert claims[..m] == claims;
    } else {
      m := PastHandsMember(claims[..n], hands);
      assert claims[..n][..m] == claims[..m];
    }
  }

  lemma PastHandsTried(claims: seq<Holder>)
    requires claims != []
    ensures PastHands(claims) <= AllHands(claims)
  {
    forall hands | hands in PastHands(claims) ensures hands in AllHands(claims) {
      var m := PastHandsMember(claims, hands);
      var i := HolderIsAClaim(claims[..m]);
      assert claims[..m][i] == claims[i];
    }
  }

  /** A new hand is one the object was never in before. */
  lemma NewHandsAreNew(claims: seq<Holder>)
    requires |claims| > 1 && Fixed(claims)
    requires !SameHands(HolderAfter(claims), HolderAfter(claims[..|claims| - 1]))
    ensures HandsOf(HolderAfter(claims)) !in PastHands(claims[..|claims| - 1])
  {
    var n := |claims| - 1;
    if HandsOf(HolderAfter(claims)) in PastHands(claims[..n]) {
      var m := PastHandsMember(claims[..n], HandsOf(HolderAfter(claims)));
      assert claims[..n][..m] == claims[..m];
      NeverReturns(claims, m, n);
    }
  }

  lemma {:induction false} PresentHandsArePast(claims: seq<Holder>)
    requires claims != []
    ensures HandsOf(HolderAfter(claims)) in PastHands(claims)
  {
  }

  lemma {:induction false} HandoversCountHands(claims: seq<Holder>)
    requires claims != [] && Fixed(claims)
    ensures Handovers(claims) + 1 == |PastHands(claims)|
  {
    var n := |claims| - 1;
    if n > 0 {
      HandoversCountHands(claims[..n]);
      if SameHands(HolderAfter(claims), HolderAfter(claims[..n])) {
        PresentHandsArePast(claims[..n]);
        assert PastHands(claims) == PastHands(claims[..n]);
      } else {
        NewHandsAreNew(claims);
      }
    }
  }

  /** The object changes hands fewer times than there are different owner and source pairs among the attempts. */
  lemma HandoversAreBounded(claims: seq<Holder>)
    requires claims != [] && Fixed(claims)
    ensures Handovers(claims) < |AllHands(claims)|
  {
    HandoversCountHands(claims);
    PastHandsTried(claims);
    SubsetSize(PastHands(claims), AllHands(claims));
  }

  lemma {:induction false} SubsetSize<T>(a: set<T>, b: set<T>)
    requires a <= b
    ensures |a| <= |b|
  {
    if a != {} {
      var x :| x in a;
      SubsetSize(a - {x}, b - {x});
    }
  }
}
