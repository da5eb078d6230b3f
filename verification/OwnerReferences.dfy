/** Owner references as a reference count: adding, swap-removing, and what any sequence of both leaves. */
module OwnerReferences {
  import opened Outcomes
  import opened Slices
  import opened Objects

  predicate Matches(ref: OwnerReference, kind: string, name: string) {
    ref.kind == kind && ref.name == name
  }

  predicate Has(refs: seq<OwnerReference>, kind: string, name: string) {
    exists i :: 0 <= i < |refs| && Matches(refs[i], kind, name)
  }

  /** Position of the first reference to the owner. */
  function FirstMatch(refs: seq<OwnerReference>, kind: string, name: string): (i: nat)
    requires Has(refs, kind, name)
    ensures i < |refs| && Matches(refs[i], kind, name)
    ensures forall j :: 0 <= j < i ==> !Matches(refs[j], kind, name)
  {
    if Matches(refs[0], kind, name) then 0
    else
      assert Has(refs[1..], kind, name) by {
        var i :| 0 <= i < |refs| && Matches(refs[i], kind, name);
        assert Matches(refs[1..][i - 1], kind, name);
      }
      1 + FirstMatch(refs[1..], kind, name)
  }

  function Added(refs: seq<OwnerReference>, owner: Profile): seq<OwnerReference> {
    if Has(refs, owner.kind, owner.name) then refs
    else refs + [OwnerReference(owner.apiVersion, owner.kind, owner.name, owner.uid)]
  }

  function Removed(refs: seq<OwnerReference>, owner: Profile): seq<OwnerReference> {
    if Has(refs, owner.kind, owner.name) then SwapRemove(refs, FirstMatch(refs, owner.kind, owner.name))
    else refs
  }

  /** No two references to the same (kind, name). */
  ghost predicate Distinct(refs: seq<OwnerReference>) {
    forall i, j :: 0 <= i < j < |refs| ==> !Matches(refs[i], refs[j].kind, refs[j].name)
  }

  method AddOwnerReference(refs: seq<OwnerReference>, owner: Profile) returns (r: seq<OwnerReference>)
    ensures r == Added(refs, owner)
    ensures (exists i :: 0 <= i < |refs| && refs[i].kind == owner.kind && refs[i].name == owner.name) ==> r == refs
    ensures !(exists i :: 0 <= i < |refs| && refs[i].kind == owner.kind && refs[i].name == owner.name) ==>
      && |r| == |refs| + 1 && r[..|refs|] == refs
      && var ref := r[|refs|];
         ref.apiVersion == owner.apiVersion && ref.kind == owner.kind && ref.name == owner.name && ref.uid == owner.uid
  {
    for i := 0 to |refs|
      invariant forall j :: 0 <= j < i ==> !Matches(refs[j], owner.kind, owner.name)
    {
      if refs[i].kind == owner.kind && refs[i].name == owner.name {
        assert Matches(refs[i], owner.kind, owner.name);
        return refs;
      }
    }
    return refs + [OwnerReference(owner.apiVersion, owner.kind, owner.name, owner.uid)];
  }

  method RemoveOwnerReference(refs: seq<OwnerReference>, owner: Profile) returns (r: seq<OwnerReference>)
    ensures r == Removed(refs, owner)
    ensures r == refs || exists i ::
      && 0 <= i < |refs| && refs[i].kind == owner.kind && refs[i].name == owner.name
      && multiset(r) == multiset(refs) - multiset{refs[i]}
  {
    r := refs;
    for i := 0 to |refs|
      invariant r == refs
      invariant forall j :: 0 <= j < i ==> !Matches(refs[j], owner.kind, owner.name)
    {
      if refs[i].kind == owner.kind && refs[i].name == owner.name {
        assert Matches(refs[i], owner.kind, owner.name);
        assert FirstMatch(refs, owner.kind, owner.name) == i;
        SwapRemoveMultiset(refs, i);
        r := r[i := r[|r| - 1]];
        r := r[..|r| - 1];
        return;
      }
    }
  }

  method IsOwnerReference(refs: seq<OwnerReference>, owner: Profile) returns (r: bool)
    ensures r <==> Has(refs, owner.kind, owner.name)
    ensures r <==> exists i :: 0 <= i < |refs| && refs[i].kind == owner.kind && refs[i].name == owner.name
  {
    for i := 0 to |refs|
      invariant forall j :: 0 <= j < i ==> !Matches(refs[j], owner.kind, owner.name)
    {
      if refs[i].kind == owner.kind && refs[i].name == owner.name {
        assert Matches(refs[i], owner.kind, owner.name);
        return true;
      }
    }
    return false;
  }

  predicate IsOnlyOwnerReference(refs: seq<OwnerReference>, owner: Profile) {
    |refs| == 1 && refs[0].kind == owner.kind && refs[0].name == owner.name
  }

  datatype Op = Add(owner: Profile) | Remove(owner: Profile)

  function ApplyOp(refs: seq<OwnerReference>, op: Op): seq<OwnerReference> {
    match op
    case Add(owner) => Added(refs, owner)
    case Remove(owner) => Removed(refs, owner)
  }

  function ApplyAll(refs: seq<OwnerReference>, ops: seq<Op>): seq<OwnerReference> {
    if ops == [] then refs else ApplyOp(ApplyAll(refs, ops[..|ops| - 1]), ops[|ops| - 1])
  }

  /** The last thing done to this owner. */
  function LastOp(ops: seq<Op>, kind: string, name: string): Option<Op> {
    if ops == [] then None
    else
      var last := ops[|ops| - 1];
      if last.owner.kind == kind && last.owner.name == name then Some(last)
      else LastOp(ops[..|ops| - 1], kind, name)
  }

  /** An owner present before the swap is still present unless it is the one removed. */
  lemma RemovedKeepsOthers(refs: seq<OwnerReference>, owner: Profile, kind: string, name: string)
    requires kind != owner.kind || name != owner.name
    ensures Has(Removed(refs, owner), kind, name) <==> Has(refs, kind, name)
  {
    if Has(refs, owner.kind, owner.name) {
      var at := FirstMatch(refs, owner.kind, owner.name);
      var last := |refs| - 1;
      var r := Removed(refs, owner);
      assert forall i :: 0 <= i < |r| ==> r[i] == if i == at then refs[last] else refs[i];
      if Has(refs, kind, name) {
        var i :| 0 <= i < |refs| && Matches(refs[i], kind, name);
        assert Matches(r[if i == last then at else i], kind, name);
      }
      if Has(r, kind, name) {
        var i :| 0 <= i < |r| && Matches(r[i], kind, name);
        assert Matches(refs[if i == at then last else i], kind, name);
      }
    }
  }

  lemma RemovedFromDistinct(refs: seq<OwnerReference>, owner: Profile)
    requires Distinct(refs)
    ensures Distinct(Removed(refs, owner)) && !Has(Removed(refs, owner), owner.kind, owner.name)
  {
    if Has(refs, owner.kind, owner.name) {
      var at := FirstMatch(refs, owner.kind, owner.name);
      var last := |refs| - 1;
      var r := Removed(refs, owner);
      assert forall i :: 0 <= i < |r| ==> r[i] == if i == at then refs[last] else refs[i];
      forall i | 0 <= i < |r| ensures !Matches(r[i], owner.kind, owner.name) {
        var j := if i == at then last else i;
        assert j < at || at < j;
      }
      forall i, j | 0 <= i < j < |r| ensures !Matches(r[i], r[j].kind, r[j].name) {
        var i', j' := if i == at then last else i, if j == at then last else j;
        assert i' < j' || j' < i';
      }
    }
  }

  /** Removal takes one reference away, so it is complete exactly when there was at most one. */
  lemma RemovalIsCompleteExactlyWithoutDuplicates(refs: seq<OwnerReference>, owner: Profile)
    ensures Has(Removed(refs, owner), owner.kind, owner.name) <==>
      exists i, j ::
        && 0 <= i < j < |refs|
        && Matches(refs[i], owner.kind, owner.name) && Matches(refs[j], owner.kind, owner.name)
  {
    if Has(refs, owner.kind, owner.name) {
      var at := FirstMatch(refs, owner.kind, owner.name);
      var last := |refs| - 1;
      var r := Removed(refs, owner);
      assert forall i :: 0 <= i < |r| ==> r[i] == if i == at then refs[last] else refs[i];
      if Has(r, owner.kind, owner.name) {
        var i :| 0 <= i < |r| && Matches(r[i], owner.kind, owner.name);
        var j := if i == at then last else i;
        assert at < j && Matches(refs[at], owner.kind, owner.name) && Matches(refs[j], owner.kind, owner.name);
      }
      forall i, j | 0 <= i < j < |refs| && Matches(refs[i], owner.kind, owner.name)
          && Matches(refs[j], owner.kind, owner.name)
        ensures Has(r, owner.kind, owner.name)
      {
        assert Matches(r[if j == last then at else j], owner.kind, owner.name);
      }
    }
  }

  lemma AddedToDistinct(refs: seq<OwnerReference>, owner: Profile, kind: string, name: string)
    requires Distinct(refs)
    ensures Distinct(Added(refs, owner))
    ensures Has(Added(refs, owner), kind, name) <==> Has(refs, kind, name) || (kind == owner.kind && name == owner.name)
  {
    var r := Added(refs, owner);
    if Has(refs, kind, name) {
      var i :| 0 <= i < |refs| && Matches(refs[i], kind, name);
      assert Matches(r[i], kind, name);
    }
    if !Has(refs, owner.kind, owner.name) {
      assert Matches(r[|refs|], owner.kind, owner.name);
    }
  }

  /** From distinct references, any sequence of adds and removes keeps them distinct despite the swapping, and
      an owner is listed exactly when the last thing done to it was to add it, or nothing was and it was there. */
  lemma {:induction false} ReferenceCount(refs: seq<OwnerReference>, ops: seq<Op>, kind: string, name: string)
    requires Distinct(refs)
    ensures Distinct(ApplyAll(refs, ops))
    ensures Has(ApplyAll(refs, ops), kind, name) <==>
      var last := LastOp(ops, kind, name);
      if last.None? then Has(refs, kind, name) else last.value.Add?
  {
    if ops != [] {
      var before, last := ops[..|ops| - 1], ops[|ops| - 1];
      ReferenceCount(refs, before, kind, name);
      var r := ApplyAll(refs, before);
      match last
      case Add(owner) => AddedToDistinct(r, owner, kind, name);
      case Remove(owner) =>
        RemovedFromDistinct(r, owner);
        if kind != owner.kind || name != owner.name {
          RemovedKeepsOthers(r, owner, kind, name);
        }
    }
  }

  lemma OneOwnerMeansOneReference(refs: seq<OwnerReference>, owner: Profile)
    requires Distinct(refs)
    requires forall kind, name :: Has(refs, kind, name) <==> kind == owner.kind && name == owner.name
    ensures IsOnlyOwnerReference(refs, owner)
  {
    assert Has(refs, owner.kind, owner.name);
    forall i | 0 <= i < |refs| ensures Matches(refs[i], owner.kind, owner.name) {
      assert Matches(refs[i], refs[i].kind, refs[i].name);
      assert Has(refs, refs[i].kind, refs[i].name);
    }
    var last := |refs| - 1;
    assert Matches(refs[0], owner.kind, owner.name) && Matches(refs[last], owner.kind, owner.name);
  }

  /** The last reference may go exactly when no other owner is left. */
  lemma OnlyOwnerMeansNoOther(refs: seq<OwnerReference>, owner: Profile)
    requires Distinct(refs)
    ensures IsOnlyOwnerReference(refs, owner) <==>
      forall kind, name :: Has(refs, kind, name) <==> kind == owner.kind && name == owner.name
  {
    if IsOnlyOwnerReference(refs, owner) {
      assert Matches(refs[0], owner.kind, owner.name);
    }
    if forall kind, name :: Has(refs, kind, name) <==> kind == owner.kind && name == owner.name {
      OneOwnerMeansOneReference(refs, owner);
    }
  }
}
