/** The two ways the deployer takes an element out of a Go slice, and what they keep. */
module Slices {

  /** Position of the first occurrence of x. */
  function IndexOf<T(==)>(s: seq<T>, x: T): (i: nat)
    requires x in s
    ensures i < |s| && s[i] == x && x !in s[..i]
  {
    if s[0] == x then 0 else 1 + IndexOf(s[1..], x)
  }

  /** removeFromSlice: the last element overwrites position i and the slice shrinks by one. */
  function SwapRemove<T>(s: seq<T>, i: nat): seq<T>
    requires i < |s|
  {
    s[i := s[|s| - 1]][..|s| - 1]
  }

  /** Drops the first x by swap-removal; s itself when x is absent. */
  function DropSwap<T(==)>(s: seq<T>, x: T): seq<T> {
    if x in s then SwapRemove(s, IndexOf(s, x)) else s
  }

  /** append(s[:i], s[i+1:]...): removal that keeps the order. */
  function RemoveAt<T>(s: seq<T>, i: nat): seq<T>
    requires i < |s|
  {
    s[..i] + s[i + 1..]
  }

  /** Drops the first x keeping the order; s itself when x is absent. */
  function DropFirst<T(==)>(s: seq<T>, x: T): seq<T> {
    if x in s then RemoveAt(s, IndexOf(s, x)) else s
  }

  ghost predicate NoDuplicates<T>(s: seq<T>) {
    forall i, j :: 0 <= i < j < |s| ==> s[i] != s[j]
  }

  /** The first occurrence is the only index that passes the scan's test first. */
  lemma IndexOfIs<T>(s: seq<T>, x: T, i: nat)
    requires i < |s| && s[i] == x && x !in s[..i]
    ensures x in s && IndexOf(s, x) == i
  {
    var j := IndexOf(s, x);
    assert s[j] in s[..j + 1] && s[i] in s[..i + 1];
    assert x in s[..j + 1] && x in s[..i + 1];
  }

  /** Swap-removal reorders, but loses exactly the element it was asked to lose. */
  lemma SwapRemoveMultiset<T>(s: seq<T>, i: nat)
    requires i < |s|
    ensures multiset(SwapRemove(s, i)) == multiset(s) - multiset{s[i]}
  {
    var last := |s| - 1;
    assert s == s[..last] + [s[last]];
    if i < last {
      assert SwapRemove(s, i) == s[..i] + [s[last]] + s[i + 1..last];
      assert s[..last] == s[..i] + [s[i]] + s[i + 1..last];
    } else {
      assert SwapRemove(s, i) == s[..last];
    }
  }

  lemma RemoveAtMultiset<T>(s: seq<T>, i: nat)
    requires i < |s|
    ensures multiset(RemoveAt(s, i)) == multiset(s) - multiset{s[i]}
  {
    assert s == s[..i] + [s[i]] + s[i + 1..];
  }

  lemma DropSwapMultiset<T>(s: seq<T>, x: T)
    ensures multiset(DropSwap(s, x)) == multiset(s) - multiset{x}
  {
    if x in s {
      SwapRemoveMultiset(s, IndexOf(s, x));
    } else {
      assert multiset(s)[x] == 0;
    }
  }

  lemma DropFirstMultiset<T>(s: seq<T>, x: T)
    ensures multiset(DropFirst(s, x)) == multiset(s) - multiset{x}
  {
    if x in s {
      RemoveAtMultiset(s, IndexOf(s, x));
    } else {
      assert multiset(s)[x] == 0;
    }
  }

  lemma DropSwapCount<T>(s: seq<T>, x: T, y: T)
    ensures multiset(DropSwap(s, x))[y] == multiset(s)[y] - if x == y && x in s then 1 else 0
  {
    DropSwapMultiset(s, x);
    assert x in s <==> x in multiset(s);
  }

  /** One x fewer, stated on any larger count. */
  lemma DropSwapBalance<T>(s: seq<T>, x: T, rest: multiset<T>)
    requires multiset(s) == rest + multiset{x}
    ensures multiset(DropSwap(s, x)) == rest
  {
    DropSwapMultiset(s, x);
  }

  lemma {:induction false} NoDuplicatesCounts<T>(s: seq<T>, x: T)
    requires NoDuplicates(s)
    ensures multiset(s)[x] <= 1
  {
    if s != [] {
      var last := |s| - 1;
      assert s == s[..last] + [s[last]];
      NoDuplicatesCounts(s[..last], x);
      assert multiset(s)[x] == multiset(s[..last])[x] + multiset([s[last]])[x];
      if s[last] == x {
        assert x !in s[..last];
      }
    }
  }

  lemma CountsNoDuplicates<T>(s: seq<T>)
    requires forall x :: x in s ==> multiset(s)[x] <= 1
    ensures NoDuplicates(s)
  {
    forall i, j | 0 <= i < j < |s| ensures s[i] != s[j] {
      assert s == s[..j] + [s[j]] + s[j + 1..];
      var before := s[..j];
      assert before[i] == s[i];
      assert multiset(before)[s[i]] >= 1;
      assert multiset(s)[s[j]] >= multiset(before)[s[j]] + 1;
    }
  }

  /** Taking one x out of a duplicate-free slice removes x and nothing else, in either style. */
  lemma DropLeavesTheRest<T>(s: seq<T>, t: seq<T>, x: T)
    requires NoDuplicates(s) && multiset(t) == multiset(s) - multiset{x}
    ensures NoDuplicates(t) && x !in t
    ensures forall y :: y != x ==> (y in t <==> y in s)
  {
    forall y ensures multiset(s)[y] <= 1 {
      NoDuplicatesCounts(s, y);
    }
    assert x !in multiset(t);
    CountsNoDuplicates(t);
    forall y | y != x ensures y in t <==> y in s {
      assert multiset(t)[y] == multiset(s)[y];
    }
  }
}
