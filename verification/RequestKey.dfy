/** The deployer's request keys: six fields joined by ":::" and split back leftmost-first. */
module RequestKey {
  import opened Outcomes

  const SEPARATOR := ":::"
  const FIELDS := 6

  datatype RequestId = RequestId(
    namespace: string, name: string, clusterType: string,
    applicant: string, feature: string, cleanup: bool)

  datatype KeyError = Malformed | NotABool

  predicate SeparatorAt(s: string, i: nat) {
    i + |SEPARATOR| <= |s| && s[i] == ':' && s[i + 1] == ':' && s[i + 2] == ':'
  }

  ghost predicate HasSeparator(s: string) {
    exists i: nat :: SeparatorAt(s, i)
  }

  /** Leftmost separator at or after `from`. */
  function FindSeparator(s: string, from: nat): (r: Option<nat>)
    requires from <= |s|
    ensures r.None? ==> forall i: nat :: from <= i ==> !SeparatorAt(s, i)
    ensures r.Some? ==> from <= r.value && SeparatorAt(s, r.value)
    ensures r.Some? ==> forall i: nat :: from <= i < r.value ==> !SeparatorAt(s, i)
    decreases |s| - from
  {
    if SeparatorAt(s, from) then Some(from)
    else if from == |s| then None
    else FindSeparator(s, from + 1)
  }

  /** strings.Split(s, ":::"). */
  function Split(s: string): (parts: seq<string>)
    ensures |parts| >= 1
    decreases |s|
  {
    match FindSeparator(s, 0)
    case None => [s]
    case Some(i) => [s[..i]] + Split(s[i + |SEPARATOR|..])
  }

  function Join(parts: seq<string>): string
    requires parts != []
  {
    if |parts| == 1 then parts[0] else parts[0] + (SEPARATOR + Join(parts[1..]))
  }

  function FormatBool(b: bool): string {
    if b then "true" else "false"
  }

  /** strconv.ParseBool. */
  function ParseBool(s: string): Result<bool, KeyError> {
    if s in ["1", "t", "T", "true", "TRUE", "True"] then Ok(true)
    else if s in ["0", "f", "F", "false", "FALSE", "False"] then Ok(false)
    else Err(NotABool)
  }

  function GetKey(id: RequestId): string {
    id.namespace + SEPARATOR + id.name + SEPARATOR + id.clusterType + SEPARATOR +
    id.applicant + SEPARATOR + id.feature + SEPARATOR + FormatBool(id.cleanup)
  }

  function GetClusterFromKey(key: string): Result<(string, string), KeyError> {
    var info := Split(key);
    if |info| != FIELDS then Err(Malformed) else Ok((info[0], info[1]))
  }

  function GetClusterTypeFromKey(key: string): Result<string, KeyError> {
    var info := Split(key);
    if |info| != FIELDS then Err(Malformed) else Ok(info[2])
  }

  function GetApplicantAndFeatureFromKey(key: string): Result<(string, string), KeyError> {
    var info := Split(key);
    if |info| != FIELDS then Err(Malformed) else Ok((info[3], info[4]))
  }

  function GetIsCleanupFromKey(key: string): Result<bool, KeyError> {
    var info := Split(key);
    if |info| != FIELDS then Err(Malformed) else ParseBool(info[5])
  }

  /** All four parsers give back the fields the key was built from. */
  predicate RoundTrips(id: RequestId) {
    && GetClusterFromKey(GetKey(id)) == Ok((id.namespace, id.name))
    && GetClusterTypeFromKey(GetKey(id)) == Ok(id.clusterType)
    && GetApplicantAndFeatureFromKey(GetKey(id)) == Ok((id.applicant, id.feature))
    && GetIsCleanupFromKey(GetKey(id)) == Ok(id.cleanup)
  }

  /** A field that cannot blur into the separator written after it. */
  ghost predicate Unambiguous(s: string) {
    !HasSeparator(s) && (s != "" ==> s[|s| - 1] != ':')
  }

  ghost predicate UnambiguousId(id: RequestId) {
    && Unambiguous(id.namespace) && Unambiguous(id.name) && Unambiguous(id.clusterType)
    && Unambiguous(id.applicant) && Unambiguous(id.feature)
  }

  /** A separator that starts inside s shows s to be ambiguous. */
  lemma EarlySeparator(s: string, rest: string, i: nat)
    requires i < |s| && SeparatorAt(s + SEPARATOR + rest, i)
    ensures !Unambiguous(s)
  {
    var whole := s + SEPARATOR + rest;
    assert forall j :: i <= j < |s| ==> whole[j] == s[j];
    if i + 3 <= |s| {
      assert SeparatorAt(s, i);
    }
  }

  /** Splitting after an unambiguous field cuts exactly there. */
  lemma SplitAfter(s: string, rest: string)
    requires Unambiguous(s)
    ensures Split(s + (SEPARATOR + rest)) == [s] + Split(rest)
  {
    var whole := s + SEPARATOR + rest;
    assert whole == s + (SEPARATOR + rest);
    assert SeparatorAt(whole, |s|);
    forall i: nat | i < |s| && SeparatorAt(whole, i) ensures false {
      EarlySeparator(s, rest, i);
    }
    assert whole[..|s|] == s && whole[|s| + 3..] == rest;
  }

  lemma BoolHasNoSeparator(b: bool)
    ensures !HasSeparator(FormatBool(b))
  {
    assert forall i :: 0 <= i < |FormatBool(b)| ==> FormatBool(b)[i] != ':';
  }

  /** What stands before the leftmost separator is unambiguous. */
  lemma HeadUnambiguous(s: string)
    requires FindSeparator(s, 0).Some?
    ensures Unambiguous(s[..FindSeparator(s, 0).value])
  {
    var i := FindSeparator(s, 0).value;
    var head := s[..i];
    forall j: nat ensures !SeparatorAt(head, j) {
      assert j < i ==> !SeparatorAt(s, j);
    }
    if i > 0 {
      assert !SeparatorAt(s, i - 1) && SeparatorAt(s, i);
    }
  }

  /** Every part but the last is unambiguous, whatever was split. */
  lemma {:induction false} SplitParts(s: string)
    ensures forall i :: 0 <= i < |Split(s)| - 1 ==> Unambiguous(Split(s)[i])
    decreases |s|
  {
    var found := FindSeparator(s, 0);
    if found.Some? {
      HeadUnambiguous(s);
      SplitParts(s[found.value + 3..]);
    }
  }

  lemma JoinStep(head: string, tail: seq<string>)
    requires tail != []
    ensures Join([head] + tail) == head + (SEPARATOR + Join(tail))
  {
    assert ([head] + tail)[1..] == tail;
  }

  lemma CutAtSeparator(s: string, i: nat)
    requires SeparatorAt(s, i)
    ensures s[..i] + (SEPARATOR + s[i + 3..]) == s
  {
  }

  /** Joining undoes splitting, so no character is lost. */
  lemma {:induction false} JoinSplit(s: string)
    ensures Join(Split(s)) == s
    decreases |s|
  {
    var found := FindSeparator(s, 0);
    if found.Some? {
      var tail := s[found.value + 3..];
      JoinSplit(tail);
      JoinStep(s[..found.value], Split(tail));
      CutAtSeparator(s, found.value);
    }
  }

  lemma SplitWhole(s: string)
    requires !HasSeparator(s)
    ensures Split(s) == [s]
  {
  }

  /** Splitting undoes joining when no part can blur into the separator after it. */
  lemma {:induction false} SplitJoin(parts: seq<string>)
    requires parts != []
    requires forall i :: 0 <= i < |parts| - 1 ==> Unambiguous(parts[i])
    requires !HasSeparator(parts[|parts| - 1])
    ensures Split(Join(parts)) == parts
  {
    if |parts| == 1 {
      SplitWhole(parts[0]);
    } else {
      var head, tail := parts[0], parts[1..];
      assert parts == [head] + tail;
      SplitJoin(tail);
      JoinStep(head, tail);
      SplitAfter(head, Join(tail));
    }
  }

  function FieldsOf(id: RequestId): seq<string> {
    [id.namespace, id.name, id.clusterType, id.applicant, id.feature, FormatBool(id.cleanup)]
  }

  /** The key in the order the fields are written. */
  lemma KeyIsJoin(id: RequestId)
    ensures GetKey(id) == Join(FieldsOf(id))
    ensures GetKey(id) == Join([id.namespace, id.name, id.clusterType, id.applicant, id.feature,
                                if id.cleanup then "true" else "false"])
  {
    var f := FieldsOf(id);
    var rest4 := Join(f[4..]);
    var rest3 := Join(f[3..]);
    var rest2 := Join(f[2..]);
    var rest1 := Join(f[1..]);
    assert rest4 == f[4] + (SEPARATOR + f[5]) by {
      JoinStep(f[4], f[5..]);
      assert [f[4]] + f[5..] == f[4..];
    }
    assert rest3 == f[3] + (SEPARATOR + rest4) by {
      JoinStep(f[3], f[4..]);
      assert [f[3]] + f[4..] == f[3..];
    }
    assert rest2 == f[2] + (SEPARATOR + rest3) by {
      JoinStep(f[2], f[3..]);
      assert [f[2]] + f[3..] == f[2..];
    }
    assert rest1 == f[1] + (SEPARATOR + rest2) by {
      JoinStep(f[1], f[2..]);
      assert [f[1]] + f[2..] == f[1..];
    }
    assert Join(f) == f[0] + (SEPARATOR + rest1);
    KeyShape(id.namespace, id.name, id.clusterType, id.applicant, id.feature, f[5]);
  }

  /** Concatenation regrouped the way the fields are cut off. */
  lemma KeyShape(a: string, b: string, c: string, d: string, e: string, f: string)
    ensures a + SEPARATOR + b + SEPARATOR + c + SEPARATOR + d + SEPARATOR + e + SEPARATOR + f
         == a + (SEPARATOR + (b + (SEPARATOR + (c + (SEPARATOR + (d + (SEPARATOR + (e + (SEPARATOR + f)))))))))
  {
  }

  /** What the key of an unambiguous request splits into. */
  lemma SplitKey(id: RequestId)
    requires UnambiguousId(id)
    ensures Split(GetKey(id)) == FieldsOf(id)
  {
    KeyIsJoin(id);
    BoolHasNoSeparator(id.cleanup);
    SplitJoin(FieldsOf(id));
  }

  /** The parsers undo GetKey exactly for the requests whose fields are unambiguous. */
  lemma KeyRoundTrip(id: RequestId)
    ensures RoundTrips(id) <==> UnambiguousId(id)
  {
    if UnambiguousId(id) {
      SplitKey(id);
    }
    if RoundTrips(id) {
      var parts := Split(GetKey(id));
      SplitParts(GetKey(id));
      assert Unambiguous(parts[0]) && Unambiguous(parts[1]) && Unambiguous(parts[2]);
      assert Unambiguous(parts[3]) && Unambiguous(parts[4]);
    }
  }

  predicate StartsWithColon(s: string) {
    s != "" && s[0] == ':'
  }

  predicate EndsWithColon(s: string) {
    s != "" && s[|s| - 1] == ':'
  }

  /** No part holds a separator, and no separator between two parts can be read anywhere else. */
  ghost predicate Isolated(parts: seq<string>) {
    && (forall i :: 0 <= i < |parts| ==> !HasSeparator(parts[i]))
    && (forall i :: 0 <= i < |parts| - 1 ==> !EndsWithColon(parts[i]))
    && (forall i :: 0 < i < |parts| ==> !StartsWithColon(parts[i]))
  }

  /** What a caller can check of its own request: a field holds ":::", or a ':' stands next to a separator
      between two string fields. */
  ghost predicate Blurred(id: RequestId) {
    || HasSeparator(id.namespace) || HasSeparator(id.name) || HasSeparator(id.clusterType)
    || HasSeparator(id.applicant) || HasSeparator(id.feature)
    || EndsWithColon(id.namespace) || EndsWithColon(id.name) || EndsWithColon(id.clusterType)
    || EndsWithColon(id.applicant)
    || StartsWithColon(id.name) || StartsWithColon(id.clusterType) || StartsWithColon(id.applicant)
    || StartsWithColon(id.feature)
  }

  /** A text that starts with ':' although its parts are isolated starts with an empty part. */
  lemma ColonMeansEmptyPart(parts: seq<string>)
    requires parts != [] && !StartsWithColon(parts[0]) && StartsWithColon(Join(parts))
    ensures |parts| > 1 && parts[0] == ""
  {
  }

  /** Where a separator can stand in the joined text, less up to two of its leading colons: behind the first
      separator; on it; or across it, into the separator after an empty part. */
  lemma SeparatorPlace(parts: seq<string>, dropped: nat, i: nat)
    requires Isolated(parts) && |parts| > 1 && dropped <= 2 && (dropped > 0 ==> parts[0] == "")
    requires SeparatorAt(Join(parts)[dropped..], i)
    ensures var next := |parts[0]| + |SEPARATOR| - dropped;
      || i >= next
      || (dropped == 0 && i == |parts[0]|)
      || (1 <= i + |SEPARATOR| - next <= 2 && |parts| > 2 && parts[1] == "")
  {
    var head, rest := parts[0], Join(parts[1..]);
    var whole := Join(parts);
    assert whole == head + SEPARATOR + rest;
    if i + dropped < |head| {
      EarlySeparator(head, rest, i + dropped);
    } else if |head| < i + dropped < |head| + 3 {
      assert whole[|head| + 3] == ':' && whole[|head| + 3] == rest[0];
      ColonMeansEmptyPart(parts[1..]);
    }
  }

  lemma JoinCut(parts: seq<string>)
    requires |parts| > 1
    ensures SeparatorAt(Join(parts), |parts[0]|)
    ensures Join(parts)[..|parts[0]|] == parts[0]
    ensures Join(parts)[|parts[0]| + 3..] == Join(parts[1..])
  {
    assert Join(parts) == parts[0] + SEPARATOR + Join(parts[1..]);
  }

  lemma IsolatedTail(parts: seq<string>)
    requires Isolated(parts) && |parts| > 1
    ensures Isolated(parts[1..])
  {
    var tail := parts[1..];
    assert forall i :: 0 <= i < |tail| ==> tail[i] == parts[i + 1];
  }

  /** Cutting the first part short, up to somewhere before its end. */
  lemma CutBehind(parts: seq<string>, n: nat)
    requires |parts| > 1 && n <= |parts[0]|
    ensures Join([parts[0][n..]] + parts[1..]) == Join(parts)[n..]
  {
    JoinStep(parts[0][n..], parts[1..]);
    assert Join(parts) == parts[0] + (SEPARATOR + Join(parts[1..]));
  }

  /** Cutting off the first part and some of its separator. */
  lemma CutAcross(parts: seq<string>, n: nat)
    requires |parts| > 1 && |parts[0]| <= n <= |parts[0]| + 3
    ensures |parts[0]| + 3 - n <= |Join(parts)[n..]|
    ensures Join(parts[1..]) == Join(parts)[n..][|parts[0]| + 3 - n..]
  {
    JoinCut(parts);
    var whole := Join(parts);
    assert whole[n..][|parts[0]| + 3 - n..] == whole[|parts[0]| + 3..];
  }

  lemma RestOfDropped(parts: seq<string>, dropped: nat)
    requires |parts| > 1 && dropped <= 2 && (dropped > 0 ==> parts[0] == "")
    ensures |parts[0]| + 3 <= |Join(parts)|
    ensures Join(parts)[dropped..][|parts[0]| + 3 - dropped..] == Join(parts[1..])
  {
    JoinCut(parts);
    var whole := Join(parts);
    assert whole[dropped..][|parts[0]| + 3 - dropped..] == whole[|parts[0]| + 3..];
  }

  /** An isolated sequence is the finest way to cut its text: any other way has fewer parts, and fewer still
      when leading colons are missing. */
  lemma {:induction false} FinestCut(parts: seq<string>, others: seq<string>, dropped: nat)
    requires parts != [] && others != [] && Isolated(parts) && dropped <= 2
    requires dropped > 0 ==> |parts| > 1 && parts[0] == ""
    requires dropped <= |Join(parts)| && Join(others) == Join(parts)[dropped..]
    ensures |others| <= |parts| - (if dropped > 0 then 1 else 0)
    ensures dropped == 0 && |others| == |parts| ==> others == parts
    decreases |parts|
  {
    if |others| > 1 {
      JoinCut(others);
      if |parts| > 1 {
        FinerCut(parts, others, dropped);
      }
    }
  }

  lemma {:induction false} FinerCut(parts: seq<string>, others: seq<string>, dropped: nat)
    requires |parts| > 1 && |others| > 1 && Isolated(parts) && dropped <= 2
    requires dropped > 0 ==> parts[0] == ""
    requires dropped <= |Join(parts)| && Join(others) == Join(parts)[dropped..]
    ensures |others| <= |parts| - (if dropped > 0 then 1 else 0)
    ensures dropped == 0 && |others| == |parts| ==> others == parts
    decreases |parts|, 0
  {
    var i, next := |others[0]|, |parts[0]| + 3 - dropped;
    JoinCut(others);
    SeparatorPlace(parts, dropped, i);
    IsolatedTail(parts);
    RestOfDropped(parts, dropped);
    if i >= next {
      CutBehind(others, next);
      FinestCut(parts[1..], [others[0][next..]] + others[1..], 0);
    } else if dropped == 0 && i == |parts[0]| {
      JoinCut(parts);
      FinestCut(parts[1..], others[1..], 0);
      assert others == [others[0]] + others[1..] && parts == [parts[0]] + parts[1..];
    } else {
      CutAcross(others, next);
      FinestCut(parts[1..], others[1..], i + 3 - next);
    }
  }

  /** The string fields. The one after them is "true" or "false", which can be told apart from the end. */
  function StringsOf(id: RequestId): seq<string> {
    [id.namespace, id.name, id.clusterType, id.applicant, id.feature]
  }

  lemma {:induction false} JoinAppend(parts: seq<string>, last: string)
    requires parts != []
    ensures Join(parts + [last]) == Join(parts) + (SEPARATOR + last)
  {
    if |parts| > 1 {
      JoinAppend(parts[1..], last);
      assert (parts + [last])[1..] == parts[1..] + [last];
      assert parts == [parts[0]] + parts[1..];
      var head, tail := parts[0], Join(parts[1..]);
      assert head + (SEPARATOR + (tail + (SEPARATOR + last))) == (head + (SEPARATOR + tail)) + (SEPARATOR + last);
    }
  }

  lemma KeyEndsWithCleanup(id: RequestId)
    ensures GetKey(id) == Join(StringsOf(id)) + (SEPARATOR + FormatBool(id.cleanup))
  {
    KeyIsJoin(id);
    JoinAppend(StringsOf(id), FormatBool(id.cleanup));
    assert FieldsOf(id) == StringsOf(id) + [FormatBool(id.cleanup)];
  }

  lemma CleanupCutOff(a: string, b: bool, c: string, d: bool)
    requires a + (SEPARATOR + FormatBool(b)) == c + (SEPARATOR + FormatBool(d))
    ensures a == c && b == d
  {
    var whole := a + (SEPARATOR + FormatBool(b));
    assert whole[|whole| - 4] == FormatBool(b)[|FormatBool(b)| - 4];
    assert whole[|whole| - 4] == FormatBool(d)[|FormatBool(d)| - 4];
    assert whole[..|a|] == a && whole[..|c|] == c;
  }

  lemma IsolatedStrings(id: RequestId)
    requires !Blurred(id)
    ensures Isolated(StringsOf(id))
  {
    var parts := StringsOf(id);
    forall i | 0 <= i < |parts|
      ensures !HasSeparator(parts[i])
      ensures (i < |parts| - 1 ==> !EndsWithColon(parts[i])) && (i > 0 ==> !StartsWithColon(parts[i]))
    {
      if i == 4 {
        assert parts[i] == id.feature;
      }
    }
  }

  /** Moving the text around the i-th separator from one field to its neighbour. */
  function Moved(id: RequestId, i: nat, left: string, right: string): RequestId
    requires i < 4
  {
    match i
    case 0 => id.(namespace := left, name := right)
    case 1 => id.(name := left, clusterType := right)
    case 2 => id.(clusterType := left, applicant := right)
    case _ => id.(applicant := left, feature := right)
  }

  function FieldAt(id: RequestId, i: nat): string
    requires i < 5
  {
    StringsOf(id)[i]
  }

  lemma MovedKeepsKey(id: RequestId, i: nat, left: string, right: string)
    requires i < 4 && left + (SEPARATOR + right) == FieldAt(id, i) + (SEPARATOR + FieldAt(id, i + 1))
    ensures GetKey(Moved(id, i, left, right)) == GetKey(id)
  {
    match i
    case 0 =>
      assert left + SEPARATOR + right == left + (SEPARATOR + right);
      assert id.namespace + SEPARATOR + id.name == id.namespace + (SEPARATOR + id.name);
    case 1 =>
      Regroup(id.namespace + SEPARATOR, left, right);
      Regroup(id.namespace + SEPARATOR, id.name, id.clusterType);
    case 2 =>
      Regroup(id.namespace + SEPARATOR + id.name + SEPARATOR, left, right);
      Regroup(id.namespace + SEPARATOR + id.name + SEPARATOR, id.clusterType, id.applicant);
    case _ =>
      Regroup(id.namespace + SEPARATOR + id.name + SEPARATOR + id.clusterType + SEPARATOR, left, right);
      Regroup(id.namespace + SEPARATOR + id.name + SEPARATOR + id.clusterType + SEPARATOR, id.applicant, id.feature);
  }

  lemma Regroup(prefix: string, left: string, right: string)
    ensures prefix + left + SEPARATOR + right == prefix + (left + (SEPARATOR + right))
  {
  }

  /** Another cut of the same text is another request with the same key. */
  lemma OtherReading(id: RequestId, i: nat, left: string, right: string)
    requires i < 4 && left + (SEPARATOR + right) == FieldAt(id, i) + (SEPARATOR + FieldAt(id, i + 1))
    requires left != FieldAt(id, i)
    ensures exists other :: other != id && GetKey(other) == GetKey(id)
  {
    MovedKeepsKey(id, i, left, right);
    assert FieldAt(Moved(id, i, left, right), i) == left;
  }

  lemma SeparatorSplits(s: string, i: nat)
    requires SeparatorAt(s, i)
    ensures s == s[..i] + SEPARATOR + s[i + 3..]
  {
  }

  /** A separator inside a field, or a colon next to the separator after it, can be read the other way. */
  lemma BlurredLeft(id: RequestId, i: nat)
    requires i < 4
    requires HasSeparator(FieldAt(id, i)) || EndsWithColon(FieldAt(id, i)) || StartsWithColon(FieldAt(id, i + 1))
    ensures exists other :: other != id && GetKey(other) == GetKey(id)
  {
    var a, b := FieldAt(id, i), FieldAt(id, i + 1);
    if HasSeparator(a) {
      var at: nat :| SeparatorAt(a, at);
      SeparatorSplits(a, at);
      assert a[..at] + (SEPARATOR + (a[at + 3..] + SEPARATOR + b)) == a + (SEPARATOR + b);
      OtherReading(id, i, a[..at], a[at + 3..] + SEPARATOR + b);
    } else if EndsWithColon(a) {
      var left := a[..|a| - 1];
      assert a == left + ":";
      assert left + (SEPARATOR + (":" + b)) == a + (SEPARATOR + b);
      OtherReading(id, i, left, ":" + b);
    } else {
      assert b == ":" + b[1..];
      assert (a + ":") + (SEPARATOR + b[1..]) == a + (SEPARATOR + b);
      OtherReading(id, i, a + ":", b[1..]);
    }
  }

  lemma BlurredLast(id: RequestId)
    requires HasSeparator(id.feature)
    ensures exists other :: other != id && GetKey(other) == GetKey(id)
  {
    var a, b := id.applicant, id.feature;
    var at: nat :| SeparatorAt(b, at);
    SeparatorSplits(b, at);
    assert (a + SEPARATOR + b[..at]) + (SEPARATOR + b[at + 3..]) == a + (SEPARATOR + b);
    OtherReading(id, 3, a + SEPARATOR + b[..at], b[at + 3..]);
  }

  /** GetKey's promise, exactly: a request shares its key with another if and only if one of its fields holds
      ":::" or has a ':' next to a separator with another string field on its far side. */
  lemma KeyIsSharedExactlyWhenBlurred(id: RequestId)
    ensures (exists other :: other != id && GetKey(other) == GetKey(id)) <==> Blurred(id)
  {
    if Blurred(id) {
      if HasSeparator(id.feature) {
        BlurredLast(id);
      } else {
        var i: nat :| i < 4 && (HasSeparator(FieldAt(id, i)) || EndsWithColon(FieldAt(id, i))
                                || StartsWithColon(FieldAt(id, i + 1)));
        BlurredLeft(id, i);
      }
    } else {
      forall other | GetKey(other) == GetKey(id) ensures other == id {
        IsolatedStrings(id);
        KeyEndsWithCleanup(id);
        KeyEndsWithCleanup(other);
        CleanupCutOff(Join(StringsOf(id)), id.cleanup, Join(StringsOf(other)), other.cleanup);
        FinestCut(StringsOf(id), StringsOf(other), 0);
        assert StringsOf(other)[4] == StringsOf(id)[4];
      }
    }
  }
}
