/** fmt "%d" and strconv.ParseInt(s, 10, 32), as the tier annotations use them. */
module Decimal {
  import opened Outcomes

  const INT32_MAX := 0x7FFF_FFFF
  const INT32_MIN := -0x8000_0000

  predicate IsInt32(i: int) {
    INT32_MIN <= i <= INT32_MAX
  }

  predicate IsDigit(c: char) {
    '0' <= c <= '9'
  }

  function PrintNat(n: nat): (s: string)
    ensures s != "" && IsDigit(s[0])
  {
    (if n < 10 then "" else PrintNat(n / 10)) + [(n % 10) as char + '0']
  }

  function Print(i: int): string {
    if i < 0 then "-" + PrintNat(-i) else PrintNat(i)
  }

  /** The value of a non-empty string of digits. */
  function ParseDigits(s: string): Option<nat> {
    if s == "" || !IsDigit(s[|s| - 1]) then None
    else
      var digit := (s[|s| - 1] - '0') as nat;
      if |s| == 1 then Some(digit)
      else
        match ParseDigits(s[..|s| - 1])
        case None => None
        case Some(n) => Some(10 * n + digit)
  }

  /** An optional sign, digits, and a value that fits 32 bits; anything else is an error. */
  function ParseInt32(s: string): Option<int> {
    if s == "" then None
    else
      var signed := s[0] == '-' || s[0] == '+';
      match ParseDigits(if signed then s[1..] else s)
      case None => None
      case Some(n) =>
        var i: int := if s[0] == '-' then -(n as int) else n;
        if IsInt32(i) then Some(i) else None
  }

  lemma {:induction false} ParsePrintNat(n: nat)
    ensures ParseDigits(PrintNat(n)) == Some(n)
  {
    if n >= 10 {
      ParsePrintNat(n / 10);
      assert PrintNat(n)[..|PrintNat(n)| - 1] == PrintNat(n / 10);
    } else {
      assert PrintNat(n) == [n as char + '0'];
    }
  }

  lemma ParseUnsigned(s: string, n: nat)
    requires s != "" && IsDigit(s[0]) && ParseDigits(s) == Some(n)
    ensures ParseInt32(s) == if IsInt32(n) then Some(n) else None
    ensures ParseInt32("-" + s) == if IsInt32(-(n as int)) then Some(-(n as int)) else None
  {
    assert ("-" + s)[1..] == s;
  }

  /** An integer survives being written as an annotation and read back exactly when it fits 32 bits. */
  lemma ParsePrint(i: int)
    ensures ParseInt32(Print(i)) == if -0x8000_0000 <= i <= 0x7FFF_FFFF then Some(i) else None
  {
    var n: nat := if i < 0 then -i else i;
    ParsePrintNat(n);
    ParseUnsigned(PrintNat(n), n);
  }

  lemma {:induction false} DigitsOnly(s: string)
    ensures ParseDigits(s).Some? <==> s != "" && forall k :: 0 <= k < |s| ==> IsDigit(s[k])
  {
    if |s| > 1 {
      DigitsOnly(s[..|s| - 1]);
    }
  }

  /** Text is a number only if it consists of digits after at most one sign. */
  lemma NumbersAreDigits(s: string)
    requires ParseInt32(s).Some?
    ensures s != "" && -0x8000_0000 <= ParseInt32(s).value <= 0x7FFF_FFFF
    ensures IsDigit(s[0]) || ((s[0] == '-' || s[0] == '+') && |s| > 1)
    ensures forall k :: 0 < k < |s| ==> IsDigit(s[k])
  {
    var signed := s[0] == '-' || s[0] == '+';
    DigitsOnly(if signed then s[1..] else s);
    if signed {
      forall k | 0 < k < |s| ensures IsDigit(s[k]) {
        assert s[k] == s[1..][k - 1];
      }
    }
  }
}
