/**
  The JavaScript coercions both pages lean on: the digit regular expression
  `^\d*$`, `parseInt` with a fallback, `Number.prototype.toString` on integers
  and `String.prototype.trim`.
 */
module Js {

  datatype Option<+T> = None | Some(value: T) {
    /** The value when present, otherwise the fallback. */
    function GetOr(fallback: T): T {
      match this
      case Some(v) => v
      case None => fallback
    }
  }

  // ---------------------------------------------------------------------------
  // Digits and the regular expression ^\d*$
  // ---------------------------------------------------------------------------

  predicate IsDigit(c: char) {
    '0' <= c <= '9'
  }

  /**
    The test against `^\d*$`, matched the way the star matches: the empty
    string, or a digit followed by a match. It holds exactly when every
    character is an ASCII digit.
   */
  predicate IsDigits(s: string)
    ensures IsDigits(s) <==> forall i :: 0 <= i < |s| ==> IsDigit(s[i])
  {
    s == [] || (IsDigit(s[0]) && IsDigits(s[1..]))
  }

  function DigitValue(c: char): (d: nat)
    requires IsDigit(c)
    ensures d < 10
  {
    c as int - '0' as int
  }

  function DigitChar(d: nat): (c: char)
    requires d < 10
    ensures IsDigit(c) && DigitValue(c) == d
  {
    ('0' as int + d) as char
  }

  /** The decimal value of a digit string, read left to right. */
  function DigitsValue(s: string): nat
    requires IsDigits(s)
  {
    if s == [] then 0 else DigitsValue(s[..|s| - 1]) * 10 + DigitValue(s[|s| - 1])
  }

  /** The longest prefix of `s` made of digits: what `parseInt` reads after the sign. */
  function LeadingDigits(s: string): (r: string)
    ensures IsDigits(r) && |r| <= |s| && r == s[..|r|]
    ensures |r| < |s| ==> !IsDigit(s[|r|])
  {
    if s == [] || !IsDigit(s[0]) then [] else [s[0]] + LeadingDigits(s[1..])
  }

  lemma {:induction false} LeadingDigitsOfDigits(s: string)
    requires IsDigits(s)
    ensures LeadingDigits(s) == s
  {
    if s != [] {
      LeadingDigitsOfDigits(s[1..]);
    }
  }

  // ---------------------------------------------------------------------------
  // parseInt and toString
  // ---------------------------------------------------------------------------

  predicate IsSign(c: char) {
    c == '-' || c == '+'
  }

  /**
    `parseInt(s)`: an optional sign followed by the longest run of digits;
    NaN (here None) when there is no digit. Leading white space and the `0x`
    radix prefix that JavaScript also accepts are not part of this model.
   */
  function ParseInt(s: string): (r: Option<int>)
    ensures r.None? <==> LeadingDigits(if |s| > 0 && IsSign(s[0]) then s[1..] else s) == []
  {
    var signed := |s| > 0 && IsSign(s[0]);
    var digits := LeadingDigits(if signed then s[1..] else s);
    if digits == [] then None
    else
      var magnitude: int := DigitsValue(digits);
      Some(if signed && s[0] == '-' then -magnitude else magnitude)
  }

  /**
    `parseInt` with a fallback for a falsy result: both NaN and 0 give the
    fallback.
   */
  function ParseIntOr(s: string, fallback: int): (n: int)
    ensures n == 0 ==> fallback == 0
    ensures ParseInt(s).Some? && ParseInt(s).value != 0 ==> n == ParseInt(s).value
    ensures ParseInt(s).None? || ParseInt(s) == Some(0) ==> n == fallback
  {
    match ParseInt(s)
    case Some(v) => if v != 0 then v else fallback
    case None => fallback
  }

  /** `n.toString()` for a natural number: its decimal digits, no leading zero. */
  function NatToString(n: nat): (s: string)
    ensures IsDigits(s) && s != []
    ensures |s| > 1 ==> s[0] != '0'
  {
    if n < 10 then [DigitChar(n)] else NatToString(n / 10) + [DigitChar(n % 10)]
  }

  /** `n.toString()` for an integer: a minus sign before the digits of a negative number. */
  function IntToString(n: int): (s: string)
    ensures s != []
  {
    if n < 0 then "-" + NatToString(-n) else NatToString(n)
  }

  lemma {:induction false} NatToStringValue(n: nat)
    ensures DigitsValue(NatToString(n)) == n
  {
    if n >= 10 {
      var s := NatToString(n);
      assert s[..|s| - 1] == NatToString(n / 10);
      NatToStringValue(n / 10);
    }
  }

  /** Reading back what `toString` wrote gives the number again. */
  lemma ParseIntOfString(n: int)
    ensures ParseInt(IntToString(n)) == Some(n)
  {
    var s := IntToString(n);
    var t := NatToString(if n < 0 then -n else n);
    LeadingDigitsOfDigits(t);
    NatToStringValue(if n < 0 then -n else n);
    if n < 0 {
      assert s[0] == '-' && s[1..] == t;
    } else {
      assert s == t && !IsSign(s[0]);
    }
  }

  /** On a digit-only string, parsing with fallback 0 gives its decimal value, 0 for the empty string. */
  lemma ParseDigitsOrZero(s: string)
    requires IsDigits(s)
    ensures ParseIntOr(s, 0) == DigitsValue(s)
  {
    LeadingDigitsOfDigits(s);
  }

  // ---------------------------------------------------------------------------
  // trim
  // ---------------------------------------------------------------------------

  /**
    The white space `trim` strips: the ASCII controls TAB, LF, VT, FF, CR,
    SPACE, and NO-BREAK SPACE, the line and paragraph separators and the byte
    order mark. The other Unicode space separators are not part of this model.
   */
  predicate IsSpace(c: char) {
    c == ' ' || c == '\t' || c == '\n' || c == '\r' || c == '\U{000B}' || c == '\U{000C}'
    || c == '\U{00A0}' || c == '\U{2028}' || c == '\U{2029}' || c == '\U{FEFF}'
  }

  predicate AllSpace(s: string) {
    forall i :: 0 <= i < |s| ==> IsSpace(s[i])
  }

  /** Neither end of `s` is white space. */
  predicate IsTrimmed(s: string) {
    s == [] || (!IsSpace(s[0]) && !IsSpace(s[|s| - 1]))
  }

  function TrimStart(s: string): (r: string)
    ensures |r| <= |s| && r == s[|s| - |r|..]
    ensures AllSpace(s[..|s| - |r|])
    ensures r == [] || !IsSpace(r[0])
  {
    if s == [] || !IsSpace(s[0]) then s else TrimStart(s[1..])
  }

  function TrimEnd(s: string): (r: string)
    ensures |r| <= |s| && r == s[..|r|]
    ensures AllSpace(s[|r|..])
    ensures r == [] || !IsSpace(r[|r| - 1])
  {
    if s == [] || !IsSpace(s[|s| - 1]) then s else TrimEnd(s[..|s| - 1])
  }

  /** `s.trim()`: white space stripped from both ends, so that neither end is white space. */
  function Trim(s: string): (r: string)
    ensures IsTrimmed(r)
    ensures |r| <= |s|
  {
    var t := TrimStart(s);
    var r := TrimEnd(t);
    assert r != [] ==> r[0] == t[0];
    r
  }

  /** A trimmed string is its own trim, hence trimming twice is trimming once. */
  lemma {:induction false} TrimOfTrimmed(s: string)
    requires IsTrimmed(s)
    ensures Trim(s) == s
  {
    assert TrimStart(s) == s;
  }

  lemma TrimIdempotent(s: string)
    ensures Trim(Trim(s)) == Trim(s)
  {
    TrimOfTrimmed(Trim(s));
  }

  /** A string of white space only trims to the empty string. */
  lemma {:induction false} TrimAllSpace(s: string)
    requires AllSpace(s)
    ensures Trim(s) == []
  {
    if s != [] {
      TrimAllSpace(s[1..]);
      assert TrimStart(s) == TrimStart(s[1..]);
    }
  }

  /** Trimming removes white space from the ends and nothing else: the result is a slice of `s` between two runs of white space. */
  lemma TrimRemovesOnlySpace(s: string)
    ensures exists i, j :: 0 <= i <= j <= |s| && Trim(s) == s[i..j] && AllSpace(s[..i]) && AllSpace(s[j..])
  {
    var t := TrimStart(s);
    var r := Trim(s);
    var i := |s| - |t|;
    assert r == TrimEnd(t);
    assert s[i..i + |r|] == t[..|r|];
    assert s[i + |r|..] == t[|r|..];
  }
}
