/** Decimal rendering of integer ids, as a JavaScript template literal `${n}` renders an integer,
    and a parser that serves as its inverse. */
module Decimal {
  import opened Wrappers

  predicate IsDigit(c: char) {
    '0' <= c <= '9'
  }

  function DigitValue(c: char): (d: nat)
    requires IsDigit(c)
    ensures d < 10
  {
    c as int - '0' as int
  }

  function DigitChar(d: nat): (c: char)
    requires d < 10
    ensures IsDigit(c) && DigitValue(c) == d
  {
    ('0' as int + d) as char
  }

  /** The decimal digits of `n`, most significant first, with no leading zero. */
  function NatToString(n: nat): (s: string)
    ensures |s| > 0
    ensures forall i :: 0 <= i < |s| ==> IsDigit(s[i])
    ensures s[0] == '0' ==> n == 0
    decreases n
  {
    if n < 10 then [DigitChar(n)] else NatToString(n / 10) + [DigitChar(n % 10)]
  }

  /** `${n}` for an integer `n`: a minus sign before the digits of a negative number. */
  function IntToString(n: int): (s: string)
    ensures |s| > 0
    ensures s[0] == '-' <==> n < 0
    ensures n < 0 ==> s[1..] == NatToString(-n)
    ensures n >= 0 ==> s == NatToString(n)
  {
    if n < 0 then "-" + NatToString(-n) else NatToString(n)
  }

  /** The value of a canonical numeral: a non-empty string of decimal digits with no leading zero
      (other than "0" itself); None for anything else. */
  function ParseNat(s: string): Option<nat>
    decreases |s|
  {
    if |s| == 0 || !IsDigit(s[|s| - 1]) || (|s| > 1 && s[0] == '0') then None
    else if |s| == 1 then Some(DigitValue(s[0]))
    else
      match ParseNat(s[..|s| - 1])
      case None => None
      case Some(v) => Some(10 * v + DigitValue(s[|s| - 1]))
  }

  /** An optional minus sign followed by a canonical numeral; "-0" is not a rendering of any id. */
  function ParseInt(s: string): Option<int>
  {
    if |s| > 0 && s[0] == '-' then
      match ParseNat(s[1..])
      case None => None
      case Some(v) => if v == 0 then None else Some(0 - v as int)
    else
      match ParseNat(s)
      case None => None
      case Some(v) => Some(v)
  }

  lemma {:induction false} ParseNatOfNatToString(n: nat)
    ensures ParseNat(NatToString(n)) == Some(n)
    decreases n
  {
    if n >= 10 {
      var s := NatToString(n);
      ParseNatOfNatToString(n / 10);
      assert s[..|s| - 1] == NatToString(n / 10);
    }
  }

  /** Rendering an id and reading it back yields the id: distinct ids give distinct strings. */
  lemma ParseIntOfIntToString(n: int)
    ensures ParseInt(IntToString(n)) == Some(n)
  {
    var s := IntToString(n);
    if n < 0 {
      assert s[1..] == NatToString(-n);
      ParseNatOfNatToString(-n);
    } else {
      assert IsDigit(s[0]);
      ParseNatOfNatToString(n);
    }
  }

  lemma IntToStringInjective(a: int, b: int)
    ensures IntToString(a) == IntToString(b) ==> a == b
  {
    ParseIntOfIntToString(a);
    ParseIntOfIntToString(b);
  }

  /** A numeral the parser accepts is the rendering of its value: no other spelling is read. */
  lemma {:induction false} NatToStringOfParseNat(s: string, n: nat)
    requires ParseNat(s) == Some(n)
    ensures s == NatToString(n)
    decreases |s|
  {
    if |s| == 1 {
      assert DigitChar(DigitValue(s[0])) == s[0];
    } else {
      var prefix := s[..|s| - 1];
      var v :| ParseNat(prefix) == Some(v);
      NatToStringOfParseNat(prefix, v);
      assert prefix[0] == s[0];
      assert v != 0;
      assert DigitChar(DigitValue(s[|s| - 1])) == s[|s| - 1];
      assert s == prefix + [s[|s| - 1]];
    }
  }

  /** The id read from a URL segment determines that segment exactly. */
  lemma IntToStringOfParseInt(s: string, n: int)
    requires ParseInt(s) == Some(n)
    ensures s == IntToString(n)
  {
    if |s| > 0 && s[0] == '-' {
      NatToStringOfParseNat(s[1..], -n);
      assert s == "-" + s[1..];
    } else {
      NatToStringOfParseNat(s, n);
    }
  }
}
