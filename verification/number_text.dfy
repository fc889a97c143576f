/**
 * How a JavaScript number that is a safe integer renders inside a template
 * literal (`${n}`): an optional minus sign followed by the canonical decimal
 * digits. A parser for that text is given as the rendering's inverse.
 */
module NumberText {
  import opened Wrappers

  /** Number.MAX_SAFE_INTEGER, 2^53 - 1. */
  const MaxSafeInteger: int := 9007199254740991

  /**
   * The integers n for which `Number.isSafeInteger(n)` holds. Above this bound
   * a JavaScript number can no longer hold every integer, and from 10^21 on it
   * renders with an exponent.
   */
  type SafeInteger = n: int | -MaxSafeInteger <= n <= MaxSafeInteger

  predicate IsDigit(ch: char) {
    '0' <= ch <= '9'
  }

  function DigitValue(ch: char): (d: nat)
    requires IsDigit(ch)
    ensures d < 10
  {
    (ch as int) - ('0' as int)
  }

  function DigitChar(d: nat): (ch: char)
    requires d < 10
    ensures IsDigit(ch) && DigitValue(ch) == d
  {
    (('0' as int) + d) as char
  }

  predicate IsDigits(s: string) {
    forall i :: 0 <= i < |s| ==> IsDigit(s[i])
  }

  /** Non-empty digits with no leading zero, except the text "0" itself. */
  predicate IsCanonical(s: string) {
    |s| > 0 && IsDigits(s) && (s[0] == '0' ==> |s| == 1)
  }

  /** The decimal digits of `n`, most significant first. */
  function NatToDecimal(n: nat): (s: string)
    ensures IsCanonical(s)
    ensures s[0] == '0' <==> n == 0
    decreases n
  {
    if n < 10 then [DigitChar(n)] else NatToDecimal(n / 10) + [DigitChar(n % 10)]
  }

  /** The value of a digit string, read most significant digit first. */
  function DecimalValue(s: string): nat
    requires IsDigits(s)
    decreases |s|
  {
    if s == [] then 0 else DecimalValue(s[..|s| - 1]) * 10 + DigitValue(s[|s| - 1])
  }

  /** `${n}` for a safe integer `n`. */
  function NumberToString(n: SafeInteger): (s: string)
    ensures |s| > 0
    ensures forall i :: 0 <= i < |s| ==> IsDigit(s[i]) || (i == 0 && s[i] == '-')
  {
    if n < 0 then "-" + NatToDecimal(-n) else NatToDecimal(n)
  }

  /** Reads back the text `NumberToString` produces; anything else is rejected. */
  function ParseNumber(s: string): Option<int> {
    if |s| > 0 && s[0] == '-' then
      if IsCanonical(s[1..]) && s[1..] != "0" then Some(-(DecimalValue(s[1..]) as int)) else None
    else if IsCanonical(s) then Some(DecimalValue(s))
    else None
  }

  lemma {:induction false} DecimalRoundTrip(n: nat)
    ensures DecimalValue(NatToDecimal(n)) == n
    decreases n
  {
    if n >= 10 {
      var p := NatToDecimal(n / 10);
      var s := p + [DigitChar(n % 10)];
      assert s[..|s| - 1] == p;
      DecimalRoundTrip(n / 10);
    } else {
      var s := [DigitChar(n)];
      assert s[..|s| - 1] == [];
    }
  }

  /** A canonical digit string that does not start with '0' denotes a positive number. */
  lemma {:induction false} CanonicalPositive(s: string)
    requires IsCanonical(s) && s[0] != '0'
    ensures DecimalValue(s) >= 1
    decreases |s|
  {
    if |s| > 1 {
      var p := s[..|s| - 1];
      assert p[0] == s[0];
      CanonicalPositive(p);
    }
  }

  lemma {:induction false} CanonicalRoundTrip(s: string)
    requires IsCanonical(s)
    ensures NatToDecimal(DecimalValue(s)) == s
    decreases |s|
  {
    var v := DecimalValue(s);
    if |s| == 1 {
      var e: string := s[..|s| - 1];
      assert e == [];
      assert DecimalValue(e) == 0;
      assert v == DigitValue(s[0]);
      assert NatToDecimal(v) == [DigitChar(v)];
    } else {
      var p := s[..|s| - 1];
      assert p[0] == s[0];
      assert IsCanonical(p);
      CanonicalPositive(p);
      var d := DigitValue(s[|s| - 1]);
      assert v == DecimalValue(p) * 10 + d;
      assert v / 10 == DecimalValue(p) && v % 10 == d;
      CanonicalRoundTrip(p);
      assert DigitChar(d) == s[|s| - 1];
      assert s == p + [s[|s| - 1]];
    }
  }

  /** Reading a rendered safe integer gives the integer back. */
  lemma NumberRoundTrip(n: SafeInteger)
    ensures ParseNumber(NumberToString(n)) == Some(n)
  {
    if n < 0 {
      var s := NumberToString(n);
      assert s[1..] == NatToDecimal(-n);
      DecimalRoundTrip(-n);
    } else {
      DecimalRoundTrip(n);
    }
  }

  /** Every text the parser accepts is the rendering of what it reads. */
  lemma ParseNumberCanonical(s: string)
    requires ParseNumber(s).Some?
    requires -MaxSafeInteger <= ParseNumber(s).value <= MaxSafeInteger
    ensures NumberToString(ParseNumber(s).value) == s
  {
    if |s| > 0 && s[0] == '-' {
      CanonicalRoundTrip(s[1..]);
      CanonicalPositive(s[1..]);
      assert s == "-" + s[1..];
    } else {
      CanonicalRoundTrip(s);
    }
  }
}
