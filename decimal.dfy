/** How a whole JavaScript number is written into a template string
    (`${n}`): an optional minus sign followed by its decimal digits.
    The readers below recover the number from the text around it; they
    are the partner of the writer and are used to state what the order
    message says about the table and the total. */
module Decimal {
  import opened Wrappers

  predicate IsDigit(c: char) {
    '0' <= c <= '9'
  }

  predicate AllDigits(s: string) {
    forall i | 0 <= i < |s| :: IsDigit(s[i])
  }

  function DigitChar(d: int): (c: char)
    requires 0 <= d < 10
    ensures IsDigit(c)
  {
    (('0' as int) + d) as char
  }

  function DigitValue(c: char): (d: int)
    requires IsDigit(c)
    ensures 0 <= d < 10
  {
    (c as int) - ('0' as int)
  }

  /** The digits of a non-negative whole number, most significant first. */
  function NatToString(n: nat): (s: string)
    ensures |s| >= 1 && AllDigits(s)
    ensures s[0] == '0' ==> n == 0
  {
    if n < 10 then [DigitChar(n)] else NatToString(n / 10) + [DigitChar(n % 10)]
  }

  /** `${n}` for a whole number n (no exponent form; see README). */
  function IntToString(n: int): string {
    if n < 0 then "-" + NatToString(-n) else NatToString(n)
  }

  /** The value of a run of decimal digits. */
  function ParseDigits(s: string): nat
    requires AllDigits(s)
  {
    if s == [] then 0 else ParseDigits(s[..|s| - 1]) * 10 + DigitValue(s[|s| - 1])
  }

  lemma {:induction false} NatToStringRoundTrip(n: nat)
    ensures ParseDigits(NatToString(n)) == n
  {
    var s := NatToString(n);
    if n >= 10 {
      NatToStringRoundTrip(n / 10);
      assert s[..|s| - 1] == NatToString(n / 10);
    }
  }

  /** The run of digits at the start of s (see LeadingDigitsIsLongest). */
  function LeadingDigits(s: string): (d: string)
    ensures AllDigits(d) && |d| <= |s|
  {
    if s == [] || !IsDigit(s[0]) then [] else [s[0]] + LeadingDigits(s[1..])
  }

  /** The run of digits at the end of s (see TrailingDigitsIsLongest). */
  function TrailingDigits(s: string): (d: string)
    ensures AllDigits(d) && |d| <= |s|
  {
    if s == [] || !IsDigit(s[|s| - 1]) then [] else TrailingDigits(s[..|s| - 1]) + [s[|s| - 1]]
  }

  /** LeadingDigits(s) is a prefix of s, and the character after it, if
      any, is not a digit: it is the longest prefix made of digits. */
  lemma {:induction false} LeadingDigitsIsLongest(s: string)
    ensures LeadingDigits(s) <= s
    ensures |LeadingDigits(s)| < |s| ==> !IsDigit(s[|LeadingDigits(s)|])
  {
    if s != [] && IsDigit(s[0]) {
      LeadingDigitsIsLongest(s[1..]);
    }
  }

  /** TrailingDigits(s) is a suffix of s, and the character before it, if
      any, is not a digit: it is the longest suffix made of digits. */
  lemma {:induction false} TrailingDigitsIsLongest(s: string)
    ensures var d := TrailingDigits(s);
            d == s[|s| - |d|..] && (|d| < |s| ==> !IsDigit(s[|s| - |d| - 1]))
  {
    if s != [] && IsDigit(s[|s| - 1]) {
      var init := s[..|s| - 1];
      TrailingDigitsIsLongest(init);
      var d := TrailingDigits(init);
      assert init[|init| - |d|..] + [s[|s| - 1]] == s[|s| - |d| - 1..];
    }
  }

  /** Reads the whole number written at the start of s, if there is one. */
  function ReadLeadingInt(s: string): Option<int> {
    if |s| > 0 && s[0] == '-' then
      var d := LeadingDigits(s[1..]);
      if d == [] then None else Some(-(ParseDigits(d) as int))
    else
      var d := LeadingDigits(s);
      if d == [] then None else Some(ParseDigits(d))
  }

  /** Reads the whole number written at the end of s, if there is one. */
  function ReadTrailingInt(s: string): Option<int> {
    var d := TrailingDigits(s);
    if d == [] then None
    else if |d| < |s| && s[|s| - |d| - 1] == '-' then Some(-(ParseDigits(d) as int))
    else Some(ParseDigits(d))
  }

  lemma {:induction false} LeadingDigitsOfDigits(d: string, rest: string)
    requires AllDigits(d)
    requires rest == [] || !IsDigit(rest[0])
    ensures LeadingDigits(d + rest) == d
  {
    if d != [] {
      assert (d + rest)[1..] == d[1..] + rest;
      LeadingDigitsOfDigits(d[1..], rest);
    } else {
      assert d + rest == rest;
    }
  }

  lemma {:induction false} TrailingDigitsOfDigits(prefix: string, d: string)
    requires AllDigits(d)
    requires prefix == [] || !IsDigit(prefix[|prefix| - 1])
    ensures TrailingDigits(prefix + d) == d
  {
    if d != [] {
      assert (prefix + d)[..|prefix + d| - 1] == prefix + d[..|d| - 1];
      TrailingDigitsOfDigits(prefix, d[..|d| - 1]);
    } else {
      assert prefix + d == prefix;
    }
  }

  /** A number written at the start of a text, followed by anything that
      does not continue it, is read back exactly. */
  lemma {:induction false} LeadingIntRoundTrip(n: int, rest: string)
    requires rest == [] || !IsDigit(rest[0])
    ensures ReadLeadingInt(IntToString(n) + rest) == Some(n)
  {
    if n < 0 {
      LeadingNegativeRoundTrip(-n, rest);
    } else {
      LeadingNatRoundTrip(n, rest);
    }
  }

  lemma {:induction false} LeadingNatRoundTrip(m: nat, rest: string)
    requires rest == [] || !IsDigit(rest[0])
    ensures ReadLeadingInt(NatToString(m) + rest) == Some(m)
  {
    ReadLeadingDigits(NatToString(m), rest);
    NatToStringRoundTrip(m);
  }

  lemma {:induction false} LeadingNegativeRoundTrip(m: nat, rest: string)
    requires rest == [] || !IsDigit(rest[0])
    ensures ReadLeadingInt("-" + NatToString(m) + rest) == Some(-(m as int))
  {
    ReadLeadingMinus(NatToString(m), rest);
    NatToStringRoundTrip(m);
  }

  lemma {:induction false} ReadLeadingDigits(d: string, rest: string)
    requires AllDigits(d) && d != []
    requires rest == [] || !IsDigit(rest[0])
    ensures ReadLeadingInt(d + rest) == Some(ParseDigits(d))
  {
    assert (d + rest)[0] == d[0];
    LeadingDigitsOfDigits(d, rest);
  }

  lemma {:induction false} ReadLeadingMinus(d: string, rest: string)
    requires AllDigits(d) && d != []
    requires rest == [] || !IsDigit(rest[0])
    ensures ReadLeadingInt("-" + d + rest) == Some(-(ParseDigits(d) as int))
  {
    var s := "-" + d + rest;
    assert s[1..] == d + rest;
    LeadingDigitsOfDigits(d, rest);
  }

  lemma {:induction false} ReadTrailingDigits(before: string, d: string)
    requires AllDigits(d) && d != []
    requires before == [] || !IsDigit(before[|before| - 1])
    ensures ReadTrailingInt(before + d)
         == if before != [] && before[|before| - 1] == '-' then Some(-(ParseDigits(d) as int))
            else Some(ParseDigits(d))
  {
    var s := before + d;
    TrailingDigitsOfDigits(before, d);
    var minus := before != [] && before[|before| - 1] == '-';
    if before != [] {
      assert s[|s| - |d| - 1] == before[|before| - 1];
    }
    ReadTrailingOf(s, d, minus);
  }

  lemma {:induction false} ReadTrailingOf(s: string, d: string, minus: bool)
    requires TrailingDigits(s) == d && d != []
    requires minus <==> |d| < |s| && s[|s| - |d| - 1] == '-'
    ensures ReadTrailingInt(s) == if minus then Some(-(ParseDigits(d) as int)) else Some(ParseDigits(d))
  {
  }

  /** A number written at the end of a text, after a character that is
      neither a digit nor a minus sign, is read back exactly. */
  lemma {:induction false} TrailingIntRoundTrip(prefix: string, n: int)
    requires prefix == [] || (!IsDigit(prefix[|prefix| - 1]) && prefix[|prefix| - 1] != '-')
    ensures ReadTrailingInt(prefix + IntToString(n)) == Some(n)
  {
    if n < 0 {
      TrailingNegativeRoundTrip(prefix, -n);
    } else {
      TrailingNatRoundTrip(prefix, n);
    }
  }

  lemma {:induction false} TrailingNatRoundTrip(prefix: string, n: nat)
    requires prefix == [] || (!IsDigit(prefix[|prefix| - 1]) && prefix[|prefix| - 1] != '-')
    ensures ReadTrailingInt(prefix + NatToString(n)) == Some(n)
  {
    ReadTrailingDigits(prefix, NatToString(n));
    NatToStringRoundTrip(n);
  }

  lemma {:induction false} TrailingNegativeRoundTrip(prefix: string, m: nat)
    requires prefix == [] || !IsDigit(prefix[|prefix| - 1])
    ensures ReadTrailingInt(prefix + ("-" + NatToString(m))) == Some(-(m as int))
  {
    TrailingMinus(prefix, NatToString(m));
    NatToStringRoundTrip(m);
  }

  lemma {:induction false} TrailingMinus(prefix: string, d: string)
    requires AllDigits(d) && d != []
    requires prefix == [] || !IsDigit(prefix[|prefix| - 1])
    ensures ReadTrailingInt(prefix + ("-" + d)) == Some(-(ParseDigits(d) as int))
  {
    var before := prefix + "-";
    assert prefix + ("-" + d) == before + d;
    ReadTrailingDigits(before, d);
  }
}
