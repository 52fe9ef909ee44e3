/**
  Text helpers the analyzer's rendered output depends on: Python's decimal
  rendering of a non-negative `int` (`str(k)`) and Python's substring test
  (`pattern in text`).
 */
module Strings {

  /** True iff `c` is one of the ASCII decimal digits. */
  predicate IsDigit(c: char) {
    '0' <= c <= '9'
  }

  /** The ASCII character of a single decimal digit. */
  function DigitChar(d: nat): (c: char)
    requires d < 10
    ensures IsDigit(c) && DigitValue(c) == d
  {
    (48 + d) as char
  }

  /** The value of a decimal digit character. */
  function DigitValue(c: char): nat
    requires IsDigit(c)
  {
    c as int - 48
  }

  /** The number a string of decimal digits denotes, most significant digit first. */
  function DigitsValue(s: string): nat
    requires forall i :: 0 <= i < |s| ==> IsDigit(s[i])
  {
    if s == [] then 0 else 10 * DigitsValue(s[..|s| - 1]) + DigitValue(s[|s| - 1])
  }

  /**
    `str(k)` for a non-negative Python int: the decimal digits that denote
    `k`, with no leading zero except in "0" itself.
   */
  function NatToString(k: nat): (s: string)
    ensures |s| >= 1
    ensures forall i :: 0 <= i < |s| ==> IsDigit(s[i])
    ensures DigitsValue(s) == k
    ensures s[0] == '0' <==> k == 0
    ensures k == 0 ==> s == "0"
  {
    if k < 10 then [DigitChar(k)]
    else
      var high := NatToString(k / 10);
      var s := high + [DigitChar(k % 10)];
      assert s[..|s| - 1] == high;
      s
  }

  /** The most significant decimal digit of `k`. */
  function LeadingDigit(k: nat): (d: nat)
    ensures d < 10
    ensures k >= 10 ==> d >= 1
    ensures k < 10 ==> d == k
  {
    if k < 10 then k else LeadingDigit(k / 10)
  }

  /** The decimal rendering starts with the leading digit. */
  lemma {:induction false} NatToStringHead(k: nat)
    ensures NatToString(k)[0] == DigitChar(LeadingDigit(k))
  {
    if k >= 10 {
      NatToStringHead(k / 10);
    }
  }

  /** `p` is a prefix of `s`. */
  predicate IsPrefix(p: string, s: string) {
    |p| <= |s| && s[..|p|] == p
  }

  /** Python's `pattern in text`: some position of `text` starts a copy of `pattern`. */
  predicate Contains(text: string, pattern: string)
    decreases |text|
  {
    IsPrefix(pattern, text) || (|text| > 0 && Contains(text[1..], pattern))
  }

  /** A one-character pattern occurs iff that character occurs. */
  lemma {:induction false} ContainsChar(text: string, c: char)
    ensures Contains(text, [c]) <==> c in text
    decreases |text|
  {
    if |text| > 0 {
      ContainsChar(text[1..], c);
      assert text == [text[0]] + text[1..];
    }
  }

  /**
    A prefix that never holds the first character of the pattern cannot start
    an occurrence, so only the rest of the text matters.
   */
  lemma {:induction false} SkipPrefix(a: string, b: string, pattern: string)
    requires |pattern| > 0 && pattern[0] !in a
    ensures Contains(a + b, pattern) <==> Contains(b, pattern)
    decreases |a|
  {
    if |a| > 0 {
      assert (a + b)[0] == a[0];
      assert (a + b)[1..] == a[1..] + b;
      SkipPrefix(a[1..], b, pattern);
    } else {
      assert a + b == b;
    }
  }

  /** Text without the pattern's first character holds no occurrence. */
  lemma NoOccurrence(a: string, pattern: string)
    requires |pattern| > 0 && pattern[0] !in a
    ensures !Contains(a, pattern)
  {
    SkipPrefix(a, [], pattern);
    assert a + [] == a;
  }
}
