/** String helpers used by the analysis: substring search (`String.prototype.includes`),
    the decimal rendering of numbers inside template literals, `Array.prototype.join`
    and the first word of `split(' ')`. */
module Strings {

  predicate IsPrefix(p: string, s: string) {
    |p| <= |s| && s[..|p|] == p
  }

  /** `s.includes(pattern)`: `pattern` occurs somewhere in `s` (the empty pattern always does). */
  predicate Contains(s: string, pattern: string)
    decreases |s|
  {
    IsPrefix(pattern, s) || (|s| > 0 && Contains(s[1..], pattern))
  }

  lemma {:induction false} ContainsAt(s: string, pattern: string, i: nat)
    requires i + |pattern| <= |s| && s[i..i + |pattern|] == pattern
    ensures Contains(s, pattern)
    decreases i
  {
    if i > 0 {
      assert s[1..][i - 1..i - 1 + |pattern|] == s[i..i + |pattern|];
      ContainsAt(s[1..], pattern, i - 1);
    }
  }

  lemma {:induction false} ContainsWitness(s: string, pattern: string)
    requires Contains(s, pattern)
    ensures exists i :: 0 <= i <= |s| - |pattern| && s[i..][..|pattern|] == pattern
    decreases |s|
  {
    if IsPrefix(pattern, s) {
      assert s[0..][..|pattern|] == pattern;
    } else {
      ContainsWitness(s[1..], pattern);
      var i :| 0 <= i <= |s[1..]| - |pattern| && s[1..][i..][..|pattern|] == pattern;
      assert s[1..][i..] == s[i + 1..];
    }
  }

  function DigitChar(d: nat): (c: char)
    requires d < 10
  {
    "0123456789"[d]
  }

  predicate IsDigit(c: char) {
    '0' <= c <= '9'
  }

  function DigitValue(c: char): nat
    requires IsDigit(c)
  {
    (c as int - '0' as int) as nat
  }

  /** The decimal digits of `n`, without leading zeros. */
  function NatToString(n: nat): (s: string)
    decreases n
  {
    if n < 10 then [DigitChar(n)] else NatToString(n / 10) + [DigitChar(n % 10)]
  }

  /** How a JavaScript template literal renders an integral number. */
  function IntToString(i: int): (s: string) {
    if i < 0 then "-" + NatToString(-i) else NatToString(i)
  }

  function DigitsToNat(s: string): nat
    requires forall k :: 0 <= k < |s| ==> IsDigit(s[k])
  {
    if s == [] then 0 else DigitsToNat(s[..|s| - 1]) * 10 + DigitValue(s[|s| - 1])
  }

  /** Reads back a string produced by `IntToString`. */
  function ParseInt(s: string): int
    requires forall k :: 0 <= k < |s| ==> IsDigit(s[k]) || (k == 0 && s[k] == '-')
  {
    if |s| > 0 && s[0] == '-' then 0 - (DigitsToNat(s[1..]) as int) else DigitsToNat(s)
  }

  lemma {:induction false} NatToStringDigits(n: nat)
    ensures |NatToString(n)| > 0
    ensures forall k :: 0 <= k < |NatToString(n)| ==> IsDigit(NatToString(n)[k])
    ensures DigitsToNat(NatToString(n)) == n
    decreases n
  {
    var d := n % 10;
    DigitCharValue(d);
    if n >= 10 {
      NatToStringDigits(n / 10);
      var p := NatToString(n / 10);
      var s := p + [DigitChar(d)];
      assert s[..|s| - 1] == p && s[|s| - 1] == DigitChar(d);
      assert DigitsToNat(s) == DigitsToNat(p) * 10 + d;
      assert n == (n / 10) * 10 + d;
    }
  }

  lemma {:induction false} DigitCharValue(d: nat)
    requires d < 10
    ensures IsDigit(DigitChar(d)) && DigitValue(DigitChar(d)) == d
  {
  }

  /** Rendering an integer and reading it back gives the integer. */
  lemma {:induction false} IntToStringRoundTrip(i: int)
    ensures |IntToString(i)| > 0
    ensures forall k :: 0 <= k < |IntToString(i)| ==>
              IsDigit(IntToString(i)[k]) || (k == 0 && IntToString(i)[k] == '-')
    ensures ParseInt(IntToString(i)) == i
  {
    if i < 0 {
      NatToStringDigits(-i);
      assert IntToString(i)[1..] == NatToString(-i);
    } else {
      NatToStringDigits(i);
    }
  }

  /** A rendered integer never contains a character other than a digit or a leading minus. */
  lemma {:induction false} IntToStringHasNo(i: int, c: char)
    requires !IsDigit(c) && c != '-'
    ensures c !in IntToString(i)
  {
    IntToStringRoundTrip(i);
  }

  lemma {:induction false} IntToStringInjective(a: int, b: int)
    ensures IntToString(a) == IntToString(b) <==> a == b
  {
    IntToStringRoundTrip(a);
    IntToStringRoundTrip(b);
  }

  /** `parts.join(sep)`. */
  function Join(parts: seq<string>, sep: string): string {
    if parts == [] then ""
    else if |parts| == 1 then parts[0]
    else parts[0] + sep + Join(parts[1..], sep)
  }

  /** `s.split(' ')[0]`: everything before the first space, or all of `s`. */
  function FirstWord(s: string): (w: string)
    ensures IsPrefix(w, s) && ' ' !in w
    ensures |w| < |s| ==> s[|w|] == ' '
  {
    if s == [] then ""
    else if s[0] == ' ' then ""
    else [s[0]] + FirstWord(s[1..])
  }

  /** The first word of a string depends only on the text before its first space. */
  lemma {:induction false} FirstWordOfSentence(w: string, rest: string)
    requires ' ' !in w
    ensures FirstWord(w + " " + rest) == w
  {
    if w != [] {
      assert (w + " " + rest)[1..] == w[1..] + " " + rest;
      FirstWordOfSentence(w[1..], rest);
    }
  }
}
