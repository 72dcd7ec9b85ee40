/**
 * Text helpers shared by the components: the JavaScript rendering of
 * non-negative integers and of numbers that are whole tenths (which is
 * what `Math.round(x * 10) / 10` produces), and first-occurrence search.
 */
module Text {
  import opened Wrappers

  /** The character for a decimal digit. */
  function DigitChar(d: nat): (c: char)
    requires d < 10
    ensures '0' <= c <= '9' && c as int - '0' as int == d
  {
    "0123456789"[d]
  }

  predicate IsAsciiDigit(c: char) {
    '0' <= c <= '9'
  }

  predicate AllDigits(s: string) {
    forall i :: 0 <= i < |s| ==> IsAsciiDigit(s[i])
  }

  /** The value of one ASCII digit. */
  function DigitValue(c: char): (d: nat)
    requires IsAsciiDigit(c)
    ensures d < 10
  {
    c as int - '0' as int
  }

  /** `String(n)` for a non-negative integer: decimal digits, no leading zero. */
  function DecimalText(n: nat): (s: string)
    ensures 1 <= |s|
    ensures AllDigits(s)
    ensures |s| > 1 ==> s[0] != '0'
    decreases n
  {
    if n < 10 then [DigitChar(n)] else DecimalText(n / 10) + [DigitChar(n % 10)]
  }

  /** Reads a string of decimal digits back as a number. */
  function ParseDecimal(s: string): nat
    requires AllDigits(s)
  {
    if s == [] then 0 else ParseDecimal(s[..|s| - 1]) * 10 + DigitValue(s[|s| - 1])
  }

  /** Reading back what DecimalText wrote gives the original number. */
  lemma {:induction false} DecimalRoundTrip(n: nat)
    ensures ParseDecimal(DecimalText(n)) == n
    decreases n
  {
    var s := DecimalText(n);
    if n >= 10 {
      DecimalRoundTrip(n / 10);
      assert s[..|s| - 1] == DecimalText(n / 10);
    }
  }

  /**
   * JavaScript's rendering of the number t/10 for a non-negative integer t:
   * the whole part, then a point and the tenths digit unless that digit is 0
   * (84.6 is "84.6", 85 is "85").
   */
  function TenthsText(t: nat): (s: string)
    ensures |s| > 0 && IsAsciiDigit(s[0])
    ensures '\n' !in s
  {
    var w := DecimalText(t / 10);
    assert '\n' !in w by {
      forall i | 0 <= i < |w| ensures w[i] != '\n' {
        assert IsAsciiDigit(w[i]);
      }
    }
    w + (if t % 10 == 0 then "" else ['.', DigitChar(t % 10)])
  }

  /** Reads a TenthsText rendering back as a number of tenths. */
  function ParseTenths(s: string): nat
  {
    var p := IndexOf(s, '.');
    if AllDigits(s[..p]) then
      ParseDecimal(s[..p]) * 10 + (if p + 2 == |s| && IsAsciiDigit(s[p + 1]) then DigitValue(s[p + 1]) else 0)
    else 0
  }

  /** TenthsText is undone by ParseTenths: distinct values render differently. */
  lemma TenthsRoundTrip(t: nat)
    ensures ParseTenths(TenthsText(t)) == t
  {
    var w, s := DecimalText(t / 10), TenthsText(t);
    DecimalRoundTrip(t / 10);
    IndexOfAppend(w, if t % 10 == 0 then "" else ['.', DigitChar(t % 10)], '.');
    assert s[..|w|] == w;
  }

  /** JavaScript's rendering of the number k/10 for any integer k (a `-` for negatives). */
  function SignedTenthsText(k: int): (s: string)
    ensures (|s| > 0 && s[0] == '-') <==> k < 0
    ensures '\n' !in s
  {
    WithSign(k < 0, TenthsText(if k < 0 then -k else k))
  }

  /** A rendering preceded by a minus sign when neg holds. */
  function WithSign(neg: bool, t: string): string {
    if neg then "-" + t else t
  }

  /** Reads a SignedTenthsText rendering back as a signed number of tenths. */
  function ParseSignedTenths(s: string): int {
    if |s| > 0 && s[0] == '-' then -(ParseTenths(s[1..]) as int) else ParseTenths(s)
  }

  /** SignedTenthsText is undone by ParseSignedTenths: distinct values render differently. */
  lemma SignedTenthsRoundTrip(k: int)
    ensures ParseSignedTenths(SignedTenthsText(k)) == k
  {
    var n: nat := if k < 0 then -k else k;
    TenthsRoundTrip(n);
    ParseWithSign(k < 0, TenthsText(n));
  }

  /** The sign is read back, and the rest is read as unsigned, when t starts with a digit. */
  lemma ParseWithSign(neg: bool, t: string)
    requires |t| > 0 && IsAsciiDigit(t[0])
    ensures ParseSignedTenths(WithSign(neg, t)) == if neg then -(ParseTenths(t) as int) else ParseTenths(t) as int
  {
    if neg {
      assert WithSign(neg, t)[1..] == t;
    }
  }

  /** Index of the first occurrence of c in s, or |s| when c does not occur. */
  function IndexOf(s: string, c: char): (r: nat)
    ensures r <= |s|
    ensures r < |s| ==> s[r] == c
    ensures forall k :: 0 <= k < r ==> s[k] != c
    ensures r == |s| <==> c !in s
  {
    if s == [] then 0 else if s[0] == c then 0 else 1 + IndexOf(s[1..], c)
  }

  /** Searching a concatenation whose first part lacks c skips that part. */
  lemma {:induction false} IndexOfAppend(a: string, b: string, c: char)
    requires c !in a
    ensures IndexOf(a + b, c) == |a| + IndexOf(b, c)
  {
    if a == [] {
      assert a + b == b;
    } else {
      assert (a + b)[0] == a[0] && (a + b)[1..] == a[1..] + b;
      IndexOfAppend(a[1..], b, c);
    }
  }

  /** One line of a message: a fixed prefix, a text, a fixed suffix and the line break. */
  function Line(prefix: string, text: string, suffix: string): string {
    prefix + text + suffix + "\n"
  }

  /**
   * Reads the line at the head of s that starts with prefix and whose text
   * before the line break ends with suffix: the text between them and what
   * follows the line break.
   */
  function SplitLine(s: string, prefix: string, suffix: string): Option<(string, string)> {
    if |s| < |prefix| || s[..|prefix|] != prefix then None
    else
      var r := s[|prefix|..];
      var n := IndexOf(r, '\n');
      if n < |r| && |suffix| <= n && r[n - |suffix|..n] == suffix then Some((r[..n - |suffix|], r[n + 1..]))
      else None
  }

  /** A line whose text and suffix hold no line break is read back exactly, with the rest after it. */
  lemma SplitLineRoundTrip(prefix: string, text: string, suffix: string, rest: string)
    requires '\n' !in text && '\n' !in suffix
    ensures SplitLine(Line(prefix, text, suffix) + rest, prefix, suffix) == Some((text, rest))
  {
    var s := Line(prefix, text, suffix) + rest;
    var tail := "\n" + rest;
    assert s == prefix + (text + suffix + tail);
    assert s[..|prefix|] == prefix;
    var r := s[|prefix|..];
    assert r == (text + suffix) + tail;
    IndexOfAppend(text + suffix, tail, '\n');
    assert IndexOf(tail, '\n') == 0;
    var n := |text + suffix|;
    assert r[n - |suffix|..n] == suffix;
    assert r[..n - |suffix|] == text;
    assert r[n + 1..] == rest;
  }
}
