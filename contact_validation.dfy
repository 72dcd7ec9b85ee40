/**
 * The two string predicates that gate the contact form: the phone check
 * (remove separators, then 9 to 15 ASCII digits) and the email check
 * (the regular expression `^[^\s@]+@[^\s@]+\.[^\s@]+$`).
 */
module ContactValidation {
  import opened Text

  /** A character matched by `\s` in a JavaScript regular expression. */
  predicate IsJsWhitespace(c: char) {
    || c == '\t' || c == '\n' || c == '\U{000B}' || c == '\U{000C}' || c == '\r' || c == ' '
    || c == '\U{00A0}' || c == '\U{1680}' || ('\U{2000}' <= c <= '\U{200A}')
    || c == '\U{2028}' || c == '\U{2029}' || c == '\U{202F}' || c == '\U{205F}'
    || c == '\U{3000}' || c == '\U{FEFF}'
  }

  /** A character removed by `/[\s\-\+\(\)]/g`. */
  predicate IsSeparator(c: char)
    ensures IsSeparator(c) ==> !IsAsciiDigit(c)
  {
    IsJsWhitespace(c) || c == '-' || c == '+' || c == '(' || c == ')'
  }

  /** `phone.replace(/[\s\-\+\(\)]/g, '')`: the string with every separator removed, order kept. */
  function StripSeparators(s: string): (r: string)
    ensures |r| <= |s|
  {
    if s == [] then []
    else if IsSeparator(s[0]) then StripSeparators(s[1..])
    else [s[0]] + StripSeparators(s[1..])
  }

  /** Stripping keeps exactly the characters that are not separators. */
  lemma {:induction false} StripMembers(s: string, c: char)
    ensures c in StripSeparators(s) <==> c in s && !IsSeparator(c)
  {
    if s != [] {
      StripMembers(s[1..], c);
      assert s == [s[0]] + s[1..];
    }
  }

  /** `validatePhone`: after removing separators, 9 to 15 characters, all ASCII digits. */
  predicate ValidPhone(s: string)
    ensures ValidPhone(s) ==> 9 <= |s|
  {
    var d := StripSeparators(s);
    9 <= |d| <= 15 && AllDigits(d)
  }

  /** Removing separators twice removes nothing more. */
  lemma {:induction false} StripIdempotent(s: string)
    ensures StripSeparators(StripSeparators(s)) == StripSeparators(s)
  {
    if s != [] {
      StripIdempotent(s[1..]);
      if !IsSeparator(s[0]) {
        var rest := StripSeparators(s[1..]);
        assert ([s[0]] + rest)[1..] == rest;
      }
    }
  }

  /** Stripping distributes over concatenation. */
  lemma {:induction false} StripAppend(a: string, b: string)
    ensures StripSeparators(a + b) == StripSeparators(a) + StripSeparators(b)
  {
    if a == [] {
      assert a + b == b;
    } else {
      assert (a + b)[0] == a[0] && (a + b)[1..] == a[1..] + b;
      StripAppend(a[1..], b);
    }
  }

  /** Validating the stripped phone gives the same answer as validating the original. */
  lemma ValidPhoneOfStripped(s: string)
    ensures ValidPhone(StripSeparators(s)) == ValidPhone(s)
  {
    StripIdempotent(s);
  }

  /** A phone with a letter or any non-separator punctuation is rejected. */
  lemma RejectsForeignCharacter(s: string, i: nat)
    requires i < |s| && !IsSeparator(s[i]) && !IsAsciiDigit(s[i])
    ensures !ValidPhone(s)
  {
    var d := StripSeparators(s);
    assert s[i] in s;
    StripMembers(s, s[i]);
    var k :| 0 <= k < |d| && d[k] == s[i];
  }

  /** The number of ASCII digits in s. */
  function DigitCount(s: string): nat {
    if s == [] then 0 else (if IsAsciiDigit(s[0]) then 1 else 0) + DigitCount(s[1..])
  }

  /** When s holds only separators and digits, stripping leaves exactly its digits. */
  lemma {:induction false} StripKeepsDigits(s: string)
    requires forall i :: 0 <= i < |s| ==> IsSeparator(s[i]) || IsAsciiDigit(s[i])
    ensures AllDigits(StripSeparators(s)) && |StripSeparators(s)| == DigitCount(s)
  {
    if s != [] {
      StripKeepsDigits(s[1..]);
      assert IsAsciiDigit(s[0]) ==> !IsSeparator(s[0]);
    }
  }

  /**
   * An independent reading of the phone check: every character is a
   * separator or a digit, and there are 9 to 15 digits.
   */
  lemma ValidPhoneIff(s: string)
    ensures ValidPhone(s) <==>
      (forall i :: 0 <= i < |s| ==> IsSeparator(s[i]) || IsAsciiDigit(s[i])) && 9 <= DigitCount(s) <= 15
  {
    if forall i :: 0 <= i < |s| ==> IsSeparator(s[i]) || IsAsciiDigit(s[i]) {
      StripKeepsDigits(s);
    } else {
      var i :| 0 <= i < |s| && !IsSeparator(s[i]) && !IsAsciiDigit(s[i]);
      RejectsForeignCharacter(s, i);
    }
  }

  /** A character matched by `[^\s@]`. */
  predicate IsEmailChar(c: char) {
    !IsJsWhitespace(c) && c != '@'
  }

  predicate AllEmailChars(s: string) {
    forall k :: 0 <= k < |s| ==> IsEmailChar(s[k])
  }

  /**
   * The language of `^[^\s@]+@[^\s@]+\.[^\s@]+$`: the string splits at an
   * `@` (index i) and a later `.` (index j) into three non-empty runs of
   * characters that are neither whitespace nor `@`.
   */
  ghost predicate MatchesEmailPattern(s: string) {
    exists i, j :: 0 < i && i + 1 < j && j + 1 < |s| && s[i] == '@' && s[j] == '.'
      && AllEmailChars(s[..i]) && AllEmailChars(s[i + 1..j]) && AllEmailChars(s[j + 1..])
  }

  /**
   * `validateEmail`: no whitespace, exactly one `@`, a non-empty part before
   * it, and a domain after it holding a `.` that is neither its first nor
   * its last character.
   */
  predicate ValidEmail(s: string)
    ensures ValidEmail(s) ==> 5 <= |s| && '@' in s && '.' in s
  {
    var at := IndexOf(s, '@');
    && (forall k :: 0 <= k < |s| ==> !IsJsWhitespace(s[k]))
    && multiset(s)['@'] == 1
    && 0 < at
    && at + 3 < |s|
    && '.' in s[at + 2..|s| - 1]
  }

  /** A string with exactly one `@` at index i has no other. */
  lemma SingleAt(s: string, i: nat)
    requires i < |s| && s[i] == '@' && multiset(s)['@'] == 1
    ensures '@' !in s[..i] && '@' !in s[i + 1..]
  {
    assert s == s[..i] + [s[i]] + s[i + 1..];
    assert multiset(s) == multiset(s[..i]) + multiset([s[i]]) + multiset(s[i + 1..]);
  }

  /** Three pieces free of `@` around a single `@` contain exactly one. */
  lemma OneAtOfPieces(s: string, i: nat)
    requires i < |s| && s[i] == '@' && '@' !in s[..i] && '@' !in s[i + 1..]
    ensures multiset(s)['@'] == 1
  {
    assert s == s[..i] + [s[i]] + s[i + 1..];
    assert multiset(s) == multiset(s[..i]) + multiset([s[i]]) + multiset(s[i + 1..]);
  }

  /** The four conditions of ValidEmail describe exactly the strings the regular expression accepts. */
  lemma ValidEmailMatchesPattern(s: string)
    ensures ValidEmail(s) <==> MatchesEmailPattern(s)
  {
    if ValidEmail(s) {
      var at := IndexOf(s, '@');
      SingleAt(s, at);
      var inner := s[at + 2..|s| - 1];
      var k := IndexOf(inner, '.');
      var j := at + 2 + k;
      assert s[j] == inner[k] == '.';
      forall m | 0 <= m < at ensures IsEmailChar(s[..at][m]) {
        assert s[..at][m] == s[m];
      }
      var domain, mid, tld := s[at + 1..], s[at + 1..j], s[j + 1..];
      forall m | 0 <= m < |mid| ensures IsEmailChar(mid[m]) {
        assert mid[m] == domain[m];
        assert domain[m] in domain;
      }
      forall m | 0 <= m < |tld| ensures IsEmailChar(tld[m]) {
        assert tld[m] == domain[m + j - at];
        assert domain[m + j - at] in domain;
      }
      assert AllEmailChars(s[..at]) && AllEmailChars(s[at + 1..j]) && AllEmailChars(s[j + 1..]);
    }
    if MatchesEmailPattern(s) {
      var i, j :| 0 < i && i + 1 < j && j + 1 < |s| && s[i] == '@' && s[j] == '.'
        && AllEmailChars(s[..i]) && AllEmailChars(s[i + 1..j]) && AllEmailChars(s[j + 1..]);
      PatternPieces(s, i, j);
    }
  }

  /** The second half of ValidEmailMatchesPattern: a pattern split satisfies the four conditions. */
  lemma PatternPieces(s: string, i: nat, j: nat)
    requires 0 < i && i + 1 < j && j + 1 < |s| && s[i] == '@' && s[j] == '.'
    requires AllEmailChars(s[..i]) && AllEmailChars(s[i + 1..j]) && AllEmailChars(s[j + 1..])
    ensures ValidEmail(s)
  {
    forall k | 0 <= k < |s| && k != i && k != j ensures IsEmailChar(s[k]) {
      if k < i {
        assert s[k] == s[..i][k];
      } else if k < j {
        assert s[k] == s[i + 1..j][k - i - 1];
      } else {
        assert s[k] == s[j + 1..][k - j - 1];
      }
    }
    assert '@' !in s[..i] by {
      forall m | 0 <= m < i ensures s[..i][m] != '@' { assert s[..i][m] == s[m]; }
    }
    var after := s[i + 1..];
    assert '@' !in after by {
      forall m | 0 <= m < |after| ensures after[m] != '@' { assert after[m] == s[i + 1 + m]; }
    }
    OneAtOfPieces(s, i);
    assert IndexOf(s, '@') == i;
    assert s[i + 2..|s| - 1][j - i - 2] == '.';
  }

  /** Stripping four consecutive pieces strips each piece. */
  lemma StripFour(a: string, b: string, c: string, d: string)
    ensures StripSeparators(a + b + c + d) == StripSeparators(a) + StripSeparators(b) + StripSeparators(c) + StripSeparators(d)
  {
    StripAppend(a + b + c, d);
    StripAppend(a + b, c);
    StripAppend(a, b);
  }

  /** A separator followed by digits strips to the digits. */
  lemma StripSeparatorThenDigits(c: char, d: string)
    requires IsSeparator(c) && AllDigits(d)
    ensures StripSeparators([c] + d) == d
  {
    assert ([c] + d)[1..] == d;
    StripKeepsDigits(d);
    StripOfDigits(d);
  }

  /** Stripping a string of digits changes nothing. */
  lemma {:induction false} StripOfDigits(d: string)
    requires AllDigits(d)
    ensures StripSeparators(d) == d
  {
    if d != [] {
      StripOfDigits(d[1..]);
      assert d == [d[0]] + d[1..];
    }
  }

  /** A phone with only three digits is rejected. */
  lemma ShortPhoneRejected()
    ensures !ValidPhone("123")
  {
  }

  /**
   * A number written as `+CC AAA BBB CCC`, with any digit groups of 9 to 15
   * digits in all, is accepted; `+48 669 144 039` is one such.
   */
  lemma FormattedPhoneAccepted(d1: string, d2: string, d3: string, d4: string)
    requires AllDigits(d1) && AllDigits(d2) && AllDigits(d3) && AllDigits(d4)
    requires 9 <= |d1| + |d2| + |d3| + |d4| <= 15
    ensures ValidPhone("+" + d1 + " " + d2 + " " + d3 + " " + d4)
  {
    var a, b, c, d := "+" + d1, " " + d2, " " + d3, " " + d4;
    assert "+" + d1 + " " + d2 + " " + d3 + " " + d4 == a + b + c + d;
    StripFour(a, b, c, d);
    StripSeparatorThenDigits('+', d1);
    StripSeparatorThenDigits(' ', d2);
    StripSeparatorThenDigits(' ', d3);
    StripSeparatorThenDigits(' ', d4);
    var r := d1 + d2 + d3 + d4;
    forall i | 0 <= i < |r| ensures IsAsciiDigit(r[i]) {
      if i < |d1| { assert r[i] == d1[i]; }
      else if i < |d1| + |d2| { assert r[i] == d2[i - |d1|]; }
      else if i < |d1| + |d2| + |d3| { assert r[i] == d3[i - |d1| - |d2|]; }
      else { assert r[i] == d4[i - |d1| - |d2| - |d3|]; }
    }
  }

  /** Concrete verdicts: `a@b` lacks the dot, `a@b.com` passes. */
  lemma EmailExamples()
    ensures !ValidEmail("a@b")
    ensures ValidEmail("a@b.com")
  {
    PatternPieces("a@b.com", 1, 3);
  }
}
