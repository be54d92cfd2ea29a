/**
 * The input validators of src/utils/validators.js. Each is a regular
 * expression test or a comparison; here each regular expression is written as a
 * computable check and, for the e-mail pattern, proved equal to the language
 * the pattern denotes.
 */
module Validators {
  import opened Js

  predicate IsDigit(c: char) {
    '0' <= c <= '9'
  }

  /** `[0-9]*` matches the whole of `s`. */
  function AllDigits(s: string): (b: bool)
    ensures b <==> forall k :: 0 <= k < |s| ==> IsDigit(s[k])
  {
    if s == [] then true else IsDigit(s[0]) && AllDigits(s[1..])
  }

  /** `^[0-9]{lo,hi}$`. */
  function DigitRun(s: string, lo: nat, hi: nat): bool {
    lo <= |s| <= hi && AllDigits(s)
  }

  /** `isValidPhone`: `^[0-9]{10,11}$`. */
  function IsValidPhone(s: string): (ok: bool)
    ensures ok <==> (|s| == 10 || |s| == 11) && forall k :: 0 <= k < |s| ==> IsDigit(s[k])
  {
    DigitRun(s, 10, 11)
  }

  // ----- isValidEmail -----

  /** How many times `c` occurs in `s`. */
  function CountOf(s: string, c: char): nat {
    if s == [] then 0 else (if s[0] == c then 1 else 0) + CountOf(s[1..], c)
  }

  /** The index of the first `c` in `s`, or `|s|` when there is none. */
  function IndexOf(s: string, c: char): (i: nat)
    ensures i <= |s|
    ensures i < |s| ==> s[i] == c
    ensures forall k :: 0 <= k < i ==> s[k] != c
  {
    if s == [] then 0 else if s[0] == c then 0 else 1 + IndexOf(s[1..], c)
  }

  predicate NoWhitespace(s: string) {
    forall k :: 0 <= k < |s| ==> !IsWhitespace(s[k])
  }

  /** A `.` that is neither the first nor the last character of `d`. */
  predicate HasInnerDot(d: string) {
    |d| >= 3 && '.' in d[1..|d| - 1]
  }

  /**
   * `isValidEmail`: no whitespace, exactly one `@`, something before it, and
   * after it a `.` that is neither first nor last.
   */
  function IsValidEmail(s: string): bool {
    var at := IndexOf(s, '@');
    NoWhitespace(s) && CountOf(s, '@') == 1 && 0 < at < |s| && HasInnerDot(s[at + 1..])
  }

  /** `[^\s@]+`. */
  ghost predicate EmailPart(p: string) {
    |p| > 0 && forall k :: 0 <= k < |p| ==> !IsWhitespace(p[k]) && p[k] != '@'
  }

  /** The strings `^[^\s@]+@[^\s@]+\.[^\s@]+$` matches. */
  ghost predicate MatchesEmailPattern(s: string) {
    exists i, j :: 0 < i < j < |s| && s[i] == '@' && s[j] == '.'
      && EmailPart(s[..i]) && EmailPart(s[i + 1..j]) && EmailPart(s[j + 1..])
  }

  lemma {:induction false} CountPositive(s: string, c: char, a: nat)
    requires a < |s| && s[a] == c
    ensures CountOf(s, c) >= 1
  {
    if a > 0 {
      CountPositive(s[1..], c, a - 1);
    }
  }

  lemma {:induction false} CountAtLeastTwo(s: string, c: char, a: nat, b: nat)
    requires a < b < |s| && s[a] == c && s[b] == c
    ensures CountOf(s, c) >= 2
  {
    if a == 0 {
      CountPositive(s[1..], c, b - 1);
    } else {
      CountAtLeastTwo(s[1..], c, a - 1, b - 1);
    }
  }

  lemma {:induction false} CountZero(s: string, c: char)
    requires forall k :: 0 <= k < |s| ==> s[k] != c
    ensures CountOf(s, c) == 0
  {
    if s != [] {
      CountZero(s[1..], c);
    }
  }

  lemma {:induction false} CountExactlyOne(s: string, c: char, i: nat)
    requires i < |s| && s[i] == c
    requires forall k :: 0 <= k < |s| && k != i ==> s[k] != c
    ensures CountOf(s, c) == 1
  {
    if i == 0 {
      CountZero(s[1..], c);
    } else {
      CountExactlyOne(s[1..], c, i - 1);
    }
  }

  lemma {:induction false} EmailCheckImpliesPattern(s: string)
    requires IsValidEmail(s)
    ensures MatchesEmailPattern(s)
  {
    var i := IndexOf(s, '@');
    var d := s[i + 1..];
    var m :| 0 <= m < |d[1..|d| - 1]| && d[1..|d| - 1][m] == '.';
    var j := i + 2 + m;
    assert d[1..|d| - 1][m] == d[m + 1];
    assert d[m + 1] == s[j];
    forall k | 0 <= k < |s| && k != i
      ensures s[k] != '@' && !IsWhitespace(s[k])
    {
      if s[k] == '@' && k > i {
        CountAtLeastTwo(s, '@', i, k);
      }
    }
    assert EmailPart(s[..i]);
    assert EmailPart(s[i + 1..j]);
    assert EmailPart(s[j + 1..]);
  }

  lemma {:induction false} PatternImpliesEmailCheck(s: string, i: nat, j: nat)
    requires 0 < i < j < |s| && s[i] == '@' && s[j] == '.'
    requires EmailPart(s[..i]) && EmailPart(s[i + 1..j]) && EmailPart(s[j + 1..])
    ensures IsValidEmail(s)
  {
    forall k | 0 <= k < |s| && k != i
      ensures s[k] != '@' && !IsWhitespace(s[k])
    {
      if k < i {
        assert s[k] == s[..i][k];
      } else if k < j {
        assert s[k] == s[i + 1..j][k - i - 1];
      } else if k > j {
        assert s[k] == s[j + 1..][k - j - 1];
      }
    }
    CountExactlyOne(s, '@', i);
    assert IndexOf(s, '@') == i;
    var d := s[i + 1..];
    assert d[1..|d| - 1][j - i - 2] == '.';
  }

  /** The computed check accepts exactly the strings the e-mail pattern matches. */
  lemma {:induction false} EmailCheckMatchesPattern(s: string)
    ensures IsValidEmail(s) <==> MatchesEmailPattern(s)
  {
    if IsValidEmail(s) {
      EmailCheckImpliesPattern(s);
    }
    if MatchesEmailPattern(s) {
      var i: nat, j: nat :| 0 < i < j < |s| && s[i] == '@' && s[j] == '.'
        && EmailPart(s[..i]) && EmailPart(s[i + 1..j]) && EmailPart(s[j + 1..]);
      PatternImpliesEmailCheck(s, i, j);
    }
  }

  /** `isRequired`: neither `undefined`, `null` nor the empty string. */
  predicate IsRequired(v: Option<string>) {
    v.Some? && v.value != ""
  }

  /** Only absent values and `""` fail: blank and `"0"` strings count as present. */
  lemma RequiredCases()
    ensures !IsRequired(None) && !IsRequired(Some(""))
    ensures IsRequired(Some(" ")) && IsRequired(Some("0"))
  {
  }

  /** `isMinValue`: inclusive lower bound. */
  predicate IsMinValue(value: real, min: real) {
    value >= min
  }

  /** `isValidMeterReading`: the new reading strictly exceeds the old one. */
  predicate IsValidMeterReading(newReading: real, oldReading: real) {
    newReading > oldReading
  }

  /**
   * The minimum check admits its bound, the reading check does not admit an
   * unchanged reading, and any larger reading passes both.
   */
  lemma BoundInclusiveReadingStrict(x: real, y: real)
    ensures IsMinValue(x, x) && !IsValidMeterReading(x, x)
    ensures y > x ==> IsMinValue(y, x) && IsValidMeterReading(y, x)
    ensures IsValidMeterReading(y, x) <==> IsMinValue(y, x) && y != x
  {
  }
}
