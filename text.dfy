/**
 * The JavaScript string behaviour the validators rely on: `trim()`, and the
 * two patterns the rental form accepts as contact details,
 * `^[0-9\s\-\+\(\)]+$` (a phone number) and
 * `^[a-zA-Z0-9._%+-]+@[a-zA-Z0-9.-]+\.[a-zA-Z]{2,}$` (an e-mail address).
 */
module JsText {
  /** The ECMAScript white-space and line-terminator characters: what `trim()` removes and `\s` matches. */
  predicate IsWhitespace(c: char) {
    || c == '\t' || c == '\n' || c == '\U{000B}' || c == '\U{000C}' || c == '\r'
    || c == ' ' || c == '\U{00A0}' || c == '\U{1680}' || ('\U{2000}' <= c <= '\U{200A}')
    || c == '\U{2028}' || c == '\U{2029}' || c == '\U{202F}' || c == '\U{205F}'
    || c == '\U{3000}' || c == '\U{FEFF}'
  }

  /** A string with nothing but white space (the empty string included). */
  predicate IsBlank(s: string) {
    forall i :: 0 <= i < |s| ==> IsWhitespace(s[i])
  }

  /**
   * `String.prototype.trim`: white space is removed from both ends; the
   * result is empty exactly when `s` is blank, and otherwise starts and ends
   * with a non-white-space character.
   */
  function Trim(s: string): (r: string)
    ensures |r| <= |s|
    ensures r == [] <==> IsBlank(s)
    ensures r != [] ==> !IsWhitespace(r[0]) && !IsWhitespace(r[|r| - 1])
  {
    if s == [] then []
    else if IsWhitespace(s[0]) then
      var r := Trim(s[1..]);
      assert IsBlank(s[1..]) ==> IsBlank(s) by {
        if IsBlank(s[1..]) {
          forall i | 0 < i < |s| ensures IsWhitespace(s[i]) { assert s[i] == s[1..][i - 1]; }
        }
      }
      r
    else if IsWhitespace(s[|s| - 1]) then Trim(s[..|s| - 1])
    else s
  }

  /** A blank string stays blank with one more white-space character in front. */
  lemma BlankCons(c: char, t: string)
    requires IsWhitespace(c) && IsBlank(t)
    ensures IsBlank([c] + t)
  {
    forall k | 0 < k <= |t| ensures IsWhitespace(([c] + t)[k]) {
      assert ([c] + t)[k] == t[k - 1];
    }
  }

  /** A blank string stays blank with one more white-space character behind. */
  lemma BlankSnoc(t: string, c: char)
    requires IsWhitespace(c) && IsBlank(t)
    ensures IsBlank(t + [c])
  {
    forall k | 0 <= k < |t| ensures IsWhitespace((t + [c])[k]) {
      assert (t + [c])[k] == t[k];
    }
  }

  /** `r` is `s[i..j]`, and what lies before `i` and from `j` on is blank. */
  predicate BlankEnds(s: string, r: string, i: int, j: int) {
    0 <= i <= j <= |s| && r == s[i..j] && IsBlank(s[..i]) && IsBlank(s[j..])
  }

  /** Dropping a white-space character in front keeps the blank-ends shape, one position further on. */
  lemma FrontStep(s: string, r: string, i: int, j: int)
    requires s != [] && IsWhitespace(s[0]) && BlankEnds(s[1..], r, i, j)
    ensures BlankEnds(s, r, i + 1, j + 1)
  {
    var t := s[1..];
    assert s[..i + 1] == [s[0]] + t[..i];
    BlankCons(s[0], t[..i]);
    assert t[i..j] == s[i + 1..j + 1] && t[j..] == s[j + 1..];
  }

  /** Dropping a white-space character behind keeps the blank-ends shape at the same positions. */
  lemma BackStep(s: string, r: string, i: int, j: int)
    requires s != [] && IsWhitespace(s[|s| - 1]) && BlankEnds(s[..|s| - 1], r, i, j)
    ensures BlankEnds(s, r, i, j)
  {
    var t := s[..|s| - 1];
    assert s[j..] == t[j..] + [s[|s| - 1]];
    BlankSnoc(t[j..], s[|s| - 1]);
    assert t[i..j] == s[i..j] && t[..i] == s[..i];
  }

  /** `trim()` removes nothing but white space, and only at the two ends: the result is a slice of `s` with blanks on either side. */
  lemma {:induction false} TrimRemovesOnlyEnds(s: string)
    ensures exists i, j :: BlankEnds(s, Trim(s), i, j)
  {
    if s == [] {
      assert BlankEnds(s, Trim(s), 0, 0);
    } else if IsWhitespace(s[0]) {
      TrimRemovesOnlyEnds(s[1..]);
      var i, j :| BlankEnds(s[1..], Trim(s[1..]), i, j);
      FrontStep(s, Trim(s[1..]), i, j);
      assert Trim(s) == Trim(s[1..]);
      assert BlankEnds(s, Trim(s), i + 1, j + 1);
    } else if IsWhitespace(s[|s| - 1]) {
      TrimRemovesOnlyEnds(s[..|s| - 1]);
      var i, j :| BlankEnds(s[..|s| - 1], Trim(s[..|s| - 1]), i, j);
      BackStep(s, Trim(s[..|s| - 1]), i, j);
      assert BlankEnds(s, Trim(s), i, j);
    } else {
      assert s[0..|s|] == s;
      assert BlankEnds(s, Trim(s), 0, |s|);
    }
  }

  /** A character of the phone pattern: a digit, white space, `-`, `+`, `(` or `)`. */
  predicate IsPhoneChar(c: char) {
    ('0' <= c <= '9') || IsWhitespace(c) || c == '-' || c == '+' || c == '(' || c == ')'
  }

  /** `^[0-9\s\-\+\(\)]+$`: one or more phone characters. A phone number never holds an `@` or a letter. */
  function IsPhone(s: string): (b: bool)
    ensures b ==> s != [] && '@' !in s
    ensures b ==> forall i :: 0 <= i < |s| ==> !IsLetter(s[i])
  {
    |s| > 0 && forall i :: 0 <= i < |s| ==> IsPhoneChar(s[i])
  }

  predicate IsLetter(c: char) {
    ('a' <= c <= 'z') || ('A' <= c <= 'Z')
  }

  predicate IsAlphanumeric(c: char) {
    IsLetter(c) || ('0' <= c <= '9')
  }

  /** `[a-zA-Z0-9._%+-]`: a character of the part before the `@`. */
  predicate IsLocalChar(c: char) {
    IsAlphanumeric(c) || c == '.' || c == '_' || c == '%' || c == '+' || c == '-'
  }

  /** `[a-zA-Z0-9.-]`: a character of the domain before its last dot. */
  predicate IsDomainChar(c: char) {
    IsAlphanumeric(c) || c == '.' || c == '-'
  }

  predicate AllLocal(s: string) { forall i :: 0 <= i < |s| ==> IsLocalChar(s[i]) }
  predicate AllDomain(s: string) { forall i :: 0 <= i < |s| ==> IsDomainChar(s[i]) }
  predicate AllLetters(s: string) { forall i :: 0 <= i < |s| ==> IsLetter(s[i]) }

  /**
   * `s` splits at the `@` at index `at` and the dot at index `dot` into a
   * non-empty local part, a non-empty domain, and at least two letters.
   */
  predicate EmailSplit(s: string, at: int, dot: int) {
    && 0 < at && at + 1 < dot && dot + 2 < |s|
    && s[at] == '@' && s[dot] == '.'
    && AllLocal(s[..at]) && AllDomain(s[at + 1..dot]) && AllLetters(s[dot + 1..])
  }

  /** What the e-mail pattern means: some split of `s` fits it. */
  ghost predicate MatchesEmail(s: string) {
    exists at, dot :: EmailSplit(s, at, dot)
  }

  /** The index of the first occurrence of `c` in `s`, or -1. */
  function IndexOf(s: string, c: char): (i: int)
    ensures -1 <= i < |s|
    ensures i == -1 <==> c !in s
    ensures 0 <= i ==> s[i] == c && c !in s[..i]
  {
    if |s| == 0 then -1
    else if s[0] == c then 0
    else
      var j := IndexOf(s[1..], c);
      assert s == [s[0]] + s[1..];
      if j == -1 then -1 else (assert s[..j + 1] == [s[0]] + s[1..][..j]; j + 1)
  }

  /** The index of the last occurrence of `c` in `s`, or -1. */
  function LastIndexOf(s: string, c: char): (i: int)
    ensures -1 <= i < |s|
    ensures i == -1 <==> c !in s
    ensures 0 <= i ==> s[i] == c && c !in s[i + 1..]
  {
    if |s| == 0 then -1
    else if s[|s| - 1] == c then |s| - 1
    else
      assert s == s[..|s| - 1] + [s[|s| - 1]];
      LastIndexOf(s[..|s| - 1], c)
  }

  /**
   * The e-mail pattern, decided on the split at the first `@` and the last
   * dot. An accepted address holds an `@` and a dot and has at least six
   * characters (`a@b.cc`), so it is never a phone number.
   */
  function IsEmail(s: string): (b: bool)
    ensures b ==> '@' in s && '.' in s && |s| >= 6
  {
    EmailSplit(s, IndexOf(s, '@'), LastIndexOf(s, '.'))
  }

  /**
   * A split that fits the pattern is the one at the first `@` and the last
   * dot: the local part holds no `@`, and the final letters hold no dot.
   */
  lemma EmailSplitIsUnique(s: string, at: int, dot: int)
    requires EmailSplit(s, at, dot)
    ensures at == IndexOf(s, '@') && dot == LastIndexOf(s, '.')
  {
  }

  /** Deciding on one split loses nothing: the check accepts exactly what the pattern means. */
  lemma IsEmailMeaning(s: string)
    ensures IsEmail(s) <==> MatchesEmail(s)
  {}

  /** Every well-formed address is a trimmed, non-blank string with no white space. */
  lemma EmailHasNoWhitespace(s: string)
    requires IsEmail(s)
    ensures forall i :: 0 <= i < |s| ==> !IsWhitespace(s[i])
  {
    var at, dot := IndexOf(s, '@'), LastIndexOf(s, '.');
    assert EmailSplit(s, at, dot);
    forall i | 0 <= i < |s| ensures !IsWhitespace(s[i]) {
      if i < at {
        assert IsLocalChar(s[..at][i]);
      } else if at < i < dot {
        assert IsDomainChar(s[at + 1..dot][i - at - 1]);
      } else if dot < i {
        assert IsLetter(s[dot + 1..][i - dot - 1]);
      }
    }
  }
}
