/** String predicates that the view models and the repository use on user
    input: Kotlin's `isBlank`, `contains`, `equals(ignoreCase = true)`,
    `lowercase`, `substringBefore` and `capitalize`. Case folding is limited
    to ASCII letters. */
module Text {

  /** Kotlin's `Char.isWhitespace` on the JVM: the Unicode space, line and paragraph
      separators, the ASCII controls TAB..CR and the information separators
      U+001C..U+001F. */
  predicate IsWhitespace(c: char) {
    || ('\t' <= c <= '\r')
    || ('\U{1C}' <= c <= '\U{1F}')
    || c == ' ' || c == '\U{A0}' || c == '\U{1680}'
    || ('\U{2000}' <= c <= '\U{200A}')
    || c == '\U{2028}' || c == '\U{2029}' || c == '\U{202F}'
    || c == '\U{205F}' || c == '\U{3000}'
  }

  /** Kotlin `String.length`: the number of UTF-16 code units, so a
      character outside the Basic Multilingual Plane counts twice. */
  function Utf16Length(s: string): (n: nat)
    ensures |s| <= n <= 2 * |s|
    ensures (forall i :: 0 <= i < |s| ==> s[i] < '\U{10000}') ==> n == |s|
  {
    if s == [] then 0
    else (if s[0] < '\U{10000}' then 1 else 2) + Utf16Length(s[1..])
  }

  /** Kotlin `isBlank()`: empty or whitespace only. */
  predicate IsBlank(s: string) {
    forall i :: 0 <= i < |s| ==> IsWhitespace(s[i])
  }

  function LowerChar(c: char): char {
    if 'A' <= c <= 'Z' then (c as int + 32) as char else c
  }

  function UpperChar(c: char): char {
    if 'a' <= c <= 'z' then (c as int - 32) as char else c
  }

  /** Kotlin `lowercase()`, on ASCII letters. */
  function Lower(s: string): (r: string)
    ensures |r| == |s|
  {
    seq(|s|, i requires 0 <= i < |s| => LowerChar(s[i]))
  }

  /** `t` occurs in `s` starting at index `i`. */
  predicate OccursAt(s: string, t: string, i: int) {
    0 <= i && i + |t| <= |s| && s[i..i + |t|] == t
  }

  /** Kotlin `s.contains(t)` (case-sensitive). */
  predicate Contains(s: string, t: string) {
    exists i | 0 <= i <= |s| - |t| :: OccursAt(s, t, i)
  }

  /** Kotlin `s.contains(t, ignoreCase = true)`. */
  predicate ContainsIgnoreCase(s: string, t: string) {
    Contains(Lower(s), Lower(t))
  }

  /** Kotlin `a.equals(b, ignoreCase = true)`. */
  predicate EqualsIgnoreCase(a: string, b: string) {
    Lower(a) == Lower(b)
  }

  /** Kotlin `s.substringBefore("@")`: the prefix before the first `@`, or
      the whole string when there is none. */
  function SubstringBeforeAt(s: string): (r: string)
    ensures '@' !in r
    ensures r == s || (|r| < |s| && s[|r|] == '@')
    ensures r <= s
  {
    if s == [] then []
    else if s[0] == '@' then []
    else [s[0]] + SubstringBeforeAt(s[1..])
  }

  /** Kotlin `capitalize()`: upper-cases the first character when it is a
      lower-case letter. */
  function Capitalize(s: string): (r: string)
    ensures |r| == |s|
    ensures s != [] ==> r[0] == UpperChar(s[0]) && r[1..] == s[1..]
  {
    if s == [] then [] else [UpperChar(s[0])] + s[1..]
  }

  /** The e-mail check shared by registration and password reset in both
      copies of the app: blank, or no `@` at all. */
  predicate EmailRejected(email: string) {
    IsBlank(email) || !Contains(email, "@")
  }

  lemma ContainsSelf(s: string)
    ensures Contains(s, s)
  {
    assert OccursAt(s, s, 0);
  }

  /** A string contains anything found inside one of its parts. */
  lemma {:induction false} ContainsInConcat(a: string, t: string, b: string)
    ensures Contains(a + t + b, t)
  {
    assert OccursAt(a + t + b, t, |a|) by {
      assert (a + t + b)[|a|..|a| + |t|] == t;
    }
  }
}
