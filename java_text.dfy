/** The two string checks the object model uses: `String.isBlank()` (the guarded setters)
    and `String.trim().isEmpty()` (the projections). They are different predicates. */
module JavaText {
  import opened Wrappers

  /** `Character.isWhitespace`: the Unicode space, line and paragraph separators other than
      the non-breaking spaces U+00A0, U+2007 and U+202F, plus U+0009..U+000D and U+001C..U+001F
      (Unicode 10 tables, as in Java 11, the first release with `isBlank`). */
  predicate IsWhitespace(c: char) {
    || ('\t' <= c <= '\r')
    || ('\U{1C}' <= c <= '\U{1F}')
    || c == ' '
    || c == '\U{1680}'
    || ('\U{2000}' <= c <= '\U{2006}')
    || ('\U{2008}' <= c <= '\U{200A}')
    || c == '\U{2028}'
    || c == '\U{2029}'
    || c == '\U{205F}'
    || c == '\U{3000}'
  }

  /** `String.isBlank()`: empty, or whitespace only. */
  predicate IsBlank(s: string) {
    forall i | 0 <= i < |s| :: IsWhitespace(s[i])
  }

  /** The characters `String.trim()` strips from both ends: every code point up to U+0020. */
  predicate IsTrimmable(c: char) {
    c <= ' '
  }

  /** `s` is empty or starts with a character `trim` keeps. */
  predicate KeptAtStart(s: string) {
    s != [] ==> !IsTrimmable(s[0])
  }

  /** `s` is empty or ends with a character `trim` keeps. */
  predicate KeptAtEnd(s: string) {
    s != [] ==> !IsTrimmable(s[|s| - 1])
  }

  /** `trim` from the left: a suffix of `s`, everything cut off was trimmable,
      and what is left does not start with a trimmable character. */
  function TrimStart(s: string): (r: string)
    ensures |r| <= |s| && r == s[|s| - |r|..]
    ensures forall i | 0 <= i < |s| - |r| :: IsTrimmable(s[i])
    ensures KeptAtStart(r)
  {
    if s != [] && IsTrimmable(s[0]) then TrimStart(s[1..]) else s
  }

  /** `trim` from the right: a prefix of `s`, everything cut off was trimmable,
      and what is left does not end with a trimmable character. */
  function TrimEnd(s: string): (r: string)
    ensures |r| <= |s| && r == s[..|r|]
    ensures forall i | |r| <= i < |s| :: IsTrimmable(s[i])
    ensures KeptAtEnd(r)
  {
    if s != [] && IsTrimmable(s[|s| - 1]) then TrimEnd(s[..|s| - 1]) else s
  }

  /** `String.trim()`. */
  function Trim(s: string): (r: string)
    ensures KeptAtStart(r) && KeptAtEnd(r)
    ensures r == [] <==> AllTrimmable(s)
  {
    TrimEnds(s);
    TrimEnd(TrimStart(s))
  }

  /** After trimming both sides, the result starts with a kept character, and it is empty
      exactly when every character of `s` is trimmable. */
  lemma TrimEnds(s: string)
    ensures KeptAtStart(TrimEnd(TrimStart(s)))
    ensures TrimEnd(TrimStart(s)) == [] <==> AllTrimmable(s)
  {
    TrimStartKeepsAllTrimmable(s);
    TrimEndKeepsStart(TrimStart(s));
  }

  /** `TrimStart` only drops trimmable characters, so `s` is all trimmable exactly when what
      it leaves is. */
  lemma TrimStartKeepsAllTrimmable(s: string)
    ensures AllTrimmable(s) <==> AllTrimmable(TrimStart(s))
  {
    var t := TrimStart(s);
    assert forall i | 0 <= i < |t| :: t[i] == s[|s| - |t| + i];
  }

  /** `TrimEnd` leaves nothing exactly when every character is trimmable, and otherwise keeps
      the first character. */
  lemma TrimEndKeepsStart(s: string)
    ensures TrimEnd(s) == [] <==> AllTrimmable(s)
    ensures TrimEnd(s) != [] ==> TrimEnd(s)[0] == s[0]
  {
    var r := TrimEnd(s);
    if r != [] {
      assert r[|r| - 1] == s[|r| - 1];
      assert r[0] == s[0];
    }
  }

  /** Every character of `s` is one `trim` strips. */
  predicate AllTrimmable(s: string) {
    forall i | 0 <= i < |s| :: IsTrimmable(s[i])
  }

  /** Points of the whitespace table: the ASCII separators and U+3000 are whitespace, the
      non-breaking spaces, NEL and NUL are not; so `isBlank` holds of the empty string and of
      separators only, and fails on a non-breaking space. */
  lemma WhitespaceTable()
    ensures IsWhitespace('\t') && IsWhitespace('\U{1C}') && IsWhitespace(' ') && IsWhitespace('\U{3000}')
    ensures !IsWhitespace('\U{A0}') && !IsWhitespace('\U{2007}') && !IsWhitespace('\U{202F}')
    ensures !IsWhitespace('\U{85}') && !IsWhitespace('\U{0}')
    ensures IsBlank("") && IsBlank(" \t\U{3000}") && !IsBlank(" \U{A0}")
  {
    assert !IsWhitespace(" \U{A0}"[1]);
  }

  /** The projections' check for a required string, negated:
      `!(s == null || s.trim().isEmpty())`. */
  predicate Defined(s: Option<string>) {
    s.Some? && Trim(s.value) != []
  }

  /** The guarded setters' check, negated: `!(s == null || s.isBlank())`. */
  predicate Accepted(s: Option<string>) {
    s.Some? && !IsBlank(s.value)
  }

  /** A string with no control character outside Java's whitespace set (no U+0000..U+0008,
      U+000E..U+001B). */
  predicate NoBareControls(s: string) {
    forall i | 0 <= i < |s| :: IsTrimmable(s[i]) ==> IsWhitespace(s[i])
  }

  /** A string with no whitespace beyond U+0020 (no U+1680, U+2000..U+200A, U+2028, ...). */
  predicate NoWideSpaces(s: string) {
    forall i | 0 <= i < |s| :: !IsTrimmable(s[i]) ==> !IsWhitespace(s[i])
  }

  /** A string the setters accept is one the projections accept, once it holds no bare
      control characters. */
  lemma AcceptedIsDefined(s: Option<string>)
    requires Accepted(s) && NoBareControls(s.value)
    ensures Defined(s)
  {
  }

  /** A string the projections accept is one the setters accept, once it holds no
      whitespace beyond U+0020. */
  lemma DefinedIsAccepted(s: Option<string>)
    requires Defined(s) && NoWideSpaces(s.value)
    ensures Accepted(s)
  {
  }

  /** Without those side conditions neither check implies the other: U+0001 passes the
      setters but not the projections, and U+3000 the other way round. */
  lemma AcceptedAndDefinedDiffer()
    ensures Accepted(Some("\U{1}")) && !Defined(Some("\U{1}"))
    ensures Defined(Some("\U{3000}")) && !Accepted(Some("\U{3000}"))
  {
    assert !IsWhitespace("\U{1}"[0]);
    assert !IsTrimmable("\U{3000}"[0]);
  }
}
