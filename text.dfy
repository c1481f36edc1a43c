/**
  The text tests the client assembly relies on: Spring's StringUtils.hasText
  and the PropertyMapper filter whenHasText built on it. A string "has text"
  when it is present (non-null) and holds at least one character that Java's
  Character.isWhitespace does not classify as whitespace.
 */
module Text {
  import opened Wrappers

  /** Java's Character.isWhitespace: the ASCII controls TAB, LF, VT, FF, CR and
      FS, GS, RS, US, and the Unicode space, line and paragraph separators
      except the non-breaking ones (U+00A0, U+2007, U+202F). */
  predicate IsWhitespace(c: char) {
    c == ' '
    || ('\t' <= c <= '\r')
    || ('\U{1C}' <= c <= '\U{1F}')
    || c == '\U{1680}'
    || ('\U{2000}' <= c <= '\U{2006}')
    || ('\U{2008}' <= c <= '\U{200A}')
    || c == '\U{2028}' || c == '\U{2029}'
    || c == '\U{205F}' || c == '\U{3000}'
  }

  /** Scans from the first character for one that is not whitespace, the way
      StringUtils.containsText walks the string. */
  predicate ContainsText(str: string)
    decreases |str|
  {
    |str| > 0 && (!IsWhitespace(str[0]) || ContainsText(str[1..]))
  }

  /** StringUtils.hasText on a possibly-null string. */
  predicate HasText(s: Option<string>) {
    s.Some? && ContainsText(s.value)
  }

  /** The scan finds text exactly when some position holds a non-whitespace character. */
  lemma {:induction false} ContainsTextMeaning(str: string)
    ensures ContainsText(str) <==> exists i :: 0 <= i < |str| && !IsWhitespace(str[i])
  {
    if |str| > 0 {
      var rest := str[1..];
      ContainsTextMeaning(rest);
      if ContainsText(rest) {
        var i :| 0 <= i < |rest| && !IsWhitespace(rest[i]);
        assert str[i + 1] == rest[i];
      }
      if exists i :: 0 <= i < |str| && !IsWhitespace(str[i]) {
        var i :| 0 <= i < |str| && !IsWhitespace(str[i]);
        if i > 0 {
          assert rest[i - 1] == str[i];
        }
      }
    }
  }

  /** The documented meaning of hasText: non-null, and some character is not whitespace.
      In particular null, the empty string and an all-blank string have no text. */
  lemma HasTextMeaning(s: Option<string>)
    ensures HasText(s) <==> s.Some? && exists i :: 0 <= i < |s.value| && !IsWhitespace(s.value[i])
  {
    if s.Some? {
      ContainsTextMeaning(s.value);
    }
  }

  /** PropertyMapper's whenHasText: the value passes through unchanged when it
      has text and is dropped otherwise, so a blank value is never applied. */
  function WhenHasText(v: Option<string>): (r: Option<string>)
    ensures r.Some? <==> HasText(v)
    ensures r.Some? ==> r == v
  {
    if HasText(v) then v else None
  }
}
