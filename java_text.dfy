/** Java strings as the two source files see them: a reference that may be
    null, compared and tested with Apache commons-lang `StringUtils`. */
module JavaText {
  import opened Wrappers

  /** A Java `String` reference; `None` is `null`. */
  type JString = Option<string>

  /** `Character.isWhitespace` of Java 9 and later (Unicode 6.3 onwards): the
      ASCII controls HT, LF, VT, FF, CR, the separators FS, GS, RS, US, and the
      Unicode space, line and paragraph separators except the non-breaking ones
      (U+00A0, U+2007, U+202F). U+180E is not among them. */
  predicate IsWhitespace(c: char) {
    ('\t' <= c <= '\r') || ('\U{1C}' <= c <= '\U{1F}') || c == ' ' ||
    c == '\U{1680}' || ('\U{2000}' <= c <= '\U{2006}') || ('\U{2008}' <= c <= '\U{200A}') ||
    c == '\U{2028}' || c == '\U{2029}' || c == '\U{205F}' || c == '\U{3000}'
  }

  /** `StringUtils.isBlank`: null, empty, or whitespace only. */
  predicate IsBlank(s: JString) {
    s.None? || forall i :: 0 <= i < |s.value| ==> IsWhitespace(s.value[i])
  }

  /** A string whose first character is not whitespace is never blank. */
  lemma NotBlankByFirst(s: string)
    requires |s| > 0 && !IsWhitespace(s[0])
    ensures !IsBlank(Some(s))
  {
    assert !IsWhitespace(Some(s).value[0]);
  }
}
