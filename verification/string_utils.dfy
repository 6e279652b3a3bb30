/** The text checks behind Spring's `Assert.hasText` and `Assert.hasLength`. */
module StringUtils {
  import opened Wrappers

  /** `java.lang.Character.isWhitespace` on one UTF-16 code unit: the ASCII controls
      TAB..CR and FS..US, and the Unicode space, line and paragraph separators except
      the non-breaking ones (U+00A0, U+2007, U+202F). */
  predicate IsWhitespace(c: char) {
    || ('\t' <= c <= '\r')
    || ('\U{1C}' <= c <= '\U{1F}')
    || c == ' '
    || c == '\U{1680}'
    || ('\U{2000}' <= c <= '\U{2006}')
    || ('\U{2008}' <= c <= '\U{200A}')
    || c == '\U{2028}' || c == '\U{2029}' || c == '\U{205F}' || c == '\U{3000}'
  }

  /** `hasLength`: not null and not the empty string. */
  predicate HasLength(s: Option<string>) {
    s.Some? && |s.value| > 0
  }

  /** `hasText`: not null and holding at least one non-whitespace character. */
  predicate HasText(s: Option<string>) {
    s.Some? && exists i | 0 <= i < |s.value| :: !IsWhitespace(s.value[i])
  }

  /** A string with one non-whitespace character has text. */
  lemma CharacterGivesText(s: string, i: nat)
    requires i < |s| && !IsWhitespace(s[i])
    ensures HasText(Some(s)) && HasLength(Some(s))
  {
  }
}
