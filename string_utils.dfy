/** Blank-string helpers built on `strings.TrimSpace`. */
module StringUtils {
  import opened GoStrings

  /** A string is "empty" when nothing is left after trimming white space. */
  function IsEmpty(s: string): (r: bool)
    ensures r <==> AllSpace(s)
  {
    TrimSpaceEmptyIffAllSpace(s);
    |TrimSpace(s)| == 0
  }

  function IsNotEmpty(s: string): (r: bool)
    ensures r <==> exists i | 0 <= i < |s| :: !IsSpace(s[i])
  {
    !IsEmpty(s)
  }

  /** The default for a blank string; any other string comes back as it was, untrimmed. */
  function DefaultIfEmpty(s: string, defaultValue: string): (r: string)
    ensures AllSpace(s) ==> r == defaultValue
    ensures !AllSpace(s) ==> r == s
  {
    if IsEmpty(s) then defaultValue else s
  }

  /** Applying the default a second time changes nothing. */
  lemma DefaultIfEmptyIdempotent(s: string, defaultValue: string)
    ensures DefaultIfEmpty(DefaultIfEmpty(s, defaultValue), defaultValue) == DefaultIfEmpty(s, defaultValue)
  {
  }

  /** Surrounding white space is kept when the string is not blank. */
  lemma DefaultIfEmptyKeepsPadding(defaultValue: string)
    ensures DefaultIfEmpty("  hello  ", defaultValue) == "  hello  "
    ensures IsEmpty("   ") && IsEmpty("") && !IsEmpty("  hello  ")
  {
    assert "  hello  "[2] == 'h';
  }
}
