/** Strings.java: removing one known prefix or suffix from a string. */
module Strings {
  import opened JavaStrings

  /** Strings.stripSuffix: drop one trailing occurrence of suffix, if str ends with it. */
  function StripSuffix(str: string, suffix: string): (r: string)
    ensures EndsWith(str, suffix) ==> r + suffix == str
    ensures !EndsWith(str, suffix) ==> r == str
    ensures r <= str
  {
    if EndsWith(str, suffix) then str[..|str| - |suffix|] else str
  }

  /** Strings.stripPrefix: drop one leading occurrence of prefix, if str starts with it. */
  function StripPrefix(str: string, prefix: string): (r: string)
    ensures StartsWith(str, prefix) ==> prefix + r == str
    ensures !StartsWith(str, prefix) ==> r == str
    ensures |r| <= |str| && r == str[|str| - |r|..]
  {
    if StartsWith(str, prefix) then str[|prefix|..] else str
  }

  /** Stripping a prefix that was just prepended gives back the original string. */
  lemma StripPrefixRoundTrip(prefix: string, s: string)
    ensures StripPrefix(prefix + s, prefix) == s
  {
    assert StartsWith(prefix + s, prefix);
  }

  /** Stripping a suffix that was just appended gives back the original string. */
  lemma StripSuffixRoundTrip(s: string, suffix: string)
    ensures StripSuffix(s + suffix, suffix) == s
  {
    assert (s + suffix)[|s + suffix| - |suffix|..] == suffix;
  }

  /** Only one occurrence is removed: "//a" loses a single "/". */
  lemma StripPrefixRemovesOnce()
    ensures StripPrefix("//a", "/") == "/a"
    ensures StripSuffix("a//", "/") == "a/"
  {
    assert StartsWith("//a", "/");
    assert EndsWith("a//", "/");
  }
}
