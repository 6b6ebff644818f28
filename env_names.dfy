/**
 * Credentials.toEnvironmentVariableName: turn a key name such as "AWS_ROLE_ARN.my-bucket"
 * into a token an environment variable can be named by. Upper-case, then '-' and '.'
 * become '_', then every character outside [A-Z0-9_] is removed.
 */
module Credentials {

  /** The characters an environment variable name keeps: [A-Z0-9_]. */
  predicate IsEnvChar(c: char) {
    ('A' <= c <= 'Z') || ('0' <= c <= '9') || c == '_'
  }

  predicate IsEnvName(s: string) {
    forall i | 0 <= i < |s| :: IsEnvChar(s[i])
  }

  /** toUpperCase on one character, for the ASCII letters. */
  function UpperChar(c: char): char {
    if 'a' <= c <= 'z' then (c as int - 'a' as int + 'A' as int) as char else c
  }

  /** String.toUpperCase, restricted to ASCII letters. */
  function UpperCase(s: string): (r: string)
    ensures |r| == |s|
  {
    if s == [] then [] else [UpperChar(s[0])] + UpperCase(s[1..])
  }

  /** String.replace(char, char) */
  function Replace(s: string, from: char, to: char): (r: string)
    ensures |r| == |s|
  {
    if s == [] then [] else [if s[0] == from then to else s[0]] + Replace(s[1..], from, to)
  }

  /** String.replaceAll("[^A-Z0-9_]", "") */
  function KeepEnvChars(s: string): (r: string)
    ensures IsEnvName(r)
    ensures |r| <= |s|
  {
    if s == [] then [] else (if IsEnvChar(s[0]) then [s[0]] else []) + KeepEnvChars(s[1..])
  }

  /** Credentials.toEnvironmentVariableName */
  function ToEnvironmentVariableName(s: string): (r: string)
    ensures IsEnvName(r)
    ensures |r| <= |s|
  {
    KeepEnvChars(Replace(Replace(UpperCase(s), '-', '_'), '.', '_'))
  }

  /** Where the first two passes send one character: '-' and '.' to '_', a lower-case letter to its capital. */
  function MapChar(c: char): char {
    if c == '-' || c == '.' then '_' else UpperChar(c)
  }

  /** What one input character becomes: '_' for '-' and '.', its capital for a lower-case
      letter, itself for [A-Z0-9_], and nothing otherwise. */
  function EnvChar(c: char): (r: string)
    ensures |r| <= 1
    ensures c == '-' || c == '.' ==> r == "_"
    ensures 'a' <= c <= 'z' ==> r == [(c as int - 'a' as int + 'A' as int) as char]
    ensures IsEnvChar(c) ==> r == [c]
    ensures !IsEnvChar(c) && !('a' <= c <= 'z') && c != '-' && c != '.' ==> r == []
  {
    if IsEnvChar(MapChar(c)) then [MapChar(c)] else []
  }

  /** The character-by-character reading of the normaliser, in input order. */
  function EnvCharsOf(s: string): string {
    if s == [] then [] else EnvChar(s[0]) + EnvCharsOf(s[1..])
  }

  /** The upper-casing pass acts on each character on its own. */
  lemma {:induction false} UpperCaseByChar(s: string)
    ensures forall i | 0 <= i < |s| :: UpperCase(s)[i] == UpperChar(s[i])
  {
    if s != [] {
      UpperCaseByChar(s[1..]);
      assert forall i | 1 <= i < |s| :: UpperCase(s)[i] == UpperCase(s[1..])[i - 1];
    }
  }

  /** The replacing pass changes exactly the occurrences of from. */
  lemma {:induction false} ReplaceByChar(s: string, from: char, to: char)
    ensures forall i | 0 <= i < |s| :: Replace(s, from, to)[i] == if s[i] == from then to else s[i]
  {
    if s != [] {
      ReplaceByChar(s[1..], from, to);
      assert forall i | 1 <= i < |s| :: Replace(s, from, to)[i] == Replace(s[1..], from, to)[i - 1];
    }
  }

  /** The removing pass keeps a string made only of kept characters whole. */
  lemma {:induction false} KeepEnvCharsUnchanged(s: string)
    requires IsEnvName(s)
    ensures KeepEnvChars(s) == s
  {
    if s != [] {
      KeepEnvCharsUnchanged(s[1..]);
    }
  }

  lemma {:induction false} UpperCaseAppend(a: string, b: string)
    ensures UpperCase(a + b) == UpperCase(a) + UpperCase(b)
  {
    if a != [] {
      assert (a + b)[1..] == a[1..] + b;
      UpperCaseAppend(a[1..], b);
    } else {
      assert a + b == b;
    }
  }

  lemma {:induction false} ReplaceAppend(a: string, b: string, from: char, to: char)
    ensures Replace(a + b, from, to) == Replace(a, from, to) + Replace(b, from, to)
  {
    if a != [] {
      assert (a + b)[1..] == a[1..] + b;
      ReplaceAppend(a[1..], b, from, to);
    } else {
      assert a + b == b;
    }
  }

  lemma {:induction false} KeepEnvCharsAppend(a: string, b: string)
    ensures KeepEnvChars(a + b) == KeepEnvChars(a) + KeepEnvChars(b)
  {
    if a != [] {
      assert (a + b)[1..] == a[1..] + b;
      KeepEnvCharsAppend(a[1..], b);
    } else {
      assert a + b == b;
    }
  }

  /** The normaliser works piece by piece: normalising a concatenation concatenates the results. */
  lemma ToEnvironmentVariableNameAppend(a: string, b: string)
    ensures ToEnvironmentVariableName(a + b) == ToEnvironmentVariableName(a) + ToEnvironmentVariableName(b)
  {
    UpperCaseAppend(a, b);
    ReplaceAppend(UpperCase(a), UpperCase(b), '-', '_');
    ReplaceAppend(Replace(UpperCase(a), '-', '_'), Replace(UpperCase(b), '-', '_'), '.', '_');
    KeepEnvCharsAppend(Replace(Replace(UpperCase(a), '-', '_'), '.', '_'),
                       Replace(Replace(UpperCase(b), '-', '_'), '.', '_'));
  }

  /** One character goes through the three passes as EnvChar says. */
  lemma ToEnvironmentVariableNameChar(c: char)
    ensures ToEnvironmentVariableName([c]) == EnvChar(c)
  {
    assert UpperCase([c]) == [UpperChar(c)];
    var u := UpperChar(c);
    var d := if u == '-' then '_' else u;
    assert Replace([u], '-', '_') == [d];
    var e := if d == '.' then '_' else d;
    assert Replace([d], '.', '_') == [e];
    assert KeepEnvChars([e]) == (if IsEnvChar(e) then [e] else []);
  }

  /** The normaliser maps each character on its own and keeps the survivors in their original order. */
  lemma {:induction false} ToEnvironmentVariableNameByChar(s: string)
    ensures ToEnvironmentVariableName(s) == EnvCharsOf(s)
  {
    if s != [] {
      assert s == [s[0]] + s[1..];
      ToEnvironmentVariableNameAppend([s[0]], s[1..]);
      ToEnvironmentVariableNameChar(s[0]);
      ToEnvironmentVariableNameByChar(s[1..]);
    } else {
      assert UpperCase(s) == [];
    }
  }

  /** A name already made of [A-Z0-9_] passes through unchanged. */
  lemma {:induction false} EnvNameUnchanged(s: string)
    requires IsEnvName(s)
    ensures ToEnvironmentVariableName(s) == s
  {
    ToEnvironmentVariableNameByChar(s);
    EnvCharsOfEnvName(s);
  }

  lemma {:induction false} EnvCharsOfEnvName(s: string)
    requires IsEnvName(s)
    ensures EnvCharsOf(s) == s
  {
    if s != [] {
      EnvCharsOfEnvName(s[1..]);
    }
  }

  /** Normalising twice is normalising once. */
  lemma ToEnvironmentVariableNameIdempotent(s: string)
    ensures ToEnvironmentVariableName(ToEnvironmentVariableName(s)) == ToEnvironmentVariableName(s)
  {
    EnvNameUnchanged(ToEnvironmentVariableName(s));
  }

  /** A string none of whose characters is dropped maps position by position. */
  lemma {:induction false} EnvCharsOfKeepsAll(s: string)
    requires forall i | 0 <= i < |s| :: IsEnvChar(MapChar(s[i]))
    ensures EnvCharsOf(s) == seq(|s|, i requires 0 <= i < |s| => MapChar(s[i]))
  {
    if s != [] {
      EnvCharsOfKeepsAll(s[1..]);
    }
  }

  /** The bucket part of a bucket-specific name: ".my-bucket" becomes "_MY_BUCKET". */
  lemma BucketSuffixExample()
    ensures ToEnvironmentVariableName(".my-bucket") == "_MY_BUCKET"
  {
    NormalisesTo(".my-bucket", "_MY_BUCKET");
  }

  /** The bucket-specific access key name for bucket "my-bucket" normalises as the providers look it up. */
  lemma BucketSpecificNameExample(key: string, suffix: string)
    requires key == "AWS_ACCESS_KEY_ID" && suffix == ".my-bucket"
    ensures ToEnvironmentVariableName(key + suffix) == "AWS_ACCESS_KEY_ID_MY_BUCKET"
  {
    ToEnvironmentVariableNameAppend(key, suffix);
    EnvNameUnchanged(key);
    NormalisesTo(suffix, "_MY_BUCKET");
  }

  /** A piece none of whose characters is dropped normalises character by character. */
  lemma NormalisesTo(s: string, t: string)
    requires |s| == |t|
    requires forall i | 0 <= i < |s| :: IsEnvChar(MapChar(s[i])) && MapChar(s[i]) == t[i]
    ensures ToEnvironmentVariableName(s) == t
  {
    ToEnvironmentVariableNameByChar(s);
    EnvCharsOfKeepsAll(s);
  }

  /** Three pieces, each normalised character by character, normalise to the concatenation of their results. */
  lemma NormalisesPieces(a: string, b: string, c: string, ta: string, tb: string, tc: string)
    requires ToEnvironmentVariableName(a) == ta
    requires ToEnvironmentVariableName(b) == tb
    requires ToEnvironmentVariableName(c) == tc
    ensures ToEnvironmentVariableName(a + b + c) == ta + tb + tc
  {
    ToEnvironmentVariableNameAppend(a + b, c);
    ToEnvironmentVariableNameAppend(a, b);
  }

  /** Dashes become underscores: "AWS-ACCESS-KEY-ID" normalises to "AWS_ACCESS_KEY_ID". */
  lemma DashedNameExample(name: string, a: string, b: string, c: string)
    requires a == "AWS-ACC" && b == "ESS-KEY" && c == "-ID" && name == a + b + c
    ensures name == "AWS-ACCESS-KEY-ID"
    ensures ToEnvironmentVariableName(name) == "AWS_ACCESS_KEY_ID"
  {
    NormalisesTo(a, "AWS_ACC");
    NormalisesTo(b, "ESS_KEY");
    NormalisesTo(c, "_ID");
    NormalisesPieces(a, b, c, "AWS_ACC", "ESS_KEY", "_ID");
  }

  /** Camel case is not split: the system-property spelling "aws.accessKeyId" normalises to
      "AWS_ACCESSKEYID", two characters shorter than the environment spelling "AWS_ACCESS_KEY_ID". */
  lemma CamelCaseNameExample(name: string, a: string, b: string, c: string)
    requires a == "aws.acc" && b == "essKeyI" && c == "d" && name == a + b + c
    ensures name == "aws.accessKeyId"
    ensures ToEnvironmentVariableName(name) == "AWS_ACCESSKEYID"
    ensures ToEnvironmentVariableName(name) != "AWS_ACCESS_KEY_ID"
  {
    NormalisesTo(a, "AWS_ACC");
    NormalisesTo(b, "ESSKEYI");
    NormalisesTo(c, "D");
    NormalisesPieces(a, b, c, "AWS_ACC", "ESSKEYI", "D");
    assert |"AWS_ACCESSKEYID"| != |"AWS_ACCESS_KEY_ID"|;
  }

  /** Characters outside the kept set disappear: "my bucket!" normalises to "MYBUCKET". */
  lemma DroppedCharsExample(my: string, bucket: string)
    requires my == "my" && bucket == "bucket"
    ensures ToEnvironmentVariableName(my + " " + bucket + "!") == "MYBUCKET"
  {
    ToEnvironmentVariableNameAppend(my + " " + bucket, "!");
    ToEnvironmentVariableNameAppend(my + " ", bucket);
    ToEnvironmentVariableNameAppend(my, " ");
    NormalisesTo(my, "MY");
    NormalisesTo(bucket, "BUCKET");
    ToEnvironmentVariableNameChar(' ');
    ToEnvironmentVariableNameChar('!');
    assert "MY" + [] + "BUCKET" + [] == "MYBUCKET";
  }
}
