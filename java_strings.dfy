/**
 * The few java.lang.String and java.lang.Integer operations the core relies on,
 * stated over Dafny strings (sequences of Unicode scalar values; Java's are UTF-16 code units,
 * which differ only outside the Basic Multilingual Plane).
 */
module JavaStrings {
  import opened Wrappers

  /** String.endsWith */
  predicate EndsWith(str: string, suffix: string) {
    |suffix| <= |str| && str[|str| - |suffix|..] == suffix
  }

  /** String.startsWith */
  predicate StartsWith(str: string, prefix: string) {
    prefix <= str
  }

  /** The characters String.trim removes: every code unit at or below the space character. */
  predicate IsTrimmed(c: char) {
    c <= ' '
  }

  predicate AllTrimmed(s: string) {
    forall i | 0 <= i < |s| :: IsTrimmed(s[i])
  }

  /** r is s with a run of trimmed characters removed at each end, and r has none left at either end. */
  ghost predicate IsTrimOf(s: string, r: string) {
    exists lo, hi | 0 <= lo <= hi <= |s| ::
      && r == s[lo..hi]
      && AllTrimmed(s[..lo])
      && AllTrimmed(s[hi..])
      && (r == [] || (!IsTrimmed(r[0]) && !IsTrimmed(r[|r| - 1])))
  }

  function TrimStart(s: string): (r: string)
    ensures |r| <= |s| && r == s[|s| - |r|..]
    ensures AllTrimmed(s[..|s| - |r|])
    ensures r == [] || !IsTrimmed(r[0])
  {
    if s == [] || !IsTrimmed(s[0]) then s else TrimStart(s[1..])
  }

  function TrimEnd(s: string): (r: string)
    ensures |r| <= |s| && r == s[..|r|]
    ensures AllTrimmed(s[|r|..])
    ensures r == [] || !IsTrimmed(r[|r| - 1])
  {
    if s == [] || !IsTrimmed(s[|s| - 1]) then s else TrimEnd(s[..|s| - 1])
  }

  /** The slice s[lo..hi] witnesses that r is the trim of s. */
  lemma TrimWitness(s: string, r: string, lo: int, hi: int)
    requires 0 <= lo <= hi <= |s| && r == s[lo..hi]
    requires AllTrimmed(s[..lo]) && AllTrimmed(s[hi..])
    requires r == [] || (!IsTrimmed(r[0]) && !IsTrimmed(r[|r| - 1]))
    ensures IsTrimOf(s, r)
  {
  }

  /** String.trim */
  function Trim(s: string): (r: string)
    ensures IsTrimOf(s, r)
    ensures |r| <= |s|
  {
    var t := TrimStart(s);
    var r := TrimEnd(t);
    var lo := |s| - |t|;
    var hi := lo + |r|;
    assert t == s[lo..];
    assert r == s[lo..hi];
    assert s[hi..] == t[|r|..];
    assert r != [] ==> r[0] == t[0];
    TrimWitness(s, r, lo, hi);
    r
  }

  /** A string with nothing to trim at its ends is its own trim. */
  lemma {:induction false} TrimUnchanged(s: string)
    requires s == [] || (!IsTrimmed(s[0]) && !IsTrimmed(s[|s| - 1]))
    ensures Trim(s) == s
  {
  }

  // ---- Integer.parseInt (radix 10), over ASCII digits ----

  const IntMin: int := -0x8000_0000
  const IntMax: int := 0x7fff_ffff

  predicate IsDigit(c: char) {
    '0' <= c <= '9'
  }

  predicate AllDigits(s: string) {
    forall i | 0 <= i < |s| :: IsDigit(s[i])
  }

  /** The value of a string of decimal digits, most significant first. */
  function DigitsValue(s: string): (v: nat)
    requires AllDigits(s)
  {
    if s == [] then 0 else DigitsValue(s[..|s| - 1]) * 10 + (s[|s| - 1] - '0') as int
  }

  /** Integer.parseInt(s): an optional sign, then at least one digit, with a value in int range. */
  function ParseInt(s: string): (r: Option<int>)
    ensures r.Some? ==> IntMin <= r.value <= IntMax
    ensures r.Some? ==> s != [] && (IsDigit(s[0]) || s[0] == '-' || s[0] == '+')
  {
    if s == [] then None
    else
      var negative := s[0] == '-';
      var digits := if s[0] == '-' || s[0] == '+' then s[1..] else s;
      if digits == [] || !AllDigits(digits) then None
      else
        var v: int := if negative then -(DigitsValue(digits) as int) else DigitsValue(digits);
        if IntMin <= v <= IntMax then Some(v) else None
  }

  /** The decimal rendering of a natural number, without leading zeros. */
  function DecimalString(n: nat): (s: string)
    ensures s != [] && AllDigits(s)
  {
    var last := ['0' + (n % 10) as char];
    if n < 10 then last else DecimalString(n / 10) + last
  }

  lemma {:induction false} DecimalStringValue(n: nat)
    ensures DigitsValue(DecimalString(n)) == n
  {
    var s := DecimalString(n);
    if n >= 10 {
      DecimalStringValue(n / 10);
      assert s[..|s| - 1] == DecimalString(n / 10);
    }
  }

  /** Parsing undoes rendering for every int: a non-negative one written out reads back, and so
      does a negative one down to Integer.MIN_VALUE, whose magnitude is one past IntMax. */
  lemma ParseIntRoundTrip(n: nat)
    requires n <= IntMax + 1
    ensures n <= IntMax ==> ParseInt(DecimalString(n)) == Some(n)
    ensures ParseInt("-" + DecimalString(n)) == Some(-(n as int))
  {
    DecimalStringValue(n);
    var s := "-" + DecimalString(n);
    assert s[1..] == DecimalString(n);
  }
}
