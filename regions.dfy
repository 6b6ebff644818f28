/**
 * Region resolution of S3URLUtil and S3URLHandler: the region-name alternation sorted longest
 * first, the matcher as the code runs it (Matcher.group(1) without find(), so it never yields a
 * name), the leftmost-longest matcher the comments describe, and the URL, DNS, service fallback.
 */
module Regions {
  import opened Wrappers
  import opened Faults
  import opened Optionals

  // ---- the alternation, longest names first ----

  ghost predicate NonIncreasingLength(s: seq<string>) {
    forall i, j | 0 <= i < j < |s| :: |s[i]| >= |s[j]|
  }

  /** The names of s whose length is n, in their order in s. */
  function WithLength(s: seq<string>, n: nat): (r: seq<string>)
    ensures |r| <= |s|
  {
    if s == [] then []
    else (if |s[0]| == n then [s[0]] else []) + WithLength(s[1..], n)
  }

  lemma ConcatAssoc(a: seq<string>, b: seq<string>, c: seq<string>)
    ensures a + (b + c) == (a + b) + c
  {
  }

  lemma WithLengthCons(y: string, s: seq<string>, n: nat)
    ensures WithLength([y] + s, n) == (if |y| == n then [y] else []) + WithLength(s, n)
  {
    assert ([y] + s)[1..] == s;
  }

  lemma {:induction false} WithLengthAppend(a: seq<string>, b: seq<string>, n: nat)
    ensures WithLength(a + b, n) == WithLength(a, n) + WithLength(b, n)
  {
    if a == [] {
      assert a + b == b;
    } else {
      var h := if |a[0]| == n then [a[0]] else [];
      assert a + b == [a[0]] + (a[1..] + b);
      assert a == [a[0]] + a[1..];
      WithLengthCons(a[0], a[1..] + b, n);
      WithLengthCons(a[0], a[1..], n);
      WithLengthAppend(a[1..], b, n);
      ConcatAssoc(h, WithLength(a[1..], n), WithLength(b, n));
    }
  }

  lemma {:induction false} WithLengthOfShorter(s: seq<string>, n: nat)
    requires forall i | 0 <= i < |s| :: |s[i]| < n
    ensures WithLength(s, n) == []
  {
    if s != [] {
      WithLengthOfShorter(s[1..], n);
    }
  }

  /** A name no shorter than the first of a sorted sequence can go in front of it. */
  lemma ConsSorted(y: string, t: seq<string>)
    requires NonIncreasingLength(t)
    requires t != [] ==> |y| >= |t[0]|
    ensures NonIncreasingLength([y] + t)
  {
    var r := [y] + t;
    forall i, j | 0 <= i < j < |r|
      ensures |r[i]| >= |r[j]|
    {
      if i == 0 && j > 1 {
        assert r[j] == t[j - 1] && |t[0]| >= |t[j - 1]|;
      }
    }
  }

  /** x placed after every name at least as long, so that equal lengths keep their order. */
  function InsertByLength(x: string, s: seq<string>): (r: seq<string>)
    requires NonIncreasingLength(s)
    ensures |r| == |s| + 1
    ensures r[0] == if s == [] || |x| > |s[0]| then x else s[0]
    ensures NonIncreasingLength(r)
  {
    if s == [] then
      [x]
    else if |x| > |s[0]| then
      ConsSorted(x, s);
      [x] + s
    else
      var rest := InsertByLength(x, s[1..]);
      ConsSorted(s[0], rest);
      [s[0]] + rest
  }

  /** Insertion adds x and loses nothing. */
  lemma {:induction false} InsertByLengthPermutation(x: string, s: seq<string>)
    requires NonIncreasingLength(s)
    ensures multiset(InsertByLength(x, s)) == multiset(s) + multiset{x}
  {
    if s != [] && |x| <= |s[0]| {
      assert s == [s[0]] + s[1..];
      InsertByLengthPermutation(x, s[1..]);
      assert InsertByLength(x, s) == [s[0]] + InsertByLength(x, s[1..]);
    }
  }

  lemma WithLengthConsBoth(y: string, t: seq<string>, u: seq<string>, tail: seq<string>, n: nat)
    requires WithLength(t, n) == WithLength(u, n) + tail
    ensures WithLength([y] + t, n) == WithLength([y] + u, n) + tail
  {
    WithLengthCons(y, t, n);
    WithLengthCons(y, u, n);
    ConcatAssoc(if |y| == n then [y] else [], WithLength(u, n), tail);
  }

  /** A name longer than the first of a sorted sequence goes in front, after no name of its length. */
  lemma InsertInFrontStable(x: string, s: seq<string>, n: nat)
    requires NonIncreasingLength(s) && s != [] && |x| > |s[0]|
    ensures WithLength(InsertByLength(x, s), n) == WithLength(s, n) + (if |x| == n then [x] else [])
  {
    WithLengthCons(x, s, n);
    if |x| == n {
      WithLengthOfShorter(s, n);
    }
  }

  /** Inserting past the first name keeps it first among the names of its length. */
  lemma InsertPastFirstStable(x: string, s: seq<string>, n: nat)
    requires NonIncreasingLength(s) && s != [] && |x| <= |s[0]|
    requires WithLength(InsertByLength(x, s[1..]), n) == WithLength(s[1..], n) + (if |x| == n then [x] else [])
    ensures WithLength(InsertByLength(x, s), n) == WithLength(s, n) + (if |x| == n then [x] else [])
  {
    var rest := InsertByLength(x, s[1..]);
    assert InsertByLength(x, s) == [s[0]] + rest;
    assert s == [s[0]] + s[1..];
    WithLengthConsBoth(s[0], rest, s[1..], if |x| == n then [x] else [], n);
  }

  /** Insertion keeps the names of every length in order, the inserted one after those of its length. */
  lemma {:induction false} InsertByLengthStable(x: string, s: seq<string>, n: nat)
    requires NonIncreasingLength(s)
    ensures WithLength(InsertByLength(x, s), n) == WithLength(s, n) + (if |x| == n then [x] else [])
  {
    if s == [] {
      WithLengthCons(x, [], n);
      assert [x] + [] == [x];
    } else if |x| > |s[0]| {
      InsertInFrontStable(x, s, n);
    } else {
      InsertByLengthStable(x, s[1..], n);
      InsertPastFirstStable(x, s, n);
    }
  }

  /** Stream.sorted with the reverse-length comparator: inserting the names one by one, first to
      last, each after every name at least as long, leaves them in non-increasing length. */
  function SortByLengthDesc(names: seq<string>): (r: seq<string>)
    ensures |r| == |names|
    ensures NonIncreasingLength(r)
  {
    if names == [] then []
    else InsertByLength(names[|names| - 1], SortByLengthDesc(names[..|names| - 1]))
  }

  /** The sort is a permutation of its input. */
  lemma {:induction false} SortByLengthDescPermutation(names: seq<string>)
    ensures multiset(SortByLengthDesc(names)) == multiset(names)
  {
    if names != [] {
      var init := names[..|names| - 1];
      var last := names[|names| - 1];
      assert names == init + [last];
      SortByLengthDescPermutation(init);
      InsertByLengthPermutation(last, SortByLengthDesc(init));
    }
  }

  /** The sort is stable: names of equal length keep their original order. */
  lemma {:induction false} SortByLengthDescStable(names: seq<string>, n: nat)
    ensures WithLength(SortByLengthDesc(names), n) == WithLength(names, n)
  {
    if names != [] {
      var init := names[..|names| - 1];
      var last := names[|names| - 1];
      var tail := if |last| == n then [last] else [];
      assert names == init + [last];
      WithLengthCons(last, [], n);
      assert [last] + [] == [last];
      calc {
        WithLength(SortByLengthDesc(names), n);
        WithLength(InsertByLength(last, SortByLengthDesc(init)), n);
        { InsertByLengthStable(last, SortByLengthDesc(init), n); }
        WithLength(SortByLengthDesc(init), n) + tail;
        { SortByLengthDescStable(init, n); }
        WithLength(init, n) + WithLength([last], n);
        { WithLengthAppend(init, [last], n); }
        WithLength(names, n);
      }
    }
  }

  /** makeRegionMatcher: the alternatives of the pattern, in the order the regex tries them. */
  function MakeRegionMatcher(regionNames: seq<string>): (r: seq<string>)
    ensures NonIncreasingLength(r) && multiset(r) == multiset(regionNames)
  {
    SortByLengthDescPermutation(regionNames);
    SortByLengthDesc(regionNames)
  }

  /** The state of a java.util.regex.Matcher: no match attempted yet, or the last attempt's outcome. */
  datatype MatcherState = Fresh | Matched(group1: string) | NoMatch

  /** Matcher.group(1): IllegalStateException unless the last attempt matched. */
  function Group1(m: MatcherState): (r: Outcome<string>)
    ensures r.Ok? <==> m.Matched?
    ensures r.Err? ==> r.error == IllegalState
  {
    match m
    case Matched(g) => Ok(g)
    case _ => Err(IllegalState)
  }

  /** findFirstInRegionMatcher as written: group(1) on a fresh matcher throws IllegalStateException,
      which is caught, so the answer is empty for every string. */
  function FindFirstInRegionMatcher(alternatives: seq<string>, str: string): (r: Option<string>)
    ensures r.None?
  {
    match Group1(Fresh)
    case Ok(g) => Some(g)
    case Err(_) => None
  }

  // ---- the intended matcher: leftmost position, first alternative there ----

  /** Alternative a occurs in str at position p. */
  predicate Occurs(a: string, str: string, p: int) {
    0 <= p <= |str| && a <= str[p..]
  }

  function Candidates(alternatives: seq<string>, str: string, p: nat): (r: seq<Option<string>>)
    requires p <= |str|
    ensures |r| == |alternatives|
    ensures forall j | 0 <= j < |alternatives| :: r[j] == if Occurs(alternatives[j], str, p) then Some(alternatives[j]) else None
  {
    seq(|alternatives|, j requires 0 <= j < |alternatives| =>
      if Occurs(alternatives[j], str, p) then Some(alternatives[j]) else None)
  }

  /** No alternative occurs at any position in [lo, hi). */
  ghost predicate NoneOccursIn(alternatives: seq<string>, str: string, lo: int, hi: int) {
    forall i, q | 0 <= i < |alternatives| && lo <= q < hi :: !Occurs(alternatives[i], str, q)
  }

  /** alternatives[j] occurs at q and no alternative before it in order does. */
  ghost predicate FirstAlternativeAt(alternatives: seq<string>, str: string, q: int, j: int) {
    && 0 <= j < |alternatives|
    && Occurs(alternatives[j], str, q)
    && forall i | 0 <= i < j :: !Occurs(alternatives[i], str, q)
  }

  lemma NoneOccursJoin(alternatives: seq<string>, str: string, lo: int, mid: int, hi: int)
    requires lo <= mid <= hi
    requires NoneOccursIn(alternatives, str, lo, mid) && NoneOccursIn(alternatives, str, mid, hi)
    ensures NoneOccursIn(alternatives, str, lo, hi)
  {
  }

  /** The alternative the regex engine takes at position p: the first one in order that occurs there. */
  function MatchAt(alternatives: seq<string>, str: string, p: nat): (r: Option<string>)
    requires p <= |str|
    ensures r.None? <==> NoneOccursIn(alternatives, str, p, p + 1)
    ensures r.Some? ==> exists j :: FirstAlternativeAt(alternatives, str, p, j) && alternatives[j] == r.value
  {
    var c := Candidates(alternatives, str, p);
    FirstPresentAt(c);
    var k := FirstPresentIndex(c);
    assert k < |c| ==> FirstAlternativeAt(alternatives, str, p, k);
    assert k == |c| ==> NoneOccursIn(alternatives, str, p, p + 1);
    FirstPresent(c)
  }

  /** Matcher.find() from position p on, then group(1). */
  function FindFrom(alternatives: seq<string>, str: string, p: nat): (r: Option<string>)
    requires p <= |str|
    ensures r.Some? ==> r.value in alternatives
    decreases |str| - p
  {
    match MatchAt(alternatives, str, p)
    case Some(a) => Some(a)
    case None => if p == |str| then None else FindFrom(alternatives, str, p + 1)
  }

  /** The matcher the comments describe: find() before group(1). */
  function FindRegionName(alternatives: seq<string>, str: string): (r: Option<string>)
    ensures r.Some? ==> r.value in alternatives
  {
    FindFrom(alternatives, str, 0)
  }

  /** What FindFrom finds: nothing when no alternative occurs from p on; otherwise an alternative at the
      leftmost position where one occurs, and the first alternative in order that occurs there. */
  lemma {:induction false} FindFromSpec(alternatives: seq<string>, str: string, p: nat)
    requires p <= |str|
    decreases |str| - p
    ensures var r := FindFrom(alternatives, str, p);
            && (r.None? <==> NoneOccursIn(alternatives, str, p, |str| + 1))
            && (r.Some? ==> exists q, j :: && p <= q
                                           && FirstAlternativeAt(alternatives, str, q, j)
                                           && alternatives[j] == r.value
                                           && NoneOccursIn(alternatives, str, p, q))
  {
    var m := MatchAt(alternatives, str, p);
    if m.Some? {
      var j :| FirstAlternativeAt(alternatives, str, p, j) && alternatives[j] == m.value;
      assert NoneOccursIn(alternatives, str, p, p);
      assert !NoneOccursIn(alternatives, str, p, |str| + 1);
    } else if p < |str| {
      FindFromSpec(alternatives, str, p + 1);
      var r := FindFrom(alternatives, str, p + 1);
      if r.Some? {
        var q, j :| p + 1 <= q && FirstAlternativeAt(alternatives, str, q, j) && alternatives[j] == r.value
                    && NoneOccursIn(alternatives, str, p + 1, q);
        NoneOccursJoin(alternatives, str, p, p + 1, q);
        assert !NoneOccursIn(alternatives, str, p, |str| + 1);
      } else {
        NoneOccursJoin(alternatives, str, p, p + 1, |str| + 1);
      }
    }
  }

  /** name occurs at q, no region name occurs before q, and none longer than name occurs at q. */
  ghost predicate LeftmostLongestAt(regionNames: seq<string>, str: string, name: string, q: int) {
    && Occurs(name, str, q)
    && (forall a, q' | a in regionNames && 0 <= q' < q :: !Occurs(a, str, q'))
    && (forall a | a in regionNames && Occurs(a, str, q) :: |a| <= |name|)
  }

  /** Over alternatives sorted longest first, the first one occurring at a position is the longest there. */
  lemma FindRegionNameSpec(alts: seq<string>, str: string)
    requires NonIncreasingLength(alts)
    ensures var r := FindRegionName(alts, str);
            && (r.None? <==> NoneOccursIn(alts, str, 0, |str| + 1))
            && (r.Some? ==> r.value in alts && exists q :: LeftmostLongestAt(alts, str, r.value, q))
  {
    FindFromSpec(alts, str, 0);
    var r := FindRegionName(alts, str);
    if r.Some? {
      var q, j :| 0 <= q && FirstAlternativeAt(alts, str, q, j) && alts[j] == r.value
                  && NoneOccursIn(alts, str, 0, q);
      forall a | a in alts && Occurs(a, str, q)
        ensures |a| <= |r.value|
      {
        var i :| 0 <= i < |alts| && alts[i] == a;
      }
      forall a, q' | a in alts && 0 <= q' < q
        ensures !Occurs(a, str, q')
      {
        var i :| 0 <= i < |alts| && alts[i] == a;
      }
      assert LeftmostLongestAt(alts, str, r.value, q);
    }
  }

  lemma SameNames(a: seq<string>, b: seq<string>)
    requires multiset(a) == multiset(b)
    ensures forall x :: x in a <==> x in b
  {
    forall x ensures x in a <==> x in b {
      assert x in a <==> x in multiset(a);
      assert x in b <==> x in multiset(b);
    }
  }

  /** The intended matcher over makeRegionMatcher's alternation: no name when no region name occurs;
      otherwise a region name at the leftmost position where any occurs, and no longer region name
      occurs at that position. */
  lemma RegionMatchIsLeftmostLongest(regionNames: seq<string>, str: string)
    ensures var r := FindRegionName(MakeRegionMatcher(regionNames), str);
            && (r.None? <==> forall a, q | a in regionNames :: !Occurs(a, str, q))
            && (r.Some? ==> r.value in regionNames && exists q :: LeftmostLongestAt(regionNames, str, r.value, q))
  {
    var alts := MakeRegionMatcher(regionNames);
    FindRegionNameSpec(alts, str);
    SameNames(alts, regionNames);
    var r := FindRegionName(alts, str);
    if r.Some? {
      var q :| LeftmostLongestAt(alts, str, r.value, q);
      assert LeftmostLongestAt(regionNames, str, r.value, q);
    } else {
      forall a, q | a in regionNames
        ensures !Occurs(a, str, q)
      {
        var j :| 0 <= j < |alts| && alts[j] == a;
      }
    }
  }

  /** Wherever a region name occurs, the intended matcher finds one and the matcher as written does not. */
  lemma MatcherAsWrittenMissesRegion(regionNames: seq<string>, str: string, name: string, p: int)
    requires name in regionNames && Occurs(name, str, p)
    ensures FindRegionName(MakeRegionMatcher(regionNames), str).Some?
    ensures FindFirstInRegionMatcher(MakeRegionMatcher(regionNames), str).None?
  {
    RegionMatchIsLeftmostLongest(regionNames, str);
  }
}
