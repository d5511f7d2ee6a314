/** The few Python `str` operations the service relies on: `strip()`, `startswith`,
    `endswith`, `find`, `rfind` and the substring test `in`, on strings as sequences
    of characters. */
module PyStr {

  /** The characters for which Python's `str.isspace()` holds, which are the ones
      `str.strip()` with no argument removes. */
  predicate IsSpace(c: char)
  {
    || c == ' ' || c == '\t' || c == '\n' || c == '\r'
    || c == '\U{b}' || c == '\U{c}'
    || ('\U{1c}' <= c <= '\U{1f}')
    || c == '\U{85}' || c == '\U{a0}' || c == '\U{1680}'
    || ('\U{2000}' <= c <= '\U{200a}')
    || c == '\U{2028}' || c == '\U{2029}' || c == '\U{202f}' || c == '\U{205f}' || c == '\U{3000}'
  }

  predicate AllSpace(s: string)
  {
    forall k :: 0 <= k < |s| ==> IsSpace(s[k])
  }

  /** Neither end of `s` is whitespace. */
  predicate NoOuterSpace(s: string)
  {
    s == [] || (!IsSpace(s[0]) && !IsSpace(s[|s| - 1]))
  }

  /** Every character of `s` outside the positions `i..j` is whitespace. */
  predicate SpaceOutside(s: string, i: int, j: int)
  {
    forall k :: 0 <= k < |s| && !(i <= k < j) ==> IsSpace(s[k])
  }

  /** `r` is a contiguous piece of `s`. */
  ghost predicate IsSliceOf(r: string, s: string)
  {
    exists i, j :: 0 <= i <= j <= |s| && r == s[i..j]
  }

  /** `r` is `s` with whitespace removed at its two ends and nothing else changed. */
  ghost predicate TrimmedFrom(r: string, s: string)
  {
    exists i, j :: 0 <= i <= j <= |s| && r == s[i..j] && SpaceOutside(s, i, j)
  }

  lemma SliceOfSlice(r: string, m: string, s: string)
    requires IsSliceOf(r, m) && IsSliceOf(m, s)
    ensures IsSliceOf(r, s)
  {
    var i, j :| 0 <= i <= j <= |m| && r == m[i..j];
    var a, b :| 0 <= a <= b <= |s| && m == s[a..b];
    forall k | 0 <= k < j - i
      ensures r[k] == s[a + i + k]
    {
      assert r[k] == m[i + k];
    }
    assert r == s[a + i..a + j];
  }

  /** The left scan of `str.strip()`: the first position at or after `i` that does
      not hold whitespace, or `|s|`. */
  function SkipSpace(s: string, i: nat): (n: nat)
    requires i <= |s|
    ensures i <= n <= |s|
    ensures forall k :: i <= k < n ==> IsSpace(s[k])
    ensures n == |s| || !IsSpace(s[n])
    decreases |s| - i
  {
    if i < |s| && IsSpace(s[i]) then SkipSpace(s, i + 1) else i
  }

  /** The right scan of `str.strip()`: moves the end `j` down over whitespace, but not
      below `i`. */
  function SkipSpaceBack(s: string, i: nat, j: nat): (n: nat)
    requires i <= j <= |s|
    ensures i <= n <= j
    ensures forall k :: n <= k < j ==> IsSpace(s[k])
    ensures n == i || !IsSpace(s[n - 1])
  {
    if i < j && IsSpace(s[j - 1]) then SkipSpaceBack(s, i, j - 1) else j
  }

  /** Where the text `s.strip()` keeps starts. */
  function StripStart(s: string): (start: nat)
    ensures start <= |s|
  {
    SkipSpace(s, 0)
  }

  /** Where the text `s.strip()` keeps ends. */
  function StripEnd(s: string): (end: nat)
    ensures StripStart(s) <= end <= |s|
  {
    SkipSpaceBack(s, StripStart(s), |s|)
  }

  /** `s.strip()`: the characters between the two scans. */
  function Strip(s: string): (trimmed: string)
  {
    s[StripStart(s)..StripEnd(s)]
  }

  /** What lies outside the two scans is whitespace, and what lies inside neither
      starts nor ends with it. */
  lemma StripScans(s: string)
    ensures SpaceOutside(s, StripStart(s), StripEnd(s))
    ensures NoOuterSpace(Strip(s))
  {
    var i, j := StripStart(s), StripEnd(s);
    if i < j {
      assert Strip(s)[0] == s[i] && Strip(s)[j - i - 1] == s[j - 1];
    }
  }

  /** `s.strip()` removes whitespace at the two ends of `s`, changes nothing else, and
      leaves no whitespace at either end. */
  lemma StripTrims(s: string)
    ensures SpaceOutside(s, StripStart(s), StripEnd(s))
    ensures TrimmedFrom(Strip(s), s) && NoOuterSpace(Strip(s))
    ensures IsSliceOf(Strip(s), s) && |Strip(s)| <= |s|
  {
    StripScans(s);
  }

  /** The trimmed text is determined by what `Strip` promises: any piece of `s` cut
      out by whitespace only and not itself starting or ending in whitespace is it. */
  lemma StripUnique(s: string, i: int, j: int)
    requires 0 <= i <= j <= |s|
    requires SpaceOutside(s, i, j) && NoOuterSpace(s[i..j])
    ensures Strip(s) == s[i..j]
  {
    var a := StripStart(s);
    var b := StripEnd(s);
    if i < j {
      assert !IsSpace(s[i]) && !IsSpace(s[j - 1]) by {
        assert s[i..j][0] == s[i] && s[i..j][j - i - 1] == s[j - 1];
      }
      assert a == i;
      assert b == j;
    } else {
      assert a == |s|;
    }
  }

  /** `s.strip()` keeps a string that has no outer whitespace. */
  lemma StripIdempotent(s: string)
    ensures Strip(Strip(s)) == Strip(s)
  {
    var t := Strip(s);
    StripTrims(s);
    assert t[0..|t|] == t;
    StripUnique(t, 0, |t|);
  }

  /** `Strip(s) == ""` exactly when `s` holds only whitespace. */
  lemma StripEmptyIff(s: string)
    ensures Strip(s) == [] <==> AllSpace(s)
  {
    StripTrims(s);
  }

  /** `s.startswith(p)` */
  predicate StartsWith(s: string, p: string)
  {
    |p| <= |s| && s[..|p|] == p
  }

  /** `s.endswith(p)` */
  predicate EndsWith(s: string, p: string)
  {
    |p| <= |s| && s[|s| - |p|..] == p
  }

  /** `p in s` for strings: `p` occurs in `s` at some position. */
  predicate Contains(s: string, p: string)
  {
    StartsWith(s, p) || (|s| > 0 && Contains(s[1..], p))
  }

  lemma {:induction false} ContainsGivesIndex(s: string, p: string)
    requires Contains(s, p)
    ensures exists i, j :: 0 <= i <= j <= |s| && j == i + |p| && s[i..j] == p
  {
    if StartsWith(s, p) {
      assert s[0..|p|] == p;
    } else {
      ContainsGivesIndex(s[1..], p);
      var i, j :| 0 <= i <= j <= |s| - 1 && j == i + |p| && s[1..][i..j] == p;
      assert s[i + 1..j + 1] == s[1..][i..j];
    }
  }

  lemma {:induction false} IndexGivesContains(s: string, p: string, i: nat)
    requires i + |p| <= |s| && s[i..i + |p|] == p
    ensures Contains(s, p)
  {
    if i == 0 {
      assert s[..|p|] == s[i..i + |p|];
    } else {
      assert s[1..][i - 1..i - 1 + |p|] == s[i..i + |p|];
      IndexGivesContains(s[1..], p, i - 1);
    }
  }

  /** `p in s` holds exactly when `p` occurs at some position of `s`. */
  lemma ContainsAt(s: string, p: string)
    ensures Contains(s, p) <==> exists i, j :: 0 <= i <= j <= |s| && j == i + |p| && s[i..j] == p
  {
    if Contains(s, p) {
      ContainsGivesIndex(s, p);
    }
    if i, j :| 0 <= i <= j <= |s| && j == i + |p| && s[i..j] == p {
      IndexGivesContains(s, p, i);
    }
  }

  /** The scan of `s.find(c)`: the first index at or after `i` holding `c`, or -1. */
  function FindFrom(s: string, c: char, i: nat): (r: int)
    requires i <= |s|
    ensures r == -1 || i <= r < |s|
    ensures r == -1 ==> forall k :: i <= k < |s| ==> s[k] != c
    ensures r != -1 ==> s[r] == c && forall k :: i <= k < r ==> s[k] != c
    decreases |s| - i
  {
    if i == |s| then -1
    else if s[i] == c then i
    else FindFrom(s, c, i + 1)
  }

  /** `s.find(c)` for one character: the first index holding `c`, or -1. */
  function Find(s: string, c: char): (index: int)
  {
    FindFrom(s, c, 0)
  }

  /** The scan of `s.rfind(c)`: the last index below `j` holding `c`, or -1. */
  function RFindBelow(s: string, c: char, j: nat): (r: int)
    requires j <= |s|
    ensures -1 <= r < j
    ensures r == -1 ==> forall k :: 0 <= k < j ==> s[k] != c
    ensures r != -1 ==> s[r] == c && forall k :: r < k < j ==> s[k] != c
  {
    if j == 0 then -1
    else if s[j - 1] == c then j - 1
    else RFindBelow(s, c, j - 1)
  }

  /** `s.rfind(c)` for one character: the last index holding `c`, or -1. */
  function RFind(s: string, c: char): (index: int)
  {
    RFindBelow(s, c, |s|)
  }

  /** `s[i:j]` for the non-negative bounds the service uses: an end at or before the
      start gives the empty string. */
  function PySlice(s: string, i: nat, j: nat): (r: string)
    requires j <= |s|
  {
    if i < j then s[i..j] else []
  }
}
