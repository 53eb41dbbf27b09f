/**
  The three string primitives the support pipeline relies on, as the browser
  provides them: lower-casing, substring search and whitespace trimming.

  Only the ASCII part of each is modelled: lower-casing maps `A`..`Z` to
  `a`..`z` and leaves every other character alone, and whitespace is the space
  character plus the five ASCII control characters tab, line feed, vertical
  tab, form feed and carriage return.
 */
module Text {

  /** ASCII whitespace: ' ' and the control characters U+0009..U+000D. */
  predicate IsSpace(c: char) {
    c == ' ' || '\t' <= c <= '\r'
  }

  predicate IsUpper(c: char) {
    'A' <= c <= 'Z'
  }

  /** Every character of `s` at an index in [lo, hi) is whitespace. */
  ghost predicate SpacesIn(s: string, lo: int, hi: int) {
    forall i :: lo <= i < hi && 0 <= i < |s| ==> IsSpace(s[i])
  }

  /** Every character of `s` is whitespace (vacuously true of ""). */
  ghost predicate AllSpace(s: string) {
    SpacesIn(s, 0, |s|)
  }

  /** Lower-cases one ASCII letter; every other character is its own image. */
  function LowerChar(c: char): (d: char)
    ensures !IsUpper(d)
    ensures !IsUpper(c) ==> d == c
    ensures IsUpper(c) ==> 'a' <= d <= 'z' && d as int - 'a' as int == c as int - 'A' as int
  {
    if IsUpper(c) then (c as int + ('a' as int - 'A' as int)) as char else c
  }

  /** String lower-casing, character by character. */
  function ToLower(s: string): (r: string)
    ensures |r| == |s|
    ensures forall i :: 0 <= i < |s| ==> r[i] == LowerChar(s[i])
  {
    if s == [] then [] else [LowerChar(s[0])] + ToLower(s[1..])
  }

  /** Lower-casing an already lower-cased string changes nothing. */
  lemma ToLowerIdempotent(s: string)
    ensures ToLower(ToLower(s)) == ToLower(s)
  {
    var l := ToLower(s);
    assert forall i :: 0 <= i < |l| ==> ToLower(l)[i] == l[i];
  }

  /** A string without upper-case letters is already lower case. */
  lemma ToLowerOfLower(s: string)
    requires forall i :: 0 <= i < |s| ==> !IsUpper(s[i])
    ensures ToLower(s) == s
  {
    assert forall i :: 0 <= i < |s| ==> ToLower(s)[i] == s[i];
  }

  /** Lower-casing distributes over concatenation. */
  lemma ToLowerAppend(a: string, b: string)
    ensures ToLower(a + b) == ToLower(a) + ToLower(b)
  {
    var l, r := ToLower(a + b), ToLower(a) + ToLower(b);
    assert |l| == |r|;
    forall i | 0 <= i < |l|
      ensures l[i] == r[i]
    {
      if i < |a| {
        assert (a + b)[i] == a[i];
      } else {
        assert (a + b)[i] == b[i - |a|];
      }
    }
  }

  /** `p` occurs in `s` starting at index `i`. */
  ghost predicate OccursAt(s: string, p: string, i: int) {
    0 <= i <= |s| - |p| && s[i..i + |p|] == p
  }

  /** `p` occurs in `s` as a contiguous piece. */
  ghost predicate Contains(s: string, p: string) {
    exists i :: OccursAt(s, p, i)
  }

  /** If `p` is not a prefix of `s`, any occurrence of `p` in `s` is in `s[1..]`. */
  lemma ContainsTail(s: string, p: string)
    requires |p| <= |s| && s[..|p|] != p
    ensures Contains(s, p) <==> Contains(s[1..], p)
  {
    if Contains(s, p) {
      var i :| OccursAt(s, p, i);
      assert i != 0;
      assert s[1..][i - 1..i - 1 + |p|] == s[i..i + |p|];
      assert OccursAt(s[1..], p, i - 1);
    }
    if Contains(s[1..], p) {
      var j :| OccursAt(s[1..], p, j);
      assert s[j + 1..j + 1 + |p|] == s[1..][j..j + |p|];
      assert OccursAt(s, p, j + 1);
    }
  }

  /** Substring search: does `p` occur anywhere in `s`? The empty string occurs everywhere. */
  function Includes(s: string, p: string): (b: bool)
    ensures b <==> Contains(s, p)
    decreases |s|
  {
    if |s| < |p| then
      false
    else if s[..|p|] == p then
      assert OccursAt(s, p, 0);
      true
    else
      ContainsTail(s, p);
      Includes(s[1..], p)
  }

  /** An occurrence of `p` survives any text around it. */
  lemma ContainsInContext(a: string, p: string, b: string)
    ensures Contains(a + p + b, p)
  {
    var s := a + p + b;
    assert s[|a|..|a| + |p|] == p;
    assert OccursAt(s, p, |a|);
  }

  /** A piece holding two adjacent characters that never stand side by side in `s` does not occur in `s`. */
  lemma AbsentPairNotContained(s: string, p: string, k: int)
    requires 0 <= k < |p| - 1
    requires forall i :: 0 <= i < |s| - 1 ==> s[i] != p[k] || s[i + 1] != p[k + 1]
    ensures !Contains(s, p)
  {
    forall i | 0 <= i <= |s| - |p|
      ensures !OccursAt(s, p, i)
    {
      var piece := s[i..i + |p|];
      assert piece[k] == s[i + k] && piece[k + 1] == s[i + k + 1];
    }
  }

  /** Strips leading whitespace: the result is the longest suffix not starting with whitespace. */
  function TrimStart(s: string): (r: string)
    ensures |r| <= |s| && r == s[|s| - |r|..]
    ensures SpacesIn(s, 0, |s| - |r|)
    ensures r == [] || !IsSpace(r[0])
  {
    if s != [] && IsSpace(s[0]) then TrimStart(s[1..]) else s
  }

  /** Strips trailing whitespace: the result is the longest prefix not ending in whitespace. */
  function TrimEnd(s: string): (r: string)
    ensures |r| <= |s| && r == s[..|r|]
    ensures SpacesIn(s, |r|, |s|)
    ensures r == [] || !IsSpace(r[|r| - 1])
  {
    if s != [] && IsSpace(s[|s| - 1]) then TrimEnd(s[..|s| - 1]) else s
  }

  /**
    `r` sits in `s` at offset `a` with only whitespace before and after it,
    and neither starts nor ends with whitespace.
   */
  ghost predicate TrimmedAt(s: string, r: string, a: int) {
    && 0 <= a <= |s| - |r|
    && s[a..a + |r|] == r
    && SpacesIn(s, 0, a)
    && SpacesIn(s, a + |r|, |s|)
    && (r == [] || (!IsSpace(r[0]) && !IsSpace(r[|r| - 1])))
  }

  /** `r` is `s` with its leading and trailing whitespace removed. */
  ghost predicate IsTrimOf(s: string, r: string) {
    exists a :: TrimmedAt(s, r, a)
  }

  /**
    Stripping the end of `t`, a suffix of `s` left by stripping its start,
    leaves a trim of `s`.
   */
  lemma StartThenEndIsTrim(s: string, t: string, r: string)
    requires |t| <= |s| && t == s[|s| - |t|..] && SpacesIn(s, 0, |s| - |t|) && (t == [] || !IsSpace(t[0]))
    requires |r| <= |t| && r == t[..|r|] && SpacesIn(t, |r|, |t|) && (r == [] || !IsSpace(r[|r| - 1]))
    ensures TrimmedAt(s, r, |s| - |t|)
    ensures r == [] <==> AllSpace(s)
  {
    var a := |s| - |t|;
    assert s[a..a + |r|] == r;
    assert r != [] ==> r[0] == t[0];
    forall i | a + |r| <= i < |s|
      ensures IsSpace(s[i])
    {
      assert s[i] == t[i - a];
    }
    assert r != [] ==> s[a] == r[0];
  }

  /** Whitespace trimming at both ends. */
  function Trim(s: string): (r: string)
    ensures IsTrimOf(s, r)
    ensures r == [] <==> AllSpace(s)
  {
    var t := TrimStart(s);
    var r := TrimEnd(t);
    StartThenEndIsTrim(s, t, r);
    r
  }

  /** Whatever satisfies `IsTrimOf(s, _)` is unique: the characterisation pins down `Trim`. */
  lemma TrimOfUnique(s: string, r1: string, r2: string)
    requires IsTrimOf(s, r1) && IsTrimOf(s, r2)
    ensures r1 == r2
  {
    var a1 :| TrimmedAt(s, r1, a1);
    var a2 :| TrimmedAt(s, r2, a2);
    // When one of them is empty, s is all whitespace and the other cannot start with a non-space.
    if r1 != [] && r2 != [] {
      // Both start at the first non-space character of s ...
      assert s[a1] == r1[0] && s[a2] == r2[0];
      assert a1 == a2;
      // ... and end at the last one.
      var e1, e2 := a1 + |r1|, a2 + |r2|;
      assert s[e1 - 1] == r1[|r1| - 1] && s[e2 - 1] == r2[|r2| - 1];
      assert e1 == e2;
    }
  }

  /** A string with no whitespace at either end is its own trim. */
  lemma TrimOfTrimmed(s: string)
    requires s == [] || (!IsSpace(s[0]) && !IsSpace(s[|s| - 1]))
    ensures Trim(s) == s
  {
    assert s[0..0 + |s|] == s;
    assert TrimmedAt(s, s, 0);
    TrimOfUnique(s, Trim(s), s);
  }

  /** Trimming twice is trimming once. */
  lemma TrimIdempotent(s: string)
    ensures Trim(Trim(s)) == Trim(s)
  {
    TrimOfTrimmed(Trim(s));
  }
}
