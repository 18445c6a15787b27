/** The two pieces of Python `str` behaviour the pipeline relies on:
    `str.strip()` with no argument, and `" ".join(...)`. */
module PyStr {

  /** Python's `str.isspace()` for one character: the ASCII separators, the
      C1 next-line character and the Unicode space separators. */
  predicate IsSpace(c: char)
  {
    || c == ' ' || c == '\t' || c == '\n' || c == '\r'
    || c == '\U{000B}' || c == '\U{000C}'
    || ('\U{001C}' <= c <= '\U{001F}')
    || c == '\U{0085}' || c == '\U{00A0}' || c == '\U{1680}'
    || ('\U{2000}' <= c <= '\U{200A}')
    || c == '\U{2028}' || c == '\U{2029}' || c == '\U{202F}'
    || c == '\U{205F}' || c == '\U{3000}'
  }

  predicate AllSpace(s: string)
  {
    forall k :: 0 <= k < |s| ==> IsSpace(s[k])
  }

  /** Neither begins nor ends with whitespace. */
  predicate Trimmed(s: string)
  {
    s == [] || (!IsSpace(s[0]) && !IsSpace(s[|s| - 1]))
  }

  /** `s[i..j]` is what stripping `s` leaves: everything outside it is
      whitespace and it is itself trimmed. */
  predicate StripsAt(s: string, i: int, j: int)
  {
    && 0 <= i <= j <= |s|
    && AllSpace(s[..i]) && AllSpace(s[j..]) && Trimmed(s[i..j])
  }

  /** The independent description of `s.strip()`. */
  ghost predicate IsStripOf(r: string, s: string)
  {
    exists i, j :: StripsAt(s, i, j) && r == s[i..j]
  }

  /** Drops leading whitespace (`str.lstrip()`). */
  function StripStart(s: string): (r: string)
    ensures |r| <= |s| && r == s[|s| - |r|..]
    ensures AllSpace(s[..|s| - |r|])
    ensures r == [] || !IsSpace(r[0])
  {
    if s == [] || !IsSpace(s[0]) then s else StripStart(s[1..])
  }

  /** Drops trailing whitespace (`str.rstrip()`). */
  function StripEnd(s: string): (r: string)
    ensures |r| <= |s| && r == s[..|r|]
    ensures AllSpace(s[|r|..])
    ensures r == [] || !IsSpace(r[|r| - 1])
  {
    if s == [] || !IsSpace(s[|s| - 1]) then s else StripEnd(s[..|s| - 1])
  }

  /** Python's `s.strip()`. */
  function Strip(s: string): (r: string)
    ensures IsStripOf(r, s)
  {
    var t := StripStart(s);
    var r := StripEnd(t);
    var i := |s| - |t|;
    assert s[i..i + |r|] == r;
    assert s[i + |r|..] == t[|r|..];
    assert r != [] ==> r[0] == t[0];
    assert StripsAt(s, i, i + |r|);
    r
  }

  /** A non-empty strip starts at the first non-space character. */
  lemma StripStartsAtFirstNonSpace(s: string, i: int, j: int)
    requires StripsAt(s, i, j) && i < j
    ensures !IsSpace(s[i])
    ensures forall k :: 0 <= k < i ==> IsSpace(s[k])
  {
    assert forall k :: 0 <= k < i ==> s[..i][k] == s[k];
    assert s[i..j][0] == s[i];
  }

  /** A non-empty strip ends at the last non-space character. */
  lemma StripEndsAtLastNonSpace(s: string, i: int, j: int)
    requires StripsAt(s, i, j) && i < j
    ensures !IsSpace(s[j - 1])
    ensures forall k :: j <= k < |s| ==> IsSpace(s[k])
  {
    assert forall k :: j <= k < |s| ==> s[j..][k - j] == s[k];
    assert s[i..j][j - 1 - i] == s[j - 1];
  }

  /** An empty strip means the whole string is whitespace. */
  lemma EmptyStripMeansAllSpace(s: string, i: int)
    requires StripsAt(s, i, i)
    ensures AllSpace(s)
  {
    forall k | 0 <= k < |s| ensures IsSpace(s[k]) {
      if k < i { assert s[..i][k] == s[k]; } else { assert s[i..][k - i] == s[k]; }
    }
  }

  /** A string of whitespace only strips to nothing. */
  lemma AllSpaceStripsEmpty(s: string, i: int, j: int)
    requires AllSpace(s) && StripsAt(s, i, j)
    ensures i == j
  {
    if i < j {
      StripStartsAtFirstNonSpace(s, i, j);
    }
  }

  /** There is only one way to strip a string: the description fixes the result. */
  lemma StripUnique(s: string, r1: string, r2: string)
    requires IsStripOf(r1, s) && IsStripOf(r2, s)
    ensures r1 == r2
  {
    var i1, j1 :| StripsAt(s, i1, j1) && r1 == s[i1..j1];
    var i2, j2 :| StripsAt(s, i2, j2) && r2 == s[i2..j2];
    if i1 == j1 || i2 == j2 {
      if i1 == j1 { EmptyStripMeansAllSpace(s, i1); } else { EmptyStripMeansAllSpace(s, i2); }
      AllSpaceStripsEmpty(s, i1, j1);
      AllSpaceStripsEmpty(s, i2, j2);
    } else {
      StripStartsAtFirstNonSpace(s, i1, j1);
      StripStartsAtFirstNonSpace(s, i2, j2);
      StripEndsAtLastNonSpace(s, i1, j1);
      StripEndsAtLastNonSpace(s, i2, j2);
      assert i1 == i2 && j1 == j2;
    }
  }

  /** The stripped text has no surrounding whitespace and stripping it again
      changes nothing. */
  lemma StripIdempotent(s: string)
    ensures Trimmed(Strip(s))
    ensures Strip(Strip(s)) == Strip(s)
  {
    var r := Strip(s);
    var i, j :| StripsAt(s, i, j) && r == s[i..j];
    assert StripsAt(r, 0, |r|) && r[0..|r|] == r;
    StripUnique(r, Strip(r), r);
  }

  /** Stripping removes exactly the surrounding whitespace: wrapping a trimmed
      text in whitespace and stripping gives the text back. */
  lemma StripRemovesPadding(pre: string, t: string, post: string)
    requires AllSpace(pre) && AllSpace(post) && Trimmed(t)
    ensures Strip(pre + t + post) == t
  {
    var s := pre + t + post;
    assert s[..|pre|] == pre;
    assert s[|pre| + |t|..] == post;
    assert s[|pre|..|pre| + |t|] == t;
    assert StripsAt(s, |pre|, |pre| + |t|);
    StripUnique(s, Strip(s), t);
  }

  /** Python's `" ".join(xs)`. */
  function JoinSpace(xs: seq<string>): (r: string)
    ensures |xs| == 1 ==> r == xs[0]
  {
    if xs == [] then "" else if |xs| == 1 then xs[0] else xs[0] + " " + JoinSpace(xs[1..])
  }

  /** Joining two non-empty runs of parts puts exactly one separator between them. */
  lemma {:induction false} JoinSpaceAppend(a: seq<string>, b: seq<string>)
    requires a != [] && b != []
    ensures JoinSpace(a + b) == JoinSpace(a) + " " + JoinSpace(b)
  {
    if |a| == 1 {
      assert (a + b)[1..] == b;
    } else {
      assert (a + b)[1..] == a[1..] + b;
      JoinSpaceAppend(a[1..], b);
    }
  }

  /** The joined length is the parts' lengths plus one per separator. */
  lemma {:induction false} JoinSpaceLength(xs: seq<string>)
    requires xs != []
    ensures |JoinSpace(xs)| == TotalLength(xs) + |xs| - 1
  {
    if |xs| > 1 { JoinSpaceLength(xs[1..]); }
  }

  function TotalLength(xs: seq<string>): (n: nat)
  {
    if xs == [] then 0 else |xs[0]| + TotalLength(xs[1..])
  }

  /** When no part is empty, the join is empty exactly when there are no parts. */
  lemma JoinSpaceEmptyIff(xs: seq<string>)
    requires forall k :: 0 <= k < |xs| ==> xs[k] != ""
    ensures JoinSpace(xs) == "" <==> xs == []
  {
    if xs != [] {
      JoinSpaceLength(xs);
      assert |xs[0]| > 0;
      assert TotalLength(xs) >= |xs[0]|;
    }
  }
}
