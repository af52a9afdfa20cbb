/** The two .NET string operations the scripts rely on: `string.Trim()` and
    `string.IsNullOrWhiteSpace`, both defined by `char.IsWhiteSpace`. */
module Text {
  import opened Common

  /** The inclusive code-point ranges `char.IsWhiteSpace` accepts: the control
      characters U+0009..U+000D, the space, U+0085, U+00A0, U+1680,
      U+2000..U+200A, the line and paragraph separators U+2028..U+2029, U+202F,
      U+205F and U+3000. */
  const WhiteSpaceRanges: seq<(char, char)> := [
    ('\U{0009}', '\U{000D}'), (' ', ' '), ('\U{0085}', '\U{0085}'), ('\U{00A0}', '\U{00A0}'),
    ('\U{1680}', '\U{1680}'), ('\U{2000}', '\U{200A}'), ('\U{2028}', '\U{2029}'),
    ('\U{202F}', '\U{202F}'), ('\U{205F}', '\U{205F}'), ('\U{3000}', '\U{3000}')
  ]

  /** `c` lies in one of the ranges. */
  predicate InRanges(c: char, ranges: seq<(char, char)>)
  {
    ranges != [] && ((ranges[0].0 <= c <= ranges[0].1) || InRanges(c, ranges[1..]))
  }

  /** `char.IsWhiteSpace`. */
  predicate IsWhiteSpace(c: char)
  {
    InRanges(c, WhiteSpaceRanges)
  }

  /** Every character of `s` is white space (true of the empty string). */
  predicate AllWhiteSpace(s: string)
  {
    forall i :: 0 <= i < |s| ==> IsWhiteSpace(s[i])
  }

  /** `string.IsNullOrWhiteSpace`. */
  predicate IsNullOrWhiteSpace(s: Option<string>)
  {
    s.None? || AllWhiteSpace(s.value)
  }

  /** `s.TrimStart()`: drops the leading white space and nothing else. */
  function TrimStart(s: string): (r: string)
    ensures |r| <= |s| && r == s[|s| - |r|..]
    ensures AllWhiteSpace(s[..|s| - |r|])
    ensures r == [] || !IsWhiteSpace(r[0])
  {
    if s != [] && IsWhiteSpace(s[0]) then TrimStart(s[1..]) else s
  }

  /** `s.TrimEnd()`: drops the trailing white space and nothing else. */
  function TrimEnd(s: string): (r: string)
    ensures |r| <= |s| && r == s[..|r|]
    ensures AllWhiteSpace(s[|r|..])
    ensures r == [] || !IsWhiteSpace(r[|r| - 1])
  {
    if s != [] && IsWhiteSpace(s[|s| - 1]) then TrimEnd(s[..|s| - 1]) else s
  }

  /** `r` is an infix of `s` with only white space before and after it. */
  predicate InfixBetweenWhiteSpace(s: string, r: string)
  {
    exists k :: 0 <= k <= |s| - |r| && r == s[k..k + |r|]
                && AllWhiteSpace(s[..k]) && AllWhiteSpace(s[k + |r|..])
  }

  /** `s.Trim()`: the longest infix of `s` that neither starts nor ends with white space. */
  function Trim(s: string): (r: string)
    ensures InfixBetweenWhiteSpace(s, r)
    ensures r == [] || (!IsWhiteSpace(r[0]) && !IsWhiteSpace(r[|r| - 1]))
  {
    var t := TrimStart(s);
    var r := TrimEnd(t);
    TrimmedInfix(s, t, r);
    assert r != [] ==> r[0] == t[0];
    r
  }

  /** A suffix of `s` after white space, cut before white space, is an infix of
      `s` between two runs of white space. */
  lemma TrimmedInfix(s: string, t: string, r: string)
    requires |t| <= |s| && t == s[|s| - |t|..] && AllWhiteSpace(s[..|s| - |t|])
    requires |r| <= |t| && r == t[..|r|] && AllWhiteSpace(t[|r|..])
    ensures InfixBetweenWhiteSpace(s, r)
  {
    var k := |s| - |t|;
    assert r == s[k..k + |r|];
    assert s[k + |r|..] == t[|r|..];
  }

  /** Every part of a blank string is blank. */
  lemma BlankSlice(s: string, i: int, j: int)
    requires AllWhiteSpace(s) && 0 <= i <= j <= |s|
    ensures AllWhiteSpace(s[i..j])
  {
    forall n | 0 <= n < j - i
      ensures IsWhiteSpace(s[i..j][n])
    {
      assert s[i..j][n] == s[i + n];
    }
  }

  /** Two blank strings make a blank string. */
  lemma BlankConcat(a: string, b: string)
    requires AllWhiteSpace(a) && AllWhiteSpace(b)
    ensures AllWhiteSpace(a + b)
  {
    forall n | 0 <= n < |a + b|
      ensures IsWhiteSpace((a + b)[n])
    {
      if n < |a| {
        assert (a + b)[n] == a[n];
      } else {
        assert (a + b)[n] == b[n - |a|];
      }
    }
  }

  /** Trimming the end of a blank string leaves nothing. */
  lemma {:induction false} TrimEndBlank(s: string)
    requires AllWhiteSpace(s)
    ensures TrimEnd(s) == []
  {
    if s != [] {
      BlankSlice(s, 0, |s| - 1);
      TrimEndBlank(s[..|s| - 1]);
    }
  }

  /** Trimming a blank string leaves nothing. */
  lemma BlankTrimsToEmpty(s: string)
    requires AllWhiteSpace(s)
    ensures Trim(s) == []
  {
    var t := TrimStart(s);
    BlankSlice(s, |s| - |t|, |s|);
    assert s[|s| - |t|..|s|] == t;
    TrimEndBlank(t);
  }

  /** What trimming removes is white space, so a string it empties is blank. */
  lemma TrimmedEmptyIsBlank(s: string)
    requires Trim(s) == []
    ensures AllWhiteSpace(s)
  {
    var t := TrimStart(s);
    var k := |s| - |t|;
    assert t[|TrimEnd(t)|..] == t;
    BlankConcat(s[..k], t);
    assert s[..k] + t == s;
  }

  /** A string is blank exactly when trimming leaves nothing of it. */
  lemma BlankIffTrimmedEmpty(s: string)
    ensures AllWhiteSpace(s) <==> Trim(s) == []
  {
    if AllWhiteSpace(s) {
      BlankTrimsToEmpty(s);
    }
    if Trim(s) == [] {
      TrimmedEmptyIsBlank(s);
    }
  }
}
