/** The parts of Rust's string library the driver relies on: substring
    search (`str::contains`), `str::trim` and the one-line cut that
    `BufRead::read_line` makes. */
module Text {

  /** `s[i..i + |pat|]` is an occurrence of `pat`. */
  ghost predicate OccursAt(s: string, pat: string, i: int)
  {
    0 <= i && i + |pat| <= |s| && s[i..i + |pat|] == pat
  }

  /** `str::contains` with a string pattern: a left-to-right search. */
  function Contains(s: string, pat: string): bool
    decreases |s|
  {
    if |pat| > |s| then false
    else if s[..|pat|] == pat then true
    else Contains(s[1..], pat)
  }

  /** The search finds a pattern exactly when it occurs somewhere. */
  lemma {:induction false} ContainsIff(s: string, pat: string)
    ensures Contains(s, pat) <==> exists i :: OccursAt(s, pat, i)
    decreases |s|
  {
    if |pat| > |s| {
    } else if s[..|pat|] == pat {
      assert OccursAt(s, pat, 0);
    } else {
      ContainsIff(s[1..], pat);
      if exists i :: OccursAt(s[1..], pat, i) {
        var i :| OccursAt(s[1..], pat, i);
        assert s[i + 1..i + 1 + |pat|] == s[1..][i..i + |pat|];
        assert OccursAt(s, pat, i + 1);
      }
      if exists i :: OccursAt(s, pat, i) {
        var i :| OccursAt(s, pat, i);
        assert i != 0;
        assert s[1..][i - 1..i - 1 + |pat|] == s[i..i + |pat|];
        assert OccursAt(s[1..], pat, i - 1);
      }
    }
  }

  /** A character of the pattern that the text lacks rules out a match. */
  lemma {:induction false} MissingCharNotContained(s: string, pat: string, c: char)
    requires c in pat && c !in s
    ensures !Contains(s, pat)
  {
    var j :| 0 <= j < |pat| && pat[j] == c;
    forall i ensures !OccursAt(s, pat, i) {
      if 0 <= i && i + |pat| <= |s| {
        assert s[i + j] in s;
        assert s[i..i + |pat|][j] == s[i + j] != c;
      }
    }
    ContainsIff(s, pat);
  }

  /** A string contains whatever stands in its middle. */
  lemma ContainsMiddle(a: string, pat: string, b: string)
    ensures Contains(a + pat + b, pat)
  {
    ContainsIff(a + pat + b, pat);
    assert (a + pat + b)[|a|..|a| + |pat|] == pat;
    assert OccursAt(a + pat + b, pat, |a|);
  }

  /** `char::is_whitespace`: the Unicode White_Space property. */
  predicate IsWhitespace(c: char)
  {
    || ('\U{9}' <= c <= '\U{D}')
    || c == ' '
    || c == '\U{85}'
    || c == '\U{A0}'
    || c == '\U{1680}'
    || ('\U{2000}' <= c <= '\U{200A}')
    || c == '\U{2028}'
    || c == '\U{2029}'
    || c == '\U{202F}'
    || c == '\U{205F}'
    || c == '\U{3000}'
  }

  /** Every character of `s` is white space. */
  ghost predicate Blank(s: string)
  {
    forall k :: 0 <= k < |s| ==> IsWhitespace(s[k])
  }

  /** `str::trim_start`: drops the leading white space. */
  function TrimStart(s: string): string
  {
    if s != [] && IsWhitespace(s[0]) then
      TrimStart(s[1..])
    else s
  }

  /** What `trim_start` keeps is a suffix, what it drops is white space,
      and what it keeps does not start with white space. */
  lemma {:induction false} TrimStartSpec(s: string)
    ensures var r := TrimStart(s);
            && |r| <= |s| && r == s[|s| - |r|..]
            && (forall k :: 0 <= k < |s| - |r| ==> IsWhitespace(s[k]))
            && (r != [] ==> !IsWhitespace(r[0]))
  {
    if s != [] && IsWhitespace(s[0]) {
      TrimStartSpec(s[1..]);
      var r := TrimStart(s);
      forall k | 0 <= k < |s| - |r| ensures IsWhitespace(s[k]) {
        if k > 0 {
          assert s[k] == s[1..][k - 1];
        }
      }
    }
  }

  /** `str::trim_end`: drops the trailing white space. */
  function TrimEnd(s: string): string
  {
    if s != [] && IsWhitespace(s[|s| - 1]) then
      TrimEnd(s[..|s| - 1])
    else s
  }

  /** What `trim_end` keeps is a prefix, what it drops is white space, and
      what it keeps does not end with white space. */
  lemma {:induction false} TrimEndSpec(s: string)
    ensures var r := TrimEnd(s);
            && |r| <= |s| && r == s[..|r|]
            && (forall k :: |r| <= k < |s| ==> IsWhitespace(s[k]))
            && (r != [] ==> !IsWhitespace(r[|r| - 1]))
  {
    if s != [] && IsWhitespace(s[|s| - 1]) {
      TrimEndSpec(s[..|s| - 1]);
      var r := TrimEnd(s);
      forall k | |r| <= k < |s| ensures IsWhitespace(s[k]) {
        if k < |s| - 1 {
          assert s[k] == s[..|s| - 1][k];
        }
      }
    }
  }

  /** `str::trim`: the text between the leading and the trailing white
      space. */
  function Trim(s: string): string
  {
    TrimEnd(TrimStart(s))
  }

  /** `trim` keeps the text that follows the leading white space, up to
      the trailing white space; the result is empty exactly when the input
      is all white space, and otherwise starts and ends with a
      non-white-space character. */
  lemma TrimSpec(s: string)
    ensures var r := Trim(s);
            && OccursAt(s, r, |s| - |TrimStart(s)|)
            && (r == [] <==> Blank(s))
            && (r != [] ==> !IsWhitespace(r[0]) && !IsWhitespace(r[|r| - 1]))
  {
    var t := TrimStart(s);
    var r := TrimEnd(t);
    TrimStartSpec(s);
    TrimEndSpec(t);
    TrimInfix(s, t, r);
    if r == [] {
      BlankWhenTrimmedEmpty(s, t, |s| - |t|);
    }
    if r != [] {
      assert r[0] == t[0];
    }
    if t != [] {
      assert s[|s| - |t|] == t[0];
    }
  }

  lemma TrimInfix(s: string, t: string, r: string)
    requires |t| <= |s| && t == s[|s| - |t|..]
    requires |r| <= |t| && r == t[..|r|]
    ensures OccursAt(s, r, |s| - |t|)
  {
    var o := |s| - |t|;
    assert s[o..o + |r|] == r;
  }

  lemma BlankWhenTrimmedEmpty(s: string, t: string, o: nat)
    requires o <= |s| && t == s[o..]
    requires forall k :: 0 <= k < o ==> IsWhitespace(s[k])
    requires forall k :: 0 <= k < |t| ==> IsWhitespace(t[k])
    ensures Blank(s)
  {
    forall k | 0 <= k < |s| ensures IsWhitespace(s[k]) {
      if k >= o {
        assert s[k] == t[k - o];
      }
    }
  }

  /** What `BufRead::read_line` leaves in its buffer: the text up to and
      including the first line feed, or all of it when there is none. */
  function ReadLine(data: string): string
  {
    if data == [] then []
    else if data[0] == '\n' then ['\n']
    else [data[0]] + ReadLine(data[1..])
  }

  /** The line read is a prefix of the data with a line feed at most at
      its end; it ends with one whenever the data holds one, and it is
      shorter than the data only then. */
  lemma {:induction false} ReadLineSpec(data: string)
    ensures var line := ReadLine(data);
            && |line| <= |data| && line == data[..|line|]
            && (forall k :: 0 <= k < |line| - 1 ==> line[k] != '\n')
            && (|line| < |data| ==> line != [] && line[|line| - 1] == '\n')
            && ('\n' in data <==> line != [] && line[|line| - 1] == '\n')
  {
    if data != [] && data[0] != '\n' {
      ReadLineSpec(data[1..]);
      var rest := ReadLine(data[1..]);
      var line := ReadLine(data);
      assert line == [data[0]] + rest;
      if '\n' in data {
        assert '\n' in data[1..];
      }
      if '\n' in data[1..] {
        var j :| 0 <= j < |data[1..]| && data[1..][j] == '\n';
        assert data[j + 1] == '\n';
      }
    }
  }
}
