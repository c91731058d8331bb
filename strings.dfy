/**
 * The handful of Python `str` operations the scripts rely on, over
 * `seq<char>`: `startswith`, `strip(chars)`, `split`/`join` and `replace`.
 */
module Strings {

  predicate StartsWith(s: string, prefix: string) {
    |prefix| <= |s| && s[..|prefix|] == prefix
  }

  /**
   * The characters `str.strip()` removes when called without an argument,
   * restricted to ASCII: space, \t, \n, \v, \f, \r and the four
   * separator controls \x1c-\x1f that Python also counts as whitespace.
   */
  const Whitespace: set<char> :=
    {' ', '\t', '\n', '\r', '\U{0B}', '\U{0C}', '\U{1C}', '\U{1D}', '\U{1E}', '\U{1F}'}

  /** `s.lstrip(cs)`: the longest suffix of `s` that does not start with a character of `cs`. */
  function TrimLeft(s: string, cs: set<char>): (r: string)
    ensures |r| <= |s| && r == s[|s| - |r|..]
    ensures forall i :: 0 <= i < |s| - |r| ==> s[i] in cs
    ensures r != [] ==> r[0] !in cs
    decreases |s|
  {
    if s != [] && s[0] in cs then TrimLeft(s[1..], cs) else s
  }

  /** `s.rstrip(cs)`: the longest prefix of `s` that does not end with a character of `cs`. */
  function TrimRight(s: string, cs: set<char>): (r: string)
    ensures |r| <= |s| && r == s[..|r|]
    ensures forall i :: |r| <= i < |s| ==> s[i] in cs
    ensures r != [] ==> r[|r| - 1] !in cs
    decreases |s|
  {
    if s != [] && s[|s| - 1] in cs then TrimRight(s[..|s| - 1], cs) else s
  }

  /** `s.strip(cs)`. */
  function Strip(s: string, cs: set<char>): string {
    TrimRight(TrimLeft(s, cs), cs)
  }

  /** Stripping leaves a piece of `s` bounded by non-stripped characters. */
  lemma StripIsInnerSlice(s: string, cs: set<char>)
    ensures var r := Strip(s, cs); var k := |s| - |TrimLeft(s, cs)|;
      k + |r| <= |s| && r == s[k..k + |r|]
    ensures var r := Strip(s, cs); r != [] ==> r[0] !in cs && r[|r| - 1] !in cs
    ensures Strip(s, cs) == [] <==> forall i :: 0 <= i < |s| ==> s[i] in cs
  {
    StripSlice(s, cs);
    StripEnds(s, cs);
    StripEmpty(s, cs);
  }

  lemma StripSlice(s: string, cs: set<char>)
    ensures var r := Strip(s, cs); var k := |s| - |TrimLeft(s, cs)|;
      k + |r| <= |s| && r == s[k..k + |r|]
  {
    var l := TrimLeft(s, cs);
    var r := TrimRight(l, cs);
    var k := |s| - |l|;
    SliceOfSlice(s, k, |r|);
  }

  lemma SliceOfSlice<T>(s: seq<T>, k: nat, n: nat)
    requires k + n <= |s|
    ensures s[k..][..n] == s[k..k + n]
  {
  }

  lemma StripEnds(s: string, cs: set<char>)
    ensures var r := Strip(s, cs); r != [] ==> r[0] !in cs && r[|r| - 1] !in cs
  {
    var l := TrimLeft(s, cs);
    var r := TrimRight(l, cs);
    if r != [] {
      assert r == l[..|r|];
      assert r[0] == l[0];
    }
  }

  lemma StripEmpty(s: string, cs: set<char>)
    ensures Strip(s, cs) == [] <==> forall i :: 0 <= i < |s| ==> s[i] in cs
  {
    var l := TrimLeft(s, cs);
    var r := TrimRight(l, cs);
    var k := |s| - |l|;
    if r == [] {
      if l != [] {
        assert false;
      }
    } else {
      assert l == s[k..] && r == l[..|r|];
      assert s[k] == l[0] == r[0];
    }
  }

  /** A string that neither starts nor ends with a stripped character is left as it is. */
  lemma StripUnchanged(s: string, cs: set<char>)
    requires s != [] && s[0] !in cs && s[|s| - 1] !in cs
    ensures Strip(s, cs) == s
  {
    assert TrimLeft(s, cs) == s;
  }

  /** `sep.join(parts)`. */
  function Join(parts: seq<string>, sep: string): string
    decreases |parts|
  {
    if |parts| == 0 then ""
    else if |parts| == 1 then parts[0]
    else parts[0] + sep + Join(parts[1..], sep)
  }

  /** `s.split(sep)` for a non-empty separator: always at least one piece. */
  function Split(s: string, sep: string): (r: seq<string>)
    requires sep != ""
    ensures |r| >= 1
    decreases |s|
  {
    if |s| < |sep| then [s]
    else if s[..|sep|] == sep then [""] + Split(s[|sep|..], sep)
    else
      var t := Split(s[1..], sep);
      [[s[0]] + t[0]] + t[1..]
  }

  /** `s.replace(pat, rep)` for a non-empty pattern: every non-overlapping occurrence, left to right. */
  function ReplaceAll(s: string, pat: string, rep: string): string
    requires pat != ""
    decreases |s|
  {
    if |s| < |pat| then s
    else if s[..|pat|] == pat then rep + ReplaceAll(s[|pat|..], pat, rep)
    else [s[0]] + ReplaceAll(s[1..], pat, rep)
  }

  /** Gluing a piece onto the first element before joining. */
  lemma JoinConsHead(c: string, parts: seq<string>, sep: string)
    requires |parts| >= 1
    ensures Join([c + parts[0]] + parts[1..], sep) == c + Join(parts, sep)
  {
    var q := [c + parts[0]] + parts[1..];
    if |parts| > 1 {
      assert q[1..] == parts[1..];
    }
  }

  /** An empty first element contributes only the separator. */
  lemma JoinConsEmpty(parts: seq<string>, sep: string)
    requires |parts| >= 1
    ensures Join([""] + parts, sep) == sep + Join(parts, sep)
  {
    var q := [""] + parts;
    assert q[1..] == parts;
    assert q[0] + sep == sep;
  }

  /** Splitting and re-joining with the same separator gives back the string. */
  lemma {:induction false} JoinSplit(s: string, sep: string)
    requires sep != ""
    ensures Join(Split(s, sep), sep) == s
    decreases |s|
  {
    if |s| < |sep| {
    } else if s[..|sep|] == sep {
      var rest := s[|sep|..];
      JoinSplit(rest, sep);
      var t := Split(rest, sep);
      assert Join([""] + t, sep) == "" + sep + Join(t, sep) by {
        assert ([""] + t)[1..] == t;
      }
      assert "" + sep + rest == s by {
        assert "" + sep == sep;
        assert s == s[..|sep|] + rest;
      }
    } else {
      JoinSplit(s[1..], sep);
      var t := Split(s[1..], sep);
      JoinConsHead([s[0]], t, sep);
      assert s == [s[0]] + s[1..];
    }
  }

  /** A string without the separator character splits into itself alone. */
  lemma {:induction false} NoSeparatorOnePiece(s: string, c: char)
    requires c !in s
    ensures Split(s, [c]) == [s]
    decreases |s|
  {
    if |s| >= 1 {
      assert s[..1] != [c] by { assert s[..1][0] == s[0]; }
      assert c !in s[1..];
      NoSeparatorOnePiece(s[1..], c);
      assert [s[0]] + s[1..] == s;
    }
  }

  /** No piece of a split contains the separator's character when it is one character long. */
  lemma {:induction false} SplitPiecesFree(s: string, c: char)
    ensures forall i :: 0 <= i < |Split(s, [c])| ==> c !in Split(s, [c])[i]
    decreases |s|
  {
    if |s| >= 1 {
      SplitPiecesFree(s[1..], c);
      var t := Split(s[1..], [c]);
      if s[0] != c {
        assert s[..1] != [c];
        assert c !in [s[0]] + t[0];
      }
    }
  }

  /** Python's identity `s.replace(pat, rep) == rep.join(s.split(pat))`. */
  lemma {:induction false} ReplaceIsJoinOfSplit(s: string, pat: string, rep: string)
    requires pat != ""
    ensures ReplaceAll(s, pat, rep) == Join(Split(s, pat), rep)
    decreases |s|
  {
    if |s| < |pat| {
    } else if s[..|pat|] == pat {
      ReplaceIsJoinOfSplit(s[|pat|..], pat, rep);
      JoinConsEmpty(Split(s[|pat|..], pat), rep);
    } else {
      ReplaceIsJoinOfSplit(s[1..], pat, rep);
      JoinConsHead([s[0]], Split(s[1..], pat), rep);
    }
  }

  /** A string that starts with the pattern starts, after replacement, with the replacement. */
  lemma ReplaceAllLeading(s: string, pat: string, rep: string)
    requires pat != "" && StartsWith(s, pat)
    ensures StartsWith(ReplaceAll(s, pat, rep), rep)
  {
  }

  /** A string lacking one of the pattern's characters is left as it is by `replace`. */
  lemma {:induction false} ReplaceAllAbsent(s: string, pat: string, rep: string, k: nat)
    requires pat != "" && k < |pat| && pat[k] !in s
    ensures ReplaceAll(s, pat, rep) == s
    decreases |s|
  {
    if |s| >= |pat| {
      assert s[..|pat|][k] == s[k];
      ReplaceAllAbsent(s[1..], pat, rep, k);
      assert s == [s[0]] + s[1..];
    }
  }

  /** Splitting on a one-character separator is a homomorphism over that separator. */
  lemma {:induction false} SplitAppend(a: string, c: char, b: string)
    ensures Split(a + [c] + b, [c]) == Split(a, [c]) + Split(b, [c])
    decreases |a|
  {
    var s := a + [c] + b;
    if a == [] {
      assert s[..1] == [c];
      assert s[1..] == b;
    } else {
      assert s[1..] == a[1..] + [c] + b;
      SplitAppend(a[1..], c, b);
      if a[0] == c {
        assert s[..1] == [c] && a[..1] == [c];
      } else {
        assert s[..1] != [c] && a[..1] != [c];
        var ta := Split(a[1..], [c]);
        assert Split(a, [c]) == [[a[0]] + ta[0]] + ta[1..];
      }
    }
  }
}
