/**
 * The parts of Go's `strings` and `unicode` packages that the program relies on,
 * over strings already decoded into runes.
 */
module Strings {

  /** unicode.IsSpace: the Latin-1 spaces and the rest of Unicode's White_Space property. */
  predicate IsSpace(c: char) {
    || c == '\t' || c == '\n' || c == '\U{0B}' || c == '\U{0C}' || c == '\r' || c == ' '
    || c == '\U{85}' || c == '\U{A0}' || c == '\U{1680}'
    || ('\U{2000}' <= c <= '\U{200A}')
    || c == '\U{2028}' || c == '\U{2029}' || c == '\U{202F}' || c == '\U{205F}' || c == '\U{3000}'
  }

  /** A string made of white space only (the empty string included). */
  predicate IsBlank(s: string) {
    forall i :: 0 <= i < |s| ==> IsSpace(s[i])
  }

  /**
   * strings.TrimSpace: s without its leading and its trailing white space, that
   * is, the longest slice of s that neither starts nor ends with white space.
   */
  function TrimSpace(s: string): (r: string)
    ensures r == [] <==> IsBlank(s)
    ensures r != [] ==> !IsSpace(r[0]) && !IsSpace(r[|r| - 1])
    ensures |r| <= |s|
  {
    if s == [] then s
    else if IsSpace(s[0]) then TrimSpace(s[1..])
    else if IsSpace(s[|s| - 1]) then TrimSpace(s[..|s| - 1])
    else s
  }

  lemma {:induction false} TrimSpaceIdempotent(s: string)
    ensures TrimSpace(TrimSpace(s)) == TrimSpace(s)
  {
    var t := TrimSpace(s);
    if t != [] {
      assert !IsSpace(t[0]) && !IsSpace(t[|t| - 1]);
    }
  }

  /** r is s[i..j], with nothing but white space before i and after j. */
  ghost predicate OuterCut(s: string, r: string, i: int, j: int) {
    0 <= i <= j <= |s| && r == s[i..j] && IsBlank(s[..i]) && IsBlank(s[j..])
  }

  lemma BlankConcat(a: string, b: string)
    requires IsBlank(a) && IsBlank(b)
    ensures IsBlank(a + b)
  {
    forall k | 0 <= k < |a + b|
      ensures IsSpace((a + b)[k])
    {
      if k < |a| { assert (a + b)[k] == a[k]; } else { assert (a + b)[k] == b[k - |a|]; }
    }
  }

  /** A cut of s[1..] is a cut of s when s starts with white space. */
  lemma OuterCutFront(s: string, r: string, i: int, j: int)
    requires s != [] && IsSpace(s[0]) && OuterCut(s[1..], r, i, j)
    ensures OuterCut(s, r, i + 1, j + 1)
  {
    var t := s[1..];
    assert t[i..j] == s[i + 1..j + 1];
    assert s[..i + 1] == [s[0]] + t[..i];
    assert s[j + 1..] == t[j..];
    BlankConcat([s[0]], t[..i]);
  }

  /** A cut of s without its last rune is a cut of s when that rune is white space. */
  lemma OuterCutBack(s: string, r: string, i: int, j: int)
    requires s != [] && IsSpace(s[|s| - 1]) && OuterCut(s[..|s| - 1], r, i, j)
    ensures OuterCut(s, r, i, j)
  {
    var t := s[..|s| - 1];
    assert t[i..j] == s[i..j] && t[..i] == s[..i];
    assert s[j..] == t[j..] + [s[|s| - 1]];
    BlankConcat(t[j..], [s[|s| - 1]]);
  }

  /**
   * TrimSpace cuts white space from the two ends only: the result is a slice
   * s[i..j] of s with nothing but white space before i and after j.
   */
  lemma {:induction false} TrimSpaceIsSlice(s: string)
    ensures exists i, j :: OuterCut(s, TrimSpace(s), i, j)
  {
    if s == [] {
      assert OuterCut(s, TrimSpace(s), 0, 0);
    } else if IsSpace(s[0]) {
      TrimSpaceIsSlice(s[1..]);
      var i, j :| OuterCut(s[1..], TrimSpace(s[1..]), i, j);
      OuterCutFront(s, TrimSpace(s[1..]), i, j);
      assert TrimSpace(s) == TrimSpace(s[1..]);
    } else if IsSpace(s[|s| - 1]) {
      TrimSpaceIsSlice(s[..|s| - 1]);
      var i, j :| OuterCut(s[..|s| - 1], TrimSpace(s[..|s| - 1]), i, j);
      OuterCutBack(s, TrimSpace(s[..|s| - 1]), i, j);
      assert TrimSpace(s) == TrimSpace(s[..|s| - 1]);
    } else {
      assert s[0..|s|] == s;
      assert OuterCut(s, TrimSpace(s), 0, |s|);
    }
  }

  /** A string with no white space at either end is its own trim. */
  lemma TrimSpaceKeeps(s: string)
    requires s != [] && !IsSpace(s[0]) && !IsSpace(s[|s| - 1])
    ensures TrimSpace(s) == s
  {
  }

  /** White space put in front of a string does not change its trim. */
  lemma {:induction false} TrimSpaceBlankPrefix(pre: string, s: string)
    requires IsBlank(pre)
    ensures TrimSpace(pre + s) == TrimSpace(s)
  {
    if pre != [] {
      assert IsSpace(pre[0]) && (pre + s)[0] == pre[0];
      assert (pre + s)[1..] == pre[1..] + s;
      assert IsBlank(pre[1..]) by {
        forall k | 0 <= k < |pre[1..]| ensures IsSpace(pre[1..][k]) { assert pre[1..][k] == pre[k + 1]; }
      }
      TrimSpaceBlankPrefix(pre[1..], s);
      assert TrimSpace(pre + s) == TrimSpace((pre + s)[1..]);
    } else {
      assert pre + s == s;
    }
  }

  /** White space put after a string does not change its trim. */
  lemma {:induction false} TrimSpaceBlankSuffix(s: string, post: string)
    requires IsBlank(post)
    ensures TrimSpace(s + post) == TrimSpace(s)
    decreases |s| + |post|
  {
    if post == [] {
      assert s + post == s;
    } else if s == [] {
      assert s + post == post;
    } else if IsSpace(s[0]) {
      assert (s + post)[0] == s[0];
      assert (s + post)[1..] == s[1..] + post;
      TrimSpaceBlankSuffix(s[1..], post);
    } else {
      var u := s + post;
      assert u[0] == s[0] && u[|u| - 1] == post[|post| - 1];
      assert u[..|u| - 1] == s + post[..|post| - 1];
      TrimSpaceBlankSuffix(s, post[..|post| - 1]);
    }
  }

  predicate IsAscii(t: string) {
    forall i :: 0 <= i < |t| ==> t[i] < '\U{80}'
  }

  function ToLowerAscii(c: char): (l: char)
    requires c < '\U{80}'
    ensures l < '\U{80}'
  {
    if 'A' <= c <= 'Z' then (c as int + 32) as char else c
  }

  function ToUpperAscii(c: char): (u: char)
    requires c < '\U{80}'
    ensures u < '\U{80}'
  {
    if 'a' <= c <= 'z' then (c as int - 32) as char else c
  }

  /**
   * Whether c is among the runes unicode.SimpleFold cycles through from the ASCII
   * rune t: t itself, its other ASCII case, and for k and s the Kelvin sign and
   * the long s, the only non-ASCII runes that fold onto an ASCII letter.
   */
  predicate FoldsTo(c: char, t: char)
    requires t < '\U{80}'
  {
    var lower := ToLowerAscii(t);
    || c == lower || c == ToUpperAscii(t)
    || (lower == 'k' && c == '\U{212A}')
    || (lower == 's' && c == '\U{017F}')
  }

  /** strings.EqualFold(s, t) for a pattern t that is pure ASCII, compared rune by rune. */
  predicate EqualFoldAscii(s: string, t: string)
    requires IsAscii(t)
  {
    |s| == |t| && forall i :: 0 <= i < |s| ==> FoldsTo(s[i], t[i])
  }

  /** s with every ASCII capital letter made small. */
  function LowerAscii(s: string): (l: string)
    requires IsAscii(s)
    ensures |l| == |s| && forall i :: 0 <= i < |s| ==> l[i] == ToLowerAscii(s[i])
  {
    if s == [] then [] else [ToLowerAscii(s[0])] + LowerAscii(s[1..])
  }

  /** Between two ASCII runes, folding is equality once both are made small. */
  lemma FoldsToAscii(c: char, t: char)
    requires c < '\U{80}' && t < '\U{80}'
    ensures FoldsTo(c, t) <==> ToLowerAscii(c) == ToLowerAscii(t)
  {
  }

  /** For an ASCII s, EqualFold against an ASCII pattern is equality after lowering both. */
  lemma EqualFoldAsciiLower(s: string, t: string)
    requires IsAscii(s) && IsAscii(t)
    ensures EqualFoldAscii(s, t) <==> LowerAscii(s) == LowerAscii(t)
  {
    forall i | 0 <= i < |s| && i < |t|
      ensures FoldsTo(s[i], t[i]) <==> LowerAscii(s)[i] == LowerAscii(t)[i]
    {
      FoldsToAscii(s[i], t[i]);
    }
    if LowerAscii(s) == LowerAscii(t) {
      assert forall i :: 0 <= i < |s| ==> LowerAscii(s)[i] == LowerAscii(t)[i];
    }
  }
}
