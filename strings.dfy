/** JavaScript string operations the screens rely on: `String.prototype.trim`,
    the truthiness of a string, and `charAt(0).toUpperCase()`. */
module Strings {

  /** The code points `String.prototype.trim` strips: ECMAScript WhiteSpace
      (TAB, VT, FF, ZWNBSP and the Unicode space separators) and LineTerminator
      (LF, CR, LS, PS). */
  const Whitespace: set<char> := {
    '\t', '\n', '\U{000B}', '\U{000C}', '\r', ' ', '\U{00A0}', '\U{1680}',
    '\U{2000}', '\U{2001}', '\U{2002}', '\U{2003}', '\U{2004}', '\U{2005}',
    '\U{2006}', '\U{2007}', '\U{2008}', '\U{2009}', '\U{200A}',
    '\U{2028}', '\U{2029}', '\U{202F}', '\U{205F}', '\U{3000}', '\U{FEFF}'
  }

  predicate IsWhitespace(c: char) {
    c in Whitespace
  }

  /** Every character of `s` is whitespace. */
  ghost predicate AllWhitespace(s: string) {
    forall i :: 0 <= i < |s| ==> IsWhitespace(s[i])
  }

  /** Drops leading whitespace. */
  function TrimStart(s: string): (r: string)
    ensures |r| <= |s| && r == s[|s| - |r|..]
    ensures r != [] ==> !IsWhitespace(r[0])
  {
    if s != [] && IsWhitespace(s[0]) then TrimStart(s[1..]) else s
  }

  /** Drops trailing whitespace. */
  function TrimEnd(s: string): (r: string)
    ensures |r| <= |s| && r == s[..|r|]
    ensures r != [] ==> !IsWhitespace(r[|r| - 1])
  {
    if s != [] && IsWhitespace(s[|s| - 1]) then TrimEnd(s[..|s| - 1]) else s
  }

  /** `s.trim()`. */
  function Trim(s: string): string {
    TrimEnd(TrimStart(s))
  }

  /** A JavaScript string is truthy exactly when it is not empty, so `s.trim()`
      used as a condition holds exactly when `s` is not blank. */
  predicate IsBlank(s: string) {
    Trim(s) == []
  }

  /** Every character `TrimStart` drops is whitespace. */
  lemma {:induction false} TrimStartDropsOnlyWhitespace(s: string)
    ensures forall k :: 0 <= k < |s| - |TrimStart(s)| ==> IsWhitespace(s[k])
  {
    if s != [] && IsWhitespace(s[0]) {
      TrimStartDropsOnlyWhitespace(s[1..]);
      forall k | 1 <= k < |s| - |TrimStart(s)| ensures IsWhitespace(s[k]) {
        assert s[k] == s[1..][k - 1];
      }
    }
  }

  /** Every character `TrimEnd` drops is whitespace. */
  lemma {:induction false} TrimEndDropsOnlyWhitespace(s: string)
    ensures forall k :: |TrimEnd(s)| <= k < |s| ==> IsWhitespace(s[k])
  {
    if s != [] && IsWhitespace(s[|s| - 1]) {
      var p := s[..|s| - 1];
      TrimEndDropsOnlyWhitespace(p);
      forall k | |TrimEnd(s)| <= k < |s| - 1 ensures IsWhitespace(s[k]) {
        assert s[k] == p[k];
      }
    }
  }

  /** Where `Trim` cuts: the kept slice `s[i..j]`, with only whitespace before `i`
      and from `j` on. */
  lemma TrimBounds(s: string) returns (i: nat, j: nat)
    ensures i <= j <= |s| && Trim(s) == s[i..j]
    ensures forall k :: 0 <= k < i ==> IsWhitespace(s[k])
    ensures forall k :: j <= k < |s| ==> IsWhitespace(s[k])
  {
    var t := TrimStart(s);
    i := |s| - |t|;
    j := i + |TrimEnd(t)|;
    TrimStartDropsOnlyWhitespace(s);
    TrimEndDropsOnlyWhitespace(t);
    forall k | j <= k < |s| ensures IsWhitespace(s[k]) {
      assert s[k] == t[k - i];
    }
  }

  /** The trimmed string is a contiguous slice of the input that neither starts
      nor ends with whitespace, and everything around it is whitespace. */
  lemma TrimIsInnerSlice(s: string)
    ensures exists i, j ::
              && 0 <= i <= j <= |s| && Trim(s) == s[i..j]
              && (forall k :: 0 <= k < i ==> IsWhitespace(s[k]))
              && (forall k :: j <= k < |s| ==> IsWhitespace(s[k]))
    ensures Trim(s) != [] ==> !IsWhitespace(Trim(s)[0]) && !IsWhitespace(Trim(s)[|Trim(s)| - 1])
  {
    var i, j := TrimBounds(s);
    if Trim(s) != [] {
      assert Trim(s)[0] == TrimStart(s)[0];
    }
  }

  lemma {:induction false} TrimStartEmptyIff(s: string)
    ensures TrimStart(s) == [] <==> AllWhitespace(s)
  {
    if s != [] {
      TrimStartEmptyIff(s[1..]);
      if AllWhitespace(s[1..]) && IsWhitespace(s[0]) {
        forall i | 0 <= i < |s| ensures IsWhitespace(s[i]) {
          if i > 0 { assert s[i] == s[1..][i - 1]; }
        }
      }
      if AllWhitespace(s) {
        assert IsWhitespace(s[0]);
        forall i | 0 <= i < |s[1..]| ensures IsWhitespace(s[1..][i]) {
          assert s[1..][i] == s[i + 1];
        }
      }
    }
  }

  lemma {:induction false} TrimEndEmptyIff(s: string)
    ensures TrimEnd(s) == [] <==> AllWhitespace(s)
  {
    if s != [] {
      var p := s[..|s| - 1];
      TrimEndEmptyIff(p);
      if AllWhitespace(p) && IsWhitespace(s[|s| - 1]) {
        forall i | 0 <= i < |s| ensures IsWhitespace(s[i]) {
          if i < |s| - 1 { assert s[i] == p[i]; }
        }
      }
      if AllWhitespace(s) {
        assert IsWhitespace(s[|s| - 1]);
        forall i | 0 <= i < |p| ensures IsWhitespace(p[i]) {
          assert p[i] == s[i];
        }
      }
    }
  }

  /** A string is blank exactly when all of its characters are whitespace:
      `s.trim()` is falsy for "", "   " and "\t\n" and truthy for anything else. */
  lemma BlankIffAllWhitespace(s: string)
    ensures IsBlank(s) <==> AllWhitespace(s)
  {
    TrimStartEmptyIff(s);
    TrimEndEmptyIff(TrimStart(s));
    var t := TrimStart(s);
    if t != [] {
      assert !AllWhitespace(t) by { assert !IsWhitespace(t[0]); }
    }
  }

  lemma {:induction false} TrimStartDropsPrefix(w: string, s: string)
    requires AllWhitespace(w)
    ensures TrimStart(w + s) == TrimStart(s)
  {
    if w == [] {
      assert w + s == s;
    } else {
      assert (w + s)[0] == w[0] && IsWhitespace(w[0]);
      assert (w + s)[1..] == w[1..] + s;
      assert TrimStart(w + s) == TrimStart(w[1..] + s);
      assert AllWhitespace(w[1..]) by {
        forall i | 0 <= i < |w[1..]| ensures IsWhitespace(w[1..][i]) {
          assert w[1..][i] == w[i + 1];
        }
      }
      TrimStartDropsPrefix(w[1..], s);
    }
  }

  lemma {:induction false} TrimEndDropsSuffix(s: string, w: string)
    requires AllWhitespace(w)
    ensures TrimEnd(s + w) == TrimEnd(s)
  {
    if w == [] {
      assert s + w == s;
    } else {
      var p := w[..|w| - 1];
      assert (s + w)[|s + w| - 1] == w[|w| - 1] && IsWhitespace(w[|w| - 1]);
      assert (s + w)[..|s + w| - 1] == s + p;
      assert TrimEnd(s + w) == TrimEnd(s + p);
      assert AllWhitespace(p) by {
        forall i | 0 <= i < |p| ensures IsWhitespace(p[i]) {
          assert p[i] == w[i];
        }
      }
      TrimEndDropsSuffix(s, p);
    }
  }

  lemma {:induction false} TrimStartKeepsTail(s: string, u: string)
    requires TrimStart(s) != []
    ensures TrimStart(s + u) == TrimStart(s) + u
  {
    assert s != [];
    assert (s + u)[0] == s[0];
    if IsWhitespace(s[0]) {
      assert (s + u)[1..] == s[1..] + u;
      TrimStartKeepsTail(s[1..], u);
    }
  }

  /** Whitespace appended after `s` does not change the trimmed string. */
  lemma TrimIgnoresTrailingPadding(s: string, post: string)
    requires AllWhitespace(post)
    ensures TrimEnd(TrimStart(s + post)) == TrimEnd(TrimStart(s))
  {
    if TrimStart(s) == [] {
      TrimStartEmptyIff(s);
      TrimStartDropsPrefix(s, post);
      TrimStartEmptyIff(post);
    } else {
      TrimStartKeepsTail(s, post);
      TrimEndDropsSuffix(TrimStart(s), post);
    }
  }

  /** Whitespace added on either side does not change the trimmed string. */
  lemma TrimIgnoresPadding(pre: string, s: string, post: string)
    requires AllWhitespace(pre) && AllWhitespace(post)
    ensures Trim(pre + s + post) == Trim(s)
  {
    var tail := s + post;
    assert pre + s + post == pre + tail;
    TrimStartDropsPrefix(pre, tail);
    TrimIgnoresTrailingPadding(s, post);
    calc {
      Trim(pre + s + post);
      TrimEnd(TrimStart(pre + tail));
      TrimEnd(TrimStart(tail));
      TrimEnd(TrimStart(s));
    }
  }

  /** `c.toUpperCase()` for a single character, on the ASCII letters. */
  function ToUpper(c: char): (r: char)
    ensures 'a' <= c <= 'z' ==> 'A' <= r <= 'Z' && r as int == c as int - 32
    ensures !('a' <= c <= 'z') ==> r == c
  {
    if 'a' <= c <= 'z' then (c as int - 32) as char else c
  }

  /** `s.charAt(0).toUpperCase()`: the upper-cased first character, or "" for "". */
  function InitialLetter(s: string): (r: string)
    ensures |r| <= 1
    ensures r == [] <==> s == []
    ensures s != [] ==> r[0] == ToUpper(s[0])
  {
    if s == [] then [] else [ToUpper(s[0])]
  }
}
