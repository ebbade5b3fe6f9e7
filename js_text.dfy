/**
 * The two JavaScript string operations the handler relies on:
 * `String.prototype.trim` and `String.prototype.replaceAll` with a
 * one-character pattern.
 */
module JsText {

  /** The characters `trim` strips: the WhiteSpace and LineTerminator code points of ECMAScript. */
  predicate IsWhitespace(c: char) {
    || c == '\t' || c == '\n' || c == '\U{000B}' || c == '\U{000C}' || c == '\r' || c == ' '
    || c == '\U{00A0}' || c == '\U{1680}' || ('\U{2000}' <= c <= '\U{200A}')
    || c == '\U{2028}' || c == '\U{2029}' || c == '\U{202F}' || c == '\U{205F}'
    || c == '\U{3000}' || c == '\U{FEFF}'
  }

  predicate AllWhitespace(s: string) {
    forall i :: 0 <= i < |s| ==> IsWhitespace(s[i])
  }

  /** A string neither starting nor ending with whitespace. */
  predicate IsTrimmed(s: string) {
    s == [] || (!IsWhitespace(s[0]) && !IsWhitespace(s[|s| - 1]))
  }

  /** Drops the leading whitespace: the result is the suffix of `s` after a whitespace run. */
  function TrimStart(s: string): (r: string)
    ensures |r| <= |s| && r == s[|s| - |r|..]
    ensures AllWhitespace(s[..|s| - |r|])
    ensures r == [] || !IsWhitespace(r[0])
  {
    if s != [] && IsWhitespace(s[0]) then TrimStart(s[1..]) else s
  }

  /** Drops the trailing whitespace: the result is the prefix of `s` before a whitespace run. */
  function TrimEnd(s: string): (r: string)
    ensures |r| <= |s| && r == s[..|r|]
    ensures AllWhitespace(s[|r|..])
    ensures r == [] || !IsWhitespace(r[|r| - 1])
  {
    if s != [] && IsWhitespace(s[|s| - 1]) then TrimEnd(s[..|s| - 1]) else s
  }

  /** JavaScript's `s.trim()`. */
  function Trim(s: string): (r: string)
    ensures |r| <= |s|
    ensures IsTrimmed(r)
  {
    TrimEnd(TrimStart(s))
  }

  /** JavaScript's `s.replaceAll(pattern, replacement)` for one-character strings. */
  function ReplaceAll(s: string, pattern: char, replacement: char): (r: string)
    ensures |r| == |s|
    ensures forall i :: 0 <= i < |s| ==> r[i] == if s[i] == pattern then replacement else s[i]
    ensures pattern != replacement ==> pattern !in r
  {
    if s == [] then [] else [if s[0] == pattern then replacement else s[0]] + ReplaceAll(s[1..], pattern, replacement)
  }

  lemma {:induction false} TrimStartSkips(a: string, t: string)
    requires AllWhitespace(a)
    ensures TrimStart(a + t) == TrimStart(t)
  {
    if a != [] {
      assert (a + t)[0] == a[0];
      assert (a + t)[1..] == a[1..] + t;
      TrimStartSkips(a[1..], t);
    } else {
      assert a + t == t;
    }
  }

  lemma {:induction false} TrimEndSkips(t: string, b: string)
    requires AllWhitespace(b)
    ensures TrimEnd(t + b) == TrimEnd(t)
  {
    if b != [] {
      var tb := t + b;
      assert tb[|tb| - 1] == b[|b| - 1];
      assert tb[..|tb| - 1] == t + b[..|b| - 1];
      TrimEndSkips(t, b[..|b| - 1]);
    } else {
      assert t + b == t;
    }
  }

  /** Trim is characterised by its decomposition: whitespace, a trimmed middle, whitespace. */
  lemma TrimUnique(s: string, a: string, m: string, b: string)
    requires s == a + m + b
    requires AllWhitespace(a) && AllWhitespace(b) && IsTrimmed(m)
    ensures Trim(s) == m
  {
    assert s == a + (m + b);
    TrimStartSkips(a, m + b);
    if m == [] {
      assert m + b == b;
      TrimStartSkips(b, []);
      assert b + [] == b;
    } else {
      assert (m + b)[0] == m[0];
      assert TrimStart(m + b) == m + b;
      TrimEndSkips(m, b);
      assert TrimEnd(m) == m;
    }
  }

  /** Every string is its trim padded with whitespace on both sides. */
  lemma TrimSplits(s: string) returns (a: string, b: string)
    ensures s == a + Trim(s) + b
    ensures AllWhitespace(a) && AllWhitespace(b)
  {
    var t := TrimStart(s);
    a := s[..|s| - |t|];
    b := t[|TrimEnd(t)|..];
    Rejoin(s, t, TrimEnd(t));
  }

  lemma Rejoin(s: string, t: string, r: string)
    requires |t| <= |s| && t == s[|s| - |t|..]
    requires |r| <= |t| && r == t[..|r|]
    ensures s == s[..|s| - |t|] + r + t[|r|..]
  {
    assert s == s[..|s| - |t|] + t;
    assert t == r + t[|r|..];
  }

  lemma TrimIdempotent(s: string)
    ensures Trim(Trim(s)) == Trim(s)
  {
  }

  /** A string trims to the empty string exactly when it is all whitespace. */
  lemma TrimEmptyIff(s: string)
    ensures Trim(s) == [] <==> AllWhitespace(s)
  {
  }
}
