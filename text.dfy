/** The three JavaScript string operations the screen relies on:
    `String.prototype.trim`, `String.prototype.toLowerCase` and
    `String.prototype.includes`. */
module Text {

  /** The code points `trim` removes: ECMAScript's WhiteSpace and
      LineTerminator productions. */
  predicate IsWhitespace(c: char) {
    || c == ' ' || c == '\t' || c == '\n' || c == '\U{B}' || c == '\U{C}' || c == '\r'
    || c == '\U{A0}' || c == '\U{1680}' || ('\U{2000}' <= c <= '\U{200A}')
    || c == '\U{2028}' || c == '\U{2029}' || c == '\U{202F}' || c == '\U{205F}'
    || c == '\U{3000}' || c == '\U{FEFF}'
  }

  /** A string that `trim` reduces to the empty string. */
  predicate IsBlank(s: string) {
    forall i :: 0 <= i < |s| ==> IsWhitespace(s[i])
  }

  /** What `trim` leaves of a non-blank string: non-empty, with no
      whitespace at either end. */
  predicate IsTrimmedNonBlank(s: string) {
    s != [] && !IsWhitespace(s[0]) && !IsWhitespace(s[|s| - 1])
  }

  /** How many whitespace code points `s` starts with. */
  function LeadingBlanks(s: string): (n: nat)
    ensures n <= |s| && IsBlank(s[..n])
    ensures n < |s| ==> !IsWhitespace(s[n])
  {
    if |s| > 0 && IsWhitespace(s[0]) then
      var m := LeadingBlanks(s[1..]);
      BlankCons(s, m);
      m + 1
    else
      0
  }

  /** How many whitespace code points `s` ends with. */
  function TrailingBlanks(s: string): (n: nat)
    ensures n <= |s| && IsBlank(s[|s| - n..])
    ensures n < |s| ==> !IsWhitespace(s[|s| - n - 1])
  {
    if |s| > 0 && IsWhitespace(s[|s| - 1]) then
      var m := TrailingBlanks(s[..|s| - 1]);
      BlankSnoc(s, m);
      m + 1
    else
      0
  }

  lemma BlankCons(s: string, m: nat)
    requires 0 < |s| && IsWhitespace(s[0])
    requires m < |s| && IsBlank(s[1..][..m])
    ensures IsBlank(s[..m + 1])
  {
    forall i | 0 < i <= m ensures IsWhitespace(s[i]) {
      assert s[i] == s[1..][..m][i - 1];
    }
  }

  lemma BlankSnoc(s: string, m: nat)
    requires 0 < |s| && IsWhitespace(s[|s| - 1])
    requires m < |s| && IsBlank(s[..|s| - 1][|s| - 1 - m..])
    ensures IsBlank(s[|s| - 1 - m..])
  {
    var k := |s| - 1 - m;
    forall i | k <= i < |s| - 1 ensures IsWhitespace(s[i]) {
      assert s[i] == s[..|s| - 1][k..][i - k];
    }
  }

  lemma BlankAppend(a: string, b: string)
    requires IsBlank(a) && IsBlank(b)
    ensures IsBlank(a + b)
  {
  }

  /** JavaScript's `s.trim()`: `s` without its leading and its trailing
      whitespace. */
  function Trim(s: string): (r: string)
    ensures r == [] <==> IsBlank(s)
    ensures r == [] || IsTrimmedNonBlank(r)
  {
    var k := LeadingBlanks(s);
    var t := s[k..];
    var m := TrailingBlanks(t);
    TrimEnds(s, k, t, m);
    t[..|t| - m]
  }

  /** Why `Trim` has the ends it promises. */
  lemma TrimEnds(s: string, k: nat, t: string, m: nat)
    requires k <= |s| && IsBlank(s[..k]) && (k < |s| ==> !IsWhitespace(s[k]))
    requires t == s[k..] && m <= |t| && IsBlank(t[|t| - m..])
    requires m < |t| ==> !IsWhitespace(t[|t| - m - 1])
    ensures var r := t[..|t| - m];
      && (r == [] <==> IsBlank(s))
      && (r == [] || (!IsWhitespace(r[0]) && !IsWhitespace(r[|r| - 1])))
  {
    if m == |t| {
      assert t[|t| - m..] == t;
      assert s == s[..k] + t;
      BlankAppend(s[..k], t);
    } else {
      assert t[0] == s[k];
    }
  }

  /** What `Trim` cuts away is whitespace, at the start and at the end, and
      what it keeps is the window of `s` after its leading whitespace. */
  lemma TrimIsInfix(s: string)
    ensures var k, r := LeadingBlanks(s), Trim(s);
      && k + |r| <= |s| && r == s[k..k + |r|]
      && IsBlank(s[..k]) && IsBlank(s[k + |r|..])
  {
    var k := LeadingBlanks(s);
    var t := s[k..];
    var m := TrailingBlanks(t);
    assert Trim(s) == t[..|t| - m];
    TrimWindow(s, k, t, m);
  }

  lemma TrimWindow(s: string, k: nat, t: string, m: nat)
    requires k <= |s| && t == s[k..] && m <= |t| && IsBlank(t[|t| - m..])
    ensures var r := t[..|t| - m]; r == s[k..k + |r|] && IsBlank(s[k + |r|..])
  {
    assert s[k + |t| - m..] == t[|t| - m..];
  }

  /** A string that neither starts nor ends with whitespace is its own trim. */
  lemma TrimNoop(s: string)
    requires IsTrimmedNonBlank(s)
    ensures Trim(s) == s
  {
    assert LeadingBlanks(s) == 0;
    assert s[0..] == s;
    assert TrailingBlanks(s) == 0;
    assert s[..|s|] == s;
  }

  /** Trimming a trimmed string changes nothing. */
  lemma TrimIdempotent(s: string)
    ensures Trim(Trim(s)) == Trim(s)
  {
    if Trim(s) != [] {
      TrimNoop(Trim(s));
    }
  }

  /** `toLowerCase` on one code point: ASCII capitals and the Kelvin sign,
      whose lower case is `k`. */
  function LowerChar(c: char): (d: char)
    ensures 'A' <= c <= 'Z' ==> d as int == c as int + 32
    ensures c == '\U{212A}' ==> d == 'k'
    ensures !('A' <= c <= 'Z') && c != '\U{212A}' ==> d == c
  {
    if 'A' <= c <= 'Z' then (c as int + 32) as char
    else if c == '\U{212A}' then 'k'
    else c
  }

  /** JavaScript's `s.toLowerCase()`, code point by code point. */
  function ToLower(s: string): (r: string)
    ensures |r| == |s|
    ensures forall i :: 0 <= i < |s| ==> r[i] == LowerChar(s[i])
  {
    if s == [] then [] else [LowerChar(s[0])] + ToLower(s[1..])
  }

  /** Lower-casing twice is lower-casing once. */
  lemma ToLowerIdempotent(s: string)
    ensures ToLower(ToLower(s)) == ToLower(s)
  {
    var l := ToLower(s);
    assert forall i :: 0 <= i < |l| ==> LowerChar(l[i]) == l[i];
  }

  /** Lower-casing distributes over concatenation. */
  lemma ToLowerAppend(a: string, b: string)
    ensures ToLower(a + b) == ToLower(a) + ToLower(b)
  {
    var l, m := ToLower(a + b), ToLower(a) + ToLower(b);
    assert |l| == |m|;
    forall i | 0 <= i < |l| ensures l[i] == m[i] {
      if i < |a| { assert (a + b)[i] == a[i]; } else { assert (a + b)[i] == b[i - |a|]; }
    }
  }

  /** `pat` occurs in `s` starting at index `k`. */
  predicate OccursAt(s: string, pat: string, k: int) {
    0 <= k && k + |pat| <= |s| && s[k..k + |pat|] == pat
  }

  /** JavaScript's `s.includes(pat)`: some window of `s` equals `pat`. */
  function Contains(s: string, pat: string): (b: bool)
    ensures b <==> exists k :: OccursAt(s, pat, k)
    decreases |s|
  {
    if |pat| > |s| then
      assert forall k :: !OccursAt(s, pat, k);
      false
    else if s[..|pat|] == pat then
      assert OccursAt(s, pat, 0);
      true
    else
      var b := Contains(s[1..], pat);
      assert b <==> exists k :: OccursAt(s, pat, k) by {
        forall k | OccursAt(s, pat, k) ensures k > 0 && OccursAt(s[1..], pat, k - 1) {
          OccursShift(s, pat, k);
        }
        if b {
          var j :| OccursAt(s[1..], pat, j);
          OccursShift(s, pat, j + 1);
        }
      }
      b
  }

  /** An occurrence at `k > 0` in `s` is one at `k - 1` in `s[1..]`. */
  lemma OccursShift(s: string, pat: string, k: int)
    requires |s| > 0 && k > 0
    ensures OccursAt(s, pat, k) <==> OccursAt(s[1..], pat, k - 1)
  {
    if k + |pat| <= |s| {
      assert s[1..][k - 1..k - 1 + |pat|] == s[k..k + |pat|];
    }
  }

  /** Text around an occurrence does not hide it. */
  lemma {:induction false} ContainsInContext(a: string, s: string, b: string, pat: string)
    requires Contains(s, pat)
    ensures Contains(a + s + b, pat)
  {
    var k :| OccursAt(s, pat, k);
    var t := a + s + b;
    assert t[|a| + k..|a| + k + |pat|] == s[k..k + |pat|];
    assert OccursAt(t, pat, |a| + k);
  }
}
