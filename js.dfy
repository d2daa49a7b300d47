/** The two JavaScript built-ins the core relies on: `Array.prototype.findIndex`
    (used by every cart handler) and `String.prototype.trim` (applied by the
    `trim: true` schema option). */
module Js {

  /** `s.findIndex(p)`: the index of the first element satisfying `p`, or -1. */
  function FindIndex<T>(s: seq<T>, p: T -> bool): (i: int)
    ensures -1 <= i < |s|
    ensures i == -1 <==> forall j :: 0 <= j < |s| ==> !p(s[j])
    ensures 0 <= i ==> p(s[i]) && forall j :: 0 <= j < i ==> !p(s[j])
  {
    if s == [] then -1
    else if p(s[0]) then 0
    else
      var k := FindIndex(s[1..], p);
      if k == -1 then -1 else k + 1
  }

  /** The characters `trim` removes: ECMAScript's WhiteSpace and LineTerminator
      code points (tab, LF, VT, FF, CR, space, NBSP, BOM and the Unicode Zs
      separators, LS, PS). */
  predicate IsWhitespace(c: char) {
    || ('\t' <= c <= '\r')
    || c == ' '
    || c == '\U{00A0}'
    || c == '\U{1680}'
    || ('\U{2000}' <= c <= '\U{200A}')
    || c == '\U{2028}'
    || c == '\U{2029}'
    || c == '\U{202F}'
    || c == '\U{205F}'
    || c == '\U{3000}'
    || c == '\U{FEFF}'
  }

  /** The length of the run of whitespace `s` starts with. */
  function LeadingSpace(s: string): (n: nat)
    ensures n <= |s|
    ensures forall i :: 0 <= i < n ==> IsWhitespace(s[i])
    ensures n < |s| ==> !IsWhitespace(s[n])
  {
    if s != [] && IsWhitespace(s[0]) then 1 + LeadingSpace(s[1..]) else 0
  }

  /** The length of the run of whitespace `s` ends with. */
  function TrailingSpace(s: string): (n: nat)
    ensures n <= |s|
    ensures forall i :: |s| - n <= i < |s| ==> IsWhitespace(s[i])
    ensures n < |s| ==> !IsWhitespace(s[|s| - n - 1])
  {
    if s != [] && IsWhitespace(s[|s| - 1]) then 1 + TrailingSpace(s[..|s| - 1]) else 0
  }

  /** `s.trim()`: the part of `s` between its leading and its trailing
      whitespace; it starts at `k`, the length of the leading whitespace. */
  function Trim(s: string): (r: string)
    ensures var k := LeadingSpace(s);
      && k + |r| <= |s| && r == s[k..k + |r|]
      && (forall i :: 0 <= i < k ==> IsWhitespace(s[i]))
      && (forall i :: k + |r| <= i < |s| ==> IsWhitespace(s[i]))
    ensures r != [] ==> !IsWhitespace(r[0]) && !IsWhitespace(r[|r| - 1])
  {
    var k := LeadingSpace(s);
    var m := TrailingSpace(s[k..]);
    TrailingOfSuffix(s, k, m);
    s[k..|s| - m]
  }

  /** The trailing whitespace of a suffix of `s` is trailing whitespace of
      `s`, and the character before it is the same one in `s`. */
  lemma TrailingOfSuffix(s: string, k: nat, m: nat)
    requires k <= |s| && m <= |s| - k
    requires forall i :: |s| - k - m <= i < |s| - k ==> IsWhitespace(s[k..][i])
    requires m < |s| - k ==> !IsWhitespace(s[k..][|s| - k - m - 1])
    ensures forall i :: |s| - m <= i < |s| ==> IsWhitespace(s[i])
    ensures m < |s| - k ==> !IsWhitespace(s[|s| - m - 1])
  {
    var t := s[k..];
    forall i | |s| - m <= i < |s|
      ensures IsWhitespace(s[i])
    {
      assert s[i] == t[i - k];
    }
    assert m < |t| ==> s[|s| - m - 1] == t[|t| - m - 1];
  }

  /** A string with no whitespace at either end is left as it is. */
  lemma TrimmedFixpoint(s: string)
    requires s == [] || (!IsWhitespace(s[0]) && !IsWhitespace(s[|s| - 1]))
    ensures Trim(s) == s
  {
  }

  /** Trimming twice is trimming once. */
  lemma TrimIdempotent(s: string)
    ensures Trim(Trim(s)) == Trim(s)
  {
    TrimmedFixpoint(Trim(s));
  }
}
