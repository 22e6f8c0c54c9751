/**
 * The JavaScript string built-ins that the chat and dashboard pages rely on:
 * `String.prototype.trim` (used as a blank test), `toLowerCase` and
 * `includes`. Strings are sequences of `char`.
 */
module JsText {

  /** ECMAScript WhiteSpace and LineTerminator code points: what `trim` strips. */
  predicate IsWhitespace(c: char) {
    || c == '\t' || c == '\n' || c == '\U{B}' || c == '\U{C}' || c == '\r' || c == ' '
    || c == '\U{A0}' || c == '\U{1680}' || ('\U{2000}' <= c <= '\U{200A}')
    || c == '\U{2028}' || c == '\U{2029}' || c == '\U{202F}' || c == '\U{205F}'
    || c == '\U{3000}' || c == '\U{FEFF}'
  }

  /** Every character of `s` is white space (this includes the empty string). */
  ghost predicate IsBlank(s: string) {
    forall i :: 0 <= i < |s| ==> IsWhitespace(s[i])
  }

  /** Drops the leading white space. */
  function TrimStart(s: string): (r: string)
    ensures |r| <= |s| && r == s[|s| - |r|..]
    ensures IsBlank(s[..|s| - |r|])
    ensures r == [] || !IsWhitespace(r[0])
  {
    if s != [] && IsWhitespace(s[0]) then
      var r := TrimStart(s[1..]);
      assert s[1..][..|s| - 1 - |r|] == s[1..|s| - |r|];
      r
    else
      s
  }

  /** Drops the trailing white space. */
  function TrimEnd(s: string): (r: string)
    ensures |r| <= |s| && r == s[..|r|]
    ensures IsBlank(s[|r|..])
    ensures r == [] || !IsWhitespace(r[|r| - 1])
  {
    if s != [] && IsWhitespace(s[|s| - 1]) then
      var r := TrimEnd(s[..|s| - 1]);
      assert IsBlank(s[|r|..]) by {
        forall i | 0 <= i < |s| - |r|
          ensures IsWhitespace(s[|r|..][i])
        {
          if i < |s| - 1 - |r| {
            assert s[|r|..][i] == s[..|s| - 1][|r|..][i];
          }
        }
      }
      r
    else
      s
  }

  /** `r` is the part of `s` between a blank prefix and a blank suffix. */
  ghost predicate BetweenBlanks(s: string, r: string) {
    exists k :: 0 <= k <= |s| - |r| && r == s[k..k + |r|] && IsBlank(s[..k]) && IsBlank(s[k + |r|..])
  }

  /**
   * `s.trim()`: the part of `s` left after a blank prefix and a blank suffix
   * are cut off, neither starting nor ending with white space.
   */
  function Trim(s: string): (r: string)
    ensures BetweenBlanks(s, r)
    ensures r == [] || (!IsWhitespace(r[0]) && !IsWhitespace(r[|r| - 1]))
  {
    var t := TrimStart(s);
    var r := TrimEnd(t);
    BlankEnds(s, t, r, |s| - |t|);
    r
  }

  /** Cutting a blank prefix and then a blank suffix leaves an infix between blank ends. */
  lemma BlankEnds(s: string, t: string, r: string, k: nat)
    requires k <= |s| && t == s[k..] && IsBlank(s[..k])
    requires |r| <= |t| && r == t[..|r|] && IsBlank(t[|r|..])
    ensures BetweenBlanks(s, r)
    ensures r == [] || r[0] == t[0]
  {
    assert s[k + |r|..] == t[|r|..];
    assert r == s[k..k + |r|];
  }

  /** `!s.trim()` holds exactly when `s` consists of white space only. */
  lemma TrimEmptyIffBlank(s: string)
    ensures Trim(s) == [] <==> IsBlank(s)
  {
    var t := TrimStart(s);
    if t == [] {
      assert s[..|s| - |t|] == s;
    } else {
      assert !IsWhitespace(s[|s| - |t|]);
    }
  }

  /** ASCII case fold of one character; every other character is kept. */
  function LowerChar(c: char): char {
    if 'A' <= c <= 'Z' then (c as int + 32) as char else c
  }

  /** `s.toLowerCase()`, restricted to the ASCII letters. */
  function ToLower(s: string): (r: string)
    ensures |r| == |s|
    ensures forall i :: 0 <= i < |s| ==> r[i] == LowerChar(s[i])
    ensures forall i :: 0 <= i < |r| ==> !('A' <= r[i] <= 'Z')
  {
    if s == [] then [] else [LowerChar(s[0])] + ToLower(s[1..])
  }

  /** Folding case twice is folding it once. */
  lemma ToLowerIdempotent(s: string)
    ensures ToLower(ToLower(s)) == ToLower(s)
  {
    var once := ToLower(s);
    assert forall i :: 0 <= i < |once| ==> ToLower(once)[i] == once[i];
  }

  /** `sub` occurs in `s` starting at index `i`. */
  ghost predicate OccursAt(s: string, sub: string, i: int) {
    0 <= i && i + |sub| <= |s| && s[i..i + |sub|] == sub
  }

  /** `sub` occurs in `s` at some index. */
  ghost predicate OccursIn(s: string, sub: string) {
    exists i :: OccursAt(s, sub, i)
  }

  /** `s` begins with `prefix`. */
  predicate StartsWith(s: string, prefix: string) {
    |prefix| <= |s| && s[..|prefix|] == prefix
  }

  /**
   * `s.includes(sub)`: a scan over every start position. Every string
   * includes the empty string, and nothing includes a longer string.
   */
  predicate Includes(s: string, sub: string)
    decreases |s|
    ensures sub == [] ==> Includes(s, sub)
    ensures Includes(s, sub) ==> |sub| <= |s|
  {
    StartsWith(s, sub) || (s != [] && Includes(s[1..], sub))
  }

  /** A slice of `s[1..]` is the slice of `s` one position further on. */
  lemma DropFirstSlice(s: string, i: nat, n: nat)
    requires i + n < |s|
    ensures s[1..][i..i + n] == s[i + 1..i + 1 + n]
  {
  }

  /** Past a start position where `sub` does not begin, `sub` occurs in `s` exactly when it occurs in `s[1..]`. */
  lemma OccursInTail(s: string, sub: string)
    requires s != [] && !StartsWith(s, sub)
    ensures OccursIn(s, sub) <==> OccursIn(s[1..], sub)
  {
    if OccursIn(s[1..], sub) {
      var i :| OccursAt(s[1..], sub, i);
      DropFirstSlice(s, i, |sub|);
      assert OccursAt(s, sub, i + 1);
    }
    if OccursIn(s, sub) {
      var i :| OccursAt(s, sub, i);
      assert i != 0;
      DropFirstSlice(s, i - 1, |sub|);
      assert OccursAt(s[1..], sub, i - 1);
    }
  }

  /** The scan finds `sub` exactly when `sub` occurs somewhere in `s`. */
  lemma {:induction false} IncludesIffOccurs(s: string, sub: string)
    ensures Includes(s, sub) <==> OccursIn(s, sub)
  {
    if StartsWith(s, sub) {
      assert OccursAt(s, sub, 0);
    } else if s != [] {
      IncludesIffOccurs(s[1..], sub);
      OccursInTail(s, sub);
    }
  }
}
