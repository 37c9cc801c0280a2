/**
 * The string operations the handlers rely on: the JavaScript whitespace class
 * (shared by `\s` and `String.prototype.trim`), trimming, lower-casing, the
 * ASCII character classes of the validation regexes, and UTF-16 length.
 */
module Text {

  /** The ECMAScript WhiteSpace and LineTerminator code points. */
  predicate IsSpace(c: char) {
    c == '\t' || c == '\n' || c == '\U{000B}' || c == '\U{000C}' || c == '\r' || c == ' '
    || c == '\U{00A0}' || c == '\U{1680}' || ('\U{2000}' <= c <= '\U{200A}')
    || c == '\U{2028}' || c == '\U{2029}' || c == '\U{202F}' || c == '\U{205F}'
    || c == '\U{3000}' || c == '\U{FEFF}'
  }

  predicate IsDigit(c: char) { '0' <= c <= '9' }

  predicate IsUpper(c: char) { 'A' <= c <= 'Z' }

  predicate IsAlnum(c: char) { IsDigit(c) || IsUpper(c) || 'a' <= c <= 'z' }

  predicate AllAlnum(s: string) { forall i :: 0 <= i < |s| ==> IsAlnum(s[i]) }

  /** No whitespace character is a letter or a digit. */
  lemma SpaceIsNotAlnum(c: char)
    requires IsSpace(c)
    ensures !IsAlnum(c)
  {
  }

  predicate NoSpace(s: string) { forall i :: 0 <= i < |s| ==> !IsSpace(s[i]) }

  /** The number of times `c` occurs in `s`. */
  function Count(s: string, c: char): (n: nat)
    ensures n <= |s|
    ensures n == 0 <==> c !in s
  {
    if s == [] then 0 else (if s[0] == c then 1 else 0) + Count(s[1..], c)
  }

  lemma {:induction false} CountAppend(a: string, b: string, c: char)
    ensures Count(a + b, c) == Count(a, c) + Count(b, c)
  {
    if a == [] {
      assert a + b == b;
    } else {
      assert (a + b)[0] == a[0] && (a + b)[1..] == a[1..] + b;
      CountAppend(a[1..], b, c);
    }
  }

  /** The index of the first occurrence of `c` in `s`. */
  function IndexOf(s: string, c: char): (k: nat)
    requires c in s
    ensures k < |s| && s[k] == c && c !in s[..k]
  {
    if s[0] == c then 0 else 1 + IndexOf(s[1..], c)
  }

  /** `.length` of a JavaScript string: characters beyond the Basic Multilingual Plane take two code units. */
  function Utf16Len(s: string): (n: nat)
    ensures |s| <= n <= 2 * |s|
    ensures (forall i :: 0 <= i < |s| ==> s[i] as int <= 0xFFFF) ==> n == |s|
  {
    if s == [] then 0 else (if s[0] as int > 0xFFFF then 2 else 1) + Utf16Len(s[1..])
  }

  lemma {:induction false} Utf16LenAppend(a: string, b: string)
    ensures Utf16Len(a + b) == Utf16Len(a) + Utf16Len(b)
  {
    if a == [] {
      assert a + b == b;
    } else {
      assert (a + b)[0] == a[0] && (a + b)[1..] == a[1..] + b;
      Utf16LenAppend(a[1..], b);
    }
  }

  /** `trimStart`: drops the leading whitespace and nothing else. */
  function TrimStart(s: string): (r: string)
    ensures |r| <= |s| && r == s[|s| - |r|..]
    ensures r == [] || !IsSpace(r[0])
    ensures forall i :: 0 <= i < |s| - |r| ==> IsSpace(s[i])
  {
    if s != [] && IsSpace(s[0]) then TrimStart(s[1..]) else s
  }

  /** `trimEnd`: drops the trailing whitespace and nothing else. */
  function TrimEnd(s: string): (r: string)
    ensures |r| <= |s| && r == s[..|r|]
    ensures r == [] || !IsSpace(r[|r| - 1])
    ensures forall i :: |r| <= i < |s| ==> IsSpace(s[i])
  {
    if s != [] && IsSpace(s[|s| - 1]) then TrimEnd(s[..|s| - 1]) else s
  }

  /** `String.prototype.trim`: the result has no whitespace at either end. */
  function Trim(s: string): (r: string)
    ensures |r| <= |s|
    ensures r == [] || (!IsSpace(r[0]) && !IsSpace(r[|r| - 1]))
  {
    var t := TrimStart(s);
    var r := TrimEnd(t);
    assert r != [] ==> r[0] == t[0];
    r
  }

  /** A string with no whitespace at either end is its own trim. */
  lemma TrimNoEdgeSpace(s: string)
    requires s == [] || (!IsSpace(s[0]) && !IsSpace(s[|s| - 1]))
    ensures Trim(s) == s
  {
  }

  /** A string made only of whitespace trims to the empty string. */
  lemma {:induction false} TrimAllSpace(s: string)
    requires forall i :: 0 <= i < |s| ==> IsSpace(s[i])
    ensures Trim(s) == ""
  {
    if s != [] {
      TrimAllSpace(s[1..]);
    }
  }

  /** Trimming twice is trimming once. */
  lemma TrimIdempotent(s: string)
    ensures Trim(Trim(s)) == Trim(s)
  {
    TrimNoEdgeSpace(Trim(s));
  }

  /** `toLowerCase` on one character, for the ASCII letters. */
  function LowerChar(c: char): (d: char)
  {
    if IsUpper(c) then (c as int + 32) as char else c
  }

  /** `toLowerCase`, restricted to ASCII: letters A-Z map to a-z and every other character is kept. */
  function Lower(s: string): (r: string)
    ensures |r| == |s|
  {
    seq(|s|, i requires 0 <= i < |s| => LowerChar(s[i]))
  }

  /** Lower-casing changes only the letters A-Z: whitespace, digits, '@', '.', and non-ASCII are kept. */
  lemma LowerKeeps(s: string, i: int)
    requires 0 <= i < |s|
    ensures Lower(s)[i] == s[i] <==> !IsUpper(s[i])
    ensures IsSpace(Lower(s)[i]) <==> IsSpace(s[i])
    ensures IsAlnum(Lower(s)[i]) <==> IsAlnum(s[i])
    ensures Lower(s)[i] == '@' <==> s[i] == '@'
    ensures Lower(s)[i] == '.' <==> s[i] == '.'
    ensures !IsUpper(Lower(s)[i])
  {
  }

  lemma LowerIdempotent(s: string)
    ensures Lower(Lower(s)) == Lower(s)
  {
  }

  lemma {:induction false} LowerUtf16Len(s: string)
    ensures Utf16Len(Lower(s)) == Utf16Len(s)
  {
    if s != [] {
      assert Lower(s)[1..] == Lower(s[1..]);
      LowerUtf16Len(s[1..]);
    }
  }

  /**
   * `s.trim().toLowerCase()`, the form the middleware stores: no whitespace at
   * either end and no upper-case letter.
   */
  function Normalise(s: string): (r: string)
    ensures |r| <= |s|
    ensures r == [] || (!IsSpace(r[0]) && !IsSpace(r[|r| - 1]))
    ensures forall i :: 0 <= i < |r| ==> !IsUpper(r[i])
  {
    var t := Trim(s);
    LowerKeepsEdges(t);
    Lower(t)
  }

  lemma LowerKeepsEdges(t: string)
    ensures t != [] ==> (IsSpace(Lower(t)[0]) <==> IsSpace(t[0])) && (IsSpace(Lower(t)[|t| - 1]) <==> IsSpace(t[|t| - 1]))
  {
    if t != [] {
      LowerKeeps(t, 0);
      LowerKeeps(t, |t| - 1);
    }
  }

  /** Normalising twice is normalising once. */
  lemma NormaliseIdempotent(s: string)
    ensures Normalise(Normalise(s)) == Normalise(s)
  {
    var y := Normalise(s);
    TrimNoEdgeSpace(y);
    LowerIdempotent(Trim(s));
  }

  /** A string made only of whitespace normalises to the empty string. */
  lemma NormaliseAllSpace(s: string)
    requires forall i :: 0 <= i < |s| ==> IsSpace(s[i])
    ensures Normalise(s) == ""
  {
    TrimAllSpace(s);
  }
}
