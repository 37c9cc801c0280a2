/**
 * What `Number(s)` makes of a string (the StringToNumber operation, section
 * 7.1.4.1.1 of ECMAScript 2024), and the comparisons `n >= k` and `n <= k`
 * with an integer constant that the length rules apply to it. A finite
 * number is kept as the exact value its decimal spelling denotes: rounding
 * to the nearest double is not modelled.
 */
module JsNumbers {
  import opened Wrappers
  import opened Text

  datatype JsNumber = NaN | Infinity(negative: bool) | Finite(x: real)

  /** `n >= k`: every comparison with NaN is false. */
  predicate AtLeast(n: JsNumber, k: int) {
    match n
    case NaN => false
    case Infinity(negative) => !negative
    case Finite(x) => x >= k as real
  }

  /** `n <= k`. */
  predicate AtMost(n: JsNumber, k: int) {
    match n
    case NaN => false
    case Infinity(negative) => negative
    case Finite(x) => x <= k as real
  }

  /** Unary minus. */
  function Negate(n: JsNumber): (r: JsNumber)
    ensures r.NaN? <==> n.NaN?
    ensures n.Finite? ==> r == Finite(-n.x)
    ensures n.Infinity? ==> r == Infinity(!n.negative)
  {
    match n
    case NaN => NaN
    case Infinity(negative) => Infinity(!negative)
    case Finite(x) => Finite(-x)
  }

  /** A digit of base 2, 8, 10 or 16 (either case for the letters). */
  predicate IsDigitIn(c: char, base: nat) {
    if base == 16 then IsDigit(c) || 'a' <= c <= 'f' || 'A' <= c <= 'F'
    else '0' <= c && c as int < '0' as int + base
  }

  function DigitOf(c: char): (d: nat)
    ensures IsDigit(c) ==> d == c as int - '0' as int
    ensures IsDigitIn(c, 2) ==> d < 2
    ensures IsDigitIn(c, 8) ==> d < 8
    ensures IsDigitIn(c, 10) ==> d < 10
    ensures IsDigitIn(c, 16) ==> d < 16
  {
    if IsDigit(c) then c as int - '0' as int
    else if 'a' <= c <= 'f' then c as int - 'a' as int + 10
    else if 'A' <= c <= 'F' then c as int - 'A' as int + 10
    else 0
  }

  predicate AllDigitsIn(s: string, base: nat) {
    forall i :: 0 <= i < |s| ==> IsDigitIn(s[i], base)
  }

  /** The value of the digits `s`, most significant first. */
  function DigitsValue(s: string, base: nat): nat {
    if s == [] then 0 else DigitsValue(s[..|s| - 1], base) * base + DigitOf(s[|s| - 1])
  }

  function Pow10(k: nat): (r: nat)
    ensures r >= 1
  {
    if k == 0 then 1 else 10 * Pow10(k - 1)
  }

  /** `m * 10^e`, exactly. */
  function Scaled(m: nat, e: int): (r: real)
    ensures e >= 0 ==> r == (m * Pow10(e)) as real
    ensures r >= 0.0
    ensures (r == 0.0) <==> m == 0
  {
    if e >= 0 then (m * Pow10(e)) as real else m as real / Pow10(-e) as real
  }

  /**
   * The mantissa of a StrUnsignedDecimalLiteral: decimal digits with at most
   * one '.', and at least one digit. The value of all its digits, and how
   * many of them follow the '.'.
   */
  function Mantissa(m: string): (r: Option<(nat, nat)>)
    ensures '.' !in m && |m| > 0 && AllDigitsIn(m, 10) ==> r == Some((DigitsValue(m, 10), 0))
  {
    if '.' in m then
      var k := IndexOf(m, '.');
      var a, b := m[..k], m[k + 1..];
      if |a| + |b| > 0 && AllDigitsIn(a, 10) && AllDigitsIn(b, 10) then Some((DigitsValue(a + b, 10), |b|)) else None
    else if |m| > 0 && AllDigitsIn(m, 10) then Some((DigitsValue(m, 10), 0))
    else None
  }

  /** What follows the 'e' of an ExponentPart: an optional sign, then at least one decimal digit. */
  function Exponent(x: string): (r: Option<int>)
    ensures |x| > 0 && AllDigitsIn(x, 10) ==> r == Some(DigitsValue(x, 10))
    ensures x == [] ==> r.None?
  {
    if |x| > 0 && (x[0] == '+' || x[0] == '-') then
      if |x| > 1 && AllDigitsIn(x[1..], 10) then
        var v: int := DigitsValue(x[1..], 10);
        Some(if x[0] == '-' then -v else v)
      else None
    else if |x| > 0 && AllDigitsIn(x, 10) then Some(DigitsValue(x, 10))
    else None
  }

  /** The index of the first 'e' or 'E', or |s| when there is none. */
  function ExponentMark(s: string): (k: nat)
    ensures k <= |s|
    ensures forall i :: 0 <= i < k ==> s[i] != 'e' && s[i] != 'E'
    ensures k < |s| ==> s[k] == 'e' || s[k] == 'E'
  {
    if s == [] || s[0] == 'e' || s[0] == 'E' then 0 else 1 + ExponentMark(s[1..])
  }

  /** A StrUnsignedDecimalLiteral: "Infinity", or a mantissa with an optional exponent. */
  function UnsignedDecimal(s: string): (r: JsNumber)
    ensures r.Infinity? ==> s == "Infinity" && !r.negative
    ensures r.Finite? ==> r.x >= 0.0
  {
    if s == "Infinity" then Infinity(false)
    else
      var k := ExponentMark(s);
      var m := Mantissa(s[..k]);
      var e := if k < |s| then Exponent(s[k + 1..]) else Some(0);
      if m.Some? && e.Some? then Finite(Scaled(m.value.0, e.value - m.value.1)) else NaN
  }

  /** A StrDecimalLiteral: an optional sign before the unsigned literal. */
  function SignedDecimal(s: string): (r: JsNumber)
    ensures |s| > 0 && s[0] == '-' ==> r == Negate(UnsignedDecimal(s[1..]))
    ensures |s| > 0 && s[0] == '+' ==> r == UnsignedDecimal(s[1..])
  {
    if |s| > 0 && s[0] == '-' then Negate(UnsignedDecimal(s[1..]))
    else if |s| > 0 && s[0] == '+' then UnsignedDecimal(s[1..])
    else UnsignedDecimal(s)
  }

  /** A NonDecimalIntegerLiteral: 0x, 0o or 0b (either case), then at least one digit of that base, and no sign. */
  function NonDecimal(s: string): (r: Option<nat>)
    ensures r.Some? ==> |s| > 2 && s[0] == '0' && s[1] in "xXoObB"
  {
    if |s| > 2 && s[0] == '0' then
      var base := if s[1] in "xX" then 16 else if s[1] in "oO" then 8 else if s[1] in "bB" then 2 else 0;
      if base > 0 && AllDigitsIn(s[2..], base) then Some(DigitsValue(s[2..], base)) else None
    else None
  }

  /** `Number(s)`: whitespace around the literal is ignored, and the empty string is 0. */
  function StringToNumber(s: string): (r: JsNumber)
    ensures Trim(s) == "" ==> r == Finite(0.0)
  {
    var t := Trim(s);
    if t == "" then Finite(0.0)
    else
      match NonDecimal(t)
      case Some(n) => Finite(n as real)
      case None => SignedDecimal(t)
  }

  /** Whitespace around a numeric string never changes its value. */
  lemma StringToNumberTrim(s: string)
    ensures StringToNumber(Trim(s)) == StringToNumber(s)
  {
    TrimIdempotent(s);
  }

  /** No digit run carries a base prefix: its second character is a digit. */
  lemma DigitsNotPrefixed(d: string)
    requires AllDigitsIn(d, 10)
    ensures NonDecimal(d).None?
  {
    if |d| > 2 {
      assert IsDigit(d[1]);
    }
  }

  /** A digit run is a mantissa without a fraction and without an exponent. */
  lemma DigitsUnsigned(d: string)
    requires |d| > 0 && AllDigitsIn(d, 10)
    ensures UnsignedDecimal(d) == Finite(DigitsValue(d, 10) as real)
  {
    assert d != "Infinity" by { assert IsDigit(d[0]); }
    assert forall i :: 0 <= i < |d| ==> IsDigit(d[i]);
    var k := ExponentMark(d);
    assert k == |d| && d[..k] == d;
    assert '.' !in d;
  }

  /** A run of decimal digits is read as its value. */
  lemma DigitsToNumber(d: string)
    requires |d| > 0 && AllDigitsIn(d, 10)
    ensures StringToNumber(d) == Finite(DigitsValue(d, 10) as real)
  {
    TrimNoEdgeSpace(d);
    DigitsNotPrefixed(d);
    DigitsUnsigned(d);
    assert d[0] != '-' && d[0] != '+' by { assert IsDigit(d[0]); }
  }

  /** A string that starts with anything but a digit, '.', 'e' or 'E' is no decimal literal, unless it is "Infinity". */
  lemma NoLeadingDigit(s: string)
    requires s != [] && !IsDigit(s[0]) && s[0] != '.' && s[0] != 'e' && s[0] != 'E' && s != "Infinity"
    ensures UnsignedDecimal(s) == NaN
  {
    var k := ExponentMark(s);
    var m := s[..k];
    assert m[0] == s[0];
    if '.' in m {
      var j := IndexOf(m, '.');
      assert m[..j][0] == m[0];
    }
  }

  /** A minus sign before a digit run negates its value. */
  lemma NegativeDigitsToNumber(d: string)
    requires |d| > 0 && AllDigitsIn(d, 10)
    ensures StringToNumber("-" + d) == Finite(-(DigitsValue(d, 10) as real))
  {
    var s := "-" + d;
    assert !IsSpace(s[0]) && !IsSpace(s[|s| - 1]) by { assert s[|s| - 1] == d[|d| - 1] && IsDigit(d[|d| - 1]); }
    TrimNoEdgeSpace(s);
    assert NonDecimal(s).None?;
    assert s[1..] == d;
    assert SignedDecimal(s) == Negate(UnsignedDecimal(d));
    DigitsUnsigned(d);
  }

  lemma HexDigitsSample()
    ensures DigitsValue("1F", 16) == 31
  {
    assert "1F"[..1] == "1" && "1"[..0] == "";
  }

  /** A string with no whitespace at its ends, no base prefix and no sign is read as an unsigned decimal literal. */
  lemma PlainDecimal(s: string)
    requires s != [] && !IsSpace(s[0]) && !IsSpace(s[|s| - 1])
    requires NonDecimal(s).None? && s[0] != '-' && s[0] != '+'
    ensures StringToNumber(s) == UnsignedDecimal(s)
  {
    TrimNoEdgeSpace(s);
  }

  /** A hexadecimal literal is read in base 16, whatever the case of its letters. */
  lemma HexLiteral(d: string)
    requires |d| > 0 && AllDigitsIn(d, 16)
    ensures StringToNumber("0x" + d) == Finite(DigitsValue(d, 16) as real)
  {
    var s := "0x" + d;
    HexPrefixed(d);
    assert !IsSpace(s[|s| - 1]) by { assert s[|s| - 1] == d[|d| - 1]; }
    TrimNoEdgeSpace(s);
  }

  lemma HexPrefixed(d: string)
    requires |d| > 0 && AllDigitsIn(d, 16)
    ensures NonDecimal("0x" + d) == Some(DigitsValue(d, 16))
  {
    var s := "0x" + d;
    assert s[0] == '0' && s[1] == 'x' && s[2..] == d;
  }

  lemma HexSample()
    ensures StringToNumber("0x1F") == Finite(31.0)
  {
    HexLiteral("1F");
    HexDigitsSample();
    assert "0x" + "1F" == "0x1F";
  }

  /** A string without '.', 'e' or 'E' is a decimal literal only if every character is a digit. */
  lemma NonDigitIsNaN(s: string, i: nat)
    requires i < |s| && !IsDigitIn(s[i], 10) && s != "Infinity"
    requires forall j :: 0 <= j < |s| ==> s[j] != '.' && s[j] != 'e' && s[j] != 'E'
    ensures UnsignedDecimal(s) == NaN
  {
    var k := ExponentMark(s);
    assert k == |s| && s[..k] == s;
    assert '.' !in s;
  }

  /** Trailing garbage makes the whole string NaN: digits followed by a letter other than 'e'. */
  lemma TrailingLetter(d: string, c: char)
    requires |d| > 0 && AllDigitsIn(d, 10) && 'a' <= c <= 'z' && c != 'e'
    ensures StringToNumber(d + [c]) == NaN
  {
    var s := d + [c];
    assert s[0] == d[0] && IsDigit(s[0]) && s[|d|] == c;
    if |s| > 2 {
      assert s[1] == d[1] && IsDigit(s[1]);
    }
    PlainDecimal(s);
    assert forall j :: 0 <= j < |d| ==> s[j] == d[j] && IsDigit(s[j]);
    NonDigitIsNaN(s, |d|);
  }

  lemma GarbageSample()
    ensures StringToNumber("7a") == NaN
  {
    TrailingLetter("7", 'a');
    assert "7" + ['a'] == "7a";
  }
}
