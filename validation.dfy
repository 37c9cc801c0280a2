/**
 * The input rules of Register-User/utils/auth/validation.js. Each rule is a
 * regex test or a length test, and a regex `.test(v)` first converts `v` to a
 * string and a length test converts `.length` to a number, so the rules are
 * stated over any JavaScript value and then characterised on strings. Either
 * conversion throws a TypeError on an object with its own `toString`: each
 * rule comes with the predicate saying when it throws, and its result means
 * something only when that predicate does not hold.
 */
module Validation {
  import opened Wrappers
  import opened Text
  import opened JsNumbers
  import opened JsValues

  /** A character of the class [^\s@]. */
  predicate EmailChar(c: char) { !IsSpace(c) && c != '@' }

  /** A non-empty run of [^\s@]. */
  predicate EmailPart(x: string) { |x| > 0 && forall i :: 0 <= i < |x| ==> EmailChar(x[i]) }

  /**
   * The regex /^[^\s@]+@[^\s@]+\.[^\s@]+$/ read literally: three runs of
   * [^\s@] with an '@' after the first and a '.' after the second.
   */
  ghost predicate EmailRegex(s: string) {
    exists i, j :: 0 < i && i + 1 < j < |s| - 1 && s[i] == '@' && s[j] == '.'
      && EmailPart(s[..i]) && EmailPart(s[i + 1..j]) && EmailPart(s[j + 1..])
  }

  /**
   * An executable test of the same language: no whitespace, exactly one '@',
   * not in first position, and a '.' that is neither the first nor the last
   * character of what follows the '@'.
   */
  predicate EmailMatches(s: string) {
    NoSpace(s) && Count(s, '@') == 1 &&
    var k := IndexOf(s, '@');
    0 < k && k + 2 <= |s| - 1 && '.' in s[k + 2..|s| - 1]
  }

  lemma IndexOfUnique(s: string, c: char, i: int)
    requires 0 <= i < |s| && s[i] == c && c !in s[..i]
    ensures IndexOf(s, c) == i
  {
  }

  lemma SplitAt(s: string, i: int)
    requires 0 <= i < |s|
    ensures s == s[..i] + [s[i]] + s[i + 1..]
  {
  }

  /** After the only occurrence of `c` there is none. */
  lemma NoneAfterOnly(s: string, c: char, k: int)
    requires 0 <= k < |s| && s[k] == c && Count(s, c) == 1
    ensures c !in s[k + 1..]
  {
    var a, rest := s[..k], s[k + 1..];
    assert s == a + [s[k]] + rest;
    CountAppend(a + [s[k]], rest, c);
    CountAppend(a, [s[k]], c);
    assert Count([s[k]], c) == 1;
  }

  lemma EmailMatchesToRegex(s: string)
    requires EmailMatches(s)
    ensures EmailRegex(s)
  {
    var k := IndexOf(s, '@');
    var d := s[k + 2..|s| - 1];
    var m :| 0 <= m < |d| && d[m] == '.';
    var j := k + 2 + m;
    assert s[j] == '.';
    NoneAfterOnly(s, '@', k);
    var rest := s[k + 1..];
    assert s[k + 1..j] == rest[..j - k - 1];
    assert s[j + 1..] == rest[j - k..];
    assert EmailPart(s[..k]);
    assert EmailPart(s[k + 1..j]);
    assert EmailPart(s[j + 1..]);
  }

  lemma RegexToEmailMatches(s: string, i: int, j: int)
    requires 0 < i && i + 1 < j < |s| - 1 && s[i] == '@' && s[j] == '.'
    requires EmailPart(s[..i]) && EmailPart(s[i + 1..j]) && EmailPart(s[j + 1..])
    ensures EmailMatches(s)
  {
    var a, b, c := s[..i], s[i + 1..j], s[j + 1..];
    assert s == a + ['@'] + b + ['.'] + c;
    forall p | 0 <= p < |s|
      ensures !IsSpace(s[p])
    {
      if p < i { assert s[p] == a[p]; }
      else if i < p < j { assert s[p] == b[p - i - 1]; }
      else if j < p { assert s[p] == c[p - j - 1]; }
    }
    assert '@' !in a && '@' !in b && '@' !in c;
    CountAppend(a + ['@'] + b + ['.'], c, '@');
    CountAppend(a + ['@'] + b, ['.'], '@');
    CountAppend(a + ['@'], b, '@');
    CountAppend(a, ['@'], '@');
    assert Count(['@'], '@') == 1;
    assert Count(['.'], '@') == 0;
    IndexOfUnique(s, '@', i);
    assert s[i + 2..|s| - 1][j - i - 2] == '.';
  }

  /** The executable test and the literal reading of the regex accept the same strings. */
  lemma EmailMatchesIsRegex(s: string)
    ensures EmailMatches(s) <==> EmailRegex(s)
  {
    if EmailMatches(s) {
      EmailMatchesToRegex(s);
    }
    if EmailRegex(s) {
      var i, j :| 0 < i && i + 1 < j < |s| - 1 && s[i] == '@' && s[j] == '.'
        && EmailPart(s[..i]) && EmailPart(s[i + 1..j]) && EmailPart(s[j + 1..]);
      RegexToEmailMatches(s, i, j);
    }
  }

  /** validateEmail (validation.js:1-4); an accepted value spells a string with one '@' and no whitespace. */
  function ValidateEmail(v: JsValue): (r: bool)
    ensures r ==> NoSpace(ToStr(v)) && Count(ToStr(v), '@') == 1
  {
    EmailMatches(ToStr(v))
  }

  /** On strings validateEmail holds exactly when the string has the regex's three-part shape. */
  lemma ValidateEmailShape(s: string)
    ensures ValidateEmail(Str(s)) <==> EmailRegex(s)
  {
    EmailMatchesIsRegex(s);
  }

  /** `v.length >= k` (or `<= k`) throws: only an object's own `length` field can hold a value that does. */
  predicate LengthThrows(v: JsValue)
    requires !Nullish(v)
  {
    ToPrimitiveThrows(Member(v, "length"))
  }

  /**
   * validateUsernameLength (validation.js:6-8): `.length` between 5 and 18,
   * in UTF-16 code units for a string, and as `Number` reads it for an
   * object's own `length` field.
   */
  function ValidateUsernameLength(v: JsValue): (r: bool)
    requires !Nullish(v)
    ensures v.Str? ==> (r <==> 5 <= Utf16Len(v.s) <= 18)
    ensures v.Str? && (forall i :: 0 <= i < |v.s| ==> v.s[i] as int <= 0xFFFF) ==> (r <==> 5 <= |v.s| <= 18)
    ensures v.Arr? ==> (r <==> 5 <= |v.elems| <= 18)
    ensures (v.Num? || v.Bool?) ==> !r
  {
    var n := LengthOf(v);
    AtLeast(n, 5) && AtMost(n, 18)
  }

  /**
   * An object whose `length` is the string "7" passes the length rule: the
   * comparison reads the string as 7. Having no own `toString`, it converts
   * without throwing, to "[object Object]".
   */
  lemma NumericStringLength()
    ensures !LengthThrows(Obj(map["length" := Str("7")]))
    ensures ValidateUsernameLength(Obj(map["length" := Str("7")]))
    ensures !ToPrimitiveThrows(Obj(map["length" := Str("7")]))
  {
    assert DigitsValue("7", 10) == 7 by { assert "7"[..0] == ""; }
    DigitsToNumber("7");
    StringLengthField(map["length" := Str("7")], "7");
  }

  /** An object whose `length` is a string and which has no own `toString` is measured by the number that string spells. */
  lemma StringLengthField(m: map<string, JsValue>, x: string)
    requires "length" in m && m["length"] == Str(x) && "toString" !in m
    ensures LengthOf(Obj(m)) == StringToNumber(x)
    ensures !LengthThrows(Obj(m)) && !ToPrimitiveThrows(Obj(m))
  {
  }

  /** An object whose `length` is a string no number spells fails it. */
  lemma NonNumericLength(x: string)
    requires StringToNumber(x).NaN?
    ensures !ValidateUsernameLength(Obj(map["length" := Str(x)]))
  {
  }

  /** validateUsernameSpecialCharacters (validation.js:10-13): /^[a-zA-Z0-9]+$/. */
  function ValidateUsernameSpecialCharacters(v: JsValue): (r: bool)
    ensures v.Str? ==> (r <==> |v.s| > 0 && AllAlnum(v.s))
    ensures v.Obj? ==> !r
  {
    var t := ToStr(v);
    assert v.Obj? ==> !IsAlnum(t[0]);
    |t| > 0 && AllAlnum(t)
  }

  /** Some character is matched by /\d/ (ASCII digits only). */
  predicate HasDigit(t: string) { exists i :: 0 <= i < |t| && IsDigit(t[i]) }

  /** Some character is matched by /[^A-Za-z0-9]/. */
  predicate HasSpecial(t: string) { exists i :: 0 <= i < |t| && !IsAlnum(t[i]) }

  /**
   * validatePassword throws: all three tests run before the results are
   * combined, so it throws when reading `.length` does or when converting the
   * value to a string does.
   */
  predicate PasswordThrows(v: JsValue)
    requires !Nullish(v)
  {
    LengthThrows(v) || ToPrimitiveThrows(v)
  }

  /** validatePassword (validation.js:15-21): at least 8 long, a digit, and a non-alphanumeric character. */
  function ValidatePassword(v: JsValue): (r: bool)
    requires !Nullish(v)
    ensures v.Str? ==> (r <==> Utf16Len(v.s) >= 8 && HasDigit(v.s) && HasSpecial(v.s))
    ensures AllAlnum(ToStr(v)) ==> !r
    ensures (v.Num? || v.Bool?) ==> !r
  {
    var t := ToStr(v);
    AtLeast(LengthOf(v), 8) && HasDigit(t) && HasSpecial(t)
  }

  /** Strings never make a rule throw, and neither does anything without an object inside. */
  lemma StringsNeverThrow(v: JsValue)
    requires v.Str? || v.Num? || v.Bool?
    ensures !ToPrimitiveThrows(v) && !LengthThrows(v) && !PasswordThrows(v)
  {
  }

  /**
   * The email and character rules throw only on values they would refuse
   * anyway: a throwing conversion meets "[object Object]" somewhere, and its
   * space fails both patterns.
   */
  lemma RefusedValuesDoNotThrow(v: JsValue)
    ensures ValidateEmail(v) ==> !ToPrimitiveThrows(v)
    ensures ValidateUsernameSpecialCharacters(v) ==> !ToPrimitiveThrows(v)
  {
    if ToPrimitiveThrows(v) {
      ThrowingSpellsSpace(v);
      var k :| 0 <= k < |ToStr(v)| && ToStr(v)[k] == ' ';
      assert !IsAlnum(ToStr(v)[k]);
    }
  }

  /** An object with its own `toString` makes the email and character rules throw, whatever its other fields. */
  lemma OwnToStringThrows(m: map<string, JsValue>)
    requires "toString" in m
    ensures ToPrimitiveThrows(Obj(m)) && PasswordThrows(Obj(m))
  {
  }

  /** Appending characters to an accepted password keeps it accepted. */
  lemma PasswordExtension(p: string, q: string)
    requires ValidatePassword(Str(p))
    ensures ValidatePassword(Str(p + q))
  {
    Utf16LenAppend(p, q);
    var i :| 0 <= i < |p| && IsDigit(p[i]);
    var j :| 0 <= j < |p| && !IsAlnum(p[j]);
    assert (p + q)[i] == p[i] && (p + q)[j] == p[j];
  }

  /** Only a string passes both username checks: an array of 5 to 18 elements joins with commas. */
  lemma UsernameChecksOnlyStrings(v: JsValue)
    requires !Nullish(v)
    requires ValidateUsernameLength(v) && ValidateUsernameSpecialCharacters(v)
    ensures v.Str?
  {
  }

  /** A non-string does pass validatePassword: eight "1"s join to "1,1,1,1,1,1,1,1". */
  lemma ArrayPasswordPasses()
    ensures ValidatePassword(Arr([Num(1), Num(1), Num(1), Num(1), Num(1), Num(1), Num(1), Num(1)]))
  {
    var v := Arr([Num(1), Num(1), Num(1), Num(1), Num(1), Num(1), Num(1), Num(1)]);
    OnesJoin();
    PasswordBySpelling(v, "1,1,1,1,1,1,1,1");
  }

  lemma OnesJoin()
    ensures ToStr(Arr([Num(1), Num(1), Num(1), Num(1), Num(1), Num(1), Num(1), Num(1)])) == "1,1,1,1,1,1,1,1"
    ensures HasDigit("1,1,1,1,1,1,1,1") && HasSpecial("1,1,1,1,1,1,1,1")
  {
    var xs := [Num(1), Num(1), Num(1), Num(1), Num(1), Num(1), Num(1), Num(1)];
    assert ToStr(Num(1)) == "1";
    assert Join(xs[7..]) == "1";
    assert Join(xs[6..]) == "1,1";
    assert Join(xs[5..]) == "1,1,1";
    assert Join(xs[4..]) == "1,1,1,1";
    assert Join(xs[3..]) == "1,1,1,1,1";
    assert Join(xs[2..]) == "1,1,1,1,1,1";
    assert Join(xs[1..]) == "1,1,1,1,1,1,1";
    assert Join(xs) == "1,1,1,1,1,1,1,1";
    var t := "1,1,1,1,1,1,1,1";
    assert IsDigit(t[0]) && !IsAlnum(t[1]);
  }

  lemma PasswordBySpelling(v: JsValue, t: string)
    requires v.Arr? && |v.elems| >= 8 && ToStr(v) == t && HasDigit(t) && HasSpecial(t)
    ensures ValidatePassword(v)
  {
  }

  lemma LowerEmailPart(x: string)
    requires EmailPart(x)
    ensures EmailPart(Lower(x))
  {
    forall p | 0 <= p < |x|
      ensures EmailChar(Lower(x)[p])
    {
      LowerKeeps(x, p);
    }
  }

  lemma LowerKeepsEmailAt(s: string, i: int, j: int)
    requires 0 < i && i + 1 < j < |s| - 1 && s[i] == '@' && s[j] == '.'
    requires EmailPart(s[..i]) && EmailPart(s[i + 1..j]) && EmailPart(s[j + 1..])
    ensures EmailMatches(Lower(s))
  {
    var t := Lower(s);
    LowerKeeps(s, i);
    LowerKeeps(s, j);
    assert t[..i] == Lower(s[..i]);
    assert t[i + 1..j] == Lower(s[i + 1..j]);
    assert t[j + 1..] == Lower(s[j + 1..]);
    LowerEmailPart(s[..i]);
    LowerEmailPart(s[i + 1..j]);
    LowerEmailPart(s[j + 1..]);
    RegexToEmailMatches(t, i, j);
  }

  /** Lower-casing keeps an accepted email accepted: it touches neither whitespace nor '@' nor '.'. */
  lemma LowerKeepsEmail(s: string)
    requires ValidateEmail(Str(s))
    ensures ValidateEmail(Str(Lower(s)))
  {
    EmailMatchesToRegex(s);
    var i, j :| 0 < i && i + 1 < j < |s| - 1 && s[i] == '@' && s[j] == '.'
      && EmailPart(s[..i]) && EmailPart(s[i + 1..j]) && EmailPart(s[j + 1..]);
    LowerKeepsEmailAt(s, i, j);
  }

  /** Lower-casing keeps a username that passes both username checks passing them. */
  lemma LowerKeepsUsername(s: string)
    requires ValidateUsernameLength(Str(s)) && ValidateUsernameSpecialCharacters(Str(s))
    ensures ValidateUsernameLength(Str(Lower(s))) && ValidateUsernameSpecialCharacters(Str(Lower(s)))
  {
    LowerUtf16Len(s);
    forall p | 0 <= p < |s|
      ensures IsAlnum(Lower(s)[p])
    {
      LowerKeeps(s, p);
    }
  }
}
