/**
 * The JavaScript values that reach the handlers through a parsed JSON body or
 * query string, and the language operations the validators apply to them:
 * truthiness, `typeof v === 'string'`, conversion to a string (what a regex
 * `.test(v)` does to its argument), conversion to a number (what `v >= k`
 * does), the TypeError either conversion can raise, and reading a member such
 * as `.length`. Numbers are integers: JSON fractions are not modelled.
 */
module JsValues {
  import opened Wrappers
  import opened Text
  import opened JsNumbers

  datatype JsValue =
    | Undefined
    | Null
    | Bool(b: bool)
    | Num(n: int)
    | Str(s: string)
    | Arr(elems: seq<JsValue>)
    | Obj(fields: map<string, JsValue>)

  /** `!v`: the falsy values are undefined, null, false, 0 and the empty string. */
  predicate Falsy(v: JsValue) {
    v.Undefined? || v.Null? || v == Bool(false) || v == Num(0) || v == Str("")
  }

  /** Reading any member of these throws a TypeError. */
  predicate Nullish(v: JsValue) {
    v.Undefined? || v.Null?
  }

  /** Looking a field up in a parsed body: an absent key reads as undefined. */
  function Field(m: map<string, JsValue>, key: string): (v: JsValue)
    ensures key !in m ==> v == Undefined
  {
    if key in m then m[key] else Undefined
  }

  /**
   * `v[key]` for a named (non-index) key: an object's own field, the length of
   * a string or array, undefined for everything else.
   */
  function Member(v: JsValue, key: string): (r: JsValue)
    requires !Nullish(v)
    ensures v.Obj? ==> r == Field(v.fields, key)
    ensures (v.Num? || v.Bool?) ==> r == Undefined
  {
    match v
    case Str(s) => if key == "length" then Num(Utf16Len(s)) else Undefined
    case Arr(xs) => if key == "length" then Num(|xs|) else Undefined
    case Obj(m) => Field(m, key)
    case _ => Undefined
  }

  /** The decimal spelling of a natural number. */
  function NatToDecimal(n: nat): (r: string)
    ensures |r| > 0 && AllDigitsIn(r, 10)
  {
    var d := ['0' + (n % 10) as char];
    if n < 10 then d else NatToDecimal(n / 10) + d
  }

  /** `String(n)` for an integer. */
  function IntToDecimal(n: int): (r: string)
    ensures n >= 0 ==> AllAlnum(r)
    ensures n < 0 ==> |r| > 0 && r[0] == '-'
  {
    if n < 0 then "-" + NatToDecimal(-n) else NatToDecimal(n)
  }

  /** `String(v)`: arrays join their elements with commas (undefined and null become empty). */
  function ToStr(v: JsValue): string
    decreases v
  {
    match v
    case Undefined => "undefined"
    case Null => "null"
    case Bool(b) => if b then "true" else "false"
    case Num(n) => IntToDecimal(n)
    case Str(s) => s
    case Arr(xs) => Join(xs)
    case Obj(_) => "[object Object]"
  }

  function Join(xs: seq<JsValue>): (r: string)
    decreases xs
    ensures |xs| >= 2 ==> ',' in r
  {
    if xs == [] then ""
    else
      var head := if Nullish(xs[0]) then "" else ToStr(xs[0]);
      if |xs| == 1 then head else head + "," + Join(xs[1..])
  }

  /**
   * Converting `v` to a primitive (for `String(v)` as for `+v`) throws a
   * TypeError. No parsed value is callable, so an object's own `toString`
   * hides the inherited method, and the inherited `valueOf` gives the object
   * back: the conversion finds no primitive. An array converts through
   * `join`, which converts every element that is neither undefined nor null.
   */
  predicate ToPrimitiveThrows(v: JsValue)
    decreases v
  {
    match v
    case Obj(m) => "toString" in m
    case Arr(xs) => exists i :: 0 <= i < |xs| && ToPrimitiveThrows(xs[i])
    case _ => false
  }

  /** A conversion that throws has "[object Object]" somewhere in the string the model gives it, so a space. */
  lemma {:induction false} ThrowingSpellsSpace(v: JsValue)
    requires ToPrimitiveThrows(v)
    ensures ' ' in ToStr(v)
    decreases v
  {
    match v
    case Obj(_) =>
      assert ToStr(v)[7] == ' ';
    case Arr(xs) =>
      var i :| 0 <= i < |xs| && ToPrimitiveThrows(xs[i]);
      ThrowingSpellsSpace(xs[i]);
      JoinKeepsSpace(xs, i);
  }

  lemma {:induction false} JoinKeepsSpace(xs: seq<JsValue>, i: int)
    requires 0 <= i < |xs| && !Nullish(xs[i]) && ' ' in ToStr(xs[i])
    ensures ' ' in Join(xs)
    decreases |xs|
  {
    var head := ToStr(xs[0]);
    if i == 0 {
      var k :| 0 <= k < |head| && head[k] == ' ';
      if |xs| > 1 {
        assert (head + "," + Join(xs[1..]))[k] == ' ';
      }
    } else {
      assert xs[1..][i - 1] == xs[i];
      JoinKeepsSpace(xs[1..], i - 1);
      var rest := Join(xs[1..]);
      var k :| 0 <= k < |rest| && rest[k] == ' ';
      var h := if Nullish(xs[0]) then "" else head;
      assert (h + "," + rest)[|h| + 1 + k] == ' ';
    }
  }

  /**
   * `+v`, as `v >= k` applies it: a string is read by `Number`, an array
   * through its joined string, any object without its own `toString` as
   * "[object Object]" (NaN). The value is meaningful when
   * ToPrimitiveThrows(v) does not hold.
   */
  function NumberValue(v: JsValue): (r: JsNumber)
    ensures v.Num? ==> r == Finite(v.n as real)
    ensures (v.Str? || v.Arr?) ==> r == StringToNumber(ToStr(v))
    ensures (v.Undefined? || v.Obj?) ==> r == NaN
  {
    match v
    case Undefined => NaN
    case Null => Finite(0.0)
    case Bool(b) => Finite(if b then 1.0 else 0.0)
    case Num(n) => Finite(n as real)
    case Str(s) => StringToNumber(s)
    case Arr(xs) => StringToNumber(Join(xs))
    case Obj(_) => NaN
  }

  /** The value of `v.length`, as a comparison reads it. */
  function LengthOf(v: JsValue): (r: JsNumber)
    requires !Nullish(v)
    ensures v.Str? ==> r == Finite(Utf16Len(v.s) as real)
    ensures v.Arr? ==> r == Finite(|v.elems| as real)
    ensures (v.Num? || v.Bool?) ==> r == NaN
    ensures v.Obj? ==> r == NumberValue(Field(v.fields, "length"))
  {
    NumberValue(Member(v, "length"))
  }

  /** Reading `v.length` as a number throws only for an object whose `length` field holds one that throws. */
  lemma MemberLengthThrows(v: JsValue)
    requires !Nullish(v)
    ensures ToPrimitiveThrows(Member(v, "length")) ==> v.Obj? && "length" in v.fields
  {
  }

  lemma {:induction false} DecimalValue(n: nat)
    ensures DigitsValue(NatToDecimal(n), 10) == n
  {
    var d := NatToDecimal(n);
    if n >= 10 {
      DecimalValue(n / 10);
      assert d[..|d| - 1] == NatToDecimal(n / 10);
    }
  }

  lemma NatNumberOfDecimal(n: nat)
    ensures StringToNumber(NatToDecimal(n)) == Finite(n as real)
  {
    DecimalValue(n);
    DigitsToNumber(NatToDecimal(n));
  }

  lemma NegNumberOfDecimal(n: int)
    requires n < 0
    ensures StringToNumber(IntToDecimal(n)) == Finite(n as real)
  {
    var k: nat := -n;
    DecimalValue(k);
    NegativeSpelling(IntToDecimal(n), NatToDecimal(k), k);
  }

  lemma NegativeSpelling(t: string, d: string, k: nat)
    requires t == "-" + d && |d| > 0 && AllDigitsIn(d, 10) && DigitsValue(d, 10) == k
    ensures StringToNumber(t) == Finite(-(k as real))
  {
    NegativeDigitsToNumber(d);
  }

  /** `Number(String(n)) === n`: the decimal spelling of an integer reads back as that integer. */
  lemma NumberOfDecimal(n: int)
    ensures StringToNumber(ToStr(Num(n))) == Finite(n as real)
  {
    if n < 0 {
      NegNumberOfDecimal(n);
    } else {
      NatNumberOfDecimal(n);
    }
  }

  /** An object is converted as "[object Object]", which no number spells. */
  lemma ObjectIsNaN()
    ensures StringToNumber("[object Object]") == NaN
  {
    TrimNoEdgeSpace("[object Object]");
    ObjectNotPrefixed();
    ObjectNotDecimal();
  }

  lemma ObjectNotPrefixed()
    ensures NonDecimal("[object Object]").None?
  {
  }

  lemma ObjectNotDecimal()
    ensures SignedDecimal("[object Object]") == NaN
  {
    var s := "[object Object]";
    assert s != "Infinity" && s[0] != '-' && s[0] != '+';
    NoLeadingDigit(s);
  }
}
