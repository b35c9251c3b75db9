/** The JavaScript semantics the front-end code relies on: JSON values as
    `response.json()` produces them, property access, truthiness, `String(v)`,
    `Number(s)`, `trim()` and the case conversions. */
module Js {
  import opened Wrappers
  import Text

  /** A parsed JSON value. JSON has no `undefined`: an absent property is `None`
      when it is read with `Get`. Numbers are integers in this model. */
  datatype Json =
    | JNull
    | JBool(b: bool)
    | JNum(n: int)
    | JStr(s: string)
    | JArr(items: seq<Json>)
    | JObj(fields: map<string, Json>)

  /** `typeof v === "object" && v !== null`: true of objects and of arrays. */
  predicate IsObjectLike(v: Json) {
    v.JObj? || v.JArr?
  }

  /** `key in v` for an object-like value. */
  predicate Has(v: Json, key: string) {
    v.JObj? && key in v.fields
  }

  /** `v[key]`: the property, or `None` for `undefined`. */
  function Get(v: Json, key: string): (r: Option<Json>)
    ensures r.Some? <==> Has(v, key)
    ensures r.Some? ==> r.value == v.fields[key]
  {
    if Has(v, key) then Some(v.fields[key]) else None
  }

  /** JavaScript truthiness of a property value; `undefined`, `null`, `false`,
      `0` and `""` are falsy, every object and array (even empty) is truthy. */
  predicate Truthy(v: Option<Json>) {
    match v
    case None => false
    case Some(JNull) => false
    case Some(JBool(b)) => b
    case Some(JNum(n)) => n != 0
    case Some(JStr(s)) => s != ""
    case Some(JArr(_)) => true
    case Some(JObj(_)) => true
  }

  /** `String(v)`. An array prints its elements joined by "," with `null` elements
      printed as ""; a plain object prints as "[object Object]". */
  function ToJsString(v: Json): (r: string)
    decreases v, 1, 0
    ensures v.JStr? ==> r == v.s
    ensures v.JNum? ==> Number(r) == Finite(v.n)
  {
    match v
    case JNull => "null"
    case JBool(b) => if b then "true" else "false"
    case JNum(n) => NumberOfIntToString(n); Text.IntToString(n)
    case JStr(s) => s
    case JArr(items) => ElementsString(v, 0)
    case JObj(_) => "[object Object]"
  }

  /** The elements of array `arr` from index `i` on, each printed and joined by ",". */
  function ElementsString(arr: Json, i: nat): string
    requires arr.JArr? && i <= |arr.items|
    decreases arr, 0, |arr.items| - i
  {
    if i == |arr.items| then ""
    else
      var e := arr.items[i];
      var first := if e.JNull? then "" else ToJsString(e);
      if i + 1 == |arr.items| then first else first + "," + ElementsString(arr, i + 1)
  }

  /** A JavaScript number, as far as this model needs one: an integer or NaN. */
  datatype JsNum = Finite(value: int) | NaN

  /** The `||` fallback `x || 0` on numbers: NaN (falsy) becomes 0. */
  function OrZero(x: JsNum): int {
    match x
    case Finite(v) => v
    case NaN => 0
  }

  /** The characters `String.prototype.trim` removes: white space and line terminators. */
  predicate IsSpace(c: char) {
    var k := c as int;
    (9 <= k <= 13) || k == 0x20 || k == 0xA0 || k == 0x1680 || (0x2000 <= k <= 0x200A)
    || k == 0x2028 || k == 0x2029 || k == 0x202F || k == 0x205F || k == 0x3000 || k == 0xFEFF
  }

  /** `s.trim()`. */
  function Trim(s: string): (r: string)
    ensures |r| <= |s|
    ensures |r| > 0 ==> !IsSpace(r[0]) && !IsSpace(r[|r| - 1])
    ensures |s| > 0 && !IsSpace(s[0]) && !IsSpace(s[|s| - 1]) ==> r == s
  {
    Text.Trim(s, IsSpace)
  }

  /** `Number(s)` for the numerals the model covers: surrounding white space is
      ignored, the empty string is 0, an optional sign followed by decimal digits is
      its value, and anything else is NaN. */
  function Number(s: string): (r: JsNum)
    ensures Text.AllDigits(s) && s != "" ==> r == Finite(Text.DigitsValue(s))
  {
    DigitsUntrimmed(s);
    var t := Trim(s);
    if t == "" then Finite(0)
    else if Text.AllDigits(t) then Finite(Text.DigitsValue(t))
    else if (t[0] == '-' || t[0] == '+') && |t| > 1 && Text.AllDigits(t[1..]) then
      var v: int := Text.DigitsValue(t[1..]); Finite(if t[0] == '-' then -v else v)
    else NaN
  }

  /** A numeral has no white space to trim. */
  lemma DigitsUntrimmed(s: string)
    ensures Text.AllDigits(s) && s != "" ==> Trim(s) == s
  {
    if Text.AllDigits(s) && s != "" {
      assert Text.IsDigit(s[0]) && Text.IsDigit(s[|s| - 1]);
    }
  }

  /** `Number(String(n))` is `n` for every integer `n`. */
  lemma {:induction false} NumberOfIntToString(n: int)
    ensures Number(Text.IntToString(n)) == Finite(n)
  {
    var m: nat := if n < 0 then -n else n;
    var digits := Text.NatToString(m);
    Text.DigitsValueOfNatToString(m);
    DigitsUntrimmed(digits);
    if n < 0 {
      var s := "-" + digits;
      assert s[1..] == digits;
      assert !IsSpace(s[0]) && !Text.IsDigit(s[0]) && Text.IsDigit(s[|s| - 1]);
      assert Trim(s) == s;
    }
  }

  /** `c.toLowerCase()` for one character, exact wherever the result can be an ASCII
      letter: A-Z and the Kelvin sign (which lowers to "k"); other characters are
      returned unchanged. */
  function LowerChar(c: char): char {
    if 'A' <= c <= 'Z' then (c as int + 32) as char
    else if c as int == 0x212A then 'k'
    else c
  }

  /** `s.toLowerCase()` (see `LowerChar`). */
  function ToLowerCase(s: string): (r: string)
    ensures |r| == |s| && forall i :: 0 <= i < |s| ==> r[i] == LowerChar(s[i])
  {
    seq(|s|, i requires 0 <= i < |s| => LowerChar(s[i]))
  }

  /** `c.toUpperCase()` for one character, exact wherever the result can be a single
      ASCII letter: a-z, the long s (which raises to "S") and the dotless i (which
      raises to "I"); other characters are
      returned unchanged. */
  function UpperChar(c: char): char {
    if 'a' <= c <= 'z' then (c as int - 32) as char
    else if c as int == 0x017F then 'S'
    else if c as int == 0x0131 then 'I'
    else c
  }

  /** `s.toUpperCase()` (see `UpperChar`). */
  function ToUpperCase(s: string): (r: string)
    ensures |r| == |s| && forall i :: 0 <= i < |s| ==> r[i] == UpperChar(s[i])
  {
    seq(|s|, i requires 0 <= i < |s| => UpperChar(s[i]))
  }
}
