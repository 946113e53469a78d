/** The JavaScript values that a parsed telemetry frame can carry, and the
    few coercions of the language that the client applies to them: loose
    equality with `"1"` and `1`, numeric conversion (for `++` and `>`),
    string conversion (for template literals and `String(...)`), ASCII
    lower-casing and property access. */
module JsValues {

  import opened Optional

  /** A JavaScript value. `NaN` is the one number no real stands for; the
      other numbers are exact reals (rounding to doubles is not modelled).
      Arrays are not part of this model. */
  datatype JsValue =
    | Undefined
    | Null
    | Bool(b: bool)
    | Num(n: real)
    | NaN
    | Str(s: string)
    | Obj(fields: map<string, JsValue>)

  // ---------------------------------------------------------------------
  // String to number (the StringToNumber conversion of ECMAScript)
  // ---------------------------------------------------------------------

  /** White space and line terminators that the conversion trims. */
  predicate IsJsSpace(c: char) {
    c == ' ' || c == '\t' || c == '\n' || c == '\r' || c == '\U{000B}' || c == '\U{000C}'
    || c == '\U{00A0}' || c == '\U{1680}' || ('\U{2000}' <= c <= '\U{200A}')
    || c == '\U{2028}' || c == '\U{2029}' || c == '\U{202F}' || c == '\U{205F}'
    || c == '\U{3000}' || c == '\U{FEFF}'
  }

  function TrimStart(s: string): (t: string)
    ensures |t| <= |s| && t == s[|s| - |t|..]
    ensures t != [] ==> !IsJsSpace(t[0])
  {
    if s != [] && IsJsSpace(s[0]) then TrimStart(s[1..]) else s
  }

  function TrimEnd(s: string): (t: string)
    ensures |t| <= |s| && t == s[..|t|]
    ensures t != [] ==> !IsJsSpace(t[|t| - 1])
  {
    if s != [] && IsJsSpace(s[|s| - 1]) then TrimEnd(s[..|s| - 1]) else s
  }

  function Trim(s: string): string {
    TrimEnd(TrimStart(s))
  }

  predicate AllDigits(s: string) {
    forall i :: 0 <= i < |s| ==> '0' <= s[i] <= '9'
  }

  function DigitsValue(s: string): (n: nat)
    requires AllDigits(s)
  {
    if s == [] then 0 else 10 * DigitsValue(s[..|s| - 1]) + (s[|s| - 1] as int - '0' as int)
  }

  function Pow10(k: nat): (p: nat)
    ensures p >= 1
  {
    if k == 0 then 1 else 10 * Pow10(k - 1)
  }

  /** Position of the first '.' in `s`, or `|s|` when there is none. */
  function DotIndex(s: string): (k: nat)
    ensures k <= |s|
    ensures k < |s| ==> s[k] == '.'
    ensures forall i :: 0 <= i < k ==> s[i] != '.'
  {
    if s == [] then 0 else if s[0] == '.' then 0 else 1 + DotIndex(s[1..])
  }

  /** An unsigned decimal numeral `ddd`, `ddd.ddd`, `ddd.` or `.ddd` (at
      least one digit); anything else is NaN. */
  function UnsignedDecimal(s: string): Option<real> {
    var k := DotIndex(s);
    var whole := s[..k];
    var frac := if k < |s| then s[k + 1..] else [];
    if AllDigits(whole) && AllDigits(frac) && |whole| + |frac| >= 1 then
      Some(DigitsValue(whole) as real + DigitsValue(frac) as real / Pow10(|frac|) as real)
    else
      None
  }

  /** `Number(s)` for a string: blank text is 0, a signed decimal numeral is
      its value, anything else is NaN (`None`). */
  function StringToNumber(s: string): Option<real> {
    var t := Trim(s);
    if t == [] then Some(0.0)
    else if t[0] == '-' then
      (match UnsignedDecimal(t[1..]) case Some(x) => Some(-x) case None => None)
    else if t[0] == '+' then UnsignedDecimal(t[1..])
    else UnsignedDecimal(t)
  }

  /** `Number(v)`: `None` is NaN. A plain object converts through its
      string form "[object Object]", which is NaN. */
  function ToNumber(v: JsValue): Option<real> {
    match v
    case Undefined => None
    case Null => Some(0.0)
    case Bool(b) => Some(if b then 1.0 else 0.0)
    case Num(n) => Some(n)
    case NaN => None
    case Str(s) => StringToNumber(s)
    case Obj(_) => StringToNumber(ObjectText)
  }

  const ObjectText: string := "[object Object]"

  /** The value `Number(v)` produces: a number, or NaN. Converting it again
      changes nothing. */
  function NumberOf(v: JsValue): (r: JsValue)
    ensures r.Num? || r == NaN
    ensures ToNumber(r) == ToNumber(v)
  {
    match ToNumber(v)
    case Some(n) => Num(n)
    case None => NaN
  }

  // ---------------------------------------------------------------------
  // Loose equality (the == operator) against a string and a number
  // ---------------------------------------------------------------------

  /** `v == t` for a string primitive `t`, following the abstract equality
      algorithm: a number or boolean compares numerically with `Number(t)`,
      an object through its string form, null and undefined never. */
  predicate LooselyEqualsString(v: JsValue, t: string) {
    match v
    case Undefined => false
    case Null => false
    case Bool(b) => StringToNumber(t) == Some(if b then 1.0 else 0.0)
    case Num(n) => StringToNumber(t) == Some(n)
    case NaN => false
    case Str(s) => s == t
    case Obj(_) => ObjectText == t
  }

  /** `v == x` for a number primitive `x`. */
  predicate LooselyEqualsNumber(v: JsValue, x: real) {
    match v
    case Undefined => false
    case Null => false
    case Bool(b) => (if b then 1.0 else 0.0) == x
    case Num(n) => n == x
    case NaN => false
    case Str(s) => StringToNumber(s) == Some(x)
    case Obj(_) => StringToNumber(ObjectText) == Some(x)
  }

  /** The flag test `value == "1" || value == 1`. */
  predicate CoercesToOne(v: JsValue) {
    LooselyEqualsString(v, "1") || LooselyEqualsNumber(v, 1.0)
  }

  lemma OneReadsAsOne()
    ensures StringToNumber("1") == Some(1.0)
  {
    assert Trim("1") == "1";
    assert DotIndex("1") == 1;
    assert "1"[..1] == "1";
    assert DigitsValue("1") == 10 * DigitsValue("1"[..0]) + 1;
  }

  lemma TrimUnpadded(s: string)
    requires s != [] && !IsJsSpace(s[0]) && !IsJsSpace(s[|s| - 1])
    ensures Trim(s) == s
  {
  }

  lemma NotANumeral(s: string)
    requires s != [] && s[0] != '.' && !('0' <= s[0] <= '9')
    ensures UnsignedDecimal(s) == None
  {
    var k := DotIndex(s);
    assert s[..k][0] == s[0];
  }

  lemma UnsignedText(s: string)
    requires s != [] && !IsJsSpace(s[0]) && !IsJsSpace(s[|s| - 1])
    requires s[0] != '-' && s[0] != '+'
    ensures StringToNumber(s) == UnsignedDecimal(s)
  {
    TrimUnpadded(s);
  }

  lemma ObjectTextIsNaN()
    ensures StringToNumber(ObjectText) == None
  {
    var t := ObjectText;
    assert t[0] == '[' && t[|t| - 1] == ']';
    UnsignedText(t);
    NotANumeral(t);
  }

  /** The flag test holds exactly for `true`, the number 1 and the strings
      whose numeric value is 1 (such as "1", " 1 ", "1.0", "+01"); never for
      null, undefined, NaN, false, other numbers or objects. */
  lemma CoercesToOneExactly(v: JsValue)
    ensures CoercesToOne(v) <==>
      (v.Bool? && v.b) || (v.Num? && v.n == 1.0) || (v.Str? && StringToNumber(v.s) == Some(1.0))
  {
    if v.Str? {
      TextCoercesToOne(v.s);
    } else {
      PrimitiveCoercesToOne(v);
    }
  }

  lemma PrimitiveCoercesToOne(v: JsValue)
    requires !v.Str?
    ensures CoercesToOne(v) <==> (v.Bool? && v.b) || (v.Num? && v.n == 1.0)
  {
    if v.Obj? {
      ObjectTextIsNaN();
    } else {
      OneReadsAsOne();
    }
  }

  lemma TextCoercesToOne(s: string)
    ensures CoercesToOne(Str(s)) <==> StringToNumber(s) == Some(1.0)
  {
    if s == "1" {
      OneReadsAsOne();
    }
  }

  // ---------------------------------------------------------------------
  // Arithmetic and comparison with coercion
  // ---------------------------------------------------------------------

  /** The value `v++` leaves behind: `Number(v) + 1`, NaN when `v` is not
      numeric. */
  function Increment(v: JsValue): (r: JsValue)
    ensures r.Num? || r == NaN
    ensures ToNumber(v).Some? ==> r == Num(ToNumber(v).value + 1.0)
    ensures ToNumber(v).None? ==> r == NaN
  {
    match ToNumber(v)
    case Some(n) => Num(n + 1.0)
    case None => NaN
  }

  /** `v > x` for a number `x`: false whenever `Number(v)` is NaN. */
  predicate GreaterThan(v: JsValue, x: real) {
    match ToNumber(v)
    case Some(n) => n > x
    case None => false
  }

  // ---------------------------------------------------------------------
  // String conversion
  // ---------------------------------------------------------------------

  /** `String(v)`, as a template literal applies it. How a finite number
      is printed (Number::toString) is supplied by the caller as
      `numberText`. */
  function ToJsString(v: JsValue, numberText: real -> string): string {
    match v
    case Undefined => "undefined"
    case Null => "null"
    case Bool(b) => if b then "true" else "false"
    case Num(n) => numberText(n)
    case NaN => "NaN"
    case Str(s) => s
    case Obj(_) => ObjectText
  }

  function AsciiLowerChar(c: char): (d: char)
    ensures 'A' <= c <= 'Z' ==> d as int == c as int + 32
    ensures !('A' <= c <= 'Z') ==> d == c
  {
    if 'A' <= c <= 'Z' then (c as int + 32) as char else c
  }

  /** `s.toLowerCase()` on the ASCII letters. */
  function AsciiLower(s: string): (t: string)
    ensures |t| == |s|
    ensures forall i :: 0 <= i < |s| ==> t[i] == AsciiLowerChar(s[i])
  {
    if s == [] then [] else [AsciiLowerChar(s[0])] + AsciiLower(s[1..])
  }

  // ---------------------------------------------------------------------
  // Property access
  // ---------------------------------------------------------------------

  /** `v[key]` for a key that no primitive wrapper and no Object.prototype
      defines (the client reads only "topic", "value", "cmd", "read" and
      "err"): `None` when `v` is null or undefined, which throws a
      TypeError; `Undefined` for a missing own property. */
  function Get(v: JsValue, key: string): (r: Option<JsValue>)
    ensures r.None? <==> v.Null? || v.Undefined?
    ensures v.Obj? && key in v.fields ==> r == Some(v.fields[key])
    ensures r.Some? && !(v.Obj? && key in v.fields) ==> r == Some(Undefined)
  {
    match v
    case Undefined => None
    case Null => None
    case Obj(m) => if key in m then Some(m[key]) else Some(Undefined)
    case _ => Some(Undefined)
  }
}
