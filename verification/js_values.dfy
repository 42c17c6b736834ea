/** The JavaScript value semantics the modelled code relies on: truthiness
    (what `a || b`, `if (x)` and `!x` test), reading a property of a parsed
    JSON object, `parseInt`, and the numeric conversion behind `x < 10000`. */
module Js {
  import opened Wrappers
  import opened Text

  /** A JavaScript value as far as the modelled expressions inspect it.
      Numbers are finite; the contents of a nested object are never read,
      so an object is opaque. */
  datatype JsValue = Undefined | Null | Bool(b: bool) | Num(n: real) | Str(s: string) | Obj

  /** A parsed JSON object; a key it lacks reads as `undefined`. */
  type Record = map<string, JsValue>

  function Get(r: Record, key: string): JsValue {
    if key in r then r[key] else Undefined
  }

  /** `body?.[key]` for an error body that may be missing. */
  function GetIn(body: Option<Record>, key: string): JsValue {
    match body
    case Some(r) => Get(r, key)
    case None => Undefined
  }

  /** JavaScript truthiness: `undefined`, `null`, `false`, `0` and `""` are
      falsy, everything else is truthy. */
  predicate Truthy(v: JsValue) {
    match v
    case Undefined => false
    case Null => false
    case Bool(b) => b
    case Num(n) => n != 0.0
    case Str(s) => s != ""
    case Obj => true
  }

  /** `a || b`: the first operand when it is truthy, otherwise the second. */
  function Or(a: JsValue, b: JsValue): JsValue {
    if Truthy(a) then a else b
  }

  /** `a || b` is truthy exactly when one of its operands is, and a chain
      `a || b || c` picks the first truthy operand whichever way it is
      grouped. */
  lemma OrProperties(a: JsValue, b: JsValue, c: JsValue)
    ensures Truthy(Or(a, b)) <==> Truthy(a) || Truthy(b)
    ensures Or(Or(a, b), c) == Or(a, Or(b, c))
  {
  }

  /** Truthiness of a typed optional string field (`undefined` or `""` is
      falsy). */
  predicate Filled(o: Option<string>) {
    o.Some? && o.value != ""
  }

  /** `o || fallback` for a typed optional string field. */
  function TextOr(o: Option<string>, fallback: string): string {
    if Filled(o) then o.value else fallback
  }

  /** Truthiness of a typed optional number field (`undefined` or `0` is
      falsy). */
  predicate NonZero(o: Option<real>) {
    o.Some? && o.value != 0.0
  }

  // ---------------------------------------------------------------- parseInt

  /** The value of `c` as a digit in base `radix`, if it is one. */
  function DigitValue(c: char, radix: nat): (d: Option<nat>)
    ensures d.Some? ==> d.value < radix
  {
    var v :=
      if '0' <= c <= '9' then c as int - '0' as int
      else if 'a' <= c <= 'z' then c as int - 'a' as int + 10
      else if 'A' <= c <= 'Z' then c as int - 'A' as int + 10
      else 36;
    if v < radix then Some(v) else None
  }

  predicate AllRadixDigits(s: string, radix: nat) {
    forall i :: 0 <= i < |s| ==> DigitValue(s[i], radix).Some?
  }

  /** The longest prefix of `s` made of base-`radix` digits. */
  function LeadingDigits(s: string, radix: nat): (r: string)
    ensures |r| <= |s| && r == s[..|r|]
    ensures AllRadixDigits(r, radix)
    ensures |r| < |s| ==> DigitValue(s[|r|], radix).None?
  {
    if |s| > 0 && DigitValue(s[0], radix).Some? then [s[0]] + LeadingDigits(s[1..], radix)
    else []
  }

  /** The number a string of base-`radix` digits denotes. */
  function DigitsValue(ds: string, radix: nat): nat
    requires AllRadixDigits(ds, radix)
  {
    if |ds| == 0 then 0
    else DigitsValue(ds[..|ds| - 1], radix) * radix + DigitValue(ds[|ds| - 1], radix).value
  }

  /** The unsigned part of `parseInt`: a "0x"/"0X" prefix switches to base
      16, and the longest run of digits that follows is read; no digits at
      all gives NaN, written `None` here. */
  function UnsignedInt(u: string): Option<nat> {
    var hex := |u| >= 2 && u[0] == '0' && (u[1] == 'x' || u[1] == 'X');
    var radix := if hex then 16 else 10;
    var ds := LeadingDigits(if hex then u[2..] else u, radix);
    if ds == [] then None else Some(DigitsValue(ds, radix))
  }

  /** `parseInt(s)` with no radix argument, on a string: leading whitespace
      is skipped and one '+' or '-' sign is taken before the digits. */
  function ParseIntText(s: string): Option<int> {
    var t := TrimStart(s);
    if |t| > 0 && t[0] == '-' then
      match UnsignedInt(t[1..])
      case Some(v) => Some(0 - v)
      case None => None
    else if |t| > 0 && t[0] == '+' then
      match UnsignedInt(t[1..])
      case Some(v) => Some(v as int)
      case None => None
    else
      match UnsignedInt(t)
      case Some(v) => Some(v as int)
      case None => None
  }

  /** The integer part of a number, rounding toward zero. */
  function Trunc(x: real): int {
    if x >= 0.0 then x.Floor else -((-x).Floor)
  }

  /** `String(v)` for the values whose string form does not depend on number
      formatting. */
  function ToText(v: JsValue): string
    requires !v.Num?
  {
    match v
    case Undefined => "undefined"
    case Null => "null"
    case Bool(b) => if b then "true" else "false"
    case Str(s) => s
    case Obj => "[object Object]"
  }

  /** `parseInt(v)`: a number loses its fractional part; any other value is
      converted to its string form first. */
  function ParseInt(v: JsValue): (r: Option<int>)
    ensures v.Num? ==> r == Some(Trunc(v.n))
    ensures v.Str? ==> r == ParseIntText(v.s)
    ensures !v.Num? && !v.Str? ==> r.None?
  {
    if v.Num? then Some(Trunc(v.n))
    else
      NonNumberTextIsNaN(v);
      ParseIntText(ToText(v))
  }

  /** Text that starts with neither whitespace, a sign nor a decimal digit
      parses to NaN. */
  lemma NoLeadingDigitIsNaN(s: string)
    requires |s| > 0 && !IsJsWhitespace(s[0]) && s[0] != '+' && s[0] != '-' && DigitValue(s[0], 10).None?
    ensures ParseIntText(s) == None
  {
    assert TrimStart(s) == s;
    assert s[0] != '0';
    assert LeadingDigits(s, 10) == [];
  }

  /** The string forms of `undefined`, `null`, the booleans and objects
      hold no leading digit. */
  lemma NonNumberTextIsNaN(v: JsValue)
    ensures !v.Num? && !v.Str? ==> ParseIntText(ToText(v)) == None
  {
    if !v.Num? && !v.Str? {
      var s := ToText(v);
      assert s[0] == 'u' || s[0] == 'n' || s[0] == 't' || s[0] == 'f' || s[0] == '[';
      NoLeadingDigitIsNaN(s);
    }
  }

  /** `parseInt(v) || fallback`: NaN and 0 are both falsy. */
  function ParsedCodeOr(v: JsValue, fallback: int): (code: int)
    ensures code == fallback || ParseInt(v) == Some(code)
    ensures (ParseInt(v).Some? && ParseInt(v).value != 0) ==> code == ParseInt(v).value
    ensures code == 0 ==> fallback == 0
  {
    match ParseInt(v)
    case Some(n) => if n != 0 then n else fallback
    case None => fallback
  }

  lemma {:induction false} LeadingDigitsOfDigits(s: string)
    requires AllDigits(s)
    ensures LeadingDigits(s, 10) == s
    decreases |s|
  {
    if |s| > 0 {
      LeadingDigitsOfDigits(s[1..]);
    }
  }

  lemma {:induction false} DigitsValueOfRendered(n: nat)
    ensures AllRadixDigits(NatToString(n), 10)
    ensures DigitsValue(NatToString(n), 10) == n
    decreases n
  {
    var r := NatToString(n);
    if n >= 10 {
      DigitsValueOfRendered(n / 10);
      assert r[..|r| - 1] == NatToString(n / 10);
    }
  }

  lemma UnsignedIntOfRendered(n: nat)
    ensures UnsignedInt(NatToString(n)) == Some(n)
  {
    var r := NatToString(n);
    DigitsValueOfRendered(n);
    LeadingDigitsOfDigits(r);
    assert !(|r| >= 2 && r[0] == '0');
  }

  /** `parseInt` reads back what `String(n)` writes for any integer: the
      decimal rendering and the parser are inverse. */
  lemma ParseIntOfRendered(i: int)
    ensures ParseIntText(IntToString(i)) == Some(i)
  {
    var n: nat := if i < 0 then -i else i;
    var r := NatToString(n);
    UnsignedIntOfRendered(n);
    var s := IntToString(i);
    assert !IsJsWhitespace(s[0]);
    assert TrimStart(s) == s;
    if i < 0 {
      assert s[1..] == r;
    } else {
      assert s == r;
    }
  }

  // ------------------------------------------------------- numeric conversion

  /** The outcome of converting a value to a number: a finite value, one of
      the infinities, or NaN. */
  datatype Numeric = NaN | Finite(x: real) | PosInfinity | NegInfinity

  function Pow10(k: nat): (p: nat)
    ensures p >= 1
  {
    if k == 0 then 1 else 10 * Pow10(k - 1)
  }

  /** An unsigned decimal literal "123", "1.5", ".5" or "5." (at least one
      digit, at most one point); exponent notation is not read. */
  function UnsignedDecimal(s: string): Option<real> {
    var whole := LeadingDigits(s, 10);
    var rest := s[|whole|..];
    if rest == [] then
      (if whole == [] then None else Some(DigitsValue(whole, 10) as real))
    else if rest[0] != '.' then None
    else
      var frac := LeadingDigits(rest[1..], 10);
      if |frac| != |rest| - 1 || (whole == [] && frac == []) then None
      else Some(DigitsValue(whole, 10) as real + DigitsValue(frac, 10) as real / Pow10(|frac|) as real)
  }

  /** `Number(s)` on a string: surrounding whitespace is ignored, the empty
      string is 0, a signed decimal literal or "Infinity" is read, and a
      "0x"/"0X" hexadecimal literal without sign is read; anything else is
      NaN. */
  function StringToNumber(s: string): Numeric {
    var t := Trim(s);
    if t == [] then Finite(0.0) else TrimmedToNumber(t)
  }

  /** `Number(t)` on text with no surrounding whitespace. */
  function TrimmedToNumber(t: string): Numeric
    requires t != []
  {
    var negative := t[0] == '-';
    var body := if t[0] == '-' || t[0] == '+' then t[1..] else t;
    var hexDigits := if |t| >= 2 && t[0] == '0' && (t[1] == 'x' || t[1] == 'X') then t[2..] else [];
    if hexDigits != [] && AllRadixDigits(hexDigits, 16) then Finite(DigitsValue(hexDigits, 16) as real)
    else if body == "Infinity" then (if negative then NegInfinity else PosInfinity)
    else match UnsignedDecimal(body)
      case Some(x) => Finite(if negative then -x else x)
      case None => NaN
  }

  /** `Number(v)`, as the relational operators apply it to a non-string
      operand compared with a number. */
  function ToNumber(v: JsValue): Numeric {
    match v
    case Undefined => NaN
    case Null => Finite(0.0)
    case Bool(b) => Finite(if b then 1.0 else 0.0)
    case Num(n) => Finite(n)
    case Str(s) => StringToNumber(s)
    case Obj => NaN
  }

  /** `v < k` for a number `k`: false whenever `v` converts to NaN. */
  function LessThan(v: JsValue, k: real): (b: bool)
    ensures v.Num? ==> (b <==> v.n < k)
    ensures v.Undefined? || v.Obj? ==> !b
    ensures v.Null? ==> (b <==> 0.0 < k)
    ensures v.Bool? ==> (b <==> (if v.b then 1.0 else 0.0) < k)
    ensures v.Str? && AllWhitespace(v.s) ==> (b <==> 0.0 < k)
  {
    if v.Str? then TrimEmptyIffBlank(v.s); LessThanNumeric(v, k) else LessThanNumeric(v, k)
  }

  /** `v < k` on the converted value. */
  predicate LessThanNumeric(v: JsValue, k: real) {
    match ToNumber(v)
    case Finite(x) => x < k
    case NegInfinity => true
    case PosInfinity => false
    case NaN => false
  }

  /** A string of decimal digits compares by the number it spells. */
  lemma LessThanDigitString(s: string, k: real)
    requires |s| > 0 && AllDigits(s)
    ensures AllRadixDigits(s, 10)
    ensures LessThan(Str(s), k) <==> (DigitsValue(s, 10) as real) < k
  {
    StringToNumberOfDigits(s);
    assert ToNumber(Str(s)) == Finite(DigitsValue(s, 10) as real);
    assert LessThan(Str(s), k) == LessThanNumeric(Str(s), k);
  }

  lemma StringToNumberOfDigits(s: string)
    requires |s| > 0 && AllDigits(s)
    ensures AllRadixDigits(s, 10)
    ensures StringToNumber(s) == Finite(DigitsValue(s, 10) as real)
  {
    TrimOfDigits(s);
    TrimmedDigitsToNumber(s);
  }

  lemma TrimmedDigitsToNumber(s: string)
    requires |s| > 0 && AllDigits(s)
    ensures AllRadixDigits(s, 10)
    ensures TrimmedToNumber(s) == Finite(DigitsValue(s, 10) as real)
  {
    UnsignedDecimalOfDigits(s);
    assert s[0] != '-' && s[0] != '+';
    assert !(|s| >= 2 && s[0] == '0' && (s[1] == 'x' || s[1] == 'X'));
    assert s != "Infinity" by {
      assert "Infinity"[0] == 'I';
    }
  }

  lemma TrimOfDigits(s: string)
    requires |s| > 0 && AllDigits(s)
    ensures Trim(s) == s
  {
    assert TrimStart(s) == s;
    assert !IsJsWhitespace(s[|s| - 1]);
  }

  lemma UnsignedDecimalOfDigits(s: string)
    requires |s| > 0 && AllDigits(s)
    ensures AllRadixDigits(s, 10)
    ensures UnsignedDecimal(s) == Some(DigitsValue(s, 10) as real)
  {
    LeadingDigitsOfDigits(s);
    assert s[|s|..] == [];
  }
}
