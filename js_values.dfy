/**
 * The untyped values a JavaScript caller can hand to the SDK, with the two
 * operations the validators of src/index.ts apply to them: `typeof`, the
 * truthiness test behind `!x`, the `in` operator and a string's `length`.
 */
module JsValues {

  /** A JavaScript number: a finite value, NaN, or one of the two infinities. */
  datatype Number = Finite(r: real) | NaN | Infinity(negative: bool)

  /**
   * A JavaScript value. Objects (arrays included) are their own enumerable
   * properties; the prototype chain is not part of the model.
   */
  datatype Value =
    | Undefined
    | Null
    | Bool(b: bool)
    | Num(n: Number)
    | BigInt(i: int)
    | Str(s: string)
    | Symbol(description: string)
    | Function
    | Object(properties: map<string, Value>)

  /** The result of the `typeof` operator. */
  function TypeOf(v: Value): (t: string)
    ensures t == "object" <==> v.Null? || v.Object?
    ensures t == "string" <==> v.Str?
    ensures t == "number" <==> v.Num?
  {
    match v
    case Undefined => "undefined"
    case Null => "object"
    case Bool(_) => "boolean"
    case Num(_) => "number"
    case BigInt(_) => "bigint"
    case Str(_) => "string"
    case Symbol(_) => "symbol"
    case Function => "function"
    case Object(_) => "object"
  }

  /** ToBoolean: the values for which `!v` is false. */
  predicate Truthy(v: Value)
  {
    match v
    case Undefined => false
    case Null => false
    case Bool(b) => b
    case Num(n) => n.Infinity? || (n.Finite? && n.r != 0.0)
    case BigInt(i) => i != 0
    case Str(s) => s != ""
    case Symbol(_) => true
    case Function => true
    case Object(_) => true
  }

  /** The `in` operator on an object value: `key in v`. */
  predicate HasProperty(v: Value, key: string)
  {
    v.Object? && key in v.properties
  }

  /** The number of UTF-16 code units `c` takes: two beyond the Basic Multilingual Plane. */
  function CodeUnits(c: char): (n: nat)
    ensures n == 1 <==> (c as int) < 0x1_0000
    ensures 1 <= n <= 2
  {
    if (c as int) < 0x1_0000 then 1 else 2
  }

  /**
   * A string's `length` in JavaScript: UTF-16 code units, not characters.
   * It equals the number of characters when none lies beyond U+FFFF.
   */
  function Utf16Length(s: string): (n: nat)
    ensures |s| <= n <= 2 * |s|
    ensures n == |s| <==> forall i :: 0 <= i < |s| ==> (s[i] as int) < 0x1_0000
  {
    if s == [] then 0
    else
      var init := s[..|s| - 1];
      assert forall i :: 0 <= i < |init| ==> init[i] == s[i];
      Utf16Length(init) + CodeUnits(s[|s| - 1])
  }

  /** Property read `v[key]` on an object that has the property. */
  function Property(v: Value, key: string): (property: Value)
    requires HasProperty(v, key)
  {
    v.properties[key]
  }
}
