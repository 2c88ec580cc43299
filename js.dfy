/** The few JavaScript value semantics the payment controller relies on:
    optional values, truthiness of optional strings, property reads that may
    yield `undefined`, and template-literal text. */
module Js {

  datatype Option<+T> = None | Some(value: T)

  /** A scalar property value of a plain JavaScript object. */
  datatype JsValue = Str(s: string) | Num(n: int) | Undefined

  /** A plain object: property name to value. */
  type JsObject = map<string, JsValue>

  /** `!!v` for an optional string field: `undefined`, `null` and `""` are falsy. */
  predicate Truthy(v: Option<string>)
  {
    v.Some? && v.value != ""
  }

  /** `obj[key]`: a missing property reads as `undefined`. */
  function Get(obj: JsObject, key: string): JsValue
  {
    if key in obj then obj[key] else Undefined
  }

  function Digit(d: nat): char
    requires d < 10
  {
    "0123456789"[d]
  }

  predicate AllDigits(s: string)
  {
    forall i :: 0 <= i < |s| ==> '0' <= s[i] <= '9'
  }

  /** The number a string of decimal digits denotes. */
  function DigitsValue(s: string): nat
    requires AllDigits(s)
  {
    if s == [] then 0 else 10 * DigitsValue(s[..|s| - 1]) + (s[|s| - 1] as int - '0' as int)
  }

  /** Decimal digits of a natural number, most significant first: reading
      them back gives the number, and only zero starts with a `0`. */
  function DecimalText(n: nat): (r: string)
    ensures |r| >= 1 && AllDigits(r)
    ensures DigitsValue(r) == n
    ensures r[0] == '0' ==> n == 0
  {
    if n < 10 then [Digit(n)]
    else
      var prefix := DecimalText(n / 10);
      var r := prefix + [Digit(n % 10)];
      assert r[..|r| - 1] == prefix;
      r
  }

  /** The text that `${v}` inserts for `v`. */
  function TemplateText(v: JsValue): string
  {
    match v
    case Str(s) => s
    case Num(n) => if n < 0 then "-" + DecimalText(-n) else DecimalText(n)
    case Undefined => "undefined"
  }

  /** The properties of `obj` whose value is not `undefined`. */
  function Defined(obj: JsObject): JsObject
  {
    map k | k in obj && !obj[k].Undefined? :: obj[k]
  }

  /** Setting a property to `undefined` removes it from the defined
      properties; setting it to anything else adds or replaces it there. */
  lemma DefinedUpdate(obj: JsObject, key: string, v: JsValue)
    ensures v.Undefined? ==> Defined(obj[key := v]) == Defined(obj) - {key}
    ensures !v.Undefined? ==> Defined(obj[key := v]) == Defined(obj)[key := v]
  {
  }
}
