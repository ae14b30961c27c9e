/** The fragment of JavaScript's value semantics that the share widget relies on:
    truthiness, string conversion in template literals, property reads and the
    shallow copy performed by `Object.assign`. */
module JsValues {

  datatype Option<T> = None | Some(value: T)

  /** A JavaScript value as it can appear in share arguments. Numbers are
      integers here; arrays and functions are not represented. */
  datatype Value =
    | Undefined
    | Null
    | Bool(b: bool)
    | Num(n: int)
    | Str(s: string)
    | Obj(fields: map<string, Value>)

  /** A plain object, seen through its own enumerable properties. */
  type JsObject = map<string, Value>

  /** ToBoolean: undefined, null, false, 0 and "" are the falsy values; every object is truthy. */
  predicate Truthy(v: Value) {
    match v
    case Undefined => false
    case Null => false
    case Bool(b) => b
    case Num(n) => n != 0
    case Str(s) => s != ""
    case Obj(_) => true
  }

  /** `o[k]` on a plain object: a missing property reads as undefined. */
  function Get(o: JsObject, k: string): Value {
    if k in o then o[k] else Undefined
  }

  /** `v[k]` on a value that is neither undefined nor null (those throw a TypeError).
      Primitives have no own properties of their own in this model. */
  function Member(v: Value, k: string): Value
    requires !v.Undefined? && !v.Null?
  {
    match v
    case Obj(m) => Get(m, k)
    case _ => Undefined
  }

  /** The own enumerable properties that `Object.assign` copies out of a source:
      undefined and null sources are skipped, booleans and numbers have none. */
  function Own(v: Value): JsObject {
    match v
    case Obj(m) => m
    case _ => map[]
  }

  /** `Object.assign(target, source)` on a fresh target: every own property of the
      source overwrites the target's property of the same name. */
  function Assign(target: JsObject, source: Value): JsObject {
    target + Own(source)
  }

  function DigitChar(d: nat): char
    requires d < 10
  {
    "0123456789"[d]
  }

  function NatDigits(n: nat): string
    decreases n
  {
    if n < 10 then [DigitChar(n)] else NatDigits(n / 10) + [DigitChar(n % 10)]
  }

  /** ToString, as a template literal `${v}` applies it. */
  function ToString(v: Value): string {
    match v
    case Undefined => "undefined"
    case Null => "null"
    case Bool(b) => if b then "true" else "false"
    case Num(n) => if n < 0 then "-" + NatDigits(-n) else NatDigits(n)
    case Str(s) => s
    case Obj(_) => "[object Object]"
  }
}
