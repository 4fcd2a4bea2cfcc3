/**
 * JavaScript runtime values as the narrowing examples observe them: the
 * `typeof` operator, truthiness, property access, the `in` operator, template
 * interpolation and Array.prototype.includes.
 */
module JsValue {
  import Decimal

  /** An optional parameter or field: None stands for `undefined`. */
  datatype Option<+T> = None | Some(value: T)

  /** Numbers are integral here; objects are maps from own keys to values. */
  datatype Value =
    | Str(s: string)
    | Num(n: int)
    | Bool(b: bool)
    | Null
    | Undefined
    | Obj(props: map<string, Value>)

  /** An `Error` object, as thrown by `throw new Error(message)`. */
  datatype JsError = Error(message: string)

  /** How a call ends: with a value, or by throwing. */
  datatype Completion<+T> = Normal(value: T) | Threw(error: JsError)

  /** The `typeof` operator; note that `typeof null` is "object". */
  function TypeOf(v: Value): (r: string)
    ensures r == "object" <==> v.Null? || v.Obj?
    ensures r == "string" <==> v.Str?
    ensures r == "number" <==> v.Num?
  {
    match v
    case Str(_) => "string"
    case Num(_) => "number"
    case Bool(_) => "boolean"
    case Null => "object"
    case Undefined => "undefined"
    case Obj(_) => "object"
  }

  /** What `if (v)` tests: "", 0, false, null and undefined are falsy. */
  function Truthy(v: Value): (r: bool)
    ensures !r <==> v in {Str(""), Num(0), Bool(false), Null, Undefined}
  {
    match v
    case Str(s) => s != ""
    case Num(n) => n != 0
    case Bool(b) => b
    case Null => false
    case Undefined => false
    case Obj(_) => true
  }

  /** An optional string parameter as the value the function body sees. */
  function OptionalString(o: Option<string>): (v: Value)
    ensures v.Str? || v.Undefined?
  {
    match o
    case Some(s) => Str(s)
    case None => Undefined
  }

  /** Property read `v.key` on an object: a missing key reads as undefined. */
  function Get(v: Value, key: string): (r: Value)
    requires v.Obj?
    ensures key in v.props ==> r == v.props[key]
    ensures key !in v.props ==> r == Undefined
  {
    if key in v.props then v.props[key] else Undefined
  }

  /** The `key in v` operator on an object: presence of the key, whatever its value. */
  function HasProperty(v: Value, key: string): (r: bool)
    requires v.Obj?
    ensures r <==> key in v.props
    ensures Get(v, key) != Undefined ==> r
    ensures (r && v.props[key] == Undefined) ==> Get(v, key) == Undefined
  {
    key in v.props
  }

  /** `${v}` inside a template literal (String(v)). */
  function ToJsString(v: Value): (r: string)
    ensures v.Str? ==> r == v.s
    ensures v.Num? ==> r == Decimal.IntToDecimal(v.n)
  {
    match v
    case Str(s) => s
    case Num(n) => Decimal.IntToDecimal(n)
    case Bool(b) => if b then "true" else "false"
    case Null => "null"
    case Undefined => "undefined"
    case Obj(_) => "[object Object]"
  }

  /** Array.prototype.includes: a scan from the front for an equal element. */
  function Includes<T(==)>(xs: seq<T>, x: T): (r: bool)
    ensures r <==> exists i :: 0 <= i < |xs| && xs[i] == x
  {
    if xs == [] then false
    else if xs[0] == x then true
    else Includes(xs[1..], x)
  }
}
