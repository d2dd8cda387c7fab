/**
 * JavaScript values as the agents and handlers of the web front-end see them:
 * JSON-decoded response bodies and option objects, plus `undefined`, with the
 * three pieces of JavaScript semantics the core depends on: truthiness,
 * property reads and string conversion (`String(v)`, `'text' + v`,
 * `new Error(v).message`).
 */
module JsValue {

  datatype Option<+T> = None | Some(value: T)

  /** A JavaScript value. Numbers are integers here (see README). */
  datatype Value =
    | Undefined
    | Null
    | Bool(b: bool)
    | Num(n: int)
    | Str(s: string)
    | Arr(elems: seq<Value>)
    | Obj(fields: map<string, Value>)

  /** `undefined` and `null`: the values whose properties cannot be read. */
  predicate Nullish(v: Value) {
    v.Undefined? || v.Null?
  }

  /** JavaScript truthiness (`if (v)`, `v || d`). */
  predicate Truthy(v: Value) {
    match v
    case Undefined => false
    case Null => false
    case Bool(b) => b
    case Num(n) => n != 0
    case Str(s) => s != ""
    case Arr(_) => true
    case Obj(_) => true
  }

  /** `v || d` */
  function Or(v: Value, d: Value): (r: Value)
    ensures Truthy(v) ==> r == v
    ensures !Truthy(v) ==> r == d
  {
    if Truthy(v) then v else d
  }

  /**
   * The property read `v.key` for the data keys the core reads: an object's
   * own field, else `undefined`. Reading a property of `null` or `undefined`
   * throws, so callers must rule those out.
   */
  function Prop(v: Value, key: string): (r: Value)
    requires !Nullish(v)
    ensures v.Obj? && key in v.fields ==> r == v.fields[key]
    ensures !(v.Obj? && key in v.fields) ==> r == Undefined
  {
    if v.Obj? && key in v.fields then v.fields[key] else Undefined
  }

  function DigitChar(d: nat): (c: char)
    requires d < 10
  {
    "0123456789"[d]
  }

  /** The decimal digits of `n`, most significant first, without leading zeros. */
  function NatDigits(n: nat): (s: string)
    ensures |s| > 0
    decreases n
  {
    if n < 10 then [DigitChar(n)] else NatDigits(n / 10) + [DigitChar(n % 10)]
  }

  /** JavaScript's `String(n)` for an integer. */
  function DecimalString(n: int): string {
    if n < 0 then "-" + NatDigits(-n) else NatDigits(n)
  }

  /**
   * The string conversion JavaScript applies in `String(v)`, in `s + v` and
   * in `new Error(v)` for every `v` but `undefined`. An array joins its
   * elements with commas, `null` and `undefined` elements becoming empty.
   */
  function ToJsString(v: Value): string
    decreases v, 1
  {
    match v
    case Undefined => "undefined"
    case Null => "null"
    case Bool(b) => if b then "true" else "false"
    case Num(n) => DecimalString(n)
    case Str(s) => s
    case Arr(es) => JoinElements(es)
    case Obj(_) => "[object Object]"
  }

  function JoinElements(es: seq<Value>): string
    decreases es, 0
  {
    if es == [] then ""
    else
      var head := if Nullish(es[0]) then "" else ToJsString(es[0]);
      if |es| == 1 then head else head + "," + JoinElements(es[1..])
  }

  /** `new Error(v).message`: empty for `undefined`, else `String(v)`. */
  function ErrorMessage(v: Value): (m: string)
    ensures v.Str? ==> m == v.s
    ensures v.Undefined? ==> m == ""
  {
    if v.Undefined? then "" else ToJsString(v)
  }
}
