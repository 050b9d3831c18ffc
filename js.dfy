/**
 * The slice of JavaScript's value semantics the router bridge relies on:
 * plain objects used as records, truthiness (`||`, `!x`), strict equality
 * (`===`, identity for objects) and the copy made by object spread.
 */
module Js {

  datatype Option<+T> = None | Some(value: T)

  /** The outcome of a JavaScript call: a returned value or a thrown error. */
  datatype Completion<+T> = Returned(value: T) | Threw(error: string)

  /**
   * A JavaScript value. An object carries an identity `id` next to its own
   * properties: two object values are the same object exactly when their ids
   * agree. Arrays are compared structurally here; no `===` in the core is
   * applied to an array.
   */
  datatype Value =
    | Undefined
    | Null
    | Bool(b: bool)
    | Num(n: int)
    | Str(s: string)
    | Arr(items: seq<Value>)
    | Obj(id: nat, props: map<string, Value>)

  /** A plain object seen through its own enumerable properties. */
  type Record = map<string, Value>

  /** Property read `r.key`: a missing property reads as `undefined`. */
  function Get(r: Record, key: string): Value {
    if key in r then r[key] else Undefined
  }

  /** JavaScript truthiness (NaN is not modelled). */
  predicate Truthy(v: Value) {
    match v
    case Undefined => false
    case Null => false
    case Bool(b) => b
    case Num(n) => n != 0
    case Str(s) => s != ""
    case Arr(_) => true
    case Obj(_, _) => true
  }

  /** `a || b`: the left operand when it is truthy, otherwise the right one. */
  function Or(a: Value, b: Value): (r: Value)
    ensures r == a || r == b
    ensures Truthy(r) <==> Truthy(a) || Truthy(b)
  {
    if Truthy(a) then a else b
  }

  /** `a === b`: objects by identity, every other value by its contents. */
  predicate StrictEquals(a: Value, b: Value) {
    if a.Obj? && b.Obj? then a.id == b.id else a == b
  }

  lemma StrictEqualsIsEquivalence(a: Value, b: Value, c: Value)
    ensures StrictEquals(a, a)
    ensures StrictEquals(a, b) ==> StrictEquals(b, a)
    ensures StrictEquals(a, b) && StrictEquals(b, c) ==> StrictEquals(a, c)
  {
  }

  /**
   * The properties that `{ ...v }` and `Object.assign({}, v)` copy out of a
   * source value: those of an object; nothing out of `undefined`, `null`,
   * booleans and numbers.
   */
  function OwnProps(v: Value): Record {
    if v.Obj? then v.props else map[]
  }

  /** `String(v)` for the values that reach a string conversion in the core. */
  function ToJsString(v: Value): (r: string)
    ensures v.Str? ==> r == v.s
  {
    match v
    case Undefined => "undefined"
    case Null => "null"
    case Bool(b) => if b then "true" else "false"
    case Num(n) => if n < 0 then "-" + NatToDecimal(-n) else NatToDecimal(n)
    case Str(s) => s
    case Arr(items) => Join(items)
    case Obj(_, _) => "[object Object]"
  }

  /** `Array.prototype.join(",")`: `undefined` and `null` elements print as "". */
  function Join(items: seq<Value>): string
    decreases items
  {
    if |items| == 0 then ""
    else
      var first := if items[0].Undefined? || items[0].Null? then "" else ToJsString(items[0]);
      if |items| == 1 then first else first + "," + Join(items[1..])
  }

  function NatToDecimal(n: nat): (r: string)
    ensures |r| > 0
    decreases n
  {
    var digit := ["0123456789"[n % 10]];
    if n < 10 then digit else NatToDecimal(n / 10) + digit
  }
}
