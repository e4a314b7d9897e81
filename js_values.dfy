/**
 * The slice of JavaScript's value semantics that the handlers rely on:
 * JSON values as `JSON.parse` yields them, `undefined`, truthiness,
 * `||`, `??`, property reads that throw on `null`/`undefined`,
 * optional chaining, `Number(...)` and `Math.round`.
 */
module JsValues {

  datatype Option<T> = None | Some(value: T)

  datatype Result<T, E> = Ok(value: T) | Err(error: E)

  /** A JSON value. Numbers are exact reals (IEEE doubles are not modelled). */
  datatype Json =
    | JNull
    | JBool(b: bool)
    | JNum(n: real)
    | JStr(s: string)
    | JArr(items: seq<Json>)
    | JObj(fields: map<string, Json>)

  /**
   * `JSON.parse`: the parsed value, or the message of the SyntaxError it
   * throws. It is left uninterpreted: every property proved holds for
   * every parser.
   */
  type JsonParser = string -> Result<Json, string>

  /** A JavaScript value that may also be `undefined`. */
  datatype Value = Undefined | Defined(json: Json)

  predicate IsNullish(v: Value) {
    v == Undefined || v == Defined(JNull)
  }

  /** JavaScript truthiness of a value. */
  predicate Truthy(v: Value) {
    match v
    case Undefined => false
    case Defined(JNull) => false
    case Defined(JBool(b)) => b
    case Defined(JNum(n)) => n != 0.0
    case Defined(JStr(s)) => s != ""
    case Defined(_) => true
  }

  /** `a || b` */
  function Or(a: Value, b: Value): Value {
    if Truthy(a) then a else b
  }

  /** `a ?? b` */
  function Coalesce(a: Value, b: Value): Value {
    if IsNullish(a) then b else a
  }

  /** `v.name` on a value that is neither null nor undefined. */
  function Field(v: Value, name: string): Value {
    match v
    case Defined(JObj(m)) => if name in m then Defined(m[name]) else Undefined
    case _ => Undefined
  }

  /** `v.name`: `None` stands for the TypeError thrown when `v` is null or undefined. */
  function Get(v: Value, name: string): Option<Value> {
    if IsNullish(v) then None else Some(Field(v, name))
  }

  /** `v?.name` */
  function OptGet(v: Value, name: string): Value {
    if IsNullish(v) then Undefined else Field(v, name)
  }

  function Str(s: string): Value {
    Defined(JStr(s))
  }

  /** The result of JavaScript's `Number(...)`. */
  datatype Num = Finite(x: real) | NotFinite

  /**
   * `Number(v)`. Strings go through `textToNumber` (JavaScript's
   * StringToNumber grammar is not modelled).
   */
  function ToNumber(v: Value, textToNumber: string -> Num): Num {
    match v
    case Undefined => NotFinite
    case Defined(j) => JsonToNumber(j, textToNumber)
  }

  /**
   * `Number(j)` for a JSON value. An array converts through its joined
   * text: empty it is "" (0), with one element it is that element's text
   * (a boolean's "true"/"false" is NaN), with more it holds a comma (NaN).
   * Objects give NaN.
   */
  function JsonToNumber(j: Json, textToNumber: string -> Num): Num {
    match j
    case JNull => Finite(0.0)
    case JBool(b) => Finite(if b then 1.0 else 0.0)
    case JNum(n) => Finite(n)
    case JStr(s) => textToNumber(s)
    case JArr(items) =>
      if items == [] then Finite(0.0)
      else if |items| == 1 && !items[0].JBool? then JsonToNumber(items[0], textToNumber)
      else NotFinite
    case JObj(_) => NotFinite
  }

  /** A one-element array converts as its element does, except a boolean; a longer one is NaN. */
  lemma ArrayToNumber(items: seq<Json>, textToNumber: string -> Num)
    ensures |items| == 1 && !items[0].JBool? ==>
              ToNumber(Defined(JArr(items)), textToNumber) == ToNumber(Defined(items[0]), textToNumber)
    ensures |items| == 1 && items[0].JBool? ==> ToNumber(Defined(JArr(items)), textToNumber) == NotFinite
    ensures |items| >= 2 ==> ToNumber(Defined(JArr(items)), textToNumber) == NotFinite
  {
  }

  /**
   * `Math.round(x)`: the integer nearest to `x`, halves rounding up.
   */
  function Round(x: real): (r: int)
    ensures r as real - 0.5 <= x < r as real + 0.5
  {
    (x + 0.5).Floor
  }

  /** A positive number rounds to a non-negative integer, and to zero exactly below one half. */
  lemma RoundPositive(x: real)
    requires x > 0.0
    ensures Round(x) >= 0
    ensures Round(x) == 0 <==> x < 0.5
  {
  }
}
