/**
 * The JavaScript values that reach the handlers through a JSON request body or a
 * form field, JavaScript truthiness, and the coercions the handlers apply to them.
 * Parsing a string as a number or a date, and printing a number, are left abstract:
 * they are supplied as a `Coercions` value.
 */
module Js {
  import opened Wrappers

  datatype Value = Undefined | Null | Bool(b: bool) | Num(x: real) | NaN | Str(s: string)

  /** `!!v`: undefined, null, false, 0, NaN and the empty string are falsy. */
  predicate Truthy(v: Value)
  {
    match v
    case Undefined => false
    case Null => false
    case Bool(b) => b
    case Num(x) => x != 0.0
    case NaN => false
    case Str(s) => s != ""
  }

  /**
   * `x || d` on an integer read from a request (`parseInt(v)`, `error.status`): a missing
   * value, which stands for undefined or NaN, and 0 are falsy.
   */
  function IntOr(x: Option<int>, d: int): (r: int)
    ensures x.Some? && x.value != 0 ==> r == x.value
    ensures x.None? || x.value == 0 ==> r == d
  {
    if x.Some? && x.value != 0 then x.value else d
  }

  /** String parsing and number printing, which the model does not look inside. */
  datatype Coercions = Coercions(
    parseNumber: string -> Option<real>,   // Number(s); None is NaN
    parseDate: string -> Option<int>,      // Date.parse(s) in milliseconds; None is an Invalid Date
    showNumber: real -> string)            // String(x) for a finite number x

  /** `Number(v)`, with None standing for NaN. */
  function ToNumber(v: Value, co: Coercions): (r: Option<real>)
    ensures v.Num? ==> r == Some(v.x)
    ensures v.Undefined? || v.NaN? ==> r == None
  {
    match v
    case Undefined => None
    case Null => Some(0.0)
    case Bool(b) => Some(if b then 1.0 else 0.0)
    case Num(x) => Some(x)
    case NaN => None
    case Str(s) => co.parseNumber(s)
  }

  /** The largest absolute time value a JavaScript Date can hold (section 21.4.1.1 of ECMA-262). */
  const MaxTimeValue: real := 8640000000000000.0

  /** Truncation toward zero, as ToIntegerOrInfinity does. */
  function Truncate(x: real): (r: int)
    ensures r as real <= x < r as real + 1.0 || r as real - 1.0 < x <= r as real
    ensures x >= 0.0 ==> r >= 0
  {
    if x >= 0.0 then x.Floor else -((-x).Floor)
  }

  /** `new Date(v).getTime()` rounded to milliseconds; None is an Invalid Date (TimeClip gives NaN). */
  function ToDate(v: Value, co: Coercions): (r: Option<int>)
    ensures v.Undefined? || v.NaN? ==> r == None
  {
    match v
    case Str(s) => co.parseDate(s)
    case _ =>
      match ToNumber(v, co)
      case None => None
      case Some(x) => if x > MaxTimeValue || x < -MaxTimeValue then None else Some(Truncate(x))
  }

  /** `String(v)`. */
  function ToStr(v: Value, co: Coercions): (r: string)
    ensures v.Str? ==> r == v.s
  {
    match v
    case Undefined => "undefined"
    case Null => "null"
    case Bool(b) => if b then "true" else "false"
    case Num(x) => co.showNumber(x)
    case NaN => "NaN"
    case Str(s) => s
  }

  /** `a >= b` and `a > b` on two Dates: an Invalid Date makes every comparison false. */
  predicate DateAtLeast(a: Option<int>, b: Option<int>)
  {
    a.Some? && b.Some? && a.value >= b.value
  }

  predicate DateAfter(a: Option<int>, b: Option<int>)
  {
    a.Some? && b.Some? && a.value > b.value
  }

  /**
   * A thrown JavaScript error: its `name` ("Error", "CastError", "ValidationError", ...), the
   * optional `status` property the services attach, and its message.
   */
  datatype Error = Error(name: string, status: Option<int>, message: string)

  /** A plain `new Error(message)` with a `status` property, as the services throw them. */
  function StatusError(status: int, message: string): (e: Error)
    ensures e.status == Some(status) && e.message == message && e.name == "Error"
  {
    Error("Error", Some(status), message)
  }
}
