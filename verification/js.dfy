/**
 * The few JavaScript value rules the screens depend on: truthiness, `Number(x)`,
 * `x || d` and `s.trim() === ''`. Form inputs hold strings, documents may hold
 * strings, numbers or nothing, so a numeric field is one of the cases of `JsNum`.
 */
module Js {
  import opened Common

  datatype JsNum =
    | Missing          // undefined: the field is absent
    | Blank            // the empty string ''
    | Text(v: real)    // a non-empty string that Number() reads as v (for instance "0" or "12.50")
    | Garbage          // a non-empty string that Number() reads as NaN (for instance "NaN")
    | Number(v: real)  // a number other than NaN
    | NaN              // the number NaN

  /** JavaScript truthiness: '' , 0, NaN and undefined are falsy; every non-empty string is truthy. */
  predicate Truthy(x: JsNum) {
    match x
    case Missing => false
    case Blank => false
    case Text(_) => true
    case Garbage => true
    case Number(v) => v != 0.0
    case NaN => false
  }

  /** `Number(x)`, with None standing for NaN. */
  function ToNumber(x: JsNum): Option<real> {
    match x
    case Missing => None
    case Blank => Some(0.0)
    case Text(v) => Some(v)
    case Garbage => None
    case Number(v) => Some(v)
    case NaN => None
  }

  /** `Number(x)` as a stored value: a number, or NaN. */
  function Coerce(x: JsNum): (r: JsNum)
    ensures r.Number? || r.NaN?
    ensures ToNumber(r) == ToNumber(x)
    ensures Truthy(r) <==> ToNumber(x).Some? && ToNumber(x).value != 0.0
  {
    match ToNumber(x)
    case Some(v) => Number(v)
    case None => NaN
  }

  /** `x || d`. */
  function Or(x: JsNum, d: JsNum): JsNum {
    if Truthy(x) then x else d
  }

  /** `Number(x) || d`: the number x reads as, unless that is 0 or NaN. */
  function NumberOr(x: JsNum, d: real): (r: real)
    ensures ToNumber(x).Some? && ToNumber(x).value != 0.0 ==> r == ToNumber(x).value
    ensures ToNumber(x).None? || ToNumber(x).value == 0.0 ==> r == d
  {
    match ToNumber(x)
    case Some(v) => if v != 0.0 then v else d
    case None => d
  }

  /** `x > n` for a number n: x is converted with `Number`, and NaN compares false. */
  predicate GreaterThan(x: JsNum, n: real) {
    ToNumber(x).Some? && ToNumber(x).value > n
  }

  /** The characters `String.prototype.trim` removes: WhiteSpace and LineTerminator of ECMAScript. */
  predicate IsJsSpace(c: char) {
    c == ' ' || c == '\t' || c == '\n' || c == '\r' || c == '\U{B}' || c == '\U{C}'
    || c == '\U{A0}' || c == '\U{1680}' || ('\U{2000}' <= c <= '\U{200A}')
    || c == '\U{2028}' || c == '\U{2029}' || c == '\U{202F}' || c == '\U{205F}'
    || c == '\U{3000}' || c == '\U{FEFF}'
  }

  /** `s.trim() === ''`. */
  predicate IsBlank(s: string) {
    forall i :: 0 <= i < |s| ==> IsJsSpace(s[i])
  }
}
