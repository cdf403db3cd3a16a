/**
 * The few pieces of JavaScript value semantics the frontend relies on:
 * optional values (`undefined` and `null` both become `None`), truthiness as
 * used by `||` fallbacks, default parameters, and `Array.prototype.map`.
 */
module Js {

  datatype Option<+T> = None | Some(value: T)

  /** A string operand of `||` or `&&` is falsy when absent or `''`. */
  predicate StringTruthy(s: Option<string>) {
    s.Some? && s.value != ""
  }

  /** A number operand is falsy when absent or `0` (NaN is not modelled). */
  predicate NumberTruthy(n: Option<int>) {
    n.Some? && n.value != 0
  }

  /** A fractional number operand is falsy when absent or `0`. */
  predicate RealTruthy(n: Option<real>) {
    n.Some? && n.value != 0.0
  }

  /** A boolean operand is falsy when absent or `false`. */
  predicate BoolTruthy(b: Option<bool>) {
    b == Some(true)
  }

  /** `a || fallback` for a number; `0` falls through like `undefined`. */
  function NumberOr(a: Option<int>, fallback: int): (r: int)
    ensures r == fallback || (a.Some? && r == a.value)
    ensures a == Some(0) ==> r == fallback
  {
    if NumberTruthy(a) then a.value else fallback
  }

  /** `a || b` for two optional strings: `''` falls through. */
  function StringOr(a: Option<string>, b: Option<string>): (r: Option<string>)
    ensures r == a || r == b
    ensures a == Some("") ==> r == b
  {
    if StringTruthy(a) then a else b
  }

  /** `a || false` for a boolean. */
  function BoolOrFalse(a: Option<bool>): (r: bool)
    ensures r <==> a == Some(true)
  {
    BoolTruthy(a)
  }

  /**
   * The value, or `d` when it is missing: a default parameter `p = d` (only
   * `undefined` is replaced, `0` is kept), and `a || d` where `a` is an array
   * or an object, which is truthy even when empty.
   */
  function ValueOr<T>(a: Option<T>, d: T): (r: T)
    ensures a.Some? ==> r == a.value
    ensures a.None? ==> r == d
  {
    if a.Some? then a.value else d
  }

  /** `Array.prototype.map`: same length, same order, element by element. */
  function MapSeq<A, B>(f: A -> B, xs: seq<A>): (ys: seq<B>)
    ensures |ys| == |xs|
    ensures forall i :: 0 <= i < |xs| ==> ys[i] == f(xs[i])
  {
    if xs == [] then [] else [f(xs[0])] + MapSeq(f, xs[1..])
  }
}
