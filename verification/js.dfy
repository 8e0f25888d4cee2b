/** Values of the JavaScript runtime that the handlers branch on: optional
    values (`null`/`undefined`), numbers with their NaN and infinite cases,
    truthiness, and the `error.message || fallback` idiom. */
module Js {

  /** `T | null | undefined`. */
  datatype Option<+T> = None | Some(value: T) {
    function GetOr(default: T): T {
      match this
      case Some(v) => v
      case None => default
    }
  }

  /** Outcome of an awaited call: it resolved, or it threw an error carrying
      a (possibly empty) message. */
  datatype Outcome = Done | Threw(message: string)

  /** A JavaScript number. Finite values are exact reals (no IEEE rounding
      is modelled); NaN and the two infinities are kept because `parseFloat`
      and `Number` produce them. */
  datatype Num = NaN | Inf(negative: bool) | Fin(v: real)

  /** `!!s` for a string. */
  predicate TruthyStr(s: string) {
    s != []
  }

  /** `!!x` for an optional string. */
  predicate TruthyOptStr(x: Option<string>) {
    x.Some? && x.value != []
  }

  /** `!!n` for an optional number. */
  predicate TruthyOptInt(x: Option<int>) {
    x.Some? && x.value != 0
  }

  /** `x || fallback` where `x` is an optional string. */
  function OrElse(x: Option<string>, fallback: string): (r: string)
    ensures TruthyOptStr(x) ==> r == x.value
    ensures !TruthyOptStr(x) ==> r == fallback
  {
    if x.Some? && x.value != [] then x.value else fallback
  }

  /** `(error as Error).message || fallback`. */
  function MessageOr(message: string, fallback: string): (r: string)
    ensures message != [] ==> r == message
    ensures message == [] ==> r == fallback
  {
    if message != [] then message else fallback
  }

  /** `n <= 0`; every comparison with NaN is false. */
  predicate AtMostZero(n: Num) {
    match n
    case NaN => false
    case Inf(neg) => neg
    case Fin(v) => v <= 0.0
  }

  /** `n > bound` for a finite bound. */
  predicate Exceeds(n: Num, bound: real) {
    match n
    case NaN => false
    case Inf(neg) => !neg
    case Fin(v) => v > bound
  }

  /** `Math.round(x)`: the nearest integer, halves rounded up. */
  function Round(x: real): (r: int)
    ensures x - 0.5 < r as real <= x + 0.5
  {
    (x + 0.5).Floor
  }

  /** Truncation toward zero, which is what `parseInt` does to the decimal
      text of a finite number. */
  function Trunc(x: real): (r: int)
    ensures 0.0 <= x ==> 0 <= r && r as real <= x < r as real + 1.0
    ensures x < 0.0 ==> r <= 0 && r as real - 1.0 < x <= r as real
  {
    if x >= 0.0 then x.Floor else -((-x).Floor)
  }

  /** `a * b` on JavaScript numbers, for a finite right operand. */
  function MulFin(a: Num, b: real): (r: Num)
    ensures a.NaN? ==> r.NaN?
    ensures a.Fin? ==> r == Fin(a.v * b)
  {
    match a
    case NaN => NaN
    case Fin(_) => Fin(a.v * b)
    case Inf(neg) =>
      if b == 0.0 then NaN
      else Inf(if b > 0.0 then neg else !neg)
  }

  /** `b + a` on JavaScript numbers, for a finite left operand. */
  function AddFin(b: real, a: Num): (r: Num)
    ensures a.Fin? ==> r == Fin(b + a.v)
    ensures !a.Fin? ==> r == a
  {
    match a
    case Fin(x) => Fin(b + x)
    case _ => a
  }
}
