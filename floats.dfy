/**
  The floating-point values that numpy holds in the dataset, as far as the
  quality control and the loader look at them: a finite value, NaN (a missing
  value) or one of the two infinities. Finite values are exact reals, so
  rounding is not modelled.
 */
module Floats {

  datatype Float = Num(r: real) | NaN | PosInf | NegInf

  /** numpy's `isfinite`. */
  predicate IsFinite(x: Float) {
    x.Num?
  }

  /** numpy's elementwise `x < t` for a finite threshold `t`: false on NaN. */
  predicate Below(x: Float, t: real) {
    match x
    case Num(r) => r < t
    case NegInf => true
    case PosInf => false
    case NaN => false
  }

  /** numpy's elementwise `x > t` for a finite threshold `t`: false on NaN. */
  predicate Above(x: Float, t: real) {
    match x
    case Num(r) => r > t
    case PosInf => true
    case NegInf => false
    case NaN => false
  }

  /** IEEE-754 subtraction `x - y` (without rounding). */
  function Sub(x: Float, y: Float): (d: Float)
    ensures d.Num? <==> x.Num? && y.Num?
    ensures x.Num? && y.Num? ==> d.r == x.r - y.r
    ensures x.NaN? || y.NaN? ==> d.NaN?
  {
    match (x, y)
    case (Num(a), Num(b)) => Num(a - b)
    case (NaN, _) => NaN
    case (_, NaN) => NaN
    case (PosInf, PosInf) => NaN
    case (NegInf, NegInf) => NaN
    case (PosInf, _) => PosInf
    case (NegInf, _) => NegInf
    case (Num(_), PosInf) => NegInf
    case (Num(_), NegInf) => PosInf
  }

  /** IEEE-754 addition `x + y` (without rounding). */
  function Add(x: Float, y: Float): (s: Float)
    ensures s.Num? <==> x.Num? && y.Num?
    ensures x.Num? && y.Num? ==> s.r == x.r + y.r
    ensures x.NaN? || y.NaN? ==> s.NaN?
    ensures y == Num(0.0) ==> s == x
  {
    match (x, y)
    case (Num(a), Num(b)) => Num(a + b)
    case (NaN, _) => NaN
    case (_, NaN) => NaN
    case (PosInf, NegInf) => NaN
    case (NegInf, PosInf) => NaN
    case (PosInf, _) => PosInf
    case (NegInf, _) => NegInf
    case (Num(_), _) => y
  }
}
