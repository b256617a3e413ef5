/**
 * The part of a Python float that the alert logic can observe.
 *
 * An RSI value is either a finite number or NaN (pandas divides 0 by 0 when
 * the smoothed gain and loss are both zero, and `diff()` puts NaN in the
 * first row). Every ordered comparison and `==` with NaN is false, which the
 * predicates below spell out.
 */
module Floats {

  datatype Float = Num(v: real) | NaN {

    /** `self < bound` */
    predicate Less(bound: real) {
      Num? && v < bound
    }

    /** `self <= bound` */
    predicate AtMost(bound: real) {
      Num? && v <= bound
    }

    /** `self > bound` */
    predicate Greater(bound: real) {
      Num? && v > bound
    }

    /** `self >= bound` */
    predicate AtLeast(bound: real) {
      Num? && v >= bound
    }

    /** `self == bound` */
    predicate Equals(bound: real) {
      Num? && v == bound
    }

    /** `abs(self)`; NaN stays NaN. */
    function Abs(): Float {
      match this
      case NaN => NaN
      case Num(x) => Num(if x < 0.0 then -x else x)
    }
  }
}
