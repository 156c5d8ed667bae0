/** Floating-point numbers where the code looks at more than their value: IEEE infinities and NaN. */
module Floats {
  datatype Float = Finite(value: real) | Infinite(negative: bool) | NaN

  /** The comparison x > y. NaN is greater than nothing, and nothing is greater than NaN. */
  predicate Greater(x: Float, y: Float) {
    match (x, y)
    case (Finite(a), Finite(b)) => a > b
    case (Finite(_), Infinite(negative)) => negative
    case (Infinite(negative), Finite(_)) => !negative
    case (Infinite(m), Infinite(n)) => !m && n
    case _ => false
  }
}
