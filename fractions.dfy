/** Exact ratios for the percentages and bar lengths that the screens
    compute in floating point. */
module Fractions {

  /** An exact rational `num / den` with a positive denominator. */
  datatype Ratio = Ratio(num: int, den: int)

  predicate WellFormed(p: Ratio)
  {
    p.den > 0
  }

  /** `p > bound`, by cross-multiplication. */
  predicate Above(p: Ratio, bound: int)
    requires WellFormed(p)
  {
    p.num > bound * p.den
  }

  /** `p == bound`, by cross-multiplication. */
  predicate Equals(p: Ratio, bound: int)
    requires WellFormed(p)
  {
    p.num == bound * p.den
  }
}
