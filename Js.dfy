/** The few JavaScript value semantics the application code relies on:
    `undefined`, truthiness of a string parameter, and the relational
    comparison of a number (possibly NaN or infinite) with a numeric constant. */
module Js {

  /** A value that may be `undefined` (a missing route parameter, a missing
      object property, a `findOne` that found nothing). */
  datatype Maybe<+T> = Undefined | Defined(value: T)

  /** A JavaScript number as far as the application can tell numbers apart:
      a finite value, one of the two infinities, or NaN. */
  datatype Number = Finite(value: real) | PosInfinity | NegInfinity | NaN

  /** `!!s` for a string or `undefined`: only a present, non-empty string is truthy. */
  predicate Truthy(s: Maybe<string>)
  {
    s.Defined? && s.value != ""
  }

  /** `n < c` under the abstract relational comparison: any comparison with NaN is false. */
  predicate LessThan(n: Number, c: real)
  {
    match n
    case Finite(r) => r < c
    case NegInfinity => true
    case PosInfinity => false
    case NaN => false
  }

  /** `n > c` under the abstract relational comparison: any comparison with NaN is false. */
  predicate GreaterThan(n: Number, c: real)
  {
    match n
    case Finite(r) => r > c
    case NegInfinity => false
    case PosInfinity => true
    case NaN => false
  }
}
