/**
 * Python floats as the core uses them: metric values are only ever compared,
 * never computed with, so a float is an ordered value with its two infinities
 * and NaN. IEEE-754 arithmetic is not modelled.
 */
module Floats {

  datatype Float = NegInf | Finite(value: real) | PosInf | NaN

  /** Python's `a < b` on floats: any comparison involving NaN is False. */
  predicate Less(a: Float, b: Float)
    ensures Less(a, b) ==> !a.NaN? && !b.NaN? && a != b && a != PosInf && b != NegInf
  {
    match (a, b)
    case (NaN, _) => false
    case (_, NaN) => false
    case (NegInf, NegInf) => false
    case (NegInf, _) => true
    case (_, NegInf) => false
    case (PosInf, _) => false
    case (Finite(_), PosInf) => true
    case (Finite(x), Finite(y)) => x < y
  }

  /** Python's `a <= b` on floats. */
  predicate LessEq(a: Float, b: Float) {
    Less(a, b) || (a == b && !a.NaN?)
  }

  /** NaN is unordered: it is neither below nor above anything. */
  lemma NaNIsUnordered(x: Float)
    ensures !Less(NaN, x) && !Less(x, NaN)
  {
  }

  lemma LessIsStrictOrder(a: Float, b: Float, c: Float)
    ensures !Less(a, a)
    ensures Less(a, b) ==> !Less(b, a)
    ensures Less(a, b) && Less(b, c) ==> Less(a, c)
  {
  }

  /** Between two non-NaN floats `<` is total. */
  lemma LessIsTotal(a: Float, b: Float)
    requires !a.NaN? && !b.NaN?
    ensures Less(a, b) || a == b || Less(b, a)
  {
  }
}
