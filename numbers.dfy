/** JavaScript numbers as the workout model needs them. */
module Numbers {

  /** A JavaScript number. Finite values are modelled exactly as reals
      (IEEE-754 rounding is not modelled); Infinity, -Infinity and NaN are
      folded into one case, because the only question the application asks
      of them is `Number.isFinite`. */
  datatype Number = Finite(value: real) | NonFinite

  /** `Number.isFinite(x)`. */
  predicate IsFinite(x: Number) {
    x.Finite?
  }

  /** The JavaScript quotient `a / b` of two finite numbers: a zero divisor
      yields Infinity, -Infinity or NaN, never an exception. */
  function Divide(a: real, b: real): (q: Number)
    ensures IsFinite(q) <==> b != 0.0
  {
    if b == 0.0 then NonFinite else Finite(a / b)
  }

  /** A finite quotient multiplied by the divisor gives back the dividend. */
  lemma DivideInverse(a: real, b: real)
    requires b != 0.0
    ensures Divide(a, b).value * b == a
  {
  }
}
