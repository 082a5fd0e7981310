/** Exact real arithmetic that several components use. */
module Reals {

  function Min(a: real, b: real): real {
    if a <= b then a else b
  }

  function Max(a: real, b: real): real {
    if a >= b then a else b
  }

  lemma Divides(a: real, m: real)
    requires m != 0.0
    ensures a / m * m == a
  {
  }
}
