/** Sign facts about products of reals that the solver does not find
    unaided; the index and water-balance proofs divide out positive
    factors with them. */
module RealFacts {

  /** Dividing out a positive factor keeps the sign. */
  lemma FactorSign(x: real, d: real)
    requires d > 0.0
    ensures x * d < 0.0 ==> x < 0.0
    ensures x * d > 0.0 ==> x > 0.0
    ensures x * d == 0.0 ==> x == 0.0
  {
  }

  lemma PositiveProduct(x: real, y: real)
    requires x > 0.0 && y > 0.0
    ensures x * y > 0.0
  {
  }
}
