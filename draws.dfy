/** The values `Math.random()` returns, which every score and feature is computed from. */
module Draws {
  /** A value in [0, 1). */
  predicate IsDraw(r: real) {
    0.0 <= r < 1.0
  }
}
