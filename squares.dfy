/** Signs of squares, stated about a value known to be a square. */
module Squares {
  /** A square is never negative. */
  lemma NonNegativeSquare(square: real, x: real)
    requires square == x * x
    ensures square >= 0.0
  {
  }

  /** Only 0 squares to 0: dividing a non-zero square by its root gives the root back. */
  lemma NonZeroSquare(square: real, x: real)
    requires square == x * x
    ensures x != 0.0 ==> square != 0.0
  {
    if x != 0.0 {
      assert square * (1.0 / x) == x;
    }
  }
}
