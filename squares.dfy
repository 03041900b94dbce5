/**
 * The square of a real difference, as the loss of go/sim/metal/network.go
 * accumulates it (diff * diff), with its sign facts. The product is kept
 * behind Mul so that the sign lemmas are stated over two factors.
 */
module Squares {

  function Mul(a: real, b: real): real
  {
    a * b
  }

  /** Two factors of the same strict sign give a positive product. */
  lemma MulPositive(a: real, b: real)
    requires (a > 0.0 && b > 0.0) || (a < 0.0 && b < 0.0)
    ensures Mul(a, b) > 0.0
  {
  }

  function Square(d: real): real
  {
    Mul(d, d)
  }

  /** A square is never negative. */
  lemma SquareNonNegative(d: real)
    ensures Square(d) >= 0.0
  {
    if d != 0.0 {
      MulPositive(d, d);
    }
  }

  /** A square is zero exactly for a zero difference. */
  lemma SquareZeroIff(d: real)
    ensures Square(d) == 0.0 <==> d == 0.0
  {
    if d != 0.0 {
      MulPositive(d, d);
    }
  }
}
