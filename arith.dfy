/** Small facts about products of reals that the nonlinear solver does not find on its own. */
module RealArith {

  lemma PositiveProduct(x: real, y: real)
    requires 0.0 < x && 0.0 < y
    ensures 0.0 < x * y
  {
  }

  lemma NonNegativeProduct(x: real, y: real)
    requires 0.0 <= x && 0.0 <= y
    ensures 0.0 <= x * y
  {
  }

  lemma SquareNonNegative(x: real)
    ensures 0.0 <= x * x
  {
    if x < 0.0 {
      NonNegativeProduct(-x, -x);
      assert (-x) * (-x) == x * x;
    } else {
      NonNegativeProduct(x, x);
    }
  }

  lemma ZeroProduct(x: real, y: real)
    requires x * y == 0.0 && y != 0.0
    ensures x == 0.0
  {
  }

  lemma NonZeroProduct(x: real, y: real)
    requires x != 0.0 && y != 0.0
    ensures x * y != 0.0
  {
    if x * y == 0.0 {
      ZeroProduct(x, y);
    }
  }

  lemma NonNegativeSumZero(x: real, y: real, z: real)
    requires 0.0 <= x && 0.0 <= y && 0.0 <= z && x + y + z == 0.0
    ensures x == 0.0 && y == 0.0 && z == 0.0
  {
  }

  /** Only zero squares to zero. */
  lemma SquareZero(a: real)
    requires a * a == 0.0
    ensures a == 0.0
  {
    if a != 0.0 {
      ZeroProduct(a, a);
    }
  }

  /** Three squares add up to zero only when all three numbers are zero. */
  lemma SumOfSquaresZero(a: real, b: real, c: real)
    requires a * a + b * b + c * c == 0.0
    ensures a == 0.0 && b == 0.0 && c == 0.0
  {
    SquareNonNegative(a);
    SquareNonNegative(b);
    SquareNonNegative(c);
    NonNegativeSumZero(a * a, b * b, c * c);
    SquareZero(a);
    SquareZero(b);
    SquareZero(c);
  }

  /** On the non-negative reals, squaring preserves and reflects strict order. */
  lemma SquaresOrdered(a: real, b: real)
    requires 0.0 <= a && 0.0 <= b
    ensures a < b <==> a * a < b * b
  {
    if a < b {
      PositiveProduct(b - a, b + a);
    } else {
      NonNegativeProduct(a - b, b + a);
    }
  }

  /** A non-negative number whose square is `a * a` is the absolute value of `a`. */
  lemma NonNegativeRootUnique(r: real, a: real)
    requires 0.0 <= r && r * r == a * a
    ensures r == if a < 0.0 then -a else a
  {
    var b := if a < 0.0 then -a else a;
    assert b * b == a * a;
    if r < b {
      SquaresOrdered(r, b);
    } else if b < r {
      SquaresOrdered(b, r);
    }
  }
}
