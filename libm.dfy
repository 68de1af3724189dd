/**
 * The C math library (`std::sqrt`, `std::sin`, `std::cos`, `std::atan2`) and the constant pi,
 * as seen by the rigid-body code. Their implementations are foreign code, so they enter the
 * model as a parameter: a record of functions on `real`, together with a predicate `Lawful`
 * listing the few facts of the real functions that the proofs rely on.
 */
module Transcendental {

  import opened RealArith

  datatype Libm = Libm(
    sqrt: real -> real,
    sin: real -> real,
    cos: real -> real,
    atan2: (real, real) -> real,
    pi: real)

  /** Facts that hold of the real square root, sine, cosine, two-argument arctangent and pi. */
  ghost predicate Lawful(m: Libm) {
    && (forall x :: 0.0 <= x ==> 0.0 <= m.sqrt(x) && m.sqrt(x) * m.sqrt(x) == x)
    && (forall x :: m.sin(x) * m.sin(x) + m.cos(x) * m.cos(x) == 1.0)
    && (forall x :: 0.0 < x < m.pi ==> 0.0 < m.sin(x))
    && (forall a :: -m.pi < a <= m.pi ==> m.atan2(m.sin(a), m.cos(a)) == a)
    && (forall x :: 0.0 <= x ==> m.atan2(0.0, x) == 0.0)
    && (forall x :: x < 0.0 ==> m.atan2(0.0, x) == m.pi)
    && 3.14159 < m.pi < 3.14160
  }

  lemma SqrtOfNonNegative(m: Libm, x: real)
    requires Lawful(m) && 0.0 <= x
    ensures 0.0 <= m.sqrt(x) && m.sqrt(x) * m.sqrt(x) == x
  {
  }

  /** The square root of a positive number is positive. */
  lemma SqrtPositive(m: Libm, x: real)
    requires Lawful(m) && 0.0 < x
    ensures 0.0 < m.sqrt(x)
  {
    SqrtOfNonNegative(m, x);
  }

  /** Only zero has square root zero. */
  lemma SqrtZero(m: Libm, x: real)
    requires Lawful(m) && 0.0 <= x && m.sqrt(x) == 0.0
    ensures x == 0.0
  {
    SqrtOfNonNegative(m, x);
  }

  /** The square root of a square is the absolute value. */
  lemma SqrtOfSquare(m: Libm, a: real)
    requires Lawful(m)
    ensures m.sqrt(a * a) == if a < 0.0 then -a else a
  {
    NonNegativeProduct(if a < 0.0 then -a else a, if a < 0.0 then -a else a);
    SqrtOfNonNegative(m, a * a);
    NonNegativeRootUnique(m.sqrt(a * a), a);
  }

  lemma SqrtOne(m: Libm)
    requires Lawful(m)
    ensures m.sqrt(1.0) == 1.0
  {
    SqrtOfSquare(m, 1.0);
  }

  /** The square root is strictly increasing on the non-negative reals. */
  lemma SqrtLess(m: Libm, x: real, y: real)
    requires Lawful(m) && 0.0 <= x && 0.0 <= y
    ensures m.sqrt(x) < m.sqrt(y) <==> x < y
  {
    SqrtOfNonNegative(m, x);
    SqrtOfNonNegative(m, y);
    SquaresOrdered(m.sqrt(x), m.sqrt(y));
  }
}
