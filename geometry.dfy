/** Vectors of the simulation's two dimensions and the distance helper
    `getDistance`. `Math.sqrt` belongs to the host; it enters the model as a
    parameter `sqrt` that is only known to return the non-negative square
    root of a non-negative argument. */
module Geometry {

  /** `DIMENTION` in main.js: every vector has two components. */
  const DIMENSION: nat := 2

  type Vec = v: seq<real> | |v| == DIMENSION witness [0.0, 0.0]

  const ZERO: Vec := [0.0, 0.0]

  function Square(x: real): (r: real)
    ensures 0.0 <= r
  {
    x * x
  }

  lemma ProductZero(a: real, b: real)
    requires a * b == 0.0
    ensures a == 0.0 || b == 0.0
  {
    if a != 0.0 {
      assert b == (a * b) / a;
    }
  }

  lemma SquareZero(x: real)
    requires Square(x) == 0.0
    ensures x == 0.0
  {
    ProductZero(x, x);
  }

  /** What `getDistance` accumulates before taking the root: the sum of
      `Math.pow(p[i] - q[i], 2)` over the first `n` axes. */
  function SumOfSquares(p: seq<real>, q: seq<real>, n: nat): (r: real)
    requires n <= |p| && n <= |q|
    ensures 0.0 <= r
  {
    if n == 0 then 0.0 else SumOfSquares(p, q, n - 1) + Square(p[n - 1] - q[n - 1])
  }

  /** `sqrt` behaves as the square root on the non-negative reals. */
  ghost predicate IsSqrt(sqrt: real -> real)
  {
    forall x :: 0.0 <= x ==> 0.0 <= sqrt(x) && sqrt(x) * sqrt(x) == x
  }

  /** `getDistance(p, q)`: the Euclidean distance of two points. */
  function Distance(sqrt: real -> real, p: Vec, q: Vec): (d: real)
    requires IsSqrt(sqrt)
    ensures 0.0 <= d && d * d == SumOfSquares(p, q, DIMENSION)
  {
    sqrt(SumOfSquares(p, q, DIMENSION))
  }

  /** In the plane the sum has exactly two terms. */
  lemma PlaneSumOfSquares(p: Vec, q: Vec)
    ensures SumOfSquares(p, q, DIMENSION) == (p[0] - q[0]) * (p[0] - q[0]) + (p[1] - q[1]) * (p[1] - q[1])
  {
    assert SumOfSquares(p, q, 1) == Square(p[0] - q[0]);
  }

  lemma {:induction false} SumOfSquaresSymmetric(p: seq<real>, q: seq<real>, n: nat)
    requires n <= |p| && n <= |q|
    ensures SumOfSquares(p, q, n) == SumOfSquares(q, p, n)
  {
    if n > 0 {
      SumOfSquaresSymmetric(p, q, n - 1);
      assert Square(p[n - 1] - q[n - 1]) == Square(q[n - 1] - p[n - 1]);
    }
  }

  /** The sum is zero exactly when the points agree on the first `n` axes. */
  lemma {:induction false} SumOfSquaresZero(p: seq<real>, q: seq<real>, n: nat)
    requires n <= |p| && n <= |q|
    ensures SumOfSquares(p, q, n) == 0.0 <==> p[..n] == q[..n]
  {
    if n > 0 {
      SumOfSquaresZero(p, q, n - 1);
      assert p[..n] == p[..n - 1] + [p[n - 1]];
      assert q[..n] == q[..n - 1] + [q[n - 1]];
      if p[..n] == q[..n] {
        assert p[..n - 1] == q[..n - 1] && p[n - 1] == q[n - 1];
      }
      if SumOfSquares(p, q, n) == 0.0 {
        SquareZero(p[n - 1] - q[n - 1]);
      }
    }
  }

  /** A non-negative number has one non-negative square root. */
  lemma RootUnique(a: real, b: real)
    requires 0.0 <= a && 0.0 <= b && a * a == b * b
    ensures a == b
  {
    assert (a - b) * (a + b) == 0.0;
    ProductZero(a - b, a + b);
  }

  lemma DistanceSymmetric(sqrt: real -> real, p: Vec, q: Vec)
    requires IsSqrt(sqrt)
    ensures Distance(sqrt, p, q) == Distance(sqrt, q, p)
  {
    SumOfSquaresSymmetric(p, q, DIMENSION);
  }

  lemma DistanceToSelf(sqrt: real -> real, p: Vec)
    requires IsSqrt(sqrt)
    ensures Distance(sqrt, p, p) == 0.0
  {
    SumOfSquaresZero(p, p, DIMENSION);
    RootUnique(Distance(sqrt, p, p), 0.0);
  }

  /** Two balls are at distance zero exactly when their positions coincide:
      the one case where `calcForce` of a spring divides by zero. */
  lemma DistanceZeroIff(sqrt: real -> real, p: Vec, q: Vec)
    requires IsSqrt(sqrt)
    ensures Distance(sqrt, p, q) == 0.0 <==> p == q
  {
    SumOfSquaresZero(p, q, DIMENSION);
    assert p[..DIMENSION] == p && q[..DIMENSION] == q;
    if p == q {
      DistanceToSelf(sqrt, p);
    }
  }
}
