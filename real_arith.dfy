/** Small facts of real arithmetic that the solver does not find on its own. */
module RealArith {

  /** The product of two positive numbers, named `t`, is positive. */
  lemma MulPositive(a: real, b: real, t: real)
    requires a > 0.0 && b > 0.0 && t == a * b
    ensures t > 0.0
  {
  }

  /**
   * A square, named `t`, is non-negative and positive when its root is non-zero.
   * Stating the fact about a named value keeps it usable where the square is a function result.
   */
  lemma SquareSign(a: real, t: real)
    requires t == a * a
    ensures t >= 0.0
    ensures a != 0.0 ==> t > 0.0
  {
    if a > 0.0 {
      MulPositive(a, a, t);
    } else if a < 0.0 {
      MulPositive(-a, -a, t);
    }
  }

  /** A sum of three squares is non-negative and zero only when every root is zero. */
  lemma SumOfSquares3(a: real, b: real, c: real, t: real)
    requires t == a * a + b * b + c * c
    ensures t >= 0.0
    ensures t == 0.0 <==> a == 0.0 && b == 0.0 && c == 0.0
  {
    var p, q, r := a * a, b * b, c * c;
    SquareSign(a, p);
    SquareSign(b, q);
    SquareSign(c, r);
  }

  /** A sum of four squares is non-negative and zero only when every root is zero. */
  lemma SumOfSquares4(a: real, b: real, c: real, d: real, t: real)
    requires t == a * a + b * b + c * c + d * d
    ensures t >= 0.0
    ensures t == 0.0 <==> a == 0.0 && b == 0.0 && c == 0.0 && d == 0.0
  {
    var p, q, r, s := a * a, b * b, c * c, d * d;
    SquareSign(a, p);
    SquareSign(b, q);
    SquareSign(c, r);
    SquareSign(d, s);
  }

  /** A product is zero only through a zero factor. */
  lemma ProductZero(a: real, b: real)
    requires b != 0.0 && a * b == 0.0
    ensures a == 0.0
  {
  }

  /** A product, named `t`, of two non-zero numbers is non-zero. */
  lemma ProductNonZero(a: real, b: real, t: real)
    requires a != 0.0 && b != 0.0 && t == a * b
    ensures t != 0.0
  {
    if t == 0.0 {
      ProductZero(a, b);
    }
  }

  /** A quotient is determined by the product it undoes. */
  lemma DivUnique(a: real, b: real, q: real)
    requires b != 0.0 && q * b == a
    ensures a / b == q
  {
    var u := a / b - q;
    assert u * b == 0.0;
  }

  /** Dividing by a positive number keeps the sign and maps `[0, b)` into `[0, 1)`. */
  lemma DivBounds(a: real, b: real)
    requires b > 0.0
    ensures a >= 0.0 ==> a / b >= 0.0
    ensures a < b ==> a / b < 1.0
  {
    var q := a / b;
    assert q * b == a;
    if q < 0.0 {
      MulStrict(b, q, 0.0);
    }
    if q >= 1.0 {
      MulMono(b, 1.0, q);
    }
  }

  /** Subtracting `b` from the dividend lowers the quotient by one. */
  lemma DivStep(r: real, b: real)
    requires b > 0.0
    ensures (r - b) / b == r / b - 1.0
  {
    var q := r / b;
    assert q * b == r;
    Distrib(q, 1.0, b);
    DivUnique(r - b, b, q - 1.0);
  }

  /** Multiplication distributes over a difference. */
  lemma Distrib(x: real, y: real, b: real)
    ensures (x - y) * b == x * b - y * b
  {
  }

  /** The conversion of integers to reals commutes with multiplication. */
  lemma CastMul(a: int, b: int)
    ensures (a * b) as real == a as real * b as real
  {
  }

  /** A number that is an integer `k` plus a fraction in `[0, 1)` has floor `k`. */
  lemma FloorSplit(a: real, f: real, k: int)
    requires 0.0 <= f < 1.0 && f + k as real == a
    ensures a.Floor == k
  {
  }

  /** A fraction in `[0, 1)` of a positive `b`, named `t`, lies in `[0, b)`. */
  lemma FractionOfPeriod(f: real, b: real, t: real)
    requires 0.0 <= f < 1.0 && b > 0.0 && t == f * b
    ensures 0.0 <= t < b
  {
    MulMono(b, 0.0, f);
    MulStrict(b, f, 1.0);
  }

  /** Multiplying by a non-negative number preserves order. */
  lemma MulMono(a: real, b: real, c: real)
    requires 0.0 <= a && b <= c
    ensures a * b <= a * c
    ensures b * a <= c * a
  {
  }

  /** Multiplying by a positive number preserves strict order. */
  lemma MulStrict(a: real, b: real, c: real)
    requires 0.0 < a && b < c
    ensures a * b < a * c
    ensures b * a < c * a
  {
  }
}
