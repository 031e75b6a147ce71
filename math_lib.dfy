/**
 * The four scalar functions the vector and quaternion headers call as
 * `EngineMathLib::sqrt`, `sin`, `cos` and `acos`. EngineMath.h defines no functions
 * under those names (its own are `raizCuadrada`, `seno`, `coseno`, `arcCoseno`), so the
 * model takes them as parameters and assumes of them only what a lemma states it needs.
 */
module MathLib {

  import opened RealArith

  /** The transcendental functions a quaternion operation is evaluated with. */
  datatype Kernel = Kernel(sqrt: real -> real, sin: real -> real, cos: real -> real, acos: real -> real)

  /** `sqrt` gives the non-negative root of every non-negative argument. */
  ghost predicate SqrtLaw(sqrt: real -> real)
  {
    forall s :: s >= 0.0 ==> sqrt(s) >= 0.0 && sqrt(s) * sqrt(s) == s
  }

  /** Under the law the root of a square of a non-negative number is that number. */
  lemma SqrtOfSquare(sqrt: real -> real, s: real)
    requires SqrtLaw(sqrt) && s >= 0.0
    ensures sqrt(s * s) == s
  {
    var r := sqrt(s * s);
    assert r >= 0.0 && r * r == s * s;
    assert (r - s) * (r + s) == 0.0;
    if r + s == 0.0 {
      assert r == s;
    } else {
      ProductZero(r - s, r + s);
    }
  }

  /** Under the law the roots of 0 and 1 are themselves. */
  lemma SqrtOfZeroAndOne(sqrt: real -> real)
    requires SqrtLaw(sqrt)
    ensures sqrt(0.0) == 0.0 && sqrt(1.0) == 1.0
  {
    SqrtOfSquare(sqrt, 0.0);
    SqrtOfSquare(sqrt, 1.0);
  }
}
