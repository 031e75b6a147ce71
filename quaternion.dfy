/**
 * `CQuaternion` (Quaternion.h): a quaternion `(x, y, z, w)` with vector part `(x, y, z)` and
 * scalar part `w`, used for 3-D rotations.
 *
 * The products, sums, `conjugate`, `rotate`, `fromAxisAngle` and `normalized` build new values
 * and are functions on `Quat`. `normalize` divides the fields of the object in place, and
 * `slerp` flips a local dot product and quaternion before blending; both are methods of the
 * class, proved against the functions. The `sqrt`, `sin`, `cos` and `acos` the header calls
 * are parameters (see the `MathLib` module).
 */
module Quaternion {

  import opened RealArith
  import opened MathLib
  import Vector3

  datatype Quat = Quat(x: real, y: real, z: real, w: real)

  /** The value of the default constructor: no rotation. */
  function Identity(): Quat
  {
    Quat(0.0, 0.0, 0.0, 1.0)
  }

  /** The all-zero quaternion, the one `normalize` leaves alone. */
  function Zero(): Quat
  {
    Quat(0.0, 0.0, 0.0, 0.0)
  }

  /** `operator*(q)`: the Hamilton product, vector part first. */
  function Mul(p: Quat, q: Quat): Quat
  {
    Quat(
      p.w * q.x + p.x * q.w + p.y * q.z - p.z * q.y,
      p.w * q.y - p.x * q.z + p.y * q.w + p.z * q.x,
      p.w * q.z + p.x * q.y - p.y * q.x + p.z * q.w,
      p.w * q.w - p.x * q.x - p.y * q.y - p.z * q.z)
  }

  /** `operator*(scalar)`: every component times the scalar. */
  function Scale(q: Quat, s: real): Quat
  {
    Quat(q.x * s, q.y * s, q.z * s, q.w * s)
  }

  /** `operator+`: component-wise sum. */
  function Add(p: Quat, q: Quat): Quat
  {
    Quat(p.x + q.x, p.y + q.y, p.z + q.z, p.w + q.w)
  }

  /** `operator-`: component-wise difference; undoes `Add`. */
  function Sub(p: Quat, q: Quat): (r: Quat)
    ensures Add(r, q) == p
  {
    Quat(p.x - q.x, p.y - q.y, p.z - q.z, p.w - q.w)
  }

  /** `conjugate()`: the vector part negated, the scalar part kept. */
  function Conjugate(q: Quat): (r: Quat)
    ensures r.w == q.w && Add(r, Quat(q.x, q.y, q.z, 0.0)) == Quat(0.0, 0.0, 0.0, q.w)
  {
    Quat(-q.x, -q.y, -q.z, q.w)
  }

  /** The squared magnitude `x*x + y*y + z*z + w*w` that `normalize` takes the root of. */
  function Norm2(q: Quat): (r: real)
    ensures r >= 0.0
  {
    q.x * q.x + q.y * q.y + q.z * q.z + q.w * q.w
  }

  /** The 4-D dot product `slerp` starts from. */
  function Dot(p: Quat, q: Quat): real
  {
    p.x * q.x + p.y * q.y + p.z * q.z + p.w * q.w
  }

  /** The magnitude `normalize` computes: the root of the squared magnitude. */
  function Magnitude(q: Quat, sqrt: real -> real): real
  {
    sqrt(Norm2(q))
  }

  /**
   * `normalized()`: the quaternion divided by its magnitude when the magnitude is positive,
   * and the quaternion itself otherwise.
   */
  function Normalized(q: Quat, sqrt: real -> real): (r: Quat)
    ensures Magnitude(q, sqrt) > 0.0 ==> Scale(r, Magnitude(q, sqrt)) == q
    ensures !(Magnitude(q, sqrt) > 0.0) ==> r == q
  {
    var mag := Magnitude(q, sqrt);
    if mag > 0.0 then Quat(q.x / mag, q.y / mag, q.z / mag, q.w / mag) else q
  }

  /** A vector as the pure quaternion `(v.x, v.y, v.z, 0)`. */
  function Pure(v: Vector3.Vec3): Quat
  {
    Quat(v.x, v.y, v.z, 0.0)
  }

  /** `rotate(v)`: the vector part of `q * (v, 0) * conjugate(q)`. */
  function Rotate(q: Quat, v: Vector3.Vec3): Vector3.Vec3
  {
    var r := Mul(Mul(q, Pure(v)), Conjugate(q));
    Vector3.Vec3(r.x, r.y, r.z)
  }

  /** `fromAxisAngle(axis, angleRad)`: `(axis * sin(angle/2), cos(angle/2))`; the axis is not normalized. */
  function FromAxisAngle(axis: Vector3.Vec3, angleRad: real, sin: real -> real, cos: real -> real): Quat
  {
    var halfAngle := angleRad * 0.5;
    var s := sin(halfAngle);
    var c := cos(halfAngle);
    Quat(axis.x * s, axis.y * s, axis.z * s, c)
  }

  // ---------------------------------------------------------------------------
  // slerp
  // ---------------------------------------------------------------------------

  /** Above this (adjusted) dot product `slerp` blends linearly. */
  const LINEAR_THRESHOLD: real := 0.9995

  /** The dot product after the shorter-arc adjustment: never negative. */
  function ArcDot(a: Quat, b: Quat): (r: real)
    ensures r >= 0.0
    ensures r == Dot(a, b) || r == -Dot(a, b)
  {
    if Dot(a, b) < 0.0 then -Dot(a, b) else Dot(a, b)
  }

  /** The end point after the shorter-arc adjustment: `b`, or `b * -1` when the dot product is negative. */
  function ArcEnd(a: Quat, b: Quat): (r: Quat)
    ensures r == b || r == Scale(b, -1.0)
    ensures Dot(a, r) == ArcDot(a, b)
  {
    if Dot(a, b) < 0.0 then
      DotLaws(a, b, -1.0);
      Scale(b, -1.0)
    else
      b
  }

  /** The spherical branch divides by `sin(acos(dot))`; the kernel must not make that zero. */
  predicate SlerpDefined(a: Quat, b: Quat, k: Kernel)
  {
    ArcDot(a, b) > LINEAR_THRESHOLD || k.sin(k.acos(ArcDot(a, b))) != 0.0
  }

  /** The weights of `a` and of the adjusted end in the spherical branch. */
  function SphericalWeights(dot: real, t: real, k: Kernel): (real, real)
    requires k.sin(k.acos(dot)) != 0.0
  {
    var theta0 := k.acos(dot);
    var theta := theta0 * t;
    var sinTheta := k.sin(theta);
    var sinTheta0 := k.sin(theta0);
    (k.cos(theta) - dot * sinTheta / sinTheta0, sinTheta / sinTheta0)
  }

  /** `slerp(a, b, t)` as a value: the branch rule with its blends. */
  function SlerpBlend(a: Quat, b: Quat, t: real, k: Kernel): Quat
    requires SlerpDefined(a, b, k)
  {
    var dot := ArcDot(a, b);
    var end := ArcEnd(a, b);
    if dot > LINEAR_THRESHOLD then
      Normalized(Add(a, Scale(Sub(end, a), t)), k.sqrt)
    else
      var (s0, s1) := SphericalWeights(dot, t, k);
      Normalized(Add(Scale(a, s0), Scale(end, s1)), k.sqrt)
  }

  // ---------------------------------------------------------------------------
  // Algebra of the Hamilton product
  // ---------------------------------------------------------------------------

  /** The default constructor's value is a two-sided unit of the product. */
  lemma IdentityIsUnit(q: Quat)
    ensures Mul(Identity(), q) == q
    ensures Mul(q, Identity()) == q
  {
  }

  /** Conjugation is an involution and fixes the identity. */
  lemma ConjugateInvolution(q: Quat)
    ensures Conjugate(Conjugate(q)) == q
    ensures Conjugate(Identity()) == Identity()
  {
  }

  /** Conjugation reverses products. */
  lemma ConjugateOfProduct(p: Quat, q: Quat)
    ensures Conjugate(Mul(p, q)) == Mul(Conjugate(q), Conjugate(p))
  {
  }

  /** A quaternion times its conjugate, in either order, is the real quaternion of its squared magnitude. */
  lemma MulConjugate(q: Quat)
    ensures Mul(q, Conjugate(q)) == Quat(0.0, 0.0, 0.0, Norm2(q))
    ensures Mul(Conjugate(q), q) == Quat(0.0, 0.0, 0.0, Norm2(q))
  {
  }

  /** Conjugation keeps the squared magnitude. */
  lemma Norm2OfConjugate(q: Quat)
    ensures Norm2(Conjugate(q)) == Norm2(q)
  {
  }

  /** Only the zero quaternion has squared magnitude 0. */
  lemma Norm2Zero(q: Quat)
    ensures Norm2(q) == 0.0 <==> q == Zero()
  {
    SumOfSquares4(q.x, q.y, q.z, q.w, Norm2(q));
  }

  /** Scaling multiplies the squared magnitude by the square of the factor. */
  lemma Norm2OfScale(q: Quat, s: real)
    ensures Norm2(Scale(q, s)) == s * s * Norm2(q)
  {
  }

  /** `+` and `-` act component by component: the sum commutes and the difference undoes it. */
  lemma AddLaws(p: Quat, q: Quat)
    ensures Add(p, q) == Add(q, p)
    ensures Sub(Add(p, q), q) == p
  {
  }

  /** Scalar `*` distributes over `+`, has unit 1, and negating twice is the identity. */
  lemma ScaleLaws(p: Quat, q: Quat, s: real)
    ensures Scale(Add(p, q), s) == Add(Scale(p, s), Scale(q, s))
    ensures Scale(q, 1.0) == q && Scale(Scale(q, -1.0), -1.0) == q
  {
  }

  /** The dot product is symmetric, is the squared magnitude on the diagonal, and scales with either side. */
  lemma DotLaws(p: Quat, q: Quat, s: real)
    ensures Dot(p, q) == Dot(q, p) && Dot(q, q) == Norm2(q)
    ensures Dot(p, Scale(q, s)) == s * Dot(p, q)
  {
  }

  // ---------------------------------------------------------------------------
  // normalize / normalized
  // ---------------------------------------------------------------------------

  /** Under the root law the magnitude is positive exactly for a non-zero quaternion. */
  lemma MagnitudePositive(q: Quat, sqrt: real -> real)
    requires SqrtLaw(sqrt)
    ensures Magnitude(q, sqrt) > 0.0 <==> q != Zero()
  {
    var mag := Magnitude(q, sqrt);
    assert mag >= 0.0 && mag * mag == Norm2(q);
    SquareSign(mag, Norm2(q));
    Norm2Zero(q);
  }

  /** Under the root law `normalized()` of a non-zero quaternion has squared magnitude 1. */
  lemma NormalizedIsUnit(q: Quat, sqrt: real -> real)
    requires SqrtLaw(sqrt) && q != Zero()
    ensures Norm2(Normalized(q, sqrt)) == 1.0
  {
    var u := Normalized(q, sqrt);
    var mag := Magnitude(q, sqrt);
    MagnitudePositive(q, sqrt);
    assert mag * mag == Norm2(q);
    Norm2OfScale(u, mag);
    assert Norm2(q) == mag * mag * Norm2(u);
    ProductZero(Norm2(u) - 1.0, mag * mag);
  }

  /** The zero quaternion, whose magnitude is not positive, is returned unchanged. */
  lemma NormalizedOfZero(sqrt: real -> real)
    ensures Normalized(Zero(), sqrt) == Zero()
  {
    var mag := Magnitude(Zero(), sqrt);
    if mag > 0.0 {
      DivUnique(0.0, mag, 0.0);
    }
  }

  /** A quaternion of squared magnitude 1 is its own normalized copy. */
  lemma NormalizedOfUnit(q: Quat, sqrt: real -> real)
    requires SqrtLaw(sqrt) && Norm2(q) == 1.0
    ensures Normalized(q, sqrt) == q
  {
    SqrtOfZeroAndOne(sqrt);
  }

  /** Normalizing twice is normalizing once. */
  lemma NormalizedIdempotent(q: Quat, sqrt: real -> real)
    requires SqrtLaw(sqrt)
    ensures Normalized(Normalized(q, sqrt), sqrt) == Normalized(q, sqrt)
  {
    if q == Zero() {
      NormalizedOfZero(sqrt);
    } else {
      NormalizedIsUnit(q, sqrt);
      NormalizedOfUnit(Normalized(q, sqrt), sqrt);
    }
  }

  // ---------------------------------------------------------------------------
  // rotate / fromAxisAngle
  // ---------------------------------------------------------------------------

  /** The identity rotates nothing. */
  lemma RotateByIdentity(v: Vector3.Vec3)
    ensures Rotate(Identity(), v) == v
  {
    IdentityIsUnit(Pure(v));
    ConjugateInvolution(Identity());
  }

  /** The sandwich product of a pure quaternion is pure: `rotate` drops a zero scalar part. */
  lemma SandwichIsPure(q: Quat, v: Vector3.Vec3)
    ensures Mul(Mul(q, Pure(v)), Conjugate(q)) == Pure(Rotate(q, v))
  {
  }

  /** `fromAxisAngle` puts `sin` of the half angle on the axis and `cos` of it in the scalar part. */
  lemma FromAxisAngleNorm(axis: Vector3.Vec3, angleRad: real, sin: real -> real, cos: real -> real)
    ensures var s, c := sin(angleRad * 0.5), cos(angleRad * 0.5);
      Norm2(FromAxisAngle(axis, angleRad, sin, cos)) == Vector3.LengthSquare(axis) * (s * s) + c * c
    ensures var s, c := sin(angleRad * 0.5), cos(angleRad * 0.5);
      Vector3.LengthSquare(axis) == 1.0 && s * s + c * c == 1.0 ==> Norm2(FromAxisAngle(axis, angleRad, sin, cos)) == 1.0
  {
  }

  /** A zero angle gives the identity, whatever the axis. */
  lemma FromAxisAngleZero(axis: Vector3.Vec3, sin: real -> real, cos: real -> real)
    requires sin(0.0) == 0.0 && cos(0.0) == 1.0
    ensures FromAxisAngle(axis, 0.0, sin, cos) == Identity()
  {
  }

  // ---------------------------------------------------------------------------
  // slerp
  // ---------------------------------------------------------------------------

  /**
   * The adjusted end never lies on the far hemisphere; a negative dot product flips the end
   * and the dot product, and any other dot product, zero included, leaves both as they are.
   */
  lemma SlerpShorterArc(a: Quat, b: Quat)
    ensures Dot(a, ArcEnd(a, b)) >= 0.0
    ensures Dot(a, b) < 0.0 ==> ArcEnd(a, b) == Scale(b, -1.0) && ArcDot(a, b) == -Dot(a, b)
    ensures Dot(a, b) >= 0.0 ==> ArcEnd(a, b) == b && ArcDot(a, b) == Dot(a, b)
  {
  }

  /** Above the threshold `slerp` is the normalized linear blend towards the adjusted end. */
  lemma SlerpLinearBranch(a: Quat, b: Quat, t: real, k: Kernel)
    requires ArcDot(a, b) > LINEAR_THRESHOLD
    ensures SlerpDefined(a, b, k)
    ensures SlerpBlend(a, b, t, k) == Normalized(Add(a, Scale(Sub(ArcEnd(a, b), a), t)), k.sqrt)
  {
  }

  /** Negating `b` does not change `slerp` unless the two are orthogonal. */
  lemma SlerpNegatedEnd(a: Quat, b: Quat, t: real, k: Kernel)
    requires Dot(a, b) != 0.0 && SlerpDefined(a, b, k)
    ensures SlerpDefined(a, Scale(b, -1.0), k)
    ensures SlerpBlend(a, Scale(b, -1.0), t, k) == SlerpBlend(a, b, t, k)
  {
    var nb := Scale(b, -1.0);
    DotLaws(a, b, -1.0);
    assert Dot(a, nb) == -Dot(a, b);
    assert Scale(nb, -1.0) == b;
    assert ArcDot(a, nb) == ArcDot(a, b);
    assert ArcEnd(a, nb) == ArcEnd(a, b);
  }

  /** With `sin 0 = 0` and `cos 0 = 1`, `slerp` at `t = 0` is the normalized start. */
  lemma SlerpAtZero(a: Quat, b: Quat, k: Kernel)
    requires SlerpDefined(a, b, k) && k.sin(0.0) == 0.0 && k.cos(0.0) == 1.0
    ensures SlerpBlend(a, b, 0.0, k) == Normalized(a, k.sqrt)
  {
    var dot := ArcDot(a, b);
    if dot <= LINEAR_THRESHOLD {
      var (s0, s1) := SphericalWeights(dot, 0.0, k);
      assert s0 == 1.0 && s1 == 0.0;
      assert Add(Scale(a, s0), Scale(ArcEnd(a, b), s1)) == a;
    } else {
      assert Add(a, Scale(Sub(ArcEnd(a, b), a), 0.0)) == a;
    }
  }

  /** When `cos` undoes `acos`, `slerp` at `t = 1` is the normalized adjusted end. */
  lemma SlerpAtOne(a: Quat, b: Quat, k: Kernel)
    requires SlerpDefined(a, b, k) && k.cos(k.acos(ArcDot(a, b))) == ArcDot(a, b)
    ensures SlerpBlend(a, b, 1.0, k) == Normalized(ArcEnd(a, b), k.sqrt)
  {
    var dot := ArcDot(a, b);
    if dot <= LINEAR_THRESHOLD {
      var (s0, s1) := SphericalWeights(dot, 1.0, k);
      var sinTheta0 := k.sin(k.acos(dot));
      DivUnique(sinTheta0, sinTheta0, 1.0);
      assert s1 == 1.0;
      assert s0 == 0.0;
      assert Add(Scale(a, s0), Scale(ArcEnd(a, b), s1)) == ArcEnd(a, b);
    } else {
      assert Add(a, Scale(Sub(ArcEnd(a, b), a), 1.0)) == ArcEnd(a, b);
    }
  }

  /** Interpolating a unit quaternion with itself gives it back, for every `t`. */
  lemma SlerpSame(a: Quat, t: real, k: Kernel)
    requires Norm2(a) == 1.0 && SqrtLaw(k.sqrt)
    ensures SlerpDefined(a, a, k)
    ensures SlerpBlend(a, a, t, k) == a
  {
    assert Dot(a, a) == Norm2(a);
    assert Add(a, Scale(Sub(a, a), t)) == a;
    NormalizedOfUnit(a, k.sqrt);
  }

  /** Under the root law the result is a unit quaternion whenever the blend is not zero. */
  lemma SlerpIsUnit(a: Quat, b: Quat, t: real, k: Kernel)
    requires SlerpDefined(a, b, k) && SqrtLaw(k.sqrt)
    ensures Norm2(SlerpBlend(a, b, t, k)) == 1.0 || SlerpBlend(a, b, t, k) == Zero()
  {
    var dot := ArcDot(a, b);
    var blend := if dot > LINEAR_THRESHOLD then Add(a, Scale(Sub(ArcEnd(a, b), a), t))
      else var (s0, s1) := SphericalWeights(dot, t, k); Add(Scale(a, s0), Scale(ArcEnd(a, b), s1));
    assert SlerpBlend(a, b, t, k) == Normalized(blend, k.sqrt);
    if blend == Zero() {
      NormalizedOfZero(k.sqrt);
    } else {
      NormalizedIsUnit(blend, k.sqrt);
    }
  }

  // ---------------------------------------------------------------------------
  // The object
  // ---------------------------------------------------------------------------

  class CQuaternion {
    var x: real
    var y: real
    var z: real
    var w: real

    /** The quaternion the fields hold. */
    function Value(): Quat
      reads this
    {
      Quat(x, y, z, w)
    }

    /** `CQuaternion()`: the identity. */
    constructor ()
      ensures Value() == Identity()
    {
      x, y, z, w := 0.0, 0.0, 0.0, 1.0;
    }

    /** `CQuaternion(x, y, z, w)`: stores the components unchanged. */
    constructor Init(x: real, y: real, z: real, w: real)
      ensures Value() == Quat(x, y, z, w)
    {
      this.x, this.y, this.z, this.w := x, y, z, w;
    }

    /**
     * `normalize()`: when the magnitude is positive, divides the four fields by it;
     * otherwise leaves them as they are.
     */
    method Normalize(sqrt: real -> real)
      modifies this
      ensures Value() == Normalized(old(Value()), sqrt)
      ensures SqrtLaw(sqrt) && old(Value()) != Zero() ==> Norm2(Value()) == 1.0
      ensures old(Value()) == Zero() ==> Value() == Zero()
    {
      var mag := Magnitude(Value(), sqrt);
      if mag > 0.0 {
        x := x / mag;
        y := y / mag;
        z := z / mag;
        w := w / mag;
      }
      assert Value() == Normalized(old(Value()), sqrt);
      if old(Value()) == Zero() {
        NormalizedOfZero(sqrt);
      } else if SqrtLaw(sqrt) {
        NormalizedIsUnit(old(Value()), sqrt);
      }
    }

    /** `normalized()`: a normalized copy; the receiver is not modified. */
    method NormalizedCopy(sqrt: real -> real) returns (q: CQuaternion)
      ensures fresh(q)
      ensures q.Value() == Normalized(Value(), sqrt)
    {
      q := new CQuaternion.Init(x, y, z, w);
      q.Normalize(sqrt);
    }

    /** `slerp(a, b, t)`: flips the dot product and the end point for the shorter arc, then blends. */
    static method Slerp(a: Quat, b: Quat, t: real, k: Kernel) returns (r: Quat)
      requires SlerpDefined(a, b, k)
      ensures r == SlerpBlend(a, b, t, k)
    {
      var dot := Dot(a, b);
      var bAdjusted := b;
      if dot < 0.0 {
        dot := -dot;
        bAdjusted := Scale(b, -1.0);
      }
      assert dot == ArcDot(a, b) && bAdjusted == ArcEnd(a, b);
      if dot > LINEAR_THRESHOLD {
        return Normalized(Add(a, Scale(Sub(bAdjusted, a), t)), k.sqrt);
      }
      var (s0, s1) := SphericalWeights(dot, t, k);
      r := Normalized(Add(Scale(a, s0), Scale(bAdjusted, s1)), k.sqrt);
    }
  }
}
