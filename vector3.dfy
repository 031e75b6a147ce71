/**
 * `CVector3` (CVector3.h): a 3-D vector of reals.
 *
 * The header declares the operations and documents them; their bodies are not part of
 * this model, so each operation is given the meaning its doc comment states. `Vec3` is the
 * value that the `const` operations take and return; `CVector3` is the object whose
 * fields the compound assignments, `normalize` and the writable `operator[]` update.
 */
module Vector3 {

  import opened RealArith
  import EngineMath
  import opened MathLib

  datatype Vec3 = Vec3(x: real, y: real, z: real)

  /** `zero()`: the vector (0, 0, 0). */
  function Zero(): Vec3
  {
    Vec3(0.0, 0.0, 0.0)
  }

  /** `one()`: the vector (1, 1, 1). */
  function One(): Vec3
  {
    Vec3(1.0, 1.0, 1.0)
  }

  /** `operator+`. */
  function Add(a: Vec3, b: Vec3): Vec3
  {
    Vec3(a.x + b.x, a.y + b.y, a.z + b.z)
  }

  /** `operator-`: undoes `Add`. */
  function Sub(a: Vec3, b: Vec3): (r: Vec3)
    ensures Add(r, b) == a
  {
    Vec3(a.x - b.x, a.y - b.y, a.z - b.z)
  }

  /** `operator*` by a scalar. */
  function Mul(v: Vec3, s: real): Vec3
  {
    Vec3(v.x * s, v.y * s, v.z * s)
  }

  /** `operator/` by a non-zero scalar: undoes `Mul`. */
  function Div(v: Vec3, s: real): (r: Vec3)
    requires s != 0.0
    ensures Mul(r, s) == v
  {
    Vec3(v.x / s, v.y / s, v.z / s)
  }

  /** `operator[]` (const): index 0, 1, 2 denotes x, y, z. */
  function At(v: Vec3, i: int): real
    requires 0 <= i < 3
  {
    if i == 0 then v.x else if i == 1 then v.y else v.z
  }

  /** `lengthSquare()`: the sum of the squared components; never negative. */
  function LengthSquare(v: Vec3): (r: real)
    ensures r >= 0.0
  {
    v.x * v.x + v.y * v.y + v.z * v.z
  }

  /** `length()`: the root of `lengthSquare()`. */
  function Length(v: Vec3, sqrt: real -> real): real
  {
    sqrt(LengthSquare(v))
  }

  /** `dot`. */
  function Dot(a: Vec3, b: Vec3): real
  {
    a.x * b.x + a.y * b.y + a.z * b.z
  }

  /** `cross`. */
  function Cross(a: Vec3, b: Vec3): Vec3
  {
    Vec3(a.y * b.z - a.z * b.y, a.z * b.x - a.x * b.z, a.x * b.y - a.y * b.x)
  }

  /** `normalized()` of a non-zero vector: the vector divided by its length. */
  function Normalized(v: Vec3, sqrt: real -> real): (r: Vec3)
    requires SqrtLaw(sqrt) && v != Zero()
    ensures Mul(r, Length(v, sqrt)) == v
  {
    LengthLaw(v, sqrt);
    Div(v, Length(v, sqrt))
  }

  /** `distance(a, b)`: the length of the difference. */
  function Distance(a: Vec3, b: Vec3, sqrt: real -> real): real
  {
    Length(Sub(b, a), sqrt)
  }

  /** `lerp(a, b, t)`: `a + (b - a) * t`, unclamped. */
  function Lerp(a: Vec3, b: Vec3, t: real): (r: Vec3)
    ensures t == 0.0 ==> r == a
    ensures t == 1.0 ==> r == b
    ensures a == b ==> r == a
  {
    Add(a, Mul(Sub(b, a), t))
  }

  /** `operator==`: every component equal within `EPSILON`. */
  function ApproxEq(a: Vec3, b: Vec3): bool
  {
    EngineMath.Iguales(a.x, b.x, EngineMath.EPSILON)
    && EngineMath.Iguales(a.y, b.y, EngineMath.EPSILON)
    && EngineMath.Iguales(a.z, b.z, EngineMath.EPSILON)
  }

  /** `operator!=`. */
  function NotEq(a: Vec3, b: Vec3): bool
  {
    !ApproxEq(a, b)
  }

  // ---------------------------------------------------------------------------
  // Properties
  // ---------------------------------------------------------------------------

  /** `zero()` is neutral for addition and `one()` has every component 1. */
  lemma ZeroAndOne(v: Vec3)
    ensures Add(v, Zero()) == v && Add(Zero(), v) == v && Mul(v, 0.0) == Zero()
    ensures forall i :: 0 <= i < 3 ==> At(Zero(), i) == 0.0 && At(One(), i) == 1.0
    ensures Dot(v, One()) == v.x + v.y + v.z
  {
  }

  /** Two vectors that agree at every index are equal. */
  lemma AtExtensional(a: Vec3, b: Vec3)
    requires forall i :: 0 <= i < 3 ==> At(a, i) == At(b, i)
    ensures a == b
  {
    assert At(a, 0) == At(b, 0) && At(a, 1) == At(b, 1) && At(a, 2) == At(b, 2);
  }

  /** The cross product is orthogonal to both factors, anti-commutative, and zero on a repeated factor. */
  lemma CrossProperties(a: Vec3, b: Vec3)
    ensures Dot(Cross(a, b), a) == 0.0 && Dot(Cross(a, b), b) == 0.0
    ensures Cross(a, b) == Mul(Cross(b, a), -1.0)
    ensures Cross(a, a) == Zero()
  {
  }

  /** The right-handed basis: x cross y is z. */
  lemma CrossBasis()
    ensures Cross(Vec3(1.0, 0.0, 0.0), Vec3(0.0, 1.0, 0.0)) == Vec3(0.0, 0.0, 1.0)
  {
  }

  /** Lagrange's identity: the squared length of the cross product. */
  lemma CrossLength(a: Vec3, b: Vec3)
    ensures LengthSquare(Cross(a, b)) == LengthSquare(a) * LengthSquare(b) - Dot(a, b) * Dot(a, b)
  {
  }

  /** Only the zero vector has squared length 0. */
  lemma LengthSquareZero(v: Vec3)
    ensures LengthSquare(v) == 0.0 <==> v == Zero()
  {
    SumOfSquares3(v.x, v.y, v.z, LengthSquare(v));
  }

  /** Under the root law, `length()` squared is `lengthSquare()`, and only the zero vector has length 0. */
  lemma LengthLaw(v: Vec3, sqrt: real -> real)
    requires SqrtLaw(sqrt)
    ensures Length(v, sqrt) >= 0.0
    ensures Length(v, sqrt) * Length(v, sqrt) == LengthSquare(v)
    ensures Length(v, sqrt) == 0.0 <==> v == Zero()
  {
    var len := Length(v, sqrt);
    assert len >= 0.0 && len * len == LengthSquare(v);
    SquareSign(len, LengthSquare(v));
    LengthSquareZero(v);
  }

  /** Scaling multiplies the squared length by the square of the factor. */
  lemma LengthSquareOfMul(v: Vec3, s: real)
    ensures LengthSquare(Mul(v, s)) == s * s * LengthSquare(v)
  {
  }

  /** `normalized()` of a non-zero vector has length 1. */
  lemma NormalizedIsUnit(v: Vec3, sqrt: real -> real)
    requires SqrtLaw(sqrt) && v != Zero()
    ensures LengthSquare(Normalized(v, sqrt)) == 1.0
    ensures Length(Normalized(v, sqrt), sqrt) == 1.0
  {
    var u := Normalized(v, sqrt);
    var len := Length(v, sqrt);
    LengthLaw(v, sqrt);
    LengthSquareOfMul(u, len);
    assert LengthSquare(v) == len * len * LengthSquare(u);
    ProductZero(LengthSquare(u) - 1.0, len * len);
    SqrtOfZeroAndOne(sqrt);
  }

  /** `distance` is symmetric and, under the root law, zero exactly between equal vectors. */
  lemma DistanceProperties(a: Vec3, b: Vec3, sqrt: real -> real)
    ensures Distance(a, b, sqrt) == Distance(b, a, sqrt)
    ensures SqrtLaw(sqrt) ==> (Distance(a, b, sqrt) == 0.0 <==> a == b)
  {
    var d, e := Sub(b, a), Sub(a, b);
    assert e.x == -d.x && e.y == -d.y && e.z == -d.z;
    assert LengthSquare(e) == LengthSquare(d);
    if SqrtLaw(sqrt) {
      LengthLaw(d, sqrt);
      SubZero(a, b);
    }
  }

  /** The difference of two vectors is zero exactly when they are equal. */
  lemma SubZero(a: Vec3, b: Vec3)
    ensures Sub(b, a) == Zero() <==> a == b
  {
    if Sub(b, a) == Zero() {
      assert b == Add(Sub(b, a), a);
    }
  }

  /** `operator==` is reflexive and symmetric, `operator!=` is its negation. */
  lemma ApproxEqLaws(a: Vec3, b: Vec3)
    ensures ApproxEq(a, a)
    ensures ApproxEq(a, b) == ApproxEq(b, a)
    ensures NotEq(a, b) <==> !ApproxEq(a, b)
  {
  }

  /** `operator==` is not transitive: tolerances add up along a chain. */
  lemma ApproxEqNotTransitive()
    ensures ApproxEq(Zero(), Vec3(0.0000007, 0.0, 0.0))
    ensures ApproxEq(Vec3(0.0000007, 0.0, 0.0), Vec3(0.0000014, 0.0, 0.0))
    ensures !ApproxEq(Zero(), Vec3(0.0000014, 0.0, 0.0))
  {
  }

  // ---------------------------------------------------------------------------
  // The object and its mutators
  // ---------------------------------------------------------------------------

  class CVector3 {
    var x: real
    var y: real
    var z: real

    /** The vector the fields hold. */
    function Value(): Vec3
      reads this
    {
      Vec3(x, y, z)
    }

    /** `CVector3()`: the zero vector. */
    constructor ()
      ensures Value() == Zero()
    {
      x, y, z := 0.0, 0.0, 0.0;
    }

    /** `CVector3(x, y, z)`: stores the components unchanged. */
    constructor Init(x: real, y: real, z: real)
      ensures Value() == Vec3(x, y, z)
    {
      this.x, this.y, this.z := x, y, z;
    }

    /** `operator+=`: adds `other` to the receiver and returns the receiver. */
    method AddAssign(other: Vec3) returns (self: CVector3)
      modifies this
      ensures self == this && Value() == Add(old(Value()), other)
    {
      x, y, z := x + other.x, y + other.y, z + other.z;
      self := this;
    }

    /** `operator-=`: subtracts `other` from the receiver and returns the receiver. */
    method SubAssign(other: Vec3) returns (self: CVector3)
      modifies this
      ensures self == this && Value() == Sub(old(Value()), other)
    {
      x, y, z := x - other.x, y - other.y, z - other.z;
      self := this;
    }

    /** `operator*=`: scales the receiver and returns it. */
    method MulAssign(scalar: real) returns (self: CVector3)
      modifies this
      ensures self == this && Value() == Mul(old(Value()), scalar)
    {
      x, y, z := x * scalar, y * scalar, z * scalar;
      self := this;
    }

    /** `operator/=`: divides the receiver by a non-zero scalar and returns it. */
    method DivAssign(scalar: real) returns (self: CVector3)
      requires scalar != 0.0
      modifies this
      ensures self == this && Value() == Div(old(Value()), scalar)
    {
      x, y, z := x / scalar, y / scalar, z / scalar;
      self := this;
    }

    /** `operator[]` (writable): a write through index `i` changes that component only. */
    method SetAt(i: int, value: real)
      requires 0 <= i < 3
      modifies this
      ensures At(Value(), i) == value
      ensures forall j :: 0 <= j < 3 && j != i ==> At(Value(), j) == At(old(Value()), j)
    {
      if i == 0 {
        x := value;
      } else if i == 1 {
        y := value;
      } else {
        z := value;
      }
    }

    /** `normalize()`: the receiver becomes its normalized copy, of length 1. */
    method Normalize(sqrt: real -> real)
      requires SqrtLaw(sqrt) && Value() != Zero()
      modifies this
      ensures Value() == Normalized(old(Value()), sqrt)
      ensures LengthSquare(Value()) == 1.0
    {
      var n := Normalized(Value(), sqrt);
      NormalizedIsUnit(Value(), sqrt);
      x, y, z := n.x, n.y, n.z;
    }
  }
}
