/**
 * `CVector2` (CVector2.h): a 2-D vector of reals.
 *
 * As for the 3-D vector, only the declarations and their doc comments are available, so each
 * operation is given the meaning its doc comment states. `Vec2` is the value of the `const`
 * operations; `CVector2` is the object whose private fields the compound assignments,
 * `normalize`, the writable `operator[]`, `setPosition`, `move` and `scale` update.
 */
module Vector2 {

  import opened RealArith
  import EngineMath
  import opened MathLib
  import Vector3

  datatype Vec2 = Vec2(x: real, y: real)

  /** `zero()`: the vector (0, 0). */
  function Zero(): Vec2
  {
    Vec2(0.0, 0.0)
  }

  /** `one()`: the vector (1, 1). */
  function One(): Vec2
  {
    Vec2(1.0, 1.0)
  }

  /** `operator+`. */
  function Add(a: Vec2, b: Vec2): Vec2
  {
    Vec2(a.x + b.x, a.y + b.y)
  }

  /** `operator-`: undoes `Add`. */
  function Sub(a: Vec2, b: Vec2): (r: Vec2)
    ensures Add(r, b) == a
  {
    Vec2(a.x - b.x, a.y - b.y)
  }

  /** `operator*` by a scalar. */
  function Mul(v: Vec2, s: real): Vec2
  {
    Vec2(v.x * s, v.y * s)
  }

  /** `operator/` by a non-zero scalar: undoes `Mul`. */
  function Div(v: Vec2, s: real): (r: Vec2)
    requires s != 0.0
    ensures Mul(r, s) == v
  {
    Vec2(v.x / s, v.y / s)
  }

  /** Component-wise product, the effect of `scale(factors)`. */
  function Scaled(v: Vec2, f: Vec2): Vec2
  {
    Vec2(v.x * f.x, v.y * f.y)
  }

  /** `operator[]` (const): index 0 denotes x and index 1 denotes y. */
  function At(v: Vec2, i: int): real
    requires 0 <= i < 2
  {
    if i == 0 then v.x else v.y
  }

  /** `lengthSquare()`: the sum of the squared components; never negative. */
  function LengthSquare(v: Vec2): (r: real)
    ensures r >= 0.0
  {
    v.x * v.x + v.y * v.y
  }

  /** `length()`: the root of `lengthSquare()`. */
  function Length(v: Vec2, sqrt: real -> real): real
  {
    sqrt(LengthSquare(v))
  }

  /** `dot`. */
  function Dot(a: Vec2, b: Vec2): real
  {
    a.x * b.x + a.y * b.y
  }

  /** `cross`: the scalar cross product of two 2-D vectors. */
  function Cross(a: Vec2, b: Vec2): real
  {
    a.x * b.y - a.y * b.x
  }

  /** `normalized()` of a non-zero vector: the vector divided by its length. */
  function Normalized(v: Vec2, sqrt: real -> real): (r: Vec2)
    requires SqrtLaw(sqrt) && v != Zero()
    ensures Mul(r, Length(v, sqrt)) == v
  {
    LengthLaw(v, sqrt);
    Div(v, Length(v, sqrt))
  }

  /** `distance(a, b)`: the length of the difference. */
  function Distance(a: Vec2, b: Vec2, sqrt: real -> real): real
  {
    Length(Sub(b, a), sqrt)
  }

  /** `lerp(a, b, t)`: `a + (b - a) * t`, unclamped. */
  function Lerp(a: Vec2, b: Vec2, t: real): (r: Vec2)
    ensures t == 0.0 ==> r == a
    ensures t == 1.0 ==> r == b
    ensures a == b ==> r == a
  {
    Add(a, Mul(Sub(b, a), t))
  }

  /** `operator==`: both components equal within `EPSILON`. */
  function ApproxEq(a: Vec2, b: Vec2): bool
  {
    EngineMath.Iguales(a.x, b.x, EngineMath.EPSILON) && EngineMath.Iguales(a.y, b.y, EngineMath.EPSILON)
  }

  /** `operator!=`. */
  function NotEq(a: Vec2, b: Vec2): bool
  {
    !ApproxEq(a, b)
  }

  /** The 2-D vector as a 3-D vector in the plane z = 0. */
  function Lift(v: Vec2): Vector3.Vec3
  {
    Vector3.Vec3(v.x, v.y, 0.0)
  }

  // ---------------------------------------------------------------------------
  // Properties
  // ---------------------------------------------------------------------------

  /** `zero()` is neutral for addition and `one()` has both components 1. */
  lemma ZeroAndOne(v: Vec2)
    ensures Add(v, Zero()) == v && Add(Zero(), v) == v && Mul(v, 0.0) == Zero()
    ensures forall i :: 0 <= i < 2 ==> At(Zero(), i) == 0.0 && At(One(), i) == 1.0
    ensures Scaled(v, One()) == v
  {
  }

  /** Two vectors that agree at both indices are equal. */
  lemma AtExtensional(a: Vec2, b: Vec2)
    requires forall i :: 0 <= i < 2 ==> At(a, i) == At(b, i)
    ensures a == b
  {
    assert At(a, 0) == At(b, 0) && At(a, 1) == At(b, 1);
  }

  /**
   * `cross` is the z component of the 3-D cross product of the lifted vectors, whose other
   * components vanish; hence it is anti-commutative and zero on a repeated factor.
   */
  lemma CrossIsLiftedZ(a: Vec2, b: Vec2)
    ensures Vector3.Cross(Lift(a), Lift(b)) == Vector3.Vec3(0.0, 0.0, Cross(a, b))
    ensures Cross(a, b) == -Cross(b, a)
    ensures Cross(a, a) == 0.0
  {
  }

  /** `lengthSquare()` and `dot` agree with the lifted 3-D vector. */
  lemma LiftPreservesMetric(a: Vec2, b: Vec2)
    ensures Vector3.LengthSquare(Lift(a)) == LengthSquare(a)
    ensures Vector3.Dot(Lift(a), Lift(b)) == Dot(a, b)
  {
  }

  /** Only the zero vector has squared length 0. */
  lemma LengthSquareZero(v: Vec2)
    ensures LengthSquare(v) == 0.0 <==> v == Zero()
  {
    SumOfSquares3(v.x, v.y, 0.0, LengthSquare(v));
  }

  /** Under the root law, `length()` squared is `lengthSquare()`, and only the zero vector has length 0. */
  lemma LengthLaw(v: Vec2, sqrt: real -> real)
    requires SqrtLaw(sqrt)
    ensures Length(v, sqrt) >= 0.0
    ensures Length(v, sqrt) * Length(v, sqrt) == LengthSquare(v)
    ensures Length(v, sqrt) == 0.0 <==> v == Zero()
  {
    var len := Length(v, sqrt);
    assert len >= 0.0 && len * len == LengthSquare(v);
    SquareSign(len, LengthSquare(v));
    LengthSquareZero(v);
  }

  /** Scaling multiplies the squared length by the square of the factor. */
  lemma LengthSquareOfMul(v: Vec2, s: real)
    ensures LengthSquare(Mul(v, s)) == s * s * LengthSquare(v)
  {
  }

  /** `normalized()` of a non-zero vector has length 1. */
  lemma NormalizedIsUnit(v: Vec2, sqrt: real -> real)
    requires SqrtLaw(sqrt) && v != Zero()
    ensures LengthSquare(Normalized(v, sqrt)) == 1.0
    ensures Length(Normalized(v, sqrt), sqrt) == 1.0
  {
    var u := Normalized(v, sqrt);
    var len := Length(v, sqrt);
    LengthLaw(v, sqrt);
    LengthSquareOfMul(u, len);
    assert LengthSquare(v) == len * len * LengthSquare(u);
    ProductZero(LengthSquare(u) - 1.0, len * len);
    SqrtOfZeroAndOne(sqrt);
  }

  /** `distance` is symmetric and, under the root law, zero exactly between equal vectors. */
  lemma DistanceProperties(a: Vec2, b: Vec2, sqrt: real -> real)
    ensures Distance(a, b, sqrt) == Distance(b, a, sqrt)
    ensures SqrtLaw(sqrt) ==> (Distance(a, b, sqrt) == 0.0 <==> a == b)
  {
    var d, e := Sub(b, a), Sub(a, b);
    assert e.x == -d.x && e.y == -d.y;
    assert LengthSquare(e) == LengthSquare(d);
    if SqrtLaw(sqrt) {
      LengthLaw(d, sqrt);
      SubZero(a, b);
    }
  }

  /** The difference of two vectors is zero exactly when they are equal. */
  lemma SubZero(a: Vec2, b: Vec2)
    ensures Sub(b, a) == Zero() <==> a == b
  {
    if Sub(b, a) == Zero() {
      assert b == Add(Sub(b, a), a);
    }
  }

  /** `operator==` is reflexive and symmetric, `operator!=` is its negation. */
  lemma ApproxEqLaws(a: Vec2, b: Vec2)
    ensures ApproxEq(a, a)
    ensures ApproxEq(a, b) == ApproxEq(b, a)
    ensures NotEq(a, b) <==> !ApproxEq(a, b)
  {
  }

  // ---------------------------------------------------------------------------
  // The object and its mutators
  // ---------------------------------------------------------------------------

  class CVector2 {
    var x: real
    var y: real

    /** The vector the fields hold. */
    function Value(): Vec2
      reads this
    {
      Vec2(x, y)
    }

    /** `CVector2()`: the zero vector. */
    constructor ()
      ensures Value() == Zero()
    {
      x, y := 0.0, 0.0;
    }

    /** `CVector2(xVal, yVal)`: stores the components unchanged. */
    constructor Init(xVal: real, yVal: real)
      ensures Value() == Vec2(xVal, yVal)
    {
      x, y := xVal, yVal;
    }

    /** `operator+=`: adds `o` to the receiver and returns the receiver. */
    method AddAssign(o: Vec2) returns (self: CVector2)
      modifies this
      ensures self == this && Value() == Add(old(Value()), o)
    {
      x, y := x + o.x, y + o.y;
      self := this;
    }

    /** `operator-=`: subtracts `o` from the receiver and returns the receiver. */
    method SubAssign(o: Vec2) returns (self: CVector2)
      modifies this
      ensures self == this && Value() == Sub(old(Value()), o)
    {
      x, y := x - o.x, y - o.y;
      self := this;
    }

    /** `operator*=`: scales the receiver and returns it. */
    method MulAssign(escalar: real) returns (self: CVector2)
      modifies this
      ensures self == this && Value() == Mul(old(Value()), escalar)
    {
      x, y := x * escalar, y * escalar;
      self := this;
    }

    /** `operator/=`: divides the receiver by a non-zero scalar and returns it. */
    method DivAssign(escalar: real) returns (self: CVector2)
      requires escalar != 0.0
      modifies this
      ensures self == this && Value() == Div(old(Value()), escalar)
    {
      x, y := x / escalar, y / escalar;
      self := this;
    }

    /** `operator[]` (writable): a write through index `i` changes that component only. */
    method SetAt(i: int, value: real)
      requires 0 <= i < 2
      modifies this
      ensures At(Value(), i) == value
      ensures forall j :: 0 <= j < 2 && j != i ==> At(Value(), j) == At(old(Value()), j)
    {
      if i == 0 {
        x := value;
      } else {
        y := value;
      }
    }

    /** `normalize()`: the receiver becomes its normalized copy, of length 1. */
    method Normalize(sqrt: real -> real)
      requires SqrtLaw(sqrt) && Value() != Zero()
      modifies this
      ensures Value() == Normalized(old(Value()), sqrt)
      ensures LengthSquare(Value()) == 1.0
    {
      var n := Normalized(Value(), sqrt);
      NormalizedIsUnit(Value(), sqrt);
      x, y := n.x, n.y;
    }

    /** `setPosition(pos)`: the receiver becomes `pos`. */
    method SetPosition(pos: Vec2)
      modifies this
      ensures Value() == pos
    {
      x, y := pos.x, pos.y;
    }

    /** `move(offset)`: the receiver is displaced by `offset`; `Sub` undoes it. */
    method Move(offset: Vec2)
      modifies this
      ensures Value() == Add(old(Value()), offset)
      ensures Sub(Value(), offset) == old(Value())
    {
      x, y := x + offset.x, y + offset.y;
    }

    /** `scale(factors)`: each component is multiplied by the matching factor. */
    method Scale(factors: Vec2)
      modifies this
      ensures Value() == Scaled(old(Value()), factors)
    {
      x, y := x * factors.x, y * factors.y;
    }
  }
}
