# EngineUtilities math core in Dafny

This project models the mathematical core of EngineUtilities, a header-only C++ library for
games and engineering code. It proves properties of that model. The core has three parts:

- **`EngineMathLib` scalar routines** (`EngineMath.h`), in `engine_math.dfy`:
  - the Newton-Raphson square root `raizCuadrada`;
  - the approximate power `potencia`;
  - the range reduction `modulo` and `factorial`;
  - rounding (`piso`, `techo`, `redondear`), `valorAbs`/`absoluto`, `maximo`/`minimo`;
  - `iguales` and `interpolacion`;
  - the domain guards of `logNatural`, `arcSeno` and `tangente`.

  Every `double` is a `real`. `Ext` holds the non-finite values a routine returns in band:
  - `-1.0 / 0.0` is `NegInf`;
  - `1.0 / 0.0` is `PosInf`;
  - `0.0 / 0.0` is `NaN`.

  Each routine that loops is a method proved to return exactly a specification function:
  - `Potencia` returns `LegacyPower`;
  - `Modulo` returns the closed form `ModuloValue`;
  - `Factorial` returns the recursive `Fact`.
- **`CQuaternion`** (`Quaternion.h`), in `quaternion.dfy`:
  - The value type `Quat` carries the Hamilton product, the component-wise operators, `conjugate`, `rotate`, `fromAxisAngle`, `normalized`, and `slerp` as a value.
  - The class `CQuaternion` carries the in-place `normalize`, `normalized`, and `slerp`. `slerp` reassigns its locals `dot` and `bAdjusted`.
- **`CVector3` and `CVector2`** (`CVector3.h`, `CVector2.h`), in `vector3.dfy` and `vector2.dfy`:
  - The headers only declare these operations, with doc comments, so each operation gets the meaning its doc comment states. Where a doc comment leaves a choice open (the tolerance of `operator==`), the choice is named under "Left out".
  - Value types `Vec3`/`Vec2` carry the `const` operations.
  - Classes `CVector3`/`CVector2` carry the compound assignments, the writable `operator[]`, `normalize`, and the 2-D mutators `setPosition`, `move` and `scale`.

The vector and quaternion headers call `EngineMathLib::sqrt`, `sin`, `cos` and `acos`. `EngineMath.h` does not define functions under those names, so they are parameters:

- `MathLib.Kernel` bundles the four.
- No law about them holds globally. A member that needs one states it in its `requires`:
  - `MathLib.SqrtLaw`: `sqrt(s) >= 0` and `sqrt(s) * sqrt(s) == s` for `s >= 0`. It is required by the length, normalization and slerp lemmas (among them `Quaternion.SlerpSame` and `Quaternion.SlerpIsUnit`), by the functions `Vector3.Normalized` and `Vector2.Normalized`, and by the methods `CVector3.Normalize` and `CVector2.Normalize`.
  - `sin(0) == 0` and `cos(0) == 1`: required by `FromAxisAngleZero` and `SlerpAtZero`.
  - `cos(acos(d)) == d` for the adjusted dot product: required by `SlerpAtOne`.

The series bodies behind `logNatural`, `arcSeno`, `seno` and `coseno` are parameters too.

`real_arith.dfy` holds small facts of real arithmetic that the other files use. Several are stated about a named value, such as the sign of a square or a quotient pinned down by its product.

Quaternion `normalize` divides only when the magnitude is positive (`Quaternion.h:74`) and otherwise leaves the quaternion unchanged. `CQuaternion.Normalize` and `Normalized` keep that guard.

## Model

`Quaternion.Zero`, the quaternion `(0, 0, 0, 0)`, has no row: it is a sub-term of `Norm2Zero`, `MagnitudePositive`, `NormalizedOfZero` and `CQuaternion.Normalize`.

| member | source | states |
|---|---|---|
| EngineMath.NewtonStep | EngineUtilities/Include/Utilities/EngineMath.h:20 | definition (no ensures): one update, the mean of the estimate `e` and `x / e` |
| EngineMath.Newton | EngineUtilities/Include/Utilities/EngineMath.h:18-22 | for `x > 0` and a positive start, every Newton estimate stays positive, so each update's division is defined |
| EngineMath.NewtonStepAboveRoot | EngineUtilities/Include/Utilities/EngineMath.h:20 | one update `(e + x/e)/2` from any positive estimate squares to at least `x` |
| EngineMath.NewtonStepDescends | EngineUtilities/Include/Utilities/EngineMath.h:20 | from an estimate whose square is at least `x`, an update never increases the estimate |
| EngineMath.NewtonAboveRoot | EngineUtilities/Include/Utilities/EngineMath.h:18-22 | after at least one update every estimate squares to at least `x` |
| EngineMath.NewtonNonIncreasing | EngineUtilities/Include/Utilities/EngineMath.h:18-22 | after the first update the estimates never increase |
| EngineMath.NewtonFixedPoint | EngineUtilities/Include/Utilities/EngineMath.h:18-22 | an exact root is a fixed point of the iteration, for any number of updates |
| EngineMath.RaizCuadrada | EngineUtilities/Include/Utilities/EngineMath.h:16-23 | as written: minus infinity for `x < 0`; NaN for `x == 0`; otherwise exactly 20 updates from `x/2`, a positive value whose square is at least `x` |
| EngineMath.RaizCuadradaCorregida | EngineUtilities/Include/Utilities/EngineMath.h:16-23 | corrected: the same except that `x == 0` gives 0; every result for `x >= 0` is finite, non-negative and squares to at least `x` |
| EngineMath.Pow | EngineUtilities/Include/Utilities/EngineMath.h:40-43 | definition (no ensures): `b` multiplied `n` times into 1, as the loop does |
| EngineMath.PositivePower | EngineUtilities/Include/Utilities/EngineMath.h:39-49 | definition (no ensures): for `e > 0`, `b^floor(e)`, times `1 + f * (b - 1)` when the fraction `f` is positive |
| EngineMath.LegacyPower | EngineUtilities/Include/Utilities/EngineMath.h:32-52 | definition (no ensures): 0 for base 0 and `e <= 0`; 1 for `e == 0`; `PositivePower` for `e > 0`; otherwise 1 over `PositivePower(b, -e)`, an infinity signed like the integer power when that is 0 |
| EngineMath.PowSign | EngineUtilities/Include/Utilities/EngineMath.h:40-43 | repeated multiplication of a non-zero base never gives 0, and of a positive base stays positive |
| EngineMath.IntegerPower | EngineUtilities/Include/Utilities/EngineMath.h:39-45 | the loop leaves `base` to the integer part of the exponent, and the fractional part in `[0, 1)` |
| EngineMath.Potencia | EngineUtilities/Include/Utilities/EngineMath.h:32-52 | returns exactly `LegacyPower`: the two guards in order, the loop, the chord correction, and the reciprocal for a negative exponent |
| EngineMath.PowMonotone | EngineUtilities/Include/Utilities/EngineMath.h:40-43 | for `b >= 1` the integer powers are at least 1 and grow with the exponent |
| EngineMath.PotenciaGuards | EngineUtilities/Include/Utilities/EngineMath.h:33-34 | `0^e == 0` for every `e <= 0` (so `0^0 == 0`); `b^0 == 1` for `b != 0` |
| EngineMath.PotenciaNatural | EngineUtilities/Include/Utilities/EngineMath.h:36-43 | a natural exponent gives repeated multiplication exactly |
| EngineMath.PotenciaNegativeInteger | EngineUtilities/Include/Utilities/EngineMath.h:36-51 | a negative integer exponent gives the reciprocal of the power for its magnitude |
| EngineMath.PotenciaReciprocal | EngineUtilities/Include/Utilities/EngineMath.h:51 | for every negative exponent `-e` and non-zero base, the result is 1 over the result for `e` whenever that is not 0, so the two multiply to 1 |
| EngineMath.PotenciaPositiveExponent | EngineUtilities/Include/Utilities/EngineMath.h:40-49 | for `e > 0` the result is `b^floor(e) * (1 + (e - floor(e)) * (b - 1))` |
| EngineMath.PotenciaBetween | EngineUtilities/Include/Utilities/EngineMath.h:40-49 | for `b >= 1` the result lies between `b^floor(e)` and `b^(floor(e)+1)`: a straight line between the integer powers, not a true power |
| EngineMath.ChordBounds | EngineUtilities/Include/Utilities/EngineMath.h:47 | for `b >= 1` the correction factor `1 + f * (b - 1)` with `f` in `[0, 1]` lies in `[1, b]` |
| EngineMath.PotenciaFractionIsChord | EngineUtilities/Include/Utilities/EngineMath.h:45-49 | on `(0, 1)` the exponent is the chord through `b^0` and `b^1` |
| EngineMath.PotenciaHalfOfZero | EngineUtilities/Include/Utilities/EngineMath.h:45-49 | example: the chord rule gives `0^0.5 == 0.5` |
| EngineMath.ValorAbs | EngineUtilities/Include/Utilities/EngineMath.h:55 | non-negative and equal to `x` or `-x` (also `absoluto`, line 81) |
| EngineMath.Maximo | EngineUtilities/Include/Utilities/EngineMath.h:58 | at least both arguments and equal to one of them |
| EngineMath.Minimo | EngineUtilities/Include/Utilities/EngineMath.h:61 | at most both arguments and equal to one of them |
| EngineMath.Trunc | EngineUtilities/Include/Utilities/EngineMath.h:70 | the conversion `int(x)` truncates toward zero: within one of `x` and on the side of zero |
| EngineMath.Piso | EngineUtilities/Include/Utilities/EngineMath.h:69-72 | `piso(x) <= x < piso(x) + 1` |
| EngineMath.Techo | EngineUtilities/Include/Utilities/EngineMath.h:75-78 | `techo(x) - 1 < x <= techo(x)` |
| EngineMath.Redondear | EngineUtilities/Include/Utilities/EngineMath.h:64-66 | within one half of `x`, halves rounded away from zero |
| EngineMath.RedondearSymmetric | EngineUtilities/Include/Utilities/EngineMath.h:64-78 | `redondear(-x) == -redondear(x)` and `piso(x) <= redondear(x) <= techo(x)` |
| EngineMath.ModuloValue | EngineUtilities/Include/Utilities/EngineMath.h:84-88 | the reduced value lies in `[0, b)` and a value already in `[0, b)` is unchanged |
| EngineMath.ModuloUnique | EngineUtilities/Include/Utilities/EngineMath.h:84-88 | any value in `[0, b)` that differs from `a` by an integer multiple of `b` is the reduced value |
| EngineMath.ModuloPeriodic | EngineUtilities/Include/Utilities/EngineMath.h:84-88 | shifting `a` by `b` leaves the reduced value unchanged |
| EngineMath.Modulo | EngineUtilities/Include/Utilities/EngineMath.h:84-88 | over reals, the two loops terminate for `b > 0` and return the reduced value, so the result lies in `[0, b)` and differs from `a` by a multiple of `b` |
| EngineMath.Fact | EngineUtilities/Include/Utilities/EngineMath.h:238-245 | `n!` is at least 1 |
| EngineMath.Factorial | EngineUtilities/Include/Utilities/EngineMath.h:238-245 | minus infinity for `n < 0`; otherwise the loop's product `2 * ... * n` equals `n!` |
| EngineMath.Iguales | EngineUtilities/Include/Utilities/EngineMath.h:247-249 | true exactly when `a` lies strictly within `epsilon` of `b` |
| EngineMath.IgualesSymmetric | EngineUtilities/Include/Utilities/EngineMath.h:247-249 | symmetric, and reflexive for a positive tolerance |
| EngineMath.Interpolacion | EngineUtilities/Include/Utilities/EngineMath.h:234-236 | `a` at `t = 0`, `b` at `t = 1`, and between them for `t` in `[0, 1]`, whichever of `a` and `b` is larger |
| EngineMath.LogNatural | EngineUtilities/Include/Utilities/EngineMath.h:103-104 | minus infinity exactly when `x <= 0`, otherwise the series value at `x` |
| EngineMath.ArcSeno | EngineUtilities/Include/Utilities/EngineMath.h:163-164 | minus infinity exactly outside `[-1, 1]`, otherwise the series value at `x` |
| EngineMath.Tangente | EngineUtilities/Include/Utilities/EngineMath.h:157-161 | plus infinity exactly when the cosine is 0; otherwise the quotient, which times the cosine is the sine |
| Vector3.Zero | EngineUtilities/Include/Vector/CVector3.h:95 | definition (no ensures): `(0, 0, 0)` |
| Vector3.One | EngineUtilities/Include/Vector/CVector3.h:98 | definition (no ensures): `(1, 1, 1)` |
| Vector3.Add | EngineUtilities/Include/Vector/CVector3.h:24 | definition (no ensures): the component-wise sum |
| Vector3.Mul | EngineUtilities/Include/Vector/CVector3.h:30 | definition (no ensures): every component times the scalar |
| Vector3.At | EngineUtilities/Include/Vector/CVector3.h:63 | definition (no ensures): index 0, 1, 2 reads x, y, z; other indices are excluded |
| Vector3.Length | EngineUtilities/Include/Vector/CVector3.h:71 | definition (no ensures): `sqrt` of `lengthSquare()` |
| Vector3.Dot | EngineUtilities/Include/Vector/CVector3.h:74 | definition (no ensures): the sum of the component-wise products |
| Vector3.Cross | EngineUtilities/Include/Vector/CVector3.h:77 | definition (no ensures): the right-handed cross product `(ay bz - az by, az bx - ax bz, ax by - ay bx)` |
| Vector3.Distance | EngineUtilities/Include/Vector/CVector3.h:88 | definition (no ensures): the length of `b - a` |
| Vector3.ApproxEq | EngineUtilities/Include/Vector/CVector3.h:52 | definition (no ensures): every component equal within `EPSILON`, by `iguales` |
| Vector3.NotEq | EngineUtilities/Include/Vector/CVector3.h:55 | definition (no ensures): the negation of `operator==` |
| Vector3.Sub | EngineUtilities/Include/Vector/CVector3.h:27 | `operator-` undoes `operator+` |
| Vector3.Div | EngineUtilities/Include/Vector/CVector3.h:33 | `operator/` by a non-zero scalar undoes `operator*` |
| Vector3.LengthSquare | EngineUtilities/Include/Vector/CVector3.h:68 | the squared length is never negative |
| Vector3.Normalized | EngineUtilities/Include/Vector/CVector3.h:80 | the normalized copy times the length is the vector |
| Vector3.Lerp | EngineUtilities/Include/Vector/CVector3.h:92 | `lerp(a, b, 0) == a`, `lerp(a, b, 1) == b`, and `lerp(a, a, t) == a` |
| Vector3.ZeroAndOne | EngineUtilities/Include/Vector/CVector3.h:95-98 | `zero()` is neutral for `+`, every component of `zero()` is 0 and of `one()` is 1, so the dot product with `one()` sums the components |
| Vector3.AtExtensional | EngineUtilities/Include/Vector/CVector3.h:63 | indices 0, 1, 2 denote x, y, z: vectors equal at every index are equal |
| Vector3.CrossProperties | EngineUtilities/Include/Vector/CVector3.h:77 | the cross product is orthogonal to both factors, anti-commutative, and zero on a repeated factor |
| Vector3.CrossBasis | EngineUtilities/Include/Vector/CVector3.h:77 | the cross product is right-handed: x cross y is z |
| Vector3.CrossLength | EngineUtilities/Include/Vector/CVector3.h:77 | Lagrange's identity for the squared length of the cross product |
| Vector3.LengthSquareZero | EngineUtilities/Include/Vector/CVector3.h:68 | only the zero vector has squared length 0 |
| Vector3.LengthLaw | EngineUtilities/Include/Vector/CVector3.h:68-71 | under the root law `length()` is non-negative, squares to `lengthSquare()`, and is 0 only for the zero vector |
| Vector3.LengthSquareOfMul | EngineUtilities/Include/Vector/CVector3.h:30 | scaling by `s` multiplies the squared length by `s * s` |
| Vector3.NormalizedIsUnit | EngineUtilities/Include/Vector/CVector3.h:80 | the normalized copy of a non-zero vector has length 1 |
| Vector3.DistanceProperties | EngineUtilities/Include/Vector/CVector3.h:88 | `distance` is symmetric and, under the root law, 0 exactly between equal vectors |
| Vector3.ApproxEqLaws | EngineUtilities/Include/Vector/CVector3.h:52-55 | `==` is reflexive and symmetric; `!=` is its negation |
| Vector3.ApproxEqNotTransitive | EngineUtilities/Include/Vector/CVector3.h:52 | the tolerance `==` is not transitive |
| Vector3.CVector3.constructor | EngineUtilities/Include/Vector/CVector3.h:13 | the default constructor gives `(0, 0, 0)` |
| Vector3.CVector3.Init | EngineUtilities/Include/Vector/CVector3.h:19 | the value constructor stores the components unchanged |
| Vector3.CVector3.AddAssign | EngineUtilities/Include/Vector/CVector3.h:38 | `+=` adds to the receiver and returns the receiver |
| Vector3.CVector3.SubAssign | EngineUtilities/Include/Vector/CVector3.h:41 | `-=` subtracts from the receiver and returns the receiver |
| Vector3.CVector3.MulAssign | EngineUtilities/Include/Vector/CVector3.h:44 | `*=` scales the receiver and returns the receiver |
| Vector3.CVector3.DivAssign | EngineUtilities/Include/Vector/CVector3.h:47 | `/=` divides the receiver by a non-zero scalar and returns the receiver |
| Vector3.CVector3.SetAt | EngineUtilities/Include/Vector/CVector3.h:60 | a write through `operator[]` sets that component and no other |
| Vector3.CVector3.Normalize | EngineUtilities/Include/Vector/CVector3.h:83 | the receiver becomes its normalized copy, of squared length 1 |
| Vector2.Zero | EngineUtilities/Include/Vector/CVector2.h:98 | definition (no ensures): `(0, 0)` |
| Vector2.One | EngineUtilities/Include/Vector/CVector2.h:101 | definition (no ensures): `(1, 1)` |
| Vector2.Add | EngineUtilities/Include/Vector/CVector2.h:27 | definition (no ensures): the component-wise sum |
| Vector2.Mul | EngineUtilities/Include/Vector/CVector2.h:33 | definition (no ensures): both components times the scalar |
| Vector2.Scaled | EngineUtilities/Include/Vector/CVector2.h:115 | definition (no ensures): the component-wise product with the factors, the value `scale` assigns |
| Vector2.At | EngineUtilities/Include/Vector/CVector2.h:66 | definition (no ensures): index 0 reads x and index 1 reads y; other indices are excluded |
| Vector2.Length | EngineUtilities/Include/Vector/CVector2.h:74 | definition (no ensures): `sqrt` of `lengthSquare()` |
| Vector2.Dot | EngineUtilities/Include/Vector/CVector2.h:77 | definition (no ensures): `ax bx + ay by` |
| Vector2.Cross | EngineUtilities/Include/Vector/CVector2.h:80 | definition (no ensures): the scalar `ax by - ay bx` |
| Vector2.Distance | EngineUtilities/Include/Vector/CVector2.h:91 | definition (no ensures): the length of `b - a` |
| Vector2.ApproxEq | EngineUtilities/Include/Vector/CVector2.h:55 | definition (no ensures): both components equal within `EPSILON`, by `iguales` |
| Vector2.NotEq | EngineUtilities/Include/Vector/CVector2.h:58 | definition (no ensures): the negation of `operator==` |
| Vector2.Sub | EngineUtilities/Include/Vector/CVector2.h:30 | `operator-` undoes `operator+` |
| Vector2.Div | EngineUtilities/Include/Vector/CVector2.h:36 | `operator/` by a non-zero scalar undoes `operator*` |
| Vector2.LengthSquare | EngineUtilities/Include/Vector/CVector2.h:71 | the squared length is never negative |
| Vector2.Normalized | EngineUtilities/Include/Vector/CVector2.h:83 | the normalized copy times the length is the vector |
| Vector2.Lerp | EngineUtilities/Include/Vector/CVector2.h:95 | `lerp(a, b, 0) == a`, `lerp(a, b, 1) == b`, and `lerp(a, a, t) == a` |
| Vector2.ZeroAndOne | EngineUtilities/Include/Vector/CVector2.h:98-101 | `zero()` is neutral for `+`, `zero()` is `(0, 0)` and `one()` is `(1, 1)` at every index |
| Vector2.AtExtensional | EngineUtilities/Include/Vector/CVector2.h:66 | indices 0 and 1 denote x and y: vectors equal at both indices are equal |
| Vector2.CrossIsLiftedZ | EngineUtilities/Include/Vector/CVector2.h:80 | `cross` is the z component of the 3-D cross product of `(x1, y1, 0)` and `(x2, y2, 0)`, so it is anti-commutative and zero on a repeated factor |
| Vector2.LiftPreservesMetric | EngineUtilities/Include/Vector/CVector2.h:71-77 | `lengthSquare` and `dot` agree with the 3-D ones on the plane z = 0 |
| Vector2.LengthSquareZero | EngineUtilities/Include/Vector/CVector2.h:71 | only the zero vector has squared length 0 |
| Vector2.LengthLaw | EngineUtilities/Include/Vector/CVector2.h:71-74 | under the root law `length()` is non-negative, squares to `lengthSquare()`, and is 0 only for the zero vector |
| Vector2.LengthSquareOfMul | EngineUtilities/Include/Vector/CVector2.h:33 | scaling by `s` multiplies the squared length by `s * s` |
| Vector2.NormalizedIsUnit | EngineUtilities/Include/Vector/CVector2.h:83 | the normalized copy of a non-zero vector has length 1 |
| Vector2.DistanceProperties | EngineUtilities/Include/Vector/CVector2.h:91 | `distance` is symmetric and, under the root law, 0 exactly between equal vectors |
| Vector2.ApproxEqLaws | EngineUtilities/Include/Vector/CVector2.h:55-58 | `==` is reflexive and symmetric; `!=` is its negation |
| Vector2.CVector2.constructor | EngineUtilities/Include/Vector/CVector2.h:17 | the default constructor gives `(0, 0)` |
| Vector2.CVector2.Init | EngineUtilities/Include/Vector/CVector2.h:22 | the value constructor stores `x` and `y` |
| Vector2.CVector2.AddAssign | EngineUtilities/Include/Vector/CVector2.h:41 | `+=` adds to the receiver and returns the receiver |
| Vector2.CVector2.SubAssign | EngineUtilities/Include/Vector/CVector2.h:44 | `-=` subtracts from the receiver and returns the receiver |
| Vector2.CVector2.MulAssign | EngineUtilities/Include/Vector/CVector2.h:47 | `*=` scales the receiver and returns the receiver |
| Vector2.CVector2.DivAssign | EngineUtilities/Include/Vector/CVector2.h:50 | `/=` divides the receiver by a non-zero scalar and returns the receiver |
| Vector2.CVector2.SetAt | EngineUtilities/Include/Vector/CVector2.h:63 | a write through `operator[]` sets that component and not the other |
| Vector2.CVector2.Normalize | EngineUtilities/Include/Vector/CVector2.h:86 | the receiver becomes its normalized copy, of squared length 1 |
| Vector2.CVector2.SetPosition | EngineUtilities/Include/Vector/CVector2.h:106 | the receiver becomes `pos` |
| Vector2.CVector2.Move | EngineUtilities/Include/Vector/CVector2.h:109 | the receiver is displaced by `offset`, and subtracting `offset` gives back the old position |
| Vector2.CVector2.Scale | EngineUtilities/Include/Vector/CVector2.h:115 | each component is multiplied by the matching factor |
| Quaternion.Identity | EngineUtilities/Include/Vector/Quaternion.h:17 | definition (no ensures): the default value `(0, 0, 0, 1)`; `IdentityIsUnit` states what it means |
| Quaternion.Magnitude | EngineUtilities/Include/Vector/Quaternion.h:73 | definition (no ensures): `mag`, the root of the squared magnitude; `MagnitudePositive` states its sign |
| Quaternion.Pure | EngineUtilities/Include/Vector/Quaternion.h:106 | definition (no ensures): `vecQuat`, the vector with scalar part 0 that `rotate` sandwiches |
| Quaternion.SlerpDefined | EngineUtilities/Include/Vector/Quaternion.h:141-152 | definition (no ensures): the linear branch is taken, or the divisor `sin(theta_0)` is not 0 |
| Quaternion.Mul | EngineUtilities/Include/Vector/Quaternion.h:33-40 | definition (no ensures): the Hamilton product, component by component as written |
| Quaternion.Scale | EngineUtilities/Include/Vector/Quaternion.h:47-49 | definition (no ensures): every component times the scalar |
| Quaternion.Add | EngineUtilities/Include/Vector/Quaternion.h:56-58 | definition (no ensures): the component-wise sum |
| Quaternion.Dot | EngineUtilities/Include/Vector/Quaternion.h:132 | definition (no ensures): the 4-D dot product |
| Quaternion.Rotate | EngineUtilities/Include/Vector/Quaternion.h:105-109 | definition (no ensures): the vector part of `q * (v, 0) * conjugate(q)` |
| Quaternion.FromAxisAngle | EngineUtilities/Include/Vector/Quaternion.h:117-122 | definition (no ensures): `(axis * sin(θ/2), cos(θ/2))`, the axis taken as given |
| Quaternion.SphericalWeights | EngineUtilities/Include/Vector/Quaternion.h:145-153 | definition (no ensures): with `θ0 = acos(dot)` and `θ = θ0 t`, the weights `cos θ - dot sin θ / sin θ0` and `sin θ / sin θ0` |
| Quaternion.SlerpBlend | EngineUtilities/Include/Vector/Quaternion.h:131-155 | definition (no ensures): with the adjusted dot and end, the normalized linear blend above 0.9995 and the normalized weighted sum otherwise |
| Quaternion.Sub | EngineUtilities/Include/Vector/Quaternion.h:65-67 | `operator-` undoes `operator+` |
| Quaternion.Conjugate | EngineUtilities/Include/Vector/Quaternion.h:96-98 | the conjugate keeps `w` and its vector part cancels the original's |
| Quaternion.Norm2 | EngineUtilities/Include/Vector/Quaternion.h:73 | the squared magnitude under the root in `normalize` is never negative |
| Quaternion.Normalized | EngineUtilities/Include/Vector/Quaternion.h:72-90 | with a positive magnitude, the copy times the magnitude is the quaternion; otherwise the copy is the quaternion itself |
| Quaternion.ArcDot | EngineUtilities/Include/Vector/Quaternion.h:132-139 | the adjusted dot product is non-negative and is `dot` or `-dot` |
| Quaternion.ArcEnd | EngineUtilities/Include/Vector/Quaternion.h:134-139 | the adjusted end is `b` or `-b`, and its dot product with `a` is the adjusted dot product |
| Quaternion.IdentityIsUnit | EngineUtilities/Include/Vector/Quaternion.h:33-40 | the default value `(0, 0, 0, 1)` is a two-sided unit of the Hamilton product |
| Quaternion.ConjugateInvolution | EngineUtilities/Include/Vector/Quaternion.h:96-98 | conjugating twice gives the quaternion back; the identity is its own conjugate |
| Quaternion.ConjugateOfProduct | EngineUtilities/Include/Vector/Quaternion.h:33-40 | the conjugate of a product is the product of the conjugates in reverse order |
| Quaternion.MulConjugate | EngineUtilities/Include/Vector/Quaternion.h:33-40 | `q * conjugate(q)` and `conjugate(q) * q` are `(0, 0, 0, x²+y²+z²+w²)` |
| Quaternion.Norm2OfConjugate | EngineUtilities/Include/Vector/Quaternion.h:96-98 | conjugation keeps the squared magnitude |
| Quaternion.Norm2Zero | EngineUtilities/Include/Vector/Quaternion.h:73 | only the zero quaternion has squared magnitude 0 |
| Quaternion.Norm2OfScale | EngineUtilities/Include/Vector/Quaternion.h:47-49 | scaling by `s` multiplies the squared magnitude by `s * s` |
| Quaternion.AddLaws | EngineUtilities/Include/Vector/Quaternion.h:56-67 | `+` commutes and `-` undoes it |
| Quaternion.ScaleLaws | EngineUtilities/Include/Vector/Quaternion.h:47-58 | scalar `*` distributes over `+`, has unit 1, and negating twice is the identity |
| Quaternion.DotLaws | EngineUtilities/Include/Vector/Quaternion.h:132 | the 4-D dot product is symmetric, is the squared magnitude on the diagonal, and scales linearly |
| Quaternion.MagnitudePositive | EngineUtilities/Include/Vector/Quaternion.h:73-74 | under the root law the magnitude is positive exactly for a non-zero quaternion |
| Quaternion.NormalizedIsUnit | EngineUtilities/Include/Vector/Quaternion.h:72-80 | under the root law, normalizing a non-zero quaternion gives squared magnitude 1 |
| Quaternion.NormalizedOfZero | EngineUtilities/Include/Vector/Quaternion.h:74 | the zero quaternion is left unchanged, whatever `sqrt` returns |
| Quaternion.NormalizedOfUnit | EngineUtilities/Include/Vector/Quaternion.h:86-90 | a quaternion of squared magnitude 1 is its own normalized copy |
| Quaternion.NormalizedIdempotent | EngineUtilities/Include/Vector/Quaternion.h:86-90 | normalizing twice is normalizing once |
| Quaternion.RotateByIdentity | EngineUtilities/Include/Vector/Quaternion.h:105-109 | rotating by the identity returns the vector unchanged |
| Quaternion.SandwichIsPure | EngineUtilities/Include/Vector/Quaternion.h:105-109 | the sandwich `q * (v, 0) * conjugate(q)` has scalar part 0, so `rotate` drops nothing |
| Quaternion.FromAxisAngleNorm | EngineUtilities/Include/Vector/Quaternion.h:117-122 | the squared magnitude is `|axis|² sin²(θ/2) + cos²(θ/2)`: a unit axis and `sin² + cos² = 1` give a unit quaternion; the axis is not normalized |
| Quaternion.FromAxisAngleZero | EngineUtilities/Include/Vector/Quaternion.h:117-122 | a zero angle gives the identity, whatever the axis |
| Quaternion.SlerpShorterArc | EngineUtilities/Include/Vector/Quaternion.h:132-139 | a negative dot product flips `b` and the dot product; any other, zero included, leaves both as they are; the adjusted end is never on the far side |
| Quaternion.SlerpLinearBranch | EngineUtilities/Include/Vector/Quaternion.h:141-143 | above 0.9995 the result is the normalized linear blend `a + (b' - a) * t` |
| Quaternion.SlerpNegatedEnd | EngineUtilities/Include/Vector/Quaternion.h:131-155 | negating `b` does not change the result when `a` and `b` are not orthogonal |
| Quaternion.SlerpAtZero | EngineUtilities/Include/Vector/Quaternion.h:141-154 | with `sin 0 = 0` and `cos 0 = 1`, `t = 0` gives the normalized start |
| Quaternion.SlerpAtOne | EngineUtilities/Include/Vector/Quaternion.h:141-154 | when `cos` undoes `acos`, `t = 1` gives the normalized adjusted end |
| Quaternion.SlerpSame | EngineUtilities/Include/Vector/Quaternion.h:131-155 | interpolating a unit quaternion with itself gives it back for every `t` |
| Quaternion.SlerpIsUnit | EngineUtilities/Include/Vector/Quaternion.h:131-155 | under the root law the result has squared magnitude 1 unless the blend is zero |
| Quaternion.CQuaternion.constructor | EngineUtilities/Include/Vector/Quaternion.h:17 | the default constructor gives the identity `(0, 0, 0, 1)` |
| Quaternion.CQuaternion.Init | EngineUtilities/Include/Vector/Quaternion.h:26 | the value constructor stores the components unchanged |
| Quaternion.CQuaternion.Normalize | EngineUtilities/Include/Vector/Quaternion.h:72-80 | divides the fields in place when the magnitude is positive; under the root law a non-zero receiver becomes unit; a zero receiver stays zero for every `sqrt` |
| Quaternion.CQuaternion.NormalizedCopy | EngineUtilities/Include/Vector/Quaternion.h:86-90 | returns a fresh normalized copy, leaving the receiver untouched |
| Quaternion.CQuaternion.Slerp | EngineUtilities/Include/Vector/Quaternion.h:131-155 | the flip of `dot` and `bAdjusted`, then the linear or the spherical blend, gives exactly the branch rule `SlerpBlend` |

## Left out

- Floating point:
  - Every `double` and `float` is a real, so rounding, overflow, signed zeros and the `float`/`double` split are not modelled.
  - The `0.9995f` threshold is the real 0.9995.
  - The one signed-zero case `potencia` can reach is modelled explicitly: a zero correction factor under a negative exponent gives an infinity with the sign of the integer power.
  - Large exponents that make `--exponente` a no-op in `double` are not modelled.
- Integer width: the `int` results of `piso`, `techo` and `redondear` and the loop counter of `factorial` are unbounded integers, so overflow is not modelled.
- Series bodies: `exponencial`, `logNatural`, `seno`, `coseno`, `tangente`'s sine and cosine, `arcSeno`, `arcCoseno`, `arcTangente`, the hyperbolic functions and `logBase10`. These loops stop on a floating-point tolerance with no iteration bound. Only the domain guards of `logNatural`, `arcSeno` and `tangente` are modelled; the series are parameters.
- `EngineMathLib::sqrt`, `sin`, `cos`, `acos`: the vector and quaternion headers call them, but `EngineMath.h` does not define them. They are parameters, and only `SqrtLaw` is ever assumed of `sqrt`.
- `cuadrado`, `cubo`, the area and perimeter formulas, and `aRadianes`/`aGrados`: single expressions with nothing to prove.
- `EngineMath.Modulo`: requires `b > 0`. For `b <= 0` the source's loops do not terminate.
- `EngineMath.Modulo`: in `double`, once `a - b` rounds back to `a`, the loops at EngineMath.h:85-86 never end. For `b = 2 * PI` that happens for `|a|` beyond 2^56, e.g. `modulo(1e17, 2 * PI)`, which `seno` and `coseno` call. Over reals the loops always terminate for `b > 0`, so the proved termination does not carry over to such inputs.
- `operator<<` of all three classes: stream output.
- `CVector2::setScale` and `setOrigin`: their doc comments do not fix a meaning.
- The `CVector4 .h` header is not part of this model.
- Vector member bodies: the headers do not define them.
  - Each operation follows its doc comment.
  - `Normalize`/`Normalized` require a non-zero vector.
  - `operator[]` requires a valid index.
  - `/` and `/=` require a non-zero scalar.
  - The writable `operator[]` returns a reference; `SetAt` models a single write through it, not the aliasing a retained reference allows.
- Vector3.ApproxEq: the doc comment of `operator==` (CVector3.h:51) fixes no tolerance. The model compares each component with `iguales` at `EPSILON`, and `ApproxEqNotTransitive` depends on that choice.
- Vector2.ApproxEq: the doc comment of `operator==` (CVector2.h:54) fixes no tolerance. The model makes the same choice as for `CVector3`.
- Quaternion.SlerpBlend: requires `SlerpDefined`. In the spherical branch `sin(acos(dot))` must not be 0; the source would divide by zero there. Closeness claims such as `slerp(a, b, 1) ≈ b` depend on the accuracy of the trigonometric kernel. They are stated only under explicit laws (`SlerpAtZero`, `SlerpAtOne`).
- Associativity of the Hamilton product, multiplicativity of the squared magnitude, and the composition and length preservation of `rotate` are not proved: these are degree-3 and degree-4 polynomial identities. `SandwichIsPure`, `MulConjugate` and `ConjugateOfProduct` are the quaternion-algebra facts that are proved.

## Findings

| source | as written | input that shows it | evidently intended | confidence | as-written member | corrected member |
|---|---|---|---|---|---|---|
| EngineUtilities/Include/Utilities/EngineMath.h:18-20 | `raizCuadrada` starts from `x / 2` and divides `x` by the estimate, with no case for 0 | `x = 0`: the first update computes `0 / 0`, and the NaN survives all 20 updates | `raizCuadrada(0) == 0`, the root of 0 | high (not executed) | EngineMath.RaizCuadrada | EngineMath.RaizCuadradaCorregida |
