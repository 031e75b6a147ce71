/**
 * The scalar kernel of EngineMath.h (namespace EngineMathLib), over unbounded reals.
 *
 * Every `double` is a `real`. The routines signal a domain error in band, by returning a
 * non-finite double (`-1.0 / 0.0`, `1.0 / 0.0`, or the NaN of `0.0 / 0.0`); `Ext` is that
 * extended value. The convergent series (logarithm, sine, cosine, arcsine) are parameters:
 * only the domain guards in front of them are modelled.
 */
module EngineMath {

  import opened RealArith

  /** A double as the kernel returns it: a finite value or a non-finite sentinel. */
  datatype Ext = Finite(v: real) | PosInf | NegInf | NaN

  const PI: real := 3.14159265358979323846
  const EULER: real := 2.71828182845904523536
  /** Series-truncation threshold and default equality tolerance. */
  const EPSILON: real := 0.000001

  // ---------------------------------------------------------------------------
  // Square root by Newton-Raphson
  // ---------------------------------------------------------------------------

  /** One Newton-Raphson update of an estimate `e` of the square root of `x`. */
  function NewtonStep(x: real, e: real): real
    requires e != 0.0
  {
    (e + x / e) / 2.0
  }

  /** The estimate after `n` updates starting from `e`; it never leaves the positive reals. */
  function Newton(x: real, e: real, n: nat): (r: real)
    requires x > 0.0 && e > 0.0
    ensures r > 0.0
  {
    if n == 0 then e
    else
      var p := Newton(x, e, n - 1);
      assert x / p > 0.0;
      NewtonStep(x, p)
  }

  /** An update never lands below the root: its square is at least `x`. */
  lemma NewtonStepAboveRoot(x: real, e: real)
    requires x > 0.0 && e > 0.0
    ensures NewtonStep(x, e) * NewtonStep(x, e) >= x
  {
    var q := x / e;
    assert e * q == x;
    var s := NewtonStep(x, e);
    var d := e - q;
    SquareSign(d, d * d);
    assert s * s == (e * e + 2.0 * (e * q) + q * q) / 4.0;
    assert d * d == e * e - 2.0 * (e * q) + q * q;
    assert s * s - x == d * d / 4.0;
  }

  /** From an estimate at or above the root, an update does not increase the estimate. */
  lemma NewtonStepDescends(x: real, e: real)
    requires x > 0.0 && e > 0.0 && e * e >= x
    ensures NewtonStep(x, e) <= e
  {
    var q := x / e;
    assert q * e == x;
    assert q <= e;
  }

  /** After at least one update, every estimate squares to at least `x`. */
  lemma NewtonAboveRoot(x: real, e: real, n: nat)
    requires x > 0.0 && e > 0.0 && n >= 1
    ensures Newton(x, e, n) * Newton(x, e, n) >= x
  {
    NewtonStepAboveRoot(x, Newton(x, e, n - 1));
  }

  /** After the first update, the estimates never increase. */
  lemma NewtonNonIncreasing(x: real, e: real, n: nat)
    requires x > 0.0 && e > 0.0 && n >= 1
    ensures Newton(x, e, n + 1) <= Newton(x, e, n)
  {
    NewtonAboveRoot(x, e, n);
    NewtonStepDescends(x, Newton(x, e, n));
  }

  /** An exact root is a fixed point of the iteration. */
  lemma {:induction false} NewtonFixedPoint(x: real, e: real, n: nat)
    requires x > 0.0 && e > 0.0 && e * e == x
    ensures Newton(x, e, n) == e
  {
    if n > 0 {
      NewtonFixedPoint(x, e, n - 1);
      DivUnique(x, e, e);
    }
  }

  /**
   * `raizCuadrada` as written: a negative argument gives minus infinity; otherwise exactly
   * 20 Newton updates from `x / 2`. At `x == 0` the first update divides 0 by 0 and the NaN
   * survives every later update.
   */
  method RaizCuadrada(x: real) returns (r: Ext)
    ensures x < 0.0 ==> r == NegInf
    ensures x == 0.0 ==> r == NaN
    ensures x > 0.0 ==> r == Finite(Newton(x, x / 2.0, 20))
    ensures x > 0.0 ==> r.Finite? && r.v > 0.0 && r.v * r.v >= x
  {
    if x < 0.0 {
      return NegInf;
    }
    var estimacion := x / 2.0;
    if estimacion == 0.0 {
      // x / estimacion is 0.0 / 0.0
      return NaN;
    }
    for i := 0 to 20
      invariant estimacion == Newton(x, x / 2.0, i)
    {
      estimacion := NewtonStep(x, estimacion);
    }
    NewtonAboveRoot(x, x / 2.0, 20);
    r := Finite(estimacion);
  }

  /** `raizCuadrada` with the zero argument answered by its root, 0, instead of NaN. */
  method RaizCuadradaCorregida(x: real) returns (r: Ext)
    ensures x < 0.0 ==> r == NegInf
    ensures x >= 0.0 ==> r.Finite? && r.v >= 0.0 && r.v * r.v >= x
    ensures x == 0.0 ==> r == Finite(0.0)
    ensures x > 0.0 ==> r == Finite(Newton(x, x / 2.0, 20))
  {
    if x == 0.0 {
      return Finite(0.0);
    }
    r := RaizCuadrada(x);
  }

  // ---------------------------------------------------------------------------
  // Power with a linear fractional correction
  // ---------------------------------------------------------------------------

  /** `b` multiplied by itself `n` times. */
  function Pow(b: real, n: nat): real
  {
    if n == 0 then 1.0 else Pow(b, n - 1) * b
  }

  /** A power of a non-zero base is non-zero, and a power of a positive base is positive. */
  lemma {:induction false} PowSign(b: real, n: nat)
    ensures b != 0.0 ==> Pow(b, n) != 0.0
    ensures b > 0.0 ==> Pow(b, n) > 0.0
  {
    if n > 0 {
      PowSign(b, n - 1);
      if b != 0.0 {
        ProductNonZero(Pow(b, n - 1), b, Pow(b, n));
      }
      if b > 0.0 {
        MulPositive(Pow(b, n - 1), b, Pow(b, n));
      }
    }
  }

  /**
   * The magnitude part of `potencia` for an exponent `a > 0`: `b` to the integer part of `a`,
   * times the chord `1 + f * (b - 1)` when the fractional part `f` is positive.
   */
  function PositivePower(base: real, a: real): real
    requires a > 0.0
  {
    var entera := Pow(base, a.Floor);
    var f := a - a.Floor as real;
    if f > 0.0 then entera * (1.0 + f * (base - 1.0)) else entera
  }

  /**
   * What `potencia` computes: the guards in their order, then the magnitude part for `|e|`,
   * and its reciprocal for a negative exponent. A zero magnitude under a negative exponent
   * (a zero chord) divides 1.0 by a zero that carries the sign of the integer power.
   */
  function LegacyPower(base: real, exponente: real): Ext
  {
    if base == 0.0 && exponente <= 0.0 then Finite(0.0)
    else if exponente == 0.0 then Finite(1.0)
    else if exponente > 0.0 then Finite(PositivePower(base, exponente))
    else
      var m := PositivePower(base, -exponente);
      if m == 0.0 then (if Pow(base, (-exponente).Floor) > 0.0 then PosInf else NegInf)
      else Finite(1.0 / m)
  }

  /** `potencia`: the integer part of the exponent by repeated multiplication, then the fraction. */
  method Potencia(base: real, exponente: real) returns (r: Ext)
    ensures r == LegacyPower(base, exponente)
  {
    if base == 0.0 && exponente <= 0.0 {
      return Finite(0.0);
    }
    if exponente == 0.0 {
      return Finite(1.0);
    }
    var negativo := exponente < 0.0;
    var e := if negativo then -exponente else exponente;
    var resultado, fraccion := IntegerPower(base, e);
    PowSign(base, e.Floor);
    if fraccion > 0.0 {
      var parteFraccion := 1.0 + fraccion * (base - 1.0);
      if negativo && parteFraccion == 0.0 {
        // resultado * parteFraccion is a zero with the sign of resultado; 1.0 over it is infinite
        assert PositivePower(base, e) == resultado * parteFraccion == 0.0;
        return if resultado > 0.0 then PosInf else NegInf;
      }
      if negativo {
        ProductNonZero(resultado, parteFraccion, resultado * parteFraccion);
      }
      resultado := resultado * parteFraccion;
    }
    assert resultado == PositivePower(base, e);
    r := if negativo then Finite(1.0 / resultado) else Finite(resultado);
  }

  /**
   * The loop of `potencia`: multiplies by `base` and decrements the exponent while it is at
   * least one, leaving `base` to the integer part and the fractional part of `e`.
   */
  method IntegerPower(base: real, e: real) returns (resultado: real, fraccion: real)
    requires e > 0.0
    ensures resultado == Pow(base, e.Floor)
    ensures fraccion == e - e.Floor as real && 0.0 <= fraccion < 1.0
  {
    fraccion := e;
    resultado := 1.0;
    ghost var k: nat := 0;
    while fraccion >= 1.0
      invariant 0.0 <= fraccion && fraccion + k as real == e
      invariant resultado == Pow(base, k)
      decreases fraccion.Floor
    {
      resultado := resultado * base;
      fraccion := fraccion - 1.0;
      k := k + 1;
    }
    FloorSplit(e, fraccion, k);
  }

  /** For a base of at least one the integer powers grow with the exponent. */
  lemma {:induction false} PowMonotone(b: real, n: nat)
    requires b >= 1.0
    ensures 1.0 <= Pow(b, n) <= Pow(b, n + 1)
  {
    if n > 0 {
      PowMonotone(b, n - 1);
    }
  }

  /** The guard order: `0^e` is 0 for every `e <= 0`, in particular `0^0`; `b^0` is 1 for `b != 0`. */
  lemma PotenciaGuards(b: real, e: real)
    ensures e <= 0.0 ==> LegacyPower(0.0, e) == Finite(0.0)
    ensures b != 0.0 ==> LegacyPower(b, 0.0) == Finite(1.0)
  {
  }

  /** A natural exponent gives repeated multiplication exactly. */
  lemma PotenciaNatural(b: real, n: nat)
    requires b != 0.0 || n > 0
    ensures LegacyPower(b, n as real) == Finite(Pow(b, n))
  {
    assert (n as real).Floor == n;
  }

  /** A negative integer exponent gives the reciprocal of the power for its magnitude. */
  lemma PotenciaNegativeInteger(b: real, n: nat)
    requires b != 0.0 && n > 0
    ensures LegacyPower(b, -(n as real)).Finite?
    ensures LegacyPower(b, -(n as real)).v * Pow(b, n) == 1.0
  {
    assert (n as real).Floor == n;
    PowSign(b, n);
  }

  /**
   * Any negative exponent gives the reciprocal of the result for its magnitude, whenever
   * that result is not zero.
   */
  lemma PotenciaReciprocal(b: real, e: real)
    requires b != 0.0 && e > 0.0 && LegacyPower(b, e).v != 0.0
    ensures LegacyPower(b, -e) == Finite(1.0 / LegacyPower(b, e).v)
    ensures LegacyPower(b, -e).v * LegacyPower(b, e).v == 1.0
  {
  }

  /**
   * For a positive exponent the result is `b` to the integer part times the chord
   * `1 + f * (b - 1)` of the fractional part `f`: a linear correction, not a true power.
   */
  lemma PotenciaPositiveExponent(b: real, e: real)
    requires e > 0.0
    ensures LegacyPower(b, e) == Finite(Pow(b, e.Floor) * (1.0 + (e - e.Floor as real) * (b - 1.0)))
  {
    var f := e - e.Floor as real;
    if f == 0.0 {
      assert 1.0 + f * (b - 1.0) == 1.0;
    }
  }

  /**
   * Between two integers the result follows the straight line from `b^n` to `b^(n+1)`:
   * for `b >= 1` it lies between those two powers.
   */
  lemma PotenciaBetween(b: real, e: real)
    requires b >= 1.0 && e > 0.0
    ensures LegacyPower(b, e).Finite?
    ensures Pow(b, e.Floor) <= LegacyPower(b, e).v <= Pow(b, e.Floor + 1)
  {
    var n := e.Floor;
    var f := e - n as real;
    PotenciaPositiveExponent(b, e);
    PowMonotone(b, n);
    ChordBounds(f, b);
    ScaledChord(Pow(b, n), 1.0 + f * (b - 1.0), b, LegacyPower(b, e).v);
  }

  /** A power `p >= 1` times a chord factor in `[1, b]`, named `t`, lies between `p` and `p * b`. */
  lemma ScaledChord(p: real, c: real, b: real, t: real)
    requires 1.0 <= p && 1.0 <= c <= b && t == p * c
    ensures p <= t <= p * b
  {
    MulMono(p, 1.0, c);
    MulMono(p, c, b);
  }

  /** For a base of at least one the chord factor lies between 1 and the base. */
  lemma ChordBounds(f: real, b: real)
    requires 0.0 <= f <= 1.0 && b >= 1.0
    ensures 1.0 <= 1.0 + f * (b - 1.0) <= b
  {
    var d := b - 1.0;
    var p := f * d;
    MulMono(f, 0.0, d);
    MulMono(d, f, 1.0);
    assert 1.0 * d == d;
    assert 0.0 <= p <= d;
  }

  /** On the open unit interval the exponent is the chord through `b^0` and `b^1`. */
  lemma PotenciaFractionIsChord(b: real, e: real)
    requires 0.0 < e < 1.0
    ensures LegacyPower(b, e) == Finite(1.0 + e * (b - 1.0))
  {
    assert e.Floor == 0;
  }

  /** An instance of the chord rule: the legacy routine gives `0^0.5 == 0.5`. */
  lemma PotenciaHalfOfZero()
    ensures LegacyPower(0.0, 0.5) == Finite(0.5)
  {
    PotenciaFractionIsChord(0.0, 0.5);
  }

  // ---------------------------------------------------------------------------
  // Absolute value, extrema, rounding
  // ---------------------------------------------------------------------------

  /** `valorAbs` (and the identical `absoluto`). */
  function ValorAbs(x: real): (r: real)
    ensures r >= 0.0 && (r == x || r == -x)
  {
    if x < 0.0 then -x else x
  }

  /** `maximo`: the larger of the two; `b` on a tie. */
  function Maximo(a: real, b: real): (r: real)
    ensures r >= a && r >= b && (r == a || r == b)
  {
    if a > b then a else b
  }

  /** `minimo`: the smaller of the two; `b` on a tie. */
  function Minimo(a: real, b: real): (r: real)
    ensures r <= a && r <= b && (r == a || r == b)
  {
    if a < b then a else b
  }

  /** The C++ conversion `int(x)`: truncation toward zero. */
  function Trunc(x: real): (i: int)
    ensures x >= 0.0 ==> 0.0 <= i as real <= x < i as real + 1.0
    ensures x < 0.0 ==> i as real - 1.0 < x <= i as real <= 0.0
  {
    if x >= 0.0 then x.Floor else -((-x).Floor)
  }

  /** `piso`: the greatest integer not above `x`. */
  function Piso(x: real): (r: int)
    ensures r as real <= x < r as real + 1.0
  {
    var i := Trunc(x);
    if x < 0.0 && x != i as real then i - 1 else i
  }

  /** `techo`: the least integer not below `x`. */
  function Techo(x: real): (r: int)
    ensures r as real - 1.0 < x <= r as real
  {
    var i := Trunc(x);
    if x > 0.0 && x != i as real then i + 1 else i
  }

  /** `redondear`: the nearest integer, halves rounded away from zero. */
  function Redondear(x: real): (r: int)
    ensures x >= 0.0 ==> -0.5 <= x - r as real < 0.5
    ensures x < 0.0 ==> -0.5 < x - r as real <= 0.5
  {
    if x >= 0.0 then Trunc(x + 0.5) else Trunc(x - 0.5)
  }

  /** Rounding is symmetric about zero, and lies between floor and ceiling. */
  lemma RedondearSymmetric(x: real)
    ensures Redondear(-x) == -Redondear(x)
    ensures Piso(x) <= Redondear(x) <= Techo(x)
  {
  }

  /** `modulo` in closed form: the representative of `a` in `[0, b)` modulo `b`. */
  function ModuloValue(a: real, b: real): (r: real)
    requires b > 0.0
    ensures 0.0 <= r < b
    ensures 0.0 <= a < b ==> r == a
  {
    ReduceBounds(a, b);
    a - (a / b).Floor as real * b
  }

  /** Subtracting the floor of `a / b` copies of `b` lands in `[0, b)`, and changes nothing there. */
  lemma ReduceBounds(a: real, b: real)
    requires b > 0.0
    ensures 0.0 <= a - (a / b).Floor as real * b < b
    ensures 0.0 <= a < b ==> (a / b).Floor == 0
  {
    var q := a / b;
    var k := q.Floor;
    var f := q - k as real;
    assert q * b == a;
    Distrib(q, k as real, b);
    assert a - k as real * b == f * b;
    FractionOfPeriod(f, b, f * b);
    DivBounds(a, b);
    if 0.0 <= a < b {
      FloorSplit(q, q, 0);
    }
  }

  /** A value in `[0, b)` that differs from `a` by an integer multiple of `b` is `ModuloValue(a, b)`. */
  lemma ModuloUnique(a: real, b: real, k: int, r: real)
    requires b > 0.0 && 0.0 <= r < b && r == a - k as real * b
    ensures r == ModuloValue(a, b)
  {
    var q := a / b;
    assert q * b == a;
    Distrib(q, k as real, b);
    DivUnique(r, b, q - k as real);
    DivBounds(r, b);
    FloorSplit(q, q - k as real, k);
  }

  /** Shifting the argument by one period leaves the reduced value unchanged. */
  lemma ModuloPeriodic(a: real, b: real)
    requires b > 0.0
    ensures ModuloValue(a + b, b) == ModuloValue(a, b)
  {
    var k := (a / b).Floor;
    ModuloUnique(a + b, b, k + 1, ModuloValue(a, b));
  }

  /** `modulo`: subtract `b` while at or above it, then add `b` while negative. */
  method Modulo(a: real, b: real) returns (r: real)
    requires b > 0.0
    ensures r == ModuloValue(a, b)
  {
    r := a;
    while r >= b
      invariant ModuloValue(r, b) == ModuloValue(a, b)
      decreases (r / b).Floor
    {
      ModuloPeriodic(r - b, b);
      DivStep(r, b);
      DivBounds(r - b, b);
      r := r - b;
    }
    while r < 0.0
      invariant ModuloValue(r, b) == ModuloValue(a, b)
      invariant r < b
      decreases (-r / b).Floor + 1
    {
      ModuloPeriodic(r, b);
      DivStep(-r, b);
      DivBounds(-r, b);
      r := r + b;
    }
  }

  // ---------------------------------------------------------------------------
  // Factorial
  // ---------------------------------------------------------------------------

  /** `n!` with `0! == 1! == 1`. */
  function Fact(n: nat): (r: nat)
    ensures r >= 1
  {
    if n <= 1 then 1 else n * Fact(n - 1)
  }


  /** `factorial`: minus infinity for a negative argument, else the product `2 * 3 * ... * n`. */
  method Factorial(n: int) returns (r: Ext)
    ensures n < 0 ==> r == NegInf
    ensures n >= 0 ==> r == Finite(Fact(n) as real)
  {
    if n < 0 {
      return NegInf;
    }
    var resultado := 1.0;
    var i := 2;
    while i <= n
      invariant 2 <= i <= if n < 2 then 2 else n + 1
      invariant resultado == Fact(i - 1) as real
    {
      assert Fact(i) == i * Fact(i - 1);
      CastMul(i, Fact(i - 1));
      resultado := resultado * i as real;
      i := i + 1;
    }
    r := Finite(resultado);
  }

  // ---------------------------------------------------------------------------
  // Comparison and interpolation
  // ---------------------------------------------------------------------------

  /** `iguales`: `a` and `b` lie strictly closer than `epsilon`. */
  function Iguales(a: real, b: real, epsilon: real := 0.000001): (r: bool)
    ensures r <==> b - epsilon < a < b + epsilon
  {
    ValorAbs(a - b) < epsilon
  }

  /** The tolerance comparison is symmetric and, for a positive tolerance, reflexive. */
  lemma IgualesSymmetric(a: real, b: real, epsilon: real)
    ensures Iguales(a, b, epsilon) == Iguales(b, a, epsilon)
    ensures epsilon > 0.0 ==> Iguales(a, a, epsilon)
  {
  }

  /** A fraction of a non-negative length, named `p`, lies between zero and the length. */
  lemma ScaledBetween(d: real, t: real, p: real)
    requires p == d * t
    ensures d >= 0.0 && 0.0 <= t <= 1.0 ==> 0.0 <= p <= d
  {
    if d >= 0.0 && 0.0 <= t <= 1.0 {
      MulMono(d, 0.0, t);
      MulMono(d, t, 1.0);
    }
  }

  /** `interpolacion`: the line through `a` (at 0) and `b` (at 1), unclamped. */
  function Interpolacion(a: real, b: real, t: real): (r: real)
    ensures t == 0.0 ==> r == a
    ensures t == 1.0 ==> r == b
    ensures a <= b && 0.0 <= t <= 1.0 ==> a <= r <= b
    ensures b <= a && 0.0 <= t <= 1.0 ==> b <= r <= a
  {
    ScaledBetween(b - a, t, (b - a) * t);
    ScaledBetween(a - b, t, (a - b) * t);
    a + (b - a) * t
  }

  // ---------------------------------------------------------------------------
  // Domain guards in front of the series
  // ---------------------------------------------------------------------------

  /** `logNatural`: minus infinity exactly for a non-positive argument, else the series. */
  function LogNatural(serie: real -> real, x: real): (r: Ext)
    ensures r == NegInf <==> x <= 0.0
    ensures x > 0.0 ==> r == Finite(serie(x))
  {
    if x <= 0.0 then NegInf else Finite(serie(x))
  }

  /** `arcSeno`: minus infinity exactly outside `[-1, 1]`, else the series. */
  function ArcSeno(serie: real -> real, x: real): (r: Ext)
    ensures r == NegInf <==> (x < -1.0 || x > 1.0)
    ensures -1.0 <= x <= 1.0 ==> r == Finite(serie(x))
  {
    if x < -1.0 || x > 1.0 then NegInf else Finite(serie(x))
  }

  /** `tangente`: plus infinity exactly where the cosine is zero, else the quotient sine / cosine. */
  function Tangente(seno: real -> real, coseno: real -> real, x: real): (r: Ext)
    ensures r == PosInf <==> coseno(x) == 0.0
    ensures r != PosInf ==> r.Finite? && r.v * coseno(x) == seno(x)
  {
    var s := seno(x);
    var c := coseno(x);
    if c != 0.0 then Finite(s / c) else PosInf
  }
}
