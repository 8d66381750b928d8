/** The engine's `double` values, modelled without rounding: a finite real or one of the
    non-finite values of IEEE 754 that the code produces by dividing by zero.  Negative zero
    is not modelled (every zero is +0).  The comparisons, `std::min` and `std::max` below
    follow the C++ semantics exactly, including their behaviour on NaN. */
module ExtReal {

  datatype Ext = Fin(v: real) | PosInf | NegInf | NaN

  /** The IEEE quotient of two finite operands. */
  function Div(n: real, d: real): Ext
  {
    if d != 0.0 then Fin(n / d)
    else if n > 0.0 then PosInf
    else if n < 0.0 then NegInf
    else NaN
  }

  /** IEEE `a < b`: false whenever either side is NaN. */
  predicate Lt(a: Ext, b: Ext)
  {
    match (a, b)
    case (NaN, _) => false
    case (_, NaN) => false
    case (Fin(x), Fin(y)) => x < y
    case (NegInf, _) => !b.NegInf?
    case (_, PosInf) => !a.PosInf?
    case _ => false
  }

  /** IEEE `a <= b`. */
  predicate Le(a: Ext, b: Ext)
  {
    !a.NaN? && !b.NaN? && !Lt(b, a)
  }

  /** The sign of a non-NaN value: -1, 0 or 1. */
  function Sign(a: Ext): int
  {
    match a
    case Fin(x) => if x > 0.0 then 1 else if x < 0.0 then -1 else 0
    case PosInf => 1
    case NegInf => -1
    case NaN => 0
  }

  function Infinity(sign: int): Ext
  {
    if sign > 0 then PosInf else NegInf
  }

  /** IEEE `a + b` with a finite left operand. */
  function AddFin(a: real, b: Ext): Ext
  {
    match b
    case Fin(y) => Fin(a + y)
    case _ => b
  }

  /** IEEE `a * b`: an infinity times zero is NaN. */
  function Mul(a: Ext, b: Ext): Ext
  {
    if a.NaN? || b.NaN? then NaN
    else if a.Fin? && b.Fin? then Fin(a.v * b.v)
    else if Sign(a) == 0 || Sign(b) == 0 then NaN
    else Infinity(Sign(a) * Sign(b))
  }

  /** IEEE `a / b` with a finite numerator. */
  function DivBy(a: real, b: Ext): Ext
  {
    match b
    case Fin(y) => Div(a, y)
    case NaN => NaN
    case _ => Fin(0.0)
  }

  /** `std::abs`. */
  function Abs(a: Ext): Ext
  {
    match a
    case Fin(x) => Fin(if x < 0.0 then -x else x)
    case NaN => NaN
    case _ => PosInf
  }

  /** `std::min(a, b)`, which is `(b < a) ? b : a`. */
  function MinStd(a: Ext, b: Ext): Ext
  {
    if Lt(b, a) then b else a
  }

  /** `std::max(a, b)`, which is `(a < b) ? b : a`. */
  function MaxStd(a: Ext, b: Ext): Ext
  {
    if Lt(a, b) then b else a
  }

  /** `x - floor(x)`, NaN for a non-finite argument. */
  function FracExt(a: Ext): Ext
  {
    match a
    case Fin(x) => Fin(Frac(x))
    case _ => NaN
  }

  /** The fractional part `x - floor(x)`, always in [0, 1). */
  function Frac(x: real): (f: real)
    ensures 0.0 <= f < 1.0
  {
    x - x.Floor as real
  }

  /** C++'s conversion of a double to an integer: truncation toward zero. */
  function Trunc(x: real): (n: int)
    ensures x >= 0.0 ==> n == x.Floor && (n as real) <= x < (n as real) + 1.0
    ensures x < 0.0 ==> (n as real) - 1.0 < x <= (n as real)
  {
    if x >= 0.0 then x.Floor else -((-x).Floor)
  }

  /** C++'s integer division, which truncates toward zero (Dafny's `/` is Euclidean). */
  function CDiv(a: int, b: int): (q: int)
    requires b > 0
  {
    if a >= 0 then a / b else -((-a) / b)
  }

  /** C++'s `std::max` and `std::min` on ints. */
  function MaxInt(a: int, b: int): int { if a < b then b else a }
  function MinInt(a: int, b: int): int { if b < a then b else a }
}
