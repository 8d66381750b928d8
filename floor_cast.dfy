/** The row-distance table `floorDist` (src/raycaster.cpp `calcFloorDist`) and the
    power-of-two wrap that turns a floor coordinate into a texel index. */
module FloorCast {
  import opened ExtReal
  import opened Camera
  import opened Level

  /** The horizon row as a double: half the screen height (an int) plus the look offset. */
  function Horizon(vertLook: real): real
  {
    (ScreenHeight / 2) as real + vertLook
  }

  /** `int p = y - horizon`: the row's offset from the horizon, truncated toward zero. */
  function RowOffset(y: int, vertLook: real): int
  {
    Trunc(y as real - Horizon(vertLook))
  }

  /** The camera height seen from a ceiling row and from a floor row. */
  function CeilingZ(vertHeight: real): real
  {
    ScreenHeight as real / 2.0 - vertHeight * ScreenHeight as real
  }

  function FloorZ(vertHeight: real): real
  {
    ScreenHeight as real / 2.0 + vertHeight * ScreenHeight as real
  }

  /** The value row `y` holds after the table is filled.  The second loop starts at the
      truncated horizon and overwrites what the first loop stored there. */
  function RowDist(y: int, vertLook: real, vertHeight: real): Ext
  {
    if y < Trunc(Horizon(vertLook)) then Div(-CeilingZ(vertHeight), RowOffset(y, vertLook) as real)
    else Div(FloorZ(vertHeight), RowOffset(y, vertLook) as real)
  }

  /** Both loops stay inside the table exactly when the horizon lies in (-1, H/2 + H/2]. */
  predicate LookInTable(vertLook: real)
  {
    -((ScreenHeight / 2) as real) - 1.0 < vertLook <= (ScreenHeight / 2) as real
  }

  /** `calcFloorDist`: fills every row of the table. */
  method CalcFloorDist(floorDist: array<Ext>, vertLook: real, vertHeight: real)
    requires floorDist.Length == ScreenHeight
    requires LookInTable(vertLook)
    modifies floorDist
    ensures forall y | 0 <= y < ScreenHeight :: floorDist[y] == RowDist(y, vertLook, vertHeight)
  {
    var horizon := Horizon(vertLook);
    var y := 0;
    while (y as real) < horizon
      invariant 0 <= y <= ScreenHeight
      invariant y > 0 ==> ((y - 1) as real) < horizon
      invariant forall i | 0 <= i < y ::
        floorDist[i] == Div(-CeilingZ(vertHeight), RowOffset(i, vertLook) as real)
    {
      var p := Trunc(y as real - horizon);
      var posZ := (ScreenHeight as real) / 2.0 - vertHeight * ScreenHeight as real;
      floorDist[y] := Div(-posZ, p as real);
      y := y + 1;
    }
    ghost var firstEnd := y;
    y := Trunc(horizon);
    assert y <= firstEnd;
    while y < ScreenHeight
      invariant Trunc(horizon) <= y <= ScreenHeight
      invariant forall i | 0 <= i < Trunc(horizon) ::
        floorDist[i] == Div(-CeilingZ(vertHeight), RowOffset(i, vertLook) as real)
      invariant forall i | Trunc(horizon) <= i < y ::
        floorDist[i] == Div(FloorZ(vertHeight), RowOffset(i, vertLook) as real)
    {
      var p := Trunc(y as real - horizon);
      var posZ := (ScreenHeight as real) / 2.0 + vertHeight * ScreenHeight as real;
      floorDist[y] := Div(posZ, p as real);
      y := y + 1;
    }
  }

  /** A row holds a finite distance exactly when its offset from the horizon is not zero. */
  lemma NonFiniteOnlyAtHorizon(y: int, vertLook: real, vertHeight: real)
    ensures RowDist(y, vertLook, vertHeight).Fin? <==> RowOffset(y, vertLook) != 0
  {
  }

  /** With a whole-pixel look offset the only zero offset is the horizon row itself, where a
      camera above the floor divides a positive height by zero. */
  lemma HorizonRowIsInfinite(y: int, vertLook: real, vertHeight: real)
    requires vertLook == vertLook.Floor as real
    requires 0.0 <= Horizon(vertLook)
    ensures RowOffset(y, vertLook) == 0 <==> y as real == Horizon(vertLook)
    ensures y as real == Horizon(vertLook) && FloorZ(vertHeight) > 0.0 ==>
      RowDist(y, vertLook, vertHeight) == PosInf
  {
    var d := y as real - Horizon(vertLook);
    assert d == (y - (ScreenHeight / 2) - vertLook.Floor) as real;
  }

  lemma TruncMonotone(a: real, b: real)
    requires a <= b
    ensures Trunc(a) <= Trunc(b)
  {
  }

  /** A positive height over a larger positive offset is a smaller distance. */
  lemma DivAntitone(z: real, a: real, b: real)
    requires z > 0.0 && 0.0 < a <= b
    ensures 0.0 < z / b <= z / a
  {
    var qa, qb := z / a, z / b;
    assert qa * a == z && qb * b == z;
    assert qb > 0.0;
    assert qb * a <= qb * b;
  }

  /** Below the horizon the floor comes closer row by row: distances are positive and
      non-increasing in `y` while the camera is above the floor. */
  lemma {:induction false} FloorRowsApproach(y1: int, y2: int, vertLook: real, vertHeight: real)
    requires Trunc(Horizon(vertLook)) <= y1 <= y2
    requires RowOffset(y1, vertLook) != 0
    requires FloorZ(vertHeight) > 0.0
    ensures RowDist(y1, vertLook, vertHeight).Fin? && RowDist(y2, vertLook, vertHeight).Fin?
    ensures 0.0 < RowDist(y2, vertLook, vertHeight).v <= RowDist(y1, vertLook, vertHeight).v
  {
    var c := Horizon(vertLook);
    TruncMonotone(y1 as real - c, y2 as real - c);
    var p1, p2 := RowOffset(y1, vertLook), RowOffset(y2, vertLook);
    assert y1 as real - c > -1.0;
    assert p1 >= 0;
    assert 0 < p1 <= p2;
    var z := FloorZ(vertHeight);
    assert RowDist(y1, vertLook, vertHeight) == Fin(z / p1 as real);
    assert RowDist(y2, vertLook, vertHeight) == Fin(z / p2 as real);
    DivAntitone(z, p1 as real, p2 as real);
  }

  /** A row above the truncated horizon is at least one whole row above it. */
  lemma AboveHorizonOffset(y: int, c: real)
    requires 0 <= y < Trunc(c)
    ensures Trunc(y as real - c) <= -1
  {
    assert c > 0.0;
    assert (y + 1) as real <= c;
  }

  /** Above the horizon every row is finite, and while the camera is below the ceiling the
      distances are positive and grow toward the horizon. */
  lemma {:induction false} CeilingRowsRecede(y1: int, y2: int, vertLook: real, vertHeight: real)
    requires 0 <= y1 <= y2 < Trunc(Horizon(vertLook))
    requires CeilingZ(vertHeight) > 0.0
    ensures RowDist(y1, vertLook, vertHeight).Fin? && RowDist(y2, vertLook, vertHeight).Fin?
    ensures 0.0 < RowDist(y1, vertLook, vertHeight).v <= RowDist(y2, vertLook, vertHeight).v
  {
    var c := Horizon(vertLook);
    TruncMonotone(y1 as real - c, y2 as real - c);
    var p1, p2 := RowOffset(y1, vertLook), RowOffset(y2, vertLook);
    AboveHorizonOffset(y2, c);
    assert p1 <= p2 <= -1;
    var z := CeilingZ(vertHeight);
    assert RowDist(y1, vertLook, vertHeight) == Fin(-z / p1 as real);
    assert RowDist(y2, vertLook, vertHeight) == Fin(-z / p2 as real);
    DivAntitone(z, -p2 as real, -p1 as real);
    assert -z / p1 as real == z / (-p1 as real);
    assert -z / p2 as real == z / (-p2 as real);
  }

  // ----- The texel wrap `n & (w - 1)` -----

  function Pow2(k: nat): (r: nat)
    ensures r >= 1
  {
    if k == 0 then 1 else 2 * Pow2(k - 1)
  }

  /** Bitwise AND of two naturals, bit by bit from the least significant. */
  function BitAnd(a: nat, b: nat): nat
  {
    if a == 0 || b == 0 then 0
    else 2 * BitAnd(a / 2, b / 2) + (if a % 2 == 1 && b % 2 == 1 then 1 else 0)
  }

  /** The bit pattern of a 32-bit `int` read as unsigned. */
  function Bits32(n: int): nat
    requires IsInt32(n)
  {
    if n < 0 then n + 0x1_0000_0000 else n
  }

  /** C++ `n & m` on two 32-bit `int`s in two's complement. */
  function And32(n: int, m: int): (r: int)
    requires IsInt32(n) && IsInt32(m)
  {
    var u := BitAnd(Bits32(n), Bits32(m));
    if u < 0x8000_0000 then u else u - 0x1_0000_0000
  }

  lemma MulAtLeast(n: int, d: int)
    requires n > 0 && d >= 1
    ensures n * d >= n
  {
  }

  /** Euclidean division is unique: a quotient and remainder in range are the ones `/` and
      `%` give. */
  lemma ModUnique(a: int, n: int, t: int, rem: int)
    requires n > 0 && a == n * t + rem && 0 <= rem < n
    ensures a % n == rem && a / n == t
  {
    var q, m := a / n, a % n;
    assert a == n * q + m;
    var d := t - q;
    assert n * d == m - rem;
    if d >= 1 {
      MulAtLeast(n, d);
    } else if d <= -1 {
      MulAtLeast(n, -d);
    }
  }

  /** 2q + r modulo 2^k, where q is reduced modulo 2^(k-1). */
  lemma HalveModulo(a: nat, k: nat)
    requires k >= 1
    ensures 2 * ((a / 2) % Pow2(k - 1)) + a % 2 == a % Pow2(k)
  {
    var m := Pow2(k - 1);
    var q, r := a / 2, a % 2;
    var t, s := q / m, q % m;
    assert q == m * t + s;
    assert 2 * q == (2 * m) * t + 2 * s;
    assert a == (2 * m) * t + (2 * s + r);
    ModUnique(a, Pow2(k), t, 2 * s + r);
  }

  /** Masking with 2^k - 1 keeps the low k bits, which is the remainder modulo 2^k. */
  lemma {:induction false} MaskIsModulo(a: nat, k: nat)
    ensures BitAnd(a, Pow2(k) - 1) == a % Pow2(k)
  {
    if k == 0 {
    } else if a == 0 {
    } else {
      var mask := Pow2(k) - 1;
      assert mask / 2 == Pow2(k - 1) - 1 && mask % 2 == 1;
      MaskIsModulo(a / 2, k - 1);
      HalveModulo(a, k);
    }
  }

  lemma {:induction false} Pow2Split(k: nat, j: nat)
    requires k <= j
    ensures Pow2(j) == Pow2(k) * Pow2(j - k)
  {
    if k < j {
      Pow2Split(k, j - 1);
    }
  }

  lemma Pow2Of30()
    ensures Pow2(30) == 0x4000_0000
  {
    assert Pow2(8) == 0x100;
    assert Pow2(16) == 0x1_0000;
    assert Pow2(24) == 0x100_0000;
  }

  lemma Pow2Of32()
    ensures Pow2(32) == 0x1_0000_0000
  {
    Pow2Of30();
  }

  lemma Pow2Bounded(k: nat)
    requires k <= 30
    ensures Pow2(k) <= 0x4000_0000
  {
    Pow2Split(k, 30);
    Pow2Of30();
    MulAtLeast(Pow2(k), Pow2(30 - k));
  }

  /** Adding a multiple of `w` does not change the remainder. */
  lemma ModShift(n: int, w: int, t: int)
    requires w > 0
    ensures (n + w * t) % w == n % w
  {
    var q := n / w;
    assert n == w * q + n % w;
    assert n + w * t == w * (q + t) + n % w;
    ModUnique(n + w * t, w, q + t, n % w);
  }

  /** For a power-of-two width `w = 2^k` that fits an `int`, `n & (w - 1)` equals the
      non-negative remainder `n mod w` for every 32-bit `n`, negative ones included. */
  lemma WrapIsModulo(n: int, k: nat)
    requires IsInt32(n) && k <= 30
    ensures IsInt32(Pow2(k) - 1)
    ensures And32(n, Pow2(k) - 1) == n % Pow2(k)
    ensures 0 <= And32(n, Pow2(k) - 1) < Pow2(k)
  {
    Pow2Bounded(k);
    var w := Pow2(k);
    var u := Bits32(n);
    MaskIsModulo(u, k);
    assert BitAnd(u, w - 1) == u % w;
    if n < 0 {
      Pow2Split(k, 32);
      Pow2Of32();
      ModShift(n, w, Pow2(32 - k));
      assert u == n + w * Pow2(32 - k);
    }
  }

  /** The wrap needs a power of two: with width 3 the mask is 2 and coordinate 1 wraps to 0,
      not to 1 mod 3. */
  lemma WrapNeedsPowerOfTwo()
    ensures And32(1, 3 - 1) == 0 && 1 % 3 == 1
  {
    assert BitAnd(1, 2) == 2 * BitAnd(0, 1) + 0;
  }

  /** `(int)(w * (x - cellX)) & (w - 1)`: the texel column of a floor coordinate whose
      fractional part, as left by the truncating cast to the cell, is `f`. */
  function Texel(w: int, f: real): int
    requires 1 <= w <= 0x4000_0000 && -1.0 < f < 1.0
  {
    And32(Scaled(w, f), w - 1)
  }

  /** `(int)(w * f)`. */
  function Scaled(w: int, f: real): (n: int)
    requires 1 <= w && -1.0 < f < 1.0
    ensures -w <= n <= w
  {
    ScaledTrunc(w, f);
    Trunc(w as real * f)
  }

  /** A width times a fraction in (-1, 1) truncates to at most the width either way. */
  lemma ScaledTrunc(w: int, f: real)
    requires 1 <= w && -1.0 < f < 1.0
    ensures -w <= Trunc(w as real * f) <= w
  {
    var x := w as real;
    var p := x * f;
    PositiveProduct(x, 1.0 - f);
    PositiveProduct(x, 1.0 + f);
    assert x * (1.0 - f) == x - p && x * (1.0 + f) == x + p;
    var n := Trunc(p);
    assert (n as real) < p + 1.0 && (n as real) > p - 1.0;
  }

  lemma PositiveProduct(a: real, b: real)
    requires a > 0.0 && b > 0.0
    ensures a * b > 0.0
  {
  }

  /** A power-of-two texture width always gives a texel inside the texture. */
  lemma TexelInTexture(k: nat, f: real)
    requires k <= 30 && -1.0 < f < 1.0
    ensures Pow2(k) <= 0x4000_0000
    ensures 0 <= Texel(Pow2(k), f) < Pow2(k)
  {
    Pow2Bounded(k);
    var w := Pow2(k);
    WrapIsModulo(Scaled(w, f), k);
  }
}
