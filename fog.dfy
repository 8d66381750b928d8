/** The fog mask of the current engine (`generatefogMask`, src/raycaster.cpp): every pixel
    of the screen-sized mask gets a fog alpha from the distance of what it shows, the wall
    distance inside the column's wall span and the floor or ceiling row distance outside it. */
module Fog {
  import opened ExtReal
  import opened Camera

  /** The fog settings: the field of view, `fogMultiplier`, `worldFog` (the thickest fog
      anywhere) and `playerFog` (the fog at the player). */
  datatype Settings = Settings(hFOV: real, multiplier: real, world: real, player: real)

  /** `hFOV` is positive, and the mouse wheel keeps both fog levels within [0, 1]. */
  predicate ValidSettings(s: Settings)
  {
    s.hFOV > 0.0 && 0.0 <= s.world <= 1.0 && 0.0 <= s.player <= 1.0
  }

  /** `d * d * (90/hFOV) * (90/hFOV)`: the squared distance, rescaled to a 90-degree view. */
  function FogDistance(d: Ext, hFOV: real): Ext
    requires hFOV > 0.0
  {
    var k := Fin(90.0 / hFOV);
    Mul(Mul(Mul(d, d), k), k)
  }

  /** `min(1, max(worldFog, min(playerFog, playerFog / ((fogMultiplier * brightSin) * dist))))`. */
  function Brightness(d: Ext, bright: real, s: Settings): Ext
    requires s.hFOV > 0.0
  {
    Clamped(Mul(Fin(s.multiplier * bright), FogDistance(d, s.hFOV)), s)
  }

  /** `min(1, max(worldFog, min(playerFog, playerFog / x)))` for the scaled distance x. */
  function Clamped(x: Ext, s: Settings): Ext
  {
    MinStd(Fin(1.0), MaxStd(Fin(s.world), MinStd(Fin(s.player), DivBy(s.player, x))))
  }

  /** `min(1, max(worldFog, b))`: finite whatever `b` is, NaN and infinities included. */
  function FogLevel(world: real, b: Ext): (m: Ext)
    ensures m.Fin?
  {
    MinStd(Fin(1.0), MaxStd(Fin(world), b))
  }

  /** `(Uint8)255.0 * (1 - level)`, stored into the 8-bit alpha channel by truncation. */
  function FogAlpha(world: real, b: Ext): (a: int)
    requires 0.0 <= world <= 1.0
    ensures 0 <= a <= 255
  {
    var m := FogLevel(world, b).v;
    assert world <= m <= 1.0;
    Trunc(255.0 * (1.0 - m))
  }

  /** Brightness is a finite value between the world fog level and 1, never above the larger
      of the two fog levels. */
  lemma BrightnessBounds(d: Ext, bright: real, s: Settings)
    requires ValidSettings(s)
    ensures Brightness(d, bright, s).Fin?
    ensures s.world <= Brightness(d, bright, s).v <= 1.0
    ensures Brightness(d, bright, s).v <= (if s.world < s.player then s.player else s.world)
  {
  }

  /** Clamping the brightness again before the alpha is computed changes nothing, so the alpha
      is `255 * (1 - brightness)` truncated, between 0 and `255 * (1 - worldFog)`. */
  lemma AlphaOfBrightness(d: Ext, bright: real, s: Settings)
    requires ValidSettings(s)
    ensures Brightness(d, bright, s).Fin?
    ensures FogAlpha(s.world, Brightness(d, bright, s)) == Trunc(255.0 * (1.0 - Brightness(d, bright, s).v))
    ensures FogAlpha(s.world, Brightness(d, bright, s)) <= Trunc(255.0 * (1.0 - s.world))
  {
    BrightnessBounds(d, bright, s);
    var b := Brightness(d, bright, s);
    assert FogLevel(s.world, b) == b;
    TruncMonotoneR(255.0 * (1.0 - b.v), 255.0 * (1.0 - s.world));
  }

  lemma TruncMonotoneR(a: real, b: real)
    requires a <= b
    ensures Trunc(a) <= Trunc(b)
  {
  }

  /** At the horizon row the distance is infinite and the pixel gets exactly the world fog. */
  lemma HorizonGetsWorldFog(bright: real, s: Settings)
    requires ValidSettings(s) && s.multiplier * bright != 0.0
    ensures Brightness(PosInf, bright, s) == Fin(s.world)
  {
    var k := 90.0 / s.hFOV;
    assert k > 0.0;
    assert FogDistance(PosInf, s.hFOV) == PosInf;
  }

  /** The real-valued clamp chain applied to a finite quotient. */
  function Clamp(q: real, s: Settings): real
  {
    var inner := if q < s.player then q else s.player;
    var lower := if s.world < inner then inner else s.world;
    if lower < 1.0 then lower else 1.0
  }

  lemma ClampMonotone(q1: real, q2: real, s: Settings)
    requires q1 <= q2
    ensures Clamp(q1, s) <= Clamp(q2, s)
  {
  }

  lemma PositiveProduct(a: real, b: real)
    requires a > 0.0 && b > 0.0
    ensures a * b > 0.0
  {
  }

  /** The product of two positive values is monotone in both; `p` and `q` name the products so
      that callers can chain them. */
  lemma ProductMonotone(a: real, b: real, c: real, d: real) returns (p: real, q: real)
    requires 0.0 < a <= b && 0.0 < c <= d
    ensures p == a * c && q == b * d
    ensures 0.0 < p <= q
  {
    p, q := a * c, b * d;
    assert a * c <= b * c;
    assert b * c <= b * d;
  }

  lemma QuotientAntitone(p: real, c: real, a: real, b: real)
    requires p >= 0.0 && c > 0.0 && 0.0 < a <= b
    ensures c * a > 0.0 && c * b > 0.0
    ensures p / (c * b) <= p / (c * a)
  {
    var x, y := c * a, c * b;
    assert 0.0 < x <= y;
    var qx, qy := p / x, p / y;
    assert qx * x == p && qy * y == p;
    assert qy >= 0.0;
    assert qy * x <= qy * y;
  }

  /** A positive, finite rescaled distance gives the clamp of `playerFog / (c * dist)`, where
      `c` is the fog multiplier times the column's `brightSin`. */
  lemma BrightnessOfDistance(d: Ext, bright: real, s: Settings, c: real, q: real)
    requires ValidSettings(s) && c == s.multiplier * bright && c > 0.0
    requires q > 0.0 && FogDistance(d, s.hFOV) == Fin(q)
    ensures c * q > 0.0
    ensures Brightness(d, bright, s) == Fin(Clamp(s.player / (c * q), s))
  {
    PositiveProduct(c, q);
    var e := Mul(Fin(s.multiplier * bright), FogDistance(d, s.hFOV));
    assert e == Fin(c * q);
    assert DivBy(s.player, e) == Fin(s.player / (c * q));
  }

  /** A finite, positive distance rescales to a finite, positive value, monotonically. */
  lemma DistanceMonotone(f1: real, f2: real, hFOV: real) returns (q1: real, q2: real)
    requires 0.0 < f1 <= f2 && hFOV > 0.0
    ensures FogDistance(Fin(f1), hFOV) == Fin(q1) && FogDistance(Fin(f2), hFOV) == Fin(q2)
    ensures 0.0 < q1 <= q2
  {
    var k := 90.0 / hFOV;
    var s1, s2 := ProductMonotone(f1, f2, f1, f2);
    var t1, t2 := ProductMonotone(s1, s2, k, k);
    q1, q2 := ProductMonotone(t1, t2, k, k);
  }

  lemma FoggierWithDistance(d1: Ext, d2: Ext, bright: real, s: Settings, c: real, q1: real, q2: real)
    requires ValidSettings(s) && c == s.multiplier * bright && c > 0.0 && 0.0 < q1 <= q2
    requires FogDistance(d1, s.hFOV) == Fin(q1) && FogDistance(d2, s.hFOV) == Fin(q2)
    ensures Brightness(d1, bright, s).Fin? && Brightness(d2, bright, s).Fin?
    ensures Brightness(d2, bright, s).v <= Brightness(d1, bright, s).v
  {
    BrightnessOfDistance(d1, bright, s, c, q1);
    BrightnessOfDistance(d2, bright, s, c, q2);
    QuotientAntitone(s.player, c, q1, q2);
    ClampMonotone(s.player / (c * q2), s.player / (c * q1), s);
  }

  /** Farther away is never brighter: brightness is non-increasing in the distance. */
  lemma {:induction false} FartherIsFoggier(f1: real, f2: real, bright: real, s: Settings)
    requires ValidSettings(s) && 0.0 < f1 <= f2 && s.multiplier * bright > 0.0
    ensures Brightness(Fin(f1), bright, s).Fin? && Brightness(Fin(f2), bright, s).Fin?
    ensures Brightness(Fin(f2), bright, s).v <= Brightness(Fin(f1), bright, s).v
  {
    var q1, q2 := DistanceMonotone(f1, f2, s.hFOV);
    FoggierWithDistance(Fin(f1), Fin(f2), bright, s, s.multiplier * bright, q1, q2);
  }

  // ----- the mask -----

  /** The rows of column `x` that show the wall: `[max(drawStart, 0), min(drawEnd, H))`. */
  function SpanStart(drawStart: int): int { MaxInt(drawStart, 0) }
  function SpanEnd(drawEnd: int): int { MinInt(drawEnd, ScreenHeight) }

  /** The alpha of the mask pixel at column x, row y: rows in the wall span use the wall
      distance, every other row the row distance. */
  function PixelAlpha(y: int, start: int, end: int, wallDist: Ext, rowDist: Ext, bright: real, s: Settings): int
    requires ValidSettings(s)
  {
    if start <= y < end then FogAlpha(s.world, Brightness(wallDist, bright, s))
    else FogAlpha(s.world, Brightness(rowDist, bright, s))
  }

  /** The column's loops stay inside the mask. */
  predicate SpansInMask(drawStart: array<int>, drawEnd: array<int>)
    reads drawStart, drawEnd
  {
    drawStart.Length == drawEnd.Length == ScreenWidth &&
    forall x | 0 <= x < ScreenWidth :: drawStart[x] <= ScreenHeight && drawEnd[x] >= 0
  }

  /** One column of `generatefogMask`: the rows above the span, the span, the rows below. */
  method FogColumn(mask: array2<int>, x: int, start: int, end: int, wallDist: Ext, floorDist: array<Ext>,
                   bright: real, s: Settings)
    requires mask.Length0 == ScreenWidth && mask.Length1 == ScreenHeight && floorDist.Length == ScreenHeight
    requires 0 <= x < ScreenWidth && 0 <= start <= ScreenHeight && 0 <= end <= ScreenHeight
    requires ValidSettings(s)
    modifies mask
    ensures forall y | 0 <= y < ScreenHeight :: mask[x, y] == PixelAlpha(y, start, end, wallDist, floorDist[y], bright, s)
    ensures forall i, y | 0 <= i < ScreenWidth && i != x && 0 <= y < ScreenHeight :: mask[i, y] == old(mask[i, y])
  {
    var y := 0;
    while y < start
      invariant 0 <= y <= start
      invariant forall j | 0 <= j < y :: mask[x, j] == FogAlpha(s.world, Brightness(floorDist[j], bright, s))
      invariant forall i, j | 0 <= i < ScreenWidth && i != x && 0 <= j < ScreenHeight :: mask[i, j] == old(mask[i, j])
    {
      mask[x, y] := FogAlpha(s.world, Brightness(floorDist[y], bright, s));
      y := y + 1;
    }
    var wallAlpha := FogAlpha(s.world, Brightness(wallDist, bright, s));
    y := start;
    while y < end
      invariant start <= y <= ScreenHeight && (start <= end ==> y <= end)
      invariant forall j | 0 <= j < start :: mask[x, j] == FogAlpha(s.world, Brightness(floorDist[j], bright, s))
      invariant forall j | start <= j < y :: mask[x, j] == wallAlpha
      invariant forall i, j | 0 <= i < ScreenWidth && i != x && 0 <= j < ScreenHeight :: mask[i, j] == old(mask[i, j])
    {
      mask[x, y] := wallAlpha;
      y := y + 1;
    }
    y := end;
    while y < ScreenHeight
      invariant end <= y <= ScreenHeight
      invariant forall j | 0 <= j < start && j < end :: mask[x, j] == FogAlpha(s.world, Brightness(floorDist[j], bright, s))
      invariant forall j | start <= j < end :: mask[x, j] == wallAlpha
      invariant forall j | end <= j < y :: mask[x, j] == FogAlpha(s.world, Brightness(floorDist[j], bright, s))
      invariant forall i, j | 0 <= i < ScreenWidth && i != x && 0 <= j < ScreenHeight :: mask[i, j] == old(mask[i, j])
    {
      mask[x, y] := FogAlpha(s.world, Brightness(floorDist[y], bright, s));
      y := y + 1;
    }
  }

  /** `generatefogMask` over the screen-sized fog texture. */
  method GenerateFogMask(mask: array2<int>, drawStart: array<int>, drawEnd: array<int>, wallDist: array<Ext>,
                         floorDist: array<Ext>, brightSin: array<real>, s: Settings)
    requires mask.Length0 == ScreenWidth && mask.Length1 == ScreenHeight
    requires floorDist.Length == ScreenHeight && wallDist.Length == brightSin.Length == ScreenWidth
    requires SpansInMask(drawStart, drawEnd) && ValidSettings(s)
    modifies mask
    ensures forall x, y | 0 <= x < ScreenWidth && 0 <= y < ScreenHeight ::
      mask[x, y] == PixelAlpha(y, SpanStart(drawStart[x]), SpanEnd(drawEnd[x]), wallDist[x], floorDist[y], brightSin[x], s)
  {
    var x := 0;
    while x < ScreenWidth
      invariant 0 <= x <= ScreenWidth
      invariant forall i, y | 0 <= i < x && 0 <= y < ScreenHeight ::
        mask[i, y] == PixelAlpha(y, SpanStart(drawStart[i]), SpanEnd(drawEnd[i]), wallDist[i], floorDist[y], brightSin[i], s)
    {
      var start := MaxInt(drawStart[x], 0);
      var end := MinInt(drawEnd[x], ScreenHeight);
      FogColumn(mask, x, start, end, wallDist[x], floorDist, brightSin[x], s);
      x := x + 1;
    }
  }
}
