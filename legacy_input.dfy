/** The clamped updates of the older engine's `handleInput` (raycaster.cpp): looking up and
    down, raising and lowering the camera (both refill the floor and ceiling row-distance
    tables), the mouse-wheel tuning of lighting and sensitivity, and `changeFOV`. */
module LegacyInput {
  import opened ExtReal
  import opened Camera
  import opened Input

  // ----- the row-distance tables -----

  /** `floorDist[y]`: the distance along the view of the floor seen in screen row y, in the
      older engine's pixel units for the camera height. */
  function LegacyFloorDist(y: int, vertLook: real, vertHeight: real): Ext
  {
    Div(ScreenHeight as real + 2.0 * vertHeight, 2.0 * (y as real - vertLook) - ScreenHeight as real)
  }

  /** `ceilDist[y]`: the same for the ceiling, with the look offset and the height mirrored. */
  function LegacyCeilDist(y: int, vertLook: real, vertHeight: real): Ext
  {
    Div(ScreenHeight as real - 2.0 * vertHeight, 2.0 * (y as real + vertLook) - ScreenHeight as real)
  }

  /** The ceiling table is the floor table of the mirrored camera. */
  lemma CeilingIsMirroredFloor(y: int, vertLook: real, vertHeight: real)
    ensures LegacyCeilDist(y, vertLook, vertHeight) == LegacyFloorDist(y, -vertLook, -vertHeight)
  {
    assert 2.0 * (y as real + vertLook) == 2.0 * (y as real - (-vertLook));
    assert ScreenHeight as real - 2.0 * vertHeight == ScreenHeight as real + 2.0 * (-vertHeight);
  }

  /** A quotient with a positive numerator is positive exactly when its denominator is. */
  lemma PositiveQuotient(n: real, d: real)
    requires n > 0.0
    ensures Div(n, d).Fin? && Div(n, d).v > 0.0 <==> d > 0.0
    ensures d == 0.0 ==> Div(n, d) == PosInf
  {
    if d != 0.0 {
      var q := n / d;
      assert q * d == n;
      if d > 0.0 {
        PositiveFactor(q, d);
      } else {
        NegativeFactor(q, d);
      }
    }
  }

  lemma PositiveFactor(q: real, d: real)
    requires d > 0.0 && q * d > 0.0
    ensures q > 0.0
  {
  }

  lemma NegativeFactor(q: real, d: real)
    requires d < 0.0 && q * d > 0.0
    ensures q < 0.0
  {
  }

  /** With the camera height in range, the floor table holds a positive, finite distance
      exactly for the rows below the horizon row `H/2 + vertLook`, and +inf on it. */
  lemma FloorAheadBelowHorizon(y: int, vertLook: real, vertHeight: real)
    requires LegacyHeightInRange(vertHeight)
    ensures var d := LegacyFloorDist(y, vertLook, vertHeight);
      (d.Fin? && d.v > 0.0 <==> y as real > Half + vertLook) &&
      (y as real == Half + vertLook ==> d == PosInf)
  {
    PositiveQuotient(ScreenHeight as real + 2.0 * vertHeight, 2.0 * (y as real - vertLook) - ScreenHeight as real);
  }

  /** The ceiling table holds a positive, finite distance exactly for the rows below
      `H/2 - vertLook`; the fog and ceiling passes read it upside down. */
  lemma CeilingAheadBelowMirroredHorizon(y: int, vertLook: real, vertHeight: real)
    requires LegacyHeightInRange(vertHeight)
    ensures var d := LegacyCeilDist(y, vertLook, vertHeight);
      (d.Fin? && d.v > 0.0 <==> y as real > Half - vertLook) &&
      (y as real == Half - vertLook ==> d == PosInf)
  {
    PositiveQuotient(ScreenHeight as real - 2.0 * vertHeight, 2.0 * (y as real + vertLook) - ScreenHeight as real);
  }

  /** `H/2` as a real. */
  const Half: real := ScreenHeight as real / 2.0

  /** The loop that refills both tables, row by row. */
  method FillTables(floorDist: array<Ext>, ceilDist: array<Ext>, vertLook: real, vertHeight: real)
    requires floorDist.Length == ScreenHeight && ceilDist.Length == ScreenHeight && floorDist != ceilDist
    modifies floorDist, ceilDist
    ensures forall y | 0 <= y < ScreenHeight ::
      floorDist[y] == LegacyFloorDist(y, vertLook, vertHeight) && ceilDist[y] == LegacyCeilDist(y, vertLook, vertHeight)
  {
    var y := 0;
    while y < ScreenHeight
      invariant 0 <= y <= ScreenHeight
      invariant forall j | 0 <= j < y ::
        floorDist[j] == LegacyFloorDist(j, vertLook, vertHeight) && ceilDist[j] == LegacyCeilDist(j, vertLook, vertHeight)
    {
      floorDist[y] := Div(ScreenHeight as real + 2.0 * vertHeight, 2.0 * (y as real - vertLook) - ScreenHeight as real);
      ceilDist[y] := Div(ScreenHeight as real - 2.0 * vertHeight, 2.0 * (y as real + vertLook) - ScreenHeight as real);
      y := y + 1;
    }
  }

  // ----- looking up and down -----

  /** The mouse-look part of `handleInput`, with the same limits as the current engine; every
      change of the look offset refills both tables. */
  method LegacyLook(p: Player, floorDist: array<Ext>, ceilDist: array<Ext>, mouseYDist: int, sense: real)
    requires floorDist.Length == ScreenHeight && ceilDist.Length == ScreenHeight && floorDist != ceilDist
    requires LookSense(sense) && LookInRange(p.vertLook)
    modifies p`vertLook, floorDist, ceilDist
    ensures p.vertLook == LookTarget(old(p.vertLook), mouseYDist, sense)
    ensures LookInRange(p.vertLook)
    ensures LookChanges(old(p.vertLook), mouseYDist) ==>
      forall y | 0 <= y < ScreenHeight ::
        floorDist[y] == LegacyFloorDist(y, p.vertLook, p.vertHeight) && ceilDist[y] == LegacyCeilDist(y, p.vertLook, p.vertHeight)
    ensures !LookChanges(old(p.vertLook), mouseYDist) ==> unchanged(floorDist) && unchanged(ceilDist)
  {
    LookStaysInRange(p.vertLook, mouseYDist, sense);
    if mouseYDist > 0 && p.vertLook > -HalfHeight {
      p.vertLook := p.vertLook - mouseYDist as real * sense;
      if p.vertLook < -HalfHeight {
        p.vertLook := -HalfHeight;
      }
      FillTables(floorDist, ceilDist, p.vertLook, p.vertHeight);
    } else if mouseYDist < 0 && p.vertLook < HalfHeight {
      p.vertLook := p.vertLook - mouseYDist as real * sense;
      if p.vertLook > HalfHeight {
        p.vertLook := HalfHeight;
      }
      FillTables(floorDist, ceilDist, p.vertLook, p.vertHeight);
    }
  }

  // ----- the camera height -----

  /** The bounds of `vertHeight` in pixels: `-H/5` and `2H/5` in integer arithmetic. */
  const LegacyLowest: real := (-ScreenHeight / 5) as real
  const LegacyHighest: real := (2 * ScreenHeight / 5) as real

  predicate LegacyHeightInRange(vertHeight: real)
  {
    LegacyLowest <= vertHeight <= LegacyHighest
  }

  /** `vertHeight` after a frame with the lower key (`Z`) and the raise key (`X`) as given:
      one pixel per frame, lower winning when both are held. */
  function LegacyHeightTarget(vertHeight: real, lower: bool, raise: bool): real
  {
    if lower then (var h := vertHeight - 1.0; if h < LegacyLowest then LegacyLowest else h)
    else if raise then (var h := vertHeight + 1.0; if h > LegacyHighest then LegacyHighest else h)
    else vertHeight
  }

  /** The height stays in [-108, 216], moves the way the key says, by exactly one pixel unless
      that would pass the bound. */
  lemma LegacyHeightStaysInRange(vertHeight: real, lower: bool, raise: bool)
    requires LegacyHeightInRange(vertHeight)
    ensures LegacyHeightInRange(LegacyHeightTarget(vertHeight, lower, raise))
    ensures LegacyLowest == -108.0 && LegacyHighest == 216.0
    ensures var t := LegacyHeightTarget(vertHeight, lower, raise);
      lower ==> vertHeight - 1.0 <= t <= vertHeight && (vertHeight - 1.0 >= LegacyLowest ==> t == vertHeight - 1.0)
    ensures var t := LegacyHeightTarget(vertHeight, lower, raise);
      !lower && raise ==> vertHeight <= t <= vertHeight + 1.0 && (vertHeight + 1.0 <= LegacyHighest ==> t == vertHeight + 1.0)
    ensures !lower && !raise ==> LegacyHeightTarget(vertHeight, lower, raise) == vertHeight
  {
  }

  /** Within that range the camera is strictly between floor and ceiling: both numerators of
      the tables are at least 108. */
  lemma LegacyCameraBetweenFloorAndCeiling(vertHeight: real)
    requires LegacyHeightInRange(vertHeight)
    ensures ScreenHeight as real + 2.0 * vertHeight >= 108.0
    ensures ScreenHeight as real - 2.0 * vertHeight >= 108.0
  {
  }

  /** The height keys of `handleInput`; each change refills both tables. */
  method LegacyChangeHeight(p: Player, floorDist: array<Ext>, ceilDist: array<Ext>, lower: bool, raise: bool)
    requires floorDist.Length == ScreenHeight && ceilDist.Length == ScreenHeight && floorDist != ceilDist
    modifies p`vertHeight, floorDist, ceilDist
    ensures p.vertHeight == LegacyHeightTarget(old(p.vertHeight), lower, raise)
    ensures lower || raise ==>
      forall y | 0 <= y < ScreenHeight ::
        floorDist[y] == LegacyFloorDist(y, p.vertLook, p.vertHeight) && ceilDist[y] == LegacyCeilDist(y, p.vertLook, p.vertHeight)
    ensures !lower && !raise ==> unchanged(floorDist) && unchanged(ceilDist)
  {
    if lower {
      p.vertHeight := p.vertHeight - 1.0;
      if p.vertHeight < (-ScreenHeight / 5) as real {
        p.vertHeight := (-ScreenHeight / 5) as real;
      }
      FillTables(floorDist, ceilDist, p.vertLook, p.vertHeight);
    } else if raise {
      p.vertHeight := p.vertHeight + 1.0;
      if p.vertHeight > (2 * ScreenHeight / 5) as real {
        p.vertHeight := (2 * ScreenHeight / 5) as real;
      }
      FillTables(floorDist, ceilDist, p.vertLook, p.vertHeight);
    }
  }

  // ----- the mouse wheel -----

  /** `std::min(hi, std::max(lo, x))`. */
  function ClampTo(lo: real, hi: real, x: real): (r: real)
    ensures lo <= hi ==> lo <= r <= hi
    ensures lo <= x <= hi ==> r == x
    ensures x < lo && lo <= hi ==> r == lo
    ensures x > hi ==> r == hi
  {
    var m := if lo < x then x else lo;
    if hi < m then hi else m
  }

  /** The lighting and mouse settings the wheel tunes. */
  class Tuning {
    var minBrightness: real
    var torchBrightness: real
    var fogMultiplier: real
    var mouseSense: real
    var mouseVertSense: real

    constructor ()
      ensures minBrightness == 0.0 && torchBrightness == 1.0 && fogMultiplier == 1.0
      ensures mouseSense == 0.25 && mouseVertSense == 0.75
    {
      minBrightness, torchBrightness, fogMultiplier := 0.0, 1.0, 1.0;
      mouseSense, mouseVertSense := 0.25, 0.75;
    }

    /** Both brightness levels in [0, 1] and both sensitivities in [0.01, 5]. */
    ghost predicate Valid()
      reads this
    {
      0.0 <= minBrightness <= 1.0 && 0.0 <= torchBrightness <= 1.0 &&
      0.01 <= mouseSense <= 5.0 && LookSense(mouseVertSense)
    }
  }

  /** The keys held while the wheel turns; the first held in this order decides what the
      wheel changes. */
  datatype WheelKeys = WheelKeys(insert: bool, home: bool, pageUp: bool, delete: bool, end: bool, pageDown: bool)

  /** A mouse-wheel event: `wheelY` notches with the held keys selecting the setting.  The fog
      multiplier scales by 4% per notch; the brightness levels move by 0.01 per notch within
      [0, 1]; the sensitivities by 0.01 within [0.01, 5]; Delete changes the field of view
      (`fovMult` is the tangent ratio `changeFOV` computes). */
  method Wheel(t: Tuning, p: Player, keys: WheelKeys, wheelY: int, fovMult: real)
    requires t.Valid()
    modifies t, p`hFOV, p`dirX, p`dirY
    ensures t.Valid()
    ensures var step := 0.01 * wheelY as real;
      if wheelY == 0 then
        unchanged(t) && p.hFOV == old(p.hFOV) && p.dirX == old(p.dirX) && p.dirY == old(p.dirY)
      else if keys.insert then
        t.fogMultiplier == old(t.fogMultiplier) * (1.0 + 0.04 * wheelY as real) &&
        t.minBrightness == old(t.minBrightness) && t.torchBrightness == old(t.torchBrightness) &&
        t.mouseSense == old(t.mouseSense) && t.mouseVertSense == old(t.mouseVertSense)
      else if keys.home then
        t.minBrightness == ClampTo(0.0, 1.0, old(t.minBrightness) + step) &&
        t.fogMultiplier == old(t.fogMultiplier) && t.torchBrightness == old(t.torchBrightness) &&
        t.mouseSense == old(t.mouseSense) && t.mouseVertSense == old(t.mouseVertSense)
      else if keys.pageUp then
        t.torchBrightness == ClampTo(0.0, 1.0, old(t.torchBrightness) + step) &&
        t.fogMultiplier == old(t.fogMultiplier) && t.minBrightness == old(t.minBrightness) &&
        t.mouseSense == old(t.mouseSense) && t.mouseVertSense == old(t.mouseVertSense)
      else if keys.delete then
        unchanged(t) &&
        p.hFOV == FovAfter(old(p.hFOV), wheelY as real) &&
        (p.hFOV == old(p.hFOV) + wheelY as real ==> p.dirX == old(p.dirX) * fovMult && p.dirY == old(p.dirY) * fovMult) &&
        (FovRejected(old(p.hFOV), wheelY as real) ==> p.dirX == old(p.dirX) && p.dirY == old(p.dirY))
      else if keys.end then
        t.mouseSense == ClampTo(0.01, 5.0, old(t.mouseSense) + step) &&
        t.fogMultiplier == old(t.fogMultiplier) && t.minBrightness == old(t.minBrightness) &&
        t.torchBrightness == old(t.torchBrightness) && t.mouseVertSense == old(t.mouseVertSense)
      else if keys.pageDown then
        t.mouseVertSense == ClampTo(0.01, 5.0, old(t.mouseVertSense) + step) &&
        t.fogMultiplier == old(t.fogMultiplier) && t.minBrightness == old(t.minBrightness) &&
        t.torchBrightness == old(t.torchBrightness) && t.mouseSense == old(t.mouseSense)
      else unchanged(t)
    ensures !(wheelY != 0 && !keys.insert && !keys.home && !keys.pageUp && keys.delete) ==>
      p.hFOV == old(p.hFOV) && p.dirX == old(p.dirX) && p.dirY == old(p.dirY)
  {
    if wheelY != 0 {
      var step := 0.01 * wheelY as real;
      if keys.insert {
        t.fogMultiplier := t.fogMultiplier * (1.0 + 0.04 * wheelY as real);
      } else if keys.home {
        t.minBrightness := ClampTo(0.0, 1.0, t.minBrightness + step);
      } else if keys.pageUp {
        t.torchBrightness := ClampTo(0.0, 1.0, t.torchBrightness + step);
      } else if keys.delete {
        ChangeFOV(p, wheelY as real, fovMult);
      } else if keys.end {
        t.mouseSense := ClampTo(0.01, 5.0, t.mouseSense + step);
      } else if keys.pageDown {
        t.mouseVertSense := ClampTo(0.01, 5.0, t.mouseVertSense + step);
      }
    }
  }

  // ----- the field of view -----

  /** A relative change that would take the field of view above 180 or below 50 degrees. */
  predicate FovRejected(hFOV: real, delta: real)
  {
    hFOV + delta > 180.0 || hFOV + delta < 50.0
  }

  /** `hFOV` after a relative `changeFOV`. */
  function FovAfter(hFOV: real, delta: real): (r: real)
    ensures FovRejected(hFOV, delta) ==> r == hFOV
    ensures !FovRejected(hFOV, delta) ==> 50.0 <= r <= 180.0 && r == hFOV + delta
  {
    if FovRejected(hFOV, delta) then hFOV else hFOV + delta
  }

  /** The field of view never leaves [50, 180] degrees once inside. */
  lemma FovStaysInRange(hFOV: real, delta: real)
    requires 50.0 <= hFOV <= 180.0
    ensures 50.0 <= FovAfter(hFOV, delta) <= 180.0
  {
  }

  /** `changeFOV(true, delta)`: a rejected change returns before touching anything; an accepted
      one adds `delta` to `hFOV` and rescales the view direction by `mult` (the ratio of the old
      and new tangents of half the field of view, an input here). */
  method ChangeFOV(p: Player, delta: real, mult: real)
    modifies p`hFOV, p`dirX, p`dirY
    ensures p.hFOV == FovAfter(old(p.hFOV), delta)
    ensures FovRejected(old(p.hFOV), delta) ==> p.dirX == old(p.dirX) && p.dirY == old(p.dirY)
    ensures !FovRejected(old(p.hFOV), delta) ==> p.dirX == old(p.dirX) * mult && p.dirY == old(p.dirY) * mult
  {
    if p.hFOV + delta > 180.0 || p.hFOV + delta < 50.0 {
      return;
    }
    p.hFOV := p.hFOV + delta;
    p.dirX := p.dirX * mult;
    p.dirY := p.dirY * mult;
  }
}
