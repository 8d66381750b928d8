/** The floor pass and the fog mask of the older engine (`drawFloor` and `generatefogMask`,
    raycaster.cpp).  The floor pass textures every pixel below the wall from the floor table
    (and, with the ceiling on, every pixel above it from the ceiling table, upside down) and
    clears the rest; the fog mask then darkens each pixel by the distance of what it shows. */
module LegacyFloor {
  import opened ExtReal
  import opened Wrappers
  import opened Camera
  import opened Fog

  /** What a pixel of a column is drawn or fogged from: nothing, the column's wall, or an entry
      of the floor or the ceiling table. */
  datatype Source = Cleared | WallSpan | FloorRow(k: int) | CeilRow(k: int)

  /** `drawEnd[x]` as `drawFloor` leaves it: a value above the screen height or below 0 (an
      overflowed line height) becomes the screen height. */
  function FloorStart(drawEnd: int): (e: int)
    ensures 0 <= e <= ScreenHeight
    ensures 0 <= drawEnd <= ScreenHeight ==> e == drawEnd
    ensures !(0 <= drawEnd <= ScreenHeight) ==> e == ScreenHeight
  {
    if drawEnd > ScreenHeight || drawEnd < 0 then ScreenHeight else drawEnd
  }

  /** The ceiling table is read upside down: screen row y shows entry H - 1 - y. */
  function CeilingEntry(y: int): int
  {
    ScreenHeight - 1 - y
  }

  /** What the floor pass draws at row y of a column whose wall starts at `drawStart` and whose
      floor starts at `end`. */
  function FloorSource(y: int, drawStart: int, end: int, ceilingOn: bool): Source
  {
    if ceilingOn && y < drawStart then CeilRow(CeilingEntry(y))
    else if y < end then Cleared
    else FloorRow(y)
  }

  /** The two tables, one entry per screen row. */
  predicate Tables(floorDist: seq<Ext>, ceilDist: seq<Ext>)
  {
    |floorDist| == ScreenHeight && |ceilDist| == ScreenHeight
  }

  /** The buffer pixel drawn from `src`; the texel fetch of the floor or ceiling texture from
      a row distance is an input. */
  function DrawnPixel(x: int, src: Source, floorDist: seq<Ext>, ceilDist: seq<Ext>,
                      floorTexel: (int, Ext) -> int, ceilTexel: (int, Ext) -> int): int
    requires Tables(floorDist, ceilDist)
  {
    match src
    case FloorRow(k) => if 0 <= k < ScreenHeight then floorTexel(x, floorDist[k]) else 0
    case CeilRow(k) => if 0 <= k < ScreenHeight then ceilTexel(x, ceilDist[k]) else 0
    case _ => 0
  }

  /** Every source the floor pass uses lies inside the tables, and the pass splits the column
      into the ceiling rows above the wall, cleared rows, and the floor rows from `end` down. */
  lemma FloorSourcesInTables(y: int, drawStart: int, end: int, ceilingOn: bool)
    requires 0 <= y < ScreenHeight
    ensures var src := FloorSource(y, drawStart, end, ceilingOn);
      (src.FloorRow? ==> src.k == y && y >= end) &&
      (src.CeilRow? ==> 0 <= src.k < ScreenHeight && CeilingEntry(src.k) == y && ceilingOn && y < drawStart) &&
      (src == Cleared <==> y < end && !(ceilingOn && y < drawStart)) &&
      !src.WallSpan?
  {
  }

  /** One column of `drawFloor` after the clamp: the rows above the floor cleared, the floor
      from `end` to the bottom, then (ceiling on) rows `H - drawStart` to `H - 1` of the
      ceiling table drawn upside down over the top `drawStart` rows. */
  method DrawFloorColumn(buffer: array2<int>, x: int, drawStart: int, end: int, floorDist: array<Ext>,
                         ceilDist: array<Ext>, ceilingOn: bool, floorTexel: (int, Ext) -> int,
                         ceilTexel: (int, Ext) -> int)
    requires buffer.Length0 == ScreenWidth && buffer.Length1 == ScreenHeight && 0 <= x < ScreenWidth
    requires Tables(floorDist[..], ceilDist[..]) && 0 <= end <= ScreenHeight
    requires ceilingOn ==> drawStart <= ScreenHeight
    modifies buffer
    ensures forall y | 0 <= y < ScreenHeight ::
      buffer[x, y] == DrawnPixel(x, FloorSource(y, drawStart, end, ceilingOn), floorDist[..], ceilDist[..], floorTexel, ceilTexel)
    ensures forall i, y | 0 <= i < ScreenWidth && i != x && 0 <= y < ScreenHeight :: buffer[i, y] == old(buffer[i, y])
  {
    ghost var fd, cd := floorDist[..], ceilDist[..];
    var y := 0;
    while y < end
      invariant 0 <= y <= end
      invariant forall j | 0 <= j < y :: buffer[x, j] == 0
      invariant forall i, j | 0 <= i < ScreenWidth && i != x && 0 <= j < ScreenHeight :: buffer[i, j] == old(buffer[i, j])
    {
      buffer[x, y] := 0;
      y := y + 1;
    }
    y := end;
    while y < ScreenHeight
      invariant end <= y <= ScreenHeight
      invariant forall j | 0 <= j < end :: buffer[x, j] == 0
      invariant forall j | end <= j < y :: buffer[x, j] == floorTexel(x, floorDist[j])
      invariant forall i, j | 0 <= i < ScreenWidth && i != x && 0 <= j < ScreenHeight :: buffer[i, j] == old(buffer[i, j])
    {
      buffer[x, y] := floorTexel(x, floorDist[y]);
      y := y + 1;
    }
    if ceilingOn {
      DrawCeiling(buffer, x, drawStart, end, floorDist, ceilDist, floorTexel, ceilTexel);
    }
    forall j | 0 <= j < ScreenHeight
      ensures buffer[x, j] == DrawnPixel(x, FloorSource(j, drawStart, end, ceilingOn), fd, cd, floorTexel, ceilTexel)
    {
      FloorSourcesInTables(j, drawStart, end, ceilingOn);
    }
  }

  /** The ceiling loop of one column: table rows `H - drawStart` to `H - 1` into screen rows
      `drawStart - 1` up to 0. */
  method DrawCeiling(buffer: array2<int>, x: int, drawStart: int, end: int, floorDist: array<Ext>,
                     ceilDist: array<Ext>, floorTexel: (int, Ext) -> int, ceilTexel: (int, Ext) -> int)
    requires buffer.Length0 == ScreenWidth && buffer.Length1 == ScreenHeight && 0 <= x < ScreenWidth
    requires Tables(floorDist[..], ceilDist[..]) && 0 <= end <= ScreenHeight && drawStart <= ScreenHeight
    requires forall j | 0 <= j < end :: buffer[x, j] == 0
    requires forall j | end <= j < ScreenHeight :: buffer[x, j] == floorTexel(x, floorDist[j])
    modifies buffer
    ensures forall j | 0 <= j < ScreenHeight ::
      buffer[x, j] == if j < drawStart then ceilTexel(x, ceilDist[ScreenHeight - 1 - j])
                      else if j < end then 0 else floorTexel(x, floorDist[j])
    ensures forall i, j | 0 <= i < ScreenWidth && i != x && 0 <= j < ScreenHeight :: buffer[i, j] == old(buffer[i, j])
  {
    var y := ScreenHeight - drawStart;
    while y < ScreenHeight
      invariant ScreenHeight - drawStart <= y && (drawStart > 0 ==> y <= ScreenHeight)
      invariant forall j | 0 <= j < ScreenHeight ::
        buffer[x, j] == if ScreenHeight - 1 - j < y && j < drawStart then ceilTexel(x, ceilDist[ScreenHeight - 1 - j])
                        else if j < end then 0 else floorTexel(x, floorDist[j])
      invariant forall i, j | 0 <= i < ScreenWidth && i != x && 0 <= j < ScreenHeight :: buffer[i, j] == old(buffer[i, j])
    {
      buffer[x, ScreenHeight - y - 1] := ceilTexel(x, ceilDist[y]);
      y := y + 1;
    }
  }

  /** The buffer after `drawFloor` of column x. */
  ghost predicate ColumnDrawn(buffer: array2<int>, x: int, drawStart: int, end: int, floorDist: seq<Ext>,
                              ceilDist: seq<Ext>, ceilingOn: bool, floorTexel: (int, Ext) -> int,
                              ceilTexel: (int, Ext) -> int)
    requires buffer.Length0 == ScreenWidth && buffer.Length1 == ScreenHeight && 0 <= x < ScreenWidth
    requires Tables(floorDist, ceilDist)
    reads buffer
  {
    forall y | 0 <= y < ScreenHeight ::
      buffer[x, y] == DrawnPixel(x, FloorSource(y, drawStart, end, ceilingOn), floorDist, ceilDist, floorTexel, ceilTexel)
  }

  /** The column loop of `drawFloor`: it clamps `drawEnd` in place and draws the column.  A
      ceiling pass with a wall top below the screen would read the ceiling table at a negative
      index, so it needs `drawStart <= H`. */
  method DrawFloorColumns(buffer: array2<int>, drawStart: array<int>, drawEnd: array<int>, floorDist: array<Ext>,
                   ceilDist: array<Ext>, ceilingOn: bool, floorTexel: (int, Ext) -> int, ceilTexel: (int, Ext) -> int)
    requires buffer.Length0 == ScreenWidth && buffer.Length1 == ScreenHeight
    requires drawStart.Length == ScreenWidth && drawEnd.Length == ScreenWidth && drawStart != drawEnd
    requires Tables(floorDist[..], ceilDist[..])
    requires ceilingOn ==> forall x | 0 <= x < ScreenWidth :: drawStart[x] <= ScreenHeight
    modifies buffer, drawEnd
    ensures forall x | 0 <= x < ScreenWidth :: drawEnd[x] == FloorStart(old(drawEnd[x]))
    ensures forall x | 0 <= x < ScreenWidth ::
      ColumnDrawn(buffer, x, drawStart[x], drawEnd[x], floorDist[..], ceilDist[..], ceilingOn, floorTexel, ceilTexel)
  {
    var x := 0;
    while x < ScreenWidth
      invariant 0 <= x <= ScreenWidth
      invariant forall i | 0 <= i < x :: drawEnd[i] == FloorStart(old(drawEnd[i]))
      invariant forall i | x <= i < ScreenWidth :: drawEnd[i] == old(drawEnd[i])
      invariant forall i | 0 <= i < x ::
        ColumnDrawn(buffer, i, drawStart[i], drawEnd[i], floorDist[..], ceilDist[..], ceilingOn, floorTexel, ceilTexel)
    {
      if drawEnd[x] > ScreenHeight || drawEnd[x] < 0 {
        drawEnd[x] := ScreenHeight;
      }
      DrawFloorColumn(buffer, x, drawStart[x], drawEnd[x], floorDist, ceilDist, ceilingOn, floorTexel, ceilTexel);
      x := x + 1;
    }
  }

  // ----- the fog mask -----

  /** The brightness of a floor or ceiling pixel at row distance d: `min(1, max(minBrightness,
      min(torchBrightness, torchBrightness / ((fogMultiplier * brightSin) * d * d))))`, with
      the settings' world level standing for `minBrightness` and its player level for
      `torchBrightness`. */
  function RowBrightness(d: Ext, bright: real, s: Settings): Ext
  {
    Clamped(Mul(Mul(Fin(s.multiplier * bright), d), d), s)
  }

  /** The brightness of a wall pixel: `lineHeight * torchBrightness * brightSin / (fogMultiplier
      * wallDist * 256)` capped at 1, raised to `minBrightness`, then capped at
      `torchBrightness` and raised to `minBrightness` again. */
  function WallBrightness(lineHeight: int, wallDist: Ext, bright: real, s: Settings): Ext
  {
    var q := DivBy(lineHeight as real * s.player * bright, Mul(Mul(Fin(s.multiplier), wallDist), Fin(256.0)));
    var b := MaxStd(MinStd(Fin(1.0), q), Fin(s.world));
    MaxStd(MinStd(b, Fin(s.player)), Fin(s.world))
  }

  /** A wall pixel's brightness is finite, never below `minBrightness` and never above
      `torchBrightness` unless `minBrightness` is higher. */
  lemma WallBrightnessBounds(lineHeight: int, wallDist: Ext, bright: real, s: Settings)
    requires ValidSettings(s)
    ensures var b := WallBrightness(lineHeight, wallDist, bright, s);
      b.Fin? && s.world <= b.v && b.v <= (if s.world < s.player then s.player else s.world)
  {
  }

  /** A floor or ceiling pixel's brightness is finite, between `minBrightness` and 1, and
      never above `torchBrightness` unless `minBrightness` is higher. */
  lemma RowBrightnessBounds(d: Ext, bright: real, s: Settings)
    requires ValidSettings(s)
    ensures var b := RowBrightness(d, bright, s);
      b.Fin? && s.world <= b.v <= 1.0 && b.v <= (if s.world < s.player then s.player else s.world)
  {
  }

  /** The second clamp of the alpha computation changes nothing: the alpha is `255 * (1 -
      brightness)` truncated. */
  lemma AlphaOfWallBrightness(lineHeight: int, wallDist: Ext, bright: real, s: Settings)
    requires ValidSettings(s)
    ensures var b := WallBrightness(lineHeight, wallDist, bright, s);
      b.Fin? && FogAlpha(s.world, b) == Trunc(255.0 * (1.0 - b.v))
  {
    WallBrightnessBounds(lineHeight, wallDist, bright, s);
    var b := WallBrightness(lineHeight, wallDist, bright, s);
    assert FogLevel(s.world, b) == b;
  }

  /** The table entry the fog mask reads for row y of a column with wall span
      [drawStart, drawEnd): the ceiling table upside down above the span, the wall inside it,
      the floor table below it. */
  function FogSource(y: int, drawStart: int, drawEnd: int): Source
  {
    if y < drawStart then CeilRow(CeilingEntry(y))
    else if y >= drawEnd then FloorRow(y)
    else WallSpan
  }

  /** The same as written: above the span it reads `ceilDist[texHeight - y]`. */
  function FogSourceAsWritten(y: int, drawStart: int, drawEnd: int): Source
  {
    if y < drawStart then CeilRow(ScreenHeight - y)
    else if y >= drawEnd then FloorRow(y)
    else WallSpan
  }

  /** The alpha for a pixel fogged from `src`, or None when `src` lies outside the tables (an
      out-of-bounds read). */
  function SourceAlpha(src: Source, lineHeight: int, wallDist: Ext, bright: real,
                       floorDist: seq<Ext>, ceilDist: seq<Ext>, s: Settings): Option<int>
    requires Tables(floorDist, ceilDist) && ValidSettings(s)
  {
    match src
    case CeilRow(k) =>
      if 0 <= k < ScreenHeight then Some(FogAlpha(s.world, RowBrightness(ceilDist[k], bright, s))) else None
    case FloorRow(k) =>
      if 0 <= k < ScreenHeight then Some(FogAlpha(s.world, RowBrightness(floorDist[k], bright, s))) else None
    case WallSpan => Some(FogAlpha(s.world, WallBrightness(lineHeight, wallDist, bright, s)))
    case Cleared => None
  }

  /** The mask pixel at row y of a column. */
  function FogPixel(y: int, drawStart: int, drawEnd: int, wallDist: Ext, bright: real,
                    floorDist: seq<Ext>, ceilDist: seq<Ext>, s: Settings): (a: int)
    requires Tables(floorDist, ceilDist) && ValidSettings(s) && 0 <= y < ScreenHeight
    ensures 0 <= a <= 255
    ensures SourceAlpha(FogSource(y, drawStart, drawEnd), drawEnd - drawStart, wallDist, bright, floorDist, ceilDist, s) == Some(a)
  {
    match FogSource(y, drawStart, drawEnd)
    case CeilRow(k) => FogAlpha(s.world, RowBrightness(ceilDist[k], bright, s))
    case FloorRow(k) => FogAlpha(s.world, RowBrightness(floorDist[k], bright, s))
    case WallSpan => FogAlpha(s.world, WallBrightness(drawEnd - drawStart, wallDist, bright, s))
  }

  /** The column's wall spans a non-empty or empty range that the floor pass agrees with. */
  predicate Ordered(drawStart: int, end: int)
  {
    drawStart <= end
  }

  /** The fog follows the texture: where the floor pass drew a pixel from a table entry, the
      fog mask fogs it from that same entry, floor and ceiling alike (for a column whose wall
      top is not below its floor start). */
  lemma FogMatchesTexture(y: int, drawStart: int, end: int, ceilingOn: bool)
    requires 0 <= y < ScreenHeight && Ordered(drawStart, end)
    ensures var drawn := FloorSource(y, drawStart, end, ceilingOn);
      (drawn.FloorRow? || drawn.CeilRow?) ==> FogSource(y, drawStart, end) == drawn
    ensures FogSource(y, drawStart, end).WallSpan? ==> FloorSource(y, drawStart, end, ceilingOn) == Cleared
  {
  }

  /** As written, the fog of a ceiling pixel comes from the entry after the one the ceiling
      pass drew it from: one row off everywhere above the wall. */
  lemma AsWrittenMisreadsCeiling(y: int, drawStart: int, end: int)
    requires 0 <= y < ScreenHeight && y < drawStart
    ensures FloorSource(y, drawStart, end, true) == CeilRow(ScreenHeight - 1 - y)
    ensures FogSourceAsWritten(y, drawStart, end) == CeilRow(ScreenHeight - y)
    ensures FogSourceAsWritten(y, drawStart, end) != FloorSource(y, drawStart, end, true)
  {
  }

  /** As written, a column whose wall starts below the top row reads `ceilDist[H]`, one past
      the table, for its top pixel. */
  lemma AsWrittenReadsPastTable(drawStart: int, drawEnd: int, wallDist: Ext, bright: real,
                                floorDist: seq<Ext>, ceilDist: seq<Ext>, s: Settings)
    requires Tables(floorDist, ceilDist) && ValidSettings(s) && drawStart > 0
    ensures FogSourceAsWritten(0, drawStart, drawEnd) == CeilRow(ScreenHeight)
    ensures SourceAlpha(FogSourceAsWritten(0, drawStart, drawEnd), drawEnd - drawStart, wallDist, bright,
                        floorDist, ceilDist, s) == None
  {
  }

  /** Every other row above the wall stays inside the table as written. */
  lemma AsWrittenInsideBelowTop(y: int, drawStart: int, drawEnd: int, wallDist: Ext, bright: real,
                                floorDist: seq<Ext>, ceilDist: seq<Ext>, s: Settings)
    requires Tables(floorDist, ceilDist) && ValidSettings(s) && 1 <= y < ScreenHeight
    ensures SourceAlpha(FogSourceAsWritten(y, drawStart, drawEnd), drawEnd - drawStart, wallDist, bright,
                        floorDist, ceilDist, s).Some?
  {
  }

  /** One row of `generatefogMask`, column by column. */
  method FogRow(mask: array2<int>, y: int, drawStart: array<int>, drawEnd: array<int>, wallDist: array<Ext>,
                floorDist: array<Ext>, ceilDist: array<Ext>, brightSin: array<real>, s: Settings)
    requires mask.Length0 == ScreenWidth && mask.Length1 == ScreenHeight && 0 <= y < ScreenHeight
    requires drawStart.Length == drawEnd.Length == wallDist.Length == brightSin.Length == ScreenWidth
    requires Tables(floorDist[..], ceilDist[..]) && ValidSettings(s)
    modifies mask
    ensures forall x | 0 <= x < ScreenWidth ::
      mask[x, y] == FogPixel(y, drawStart[x], drawEnd[x], wallDist[x], brightSin[x], floorDist[..], ceilDist[..], s)
    ensures forall i, j | 0 <= i < ScreenWidth && 0 <= j < ScreenHeight && j != y :: mask[i, j] == old(mask[i, j])
  {
    var x := 0;
    while x < ScreenWidth
      invariant 0 <= x <= ScreenWidth
      invariant forall i | 0 <= i < x ::
        mask[i, y] == FogPixel(y, drawStart[i], drawEnd[i], wallDist[i], brightSin[i], floorDist[..], ceilDist[..], s)
      invariant forall i, j | 0 <= i < ScreenWidth && 0 <= j < ScreenHeight && j != y :: mask[i, j] == old(mask[i, j])
    {
      var brightness: Ext;
      if y < drawStart[x] {
        brightness := RowBrightness(ceilDist[ScreenHeight - 1 - y], brightSin[x], s);
      } else if y >= drawEnd[x] {
        brightness := RowBrightness(floorDist[y], brightSin[x], s);
      } else {
        var lineHeight := drawEnd[x] - drawStart[x];
        brightness := WallBrightness(lineHeight, wallDist[x], brightSin[x], s);
      }
      mask[x, y] := FogAlpha(s.world, brightness);
      x := x + 1;
    }
  }

  /** `generatefogMask` with the ceiling read mirrored: every pixel of the screen-sized mask
      gets the alpha of its row's source. */
  method GenerateFogMask(mask: array2<int>, drawStart: array<int>, drawEnd: array<int>, wallDist: array<Ext>,
                         floorDist: array<Ext>, ceilDist: array<Ext>, brightSin: array<real>, s: Settings)
    requires mask.Length0 == ScreenWidth && mask.Length1 == ScreenHeight
    requires drawStart.Length == drawEnd.Length == wallDist.Length == brightSin.Length == ScreenWidth
    requires Tables(floorDist[..], ceilDist[..]) && ValidSettings(s)
    modifies mask
    ensures forall x, y | 0 <= x < ScreenWidth && 0 <= y < ScreenHeight ::
      mask[x, y] == FogPixel(y, drawStart[x], drawEnd[x], wallDist[x], brightSin[x], floorDist[..], ceilDist[..], s)
  {
    var y := 0;
    while y < ScreenHeight
      invariant 0 <= y <= ScreenHeight
      invariant forall x, j | 0 <= x < ScreenWidth && 0 <= j < y ::
        mask[x, j] == FogPixel(j, drawStart[x], drawEnd[x], wallDist[x], brightSin[x], floorDist[..], ceilDist[..], s)
    {
      FogRow(mask, y, drawStart, drawEnd, wallDist, floorDist, ceilDist, brightSin, s);
      y := y + 1;
    }
  }

  /** `drawFloor`: the column loop, then, with fog on, the fog mask over the clamped spans. */
  method DrawFloor(buffer: array2<int>, mask: array2<int>, drawStart: array<int>, drawEnd: array<int>,
                   wallDist: array<Ext>, floorDist: array<Ext>, ceilDist: array<Ext>, brightSin: array<real>,
                   ceilingOn: bool, fogOn: bool, s: Settings, floorTexel: (int, Ext) -> int,
                   ceilTexel: (int, Ext) -> int)
    requires buffer.Length0 == mask.Length0 == ScreenWidth && buffer.Length1 == mask.Length1 == ScreenHeight
    requires buffer != mask && drawStart != drawEnd
    requires drawStart.Length == drawEnd.Length == wallDist.Length == brightSin.Length == ScreenWidth
    requires Tables(floorDist[..], ceilDist[..]) && ValidSettings(s)
    requires ceilingOn ==> forall x | 0 <= x < ScreenWidth :: drawStart[x] <= ScreenHeight
    modifies buffer, mask, drawEnd
    ensures forall x | 0 <= x < ScreenWidth :: drawEnd[x] == FloorStart(old(drawEnd[x]))
    ensures forall x | 0 <= x < ScreenWidth ::
      ColumnDrawn(buffer, x, drawStart[x], drawEnd[x], floorDist[..], ceilDist[..], ceilingOn, floorTexel, ceilTexel)
    ensures fogOn ==> forall x, y | 0 <= x < ScreenWidth && 0 <= y < ScreenHeight ::
      mask[x, y] == FogPixel(y, drawStart[x], drawEnd[x], wallDist[x], brightSin[x], floorDist[..], ceilDist[..], s)
    ensures !fogOn ==> forall x, y | 0 <= x < ScreenWidth && 0 <= y < ScreenHeight :: mask[x, y] == old(mask[x, y])
  {
    DrawFloorColumns(buffer, drawStart, drawEnd, floorDist, ceilDist, ceilingOn, floorTexel, ceilTexel);
    if fogOn {
      GenerateFogMask(mask, drawStart, drawEnd, wallDist, floorDist, ceilDist, brightSin, s);
    }
  }
}
