/** The wall pass of the current engine (`drawWorldGeoTex` and `drawWorldGeoFlat`,
    src/raycaster.cpp): for each column, which face of the hit cell is seen, which texture and
    which texture column are drawn, how bright, and the vertical span of the strip on screen. */
module WallStrip {
  import opened ExtReal
  import opened BlockTypes
  import opened Camera
  import opened Level
  import opened Raycast

  /** Wall-height factor; fixed at 1. */
  const VFov := 1.0
  /** Number of wall textures loaded. */
  const TotalWallTextures := 3

  /** A screen or texture rectangle. */
  datatype Rect = Rect(x: int, y: int, w: int, h: int)

  /** One textured strip: the screen line, the one-texel-wide texture column sampled, the
      texture and its colour modulation. */
  datatype TexStrip = TexStrip(line: Rect, sample: Rect, texture: nat, brightness: real)

  /** An RGBA colour with 8-bit channels. */
  datatype Color = Color(r: int, g: int, b: int, a: int)

  /** One flat-coloured strip. */
  datatype FlatStrip = FlatStrip(rect: Rect, color: Color)

  // ----- face, texture and texture column -----

  /** The face of the hit cell that the ray sees. */
  function SelectFace(side: int, rayDirX: real, rayDirY: real): WallDir
  {
    if side == 1 && rayDirY > 0.0 then North
    else if side == 1 && rayDirY < 0.0 then South
    else if side == 0 && rayDirX < 0.0 then East
    else West
  }

  /** An x-side hit shows the East face exactly when the ray points toward -x, and the West
      face otherwise; a y-side hit shows North or South by the sign of the ray's y component.
      A y-side hit by a ray with no y component falls through to West. */
  lemma FacesBySide(side: int, rayDirX: real, rayDirY: real)
    ensures side == 0 ==> (SelectFace(side, rayDirX, rayDirY) == East <==> rayDirX < 0.0)
    ensures side == 0 ==> SelectFace(side, rayDirX, rayDirY) in {East, West}
    ensures side == 1 && rayDirY != 0.0 ==>
      SelectFace(side, rayDirX, rayDirY) == (if rayDirY > 0.0 then North else South)
    ensures side == 1 && rayDirY == 0.0 ==> SelectFace(side, rayDirX, rayDirY) == West
    ensures side != 0 && side != 1 ==> SelectFace(side, rayDirX, rayDirY) == West
  {
  }

  /** The wall texture drawn for texture id `t`: ids past the loaded textures use texture 0. */
  function TextureIndex(t: int): (i: nat)
    requires t >= 0
    ensures i < TotalWallTextures
    ensures i == t || i == 0
    ensures t < TotalWallTextures ==> i == t
  {
    if t < TotalWallTextures then t else 0
  }

  /** Where across the face (0 at its start) the ray meets it, shifted by how far a door
      has slid open (timer 1 is closed). */
  function WallX(d: real, side: int, rayDirX: real, rayDirY: real, posX: real, posY: real, timer: real): real
  {
    Frac(if side == 0 then posY + d * rayDirY else posX + d * rayDirX) + 1.0 - timer
  }

  /** The texture column: the unmirrored column, then the two flips in the order the engine
      applies them. */
  function TexColumn(wallX: real, width: int, side: int, rayDirX: real, rayDirY: real): int
  {
    var t0 := Trunc(wallX * width as real);
    var t1 := if side == 0 && rayDirX < 0.0 then width - t0 - 1 else t0;
    if side == 1 && rayDirY > 0.0 then width - t1 - 1 else t1
  }

  /** The column is mirrored exactly on the North and East faces. */
  lemma MirroredOnNorthAndEast(wallX: real, width: int, side: int, rayDirX: real, rayDirY: real)
    ensures var t := Trunc(wallX * width as real); var f := SelectFace(side, rayDirX, rayDirY);
      TexColumn(wallX, width, side, rayDirX, rayDirY) == (if f == North || f == East then width - t - 1 else t)
  {
  }

  /** For an ordinary cell (timer 1) the texture column lies inside the texture. */
  lemma TexColumnInTexture(d: real, side: int, rayDirX: real, rayDirY: real, posX: real, posY: real, width: int)
    requires width > 0
    ensures var wx := WallX(d, side, rayDirX, rayDirY, posX, posY, 1.0);
      0.0 <= wx < 1.0 && 0 <= TexColumn(wx, width, side, rayDirX, rayDirY) < width
  {
    var wx := WallX(d, side, rayDirX, rayDirY, posX, posY, 1.0);
    var p := wx * width as real;
    assert 0.0 <= p < width as real by {
      assert width as real - p == (1.0 - wx) * width as real;
    }
    assert 0 <= Trunc(p) < width;
  }

  // ----- the vertical span -----

  /** `lineHeight`: the projected wall height for perpendicular distance d. */
  function LineHeight(d: real): (lh: int)
    requires d > 0.0
    ensures lh >= 0
  {
    Trunc(ScreenHeight as real * VFov / d)
  }

  /** A farther wall is never drawn taller. */
  lemma LineHeightAntitone(d1: real, d2: real)
    requires 0.0 < d1 <= d2
    ensures LineHeight(d2) <= LineHeight(d1)
  {
    var h := ScreenHeight as real * VFov;
    assert h / d2 <= h / d1 by {
      assert h / d1 - h / d2 == h * (d2 - d1) / (d1 * d2);
      assert h * (d2 - d1) >= 0.0;
      assert d1 * d2 > 0.0;
    }
  }

  /** The vertical shift of a strip: eye height over distance plus the look offset. */
  function Shift(d: real, vertHeight: real, vertLook: real): real
    requires d > 0.0
  {
    vertHeight * ScreenHeight as real / d + vertLook
  }

  /** `drawStart[x]` and `drawEnd[x]` of the textured pass: the int expression is computed
      with C's division, then the double sum is truncated. */
  function DrawStart(lh: int, d: real, vertHeight: real, vertLook: real): int
    requires d > 0.0
  {
    Trunc((CDiv(-lh, 2) + ScreenHeight / 2) as real + Shift(d, vertHeight, vertLook))
  }

  function DrawEnd(lh: int, d: real, vertHeight: real, vertLook: real): int
    requires d > 0.0
  {
    Trunc((CDiv(lh, 2) + ScreenHeight / 2) as real + Shift(d, vertHeight, vertLook))
  }

  /** The strip is as tall as the wall's projected height rounded down to even when it starts
      on or below the top edge of the screen, and within one pixel of that otherwise. */
  lemma SpanHeight(lh: int, d: real, vertHeight: real, vertLook: real)
    requires lh >= 0 && d > 0.0
    ensures var s, e := DrawStart(lh, d, vertHeight, vertLook), DrawEnd(lh, d, vertHeight, vertLook);
      ((CDiv(-lh, 2) + ScreenHeight / 2) as real + Shift(d, vertHeight, vertLook) >= 0.0 ==> e - s == 2 * (lh / 2)) &&
      2 * (lh / 2) - 1 <= e - s <= 2 * (lh / 2) + 1
  {
    var o := Shift(d, vertHeight, vertLook);
    var a, b := (CDiv(lh, 2) + ScreenHeight / 2) as real + o, (CDiv(-lh, 2) + ScreenHeight / 2) as real + o;
    assert CDiv(-lh, 2) == -(lh / 2);
    TruncDifference(a, b, CDiv(lh, 2) - CDiv(-lh, 2));
  }

  lemma TruncDifference(a: real, b: real, k: int)
    requires k >= 0 && a == b + k as real
    ensures b >= 0.0 ==> Trunc(a) - Trunc(b) == k
    ensures k - 1 <= Trunc(a) - Trunc(b) <= k + 1
  {
    if b >= 0.0 {
      assert a.Floor == b.Floor + k;
    }
  }

  // ----- the textured pass -----

  /** Column x's strip, from its perpendicular distance d, side and hit cell. `texWidth` and
      `texHeight` are the sizes of the loaded wall textures. */
  function TexStripOf(x: int, d: real, side: int, cell: MapBlock, v: View, vertHeight: real, vertLook: real,
                      texWidth: seq<int>, texHeight: seq<int>): TexStrip
    requires d > 0.0 && |texWidth| == |texHeight| == TotalWallTextures
    requires forall f: WallDir :: cell.wallTex[f.Index()] >= 0
  {
    var rayDirX, rayDirY := RayDirX(v, x), RayDirY(v, x);
    var face := SelectFace(side, rayDirX, rayDirY);
    var tex := TextureIndex(cell.wallTex[face.Index()]);
    var wallX := WallX(d, side, rayDirX, rayDirY, v.posX, v.posY, cell.timer);
    var texX := TexColumn(wallX, texWidth[tex], side, rayDirX, rayDirY);
    var lh := LineHeight(d);
    var s, e := DrawStart(lh, d, vertHeight, vertLook), DrawEnd(lh, d, vertHeight, vertLook);
    TexStrip(Rect(x, s, 1, e - s), Rect(texX, 0, 1, texHeight[tex]), tex, if side == 0 then 255.0 else 127.0)
  }

  /** What the textured strip of an ordinary cell shows: the texture of the face the ray sees
      (or texture 0), a column inside it, mirrored on the North and East faces, at brightness
      255 on x-sides and 127 on y-sides. */
  lemma TexStripMeaning(x: int, d: real, side: int, cell: MapBlock, v: View, vertHeight: real, vertLook: real,
                        texWidth: seq<int>, texHeight: seq<int>)
    requires d > 0.0 && |texWidth| == |texHeight| == TotalWallTextures
    requires forall f: WallDir :: cell.wallTex[f.Index()] >= 0
    requires forall i | 0 <= i < TotalWallTextures :: texWidth[i] > 0
    requires cell.timer == 1.0
    ensures var st := TexStripOf(x, d, side, cell, v, vertHeight, vertLook, texWidth, texHeight);
      var face := SelectFace(side, RayDirX(v, x), RayDirY(v, x));
      var t := cell.wallTex[face.Index()];
      st.texture == (if t < TotalWallTextures then t else 0) &&
      0 <= st.sample.x < texWidth[st.texture] &&
      (st.brightness == 255.0 <==> side == 0) && (st.brightness == 127.0 <==> side != 0) &&
      st.line.x == x && st.line.w == 1
  {
    var rayDirX, rayDirY := RayDirX(v, x), RayDirY(v, x);
    var face := SelectFace(side, rayDirX, rayDirY);
    var tex := TextureIndex(cell.wallTex[face.Index()]);
    TexColumnInTexture(d, side, rayDirX, rayDirY, v.posX, v.posY, texWidth[tex]);
  }

  /** Every cell's face textures are valid (non-negative) texture ids. */
  predicate TexturesNonNegative(g: Grid)
  {
    forall x, y | 0 <= x < |g| && 0 <= y < |g[x]| :: forall f: WallDir :: g[x][y].wallTex[f.Index()] >= 0
  }

  /** The per-column inputs of the textured pass: a hit cell inside the grid and a positive
      finite distance for every column.  At an infinite distance the hit fraction
      `wallX - floor(wallX)` is NaN and its conversion to `int` is undefined. */
  predicate ColumnsReady(g: Grid, wallDist: seq<Ext>, side: seq<int>, mapX: seq<int>, mapY: seq<int>)
  {
    |wallDist| == |side| == |mapX| == |mapY| == ScreenWidth &&
    forall x | 0 <= x < ScreenWidth :: InGrid(g, mapX[x], mapY[x]) && wallDist[x].Fin? && wallDist[x].v > 0.0
  }

  /** The texture column of one strip, with its two flips. */
  method FlipColumn(wallX: real, width: int, side: int, rayDirX: real, rayDirY: real) returns (texX: int)
    ensures texX == TexColumn(wallX, width, side, rayDirX, rayDirY)
  {
    texX := Trunc(wallX * width as real);
    if side == 0 && rayDirX < 0.0 {
      texX := width - texX - 1;
    }
    if side == 1 && rayDirY > 0.0 {
      texX := width - texX - 1;
    }
  }

  /** The body of the strip loop for one column. */
  method CastStrip(x: int, d: real, side: int, cell: MapBlock, v: View, vertHeight: real, vertLook: real,
                   texWidth: seq<int>, texHeight: seq<int>) returns (strip: TexStrip)
    requires d > 0.0 && |texWidth| == |texHeight| == TotalWallTextures
    requires forall f: WallDir :: cell.wallTex[f.Index()] >= 0
    ensures strip == TexStripOf(x, d, side, cell, v, vertHeight, vertLook, texWidth, texHeight)
  {
    var rayDirX, rayDirY := RayDirX(v, x), RayDirY(v, x);
    var lineHeight := LineHeight(d);
    var currentWall := SelectFace(side, rayDirX, rayDirY);
    var tex := TextureIndex(cell.wallTex[currentWall.Index()]);
    var wallX := WallX(d, side, rayDirX, rayDirY, v.posX, v.posY, cell.timer);
    var texX := FlipColumn(wallX, texWidth[tex], side, rayDirX, rayDirY);
    var drawStart := DrawStart(lineHeight, d, vertHeight, vertLook);
    var drawEnd := DrawEnd(lineHeight, d, vertHeight, vertLook);
    var brightness := if side == 0 then 255.0 else 127.0;
    strip := TexStrip(Rect(x, drawStart, 1, drawEnd - drawStart), Rect(texX, 0, 1, texHeight[tex]), tex, brightness);
  }

  /** The strip loop of `drawWorldGeoTex`.  `drawStart` and `drawEnd` are kept for the fog
      pass; the strips stand for the `renderTexture` calls, in column order. */
  method DrawWorldGeoTex(g: Grid, v: View, wallDist: array<Ext>, side: array<int>, mapX: array<int>, mapY: array<int>,
                         vertHeight: real, vertLook: real, texWidth: seq<int>, texHeight: seq<int>)
    returns (drawStart: array<int>, drawEnd: array<int>, strips: seq<TexStrip>)
    requires ColumnsReady(g, wallDist[..], side[..], mapX[..], mapY[..]) && TexturesNonNegative(g)
    requires |texWidth| == |texHeight| == TotalWallTextures
    ensures fresh(drawStart) && fresh(drawEnd)
    ensures drawStart.Length == drawEnd.Length == |strips| == ScreenWidth
    ensures forall x | 0 <= x < ScreenWidth ::
      strips[x] == TexStripOf(x, wallDist[x].v, side[x], g[mapX[x]][mapY[x]], v, vertHeight, vertLook, texWidth, texHeight) &&
      drawStart[x] == strips[x].line.y && drawEnd[x] == strips[x].line.y + strips[x].line.h
  {
    drawStart := new int[ScreenWidth];
    drawEnd := new int[ScreenWidth];
    strips := [];
    var x := 0;
    while x < ScreenWidth
      invariant 0 <= x <= ScreenWidth && |strips| == x
      invariant forall c | 0 <= c < x ::
        strips[c] == TexStripOf(c, wallDist[c].v, side[c], g[mapX[c]][mapY[c]], v, vertHeight, vertLook, texWidth, texHeight) &&
        drawStart[c] == strips[c].line.y && drawEnd[c] == strips[c].line.y + strips[c].line.h
    {
      assert InGrid(g, mapX[x], mapY[x]) && wallDist[x].Fin? && wallDist[x].v > 0.0;
      var strip := CastStrip(x, wallDist[x].v, side[x], g[mapX[x]][mapY[x]], v, vertHeight, vertLook, texWidth, texHeight);
      drawStart[x] := strip.line.y;
      drawEnd[x] := strip.line.y + strip.line.h;
      strips := strips + [strip];
      x := x + 1;
    }
  }

  // ----- the flat-colour pass -----

  const Red := Color(255, 0, 0, 255)
  const Green := Color(0, 255, 0, 255)
  const Blue := Color(0, 0, 255, 255)
  const Yellow := Color(255, 255, 0, 255)
  const White := Color(255, 255, 255, 255)

  /** The colour of a cell kind in the debug view. */
  function KindColor(id: int): Color
  {
    if id == 1 then Blue
    else if id == 2 then Green
    else if id == 3 then Red
    else if id == 4 then White
    else Yellow
  }

  /** y-sides are drawn with every channel (alpha included) shifted right by one. */
  function FlatColor(id: int, side: int): (c: Color)
  {
    var k := KindColor(id);
    if side == 1 then Color(k.r / 2, k.g / 2, k.b / 2, k.a / 2) else k
  }

  /** Every channel of a flat colour is a byte; a y-side's channels are at most 127 and are
      half its kind's colour, rounded down. */
  lemma FlatColorChannels(id: int, side: int)
    ensures var c, k := FlatColor(id, side), KindColor(id);
      0 <= c.r <= 255 && 0 <= c.g <= 255 && 0 <= c.b <= 255 && 0 <= c.a <= 255 &&
      (side == 1 ==> c.r <= 127 && c.g <= 127 && c.b <= 127 && c.a <= 127 &&
                     2 * c.r <= k.r <= 2 * c.r + 1 && 2 * c.g <= k.g <= 2 * c.g + 1 &&
                     2 * c.b <= k.b <= 2 * c.b + 1 && 2 * c.a <= k.a <= 2 * c.a + 1) &&
      (side != 1 ==> c == k)
  {
  }

  /** A distance the flat pass can divide by: any value but 0 and NaN.  Dividing a finite
      number by an infinity gives 0. */
  predicate Divisor(d: Ext)
  {
    DivBy(1.0, d).Fin?
  }

  /** `(int)(gscreenHeight * vFOV / wallDist[x])`. */
  function FlatLineHeight(d: Ext): int
    requires Divisor(d)
  {
    Trunc(DivBy(ScreenHeight as real * VFov, d).v)
  }

  /** `(vertHeight * gscreenHeight) / wallDist[x] + vertLook`. */
  function FlatShift(d: Ext, vertHeight: real, vertLook: real): real
    requires Divisor(d)
  {
    DivBy(vertHeight * ScreenHeight as real, d).v + vertLook
  }

  /** The flat strip's rectangle: the end row first, the start one line height above it, then
      both clamped to the screen. */
  function FlatRect(x: int, lh: int, shift: real): Rect
  {
    var e := Trunc((CDiv(lh, 2) + ScreenHeight / 2) as real + shift);
    var s := e - lh;
    var s' := if s < 0 then 0 else s;
    var e' := if e >= ScreenHeight then ScreenHeight - 1 else e;
    Rect(x, s', 1, e' - s')
  }

  /** The flat strip starts on the screen and never ends below its last row; when no clamp
      applies it is exactly one line height tall. */
  lemma FlatRectClamped(x: int, lh: int, shift: real)
    ensures var r := FlatRect(x, lh, shift);
      var e := Trunc((CDiv(lh, 2) + ScreenHeight / 2) as real + shift);
      r.x == x && r.w == 1 && 0 <= r.y && r.y + r.h <= ScreenHeight - 1 &&
      (0 <= e - lh && e < ScreenHeight ==> r.h == lh && r.y == e - lh)
  {
  }

  function FlatStripOf(x: int, d: Ext, side: int, cell: MapBlock, vertHeight: real, vertLook: real): FlatStrip
    requires Divisor(d)
  {
    FlatStrip(FlatRect(x, FlatLineHeight(d), FlatShift(d, vertHeight, vertLook)), FlatColor(cell.blockId, side))
  }

  /** At a positive finite distance the flat strip has the textured pass's line height and
      shift.  At an infinite distance, which `calcRaycast` yields for a ray with a zero
      component, the line height is 0 and the strip is empty, on the horizon row
      `gscreenHeight / 2 + vertLook` when that row is on the screen. */
  lemma FlatStripAtDistance(x: int, d: Ext, side: int, cell: MapBlock, vertHeight: real, vertLook: real)
    ensures d.Fin? && d.v > 0.0 ==>
      Divisor(d) &&
      FlatStripOf(x, d, side, cell, vertHeight, vertLook).rect ==
        FlatRect(x, LineHeight(d.v), Shift(d.v, vertHeight, vertLook))
    ensures d.PosInf? || d.NegInf? ==>
      Divisor(d) && FlatLineHeight(d) == 0 &&
      var r, h := FlatStripOf(x, d, side, cell, vertHeight, vertLook).rect, Trunc((ScreenHeight / 2) as real + vertLook);
      (0 <= h < ScreenHeight ==> r.y == h && r.h == 0)
    ensures d.NaN? || d == Fin(0.0) <==> !Divisor(d)
  {
    if d.Fin? && d.v > 0.0 {
      assert DivBy(vertHeight * ScreenHeight as real, d).v == vertHeight * ScreenHeight as real / d.v;
    }
  }

  /** The per-column inputs of the flat pass: a hit cell inside the grid and a distance it can
      divide by, infinities included. */
  predicate FlatColumnsReady(g: Grid, wallDist: seq<Ext>, side: seq<int>, mapX: seq<int>, mapY: seq<int>)
  {
    |wallDist| == |side| == |mapX| == |mapY| == ScreenWidth &&
    forall x | 0 <= x < ScreenWidth :: InGrid(g, mapX[x], mapY[x]) && Divisor(wallDist[x])
  }

  /** The strip loop of `drawWorldGeoFlat`; the strips stand for the `SDL_RenderFillRect` calls. */
  method DrawWorldGeoFlat(g: Grid, wallDist: array<Ext>, side: array<int>, mapX: array<int>, mapY: array<int>,
                          vertHeight: real, vertLook: real)
    returns (strips: seq<FlatStrip>)
    requires FlatColumnsReady(g, wallDist[..], side[..], mapX[..], mapY[..])
    ensures |strips| == ScreenWidth
    ensures forall x | 0 <= x < ScreenWidth ::
      strips[x] == FlatStripOf(x, wallDist[x], side[x], g[mapX[x]][mapY[x]], vertHeight, vertLook)
  {
    strips := [];
    var x := 0;
    while x < ScreenWidth
      invariant 0 <= x <= ScreenWidth && |strips| == x
      invariant forall c | 0 <= c < x ::
        strips[c] == FlatStripOf(c, wallDist[c], side[c], g[mapX[c]][mapY[c]], vertHeight, vertLook)
    {
      assert InGrid(g, mapX[x], mapY[x]) && Divisor(wallDist[x]);
      var d := wallDist[x];
      var lineHeight := Trunc(DivBy(ScreenHeight as real * VFov, d).v);
      var id := g[mapX[x]][mapY[x]].blockId;
      var color := if id == 1 then Blue else if id == 2 then Green else if id == 3 then Red
        else if id == 4 then White else Yellow;
      if side[x] == 1 {
        color := Color(color.r / 2, color.g / 2, color.b / 2, color.a / 2);
      }
      var drawEnd := Trunc((CDiv(lineHeight, 2) + ScreenHeight / 2) as real + DivBy(vertHeight * ScreenHeight as real, d).v + vertLook);
      var drawStart := drawEnd - lineHeight;
      if drawStart < 0 {
        drawStart := 0;
      }
      if drawEnd >= ScreenHeight {
        drawEnd := ScreenHeight - 1;
      }
      strips := strips + [FlatStrip(Rect(x, drawStart, 1, drawEnd - drawStart), color)];
      x := x + 1;
    }
  }
}
