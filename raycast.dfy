/** The column raycaster of the current engine (`calcRaycast`, src/raycaster.cpp): for every
    screen column a ray walks the grid one cell boundary at a time (DDA), passes over invisible
    cells and open parts of sliding doors, and stops at the first cell that hides what is
    behind it, recording the perpendicular distance to it. */
module Raycast {
  import opened ExtReal
  import opened Wrappers
  import opened BlockTypes
  import opened Camera
  import opened Level

  /** How the walk decides which axis to step along.  `AsWritten` is the engine's rule: x
      exactly when sideDistX < sideDistY.  `InfiniteDelta` is the rule the engine would follow
      if the delta of a zero ray component were infinite: never step along an axis the ray
      does not move along. */
  datatype StepRule = AsWritten | InfiniteDelta

  /** What stays fixed during one column's walk. */
  datatype Ray = Ray(posX: real, posY: real, dirX: real, dirY: real,
                     deltaX: real, deltaY: real, stepX: int, stepY: int, rule: StepRule)

  /** The loop variables of the walk: the current cell, the ray lengths to the next x and y
      grid lines, and the axis of the last step (0 for x, 1 for y). */
  datatype Dda = Dda(mapX: int, mapY: int, sideDistX: real, sideDistY: real, side: int)

  /** Where a column's ray stopped. */
  datatype Hit = Hit(dist: Ext, side: int, mapX: int, mapY: int)

  /** -1 for a ray component below zero, else 1. */
  function StepOf(rayDir: real): int
  {
    if rayDir < 0.0 then -1 else 1
  }

  /** The initial sideDist along one axis: the remaining part of the player's cell toward the
      step direction, times that axis' delta. */
  function InitialSideDist(pos: real, cell: int, rayDir: real, delta: real): real
  {
    if rayDir < 0.0 then (pos - cell as real) * delta else (cell as real + 1.0 - pos) * delta
  }

  /** The ray of a column and the walk's starting state. */
  function StartRay(posX: real, posY: real, rayDirX: real, rayDirY: real, deltaX: real, deltaY: real,
                    rule: StepRule): Ray
  {
    Ray(posX, posY, rayDirX, rayDirY, deltaX, deltaY, StepOf(rayDirX), StepOf(rayDirY), rule)
  }

  function StartDda(r: Ray): Dda
  {
    var mx, my := Trunc(r.posX), Trunc(r.posY);
    Dda(mx, my, InitialSideDist(r.posX, mx, r.dirX, r.deltaX), InitialSideDist(r.posY, my, r.dirY, r.deltaY), 0)
  }

  /** The step signs follow the ray's signs, and for a player at a non-negative position the
      first side distance is the fraction of the player's cell still to cross along that axis
      times the axis' delta, so it lies in [0, delta]. */
  lemma StartProperties(posX: real, posY: real, rayDirX: real, rayDirY: real, deltaX: real, deltaY: real, rule: StepRule)
    requires posX >= 0.0 && posY >= 0.0 && deltaX >= 0.0 && deltaY >= 0.0
    ensures var r := StartRay(posX, posY, rayDirX, rayDirY, deltaX, deltaY, rule); var st := StartDda(r);
      (r.stepX == -1 <==> rayDirX < 0.0) && (r.stepX == 1 <==> rayDirX >= 0.0) &&
      (r.stepY == -1 <==> rayDirY < 0.0) && (r.stepY == 1 <==> rayDirY >= 0.0) &&
      st.mapX == posX.Floor && st.mapY == posY.Floor &&
      0.0 <= st.sideDistX <= deltaX && 0.0 <= st.sideDistY <= deltaY
  {
    var r := StartRay(posX, posY, rayDirX, rayDirY, deltaX, deltaY, rule);
    var st := StartDda(r);
    FractionTimesDelta(posX, st.mapX, rayDirX, deltaX);
    FractionTimesDelta(posY, st.mapY, rayDirY, deltaY);
  }

  lemma FractionTimesDelta(pos: real, cell: int, rayDir: real, delta: real)
    requires pos >= 0.0 && cell == pos.Floor && delta >= 0.0
    ensures 0.0 <= InitialSideDist(pos, cell, rayDir, delta) <= delta
  {
    var f := if rayDir < 0.0 then pos - cell as real else cell as real + 1.0 - pos;
    assert 0.0 <= f <= 1.0;
    assert InitialSideDist(pos, cell, rayDir, delta) == f * delta;
    MulBetween(f, delta);
  }

  lemma MulBetween(f: real, d: real)
    requires 0.0 <= f <= 1.0 && d >= 0.0
    ensures 0.0 <= f * d <= d
  {
    assert d - f * d == (1.0 - f) * d;
  }

  /** Whether the next step goes along x. */
  predicate StepsX(r: Ray, st: Dda)
  {
    match r.rule
    case AsWritten => st.sideDistX < st.sideDistY
    case InfiniteDelta => r.dirX != 0.0 && (r.dirY == 0.0 || st.sideDistX < st.sideDistY)
  }

  /** One iteration of the DDA loop: exactly one of mapX and mapY moves, by its step, and the
      crossed axis' side distance grows by its delta.  Under the engine's rule the x axis is
      taken exactly when sideDistX < sideDistY, so a tie goes to y. */
  function Step(r: Ray, st: Dda): (n: Dda)
    ensures r.rule == AsWritten ==> (n.side == 0 <==> st.sideDistX < st.sideDistY)
    ensures n.side == 0 ==> (n.mapX == st.mapX + r.stepX && n.mapY == st.mapY &&
                             n.sideDistX == st.sideDistX + r.deltaX && n.sideDistY == st.sideDistY)
    ensures n.side == 1 ==> (n.mapY == st.mapY + r.stepY && n.mapX == st.mapX &&
                             n.sideDistY == st.sideDistY + r.deltaY && n.sideDistX == st.sideDistX)
    ensures n.side == 0 || n.side == 1
  {
    if StepsX(r, st) then Dda(st.mapX + r.stepX, st.mapY, st.sideDistX + r.deltaX, st.sideDistY, 0)
    else Dda(st.mapX, st.mapY + r.stepY, st.sideDistX, st.sideDistY + r.deltaY, 1)
  }

  /** The grid has at least one column and all columns have the same height. */
  predicate IsGrid(g: Grid)
  {
    |g| > 0 && forall x | 0 <= x < |g| :: |g[x]| == |g[0]|
  }

  function Height(g: Grid): nat
    requires IsGrid(g)
  {
    |g[0]|
  }

  predicate InGrid(g: Grid, x: int, y: int)
  {
    0 <= x < |g| && 0 <= y < |g[x]|
  }

  /** A cell off the border of the grid. */
  predicate Interior(g: Grid, x: int, y: int)
    requires IsGrid(g)
  {
    1 <= x < |g| - 1 && 1 <= y < Height(g) - 1
  }

  /** Every border cell is a visible, ordinary wall, so every ray stops inside the grid. */
  predicate Enclosed(g: Grid)
  {
    IsGrid(g) &&
    forall x, y | 0 <= x < |g| && 0 <= y < |g[x]| && !Interior(g, x, y) :: g[x][y].visible && !g[x][y].isDoor
  }

  /** Both step signs are -1 or 1. */
  predicate UnitSteps(r: Ray)
  {
    (r.stepX == -1 || r.stepX == 1) && (r.stepY == -1 || r.stepY == 1)
  }

  /** The perpendicular distance to the wall plane of an ordinary cell just entered. */
  function WallDist(r: Ray, st: Dda): Ext
  {
    if st.side == 0 then Div(st.mapX as real - r.posX + ((1 - r.stepX) / 2) as real, r.dirX)
    else Div(st.mapY as real - r.posY + ((1 - r.stepY) / 2) as real, r.dirY)
  }

  /** The perpendicular distance to a sliding door, which sits half a cell into its cell. */
  function DoorDist(r: Ray, st: Dda): Ext
  {
    if st.side == 0 then Div(st.mapX as real + r.stepX as real * 0.5 - r.posX + ((1 - r.stepX) / 2) as real, r.dirX)
    else Div(st.mapY as real + r.stepY as real * 0.5 - r.posY + ((1 - r.stepY) / 2) as real, r.dirY)
  }

  /** The distance at which the ray leaves the door's cell through its other pair of sides. */
  function DoorCheckDist(r: Ray, st: Dda): Ext
  {
    if st.side == 0 then Div(st.mapY as real + r.stepY as real - r.posY + ((1 - r.stepY) / 2) as real, r.dirY)
    else Div(st.mapX as real + r.stepX as real - r.posX + ((1 - r.stepX) / 2) as real, r.dirX)
  }

  /** Where across the door (0 to 1) the ray meets it. */
  function DoorWallX(r: Ray, st: Dda): Ext
  {
    var perp := DoorDist(r, st);
    FracExt(if st.side == 0 then AddFin(r.posY, Mul(perp, Fin(r.dirY)))
            else AddFin(r.posX, Mul(perp, Fin(r.dirX))))
  }

  /** A door blocks the ray when the ray meets the door plane before leaving the cell and at a
      point the door still covers (the door slides away as its timer drops from 1 to 0). */
  predicate DoorBlocks(r: Ray, st: Dda, timer: real)
  {
    Lt(DoorDist(r, st), DoorCheckDist(r, st)) && Le(DoorWallX(r, st), Fin(timer))
  }

  /** The distance at which the walk stops in the cell just entered, or None to walk on. */
  function Probe(g: Grid, r: Ray, st: Dda): Option<Ext>
    requires InGrid(g, st.mapX, st.mapY)
  {
    ProbeBlock(g[st.mapX][st.mapY], r, st)
  }

  /** The probe of cell `b`, entered in state `st`. */
  function ProbeBlock(b: MapBlock, r: Ray, st: Dda): Option<Ext>
  {
    if !b.visible then None
    else if b.isDoor then (if DoorBlocks(r, st, b.timer) then Some(DoorDist(r, st)) else None)
    else Some(WallDist(r, st))
  }

  /** Cell boundaries between the current cell and the border, counted in the step
      directions: every step crosses one of them. */
  function Remaining(g: Grid, r: Ray, st: Dda): nat
    requires IsGrid(g) && InGrid(g, st.mapX, st.mapY)
  {
    (if r.stepX > 0 then |g| - st.mapX else st.mapX + 1) +
    (if r.stepY > 0 then Height(g) - st.mapY else st.mapY + 1)
  }

  /** From an interior cell one step stays inside the grid and gets one boundary closer. */
  lemma StepStaysInGrid(g: Grid, r: Ray, st: Dda)
    requires IsGrid(g) && UnitSteps(r) && Interior(g, st.mapX, st.mapY)
    ensures InGrid(g, Step(r, st).mapX, Step(r, st).mapY)
    ensures Remaining(g, r, Step(r, st)) < Remaining(g, r, st)
  {
  }

  /** The walk from an interior cell: step, probe, repeat until a probe stops it. */
  function Walk(g: Grid, r: Ray, st: Dda): (h: Hit)
    requires Enclosed(g) && UnitSteps(r) && Interior(g, st.mapX, st.mapY)
    ensures InGrid(g, h.mapX, h.mapY) && g[h.mapX][h.mapY].visible
    ensures h.side == 0 || h.side == 1
    decreases Remaining(g, r, st)
  {
    StepStaysInGrid(g, r, st);
    var n := Step(r, st);
    match Probe(g, r, n)
    case Some(d) => Hit(d, n.side, n.mapX, n.mapY)
    case None => Walk(g, r, n)
  }

  /** One unfolding of the walk: after one step, either the probe stops it there or the walk
      goes on from an interior cell. */
  lemma WalkStep(g: Grid, r: Ray, st: Dda)
    requires Enclosed(g) && UnitSteps(r) && Interior(g, st.mapX, st.mapY)
    ensures var n := Step(r, st);
      InGrid(g, n.mapX, n.mapY) && Remaining(g, r, n) < Remaining(g, r, st) &&
      (Probe(g, r, n).Some? ==> Walk(g, r, st) == Hit(Probe(g, r, n).value, n.side, n.mapX, n.mapY)) &&
      (Probe(g, r, n).None? ==> Interior(g, n.mapX, n.mapY) && Walk(g, r, st) == Walk(g, r, n))
  {
    StepStaysInGrid(g, r, st);
  }

  /** The probe reads the cell, its coordinates and the side, never the side distances. */
  lemma ProbeIgnoresSideDist(b: MapBlock, r: Ray, st: Dda)
    ensures ProbeBlock(b, r, st) == ProbeBlock(b, r, Dda(st.mapX, st.mapY, 0.0, 0.0, st.side))
  {
    var st0 := Dda(st.mapX, st.mapY, 0.0, 0.0, st.side);
    assert WallDist(r, st) == WallDist(r, st0);
    assert DoorDist(r, st) == DoorDist(r, st0);
    assert DoorCheckDist(r, st) == DoorCheckDist(r, st0);
    assert DoorWallX(r, st) == DoorWallX(r, st0);
  }

  /** `k` iterations of the loop. */
  function Iterate(r: Ray, st: Dda, k: nat): Dda
    decreases k
  {
    if k == 0 then st else Iterate(r, Step(r, st), k - 1)
  }

  /** The walk stops at the first cell whose probe stops it: it takes some k >= 1 steps, at
      most the number of boundaries to the border (so at most width + height), every cell
      passed before is inside the grid and lets the ray through, and the hit is the probe's. */
  lemma {:induction false} WalkIsFirstStop(g: Grid, r: Ray, st: Dda) returns (k: nat)
    requires Enclosed(g) && UnitSteps(r) && Interior(g, st.mapX, st.mapY)
    ensures 1 <= k <= Remaining(g, r, st) <= |g| + Height(g)
    ensures var last := Iterate(r, st, k); var h := Walk(g, r, st);
      last.mapX == h.mapX && last.mapY == h.mapY && last.side == h.side &&
      Probe(g, r, last) == Some(h.dist)
    ensures forall j | 1 <= j < k ::
      (Interior(g, Iterate(r, st, j).mapX, Iterate(r, st, j).mapY) && Probe(g, r, Iterate(r, st, j)) == None)
    decreases Remaining(g, r, st)
  {
    StepStaysInGrid(g, r, st);
    var n := Step(r, st);
    assert Iterate(r, st, 1) == n;
    if Probe(g, r, n).Some? {
      k := 1;
    } else {
      assert Interior(g, n.mapX, n.mapY);
      var k' := WalkIsFirstStop(g, r, n);
      k := k' + 1;
      forall j | 1 <= j < k ensures Iterate(r, st, j) == Iterate(r, n, j - 1) {
      }
    }
  }

  /** The loop state the walk stopped in, up to its side distances (which no distance
      formula reads). */
  function Landing(h: Hit): Dda
  {
    Dda(h.mapX, h.mapY, 0.0, 0.0, h.side)
  }

  /** An ordinary wall is hit at the distance of its near wall plane; a door only where it
      blocks the ray, and then at the door plane. */
  lemma {:induction false} HitDistance(g: Grid, r: Ray, st: Dda)
    requires Enclosed(g) && UnitSteps(r) && Interior(g, st.mapX, st.mapY)
    ensures var h := Walk(g, r, st); var b := g[h.mapX][h.mapY];
      (!b.isDoor ==> h.dist == WallDist(r, Landing(h))) &&
      (b.isDoor ==> h.dist == DoorDist(r, Landing(h)) && DoorBlocks(r, Landing(h), b.timer))
    decreases Remaining(g, r, st)
  {
    StepStaysInGrid(g, r, st);
    var n := Step(r, st);
    if Probe(g, r, n).None? {
      HitDistance(g, r, n);
    } else {
      var h := Walk(g, r, st);
      assert n.mapX == h.mapX && n.mapY == h.mapY && n.side == h.side;
      assert WallDist(r, n) == WallDist(r, Landing(h));
      assert DoorDist(r, n) == DoorDist(r, Landing(h));
      assert DoorCheckDist(r, n) == DoorCheckDist(r, Landing(h));
      assert DoorWallX(r, n) == DoorWallX(r, Landing(h));
    }
  }

  /** A fully closed door (timer at least 1) blocks every ray that meets its plane inside the
      cell with a finite hit position. */
  lemma ClosedDoorBlocks(r: Ray, st: Dda, timer: real)
    requires timer >= 1.0
    requires Lt(DoorDist(r, st), DoorCheckDist(r, st)) && DoorWallX(r, st).Fin?
    ensures DoorBlocks(r, st, timer)
  {
  }

  /** A fully open door (timer 0) blocks only a ray that meets it exactly on a cell line. */
  lemma OpenDoorPassesRays(r: Ray, st: Dda)
    requires DoorWallX(r, st) != Fin(0.0)
    ensures !DoorBlocks(r, st, 0.0)
  {
  }

  // ----- the camera and the columns -----

  /** The camera: position, view direction and camera plane. */
  datatype View = View(posX: real, posY: real, dirX: real, dirY: real, planeX: real, planeY: real)

  /** The column's position on the camera plane, from -1 at column 0 toward 1. */
  function CameraX(x: int): real
  {
    2.0 * x as real / ScreenWidth as real - 1.0
  }

  function RayDirX(v: View, x: int): real { v.dirX + v.planeX * CameraX(x) }
  function RayDirY(v: View, x: int): real { v.dirY + v.planeY * CameraX(x) }

  function AbsR(a: real): real { if a < 0.0 then -a else a }

  /** The value of `deltaDistX` while column x is cast: the variable lives across columns and
      is refreshed only where the ray's x component is non-zero, so a zero component reuses
      the previous column's value, or the initial 0 in column 0. */
  function DeltaX(v: View, x: int): real
    decreases x
  {
    if x < 0 then 0.0
    else if RayDirX(v, x) != 0.0 then AbsR(1.0 / RayDirX(v, x))
    else DeltaX(v, x - 1)
  }

  function DeltaY(v: View, x: int): real
    decreases x
  {
    if x < 0 then 0.0
    else if RayDirY(v, x) != 0.0 then AbsR(1.0 / RayDirY(v, x))
    else DeltaY(v, x - 1)
  }

  /** Where the delta is refreshed it is the ray length per unit of x; where it is not it is
      the previous column's; it is never negative. */
  lemma {:induction false} DeltaXMeaning(v: View, x: int)
    ensures DeltaX(v, x) >= 0.0
    ensures x >= 0 && RayDirX(v, x) != 0.0 ==> DeltaX(v, x) * AbsR(RayDirX(v, x)) == 1.0
    ensures x >= 0 && RayDirX(v, x) == 0.0 ==> DeltaX(v, x) == DeltaX(v, x - 1)
    decreases x
  {
    if x >= 0 {
      if RayDirX(v, x) == 0.0 {
        DeltaXMeaning(v, x - 1);
      } else {
        var a := RayDirX(v, x);
        assert AbsR(1.0 / a) * AbsR(a) == 1.0;
      }
    }
  }

  lemma {:induction false} DeltaYMeaning(v: View, x: int)
    ensures DeltaY(v, x) >= 0.0
    ensures x >= 0 && RayDirY(v, x) != 0.0 ==> DeltaY(v, x) * AbsR(RayDirY(v, x)) == 1.0
    ensures x >= 0 && RayDirY(v, x) == 0.0 ==> DeltaY(v, x) == DeltaY(v, x - 1)
    decreases x
  {
    if x >= 0 {
      if RayDirY(v, x) == 0.0 {
        DeltaYMeaning(v, x - 1);
      } else {
        var a := RayDirY(v, x);
        assert AbsR(1.0 / a) * AbsR(a) == 1.0;
      }
    }
  }

  /** The reused delta at work: in column 0 of a camera looking along (1, -1) with plane
      (1, 1) the ray is (0, -2), so `deltaDistX` keeps its initial 0, `sideDistX` stays 0 and
      the first step goes along x, into the next column of cells, although the ray does not
      move along x at all. */
  lemma ZeroComponentStepsSideways()
    ensures var v := View(2.5, 2.5, 1.0, -1.0, 1.0, 1.0);
      var r := ColumnRay(v, 0, AsWritten);
      r.dirX == 0.0 && r.deltaX == 0.0 &&
      Step(r, StartDda(r)).side == 0 && Step(r, StartDda(r)).mapX == StartDda(r).mapX + 1
  {
    var v := View(2.5, 2.5, 1.0, -1.0, 1.0, 1.0);
    assert CameraX(0) == -1.0;
    assert RayDirX(v, 0) == 0.0 && RayDirY(v, 0) == -2.0;
    assert DeltaX(v, 0) == 0.0 && DeltaY(v, 0) == 0.5;
  }

  /** With the delta of a zero component taken as infinite, a step never leaves the line or
      column of cells the ray runs along. */
  lemma InfiniteDeltaFollowsRay(r: Ray, st: Dda)
    requires r.rule == InfiniteDelta
    ensures r.dirX == 0.0 ==> Step(r, st).side == 1 && Step(r, st).mapX == st.mapX
    ensures r.dirY == 0.0 && r.dirX != 0.0 ==> Step(r, st).side == 0 && Step(r, st).mapY == st.mapY
  {
  }

  /** The player stands in an interior cell of an enclosed grid. */
  predicate PlayerInside(g: Grid, v: View)
  {
    Enclosed(g) && v.posX >= 0.0 && v.posY >= 0.0 && Interior(g, Trunc(v.posX), Trunc(v.posY))
  }

  function ColumnRay(v: View, x: int, rule: StepRule): Ray
  {
    StartRay(v.posX, v.posY, RayDirX(v, x), RayDirY(v, x), DeltaX(v, x), DeltaY(v, x), rule)
  }

  /** Where the ray of column x stops. */
  function Column(g: Grid, v: View, x: int, rule: StepRule): (h: Hit)
    requires PlayerInside(g, v)
    ensures InGrid(g, h.mapX, h.mapY) && g[h.mapX][h.mapY].visible
  {
    Walk(g, ColumnRay(v, x, rule), StartDda(ColumnRay(v, x, rule)))
  }

  /** `|perpWallDist * rayDir|` along the axis of the last step, as stored for the centre
      column. */
  function AheadDist(h: Hit, rayDirX: real, rayDirY: real): Ext
  {
    Abs(Mul(h.dist, Fin(if h.side == 0 then rayDirX else rayDirY)))
  }

  /** One column's DDA loop, with the engine's stepping rule. */
  method CastColumn(g: Grid, posX: real, posY: real, rayDirX: real, rayDirY: real,
                    deltaDistX: real, deltaDistY: real) returns (h: Hit)
    requires Enclosed(g) && posX >= 0.0 && posY >= 0.0 && Interior(g, Trunc(posX), Trunc(posY))
    ensures var r := StartRay(posX, posY, rayDirX, rayDirY, deltaDistX, deltaDistY, AsWritten);
      h == Walk(g, r, StartDda(r))
  {
    ghost var r := StartRay(posX, posY, rayDirX, rayDirY, deltaDistX, deltaDistY, AsWritten);
    var mapX, mapY := Trunc(posX), Trunc(posY);
    var stepX, stepY: int;
    var sideDistX, sideDistY: real;
    if rayDirX < 0.0 {
      stepX := -1;
      sideDistX := (posX - mapX as real) * deltaDistX;
    } else {
      stepX := 1;
      sideDistX := (mapX as real + 1.0 - posX) * deltaDistX;
    }
    if rayDirY < 0.0 {
      stepY := -1;
      sideDistY := (posY - mapY as real) * deltaDistY;
    } else {
      stepY := 1;
      sideDistY := (mapY as real + 1.0 - posY) * deltaDistY;
    }
    assert Dda(mapX, mapY, sideDistX, sideDistY, 0) == StartDda(r);
    h := WalkLoop(g, posX, posY, rayDirX, rayDirY, stepX, stepY, deltaDistX, deltaDistY, mapX, mapY, sideDistX, sideDistY, r);
  }

  /** The `while (hit == 0)` loop of one column, from the player's cell. */
  method WalkLoop(g: Grid, posX: real, posY: real, rayDirX: real, rayDirY: real, stepX: int, stepY: int,
                  deltaDistX: real, deltaDistY: real, mapX0: int, mapY0: int, sideDistX0: real, sideDistY0: real,
                  ghost r: Ray) returns (h: Hit)
    requires r == Ray(posX, posY, rayDirX, rayDirY, deltaDistX, deltaDistY, stepX, stepY, AsWritten)
    requires Enclosed(g) && UnitSteps(r) && Interior(g, mapX0, mapY0)
    ensures h == Walk(g, r, Dda(mapX0, mapY0, sideDistX0, sideDistY0, 0))
  {
    ghost var start := Dda(mapX0, mapY0, sideDistX0, sideDistY0, 0);
    var mapX, mapY, sideDistX, sideDistY := mapX0, mapY0, sideDistX0, sideDistY0;
    var side := 0;
    var hit := 0;
    h := Hit(NaN, 0, mapX, mapY);
    while hit == 0
      invariant hit == 0 || hit == 1
      invariant hit == 0 ==>
        (Interior(g, mapX, mapY) && Walk(g, r, Dda(mapX, mapY, sideDistX, sideDistY, side)) == Walk(g, r, start))
      invariant hit == 1 ==> h == Walk(g, r, start)
      decreases if hit == 0 then Remaining(g, r, Dda(mapX, mapY, sideDistX, sideDistY, side)) + 1 else 0
    {
      ghost var st := Dda(mapX, mapY, sideDistX, sideDistY, side);
      WalkStep(g, r, st);
      if sideDistX < sideDistY {
        sideDistX := sideDistX + deltaDistX;
        mapX := mapX + stepX;
        side := 0;
      } else {
        sideDistY := sideDistY + deltaDistY;
        mapY := mapY + stepY;
        side := 1;
      }
      assert Dda(mapX, mapY, sideDistX, sideDistY, side) == Step(r, st);
      var cell := g[mapX][mapY];
      var stop, dist := ProbeCell(cell, posX, posY, rayDirX, rayDirY, stepX, stepY, mapX, mapY, side, r);
      ProbeIgnoresSideDist(cell, r, Step(r, st));
      if stop {
        hit := 1;
        h := Hit(dist, side, mapX, mapY);
      }
    }
  }

  /** The hit test of one loop iteration on the cell just entered: a visible ordinary wall
      stops the ray at its wall plane; a visible door stops it only where the door blocks. */
  method ProbeCell(cell: MapBlock, posX: real, posY: real, rayDirX: real, rayDirY: real,
                   stepX: int, stepY: int, mapX: int, mapY: int, side: int, ghost r: Ray)
    returns (stop: bool, dist: Ext)
    requires r.posX == posX && r.posY == posY && r.dirX == rayDirX && r.dirY == rayDirY
    requires r.stepX == stepX && r.stepY == stepY
    ensures var p := ProbeBlock(cell, r, Dda(mapX, mapY, 0.0, 0.0, side));
      stop == p.Some? && (stop ==> dist == p.value)
  {
    ghost var st := Dda(mapX, mapY, 0.0, 0.0, side);
    stop, dist := false, NaN;
    if cell.visible {
      if cell.isDoor {
        var perpWallDist, checkDist, wallX: Ext;
        if side == 0 {
          perpWallDist := Div(mapX as real + stepX as real * 0.5 - posX + ((1 - stepX) / 2) as real, rayDirX);
          checkDist := Div(mapY as real + stepY as real - posY + ((1 - stepY) / 2) as real, rayDirY);
          wallX := AddFin(posY, Mul(perpWallDist, Fin(rayDirY)));
        } else {
          perpWallDist := Div(mapY as real + stepY as real * 0.5 - posY + ((1 - stepY) / 2) as real, rayDirY);
          checkDist := Div(mapX as real + stepX as real - posX + ((1 - stepX) / 2) as real, rayDirX);
          wallX := AddFin(posX, Mul(perpWallDist, Fin(rayDirX)));
        }
        wallX := FracExt(wallX);
        assert perpWallDist == DoorDist(r, st) && checkDist == DoorCheckDist(r, st) && wallX == DoorWallX(r, st);
        if Lt(perpWallDist, checkDist) {
          if Le(wallX, Fin(cell.timer)) {
            stop, dist := true, perpWallDist;
          }
        }
      } else {
        stop := true;
        if side == 0 {
          dist := Div(mapX as real - posX + ((1 - stepX) / 2) as real, rayDirX);
        } else {
          dist := Div(mapY as real - posY + ((1 - stepY) / 2) as real, rayDirY);
        }
      }
    }
  }

  /** The body of the column loop for column x: its ray direction, the kept-or-updated
      deltas, and the cell the ray stops in. */
  method CastNext(g: Grid, v: View, x: int, prevDeltaX: real, prevDeltaY: real)
    returns (h: Hit, rayDirX: real, rayDirY: real, deltaDistX: real, deltaDistY: real)
    requires PlayerInside(g, v)
    requires x >= 0 && prevDeltaX == DeltaX(v, x - 1) && prevDeltaY == DeltaY(v, x - 1)
    ensures rayDirX == RayDirX(v, x) && rayDirY == RayDirY(v, x)
    ensures deltaDistX == DeltaX(v, x) && deltaDistY == DeltaY(v, x)
    ensures h == Column(g, v, x, AsWritten)
  {
    var cameraX := 2.0 * x as real / ScreenWidth as real - 1.0;
    rayDirX := v.dirX + v.planeX * cameraX;
    rayDirY := v.dirY + v.planeY * cameraX;
    deltaDistX, deltaDistY := prevDeltaX, prevDeltaY;
    if rayDirX != 0.0 {
      deltaDistX := AbsR(1.0 / rayDirX);
    }
    if rayDirY != 0.0 {
      deltaDistY := AbsR(1.0 / rayDirY);
    }
    h := CastColumn(g, v.posX, v.posY, rayDirX, rayDirY, deltaDistX, deltaDistY);
  }

  /** Entries 0 to |hits| - 1 of the four per-column buffers hold the fields of `hits`. */
  ghost predicate Stored(hits: seq<Hit>, wallDist: array<Ext>, side: array<int>, mapX: array<int>, mapY: array<int>)
    reads wallDist, side, mapX, mapY
  {
    |hits| <= wallDist.Length && |hits| <= side.Length && |hits| <= mapX.Length && |hits| <= mapY.Length &&
    forall c | 0 <= c < |hits| ::
      wallDist[c] == hits[c].dist && side[c] == hits[c].side && mapX[c] == hits[c].mapX && mapY[c] == hits[c].mapY
  }

  /** The hits of columns 0 to n - 1, in order. */
  ghost function Columns(g: Grid, v: View, n: nat): (hs: seq<Hit>)
    requires PlayerInside(g, v)
    ensures |hs| == n
  {
    if n == 0 then [] else Columns(g, v, n - 1) + [Column(g, v, n - 1, AsWritten)]
  }

  lemma {:induction false} ColumnsAt(g: Grid, v: View, n: nat, c: int)
    requires PlayerInside(g, v) && 0 <= c < n
    ensures Columns(g, v, n)[c] == Column(g, v, c, AsWritten)
  {
    if c < n - 1 {
      ColumnsAt(g, v, n - 1, c);
    }
  }

  /** Writes one column's results into slot |hits| of the buffers. */
  method StoreHit(ghost hits: seq<Hit>, x: int, wallDist: array<Ext>, side: array<int>, mapX: array<int>, mapY: array<int>, h: Hit)
    requires x == |hits|
    requires |hits| < wallDist.Length && |hits| < side.Length && |hits| < mapX.Length && |hits| < mapY.Length
    requires side != mapX && side != mapY && mapX != mapY
    requires Stored(hits, wallDist, side, mapX, mapY)
    modifies wallDist, side, mapX, mapY
    ensures Stored(hits + [h], wallDist, side, mapX, mapY)
  {
    wallDist[x] := h.dist;
    side[x] := h.side;
    mapX[x] := h.mapX;
    mapY[x] := h.mapY;
  }

  /** What `calcRaycast` records about the centre and the two edge columns. */
  datatype Edges = Edges(aheadDist: Ext, aheadX: int, aheadY: int, leftX: int, leftY: int, rightX: int, rightY: int)

  /** `e` holds what the columns among `hits` that have been cast say about the centre and the
      edge columns. */
  ghost predicate EdgesRecorded(v: View, hits: seq<Hit>, e: Edges)
  {
    (|hits| > ScreenWidth / 2 ==>
      e.aheadX == hits[ScreenWidth / 2].mapX && e.aheadY == hits[ScreenWidth / 2].mapY &&
      e.aheadDist == AheadDist(hits[ScreenWidth / 2], RayDirX(v, ScreenWidth / 2), RayDirY(v, ScreenWidth / 2))) &&
    (|hits| > 0 ==> e.leftX == hits[0].mapX && e.leftY == hits[0].mapY) &&
    (|hits| > ScreenWidth - 1 ==> e.rightX == hits[ScreenWidth - 1].mapX && e.rightY == hits[ScreenWidth - 1].mapY)
  }

  /** The `if (x == gscreenWidth / 2) ... else if ...` chain after column x's hit `h`. */
  method RecordEdges(ghost v: View, ghost hits: seq<Hit>, x: int, h: Hit, rayDirX: real, rayDirY: real, e: Edges)
    returns (e': Edges)
    requires x == |hits| && EdgesRecorded(v, hits, e)
    requires rayDirX == RayDirX(v, x) && rayDirY == RayDirY(v, x)
    ensures EdgesRecorded(v, hits + [h], e')
  {
    e' := e;
    if x == ScreenWidth / 2 {
      e' := e'.(aheadDist := AheadDist(h, rayDirX, rayDirY), aheadX := h.mapX, aheadY := h.mapY);
    } else if x == 0 {
      e' := e'.(leftX := h.mapX, leftY := h.mapY);
    } else if x == ScreenWidth - 1 {
      e' := e'.(rightX := h.mapX, rightY := h.mapY);
    }
  }

  /** The column loop of `calcRaycast`: the distance, side and cell of every column as the
      renderer receives them, and the cells recorded for the centre and the two edge columns. */
  method CastAll(g: Grid, v: View)
    returns (wallDist: array<Ext>, side: array<int>, mapX: array<int>, mapY: array<int>, e: Edges)
    requires PlayerInside(g, v)
    ensures fresh(wallDist) && fresh(side) && fresh(mapX) && fresh(mapY)
    ensures wallDist.Length == side.Length == mapX.Length == mapY.Length == ScreenWidth
    ensures forall x | 0 <= x < ScreenWidth ::
      var h := Column(g, v, x, AsWritten);
      wallDist[x] == h.dist && side[x] == h.side && mapX[x] == h.mapX && mapY[x] == h.mapY
    ensures var c := Column(g, v, ScreenWidth / 2, AsWritten);
      e.aheadDist == AheadDist(c, RayDirX(v, ScreenWidth / 2), RayDirY(v, ScreenWidth / 2)) &&
      e.aheadX == c.mapX && e.aheadY == c.mapY
    ensures e.leftX == Column(g, v, 0, AsWritten).mapX && e.leftY == Column(g, v, 0, AsWritten).mapY
    ensures e.rightX == Column(g, v, ScreenWidth - 1, AsWritten).mapX && e.rightY == Column(g, v, ScreenWidth - 1, AsWritten).mapY
  {
    wallDist := new Ext[ScreenWidth](_ => NaN);
    side := new int[ScreenWidth];
    mapX := new int[ScreenWidth];
    mapY := new int[ScreenWidth];
    var deltaDistX, deltaDistY := 0.0, 0.0;
    e := Edges(NaN, 0, 0, 0, 0, 0, 0);
    ghost var hits: seq<Hit> := [];
    var x := 0;
    while x < ScreenWidth
      invariant 0 <= x <= ScreenWidth && |hits| == x
      modifies wallDist, side, mapX, mapY
      invariant deltaDistX == DeltaX(v, x - 1) && deltaDistY == DeltaY(v, x - 1)
      invariant hits == Columns(g, v, x)
      invariant Stored(hits, wallDist, side, mapX, mapY)
      invariant EdgesRecorded(v, hits, e)
    {
      var h, rayDirX, rayDirY;
      h, rayDirX, rayDirY, deltaDistX, deltaDistY := CastNext(g, v, x, deltaDistX, deltaDistY);
      StoreHit(hits, x, wallDist, side, mapX, mapY, h);
      e := RecordEdges(v, hits, x, h, rayDirX, rayDirY, e);
      hits := hits + [h];
      x := x + 1;
    }
    forall c | 0 <= c < ScreenWidth
      ensures var h := Column(g, v, c, AsWritten);
        wallDist[c] == h.dist && side[c] == h.side && mapX[c] == h.mapX && mapY[c] == h.mapY
    {
      ColumnsAt(g, v, ScreenWidth, c);
    }
    ColumnsAt(g, v, ScreenWidth, ScreenWidth / 2);
    ColumnsAt(g, v, ScreenWidth, 0);
    ColumnsAt(g, v, ScreenWidth, ScreenWidth - 1);
  }

  /** `calcRaycast`: casts every column from the player's view and records, in the player's
      globals, the cell straight ahead with its distance and the cells at the two screen edges. */
  method CalcRaycast(g: Grid, p: Player) returns (wallDist: array<Ext>, side: array<int>, mapX: array<int>, mapY: array<int>)
    requires PlayerInside(g, View(p.posX, p.posY, p.dirX, p.dirY, p.planeX, p.planeY))
    modifies p`blockAheadDist, p`blockAheadX, p`blockAheadY, p`blockLeftX, p`blockLeftY, p`blockRightX, p`blockRightY
    ensures fresh(wallDist) && fresh(side) && fresh(mapX) && fresh(mapY)
    ensures wallDist.Length == side.Length == mapX.Length == mapY.Length == ScreenWidth
    ensures var v := View(p.posX, p.posY, p.dirX, p.dirY, p.planeX, p.planeY);
      forall x | 0 <= x < ScreenWidth ::
        var h := Column(g, v, x, AsWritten);
        wallDist[x] == h.dist && side[x] == h.side && mapX[x] == h.mapX && mapY[x] == h.mapY
    ensures var v := View(p.posX, p.posY, p.dirX, p.dirY, p.planeX, p.planeY);
      var c := Column(g, v, ScreenWidth / 2, AsWritten);
      var l := Column(g, v, 0, AsWritten);
      var rt := Column(g, v, ScreenWidth - 1, AsWritten);
      p.blockAheadDist == AheadDist(c, RayDirX(v, ScreenWidth / 2), RayDirY(v, ScreenWidth / 2)) &&
      p.blockAheadX == c.mapX && p.blockAheadY == c.mapY &&
      p.blockLeftX == l.mapX && p.blockLeftY == l.mapY &&
      p.blockRightX == rt.mapX && p.blockRightY == rt.mapY
  {
    var v := View(p.posX, p.posY, p.dirX, p.dirY, p.planeX, p.planeY);
    var e;
    wallDist, side, mapX, mapY, e := CastAll(g, v);
    p.blockAheadDist, p.blockAheadX, p.blockAheadY := e.aheadDist, e.aheadX, e.aheadY;
    p.blockLeftX, p.blockLeftY, p.blockRightX, p.blockRightY := e.leftX, e.leftY, e.rightX, e.rightY;
    assert v == View(p.posX, p.posY, p.dirX, p.dirY, p.planeX, p.planeY);
  }
}
