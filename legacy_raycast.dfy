/** The door-less column raycaster of the older engine (`calcRaycast`, raycaster.cpp): the same
    DDA walk as the current engine over a grid of integer ids, stopping at the first cell whose
    id is positive. */
module LegacyRaycast {
  import opened ExtReal
  import opened Wrappers
  import opened BlockTypes
  import opened Camera
  import opened Level
  import opened Raycast
  import opened LegacyLevel

  /** The grid has at least one column, all of the same height. */
  predicate IsIntGrid(g: IntGrid)
  {
    |g| > 0 && IsSized(g, |g|, |g[0]|)
  }

  /** A cell off the border of the grid. */
  predicate IntInterior(g: IntGrid, x: int, y: int)
    requires IsIntGrid(g)
  {
    1 <= x < |g| - 1 && 1 <= y < |g[0]| - 1
  }

  /** Every border cell is a wall, so every ray stops inside the grid. */
  predicate Walled(g: IntGrid)
  {
    IsIntGrid(g) && forall x, y | 0 <= x < |g| && 0 <= y < |g[x]| && !IntInterior(g, x, y) :: g[x][y] > 0
  }

  /** Cell boundaries between the current cell and the border, counted in the step directions. */
  function IntRemaining(g: IntGrid, r: Ray, st: Dda): nat
    requires IsIntGrid(g) && InIntGrid(g, st.mapX, st.mapY)
  {
    (if r.stepX > 0 then |g| - st.mapX else st.mapX + 1) +
    (if r.stepY > 0 then |g[0]| - st.mapY else st.mapY + 1)
  }

  lemma IntStepStaysInGrid(g: IntGrid, r: Ray, st: Dda)
    requires IsIntGrid(g) && UnitSteps(r) && IntInterior(g, st.mapX, st.mapY)
    ensures InIntGrid(g, Step(r, st).mapX, Step(r, st).mapY)
    ensures IntRemaining(g, r, Step(r, st)) < IntRemaining(g, r, st)
  {
  }

  /** The walk: step, and stop at the first cell with a positive id, at the perpendicular
      distance of its near wall plane. */
  function LegacyWalk(g: IntGrid, r: Ray, st: Dda): (h: Hit)
    requires Walled(g) && UnitSteps(r) && IntInterior(g, st.mapX, st.mapY)
    ensures InIntGrid(g, h.mapX, h.mapY) && g[h.mapX][h.mapY] > 0
    ensures h.side == 0 || h.side == 1
    ensures h.dist == WallDist(r, Landing(h))
    decreases IntRemaining(g, r, st)
  {
    IntStepStaysInGrid(g, r, st);
    var n := Step(r, st);
    if g[n.mapX][n.mapY] > 0 then
      assert WallDist(r, n) == WallDist(r, Dda(n.mapX, n.mapY, 0.0, 0.0, n.side));
      Hit(WallDist(r, n), n.side, n.mapX, n.mapY)
    else LegacyWalk(g, r, n)
  }

  // ----- the same walk, seen by the current engine -----

  /** Cell id `id` as a tile of the current engine: visible and solid exactly when positive,
      never a door. */
  function AsBlock(id: int): MapBlock
  {
    DefaultBlock.(blockId := id, visible := id > 0, solid := id > 0)
  }

  function Lift(g: IntGrid): Grid
  {
    seq(|g|, x requires 0 <= x < |g| => seq(|g[x]|, y requires 0 <= y < |g[x]| => AsBlock(g[x][y])))
  }

  /** A walled grid is an enclosed grid of the current engine, with the same interior. */
  lemma LiftEnclosed(g: IntGrid)
    requires Walled(g)
    ensures Enclosed(Lift(g)) && Height(Lift(g)) == |g[0]|
    ensures forall x, y :: Interior(Lift(g), x, y) <==> IntInterior(g, x, y)
  {
    var l := Lift(g);
    assert |l[0]| == |g[0]|;
    forall x, y | 0 <= x < |l| && 0 <= y < |l[x]| && !Interior(l, x, y)
      ensures l[x][y].visible && !l[x][y].isDoor
    {
      assert !IntInterior(g, x, y);
    }
  }

  /** On a grid without doors the older engine's walk is the current engine's walk: it stops
      in the same cell, on the same side, at the same distance. */
  lemma {:induction false} SameAsCurrentEngine(g: IntGrid, r: Ray, st: Dda)
    requires Walled(g) && UnitSteps(r) && IntInterior(g, st.mapX, st.mapY)
    ensures Enclosed(Lift(g)) && Interior(Lift(g), st.mapX, st.mapY)
    ensures LegacyWalk(g, r, st) == Walk(Lift(g), r, st)
    decreases IntRemaining(g, r, st)
  {
    LiftEnclosed(g);
    IntStepStaysInGrid(g, r, st);
    StepStaysInGrid(Lift(g), r, st);
    var n := Step(r, st);
    assert Lift(g)[n.mapX][n.mapY] == AsBlock(g[n.mapX][n.mapY]);
    if g[n.mapX][n.mapY] <= 0 {
      assert Probe(Lift(g), r, n) == None;
      SameAsCurrentEngine(g, r, n);
    } else {
      assert Probe(Lift(g), r, n) == Some(WallDist(r, n));
    }
  }

  /** The walk stops at the first wall: every cell it passes before has id 0 or less and lies
      in the interior, and it stops after at most width + height steps. */
  lemma LegacyWalkIsFirstWall(g: IntGrid, r: Ray, st: Dda) returns (k: nat)
    requires Walled(g) && UnitSteps(r) && IntInterior(g, st.mapX, st.mapY)
    ensures 1 <= k <= |g| + |g[0]|
    ensures var last := Iterate(r, st, k); var h := LegacyWalk(g, r, st);
      last.mapX == h.mapX && last.mapY == h.mapY && last.side == h.side
    ensures forall j | 1 <= j < k ::
      (IntInterior(g, Iterate(r, st, j).mapX, Iterate(r, st, j).mapY) &&
       g[Iterate(r, st, j).mapX][Iterate(r, st, j).mapY] <= 0)
  {
    SameAsCurrentEngine(g, r, st);
    LiftEnclosed(g);
    k := WalkIsFirstStop(Lift(g), r, st);
    forall j | 1 <= j < k
      ensures IntInterior(g, Iterate(r, st, j).mapX, Iterate(r, st, j).mapY)
      ensures g[Iterate(r, st, j).mapX][Iterate(r, st, j).mapY] <= 0
    {
      var c := Iterate(r, st, j);
      assert Interior(Lift(g), c.mapX, c.mapY);
      assert Lift(g)[c.mapX][c.mapY] == AsBlock(g[c.mapX][c.mapY]);
    }
  }

  // ----- the columns -----

  /** The player stands in an interior cell of a walled grid. */
  predicate LegacyPlayerInside(g: IntGrid, v: View)
  {
    Walled(g) && v.posX >= 0.0 && v.posY >= 0.0 && IntInterior(g, Trunc(v.posX), Trunc(v.posY))
  }

  /** Where the ray of column x stops; the ray keeps the current engine's rule for `deltaDist`,
      which the older engine shares. */
  function LegacyColumn(g: IntGrid, v: View, x: int): (h: Hit)
    requires LegacyPlayerInside(g, v)
    ensures InIntGrid(g, h.mapX, h.mapY) && g[h.mapX][h.mapY] > 0
  {
    LegacyWalk(g, ColumnRay(v, x, AsWritten), StartDda(ColumnRay(v, x, AsWritten)))
  }

  /** Every column of the older engine sees what the current engine sees on the same grid
      without doors. */
  lemma ColumnsAgree(g: IntGrid, v: View, x: int)
    requires LegacyPlayerInside(g, v)
    ensures PlayerInside(Lift(g), v)
    ensures LegacyColumn(g, v, x) == Column(Lift(g), v, x, AsWritten)
  {
    LiftEnclosed(g);
    var r := ColumnRay(v, x, AsWritten);
    SameAsCurrentEngine(g, r, StartDda(r));
  }

  /** One column's DDA loop: the step signs and first side distances, the walk, and the
      perpendicular distance computed once the loop has stopped. */
  method LegacyCastColumn(g: IntGrid, posX: real, posY: real, rayDirX: real, rayDirY: real,
                          deltaDistX: real, deltaDistY: real) returns (h: Hit)
    requires Walled(g) && posX >= 0.0 && posY >= 0.0 && IntInterior(g, Trunc(posX), Trunc(posY))
    ensures var r := StartRay(posX, posY, rayDirX, rayDirY, deltaDistX, deltaDistY, AsWritten);
      h == LegacyWalk(g, r, StartDda(r))
  {
    ghost var r := StartRay(posX, posY, rayDirX, rayDirY, deltaDistX, deltaDistY, AsWritten);
    var mapX, mapY, stepX, stepY, sideDistX, sideDistY := LegacyStart(posX, posY, rayDirX, rayDirY, deltaDistX, deltaDistY);
    var side;
    mapX, mapY, side := LegacyWalkLoop(g, stepX, stepY, deltaDistX, deltaDistY, mapX, mapY, sideDistX, sideDistY, r);
    var perpWallDist;
    if side == 0 {
      perpWallDist := Div(mapX as real - posX + ((1 - stepX) / 2) as real, rayDirX);
    } else {
      perpWallDist := Div(mapY as real - posY + ((1 - stepY) / 2) as real, rayDirY);
    }
    h := Hit(perpWallDist, side, mapX, mapY);
  }

  /** The set-up before the loop: the player's cell, the step signs and the first side
      distances. */
  method LegacyStart(posX: real, posY: real, rayDirX: real, rayDirY: real, deltaDistX: real, deltaDistY: real)
    returns (mapX: int, mapY: int, stepX: int, stepY: int, sideDistX: real, sideDistY: real)
    ensures var r := StartRay(posX, posY, rayDirX, rayDirY, deltaDistX, deltaDistY, AsWritten);
      stepX == r.stepX && stepY == r.stepY && Dda(mapX, mapY, sideDistX, sideDistY, 0) == StartDda(r)
  {
    mapX, mapY := Trunc(posX), Trunc(posY);
    if rayDirX < 0.0 {
      stepX := -1;
      sideDistX := (posX - mapX as real) * deltaDistX;
    } else {
      stepX := 1;
      sideDistX := (mapX as real + 1.0 - posX) * deltaDistX;
    }
    if rayDirY < 0.0 {
      stepY := -1;
      sideDistY := (posY - mapY as real) * deltaDistY;
    } else {
      stepY := 1;
      sideDistY := (mapY as real + 1.0 - posY) * deltaDistY;
    }
  }

  /** The `while (hit == 0)` loop: step, then test the id of the cell entered. */
  method LegacyWalkLoop(g: IntGrid, stepX: int, stepY: int, deltaDistX: real, deltaDistY: real,
                        mapX0: int, mapY0: int, sideDistX0: real, sideDistY0: real, ghost r: Ray)
    returns (mapX: int, mapY: int, side: int)
    requires r.stepX == stepX && r.stepY == stepY && r.deltaX == deltaDistX && r.deltaY == deltaDistY
    requires r.rule == AsWritten
    requires Walled(g) && UnitSteps(r) && IntInterior(g, mapX0, mapY0)
    ensures var h := LegacyWalk(g, r, Dda(mapX0, mapY0, sideDistX0, sideDistY0, 0));
      mapX == h.mapX && mapY == h.mapY && side == h.side
  {
    ghost var start := Dda(mapX0, mapY0, sideDistX0, sideDistY0, 0);
    var sideDistX, sideDistY := sideDistX0, sideDistY0;
    mapX, mapY, side := mapX0, mapY0, 0;
    var hit := 0;
    while hit == 0
      invariant hit == 0 || hit == 1
      invariant hit == 0 ==>
        (IntInterior(g, mapX, mapY) &&
         LegacyWalk(g, r, Dda(mapX, mapY, sideDistX, sideDistY, side)) == LegacyWalk(g, r, start))
      invariant hit == 1 ==>
        (var h := LegacyWalk(g, r, start); mapX == h.mapX && mapY == h.mapY && side == h.side)
      decreases if hit == 0 then IntRemaining(g, r, Dda(mapX, mapY, sideDistX, sideDistY, side)) + 1 else 0
    {
      ghost var st := Dda(mapX, mapY, sideDistX, sideDistY, side);
      IntStepStaysInGrid(g, r, st);
      if sideDistX < sideDistY {
        sideDistX := sideDistX + deltaDistX;
        mapX := mapX + stepX;
        side := 0;
      } else {
        sideDistY := sideDistY + deltaDistY;
        mapY := mapY + stepY;
        side := 1;
      }
      assert Dda(mapX, mapY, sideDistX, sideDistY, side) == Step(r, st);
      if g[mapX][mapY] > 0 {
        hit := 1;
      }
    }
  }

  /** The body of the column loop for column x: the ray direction, the kept-or-updated deltas,
      and the cell the ray stops in. */
  method LegacyCastNext(g: IntGrid, v: View, x: int, prevDeltaX: real, prevDeltaY: real)
    returns (h: Hit, rayDirX: real, rayDirY: real, deltaDistX: real, deltaDistY: real)
    requires LegacyPlayerInside(g, v)
    requires x >= 0 && prevDeltaX == DeltaX(v, x - 1) && prevDeltaY == DeltaY(v, x - 1)
    ensures rayDirX == RayDirX(v, x) && rayDirY == RayDirY(v, x)
    ensures deltaDistX == DeltaX(v, x) && deltaDistY == DeltaY(v, x)
    ensures h == LegacyColumn(g, v, x)
  {
    var cameraX := 2.0 * x as real / ScreenWidth as real - 1.0;
    rayDirX := v.dirX + v.planeX * cameraX;
    rayDirY := v.dirY + v.planeY * cameraX;
    deltaDistX, deltaDistY := prevDeltaX, prevDeltaY;
    if rayDirX != 0.0 {
      deltaDistX := AbsR(1.0 / rayDirX);
    }
    if rayDirY != 0.0 {
      deltaDistY := AbsR(1.0 / rayDirY);
    }
    h := LegacyCastColumn(g, v.posX, v.posY, rayDirX, rayDirY, deltaDistX, deltaDistY);
  }

  /** The hits of columns 0 to n - 1, in order. */
  ghost function LegacyColumns(g: IntGrid, v: View, n: nat): (hs: seq<Hit>)
    requires LegacyPlayerInside(g, v)
    ensures |hs| == n
  {
    if n == 0 then [] else LegacyColumns(g, v, n - 1) + [LegacyColumn(g, v, n - 1)]
  }

  lemma {:induction false} LegacyColumnsAt(g: IntGrid, v: View, n: nat, c: int)
    requires LegacyPlayerInside(g, v) && 0 <= c < n
    ensures LegacyColumns(g, v, n)[c] == LegacyColumn(g, v, c)
  {
    if c < n - 1 {
      LegacyColumnsAt(g, v, n - 1, c);
    }
  }

  /** The column loop of `calcRaycast`: the distance, side and cell of every column, and the
      cell straight ahead (the centre column's) with `|perpWallDist * rayDir|` along the axis
      of its last step. */
  method LegacyCastAll(g: IntGrid, v: View)
    returns (wallDist: array<Ext>, side: array<int>, mapX: array<int>, mapY: array<int>,
             aheadDist: Ext, aheadX: int, aheadY: int)
    requires LegacyPlayerInside(g, v)
    ensures fresh(wallDist) && fresh(side) && fresh(mapX) && fresh(mapY)
    ensures wallDist.Length == side.Length == mapX.Length == mapY.Length == ScreenWidth
    ensures forall x | 0 <= x < ScreenWidth ::
      var h := LegacyColumn(g, v, x);
      wallDist[x] == h.dist && side[x] == h.side && mapX[x] == h.mapX && mapY[x] == h.mapY
    ensures var c := LegacyColumn(g, v, ScreenWidth / 2);
      aheadDist == AheadDist(c, RayDirX(v, ScreenWidth / 2), RayDirY(v, ScreenWidth / 2)) &&
      aheadX == c.mapX && aheadY == c.mapY
  {
    wallDist := new Ext[ScreenWidth](_ => NaN);
    side := new int[ScreenWidth];
    mapX := new int[ScreenWidth];
    mapY := new int[ScreenWidth];
    var deltaDistX, deltaDistY := 0.0, 0.0;
    aheadDist, aheadX, aheadY := NaN, 0, 0;
    ghost var hits: seq<Hit> := [];
    var x := 0;
    while x < ScreenWidth
      invariant 0 <= x <= ScreenWidth && |hits| == x
      modifies wallDist, side, mapX, mapY
      invariant deltaDistX == DeltaX(v, x - 1) && deltaDistY == DeltaY(v, x - 1)
      invariant hits == LegacyColumns(g, v, x)
      invariant Stored(hits, wallDist, side, mapX, mapY)
      invariant x > ScreenWidth / 2 ==>
        aheadDist == AheadDist(hits[ScreenWidth / 2], RayDirX(v, ScreenWidth / 2), RayDirY(v, ScreenWidth / 2)) &&
        aheadX == hits[ScreenWidth / 2].mapX && aheadY == hits[ScreenWidth / 2].mapY
    {
      var h, rayDirX, rayDirY;
      h, rayDirX, rayDirY, deltaDistX, deltaDistY := LegacyCastNext(g, v, x, deltaDistX, deltaDistY);
      StoreHit(hits, x, wallDist, side, mapX, mapY, h);
      if x == ScreenWidth / 2 {
        aheadDist := AheadDist(h, rayDirX, rayDirY);
        aheadX, aheadY := h.mapX, h.mapY;
      }
      hits := hits + [h];
      x := x + 1;
    }
    forall c | 0 <= c < ScreenWidth
      ensures var h := LegacyColumn(g, v, c);
        wallDist[c] == h.dist && side[c] == h.side && mapX[c] == h.mapX && mapY[c] == h.mapY
    {
      LegacyColumnsAt(g, v, ScreenWidth, c);
    }
    LegacyColumnsAt(g, v, ScreenWidth, ScreenWidth / 2);
  }

  /** `calcRaycast` of the older engine: casts every column from the player's view and records
      the cell straight ahead and its distance in the player's globals. */
  method LegacyCalcRaycast(w: LegacyWorld, p: Player)
    returns (wallDist: array<Ext>, side: array<int>, mapX: array<int>, mapY: array<int>)
    requires LegacyPlayerInside(w.leveldata, View(p.posX, p.posY, p.dirX, p.dirY, p.planeX, p.planeY))
    modifies p`blockAheadDist, p`blockAheadX, p`blockAheadY
    ensures fresh(wallDist) && fresh(side) && fresh(mapX) && fresh(mapY)
    ensures wallDist.Length == side.Length == mapX.Length == mapY.Length == ScreenWidth
    ensures var v := View(p.posX, p.posY, p.dirX, p.dirY, p.planeX, p.planeY);
      forall x | 0 <= x < ScreenWidth ::
        var h := LegacyColumn(w.leveldata, v, x);
        wallDist[x] == h.dist && side[x] == h.side && mapX[x] == h.mapX && mapY[x] == h.mapY
    ensures var v := View(p.posX, p.posY, p.dirX, p.dirY, p.planeX, p.planeY);
      var c := LegacyColumn(w.leveldata, v, ScreenWidth / 2);
      p.blockAheadDist == AheadDist(c, RayDirX(v, ScreenWidth / 2), RayDirY(v, ScreenWidth / 2)) &&
      p.blockAheadX == c.mapX && p.blockAheadY == c.mapY
  {
    var v := View(p.posX, p.posY, p.dirX, p.dirY, p.planeX, p.planeY);
    wallDist, side, mapX, mapY, p.blockAheadDist, p.blockAheadX, p.blockAheadY := LegacyCastAll(w.leveldata, v);
    assert v == View(p.posX, p.posY, p.dirX, p.dirY, p.planeX, p.planeY);
  }
}
