/** The guarded state updates of `handleInput` (src/raycaster.cpp): looking up and down,
    axis-separated movement with its collision probes, and raising or lowering the camera.
    Every change of the look offset or the camera height refills the row-distance table. */
module Input {
  import opened ExtReal
  import opened BlockTypes
  import opened Camera
  import opened Level
  import opened Raycast
  import opened FloorCast

  /** Half the screen height: the look offset never leaves [-HalfHeight, HalfHeight]. */
  const HalfHeight: real := (ScreenHeight / 2) as real

  /** `vertSpeed`, and the bounds of `vertHeight`. */
  const VertSpeed: real := 0.1
  const LowestHeight: real := -0.2
  const HighestHeight: real := 0.4

  /** How far ahead of the player the first collision probe looks. */
  const WallMargin: real := 0.3

  /** `mouseVertSense` starts at 0.75 and the wheel keeps it within [0.01, 5]. */
  predicate LookSense(sense: real)
  {
    0.01 <= sense <= 5.0
  }

  predicate LookInRange(vertLook: real)
  {
    -HalfHeight <= vertLook <= HalfHeight
  }

  /** Whether the mouse's vertical motion moves the view: down only while not fully down,
      up only while not fully up. */
  predicate LookChanges(vertLook: real, mouseYDist: int)
  {
    (mouseYDist > 0 && vertLook > -HalfHeight) || (mouseYDist < 0 && vertLook < HalfHeight)
  }

  /** `vertLook` after the mouse moved `mouseYDist` pixels vertically. */
  function LookTarget(vertLook: real, mouseYDist: int, sense: real): real
  {
    var moved := vertLook - mouseYDist as real * sense;
    if mouseYDist > 0 && vertLook > -HalfHeight then (if moved < -HalfHeight then -HalfHeight else moved)
    else if mouseYDist < 0 && vertLook < HalfHeight then (if moved > HalfHeight then HalfHeight else moved)
    else vertLook
  }

  /** The look offset stays in range, moves against the mouse, and moves by exactly
      `mouseYDist * sense` unless that would pass the limit. */
  lemma LookStaysInRange(vertLook: real, mouseYDist: int, sense: real)
    requires LookSense(sense) && LookInRange(vertLook)
    ensures LookInRange(LookTarget(vertLook, mouseYDist, sense))
    ensures mouseYDist > 0 ==> LookTarget(vertLook, mouseYDist, sense) <= vertLook
    ensures mouseYDist < 0 ==> LookTarget(vertLook, mouseYDist, sense) >= vertLook
    ensures mouseYDist == 0 ==> LookTarget(vertLook, mouseYDist, sense) == vertLook
    ensures LookChanges(vertLook, mouseYDist) && LookInRange(vertLook - mouseYDist as real * sense) ==>
      LookTarget(vertLook, mouseYDist, sense) == vertLook - mouseYDist as real * sense
  {
    var d := mouseYDist as real;
    if mouseYDist > 0 {
      assert d * sense > 0.0;
    } else if mouseYDist < 0 {
      assert d * sense < 0.0;
    }
  }

  /** The mouse-look part of `handleInput`. */
  method Look(p: Player, floorDist: array<Ext>, mouseYDist: int, sense: real)
    requires floorDist.Length == ScreenHeight
    requires LookSense(sense) && LookInRange(p.vertLook)
    modifies p`vertLook, floorDist
    ensures p.vertLook == LookTarget(old(p.vertLook), mouseYDist, sense)
    ensures LookInRange(p.vertLook)
    ensures LookChanges(old(p.vertLook), mouseYDist) ==>
      forall y | 0 <= y < ScreenHeight :: floorDist[y] == RowDist(y, p.vertLook, p.vertHeight)
    ensures !LookChanges(old(p.vertLook), mouseYDist) ==> unchanged(floorDist)
  {
    LookStaysInRange(p.vertLook, mouseYDist, sense);
    if mouseYDist > 0 && p.vertLook > -HalfHeight {
      p.vertLook := p.vertLook - mouseYDist as real * sense;
      if p.vertLook < -HalfHeight {
        p.vertLook := -HalfHeight;
      }
      CalcFloorDist(floorDist, p.vertLook, p.vertHeight);
    } else if mouseYDist < 0 && p.vertLook < HalfHeight {
      p.vertLook := p.vertLook - mouseYDist as real * sense;
      if p.vertLook > HalfHeight {
        p.vertLook := HalfHeight;
      }
      CalcFloorDist(floorDist, p.vertLook, p.vertHeight);
    }
  }

  predicate HeightInRange(vertHeight: real)
  {
    LowestHeight <= vertHeight <= HighestHeight
  }

  /** `vertHeight` after a frame with the lower key (`Z`) and raise key (`X`) as given; lower
      wins when both are held. */
  function HeightTarget(vertHeight: real, lower: bool, raise: bool, speed: real): real
  {
    if lower then (var h := vertHeight - VertSpeed * speed; if h < LowestHeight then LowestHeight else h)
    else if raise then (var h := vertHeight + VertSpeed * speed; if h > HighestHeight then HighestHeight else h)
    else vertHeight
  }

  /** The camera height stays in range and moves the way the key says. */
  lemma HeightStaysInRange(vertHeight: real, lower: bool, raise: bool, speed: real)
    requires HeightInRange(vertHeight) && speed >= 0.0
    ensures HeightInRange(HeightTarget(vertHeight, lower, raise, speed))
    ensures lower ==> HeightTarget(vertHeight, lower, raise, speed) <= vertHeight
    ensures !lower && raise ==> HeightTarget(vertHeight, lower, raise, speed) >= vertHeight
    ensures !lower && !raise ==> HeightTarget(vertHeight, lower, raise, speed) == vertHeight
  {
  }

  /** Within that range the camera is strictly between floor and ceiling, so both halves of the
      row-distance table hold positive distances away from the horizon. */
  lemma CameraBetweenFloorAndCeiling(vertHeight: real)
    requires HeightInRange(vertHeight)
    ensures FloorZ(vertHeight) > 0.0 && CeilingZ(vertHeight) > 0.0
  {
  }

  /** The height keys of `handleInput`. */
  method ChangeHeight(p: Player, floorDist: array<Ext>, lower: bool, raise: bool, speed: real)
    requires floorDist.Length == ScreenHeight
    requires LookInRange(p.vertLook)
    modifies p`vertHeight, floorDist
    ensures p.vertHeight == HeightTarget(old(p.vertHeight), lower, raise, speed)
    ensures lower || raise ==>
      forall y | 0 <= y < ScreenHeight :: floorDist[y] == RowDist(y, p.vertLook, p.vertHeight)
    ensures !lower && !raise ==> unchanged(floorDist)
  {
    if lower {
      p.vertHeight := p.vertHeight - VertSpeed * speed;
      if p.vertHeight < LowestHeight {
        p.vertHeight := LowestHeight;
      }
      CalcFloorDist(floorDist, p.vertLook, p.vertHeight);
    } else if raise {
      p.vertHeight := p.vertHeight + VertSpeed * speed;
      if p.vertHeight > HighestHeight {
        p.vertHeight := HighestHeight;
      }
      CalcFloorDist(floorDist, p.vertLook, p.vertHeight);
    }
  }

  // ----- Movement -----

  /** The keys `handleInput` reads for movement and height: each direction is the letter key
      or its arrow key. */
  datatype Keys = Keys(forward: bool, back: bool, left: bool, right: bool, sprint: bool,
                       lower: bool, raise: bool)

  /** `moveSpeed` from the frame's tick count: a zero count is taken as one tick, converted to
      seconds and scaled to four cells per second. */
  function FrameSpeed(ticks: nat, frequency: real): (s: real)
    requires frequency > 0.0
    ensures s > 0.0
  {
    (if ticks == 0 then 1 else ticks) as real / frequency * 4.0
  }

  /** Diagonal movement (exactly one of forward/back and exactly one of left/right) is slowed
      by 0.707, and sprinting speeds everything up by half. */
  function KeySpeed(s: real, k: Keys): real
  {
    var diagonal := if (k.forward != k.back) && (k.left != k.right) then s * 0.707 else s;
    if k.sprint then diagonal * 1.5 else diagonal
  }

  /** `dirX / (|dirX| + |dirY|)`: the view direction scaled to unit length in the taxicab norm. */
  function Component(a: real, b: real): real
    requires a != 0.0 || b != 0.0
  {
    a / (AbsR(a) + AbsR(b))
  }

  lemma AbsOver(a: real, n: real)
    requires n > 0.0 && AbsR(a) <= n
    ensures AbsR(a / n) == AbsR(a) / n
    ensures -1.0 <= a / n <= 1.0 && (a / n < 0.0 <==> a < 0.0)
  {
    var q := a / n;
    var m := AbsR(a) / n;
    assert m * n == AbsR(a);
    assert m >= 0.0;
    assert (1.0 - m) * n == n - AbsR(a);
    assert m <= 1.0;
    if a < 0.0 {
      assert q == -m;
      assert m > 0.0;
    } else {
      assert q == m;
    }
  }

  /** The two components have absolute values summing to 1 and keep the direction's signs. */
  lemma ComponentsTaxicabUnit(dirX: real, dirY: real)
    requires dirX != 0.0 || dirY != 0.0
    ensures AbsR(Component(dirX, dirY)) + AbsR(Component(dirY, dirX)) == 1.0
    ensures -1.0 <= Component(dirX, dirY) <= 1.0 && -1.0 <= Component(dirY, dirX) <= 1.0
    ensures (Component(dirX, dirY) < 0.0 <==> dirX < 0.0) && (Component(dirY, dirX) < 0.0 <==> dirY < 0.0)
  {
    var px, py := AbsR(dirX), AbsR(dirY);
    var n := px + py;
    assert n > 0.0;
    assert Component(dirX, dirY) == dirX / n && Component(dirY, dirX) == dirY / n;
    AbsOver(dirX, n);
    AbsOver(dirY, n);
    SumOver(px, py, n);
  }

  lemma SumOver(a: real, b: real, n: real)
    requires n > 0.0 && a + b == n
    ensures a / n + b / n == 1.0
  {
  }

  predicate Solid(g: Grid, x: int, y: int)
    requires InGrid(g, x, y)
  {
    g[x][y].solid
  }

  /** The cell holding the player is inside the grid and not solid. */
  predicate PlayerOpen(g: Grid, posX: real, posY: real)
  {
    InGrid(g, Trunc(posX), Trunc(posY)) && !Solid(g, Trunc(posX), Trunc(posY))
  }

  /** The cells the x move looks at: `WallMargin` ahead, then the destination, the second only
      when the first is open. */
  predicate XProbesInGrid(g: Grid, posX: real, posY: real, c: real, speed: real)
  {
    var near := Trunc(posX + c * WallMargin);
    InGrid(g, near, Trunc(posY)) &&
    (!Solid(g, near, Trunc(posY)) ==> InGrid(g, Trunc(posX + c * speed), Trunc(posY)))
  }

  predicate YProbesInGrid(g: Grid, posX: real, posY: real, c: real, speed: real)
  {
    var near := Trunc(posY + c * WallMargin);
    InGrid(g, Trunc(posX), near) &&
    (!Solid(g, Trunc(posX), near) ==> InGrid(g, Trunc(posX), Trunc(posY + c * speed)))
  }

  datatype Position = Position(x: real, y: real)

  /** How far a sequence of moves got, and whether it stopped at a probe outside the grid.
      Such a probe indexes `leveldata` out of bounds, which the source leaves undefined; the
      model records it and takes no further movement step. */
  datatype Moving = Moving(at: Position, offGrid: bool)

  /** The x half of a move: the step is taken only when both probed cells are open. */
  function StepX(g: Grid, at: Position, c: real, speed: real): Moving
  {
    if !XProbesInGrid(g, at.x, at.y, c, speed) then Moving(at, true)
    else if !Solid(g, Trunc(at.x + c * WallMargin), Trunc(at.y)) && !Solid(g, Trunc(at.x + c * speed), Trunc(at.y))
    then Moving(Position(at.x + c * speed, at.y), false)
    else Moving(at, false)
  }

  function StepY(g: Grid, at: Position, c: real, speed: real): Moving
  {
    if !YProbesInGrid(g, at.x, at.y, c, speed) then Moving(at, true)
    else if !Solid(g, Trunc(at.x), Trunc(at.y + c * WallMargin)) && !Solid(g, Trunc(at.x), Trunc(at.y + c * speed))
    then Moving(Position(at.x, at.y + c * speed), false)
    else Moving(at, false)
  }

  /** Every border cell is solid. */
  predicate SolidBorder(g: Grid)
  {
    IsGrid(g) &&
    forall x, y | 0 <= x < |g| && 0 <= y < |g[x]| && !Interior(g, x, y) :: g[x][y].solid
  }

  /** Both displacements along one axis are shorter than a cell. */
  predicate ShortStep(c: real, speed: real)
  {
    -1.0 < c * WallMargin < 1.0 && -1.0 < c * speed < 1.0
  }

  lemma OpenCellIsInterior(g: Grid, posX: real, posY: real)
    requires SolidBorder(g) && PlayerOpen(g, posX, posY)
    ensures Interior(g, Trunc(posX), Trunc(posY))
    ensures 1.0 <= posX && 1.0 <= posY
  {
  }

  /** Inside a solid border, a probe less than a cell away from an open cell is in the grid. */
  lemma ProbeNearby(g: Grid, posX: real, posY: real, d: real)
    requires SolidBorder(g) && PlayerOpen(g, posX, posY) && -1.0 < d < 1.0
    ensures InGrid(g, Trunc(posX + d), Trunc(posY))
    ensures InGrid(g, Trunc(posX), Trunc(posY + d))
  {
    OpenCellIsInterior(g, posX, posY);
    var i, j := Trunc(posX), Trunc(posY);
    assert (i as real) <= posX < (i + 1) as real;
    assert (j as real) <= posY < (j + 1) as real;
    assert i - 1 <= Trunc(posX + d) <= i + 1;
    assert j - 1 <= Trunc(posY + d) <= j + 1;
  }

  /** The x half-step reports exactly the probes outside the grid, moves only along x by
      `c * speed` onto a cell whose probes are both free, and so keeps the player in a free
      cell. Inside a solid border a step shorter than a cell never leaves the grid. */
  lemma StepXKeepsOpen(g: Grid, at: Position, c: real, speed: real)
    ensures StepX(g, at, c, speed).offGrid <==> !XProbesInGrid(g, at.x, at.y, c, speed)
    ensures var r := StepX(g, at, c, speed);
      r.at == at || (r.at == Position(at.x + c * speed, at.y) && PlayerOpen(g, r.at.x, r.at.y) &&
                     !Solid(g, Trunc(at.x + c * WallMargin), Trunc(at.y)))
    ensures PlayerOpen(g, at.x, at.y) ==> PlayerOpen(g, StepX(g, at, c, speed).at.x, at.y)
    ensures SolidBorder(g) && PlayerOpen(g, at.x, at.y) && ShortStep(c, speed) ==> !StepX(g, at, c, speed).offGrid
  {
    if SolidBorder(g) && PlayerOpen(g, at.x, at.y) && ShortStep(c, speed) {
      ProbeNearby(g, at.x, at.y, c * WallMargin);
      ProbeNearby(g, at.x, at.y, c * speed);
    }
  }

  lemma StepYKeepsOpen(g: Grid, at: Position, c: real, speed: real)
    ensures StepY(g, at, c, speed).offGrid <==> !YProbesInGrid(g, at.x, at.y, c, speed)
    ensures var r := StepY(g, at, c, speed);
      r.at == at || (r.at == Position(at.x, at.y + c * speed) && PlayerOpen(g, r.at.x, r.at.y) &&
                     !Solid(g, Trunc(at.x), Trunc(at.y + c * WallMargin)))
    ensures PlayerOpen(g, at.x, at.y) ==> PlayerOpen(g, at.x, StepY(g, at, c, speed).at.y)
    ensures SolidBorder(g) && PlayerOpen(g, at.x, at.y) && ShortStep(c, speed) ==> !StepY(g, at, c, speed).offGrid
  {
    if SolidBorder(g) && PlayerOpen(g, at.x, at.y) && ShortStep(c, speed) {
      ProbeNearby(g, at.x, at.y, c * WallMargin);
      ProbeNearby(g, at.x, at.y, c * speed);
    }
  }

  /** A map 5 cells wide with a one-cell wall between two free cells: x = 1 and x = 3 of
      row 1 are free, everything else is solid. */
  function WalledCorridor(): Grid
  {
    seq(5, x => seq(3, y => if y == 1 && (x == 1 || x == 3) then DefaultBlock.(solid := false) else DefaultBlock))
  }

  /** With a frame long enough for a two-cell step, the x probes skip the wall at x = 2 and
      the player lands beyond it: the collision test only looks at the margin cell and the
      destination cell. */
  lemma LongStepCrossesWall()
    ensures SolidBorder(WalledCorridor()) && PlayerOpen(WalledCorridor(), 1.5, 1.5)
    ensures Solid(WalledCorridor(), 2, 1)
    ensures StepX(WalledCorridor(), Position(1.5, 1.5), 1.0, 2.0) == Moving(Position(3.5, 1.5), false)
  {
    var g := WalledCorridor();
    assert Trunc(1.5 + 1.0 * WallMargin) == 1;
    assert Trunc(1.5 + 1.0 * 2.0) == 3;
    assert Trunc(1.5) == 1;
  }

  /** A four-cell step from the same cell probes column 5, outside the map. */
  lemma LongerStepLeavesGrid()
    ensures SolidBorder(WalledCorridor()) && PlayerOpen(WalledCorridor(), 1.5, 1.5)
    ensures StepX(WalledCorridor(), Position(1.5, 1.5), 1.0, 4.0).offGrid
  {
    var g := WalledCorridor();
    assert Trunc(1.5 + 1.0 * WallMargin) == 1;
    assert Trunc(1.5 + 1.0 * 4.0) == 5;
    assert Trunc(1.5) == 1;
  }

  /** One key's move: first along x, then along y from the new x. It stays in free cells, and
      inside a solid border a move shorter than a cell on each axis never leaves the grid. */
  function Move(g: Grid, at: Position, cx: real, cy: real, speed: real): (r: Moving)
    ensures PlayerOpen(g, at.x, at.y) && !r.offGrid ==> PlayerOpen(g, r.at.x, r.at.y)
    ensures SolidBorder(g) && PlayerOpen(g, at.x, at.y) && ShortStep(cx, speed) && ShortStep(cy, speed) ==> !r.offGrid
  {
    StepXKeepsOpen(g, at, cx, speed);
    var x := StepX(g, at, cx, speed);
    if x.offGrid then x
    else
      StepYKeepsOpen(g, x.at, cy, speed);
      StepY(g, x.at, cy, speed)
  }

  /** Movement through a key that may or may not be held, continuing from `m`. */
  function MoveIf(g: Grid, held: bool, m: Moving, cx: real, cy: real, speed: real): (r: Moving)
    ensures PlayerOpen(g, m.at.x, m.at.y) && !r.offGrid ==> PlayerOpen(g, r.at.x, r.at.y)
    ensures SolidBorder(g) && PlayerOpen(g, m.at.x, m.at.y) && !m.offGrid && ShortStep(cx, speed) && ShortStep(cy, speed) ==> !r.offGrid
    ensures !held || m.offGrid ==> r == m
  {
    if held && !m.offGrid then Move(g, m.at, cx, cy, speed) else m
  }

  lemma ShortStepNegated(c: real, speed: real)
    ensures ShortStep(c, speed) ==> ShortStep(-c, speed)
  {
  }

  /** The view direction is not the zero vector, so the movement components are defined. */
  predicate Facing(v: View)
  {
    v.dirX != 0.0 || v.dirY != 0.0
  }

  /** The frame's step: each movement component times the frame's speed is shorter than a
      cell. */
  predicate ShortSteps(v: View, speed: real)
    requires Facing(v)
  {
    ShortStep(Component(v.dirX, v.dirY), speed) && ShortStep(Component(v.dirY, v.dirX), speed) &&
    ShortStep(v.planeX, speed) && ShortStep(v.planeY, speed)
  }

  lemma ShortStepsNegated(v: View, speed: real)
    requires Facing(v)
    ensures ShortSteps(v, speed) ==>
      ShortStep(-Component(v.dirX, v.dirY), speed) && ShortStep(-Component(v.dirY, v.dirX), speed) &&
      ShortStep(-v.planeX, speed) && ShortStep(-v.planeY, speed)
  {
    ShortStepNegated(Component(v.dirX, v.dirY), speed);
    ShortStepNegated(Component(v.dirY, v.dirX), speed);
    ShortStepNegated(v.planeX, speed);
    ShortStepNegated(v.planeY, speed);
  }

  /** The position after the four movement keys, in the order forward, back, strafe left,
      strafe right. The player stays in free cells; inside a solid border a frame whose steps
      are shorter than a cell never probes outside the map; with no key held nothing moves. */
  function Moved(g: Grid, v: View, k: Keys, speed: real): (r: Moving)
    requires Facing(v)
    ensures PlayerOpen(g, v.posX, v.posY) && !r.offGrid ==> PlayerOpen(g, r.at.x, r.at.y)
    ensures SolidBorder(g) && PlayerOpen(g, v.posX, v.posY) && ShortSteps(v, speed) ==> !r.offGrid
    ensures !(k.forward || k.back || k.left || k.right) ==> r == Moving(Position(v.posX, v.posY), false)
  {
    var cx, cy := Component(v.dirX, v.dirY), Component(v.dirY, v.dirX);
    ShortStepsNegated(v, speed);
    var p1 := MoveIf(g, k.forward, Moving(Position(v.posX, v.posY), false), cx, cy, speed);
    var p2 := MoveIf(g, k.back, p1, -cx, -cy, speed);
    var p3 := MoveIf(g, k.left, p2, -v.planeX, -v.planeY, speed);
    MoveIf(g, k.right, p3, v.planeX, v.planeY, speed)
  }

  /** The x or y half of one movement block: `near` and `far` are the two probes; returns
      whether a probe left the grid. */
  method Probe(g: Grid, nearX: int, nearY: int, farX: int, farY: int) returns (offGrid: bool, free: bool)
    ensures offGrid <==> !(InGrid(g, nearX, nearY) && (!Solid(g, nearX, nearY) ==> InGrid(g, farX, farY)))
    ensures free <==> !offGrid && !Solid(g, nearX, nearY) && !Solid(g, farX, farY)
  {
    if !(0 <= nearX < |g| && 0 <= nearY < |g[nearX]|) {
      return true, false;
    }
    if g[nearX][nearY].solid {
      return false, false;
    }
    if !(0 <= farX < |g| && 0 <= farY < |g[farX]|) {
      return true, false;
    }
    return false, !g[farX][farY].solid;
  }

  /** One key's movement block of `handleInput`. */
  method MoveAlong(w: World, p: Player, cx: real, cy: real, speed: real) returns (offGrid: bool)
    modifies p`posX, p`posY
    ensures Moving(Position(p.posX, p.posY), offGrid) == Move(w.leveldata, Position(old(p.posX), old(p.posY)), cx, cy, speed)
  {
    var g := w.leveldata;
    var free;
    offGrid, free := Probe(g, Trunc(p.posX + cx * WallMargin), Trunc(p.posY), Trunc(p.posX + cx * speed), Trunc(p.posY));
    if offGrid {
      return;
    }
    if free {
      p.posX := p.posX + cx * speed;
    }
    offGrid, free := Probe(g, Trunc(p.posX), Trunc(p.posY + cy * WallMargin), Trunc(p.posX), Trunc(p.posY + cy * speed));
    if offGrid {
      return;
    }
    if free {
      p.posY := p.posY + cy * speed;
    }
  }

  /** One movement block, run when its key is held. */
  method MoveIfHeld(w: World, p: Player, held: bool, cx: real, cy: real, speed: real) returns (offGrid: bool)
    modifies p`posX, p`posY
    ensures Moving(Position(p.posX, p.posY), offGrid) ==
      MoveIf(w.leveldata, held, Moving(Position(old(p.posX), old(p.posY)), false), cx, cy, speed)
  {
    offGrid := false;
    if held {
      offGrid := MoveAlong(w, p, cx, cy, speed);
    }
  }

  /** The four movement blocks of `handleInput`; a block is skipped once a probe has left the
      grid. */
  method HandleMovement(w: World, p: Player, k: Keys, moveSpeed: real) returns (offGrid: bool)
    requires Facing(View(p.posX, p.posY, p.dirX, p.dirY, p.planeX, p.planeY))
    modifies p`posX, p`posY
    ensures Moving(Position(p.posX, p.posY), offGrid) ==
      Moved(w.leveldata, old(View(p.posX, p.posY, p.dirX, p.dirY, p.planeX, p.planeY)), k, moveSpeed)
  {
    var xComponent := p.dirX / (AbsR(p.dirX) + AbsR(p.dirY));
    var yComponent := p.dirY / (AbsR(p.dirX) + AbsR(p.dirY));
    assert xComponent == Component(p.dirX, p.dirY);
    assert yComponent == Component(p.dirY, p.dirX);
    offGrid := MoveIfHeld(w, p, k.forward, xComponent, yComponent, moveSpeed);
    if !offGrid {
      offGrid := MoveIfHeld(w, p, k.back, -xComponent, -yComponent, moveSpeed);
    }
    if !offGrid {
      offGrid := MoveIfHeld(w, p, k.left, -p.planeX, -p.planeY, moveSpeed);
    }
    if !offGrid {
      offGrid := MoveIfHeld(w, p, k.right, p.planeX, p.planeY, moveSpeed);
    }
  }

  /** The look, speed, movement and height part of `handleInput` for one frame. Look and height
      do not read the map, so they follow their specification even when a movement probe left
      the grid. */
  method HandleInput(w: World, p: Player, floorDist: array<Ext>, k: Keys, ticks: nat, frequency: real,
                     mouseYDist: int, sense: real) returns (offGrid: bool)
    requires floorDist.Length == ScreenHeight && frequency > 0.0
    requires LookSense(sense) && LookInRange(p.vertLook)
    requires Facing(View(p.posX, p.posY, p.dirX, p.dirY, p.planeX, p.planeY))
    modifies p`vertLook, p`vertHeight, p`posX, p`posY, floorDist
    ensures p.vertLook == LookTarget(old(p.vertLook), mouseYDist, sense)
    ensures Moving(Position(p.posX, p.posY), offGrid) ==
      Moved(w.leveldata, old(View(p.posX, p.posY, p.dirX, p.dirY, p.planeX, p.planeY)), k, KeySpeed(FrameSpeed(ticks, frequency), k))
    ensures p.vertHeight == HeightTarget(old(p.vertHeight), k.lower, k.raise, KeySpeed(FrameSpeed(ticks, frequency), k))
    ensures LookInRange(p.vertLook)
    ensures PlayerOpen(w.leveldata, old(p.posX), old(p.posY)) && !offGrid ==> PlayerOpen(w.leveldata, p.posX, p.posY)
    ensures LookChanges(old(p.vertLook), mouseYDist) || k.lower || k.raise ==>
      forall y | 0 <= y < ScreenHeight :: floorDist[y] == RowDist(y, p.vertLook, p.vertHeight)
    ensures !(LookChanges(old(p.vertLook), mouseYDist) || k.lower || k.raise) ==> unchanged(floorDist)
  {
    Look(p, floorDist, mouseYDist, sense);
    var moveSpeed := FrameSpeed(ticks, frequency);
    if (k.forward != k.back) && (k.left != k.right) {
      moveSpeed := moveSpeed * 0.707;
    }
    if k.sprint {
      moveSpeed := moveSpeed * 1.5;
    }
    assert moveSpeed == KeySpeed(FrameSpeed(ticks, frequency), k);
    offGrid := HandleMovement(w, p, k, moveSpeed);
    ChangeHeight(p, floorDist, k.lower, k.raise, moveSpeed);
  }
}
