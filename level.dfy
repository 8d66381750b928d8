/** The level grid of the current engine: loading a level from its tokens, the door timers and
    the use-block interaction (src/raycaster.cpp). */
module Level {
  import opened ExtReal
  import opened BlockTypes
  import opened Camera

  type Grid = seq<seq<MapBlock>>

  /** The value `int a` holds after the extraction `mapFile >> a` for token `i`.  Once the
      tokens run out, the extraction fails before anything is parsed and stores nothing, so
      `a` keeps the last token read.  Of an empty file nothing is ever stored and `a` stays
      uninitialised; the model reads 0 there. */
  function Token(tokens: seq<int>, i: nat): int
  {
    if i < |tokens| then tokens[i] else if |tokens| > 0 then tokens[|tokens| - 1] else 0
  }

  predicate IsInt32(n: int)
  {
    -0x8000_0000 <= n < 0x8000_0000
  }

  /** Every token fits the `int` it is read into. */
  predicate TokensFit(tokens: seq<int>)
  {
    forall i | 0 <= i < |tokens| :: IsInt32(tokens[i])
  }

  /** `column.resize(h)`: keeps the first `h` cells and appends default cells. */
  function ResizeColumn(c: seq<MapBlock>, h: nat): (r: seq<MapBlock>)
    ensures |r| == h
    ensures forall y | 0 <= y < h :: r[y] == (if y < |c| then c[y] else DefaultBlock)
  {
    seq(h, y requires 0 <= y < h => if y < |c| then c[y] else DefaultBlock)
  }

  /** The cell at column x, row y before `changeBlock` is applied to it. */
  function Previous(g: Grid, x: int, y: int): MapBlock
  {
    if 0 <= x < |g| && 0 <= y < |g[x]| then g[x][y] else DefaultBlock
  }

  /** The cell at (x, y) after loading: its previous contents changed to the kind read from
      token 4 + y*w + x (rows are read one after another, x varying fastest). */
  function LoadedCell(g: Grid, table: seq<MapBlock>, tokens: seq<int>, w: nat, x: int, y: int): MapBlock
    requires TokensFit(tokens) && |table| < 0x8000_0000
    requires 0 <= x && 0 <= y
  {
    ChangeBlock(Previous(g, x, y), table, Token(tokens, 4 + y * w + x))
  }

  /** The grid after `loadLevel` has read `tokens` over grid `g`. */
  function LoadedGrid(g: Grid, table: seq<MapBlock>, tokens: seq<int>): Grid
    requires TokensFit(tokens) && |table| < 0x8000_0000
    requires Token(tokens, 2) >= 0 && Token(tokens, 3) >= 0
  {
    var w, h := Token(tokens, 2), Token(tokens, 3);
    seq(w, x requires 0 <= x < w => seq(h, y requires 0 <= y < h => LoadedCell(g, table, tokens, w, x, y)))
  }

  /** The level: its size and its cells, `leveldata[x][y]`. */
  class World {
    var mapWidth: int
    var mapHeight: int
    var leveldata: Grid

    constructor ()
      ensures mapWidth == 24 && mapHeight == 24 && leveldata == []
    {
      mapWidth, mapHeight := 24, 24;
      leveldata := [];
    }

    /** `leveldata` has `mapWidth` columns of `mapHeight` cells. */
    ghost predicate Valid()
      reads this
    {
      0 <= mapWidth && 0 <= mapHeight && |leveldata| == mapWidth &&
      forall x | 0 <= x < |leveldata| :: |leveldata[x]| == mapHeight
    }
  }

  /** `loadLevel`: start position (tokens 0 and 1, placed mid-cell), width and height (tokens 2
      and 3), then one id per cell.  A negative width or height would make `resize` throw. */
  method LoadLevel(w: World, p: Player, table: BlockTable, tokens: seq<int>)
    requires TokensFit(tokens) && |table.blockTypes| < 0x8000_0000
    requires Token(tokens, 2) >= 0 && Token(tokens, 3) >= 0
    modifies w, p`posX, p`posY
    ensures w.Valid()
    ensures p.posX == Token(tokens, 0) as real + 0.5 && p.posY == Token(tokens, 1) as real + 0.5
    ensures w.mapWidth == Token(tokens, 2) && w.mapHeight == Token(tokens, 3)
    ensures w.leveldata == LoadedGrid(old(w.leveldata), table.blockTypes, tokens)
  {
    ghost var g0 := w.leveldata;
    p.posX := Token(tokens, 0) as real + 0.5;
    p.posY := Token(tokens, 1) as real + 0.5;
    w.mapWidth := Token(tokens, 2);
    w.mapHeight := Token(tokens, 3);
    var width, height := w.mapWidth, w.mapHeight;
    ResizeLevel(w, width, height);

    var grid := w.leveldata;
    var y := 0;
    while y < height
      invariant 0 <= y <= height && |grid| == width
      invariant forall x | 0 <= x < width :: |grid[x]| == height
      invariant forall x, y' | 0 <= x < width && 0 <= y' < height ::
        grid[x][y'] == if y' < y then LoadedCell(g0, table.blockTypes, tokens, width, x, y') else Previous(g0, x, y')
    {
      var x := 0;
      while x < width
        invariant 0 <= x <= width && |grid| == width
        invariant forall x' | 0 <= x' < width :: |grid[x']| == height
        invariant forall x', y' | 0 <= x' < width && 0 <= y' < height ::
          grid[x'][y'] ==
            if y' < y || (y' == y && x' < x) then LoadedCell(g0, table.blockTypes, tokens, width, x', y')
            else Previous(g0, x', y')
      {
        var a := Token(tokens, 4 + y * width + x);
        grid := grid[x := grid[x][y := ChangeBlock(grid[x][y], table.blockTypes, a)]];
        x := x + 1;
      }
      y := y + 1;
    }
    ghost var r := LoadedGrid(g0, table.blockTypes, tokens);
    forall x | 0 <= x < width ensures grid[x] == r[x] {
      assert forall y' | 0 <= y' < height :: grid[x][y'] == r[x][y'];
    }
    w.leveldata := grid;
  }

  /** `leveldata.resize(width)` followed by `leveldata[i].resize(height)` for every column:
      cells the grid already had keep their contents, new ones are default cells. */
  method ResizeLevel(w: World, width: nat, height: nat)
    modifies w`leveldata
    ensures |w.leveldata| == width
    ensures forall x | 0 <= x < width :: |w.leveldata[x]| == height
    ensures forall x, y | 0 <= x < width && 0 <= y < height :: w.leveldata[x][y] == Previous(old(w.leveldata), x, y)
  {
    ghost var g0 := w.leveldata;
    var grid := if width <= |w.leveldata| then w.leveldata[..width]
                else w.leveldata + seq(width - |w.leveldata|, _ => []);
    var i := 0;
    while i < width
      invariant 0 <= i <= width && |grid| == width
      invariant forall x | 0 <= x < i :: grid[x] == ResizeColumn(if x < |g0| then g0[x] else [], height)
      invariant forall x | i <= x < width :: grid[x] == (if x < |g0| then g0[x] else [])
    {
      grid := grid[i := ResizeColumn(grid[i], height)];
      i := i + 1;
    }
    w.leveldata := grid;
  }

  /** What loading does to one cell: an in-range id gives it that kind (and the id); any other
      id leaves what the cell held before, or a default cell where the grid has grown.  The
      door-animation fields always carry over from the previous level. */
  lemma LoadedCellContents(g: Grid, table: seq<MapBlock>, tokens: seq<int>, x: int, y: int)
    requires TokensFit(tokens) && |table| < 0x8000_0000
    requires Token(tokens, 2) >= 0 && Token(tokens, 3) >= 0
    requires 0 <= x < Token(tokens, 2) && 0 <= y < Token(tokens, 3)
    ensures var r, id := LoadedGrid(g, table, tokens), Token(tokens, 4 + y * Token(tokens, 2) + x);
      var before := if 0 <= x < |g| && 0 <= y < |g[x]| then g[x][y] else DefaultBlock;
      (0 <= id < |table| ==> r[x][y].blockId == id && SameKind(r[x][y], table[id])) &&
      (!(0 <= id < |table|) ==> r[x][y] == before) &&
      SameDoorState(r[x][y], before)
  {
  }

  /** A level file with too few tokens repeats its last token: every cell past the data is
      changed to the kind of the last id in the file, or kept when that id is out of range. */
  lemma ShortFileRepeatsLastId(g: Grid, table: seq<MapBlock>, tokens: seq<int>, x: int, y: int)
    requires TokensFit(tokens) && |table| < 0x8000_0000
    requires Token(tokens, 2) >= 0 && Token(tokens, 3) >= 0
    requires 0 <= x < Token(tokens, 2) && 0 <= y < Token(tokens, 3)
    requires 0 < |tokens| <= 4 + y * Token(tokens, 2) + x
    ensures var r, last := LoadedGrid(g, table, tokens), tokens[|tokens| - 1];
      (0 <= last < |table| ==> r[x][y].blockId == last && SameKind(r[x][y], table[last])) &&
      (!(0 <= last < |table|) ==> r[x][y] == Previous(g, x, y))
  {
  }

  /** One frame of a door's timer.  A running timer moves by `percent`; past 0 the door has
      slid open (no longer drawn or solid), past 1 it has closed; either way it stops. */
  function TickTimer(b: MapBlock, percent: real): MapBlock
  {
    if !b.timerOn then b
    else
      var t := b.timer + percent;
      if t < 0.0 then b.(timer := 0.0, timerOn := false, visible := false, solid := false)
      else if t > 1.0 then b.(timer := 1.0, timerOn := false)
      else b.(timer := t)
  }

  /** The cells `updateBlockTimers(inX, inY, radius, ...)` visits: a square of side
      2*radius + 1 around (inX, inY), clipped to the grid. */
  predicate InWindow(w: int, h: int, inX: int, inY: int, radius: int, x: int, y: int)
  {
    MaxInt(inX - radius, 0) <= x < MinInt(w, inX + radius + 1) &&
    MaxInt(inY - radius, 0) <= y < MinInt(h, inY + radius + 1)
  }

  /** The grid after one call of `updateBlockTimers`. */
  function TimersUpdated(g: Grid, inX: int, inY: int, radius: int, percent: real): Grid
  {
    var w, h := |g|, if |g| == 0 then 0 else |g[0]|;
    seq(|g|, x requires 0 <= x < |g| =>
      seq(|g[x]|, y requires 0 <= y < |g[x]| =>
        if InWindow(w, h, inX, inY, radius, x, y) then TickTimer(g[x][y], percent) else g[x][y]))
  }

  /** `updateBlockTimers`: advances the running timers inside the window, row by row. */
  method UpdateBlockTimers(w: World, inX: int, inY: int, radius: int, percent: real)
    requires w.Valid()
    modifies w`leveldata
    ensures w.Valid()
    ensures w.leveldata == TimersUpdated(old(w.leveldata), inX, inY, radius, percent)
  {
    ghost var g0 := w.leveldata;
    assert w.mapWidth == |g0| && (w.mapWidth > 0 ==> w.mapHeight == |g0[0]|);
    var y := MaxInt(inY - radius, 0);
    var yEnd := MinInt(w.mapHeight, inY + radius + 1);
    var xStart := MaxInt(inX - radius, 0);
    var xEnd := MinInt(w.mapWidth, inX + radius + 1);
    while y < yEnd
      invariant w.Valid()
      invariant MaxInt(inY - radius, 0) <= y || yEnd <= y
      invariant forall x, y' | 0 <= x < w.mapWidth && 0 <= y' < w.mapHeight ::
        w.leveldata[x][y'] ==
          if InWindow(w.mapWidth, w.mapHeight, inX, inY, radius, x, y') && y' < y then TickTimer(g0[x][y'], percent)
          else g0[x][y']
    {
      var x := xStart;
      while x < xEnd
        invariant w.Valid()
        invariant MaxInt(inX - radius, 0) <= x || xEnd <= x
        invariant forall x', y' | 0 <= x' < w.mapWidth && 0 <= y' < w.mapHeight ::
          w.leveldata[x'][y'] ==
            if InWindow(w.mapWidth, w.mapHeight, inX, inY, radius, x', y') && (y' < y || (y' == y && x' < x))
            then TickTimer(g0[x'][y'], percent)
            else g0[x'][y']
      {
        var b := w.leveldata[x][y];
        if b.timerOn {
          b := b.(timer := b.timer + percent);
          if b.timer < 0.0 {
            b := b.(timer := 0.0, timerOn := false, visible := false, solid := false);
          } else if b.timer > 1.0 {
            b := b.(timer := 1.0, timerOn := false);
          }
        }
        w.leveldata := w.leveldata[x := w.leveldata[x][y := b]];
        x := x + 1;
      }
      y := y + 1;
    }
    ghost var r := TimersUpdated(g0, inX, inY, radius, percent);
    forall x | 0 <= x < w.mapWidth ensures w.leveldata[x] == r[x] {
      assert forall y' | 0 <= y' < w.mapHeight :: w.leveldata[x][y'] == r[x][y'];
    }
  }

  /** A running timer always ends inside [0, 1], and a stopped one is left alone. */
  lemma TickTimerBounded(b: MapBlock, percent: real)
    ensures var r := TickTimer(b, percent);
      (b.timerOn ==> 0.0 <= r.timer <= 1.0) && (!b.timerOn ==> r == b) &&
      r.blockId == b.blockId && r.isDoor == b.isDoor && r.wallTex == b.wallTex
  {
  }

  /** Timers that start in [0, 1] stay there after any sweep, and only running timers in the
      window change. */
  lemma TimersStayInRange(g: Grid, inX: int, inY: int, radius: int, percent: real, x: int, y: int)
    requires 0 <= x < |g| && 0 <= y < |g[x]|
    requires 0.0 <= g[x][y].timer <= 1.0
    ensures |TimersUpdated(g, inX, inY, radius, percent)| == |g|
    ensures var r := TimersUpdated(g, inX, inY, radius, percent)[x][y];
      0.0 <= r.timer <= 1.0 && (r != g[x][y] ==> g[x][y].timerOn)
  {
  }

  /** `n` frames of a timer that moves by `percent` per frame. */
  function Ticks(b: MapBlock, percent: real, n: nat): MapBlock
    decreases n
  {
    if n == 0 then b else Ticks(TickTimer(b, percent), percent, n - 1)
  }

  /** A door whose timer runs down (`percent` < 0, as the game loop passes) has slid open once
      more than timer / |percent| frames have passed: timer 0, stopped, not drawn, not solid. */
  lemma {:induction false} DoorOpensInTime(b: MapBlock, percent: real, n: nat)
    requires b.timerOn && percent < 0.0 && 0.0 <= b.timer <= 1.0
    requires (n as real) * (-percent) > b.timer
    decreases n
    ensures var r := Ticks(b, percent, n);
      r.timer == 0.0 && !r.timerOn && !r.visible && !r.solid && r.blockId == b.blockId
  {
    var b1 := TickTimer(b, percent);
    if b.timer + percent < 0.0 {
      OpenDoorStaysOpen(b1, percent, n - 1);
    } else {
      assert b1.timerOn && b1.timer == b.timer + percent;
      DoorOpensInTime(b1, percent, n - 1);
    }
  }

  /** A stopped timer stays as it is. */
  lemma {:induction false} OpenDoorStaysOpen(b: MapBlock, percent: real, n: nat)
    requires !b.timerOn
    ensures Ticks(b, percent, n) == b
    decreases n
  {
    if n > 0 {
      OpenDoorStaysOpen(TickTimer(b, percent), percent, n - 1);
    }
  }

  /** The right mouse button or space: when the block straight ahead is nearer than 1, an exit
      panel asks for a new level and a door starts its timer; every other kind is ignored. */
  method UseBlockAhead(w: World, p: Player) returns (newLevel: bool)
    requires w.Valid()
    requires Lt(p.blockAheadDist, Fin(1.0)) ==> 0 <= p.blockAheadX < w.mapWidth && 0 <= p.blockAheadY < w.mapHeight
    modifies w`leveldata
    ensures w.Valid()
    ensures var near := Lt(p.blockAheadDist, Fin(1.0));
      (newLevel <==> near && old(w.leveldata[p.blockAheadX][p.blockAheadY]).blockId == BlockPanel) &&
      w.leveldata == if near && old(w.leveldata[p.blockAheadX][p.blockAheadY]).blockId == BlockDoor
                     then old(w.leveldata[p.blockAheadX := w.leveldata[p.blockAheadX][p.blockAheadY :=
                                w.leveldata[p.blockAheadX][p.blockAheadY].(timerOn := true)]])
                     else old(w.leveldata)
  {
    newLevel := false;
    if Lt(p.blockAheadDist, Fin(1.0)) {
      var x, y := p.blockAheadX, p.blockAheadY;
      var b := w.leveldata[x][y];
      if b.blockId == BlockWall {
      } else if b.blockId == BlockPanel {
        newLevel := true;
      } else if b.blockId == BlockDoor {
        w.leveldata := w.leveldata[x := w.leveldata[x][y := b.(timerOn := true)]];
      }
    }
  }
}
