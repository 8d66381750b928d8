/** The level grid of the older engine (raycaster.cpp): every cell is a bare integer id, 0 for
    open floor and any positive id for a wall.  Loading a level file, using the block ahead,
    and starting a new level. */
module LegacyLevel {
  import opened ExtReal
  import opened Camera
  import opened Level

  /** `leveldata[x][y]`, column by column. */
  type IntGrid = seq<seq<int>>

  /** The grid has `w` columns of `h` cells. */
  predicate IsSized(g: IntGrid, w: int, h: int)
  {
    |g| == w && forall x | 0 <= x < |g| :: |g[x]| == h
  }

  predicate InIntGrid(g: IntGrid, x: int, y: int)
  {
    0 <= x < |g| && 0 <= y < |g[x]|
  }

  /** The level: its size and its cells. */
  class LegacyWorld {
    var mapWidth: int
    var mapHeight: int
    var leveldata: IntGrid

    constructor ()
      ensures mapWidth == 24 && mapHeight == 24 && leveldata == []
    {
      mapWidth, mapHeight := 24, 24;
      leveldata := [];
    }

    /** `leveldata` has `mapWidth` columns of `mapHeight` cells. */
    ghost predicate Valid()
      reads this
    {
      0 <= mapWidth && 0 <= mapHeight && IsSized(leveldata, mapWidth, mapHeight)
    }
  }

  /** The grid `loadLevel` reads from `tokens`: token 2 columns of token 3 cells, the cell at
      (x, y) holding token 4 + y*width + x (rows one after another, x varying fastest). */
  function LoadedGrid(tokens: seq<int>): (g: IntGrid)
    requires Token(tokens, 2) >= 0 && Token(tokens, 3) >= 0
    ensures IsSized(g, Token(tokens, 2), Token(tokens, 3))
  {
    var w, h := Token(tokens, 2), Token(tokens, 3);
    seq(w, x requires 0 <= x < w => seq(h, y requires 0 <= y < h => Token(tokens, 4 + y * w + x)))
  }

  /** A file that stops one id short of its 2 by 1 grid: the missing cell repeats the last id,
      so both cells are walls. */
  lemma ShortFileRepeatsLastToken()
    ensures LoadedGrid([1, 1, 2, 1, 1]) == [[1], [1]]
  {
    var g := LoadedGrid([1, 1, 2, 1, 1]);
    assert g[0] == [Token([1, 1, 2, 1, 1], 4)];
    assert g[1] == [Token([1, 1, 2, 1, 1], 5)];
  }

  /** `loadLevel`: the start cell from tokens 0 and 1 (the player is placed mid-cell), the size
      from tokens 2 and 3, then the raw id of every cell.  A negative size would make `resize`
      throw. */
  method LoadLevel(w: LegacyWorld, p: Player, tokens: seq<int>)
    requires Token(tokens, 2) >= 0 && Token(tokens, 3) >= 0
    modifies w, p`posX, p`posY
    ensures w.Valid()
    ensures p.posX == Token(tokens, 0) as real + 0.5 && p.posY == Token(tokens, 1) as real + 0.5
    ensures w.mapWidth == Token(tokens, 2) && w.mapHeight == Token(tokens, 3)
    ensures w.leveldata == LoadedGrid(tokens)
  {
    p.posX := Token(tokens, 0) as real + 0.5;
    p.posY := Token(tokens, 1) as real + 0.5;
    w.mapWidth := Token(tokens, 2);
    w.mapHeight := Token(tokens, 3);
    var width, height := w.mapWidth, w.mapHeight;
    var grid := Resized(w.leveldata, width, height);
    var y := 0;
    while y < height
      invariant 0 <= y <= height && IsSized(grid, width, height)
      invariant forall x, y' | 0 <= x < width && 0 <= y' < y :: grid[x][y'] == Token(tokens, 4 + y' * width + x)
    {
      var x := 0;
      while x < width
        invariant 0 <= x <= width && IsSized(grid, width, height)
        invariant forall x', y' | 0 <= x' < width && 0 <= y' < height && (y' < y || (y' == y && x' < x)) ::
          grid[x'][y'] == Token(tokens, 4 + y' * width + x')
      {
        var a := Token(tokens, 4 + y * width + x);
        grid := grid[x := grid[x][y := a]];
        x := x + 1;
      }
      y := y + 1;
    }
    ghost var r := LoadedGrid(tokens);
    forall x | 0 <= x < width ensures grid[x] == r[x] {
      assert forall y' | 0 <= y' < height :: grid[x][y'] == r[x][y'];
    }
    w.leveldata := grid;
  }

  /** `leveldata.resize(width)` and `leveldata[i].resize(height)` for every column: the cells
      the grid had are kept, new cells are 0. */
  function Resized(g: IntGrid, width: nat, height: nat): (r: IntGrid)
    ensures IsSized(r, width, height)
    ensures forall x, y | 0 <= x < width && 0 <= y < height ::
      r[x][y] == if InIntGrid(g, x, y) then g[x][y] else 0
  {
    seq(width, x requires 0 <= x < width =>
      seq(height, y requires 0 <= y < height => if InIntGrid(g, x, y) then g[x][y] else 0))
  }

  /** The token file of a level: start cell, size, then the cells row by row. */
  function LevelTokens(startX: int, startY: int, g: IntGrid, w: nat, h: nat): (t: seq<int>)
    requires IsSized(g, w, h)
    ensures |t| == 4 + w * h
  {
    [startX, startY, w, h] + seq(w * h, i requires 0 <= i < w * h => CellAt(g, w, h, i))
  }

  /** Cell number i of the row-by-row order. */
  function CellAt(g: IntGrid, w: nat, h: nat, i: int): int
    requires IsSized(g, w, h) && 0 <= i < w * h
  {
    IndexBound(i, w, h);
    g[i % w][i / w]
  }

  lemma IndexBound(i: int, w: nat, h: nat)
    requires 0 <= i < w * h
    ensures w > 0 && 0 <= i % w < w && 0 <= i / w < h
  {
    assert w != 0;
    var q := i / w;
    assert q * w + i % w == i;
    assert (h - q) * w == w * h - q * w;
    PositiveFactor(h - q, w);
  }

  /** Reading a level file written for a grid gives back that grid and that start cell. */
  lemma {:induction false} LoadReadsWhatWasWritten(startX: int, startY: int, g: IntGrid, w: nat, h: nat)
    requires IsSized(g, w, h)
    ensures var t := LevelTokens(startX, startY, g, w, h);
      Token(t, 0) == startX && Token(t, 1) == startY && Token(t, 2) == w && Token(t, 3) == h &&
      LoadedGrid(t) == g
  {
    var t := LevelTokens(startX, startY, g, w, h);
    assert Token(t, 2) == w && Token(t, 3) == h;
    var r := LoadedGrid(t);
    forall x | 0 <= x < w ensures r[x] == g[x] {
      forall y | 0 <= y < h ensures r[x][y] == g[x][y] {
        CellOfIndex(x, y, w);
        ProductBound(x, y, w, h);
        assert t[4 + y * w + x] == CellAt(g, w, h, y * w + x);
      }
    }
  }

  /** The row-by-row number of cell (x, y) gives back x as its remainder and y as its quotient. */
  lemma CellOfIndex(x: int, y: int, w: int)
    requires 0 <= x < w && 0 <= y
    ensures (y * w + x) / w == y && (y * w + x) % w == x
  {
    var i := y * w + x;
    var q, r := i / w, i % w;
    assert i == q * w + r && 0 <= r < w;
    assert (y - q) * w == r - x;
    ZeroMultiple(y - q, w);
  }

  lemma ProductBound(x: int, y: int, w: int, h: int)
    requires 0 <= x < w && 0 <= y < h
    ensures 0 <= y * w + x < w * h
  {
    assert (h - 1 - y) * w >= 0;
    assert w * h == (h - 1 - y) * w + y * w + w;
  }

  lemma ZeroMultiple(k: int, w: int)
    requires w > 0 && -w < k * w < w
    ensures k == 0
  {
    if k > 0 {
      Bigger(k, w);
    } else if k < 0 {
      Bigger(-k, w);
    }
  }

  lemma PositiveFactor(a: int, w: int)
    requires w > 0 && a * w > 0
    ensures a > 0
  {
  }

  lemma Bigger(k: int, w: int)
    requires k >= 1 && w > 0
    ensures k * w >= w
  {
  }

  // ----- using the block ahead -----

  /** Ids the older engine gives a meaning. */
  const IdWall := 1
  const IdPanel := 2
  const IdDoor := 3

  /** Whether a use reaches the block ahead: input is enabled and the block is nearer than 1. */
  predicate Reaches(enableInput: bool, aheadDist: Ext)
  {
    enableInput && Lt(aheadDist, Fin(1.0))
  }

  /** The grid after using the block at (x, y): a door there is removed (set to 0); nothing
      else changes. */
  function AfterUse(g: IntGrid, x: int, y: int, reaches: bool): (r: IntGrid)
    requires reaches ==> InIntGrid(g, x, y)
  {
    if reaches && g[x][y] == IdDoor then g[x := g[x][y := 0]] else g
  }

  /** Using a block changes at most the one cell, only a door, and only into open floor. */
  lemma UseChangesOnlyTheDoor(g: IntGrid, x: int, y: int, reaches: bool)
    requires reaches ==> InIntGrid(g, x, y)
    ensures |AfterUse(g, x, y, reaches)| == |g|
    ensures forall i | 0 <= i < |g| :: |AfterUse(g, x, y, reaches)[i]| == |g[i]|
    ensures forall i, j | InIntGrid(g, i, j) && AfterUse(g, x, y, reaches)[i][j] != g[i][j] ::
      i == x && j == y && g[i][j] == IdDoor && AfterUse(g, x, y, reaches)[i][j] == 0
    ensures reaches && g[x][y] == IdDoor ==> AfterUse(g, x, y, reaches)[x][y] == 0
  {
  }

  /** A door once opened stays open: using the same block again changes nothing. */
  lemma UseTwiceIsUseOnce(g: IntGrid, x: int, y: int, reaches: bool)
    requires reaches ==> InIntGrid(g, x, y)
    ensures reaches ==> InIntGrid(AfterUse(g, x, y, reaches), x, y)
    ensures AfterUse(AfterUse(g, x, y, reaches), x, y, reaches) == AfterUse(g, x, y, reaches)
  {
  }

  /** The right mouse button or space: a door ahead is removed and an exit panel ahead asks for
      a new level, when the use reaches the block; walls and other ids are ignored. */
  method UseBlock(w: LegacyWorld, p: Player, enableInput: bool) returns (newLevel: bool)
    requires Reaches(enableInput, p.blockAheadDist) ==> InIntGrid(w.leveldata, p.blockAheadX, p.blockAheadY)
    modifies w`leveldata
    ensures var reaches := Reaches(enableInput, p.blockAheadDist);
      (newLevel <==> reaches && old(w.leveldata[p.blockAheadX][p.blockAheadY]) == IdPanel) &&
      w.leveldata == AfterUse(old(w.leveldata), p.blockAheadX, p.blockAheadY, reaches)
  {
    newLevel := false;
    if enableInput {
      if Lt(p.blockAheadDist, Fin(1.0)) {
        var x, y := p.blockAheadX, p.blockAheadY;
        var id := w.leveldata[x][y];
        if id == IdWall {
        } else if id == IdPanel {
          newLevel := true;
        } else if id == IdDoor {
          w.leveldata := w.leveldata[x := w.leveldata[x][y := 0]];
        }
      }
    }
  }

  /** `newlevel(false)`: loads the level read from `tokens` (the engine picks one of twenty map
      files at random) and resets the camera: facing +x with `dirX = tan(hFOV/2)`, the camera
      plane along +y, and the look offset and camera height at 0. */
  method NewLevel(w: LegacyWorld, p: Player, tokens: seq<int>, tanHalfFov: real)
    requires Token(tokens, 2) >= 0 && Token(tokens, 3) >= 0
    modifies w, p`posX, p`posY, p`dirX, p`dirY, p`planeX, p`planeY, p`vertLook, p`vertHeight
    ensures w.Valid() && w.leveldata == LoadedGrid(tokens)
    ensures w.mapWidth == Token(tokens, 2) && w.mapHeight == Token(tokens, 3)
    ensures p.posX == Token(tokens, 0) as real + 0.5 && p.posY == Token(tokens, 1) as real + 0.5
    ensures p.dirX == tanHalfFov && p.dirY == 0.0 && p.planeX == 0.0 && p.planeY == 1.0
    ensures p.vertLook == 0.0 && p.vertHeight == 0.0
  {
    LoadLevel(w, p, tokens);
    p.dirX, p.dirY := tanHalfFov, 0.0;
    p.planeX, p.planeY := 0.0, 1.0;
    p.vertLook, p.vertHeight := 0.0, 0.0;
  }
}
