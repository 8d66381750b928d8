/** The player and camera globals shared by both versions of the engine, and the screen size. */
module Camera {
  import opened ExtReal

  /** Internal rendering resolution. */
  const ScreenWidth := 960
  const ScreenHeight := 540

  /** Player position, view direction, camera plane, look offsets and what the last raycast
      recorded about the cells ahead and at the screen edges. */
  class Player {
    var posX: real
    var posY: real
    var dirX: real
    var dirY: real
    var planeX: real
    var planeY: real
    var hFOV: real
    var vertLook: real
    var vertHeight: real
    var blockAheadDist: Ext
    var blockAheadX: int
    var blockAheadY: int
    var blockLeftX: int
    var blockLeftY: int
    var blockRightX: int
    var blockRightY: int

    /** The start-up values; `dirX` is tan(45 degrees), taken as exactly 1. */
    constructor ()
      ensures posX == 2.0 && posY == 2.0 && dirX == 1.0 && dirY == 0.0
      ensures planeX == 0.0 && planeY == 1.0 && hFOV == 90.0
      ensures vertLook == 0.0 && vertHeight == 0.0 && blockAheadDist == Fin(500.0)
      ensures blockAheadX == 0 && blockAheadY == 0 && blockLeftX == 0 && blockLeftY == 0
      ensures blockRightX == 0 && blockRightY == 0
    {
      posX, posY := 2.0, 2.0;
      dirX, dirY := 1.0, 0.0;
      planeX, planeY := 0.0, 1.0;
      hFOV := 90.0;
      vertLook, vertHeight := 0.0, 0.0;
      blockAheadDist := Fin(500.0);
      blockAheadX, blockAheadY := 0, 0;
      blockLeftX, blockLeftY := 0, 0;
      blockRightX, blockRightY := 0, 0;
    }
  }
}
