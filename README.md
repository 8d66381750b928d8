# raycast1 engine core in Dafny

This project models the discrete core of the raycaster `raycast1`, in two versions of the engine:

- The current engine (`src/raycaster.cpp`, `src/blocktypes.h`) has tiles stored as records, sliding doors with timers, textured and flat wall strips, sprites and a fog mask.
- The older, door-less engine (`raycaster.cpp`, `blocktypes.h`) has tiles stored as plain integers, the floor and ceiling drawn into a pixel buffer, and an older fog mask.

Each piece of the engine appears in the form the C++ gives it. The tile table is a class whose method grows and fills it. The level is a class that holds the grid as a sequence of columns, and the loaders and the door-timer sweep update it. The player is a class with the camera globals as fields. The DDA walk, the row-distance fill, the fog mask, the buffer writes and the sprite sort are methods with loops; each is proved equal to a specification function. Properties of those functions are proved as lemmas.

Doubles are modelled as `real` lifted to `ExtReal.Ext`, which has finite values, two infinities and NaN. This lets divisions by zero that the engine really performs stay in the model:

- the DDA's inverse ray components;
- the horizon row of the row-distance table;
- the fog quotient at the horizon.

`std::min`/`std::max` follow their exact comparison rule, `min(a, b) = b < a ? b : a`. This rule matters when NaN or an infinity is an argument. A C++ cast of a double to `int` is `ExtReal.Trunc`, which truncates toward zero.

The tile record gains `timer`, `timerOn` and `isDoor`. The engine reads these fields, but the header never declares them. The model assumes their defaults are `1.0`, `false` and `false`. No table routine touches them: `changeBlock` keeps them, and only the door sweep and the "use" key change them.

The DDA keeps one quirk of the current engine. `deltaDistX` and `deltaDistY` live across columns and are refreshed only when the ray component is non-zero (src/raycaster.cpp:534-543). A column whose ray has a zero x component therefore steps with the previous column's `deltaDistX`, or with 0 in column 0:

- `Raycast.DeltaX`/`DeltaY` model this.
- `Raycast.ZeroComponentStepsSideways` shows a concrete view where such a ray moves one cell in x, although it points straight along y.
- `Raycast.InfiniteDeltaFollowsRay` shows that an infinite delta would keep such a ray on its own axis.

Every DDA walk uses the step rule as written (`StepRule.AsWritten`). Two methods use corrected code instead, each recorded under "## Findings": the old engine's fog mask reads the ceiling entry `texHeight − 1 − y`, and the sprite clip scan stops at `drawEndX`. Termination of the walk rests on an explicit precondition: the map is enclosed by a visible, non-door border, and the player stands in an interior cell.

## Model

| member | source | states |
|---|---|---|
| BlockTypes.BlockTable.constructor | src/blocktypes.h:24 | the tile-kind table starts empty |
| BlockTypes.BlockTable.InitBlockTypes | src/blocktypes.h:26-101 | the new table is `InitialTable` of the old one: grown to 64 default entries only when shorter, with kinds 0-4 then defined |
| BlockTypes.ChangeBlock | src/blocktypes.h:104-122 | for an id inside the table: the cell takes that id and exactly the ten kind fields of the entry, and keeps its door state; any other id, a negative one included after its conversion to `unsigned`, leaves the cell unchanged |
| BlockTypes.AirIsOpen | src/blocktypes.h:32-44 | after initialisation, air is invisible, non-solid and opaque, with all faces on texture 0 |
| BlockTypes.KindsAfterInit | src/blocktypes.h:46-100 | wall, panel, door and window are visible and solid; only door and window are transparent; all four faces use texture id−1; floor and ceiling textures are 0, height is 1 and alpha is 255; the door fields are kept from the old entry when there was one |
| BlockTypes.UndefinedKindsAreDefault | src/blocktypes.h:5-15 | entries 5 to 63 of a fresh table keep the struct defaults, so these tiles are solid but invisible |
| BlockTypes.InitKeepsOtherEntries | src/blocktypes.h:28-31 | initialisation only ever grows the table, to `max(size, 64)`, and leaves every entry from 5 on untouched |
| BlockTypes.InitIdempotent | src/blocktypes.h:26-101 | initialising twice gives the same table as initialising once |
| BlockTypes.ChangeBlockIdempotent | src/blocktypes.h:104-122 | changing a cell to the same id twice gives the same cell as changing it once |
| BlockTypes.ChangeBlockForgetsKind | src/blocktypes.h:106-120 | with an in-range id, the resulting id and kind fields do not depend on what the cell held before |
| Camera.Player.constructor | src/raycaster.cpp:98-109 | the start-up camera: position (2, 2), direction (1, 0) for a 90 degree field of view, plane (0, 1), no look offsets, block-ahead distance 500 and all recorded cells at (0, 0) |
| ExtReal.Trunc | src/raycaster.cpp:529-530 | the conversion of a double to `int` truncates toward zero: it is the floor of a non-negative value and the ceiling of a negative one |
| ExtReal.Frac | src/raycaster.cpp:611 | `wallX - floor(wallX)` lies in [0, 1) |
| FloorCast.CalcFloorDist | src/raycaster.cpp:674-710 | every row of the table holds `RowDist`: rows above the truncated horizon get the ceiling distance, the remaining rows the floor distance |
| FloorCast.NonFiniteOnlyAtHorizon | src/raycaster.cpp:680-700 | a table entry is finite exactly when its row's truncated offset from the horizon is non-zero |
| FloorCast.HorizonRowIsInfinite | src/raycaster.cpp:691-700 | with a whole-pixel look offset, the offset is zero exactly on the horizon row, and there the floor distance is +infinity |
| FloorCast.FloorRowsApproach | src/raycaster.cpp:691-703 | below the horizon the floor distance is positive and does not grow as the row moves down the screen |
| FloorCast.CeilingRowsRecede | src/raycaster.cpp:677-690 | above the horizon the ceiling distance is positive and does not shrink as the row moves toward the horizon |
| FloorCast.MaskIsModulo | src/raycaster.cpp:931-932 | for a non-negative `n`, `n & (2^k − 1)` equals `n % 2^k` |
| FloorCast.WrapIsModulo | src/raycaster.cpp:931-932 | on 32-bit ints in two's complement, `n & (w − 1)` with `w = 2^k` equals the non-negative remainder `n mod w` and lies in [0, w), negative `n` included |
| FloorCast.WrapNeedsPowerOfTwo | src/raycaster.cpp:931-932 | for a width that is not a power of two, the mask differs from the remainder, e.g. `1 & 2 = 0` while `1 % 3 = 1` |
| FloorCast.Scaled | src/raycaster.cpp:931 | `(int)(w * f)` with a fraction in (−1, 1) lies within [−w, w] |
| FloorCast.TexelInTexture | src/raycaster.cpp:927-932 | for a power-of-two texture, the wrapped texel index always lies inside the texture |
| Fog.FogLevel | src/raycaster.cpp:1439 | `min(1, max(worldFog, b))` is finite, whatever `b` is |
| Fog.FogAlpha | src/raycaster.cpp:1439 | the alpha written to the mask lies in [0, 255] |
| Fog.BrightnessBounds | src/raycaster.cpp:1436-1437 | the fog brightness of any distance, NaN and the infinities included, is finite and lies between `worldFog` and `min(1, max(worldFog, playerFog))` |
| Fog.AlphaOfBrightness | src/raycaster.cpp:1437-1439 | the alpha is the truncation of 255·(1 − brightness), and never more than that of the world fog level |
| Fog.HorizonGetsWorldFog | src/raycaster.cpp:1436-1437 | an infinite row distance (the horizon) gets exactly the world fog level |
| Fog.BrightnessOfDistance | src/raycaster.cpp:1436-1437 | for a positive scaled distance q, the brightness is `playerFog / (c·q)` clamped to the fog range |
| Fog.DistanceMonotone | src/raycaster.cpp:1436 | a larger positive distance never gives a smaller scaled fog distance |
| Fog.FoggierWithDistance | src/raycaster.cpp:1437 | of two finite fog distances, the larger one gets no more brightness |
| Fog.FartherIsFoggier | src/raycaster.cpp:1436-1437 | a surface farther away is never brighter than a nearer one |
| Fog.FogColumn | src/raycaster.cpp:1430-1457 | the method writes column x of the mask as `PixelAlpha` (wall distance inside the span, row distance elsewhere) and changes no other column |
| Fog.GenerateFogMask | src/raycaster.cpp:1416-1464 | every mask pixel gets the alpha of its row and column, using the span clamped by `max(drawStart, 0)` and `min(drawEnd, H)` |
| Input.LookStaysInRange | src/raycaster.cpp:1881-1911 | the look offset stays within [−H/2, H/2]; moving the mouse down never raises it, moving it up never lowers it, no motion keeps it, and an unclamped move is exactly `−dy·sense` |
| Input.Look | src/raycaster.cpp:1881-1911 | the new look offset is `LookTarget` and stays in range; a change refills the row table for the new offset, and no change leaves the table untouched |
| Input.HeightStaysInRange | src/raycaster.cpp:1989-2001 | the camera height stays within [−0.2, 0.4]; lowering never raises it, raising never lowers it, and neither key keeps it |
| Input.CameraBetweenFloorAndCeiling | src/raycaster.cpp:683-696 | for every height in range, the camera is strictly above the floor and below the ceiling, so both row-distance numerators are positive |
| Input.ChangeHeight | src/raycaster.cpp:1989-2001 | the new height is `HeightTarget`; a key press refills the row table, and no key leaves it untouched |
| Input.FrameSpeed | src/raycaster.cpp:1870-1873 | the movement speed of a frame is positive |
| Input.ComponentsTaxicabUnit | src/raycaster.cpp:1927-1928 | the two movement components have absolute values summing to 1, each in [−1, 1], each with the sign of its direction component |
| Input.OpenCellIsInterior | src/raycaster.cpp:1929-1970 | in a map with a solid border, a player in a non-solid cell stands in an interior cell |
| Input.ProbeNearby | src/raycaster.cpp:1931-1936 | the collision probes less than a cell away stay inside the grid |
| Input.StepXKeepsOpen | src/raycaster.cpp:1931-1933 | the x half of a move reports a probe outside the grid exactly when the margin cell, or the destination behind a free margin cell, is off the map; otherwise it moves by `c·speed` along x exactly when both probed cells are free, so the player stays in a free cell; in a solid border a step shorter than a cell never probes off the map |
| Input.StepYKeepsOpen | src/raycaster.cpp:1934-1936 | the same for the y half, probed from the new x |
| Input.Probe | src/raycaster.cpp:1931-1936 | the two nested probe tests: off the map exactly when the margin cell, or behind a free margin cell the destination, lies outside the grid; free exactly when both cells are in the map and not solid |
| Input.LongStepCrossesWall | src/raycaster.cpp:1931-1933 | in a map with a solid border, a two-cell step from a free cell lands in the free cell beyond a one-cell wall, because only the margin cell and the destination are probed |
| Input.LongerStepLeavesGrid | src/raycaster.cpp:1931-1933 | a four-cell step from the same cell probes a column outside the map |
| Input.Move | src/raycaster.cpp:1929-1939 | an axis-separated move of any length keeps a player who stood in a free cell in a free cell unless a probe left the map; in a solid border a move shorter than a cell on each axis never leaves it |
| Input.MoveIf | src/raycaster.cpp:1929-1970 | a held key moves the player within free cells; a released key, or a frame already stopped at an off-map probe, keeps the position; in a solid border short steps never leave the map |
| Input.Moved | src/raycaster.cpp:1929-1970 | the four movement keys, applied in order, keep a player in a free cell unless a probe left the map; in a solid border a frame whose steps are shorter than a cell never leaves it; with no movement key held nothing moves |
| Input.MoveAlong | src/raycaster.cpp:1929-1939 | the method moves the player to `Move` of the old position and reports an off-map probe as `Move` does |
| Input.MoveIfHeld | src/raycaster.cpp:1929-1970 | the method moves the player to `MoveIf` of the old position |
| Input.HandleMovement | src/raycaster.cpp:1927-1970 | the method moves the player to `Moved` of the old view, for a frame of any length |
| Input.HandleInput | src/raycaster.cpp:1870-2001 | one frame of input, of any length: look, movement and height each follow their specification, the look offset stays in range, a player in a free cell stays in one unless a probe left the map, and the row table is current whenever look or height changed |
| Level.ResizeColumn | src/raycaster.cpp:1599 | a resized column has the new length, keeps its old cells and pads with default tiles |
| Level.World.constructor | src/raycaster.cpp:26-27 | the default map is 24 by 24 and holds no cells yet |
| Level.LoadLevel | src/raycaster.cpp:1581-1612 | the start position is the first two tokens + 0.5; the size is the next two; the grid is `LoadedGrid` of the old grid, with the last token repeated for every read past the end of the file |
| Level.ResizeLevel | src/raycaster.cpp:1596-1600 | the grid becomes width by height; cells inside the old grid keep their contents and new cells are default tiles |
| Level.LoadedCellContents | src/raycaster.cpp:1602-1609 | cell (x, y) reads token `4 + y·width + x` (the last token once the file has run out): an id inside the table sets the id and kind fields, any other id keeps the old cell, and the door state is always kept |
| Level.ShortFileRepeatsLastId | src/raycaster.cpp:1586-1609 | every cell past the end of a non-empty file takes the kind of the file's last id, or keeps its old contents when that id is outside the table, because a failed extraction at end of file leaves `a` unchanged |
| Level.UpdateBlockTimers | src/raycaster.cpp:482-506 | the sweep leaves the grid equal to `TimersUpdated` and keeps its shape |
| Level.TickTimerBounded | src/raycaster.cpp:488-503 | a tick keeps a running timer in [0, 1], leaves a stopped cell unchanged, and never changes the id, the door flag or the textures |
| Level.TimersStayInRange | src/raycaster.cpp:482-506 | after a sweep every timer that started in [0, 1] is still there, and only cells with a running timer changed |
| Level.DoorOpensInTime | src/raycaster.cpp:488-495 | a door that is opening, ticking by a negative step, ends with timer 0, stopped, invisible and passable once the steps exceed the timer |
| Level.OpenDoorStaysOpen | src/raycaster.cpp:488 | a cell whose timer is stopped is never changed by later ticks |
| Level.UseBlockAhead | src/raycaster.cpp:1679-1698 | using the block ahead closer than 1 starts a new level exactly on a panel and starts the timer exactly on a door; nothing else in the grid changes |
| Raycast.StartProperties | src/raycaster.cpp:529-568 | a step is −1 exactly when the ray component is negative; the start cell is the truncated position; each initial side distance lies between 0 and its delta |
| Raycast.FractionTimesDelta | src/raycaster.cpp:550-567 | the initial side distance is a fraction in [0, 1] of the delta |
| Raycast.Step | src/raycaster.cpp:576-587 | one DDA step moves along x exactly when `sideDistX < sideDistY` strictly, changes exactly one cell coordinate by its step, adds that axis's delta and records the axis in `side` |
| Raycast.StepStaysInGrid | src/raycaster.cpp:576-589 | a step from an interior cell stays in the grid and brings the walk closer to the border |
| Raycast.Walk | src/raycaster.cpp:573-640 | the walk stops on a visible cell of the grid, with side 0 or 1 |
| Raycast.WalkStep | src/raycaster.cpp:573-640 | the walk is one step followed either by the hit the probe reports or by the walk from the next interior cell |
| Raycast.WalkIsFirstStop | src/raycaster.cpp:573-640 | the hit is the first cell along the step sequence where the probe stops, reached within width + height steps; every cell before it is interior and passes the probe |
| Raycast.HitDistance | src/raycaster.cpp:589-637 | a wall hit stores the perpendicular wall distance; a door hit stores the half-cell door distance, and the door really blocks at that point |
| Raycast.ClosedDoorBlocks | src/raycaster.cpp:614-615 | a fully closed door blocks every ray that meets its plane inside the cell |
| Raycast.OpenDoorPassesRays | src/raycaster.cpp:614-615 | a fully open door lets through every ray that does not meet it exactly at its edge |
| Raycast.DeltaXMeaning | src/raycaster.cpp:534-537 | `deltaDistX` is non-negative; it is 1/abs(rayDirX) when that is non-zero, and otherwise the previous column's value |
| Raycast.DeltaYMeaning | src/raycaster.cpp:540-543 | the same for `deltaDistY` |
| Raycast.ZeroComponentStepsSideways | src/raycaster.cpp:534-587 | in column 0 of the view (2.5, 2.5) looking (1, −1) with plane (1, 1), the ray has x component 0, steps with delta 0 and moves sideways in x |
| Raycast.InfiniteDeltaFollowsRay | src/raycaster.cpp:576-587 | had the zero component given an infinite delta, the walk would never leave the ray's own axis |
| Raycast.Column | src/raycaster.cpp:519-640 | the hit of every column is on a visible cell of the grid |
| Raycast.CastColumn | src/raycaster.cpp:529-640 | the method's DDA loop returns the hit of `Walk` |
| Raycast.WalkLoop | src/raycaster.cpp:573-640 | the `while (hit == 0)` loop returns `Walk` from its start state |
| Raycast.ProbeCell | src/raycaster.cpp:589-638 | the cell test stops exactly when `ProbeBlock` reports a hit, with its distance |
| Raycast.CastNext | src/raycaster.cpp:522-640 | one column: the ray, the deltas carried to the next column and the hit agree with their specifications |
| Raycast.ColumnsAt | src/raycaster.cpp:519 | entry c of the column sequence is column c's hit |
| Raycast.CastAll | src/raycaster.cpp:519-666 | the buffers hold every column's hit; the centre column gives the block ahead and its distance `abs(perpWallDist·rayDir)`; columns 0 and W−1 give the edge blocks |
| Raycast.CalcRaycast | src/raycaster.cpp:508-666 | the same, with the block-ahead and edge globals of the player updated |
| Sprites.SquaredDistance | src/raycaster.cpp:1167 | the squared distance of a sprite is non-negative |
| Sprites.InsertPermutes | src/raycaster.cpp:1177 | inserting a pair keeps the multiset of pairs |
| Sprites.InsertIncreasing | src/raycaster.cpp:1177 | inserting a new pair into an increasing sequence keeps it increasing |
| Sprites.SortPermutes | src/raycaster.cpp:1177 | sorting is a permutation of the pairs |
| Sprites.SortIncreasing | src/raycaster.cpp:1177 | sorting distinct pairs gives a strictly increasing sequence in the lexicographic order of `std::pair` |
| Sprites.SortedInitialPairs | src/raycaster.cpp:1165-1177 | the sorted pairs are exactly the (distance, index) pairs of all sprites, in increasing order |
| Sprites.SpriteOrderCoversSprites | src/raycaster.cpp:1165-1182 | after the sort and the reversal every sprite index appears, and each entry's distance is the squared distance of its sprite |
| Sprites.SpriteOrderFarthestFirst | src/raycaster.cpp:1177-1182 | the order has no repeated index, the distances do not increase, and equal distances come by descending index |
| Sprites.FillDistances | src/raycaster.cpp:1165-1169 | entry k holds sprite k's squared distance and index k; entries past the sprites are untouched |
| Sprites.PairUp | src/raycaster.cpp:1172-1176 | the pairs are the first `amount` (distance, index) entries |
| Sprites.RestoreReversed | src/raycaster.cpp:1179-1182 | the arrays hold the sorted pairs in reverse order; entries past them are untouched |
| Sprites.SortSprites | src/raycaster.cpp:1165-1182 | the arrays hold `SpriteOrder`, farthest first, and nothing past the sprites changes |
| Sprites.CameraCoordinates | src/raycaster.cpp:1186-1201 | `transformX`, `transformY` are the sprite's coordinates on the camera plane and direction: its offset equals `tX·plane + tY·dir` |
| Sprites.Scale | src/raycaster.cpp:1204 | the sprite's screen size is non-negative |
| Sprites.ScaleIsWallHeight | src/raycaster.cpp:1204 | the sprite scale is the wall line height of the same depth |
| Sprites.PlaceMeaning | src/raycaster.cpp:1202-1229 | the destination is non-negative in width and contains the sprite's screen x; the scan range is the destination clamped to the screen |
| Sprites.FirstVisible | src/raycaster.cpp:1231-1236 | the left edge the scan finds is never left of where it starts |
| Sprites.FirstVisibleMeaning | src/raycaster.cpp:1231-1236 | the left edge is the first column in the range where the sprite is in front of the wall, or one past the range when there is none |
| Sprites.LastVisibleMeaning | src/raycaster.cpp:1237-1242 | the width is the distance from the left edge to the last such column scanning back, and every column after it is occluded |
| Sprites.ClipSpansVisibleColumns | src/raycaster.cpp:1226-1242 | when a column is visible, the clip runs from the first to the last visible column and contains all of them; when none is, the clip starts one past the range |
| Sprites.ClipColumns | src/raycaster.cpp:1231-1242 | the two scan loops return `FirstVisible` and `LastVisible`, never reading past the buffer |
| Sprites.AsWrittenAgreesInside | src/raycaster.cpp:1231-1236 | the scan as written agrees with the corrected one whenever `drawEndX + 1` is inside the buffer |
| Sprites.AsWrittenReadsPastBuffer | src/raycaster.cpp:1231-1236 | for a sprite hidden up to the right edge of the buffer, the scan as written reads `wallDist[W]` |
| Sprites.HiddenSpriteReadsPastBuffer | src/raycaster.cpp:1227-1236 | a concrete such sprite: depth 2 behind walls at distance 1 across the whole screen |
| Sprites.ClipY | src/raycaster.cpp:1245-1246 | the vertical clip lies on the screen, keeps x and w, and leaves an on-screen rectangle unchanged |
| Sprites.ShadowX | src/raycaster.cpp:1256 | the fog sample column is a screen column |
| Sprites.SecondClampRedundant | src/raycaster.cpp:1258-1259 | the second clamp of the sprite brightness changes nothing |
| Sprites.ScaledDistancesAgree | src/raycaster.cpp:1257-1258 | scaling `transformY` by 90/hFOV before squaring gives the same fog distance the walls use |
| Sprites.SpriteFogMatchesWalls | src/raycaster.cpp:1254-1261 | a sprite gets the same fog brightness as a wall at its depth |
| Sprites.ShownSpriteIsDrawn | src/raycaster.cpp:1199-1252 | a sprite in front of the camera with a visible column is drawn with its destination, and its clip covers every visible column |
| Sprites.HiddenSpriteDrawsNothing | src/raycaster.cpp:1226-1248 | a sprite occluded on every column is not drawn or has an empty clip |
| Sprites.CommandFacts | src/raycaster.cpp:1199-1248 | every draw is of the sprite asked for, which is in front of the camera, with the clip's left edge and row span on the screen |
| Sprites.DrawsAreOnScreen | src/raycaster.cpp:1188-1248 | every draw of an order is of a sprite of that order, in front of the camera and on the screen |
| Sprites.DrawsFarthestFirst | src/raycaster.cpp:1188-1252 | drawing a farthest-first order draws the sprites farthest first |
| Sprites.AppendFarthestLast | src/raycaster.cpp:1188 | appending a draw no farther than all earlier ones keeps the order farthest first |
| Sprites.SpritesDrawnFarthestFirst | src/raycaster.cpp:1161-1252 | drawSprites draws only sprites in front of the camera, on the screen, in order of non-increasing squared distance |
| Sprites.DrawOne | src/raycaster.cpp:1190-1248 | one iteration produces `Command` for that sprite, clipped with the corrected scan of `ClipColumns` |
| Sprites.DrawsOfPrefix | src/raycaster.cpp:1188 | the draws of one more sprite are the earlier draws plus that sprite's draw, if any |
| Sprites.DrawInOrder | src/raycaster.cpp:1188-1272 | the draw loop produces `DrawsOf` the stored order |
| Sprites.DrawSprites | src/raycaster.cpp:1161-1277 | the arrays hold the farthest-first order and the draws are `DrawsOf` that order, clipped with the corrected scan of `ClipColumns` |
| WallStrip.FacesBySide | src/raycaster.cpp:799-806 | an x-side hit shows East exactly when the ray points to −x, otherwise West; a y-side hit shows North for +y and South for −y; a zero y component falls through to West |
| WallStrip.TextureIndex | src/raycaster.cpp:808-815 | the texture index is the face's texture when that is in range, and texture 0 otherwise |
| WallStrip.MirroredOnNorthAndEast | src/raycaster.cpp:829-833 | the texture column is mirrored to `w − t − 1` exactly on North and East faces |
| WallStrip.TexColumnInTexture | src/raycaster.cpp:819-833 | on a closed cell the hit fraction lies in [0, 1) and the texture column inside the texture |
| WallStrip.LineHeight | src/raycaster.cpp:797 | the line height is non-negative |
| WallStrip.LineHeightAntitone | src/raycaster.cpp:797 | a farther wall is never drawn taller |
| WallStrip.SpanHeight | src/raycaster.cpp:836-837 | the span is twice half the line height tall, exactly when its top is on or below row 0, and within one pixel of it otherwise |
| WallStrip.TexStripMeaning | src/raycaster.cpp:797-849 | a strip uses the face texture or the fallback, samples inside its width, has brightness 255 on x-sides and 127 on y-sides, and is one column wide at x |
| WallStrip.FlipColumn | src/raycaster.cpp:829-833 | the flip code yields `TexColumn` |
| WallStrip.CastStrip | src/raycaster.cpp:797-849 | the loop body produces `TexStripOf` for its column |
| WallStrip.DrawWorldGeoTex | src/raycaster.cpp:778-853 | every column's strip and span are `TexStripOf` that column's hit |
| WallStrip.FlatColorChannels | src/raycaster.cpp:730-755 | flat colours have channels in [0, 255]; y-sides halve every channel, x-sides keep the kind colour |
| WallStrip.FlatRectClamped | src/raycaster.cpp:758-772 | the flat rectangle is one column wide at x and lies on the screen, and an on-screen span is kept as it is, for any line height and shift |
| WallStrip.FlatStripAtDistance | src/raycaster.cpp:724-760 | at a positive finite distance the flat strip uses the textured pass's line height and shift; at an infinite one the line height is 0 and the strip is empty on the horizon row; the pass divides by exactly the distances other than 0 and NaN |
| WallStrip.DrawWorldGeoFlat | src/raycaster.cpp:712-776 | every column's flat strip is `FlatStripOf` that column's hit, for every distance but 0 and NaN, the infinities included |
| LegacyBlockTypes.BlockTable.constructor | blocktypes.h:14 | the old tile-kind table starts empty |
| LegacyBlockTypes.BlockTable.InitBlockTypes | blocktypes.h:16-65 | the table is grown to 64 default entries when shorter and kinds 0-3 are defined |
| LegacyBlockTypes.ChangeBlock | blocktypes.h:68-83 | for an id inside the table: the id, solidity, visibility, four faces and floor and ceiling textures are copied; any other id, a negative one included, leaves the cell unchanged |
| LegacyBlockTypes.KindsAfterInit | blocktypes.h:22-64 | id 0 is invisible and non-solid; ids 1-3 are visible and solid with all faces on texture id−1 |
| LegacyBlockTypes.UndefinedKindsAreAir | blocktypes.h:5-21 | entries 4 to 63 of a fresh table keep the all-zero defaults and behave as air |
| LegacyBlockTypes.InitIdempotent | blocktypes.h:16-65 | initialising twice gives the same table as once |
| LegacyFloor.FloorStart | raycaster.cpp:1035-1036 | a `drawEnd` outside [0, H] is replaced by H, and any other value is kept |
| LegacyFloor.FloorSourcesInTables | raycaster.cpp:1041-1080 | a buffer row below `drawEnd` shows the floor row; a row above `drawStart` shows the mirrored ceiling row when the ceiling is on; every other row is cleared |
| LegacyFloor.DrawFloorColumn | raycaster.cpp:1035-1080 | column x of the buffer is the cleared span, the floor and the ceiling as `FloorSource` says, and no other column changes |
| LegacyFloor.DrawCeiling | raycaster.cpp:1066-1080 | the ceiling loop overwrites the rows above `drawStart` with the mirrored ceiling rows and keeps the others |
| LegacyFloor.DrawFloorColumns | raycaster.cpp:1035-1080 | every `drawEnd` is clamped and every column is drawn |
| LegacyFloor.WallBrightnessBounds | raycaster.cpp:1311-1313 | wall-span brightness is finite, at least `minBrightness` and at most `max(minBrightness, torchBrightness)` |
| LegacyFloor.RowBrightnessBounds | raycaster.cpp:1299-1305 | floor and ceiling brightness is finite and lies in [`minBrightness`, 1], at most `max(minBrightness, torchBrightness)` |
| LegacyFloor.AlphaOfWallBrightness | raycaster.cpp:1311-1315 | the wall alpha is the truncation of 255·(1 − brightness) |
| LegacyFloor.FogPixel | raycaster.cpp:1297-1316 | every mask alpha lies in [0, 255] and is read from an entry inside the tables, with the corrected ceiling read `ceilDist[texHeight − 1 − y]` (`FogSource`) in place of line 1299's `ceilDist[texHeight − y]` |
| LegacyFloor.FogMatchesTexture | raycaster.cpp:1297-1308 | the corrected fog reads the same table entry the floor and ceiling textures use, and the wall span is fogged only where the buffer is cleared |
| LegacyFloor.AsWrittenMisreadsCeiling | raycaster.cpp:1299 | above the wall, the fog as written reads ceiling row H − y, one row off the row the ceiling texture used |
| LegacyFloor.AsWrittenReadsPastTable | raycaster.cpp:1299 | at y = 0 with `drawStart > 0`, the fog as written reads `ceilDist[H]`, past the table |
| LegacyFloor.AsWrittenInsideBelowTop | raycaster.cpp:1299 | for every row from 1 on, the fog as written stays inside the tables |
| LegacyFloor.FogRow | raycaster.cpp:1295-1317 | one row of the mask is `FogPixel`, using the corrected ceiling read (`FogSource`), and no other row changes |
| LegacyFloor.GenerateFogMask | raycaster.cpp:1280-1317 | every mask pixel is `FogPixel`, using the corrected ceiling read (`FogSource`) |
| LegacyFloor.DrawFloor | raycaster.cpp:977-1100 | `drawEnd` is clamped and every column drawn; with fog on, the mask is generated from the clamped spans with the corrected ceiling read (`FogSource`); with fog off, it is untouched |
| LegacyInput.CeilingIsMirroredFloor | raycaster.cpp:305-306 | the ceiling table is the floor table with look offset and height negated |
| LegacyInput.FloorAheadBelowHorizon | raycaster.cpp:305 | a floor entry is a positive distance exactly on the rows below the horizon and +infinity on it |
| LegacyInput.CeilingAheadBelowMirroredHorizon | raycaster.cpp:306 | a ceiling entry is a positive distance exactly below the mirrored horizon, and +infinity on it |
| LegacyInput.FillTables | raycaster.cpp:303-307 | both tables hold their formula on every row |
| LegacyInput.LegacyLook | raycaster.cpp:550-591 | the look offset moves by `−dy·sense` clamped to [−H/2, H/2]; a change refills both tables, and no change keeps them |
| LegacyInput.LegacyHeightStaysInRange | raycaster.cpp:669-690 | the height moves by one per frame toward the pressed key and stays within [−H/5, 2H/5] |
| LegacyInput.LegacyCameraBetweenFloorAndCeiling | raycaster.cpp:672-684 | for every height in range, both numerators of the tables are at least H/5 |
| LegacyInput.LegacyChangeHeight | raycaster.cpp:669-690 | the new height is `LegacyHeightTarget`; a key press refills both tables |
| LegacyInput.ClampTo | raycaster.cpp:390 | `min(hi, max(lo, x))` lies in [lo, hi] and keeps a value already there |
| LegacyInput.Tuning.constructor | raycaster.cpp:23-51 | the start-up fog and mouse settings |
| LegacyInput.Wheel | raycaster.cpp:381-410 | a wheel event changes only the setting of the first held key, each within its range, and keeps the settings valid |
| LegacyInput.FovAfter | raycaster.cpp:1407-1412 | a field-of-view change is rejected when the result leaves [50, 180]; an accepted change adds the step |
| LegacyInput.FovStaysInRange | raycaster.cpp:1407-1412 | the field of view stays within [50, 180] |
| LegacyInput.ChangeFOV | raycaster.cpp:1405-1415 | a rejected change keeps the field of view and the direction; an accepted one scales the direction by the tangent ratio |
| LegacyLevel.LegacyWorld.constructor | raycaster.cpp:19-20 | the default map is 24 by 24 and holds no cells yet |
| LegacyLevel.LoadedGrid | raycaster.cpp:1387-1400 | the loaded grid has the size the tokens give, each cell holding its token, or the last token once the file has run out |
| LegacyLevel.ShortFileRepeatsLastToken | raycaster.cpp:1376-1398 | a file `1 1 2 1 1`, one id short of its 2 by 1 grid, loads two walls: the missing cell repeats the last id |
| LegacyLevel.LoadLevel | raycaster.cpp:1372-1403 | the position, the size and the raw ids come from the tokens, reads past the end repeating the last token |
| LegacyLevel.Resized | raycaster.cpp:1387-1391 | a resized grid has the new size, keeps the cells inside the old one and pads with 0 |
| LegacyLevel.LevelTokens | raycaster.cpp:1393-1400 | a level file has 4 + width·height tokens |
| LegacyLevel.LoadReadsWhatWasWritten | raycaster.cpp:1376-1400 | loading the tokens of a grid, written y-outer and x-inner, gives back the start cell, the size and the grid |
| LegacyLevel.UseChangesOnlyTheDoor | raycaster.cpp:355-373 | using changes at most the block ahead, and only a door, which becomes air |
| LegacyLevel.UseTwiceIsUseOnce | raycaster.cpp:355-373 | using twice is using once |
| LegacyLevel.UseBlock | raycaster.cpp:424-443 | a new level starts exactly on a panel within reach; the grid becomes `AfterUse` |
| LegacyLevel.NewLevel | raycaster.cpp:1338-1370 | the level is loaded and the camera reset to direction (tan(hFOV/2), 0), plane (0, 1) and no look offsets |
| LegacyRaycast.IntStepStaysInGrid | raycaster.cpp:777-790 | a step from an interior cell stays in the integer grid and brings the walk closer to the border |
| LegacyRaycast.LegacyWalk | raycaster.cpp:774-805 | the old walk stops on a cell whose value is positive, and stores the perpendicular wall distance |
| LegacyRaycast.LiftEnclosed | raycaster.cpp:790 | reading the integer grid as tiles (positive means a visible wall) gives a grid enclosed by walls with the same interior |
| LegacyRaycast.SameAsCurrentEngine | raycaster.cpp:774-805 | on a door-less map the old walk gives the same hit as the current one |
| LegacyRaycast.LegacyWalkIsFirstWall | raycaster.cpp:774-792 | the hit is the first cell with a positive value along the step sequence, every cell before it is interior and empty |
| LegacyRaycast.LegacyColumn | raycaster.cpp:720-805 | every column's hit is on a positive cell |
| LegacyRaycast.ColumnsAgree | raycaster.cpp:720-820 | every column of the old engine agrees with the current engine on the lifted grid |
| LegacyRaycast.LegacyCastColumn | raycaster.cpp:730-805 | the method returns `LegacyWalk` |
| LegacyRaycast.LegacyStart | raycaster.cpp:730-770 | the set-up before the loop gives the step signs and the first side distances of `StartDda` |
| LegacyRaycast.LegacyWalkLoop | raycaster.cpp:774-792 | the loop ends on the hit cell and side of `LegacyWalk` |
| LegacyRaycast.LegacyCastNext | raycaster.cpp:720-805 | one column: the ray, the carried deltas and the hit agree with their specifications |
| LegacyRaycast.LegacyColumnsAt | raycaster.cpp:720 | entry c of the column sequence is column c's hit |
| LegacyRaycast.LegacyCastAll | raycaster.cpp:720-822 | the buffers hold every column's hit, and the centre column gives the block ahead and its distance |
| LegacyRaycast.LegacyCalcRaycast | raycaster.cpp:708-828 | the same, with the block-ahead globals of the player updated |

## Left out

- SDL: window and renderer setup, texture loading, locking and blitting are left out. Pixel buffers are plain arrays, and the wall and sprite copies are returned as draw commands.
- Texel fetches for floor and ceiling are parameters. The sampled texel is a function passed in (`floorTexel`, `ceilTexel`). Only the index wrap `n & (w − 1)` is modelled.
- The skybox, the minimap, the HUD, the window title and the event loop are left out. Keys, mouse motion, wheel notches and frame ticks arrive as parameters.
- Rotation (src/raycaster.cpp:1971-1988, raycaster.cpp:592-668) needs sin and cos, so it is left out. All trigonometric values, such as the tangent ratio of `changeFOV` and the `brightSin` table, are inputs.
- The absolute branch of `changeFOV` (raycaster.cpp:1416-1422) is left out. Only `newlevel` uses it, and it reduces to resetting the direction.
- `newlevel` chooses a random map and a random `ceilingOn`. Both are parameters: the tokens of the chosen file, and the flag passed to the floor drawing. The warp animation and the `enableInput` toggling around it are left out.
- The current engine's `newlevel` (src/raycaster.cpp:1522-1579) is left out beyond `loadLevel` and the camera constructor, because its camera reset goes through the trigonometric `changeFOV`.
- Doubles are exact reals extended with the infinities and NaN. Rounding, −0.0 and `float` narrowing are not modelled.
- `int` arithmetic is unbounded. Overflow in the span formulas, and a double→int conversion of an out-of-range value, are not modelled. Both are undefined behaviour in C++.
- Sprites.ValidScene: the sprite transform's `1/det` is modelled only for Det ≠ 0. The engine keeps the camera matrix invertible, and the model takes that as a precondition rather than proving it across rotations.
- Sprites.SortSprites: `std::sort` is modelled by an insertion sort whose result is proved to be the increasing permutation. Since the pairs are distinct, that is the same result `std::sort` gives.
- LegacyFloor.DrawFloorColumns requires `drawStart ≤ H` when the ceiling is on. Above H the ceiling loop reads `ceilDist` at a negative index, which is undefined behaviour.
- Fog.GenerateFogMask requires `SpansInMask`: no `drawStart` above H and no `drawEnd` below 0. Outside that, the source's row loops index `floorDist` and the mask out of bounds.
- LegacyFloor.GenerateFogMask, LegacyFloor.FogRow, LegacyFloor.FogPixel and LegacyFloor.DrawFloor read the ceiling entry `ceilDist[texHeight − 1 − y]`, not the `ceilDist[texHeight − y]` of raycaster.cpp:1299. Every ceiling pixel from row 1 down therefore gets the alpha of the row the ceiling texture used, not the next row's. At row 0 the model reads inside the table where the source reads past it. `LegacyFloor.FogSourceAsWritten` models the line as written (see "## Findings").
- Sprites.ClipColumns, Sprites.DrawOne, Sprites.DrawInOrder and Sprites.DrawSprites scan left only up to `drawEndX`. The source scans up to `drawEndX + 1`, which differs only where it reads `wallDist[gscreenWidth]` past the buffer (`Sprites.AsWrittenAgreesInside`, see "## Findings").
- Raycast.Walk, Raycast.Column, Raycast.CastColumn, Raycast.WalkLoop, Raycast.CastNext, Raycast.CastAll, Raycast.CalcRaycast, LegacyRaycast.LegacyWalk, LegacyRaycast.LegacyColumn, LegacyRaycast.LegacyCastColumn, LegacyRaycast.LegacyWalkLoop, LegacyRaycast.LegacyCastNext, LegacyRaycast.LegacyCastAll and LegacyRaycast.LegacyCalcRaycast require a map enclosed by a visible, non-door border (`Enclosed`, `Walled` in the old engine) and a player in an interior cell. The source's `while (hit == 0)` loop rests on the map being built that way. Without such a border it can walk off the grid and index `leveldata` out of bounds, and the model excludes that case rather than modelling it.
- Level.Token: an empty or missing file stores nothing in `int a`, which stays uninitialised. The model reads 0 for it. Tokens are modelled as integers, so a token that fails to parse is left out. It would store 0 and make every later read fail.
- Level.LoadLevel, Level.LoadedGrid, Level.LoadedCellContents and Level.ShortFileRepeatsLastId require a non-negative width and height. A negative width makes `leveldata.resize` throw. A positive width with a negative height makes the column resize throw. A width of 0 with a negative height loads an empty grid with a negative `mapHeight`, which the model does not cover.
- LegacyLevel.LoadedGrid, LegacyLevel.LoadLevel and LegacyLevel.NewLevel require a non-negative width and height of the old engine's level, for the same reason.
- Input.Moved, Input.HandleMovement and Input.HandleInput require a non-zero view direction. With direction (0, 0) the movement components are 0/0, NaN, and the probes convert NaN to `int`, which is undefined. Rotation keeps the direction's length, so the engine never reaches that state.
- Input.Move and the methods built on it stop moving once a probe lies outside the grid. The source then indexes `leveldata` out of bounds, which is undefined behaviour. The model reports it as `offGrid` instead of choosing an outcome.
- WallStrip.DrawWorldGeoTex requires a positive finite distance in every column. At an infinite distance, which the zero-component column of `calcRaycast` can produce, `wallX - floor(wallX)` is NaN and `int(wallX * width)` is undefined. The flat pass is modelled on infinities as well.
- WallStrip.TextureIndex and WallStrip.DrawWorldGeoTex require non-negative face textures. A negative id passes the `< totalWallTextures` test and indexes `gwallTex` before its start, which is undefined behaviour.
- Level.UseBlockAhead requires the block ahead to be inside the map when it is within reach. The raycast always leaves it there, and the source indexes the grid without a check. The `enableInput` and right-button guards around it (src/raycaster.cpp:1675-1677) are event plumbing and are left to the caller.

## Findings

| source | as written | input that shows it | evidently intended | confidence | as-written member | corrected member |
|---|---|---|---|---|---|---|
| raycaster.cpp:1299 | the ceiling fog reads `ceilDist[texHeight - y]` | y = 0 with `drawStart[x] > 0` reads `ceilDist[540]`, one past the table; every other ceiling row reads one row off the row that `drawFloor` textured | `ceilDist[texHeight - 1 - y]`, the entry the ceiling texture at row y used | high, not executed | LegacyFloor.AsWrittenReadsPastTable | LegacyFloor.FogMatchesTexture |
| src/raycaster.cpp:1231-1235 | the left clip scan runs to `drawEndX + 1` and reads `wallDist[testX]` | a sprite at depth 2 behind walls at distance 1 whose range reaches column 959 reads `wallDist[960]`, past the buffer | scan only up to `drawEndX` and start past it when nothing is visible | high, not executed | Sprites.HiddenSpriteReadsPastBuffer | Sprites.ClipColumns |
