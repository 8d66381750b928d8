/** The sprite pass of the current engine (`drawSprites`, src/raycaster.cpp): sprites are
    ordered farthest first by sorting (squared distance, index) pairs and reading them back in
    reverse; each sprite in front of the camera is projected onto the screen and clipped
    horizontally to the columns where it is nearer than the wall, and optionally fogged. */
module Sprites {
  import opened ExtReal
  import opened Wrappers
  import opened Camera
  import opened Raycast
  import opened WallStrip
  import opened Fog

  /** `Game_Sprite` (src/game_sprites.h): position and size in the world, texture, animation
      frame, the texture's image rectangle and three flags. */
  datatype GameSprite = GameSprite(worldX: real, worldY: real, width: real, height: real,
                                   texID: int, frame: int, totalFrames: int, image: Rect,
                                   visible: bool, solid: bool, pickup: bool)

  /** A `std::pair<double, int>` of a squared distance and a sprite index. */
  datatype Pair = Pair(dist: real, index: int)

  // ----- ordering -----

  /** `std::pair`'s `<`: by distance first, then by index. */
  predicate PairLess(a: Pair, b: Pair)
  {
    a.dist < b.dist || (a.dist == b.dist && a.index < b.index)
  }

  /** The squared distance from the player to a sprite. */
  function SquaredDistance(posX: real, posY: real, s: GameSprite): (d: real)
    ensures d >= 0.0
  {
    var dx, dy := posX - s.worldX, posY - s.worldY;
    assert dx * dx >= 0.0 && dy * dy >= 0.0;
    dx * dx + dy * dy
  }

  /** The pairs the first two loops build: sprite i's squared distance paired with i. */
  function InitialPairs(sprites: seq<GameSprite>, posX: real, posY: real): seq<Pair>
  {
    seq(|sprites|, i requires 0 <= i < |sprites| => Pair(SquaredDistance(posX, posY, sprites[i]), i))
  }

  /** Insertion of one pair before the first element that is not smaller. */
  function Insert(x: Pair, s: seq<Pair>): seq<Pair>
  {
    if |s| == 0 || !PairLess(s[0], x) then [x] + s else [s[0]] + Insert(x, s[1..])
  }

  /** Ascending order under `PairLess`: what `std::sort` produces on pairwise distinct pairs,
      for which the sorted order is unique. */
  function SortPairs(s: seq<Pair>): seq<Pair>
  {
    if |s| == 0 then [] else Insert(s[0], SortPairs(s[1..]))
  }

  predicate Increasing(s: seq<Pair>)
  {
    forall i, j | 0 <= i < j < |s| :: PairLess(s[i], s[j])
  }

  predicate Distinct(s: seq<Pair>)
  {
    forall i, j | 0 <= i < j < |s| :: s[i] != s[j]
  }

  lemma {:induction false} InsertPermutes(x: Pair, s: seq<Pair>)
    ensures multiset(Insert(x, s)) == multiset{x} + multiset(s)
  {
    if |s| == 0 || !PairLess(s[0], x) {
    } else {
      InsertPermutes(x, s[1..]);
      assert s == [s[0]] + s[1..];
    }
  }

  lemma {:induction false} InsertIncreasing(x: Pair, s: seq<Pair>)
    requires Increasing(s) && x !in s
    ensures Increasing(Insert(x, s))
  {
    if |s| == 0 || !PairLess(s[0], x) {
      var r := [x] + s;
      forall i, j | 0 <= i < j < |r|
        ensures PairLess(r[i], r[j])
      {
        if i == 0 {
          assert r[j] == s[j - 1];
          assert PairLess(x, s[0]);
          if j > 1 {
            assert PairLess(s[0], s[j - 1]);
          }
        }
      }
    } else {
      InsertIncreasing(x, s[1..]);
      InsertPermutes(x, s[1..]);
      var t := Insert(x, s[1..]);
      var r := [s[0]] + t;
      forall i, j | 0 <= i < j < |r|
        ensures PairLess(r[i], r[j])
      {
        if i == 0 {
          assert r[j] == t[j - 1];
          assert t[j - 1] in multiset(t);
          if t[j - 1] != x {
            assert t[j - 1] in multiset(s[1..]);
            var k :| 0 <= k < |s[1..]| && s[1..][k] == t[j - 1];
            assert s[k + 1] == t[j - 1];
          }
        }
      }
    }
  }

  /** The sort keeps the pairs, with their multiplicities. */
  lemma {:induction false} SortPermutes(s: seq<Pair>)
    ensures multiset(SortPairs(s)) == multiset(s)
  {
    if |s| > 0 {
      SortPermutes(s[1..]);
      InsertPermutes(s[0], SortPairs(s[1..]));
      assert s == [s[0]] + s[1..];
    }
  }

  /** Pairwise distinct pairs come out in strictly ascending order. */
  lemma {:induction false} SortIncreasing(s: seq<Pair>)
    requires Distinct(s)
    ensures Increasing(SortPairs(s))
  {
    if |s| > 0 {
      assert Distinct(s[1..]);
      SortIncreasing(s[1..]);
      SortPermutes(s[1..]);
      assert forall k | 0 <= k < |s[1..]| :: s[1..][k] != s[0];
      assert s[0] !in multiset(s[1..]);
      InsertIncreasing(s[0], SortPairs(s[1..]));
    }
  }

  /** The order `drawSprites` leaves in `spriteDistances` and `spriteOrder`: the sorted pairs
      read from the back. */
  function SpriteOrder(sprites: seq<GameSprite>, posX: real, posY: real): seq<Pair>
  {
    var sorted := SortPairs(InitialPairs(sprites, posX, posY));
    seq(|sorted|, i requires 0 <= i < |sorted| => sorted[|sorted| - 1 - i])
  }

  /** The indices of a sequence of pairs. */
  function Indices(o: seq<Pair>): seq<int>
  {
    seq(|o|, i requires 0 <= i < |o| => o[i].index)
  }

  /** The sorted pairs are the initial pairs in strictly ascending order. */
  lemma SortedInitialPairs(sprites: seq<GameSprite>, posX: real, posY: real)
    ensures var ps, sorted := InitialPairs(sprites, posX, posY), SortPairs(InitialPairs(sprites, posX, posY));
      |sorted| == |sprites| && Increasing(sorted) &&
      (forall p | p in sorted :: 0 <= p.index < |sprites| && p == ps[p.index]) &&
      (forall k | 0 <= k < |sprites| :: ps[k] in sorted)
  {
    var ps := InitialPairs(sprites, posX, posY);
    var sorted := SortPairs(ps);
    assert Distinct(ps);
    SortPermutes(ps);
    SortIncreasing(ps);
    assert |sorted| == |sprites| by {
      assert |multiset(sorted)| == |multiset(ps)|;
    }
    forall p | p in sorted
      ensures 0 <= p.index < |sprites| && p == ps[p.index]
    {
      assert p in multiset(ps);
    }
    forall k | 0 <= k < |sprites|
      ensures ps[k] in sorted
    {
      assert ps[k] in multiset(sorted);
    }
  }

  /** After the sort and the reversal, each entry pairs a sprite index with that sprite's
      squared distance, and every sprite index appears. */
  lemma SpriteOrderCoversSprites(sprites: seq<GameSprite>, posX: real, posY: real)
    ensures var o := SpriteOrder(sprites, posX, posY);
      |o| == |sprites| &&
      (forall i | 0 <= i < |o| :: 0 <= o[i].index < |sprites| &&
         o[i].dist == SquaredDistance(posX, posY, sprites[o[i].index])) &&
      (forall k | 0 <= k < |sprites| :: k in Indices(o))
  {
    SortedInitialPairs(sprites, posX, posY);
    var ps := InitialPairs(sprites, posX, posY);
    var sorted := SortPairs(ps);
    var o := SpriteOrder(sprites, posX, posY);
    var n := |sprites|;
    forall i | 0 <= i < n
      ensures 0 <= o[i].index < n && o[i].dist == SquaredDistance(posX, posY, sprites[o[i].index])
    {
      assert o[i] == sorted[n - 1 - i];
      assert o[i] in sorted;
    }
    forall k | 0 <= k < n
      ensures k in Indices(o)
    {
      var m :| 0 <= m < n && sorted[m] == ps[k];
      assert o[n - 1 - m] == sorted[m];
      assert Indices(o)[n - 1 - m] == k;
    }
  }

  /** After the sort and the reversal, no index appears twice, the distances never increase,
      and equal distances list the higher index first. */
  lemma SpriteOrderFarthestFirst(sprites: seq<GameSprite>, posX: real, posY: real)
    ensures var o := SpriteOrder(sprites, posX, posY);
      (forall i, j | 0 <= i < j < |o| :: o[i].index != o[j].index) &&
      (forall i, j | 0 <= i < j < |o| :: o[j].dist <= o[i].dist) &&
      (forall i, j | 0 <= i < j < |o| && o[i].dist == o[j].dist :: o[j].index < o[i].index)
  {
    SortedInitialPairs(sprites, posX, posY);
    var ps := InitialPairs(sprites, posX, posY);
    var sorted := SortPairs(ps);
    var o := SpriteOrder(sprites, posX, posY);
    var n := |sprites|;
    forall i, j | 0 <= i < j < n
      ensures o[i].index != o[j].index
      ensures o[j].dist <= o[i].dist
      ensures o[i].dist == o[j].dist ==> o[j].index < o[i].index
    {
      assert o[i] == sorted[n - 1 - i] && o[j] == sorted[n - 1 - j];
      assert PairLess(sorted[n - 1 - j], sorted[n - 1 - i]);
      assert o[i] in sorted && o[j] in sorted;
    }
  }

  /** The first loop of `drawSprites`: each sprite's squared distance and its own index. */
  method FillDistances(sprites: seq<GameSprite>, posX: real, posY: real,
                       spriteDistances: array<real>, spriteOrder: array<int>)
    requires |sprites| <= spriteDistances.Length && |sprites| <= spriteOrder.Length
    modifies spriteDistances, spriteOrder
    ensures forall k | 0 <= k < |sprites| ::
      spriteDistances[k] == SquaredDistance(posX, posY, sprites[k]) && spriteOrder[k] == k
    ensures forall k | |sprites| <= k < spriteDistances.Length :: spriteDistances[k] == old(spriteDistances[k])
    ensures forall k | |sprites| <= k < spriteOrder.Length :: spriteOrder[k] == old(spriteOrder[k])
  {
    var i := 0;
    while i != |sprites|
      invariant 0 <= i <= |sprites|
      invariant forall k | 0 <= k < i ::
        spriteDistances[k] == SquaredDistance(posX, posY, sprites[k]) && spriteOrder[k] == k
      invariant forall k | |sprites| <= k < spriteDistances.Length :: spriteDistances[k] == old(spriteDistances[k])
      invariant forall k | |sprites| <= k < spriteOrder.Length :: spriteOrder[k] == old(spriteOrder[k])
    {
      spriteDistances[i] := SquaredDistance(posX, posY, sprites[i]);
      spriteOrder[i] := i;
      i := i + 1;
    }
  }

  /** The second loop: the first `amount` entries of both arrays, paired. */
  method PairUp(spriteDistances: array<real>, spriteOrder: array<int>, amount: int) returns (ps: seq<Pair>)
    requires 0 <= amount <= spriteDistances.Length && amount <= spriteOrder.Length
    ensures |ps| == amount
    ensures forall k | 0 <= k < amount :: ps[k] == Pair(spriteDistances[k], spriteOrder[k])
  {
    ps := [];
    var i := 0;
    while i < amount
      invariant 0 <= i <= amount && |ps| == i
      invariant forall k | 0 <= k < i :: ps[k] == Pair(spriteDistances[k], spriteOrder[k])
    {
      ps := ps + [Pair(spriteDistances[i], spriteOrder[i])];
      i := i + 1;
    }
  }

  /** The fourth loop: the sorted pairs copied back from the last to the first. */
  method RestoreReversed(sorted: seq<Pair>, spriteDistances: array<real>, spriteOrder: array<int>)
    requires |sorted| <= spriteDistances.Length && |sorted| <= spriteOrder.Length
    modifies spriteDistances, spriteOrder
    ensures forall k | 0 <= k < |sorted| ::
      spriteDistances[k] == sorted[|sorted| - k - 1].dist && spriteOrder[k] == sorted[|sorted| - k - 1].index
    ensures forall k | |sorted| <= k < spriteDistances.Length :: spriteDistances[k] == old(spriteDistances[k])
    ensures forall k | |sorted| <= k < spriteOrder.Length :: spriteOrder[k] == old(spriteOrder[k])
  {
    var amount := |sorted|;
    var i := 0;
    while i < amount
      invariant 0 <= i <= amount
      invariant forall k | 0 <= k < i ::
        spriteDistances[k] == sorted[amount - k - 1].dist && spriteOrder[k] == sorted[amount - k - 1].index
      invariant forall k | amount <= k < spriteDistances.Length :: spriteDistances[k] == old(spriteDistances[k])
      invariant forall k | amount <= k < spriteOrder.Length :: spriteOrder[k] == old(spriteOrder[k])
    {
      spriteDistances[i] := sorted[amount - i - 1].dist;
      spriteOrder[i] := sorted[amount - i - 1].index;
      i := i + 1;
    }
  }

  /** The ordering part of `drawSprites`: fill both arrays, pair them up, sort the pairs and
      copy them back in reverse, leaving the farthest-first order in the arrays. */
  method SortSprites(sprites: seq<GameSprite>, posX: real, posY: real,
                     spriteDistances: array<real>, spriteOrder: array<int>)
    requires |sprites| <= spriteDistances.Length && |sprites| <= spriteOrder.Length
    modifies spriteDistances, spriteOrder
    ensures var o := SpriteOrder(sprites, posX, posY);
      |o| == |sprites| &&
      forall i | 0 <= i < |sprites| :: spriteDistances[i] == o[i].dist && spriteOrder[i] == o[i].index
    ensures forall i | |sprites| <= i < spriteDistances.Length :: spriteDistances[i] == old(spriteDistances[i])
    ensures forall i | |sprites| <= i < spriteOrder.Length :: spriteOrder[i] == old(spriteOrder[i])
  {
    FillDistances(sprites, posX, posY, spriteDistances, spriteOrder);
    var amount := |sprites|;
    var sortSpritePair := PairUp(spriteDistances, spriteOrder, amount);
    assert sortSpritePair == InitialPairs(sprites, posX, posY);
    sortSpritePair := SortPairs(sortSpritePair);
    SortedInitialPairs(sprites, posX, posY);
    RestoreReversed(sortSpritePair, spriteDistances, spriteOrder);
  }

  // ----- projection -----

  /** `planeX * dirY - dirX * planeY`, the determinant of the camera matrix. */
  function Det(v: View): real
  {
    v.planeX * v.dirY - v.dirX * v.planeY
  }

  /** The sprite's position relative to the player, times the inverse camera matrix: its
      coordinate along the camera plane ... */
  function TransformX(v: View, s: GameSprite): real
    requires Det(v) != 0.0
  {
    var invDet := 1.0 / Det(v);
    invDet * (v.dirY * (s.worldX - v.posX) - v.dirX * (s.worldY - v.posY))
  }

  /** ... and its depth along the view direction. */
  function TransformY(v: View, s: GameSprite): real
    requires Det(v) != 0.0
  {
    var invDet := 1.0 / Det(v);
    invDet * (-v.planeY * (s.worldX - v.posX) + v.planeX * (s.worldY - v.posY))
  }

  /** The two transformed values are the sprite's coordinates in the camera's basis: its
      offset from the player is `transformX * plane + transformY * dir`. */
  lemma CameraCoordinates(v: View, s: GameSprite)
    requires Det(v) != 0.0
    ensures s.worldX - v.posX == TransformX(v, s) * v.planeX + TransformY(v, s) * v.dirX
    ensures s.worldY - v.posY == TransformX(v, s) * v.planeY + TransformY(v, s) * v.dirY
  {
    InverseMatrix(v.planeX, v.dirX, v.planeY, v.dirY, s.worldX - v.posX, s.worldY - v.posY, 1.0 / Det(v));
  }

  lemma InverseMatrix(a: real, b: real, c: real, d: real, x: real, y: real, i: real)
    requires a * d - b * c != 0.0 && i == 1.0 / (a * d - b * c)
    ensures x == (i * (d * x - b * y)) * a + (i * (-c * x + a * y)) * b
    ensures y == (i * (d * x - b * y)) * c + (i * (-c * x + a * y)) * d
  {
    var det := a * d - b * c;
    assert i * det == 1.0;
    assert (i * (d * x - b * y)) * a + (i * (-c * x + a * y)) * b == i * (det * x);
    assert (i * (d * x - b * y)) * c + (i * (-c * x + a * y)) * d == i * (det * y);
  }

  /** `abs(int(gscreenHeight / transformY))`, the sprite's scale in pixels; for a positive
      depth the `abs` changes nothing. */
  function Scale(transformY: real): (n: int)
    requires transformY > 0.0
    ensures n >= 0
  {
    var q := Trunc(ScreenHeight as real / transformY);
    if q < 0 then -q else q
  }

  /** A sprite at depth d is scaled exactly like a wall strip at distance d. */
  lemma ScaleIsWallHeight(transformY: real)
    requires transformY > 0.0
    ensures Scale(transformY) == LineHeight(transformY)
  {
    assert ScreenHeight as real * VFov == ScreenHeight as real;
  }

  /** `int((gscreenWidth / 2) * (1 + transformX / transformY))`, the column of the sprite's
      centre. */
  function ScreenX(transformX: real, transformY: real): int
    requires transformY > 0.0
  {
    Trunc((ScreenWidth / 2) as real * (1.0 + transformX / transformY))
  }

  /** Where a sprite lands on screen: its destination rectangle and its horizontal extent
      clamped to the screen. */
  datatype Placement = Placement(dest: Rect, startX: int, endX: int)

  function Place(transformX: real, transformY: real, vertHeight: real, vertLook: real, s: GameSprite): Placement
    requires transformY > 0.0
  {
    var scale := Scale(transformY);
    var drawEndY := Trunc((scale / 2 + ScreenHeight / 2) as real + vertHeight * scale as real + vertLook);
    var spriteHeight := Trunc(scale as real * s.height);
    var drawStartY := drawEndY - spriteHeight;
    var spriteWidth := Trunc(scale as real * s.width);
    var drawEndX := CDiv(spriteWidth, 2) + ScreenX(transformX, transformY);
    var drawStartX := drawEndX - spriteWidth;
    Placement(Rect(drawStartX, drawStartY, drawEndX - drawStartX, drawEndY - drawStartY),
              if drawStartX < 0 then 0 else drawStartX,
              if drawEndX >= ScreenWidth then ScreenWidth - 1 else drawEndX)
  }

  /** For a sprite of non-negative width, the destination has non-negative width and holds
      the centre column, and the clamped extent is the destination's columns cut to the
      screen. */
  lemma PlaceMeaning(transformX: real, transformY: real, vertHeight: real, vertLook: real, s: GameSprite)
    requires transformY > 0.0 && s.width >= 0.0
    ensures var p := Place(transformX, transformY, vertHeight, vertLook, s);
      p.dest.w >= 0 &&
      p.dest.x <= ScreenX(transformX, transformY) <= p.dest.x + p.dest.w &&
      p.startX == MaxInt(p.dest.x, 0) && p.endX == MinInt(p.dest.x + p.dest.w, ScreenWidth - 1)
  {
    var scale := Scale(transformY);
    NonNegativeScaled(scale, s.width);
  }

  lemma NonNegativeScaled(n: int, f: real)
    requires n >= 0 && f >= 0.0
    ensures Trunc(n as real * f) >= 0
  {
    assert n as real * f >= 0.0;
  }

  // ----- horizontal clipping -----

  /** Column c of the wall buffer is farther than the sprite, so the sprite shows there. */
  predicate Visible(wallDist: seq<Ext>, transformY: real, c: int)
  {
    0 <= c < |wallDist| && Lt(Fin(transformY), wallDist[c])
  }

  /** Where the left-to-right scan stops: the first column from c on, up to `endX`, where the
      sprite shows; `endX + 1` if there is none; c itself if the scan does not start. */
  function FirstVisible(wallDist: seq<Ext>, transformY: real, c: int, endX: int): (r: int)
    requires 0 <= c && endX < |wallDist|
    ensures r >= c
    decreases endX - c
  {
    if c > endX then c
    else if Visible(wallDist, transformY, c) then c
    else FirstVisible(wallDist, transformY, c + 1, endX)
  }

  /** The width the right-to-left scan from column c down to `clipX` leaves: the distance
      from `clipX` to the last column where the sprite shows, 0 if the scan reaches `clipX`,
      and `w` unchanged if the scan does not start. */
  function LastVisible(wallDist: seq<Ext>, transformY: real, clipX: int, c: int, w: int): int
    requires 0 <= clipX && c < |wallDist|
    decreases c
  {
    if c < clipX then w
    else if Visible(wallDist, transformY, c) || c == clipX then c - clipX
    else LastVisible(wallDist, transformY, clipX, c - 1, w)
  }

  lemma {:induction false} FirstVisibleMeaning(wallDist: seq<Ext>, transformY: real, c: int, endX: int)
    requires 0 <= c && endX < |wallDist|
    ensures var r := FirstVisible(wallDist, transformY, c, endX);
      r >= c && (c <= endX + 1 ==> r <= endX + 1) && (c > endX ==> r == c) &&
      (r <= endX ==> Visible(wallDist, transformY, r)) &&
      (forall k | c <= k < r && k <= endX :: !Visible(wallDist, transformY, k))
    decreases endX - c
  {
    if c <= endX && !Visible(wallDist, transformY, c) {
      FirstVisibleMeaning(wallDist, transformY, c + 1, endX);
    }
  }

  lemma {:induction false} LastVisibleMeaning(wallDist: seq<Ext>, transformY: real, clipX: int, c: int, w: int)
    requires 0 <= clipX && c < |wallDist|
    ensures var r := LastVisible(wallDist, transformY, clipX, c, w);
      (c < clipX ==> r == w) &&
      (clipX <= c ==> 0 <= r <= c - clipX && (Visible(wallDist, transformY, clipX + r) || r == 0) &&
                      forall k | clipX + r < k <= c :: !Visible(wallDist, transformY, k))
    decreases c
  {
    if clipX < c && !Visible(wallDist, transformY, c) {
      LastVisibleMeaning(wallDist, transformY, clipX, c - 1, w);
    }
  }

  /** The two scans clip the sprite to the smallest span of columns holding every column of
      `[startX, endX]` where it shows; when it shows nowhere the left edge ends past `endX`
      (or stays at `startX` if the scan does not start) and the width stays as it was. */
  lemma ClipSpansVisibleColumns(wallDist: seq<Ext>, transformY: real, startX: int, endX: int)
    requires 0 <= startX && endX < |wallDist|
    ensures var x := FirstVisible(wallDist, transformY, startX, endX);
      var w := LastVisible(wallDist, transformY, x, endX, endX - startX);
      ((exists k :: startX <= k <= endX && Visible(wallDist, transformY, k)) ==>
         startX <= x <= x + w <= endX &&
         Visible(wallDist, transformY, x) && Visible(wallDist, transformY, x + w) &&
         forall k | startX <= k <= endX && Visible(wallDist, transformY, k) :: x <= k <= x + w) &&
      ((forall k | startX <= k <= endX :: !Visible(wallDist, transformY, k)) ==>
         x == (if startX <= endX + 1 then endX + 1 else startX) && w == endX - startX)
  {
    var x := FirstVisible(wallDist, transformY, startX, endX);
    FirstVisibleMeaning(wallDist, transformY, startX, endX);
    LastVisibleMeaning(wallDist, transformY, x, endX, endX - startX);
  }

  /** The two clipping loops of `drawSprites`, with the left scan's test kept inside
      `[startX, endX]`. */
  method ClipColumns(wallDist: array<Ext>, transformY: real, startX: int, endX: int) returns (x: int, w: int)
    requires 0 <= startX && endX < wallDist.Length
    ensures x == FirstVisible(wallDist[..], transformY, startX, endX)
    ensures w == LastVisible(wallDist[..], transformY, x, endX, endX - startX)
  {
    x, w := startX, endX - startX;
    var testX := startX;
    while testX <= endX + 1
      invariant testX >= startX
      invariant testX <= endX + 1 ==>
        FirstVisible(wallDist[..], transformY, startX, endX) == FirstVisible(wallDist[..], transformY, testX, endX)
      invariant testX > endX + 1 ==> x == FirstVisible(wallDist[..], transformY, startX, endX)
      decreases endX + 1 - testX
    {
      x := testX;
      if testX <= endX && Lt(Fin(transformY), wallDist[testX]) {
        break;
      }
      testX := testX + 1;
    }
    testX := endX;
    while testX >= x
      invariant testX <= endX
      invariant testX >= x ==>
        LastVisible(wallDist[..], transformY, x, endX, endX - startX) == LastVisible(wallDist[..], transformY, x, testX, endX - startX)
      invariant testX < x ==> w == LastVisible(wallDist[..], transformY, x, endX, endX - startX)
      decreases testX - x
    {
      w := testX - x;
      if Lt(Fin(transformY), wallDist[testX]) {
        break;
      }
      testX := testX - 1;
    }
  }

  /** The left scan as written: it tests columns up to `endX + 1` inclusive, so when the
      sprite shows in none of them it reads the wall buffer one past `endX`.  `None` is a
      read outside the buffer. */
  function LeftScanAsWritten(wallDist: seq<Ext>, transformY: real, c: int, endX: int): Option<int>
    requires 0 <= c
    decreases endX + 1 - c
  {
    if c > endX + 1 then Some(c)
    else if c >= |wallDist| then None
    else if Lt(Fin(transformY), wallDist[c]) || c == endX + 1 then Some(c)
    else LeftScanAsWritten(wallDist, transformY, c + 1, endX)
  }

  /** Where `endX + 1` is still inside the buffer the scan as written stops where the
      corrected one does. */
  lemma {:induction false} AsWrittenAgreesInside(wallDist: seq<Ext>, transformY: real, c: int, endX: int)
    requires 0 <= c && endX + 1 < |wallDist|
    ensures LeftScanAsWritten(wallDist, transformY, c, endX) == Some(FirstVisible(wallDist, transformY, c, endX))
    decreases endX + 1 - c
  {
    if c <= endX && !Visible(wallDist, transformY, c) {
      AsWrittenAgreesInside(wallDist, transformY, c + 1, endX);
    }
  }

  /** With `endX` at the last column and the sprite hidden in every column the scan tests,
      the scan as written reads past the end of the buffer. */
  lemma {:induction false} AsWrittenReadsPastBuffer(wallDist: seq<Ext>, transformY: real, c: int, endX: int)
    requires 0 <= c <= endX + 1 == |wallDist|
    requires forall k | c <= k <= endX :: !Visible(wallDist, transformY, k)
    ensures LeftScanAsWritten(wallDist, transformY, c, endX) == None
    decreases endX + 1 - c
  {
    if c <= endX {
      assert !Visible(wallDist, transformY, c);
      AsWrittenReadsPastBuffer(wallDist, transformY, c + 1, endX);
    }
  }

  /** A sprite at depth 2 reaching the right edge of the screen, behind walls at distance 1
      in every column: the left scan as written reads `wallDist[960]`. */
  lemma HiddenSpriteReadsPastBuffer()
    ensures LeftScanAsWritten(seq(ScreenWidth, _ => Fin(1.0)), 2.0, 0, ScreenWidth - 1) == None
  {
    AsWrittenReadsPastBuffer(seq(ScreenWidth, _ => Fin(1.0)), 2.0, 0, ScreenWidth - 1);
  }

  // ----- vertical clipping and fog -----

  /** The two vertical clamps: the top is moved down to row 0, and a rectangle reaching the
      bottom row is cut to end one row above it. */
  function ClipY(r: Rect): (c: Rect)
    ensures c.x == r.x && c.w == r.w
    ensures c.y >= 0 && c.y + c.h < ScreenHeight
    ensures r.y >= 0 && r.y + r.h < ScreenHeight ==> c == r
  {
    var y := if r.y < 0 then 0 else r.y;
    var h := if y + r.h >= ScreenHeight then ScreenHeight - y - 1 else r.h;
    Rect(r.x, y, r.w, h)
  }

  /** The column whose `brightSin` fogs the sprite: the destination's centre, clamped to the
      screen. */
  function ShadowX(dest: Rect): (x: int)
    ensures 0 <= x < ScreenWidth
  {
    MinInt(MaxInt(dest.x + CDiv(dest.w, 2), 0), ScreenWidth - 1)
  }

  /** `(fogMultiplier * brightSin) * t * t` for the depth t rescaled by `90 / hFOV`. */
  function SpriteFogDistance(transformY: real, bright: real, s: Settings): real
    requires s.hFOV > 0.0
  {
    var t := transformY * (90.0 / s.hFOV);
    s.multiplier * bright * t * t
  }

  /** The sprite's brightness: the wall clamp applied to the rescaled depth, then clamped once
      more between `worldFog` and `playerFog`. */
  function SpriteBrightness(transformY: real, bright: real, s: Settings): Ext
    requires s.hFOV > 0.0
  {
    MaxStd(MinStd(Clamped(Fin(SpriteFogDistance(transformY, bright, s)), s), Fin(s.player)), Fin(s.world))
  }

  /** The second clamp never changes a brightness the first formula produced. */
  lemma SecondClampRedundant(x: Ext, s: Settings)
    requires ValidSettings(s)
    ensures MaxStd(MinStd(Clamped(x, s), Fin(s.player)), Fin(s.world)) == Clamped(x, s)
  {
  }

  lemma Regroup(c: real, y: real, k: real, t: real) returns (q: real)
    requires t == y * k
    ensures q == c * t * t && q == c * (y * y * k * k)
  {
    q := c * t * t;
  }

  /** The wall formula's scaled distance at the sprite's depth is the sprite's. */
  lemma ScaledDistancesAgree(transformY: real, bright: real, s: Settings)
    requires s.hFOV > 0.0
    ensures Mul(Fin(s.multiplier * bright), FogDistance(Fin(transformY), s.hFOV)) ==
            Fin(SpriteFogDistance(transformY, bright, s))
  {
    var k := 90.0 / s.hFOV;
    var r := Regroup(s.multiplier * bright, transformY, k, transformY * k);
    assert r == SpriteFogDistance(transformY, bright, s);
    assert FogDistance(Fin(transformY), s.hFOV) == Fin(transformY * transformY * k * k);
  }

  /** A sprite is fogged exactly like a wall at the same depth in the same column. */
  lemma SpriteFogMatchesWalls(transformY: real, bright: real, s: Settings)
    requires ValidSettings(s)
    ensures SpriteBrightness(transformY, bright, s) == Brightness(Fin(transformY), bright, s)
  {
    ScaledDistancesAgree(transformY, bright, s);
    SecondClampRedundant(Fin(SpriteFogDistance(transformY, bright, s)), s);
  }

  // ----- drawing -----

  /** What is drawn for one sprite: which sprite, its clip and destination rectangles, and
      the alpha of its fog mask when fog is on. */
  datatype SpriteDraw = SpriteDraw(sprite: int, clip: Rect, dest: Rect, fogAlpha: Option<int>)

  /** The screen state the sprite pass reads. */
  datatype Scene = Scene(view: View, vertHeight: real, vertLook: real, wallDist: seq<Ext>,
                         brightSin: seq<real>, fog: Option<Settings>)

  predicate ValidScene(sc: Scene)
  {
    Det(sc.view) != 0.0 && |sc.wallDist| == ScreenWidth && |sc.brightSin| == ScreenWidth &&
    (sc.fog.Some? ==> ValidSettings(sc.fog.value))
  }

  /** The draw call for sprite i, or `None` when it is behind the camera or its clip
      rectangle is off screen. */
  function Command(sprites: seq<GameSprite>, i: int, sc: Scene): Option<SpriteDraw>
    requires 0 <= i < |sprites| && ValidScene(sc)
  {
    var s := sprites[i];
    var transformY := TransformY(sc.view, s);
    if transformY <= 0.0 then None
    else
      var p := Place(TransformX(sc.view, s), transformY, sc.vertHeight, sc.vertLook, s);
      var x := FirstVisible(sc.wallDist, transformY, p.startX, p.endX);
      var w := LastVisible(sc.wallDist, transformY, x, p.endX, p.endX - p.startX);
      var clip := ClipY(Rect(x, p.dest.y, w, p.dest.h));
      if clip.x + clip.w >= 0 && clip.x < ScreenWidth then
        Some(SpriteDraw(i, clip, p.dest,
          match sc.fog
          case None => None
          case Some(f) => Some(FogAlpha(f.world, SpriteBrightness(transformY, sc.brightSin[ShadowX(p.dest)], f)))))
      else None
  }

  /** A sprite that shows in at least one column of its clamped extent is drawn, clipped to
      exactly the span of columns where it shows. */
  lemma ShownSpriteIsDrawn(sprites: seq<GameSprite>, i: int, sc: Scene)
    requires 0 <= i < |sprites| && ValidScene(sc)
    requires TransformY(sc.view, sprites[i]) > 0.0
    requires var s := sprites[i];
      var p := Place(TransformX(sc.view, s), TransformY(sc.view, s), sc.vertHeight, sc.vertLook, s);
      exists k :: p.startX <= k <= p.endX && Visible(sc.wallDist, TransformY(sc.view, s), k)
    ensures var s := sprites[i];
      var tY := TransformY(sc.view, s);
      var p := Place(TransformX(sc.view, s), tY, sc.vertHeight, sc.vertLook, s);
      var r := Command(sprites, i, sc);
      r.Some? && r.value.sprite == i && r.value.dest == p.dest &&
      Visible(sc.wallDist, tY, r.value.clip.x) && Visible(sc.wallDist, tY, r.value.clip.x + r.value.clip.w) &&
      forall k | p.startX <= k <= p.endX && Visible(sc.wallDist, tY, k) ::
        r.value.clip.x <= k <= r.value.clip.x + r.value.clip.w
  {
    var s := sprites[i];
    var tY := TransformY(sc.view, s);
    var p := Place(TransformX(sc.view, s), tY, sc.vertHeight, sc.vertLook, s);
    ClipSpansVisibleColumns(sc.wallDist, tY, p.startX, p.endX);
  }

  /** A sprite of non-negative width hidden behind walls in every column of its extent
      draws nothing: no call is made, or the clip lies right of the destination. */
  lemma HiddenSpriteDrawsNothing(sprites: seq<GameSprite>, i: int, sc: Scene)
    requires 0 <= i < |sprites| && ValidScene(sc) && sprites[i].width >= 0.0
    requires TransformY(sc.view, sprites[i]) > 0.0
    requires var s := sprites[i];
      var p := Place(TransformX(sc.view, s), TransformY(sc.view, s), sc.vertHeight, sc.vertLook, s);
      forall k | p.startX <= k <= p.endX :: !Visible(sc.wallDist, TransformY(sc.view, s), k)
    ensures var r := Command(sprites, i, sc);
      r.None? || r.value.clip.x >= r.value.dest.x + r.value.dest.w
  {
    var s := sprites[i];
    var tY := TransformY(sc.view, s);
    var p := Place(TransformX(sc.view, s), tY, sc.vertHeight, sc.vertLook, s);
    ClipSpansVisibleColumns(sc.wallDist, tY, p.startX, p.endX);
    PlaceMeaning(TransformX(sc.view, s), tY, sc.vertHeight, sc.vertLook, s);
  }

  /** A draw call is for the sprite asked for, in front of the camera, with its clip rectangle
      inside the screen rows and its left edge on screen. */
  lemma CommandFacts(sprites: seq<GameSprite>, i: int, sc: Scene)
    requires 0 <= i < |sprites| && ValidScene(sc)
    ensures var r := Command(sprites, i, sc);
      r.Some? ==> (r.value.sprite == i && TransformY(sc.view, sprites[i]) > 0.0 &&
                   0 <= r.value.clip.x < ScreenWidth && 0 <= r.value.clip.y &&
                   r.value.clip.y + r.value.clip.h < ScreenHeight)
  {
    var s := sprites[i];
    var tY := TransformY(sc.view, s);
    if tY > 0.0 {
      var p := Place(TransformX(sc.view, s), tY, sc.vertHeight, sc.vertLook, s);
      FirstVisibleMeaning(sc.wallDist, tY, p.startX, p.endX);
    }
  }

  /** The draw calls for the sprites in the order given, skipping those not drawn. */
  function DrawsOf(sprites: seq<GameSprite>, order: seq<Pair>, sc: Scene): seq<SpriteDraw>
    requires ValidScene(sc)
    requires forall k | 0 <= k < |order| :: 0 <= order[k].index < |sprites|
  {
    if |order| == 0 then []
    else
      var last := order[|order| - 1];
      DrawsOf(sprites, order[..|order| - 1], sc) +
      match Command(sprites, last.index, sc)
      case None => []
      case Some(d) => [d]
  }

  /** Every call drawn for an order is for a sprite of that order, in front of the camera,
      with its clip rectangle inside the screen rows and its left edge on screen. */
  lemma {:induction false} DrawsAreOnScreen(sprites: seq<GameSprite>, order: seq<Pair>, sc: Scene)
    requires ValidScene(sc)
    requires forall k | 0 <= k < |order| :: 0 <= order[k].index < |sprites|
    ensures forall d | d in DrawsOf(sprites, order, sc) ::
      0 <= d.sprite < |sprites| && TransformY(sc.view, sprites[d.sprite]) > 0.0 &&
      0 <= d.clip.x < ScreenWidth && 0 <= d.clip.y && d.clip.y + d.clip.h < ScreenHeight &&
      (exists k :: 0 <= k < |order| && order[k].index == d.sprite)
    decreases |order|
  {
    if |order| > 0 {
      var n := |order| - 1;
      var init := order[..n];
      DrawsAreOnScreen(sprites, init, sc);
      CommandFacts(sprites, order[n].index, sc);
      forall d | d in DrawsOf(sprites, order, sc)
        ensures exists k :: 0 <= k < |order| && order[k].index == d.sprite
      {
        if d in DrawsOf(sprites, init, sc) {
          var k :| 0 <= k < |init| && init[k].index == d.sprite;
          assert order[k] == init[k];
        } else {
          assert order[n].index == d.sprite;
        }
      }
    }
  }

  /** Drawing in a non-increasing order of distance draws farther sprites first (`dist` holds
      each sprite's distance). */
  lemma {:induction false} DrawsFarthestFirst(sprites: seq<GameSprite>, order: seq<Pair>, sc: Scene, dist: seq<real>)
    requires ValidScene(sc) && |dist| == |sprites|
    requires forall k | 0 <= k < |order| ::
      (0 <= order[k].index < |sprites| && order[k].dist == dist[order[k].index])
    requires forall i, j | 0 <= i < j < |order| :: order[j].dist <= order[i].dist
    ensures DrawsAreOf(sprites, DrawsOf(sprites, order, sc))
    ensures FarthestFirst(DrawsOf(sprites, order, sc), dist)
    decreases |order|
  {
    if |order| > 0 {
      var n := |order| - 1;
      var init := order[..n];
      DrawsFarthestFirst(sprites, init, sc, dist);
      var ds0 := DrawsOf(sprites, init, sc);
      var cmd := Command(sprites, order[n].index, sc);
      assert DrawsOf(sprites, order, sc) == ds0 + (if cmd.Some? then [cmd.value] else []);
      if cmd.Some? {
        var d := cmd.value;
        CommandFacts(sprites, order[n].index, sc);
        DrawsAreOnScreen(sprites, init, sc);
        forall i | 0 <= i < |ds0|
          ensures dist[d.sprite] <= dist[ds0[i].sprite]
        {
          assert ds0[i] in ds0;
          var k :| 0 <= k < |init| && init[k].index == ds0[i].sprite;
          assert order[k] == init[k];
        }
        AppendFarthestLast(ds0, d, dist);
      }
    }
  }

  /** Calls in non-increasing order of the distance of their sprites. */
  predicate FarthestFirst(ds: seq<SpriteDraw>, dist: seq<real>)
  {
    forall i, j | 0 <= i < j < |ds| ::
      0 <= ds[i].sprite < |dist| && 0 <= ds[j].sprite < |dist| && dist[ds[j].sprite] <= dist[ds[i].sprite]
  }

  /** Appending a call for a sprite no farther than any drawn before keeps the calls in
      non-increasing order of distance. */
  lemma AppendFarthestLast(ds: seq<SpriteDraw>, d: SpriteDraw, dist: seq<real>)
    requires 0 <= d.sprite < |dist| && forall i | 0 <= i < |ds| :: 0 <= ds[i].sprite < |dist|
    requires FarthestFirst(ds, dist)
    requires forall i | 0 <= i < |ds| :: dist[d.sprite] <= dist[ds[i].sprite]
    ensures FarthestFirst(ds + [d], dist)
  {
    var e := ds + [d];
    forall i, j | 0 <= i < j < |e|
      ensures 0 <= e[i].sprite < |dist| && 0 <= e[j].sprite < |dist| && dist[e[j].sprite] <= dist[e[i].sprite]
    {
      assert e[i] == ds[i];
      if j < |ds| {
        assert e[j] == ds[j];
      }
    }
  }

  /** Every call names a sprite of the list. */
  predicate DrawsAreOf(sprites: seq<GameSprite>, ds: seq<SpriteDraw>)
  {
    forall i | 0 <= i < |ds| :: 0 <= ds[i].sprite < |sprites|
  }

  /** Sprites are drawn farthest first, each only when in front of the camera, with its clip
      rectangle inside the screen rows and its left edge on screen. */
  lemma SpritesDrawnFarthestFirst(sprites: seq<GameSprite>, sc: Scene)
    requires ValidScene(sc)
    ensures var o := SpriteOrder(sprites, sc.view.posX, sc.view.posY);
      |o| == |sprites| && (forall k | 0 <= k < |o| :: 0 <= o[k].index < |sprites|) &&
      var ds := DrawsOf(sprites, o, sc);
      (forall d | d in ds :: 0 <= d.sprite < |sprites| && TransformY(sc.view, sprites[d.sprite]) > 0.0 &&
         0 <= d.clip.x < ScreenWidth && 0 <= d.clip.y && d.clip.y + d.clip.h < ScreenHeight) &&
      (forall i, j | 0 <= i < j < |ds| ::
         SquaredDistance(sc.view.posX, sc.view.posY, sprites[ds[j].sprite]) <=
         SquaredDistance(sc.view.posX, sc.view.posY, sprites[ds[i].sprite]))
  {
    SpriteOrderCoversSprites(sprites, sc.view.posX, sc.view.posY);
    SpriteOrderFarthestFirst(sprites, sc.view.posX, sc.view.posY);
    DrawsAreOnScreen(sprites, SpriteOrder(sprites, sc.view.posX, sc.view.posY), sc);
    var dist := seq(|sprites|, i requires 0 <= i < |sprites| => SquaredDistance(sc.view.posX, sc.view.posY, sprites[i]));
    DrawsFarthestFirst(sprites, SpriteOrder(sprites, sc.view.posX, sc.view.posY), sc, dist);
  }

  /** The body of the drawing loop for sprite i: cull, place, clip, and fog. */
  method DrawOne(sprites: seq<GameSprite>, i: int, sc: Scene, wallDist: array<Ext>) returns (r: Option<SpriteDraw>)
    requires 0 <= i < |sprites| && ValidScene(sc) && wallDist[..] == sc.wallDist
    ensures r == Command(sprites, i, sc)
  {
    var s := sprites[i];
    var transformY := TransformY(sc.view, s);
    r := None;
    if transformY > 0.0 {
      var p := Place(TransformX(sc.view, s), transformY, sc.vertHeight, sc.vertLook, s);
      var x, w := ClipColumns(wallDist, transformY, p.startX, p.endX);
      var clip := Rect(x, p.dest.y, w, p.dest.h);
      if clip.y < 0 {
        clip := clip.(y := 0);
      }
      if clip.y + clip.h >= ScreenHeight {
        clip := clip.(h := ScreenHeight - clip.y - 1);
      }
      if clip.x + clip.w >= 0 && clip.x < ScreenWidth {
        var alpha: Option<int> := None;
        if sc.fog.Some? {
          var f := sc.fog.value;
          alpha := Some(FogAlpha(f.world, SpriteBrightness(transformY, sc.brightSin[ShadowX(p.dest)], f)));
        }
        r := Some(SpriteDraw(i, clip, p.dest, alpha));
      }
    }
  }

  /** One more entry of the order adds that sprite's draw call, if any, at the end. */
  lemma DrawsOfPrefix(sprites: seq<GameSprite>, order: seq<Pair>, i: int, sc: Scene)
    requires ValidScene(sc) && 0 <= i < |order|
    requires forall k | 0 <= k < |order| :: 0 <= order[k].index < |sprites|
    ensures DrawsOf(sprites, order[..i + 1], sc) ==
      DrawsOf(sprites, order[..i], sc) +
      match Command(sprites, order[i].index, sc)
      case None => []
      case Some(d) => [d]
  {
    assert order[..i + 1][..i] == order[..i];
  }

  /** The drawing loop over the sprites in the order `spriteOrder` holds. */
  method DrawInOrder(sprites: seq<GameSprite>, sc: Scene, wallDist: array<Ext>, spriteOrder: array<int>,
                     amount: int, ghost order: seq<Pair>) returns (draws: seq<SpriteDraw>)
    requires ValidScene(sc) && wallDist[..] == sc.wallDist
    requires amount == |order| <= spriteOrder.Length
    requires forall k | 0 <= k < |order| :: 0 <= order[k].index < |sprites| && spriteOrder[k] == order[k].index
    ensures draws == DrawsOf(sprites, order, sc)
  {
    draws := [];
    var i := 0;
    while i < amount
      invariant 0 <= i <= amount
      invariant draws == DrawsOf(sprites, order[..i], sc)
    {
      var d := DrawOne(sprites, spriteOrder[i], sc, wallDist);
      DrawsOfPrefix(sprites, order, i, sc);
      if d.Some? {
        draws := draws + [d.value];
      }
      i := i + 1;
    }
    assert order[..|order|] == order;
  }

  /** `drawSprites`: order the sprites farthest first in `spriteDistances` and `spriteOrder`,
      then make the draw call of each sprite in that order. */
  method DrawSprites(sprites: seq<GameSprite>, sc: Scene, wallDist: array<Ext>,
                     spriteDistances: array<real>, spriteOrder: array<int>) returns (draws: seq<SpriteDraw>)
    requires ValidScene(sc) && wallDist[..] == sc.wallDist
    requires |sprites| <= spriteDistances.Length && |sprites| <= spriteOrder.Length
    modifies spriteDistances, spriteOrder
    ensures var o := SpriteOrder(sprites, sc.view.posX, sc.view.posY);
      |o| == |sprites| &&
      (forall k | 0 <= k < |sprites| :: spriteDistances[k] == o[k].dist && spriteOrder[k] == o[k].index) &&
      (forall k | 0 <= k < |o| :: 0 <= o[k].index < |sprites|) &&
      draws == DrawsOf(sprites, o, sc)
    ensures forall k | |sprites| <= k < spriteDistances.Length :: spriteDistances[k] == old(spriteDistances[k])
    ensures forall k | |sprites| <= k < spriteOrder.Length :: spriteOrder[k] == old(spriteOrder[k])
  {
    SortSprites(sprites, sc.view.posX, sc.view.posY, spriteDistances, spriteOrder);
    SpriteOrderCoversSprites(sprites, sc.view.posX, sc.view.posY);
    draws := DrawInOrder(sprites, sc, wallDist, spriteOrder, |sprites|, SpriteOrder(sprites, sc.view.posX, sc.view.posY));
  }
}
