/** Tile records and the kind table of the earlier engine (blocktypes.h): no transparency,
    height or alpha, and only kinds 0 to 3. */
module LegacyBlockTypes {

  const TotalBlocks := 64

  type Faces = s: seq<int> | |s| == 4 witness [0, 0, 0, 0]

  datatype MapBlock = MapBlock(
    blockId: int,
    solid: bool,
    visible: bool,
    wallTex: Faces,
    floorTex: int,
    ceilTex: int)

  /** A default-constructed cell: every field zero or false. */
  const DefaultBlock := MapBlock(0, false, false, [0, 0, 0, 0], 0, 0)

  function WithKind(b: MapBlock, id: int, visible: bool, solid: bool, tex: int): MapBlock
  {
    b.(blockId := id, visible := visible, solid := solid, wallTex := [tex, tex, tex, tex],
       floorTex := 0, ceilTex := 0)
  }

  /** Entry `id` (0 to 3) as `initBlockTypes` leaves it, starting from `b`. */
  function KindEntry(b: MapBlock, id: nat): MapBlock
    requires id < 4
  {
    if id == 0 then WithKind(b, 0, false, false, 0)
    else WithKind(b, id, true, true, id - 1)
  }

  function Grown(t: seq<MapBlock>, i: int): MapBlock
  {
    if 0 <= i < |t| then t[i] else DefaultBlock
  }

  /** The table after `initBlockTypes` ran on table `t`. */
  function InitialTable(t: seq<MapBlock>): seq<MapBlock>
  {
    var n := if |t| < TotalBlocks then TotalBlocks else |t|;
    seq(n, i requires 0 <= i < n => if i < 4 then KindEntry(Grown(t, i), i) else Grown(t, i))
  }

  class BlockTable {
    var blockTypes: seq<MapBlock>

    constructor ()
      ensures blockTypes == []
    {
      blockTypes := [];
    }

    method InitBlockTypes()
      modifies this
      ensures blockTypes == InitialTable(old(blockTypes))
    {
      if |blockTypes| < TotalBlocks {
        blockTypes := blockTypes + seq(TotalBlocks - |blockTypes|, _ => DefaultBlock);
      }
      blockTypes := blockTypes[0 := KindEntry(blockTypes[0], 0)];
      blockTypes := blockTypes[1 := KindEntry(blockTypes[1], 1)];
      blockTypes := blockTypes[2 := KindEntry(blockTypes[2], 2)];
      blockTypes := blockTypes[3 := KindEntry(blockTypes[3], 3)];
    }
  }

  /** `changeBlock(&b, newID)`: the `int` id is compared against the table's unsigned size, so
      a negative id converts to a huge value and, like an id past the table, changes nothing. */
  function ChangeBlock(b: MapBlock, table: seq<MapBlock>, newID: int): (r: MapBlock)
    requires -0x8000_0000 <= newID < 0x8000_0000
    requires |table| < 0x8000_0000_0000_0000
    ensures 0 <= newID < |table| ==>
      var e := table[newID];
      r.blockId == newID && r.solid == e.solid && r.visible == e.visible &&
      r.wallTex == e.wallTex && r.floorTex == e.floorTex && r.ceilTex == e.ceilTex
    ensures !(0 <= newID < |table|) ==> r == b
  {
    var u := if newID < 0 then newID + 0x1_0000_0000_0000_0000 else newID;
    if u < |table| then
      var e := table[u];
      b.(blockId := newID, solid := e.solid, visible := e.visible, wallTex := e.wallTex,
         floorTex := e.floorTex, ceilTex := e.ceilTex)
    else b
  }

  /** Id 0 is invisible and walkable; ids 1 to 3 are visible and solid and use texture id - 1
      on every face. */
  lemma KindsAfterInit(t: seq<MapBlock>, id: nat)
    requires id < 4
    ensures |InitialTable(t)| >= TotalBlocks
    ensures var e := InitialTable(t)[id];
      e.blockId == id && (e.visible <==> id > 0) && (e.solid <==> id > 0) &&
      (id > 0 ==> e.wallTex == [id - 1, id - 1, id - 1, id - 1]) && e.floorTex == 0 && e.ceilTex == 0
  {
    assert InitialTable(t)[id] == KindEntry(Grown(t, id), id);
  }

  /** Starting from an empty table, ids 4 to 63 are default cells, which behave as air. */
  lemma UndefinedKindsAreAir(i: int)
    requires 4 <= i < TotalBlocks
    ensures |InitialTable([])| == TotalBlocks
    ensures InitialTable([])[i] == DefaultBlock
    ensures !InitialTable([])[i].solid && !InitialTable([])[i].visible
  {
  }

  lemma InitIdempotent(t: seq<MapBlock>)
    ensures InitialTable(InitialTable(t)) == InitialTable(t)
  {
    var t1 := InitialTable(t);
    var t2 := InitialTable(t1);
    assert |t2| == |t1|;
    forall i | 0 <= i < |t1| ensures t2[i] == t1[i] {
      if i < 4 {
        assert t1[i] == KindEntry(Grown(t, i), i);
        assert t2[i] == KindEntry(Grown(t1, i), i);
      }
    }
  }
}
