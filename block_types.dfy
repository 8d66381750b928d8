/** Tile records and the table of tile kinds of the current engine (src/blocktypes.h). */
module BlockTypes {

  /** Size the kind table is grown to. */
  const TotalBlocks := 64

  /** Kind ids that the table defines. */
  const BlockAir := 0
  const BlockWall := 1
  const BlockPanel := 2
  const BlockDoor := 3
  const BlockWindow := 4

  /** The four wall faces; `Index` is their position in `wallTex`. */
  datatype WallDir = North | South | East | West
  {
    function Index(): (i: nat)
      ensures i < 4
    {
      match this
      case North => 0
      case South => 1
      case East => 2
      case West => 3
    }
  }

  /** One texture index per face, in the order of `WallDir.Index`. */
  type Faces = s: seq<int> | |s| == 4 witness [0, 0, 0, 0]

  /** A map cell.  `timer`, `timerOn` and `isDoor` are the door-animation fields the renderer
      reads; the header does not declare them, so their initial values are assumed. */
  datatype MapBlock = MapBlock(
    blockId: int,
    solid: bool,
    visible: bool,
    transparent: bool,
    wallTex: Faces,
    floorTex: int,
    ceilTex: int,
    height: real,
    alphaMod: int,
    timer: real,
    timerOn: bool,
    isDoor: bool)

  /** A default-constructed cell: a solid, invisible block of kind 0. */
  const DefaultBlock := MapBlock(0, true, false, false, [0, 0, 0, 0], 0, 0, 1.0, 255, 1.0, false, false)

  /** Sets the kind fields that `initBlockTypes` assigns, leaving the door fields alone. */
  function WithKind(b: MapBlock, id: int, visible: bool, solid: bool, transparent: bool, tex: int): MapBlock
  {
    b.(blockId := id, visible := visible, solid := solid, transparent := transparent,
       wallTex := [tex, tex, tex, tex], floorTex := 0, ceilTex := 0, height := 1.0, alphaMod := 255)
  }

  /** Entry `id` (0 to 4) of the table as `initBlockTypes` leaves it, starting from `b`. */
  function KindEntry(b: MapBlock, id: nat): MapBlock
    requires id < 5
  {
    if id == BlockAir then WithKind(b, BlockAir, false, false, false, 0)
    else if id == BlockWall then WithKind(b, BlockWall, true, true, false, 0)
    else if id == BlockPanel then WithKind(b, BlockPanel, true, true, false, 1)
    else if id == BlockDoor then WithKind(b, BlockDoor, true, true, true, 2)
    else WithKind(b, BlockWindow, true, true, true, 3)
  }

  /** The table after `initBlockTypes` ran on table `t`: grown to TotalBlocks entries with
      default cells if it was shorter, and entries 0 to 4 given their kinds. */
  function InitialTable(t: seq<MapBlock>): seq<MapBlock>
  {
    var n := if |t| < TotalBlocks then TotalBlocks else |t|;
    seq(n, i requires 0 <= i < n => if i < 5 then KindEntry(Grown(t, i), i) else Grown(t, i))
  }

  /** Entry `i` of table `t` once grown to TotalBlocks entries. */
  function Grown(t: seq<MapBlock>, i: int): MapBlock
  {
    if 0 <= i < |t| then t[i] else DefaultBlock
  }

  /** The global kind table. */
  class BlockTable {
    var blockTypes: seq<MapBlock>

    constructor ()
      ensures blockTypes == []
    {
      blockTypes := [];
    }

    /** Grows the table to TotalBlocks entries if needed and defines kinds 0 to 4. */
    method InitBlockTypes()
      modifies this
      ensures blockTypes == InitialTable(old(blockTypes))
    {
      if |blockTypes| < TotalBlocks {
        blockTypes := blockTypes + seq(TotalBlocks - |blockTypes|, _ => DefaultBlock);
      }
      blockTypes := blockTypes[BlockAir := KindEntry(blockTypes[BlockAir], BlockAir)];
      blockTypes := blockTypes[BlockWall := KindEntry(blockTypes[BlockWall], BlockWall)];
      blockTypes := blockTypes[BlockPanel := KindEntry(blockTypes[BlockPanel], BlockPanel)];
      blockTypes := blockTypes[BlockDoor := KindEntry(blockTypes[BlockDoor], BlockDoor)];
      blockTypes := blockTypes[BlockWindow := KindEntry(blockTypes[BlockWindow], BlockWindow)];
    }
  }

  /** The two cells agree on every field that `changeBlock` copies from the table. */
  predicate SameKind(a: MapBlock, b: MapBlock)
  {
    a.solid == b.solid && a.visible == b.visible && a.transparent == b.transparent &&
    a.wallTex == b.wallTex && a.floorTex == b.floorTex && a.ceilTex == b.ceilTex &&
    a.height == b.height && a.alphaMod == b.alphaMod
  }

  /** The two cells agree on the door-animation fields. */
  predicate SameDoorState(a: MapBlock, b: MapBlock)
  {
    a.timer == b.timer && a.timerOn == b.timerOn && a.isDoor == b.isDoor
  }

  /** The conversion of a 32-bit `int` argument to the `unsigned int` parameter. */
  function ToUnsigned32(n: int): (u: nat)
    requires -0x8000_0000 <= n < 0x8000_0000
  {
    if n < 0 then n + 0x1_0000_0000 else n
  }

  /** `changeBlock(&b, newID)`: a cell turned into kind `newID` of `table`.  The id arrives as an
      `unsigned int`, so a negative id is a huge index and, like any id past the table, leaves
      the cell untouched. */
  function ChangeBlock(b: MapBlock, table: seq<MapBlock>, newID: int): (r: MapBlock)
    requires -0x8000_0000 <= newID < 0x8000_0000
    requires |table| < 0x8000_0000
    ensures 0 <= newID < |table| ==>
      r.blockId == newID && SameKind(r, table[newID]) && SameDoorState(r, b)
    ensures !(0 <= newID < |table|) ==> r == b
  {
    var u := ToUnsigned32(newID);
    if u < |table| then
      var e := table[u];
      b.(blockId := u, solid := e.solid, visible := e.visible, transparent := e.transparent,
         wallTex := e.wallTex, floorTex := e.floorTex, ceilTex := e.ceilTex, height := e.height,
         alphaMod := e.alphaMod)
    else b
  }

  /** Kind 0 is open air: invisible and walkable. */
  lemma AirIsOpen(t: seq<MapBlock>)
    ensures |InitialTable(t)| >= TotalBlocks
    ensures var e := InitialTable(t)[BlockAir];
      e.blockId == BlockAir && !e.visible && !e.solid && !e.transparent && e.wallTex == [0, 0, 0, 0]
  {
    assert InitialTable(t)[BlockAir] == KindEntry(Grown(t, 0), 0);
  }

  /** Kinds 1 to 4 are visible and solid; only the door and the window are transparent; each
      face of kind k uses texture k - 1; and none of them touches the door-animation fields. */
  lemma KindsAfterInit(t: seq<MapBlock>, id: nat)
    requires 1 <= id < 5
    ensures |InitialTable(t)| >= TotalBlocks
    ensures var e := InitialTable(t)[id];
      e.blockId == id && e.visible && e.solid && (e.transparent <==> id >= BlockDoor) &&
      (forall f: WallDir :: e.wallTex[f.Index()] == id - 1) &&
      e.floorTex == 0 && e.ceilTex == 0 && e.height == 1.0 && e.alphaMod == 255
    ensures id < |t| ==> SameDoorState(InitialTable(t)[id], t[id])
  {
    var e := InitialTable(t)[id];
    assert e == KindEntry(Grown(t, id), id);
    assert e.wallTex == [id - 1, id - 1, id - 1, id - 1];
  }

  /** Starting from an empty table, kinds 5 to 63 are default cells: solid yet invisible. */
  lemma UndefinedKindsAreDefault(i: int)
    requires 5 <= i < TotalBlocks
    ensures |InitialTable([])| == TotalBlocks
    ensures InitialTable([])[i] == DefaultBlock
    ensures InitialTable([])[i].solid && !InitialTable([])[i].visible
  {
  }

  /** Entries the table already had past kind 4 keep whatever they held. */
  lemma InitKeepsOtherEntries(t: seq<MapBlock>, i: int)
    requires 5 <= i < |t|
    ensures |InitialTable(t)| == (if |t| < TotalBlocks then TotalBlocks else |t|)
    ensures InitialTable(t)[i] == t[i]
  {
  }

  /** Running `initBlockTypes` a second time changes nothing. */
  lemma InitIdempotent(t: seq<MapBlock>)
    ensures InitialTable(InitialTable(t)) == InitialTable(t)
  {
    var t1 := InitialTable(t);
    var t2 := InitialTable(t1);
    assert |t2| == |t1|;
    forall i | 0 <= i < |t1| ensures t2[i] == t1[i] {
      if i < 5 {
        assert t1[i] == KindEntry(Grown(t, i), i);
        assert t2[i] == KindEntry(Grown(t1, i), i);
      }
    }
  }

  /** Changing a cell to the same kind twice is the same as once. */
  lemma ChangeBlockIdempotent(b: MapBlock, table: seq<MapBlock>, newID: int)
    requires -0x8000_0000 <= newID < 0x8000_0000
    requires |table| < 0x8000_0000
    ensures ChangeBlock(ChangeBlock(b, table, newID), table, newID) == ChangeBlock(b, table, newID)
  {
  }

  /** After loading, a cell's kind fields depend only on its id, not on what it held: two cells
      changed to the same in-range kind differ at most in their door-animation fields. */
  lemma ChangeBlockForgetsKind(b1: MapBlock, b2: MapBlock, table: seq<MapBlock>, newID: int)
    requires 0 <= newID < |table| < 0x8000_0000
    ensures var r1, r2 := ChangeBlock(b1, table, newID), ChangeBlock(b2, table, newID);
      r1.blockId == r2.blockId && SameKind(r1, r2)
  {
  }
}
