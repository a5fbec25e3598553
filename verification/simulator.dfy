/** The plugin's board simulator, used here as an independent source of observations:
    it draws a true layout (sheet, sword placement, box placement, fox cell) and shows
    each opened cell the way the game would. Its piece encoder is the inverse of the
    offset tables, and every board it produces is accepted with the true anchors. */
module Simulator {
  import opened Geometry
  import opened Patterns
  import opened Tiles
  import opened Scan
  import opened Board
  import opened Footprints

  /** The tile the simulator shows at offset d from the sword's anchor. A horizontal
      sword is drawn with its pieces turned left. */
  function SimSwordTile(d: int, horizontal: bool): Tile {
    match (d, horizontal)
    case (0, false) => SwordsTL
    case (1, false) => SwordsTR
    case (6, false) => SwordsML
    case (7, false) => SwordsMR
    case (12, false) => SwordsBL
    case (13, false) => SwordsBR
    case (0, true) => SwordsTR | RotatedL
    case (1, true) => SwordsMR | RotatedL
    case (2, true) => SwordsBR | RotatedL
    case (6, true) => SwordsTL | RotatedL
    case (7, true) => SwordsML | RotatedL
    case (8, true) => SwordsBL | RotatedL
    case _ => Unknown
  }

  /** The tile the simulator shows at offset d from the box's anchor; boxes are never
      drawn turned. */
  function SimBoxTile(d: int): Tile {
    match d
    case 0 => BoxTL
    case 1 => BoxTR
    case 6 => BoxBL
    case 7 => BoxBR
    case _ => Unknown
  }

  /** The offsets from the anchor of the cells a sword, or a box, covers. */
  function SwordOffsets(horizontal: bool): seq<int> {
    if horizontal then [0, 1, 2, 6, 7, 8] else [0, 1, 6, 7, 12, 13]
  }

  const BoxOffsets: seq<int> := [0, 1, 6, 7]

  /** What the simulator shows at a cell once it is opened: a blocker, a piece of the
      sword, a piece of the box, the fox, or an empty cell. */
  function SimTile(sheet: Sheet, row: Row, cell: Cell, fox: int, index: int): Tile {
    if index in sheet.blockers then Blocked
    else if index in SwordIndices(row.swordsTL, row.swordsHorizontal) then
      SimSwordTile(index - row.swordsTL, row.swordsHorizontal)
    else if index in BoxChestIndices(cell.chestTL) then SimBoxTile(index - cell.chestTL)
    else if index == fox then Commander
    else Empty
  }

  /** The board after a reset, with the given cells opened: unopened cells are Hidden,
      except blockers, which show from the start. */
  function Observed(sheet: Sheet, row: Row, cell: Cell, fox: int, revealed: set<int>): (tiles: seq<Tile>)
    ensures |tiles| == BoardSize
  {
    seq(BoardSize, i =>
      if i in revealed then SimTile(sheet, row, cell, fox, i)
      else if i in sheet.blockers then Blocked
      else Hidden)
  }

  /** A layout the simulator may draw: the row and the cell are well formed for the
      sheet's blockers. */
  predicate TrueLayout(sheet: Sheet, row: Row, cell: Cell) {
    && MaskOnBoard(sheet.blockers)
    && RowWellFormed(row, sheet.blockers)
    && CellWellFormed(cell, row, sheet.blockers)
  }

  // ---------------------------------------------------------------------------
  // The encoder inverts the offset tables
  // ---------------------------------------------------------------------------

  /** A sword piece the simulator draws is routed to the sword branch, its offset is
      read back, and its rotation bit says the sword is horizontal. */
  lemma SimSwordRoundTrip(d: int, horizontal: bool)
    requires d in SwordOffsets(horizontal)
    ensures IsPiece(SwordKind, SimSwordTile(d, horizontal))
    ensures TLOffsetSwords(SimSwordTile(d, horizontal)) == d
    ensures (SimSwordTile(d, horizontal) & RotatedEither != 0) == horizontal
  {
  }

  /** A box piece the simulator draws is routed to the box/chest branch and its offset
      is read back. */
  lemma SimBoxRoundTrip(d: int)
    requires d in BoxOffsets
    ensures IsPiece(BoxChestKind, SimBoxTile(d))
    ensures TLOffsetBoxChest(SimBoxTile(d)) == d
  {
  }

  /** The other tiles the simulator shows are no pieces. */
  lemma OtherTilesAreNoPieces()
    ensures forall t :: t in [Hidden, Blocked, Empty, Commander] ==> !IsPiece(SwordKind, t) && !IsPiece(BoxChestKind, t)
  {
  }
}
