/** The tile flags the game reports for each cell of the board, and the tables that
    give, for one piece of a sword or of a box/chest, its offset from the top-left
    cell of the piece's footprint. */
module Tiles {
  import opened Geometry
  import opened Patterns

  /** A [Flags] enum backed by a 32-bit int: a tile is a set of flag bits. */
  type Tile = bv32

  const Unknown: Tile := 0
  const Hidden: Tile := 1 << 0
  const Blocked: Tile := 1 << 1
  const Empty: Tile := 1 << 2
  const BoxTL: Tile := 1 << 3
  const BoxTR: Tile := 1 << 4
  const BoxBL: Tile := 1 << 5
  const BoxBR: Tile := 1 << 6
  const ChestTL: Tile := 1 << 7
  const ChestTR: Tile := 1 << 8
  const ChestBL: Tile := 1 << 9
  const ChestBR: Tile := 1 << 10
  const SwordsTL: Tile := 1 << 11
  const SwordsTR: Tile := 1 << 12
  const SwordsML: Tile := 1 << 13
  const SwordsMR: Tile := 1 << 14
  const SwordsBL: Tile := 1 << 15
  const SwordsBR: Tile := 1 << 16
  const Commander: Tile := 1 << 17
  const RotatedL: Tile := 1 << 18
  const RotatedR: Tile := 1 << 19
  const RotatedEither: Tile := RotatedL | RotatedR
  const Box: Tile := BoxTL | BoxTR | BoxBL | BoxBR | RotatedEither
  const Chest: Tile := ChestTL | ChestTR | ChestBL | ChestBR | RotatedEither
  const BoxChest: Tile := Box | Chest
  const Swords: Tile := SwordsTL | SwordsTR | SwordsML | SwordsMR | SwordsBL | SwordsBR | RotatedEither

  /** Enum.HasFlag: every bit of f is set in t. */
  predicate HasFlag(t: Tile, f: Tile) {
    t & f == f
  }

  /** d is the offset, from the top-left cell, of a cell of a w-by-h footprint. */
  predicate InFootprint(d: int, w: int, h: int) {
    0 <= d && d % Width < w && d / Width < h
  }

  /** Offset of a sword piece from the top-left cell of the sword, or -1 for any value
      that is not exactly one piece, optionally with one rotation bit. An upright sword
      is 2 wide and 3 tall; a rotated one is 3 wide and 2 tall. */
  function TLOffsetSwords(t: Tile): (d: int)
    ensures d == -1 || InFootprint(d, SwordWidth(t & RotatedEither != 0), SwordHeight(t & RotatedEither != 0))
  {
    if t == SwordsTL then 0
    else if t == SwordsTR then 1
    else if t == SwordsML then Width
    else if t == SwordsMR then Width + 1
    else if t == SwordsBL then Width * 2
    else if t == SwordsBR then Width * 2 + 1

    else if t == SwordsTL | RotatedL then Width
    else if t == SwordsTR | RotatedL then 0
    else if t == SwordsML | RotatedL then Width + 1
    else if t == SwordsMR | RotatedL then 1
    else if t == SwordsBL | RotatedL then Width + 2
    else if t == SwordsBR | RotatedL then 2

    else if t == SwordsTL | RotatedR then 2
    else if t == SwordsTR | RotatedR then Width + 2
    else if t == SwordsML | RotatedR then 1
    else if t == SwordsMR | RotatedR then Width + 1
    else if t == SwordsBL | RotatedR then 0
    else if t == SwordsBR | RotatedR then Width

    else -1
  }

  /** Offset of a box or chest piece from the top-left cell of its 2-by-2 footprint,
      or -1 for any other value. */
  function TLOffsetBoxChest(t: Tile): (d: int)
    ensures d == -1 || InFootprint(d, BoxSize, BoxSize)
  {
    if t == BoxTL || t == ChestTL then 0
    else if t == BoxTR || t == ChestTR then 1
    else if t == BoxBL || t == ChestBL then Width
    else if t == BoxBR || t == ChestBR then Width + 1

    else if t == BoxTL | RotatedL || t == ChestTL | RotatedL then Width
    else if t == BoxTR | RotatedL || t == ChestTR | RotatedL then 0
    else if t == BoxBL | RotatedL || t == ChestBL | RotatedL then Width + 1
    else if t == BoxBR | RotatedL || t == ChestBR | RotatedL then 1

    else if t == BoxTL | RotatedR || t == ChestTL | RotatedR then 1
    else if t == BoxTR | RotatedR || t == ChestTR | RotatedR then Width + 1
    else if t == BoxBL | RotatedR || t == ChestBL | RotatedR then 0
    else if t == BoxBR | RotatedR || t == ChestBR | RotatedR then Width

    else -1
  }

  // ---------------------------------------------------------------------------
  // An independent reading of the tables: each piece is drawn at a column and a
  // row of the upright picture, and a rotation bit turns the picture a quarter.
  // ---------------------------------------------------------------------------

  datatype Turn = Upright | TurnedLeft | TurnedRight

  function TurnBits(turn: Turn): Tile {
    match turn
    case Upright => 0
    case TurnedLeft => RotatedL
    case TurnedRight => RotatedR
  }

  /** A piece and where it is drawn in the upright picture. */
  datatype Piece = Piece(tile: Tile, px: int, py: int)

  const SwordPieces: seq<Piece> := [
    Piece(SwordsTL, 0, 0), Piece(SwordsTR, 1, 0),
    Piece(SwordsML, 0, 1), Piece(SwordsMR, 1, 1),
    Piece(SwordsBL, 0, 2), Piece(SwordsBR, 1, 2)]

  const BoxChestPieces: seq<Piece> := [
    Piece(BoxTL, 0, 0), Piece(BoxTR, 1, 0), Piece(BoxBL, 0, 1), Piece(BoxBR, 1, 1),
    Piece(ChestTL, 0, 0), Piece(ChestTR, 1, 0), Piece(ChestBL, 0, 1), Piece(ChestBR, 1, 1)]

  /** Where the piece drawn at (px, py) of an upright w-by-h picture lands after the
      turn, as an offset from the top-left cell of the turned footprint. A quarter
      turn left sends (px, py) to (py, w-1-px); a quarter turn right sends it to
      (h-1-py, px). */
  function TurnedOffset(px: int, py: int, w: int, h: int, turn: Turn): int {
    match turn
    case Upright => py * Width + px
    case TurnedLeft => (w - 1 - px) * Width + py
    case TurnedRight => px * Width + (h - 1 - py)
  }

  /** The sword table is the upright 2-by-3 picture turned by the tile's rotation bit. */
  lemma SwordTableIsTurnedPicture(k: int, turn: Turn)
    requires 0 <= k < |SwordPieces|
    ensures var p := SwordPieces[k];
      TLOffsetSwords(p.tile | TurnBits(turn)) == TurnedOffset(p.px, p.py, 2, 3, turn)
  {
  }

  /** The box/chest table is the upright 2-by-2 picture turned by the tile's rotation bit. */
  lemma BoxChestTableIsTurnedPicture(k: int, turn: Turn)
    requires 0 <= k < |BoxChestPieces|
    ensures var p := BoxChestPieces[k];
      TLOffsetBoxChest(p.tile | TurnBits(turn)) == TurnedOffset(p.px, p.py, 2, 2, turn)
  {
  }

  /** The six sword pieces of one orientation name six different cells, so together
      they cover the whole footprint. */
  lemma SwordPiecesDistinct(k1: int, k2: int, turn: Turn)
    requires 0 <= k1 < |SwordPieces| && 0 <= k2 < |SwordPieces|
    requires k1 != k2
    ensures TLOffsetSwords(SwordPieces[k1].tile | TurnBits(turn)) != TLOffsetSwords(SwordPieces[k2].tile | TurnBits(turn))
  {
    SwordTableIsTurnedPicture(k1, turn);
    SwordTableIsTurnedPicture(k2, turn);
  }

  /** Every cell of the sword footprint is named by one of the pieces. */
  lemma SwordPiecesCover(d: int, turn: Turn)
    requires InFootprint(d, SwordWidth(turn != Upright), SwordHeight(turn != Upright))
    ensures exists k :: 0 <= k < |SwordPieces| && TLOffsetSwords(SwordPieces[k].tile | TurnBits(turn)) == d
  {
    var dx, dy := d % Width, d / Width;
    var k := match turn
      case Upright => dy * 2 + dx
      case TurnedLeft => dx * 2 + (1 - dy)
      case TurnedRight => (2 - dx) * 2 + dy;
    SwordTableIsTurnedPicture(k, turn);
  }

  /** Every cell of the 2-by-2 footprint is named by a box piece and by a chest piece. */
  lemma BoxChestPiecesCover(d: int, turn: Turn)
    requires InFootprint(d, BoxSize, BoxSize)
    ensures exists k :: 0 <= k < 4 && TLOffsetBoxChest(BoxChestPieces[k].tile | TurnBits(turn)) == d
    ensures exists k :: 4 <= k < 8 && TLOffsetBoxChest(BoxChestPieces[k].tile | TurnBits(turn)) == d
  {
    var dx, dy := d % Width, d / Width;
    var k := match turn
      case Upright => dy * 2 + dx
      case TurnedLeft => dx * 2 + (1 - dy)
      case TurnedRight => (1 - dx) * 2 + dy;
    BoxChestTableIsTurnedPicture(k, turn);
    BoxChestTableIsTurnedPicture(k + 4, turn);
  }

  /** A tile with a box or chest bit and a rotation bit also carries a bit of Swords,
      and the sword table does not know it. */
  lemma RotatedBoxChestIsNotASword(t: Tile)
    requires t & (BoxChest & !RotatedEither) != 0
    requires t & RotatedEither != 0
    ensures t & Swords != 0
    ensures TLOffsetSwords(t) == -1
  {
  }
}
