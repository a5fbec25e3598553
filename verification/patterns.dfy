/** The pattern catalogue: every known layout of the puzzle board, as four
    hand-authored "up" sheets each expanded into its four 90-degree left rotations. */
module Patterns {
  import opened Geometry

  /** One placement of the 2x2 box/chest piece, with every cell that may hold the fox
      when the box sits here. */
  datatype Cell = Cell(chestTL: int, foxes: Mask)

  /** One placement of the sword piece (3 wide and 2 tall when horizontal, 2 wide and
      3 tall otherwise) with every box placement consistent with it. */
  datatype Row = Row(swordsTL: int, swordsHorizontal: bool, cells: seq<Cell>)

  /** One full layout: the permanently blocked cells and every sword placement. */
  datatype Sheet = Sheet(blockers: Mask, rows: seq<Row>)

  const BoxSize: int := 2

  function SwordWidth(horizontal: bool): int {
    if horizontal then 3 else 2
  }

  function SwordHeight(horizontal: bool): int {
    if horizontal then 2 else 3
  }

  // ---------------------------------------------------------------------------
  // Footprints and well-formed layouts
  // ---------------------------------------------------------------------------

  predicate SwordInBoard(row: Row) {
    RectInBoard(row.swordsTL, SwordWidth(row.swordsHorizontal), SwordHeight(row.swordsHorizontal))
  }

  predicate BoxInBoard(cell: Cell) {
    RectInBoard(cell.chestTL, BoxSize, BoxSize)
  }

  /** Board cell i lies under the sword placed as the row says. */
  predicate UnderSword(i: int, tl: int, horizontal: bool) {
    InRect(i, tl, SwordWidth(horizontal), SwordHeight(horizontal))
  }

  /** Board cell i lies under the box/chest anchored at tl. */
  predicate UnderBox(i: int, tl: int) {
    InRect(i, tl, BoxSize, BoxSize)
  }

  /** A box placement lies on the board, clear of the blockers and of its row's sword,
      and its fox candidates are board cells. */
  predicate CellWellFormed(cell: Cell, row: Row, blockers: Mask) {
    && BoxInBoard(cell)
    && MaskOnBoard(cell.foxes)
    && (forall b :: b in blockers ==> !UnderBox(b, cell.chestTL))
    && RectsApart(row.swordsTL, SwordWidth(row.swordsHorizontal), SwordHeight(row.swordsHorizontal),
                  cell.chestTL, BoxSize, BoxSize)
  }

  /** A sword placement lies on the board, clear of the blockers, and so do its box placements. */
  predicate RowWellFormed(row: Row, blockers: Mask) {
    && SwordInBoard(row)
    && (forall b :: b in blockers ==> !UnderSword(b, row.swordsTL, row.swordsHorizontal))
    && (forall k :: 0 <= k < |row.cells| ==> CellWellFormed(row.cells[k], row, blockers))
  }

  predicate SheetWellFormed(sheet: Sheet) {
    && MaskOnBoard(sheet.blockers)
    && (forall k :: 0 <= k < |sheet.rows| ==> RowWellFormed(sheet.rows[k], sheet.blockers))
  }

  // ---------------------------------------------------------------------------
  // Rotation by 90 degrees to the left
  // ---------------------------------------------------------------------------

  /** Cell (x, y) moves to column Width-1-y of row x. */
  function RotateCellIndexLeft(cell: int): int {
    var x := CsRem(cell, Width);
    var y := CsDiv(cell, Width);
    var yr := x;
    var xr := Width - 1 - y;
    yr * Width + xr
  }

  /** The image of a mask's set bits. */
  function RotateCellMaskLeft(cells: Mask): Mask {
    set i | i in cells :: RotateCellIndexLeft(i)
  }

  /** The box anchor is rotated and moved one column left, to the new top-left corner. */
  function RotateCellLeft(cell: Cell): Cell {
    Cell(RotateCellIndexLeft(cell.chestTL) - 1, RotateCellMaskLeft(cell.foxes))
  }

  /** The sword anchor moves one column left if the sword was horizontal and two if it
      was vertical; the orientation flips. */
  function RotateRowLeft(row: Row): Row {
    Row(RotateCellIndexLeft(row.swordsTL) - (if row.swordsHorizontal then 1 else 2),
        !row.swordsHorizontal,
        seq(|row.cells|, k requires 0 <= k < |row.cells| => RotateCellLeft(row.cells[k])))
  }

  function RotateSheetLeft(sheet: Sheet): Sheet {
    Sheet(RotateCellMaskLeft(sheet.blockers),
          seq(|sheet.rows|, k requires 0 <= k < |sheet.rows| => RotateRowLeft(sheet.rows[k])))
  }

  /** The sheet rotated left n times. */
  function RotateSheetTimes(sheet: Sheet, n: nat): Sheet {
    if n == 0 then sheet else RotateSheetLeft(RotateSheetTimes(sheet, n - 1))
  }

  // ---------------------------------------------------------------------------
  // The catalogue
  // ---------------------------------------------------------------------------

  /** Each base sheet followed by its three successive left rotations, in order. */
  function Expand(bases: seq<Sheet>): (known: seq<Sheet>)
    ensures |known| == 4 * |bases|
    ensures forall n :: 0 <= n < |known| ==> known[n] == RotateSheetTimes(bases[n / 4], n % 4)
  {
    if |bases| == 0 then []
    else
      var init := bases[..|bases| - 1];
      var s := bases[|bases| - 1];
      var r1 := RotateSheetLeft(s);
      var r2 := RotateSheetLeft(r1);
      var r3 := RotateSheetLeft(r2);
      var known := Expand(init) + [s, r1, r2, r3];
      assert RotateSheetTimes(s, 0) == s;
      assert RotateSheetTimes(s, 1) == r1;
      assert RotateSheetTimes(s, 2) == r2;
      assert RotateSheetTimes(s, 3) == r3;
      assert forall n :: 4 * |init| <= n < |known| ==>
        n / 4 == |init| && known[n] == [s, r1, r2, r3][n % 4];
      known
  }

  /** All sixteen known layouts. */
  function KnownPatterns(): seq<Sheet> {
    Expand(KnownBaseSheets)
  }

  /** The four hand-authored "up" layouts A, B, C and D. */
  const KnownBaseSheets: seq<Sheet> := [SheetA, SheetB, SheetC, SheetD]

  const SheetA: Sheet := Sheet({8, 10, 13, 26, 35}, [
    Row(16, false, [
      Cell(0, {3, 4, 12, 30}),
      Cell(14, {3, 4, 5, 12, 30}),
      Cell(24, {}),
      Cell(18, {})]),
    Row(15, false, [
      Cell(0, {9, 12, 17, 33, 34}),
      Cell(18, {9, 17, 32, 33, 34}),
      Cell(24, {})]),
    Row(21, false, [
      Cell(0, {5, 15, 16, 20}),
      Cell(18, {5, 15, 16, 20}),
      Cell(24, {})]),
    Row(15, true, [
      Cell(18, {3, 4, 12, 30}),
      Cell(27, {3, 4, 12, 30}),
      Cell(0, {}),
      Cell(24, {})]),
    Row(21, true, [
      Cell(0, {5, 15, 16, 20}),
      Cell(24, {5, 15, 16, 20}),
      Cell(18, {})]),
    Row(14, true, [
      Cell(0, {2, 11, 29, 32}),
      Cell(24, {2, 11, 29, 32}),
      Cell(27, {}),
      Cell(18, {})]),
    Row(18, false, [
      Cell(27, {2, 11, 29, 32}),
      Cell(16, {2, 11, 29, 32, 33}),
      Cell(22, {9, 17, 33, 34}),
      Cell(14, {9, 17, 33, 34}),
      Cell(21, {}),
      Cell(0, {}),
      Cell(15, {})])])

  const SheetB: Sheet := Sheet({3, 13, 16, 21, 32}, [
    Row(0, true, [
      Cell(4, {15, 18, 26, 33}),
      Cell(28, {15, 18, 26, 33}),
      Cell(24, {10, 14, 20, 22}),
      Cell(27, {10, 14, 20, 22}),
      Cell(19, {}),
      Cell(22, {}),
      Cell(18, {})]),
    Row(22, false, [
      Cell(24, {15, 18, 26, 33}),
      Cell(1, {15, 18, 26, 33}),
      Cell(19, {1, 6, 8, 17}),
      Cell(4, {1, 6, 8, 17}),
      Cell(8, {}),
      Cell(0, {}),
      Cell(18, {})]),
    Row(27, true, [
      Cell(4, {1, 6, 8, 17}),
      Cell(24, {1, 6, 8, 17}),
      Cell(8, {}),
      Cell(0, {}),
      Cell(19, {}),
      Cell(1, {}),
      Cell(18, {})]),
    Row(18, false, [
      Cell(0, {10, 14, 20, 22}),
      Cell(28, {10, 14, 20, 22}),
      Cell(8, {2, 5, 12, 35}),
      Cell(22, {2, 5, 12, 35}),
      Cell(4, {}),
      Cell(1, {}),
      Cell(27, {})]),
    Row(18, true, [
      Cell(0, {2, 5, 12, 35}),
      Cell(27, {2, 5, 12, 35}),
      Cell(8, {}),
      Cell(4, {}),
      Cell(22, {}),
      Cell(28, {}),
      Cell(1, {})])])

  const SheetC: Sheet := Sheet({4, 7, 15, 25, 33}, [
    Row(10, false, [
      Cell(12, {0, 21, 27, 31}),
      Cell(28, {0, 21, 27, 31}),
      Cell(20, {}),
      Cell(13, {}),
      Cell(2, {})]),
    Row(16, false, [
      Cell(12, {8, 24, 34, 35}),
      Cell(20, {8, 24, 34, 35}),
      Cell(13, {}),
      Cell(2, {})]),
    Row(22, false, [
      Cell(2, {6, 10, 17, 26}),
      Cell(13, {6, 10, 17, 26}),
      Cell(20, {1, 5, 14, 30}),
      Cell(12, {1, 5, 14, 30}),
      Cell(10, {})]),
    Row(21, true, [
      Cell(2, {6, 10, 17, 26}),
      Cell(12, {6, 10, 17, 26}),
      Cell(13, {8, 24, 34, 35}),
      Cell(10, {8, 24, 34, 35})]),
    Row(20, true, [
      Cell(2, {1, 5, 14, 30}),
      Cell(10, {1, 5, 14, 30}),
      Cell(12, {})]),
    Row(12, true, [
      Cell(2, {0, 21, 27, 31}),
      Cell(10, {}),
      Cell(16, {}),
      Cell(22, {}),
      Cell(28, {}),
      Cell(21, {})])])

  const SheetD: Sheet := Sheet({7, 16, 18, 27, 32}, [
    Row(2, true, [
      Cell(14, {11, 24, 31, 34}),
      Cell(19, {11, 24, 31, 34}),
      Cell(22, {}),
      Cell(13, {}),
      Cell(28, {}),
      Cell(24, {})]),
    Row(3, true, [
      Cell(22, {0, 15, 21, 35}),
      Cell(24, {0, 15, 21, 35}),
      Cell(14, {}),
      Cell(13, {}),
      Cell(19, {}),
      Cell(28, {})]),
    Row(2, false, [
      Cell(4, {1, 13, 17, 26}),
      Cell(24, {1, 13, 17, 26}),
      Cell(28, {}),
      Cell(19, {}),
      Cell(22, {})]),
    Row(8, false, [
      Cell(28, {2, 3, 23, 33}),
      Cell(24, {2, 3, 23, 33}),
      Cell(4, {}),
      Cell(22, {})]),
    Row(22, false, [
      Cell(2, {1, 13, 17, 26}),
      Cell(4, {1, 13, 17, 26}),
      Cell(3, {}),
      Cell(8, {}),
      Cell(14, {}),
      Cell(13, {}),
      Cell(19, {}),
      Cell(24, {})]),
    Row(13, false, [
      Cell(2, {0, 15, 21, 35}),
      Cell(22, {0, 15, 21, 35}),
      Cell(3, {}),
      Cell(4, {}),
      Cell(28, {})]),
    Row(13, true, [
      Cell(2, {11, 24, 31, 34}),
      Cell(22, {11, 24, 31, 34}),
      Cell(4, {2, 3, 23, 33}),
      Cell(28, {2, 3, 23, 33}),
      Cell(3, {}),
      Cell(24, {})])])
}
