/** Which layouts, sword placements and box placements of the catalogue agree with
    what the board shows. */
module Matching {
  import opened Geometry
  import opened Patterns
  import opened Tiles
  import opened Board
  import opened Footprints

  /** Every sword and box placement of the sheet, and every fox candidate, lies on the
      board, so the solver's look-ups and writes stay on the board. */
  predicate PlacementsOnBoard(sheet: Sheet) {
    && (forall row :: row in sheet.rows ==> SwordInBoard(row))
    && (forall row, cell :: row in sheet.rows && cell in row.cells ==> BoxInBoard(cell) && MaskOnBoard(cell.foxes))
  }

  /** A well-formed sheet keeps its placements on the board. */
  lemma WellFormedOnBoard(sheet: Sheet)
    requires SheetWellFormed(sheet)
    ensures PlacementsOnBoard(sheet)
  {
    forall row, cell | row in sheet.rows && cell in row.cells
      ensures BoxInBoard(cell) && MaskOnBoard(cell.foxes)
    {
      var k :| 0 <= k < |sheet.rows| && sheet.rows[k] == row;
      var c :| 0 <= c < |row.cells| && row.cells[c] == cell;
      assert CellWellFormed(row.cells[c], row, sheet.blockers);
    }
  }

  /** A sheet matches when its blockers are exactly the blocked tiles seen. */
  predicate MatchesSheet(board: BoardState, sheet: Sheet) {
    sheet.blockers == board.blockers
  }

  /** Every listed tile is Hidden. */
  predicate AllHidden(indices: seq<int>, board: BoardState)
    requires forall k :: 0 <= k < |indices| ==> 0 <= indices[k] < |board.tiles|
  {
    forall k :: 0 <= k < |indices| ==> board.tiles[indices[k]] == Hidden
  }

  /** A sword placement matches a board whose sword was found when it is that sword,
      and a board whose sword was not found when every tile under it is still Hidden. */
  predicate MatchesRow(board: BoardState, row: Row)
    requires SwordInBoard(row) && |board.tiles| >= BoardSize
  {
    if board.swordsTL != -1 then
      board.swordsTL == row.swordsTL && board.swordsHorizontal == row.swordsHorizontal
    else
      AllHidden(SwordIndices(row.swordsTL, row.swordsHorizontal), board)
  }

  /** The same test for a box placement against the box/chest anchor. */
  predicate MatchesCell(board: BoardState, cell: Cell)
    requires BoxInBoard(cell) && |board.tiles| >= BoardSize
  {
    if board.boxChestTL != -1 then
      board.boxChestTL == cell.chestTL
    else
      AllHidden(BoxChestIndices(cell.chestTL), board)
  }

  /** The first sheet of the catalogue that matches, if any. */
  function MatchingSheet(db: seq<Sheet>, board: BoardState): (r: Option<Sheet>)
    ensures r.None? <==> forall k :: 0 <= k < |db| ==> !MatchesSheet(board, db[k])
    ensures r.Some? ==> r.value in db
    ensures r.Some? ==> exists k :: 0 <= k < |db| && db[k] == r.value && MatchesSheet(board, db[k])
                          && forall j :: 0 <= j < k ==> !MatchesSheet(board, db[j])
  {
    if |db| == 0 then None
    else if MatchesSheet(board, db[0]) then Some(db[0])
    else
      var r := MatchingSheet(db[1..], board);
      if r.Some? then
        var k :| 0 <= k < |db[1..]| && db[1..][k] == r.value && MatchesSheet(board, db[1..][k])
                 && forall j :: 0 <= j < k ==> !MatchesSheet(board, db[1..][j]);
        assert db[k + 1] == r.value;
        r
      else
        r
  }

  /** The sheet's sword placements that match, in order. */
  function MatchingRows(board: BoardState, rows: seq<Row>): (r: seq<Row>)
    requires forall row :: row in rows ==> SwordInBoard(row)
    requires |board.tiles| >= BoardSize
    ensures forall row :: row in r <==> row in rows && MatchesRow(board, row)
  {
    if |rows| == 0 then []
    else
      var rest := MatchingRows(board, rows[1..]);
      if MatchesRow(board, rows[0]) then [rows[0]] + rest else rest
  }

  /** A sword placement's box placements that match, in order. */
  function MatchingCells(board: BoardState, cells: seq<Cell>): (r: seq<Cell>)
    requires forall cell :: cell in cells ==> BoxInBoard(cell)
    requires |board.tiles| >= BoardSize
    ensures forall cell :: cell in r <==> cell in cells && MatchesCell(board, cell)
  {
    if |cells| == 0 then []
    else
      var rest := MatchingCells(board, cells[1..]);
      if MatchesCell(board, cells[0]) then [cells[0]] + rest else rest
  }

  /** Every matching box placement of every matching sword placement, as pairs. */
  function MatchingPairs(board: BoardState, rows: seq<Row>): (r: seq<(Row, Cell)>)
    requires forall row :: row in rows ==> SwordInBoard(row)
    requires forall row, cell :: row in rows && cell in row.cells ==> BoxInBoard(cell)
    requires |board.tiles| >= BoardSize
    ensures forall row, cell :: (row, cell) in r <==>
      row in rows && MatchesRow(board, row) && cell in row.cells && MatchesCell(board, cell)
  {
    if |rows| == 0 then []
    else
      var row := rows[0];
      assert row in rows;
      var here := if MatchesRow(board, row) then Pair(row, MatchingCells(board, row.cells)) else [];
      here + MatchingPairs(board, rows[1..])
  }

  /** One sword placement paired with each of the given box placements. */
  function Pair(row: Row, cells: seq<Cell>): (r: seq<(Row, Cell)>)
    ensures forall rw, cell :: (rw, cell) in r <==> rw == row && cell in cells
  {
    if |cells| == 0 then [] else [(row, cells[0])] + Pair(row, cells[1..])
  }

  /** MatchingRows is the order-keeping filter: it distributes over concatenation, and
      keeps a single placement exactly when it matches. */
  lemma {:induction false} MatchingRowsFilter(board: BoardState, a: seq<Row>, b: seq<Row>)
    requires forall row :: row in a + b ==> SwordInBoard(row)
    requires |board.tiles| >= BoardSize
    ensures forall row :: row in a ==> MatchingRows(board, [row]) == if MatchesRow(board, row) then [row] else []
    ensures MatchingRows(board, a + b) == MatchingRows(board, a) + MatchingRows(board, b)
    decreases |a|
  {
    forall row | row in a
      ensures MatchingRows(board, [row]) == if MatchesRow(board, row) then [row] else []
    {
      assert [row][1..] == [];
    }
    if |a| > 0 {
      assert (a + b)[1..] == a[1..] + b;
      MatchingRowsFilter(board, a[1..], b);
    } else {
      assert a + b == b;
    }
  }

  /** The same for MatchingCells. */
  lemma {:induction false} MatchingCellsFilter(board: BoardState, a: seq<Cell>, b: seq<Cell>)
    requires forall cell :: cell in a + b ==> BoxInBoard(cell)
    requires |board.tiles| >= BoardSize
    ensures forall cell :: cell in a ==> MatchingCells(board, [cell]) == if MatchesCell(board, cell) then [cell] else []
    ensures MatchingCells(board, a + b) == MatchingCells(board, a) + MatchingCells(board, b)
    decreases |a|
  {
    forall cell | cell in a
      ensures MatchingCells(board, [cell]) == if MatchesCell(board, cell) then [cell] else []
    {
      assert [cell][1..] == [];
    }
    if |a| > 0 {
      assert (a + b)[1..] == a[1..] + b;
      MatchingCellsFilter(board, a[1..], b);
    } else {
      assert a + b == b;
    }
  }

  // ---------------------------------------------------------------------------
  // What matching means on the board
  // ---------------------------------------------------------------------------

  /** With the sword not yet found, a placement matches exactly when no tile it
      covers has been revealed. */
  lemma MatchesRowMeaning(board: BoardState, row: Row)
    requires SwordInBoard(row) && |board.tiles| >= BoardSize
    ensures MatchesRow(board, row) <==>
      if board.swordsTL != -1 then
        board.swordsTL == row.swordsTL && board.swordsHorizontal == row.swordsHorizontal
      else
        forall i :: UnderSword(i, row.swordsTL, row.swordsHorizontal) ==> board.tiles[i] == Hidden
  {
    var idx := SwordIndices(row.swordsTL, row.swordsHorizontal);
    if board.swordsTL == -1 && !MatchesRow(board, row) {
      var k :| 0 <= k < |idx| && board.tiles[idx[k]] != Hidden;
      assert UnderSword(idx[k], row.swordsTL, row.swordsHorizontal);
    }
  }

  /** The same for a box placement. */
  lemma MatchesCellMeaning(board: BoardState, cell: Cell)
    requires BoxInBoard(cell) && |board.tiles| >= BoardSize
    ensures MatchesCell(board, cell) <==>
      if board.boxChestTL != -1 then
        board.boxChestTL == cell.chestTL
      else
        forall i :: UnderBox(i, cell.chestTL) ==> board.tiles[i] == Hidden
  {
    var idx := BoxChestIndices(cell.chestTL);
    if board.boxChestTL == -1 && !MatchesCell(board, cell) {
      var k :| 0 <= k < |idx| && board.tiles[idx[k]] != Hidden;
      assert UnderBox(idx[k], cell.chestTL);
    }
  }
}
