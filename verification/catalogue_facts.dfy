/** Well-formedness of the four authored sheets, established by evaluating
    quantifier-free checks on the literal data row by row and lifting them to
    SheetWellFormed. */
module CatalogueFacts {
  import opened Geometry
  import opened Patterns
  import opened CatalogueChecks

  /** Every check on one cell of a row. */
  predicate CellChecked(cell: Cell, row: Row, blockers: Mask) {
    && BoxInBoard(cell)
    && MaskOnBoard(cell.foxes)
    && BoxClear(cell.chestTL, blockers)
    && ApartChecked(row.swordsTL, SwordWidth(row.swordsHorizontal), SwordHeight(row.swordsHorizontal),
                    cell.chestTL, BoxSize, BoxSize)
  }

  /** Cells k.. of the row pass their checks. */
  predicate CellsChecked(row: Row, blockers: Mask, k: nat)
    decreases |row.cells| - k
  {
    k >= |row.cells| || (CellChecked(row.cells[k], row, blockers) && CellsChecked(row, blockers, k + 1))
  }

  /** Row k of the sheet, its sword and all its cells pass their checks. */
  predicate RowChecked(sheet: Sheet, k: nat) {
    k < |sheet.rows| &&
    var row := sheet.rows[k];
    SwordInBoard(row) && SwordClear(row.swordsTL, row.swordsHorizontal, sheet.blockers)
    && CellsChecked(row, sheet.blockers, 0)
  }

  predicate SheetChecked(sheet: Sheet) {
    && MaskOnBoard(sheet.blockers)
    && forall k :: 0 <= k < |sheet.rows| ==> RowChecked(sheet, k)
  }

  lemma {:induction false} CellsCheckedWellFormed(row: Row, blockers: Mask, k: nat)
    requires CellsChecked(row, blockers, k)
    ensures forall j :: k <= j < |row.cells| ==> CellWellFormed(row.cells[j], row, blockers)
    decreases |row.cells| - k
  {
    if k < |row.cells| {
      CellsCheckedWellFormed(row, blockers, k + 1);
      BoxClearIsClear(row.cells[k].chestTL, blockers);
    }
  }

  /** The quantifier-free checks imply well-formedness. */
  lemma SheetCheckedWellFormed(sheet: Sheet)
    requires SheetChecked(sheet)
    ensures SheetWellFormed(sheet)
  {
    forall k | 0 <= k < |sheet.rows| ensures RowWellFormed(sheet.rows[k], sheet.blockers) {
      var row := sheet.rows[k];
      assert RowChecked(sheet, k);
      SwordClearIsClear(row.swordsTL, row.swordsHorizontal, sheet.blockers);
      CellsCheckedWellFormed(row, sheet.blockers, 0);
    }
  }

  // The checks on each authored sheet, by evaluation, one row at a time.
  lemma SheetARow0() ensures RowChecked(SheetA, 0) {}
  lemma SheetARow1() ensures RowChecked(SheetA, 1) {}
  lemma SheetARow2() ensures RowChecked(SheetA, 2) {}
  lemma SheetARow3() ensures RowChecked(SheetA, 3) {}
  lemma SheetARow4() ensures RowChecked(SheetA, 4) {}
  lemma SheetARow5() ensures RowChecked(SheetA, 5) {}
  lemma SheetARow6() ensures RowChecked(SheetA, 6) {}

  lemma SheetBRow0() ensures RowChecked(SheetB, 0) {}
  lemma SheetBRow1() ensures RowChecked(SheetB, 1) {}
  lemma SheetBRow2() ensures RowChecked(SheetB, 2) {}
  lemma SheetBRow3() ensures RowChecked(SheetB, 3) {}
  lemma SheetBRow4() ensures RowChecked(SheetB, 4) {}

  lemma SheetCRow0() ensures RowChecked(SheetC, 0) {}
  lemma SheetCRow1() ensures RowChecked(SheetC, 1) {}
  lemma SheetCRow2() ensures RowChecked(SheetC, 2) {}
  lemma SheetCRow3() ensures RowChecked(SheetC, 3) {}
  lemma SheetCRow4() ensures RowChecked(SheetC, 4) {}
  lemma SheetCRow5() ensures RowChecked(SheetC, 5) {}

  lemma SheetDRow0() ensures RowChecked(SheetD, 0) {}
  lemma SheetDRow1() ensures RowChecked(SheetD, 1) {}
  lemma SheetDRow2() ensures RowChecked(SheetD, 2) {}
  lemma SheetDRow3() ensures RowChecked(SheetD, 3) {}
  lemma SheetDRow4() ensures RowChecked(SheetD, 4) {}
  lemma SheetDRow5() ensures RowChecked(SheetD, 5) {}
  lemma SheetDRow6() ensures RowChecked(SheetD, 6) {}

  lemma SheetAWellFormed() ensures SheetWellFormed(SheetA) {
    assert |SheetA.rows| == 7;
    SheetARow0(); SheetARow1(); SheetARow2(); SheetARow3(); SheetARow4(); SheetARow5(); SheetARow6();
    SheetCheckedWellFormed(SheetA);
  }

  lemma SheetBWellFormed() ensures SheetWellFormed(SheetB) {
    assert |SheetB.rows| == 5;
    SheetBRow0(); SheetBRow1(); SheetBRow2(); SheetBRow3(); SheetBRow4();
    SheetCheckedWellFormed(SheetB);
  }

  lemma SheetCWellFormed() ensures SheetWellFormed(SheetC) {
    assert |SheetC.rows| == 6;
    SheetCRow0(); SheetCRow1(); SheetCRow2(); SheetCRow3(); SheetCRow4(); SheetCRow5();
    SheetCheckedWellFormed(SheetC);
  }

  lemma SheetDWellFormed() ensures SheetWellFormed(SheetD) {
    assert |SheetD.rows| == 7;
    SheetDRow0(); SheetDRow1(); SheetDRow2(); SheetDRow3(); SheetDRow4(); SheetDRow5(); SheetDRow6();
    SheetCheckedWellFormed(SheetD);
  }

  /** Every authored sheet keeps its swords and boxes on the board and clear of its
      blockers, keeps each box apart from its row's sword, and lists only board cells
      as fox candidates. */
  lemma BaseSheetsWellFormed()
    ensures forall k :: 0 <= k < |KnownBaseSheets| ==> SheetWellFormed(KnownBaseSheets[k])
  {
    SheetAWellFormed();
    SheetBWellFormed();
    SheetCWellFormed();
    SheetDWellFormed();
  }
}
