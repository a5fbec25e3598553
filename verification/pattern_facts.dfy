/** Geometric facts about left rotation and the shape of the catalogue. */
module PatternFacts {
  import opened Geometry
  import opened Patterns
  import opened CatalogueFacts

  // ---------------------------------------------------------------------------
  // Cell indices
  // ---------------------------------------------------------------------------

  /** Rotating left sends column x, row y to column Width-1-y, row x. */
  lemma RotateIndexCoords(i: int)
    requires OnBoard(i)
    ensures OnBoard(RotateCellIndexLeft(i))
    ensures X(RotateCellIndexLeft(i)) == Width - 1 - Y(i)
    ensures Y(RotateCellIndexLeft(i)) == X(i)
  {
    CoordsOnBoard(i);
    CoordsOfIndex(Width - 1 - Y(i), X(i));
  }

  /** The rotation is y*Width+x |-> x*Width+(Width-1-y) on board cells. */
  lemma RotateIndexFormula(x: int, y: int)
    requires 0 <= x < Width && 0 <= y < Height
    ensures RotateCellIndexLeft(y * Width + x) == x * Width + (Width - 1 - y)
  {
    CoordsOfIndex(x, y);
  }

  /** Four left rotations give back the cell. */
  lemma RotateIndexFourTimes(i: int)
    requires OnBoard(i)
    ensures RotateCellIndexLeft(RotateCellIndexLeft(RotateCellIndexLeft(RotateCellIndexLeft(i)))) == i
  {
    var r1 := RotateCellIndexLeft(i);
    var r2 := RotateCellIndexLeft(r1);
    var r3 := RotateCellIndexLeft(r2);
    RotateIndexCoords(i);
    RotateIndexCoords(r1);
    RotateIndexCoords(r2);
    RotateIndexCoords(r3);
    SameCoordsSameIndex(RotateCellIndexLeft(r3), i);
  }

  lemma SameCoordsSameIndex(i: int, j: int)
    requires OnBoard(i) && OnBoard(j)
    requires X(i) == X(j) && Y(i) == Y(j)
    ensures i == j
  {
    CoordsOnBoard(i);
    CoordsOnBoard(j);
  }

  /** The rotation is a bijection of the board cells: it stays on the board, no two
      cells share an image, and every cell is the image of the cell three rotations on. */
  lemma RotateIndexBijective(i: int, j: int)
    requires OnBoard(i) && OnBoard(j)
    ensures OnBoard(RotateCellIndexLeft(i))
    ensures RotateCellIndexLeft(i) == RotateCellIndexLeft(j) ==> i == j
    ensures RotateCellIndexLeft(RotateCellIndexLeft(RotateCellIndexLeft(RotateCellIndexLeft(j)))) == j
  {
    RotateIndexCoords(i);
    RotateIndexCoords(j);
    if RotateCellIndexLeft(i) == RotateCellIndexLeft(j) {
      SameCoordsSameIndex(i, j);
    }
    RotateIndexFourTimes(j);
  }

  // ---------------------------------------------------------------------------
  // Masks
  // ---------------------------------------------------------------------------

  function Rot3(i: int): int {
    RotateCellIndexLeft(RotateCellIndexLeft(RotateCellIndexLeft(i)))
  }

  /** A board cell is in the rotated mask exactly when the cell it came from is in the mask. */
  lemma RotateMaskMembership(m: Mask, i: int)
    requires MaskOnBoard(m)
    ensures MaskOnBoard(RotateCellMaskLeft(m))
    ensures i in RotateCellMaskLeft(m) <==> OnBoard(i) && Rot3(i) in m
  {
    forall j | j in m ensures OnBoard(RotateCellIndexLeft(j)) {
      RotateIndexCoords(j);
    }
    if i in RotateCellMaskLeft(m) {
      var j :| j in m && RotateCellIndexLeft(j) == i;
      RotateIndexFourTimes(j);
    }
    if OnBoard(i) && Rot3(i) in m {
      RotateIndexFourTimes(i);
      assert RotateCellIndexLeft(Rot3(i)) == i;
    }
  }

  /** Rotation keeps the number of set bits. */
  lemma {:induction false} RotateMaskCount(m: Mask)
    requires MaskOnBoard(m)
    ensures |RotateCellMaskLeft(m)| == |m|
    decreases |m|
  {
    var j := FirstCell(m, 0);
    if j == -1 {
      NoFirstCellEmpty(m);
    } else {
      var rest := m - {j};
      RotateMaskCount(rest);
      assert RotateCellMaskLeft(m) == RotateCellMaskLeft(rest) + {RotateCellIndexLeft(j)};
      if RotateCellIndexLeft(j) in RotateCellMaskLeft(rest) {
        var k :| k in rest && RotateCellIndexLeft(k) == RotateCellIndexLeft(j);
        RotateIndexBijective(k, j);
        assert false;
      }
    }
  }

  /** Four rotations of a mask give back the mask. */
  lemma RotateMaskFourTimes(m: Mask)
    requires MaskOnBoard(m)
    ensures RotateCellMaskLeft(RotateCellMaskLeft(RotateCellMaskLeft(RotateCellMaskLeft(m)))) == m
  {
    var m1 := RotateCellMaskLeft(m);
    var m2 := RotateCellMaskLeft(m1);
    var m3 := RotateCellMaskLeft(m2);
    var m4 := RotateCellMaskLeft(m3);
    forall i ensures i in m4 <==> i in m {
      RotateMaskMembership(m, i);
      RotateMaskMembership(m1, i);
      RotateMaskMembership(m2, i);
      RotateMaskMembership(m3, i);
      if i in m4 {
        var j :| j in m3 && RotateCellIndexLeft(j) == i;
        var k :| k in m2 && RotateCellIndexLeft(k) == j;
        var l :| l in m1 && RotateCellIndexLeft(l) == k;
        var n :| n in m && RotateCellIndexLeft(n) == l;
        RotateIndexFourTimes(n);
      }
      if i in m {
        RotateIndexFourTimes(Rot3(i));
        RotateIndexCoords(i);
        var r1 := RotateCellIndexLeft(i);
        RotateIndexCoords(r1);
        var r2 := RotateCellIndexLeft(r1);
        RotateIndexCoords(r2);
        var r3 := RotateCellIndexLeft(r2);
        assert r1 in m1 && r2 in m2 && r3 in m3;
        RotateIndexFourTimes(i);
        assert RotateCellIndexLeft(r3) in m4;
      }
    }
  }

  // ---------------------------------------------------------------------------
  // Rectangles
  // ---------------------------------------------------------------------------

  /** Rotating the anchor of an on-board w-by-h rectangle and moving it h-1 columns left
      gives the top-left corner of the rotated rectangle, which is h wide and w tall. */
  lemma RotateRect(tl: int, w: int, h: int)
    requires RectInBoard(tl, w, h)
    ensures var a := RotateCellIndexLeft(tl) - (h - 1);
      && RectInBoard(a, h, w)
      && X(a) == Width - Y(tl) - h
      && Y(a) == X(tl)
  {
    CoordsOnBoard(tl);
    CoordsOfIndex(Width - Y(tl) - h, X(tl));
    RotateIndexFormula(X(tl), Y(tl));
  }

  /** The rotated rectangle covers exactly the images of the cells the old one covered. */
  lemma RotateRectCover(tl: int, w: int, h: int, i: int)
    requires RectInBoard(tl, w, h)
    requires OnBoard(i)
    ensures InRect(i, tl, w, h) <==> InRect(RotateCellIndexLeft(i), RotateCellIndexLeft(tl) - (h - 1), h, w)
  {
    RotateRect(tl, w, h);
    RotateIndexCoords(i);
  }

  /** Two anchor rotations turn the rectangle half a turn: it keeps its size and its
      anchor mirrors through the centre of the board. */
  lemma RotateRectTwice(tl: int, w: int, h: int)
    requires RectInBoard(tl, w, h)
    ensures var a1 := RotateCellIndexLeft(tl) - (h - 1);
      var a2 := RotateCellIndexLeft(a1) - (w - 1);
      && RectInBoard(a2, w, h)
      && X(a2) == Width - X(tl) - w
      && Y(a2) == Height - Y(tl) - h
  {
    var a1 := RotateCellIndexLeft(tl) - (h - 1);
    RotateRect(tl, w, h);
    RotateRect(a1, h, w);
  }

  /** Four anchor rotations, with the orientation flipping each time, give back the anchor. */
  lemma RotateRectFourTimes(tl: int, w: int, h: int)
    requires RectInBoard(tl, w, h)
    ensures var a1 := RotateCellIndexLeft(tl) - (h - 1);
      var a2 := RotateCellIndexLeft(a1) - (w - 1);
      var a3 := RotateCellIndexLeft(a2) - (h - 1);
      RotateCellIndexLeft(a3) - (w - 1) == tl
  {
    var a1 := RotateCellIndexLeft(tl) - (h - 1);
    var a2 := RotateCellIndexLeft(a1) - (w - 1);
    RotateRectTwice(tl, w, h);
    RotateRectTwice(a2, w, h);
    var a4 := RotateCellIndexLeft(RotateCellIndexLeft(a2) - (h - 1)) - (w - 1);
    SameCoordsSameIndex(a4, tl);
  }

  /** Rotation keeps two rectangles apart: separation along one axis becomes separation
      along the other. */
  lemma RotateRectsApart(a: int, wa: int, ha: int, b: int, wb: int, hb: int)
    requires RectInBoard(a, wa, ha) && RectInBoard(b, wb, hb)
    requires RectsApart(a, wa, ha, b, wb, hb)
    ensures RectsApart(RotateCellIndexLeft(a) - (ha - 1), ha, wa, RotateCellIndexLeft(b) - (hb - 1), hb, wb)
  {
    RotateRect(a, wa, ha);
    RotateRect(b, wb, hb);
  }

  // ---------------------------------------------------------------------------
  // Cells, rows and sheets
  // ---------------------------------------------------------------------------

  /** The rotated box anchor is the top-left corner of the rotated box. */
  lemma RotateCellFootprint(cell: Cell, i: int)
    requires BoxInBoard(cell)
    requires OnBoard(i)
    ensures BoxInBoard(RotateCellLeft(cell))
    ensures UnderBox(i, cell.chestTL) <==> UnderBox(RotateCellIndexLeft(i), RotateCellLeft(cell).chestTL)
  {
    RotateRect(cell.chestTL, BoxSize, BoxSize);
    RotateRectCover(cell.chestTL, BoxSize, BoxSize, i);
  }

  /** The rotated sword anchor, with the flipped orientation, is the top-left corner of
      the rotated sword. */
  lemma RotateRowFootprint(row: Row, i: int)
    requires SwordInBoard(row)
    requires OnBoard(i)
    ensures SwordInBoard(RotateRowLeft(row))
    ensures UnderSword(i, row.swordsTL, row.swordsHorizontal)
        <==> UnderSword(RotateCellIndexLeft(i), RotateRowLeft(row).swordsTL, RotateRowLeft(row).swordsHorizontal)
  {
    var h := row.swordsHorizontal;
    RotateRect(row.swordsTL, SwordWidth(h), SwordHeight(h));
    RotateRectCover(row.swordsTL, SwordWidth(h), SwordHeight(h), i);
  }

  /** Rotation keeps the blockers off a box. */
  lemma RotateBoxClear(cell: Cell, blockers: Mask)
    requires MaskOnBoard(blockers)
    requires BoxInBoard(cell)
    requires forall b :: b in blockers ==> !UnderBox(b, cell.chestTL)
    ensures forall b :: b in RotateCellMaskLeft(blockers) ==> !UnderBox(b, RotateCellLeft(cell).chestTL)
  {
    forall b | b in RotateCellMaskLeft(blockers) ensures !UnderBox(b, RotateCellLeft(cell).chestTL) {
      var b0 :| b0 in blockers && RotateCellIndexLeft(b0) == b;
      RotateCellFootprint(cell, b0);
    }
  }

  lemma RotateCellWellFormed(cell: Cell, row: Row, blockers: Mask)
    requires MaskOnBoard(blockers)
    requires SwordInBoard(row)
    requires CellWellFormed(cell, row, blockers)
    ensures CellWellFormed(RotateCellLeft(cell), RotateRowLeft(row), RotateCellMaskLeft(blockers))
  {
    var h := row.swordsHorizontal;
    var rc := RotateCellLeft(cell);
    var rr := RotateRowLeft(row);
    assert BoxInBoard(rc) by {
      RotateRect(cell.chestTL, BoxSize, BoxSize);
    }
    assert MaskOnBoard(rc.foxes) by {
      RotateMaskMembership(cell.foxes, 0);
    }
    RotateBoxClear(cell, blockers);
    assert RectsApart(rr.swordsTL, SwordWidth(rr.swordsHorizontal), SwordHeight(rr.swordsHorizontal),
                      rc.chestTL, BoxSize, BoxSize) by {
      RotateRectsApart(row.swordsTL, SwordWidth(h), SwordHeight(h), cell.chestTL, BoxSize, BoxSize);
    }
  }

  lemma RotateRowWellFormed(row: Row, blockers: Mask)
    requires MaskOnBoard(blockers)
    requires RowWellFormed(row, blockers)
    ensures RowWellFormed(RotateRowLeft(row), RotateCellMaskLeft(blockers))
  {
    var rr := RotateRowLeft(row);
    RotateRowFootprint(row, 0);
    forall b | b in RotateCellMaskLeft(blockers) ensures !UnderSword(b, rr.swordsTL, rr.swordsHorizontal) {
      var b0 :| b0 in blockers && RotateCellIndexLeft(b0) == b;
      RotateRowFootprint(row, b0);
    }
    forall k | 0 <= k < |rr.cells| ensures CellWellFormed(rr.cells[k], rr, RotateCellMaskLeft(blockers)) {
      RotateCellWellFormed(row.cells[k], row, blockers);
    }
  }

  /** Rotation keeps a sheet well formed: footprints on the board and clear of the blockers. */
  lemma RotateSheetWellFormed(sheet: Sheet)
    requires SheetWellFormed(sheet)
    ensures SheetWellFormed(RotateSheetLeft(sheet))
  {
    RotateMaskMembership(sheet.blockers, 0);
    forall k | 0 <= k < |sheet.rows|
      ensures RowWellFormed(RotateSheetLeft(sheet).rows[k], RotateCellMaskLeft(sheet.blockers))
    {
      RotateRowWellFormed(sheet.rows[k], sheet.blockers);
    }
  }

  lemma {:induction false} RotateSheetTimesWellFormed(sheet: Sheet, n: nat)
    requires SheetWellFormed(sheet)
    ensures SheetWellFormed(RotateSheetTimes(sheet, n))
  {
    if n > 0 {
      RotateSheetTimesWellFormed(sheet, n - 1);
      RotateSheetWellFormed(RotateSheetTimes(sheet, n - 1));
    }
  }

  function RotateCellFour(cell: Cell): Cell {
    RotateCellLeft(RotateCellLeft(RotateCellLeft(RotateCellLeft(cell))))
  }

  function RotateRowFour(row: Row): Row {
    RotateRowLeft(RotateRowLeft(RotateRowLeft(RotateRowLeft(row))))
  }

  lemma RotateCellFourTimes(cell: Cell)
    requires BoxInBoard(cell) && MaskOnBoard(cell.foxes)
    ensures RotateCellFour(cell) == cell
  {
    var c4 := RotateCellFour(cell);
    assert c4.chestTL == cell.chestTL by {
      RotateRectFourTimes(cell.chestTL, BoxSize, BoxSize);
    }
    assert c4.foxes == cell.foxes by {
      RotateMaskFourTimes(cell.foxes);
    }
  }

  lemma RotateRowFourTimes(row: Row, blockers: Mask)
    requires RowWellFormed(row, blockers)
    ensures RotateRowFour(row) == row
  {
    var h := row.swordsHorizontal;
    RotateRectFourTimes(row.swordsTL, SwordWidth(h), SwordHeight(h));
    var r4 := RotateRowFour(row);
    assert |r4.cells| == |row.cells|;
    forall k | 0 <= k < |row.cells| ensures r4.cells[k] == row.cells[k] {
      RotateCellFourTimes(row.cells[k]);
    }
  }

  /** Rotating a well-formed sheet four times gives back an equal sheet. */
  lemma RotateSheetFourTimes(sheet: Sheet)
    requires SheetWellFormed(sheet)
    ensures RotateSheetTimes(sheet, 4) == sheet
  {
    RotateMaskFourTimes(sheet.blockers);
    var s4 := RotateSheetTimes(sheet, 4);
    assert RotateSheetTimes(sheet, 1) == RotateSheetLeft(sheet);
    assert RotateSheetTimes(sheet, 2) == RotateSheetLeft(RotateSheetTimes(sheet, 1));
    assert RotateSheetTimes(sheet, 3) == RotateSheetLeft(RotateSheetTimes(sheet, 2));
    assert s4 == RotateSheetLeft(RotateSheetTimes(sheet, 3));
    assert |s4.rows| == |sheet.rows|;
    forall k | 0 <= k < |sheet.rows| ensures s4.rows[k] == sheet.rows[k] {
      RotateRowFourTimes(sheet.rows[k], sheet.blockers);
    }
  }

  // ---------------------------------------------------------------------------
  // The catalogue
  // ---------------------------------------------------------------------------

  /** The catalogue holds sixteen sheets: entry 4k+j is base sheet k rotated left j
      times, and every one of them is well formed. */
  lemma KnownPatternsShape()
    ensures |KnownPatterns()| == 16
    ensures forall n :: 0 <= n < 16 ==> KnownPatterns()[n] == RotateSheetTimes(KnownBaseSheets[n / 4], n % 4)
    ensures forall n :: 0 <= n < 16 ==> SheetWellFormed(KnownPatterns()[n])
  {
    BaseSheetsWellFormed();
    forall n | 0 <= n < 16 ensures SheetWellFormed(KnownPatterns()[n]) {
      RotateSheetTimesWellFormed(KnownBaseSheets[n / 4], n % 4);
    }
  }
}
