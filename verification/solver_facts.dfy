/** What the scores mean: a cell of the only possible sword or box is marked as
    confirmed, because in a well-formed layout no box placement overlaps its own
    sword; and the solver over the catalogue itself. */
module SolverFacts {
  import opened Geometry
  import opened Patterns
  import opened Board
  import opened Matching
  import opened Solver
  import opened PatternFacts

  /** In every pair, the box placement shares no cell with the sword placement. */
  predicate PairsApart(pairs: seq<(Row, Cell)>) {
    forall p :: p in pairs ==>
      RectsApart(p.0.swordsTL, SwordWidth(p.0.swordsHorizontal), SwordHeight(p.0.swordsHorizontal),
                 p.1.chestTL, BoxSize, BoxSize)
  }

  /** The placements that survive matching on a well-formed sheet keep their boxes
      clear of their swords. */
  lemma MatchingPairsApart(board: BoardState, sheet: Sheet)
    requires SheetWellFormed(sheet)
    requires |board.tiles| >= BoardSize
    ensures PlacementsOnBoard(sheet)
    ensures PairsApart(MatchingPairs(board, sheet.rows))
  {
    WellFormedOnBoard(sheet);
    var pairs := MatchingPairs(board, sheet.rows);
    forall p | p in pairs
      ensures RectsApart(p.0.swordsTL, SwordWidth(p.0.swordsHorizontal), SwordHeight(p.0.swordsHorizontal),
                         p.1.chestTL, BoxSize, BoxSize)
    {
      var (row, cell) := p;
      assert (row, cell) in pairs;
      var k :| 0 <= k < |sheet.rows| && sheet.rows[k] == row;
      assert RowWellFormed(row, sheet.blockers);
      var c :| 0 <= c < |row.cells| && row.cells[c] == cell;
      assert CellWellFormed(row.cells[c], row, sheet.blockers);
    }
  }

  /** The only fox set left, when there is exactly one, covers cell i. */
  predicate FoxMarked(pairs: seq<(Row, Cell)>, i: int) {
    |FoxCandidates(pairs)| == 1 && exists m :: m in FoxCandidates(pairs) && i in m
  }

  /** With one sword placement left, every cell under it scores ConfirmedSword, unless
      the only fox set left marks it: no candidate box can cover it. */
  lemma ConfirmedSwordScore(pairs: seq<(Row, Cell)>, findSwordsFirst: bool, i: int, tl: int, horizontal: bool)
    requires PairsApart(pairs)
    requires SwordCandidates(pairs) == {(tl, horizontal)}
    requires UnderSword(i, tl, horizontal)
    ensures ScoreFor(pairs, findSwordsFirst, i) == if FoxMarked(pairs, i) then PotentialFox else ConfirmedSword
  {
    var swords := SwordCandidates(pairs);
    var boxes := BoxCandidates(pairs);
    assert SwordsCovering(swords, i) == {(tl, horizontal)};
    forall b | b in boxes
      ensures !UnderBox(i, b)
    {
      var p :| p in pairs && p.1.chestTL == b;
      assert (p.0.swordsTL, p.0.swordsHorizontal) in swords;
      RectsApartShareNoCell(tl, SwordWidth(horizontal), SwordHeight(horizontal), b, BoxSize, BoxSize, i);
    }
    assert BoxesCovering(boxes, i) == {};
  }

  /** With one box placement left, every cell under it scores ConfirmedBoxChest, unless
      the only fox set left marks it: no candidate sword can cover it. */
  lemma ConfirmedBoxScore(pairs: seq<(Row, Cell)>, findSwordsFirst: bool, i: int, tl: int)
    requires PairsApart(pairs)
    requires BoxCandidates(pairs) == {tl}
    requires UnderBox(i, tl)
    ensures ScoreFor(pairs, findSwordsFirst, i) == if FoxMarked(pairs, i) then PotentialFox else ConfirmedBoxChest
  {
    var swords := SwordCandidates(pairs);
    var boxes := BoxCandidates(pairs);
    assert BoxesCovering(boxes, i) == {tl};
    forall s | s in swords
      ensures !UnderSword(i, s.0, s.1)
    {
      var p :| p in pairs && (p.0.swordsTL, p.0.swordsHorizontal) == s;
      assert p.1.chestTL in boxes;
      RectsApartShareNoCell(s.0, SwordWidth(s.1), SwordHeight(s.1), tl, BoxSize, BoxSize, i);
    }
    assert SwordsCovering(swords, i) == {};
  }

  /** Once a sword tile has been seen, the only sword placement left is the one the
      board recorded. */
  lemma SeenSwordIsOnlyCandidate(board: BoardState, rows: seq<Row>)
    requires forall row :: row in rows ==> SwordInBoard(row)
    requires forall row, cell :: row in rows && cell in row.cells ==> BoxInBoard(cell)
    requires |board.tiles| >= BoardSize
    requires board.swordsTL != -1
    requires |MatchingPairs(board, rows)| > 0
    ensures SwordCandidates(MatchingPairs(board, rows)) == {(board.swordsTL, board.swordsHorizontal)}
  {
    var pairs := MatchingPairs(board, rows);
    assert pairs[0] in pairs;
    assert (pairs[0].0, pairs[0].1) in pairs;
  }

  /** Once a box or chest tile has been seen, the only box placement left is the one
      the board recorded. */
  lemma SeenBoxIsOnlyCandidate(board: BoardState, rows: seq<Row>)
    requires forall row :: row in rows ==> SwordInBoard(row)
    requires forall row, cell :: row in rows && cell in row.cells ==> BoxInBoard(cell)
    requires |board.tiles| >= BoardSize
    requires board.boxChestTL != -1
    requires |MatchingPairs(board, rows)| > 0
    ensures BoxCandidates(MatchingPairs(board, rows)) == {board.boxChestTL}
  {
    var pairs := MatchingPairs(board, rows);
    assert pairs[0] in pairs;
    assert (pairs[0].0, pairs[0].1) in pairs;
  }

  /** On a well-formed catalogue, once a sword tile has been seen and some placement
      survives, every cell of that sword scores ConfirmedSword unless a fox is marked
      there. */
  lemma SeenSwordScoresConfirmed(db: seq<Sheet>, board: BoardState, findSwordsFirst: bool, i: int, sheet: Sheet)
    requires forall sheet :: sheet in db ==> SheetWellFormed(sheet)
    requires forall sheet :: sheet in db ==> PlacementsOnBoard(sheet)
    requires |board.tiles| >= BoardSize
    requires board.swordsTL != -1
    requires MatchingSheet(db, board) == Some(sheet)
    requires assert sheet in db && PlacementsOnBoard(sheet); |MatchingPairs(board, sheet.rows)| > 0
    requires UnderSword(i, board.swordsTL, board.swordsHorizontal)
    ensures ExpectedScore(db, board, findSwordsFirst, i) ==
      if FoxMarked(MatchingPairs(board, sheet.rows), i) then PotentialFox else ConfirmedSword
  {
    MatchingPairsApart(board, sheet);
    SeenSwordIsOnlyCandidate(board, sheet.rows);
    ConfirmedSwordScore(MatchingPairs(board, sheet.rows), findSwordsFirst, i, board.swordsTL, board.swordsHorizontal);
  }

  /** The same for a seen box or chest. */
  lemma SeenBoxScoresConfirmed(db: seq<Sheet>, board: BoardState, findSwordsFirst: bool, i: int, sheet: Sheet)
    requires forall sheet :: sheet in db ==> SheetWellFormed(sheet)
    requires forall sheet :: sheet in db ==> PlacementsOnBoard(sheet)
    requires |board.tiles| >= BoardSize
    requires board.boxChestTL != -1
    requires MatchingSheet(db, board) == Some(sheet)
    requires assert sheet in db && PlacementsOnBoard(sheet); |MatchingPairs(board, sheet.rows)| > 0
    requires UnderBox(i, board.boxChestTL)
    ensures ExpectedScore(db, board, findSwordsFirst, i) ==
      if FoxMarked(MatchingPairs(board, sheet.rows), i) then PotentialFox else ConfirmedBoxChest
  {
    MatchingPairsApart(board, sheet);
    SeenBoxIsOnlyCandidate(board, sheet.rows);
    ConfirmedBoxScore(MatchingPairs(board, sheet.rows), findSwordsFirst, i, board.boxChestTL);
  }

  /** A cell that no surviving sword or box placement covers, and that no single fox
      set marks, scores 0. */
  lemma UncoveredCellScoresZero(pairs: seq<(Row, Cell)>, findSwordsFirst: bool, i: int)
    requires forall p :: p in pairs ==> !UnderSword(i, p.0.swordsTL, p.0.swordsHorizontal) && !UnderBox(i, p.1.chestTL)
    requires !FoxMarked(pairs, i)
    ensures ScoreFor(pairs, findSwordsFirst, i) == 0
  {
    var swords := SwordCandidates(pairs);
    var boxes := BoxCandidates(pairs);
    forall s | s in swords
      ensures !UnderSword(i, s.0, s.1)
    {
      var p :| p in pairs && (p.0.swordsTL, p.0.swordsHorizontal) == s;
    }
    assert SwordsCovering(swords, i) == {};
    forall b | b in boxes
      ensures !UnderBox(i, b)
    {
      var p :| p in pairs && p.1.chestTL == b;
    }
    assert BoxesCovering(boxes, i) == {};
  }

  /** While several swords are possible and the swords are hunted first, the box
      placements add nothing: away from a marked fox cell the score is the number of
      candidate swords covering the cell, unless a single box is confirmed. */
  lemma SwordsFirstIgnoresBoxes(pairs: seq<(Row, Cell)>, i: int)
    requires |SwordCandidates(pairs)| > 1
    requires |BoxCandidates(pairs)| != 1
    requires !FoxMarked(pairs, i)
    ensures ScoreFor(pairs, true, i) == |SwordsCovering(SwordCandidates(pairs), i)|
    ensures ScoreFor(pairs, false, i) ==
      |SwordsCovering(SwordCandidates(pairs), i)| + |BoxesCovering(BoxCandidates(pairs), i)|
  {
  }

  /** Every placement of every catalogue layout lies on the board. */
  lemma KnownPlacementsOnBoard()
    ensures forall sheet :: sheet in KnownPatterns() ==> PlacementsOnBoard(sheet)
  {
    KnownPatternsShape();
    forall sheet | sheet in KnownPatterns()
      ensures PlacementsOnBoard(sheet)
    {
      var n :| 0 <= n < |KnownPatterns()| && KnownPatterns()[n] == sheet;
      WellFormedOnBoard(sheet);
    }
  }

  /** The score cell i should get when the solver uses the catalogue. */
  function KnownScore(board: BoardState, findSwordsFirst: bool, i: int): int
    requires |board.tiles| >= BoardSize
  {
    KnownPlacementsOnBoard();
    ExpectedScore(KnownPatterns(), board, findSwordsFirst, i)
  }

  /** Solve over the sixteen catalogue layouts, which the solver always uses. */
  method SolveKnown(board: BoardState, findSwordsFirst: bool) returns (result: seq<int>)
    requires |board.tiles| >= BoardSize
    ensures |result| == BoardSize
    ensures forall i :: 0 <= i < BoardSize ==> result[i] == KnownScore(board, findSwordsFirst, i)
    ensures MatchingSheet(KnownPatterns(), board).None? ==> forall i :: 0 <= i < BoardSize ==> result[i] == 0
  {
    KnownPlacementsOnBoard();
    result := Solve(KnownPatterns(), board, findSwordsFirst);
  }
}
