/** Soundness of the solver's reading of the board: whatever cells of a true layout
    have been opened, the board is accepted with the true anchors (or -1 while nothing
    of the piece is seen), and the true sword and box placements stay among the
    solver's candidates. */
module SimulationFacts {
  import opened Geometry
  import opened Patterns
  import opened Tiles
  import opened Scan
  import opened Board
  import opened Footprints
  import opened Matching
  import opened Solver
  import opened Simulator

  /** Some opened cell lies under the sword, or under the box. */
  predicate SwordSeen(row: Row, revealed: set<int>) {
    exists i :: i in revealed && UnderSword(i, row.swordsTL, row.swordsHorizontal)
  }

  predicate BoxSeen(cell: Cell, revealed: set<int>) {
    exists i :: i in revealed && UnderBox(i, cell.chestTL)
  }

  /** The board state the simulator's Update leaves behind. */
  function SimBoard(sheet: Sheet, row: Row, cell: Cell, fox: int, revealed: set<int>): BoardState {
    var seen := SwordSeen(row, revealed);
    BoardState(Observed(sheet, row, cell, fox, revealed), sheet.blockers,
               if seen then row.swordsTL else -1, seen && row.swordsHorizontal,
               if BoxSeen(cell, revealed) then cell.chestTL else -1)
  }

  /** A cell lies under a placement exactly when its offset from the anchor is one of
      the placement's offsets. */
  lemma UnderSwordOffset(tl: int, horizontal: bool, i: int)
    requires RectInBoard(tl, SwordWidth(horizontal), SwordHeight(horizontal))
    ensures UnderSword(i, tl, horizontal) <==> i in SwordIndices(tl, horizontal)
    ensures UnderSword(i, tl, horizontal) ==> i - tl in SwordOffsets(horizontal) && tl <= i
  {
    SwordIndicesListing(tl);
  }

  lemma UnderBoxOffset(tl: int, i: int)
    requires RectInBoard(tl, BoxSize, BoxSize)
    ensures UnderBox(i, tl) <==> i in BoxChestIndices(tl)
    ensures UnderBox(i, tl) ==> i - tl in BoxOffsets && tl <= i
  {
    BoxChestIndicesListing(tl);
  }

  /** What the analysis reads off one cell of a simulated board. */
  lemma ObservedAt(sheet: Sheet, row: Row, cell: Cell, fox: int, revealed: set<int>, i: int)
    requires TrueLayout(sheet, row, cell)
    requires 0 <= i < BoardSize
    ensures var t := Observed(sheet, row, cell, fox, revealed)[i];
      && ReadingAt(SwordKind, t, i) ==
           (if i in revealed && UnderSword(i, row.swordsTL, row.swordsHorizontal)
            then Reading.Piece(row.swordsTL, row.swordsHorizontal) else Other)
      && ReadingAt(BoxChestKind, t, i) ==
           (if i in revealed && UnderBox(i, cell.chestTL) then Reading.Piece(cell.chestTL, false) else Other)
      && (HasFlag(t, Blocked) <==> i in sheet.blockers)
  {
    var tl, h, ctl := row.swordsTL, row.swordsHorizontal, cell.chestTL;
    UnderSwordOffset(tl, h, i);
    UnderBoxOffset(ctl, i);
    RectsApartShareNoCell(tl, SwordWidth(h), SwordHeight(h), ctl, BoxSize, BoxSize, i);
    if i in revealed && UnderSword(i, tl, h) {
      ObservedSwordCell(sheet, row, cell, fox, revealed, i);
    } else if i in revealed && UnderBox(i, ctl) {
      ObservedBoxCell(sheet, row, cell, fox, revealed, i);
    } else {
      ObservedOtherCell(sheet, row, cell, fox, revealed, i);
    }
  }

  lemma ObservedSwordCell(sheet: Sheet, row: Row, cell: Cell, fox: int, revealed: set<int>, i: int)
    requires TrueLayout(sheet, row, cell)
    requires 0 <= i < BoardSize && i in revealed && UnderSword(i, row.swordsTL, row.swordsHorizontal)
    ensures var t := Observed(sheet, row, cell, fox, revealed)[i];
      && ReadingAt(SwordKind, t, i) == Reading.Piece(row.swordsTL, row.swordsHorizontal)
      && ReadingAt(BoxChestKind, t, i) == Other
      && !HasFlag(t, Blocked) && i !in sheet.blockers
  {
    var tl, h := row.swordsTL, row.swordsHorizontal;
    UnderSwordOffset(tl, h, i);
    assert i !in sheet.blockers;
    assert Observed(sheet, row, cell, fox, revealed)[i] == SimSwordTile(i - tl, h);
    SimSwordRoundTrip(i - tl, h);
  }

  lemma ObservedBoxCell(sheet: Sheet, row: Row, cell: Cell, fox: int, revealed: set<int>, i: int)
    requires TrueLayout(sheet, row, cell)
    requires 0 <= i < BoardSize && i in revealed && UnderBox(i, cell.chestTL)
    ensures var t := Observed(sheet, row, cell, fox, revealed)[i];
      && ReadingAt(SwordKind, t, i) == Other
      && ReadingAt(BoxChestKind, t, i) == Reading.Piece(cell.chestTL, false)
      && !HasFlag(t, Blocked) && i !in sheet.blockers
  {
    var tl, h, ctl := row.swordsTL, row.swordsHorizontal, cell.chestTL;
    UnderSwordOffset(tl, h, i);
    UnderBoxOffset(ctl, i);
    RectsApartShareNoCell(tl, SwordWidth(h), SwordHeight(h), ctl, BoxSize, BoxSize, i);
    assert i !in sheet.blockers;
    assert Observed(sheet, row, cell, fox, revealed)[i] == SimBoxTile(i - ctl);
    SimBoxRoundTrip(i - ctl);
  }

  lemma ObservedOtherCell(sheet: Sheet, row: Row, cell: Cell, fox: int, revealed: set<int>, i: int)
    requires TrueLayout(sheet, row, cell)
    requires 0 <= i < BoardSize
    requires !(i in revealed && UnderSword(i, row.swordsTL, row.swordsHorizontal))
    requires !(i in revealed && UnderBox(i, cell.chestTL))
    ensures var t := Observed(sheet, row, cell, fox, revealed)[i];
      && ReadingAt(SwordKind, t, i) == Other
      && ReadingAt(BoxChestKind, t, i) == Other
      && (HasFlag(t, Blocked) <==> i in sheet.blockers)
  {
    var tl, h, ctl := row.swordsTL, row.swordsHorizontal, cell.chestTL;
    UnderSwordOffset(tl, h, i);
    UnderBoxOffset(ctl, i);
    var t := Observed(sheet, row, cell, fox, revealed)[i];
    assert t in [Hidden, Blocked, Empty, Commander];
    OtherTilesAreNoPieces();
    assert HasFlag(t, Blocked) <==> t == Blocked;
  }

  /** Readings that are all one piece, lying at or after its anchor, or nothing, pass
      the scan, and the scan records that piece as soon as one is present. */
  lemma OnePieceScan(rs: seq<Reading>, anchor: int, turned: bool)
    requires anchor != -1
    requires forall i :: 0 <= i < |rs| ==> rs[i] == Other || (rs[i] == Reading.Piece(anchor, turned) && anchor <= i)
    ensures ScanOk(rs, |rs|)
    ensures Found(rs, |rs|) == if exists i :: 0 <= i < |rs| && rs[i].Piece? then (anchor, turned) else (-1, false)
  {
    assert Agree(rs, |rs|);
    ScanOkIffAgree(rs, |rs|);
    if j :| 0 <= j < |rs| && rs[j].Piece? {
      AgreeFound(rs, |rs|, j);
    } else {
      NoPieces(rs, |rs|);
    }
  }

  /** The readings of a simulated board: the true sword at every opened sword cell and
      the true box at every opened box cell, nothing elsewhere. */
  lemma SimulatedReadings(sheet: Sheet, row: Row, cell: Cell, fox: int, revealed: set<int>)
    requires TrueLayout(sheet, row, cell)
    ensures var tiles := Observed(sheet, row, cell, fox, revealed);
      && (forall i :: 0 <= i < BoardSize ==>
            Readings(SwordKind, tiles)[i] ==
              if i in revealed && UnderSword(i, row.swordsTL, row.swordsHorizontal)
              then Reading.Piece(row.swordsTL, row.swordsHorizontal) else Other)
      && (forall i :: 0 <= i < BoardSize ==>
            Readings(BoxChestKind, tiles)[i] ==
              if i in revealed && UnderBox(i, cell.chestTL) then Reading.Piece(cell.chestTL, false) else Other)
      && BlockersOf(tiles, BoardSize) == sheet.blockers
  {
    var tiles := Observed(sheet, row, cell, fox, revealed);
    forall i | 0 <= i < BoardSize
      ensures Readings(SwordKind, tiles)[i] ==
            if i in revealed && UnderSword(i, row.swordsTL, row.swordsHorizontal)
            then Reading.Piece(row.swordsTL, row.swordsHorizontal) else Other
      ensures Readings(BoxChestKind, tiles)[i] ==
            if i in revealed && UnderBox(i, cell.chestTL) then Reading.Piece(cell.chestTL, false) else Other
      ensures HasFlag(tiles[i], Blocked) <==> i in sheet.blockers
    {
      ObservedAt(sheet, row, cell, fox, revealed, i);
    }
  }

  /** A board whose sword readings are all one sword and whose box readings are all
      one box is accepted with those anchors, or -1 where no piece is shown. */
  lemma OnePieceEachAccepted(tiles: seq<Tile>, tl: int, h: bool, ctl: int, blockers: Mask, swordSeen: bool, boxSeen: bool)
    requires tl != -1 && ctl != -1
    requires forall i :: 0 <= i < |tiles| ==>
      Readings(SwordKind, tiles)[i] == Other || (Readings(SwordKind, tiles)[i] == Reading.Piece(tl, h) && tl <= i)
    requires forall i :: 0 <= i < |tiles| ==>
      Readings(BoxChestKind, tiles)[i] == Other || (Readings(BoxChestKind, tiles)[i] == Reading.Piece(ctl, false) && ctl <= i)
    requires swordSeen <==> exists i :: 0 <= i < |tiles| && Readings(SwordKind, tiles)[i].Piece?
    requires boxSeen <==> exists i :: 0 <= i < |tiles| && Readings(BoxChestKind, tiles)[i].Piece?
    requires BlockersOf(tiles, |tiles|) == blockers
    ensures Analysis(tiles) == Some(Summary(blockers, if swordSeen then tl else -1, swordSeen && h, if boxSeen then ctl else -1))
  {
    OnePieceScan(Readings(SwordKind, tiles), tl, h);
    OnePieceScan(Readings(BoxChestKind, tiles), ctl, false);
  }

  /** Every board the simulator shows is accepted: the blockers are the sheet's, and
      the sword and box anchors are the true ones once a cell of the piece is open, -1
      before. */
  lemma SimulatedBoardAccepted(sheet: Sheet, row: Row, cell: Cell, fox: int, revealed: set<int>)
    requires TrueLayout(sheet, row, cell)
    ensures var b := SimBoard(sheet, row, cell, fox, revealed);
      Analysis(b.tiles) == Some(Summary(b.blockers, b.swordsTL, b.swordsHorizontal, b.boxChestTL))
  {
    var tl, h, ctl := row.swordsTL, row.swordsHorizontal, cell.chestTL;
    var tiles := Observed(sheet, row, cell, fox, revealed);
    var sw, bx := Readings(SwordKind, tiles), Readings(BoxChestKind, tiles);
    SimulatedReadings(sheet, row, cell, fox, revealed);
    forall i | 0 <= i < BoardSize
      ensures UnderSword(i, tl, h) ==> tl <= i
      ensures UnderBox(i, ctl) ==> ctl <= i
    {
      UnderSwordOffset(tl, h, i);
      UnderBoxOffset(ctl, i);
    }
    assert SwordSeen(row, revealed) <==> exists i :: 0 <= i < |tiles| && sw[i].Piece?;
    assert BoxSeen(cell, revealed) <==> exists i :: 0 <= i < |tiles| && bx[i].Piece?;
    OnePieceEachAccepted(tiles, tl, h, ctl, sheet.blockers, SwordSeen(row, revealed), BoxSeen(cell, revealed));
  }

  /** The solver never rules out the truth: on any simulated board the true sheet
      matches, and the true sword placement paired with the true box placement is among
      the matching pairs, so the true sword, box and fox set are all candidates. */
  lemma TruePairSurvives(sheet: Sheet, row: Row, cell: Cell, fox: int, revealed: set<int>)
    requires TrueLayout(sheet, row, cell) && PlacementsOnBoard(sheet)
    requires row in sheet.rows && cell in row.cells
    ensures var b := SimBoard(sheet, row, cell, fox, revealed);
      && MatchesSheet(b, sheet)
      && (row, cell) in MatchingPairs(b, sheet.rows)
      && (row.swordsTL, row.swordsHorizontal) in SwordCandidates(MatchingPairs(b, sheet.rows))
      && cell.chestTL in BoxCandidates(MatchingPairs(b, sheet.rows))
      && cell.foxes in FoxCandidates(MatchingPairs(b, sheet.rows))
  {
    var b := SimBoard(sheet, row, cell, fox, revealed);
    var tl, h, ctl := row.swordsTL, row.swordsHorizontal, cell.chestTL;
    MatchesRowMeaning(b, row);
    MatchesCellMeaning(b, cell);
    if !SwordSeen(row, revealed) {
      forall i | UnderSword(i, tl, h) ensures b.tiles[i] == Hidden {
        assert i !in revealed && i !in sheet.blockers;
      }
    }
    if !BoxSeen(cell, revealed) {
      forall i | UnderBox(i, ctl) ensures b.tiles[i] == Hidden {
        assert i !in revealed && i !in sheet.blockers;
      }
    }
    assert MatchesRow(b, row) && MatchesCell(b, cell);
    var pairs := MatchingPairs(b, sheet.rows);
    assert (row, cell) in pairs;
  }
}
