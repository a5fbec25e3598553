/** What AnalyzeBoard's answer means for the tiles: when it succeeds, when it refuses,
    and what the anchors it records say about the pieces on the board. */
module BoardFacts {
  import opened Geometry
  import opened Tiles
  import opened Scan
  import opened Board

  /** The analysis succeeds exactly when, for each kind, every piece lies at or after
      the anchor it implies and every piece after one with an anchor other than -1
      implies the same anchor and orientation. */
  lemma AnalysisSucceedsIffAgree(tiles: seq<Tile>)
    ensures Analysis(tiles).Some? <==>
      Agree(Readings(SwordKind, tiles), |tiles|) && Agree(Readings(BoxChestKind, tiles), |tiles|)
  {
    ScanOkIffAgree(Readings(SwordKind, tiles), |tiles|);
    ScanOkIffAgree(Readings(BoxChestKind, tiles), |tiles|);
  }

  /** A board with no piece on it is accepted: the blockers are its Blocked tiles and no
      anchor is recorded. */
  lemma NoPiecesAccepted(tiles: seq<Tile>)
    requires forall i :: 0 <= i < |tiles| ==> !IsPiece(SwordKind, tiles[i]) && !IsPiece(BoxChestKind, tiles[i])
    ensures Analysis(tiles) == Some(Summary(BlockersOf(tiles, |tiles|), -1, false, -1))
  {
    NoPieces(Readings(SwordKind, tiles), |tiles|);
    NoPieces(Readings(BoxChestKind, tiles), |tiles|);
  }

  /** A tile with the Blocked flag counts only as a blocker: whatever other bits it
      carries, the analysis is the same as for any other blocked tile there. */
  lemma BlockedTileIgnored(tiles: seq<Tile>, i: nat, t: Tile)
    requires i < |tiles|
    requires HasFlag(tiles[i], Blocked) && HasFlag(t, Blocked)
    ensures Analysis(tiles[i := t]) == Analysis(tiles)
  {
    var other := tiles[i := t];
    assert Readings(SwordKind, other) == Readings(SwordKind, tiles);
    assert Readings(BoxChestKind, other) == Readings(BoxChestKind, tiles);
    assert BlockersOf(other, |other|) == BlockersOf(tiles, |tiles|);
  }

  /** A fully hidden board is accepted with nothing found. */
  lemma HiddenBoardAccepted(tiles: seq<Tile>)
    requires forall i :: 0 <= i < |tiles| ==> tiles[i] == Hidden
    ensures Analysis(tiles) == Some(Summary({}, -1, false, -1))
  {
    NoPiecesAccepted(tiles);
    assert BlockersOf(tiles, |tiles|) == {} by {
      forall i | 0 <= i < |tiles| ensures !HasFlag(tiles[i], Blocked) {}
    }
  }

  /** A sword piece the offset table does not know (for instance two piece bits at
      once) makes the whole analysis fail. */
  lemma UnknownSwordPieceRefused(tiles: seq<Tile>, i: nat)
    requires i < |tiles| && IsPiece(SwordKind, tiles[i]) && TLOffsetSwords(tiles[i]) == -1
    ensures Analysis(tiles) == None
  {
    AnalysisSucceedsIffAgree(tiles);
    assert Readings(SwordKind, tiles)[i].anchor == i + 1;
  }

  /** The same for a box or chest piece. */
  lemma UnknownBoxChestPieceRefused(tiles: seq<Tile>, i: nat)
    requires i < |tiles| && IsPiece(BoxChestKind, tiles[i]) && TLOffsetBoxChest(tiles[i]) == -1
    ensures Analysis(tiles) == None
  {
    AnalysisSucceedsIffAgree(tiles);
    assert Readings(BoxChestKind, tiles)[i].anchor == i + 1;
  }

  /** A box or chest piece carrying a rotation bit is read as a sword piece (the
      rotation bits belong to Swords) that the sword table does not know, so the
      analysis fails. */
  lemma RotatedBoxChestRefused(tiles: seq<Tile>, i: nat)
    requires i < |tiles| && !HasFlag(tiles[i], Blocked)
    requires tiles[i] & (BoxChest & !RotatedEither) != 0 && tiles[i] & RotatedEither != 0
    ensures Analysis(tiles) == None
  {
    RotatedBoxChestIsNotASword(tiles[i]);
    UnknownSwordPieceRefused(tiles, i);
  }

  /** Two pieces of one kind that imply different anchors, the earlier one not -1, make
      the analysis fail. */
  lemma DisagreeingPiecesRefused(tiles: seq<Tile>, kind: Kind, j: nat, i: nat)
    requires j < i < |tiles| && IsPiece(kind, tiles[j]) && IsPiece(kind, tiles[i])
    requires j - Offset(kind, tiles[j]) != -1
    requires j - Offset(kind, tiles[j]) != i - Offset(kind, tiles[i])
    ensures Analysis(tiles) == None
  {
    AnalysisSucceedsIffAgree(tiles);
    var rs := Readings(kind, tiles);
    assert rs[j].anchor != rs[i].anchor;
  }

  /** Two sword pieces that differ in whether a rotation bit is set, the earlier one
      with an anchor other than -1, make the analysis fail. */
  lemma MixedOrientationRefused(tiles: seq<Tile>, j: nat, i: nat)
    requires j < i < |tiles| && IsPiece(SwordKind, tiles[j]) && IsPiece(SwordKind, tiles[i])
    requires j - TLOffsetSwords(tiles[j]) != -1
    requires (tiles[j] & RotatedEither != 0) != (tiles[i] & RotatedEither != 0)
    ensures Analysis(tiles) == None
  {
    AnalysisSucceedsIffAgree(tiles);
    var rs := Readings(SwordKind, tiles);
    assert rs[j].turned != rs[i].turned;
  }

  /** After a successful analysis, every sword piece whose anchor is not -1 lies in the
      recorded sword: its index minus its offset is the recorded anchor, and the recorded
      orientation is horizontal exactly when the piece carries a rotation bit. */
  lemma RecordedSwordMatchesPieces(tiles: seq<Tile>, j: nat)
    requires Analysis(tiles).Some?
    requires j < |tiles| && IsPiece(SwordKind, tiles[j]) && j - TLOffsetSwords(tiles[j]) != -1
    ensures Analysis(tiles).value.swordsTL == j - TLOffsetSwords(tiles[j])
    ensures Analysis(tiles).value.swordsHorizontal <==> tiles[j] & RotatedEither != 0
  {
    AnalysisSucceedsIffAgree(tiles);
    AgreeFound(Readings(SwordKind, tiles), |tiles|, j);
  }

  /** The same for the box/chest anchor. */
  lemma RecordedBoxChestMatchesPieces(tiles: seq<Tile>, j: nat)
    requires Analysis(tiles).Some?
    requires j < |tiles| && IsPiece(BoxChestKind, tiles[j]) && j - TLOffsetBoxChest(tiles[j]) != -1
    ensures Analysis(tiles).value.boxChestTL == j - TLOffsetBoxChest(tiles[j])
  {
    AnalysisSucceedsIffAgree(tiles);
    AgreeFound(Readings(BoxChestKind, tiles), |tiles|, j);
  }

  /** A piece whose anchor works out to -1 is accepted without being compared with
      anything: a sword's top-right piece in the first cell, followed by an upright
      top-left piece at index 5, is read as one sword anchored at 5. */
  lemma MinusOneAnchorNotCompared()
    ensures Analysis([SwordsTR, Hidden, Hidden, Hidden, Hidden, SwordsTL]) == Some(Summary({}, 5, false, -1))
  {
    var tiles := [SwordsTR, Hidden, Hidden, Hidden, Hidden, SwordsTL];
    var rs := Readings(SwordKind, tiles);
    assert rs[0] == Reading.Piece(-1, false);
    assert rs[1] == rs[2] == rs[3] == rs[4] == Other;
    assert rs[5] == Reading.Piece(5, false);
    assert Agree(rs, 6);
    assert LastPiece(rs, 6) == 5;
    NoPieces(Readings(BoxChestKind, tiles), |tiles|);
    AnalysisSucceedsIffAgree(tiles);
    assert BlockersOf(tiles, 6) == {} by {
      forall i | 0 <= i < 6 ensures !HasFlag(tiles[i], Blocked) {}
    }
  }
}
