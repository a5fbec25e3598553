/** What the solver knows of the board: the tiles as last reported, and the blockers,
    sword and box/chest anchors read off them. Reading the tiles fails when they
    contradict each other. */
module Board {
  import opened Geometry
  import opened Tiles
  import opened Scan

  datatype Option<T> = None | Some(value: T)

  /** What AnalyzeBoard reads off a tile array. */
  datatype Summary = Summary(blockers: Mask, swordsTL: int, swordsHorizontal: bool, boxChestTL: int)

  datatype BoardState = BoardState(tiles: seq<Tile>, blockers: Mask, swordsTL: int, swordsHorizontal: bool, boxChestTL: int)

  // ---------------------------------------------------------------------------
  // Reading one tile
  // ---------------------------------------------------------------------------

  /** The two kinds of object whose pieces a tile can show. */
  datatype Kind = SwordKind | BoxChestKind

  /** The branch of AnalyzeBoard a tile takes: a Blocked tile is only a blocker; any
      other tile with a bit of Swords (rotation bits included) is a sword piece; any
      other tile with a bit of BoxChest is a box/chest piece. */
  predicate IsPiece(kind: Kind, t: Tile) {
    && !HasFlag(t, Blocked)
    && match kind
       case SwordKind => t & Swords != 0
       case BoxChestKind => t & Swords == 0 && t & BoxChest != 0
  }

  function Offset(kind: Kind, t: Tile): int {
    match kind
    case SwordKind => TLOffsetSwords(t)
    case BoxChestKind => TLOffsetBoxChest(t)
  }

  /** What the tile at index i says about the kind: nothing, or the anchor its offset
      implies and, for a sword, whether a rotation bit is set. */
  function ReadingAt(kind: Kind, t: Tile, i: int): Reading {
    if IsPiece(kind, t) then Reading.Piece(i - Offset(kind, t), kind == SwordKind && t & RotatedEither != 0)
    else Other
  }

  function Readings(kind: Kind, tiles: seq<Tile>): (rs: seq<Reading>)
    ensures |rs| == |tiles|
    ensures forall i :: 0 <= i < |tiles| ==> rs[i] == ReadingAt(kind, tiles[i], i)
  {
    seq(|tiles|, i requires 0 <= i < |tiles| => ReadingAt(kind, tiles[i], i))
  }

  function BlockersOf(tiles: seq<Tile>, n: nat): (m: Mask)
    requires n <= |tiles|
    ensures forall i :: i in m <==> 0 <= i < n && HasFlag(tiles[i], Blocked)
  {
    set i | 0 <= i < n && HasFlag(tiles[i], Blocked)
  }

  /** What the scan has recorded after the first n tiles: the blockers among them, the
      anchor and orientation of the last sword piece and the anchor of the last box/chest
      piece (-1 when there is none). */
  function Recorded(tiles: seq<Tile>, n: nat): Summary
    requires n <= |tiles|
  {
    var (swordsTL, swordsHoriz) := Found(Readings(SwordKind, tiles), n);
    Summary(BlockersOf(tiles, n), swordsTL, swordsHoriz, Found(Readings(BoxChestKind, tiles), n).0)
  }

  /** What AnalyzeBoard returns for a tile array: what was recorded, or nothing when
      the scan of either kind refuses a piece. */
  function Analysis(tiles: seq<Tile>): Option<Summary> {
    var n := |tiles|;
    if ScanOk(Readings(SwordKind, tiles), n) && ScanOk(Readings(BoxChestKind, tiles), n) then
      Some(Recorded(tiles, n))
    else
      None
  }

  /** The invariant every BoardState keeps: its blockers and anchors are what the
      analysis reads off its tiles. */
  predicate Consistent(b: BoardState) {
    Analysis(b.tiles) == Some(Summary(b.blockers, b.swordsTL, b.swordsHorizontal, b.boxChestTL))
  }

  /** n Unknown tiles show no piece and no blocker. */
  lemma UnknownTilesRead(n: nat)
    ensures Analysis(seq(n, _ => Unknown)) == Some(Summary({}, -1, false, -1))
  {
    var tiles: seq<Tile> := seq(n, _ => Unknown);
    NoPieces(Readings(SwordKind, tiles), n);
    NoPieces(Readings(BoxChestKind, tiles), n);
    assert BlockersOf(tiles, n) == {};
  }

  /** A board of n Unknown tiles with nothing found: the fresh board, and what a refused
      update leaves. */
  function Cleared(n: nat): (b: BoardState)
    ensures |b.tiles| == n && Consistent(b)
    ensures forall i :: 0 <= i < n ==> b.tiles[i] == Unknown
    ensures b.blockers == {} && b.swordsTL == -1 && !b.swordsHorizontal && b.boxChestTL == -1
  {
    UnknownTilesRead(n);
    BoardState(seq(n, _ => Unknown), {}, -1, false, -1)
  }

  /** A fresh BoardState: a full board of Unknown tiles, nothing found, consistent with
      its tiles. */
  function InitialBoard(): (b: BoardState)
    ensures |b.tiles| == BoardSize && Consistent(b)
    ensures forall i :: 0 <= i < |b.tiles| ==> b.tiles[i] == Unknown
    ensures b.blockers == {} && b.swordsTL == -1 && !b.swordsHorizontal && b.boxChestTL == -1
  {
    Cleared(BoardSize)
  }

  // ---------------------------------------------------------------------------
  // The scan
  // ---------------------------------------------------------------------------

  /** The blockers among the first i + 1 tiles. */
  lemma BlockersStep(tiles: seq<Tile>, i: nat)
    requires i < |tiles|
    ensures BlockersOf(tiles, i + 1) == BlockersOf(tiles, i) + (if HasFlag(tiles[i], Blocked) then {i} else {})
  {
  }

  /** The body of AnalyzeBoard's loop for tile i: a blocker is added; a sword or a
      box/chest piece is refused when its anchor is unknown or disagrees with the one
      recorded, and otherwise recorded. */
  method ScanTile(tiles: seq<Tile>, i: nat, acc: Summary) returns (ok: bool, next: Summary)
    requires i < |tiles|
    requires acc == Recorded(tiles, i)
    ensures ok <==> Accepts(Readings(SwordKind, tiles), i) && Accepts(Readings(BoxChestKind, tiles), i)
    ensures ok ==> next == Recorded(tiles, i + 1)
  {
    var t := tiles[i];
    if HasFlag(t, Blocked) {
      NotAPiece(tiles, i);
      ok, next := true, acc.(blockers := acc.blockers + {i});
    } else if t & Swords != 0 {
      ok, next := ScanSwordPiece(tiles, i, acc);
    } else if t & BoxChest != 0 {
      ok, next := ScanBoxChestPiece(tiles, i, acc);
    } else {
      NotAPiece(tiles, i);
      ok, next := true, acc;
    }
  }

  /** A tile that is no piece is accepted, and changes only the blockers. */
  lemma NotAPiece(tiles: seq<Tile>, i: nat)
    requires i < |tiles| && !IsPiece(SwordKind, tiles[i]) && !IsPiece(BoxChestKind, tiles[i])
    ensures Accepts(Readings(SwordKind, tiles), i) && Accepts(Readings(BoxChestKind, tiles), i)
    ensures Recorded(tiles, i + 1) == Recorded(tiles, i).(blockers := BlockersOf(tiles, i + 1))
    ensures BlockersOf(tiles, i + 1) == BlockersOf(tiles, i) + (if HasFlag(tiles[i], Blocked) then {i} else {})
  {
    StepOther(Readings(SwordKind, tiles), i);
    StepOther(Readings(BoxChestKind, tiles), i);
    BlockersStep(tiles, i);
  }

  /** Tile i is a sword piece: its anchor must be known and agree with the one recorded. */
  method ScanSwordPiece(tiles: seq<Tile>, i: nat, acc: Summary) returns (ok: bool, next: Summary)
    requires i < |tiles| && IsPiece(SwordKind, tiles[i])
    requires acc == Recorded(tiles, i)
    ensures ok <==> Accepts(Readings(SwordKind, tiles), i) && Accepts(Readings(BoxChestKind, tiles), i)
    ensures ok ==> next == Recorded(tiles, i + 1)
  {
    var t := tiles[i];
    var tl := i - TLOffsetSwords(t);
    var horiz := t & RotatedEither != 0;
    StepPiece(Readings(SwordKind, tiles), i, tl, horiz);
    StepOther(Readings(BoxChestKind, tiles), i);
    BlockersStep(tiles, i);
    if tl > i || (acc.swordsTL != -1 && (acc.swordsTL != tl || acc.swordsHorizontal != horiz)) {
      ok, next := false, acc;
    } else {
      ok, next := true, acc.(swordsTL := tl, swordsHorizontal := horiz);
    }
  }

  /** Tile i is a box or chest piece: its anchor must be known and agree with the one
      recorded. */
  method ScanBoxChestPiece(tiles: seq<Tile>, i: nat, acc: Summary) returns (ok: bool, next: Summary)
    requires i < |tiles| && IsPiece(BoxChestKind, tiles[i])
    requires acc == Recorded(tiles, i)
    ensures ok <==> Accepts(Readings(SwordKind, tiles), i) && Accepts(Readings(BoxChestKind, tiles), i)
    ensures ok ==> next == Recorded(tiles, i + 1)
  {
    var t := tiles[i];
    var tl := i - TLOffsetBoxChest(t);
    StepOther(Readings(SwordKind, tiles), i);
    StepPiece(Readings(BoxChestKind, tiles), i, tl, false);
    BlockersStep(tiles, i);
    if tl > i || (acc.boxChestTL != -1 && acc.boxChestTL != tl) {
      ok, next := false, acc;
    } else {
      ok, next := true, acc.(boxChestTL := tl);
    }
  }

  /** AnalyzeBoard: scan the tiles once, collecting blockers and checking that the
      sword pieces and the box/chest pieces each agree on one anchor. */
  method AnalyzeBoard(tiles: seq<Tile>) returns (r: Option<Summary>)
    ensures r == Analysis(tiles)
  {
    ghost var swords := Readings(SwordKind, tiles);
    ghost var boxes := Readings(BoxChestKind, tiles);
    var acc := Summary({}, -1, false, -1);
    var i := 0;
    while i < |tiles|
      invariant 0 <= i <= |tiles|
      invariant ScanOk(swords, i) && ScanOk(boxes, i)
      invariant acc == Recorded(tiles, i)
    {
      var ok;
      ok, acc := ScanTile(tiles, i, acc);
      if !ok {
        if ScanOk(swords, |tiles|) && ScanOk(boxes, |tiles|) {
          ScanOkPrefix(swords, i + 1, |tiles|);
          ScanOkPrefix(boxes, i + 1, |tiles|);
        }
        return None;
      }
      i := i + 1;
    }
    return Some(acc);
  }

  /** Update: on a consistent array, adopt the tiles and what was read off them; on an
      inconsistent one, clear the old tiles to Unknown (keeping their number) and forget
      everything found. Either way the new state is consistent with its tiles. */
  method Update(state: BoardState, tiles: seq<Tile>) returns (ok: bool, next: BoardState)
    ensures ok <==> Analysis(tiles).Some?
    ensures ok ==> var s := Analysis(tiles).value;
      next == BoardState(tiles, s.blockers, s.swordsTL, s.swordsHorizontal, s.boxChestTL)
    ensures Consistent(next)
    ensures !ok ==> && |next.tiles| == |state.tiles|
                    && (forall i :: 0 <= i < |next.tiles| ==> next.tiles[i] == Unknown)
                    && next.blockers == {} && next.swordsTL == -1 && !next.swordsHorizontal && next.boxChestTL == -1
  {
    var data := AnalyzeBoard(tiles);
    if data.Some? {
      var s := data.value;
      next := BoardState(tiles, s.blockers, s.swordsTL, s.swordsHorizontal, s.boxChestTL);
      ok := true;
    } else {
      next := Cleared(|state.tiles|);
      ok := false;
    }
  }
}
