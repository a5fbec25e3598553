/** The solver: finds the layout whose blockers match the board, collects every sword,
    box and fox placement of that layout still consistent with the board, and scores
    each cell of the board from them. */
module Solver {
  import opened Geometry
  import opened Patterns
  import opened Board
  import opened Counting
  import opened Footprints
  import opened Matching

  /** Special scores: a cell of the only possible sword, of the only possible box or
      chest, or of the only possible fox set. Ordinary scores count placements. */
  const ConfirmedSword: int := -2
  const ConfirmedBoxChest: int := -3
  const PotentialFox: int := -4

  // ---------------------------------------------------------------------------
  // What the scores should be
  // ---------------------------------------------------------------------------

  /** The distinct sword placements, box anchors and fox sets among the matching pairs. */
  function SwordCandidates(pairs: seq<(Row, Cell)>): set<(int, bool)> {
    set p | p in pairs :: (p.0.swordsTL, p.0.swordsHorizontal)
  }

  function BoxCandidates(pairs: seq<(Row, Cell)>): set<int> {
    set p | p in pairs :: p.1.chestTL
  }

  function FoxCandidates(pairs: seq<(Row, Cell)>): set<Mask> {
    set p | p in pairs :: p.1.foxes
  }

  /** The candidate swords, and boxes, covering cell i. */
  function SwordsCovering(swords: set<(int, bool)>, i: int): set<(int, bool)> {
    set s | s in swords && UnderSword(i, s.0, s.1)
  }

  function BoxesCovering(boxes: set<int>, i: int): set<int> {
    set b | b in boxes && UnderBox(i, b)
  }

  /** A single sword candidate is confirmed; otherwise each candidate adds 1. */
  function SwordsScore(swordCount: int): int {
    if swordCount == 1 then ConfirmedSword else 1
  }

  /** A single box candidate is confirmed; otherwise each adds 1, or nothing while the
      swords are hunted first and more than one sword is possible. */
  function BoxScore(boxCount: int, swordCount: int, findSwordsFirst: bool): int {
    if boxCount == 1 then ConfirmedBoxChest
    else if findSwordsFirst && swordCount > 1 then 0
    else 1
  }

  /** The score cell i should get from the matching pairs: PotentialFox on a cell of
      the only possible fox set, and otherwise the sword score times the number of
      candidate swords covering the cell plus the box score times the number of
      candidate boxes covering it. */
  function ScoreFor(pairs: seq<(Row, Cell)>, findSwordsFirst: bool, i: int): int {
    var swords := SwordCandidates(pairs);
    var boxes := BoxCandidates(pairs);
    var foxes := FoxCandidates(pairs);
    if |foxes| == 1 && exists m :: m in foxes && i in m then PotentialFox
    else
      SwordsScore(|swords|) * |SwordsCovering(swords, i)|
      + BoxScore(|boxes|, |swords|, findSwordsFirst) * |BoxesCovering(boxes, i)|
  }

  /** The score cell i should get on this board: 0 everywhere when no layout matches. */
  function ExpectedScore(db: seq<Sheet>, board: BoardState, findSwordsFirst: bool, i: int): int
    requires forall sheet :: sheet in db ==> PlacementsOnBoard(sheet)
    requires |board.tiles| >= BoardSize
  {
    match MatchingSheet(db, board)
    case None => 0
    case Some(sheet) =>
      assert sheet in db && PlacementsOnBoard(sheet);
      ScoreFor(MatchingPairs(board, sheet.rows), findSwordsFirst, i)
  }

  // ---------------------------------------------------------------------------
  // Solve
  // ---------------------------------------------------------------------------

  /** Solve: one score per cell of the board. */
  method Solve(db: seq<Sheet>, board: BoardState, findSwordsFirst: bool) returns (result: seq<int>)
    requires forall sheet :: sheet in db ==> PlacementsOnBoard(sheet)
    requires |board.tiles| >= BoardSize
    ensures |result| == BoardSize
    ensures forall i :: 0 <= i < BoardSize ==> result[i] == ExpectedScore(db, board, findSwordsFirst, i)
    ensures MatchingSheet(db, board).None? ==> forall i :: 0 <= i < BoardSize ==> result[i] == 0
  {
    result := seq(BoardSize, _ => 0);
    var sheet := MatchingSheet(db, board);
    if sheet.None? {
      return;
    }
    var pairs := MatchingPairs(board, sheet.value.rows);
    var swords, boxes, foxes := CollectCandidates(pairs);
    var swordsScore := SwordsScore(|swords|);
    var boxScore := BoxScore(|boxes|, |swords|, findSwordsFirst);
    var zero := result;
    result := AddSwordScores(result, swords, swordsScore);
    result := AddBoxScores(result, boxes, boxScore);
    var scored := result;
    if |foxes| == 1 {
      result := MarkFoxes(result, foxes[0]);
    }
    forall i | 0 <= i < BoardSize
      ensures result[i] == ScoreFor(pairs, findSwordsFirst, i)
    {
      ScoresAgree(pairs, swords, boxes, foxes, findSwordsFirst, i);
    }
  }

  /** The candidate sets, each listed without repetitions as a HashSet holds them. */
  method CollectCandidates(pairs: seq<(Row, Cell)>) returns (swords: seq<(int, bool)>, boxes: seq<int>, foxes: seq<Mask>)
    ensures Distinct(swords) && Distinct(boxes) && Distinct(foxes)
    ensures forall s :: s in swords <==> s in SwordCandidates(pairs)
    ensures forall b :: b in boxes <==> b in BoxCandidates(pairs)
    ensures forall f :: f in foxes <==> f in FoxCandidates(pairs)
  {
    swords, boxes, foxes := [], [], [];
    var k := 0;
    while k < |pairs|
      invariant 0 <= k <= |pairs|
      invariant Distinct(swords) && Distinct(boxes) && Distinct(foxes)
      invariant forall s :: s in swords <==> s in SwordCandidates(pairs[..k])
      invariant forall b :: b in boxes <==> b in BoxCandidates(pairs[..k])
      invariant forall f :: f in foxes <==> f in FoxCandidates(pairs[..k])
    {
      var (r, c) := pairs[k];
      swords := AddNew(swords, (r.swordsTL, r.swordsHorizontal));
      boxes := AddNew(boxes, c.chestTL);
      foxes := AddNew(foxes, c.foxes);
      assert pairs[..k + 1] == pairs[..k] + [pairs[k]];
      k := k + 1;
    }
    assert pairs[..k] == pairs;
  }

  /** Adds score to every listed cell. */
  method AddScore(result: seq<int>, indices: seq<int>, score: int) returns (r: seq<int>)
    requires Distinct(indices)
    requires forall k :: 0 <= k < |indices| ==> 0 <= indices[k] < |result|
    ensures |r| == |result|
    ensures forall i :: 0 <= i < |r| ==> r[i] == result[i] + (if i in indices then score else 0)
  {
    r := result;
    var k := 0;
    while k < |indices|
      invariant 0 <= k <= |indices|
      invariant |r| == |result|
      invariant forall i :: 0 <= i < |r| ==> r[i] == result[i] + (if i in indices[..k] then score else 0)
    {
      r := r[indices[k] := r[indices[k]] + score];
      assert indices[..k + 1] == indices[..k] + [indices[k]];
      k := k + 1;
    }
    assert indices[..k] == indices;
  }

  /** The candidate swords covering cell i. */
  function Covers(i: int): ((int, bool)) -> bool {
    (s: (int, bool)) => UnderSword(i, s.0, s.1)
  }

  /** The candidate boxes covering cell i. */
  function BoxCovers(i: int): int -> bool {
    (b: int) => UnderBox(i, b)
  }

  /** Adds the sword score to every cell of every candidate sword. */
  method AddSwordScores(result: seq<int>, swords: seq<(int, bool)>, score: int) returns (r: seq<int>)
    requires |result| == BoardSize
    requires forall s :: s in swords ==> RectInBoard(s.0, SwordWidth(s.1), SwordHeight(s.1))
    ensures |r| == BoardSize
    ensures forall i :: 0 <= i < BoardSize ==> r[i] == result[i] + SumIf(swords, Covers(i), score)
  {
    r := result;
    var k := 0;
    while k < |swords|
      invariant 0 <= k <= |swords|
      invariant |r| == BoardSize
      invariant forall i :: 0 <= i < BoardSize ==> r[i] == result[i] + SumIf(swords[..k], Covers(i), score)
    {
      var (tl, h) := swords[k];
      assert swords[k] in swords;
      r := AddScore(r, SwordIndices(tl, h), score);
      assert swords[..k + 1][..k] == swords[..k];
      k := k + 1;
    }
    assert swords[..k] == swords;
  }

  /** Adds the box score to every cell of every candidate box. */
  method AddBoxScores(result: seq<int>, boxes: seq<int>, score: int) returns (r: seq<int>)
    requires |result| == BoardSize
    requires forall b :: b in boxes ==> RectInBoard(b, BoxSize, BoxSize)
    ensures |r| == BoardSize
    ensures forall i :: 0 <= i < BoardSize ==> r[i] == result[i] + SumIf(boxes, BoxCovers(i), score)
  {
    r := result;
    var k := 0;
    while k < |boxes|
      invariant 0 <= k <= |boxes|
      invariant |r| == BoardSize
      invariant forall i :: 0 <= i < BoardSize ==> r[i] == result[i] + SumIf(boxes[..k], BoxCovers(i), score)
    {
      assert boxes[k] in boxes;
      r := AddScore(r, BoxChestIndices(boxes[k]), score);
      assert boxes[..k + 1][..k] == boxes[..k];
      k := k + 1;
    }
    assert boxes[..k] == boxes;
  }

  /** Every cell of the fox set gets PotentialFox, the others keep their score. */
  method MarkFoxes(result: seq<int>, foxes: Mask) returns (r: seq<int>)
    requires |result| == BoardSize
    ensures |r| == BoardSize
    ensures forall i :: 0 <= i < BoardSize ==> r[i] == if i in foxes then PotentialFox else result[i]
  {
    r := result;
    var i := 0;
    while i < BoardSize
      invariant 0 <= i <= BoardSize
      invariant |r| == BoardSize
      invariant forall j :: 0 <= j < BoardSize ==> r[j] == if j < i && j in foxes then PotentialFox else result[j]
    {
      if i in foxes {
        r := r[i := PotentialFox];
      }
      i := i + 1;
    }
  }

  /** The scores Solve computes from the listed candidates are the expected ones. */
  lemma ScoresAgree(pairs: seq<(Row, Cell)>, swords: seq<(int, bool)>, boxes: seq<int>, foxes: seq<Mask>,
                    findSwordsFirst: bool, i: int)
    requires Distinct(swords) && Distinct(boxes) && Distinct(foxes)
    requires forall s :: s in swords <==> s in SwordCandidates(pairs)
    requires forall b :: b in boxes <==> b in BoxCandidates(pairs)
    requires forall f :: f in foxes <==> f in FoxCandidates(pairs)
    ensures ScoreFor(pairs, findSwordsFirst, i) ==
      if |foxes| == 1 && i in foxes[0] then PotentialFox
      else (SumIf(swords, Covers(i), SwordsScore(|swords|))
            + SumIf(boxes, BoxCovers(i), BoxScore(|boxes|, |swords|, findSwordsFirst)))
  {
    SwordCountAgrees(pairs, swords, i);
    BoxCountAgrees(pairs, boxes, i);
    FoxAgrees(pairs, foxes, i);
    SumIfIsProduct(swords, Covers(i), SwordsScore(|swords|));
    SumIfIsProduct(boxes, BoxCovers(i), BoxScore(|boxes|, |swords|, findSwordsFirst));
  }

  /** Listed without repetitions, the candidate swords are as many as the set of them,
      and so are those covering cell i. */
  lemma SwordCountAgrees(pairs: seq<(Row, Cell)>, swords: seq<(int, bool)>, i: int)
    requires Distinct(swords)
    requires forall s :: s in swords <==> s in SwordCandidates(pairs)
    ensures |swords| == |SwordCandidates(pairs)|
    ensures CountIf(swords, Covers(i)) == |SwordsCovering(SwordCandidates(pairs), i)|
  {
    assert (set s | s in swords) == SwordCandidates(pairs);
    DistinctCard(swords);
    CountIfIsCard(swords, Covers(i));
    forall s ensures Covers(i)(s) == UnderSword(i, s.0, s.1) {}
    assert Passing(swords, Covers(i)) == SwordsCovering(SwordCandidates(pairs), i);
  }

  lemma BoxCountAgrees(pairs: seq<(Row, Cell)>, boxes: seq<int>, i: int)
    requires Distinct(boxes)
    requires forall b :: b in boxes <==> b in BoxCandidates(pairs)
    ensures |boxes| == |BoxCandidates(pairs)|
    ensures CountIf(boxes, BoxCovers(i)) == |BoxesCovering(BoxCandidates(pairs), i)|
  {
    assert (set b | b in boxes) == BoxCandidates(pairs);
    DistinctCard(boxes);
    CountIfIsCard(boxes, BoxCovers(i));
    forall b ensures BoxCovers(i)(b) == UnderBox(i, b) {}
    assert Passing(boxes, BoxCovers(i)) == BoxesCovering(BoxCandidates(pairs), i);
  }

  /** A single listed fox set is the only candidate fox set. */
  lemma FoxAgrees(pairs: seq<(Row, Cell)>, foxes: seq<Mask>, i: int)
    requires Distinct(foxes)
    requires forall f :: f in foxes <==> f in FoxCandidates(pairs)
    ensures |foxes| == |FoxCandidates(pairs)|
    ensures |foxes| == 1 ==> ((exists m :: m in FoxCandidates(pairs) && i in m) <==> i in foxes[0])
  {
    assert (set f | f in foxes) == FoxCandidates(pairs);
    DistinctCard(foxes);
    if |foxes| == 1 {
      assert FoxCandidates(pairs) == {foxes[0]};
    }
  }
}
