# Fox hunt solver: a Dafny model

This project models the inference core of a helper for a 6×6 hidden-tile puzzle. The
board hides a sword (a 2×3 or 3×2 piece), a box or chest (a 2×2 piece) and a fox. The
core has three parts:

- **The pattern catalogue** (`Patterns`, `PatternFacts`, `CatalogueChecks`,
  `CatalogueFacts`). There are four hand-authored "up" layouts. Each layout is a
  `Sheet` of blocked cells plus its sword placements (`Row`). Each sword placement
  lists its compatible box placements (`Cell`), and each box placement lists its
  possible fox cells. Every layout is expanded into its four quarter turns to the
  left, giving 16 sheets. Rotation is modelled exactly as written:
  - a cell index goes from (x, y) to (5−y, x), using C#'s truncating `/` and `%`;
  - the box anchor moves one column left;
  - the sword anchor moves one or two columns left, and the sword's orientation flips.
- **The board analysis** (`Tiles`, `Scan`, `Board`, `BoardFacts`).
  - A tile is a 32-bit set of flags (`bv32`), so any combination of bits can be
    represented.
  - `AnalyzeBoard` scans the tiles once. It collects the blocked cells. For every
    sword piece and every box/chest piece, it computes the anchor that piece implies
    from the offset tables.
  - `Update` adopts the result. If the tiles contradict each other, `Update` resets
    the board instead.
  - The scan is stated twice:
    - as the loop the source runs (`Scan.ScanOk` over `Scan.Reading`s);
    - as a pairwise agreement condition (`Scan.Agree`).
    The two are proved equivalent.
- **The solver** (`Footprints`, `Matching`, `Counting`, `Solver`, `SolverFacts`).
  - `Solve` takes the first layout whose blockers equal the board's blockers.
  - It keeps the sword and box placements still consistent with the board. It then
    scores every cell: by the number of candidate placements covering it, or with the
    sentinels ConfirmedSword (−2), ConfirmedBoxChest (−3) and PotentialFox (−4).
  - The scores are stated by an independent definition (`Solver.ScoreFor`, built
    from candidate *sets*). The method, which builds candidate lists and adds
    scores cell by cell, is proved to compute the same scores.
- **The board simulator** (`Simulator`, `SimulationFacts`). This is the plugin's
  simulator, used as an independent source of observations. Its piece encoder
  round-trips with the offset tables. Every board it can show is proved to be
  accepted with the true anchors. The layout that was drawn is proved to match the
  board, and the true sword, box and fox set survive matching against it.

Behaviour modelled as the code has it, where a reading of the design could differ:

- `Tile.Swords` and `Tile.Box`/`Tile.Chest` all include the rotation bits. So a box or
  chest tile that carries a rotation bit takes the sword branch, finds no sword
  offset, and the analysis refuses the board (`BoardFacts.RotatedBoxChestRefused`).
  The box/chest offset table's rotated entries are therefore unreachable from
  `AnalyzeBoard`.
- The "already recorded" test compares the stored anchor with −1. A piece whose
  offset implies the anchor −1 therefore records a value that later pieces are not
  compared against (`BoardFacts.MinusOneAnchorNotCompared`).
- On a refused board, `Update` fills the *old* tile array with `Unknown`. The reset
  board keeps the previous number of tiles.
- A successful `Update` re-derives everything from the new tiles. An anchor found
  earlier is forgotten if the new tiles no longer show the piece.

## Model

| member | source | states |
|---|---|---|
| Patterns.Expand | Patterns.cs:241-253 | four entries per base sheet; entry n is base sheet n/4 turned left n%4 times |
| PatternFacts.KnownPatternsShape | Patterns.cs:241-253 | the catalogue has exactly 16 sheets; entry 4k+j is base sheet k turned j times; every entry is well formed (placements on the board, clear of the blockers, box apart from its sword) |
| PatternFacts.RotateIndexCoords | Patterns.cs:255-262 | a board cell (x, y) goes to (5−y, x) and stays on the board |
| PatternFacts.RotateIndexFormula | Patterns.cs:255-262 | index y·6+x goes to x·6+(5−y) |
| PatternFacts.RotateIndexBijective | Patterns.cs:255-262 | the index turn is injective on the board, and four turns give back the index |
| PatternFacts.RotateIndexFourTimes | Patterns.cs:255-262 | four index turns are the identity on the board |
| PatternFacts.RotateMaskMembership | Patterns.cs:264 | a cell is in the turned mask exactly when the cell it came from (three more turns) is in the mask; the turned mask stays on the board |
| PatternFacts.RotateMaskCount | Patterns.cs:264 | turning keeps the number of cells in a mask |
| PatternFacts.RotateMaskFourTimes | Patterns.cs:264 | four mask turns give back the mask |
| PatternFacts.RotateRect | Patterns.cs:266-267 | a w×h rectangle on the board, turned, is an h×w rectangle on the board anchored at rot(tl)−(h−1) |
| PatternFacts.RotateRectCover | Patterns.cs:266-267 | a cell is in the rectangle exactly when its turn is in the turned rectangle |
| PatternFacts.RotateRectFourTimes | Patterns.cs:266-267 | four anchor corrections give back the anchor |
| PatternFacts.RotateRectsApart | Patterns.cs:266-267 | rectangles that share no cell still share none after the turn |
| PatternFacts.RotateCellFootprint | Patterns.cs:266 | the turned box's 2×2 footprint is exactly the turned footprint of the box |
| PatternFacts.RotateRowFootprint | Patterns.cs:267 | the turned sword, with its orientation flipped and its anchor corrected by 1 or 2, covers exactly the turned footprint |
| PatternFacts.RotateCellWellFormed | Patterns.cs:266 | a well-formed box placement stays well formed for the turned sword and blockers |
| PatternFacts.RotateRowWellFormed | Patterns.cs:267 | a well-formed sword placement stays well formed for the turned blockers |
| PatternFacts.RotateSheetWellFormed | Patterns.cs:268 | turning keeps a sheet well formed |
| PatternFacts.RotateSheetTimesWellFormed | Patterns.cs:241-253 | any number of turns keeps a sheet well formed |
| PatternFacts.RotateCellFourTimes | Patterns.cs:266 | four turns give back a box placement |
| PatternFacts.RotateRowFourTimes | Patterns.cs:267 | four turns give back a well-formed sword placement |
| PatternFacts.RotateSheetFourTimes | Patterns.cs:268 | four turns give back a well-formed sheet |
| CatalogueFacts.SheetAWellFormed | Patterns.cs:51-94 | layout A's placements lie on the board, avoid its blockers, and keep each box apart from its sword |
| CatalogueFacts.SheetBWellFormed | Patterns.cs:95-141 | the same for layout B |
| CatalogueFacts.SheetCWellFormed | Patterns.cs:142-182 | the same for layout C |
| CatalogueFacts.SheetDWellFormed | Patterns.cs:183-238 | the same for layout D |
| CatalogueFacts.BaseSheetsWellFormed | Patterns.cs:50-239 | all four authored layouts are well formed |
| Tiles.TLOffsetSwords | vfaux/BoardState.cs:101-125 | a sword offset is −1 or a cell of the footprint of the orientation the rotation bits give |
| Tiles.TLOffsetBoxChest | vfaux/BoardState.cs:127-145 | a box/chest offset is −1 or a cell of the 2×2 footprint |
| Tiles.SwordTableIsTurnedPicture | vfaux/BoardState.cs:101-125 | each sword entry is the piece's place in the upright 2×3 picture, turned left or right by the rotation bit |
| Tiles.BoxChestTableIsTurnedPicture | vfaux/BoardState.cs:127-145 | each box and chest entry is the piece's place in the upright 2×2 picture, turned by the rotation bit; box and chest agree |
| Tiles.SwordPiecesDistinct | vfaux/BoardState.cs:101-125 | within one orientation, the six sword pieces have six different offsets |
| Tiles.SwordPiecesCover | vfaux/BoardState.cs:101-125 | every cell of the sword footprint of an orientation is some piece's offset, so each orientation's offsets are a permutation of the footprint |
| Tiles.BoxChestPiecesCover | vfaux/BoardState.cs:127-145 | every cell of the 2×2 footprint is the offset of a box piece and of a chest piece |
| Tiles.RotatedBoxChestIsNotASword | vfaux/BoardState.cs:31-35 | a box/chest tile with a rotation bit intersects `Swords` and has no sword offset |
| Board.InitialBoard | vfaux/BoardState.cs:41-45 | a new board has 36 Unknown tiles and is consistent: its blockers (none) and anchors (−1) are what the analysis reads off those tiles |
| Board.ScanTile | vfaux/BoardState.cs:76-96 | one loop step passes exactly when both kinds accept tile i, and then records the summary of the first i+1 tiles |
| Board.ScanSwordPiece | vfaux/BoardState.cs:81-89 | a sword piece passes exactly when its anchor is known and agrees with the one recorded; the anchor and orientation are then recorded |
| Board.ScanBoxChestPiece | vfaux/BoardState.cs:90-96 | the same for a box or chest piece and its anchor |
| Board.AnalyzeBoard | vfaux/BoardState.cs:68-99 | the loop returns the summary of all tiles, or nothing exactly when some piece is refused |
| Board.Update | vfaux/BoardState.cs:47-66 | on success the state is the tiles and their analysis; on failure it is all Unknown (old length), no blockers, anchors −1, not horizontal; either way the new state is consistent with its tiles |
| Scan.ScanOkIffAgree | vfaux/BoardState.cs:74-97 | the scan passes exactly when every piece lies at or after its anchor and every later piece agrees with an earlier one whose anchor is not −1 |
| Scan.AcceptsExtendsAgreement | vfaux/BoardState.cs:81-96 | given agreement so far, the test on the next tile passes exactly when agreement extends to it |
| Scan.AgreeFound | vfaux/BoardState.cs:85-95 | after a passing scan, any piece with anchor other than −1 determines the recorded anchor and orientation |
| BoardFacts.AnalysisSucceedsIffAgree | vfaux/BoardState.cs:68-99 | the analysis succeeds exactly when sword pieces and box/chest pieces each agree pairwise |
| BoardFacts.NoPiecesAccepted | vfaux/BoardState.cs:68-99 | tiles without pieces are accepted with only their blockers recorded |
| BoardFacts.BlockedTileIgnored | vfaux/BoardState.cs:77-80 | a tile with the Blocked flag contributes only as a blocker, whatever other bits it has |
| BoardFacts.HiddenBoardAccepted | vfaux/BoardState.cs:68-98 | an all-Hidden board is accepted with no blockers and both anchors −1 |
| BoardFacts.UnknownSwordPieceRefused | vfaux/BoardState.cs:83-86 | a sword tile outside the offset table (offset −1, anchor i+1) is refused |
| BoardFacts.UnknownBoxChestPieceRefused | vfaux/BoardState.cs:92-94 | the same for a box/chest tile |
| BoardFacts.RotatedBoxChestRefused | vfaux/BoardState.cs:81-86 | a box/chest tile with a rotation bit takes the sword branch and is refused |
| BoardFacts.DisagreeingPiecesRefused | vfaux/BoardState.cs:85-94 | two pieces of one kind implying different anchors (the first not −1) are refused |
| BoardFacts.MixedOrientationRefused | vfaux/BoardState.cs:84-86 | two sword pieces with the same anchor but different orientation are refused |
| BoardFacts.RecordedSwordMatchesPieces | vfaux/BoardState.cs:83-88 | on success the recorded sword anchor is every sword piece's anchor, and horizontal exactly when the piece has a rotation bit |
| BoardFacts.RecordedBoxChestMatchesPieces | vfaux/BoardState.cs:92-95 | on success the recorded box anchor is every box/chest piece's anchor |
| BoardFacts.MinusOneAnchorNotCompared | vfaux/BoardState.cs:85 | a sword piece implying anchor −1 followed by one implying 5 is accepted, with 5 recorded |
| Footprints.RectIndices | Solver.cs:70-76 | w·h indices; on the board, exactly the cells of the rectangle, without repetition |
| Footprints.RectRowsIncreasing | Solver.cs:73-75 | the indices come in increasing (row-major) order |
| Footprints.SwordIndices | Solver.cs:77 | exactly the cells under the sword, without repetition |
| Footprints.BoxChestIndices | Solver.cs:78 | exactly the cells under the box, without repetition |
| Footprints.SwordIndicesListing | Solver.cs:77 | the vertical sword is tl, tl+1, tl+6, tl+7, tl+12, tl+13; the horizontal one tl, tl+1, tl+2, tl+6, tl+7, tl+8 |
| Footprints.BoxChestIndicesListing | Solver.cs:78 | the box is tl, tl+1, tl+6, tl+7 |
| Matching.MatchingSheet | Solver.cs:59 | nothing exactly when no sheet's blockers equal the board's; otherwise the first sheet that matches |
| Matching.MatchingRows | Solver.cs:60 | a row is kept exactly when it matches |
| Matching.MatchingRowsFilter | Solver.cs:60 | the rows are filtered in order: the filter of a concatenation is the concatenation of the filters, and a single row is kept exactly when it matches |
| Matching.MatchingCells | Solver.cs:61 | a cell is kept exactly when it matches |
| Matching.MatchingCellsFilter | Solver.cs:61 | the cells are filtered in order, in the same sense |
| Matching.MatchingPairs | Solver.cs:63-68 | the pairs are exactly the matching cells of the matching rows |
| Matching.MatchesRowMeaning | Solver.cs:52-54 | with the sword known, a row matches when anchor and orientation are equal; otherwise when every tile under it is Hidden |
| Matching.MatchesCellMeaning | Solver.cs:55-57 | the same for a box placement and its anchor |
| Counting.AddNew | Solver.cs:27-29 | adding to a list without repetitions gives the old members plus the new one, still without repetitions |
| Solver.CollectCandidates | Solver.cs:22-30 | the distinct sword placements, box anchors and fox sets of the matching pairs |
| Solver.AddScore | Solver.cs:35-36 | every listed cell gains the score; the others keep theirs |
| Solver.AddSwordScores | Solver.cs:34-36 | each cell gains the sword score once for every candidate sword covering it |
| Solver.AddBoxScores | Solver.cs:37-39 | each cell gains the box score once for every candidate box covering it |
| Solver.MarkFoxes | Solver.cs:41-46 | cells of the fox set become PotentialFox; the others keep their score |
| Solver.ScoresAgree | Solver.cs:32-46 | the scores from the candidate lists equal the scores from the candidate sets |
| Solver.Solve | Solver.cs:16-49 | 36 scores, each the expected score; all zero when no sheet matches |
| SolverFacts.SolveKnown | Solver.cs:13-19 | Solve over the catalogue is defined for any board of 36 tiles |
| SolverFacts.KnownPlacementsOnBoard | Patterns.cs:241-253 | every placement and fox cell of the catalogue lies on the board |
| SolverFacts.MatchingPairsApart | Solver.cs:63-68 | in every surviving pair of a well-formed sheet, the box shares no cell with the sword |
| SolverFacts.ConfirmedSwordScore | Solver.cs:32-36 | with one sword candidate left, each cell under it scores ConfirmedSword unless a single fox set marks it |
| SolverFacts.ConfirmedBoxScore | Solver.cs:32-39 | with one box candidate left, each cell under it scores ConfirmedBoxChest unless a single fox set marks it |
| SolverFacts.SeenSwordIsOnlyCandidate | Solver.cs:52-54 | once the board knows the sword, it is the only sword candidate |
| SolverFacts.SeenBoxIsOnlyCandidate | Solver.cs:55-57 | once the board knows the box, it is the only box candidate |
| SolverFacts.SeenSwordScoresConfirmed | Solver.cs:16-36 | once the sword is known, every cell of it scores ConfirmedSword unless a fox is marked there |
| SolverFacts.SeenBoxScoresConfirmed | Solver.cs:16-39 | once the box is known, every cell of it scores ConfirmedBoxChest unless a fox is marked there |
| SolverFacts.UncoveredCellScoresZero | Solver.cs:34-46 | a cell that no surviving placement covers and no single fox set marks scores 0 |
| SolverFacts.SwordsFirstIgnoresBoxes | Solver.cs:33 | with several swords and no confirmed box, hunting swords first drops the box count from the score |
| Simulator.SimSwordRoundTrip | vfaux/PluginWindow.cs:212-230 | each sword tile the simulator draws is read back at its own offset, horizontal exactly when drawn turned |
| Simulator.SimBoxRoundTrip | vfaux/PluginWindow.cs:231-241 | each box tile the simulator draws is read back at its own offset |
| Simulator.OtherTilesAreNoPieces | vfaux/PluginWindow.cs:242-249 | Hidden, Blocked, Empty and Commander tiles are no pieces |
| SimulationFacts.ObservedAt | vfaux/PluginWindow.cs:202-250 | what an opened or unopened cell of a true layout shows, as seen by the analysis |
| SimulationFacts.SimulatedBoardAccepted | vfaux/PluginWindow.cs:192-254 | every simulated board is accepted; its anchors are the true ones once a piece cell is open, −1 before |
| SimulationFacts.TruePairSurvives | Solver.cs:51-68 | on any simulated board the true sheet matches and the true sword, box and fox set stay candidates |

## Left out

- vfaux/Plugin.cs (reading the game's UI, colouring tiles) and the rendering in
  vfaux/PluginWindow.cs are foreign I/O. The simulator's random choice of layout and
  fox is replaced by parameters, and only its tile encoder is modelled.
- The error logged by `Update` on a refused board is left out.
- `BitMask` is a set of integers. Its word-size behaviour for indices outside 0–63 is
  not modelled. The catalogue's masks lie on the 36-cell board, but `Update` accepts
  tile arrays of any length, so a board's blockers lie below the number of its tiles
  and can reach 64 or more on an array that long.
- `HashSet` and LINQ: candidate sets are modelled as lists without repetitions, and
  lazy enumeration is eager. The scores are sums, so iteration order does not matter.
- `Solver.FindSwordsFirst` and `Solver.PatternDB` are fields. In the model they are
  parameters of `Solve`, and `SolverFacts.SolveKnown` fixes the catalogue.
- Solve: requires at least 36 tiles and placements on the board. Otherwise the source
  may throw an index exception, when `AllHidden` or a score write reaches a missing
  index; with both anchors known, or with no matching sheet, it need not throw. The
  catalogue meets the requirement
  (`SolverFacts.KnownPlacementsOnBoard`).
- `Update` keeps the caller's array by reference. Aliasing of that array is not
  modelled.
- The fox cells of a box placement are not required to avoid the sword or box
  footprints. The confirmed-score lemmas therefore keep the fox override as a case.
- MatchingSheet returns the first match. The model does not prove that the 16 layouts
  have pairwise different blockers, so it does not prove that the first match on a
  simulated board is the layout that was drawn.
