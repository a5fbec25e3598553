/** Board geometry shared by the pattern catalogue, the board state and the solver:
    the 6x6 board in row-major order, C#'s truncating integer division, cell
    coordinates, and axis-aligned rectangles given by their top-left anchor. */
module Geometry {

  const Width: int := 6
  const Height: int := 6
  const BoardSize: int := Width * Height

  /** A BitMask over the board: the set of indices whose bit is set.
      Comparing the raw 64-bit values of two masks is set equality. */
  type Mask = set<int>

  predicate OnBoard(i: int) {
    0 <= i < BoardSize
  }

  predicate MaskOnBoard(m: Mask) {
    forall i :: i in m ==> OnBoard(i)
  }

  /** The least board cell at or after k that is in m, or -1 when there is none. */
  function FirstCell(m: Mask, k: nat): (j: int)
    ensures j == -1 || (k <= j < BoardSize && j in m)
    ensures j == -1 ==> forall i :: k <= i < BoardSize ==> i !in m
    decreases BoardSize - k
  {
    if k >= BoardSize then -1 else if k in m then k else FirstCell(m, k + 1)
  }

  /** A mask on the board with no cell found is empty. */
  lemma NoFirstCellEmpty(m: Mask)
    requires MaskOnBoard(m)
    requires FirstCell(m, 0) == -1
    ensures m == {}
  {
  }

  /** C#'s `/` on int: the quotient is truncated toward zero. */
  function CsDiv(a: int, b: int): (q: int)
    requires b > 0
    ensures a >= 0 ==> q * b <= a < q * b + b
    ensures a < 0 ==> q * b - b < a <= q * b
  {
    if a >= 0 then a / b else -((-a) / b)
  }

  /** C#'s `%` on int: the remainder takes the sign of the dividend. */
  function CsRem(a: int, b: int): (r: int)
    requires b > 0
    ensures CsDiv(a, b) * b + r == a
    ensures a >= 0 ==> 0 <= r < b
    ensures a < 0 ==> -b < r <= 0
  {
    a - CsDiv(a, b) * b
  }

  /** Column and row of a board cell. */
  function X(i: int): int {
    i % Width
  }

  function Y(i: int): int {
    i / Width
  }

  /** On the board, C#'s `cell % Width` and `cell / Width` give the column and the row. */
  lemma CoordsOnBoard(i: int)
    requires OnBoard(i)
    ensures 0 <= X(i) < Width && 0 <= Y(i) < Height
    ensures CsRem(i, Width) == X(i) && CsDiv(i, Width) == Y(i)
    ensures i == Y(i) * Width + X(i)
  {
  }

  /** The index of column x, row y. */
  lemma CoordsOfIndex(x: int, y: int)
    requires 0 <= x < Width && 0 <= y < Height
    ensures OnBoard(y * Width + x)
    ensures X(y * Width + x) == x && Y(y * Width + x) == y
  {
  }

  /** A w-by-h rectangle anchored at tl lies entirely on the board. */
  predicate RectInBoard(tl: int, w: int, h: int) {
    OnBoard(tl) && 1 <= w && 1 <= h && X(tl) + w <= Width && Y(tl) + h <= Height
  }

  /** Cell i is covered by the w-by-h rectangle anchored at tl. */
  predicate InRect(i: int, tl: int, w: int, h: int) {
    OnBoard(i) && X(tl) <= X(i) < X(tl) + w && Y(tl) <= Y(i) < Y(tl) + h
  }

  /** Two rectangles are separated along one axis, so they share no cell. */
  predicate RectsApart(a: int, wa: int, ha: int, b: int, wb: int, hb: int) {
    || X(a) + wa <= X(b) || X(b) + wb <= X(a)
    || Y(a) + ha <= Y(b) || Y(b) + hb <= Y(a)
  }

  lemma RectsApartShareNoCell(a: int, wa: int, ha: int, b: int, wb: int, hb: int, i: int)
    requires RectsApart(a, wa, ha, b, wb, hb)
    ensures !(InRect(i, a, wa, ha) && InRect(i, b, wb, hb))
  {
  }
}
