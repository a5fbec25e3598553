/** The cells a piece covers, enumerated as the solver does: row by row from the
    anchor, each row left to right. */
module Footprints {
  import opened Geometry
  import opened Patterns
  import opened Counting

  /** The index of the first cell of row y of a rectangle whose anchor sits at column
      sx of row sy. */
  function RowStart(sx: int, sy: int, y: int): int {
    (sy + y) * Width + sx
  }

  /** The w consecutive indices from start. */
  function Run(start: int, w: int): (r: seq<int>)
    ensures |r| == (if w < 0 then 0 else w)
    ensures forall k :: 0 <= k < |r| ==> r[k] == start + k
  {
    seq(if w < 0 then 0 else w, x requires x >= 0 => start + x)
  }

  /** Rows y up to h - 1 of the rectangle, one run of w indices each. */
  function RectRows(sx: int, sy: int, w: int, y: int, h: int): seq<int>
    decreases h - y
  {
    if y >= h then [] else Run(RowStart(sx, sy, y), w) + RectRows(sx, sy, w, y + 1, h)
  }

  /** RectIndices: the w-by-h rectangle anchored at tl, whose column and row are taken
      with C#'s truncating `%` and `/`. On the board it is exactly the set of covered
      cells, each listed once. */
  function RectIndices(tl: int, w: int, h: int): (r: seq<int>)
    ensures w >= 0 && h >= 0 ==> |r| == w * h
    ensures RectInBoard(tl, w, h) ==> forall i :: i in r <==> InRect(i, tl, w, h)
    ensures RectInBoard(tl, w, h) ==> forall k :: 0 <= k < |r| ==> InRect(r[k], tl, w, h)
    ensures RectInBoard(tl, w, h) ==> Distinct(r)
  {
    RectRowsFacts(tl, w, h);
    RectRows(CsRem(tl, Width), CsDiv(tl, Width), w, 0, h)
  }

  /** The listing's length and order, and on the board its cells. */
  lemma RectRowsFacts(tl: int, w: int, h: int)
    ensures var r := RectRows(CsRem(tl, Width), CsDiv(tl, Width), w, 0, h);
      && (w >= 0 && h >= 0 ==> |r| == w * h)
      && (RectInBoard(tl, w, h) ==> forall i :: i in r <==> InRect(i, tl, w, h))
      && (RectInBoard(tl, w, h) ==> forall k :: 0 <= k < |r| ==> InRect(r[k], tl, w, h))
      && (RectInBoard(tl, w, h) ==> Increasing(r))
  {
    var sx, sy := CsRem(tl, Width), CsDiv(tl, Width);
    var r := RectRows(sx, sy, w, 0, h);
    if w >= 0 && h >= 0 {
      RectRowsLength(sx, sy, w, 0, h);
    }
    if RectInBoard(tl, w, h) {
      CoordsOnBoard(tl);
      RectRowsIncreasing(X(tl), Y(tl), w, 0, h);
      forall i ensures i in r <==> InRect(i, tl, w, h) {
        RectRowsInRect(tl, w, h, i);
      }
    }
  }

  /** The cells under a sword: 3 wide and 2 tall when horizontal, else 2 by 3. */
  function SwordIndices(tl: int, horizontal: bool): (r: seq<int>)
    ensures RectInBoard(tl, SwordWidth(horizontal), SwordHeight(horizontal)) ==>
      && (forall i :: i in r <==> UnderSword(i, tl, horizontal))
      && (forall k :: 0 <= k < |r| ==> UnderSword(r[k], tl, horizontal))
      && Distinct(r)
  {
    RectIndices(tl, SwordWidth(horizontal), SwordHeight(horizontal))
  }

  /** The cells under a box or chest, 2 by 2. */
  function BoxChestIndices(tl: int): (r: seq<int>)
    ensures RectInBoard(tl, BoxSize, BoxSize) ==>
      && (forall i :: i in r <==> UnderBox(i, tl))
      && (forall k :: 0 <= k < |r| ==> UnderBox(r[k], tl))
      && Distinct(r)
  {
    RectIndices(tl, BoxSize, BoxSize)
  }

  // ---------------------------------------------------------------------------
  // Facts about the enumeration
  // ---------------------------------------------------------------------------

  /** Each row contributes w indices. */
  lemma {:induction false} RectRowsLength(sx: int, sy: int, w: int, y: int, h: int)
    requires 0 <= w && y <= h
    ensures |RectRows(sx, sy, w, y, h)| == (h - y) * w
    decreases h - y
  {
    if y < h {
      RectRowsLength(sx, sy, w, y + 1, h);
      assert (h - y) * w == w + (h - (y + 1)) * w;
    }
  }

  /** Index i is enumerated exactly when it falls in the run of one of the rows. */
  lemma {:induction false} RectRowsMembership(sx: int, sy: int, w: int, y: int, h: int, i: int)
    ensures i in RectRows(sx, sy, w, y, h) <==>
      exists yy :: y <= yy < h && RowStart(sx, sy, yy) <= i < RowStart(sx, sy, yy) + w
    decreases h - y
  {
    if y < h {
      RectRowsMembership(sx, sy, w, y + 1, h, i);
      var run := Run(RowStart(sx, sy, y), w);
      assert i in run <==> RowStart(sx, sy, y) <= i < RowStart(sx, sy, y) + w by {
        if RowStart(sx, sy, y) <= i < RowStart(sx, sy, y) + w {
          assert run[i - RowStart(sx, sy, y)] == i;
        }
      }
    }
  }

  /** On the board, the rows' runs cover exactly the cells of the rectangle. */
  lemma RectRowsInRect(tl: int, w: int, h: int, i: int)
    requires RectInBoard(tl, w, h)
    ensures i in RectRows(X(tl), Y(tl), w, 0, h) <==> InRect(i, tl, w, h)
  {
    var sx, sy := X(tl), Y(tl);
    RectRowsMembership(sx, sy, w, 0, h, i);
    if i in RectRows(sx, sy, w, 0, h) {
      var yy :| 0 <= yy < h && RowStart(sx, sy, yy) <= i < RowStart(sx, sy, yy) + w;
      var x := i - RowStart(sx, sy, yy);
      CoordsOfIndex(sx + x, sy + yy);
      assert i == (sy + yy) * Width + (sx + x);
    }
    if InRect(i, tl, w, h) {
      CoordsOnBoard(i);
      var yy := Y(i) - sy;
      assert RowStart(sx, sy, yy) <= i < RowStart(sx, sy, yy) + w;
    }
  }

  predicate Increasing(r: seq<int>) {
    forall a, b :: 0 <= a < b < |r| ==> r[a] < r[b]
  }

  /** When a row fits in the board's width, the rows follow each other in increasing
      order, every index at least the first of row y. */
  lemma {:induction false} RectRowsIncreasing(sx: int, sy: int, w: int, y: int, h: int)
    requires 0 <= sx && sx + w <= Width
    ensures Increasing(RectRows(sx, sy, w, y, h))
    ensures forall k :: 0 <= k < |RectRows(sx, sy, w, y, h)| ==> RectRows(sx, sy, w, y, h)[k] >= RowStart(sx, sy, y)
    decreases h - y
  {
    if y < h {
      RectRowsIncreasing(sx, sy, w, y + 1, h);
      assert RowStart(sx, sy, y) + w <= RowStart(sx, sy, y + 1);
    }
  }

  /** C#'s quotient and remainder put back together give the dividend. */
  lemma CsDivRem(tl: int)
    ensures CsDiv(tl, Width) * Width + CsRem(tl, Width) == tl
  {
  }

  /** Listed from any anchor, an upright sword covers the anchor and the offsets 1, 6,
      7, 12 and 13 from it, in that order; a horizontal one 1, 2, 6, 7 and 8. */
  lemma SwordIndicesListing(tl: int)
    ensures SwordIndices(tl, false) == [tl, tl + 1, tl + 6, tl + 7, tl + 12, tl + 13]
    ensures SwordIndices(tl, true) == [tl, tl + 1, tl + 2, tl + 6, tl + 7, tl + 8]
  {
    CsDivRem(tl);
    var sx, sy := CsRem(tl, Width), CsDiv(tl, Width);
    assert RectRows(sx, sy, 2, 3, 3) == [];
    assert RectRows(sx, sy, 3, 2, 2) == [];
  }

  /** A box or chest covers the anchor and the offsets 1, 6 and 7 from it, in order. */
  lemma BoxChestIndicesListing(tl: int)
    ensures BoxChestIndices(tl) == [tl, tl + 1, tl + 6, tl + 7]
  {
    CsDivRem(tl);
    assert RectRows(CsRem(tl, Width), CsDiv(tl, Width), 2, 2, 2) == [];
  }
}
