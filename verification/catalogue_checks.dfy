/** Quantifier-free checks on a box or a sword, cheap to evaluate on literal data,
    and the proofs that they imply the quantified conditions of well-formedness. */
module CatalogueChecks {
  import opened Geometry
  import opened Patterns

  /** The four cells of the box anchored at tl are not blockers. */
  predicate BoxClear(tl: int, blockers: Mask) {
    && tl !in blockers && tl + 1 !in blockers
    && tl + Width !in blockers && tl + Width + 1 !in blockers
  }

  /** The six cells of the sword anchored at tl are not blockers. */
  predicate SwordClear(tl: int, horizontal: bool, blockers: Mask) {
    && tl !in blockers && tl + 1 !in blockers
    && tl + Width !in blockers && tl + Width + 1 !in blockers
    && if horizontal then tl + 2 !in blockers && tl + Width + 2 !in blockers
       else tl + 2 * Width !in blockers && tl + 2 * Width + 1 !in blockers
  }

  /** The two rectangles are apart, decided one axis after the other. */
  predicate ApartChecked(a: int, wa: int, ha: int, b: int, wb: int, hb: int) {
    if X(a) + wa <= X(b) then true
    else if X(b) + wb <= X(a) then true
    else if Y(a) + ha <= Y(b) then true
    else Y(b) + hb <= Y(a)
  }

  /** A cell under an on-board rectangle sits at a row and column offset from its anchor. */
  lemma RectOffset(i: int, tl: int, w: int, h: int)
    requires RectInBoard(tl, w, h)
    requires InRect(i, tl, w, h)
    ensures i == tl + (Y(i) - Y(tl)) * Width + (X(i) - X(tl))
    ensures 0 <= X(i) - X(tl) < w && 0 <= Y(i) - Y(tl) < h
  {
    CoordsOnBoard(i);
    CoordsOnBoard(tl);
  }

  lemma BoxClearIsClear(tl: int, blockers: Mask)
    requires RectInBoard(tl, BoxSize, BoxSize)
    requires BoxClear(tl, blockers)
    ensures forall b :: b in blockers ==> !UnderBox(b, tl)
  {
    forall b | b in blockers ensures !UnderBox(b, tl) {
      if UnderBox(b, tl) {
        RectOffset(b, tl, BoxSize, BoxSize);
        assert false;
      }
    }
  }

  lemma SwordClearIsClear(tl: int, horizontal: bool, blockers: Mask)
    requires RectInBoard(tl, SwordWidth(horizontal), SwordHeight(horizontal))
    requires SwordClear(tl, horizontal, blockers)
    ensures forall b :: b in blockers ==> !UnderSword(b, tl, horizontal)
  {
    forall b | b in blockers ensures !UnderSword(b, tl, horizontal) {
      if UnderSword(b, tl, horizontal) {
        RectOffset(b, tl, SwordWidth(horizontal), SwordHeight(horizontal));
        assert false;
      }
    }
  }
}
