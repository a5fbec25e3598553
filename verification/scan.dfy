/** The consistency test AnalyzeBoard applies to the pieces of one kind (sword, or
    box/chest), over what each tile says: nothing, or "I am a piece of an object
    anchored at a, turned or not". */
module Scan {

  datatype Reading = Other | Piece(anchor: int, turned: bool)

  /** The index of the last piece among the first n readings, or -1. */
  function LastPiece(rs: seq<Reading>, n: nat): (k: int)
    requires n <= |rs|
    ensures -1 <= k < n
    ensures k >= 0 ==> rs[k].Piece?
    ensures forall m :: k < m < n ==> !rs[m].Piece?
  {
    if n == 0 then -1
    else if rs[n - 1].Piece? then n - 1
    else LastPiece(rs, n - 1)
  }

  /** The anchor and orientation recorded after the first n readings: those of the
      last piece, or (-1, false) when there is none. */
  function Found(rs: seq<Reading>, n: nat): (int, bool)
    requires n <= |rs|
  {
    var k := LastPiece(rs, n);
    if k < 0 then (-1, false) else (rs[k].anchor, rs[k].turned)
  }

  /** The source's test on reading i, given what was recorded before it: a piece is
      refused when its anchor lies after its own index (an unknown offset), or when an
      anchor other than -1 was recorded and the piece disagrees with it. */
  predicate Accepts(rs: seq<Reading>, i: nat)
    requires i < |rs|
  {
    rs[i].Piece? ==>
      var (tl, turned) := Found(rs, i);
      !(rs[i].anchor > i || (tl != -1 && (tl != rs[i].anchor || turned != rs[i].turned)))
  }

  /** The scan of the first n readings passes every test. */
  predicate ScanOk(rs: seq<Reading>, n: nat)
    requires n <= |rs|
  {
    n == 0 || (ScanOk(rs, n - 1) && Accepts(rs, n - 1))
  }

  /** The same condition stated over pairs: every piece lies at or after its anchor,
      and once a piece has implied an anchor other than -1, every later piece implies
      the same anchor and orientation. */
  predicate Agree(rs: seq<Reading>, n: nat)
    requires n <= |rs|
  {
    && (forall i :: 0 <= i < n && rs[i].Piece? ==> rs[i].anchor <= i)
    && (forall j, i :: 0 <= j < i < n && rs[j].Piece? && rs[i].Piece? && rs[j].anchor != -1
          ==> rs[i].anchor == rs[j].anchor && rs[i].turned == rs[j].turned)
  }

  /** With the first i readings in agreement, the test on reading i passes exactly
      when the first i + 1 readings agree. */
  lemma AcceptsExtendsAgreement(rs: seq<Reading>, i: nat)
    requires i < |rs|
    requires Agree(rs, i)
    ensures Accepts(rs, i) <==> Agree(rs, i + 1)
  {
    if rs[i].Piece? && Accepts(rs, i) {
      var k := LastPiece(rs, i);
      forall j | 0 <= j < i && rs[j].Piece? && rs[j].anchor != -1
        ensures rs[i].anchor == rs[j].anchor && rs[i].turned == rs[j].turned
      {
        // j is the recorded piece k, or an earlier one that k agrees with.
        assert j <= k;
      }
    }
  }

  /** The scan passes exactly when the readings agree pairwise. */
  lemma {:induction false} ScanOkIffAgree(rs: seq<Reading>, n: nat)
    requires n <= |rs|
    ensures ScanOk(rs, n) <==> Agree(rs, n)
  {
    if n > 0 {
      ScanOkIffAgree(rs, n - 1);
      if Agree(rs, n - 1) {
        AcceptsExtendsAgreement(rs, n - 1);
      } else {
        assert !Agree(rs, n);
      }
    }
  }

  /** One step of the scan over a reading that is not a piece: nothing changes. */
  lemma StepOther(rs: seq<Reading>, i: nat)
    requires i < |rs| && !rs[i].Piece?
    ensures ScanOk(rs, i + 1) == ScanOk(rs, i)
    ensures Found(rs, i + 1) == Found(rs, i)
  {
  }

  /** One step of the scan over a piece: it passes when the piece is accepted, and the
      piece's anchor and orientation are recorded. */
  lemma StepPiece(rs: seq<Reading>, i: nat, anchor: int, turned: bool)
    requires i < |rs| && rs[i] == Piece(anchor, turned)
    ensures ScanOk(rs, i + 1) <==> (ScanOk(rs, i) &&
      !(anchor > i || (Found(rs, i).0 != -1 && (Found(rs, i).0 != anchor || Found(rs, i).1 != turned))))
    ensures Found(rs, i + 1) == (anchor, turned)
  {
  }

  /** A scan that passes on n readings passes on every shorter prefix. */
  lemma {:induction false} ScanOkPrefix(rs: seq<Reading>, m: nat, n: nat)
    requires m <= n <= |rs|
    requires ScanOk(rs, n)
    ensures ScanOk(rs, m)
    decreases n - m
  {
    if m < n {
      ScanOkPrefix(rs, m, n - 1);
    }
  }

  /** After a passing scan, a piece whose anchor is not -1 determines what is recorded. */
  lemma AgreeFound(rs: seq<Reading>, n: nat, j: nat)
    requires j < n <= |rs|
    requires Agree(rs, n)
    requires rs[j].Piece? && rs[j].anchor != -1
    ensures Found(rs, n) == (rs[j].anchor, rs[j].turned)
  {
    var k := LastPiece(rs, n);
    assert j <= k;
  }

  /** Readings that are all Other pass, and nothing is recorded. */
  lemma NoPieces(rs: seq<Reading>, n: nat)
    requires n <= |rs|
    requires forall i :: 0 <= i < n ==> !rs[i].Piece?
    ensures ScanOk(rs, n)
    ensures Found(rs, n) == (-1, false)
  {
    ScanOkIffAgree(rs, n);
  }
}
