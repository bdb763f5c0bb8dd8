/**
 * The layout planner of `generatePDF` (services/reportService.ts): page geometry in
 * millimetres, the shrink/expand choice of font size, cell padding and minimum row
 * height, and the decision whether the signature block needs a new page.
 */
module LayoutPlanner {

  /** jsPDF's A4 page in landscape orientation. */
  const A4LandscapeWidth: real := 297.0
  const A4LandscapeHeight: real := 210.0

  const InfoBlockY: real := 42.0
  const LineHeight: real := 5.5
  /** Five lines of header details. */
  const InfoBlockHeight: real := LineHeight * 5.0
  const TableStartY: real := InfoBlockY + InfoBlockHeight + 5.0

  const SignatureHeight: real := 25.0
  const BottomMargin: real := 15.0
  /** The gap kept free between the planned bottom of the table and the signature block. */
  const SignatureGap: real := 30.0
  /** The smaller tolerance used when checking the rendered table for overlap. */
  const OverlapTolerance: real := 10.0

  const StandardRowHeight: real := 8.0
  const DefaultFontSize: real := 9.0
  const DefaultCellPadding: real := 2.0
  const ExpandFontSize: real := 10.0
  const MinShrinkFontSize: real := 5.0
  const MinShrinkCellPadding: real := 0.5

  function SignatureBlockY(pageHeight: real): real
  {
    pageHeight - SignatureHeight - BottomMargin
  }

  function MaxTableHeight(pageHeight: real): real
  {
    SignatureBlockY(pageHeight) - TableStartY - SignatureGap
  }

  /** Header row, one row per item, totals row. */
  function RowCount(itemCount: nat): nat { itemCount + 2 }

  /** Expand mode: the rows at standard height are not taller than the space allotted. */
  predicate Expands(itemCount: nat, pageHeight: real)
  {
    RowCount(itemCount) as real * StandardRowHeight <= MaxTableHeight(pageHeight)
  }

  datatype LayoutPlan = LayoutPlan(fontSize: real, cellPadding: real, minCellHeight: real)

  function MaxReal(a: real, b: real): real { if a >= b then a else b }

  function Floor(x: real): (f: real)
    ensures f <= x < f + 1.0
  {
    x.Floor as real
  }

  /** Sharing a height among rows: each row gets at least `c` exactly when the height is at least `c` rows. */
  lemma ShareHeight(h: real, rows: real, c: real)
    requires rows > 0.0
    ensures rows * (h / rows) == h
    ensures h / rows >= c <==> h >= c * rows
  {
    var a := h / rows;
    assert rows * a == h;
    if a >= c { assert rows * a >= rows * c; }
    if h >= c * rows { assert rows * a >= rows * c; }
  }

  /**
   * The layout the planner chooses for `itemCount` items on a page of height `pageHeight`.
   * The rows always exactly fill the allotted height. Expand mode keeps the standard
   * padding, uses font size 10 and rows of at least standard height; shrink mode has
   * rows below standard height, the largest whole font size not above 1.5 times the row
   * height but never below 5, and a padding of a fifth of the font size (so never below
   * 1, and the 0.5 floor of the source never applies).
   */
  function Layout(itemCount: nat, pageHeight: real): (p: LayoutPlan)
    ensures RowCount(itemCount) as real * p.minCellHeight == MaxTableHeight(pageHeight)
    ensures Expands(itemCount, pageHeight) ==>
      p.fontSize == ExpandFontSize && p.cellPadding == DefaultCellPadding && p.minCellHeight >= StandardRowHeight
    ensures !Expands(itemCount, pageHeight) ==>
      p.minCellHeight < StandardRowHeight &&
      p.fontSize >= MinShrinkFontSize && p.fontSize == Floor(p.fontSize) &&
      1.5 * p.minCellHeight < p.fontSize + 1.0 &&
      (p.fontSize == MinShrinkFontSize || p.fontSize <= 1.5 * p.minCellHeight) &&
      p.cellPadding == p.fontSize / 5.0 && p.cellPadding >= 1.0
  {
    var rows := RowCount(itemCount) as real;
    var maxHeight := MaxTableHeight(pageHeight);
    ShareHeight(maxHeight, rows, StandardRowHeight);
    if rows * StandardRowHeight > maxHeight then
      var availablePerRow := maxHeight / rows;
      var fontSize := MaxReal(MinShrinkFontSize, Floor(availablePerRow * 1.5));
      LayoutPlan(fontSize, MaxReal(MinShrinkCellPadding, fontSize / 5.0), availablePerRow)
    else
      LayoutPlan(ExpandFontSize, DefaultCellPadding, maxHeight / rows)
  }

  /**
   * The planning block as the source writes it: defaults, then one branch or the other
   * overwrites them.
   */
  method PlanLayout(itemCount: nat, pageHeight: real) returns (plan: LayoutPlan)
    ensures plan == Layout(itemCount, pageHeight)
  {
    var maxTableHeight := MaxTableHeight(pageHeight);
    var rowCount := itemCount + 2;
    var finalFontSize := DefaultFontSize;
    var finalCellPadding := DefaultCellPadding;
    var finalMinCellHeight := StandardRowHeight;
    var standardHeight := rowCount as real * StandardRowHeight;
    if standardHeight > maxTableHeight {
      var availablePerRow := maxTableHeight / rowCount as real;
      finalFontSize := MaxReal(MinShrinkFontSize, Floor(availablePerRow * 1.5));
      finalCellPadding := MaxReal(MinShrinkCellPadding, finalFontSize / 5.0);
      finalMinCellHeight := availablePerRow;
    } else {
      finalMinCellHeight := maxTableHeight / rowCount as real;
      finalFontSize := ExpandFontSize;
    }
    plan := LayoutPlan(finalFontSize, finalCellPadding, finalMinCellHeight);
  }

  /** Once shrink mode is reached, more items never enlarge the font. */
  lemma ShrinkFontNonIncreasing(n1: nat, n2: nat, pageHeight: real)
    requires n1 <= n2 && !Expands(n1, pageHeight)
    ensures !Expands(n2, pageHeight)
    ensures Layout(n2, pageHeight).fontSize <= Layout(n1, pageHeight).fontSize
  {
    var h := MaxTableHeight(pageHeight);
    var r1, r2 := RowCount(n1) as real, RowCount(n2) as real;
    assert r1 * StandardRowHeight <= r2 * StandardRowHeight;
    if h >= 0.0 {
      ShareMonotone(h, r1, r2);
      FloorMonotone(h / r2 * 1.5, h / r1 * 1.5);
    } else {
      ShareHeight(h, r1, 0.0);
      ShareHeight(h, r2, 0.0);
    }
  }

  /** A non-negative height shared among more rows gives each row no more. */
  lemma ShareMonotone(h: real, r1: real, r2: real)
    requires h >= 0.0 && 0.0 < r1 <= r2
    ensures h / r2 <= h / r1
  {
    var a1, a2 := h / r1, h / r2;
    assert a1 * r1 == h && a2 * r2 == h;
    assert a1 >= 0.0;
    assert a1 * r2 >= a1 * r1;
    assert (a1 - a2) * r2 >= 0.0;
  }

  lemma FloorMonotone(x: real, y: real)
    requires x <= y
    ensures Floor(x) <= Floor(y)
  {
    var fx, fy := x.Floor, y.Floor;
    assert fx as real <= x <= y < fy as real + 1.0;
    assert fx < fy + 1;
  }

  /** On A4 landscape the allotted table height is 65.5 mm, and up to six items expand. */
  lemma A4Regimes(itemCount: nat)
    ensures MaxTableHeight(A4LandscapeHeight) == 65.5
    ensures Expands(itemCount, A4LandscapeHeight) <==> itemCount <= 6
  {
  }

  /** On A4 landscape shrink mode never chooses a font larger than expand mode's. */
  lemma A4FontAtMostExpand(itemCount: nat)
    ensures Layout(itemCount, A4LandscapeHeight).fontSize <= ExpandFontSize
  {
    A4Regimes(itemCount);
    if itemCount > 6 {
      var rows := RowCount(itemCount) as real;
      var a := 65.5 / rows;
      assert rows >= 9.0;
      assert a * rows == 65.5;
      assert a * 9.0 <= 65.5;
      assert a * 1.5 < 11.0;
    }
  }

  /**
   * The signature decision after the table is drawn: the signature line always sits at
   * the signature block position, and a new page is started exactly when the rendered
   * table ends below the block position minus the overlap tolerance. Without a new page
   * the table ends at least that tolerance above the signatures.
   */
  method PlaceSignature(lastTableY: real, pageHeight: real) returns (newPage: bool, sigY: real)
    ensures sigY == SignatureBlockY(pageHeight)
    ensures newPage <==> lastTableY > SignatureBlockY(pageHeight) - OverlapTolerance
    ensures !newPage ==> lastTableY + OverlapTolerance <= sigY
  {
    var signatureBlockY := SignatureBlockY(pageHeight);
    sigY := signatureBlockY;
    newPage := false;
    if lastTableY > signatureBlockY - OverlapTolerance {
      newPage := true;
      sigY := signatureBlockY;
    }
  }
}
