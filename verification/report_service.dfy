/**
 * `generateReports` (services/reportService.ts): the totals, the shared base filename,
 * and the two payloads built from the same header, items and totals.
 */
module ReportService {
  import opened Wrappers
  import opened Types
  import opened Utils
  import opened TotalsCalculator
  import opened PdfReport
  import opened ExcelReport

  /** `Math.round`: the nearest integer, halves rounded up (towards +infinity). */
  function JsRound(x: real): (r: int)
    ensures r as real - 0.5 <= x < r as real + 0.5
  {
    (x + 0.5).Floor
  }

  const FilenamePrefix: string := "Bill of Buyer "
  const DateMarker: string := " DATE-"

  /**
   * The base filename: buyer name, rounded total value after a dollar sign, and the
   * billing date field (`getFilenameDate` of the header's billing date).
   */
  function BaseFilename(buyerName: string, totalValue: real, filenameDate: string): (name: string)
    ensures |FilenamePrefix| + |buyerName| + |DateMarker| + |filenameDate| < |name|
    ensures |name| == |FilenamePrefix| + |buyerName| + 2 + |IntToString(JsRound(totalValue))| + |DateMarker| + |filenameDate|
    ensures name[..|FilenamePrefix| + |buyerName|] == FilenamePrefix + buyerName
    ensures name[|name| - |DateMarker| - |filenameDate|..] == DateMarker + filenameDate
  {
    var head := FilenamePrefix + buyerName;
    var amount := IntToString(JsRound(totalValue));
    ConcatFields(head, " $" + amount, DateMarker, filenameDate);
    assert head + " $" + amount == head + (" $" + amount);
    head + " $" + amount + DateMarker + filenameDate
  }

  /**
   * The amount in the filename: after the prefix, the buyer name and " $" stands the
   * rendering of the rounded total value, which reads back as that value. A minus sign
   * leads it exactly when the total is below -0.5 (quantities and prices may be negative).
   */
  lemma FilenameCarriesRoundedTotal(buyerName: string, totalValue: real, filenameDate: string)
    ensures var s := BaseFilename(buyerName, totalValue, filenameDate);
      var p := |FilenamePrefix| + |buyerName| + 2;
      var amount := IntToString(JsRound(totalValue));
      s[..p] == FilenamePrefix + buyerName + " $" &&
      p + |amount| <= |s| && s[p..p + |amount|] == amount &&
      IsSignedDecimal(amount) && SignedDecimalValue(amount) == JsRound(totalValue) &&
      (amount[0] == '-' <==> totalValue < -0.5)
  {
    var amount := IntToString(JsRound(totalValue));
    ConcatFields(FilenamePrefix + buyerName + " $", amount, DateMarker, filenameDate);
    IntRoundTrip(JsRound(totalValue));
  }

  /**
   * The filename ends in " DATE-" and the date field; for a billing date that does not
   * parse it ends in " DATE-00.00.00".
   */
  lemma FilenameEndsWithDate(buyerName: string, totalValue: real, filenameDate: string)
    ensures var s := BaseFilename(buyerName, totalValue, filenameDate);
      |s| >= |DateMarker| + |filenameDate| && s[|s| - |filenameDate|..] == filenameDate &&
      s[|s| - |filenameDate| - |DateMarker|..|s| - |filenameDate|] == DateMarker
    ensures var s := BaseFilename(buyerName, totalValue, FilenameDate(None));
      s[|s| - 14..] == " DATE-00.00.00"
  {
    ConcatFields(FilenamePrefix + buyerName + " $", IntToString(JsRound(totalValue)), DateMarker, filenameDate);
    var t := BaseFilename(buyerName, totalValue, FilenameDate(None));
    ConcatFields(FilenamePrefix + buyerName + " $", IntToString(JsRound(totalValue)), DateMarker, "00.00.00");
    assert t[|t| - 14..] == t[|t| - 14..|t| - 8] + t[|t| - 8..];
  }

  /** The amount field for a total value of 1234.5: the half rounds up, giving "1235". */
  lemma AmountExample()
    ensures IntToString(JsRound(1234.5)) == "1235"
  {
    assert JsRound(1234.5) == 1235;
    assert NatToString(1) == "1";
    assert NatToString(12) == NatToString(1) + "2" == "12";
    assert NatToString(123) == NatToString(12) + "3" == "123";
    assert NatToString(1235) == NatToString(123) + "5" == "1235";
  }

  datatype Reports = Reports(pdf: PdfDocument, workbook: Workbook)

  /**
   * `generateReports`: one totals computation and one filename, shared by the PDF and
   * the spreadsheet. `billingDate` is the parse of `h.billingDate`; `lastTableY` is where
   * the renderer reports the drawn table to end.
   */
  method GenerateReports(h: ReportHeader, items: seq<LineItem>, billingDate: Option<DateParts>, lastTableY: real)
    returns (out: Reports)
    ensures var t := CalculateTotals(items);
      var name := BaseFilename(h.buyerName, t.totalValue, FilenameDate(billingDate));
      IsPdfFor(out.pdf, h, items, t, name, lastTableY) && IsWorkbookFor(out.workbook, h, items, t, name)
  {
    var totals := CalculateTotals(items);
    var filenameDate := FilenameDate(billingDate);
    var baseFilename := BaseFilename(h.buyerName, totals.totalValue, filenameDate);
    var pdf := GeneratePdf(h, items, totals, baseFilename, lastTableY);
    var workbook := GenerateExcel(h, items, totals, baseFilename);
    out := Reports(pdf, workbook);
  }

  // ---------------------------------------------------------------------------------
  // The two reports agree

  /** The number a cell shows, or 0 for a text cell or a missing one. */
  function NumberAt(row: seq<Cell>, k: nat): real
  {
    if k < |row| && CellNumber(row[k]).Some? then CellNumber(row[k]).value else 0.0
  }

  /** The sum of the numbers shown in column `k` of the rows. */
  function ColumnSum(rows: seq<seq<Cell>>, k: nat): real
  {
    if rows == [] then 0.0 else NumberAt(rows[0], k) + ColumnSum(rows[1..], k)
  }

  /** A column showing `f` of each item sums to the sum of `f` over the items. */
  lemma {:induction false} ColumnSumMatches(rows: seq<seq<Cell>>, items: seq<LineItem>, k: nat, f: LineItem -> real)
    requires |rows| == |items|
    requires forall i :: 0 <= i < |rows| ==> NumberAt(rows[i], k) == f(items[i])
    ensures ColumnSum(rows, k) == Sum(items, f)
  {
    if rows != [] {
      ColumnSumMatches(rows[1..], items[1..], k, f);
    }
  }

  /** The numbers a PDF item row shows: invoice quantity, received quantity and line total. */
  lemma PdfRowNumbers(item: LineItem)
    ensures var row := PdfItemRow(item);
      NumberAt(row, 6) == InvoiceQtyOf(item) && NumberAt(row, 7) == RcvdQtyOf(item) &&
      NumberAt(row, 9) == LineTotal(item)
  {
    var row := PdfItemRow(item);
    assert row[6] == Number(InvoiceQtyOf(item));
    assert row[7] == Number(RcvdQtyOf(item));
    assert row[9] == FixedText(LineTotal(item), 2);
  }

  /** The numbers a spreadsheet item row shows: invoice quantity, received quantity and line total. */
  lemma SheetRowNumbers(item: LineItem)
    ensures var row := SheetItemRow(item);
      NumberAt(row, 8) == InvoiceQtyOf(item) && NumberAt(row, 9) == RcvdQtyOf(item) &&
      NumberAt(row, 11) == LineTotal(item)
  {
  }

  /**
   * In the PDF the footer's invoice quantity, received quantity and value are the sums of
   * the numbers shown in the item rows above them.
   */
  lemma PdfFooterSumsColumns(doc: PdfDocument, items: seq<LineItem>)
    requires PdfTableFor(doc, items, CalculateTotals(items))
    ensures var footer := doc.body[|items|];
      var rows := doc.body[..|items|];
      NumberAt(footer, 6) == ColumnSum(rows, 6) &&
      NumberAt(footer, 7) == ColumnSum(rows, 7) &&
      NumberAt(footer, 9) == ColumnSum(rows, 9)
  {
    var rows := doc.body[..|items|];
    forall i | 0 <= i < |rows|
      ensures NumberAt(rows[i], 6) == InvoiceQtyOf(items[i]) && NumberAt(rows[i], 7) == RcvdQtyOf(items[i]) &&
        NumberAt(rows[i], 9) == LineTotal(items[i])
    {
      assert rows[i] == PdfItemRow(items[i]);
      PdfRowNumbers(items[i]);
    }
    ColumnSumMatches(rows, items, 6, InvoiceQtyOf);
    ColumnSumMatches(rows, items, 7, RcvdQtyOf);
    ColumnSumMatches(rows, items, 9, LineTotal);
    var footer := PdfFooterRow(CalculateTotals(items));
    assert footer[6] == FixedText(CalculateTotals(items).totalInvoiceQty, 2);
    assert footer[7] == FixedText(CalculateTotals(items).totalRcvdQty, 2);
    assert footer[9] == FixedText(CalculateTotals(items).totalValue, 2);
  }

  /**
   * In the spreadsheet the totals row's invoice quantity, received quantity and value are
   * the sums of the numbers shown in the item rows above them.
   */
  lemma SheetTotalsSumColumns(wb: Workbook, items: seq<LineItem>)
    requires SheetTableFor(wb, items, CalculateTotals(items))
    ensures var totalsRow := wb.rows[PreambleRowCount + |items|];
      var rows := wb.rows[PreambleRowCount..PreambleRowCount + |items|];
      NumberAt(totalsRow, 8) == ColumnSum(rows, 8) &&
      NumberAt(totalsRow, 9) == ColumnSum(rows, 9) &&
      NumberAt(totalsRow, 11) == ColumnSum(rows, 11)
  {
    var rows := wb.rows[PreambleRowCount..PreambleRowCount + |items|];
    forall i | 0 <= i < |rows|
      ensures NumberAt(rows[i], 8) == InvoiceQtyOf(items[i]) && NumberAt(rows[i], 9) == RcvdQtyOf(items[i]) &&
        NumberAt(rows[i], 11) == LineTotal(items[i])
    {
      assert rows[i] == SheetItemRow(items[i]);
      SheetRowNumbers(items[i]);
    }
    ColumnSumMatches(rows, items, 8, InvoiceQtyOf);
    ColumnSumMatches(rows, items, 9, RcvdQtyOf);
    ColumnSumMatches(rows, items, 11, LineTotal);
  }

  /**
   * One item in both reports: under every PDF column other than the combined description
   * the spreadsheet shows the same text, or a cell carrying the same number; the PDF's
   * description cell begins with the description the spreadsheet shows.
   */
  lemma ItemRowsAgree(item: LineItem)
    ensures forall k :: 0 <= k < |PdfColumns| && PdfColumns[k] != DescriptionColumn ==>
      CellNumber(PdfItemRow(item)[k]) == CellNumber(SheetCellUnder(PdfColumns[k], item)) &&
      (CellNumber(PdfItemRow(item)[k]).None? ==> PdfItemRow(item)[k] == SheetCellUnder(PdfColumns[k], item))
    ensures 1 < |SheetItemRow(item)| && SheetItemRow(item)[1] == Text(item.itemDescription)
    ensures PdfItemRow(item)[1] == Text(Description(item)) && item.itemDescription <= Description(item)
  {
    assert SheetColumns[1] == DescriptionColumn;
  }

  /** The totals in the PDF footer and in the spreadsheet's totals row are the same numbers. */
  lemma TotalsRowsAgree(t: Totals)
    ensures NumberAt(PdfFooterRow(t), 6) == NumberAt(SheetTotalsRow(t), 8) == t.totalInvoiceQty
    ensures NumberAt(PdfFooterRow(t), 7) == NumberAt(SheetTotalsRow(t), 9) == t.totalRcvdQty
    ensures NumberAt(PdfFooterRow(t), 9) == NumberAt(SheetTotalsRow(t), 11) == t.totalValue
  {
  }

  /**
   * The item rows of the two reports agree: under every PDF column other than the
   * combined description the spreadsheet row of the same item shows the same text, or a
   * cell carrying the same number.
   */
  lemma ItemRowsAgreeAcrossReports(out: Reports, items: seq<LineItem>, t: Totals)
    requires PdfTableFor(out.pdf, items, t) && SheetTableFor(out.workbook, items, t)
    ensures forall i, k :: 0 <= i < |items| && 0 <= k < |PdfColumns| && PdfColumns[k] != DescriptionColumn ==>
      CellNumber(out.pdf.body[i][k]) == CellNumber(SheetCellUnder(PdfColumns[k], items[i])) &&
      (CellNumber(out.pdf.body[i][k]).None? ==> out.pdf.body[i][k] == SheetCellUnder(PdfColumns[k], items[i]))
  {
    forall i | 0 <= i < |items|
      ensures forall k :: 0 <= k < |PdfColumns| && PdfColumns[k] != DescriptionColumn ==>
        CellNumber(out.pdf.body[i][k]) == CellNumber(SheetCellUnder(PdfColumns[k], items[i])) &&
        (CellNumber(out.pdf.body[i][k]).None? ==> out.pdf.body[i][k] == SheetCellUnder(PdfColumns[k], items[i]))
    {
      assert out.pdf.body[i] == PdfItemRow(items[i]);
      ItemRowsAgree(items[i]);
    }
  }

  /** The totals the PDF footer shows are those of the spreadsheet's totals row. */
  lemma TotalsAgreeAcrossReports(out: Reports, items: seq<LineItem>, t: Totals)
    requires PdfTableFor(out.pdf, items, t) && SheetTableFor(out.workbook, items, t)
    ensures var footer, totalsRow := out.pdf.body[|items|], out.workbook.rows[PreambleRowCount + |items|];
      NumberAt(footer, 6) == NumberAt(totalsRow, 8) &&
      NumberAt(footer, 7) == NumberAt(totalsRow, 9) &&
      NumberAt(footer, 9) == NumberAt(totalsRow, 11)
  {
    TotalsRowsAgree(t);
  }

  /** Every header value appears in both reports: in its PDF info line and at its spreadsheet cell. */
  lemma HeaderAgreesAcrossReports(out: Reports, h: ReportHeader, items: seq<LineItem>, t: Totals, filename: string)
    requires out.pdf.info == InfoBlock(h)
    requires IsWorkbookFor(out.workbook, h, items, t, filename)
    ensures forall l :: 0 <= l < |out.pdf.info| ==>
      var (r, c) := HeaderCellOf(InfoFields[l]);
      r < |out.workbook.rows| && c < |out.workbook.rows[r]| &&
      out.workbook.rows[r][c] == Text(out.pdf.info[l].value)
  {
    SheetPreambleShape(h);
    var rows := out.workbook.rows;
    forall l | 0 <= l < |out.pdf.info|
      ensures var (r, c) := HeaderCellOf(InfoFields[l]);
        r < |rows| && c < |rows[r]| && rows[r][c] == Text(out.pdf.info[l].value)
    {
      var (r, c) := HeaderCellOf(InfoFields[l]);
      assert rows[r] == rows[..PreambleRowCount][r];
    }
  }
}
