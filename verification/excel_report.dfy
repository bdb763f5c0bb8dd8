/**
 * The data `generateExcel` (services/reportService.ts) hands to SheetJS: the array of
 * rows (`wsData`), the three title merges, the column widths, the sheet name and the
 * file name. Writing the workbook is the library's business and is not modelled.
 */
module ExcelReport {
  import opened Types
  import opened TotalsCalculator

  const SheetName: string := "Inventory Report"

  /** The thirteen columns of the sheet, in order; color and HS code have columns of their own. */
  const SheetColumns: seq<Column> := [
    FabricCodeColumn, DescriptionColumn, ColorColumn, HsCodeColumn, RcvdDateColumn, ChallanNoColumn,
    PiNumberColumn, UnitColumn, InvoiceQtyColumn, RcvdQtyColumn, UnitPriceColumn, TotalValueColumn,
    AppstremeNoColumn]

  /** The column header row (row 10), as the source lists it. */
  const SheetTitles: seq<string> := [
    "Fabric Code", "Item Description", "Color", "HS Code", "Rcvd Date", "Challan No",
    "Pi Number", "Unit", "Invoice Qty", "Rcvd Qty", "Unit Price $", "Total Value", "Appstreme No"]

  /** Column widths in characters (`wch`), one per column. */
  const ColumnWidths: seq<nat> := [15, 25, 10, 10, 12, 12, 12, 6, 10, 10, 10, 12, 15]

  /** Rows 0-10: title block, blank, header label/value pairs, blank, column headers. */
  const PreambleRowCount: nat := 11

  /**
   * Rows 0-10 of the sheet: three one-cell title rows, a blank row, the header rows, a
   * blank row and the column header row.
   */
  function SheetPreamble(h: ReportHeader): (rows: seq<seq<Cell>>)
    ensures |rows| == PreambleRowCount
    ensures forall r :: 0 <= r < 3 ==> |rows[r]| == 1
    ensures rows[3] == [] && rows[9] == []
    ensures rows[10] == Texts(SheetTitles) && |rows[10]| == |SheetColumns|
  {
    [[Text("Tusuka Trousers Ltd.")],
     [Text("Neelngar, Konabari, Gazipur")],
     [Text("Inventory Report")],
     [],
     Texts(["Buyer Name :", h.buyerName, "", "", "", "", "", "Invoice Date:", h.invoiceDate]),
     Texts(["Supplier Name:", h.supplierName, "", "", "", "", "", "Billing Date:", h.billingDate]),
     Texts(["File No :", h.fileNo]),
     Texts(["Invoice No :", h.invoiceNo]),
     Texts(["L/C Number :", h.lcNumber]),
     [],
     Texts(SheetTitles)]
  }

  /** Where the preamble puts each header value: (row, column). */
  function HeaderCellOf(f: HeaderField): (rc: (nat, nat))
  {
    match f
    case BuyerName => (4, 1)
    case InvoiceDate => (4, 8)
    case SupplierName => (5, 1)
    case BillingDate => (5, 8)
    case FileNo => (6, 1)
    case InvoiceNo => (7, 1)
    case LcNumber => (8, 1)
  }

  /** Each header value stands in the preamble at its own cell. */
  lemma SheetPreambleShape(h: ReportHeader)
    ensures forall f: HeaderField :: (HeaderCellOf(f).1 < |SheetPreamble(h)[HeaderCellOf(f).0]| &&
      SheetPreamble(h)[HeaderCellOf(f).0][HeaderCellOf(f).1] == Text(HeaderValue(h, f)))
  {
    forall f: HeaderField
      ensures HeaderCellOf(f).1 < |SheetPreamble(h)[HeaderCellOf(f).0]| &&
        SheetPreamble(h)[HeaderCellOf(f).0][HeaderCellOf(f).1] == Text(HeaderValue(h, f))
    {
      match f
      case BuyerName =>
      case InvoiceDate =>
      case SupplierName =>
      case BillingDate =>
      case FileNo =>
      case InvoiceNo =>
      case LcNumber =>
    }
  }

  /** The cell an item shows under a column of the sheet. */
  function SheetCellUnder(c: Column, item: LineItem): Cell
  {
    match c
    case FabricCodeColumn => Text(item.fabricCode)
    case DescriptionColumn => Text(item.itemDescription)
    case ColorColumn => Text(item.color)
    case HsCodeColumn => Text(item.hsCode)
    case RcvdDateColumn => Text(item.rcvdDate)
    case ChallanNoColumn => Text(item.challanNo)
    case PiNumberColumn => Text(item.piNumber)
    case UnitColumn => Text(item.unit)
    case InvoiceQtyColumn => NumberText(InvoiceQtyOf(item))
    case RcvdQtyColumn => NumberText(RcvdQtyOf(item))
    case UnitPriceColumn => NumberText(UnitPriceOf(item))
    case TotalValueColumn => FixedText(LineTotal(item), 2)
    case AppstremeNoColumn => Text(item.appstremeNo)
  }

  /** One item row: thirteen cells, each the item's value for the column above it. */
  function SheetItemRow(item: LineItem): (row: seq<Cell>)
    ensures |row| == |SheetColumns|
    ensures forall k :: 0 <= k < |SheetColumns| ==> row[k] == SheetCellUnder(SheetColumns[k], item)
  {
    [Text(item.fabricCode), Text(item.itemDescription), Text(item.color), Text(item.hsCode),
     Text(item.rcvdDate), Text(item.challanNo), Text(item.piNumber), Text(item.unit),
     NumberText(InvoiceQtyOf(item)), NumberText(RcvdQtyOf(item)), NumberText(UnitPriceOf(item)),
     FixedText(InvoiceQtyOf(item) * UnitPriceOf(item), 2), Text(item.appstremeNo)]
  }

  /** What the totals row shows under a column; "Total:" stands in the first column. */
  function SheetTotalsCellUnder(c: Column, t: Totals): Cell
  {
    match c
    case FabricCodeColumn => Text("Total:")
    case InvoiceQtyColumn => NumberText(t.totalInvoiceQty)
    case RcvdQtyColumn => NumberText(t.totalRcvdQty)
    case TotalValueColumn => FixedText(t.totalValue, 2)
    case _ => Text("")
  }

  /** The totals row: "Total:" at column 0, the totals at 8, 9 and 11, blanks elsewhere. */
  function SheetTotalsRow(t: Totals): (row: seq<Cell>)
    ensures |row| == |SheetColumns|
    ensures forall k :: 0 <= k < |SheetColumns| ==> row[k] == SheetTotalsCellUnder(SheetColumns[k], t)
  {
    [Text("Total:"), Text(""), Text(""), Text(""), Text(""), Text(""), Text(""), Text(""),
     NumberText(t.totalInvoiceQty), NumberText(t.totalRcvdQty), Text(""),
     FixedText(t.totalValue, 2), Text("")]
  }

  /**
   * `wsData`: the preamble, then one row per item pushed in input order, then the totals
   * row, `|items| + 12` rows in all.
   */
  method BuildSheetRows(h: ReportHeader, items: seq<LineItem>, t: Totals) returns (wsData: seq<seq<Cell>>)
    ensures |wsData| == |items| + PreambleRowCount + 1
    ensures wsData[..PreambleRowCount] == SheetPreamble(h)
    ensures forall i :: 0 <= i < |items| ==> wsData[PreambleRowCount + i] == SheetItemRow(items[i])
    ensures wsData[|items| + PreambleRowCount] == SheetTotalsRow(t)
  {
    wsData := SheetPreamble(h);
    var k := 0;
    while k < |items|
      invariant 0 <= k <= |items|
      invariant |wsData| == PreambleRowCount + k
      invariant wsData[..PreambleRowCount] == SheetPreamble(h)
      invariant forall i :: 0 <= i < k ==> wsData[PreambleRowCount + i] == SheetItemRow(items[i])
    {
      wsData := wsData + [SheetItemRow(items[k])];
      k := k + 1;
    }
    wsData := wsData + [SheetTotalsRow(t)];
  }

  datatype CellAddress = CellAddress(r: nat, c: nat)

  /** A merged range from its start cell `s` to its end cell `e`, both inclusive. */
  datatype Merge = Merge(s: CellAddress, e: CellAddress)

  /** The merge that makes title row `r` span every column. */
  function TitleMerge(r: nat): Merge
  {
    Merge(CellAddress(r, 0), CellAddress(r, 12))
  }

  datatype Workbook = Workbook(
    sheetName: string,
    rows: seq<seq<Cell>>,
    merges: seq<Merge>,
    colWidths: seq<nat>,
    fileName: string)

  /** The rows below the preamble: one per item in order, then the totals row. */
  ghost predicate SheetTableFor(wb: Workbook, items: seq<LineItem>, t: Totals)
  {
    |wb.rows| == |items| + PreambleRowCount + 1 &&
    (forall i :: 0 <= i < |items| ==> wb.rows[PreambleRowCount + i] == SheetItemRow(items[i])) &&
    wb.rows[|items| + PreambleRowCount] == SheetTotalsRow(t)
  }

  /** What the workbook for these inputs is: each part as `generateExcel` computes it. */
  ghost predicate IsWorkbookFor(wb: Workbook, h: ReportHeader, items: seq<LineItem>, t: Totals, filename: string)
  {
    wb.sheetName == SheetName &&
    SheetTableFor(wb, items, t) &&
    wb.rows[..PreambleRowCount] == SheetPreamble(h) &&
    wb.merges == [TitleMerge(0), TitleMerge(1), TitleMerge(2)] &&
    wb.colWidths == ColumnWidths &&
    wb.fileName == filename + ".xlsx"
  }

  /**
   * `generateExcel`. The sheet made from the rows carries no merges, so the merge list
   * starts empty and receives the three title merges. Each merge covers one of rows 0-2
   * across all thirteen columns, and there is one width per column.
   */
  method GenerateExcel(h: ReportHeader, items: seq<LineItem>, t: Totals, filename: string) returns (wb: Workbook)
    ensures IsWorkbookFor(wb, h, items, t, filename)
    ensures |wb.merges| == 3 && |wb.colWidths| == |SheetColumns|
    ensures forall m :: 0 <= m < 3 ==> (
      wb.merges[m].s == CellAddress(m, 0) && wb.merges[m].e == CellAddress(m, |SheetColumns| - 1) &&
      |wb.rows[m]| == 1)
  {
    var wsData := BuildSheetRows(h, items, t);
    var merges: seq<Merge> := [];
    merges := merges + [TitleMerge(0)];
    merges := merges + [TitleMerge(1)];
    merges := merges + [TitleMerge(2)];
    assert wsData[..PreambleRowCount][0] == wsData[0];
    assert wsData[..PreambleRowCount][1] == wsData[1];
    assert wsData[..PreambleRowCount][2] == wsData[2];
    wb := Workbook(SheetName, wsData, merges, ColumnWidths, filename + ".xlsx");
  }
}
