/**
 * The data `generatePDF` (services/reportService.ts) hands to jsPDF and autoTable: the
 * info block, the table head and body with its totals footer, the per-row font style
 * chosen by the `didParseCell` hook, the layout, the signature placement and the file
 * name. Drawing itself is the renderer's business and is not modelled.
 */
module PdfReport {
  import opened Types
  import opened TotalsCalculator
  import opened LayoutPlanner

  /** The eleven columns of the PDF table, in order; color and HS code join the description. */
  const PdfColumns: seq<Column> := [
    FabricCodeColumn, DescriptionColumn, RcvdDateColumn, ChallanNoColumn, PiNumberColumn, UnitColumn,
    InvoiceQtyColumn, RcvdQtyColumn, UnitPriceColumn, TotalValueColumn, AppstremeNoColumn]

  /** The title the PDF gives a column. */
  function PdfTitle(c: Column): string
  {
    match c
    case FabricCodeColumn => "Fabric Code"
    case DescriptionColumn => "Item Description"
    case ColorColumn => "Color"
    case HsCodeColumn => "HS Code"
    case RcvdDateColumn => "Rcvd Date"
    case ChallanNoColumn => "Challan No"
    case PiNumberColumn => "Pi Number"
    case UnitColumn => "Unit"
    case InvoiceQtyColumn => "Invoice Qty"
    case RcvdQtyColumn => "Rcvd Qty"
    case UnitPriceColumn => "Unit Price $"
    case TotalValueColumn => "Total Value"
    case AppstremeNoColumn => "Appstreme No.\n(Receipt no)"
  }

  /** The head row of the PDF table, as the source lists it. */
  const TableColumns: seq<string> := [
    "Fabric Code", "Item Description", "Rcvd Date", "Challan No", "Pi Number", "Unit",
    "Invoice Qty", "Rcvd Qty", "Unit Price $", "Total Value", "Appstreme No.\n(Receipt no)"]

  // ---------------------------------------------------------------------------------
  // String.prototype.trim and the description builder

  /** The characters `trim` removes: ECMAScript WhiteSpace and LineTerminator. */
  predicate IsTrimmedSpace(c: char)
  {
    c == '\U{0009}' || c == '\U{000A}' || c == '\U{000B}' || c == '\U{000C}' || c == '\U{000D}' ||
    c == '\U{0020}' || c == '\U{00A0}' || c == '\U{1680}' || ('\U{2000}' <= c <= '\U{200A}') ||
    c == '\U{2028}' || c == '\U{2029}' || c == '\U{202F}' || c == '\U{205F}' || c == '\U{3000}' ||
    c == '\U{FEFF}'
  }

  /** Nothing but trimmed space: the strings `s.trim()` turns into "". */
  predicate IsBlank(s: string)
  {
    forall i :: 0 <= i < |s| ==> IsTrimmedSpace(s[i])
  }

  function TrimStart(s: string): string
  {
    if s != [] && IsTrimmedSpace(s[0]) then TrimStart(s[1..]) else s
  }

  function TrimEnd(s: string): string
  {
    if s != [] && IsTrimmedSpace(s[|s| - 1]) then TrimEnd(s[..|s| - 1]) else s
  }

  /** `TrimStart` drops a blank prefix and stops at the first non-space character. */
  lemma {:induction false} TrimStartDropsBlankPrefix(s: string)
    ensures var r := TrimStart(s);
      |r| <= |s| && r == s[|s| - |r|..] && (r == [] || !IsTrimmedSpace(r[0])) && IsBlank(s[..|s| - |r|])
  {
    if s != [] && IsTrimmedSpace(s[0]) {
      TrimStartDropsBlankPrefix(s[1..]);
      var r := TrimStart(s[1..]);
      assert s[..|s| - |r|] == [s[0]] + s[1..][..|s| - 1 - |r|];
    }
  }

  /** An all-blank string trims at the end to nothing. */
  lemma {:induction false} TrimEndOfBlank(s: string)
    requires IsBlank(s)
    ensures TrimEnd(s) == ""
  {
    if s != [] {
      TrimEndOfBlank(s[..|s| - 1]);
    }
  }

  /** A string starting with a non-space character does not trim at the end to nothing. */
  lemma {:induction false} TrimEndKeepsFirst(s: string)
    requires s != [] && !IsTrimmedSpace(s[0])
    ensures TrimEnd(s) != ""
  {
    if IsTrimmedSpace(s[|s| - 1]) {
      TrimEndKeepsFirst(s[..|s| - 1]);
    }
  }

  /** `TrimEnd` keeps a prefix ending in a non-space character and drops a blank suffix. */
  lemma {:induction false} TrimEndDropsBlankSuffix(s: string)
    ensures var r := TrimEnd(s);
      |r| <= |s| && r == s[..|r|] && (r == [] || !IsTrimmedSpace(r[|r| - 1])) && IsBlank(s[|r|..])
  {
    if s != [] && IsTrimmedSpace(s[|s| - 1]) {
      var t := s[..|s| - 1];
      TrimEndDropsBlankSuffix(t);
      var r := TrimEnd(t);
      assert s[|r|..] == t[|r|..] + [s[|s| - 1]];
    }
  }

  /** `s.trim()`: never longer than `s`, and neither starting nor ending with trimmed space. */
  function Trim(s: string): (r: string)
    ensures |r| <= |s|
    ensures r == [] || (!IsTrimmedSpace(r[0]) && !IsTrimmedSpace(r[|r| - 1]))
  {
    var t := TrimStart(s);
    TrimStartDropsBlankPrefix(s);
    TrimEndDropsBlankSuffix(t);
    TrimEnd(t)
  }

  /** What `trim` keeps is the part of `s` between a blank prefix and a blank suffix. */
  lemma TrimKeepsInnerPart(s: string)
    ensures var r := Trim(s);
      exists i :: 0 <= i <= |s| - |r| && s[i..i + |r|] == r && IsBlank(s[..i]) && IsBlank(s[i + |r|..])
  {
    var t := TrimStart(s);
    TrimStartDropsBlankPrefix(s);
    TrimEndDropsBlankSuffix(t);
    var r := TrimEnd(t);
    var i := |s| - |t|;
    assert s[i..i + |r|] == r && s[i + |r|..] == t[|r|..];
  }

  /** `s.trim()` is empty exactly when `s` holds nothing but white space. */
  lemma TrimEmptyIffBlank(s: string)
    ensures Trim(s) == "" <==> IsBlank(s)
  {
    var t := TrimStart(s);
    TrimStartDropsBlankPrefix(s);
    if t != [] {
      assert t[0] == s[|s| - |t|];
      TrimEndKeepsFirst(t);
    } else {
      assert s[..|s|] == s;
      TrimEndOfBlank(t);
    }
  }

  /** `details.join(sep)`. */
  function Join(sep: string, parts: seq<string>): string
  {
    if |parts| == 0 then "" else if |parts| == 1 then parts[0] else parts[0] + sep + Join(sep, parts[1..])
  }

  /**
   * The secondary description line's parts: "Color: " and the color when the color is
   * not blank (so `trim` leaves something), and "H.S Code: " and the code likewise;
   * color first.
   */
  function DescriptionDetails(item: LineItem): (parts: seq<string>)
    ensures |parts| <= 2
    ensures |parts| == (if IsBlank(item.color) then 0 else 1) + (if IsBlank(item.hsCode) then 0 else 1)
    ensures parts == [] <==> IsBlank(item.color) && IsBlank(item.hsCode)
    ensures !IsBlank(item.color) ==> parts[0] == "Color: " + item.color
    ensures !IsBlank(item.hsCode) ==> parts[|parts| - 1] == "H.S Code: " + item.hsCode
  {
    TrimEmptyIffBlank(item.color);
    TrimEmptyIffBlank(item.hsCode);
    (if Trim(item.color) != "" then ["Color: " + item.color] else []) +
    (if Trim(item.hsCode) != "" then ["H.S Code: " + item.hsCode] else [])
  }

  /**
   * The description cell: the item description, then the details line when there is one;
   * it differs from the item description exactly when there are details.
   */
  function Description(item: LineItem): (d: string)
    ensures |item.itemDescription| <= |d| && d[..|item.itemDescription|] == item.itemDescription
    ensures d == item.itemDescription <==> DescriptionDetails(item) == []
  {
    var details := DescriptionDetails(item);
    if |details| > 0 then item.itemDescription + "\n" + Join(", ", details) else item.itemDescription
  }

  /** With blank color and HS code the description cell is the item description unchanged. */
  lemma DescriptionUnchanged(item: LineItem)
    requires IsBlank(item.color) && IsBlank(item.hsCode)
    ensures Description(item) == item.itemDescription
  {
    assert DescriptionDetails(item) == [];
  }

  /** Only a color: a second line "Color: <color>", with no comma and no HS code segment. */
  lemma DescriptionColorOnly(item: LineItem)
    requires !IsBlank(item.color) && IsBlank(item.hsCode)
    ensures Description(item) == item.itemDescription + "\nColor: " + item.color
  {
    TrimEmptyIffBlank(item.color);
    TrimEmptyIffBlank(item.hsCode);
    assert DescriptionDetails(item) == ["Color: " + item.color];
    assert "\n" + ("Color: " + item.color) == "\nColor: " + item.color;
  }

  /** Only an HS code: a second line "H.S Code: <hsCode>". */
  lemma DescriptionHsCodeOnly(item: LineItem)
    requires IsBlank(item.color) && !IsBlank(item.hsCode)
    ensures Description(item) == item.itemDescription + "\nH.S Code: " + item.hsCode
  {
    TrimEmptyIffBlank(item.color);
    TrimEmptyIffBlank(item.hsCode);
    assert DescriptionDetails(item) == ["H.S Code: " + item.hsCode];
    assert "\n" + ("H.S Code: " + item.hsCode) == "\nH.S Code: " + item.hsCode;
  }

  /** Both present: color first, then HS code, comma-joined on the second line, untrimmed. */
  lemma DescriptionBoth(item: LineItem)
    requires !IsBlank(item.color) && !IsBlank(item.hsCode)
    ensures Description(item) == item.itemDescription + "\nColor: " + item.color + ", H.S Code: " + item.hsCode
  {
    TrimEmptyIffBlank(item.color);
    TrimEmptyIffBlank(item.hsCode);
    var c, h := "Color: " + item.color, "H.S Code: " + item.hsCode;
    assert DescriptionDetails(item) == [c, h];
    JoinTwo(", ", c, h);
    BothDetailsLine(item.itemDescription, item.color, item.hsCode);
  }

  lemma JoinTwo(sep: string, a: string, b: string)
    ensures Join(sep, [a, b]) == a + sep + b
  {
    assert [a, b][1..] == [b];
  }

  /** Regrouping the concatenations of the two-detail description. */
  lemma BothDetailsLine(d: string, color: string, hsCode: string)
    ensures d + "\n" + ("Color: " + color + ", " + ("H.S Code: " + hsCode)) ==
      d + "\nColor: " + color + ", H.S Code: " + hsCode
  {
  }

  // ---------------------------------------------------------------------------------
  // Table rows

  /** The cell an item shows under a column of the PDF table. */
  function PdfCellUnder(c: Column, item: LineItem): Cell
  {
    match c
    case FabricCodeColumn => Text(item.fabricCode)
    case DescriptionColumn => Text(Description(item))
    case ColorColumn => Text(item.color)
    case HsCodeColumn => Text(item.hsCode)
    case RcvdDateColumn => Text(item.rcvdDate)
    case ChallanNoColumn => Text(item.challanNo)
    case PiNumberColumn => Text(item.piNumber)
    case UnitColumn => Text(item.unit)
    case InvoiceQtyColumn => Number(InvoiceQtyOf(item))
    case RcvdQtyColumn => Number(RcvdQtyOf(item))
    case UnitPriceColumn => FixedText(UnitPriceOf(item), 2)
    case TotalValueColumn => FixedText(LineTotal(item), 2)
    case AppstremeNoColumn => Text(item.appstremeNo)
  }

  /**
   * One body row, as the source builds it positionally: eleven cells, each the item's
   * value for the column whose title stands above it.
   */
  function PdfItemRow(item: LineItem): (row: seq<Cell>)
    ensures |row| == |PdfColumns|
    ensures forall k :: 0 <= k < |PdfColumns| ==> row[k] == PdfCellUnder(PdfColumns[k], item)
  {
    [Text(item.fabricCode), Text(Description(item)), Text(item.rcvdDate), Text(item.challanNo),
     Text(item.piNumber), Text(item.unit), Number(InvoiceQtyOf(item)), Number(RcvdQtyOf(item)),
     FixedText(UnitPriceOf(item), 2), FixedText(InvoiceQtyOf(item) * UnitPriceOf(item), 2), Text(item.appstremeNo)]
  }

  /** The head row lists the titles of the columns in order. */
  lemma TableColumnsAreTitles()
    ensures |TableColumns| == |PdfColumns|
    ensures forall k :: 0 <= k < |PdfColumns| ==> TableColumns[k] == PdfTitle(PdfColumns[k])
  {
  }

  /** What the totals footer shows under a column. */
  function PdfFooterCellUnder(c: Column, t: Totals): Cell
  {
    match c
    case PiNumberColumn => Text("Total:")
    case UnitColumn => Text("YDS")
    case InvoiceQtyColumn => FixedText(t.totalInvoiceQty, 2)
    case RcvdQtyColumn => FixedText(t.totalRcvdQty, 2)
    case TotalValueColumn => FixedText(t.totalValue, 2)
    case _ => Text("")
  }

  /**
   * The totals footer: "Total:" at index 4 and "YDS" at 5; the invoice quantity, received
   * quantity and value totals at 6, 7 and 9, under their own columns; blanks elsewhere.
   */
  function PdfFooterRow(t: Totals): (row: seq<Cell>)
    ensures |row| == |PdfColumns|
    ensures forall k :: 0 <= k < |PdfColumns| ==> row[k] == PdfFooterCellUnder(PdfColumns[k], t)
    ensures row[4] == Text("Total:") && row[5] == Text("YDS")
  {
    [Text(""), Text(""), Text(""), Text(""), Text("Total:"), Text("YDS"),
     FixedText(t.totalInvoiceQty, 2), FixedText(t.totalRcvdQty, 2), Text(""),
     FixedText(t.totalValue, 2), Text("")]
  }

  /** `items.map(...)`: one row per item, in input order. */
  function PdfItemRows(items: seq<LineItem>): (rows: seq<seq<Cell>>)
    ensures |rows| == |items|
    ensures forall i :: 0 <= i < |items| ==> rows[i] == PdfItemRow(items[i])
  {
    if items == [] then [] else [PdfItemRow(items[0])] + PdfItemRows(items[1..])
  }

  // ---------------------------------------------------------------------------------
  // The bold totals row

  datatype FontStyle = Normal | Bold

  datatype Section = Head | Body

  /**
   * The font style a cell ends with: the head section is bold by its style, and the
   * `didParseCell` hook bolds every cell whose row index is the last body index. The hook
   * does not look at the section, so with no items it also matches the head row.
   */
  function FontStyleAt(section: Section, rowIndex: nat, bodyRowCount: nat): (style: FontStyle)
    ensures section == Head ==> style == Bold
    ensures section == Body ==> (style == Bold <==> rowIndex + 1 == bodyRowCount)
  {
    if rowIndex == bodyRowCount - 1 then Bold else if section == Head then Bold else Normal
  }

  function BodyFontStyles(bodyRowCount: nat): (styles: seq<FontStyle>)
    ensures |styles| == bodyRowCount
    ensures forall i :: 0 <= i < bodyRowCount ==> (styles[i] == Bold <==> i == bodyRowCount - 1)
  {
    seq(bodyRowCount, i requires 0 <= i < bodyRowCount => FontStyleAt(Body, i, bodyRowCount))
  }

  // ---------------------------------------------------------------------------------
  // The info block

  /** One caption/value pair of the info block, with the x of caption and value and their y. */
  datatype InfoLine = InfoLine(caption: string, value: string, captionX: real, valueX: real, y: real)

  const InfoLeftX: real := 14.0
  const InfoRightX: real := A4LandscapeWidth - 70.0

  /** The header fields in the order the info block shows them: left column, then right. */
  const InfoFields: seq<HeaderField> := [BuyerName, SupplierName, FileNo, InvoiceNo, LcNumber, InvoiceDate, BillingDate]

  /**
   * The info block: five pairs down the left column and two down the right, a line
   * height apart from the block's top. `val || ''` leaves a string as it is.
   */
  function InfoBlock(h: ReportHeader): (lines: seq<InfoLine>)
    ensures |lines| == |InfoFields|
    ensures forall i :: 0 <= i < |lines| ==> lines[i].value == HeaderValue(h, InfoFields[i])
    ensures forall i :: 0 <= i < |lines| ==>
      lines[i].captionX < lines[i].valueX && InfoBlockY <= lines[i].y < TableStartY
  {
    [InfoLine("Buyer Name :", h.buyerName, InfoLeftX, InfoLeftX + 35.0, InfoBlockY),
     InfoLine("Supplier Name:", h.supplierName, InfoLeftX, InfoLeftX + 35.0, InfoBlockY + LineHeight),
     InfoLine("File No :", h.fileNo, InfoLeftX, InfoLeftX + 35.0, InfoBlockY + LineHeight * 2.0),
     InfoLine("Invoice No :", h.invoiceNo, InfoLeftX, InfoLeftX + 35.0, InfoBlockY + LineHeight * 3.0),
     InfoLine("L/C Number :", h.lcNumber, InfoLeftX, InfoLeftX + 35.0, InfoBlockY + LineHeight * 4.0),
     InfoLine("Invoice Date:", h.invoiceDate, InfoRightX, InfoRightX + 25.0, InfoBlockY),
     InfoLine("Billing Date:", h.billingDate, InfoRightX, InfoRightX + 25.0, InfoBlockY + LineHeight)]
  }

  // ---------------------------------------------------------------------------------
  // The whole payload

  datatype PdfDocument = PdfDocument(
    info: seq<InfoLine>,
    startY: real,
    layout: LayoutPlan,
    head: seq<string>,
    body: seq<seq<Cell>>,
    bodyStyles: seq<FontStyle>,
    newPage: bool,
    signatureY: real,
    fileName: string)

  /** The table of the document: the column titles, one row per item in order, the footer. */
  ghost predicate PdfTableFor(doc: PdfDocument, items: seq<LineItem>, t: Totals)
  {
    doc.head == TableColumns &&
    |doc.body| == |items| + 1 &&
    (forall i :: 0 <= i < |items| ==> doc.body[i] == PdfItemRow(items[i])) &&
    doc.body[|items|] == PdfFooterRow(t)
  }

  /** What the payload for these inputs is: each part as `generatePDF` computes it. */
  ghost predicate IsPdfFor(doc: PdfDocument, h: ReportHeader, items: seq<LineItem>, t: Totals,
                           filename: string, lastTableY: real)
  {
    doc.info == InfoBlock(h) &&
    doc.startY == TableStartY &&
    doc.layout == Layout(|items|, A4LandscapeHeight) &&
    PdfTableFor(doc, items, t) &&
    doc.bodyStyles == BodyFontStyles(|items| + 1) &&
    doc.signatureY == SignatureBlockY(A4LandscapeHeight) &&
    (doc.newPage <==> lastTableY > SignatureBlockY(A4LandscapeHeight) - OverlapTolerance) &&
    doc.fileName == filename + ".pdf"
  }

  /**
   * `generatePDF`, given the `finalY` autoTable reports after drawing. The body is the
   * item rows in input order followed by the footer; every row has as many cells as there
   * are column titles; only the footer is bold.
   */
  method GeneratePdf(h: ReportHeader, items: seq<LineItem>, t: Totals, filename: string, lastTableY: real)
    returns (doc: PdfDocument)
    ensures IsPdfFor(doc, h, items, t, filename, lastTableY)
    ensures forall i :: 0 <= i < |doc.body| ==> |doc.body[i]| == |doc.head|
    ensures forall i :: 0 <= i < |doc.body| ==> (doc.bodyStyles[i] == Bold <==> i == |items|)
  {
    var plan := PlanLayout(|items|, A4LandscapeHeight);
    var tableRows := PdfItemRows(items);
    tableRows := tableRows + [PdfFooterRow(t)];
    var styles := BodyFontStyles(|tableRows|);
    var newPage, sigY := PlaceSignature(lastTableY, A4LandscapeHeight);
    doc := PdfDocument(InfoBlock(h), TableStartY, plan, TableColumns, tableRows, styles, newPage, sigY,
                       filename + ".pdf");
  }
}
