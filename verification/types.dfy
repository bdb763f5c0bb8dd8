/** The conventional optional value. */
module Wrappers {
  datatype Option<+T> = None | Some(value: T)
}

/**
 * The records the form collects and the reports consume (types.ts), plus the cell type
 * of the payloads handed to the PDF and spreadsheet renderers.
 */
module Types {
  import opened Wrappers

  /**
   * What JavaScript's `Number(x)` yields for a form field: a number, or NaN. Number
   * fields of a line item hold whatever the input box last delivered, so they are
   * modelled by this result rather than by a raw string.
   */
  datatype Num = Valid(r: real) | Invalid

  /** `Number(x) || 0`: NaN counts as 0 (and 0 stays 0). */
  function Coerce(n: Num): real
  {
    match n
    case Valid(r) => r
    case Invalid => 0.0
  }

  datatype ReportHeader = ReportHeader(
    buyerName: string,
    supplierName: string,
    fileNo: string,
    invoiceNo: string,
    lcNumber: string,
    invoiceDate: string,
    billingDate: string)

  datatype LineItem = LineItem(
    id: string,
    fabricCode: string,
    itemDescription: string,
    color: string,
    hsCode: string,
    rcvdDate: string,
    challanNo: string,
    piNumber: string,
    unit: string,
    invoiceQty: Num,
    rcvdQty: Num,
    unitPrice: Num,
    appstremeNo: string)

  datatype Totals = Totals(totalInvoiceQty: real, totalRcvdQty: real, totalValue: real)

  /** The header fields, one tag per `name` attribute of the header inputs. */
  datatype HeaderField = BuyerName | SupplierName | FileNo | InvoiceNo | LcNumber | InvoiceDate | BillingDate

  function HeaderValue(h: ReportHeader, f: HeaderField): string
  {
    match f
    case BuyerName => h.buyerName
    case SupplierName => h.supplierName
    case FileNo => h.fileNo
    case InvoiceNo => h.invoiceNo
    case LcNumber => h.lcNumber
    case InvoiceDate => h.invoiceDate
    case BillingDate => h.billingDate
  }

  /** The item columns the two reports lay out, each report in its own order. */
  datatype Column =
    | FabricCodeColumn | DescriptionColumn | ColorColumn | HsCodeColumn | RcvdDateColumn
    | ChallanNoColumn | PiNumberColumn | UnitColumn | InvoiceQtyColumn | RcvdQtyColumn
    | UnitPriceColumn | TotalValueColumn | AppstremeNoColumn

  /**
   * A cell handed to a renderer. Number-to-string conversion is left uninterpreted:
   * `FixedText(x, d)` stands for `x.toFixed(d)` and `NumberText(x)` for `x.toString()`.
   */
  datatype Cell = Text(text: string) | Number(value: real) | FixedText(amount: real, digits: nat) | NumberText(shown: real)

  /** The number a cell carries, if any. */
  function CellNumber(c: Cell): Option<real>
  {
    match c
    case Text(_) => None
    case Number(v) => Some(v)
    case FixedText(v, _) => Some(v)
    case NumberText(v) => Some(v)
  }

  function Texts(ss: seq<string>): (cells: seq<Cell>)
    ensures |cells| == |ss|
    ensures forall k :: 0 <= k < |ss| ==> cells[k] == Text(ss[k])
  {
    seq(|ss|, k requires 0 <= k < |ss| => Text(ss[k]))
  }
}
