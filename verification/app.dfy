/**
 * The form state of App.tsx: the report header and the list of line items, the
 * handlers that change them, and the generate button's guard. React's state updates
 * are modelled as a class whose fields the handlers reassign.
 */
module App {
  import opened Wrappers
  import opened Types
  import opened Utils
  import opened TotalsCalculator
  import opened ReportService

  // ---------------------------------------------------------------------------------
  // Editing one field

  /** The text inputs and the unit select of an item row, by their `name`. */
  datatype TextField =
    | FabricCode | ItemDescription | Color | HsCode | RcvdDate | ChallanNo | PiNumber | Unit | AppstremeNo

  /** The number inputs of an item row, by their `name`. */
  datatype NumField = InvoiceQty | RcvdQty | UnitPrice

  /**
   * One change event on an item row. A number input delivers a string; what `Number` makes
   * of that string is all the rest of the program ever sees of it, so it is carried as a `Num`.
   */
  datatype ItemEdit = SetText(field: TextField, text: string) | SetNum(numField: NumField, num: Num)

  function TextOf(item: LineItem, f: TextField): string
  {
    match f
    case FabricCode => item.fabricCode
    case ItemDescription => item.itemDescription
    case Color => item.color
    case HsCode => item.hsCode
    case RcvdDate => item.rcvdDate
    case ChallanNo => item.challanNo
    case PiNumber => item.piNumber
    case Unit => item.unit
    case AppstremeNo => item.appstremeNo
  }

  function NumOf(item: LineItem, f: NumField): Num
  {
    match f
    case InvoiceQty => item.invoiceQty
    case RcvdQty => item.rcvdQty
    case UnitPrice => item.unitPrice
  }

  /**
   * `{ ...item, [name]: value }`: the named field takes the new value; the id and every
   * other field are kept.
   */
  function ApplyEdit(item: LineItem, edit: ItemEdit): (r: LineItem)
    ensures r.id == item.id
    ensures edit.SetText? ==>
      TextOf(r, edit.field) == edit.text &&
      (forall f :: f != edit.field ==> TextOf(r, f) == TextOf(item, f)) &&
      (forall g :: NumOf(r, g) == NumOf(item, g))
    ensures edit.SetNum? ==>
      NumOf(r, edit.numField) == edit.num &&
      (forall g :: g != edit.numField ==> NumOf(r, g) == NumOf(item, g)) &&
      (forall f :: TextOf(r, f) == TextOf(item, f))
  {
    match edit
    case SetText(f, v) =>
      (match f
       case FabricCode => item.(fabricCode := v)
       case ItemDescription => item.(itemDescription := v)
       case Color => item.(color := v)
       case HsCode => item.(hsCode := v)
       case RcvdDate => item.(rcvdDate := v)
       case ChallanNo => item.(challanNo := v)
       case PiNumber => item.(piNumber := v)
       case Unit => item.(unit := v)
       case AppstremeNo => item.(appstremeNo := v))
    case SetNum(g, n) =>
      (match g
       case InvoiceQty => item.(invoiceQty := n)
       case RcvdQty => item.(rcvdQty := n)
       case UnitPrice => item.(unitPrice := n))
  }

  /** `{ ...prev, [name]: value }` on the header: the named field changes and no other. */
  function WithHeaderField(h: ReportHeader, f: HeaderField, v: string): (r: ReportHeader)
    ensures HeaderValue(r, f) == v
    ensures forall g :: g != f ==> HeaderValue(r, g) == HeaderValue(h, g)
  {
    match f
    case BuyerName => h.(buyerName := v)
    case SupplierName => h.(supplierName := v)
    case FileNo => h.(fileNo := v)
    case InvoiceNo => h.(invoiceNo := v)
    case LcNumber => h.(lcNumber := v)
    case InvoiceDate => h.(invoiceDate := v)
    case BillingDate => h.(billingDate := v)
  }

  // ---------------------------------------------------------------------------------
  // The item list

  predicate HasId(items: seq<LineItem>, id: string)
  {
    exists i :: 0 <= i < |items| && items[i].id == id
  }

  /** No two rows share an id (each row's id comes from `crypto.randomUUID`). */
  predicate UniqueIds(items: seq<LineItem>)
  {
    forall i, j :: 0 <= i < j < |items| ==> items[i].id != items[j].id
  }

  /**
   * `prev.map(item => item.id === id ? { ...item, [name]: value } : item)`: the rows keep
   * their order and ids; the rows with that id are edited and the others are untouched.
   */
  function UpdateItems(items: seq<LineItem>, id: string, edit: ItemEdit): (r: seq<LineItem>)
    ensures |r| == |items|
    ensures forall i :: 0 <= i < |items| ==> r[i].id == items[i].id
    ensures forall i :: 0 <= i < |items| && items[i].id != id ==> r[i] == items[i]
    ensures forall i :: 0 <= i < |items| && items[i].id == id ==> r[i] == ApplyEdit(items[i], edit)
  {
    if items == [] then []
    else [if items[0].id == id then ApplyEdit(items[0], edit) else items[0]] + UpdateItems(items[1..], id, edit)
  }

  /** An edit for an id no row has changes nothing. */
  lemma UpdateUnknownId(items: seq<LineItem>, id: string, edit: ItemEdit)
    requires !HasId(items, id)
    ensures UpdateItems(items, id, edit) == items
  {
    var r := UpdateItems(items, id, edit);
    forall i | 0 <= i < |items|
      ensures r[i] == items[i]
    {
      assert items[i].id != id;
    }
  }

  /** Editing a row keeps the ids unique. */
  lemma UpdateKeepsUniqueIds(items: seq<LineItem>, id: string, edit: ItemEdit)
    requires UniqueIds(items)
    ensures UniqueIds(UpdateItems(items, id, edit))
  {
  }

  /** `prev.filter(item => item.id !== id)`: exactly the rows with another id, in order. */
  function Without(items: seq<LineItem>, id: string): (r: seq<LineItem>)
    ensures |r| <= |items|
    ensures forall x :: x in r <==> x in items && x.id != id
  {
    if items == [] then []
    else (if items[0].id == id then [] else [items[0]]) + Without(items[1..], id)
  }

  /** Removing an id no row has keeps the list as it is. */
  lemma {:induction false} WithoutUnknownId(items: seq<LineItem>, id: string)
    requires !HasId(items, id)
    ensures Without(items, id) == items
  {
    if items != [] {
      assert !HasId(items[1..], id) by {
        forall i | 0 <= i < |items[1..]|
          ensures items[1..][i].id != id
        {
          assert items[1..][i] == items[i + 1];
        }
      }
      WithoutUnknownId(items[1..], id);
      assert items[0].id != id;
      assert [items[0]] + items[1..] == items;
    }
  }

  /** Filtering distributes over concatenation: the rows kept stay in their order. */
  lemma {:induction false} WithoutAppend(a: seq<LineItem>, b: seq<LineItem>, id: string)
    ensures Without(a + b, id) == Without(a, id) + Without(b, id)
  {
    if a == [] {
      assert a + b == b;
    } else {
      assert (a + b)[0] == a[0];
      assert (a + b)[1..] == a[1..] + b;
      WithoutAppend(a[1..], b, id);
    }
  }

  /** With unique ids, a stretch of rows that leaves out row `j` does not carry row `j`'s id. */
  lemma SliceLacksId(items: seq<LineItem>, lo: nat, hi: nat, j: nat)
    requires UniqueIds(items) && lo <= hi <= |items| && j < |items| && (j < lo || hi <= j)
    ensures !HasId(items[lo..hi], items[j].id)
  {
    var part := items[lo..hi];
    forall i | 0 <= i < |part|
      ensures part[i].id != items[j].id
    {
      assert part[i] == items[lo + i];
    }
  }

  /** Removing an id that only the middle row carries leaves the rows around it, in order. */
  lemma WithoutAround(before: seq<LineItem>, x: LineItem, after: seq<LineItem>, id: string)
    requires !HasId(before, id) && !HasId(after, id) && x.id == id
    ensures Without(before + [x] + after, id) == before + after
  {
    var rest := [x] + after;
    assert Without(before, id) == before by {
      WithoutUnknownId(before, id);
    }
    assert Without(rest, id) == after by {
      assert rest[0] == x && rest[1..] == after;
      WithoutUnknownId(after, id);
    }
    assert Without(before + rest, id) == Without(before, id) + Without(rest, id) by {
      WithoutAppend(before, rest, id);
    }
    assert before + [x] + after == before + rest;
  }

  /**
   * With unique ids, removing the id of row `j` gives the rows before it followed by the
   * rows after it, each group in its original order.
   */
  lemma WithoutRemovesAt(items: seq<LineItem>, j: nat, id: string)
    requires UniqueIds(items) && j < |items| && items[j].id == id
    ensures Without(items, id) == items[..j] + items[j + 1..]
  {
    SliceLacksId(items, 0, j, j);
    SliceLacksId(items, j + 1, |items|, j);
    assert items[0..j] == items[..j] && items[j + 1..|items|] == items[j + 1..];
    WithoutAround(items[..j], items[j], items[j + 1..], id);
    assert items == items[..j] + [items[j]] + items[j + 1..];
  }

  /** Below the first row, the ids are unique and differ from the first row's. */
  lemma TailUnique(items: seq<LineItem>)
    requires items != [] && UniqueIds(items)
    ensures UniqueIds(items[1..])
    ensures forall x :: x in items[1..] ==> x.id != items[0].id
  {
    var tail := items[1..];
    forall i, j | 0 <= i < j < |tail|
      ensures tail[i].id != tail[j].id
    {
      assert tail[i] == items[i + 1] && tail[j] == items[j + 1];
    }
    forall x | x in tail
      ensures x.id != items[0].id
    {
      var j :| 0 <= j < |tail| && tail[j] == x;
      assert items[j + 1] == x;
    }
  }

  lemma HasIdCons(items: seq<LineItem>, id: string)
    requires items != []
    ensures HasId(items, id) <==> items[0].id == id || HasId(items[1..], id)
  {
    var tail := items[1..];
    if HasId(items, id) && items[0].id != id {
      var k :| 0 <= k < |items| && items[k].id == id;
      assert tail[k - 1] == items[k];
    }
    if HasId(tail, id) {
      var k :| 0 <= k < |tail| && tail[k].id == id;
      assert items[k + 1] == tail[k];
    }
  }

  /** Filtering keeps the ids unique. */
  lemma {:induction false} WithoutKeepsUniqueIds(items: seq<LineItem>, id: string)
    requires UniqueIds(items)
    ensures UniqueIds(Without(items, id))
  {
    if items != [] {
      TailUnique(items);
      WithoutKeepsUniqueIds(items[1..], id);
      var rest := Without(items[1..], id);
      if items[0].id != id {
        var r := [items[0]] + rest;
        forall i, j | 0 <= i < j < |r|
          ensures r[i].id != r[j].id
        {
          if i == 0 {
            assert r[j] == rest[j - 1] && r[j] in rest;
          } else {
            assert r[i] == rest[i - 1] && r[j] == rest[j - 1];
          }
        }
      }
    }
  }

  /** With unique ids the filter removes exactly one row when the id is present, else none. */
  lemma {:induction false} WithoutCount(items: seq<LineItem>, id: string)
    requires UniqueIds(items)
    ensures |Without(items, id)| == if HasId(items, id) then |items| - 1 else |items|
  {
    if items != [] {
      TailUnique(items);
      HasIdCons(items, id);
      WithoutCount(items[1..], id);

    }
  }

  /** The row `addNewRow` appends: blank texts, unit "YDS", zero quantities and price. */
  function BlankItem(id: string): (item: LineItem)
    ensures item.id == id && item.unit == "YDS"
    ensures forall f :: f != Unit ==> TextOf(item, f) == ""
    ensures forall g :: NumOf(item, g) == Valid(0.0) && Coerce(NumOf(item, g)) == 0.0
  {
    LineItem(id, "", "", "", "", "", "", "", "YDS", Valid(0.0), Valid(0.0), Valid(0.0), "")
  }

  /** The header the form starts with: every field empty. */
  const EmptyHeader: ReportHeader := ReportHeader("", "", "", "", "", "", "")

  /** Appending a row with a fresh id keeps the ids unique. */
  lemma AppendFreshKeepsUniqueIds(items: seq<LineItem>, item: LineItem)
    requires UniqueIds(items) && !HasId(items, item.id)
    ensures UniqueIds(items + [item])
  {
    var r := items + [item];
    forall i, j | 0 <= i < j < |r|
      ensures r[i].id != r[j].id
    {
      if j == |items| {
        assert r[i] == items[i];
      } else {
        assert r[i] == items[i] && r[j] == items[j];
      }
    }
  }

  /** A blank row adds nothing to the totals. */
  lemma BlankRowAddsNothing(items: seq<LineItem>, id: string)
    ensures CalculateTotals(items + [BlankItem(id)]) == CalculateTotals(items)
  {
    CalculateTotalsSnoc(items, BlankItem(id));
  }

  // ---------------------------------------------------------------------------------
  // The component's state

  /** What pressing the generate button does. */
  datatype GenerateOutcome = Alerted(message: string) | Generated(reports: Reports)

  const MissingBuyerMessage: string := "Please enter a Buyer Name."

  class FormStore {
    var header: ReportHeader
    var items: seq<LineItem>

    /** The list always has a row, and no two rows share an id. */
    ghost predicate Valid()
      reads this
    {
      |items| >= 1 && UniqueIds(items)
    }

    /** The initial state: an empty header and one blank row with id `firstId`. */
    constructor(firstId: string)
      ensures Valid()
      ensures header == EmptyHeader && items == [BlankItem(firstId)]
    {
      header := EmptyHeader;
      items := [BlankItem(firstId)];
    }

    /** The mount effect: the billing date becomes today's date, formatted by the caller. */
    method SetDefaultBillingDate(formattedToday: string)
      requires Valid()
      modifies this
      ensures Valid()
      ensures header == WithHeaderField(old(header), BillingDate, formattedToday) && items == old(items)
    {
      header := WithHeaderField(header, BillingDate, formattedToday);
    }

    /** `handleHeaderChange`: the named header field takes the input's value. */
    method HandleHeaderChange(field: HeaderField, value: string)
      requires Valid()
      modifies this
      ensures Valid()
      ensures header == WithHeaderField(old(header), field, value) && items == old(items)
    {
      header := WithHeaderField(header, field, value);
    }

    /** `handleItemChange`: the row with that id takes the edit; other rows and the header are kept. */
    method HandleItemChange(id: string, edit: ItemEdit)
      requires Valid()
      modifies this
      ensures Valid()
      ensures items == UpdateItems(old(items), id, edit) && header == old(header)
    {
      UpdateKeepsUniqueIds(items, id, edit);
      items := UpdateItems(items, id, edit);
    }

    /**
     * `addNewRow`: a blank row is appended. `freshId` stands for the value of
     * `crypto.randomUUID()`, which no row has yet.
     */
    method AddNewRow(freshId: string)
      requires Valid() && !HasId(items, freshId)
      modifies this
      ensures Valid()
      ensures items == old(items) + [BlankItem(freshId)] && header == old(header)
    {
      AppendFreshKeepsUniqueIds(items, BlankItem(freshId));
      items := items + [BlankItem(freshId)];
    }

    /**
     * `removeRow`: with more than one row, the row with that id is filtered out and the
     * others keep their order; with a single row nothing happens. Because ids are unique
     * the list never becomes empty.
     */
    method RemoveRow(id: string)
      requires Valid()
      modifies this
      ensures Valid()
      ensures |old(items)| > 1 ==> items == Without(old(items), id)
      ensures |old(items)| > 1 ==> forall j :: 0 <= j < |old(items)| && old(items)[j].id == id ==>
        items == old(items)[..j] + old(items)[j + 1..]
      ensures |old(items)| <= 1 ==> items == old(items)
      ensures header == old(header)
    {
      if |items| > 1 {
        WithoutKeepsUniqueIds(items, id);
        WithoutCount(items, id);
        forall j | 0 <= j < |items| && items[j].id == id
          ensures Without(items, id) == items[..j] + items[j + 1..]
        {
          WithoutRemovesAt(items, j, id);
        }
        items := Without(items, id);
      }
    }

    /**
     * `handleGenerate`: with an empty buyer name the user is alerted and nothing is
     * generated; otherwise both reports are generated from the current header and rows.
     * `billingDate` is the parse of the header's billing date and `lastTableY` where the
     * renderer reports the PDF table to end.
     */
    method HandleGenerate(billingDate: Option<DateParts>, lastTableY: real) returns (outcome: GenerateOutcome)
      ensures outcome.Alerted? <==> header.buyerName == ""
      ensures outcome.Alerted? ==> outcome.message == MissingBuyerMessage
      ensures outcome.Generated? ==>
        var t := CalculateTotals(items);
        var name := BaseFilename(header.buyerName, t.totalValue, FilenameDate(billingDate));
        PdfReport.IsPdfFor(outcome.reports.pdf, header, items, t, name, lastTableY) &&
        ExcelReport.IsWorkbookFor(outcome.reports.workbook, header, items, t, name)
    {
      if header.buyerName == "" {
        outcome := Alerted(MissingBuyerMessage);
        return;
      }
      var reports := GenerateReports(header, items, billingDate, lastTableY);
      outcome := Generated(reports);
    }
  }
}
