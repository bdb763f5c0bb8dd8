/**
 * `calculateTotals` (services/reportService.ts): a left-to-right reduction over the
 * line items, each numeric field coerced with `Number(x) || 0`.
 */
module TotalsCalculator {
  import opened Types

  function InvoiceQtyOf(item: LineItem): real { Coerce(item.invoiceQty) }

  function RcvdQtyOf(item: LineItem): real { Coerce(item.rcvdQty) }

  function UnitPriceOf(item: LineItem): real { Coerce(item.unitPrice) }

  /** The derived line total: coerced invoice quantity times coerced unit price. */
  function LineTotal(item: LineItem): real { InvoiceQtyOf(item) * UnitPriceOf(item) }

  /** Reference definition: the sum of `f` over the items, first item first. */
  function Sum(items: seq<LineItem>, f: LineItem -> real): real
  {
    if items == [] then 0.0 else f(items[0]) + Sum(items[1..], f)
  }

  const ZeroTotals: Totals := Totals(0.0, 0.0, 0.0)

  /**
   * The reducer: one item added to the accumulator. A quantity that does not parse adds
   * nothing, and the value grows by quantity times price only when both parse.
   */
  function Accumulate(acc: Totals, item: LineItem): (r: Totals)
    ensures item.invoiceQty.Invalid? ==> r.totalInvoiceQty == acc.totalInvoiceQty
    ensures item.invoiceQty.Valid? ==> r.totalInvoiceQty == acc.totalInvoiceQty + item.invoiceQty.r
    ensures item.rcvdQty.Invalid? ==> r.totalRcvdQty == acc.totalRcvdQty
    ensures item.rcvdQty.Valid? ==> r.totalRcvdQty == acc.totalRcvdQty + item.rcvdQty.r
    ensures item.invoiceQty.Invalid? || item.unitPrice.Invalid? ==> r.totalValue == acc.totalValue
    ensures item.invoiceQty.Valid? && item.unitPrice.Valid? ==>
      r.totalValue == acc.totalValue + item.invoiceQty.r * item.unitPrice.r
  {
    Totals(acc.totalInvoiceQty + InvoiceQtyOf(item),
           acc.totalRcvdQty + RcvdQtyOf(item),
           acc.totalValue + InvoiceQtyOf(item) * UnitPriceOf(item))
  }

  /** `items.reduce(Accumulate, acc)`: the accumulator grows by the sums over the items. */
  function Reduce(acc: Totals, items: seq<LineItem>): (t: Totals)
    ensures t.totalInvoiceQty == acc.totalInvoiceQty + Sum(items, InvoiceQtyOf)
    ensures t.totalRcvdQty == acc.totalRcvdQty + Sum(items, RcvdQtyOf)
    ensures t.totalValue == acc.totalValue + Sum(items, LineTotal)
    decreases |items|
  {
    if items == [] then acc else Reduce(Accumulate(acc, items[0]), items[1..])
  }

  /**
   * `calculateTotals`: all zeros for no items; otherwise the sums of the coerced invoice
   * quantities, received quantities and line totals, invalid fields counting as 0.
   */
  function CalculateTotals(items: seq<LineItem>): (t: Totals)
    ensures items == [] ==> t == ZeroTotals
    ensures t == Totals(Sum(items, InvoiceQtyOf), Sum(items, RcvdQtyOf), Sum(items, LineTotal))
  {
    Reduce(ZeroTotals, items)
  }

  lemma {:induction false} SumAppend(a: seq<LineItem>, b: seq<LineItem>, f: LineItem -> real)
    ensures Sum(a + b, f) == Sum(a, f) + Sum(b, f)
  {
    if a != [] {
      assert (a + b)[1..] == a[1..] + b;
      SumAppend(a[1..], b, f);
    } else {
      assert a + b == b;
    }
  }

  /** Taking one item out of the middle takes exactly its contribution out of the sum. */
  lemma SumRemove(b: seq<LineItem>, j: nat, f: LineItem -> real)
    requires j < |b|
    ensures Sum(b, f) == f(b[j]) + Sum(b[..j] + b[j + 1..], f)
  {
    SumAppend(b[..j], [b[j]] + b[j + 1..], f);
    SumAppend(b[..j], b[j + 1..], f);
    assert ([b[j]] + b[j + 1..])[1..] == b[j + 1..];
    assert b[..j] + ([b[j]] + b[j + 1..]) == b;
  }

  lemma MultisetRemove(b: seq<LineItem>, j: nat)
    requires j < |b|
    ensures multiset(b[..j] + b[j + 1..]) == multiset(b) - multiset{b[j]}
  {
    assert b == b[..j] + [b[j]] + b[j + 1..];
  }

  /** A sum does not depend on the order of the items. */
  lemma {:induction false} SumPermutation(a: seq<LineItem>, b: seq<LineItem>, f: LineItem -> real)
    requires multiset(a) == multiset(b)
    ensures Sum(a, f) == Sum(b, f)
    decreases |a|
  {
    if a == [] {
      assert |b| == |multiset(b)| == 0;
    } else {
      var x := a[0];
      assert x in multiset(b);
      var j :| 0 <= j < |b| && b[j] == x;
      var rest := b[..j] + b[j + 1..];
      MultisetRemove(b, j);
      assert multiset(a[1..]) == multiset(a) - multiset{x} by {
        assert a == [x] + a[1..];
      }
      SumPermutation(a[1..], rest, f);
      SumRemove(b, j, f);
    }
  }

  /** The totals are independent of item order. */
  lemma CalculateTotalsOrderIndependent(a: seq<LineItem>, b: seq<LineItem>)
    requires multiset(a) == multiset(b)
    ensures CalculateTotals(a) == CalculateTotals(b)
  {
    SumPermutation(a, b, InvoiceQtyOf);
    SumPermutation(a, b, RcvdQtyOf);
    SumPermutation(a, b, LineTotal);
  }

  /** Appending an item adds exactly its coerced contribution to each total. */
  lemma CalculateTotalsSnoc(items: seq<LineItem>, item: LineItem)
    ensures CalculateTotals(items + [item]) == Accumulate(CalculateTotals(items), item)
  {
    SumAppend(items, [item], InvoiceQtyOf);
    SumAppend(items, [item], RcvdQtyOf);
    SumAppend(items, [item], LineTotal);
  }

  /** One item with invoice quantity 100, unit price 2.5 and received quantity 90. */
  lemma SingleItemScenario(item: LineItem)
    requires item.invoiceQty == Valid(100.0) && item.unitPrice == Valid(2.5) && item.rcvdQty == Valid(90.0)
    ensures CalculateTotals([item]) == Totals(100.0, 90.0, 250.0)
  {
    assert [item][1..] == [];
  }
}
