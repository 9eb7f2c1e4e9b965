/**
 * The record types of the form/template pair and the figures the printable
 * template derives from them: the per-row total, the subtotal, the tax and
 * the grand total. This version has no cached amount, no shipping and no
 * discount.
 */
module Template {

  type Id = string

  /** A calendar date, held as the milliseconds since the epoch. */
  type Date = int

  datatype Option<T> = None | Some(value: T)

  datatype Item = Item(id: Id, description: string, quantity: real, price: real)

  datatype InvoiceData = InvoiceData(
    invoiceNumber: string,
    date: Date,
    dueDate: Date,
    clientName: string,
    clientEmail: string,
    clientAddress: string,
    items: seq<Item>,
    notes: Option<string>,
    taxRate: real)

  /** The figure in a row's Total column. */
  function RowTotal(item: Item): real {
    item.quantity * item.price
  }

  /**
   * `items.reduce((acc, item) => acc + item.quantity * item.price, 0)`: a left fold in row order,
   * with the start value generalised to `acc` so that the lemmas about it can be stated by induction.
   */
  function Fold(acc: real, items: seq<Item>): real
    decreases |items|
  {
    if items == [] then acc else Fold(acc + items[0].quantity * items[0].price, items[1..])
  }

  /** Reference definition: every row's total, each counted once. */
  function RowSum(items: seq<Item>): real {
    if items == [] then 0.0 else RowTotal(items[0]) + RowSum(items[1..])
  }

  lemma {:induction false} FoldIsRowSum(acc: real, items: seq<Item>)
    ensures Fold(acc, items) == acc + RowSum(items)
    decreases |items|
  {
    if items != [] {
      FoldIsRowSum(acc + items[0].quantity * items[0].price, items[1..]);
    }
  }

  /** The rendered subtotal: the sum of the rendered row totals. */
  function Subtotal(d: InvoiceData): (s: real)
    ensures s == RowSum(d.items)
  {
    FoldIsRowSum(0.0, d.items);
    Fold(0.0, d.items)
  }

  /** The rendered tax: `subtotal * (taxRate / 100)`. */
  function Tax(d: InvoiceData): real {
    Subtotal(d) * (d.taxRate / 100.0)
  }

  /** The rendered total: subtotal plus tax. */
  function Total(d: InvoiceData): real {
    Subtotal(d) + Tax(d)
  }

  /** The total is the row sum scaled by one plus the tax rate; nothing else enters it. */
  lemma TotalFormula(d: InvoiceData)
    ensures Tax(d) == RowSum(d.items) * d.taxRate / 100.0
    ensures Total(d) == RowSum(d.items) * (1.0 + d.taxRate / 100.0)
  {
  }

  /** An empty list shows zero for every figure, whatever the tax rate. */
  lemma EmptyTotals(d: InvoiceData)
    requires d.items == []
    ensures Subtotal(d) == 0.0 && Tax(d) == 0.0 && Total(d) == 0.0
  {
  }

  lemma {:induction false} RowSumConcat(a: seq<Item>, b: seq<Item>)
    ensures RowSum(a + b) == RowSum(a) + RowSum(b)
  {
    if a == [] {
      assert a + b == b;
    } else {
      assert (a + b)[1..] == a[1..] + b;
      RowSumConcat(a[1..], b);
    }
  }

  /** Appending a row adds exactly its quantity times price to the subtotal. */
  lemma SubtotalAppend(d: InvoiceData, x: Item)
    ensures Subtotal(d.(items := d.items + [x])) == Subtotal(d) + x.quantity * x.price
  {
    RowSumConcat(d.items, [x]);
    assert [x][1..] == [];
  }

  /** Taking row i out of a list takes it out of the multiset and its total out of the sum. */
  lemma {:induction false} RemoveRow(b: seq<Item>, i: nat)
    requires i < |b|
    ensures multiset(b[..i] + b[i + 1..]) == multiset(b) - multiset{b[i]}
    ensures RowSum(b) == RowTotal(b[i]) + RowSum(b[..i] + b[i + 1..])
  {
    assert b == b[..i] + ([b[i]] + b[i + 1..]);
    assert multiset(b) == multiset(b[..i]) + multiset{b[i]} + multiset(b[i + 1..]);
    RowSumConcat(b[..i], [b[i]] + b[i + 1..]);
    RowSumConcat(b[..i], b[i + 1..]);
    assert ([b[i]] + b[i + 1..])[1..] == b[i + 1..];
  }

  /** The subtotal does not depend on the order of the rows. */
  lemma {:induction false} RowSumPermutation(a: seq<Item>, b: seq<Item>)
    requires multiset(a) == multiset(b)
    ensures RowSum(a) == RowSum(b)
    decreases |a|
  {
    if a == [] {
      assert |b| == |multiset(b)| == 0;
    } else {
      assert a[0] in multiset(b);
      var i :| 0 <= i < |b| && b[i] == a[0];
      assert a == [a[0]] + a[1..];
      assert multiset(a[1..]) == multiset(a) - multiset{a[0]};
      RemoveRow(b, i);
      RowSumPermutation(a[1..], b[..i] + b[i + 1..]);
    }
  }

  /** Permuting the rows leaves subtotal, tax and total unchanged. */
  lemma TotalsPermutation(d: InvoiceData, e: InvoiceData)
    requires multiset(d.items) == multiset(e.items) && d.taxRate == e.taxRate
    ensures Subtotal(d) == Subtotal(e) && Tax(d) == Tax(e) && Total(d) == Total(e)
  {
    RowSumPermutation(d.items, e.items);
  }

  /**
   * The page's sample document: 500 bottles at 0.85 and one design service
   * at 150.00, taxed at 5 percent.
   */
  lemma SampleTotals(d: InvoiceData)
    requires |d.items| == 2
    requires d.items[0].quantity == 500.0 && d.items[0].price == 0.85
    requires d.items[1].quantity == 1.0 && d.items[1].price == 150.0
    requires d.taxRate == 5.0
    ensures Subtotal(d) == 575.0 && Tax(d) == 28.75 && Total(d) == 603.75
  {
    assert d.items[1..][1..] == [];
    assert RowSum(d.items) == 425.0 + RowSum(d.items[1..]);
  }
}
