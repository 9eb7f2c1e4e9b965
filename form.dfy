/**
 * The edit handlers of the invoice form. The form keeps no state of its own:
 * each handler builds a new document from the one it was given and hands it
 * to its `onChange` callback, so each is a function from document to document.
 */
module Form {
  import opened Template

  // ---------------------------------------------------------------------------
  // Header fields

  /** A header edit: one case per input, with a payload of that field's type. */
  datatype HeaderEdit =
    | SetInvoiceNumber(text: string)
    | SetClientName(text: string)
    | SetClientEmail(text: string)
    | SetDate(day: Date)
    | SetDueDate(day: Date)
    | SetClientAddress(text: string)
    | SetNotes(text: string)
    | SetTaxRate(value: real)

  datatype HeaderField =
    | InvoiceNumber | ClientName | ClientEmail | IssueDate | DueDate | ClientAddress | Notes | TaxRate

  /** The value a header field holds. */
  datatype Value = Text(text: string) | Day(day: Date) | Note(note: Option<string>) | Number(value: real)

  function FieldOf(e: HeaderEdit): HeaderField {
    match e
    case SetInvoiceNumber(_) => InvoiceNumber
    case SetClientName(_) => ClientName
    case SetClientEmail(_) => ClientEmail
    case SetDate(_) => IssueDate
    case SetDueDate(_) => DueDate
    case SetClientAddress(_) => ClientAddress
    case SetNotes(_) => Notes
    case SetTaxRate(_) => TaxRate
  }

  /** The value an edit stores; the notes input always stores a present string. */
  function ValueOf(e: HeaderEdit): Value {
    match e
    case SetDate(t) => Day(t)
    case SetDueDate(t) => Day(t)
    case SetNotes(s) => Note(Some(s))
    case SetTaxRate(x) => Number(x)
    case _ => Text(e.text)
  }

  function Read(d: InvoiceData, f: HeaderField): Value {
    match f
    case InvoiceNumber => Text(d.invoiceNumber)
    case ClientName => Text(d.clientName)
    case ClientEmail => Text(d.clientEmail)
    case IssueDate => Day(d.date)
    case DueDate => Day(d.dueDate)
    case ClientAddress => Text(d.clientAddress)
    case Notes => Note(d.notes)
    case TaxRate => Number(d.taxRate)
  }

  // ---------------------------------------------------------------------------
  // Item edits: `handleItemChange`, `addItem`, `removeItem`

  /** The item fields the form edits, each with a payload of its own type. */
  datatype ItemEdit =
    | SetDescription(text: string)
    | SetQuantity(value: real)
    | SetPrice(value: real)

  /** `{ ...item, [field]: value }`: one field replaced, nothing recomputed. */
  function ApplyEdit(item: Item, e: ItemEdit): (r: Item)
    ensures r.id == item.id
    ensures r.description == (if e.SetDescription? then e.text else item.description)
    ensures r.quantity == (if e.SetQuantity? then e.value else item.quantity)
    ensures r.price == (if e.SetPrice? then e.value else item.price)
  {
    match e
    case SetDescription(s) => item.(description := s)
    case SetQuantity(q) => item.(quantity := q)
    case SetPrice(p) => item.(price := p)
  }

  /** `data.items.map(item => item.id === id ? { ...item, [field]: value } : item)`. */
  function EditMatching(items: seq<Item>, id: Id, e: ItemEdit): (r: seq<Item>)
    ensures |r| == |items|
    ensures forall i :: 0 <= i < |items| && items[i].id != id ==> r[i] == items[i]
    ensures forall i :: 0 <= i < |items| && items[i].id == id ==> r[i] == ApplyEdit(items[i], e)
  {
    if items == [] then []
    else
      var head := if items[0].id == id then ApplyEdit(items[0], e) else items[0];
      [head] + EditMatching(items[1..], id, e)
  }

  /** Two documents that differ at most in their items. */
  predicate SameHeader(a: InvoiceData, b: InvoiceData) {
    a.(items := []) == b.(items := [])
  }

  /** SameHeader means every header field is equal. */
  lemma SameHeaderReads(a: InvoiceData, b: InvoiceData, f: HeaderField)
    requires SameHeader(a, b)
    ensures Read(a, f) == Read(b, f)
  {
    assert Read(a, f) == Read(a.(items := []), f);
    assert Read(b, f) == Read(b.(items := []), f);
  }

  /** `handleItemChange(id, field, value)`: only the items change. */
  function HandleItemChange(d: InvoiceData, id: Id, e: ItemEdit): (r: InvoiceData)
    ensures SameHeader(r, d)
    ensures r.items == EditMatching(d.items, id, e)
  {
    d.(items := EditMatching(d.items, id, e))
  }

  /** An id no row carries yields the same list of items. */
  lemma HandleItemChangeUnknownId(d: InvoiceData, id: Id, e: ItemEdit)
    requires forall i :: 0 <= i < |d.items| ==> d.items[i].id != id
    ensures HandleItemChange(d, id, e) == d
  {
    var r := HandleItemChange(d, id, e);
    assert r.items == d.items;
  }

  /** The row `addItem` appends. */
  function NewItem(id: Id): (item: Item)
    ensures item.id == id && item.description == ""
    ensures item.quantity == 1.0 && item.price == 0.0
  {
    Item(id, "", 1.0, 0.0)
  }

  /** `addItem()`, with the generated id passed in. */
  function AddItem(d: InvoiceData, newId: Id): (r: InvoiceData)
    ensures SameHeader(r, d)
    ensures |r.items| == |d.items| + 1
    ensures r.items[..|d.items|] == d.items
    ensures r.items[|d.items|] == NewItem(newId)
  {
    var r := d.(items := d.items + [NewItem(newId)]);
    assert r.items[..|d.items|] == d.items;
    r
  }

  /** The appended row has price 0, so adding a row leaves every figure as it was. */
  lemma AddItemTotals(d: InvoiceData, newId: Id)
    ensures Subtotal(AddItem(d, newId)) == Subtotal(d)
    ensures Total(AddItem(d, newId)) == Total(d)
  {
    SubtotalAppend(d, NewItem(newId));
    assert AddItem(d, newId) == d.(items := d.items + [NewItem(newId)]);
  }

  /** `items.filter(item => item.id !== id)`. */
  function Keep(items: seq<Item>, id: Id): (r: seq<Item>)
    ensures forall item :: item in r <==> item in items && item.id != id
    ensures |r| <= |items|
  {
    if items == [] then []
    else if items[0].id == id then Keep(items[1..], id)
    else [items[0]] + Keep(items[1..], id)
  }

  /** Filtering distributes over concatenation, so the survivors keep their order. */
  lemma {:induction false} KeepAppend(a: seq<Item>, b: seq<Item>, id: Id)
    ensures Keep(a + b, id) == Keep(a, id) + Keep(b, id)
  {
    if a == [] {
      assert a + b == b;
    } else {
      assert (a + b)[1..] == a[1..] + b;
      KeepAppend(a[1..], b, id);
    }
  }

  /** Filtering by an id no row carries keeps every row. */
  lemma {:induction false} KeepUnknownId(items: seq<Item>, id: Id)
    requires forall i :: 0 <= i < |items| ==> items[i].id != id
    ensures Keep(items, id) == items
  {
    if items != [] {
      KeepUnknownId(items[1..], id);
    }
  }

  /** `removeItem(id)`: no guard, every row with that id goes. */
  function RemoveItem(d: InvoiceData, id: Id): (r: InvoiceData)
    ensures SameHeader(r, d)
    ensures r.items == Keep(d.items, id)
  {
    d.(items := Keep(d.items, id))
  }

  /** A stale id leaves the document as it was. */
  lemma RemoveItemUnknownId(d: InvoiceData, id: Id)
    requires forall i :: 0 <= i < |d.items| ==> d.items[i].id != id
    ensures RemoveItem(d, id) == d
  {
    KeepUnknownId(d.items, id);
  }

  /** Removing the only row leaves an empty list, which the template shows as zero. */
  lemma RemoveOnlyItem(d: InvoiceData)
    requires |d.items| == 1
    ensures RemoveItem(d, d.items[0].id).items == []
    ensures Subtotal(RemoveItem(d, d.items[0].id)) == 0.0
    ensures Total(RemoveItem(d, d.items[0].id)) == 0.0
  {
    assert d.items[1..] == [];
  }

  /** Removing the row at index k, when ids are distinct, lowers the subtotal by its row total. */
  lemma RemoveItemSubtotal(d: InvoiceData, k: nat)
    requires k < |d.items|
    requires forall i, j :: 0 <= i < j < |d.items| ==> d.items[i].id != d.items[j].id
    ensures |RemoveItem(d, d.items[k].id).items| == |d.items| - 1
    ensures Subtotal(RemoveItem(d, d.items[k].id)) == Subtotal(d) - RowTotal(d.items[k])
  {
    var id, pre, post := d.items[k].id, d.items[..k], d.items[k + 1..];
    assert d.items == pre + ([d.items[k]] + post);
    KeepUnknownId(pre, id);
    KeepUnknownId(post, id);
    KeepAppend(pre, [d.items[k]] + post, id);
    assert ([d.items[k]] + post)[1..] == post;
    RemoveRow(d.items, k);
  }

  // ---------------------------------------------------------------------------
  // Header edits: `onChange({ ...data, field: value })`

  /** The document a header input hands to `onChange`. */
  function ApplyHeaderEdit(d: InvoiceData, e: HeaderEdit): (r: InvoiceData)
    ensures Read(r, FieldOf(e)) == ValueOf(e)
    ensures forall f :: f != FieldOf(e) ==> Read(r, f) == Read(d, f)
    ensures r.items == d.items
  {
    match e
    case SetInvoiceNumber(s) => d.(invoiceNumber := s)
    case SetClientName(s) => d.(clientName := s)
    case SetClientEmail(s) => d.(clientEmail := s)
    case SetDate(t) => d.(date := t)
    case SetDueDate(t) => d.(dueDate := t)
    case SetClientAddress(s) => d.(clientAddress := s)
    case SetNotes(s) => d.(notes := Some(s))
    case SetTaxRate(x) => d.(taxRate := x)
  }

  /** Header fields and items together determine the document. */
  lemma HeaderDeterminesInvoice(a: InvoiceData, b: InvoiceData)
    requires forall f :: Read(a, f) == Read(b, f)
    requires a.items == b.items
    ensures a == b
  {
    assert Read(a, InvoiceNumber) == Read(b, InvoiceNumber);
    assert Read(a, ClientName) == Read(b, ClientName);
    assert Read(a, ClientEmail) == Read(b, ClientEmail);
    assert Read(a, IssueDate) == Read(b, IssueDate);
    assert Read(a, DueDate) == Read(b, DueDate);
    assert Read(a, ClientAddress) == Read(b, ClientAddress);
    assert Read(a, Notes) == Read(b, Notes);
    assert Read(a, TaxRate) == Read(b, TaxRate);
  }

  /** Only a tax-rate edit can move the figures; it leaves the subtotal alone. */
  lemma HeaderEditTotals(d: InvoiceData, e: HeaderEdit)
    ensures Subtotal(ApplyHeaderEdit(d, e)) == Subtotal(d)
    ensures !e.SetTaxRate? ==> Total(ApplyHeaderEdit(d, e)) == Total(d)
    ensures e.SetTaxRate? ==> Tax(ApplyHeaderEdit(d, e)) == Subtotal(d) * e.value / 100.0
  {
    var r := ApplyHeaderEdit(d, e);
    assert Read(r, TaxRate) == Read(d, TaxRate) || FieldOf(e) == TaxRate;
  }
}
