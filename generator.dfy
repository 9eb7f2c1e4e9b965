/**
 * The invoice engine of the generator page: the document record, the pure
 * transforms that its edit handlers apply to the current document, and the
 * reduce-based subtotal and total it renders.
 *
 * Numbers are exact reals; the page's floating-point rounding is not modelled.
 */
module Generator {

  type Id = string

  /** A line item. `amount` is a cached copy of `quantity * rate`. */
  datatype Item = Item(id: Id, name: string, description: string, quantity: real, rate: real, amount: real)

  /** The whole document, including the `discount` figure the page uses. */
  datatype Invoice = Invoice(
    companyName: string,
    companyAddress: string,
    companyCity: string,
    companyPhone: string,
    companyEmail: string,
    companyWebsite: string,
    billToName: string,
    billToAddress: string,
    billToCity: string,
    shipToName: string,
    shipToAddress: string,
    shipToCity: string,
    invoiceNumber: string,
    invoiceDate: string,
    terms: string,
    dueDate: string,
    items: seq<Item>,
    customerMessage: string,
    gst: real,
    shipping: real,
    discount: real)

  /** The item fields the page edits, each with a payload of its own type. */
  datatype ItemEdit =
    | SetName(text: string)
    | SetDescription(text: string)
    | SetQuantity(value: real)
    | SetRate(value: real)

  /** The names of the scalar header and adjustment fields. */
  datatype HeaderField =
    | CompanyName | CompanyAddress | CompanyCity | CompanyPhone | CompanyEmail | CompanyWebsite
    | BillToName | BillToAddress | BillToCity
    | ShipToName | ShipToAddress | ShipToCity
    | InvoiceNumber | InvoiceDate | Terms | DueDate
    | CustomerMessage | Gst | Shipping | Discount

  /** The value a header field holds. */
  datatype Value = Text(text: string) | Number(value: real)

  /** A header edit: one case per field, with a payload of that field's type. */
  datatype HeaderEdit =
    | SetCompanyName(text: string)
    | SetCompanyAddress(text: string)
    | SetCompanyCity(text: string)
    | SetCompanyPhone(text: string)
    | SetCompanyEmail(text: string)
    | SetCompanyWebsite(text: string)
    | SetBillToName(text: string)
    | SetBillToAddress(text: string)
    | SetBillToCity(text: string)
    | SetShipToName(text: string)
    | SetShipToAddress(text: string)
    | SetShipToCity(text: string)
    | SetInvoiceNumber(text: string)
    | SetInvoiceDate(text: string)
    | SetTerms(text: string)
    | SetDueDate(text: string)
    | SetCustomerMessage(text: string)
    | SetGst(value: real)
    | SetShipping(value: real)
    | SetDiscount(value: real)

  // ---------------------------------------------------------------------------
  // Invariants of the document

  /** The cached amount agrees with quantity times rate. */
  predicate Consistent(item: Item) {
    item.amount == item.quantity * item.rate
  }

  predicate AmountsConsistent(items: seq<Item>) {
    forall item :: item in items ==> Consistent(item)
  }

  function Ids(items: seq<Item>): set<Id> {
    set item | item in items :: item.id
  }

  predicate DistinctIds(items: seq<Item>) {
    forall i, j :: 0 <= i < |items| && 0 <= j < |items| && items[i].id == items[j].id ==> i == j
  }

  /** What every edit keeps: consistent amounts, distinct ids, at least one row. */
  predicate WellFormed(d: Invoice) {
    AmountsConsistent(d.items) && DistinctIds(d.items) && |d.items| >= 1
  }

  // ---------------------------------------------------------------------------
  // Seed document

  const CUSTOMER_MESSAGE := "Hello!\n\nThank you for your purchase. Please return this invoice with payment.\n\nThanks!"

  /** The document the page starts from: one blank row with id "1" and zero adjustments. */
  function InitialData(): (d: Invoice)
    ensures WellFormed(d)
    ensures d.items == [BlankItem("1")]
    ensures d.gst == 0.0 && d.shipping == 0.0 && d.discount == 0.0
  {
    Invoice(
      "Brandship",
      "Warehouse Tejpal Singh Market",
      "Badalpur, G.B Nagar-203207 Uttar Pradesh, India",
      "9891140081",
      "brandship00@gmail.com",
      "www.brandshipwater.com",
      "", "", "",
      "", "", "",
      "", "", "", "",
      [Item("1", "", "", 0.0, 0.0, 0.0)],
      CUSTOMER_MESSAGE,
      0.0, 0.0, 0.0)
  }

  // ---------------------------------------------------------------------------
  // Header edits (updateData)

  function FieldOf(e: HeaderEdit): HeaderField {
    match e
    case SetCompanyName(_) => CompanyName
    case SetCompanyAddress(_) => CompanyAddress
    case SetCompanyCity(_) => CompanyCity
    case SetCompanyPhone(_) => CompanyPhone
    case SetCompanyEmail(_) => CompanyEmail
    case SetCompanyWebsite(_) => CompanyWebsite
    case SetBillToName(_) => BillToName
    case SetBillToAddress(_) => BillToAddress
    case SetBillToCity(_) => BillToCity
    case SetShipToName(_) => ShipToName
    case SetShipToAddress(_) => ShipToAddress
    case SetShipToCity(_) => ShipToCity
    case SetInvoiceNumber(_) => InvoiceNumber
    case SetInvoiceDate(_) => InvoiceDate
    case SetTerms(_) => Terms
    case SetDueDate(_) => DueDate
    case SetCustomerMessage(_) => CustomerMessage
    case SetGst(_) => Gst
    case SetShipping(_) => Shipping
    case SetDiscount(_) => Discount
  }

  function ValueOf(e: HeaderEdit): Value {
    if e.SetGst? || e.SetShipping? || e.SetDiscount? then Number(e.value) else Text(e.text)
  }

  /** The value of one header field of a document. */
  function Read(d: Invoice, f: HeaderField): Value {
    match f
    case CompanyName => Text(d.companyName)
    case CompanyAddress => Text(d.companyAddress)
    case CompanyCity => Text(d.companyCity)
    case CompanyPhone => Text(d.companyPhone)
    case CompanyEmail => Text(d.companyEmail)
    case CompanyWebsite => Text(d.companyWebsite)
    case BillToName => Text(d.billToName)
    case BillToAddress => Text(d.billToAddress)
    case BillToCity => Text(d.billToCity)
    case ShipToName => Text(d.shipToName)
    case ShipToAddress => Text(d.shipToAddress)
    case ShipToCity => Text(d.shipToCity)
    case InvoiceNumber => Text(d.invoiceNumber)
    case InvoiceDate => Text(d.invoiceDate)
    case Terms => Text(d.terms)
    case DueDate => Text(d.dueDate)
    case CustomerMessage => Text(d.customerMessage)
    case Gst => Number(d.gst)
    case Shipping => Number(d.shipping)
    case Discount => Number(d.discount)
  }

  /** Two documents with the same header fields and the same items are equal. */
  lemma HeaderDeterminesInvoice(a: Invoice, b: Invoice)
    requires forall f :: Read(a, f) == Read(b, f)
    requires a.items == b.items
    ensures a == b
  {
    CompanyFieldsAgree(a, b);
    PartiesFieldsAgree(a, b);
    DetailsFieldsAgree(a, b);
    AdjustmentsFieldsAgree(a, b);
  }

  /** Agreement on every Read covers the company block. */
  lemma CompanyFieldsAgree(a: Invoice, b: Invoice)
    requires forall f :: Read(a, f) == Read(b, f)
    ensures a.companyName == b.companyName && a.companyAddress == b.companyAddress
    ensures a.companyCity == b.companyCity && a.companyPhone == b.companyPhone
    ensures a.companyEmail == b.companyEmail && a.companyWebsite == b.companyWebsite
  {
    assert Read(a, CompanyName) == Read(b, CompanyName);
    assert Read(a, CompanyAddress) == Read(b, CompanyAddress);
    assert Read(a, CompanyCity) == Read(b, CompanyCity);
    assert Read(a, CompanyPhone) == Read(b, CompanyPhone);
    assert Read(a, CompanyEmail) == Read(b, CompanyEmail);
    assert Read(a, CompanyWebsite) == Read(b, CompanyWebsite);
  }

  /** Agreement on every Read covers the bill-to and ship-to blocks. */
  lemma PartiesFieldsAgree(a: Invoice, b: Invoice)
    requires forall f :: Read(a, f) == Read(b, f)
    ensures a.billToName == b.billToName && a.billToAddress == b.billToAddress
    ensures a.billToCity == b.billToCity && a.shipToName == b.shipToName
    ensures a.shipToAddress == b.shipToAddress && a.shipToCity == b.shipToCity
  {
    assert Read(a, BillToName) == Read(b, BillToName);
    assert Read(a, BillToAddress) == Read(b, BillToAddress);
    assert Read(a, BillToCity) == Read(b, BillToCity);
    assert Read(a, ShipToName) == Read(b, ShipToName);
    assert Read(a, ShipToAddress) == Read(b, ShipToAddress);
    assert Read(a, ShipToCity) == Read(b, ShipToCity);
  }

  /** Agreement on every Read covers the invoice details and the customer message. */
  lemma DetailsFieldsAgree(a: Invoice, b: Invoice)
    requires forall f :: Read(a, f) == Read(b, f)
    ensures a.invoiceNumber == b.invoiceNumber && a.invoiceDate == b.invoiceDate
    ensures a.terms == b.terms && a.dueDate == b.dueDate
    ensures a.customerMessage == b.customerMessage
  {
    assert Read(a, InvoiceNumber) == Read(b, InvoiceNumber);
    assert Read(a, InvoiceDate) == Read(b, InvoiceDate);
    assert Read(a, Terms) == Read(b, Terms);
    assert Read(a, DueDate) == Read(b, DueDate);
    assert Read(a, CustomerMessage) == Read(b, CustomerMessage);
  }

  /** Agreement on every Read covers GST, shipping and discount. */
  lemma AdjustmentsFieldsAgree(a: Invoice, b: Invoice)
    requires forall f :: Read(a, f) == Read(b, f)
    ensures a.gst == b.gst && a.shipping == b.shipping && a.discount == b.discount
  {
    assert Read(a, Gst) == Read(b, Gst);
    assert Read(a, Shipping) == Read(b, Shipping);
    assert Read(a, Discount) == Read(b, Discount);
  }

  /** The transform `updateData` applies: `{ ...prev, [field]: value }`. */
  function SetHeader(d: Invoice, e: HeaderEdit): (r: Invoice)
    ensures r.items == d.items
  {
    match e
    case SetCompanyName(s) => d.(companyName := s)
    case SetCompanyAddress(s) => d.(companyAddress := s)
    case SetCompanyCity(s) => d.(companyCity := s)
    case SetCompanyPhone(s) => d.(companyPhone := s)
    case SetCompanyEmail(s) => d.(companyEmail := s)
    case SetCompanyWebsite(s) => d.(companyWebsite := s)
    case SetBillToName(s) => d.(billToName := s)
    case SetBillToAddress(s) => d.(billToAddress := s)
    case SetBillToCity(s) => d.(billToCity := s)
    case SetShipToName(s) => d.(shipToName := s)
    case SetShipToAddress(s) => d.(shipToAddress := s)
    case SetShipToCity(s) => d.(shipToCity := s)
    case SetInvoiceNumber(s) => d.(invoiceNumber := s)
    case SetInvoiceDate(s) => d.(invoiceDate := s)
    case SetTerms(s) => d.(terms := s)
    case SetDueDate(s) => d.(dueDate := s)
    case SetCustomerMessage(s) => d.(customerMessage := s)
    case SetGst(x) => d.(gst := x)
    case SetShipping(x) => d.(shipping := x)
    case SetDiscount(x) => d.(discount := x)
  }

  /**
   * `updateData(field, value)` sets exactly the named field: reading that field
   * gives the new value, reading any other gives what it held before.
   */
  lemma SetHeaderReads(d: Invoice, e: HeaderEdit, f: HeaderField)
    ensures Read(SetHeader(d, e), f) == if f == FieldOf(e) then ValueOf(e) else Read(d, f)
  {
    if e.SetCompanyName? || e.SetCompanyAddress? || e.SetCompanyCity?
       || e.SetCompanyPhone? || e.SetCompanyEmail? || e.SetCompanyWebsite? {
      SetHeaderCompany(d, e, f);
    } else if e.SetBillToName? || e.SetBillToAddress? || e.SetBillToCity?
              || e.SetShipToName? || e.SetShipToAddress? || e.SetShipToCity? {
      SetHeaderParties(d, e, f);
    } else if e.SetInvoiceNumber? || e.SetInvoiceDate? || e.SetTerms? || e.SetDueDate?
              || e.SetCustomerMessage? {
      SetHeaderDetails(d, e, f);
    } else {
      SetHeaderAdjustments(d, e, f);
    }
  }

  /** SetHeaderReads for the edits of the company block. */
  lemma SetHeaderCompany(d: Invoice, e: HeaderEdit, f: HeaderField)
    requires e.SetCompanyName? || e.SetCompanyAddress? || e.SetCompanyCity?
          || e.SetCompanyPhone? || e.SetCompanyEmail? || e.SetCompanyWebsite?
    ensures Read(SetHeader(d, e), f) == if f == FieldOf(e) then ValueOf(e) else Read(d, f)
  {
  }

  /** SetHeaderReads for the edits of the bill-to and ship-to blocks. */
  lemma SetHeaderParties(d: Invoice, e: HeaderEdit, f: HeaderField)
    requires e.SetBillToName? || e.SetBillToAddress? || e.SetBillToCity?
          || e.SetShipToName? || e.SetShipToAddress? || e.SetShipToCity?
    ensures Read(SetHeader(d, e), f) == if f == FieldOf(e) then ValueOf(e) else Read(d, f)
  {
  }

  /** SetHeaderReads for the edits of the invoice details and the customer message. */
  lemma SetHeaderDetails(d: Invoice, e: HeaderEdit, f: HeaderField)
    requires e.SetInvoiceNumber? || e.SetInvoiceDate? || e.SetTerms? || e.SetDueDate?
          || e.SetCustomerMessage?
    ensures Read(SetHeader(d, e), f) == if f == FieldOf(e) then ValueOf(e) else Read(d, f)
  {
  }

  /** SetHeaderReads for the edits of GST, shipping and discount. */
  lemma SetHeaderAdjustments(d: Invoice, e: HeaderEdit, f: HeaderField)
    requires e.SetGst? || e.SetShipping? || e.SetDiscount?
    ensures Read(SetHeader(d, e), f) == if f == FieldOf(e) then ValueOf(e) else Read(d, f)
  {
  }

  /** Two documents that differ at most in their items. */
  predicate SameHeader(a: Invoice, b: Invoice) {
    a.(items := []) == b.(items := [])
  }

  /** Equal header fields are what SameHeader means. */
  lemma SameHeaderReads(a: Invoice, b: Invoice, f: HeaderField)
    requires SameHeader(a, b)
    ensures Read(a, f) == Read(b, f)
  {
    assert Read(a, f) == Read(a.(items := []), f);
    assert Read(b, f) == Read(b.(items := []), f);
  }

  // ---------------------------------------------------------------------------
  // Item edits (updateItem)

  /**
   * `{ ...item, [field]: value }`, followed by recomputing `amount` when the
   * field is quantity or rate. Text edits leave the cached amount alone.
   */
  function ApplyEdit(item: Item, e: ItemEdit): (r: Item)
    ensures r.id == item.id
    ensures r.name == (if e.SetName? then e.text else item.name)
    ensures r.description == (if e.SetDescription? then e.text else item.description)
    ensures r.quantity == (if e.SetQuantity? then e.value else item.quantity)
    ensures r.rate == (if e.SetRate? then e.value else item.rate)
    ensures r.amount == (if e.SetQuantity? || e.SetRate? then r.quantity * r.rate else item.amount)
    ensures Consistent(item) ==> Consistent(r)
  {
    match e
    case SetName(s) => item.(name := s)
    case SetDescription(s) => item.(description := s)
    case SetQuantity(q) => item.(quantity := q, amount := q * item.rate)
    case SetRate(x) => item.(rate := x, amount := item.quantity * x)
  }

  /** `prev.items.map(...)`: the edit applied to every item whose id matches. */
  function EditMatching(items: seq<Item>, id: Id, e: ItemEdit): (r: seq<Item>)
    ensures |r| == |items|
    ensures forall i :: 0 <= i < |items| && items[i].id != id ==> r[i] == items[i]
    ensures forall i :: 0 <= i < |items| && items[i].id == id ==> r[i] == ApplyEdit(items[i], e)
    ensures forall i :: 0 <= i < |items| ==> r[i].id == items[i].id
  {
    if items == [] then []
    else
      var head := if items[0].id == id then ApplyEdit(items[0], e) else items[0];
      [head] + EditMatching(items[1..], id, e)
  }

  /** The transform `updateItem` applies: only the items change. */
  function UpdateItem(d: Invoice, id: Id, e: ItemEdit): (r: Invoice)
    ensures SameHeader(r, d)
    ensures r.items == EditMatching(d.items, id, e)
  {
    d.(items := EditMatching(d.items, id, e))
  }

  /** A stale id, one no row carries, leaves the document as it was. */
  lemma UpdateItemUnknownId(d: Invoice, id: Id, e: ItemEdit)
    requires id !in Ids(d.items)
    ensures UpdateItem(d, id, e) == d
  {
    var r := UpdateItem(d, id, e).items;
    forall i | 0 <= i < |d.items| ensures r[i] == d.items[i] {
      assert d.items[i] in d.items;
    }
  }

  // ---------------------------------------------------------------------------
  // Adding and removing rows

  /** The blank row `addItem` appends. */
  function BlankItem(id: Id): (item: Item)
    ensures item.id == id && item.name == "" && item.description == ""
    ensures item.quantity == 0.0 && item.rate == 0.0 && item.amount == 0.0
  {
    Item(id, "", "", 0.0, 0.0, 0.0)
  }

  /** The transform `addItem` applies, with the generated id passed in. */
  function AddItem(d: Invoice, newId: Id): (r: Invoice)
    ensures SameHeader(r, d)
    ensures |r.items| == |d.items| + 1
    ensures r.items[..|d.items|] == d.items
    ensures r.items[|d.items|] == BlankItem(newId)
  {
    var r := d.(items := d.items + [BlankItem(newId)]);
    assert r.items[..|d.items|] == d.items;
    r
  }

  /** A fresh id keeps the ids distinct. */
  lemma AddItemKeepsIdsDistinct(d: Invoice, newId: Id)
    requires DistinctIds(d.items) && newId !in Ids(d.items)
    ensures DistinctIds(AddItem(d, newId).items)
  {
    var r := AddItem(d, newId).items;
    forall i, j | 0 <= i < |r| && 0 <= j < |r| && r[i].id == r[j].id
      ensures i == j
    {
      if i < |d.items| { assert d.items[i] in d.items; }
      if j < |d.items| { assert d.items[j] in d.items; }
    }
  }

  /** `items.filter(item => item.id !== id)`. */
  function Without(items: seq<Item>, id: Id): (r: seq<Item>)
    ensures forall item :: item in r <==> item in items && item.id != id
    ensures |r| <= |items|
  {
    if items == [] then []
    else if items[0].id == id then Without(items[1..], id)
    else [items[0]] + Without(items[1..], id)
  }

  /** Filtering by an id that no row carries, stated index by index, keeps every row. */
  lemma {:induction false} WithoutNoMatch(items: seq<Item>, id: Id)
    requires forall i :: 0 <= i < |items| ==> items[i].id != id
    ensures Without(items, id) == items
  {
    if items != [] {
      WithoutNoMatch(items[1..], id);
    }
  }

  /** Filtering by an id no row carries keeps every row. */
  lemma WithoutUnknownId(items: seq<Item>, id: Id)
    requires id !in Ids(items)
    ensures Without(items, id) == items
  {
    forall i | 0 <= i < |items| ensures items[i].id != id {
      assert items[i] in items;
    }
    WithoutNoMatch(items, id);
  }

  /** The whole `removeItem` handler: a one-row document is left alone. */
  function RemoveItem(d: Invoice, id: Id): (r: Invoice)
    ensures SameHeader(r, d)
    ensures |d.items| == 1 ==> r == d
    ensures |d.items| != 1 ==> r.items == Without(d.items, id)
  {
    if |d.items| == 1 then d else d.(items := Without(d.items, id))
  }

  /** Filtering distributes over concatenation, so it keeps the survivors in order. */
  lemma {:induction false} WithoutAppend(a: seq<Item>, b: seq<Item>, id: Id)
    ensures Without(a + b, id) == Without(a, id) + Without(b, id)
  {
    if a == [] {
      assert a + b == b;
    } else {
      assert (a + b)[1..] == a[1..] + b;
      WithoutAppend(a[1..], b, id);
    }
  }

  /** With distinct ids, filtering drops exactly the one row carrying `id`, if any. */
  lemma {:induction false} WithoutDistinctLength(items: seq<Item>, id: Id)
    requires DistinctIds(items)
    ensures |Without(items, id)| == if id in Ids(items) then |items| - 1 else |items|
    ensures DistinctIds(Without(items, id))
  {
    if items != [] {
      var rest := items[1..];
      assert DistinctIds(rest) by {
        forall i, j | 0 <= i < |rest| && 0 <= j < |rest| && rest[i].id == rest[j].id
          ensures i == j
        {
          assert items[i + 1].id == items[j + 1].id;
        }
      }
      assert items[0].id !in Ids(rest);
      WithoutDistinctLength(rest, id);
      assert Ids(items) == {items[0].id} + Ids(rest) by {
        assert items == [items[0]] + rest;
      }
      if items[0].id != id {
        var w := Without(rest, id);
        var r := [items[0]] + w;
        forall i, j | 0 <= i < |r| && 0 <= j < |r| && r[i].id == r[j].id
          ensures i == j
        {
          assert i != 0 ==> r[i] in rest;
          assert j != 0 ==> r[j] in rest;
        }
      }
    }
  }

  /** Removal, the only edit that shrinks the list, never empties a well-formed document. */
  lemma RemoveKeepsARow(d: Invoice, id: Id)
    requires DistinctIds(d.items) && |d.items| >= 1
    ensures |RemoveItem(d, id).items| >= 1
    ensures |RemoveItem(d, id).items| == if |d.items| > 1 && id in Ids(d.items) then |d.items| - 1 else |d.items|
  {
    WithoutDistinctLength(d.items, id);
  }

  // ---------------------------------------------------------------------------
  // The invariant and its preservation

  lemma InitialDataWellFormed()
    ensures WellFormed(InitialData())
    ensures Subtotal(InitialData()) == 0.0
  {
    FoldIsLineSum(0.0, InitialData().items);
  }

  lemma {:induction false} SetHeaderPreserves(d: Invoice, e: HeaderEdit)
    requires WellFormed(d)
    ensures WellFormed(SetHeader(d, e))
  {
  }

  lemma UpdateItemPreserves(d: Invoice, id: Id, e: ItemEdit)
    requires WellFormed(d)
    ensures WellFormed(UpdateItem(d, id, e))
  {
    var r := UpdateItem(d, id, e).items;
    forall item | item in r ensures Consistent(item) {
      var i :| 0 <= i < |r| && r[i] == item;
      assert Consistent(d.items[i]);
    }
  }

  lemma AddItemPreserves(d: Invoice, newId: Id)
    requires WellFormed(d) && newId !in Ids(d.items)
    ensures WellFormed(AddItem(d, newId))
  {
    AddItemKeepsIdsDistinct(d, newId);
  }

  lemma RemoveItemPreserves(d: Invoice, id: Id)
    requires WellFormed(d)
    ensures WellFormed(RemoveItem(d, id))
  {
    RemoveKeepsARow(d, id);
    WithoutDistinctLength(d.items, id);
  }

  // ---------------------------------------------------------------------------
  // Totals

  /**
   * `items.reduce((sum, item) => sum + item.amount, 0)`: a left fold in item order, with the
   * start value generalised to `acc` so that the lemmas about it can be stated by induction.
   */
  function AmountFold(acc: real, items: seq<Item>): real
    decreases |items|
  {
    if items == [] then acc else AmountFold(acc + items[0].amount, items[1..])
  }

  /** A row's quantity times rate, computed afresh rather than read from its cached amount. */
  function LineTotal(item: Item): real {
    item.quantity * item.rate
  }

  /** Reference definition: the sum of quantity times rate, each row once. */
  function LineSum(items: seq<Item>): real {
    if items == [] then 0.0 else LineTotal(items[0]) + LineSum(items[1..])
  }

  lemma {:induction false} FoldIsLineSum(acc: real, items: seq<Item>)
    ensures AmountsConsistent(items) ==> AmountFold(acc, items) == acc + LineSum(items)
    decreases |items|
  {
    if items != [] && AmountsConsistent(items) {
      assert Consistent(items[0]);
      FoldIsLineSum(acc + items[0].amount, items[1..]);
    }
  }

  /** The rendered subtotal; on consistent rows it is the sum of quantity times rate. */
  function Subtotal(d: Invoice): (s: real)
    ensures AmountsConsistent(d.items) ==> s == LineSum(d.items)
  {
    FoldIsLineSum(0.0, d.items);
    AmountFold(0.0, d.items)
  }

  /** The GST figure the page renders beside the rate input: subtotal times gst / 100. */
  function GstAmount(d: Invoice): (g: real)
    ensures AmountsConsistent(d.items) ==> g == LineSum(d.items) * d.gst / 100.0
    ensures Subtotal(d) == 0.0 || d.gst == 0.0 ==> g == 0.0
  {
    Subtotal(d) * (d.gst / 100.0)
  }

  /** The rendered total: subtotal plus GST, plus shipping, minus discount. */
  function Total(d: Invoice): (t: real)
    ensures t == Subtotal(d) + GstAmount(d) + d.shipping - d.discount
    ensures AmountsConsistent(d.items) ==> t == LineSum(d.items) * (1.0 + d.gst / 100.0) + d.shipping - d.discount
    ensures Subtotal(d) == 0.0 ==> t == d.shipping - d.discount
  {
    var subtotal := Subtotal(d);
    subtotal + (subtotal * (d.gst / 100.0)) + d.shipping - d.discount
  }

  /** A text header edit leaves both figures alone; a numeric one moves the total by its delta. */
  lemma SetHeaderTotals(d: Invoice, e: HeaderEdit)
    ensures Subtotal(SetHeader(d, e)) == Subtotal(d)
    ensures !(e.SetGst? || e.SetShipping? || e.SetDiscount?) ==> Total(SetHeader(d, e)) == Total(d)
    ensures e.SetShipping? ==> Total(SetHeader(d, e)) == Total(d) + (e.value - d.shipping)
    ensures e.SetDiscount? ==> Total(SetHeader(d, e)) == Total(d) - (e.value - d.discount)
    ensures e.SetGst? ==> Total(SetHeader(d, e)) == Total(d) + Subtotal(d) * (e.value - d.gst) / 100.0
  {
    var r, s := SetHeader(d, e), Subtotal(d);
    SetHeaderFigures(d, e);
    assert Subtotal(r) == s;
    GstShift(s, d.gst, r.gst);
  }

  /** What a header edit does to the three adjustment figures. */
  lemma SetHeaderFigures(d: Invoice, e: HeaderEdit)
    ensures SetHeader(d, e).gst == if e.SetGst? then e.value else d.gst
    ensures SetHeader(d, e).shipping == if e.SetShipping? then e.value else d.shipping
    ensures SetHeader(d, e).discount == if e.SetDiscount? then e.value else d.discount
  {
    SetHeaderReads(d, e, Gst);
    SetHeaderReads(d, e, Shipping);
    SetHeaderReads(d, e, Discount);
  }

  /** Moving the GST rate from g to g' moves the GST figure by subtotal times the change / 100. */
  lemma GstShift(s: real, g: real, g': real)
    ensures s * (g' / 100.0) == s * (g / 100.0) + s * (g' - g) / 100.0
  {
  }

  /** Appending a blank row leaves the subtotal unchanged. */
  lemma AddItemSubtotal(d: Invoice, newId: Id)
    ensures Subtotal(AddItem(d, newId)) == Subtotal(d)
  {
    AmountFoldAppend(0.0, d.items, BlankItem(newId));
  }

  lemma {:induction false} AmountFoldAppend(acc: real, items: seq<Item>, x: Item)
    ensures AmountFold(acc, items + [x]) == AmountFold(acc, items) + x.amount
    decreases |items|
  {
    if items != [] {
      assert (items + [x])[1..] == items[1..] + [x];
      AmountFoldAppend(acc + items[0].amount, items[1..], x);
    }
  }

  lemma {:induction false} LineSumSplit(items: seq<Item>, k: nat)
    requires k < |items|
    ensures LineSum(items) == LineSum(items[..k]) + LineTotal(items[k]) + LineSum(items[k + 1..])
  {
    if k > 0 {
      var head := LineTotal(items[0]);
      LineSumSplit(items[1..], k - 1);
      assert items[1..][..k - 1] == items[1..k];
      assert items[1..][k..] == items[k + 1..];
      assert items[..k][1..] == items[1..k];
      assert LineSum(items) == head + LineSum(items[1..]);
      assert LineSum(items[..k]) == head + LineSum(items[1..k]);
    } else {
      assert items[1..] == items[k + 1..];
    }
  }

  /** Editing the quantity of the row with a given id moves the subtotal by the change times its rate. */
  lemma {:induction false} UpdateQuantitySubtotal(d: Invoice, k: nat, q: real)
    requires WellFormed(d) && k < |d.items|
    ensures Subtotal(UpdateItem(d, d.items[k].id, SetQuantity(q)))
         == Subtotal(d) + (q - d.items[k].quantity) * d.items[k].rate
  {
    UpdateItemPreserves(d, d.items[k].id, SetQuantity(q));
    EditQuantityLineSum(d.items, k, q);
  }

  /** With distinct ids, a quantity edit of row k changes only that row's term of the sum. */
  lemma {:induction false} EditQuantityLineSum(items: seq<Item>, k: nat, q: real)
    requires DistinctIds(items) && k < |items|
    ensures LineSum(EditMatching(items, items[k].id, SetQuantity(q)))
         == LineSum(items) + (q - items[k].quantity) * items[k].rate
  {
    EditMatchingAt(items, k, SetQuantity(q));
    LineSumSetQuantityAt(items, EditMatching(items, items[k].id, SetQuantity(q)), k, q);
  }

  /** A list equal to `items` except that row k had its quantity set to q. */
  lemma {:induction false} LineSumSetQuantityAt(items: seq<Item>, r: seq<Item>, k: nat, q: real)
    requires k < |items| == |r| && r[..k] == items[..k] && r[k + 1..] == items[k + 1..]
    requires r[k] == ApplyEdit(items[k], SetQuantity(q))
    ensures LineSum(r) == LineSum(items) + (q - items[k].quantity) * items[k].rate
  {
    LineTotalSetQuantity(items[k], q);
    LineSumReplace(items, r, k, (q - items[k].quantity) * items[k].rate);
  }

  /** Two lists that differ only at row k, where that row's term moves by `delta`, differ in sum by `delta`. */
  lemma {:induction false} LineSumReplace(items: seq<Item>, r: seq<Item>, k: nat, delta: real)
    requires k < |items| == |r| && r[..k] == items[..k] && r[k + 1..] == items[k + 1..]
    requires LineTotal(r[k]) == LineTotal(items[k]) + delta
    ensures LineSum(r) == LineSum(items) + delta
  {
    LineSumSplit(items, k);
    LineSumSplit(r, k);
  }

  /** With distinct ids, editing the id of row k changes row k and leaves every other row as it was. */
  lemma {:induction false} EditMatchingAt(items: seq<Item>, k: nat, e: ItemEdit)
    requires DistinctIds(items) && k < |items|
    ensures EditMatching(items, items[k].id, e)[..k] == items[..k]
    ensures EditMatching(items, items[k].id, e)[k] == ApplyEdit(items[k], e)
    ensures EditMatching(items, items[k].id, e)[k + 1..] == items[k + 1..]
  {
    var r := EditMatching(items, items[k].id, e);
    assert r[..k] == items[..k] by {
      forall i | 0 <= i < k ensures r[i] == items[i] {
        assert items[i].id != items[k].id;
      }
    }
    assert r[k + 1..] == items[k + 1..] by {
      forall i | k < i < |items| ensures r[i] == items[i] {
        assert items[i].id != items[k].id;
      }
    }
  }

  /** A quantity edit moves the row's total by the change in quantity times the rate. */
  lemma {:induction false} LineTotalSetQuantity(x: Item, q: real)
    ensures LineTotal(ApplyEdit(x, SetQuantity(q))) == LineTotal(x) + (q - x.quantity) * x.rate
  {
    var y := ApplyEdit(x, SetQuantity(q));
    assert y.quantity == q && y.rate == x.rate;
    assert q * x.rate == x.quantity * x.rate + (q - x.quantity) * x.rate;
  }

  /** A text edit of a row leaves the subtotal unchanged. */
  lemma {:induction false} TextEditSubtotal(items: seq<Item>, id: Id, e: ItemEdit)
    requires e.SetName? || e.SetDescription?
    ensures AmountFold(0.0, EditMatching(items, id, e)) == AmountFold(0.0, items)
  {
    var r := EditMatching(items, id, e);
    assert forall i :: 0 <= i < |items| ==> r[i].amount == items[i].amount;
    SameAmountsSameFold(0.0, items, r);
  }

  lemma {:induction false} SameAmountsSameFold(acc: real, a: seq<Item>, b: seq<Item>)
    requires |a| == |b| && forall i :: 0 <= i < |a| ==> a[i].amount == b[i].amount
    ensures AmountFold(acc, a) == AmountFold(acc, b)
    decreases |a|
  {
    if a != [] {
      SameAmountsSameFold(acc + a[0].amount, a[1..], b[1..]);
    }
  }

  /** With distinct ids, filtering out the id of row k removes exactly that row's amount from the fold. */
  lemma FoldWithoutAt(acc: real, items: seq<Item>, k: nat)
    requires DistinctIds(items) && k < |items|
    ensures AmountFold(acc, Without(items, items[k].id)) == AmountFold(acc, items) - items[k].amount
  {
    var x, pre, post := items[k], items[..k], items[k + 1..];
    assert items == pre + ([x] + post);
    forall i | 0 <= i < |pre| ensures pre[i].id != x.id {
      assert pre[i] == items[i];
    }
    forall i | 0 <= i < |post| ensures post[i].id != x.id {
      assert post[i] == items[k + 1 + i];
    }
    WithoutNoMatch(pre, x.id);
    WithoutNoMatch(post, x.id);
    WithoutAppend(pre, [x] + post, x.id);
    assert ([x] + post)[1..] == post;
    assert Without(items, x.id) == pre + post;
    AmountFoldDrop(acc, pre, x, post);
  }

  /** Dropping one row from between two parts takes exactly its amount out of the fold. */
  lemma AmountFoldDrop(acc: real, pre: seq<Item>, x: Item, post: seq<Item>)
    ensures AmountFold(acc, pre + post) == AmountFold(acc, pre + ([x] + post)) - x.amount
  {
    var mid := AmountFold(acc, pre);
    AmountFoldConcat(acc, pre, post);
    AmountFoldConcat(acc, pre, [x] + post);
    assert ([x] + post)[1..] == post;
    assert AmountFold(mid, [x] + post) == AmountFold(mid + x.amount, post);
    AmountFoldShift(mid, post, x.amount);
  }

  /** Folding a concatenation folds the second part from where the first left off. */
  lemma {:induction false} AmountFoldConcat(acc: real, a: seq<Item>, b: seq<Item>)
    ensures AmountFold(acc, a + b) == AmountFold(AmountFold(acc, a), b)
    decreases |a|
  {
    if a != [] {
      assert (a + b)[1..] == a[1..] + b;
      AmountFoldConcat(acc + a[0].amount, a[1..], b);
    } else {
      assert a + b == b;
    }
  }

  /** Removing the row at index k, with distinct ids, lowers the subtotal by its amount. */
  lemma RemoveItemSubtotal(d: Invoice, k: nat)
    requires DistinctIds(d.items) && 1 < |d.items| && k < |d.items|
    ensures Subtotal(RemoveItem(d, d.items[k].id)) == Subtotal(d) - d.items[k].amount
  {
    FoldWithoutAt(0.0, d.items, k);
  }

  lemma {:induction false} AmountFoldShift(acc: real, items: seq<Item>, delta: real)
    ensures AmountFold(acc + delta, items) == AmountFold(acc, items) + delta
    decreases |items|
  {
    if items != [] {
      assert acc + delta + items[0].amount == acc + items[0].amount + delta;
      AmountFoldShift(acc + items[0].amount, items[1..], delta);
    }
  }

  // ---------------------------------------------------------------------------
  // Order independence

  /** Taking row i out of a list takes it out of the multiset of rows. */
  lemma RemoveAt(b: seq<Item>, i: nat)
    requires i < |b|
    ensures b == b[..i] + ([b[i]] + b[i + 1..])
    ensures multiset(b[..i] + b[i + 1..]) == multiset(b) - multiset{b[i]}
  {
    assert b == b[..i] + ([b[i]] + b[i + 1..]);
    assert multiset(b) == multiset(b[..i]) + multiset{b[i]} + multiset(b[i + 1..]);
  }

  lemma {:induction false} LineSumConcat(a: seq<Item>, b: seq<Item>)
    ensures LineSum(a + b) == LineSum(a) + LineSum(b)
  {
    if a == [] {
      assert a + b == b;
    } else {
      assert (a + b)[1..] == a[1..] + b;
      LineSumConcat(a[1..], b);
    }
  }

  /** Taking row i out of a list takes its quantity times rate out of the sum. */
  lemma LineSumRemoveAt(b: seq<Item>, i: nat)
    requires i < |b|
    ensures LineSum(b) == LineTotal(b[i]) + LineSum(b[..i] + b[i + 1..])
  {
    LineSumSplit(b, i);
    LineSumConcat(b[..i], b[i + 1..]);
  }

  /** Taking row i out of a list takes its amount out of the reduce. */
  lemma AmountFoldRemoveAt(acc: real, b: seq<Item>, i: nat)
    requires i < |b|
    ensures AmountFold(acc, b) == AmountFold(acc, b[..i] + b[i + 1..]) + b[i].amount
  {
    assert b == b[..i] + ([b[i]] + b[i + 1..]);
    AmountFoldDrop(acc, b[..i], b[i], b[i + 1..]);
  }

  /** A row of `b` equal to the head of `a`; the rests are again permutations of each other. */
  lemma MatchHead(a: seq<Item>, b: seq<Item>) returns (i: nat)
    requires multiset(a) == multiset(b) && a != []
    ensures i < |b| && b[i] == a[0]
    ensures multiset(a[1..]) == multiset(b[..i] + b[i + 1..])
  {
    assert a[0] in multiset(b);
    i :| 0 <= i < |b| && b[i] == a[0];
    assert a == [a[0]] + a[1..];
    assert multiset(a[1..]) == multiset(a) - multiset{a[0]};
    RemoveAt(b, i);
  }

  /** Sum of quantity times rate does not depend on the order of the rows. */
  lemma {:induction false} LineSumPermutation(a: seq<Item>, b: seq<Item>)
    requires multiset(a) == multiset(b)
    ensures LineSum(a) == LineSum(b)
    decreases |a|
  {
    if a == [] {
      assert |b| == |multiset(b)| == 0;
    } else {
      var i := MatchHead(a, b);
      LineSumRemoveAt(b, i);
      LineSumPermutation(a[1..], b[..i] + b[i + 1..]);
      assert LineSum(a) == LineTotal(a[0]) + LineSum(a[1..]);
    }
  }

  /** The reduce over cached amounts does not depend on the order of the rows either. */
  lemma {:induction false} AmountFoldPermutation(acc: real, a: seq<Item>, b: seq<Item>)
    requires multiset(a) == multiset(b)
    ensures AmountFold(acc, a) == AmountFold(acc, b)
    decreases |a|
  {
    if a == [] {
      assert |b| == |multiset(b)| == 0;
    } else {
      var i := MatchHead(a, b);
      assert AmountFold(acc, a) == AmountFold(acc + a[0].amount, a[1..]);
      AmountFoldRemoveAt(acc, b, i);
      AmountFoldPermutation(acc, a[1..], b[..i] + b[i + 1..]);
      AmountFoldShift(acc, a[1..], a[0].amount);
    }
  }

  /** Reordering the rows leaves the rendered subtotal and total as they were. */
  lemma SubtotalPermutation(d: Invoice, e: Invoice)
    requires multiset(d.items) == multiset(e.items)
    requires d.gst == e.gst && d.shipping == e.shipping && d.discount == e.discount
    ensures Subtotal(d) == Subtotal(e) && Total(d) == Total(e)
  {
    AmountFoldPermutation(0.0, d.items, e.items);
  }

  // ---------------------------------------------------------------------------
  // Worked examples

  /** Blank seed, GST 18, shipping 50, discount 10: subtotal 0, GST amount 0, total 40. */
  lemma SeedTotalsExample()
    ensures var d := SetHeader(SetHeader(SetHeader(InitialData(), SetGst(18.0)), SetShipping(50.0)), SetDiscount(10.0));
            Subtotal(d) == 0.0 && GstAmount(d) == 0.0 && Total(d) == 40.0
  {
    var d := SetHeader(SetHeader(SetHeader(InitialData(), SetGst(18.0)), SetShipping(50.0)), SetDiscount(10.0));
    assert d.items == InitialData().items;
    assert LineSum(d.items) == 0.0;
    assert Subtotal(d) == 0.0;
    assert d.shipping == 50.0 && d.discount == 10.0;
  }

  /**
   * From a document holding only the seed row "1", as InitialData does: add a row, set its
   * quantity to 3 and its rate to 20, add another row and remove the seed
   * row. Two rows remain, one net addition, and the first has amount 60.
   */
  lemma EditSequenceExample(d0: Invoice)
    requires d0.items == [BlankItem("1")]
    ensures var d5 := RemoveItem(AddItem(UpdateItem(UpdateItem(AddItem(d0, "a"), "a", SetQuantity(3.0)), "a", SetRate(20.0)), "b"), "1");
            && |d5.items| == |d0.items| + 1
            && d5.items[0] == Item("a", "", "", 3.0, 20.0, 60.0)
            && d5.items[1] == BlankItem("b")
            && Subtotal(d5) == 60.0
  {
    var d3 := UpdateItem(UpdateItem(AddItem(d0, "a"), "a", SetQuantity(3.0)), "a", SetRate(20.0));
    ExampleEdits(d0);
    ExampleRemoval(d3);
    SubtotalOfTwoRows(RemoveItem(AddItem(d3, "b"), "1"));
  }

  lemma SubtotalOfTwoRows(d: Invoice)
    requires |d.items| == 2
    ensures Subtotal(d) == d.items[0].amount + d.items[1].amount
  {
    var s := d.items;
    assert AmountFold(0.0, s) == AmountFold(s[0].amount, s[1..]);
    assert s[1..][1..] == [];
  }

  lemma ExampleEdits(d0: Invoice)
    requires d0.items == [BlankItem("1")]
    ensures var d3 := UpdateItem(UpdateItem(AddItem(d0, "a"), "a", SetQuantity(3.0)), "a", SetRate(20.0));
            |d3.items| == 2 && d3.items[0] == BlankItem("1") && d3.items[1] == Item("a", "", "", 3.0, 20.0, 60.0)
  {
    var d1 := AddItem(d0, "a");
    assert d1.items[0] == BlankItem("1") && d1.items[1] == BlankItem("a");
    var d2 := UpdateItem(d1, "a", SetQuantity(3.0));
    assert |d2.items| == 2 && d2.items[0] == BlankItem("1");
    assert d2.items[1] == Item("a", "", "", 3.0, 0.0, 0.0);
    var d3 := UpdateItem(d2, "a", SetRate(20.0));
    assert d3.items[0] == BlankItem("1");
  }

  lemma ExampleRemoval(d3: Invoice)
    requires |d3.items| == 2 && d3.items[0] == BlankItem("1") && d3.items[1] == Item("a", "", "", 3.0, 20.0, 60.0)
    ensures var d5 := RemoveItem(AddItem(d3, "b"), "1");
            |d5.items| == 2 && d5.items[0] == Item("a", "", "", 3.0, 20.0, 60.0) && d5.items[1] == BlankItem("b")
  {
    var s := AddItem(d3, "b").items;
    assert |s| == 3 && s[0] == BlankItem("1") && s[1] == d3.items[1] && s[2] == BlankItem("b");
    assert Without(s, "1") == Without(s[1..], "1");
    assert Without(s[1..], "1") == [s[1]] + Without(s[1..][1..], "1");
    assert Without(s[1..][1..], "1") == [s[2]] + Without(s[1..][1..][1..], "1");
  }
}
