# Invoice engine, modelled in Dafny

This project models the core of a browser-based invoice generator: the invoice document (header
fields, an ordered list of line items, and adjustment figures), the edits the user applies to it,
and the money figures derived from it. The repository holds two independent versions of this engine,
and both are modelled.

- **Generator version** (`generator.dfy`, `generator_state.dfy`). Items carry a cached
  `amount`, kept equal to `quantity * rate` by `updateItem`. The document has GST (a percentage),
  shipping and discount. `removeItem` refuses to remove the last row. The page owns one state cell,
  `data`. Every handler replaces it with a new document, so the page is modelled as the class
  `GeneratorState.InvoiceGenerator` with a `data` field. Each transform the handlers apply is
  modelled as a pure function in module `Generator`, and the lemmas are stated over those
  functions. The class invariant `Valid()` has three parts: every amount equals quantity times rate,
  ids are distinct, and at least one row is left. Every handler keeps it. Under it, the rendered
  subtotal is the sum of quantity times rate.
- **Form/template version** (`template.dfy`, `form.dfy`). Items have a `price` and no cached
  amount. The document has a tax rate and nothing else adjusts the total. The form keeps no state:
  each handler hands a new document to its `onChange` callback. So `Form` and `Template` are pure
  functions over documents. `removeItem` here has no guard and can empty the list; the template then
  shows zero for every figure.

Each edit is a tagged datatype whose payload has the type of its field: `ItemEdit` for item fields
and `HeaderEdit` for header fields. `Read(d, f)` projects one header field. It is how "only that
field changes" is stated, and `HeaderDeterminesInvoice` shows that it covers every field. Each
reduce-based subtotal is a left fold. It is proved equal to an independent right-recursive sum
(`LineSum`, `RowSum`). Fresh ids are parameters of the add operations. The generator's class
requires the new id to be fresh; elsewhere freshness is required only where a lemma needs distinct
ids.

Numbers are Dafny `real`s, so the formulas hold exactly.

Behaviour worth noting:

- **The `discount` field.** The generator's record type (`types.ts`) has no `discount` field. The
  seed document, the total and the discount input all use one, so `Generator.Invoice` has it.
- **Removing the last row.** Only the generator refuses to remove the last row; the form's
  `removeItem` has no guard (`Form.RemoveOnlyItem`).
- **How the guard and filter work.** The generator's guard tests only the length of the current
  list. It does not check that the id occurs. The filter then drops every row carrying the id. Only
  distinct ids (part of `Valid()`) guarantee that at least one row is left; with a repeated id the
  filter can empty the list (`Generator.RemoveKeepsARow`).
- **All matching rows are edited.** An item edit applies to every row whose id matches, not just one.
- **Added rows differ between versions.** The form's new row has quantity 1, not 0.
- **No sign checks.** Neither version checks the sign of quantity, rate, price or the adjustments.
  The model accepts any real.

## Model

| member | source | states |
|---|---|---|
| Generator.InitialData | src/components/Invoice/InvoiceGenerator.tsx:20-51 | the seed document is well-formed, holds exactly the blank row "1", and has GST, shipping and discount 0 |
| Generator.HeaderDeterminesInvoice | src/components/Invoice/types.ts:10-36 | two documents agreeing on every header field read and on the items are equal, so `Read` covers the whole record |
| Generator.SetHeader | src/components/Invoice/InvoiceGenerator.tsx:62-64 | a header edit leaves the item list as it was |
| Generator.SetHeaderReads | src/components/Invoice/InvoiceGenerator.tsx:62-64 | after `updateData(field, value)` the named field reads as the value and every other field reads as before |
| Generator.SameHeaderReads | src/components/Invoice/InvoiceGenerator.tsx:78 | a document rebuilt as `{ ...prev, items }` agrees with `prev` on every header field |
| Generator.ApplyEdit | src/components/Invoice/InvoiceGenerator.tsx:69-74 | a name or description edit changes that field only; a quantity or rate edit sets that factor and recomputes amount as the new quantity times rate, using the other factor's old value; the id never changes and a consistent item stays consistent |
| Generator.EditMatching | src/components/Invoice/InvoiceGenerator.tsx:68-77 | the mapped list has the same length; rows whose id differs are unchanged; rows whose id matches are edited; every id stays in place |
| Generator.UpdateItem | src/components/Invoice/InvoiceGenerator.tsx:66-80 | `updateItem` changes only the items, and those as the map does |
| Generator.UpdateItemUnknownId | src/components/Invoice/InvoiceGenerator.tsx:68-78 | with an id no row carries, `updateItem` returns a document equal to the input |
| Generator.BlankItem | src/components/Invoice/InvoiceGenerator.tsx:83-90 | the new row has the given id, empty name and description, and quantity, rate and amount 0 |
| Generator.AddItem | src/components/Invoice/InvoiceGenerator.tsx:82-92 | `addItem` appends exactly one blank row at the end; the existing rows and the header are unchanged |
| Generator.AddItemKeepsIdsDistinct | src/components/Invoice/InvoiceGenerator.tsx:82-91 | with a fresh id, the ids stay distinct |
| Generator.Without | src/components/Invoice/InvoiceGenerator.tsx:98 | the filtered list holds exactly the rows whose id differs and is no longer than the input |
| Generator.WithoutNoMatch | src/components/Invoice/InvoiceGenerator.tsx:98 | filtering by an id that no row carries returns the list unchanged |
| Generator.WithoutUnknownId | src/components/Invoice/InvoiceGenerator.tsx:98 | the same, for an id outside the set of ids |
| Generator.WithoutAppend | src/components/Invoice/InvoiceGenerator.tsx:98 | the filter distributes over concatenation, so survivors keep their order |
| Generator.RemoveItem | src/components/Invoice/InvoiceGenerator.tsx:94-100 | a one-row document is returned as it was; otherwise the items are filtered by id and the header is unchanged |
| Generator.WithoutDistinctLength | src/components/Invoice/InvoiceGenerator.tsx:94-99 | with distinct ids the filter drops exactly one row if the id occurs and none otherwise, and the ids stay distinct |
| Generator.RemoveKeepsARow | src/components/Invoice/InvoiceGenerator.tsx:94-99 | with distinct ids and at least one row, `removeItem` leaves at least one row; the length drops by one exactly when there were several rows and the id occurs |
| Generator.InitialDataWellFormed | src/components/Invoice/InvoiceGenerator.tsx:37-46 | the seed rows satisfy the invariant and the seed subtotal is 0 |
| Generator.SetHeaderPreserves | src/components/Invoice/InvoiceGenerator.tsx:62-64 | a header edit preserves the invariant |
| Generator.UpdateItemPreserves | src/components/Invoice/InvoiceGenerator.tsx:66-80 | an item edit preserves the invariant (amount = quantity * rate, distinct ids, a row left) |
| Generator.AddItemPreserves | src/components/Invoice/InvoiceGenerator.tsx:82-92 | adding a row with a fresh id preserves the invariant |
| Generator.RemoveItemPreserves | src/components/Invoice/InvoiceGenerator.tsx:94-100 | removing a row preserves the invariant |
| Generator.FoldIsLineSum | src/components/Invoice/InvoiceGenerator.tsx:102 | on consistent rows, the reduce over cached amounts equals its start value plus the sum of quantity times rate |
| Generator.Subtotal | src/components/Invoice/InvoiceGenerator.tsx:102 | on consistent rows the subtotal is the sum of quantity times rate, each row once |
| Generator.GstAmount | src/components/Invoice/InvoiceGenerator.tsx:416 | on consistent rows the rendered GST figure is the sum of quantity times rate * gst / 100; it is 0 when the subtotal or the rate is 0 |
| Generator.Total | src/components/Invoice/InvoiceGenerator.tsx:103 | total = subtotal + GST amount + shipping - discount; on consistent rows total = sum * (1 + gst/100) + shipping - discount; with subtotal 0, total = shipping - discount |
| Generator.SetHeaderTotals | src/components/Invoice/InvoiceGenerator.tsx:102-103 | a header edit never moves the subtotal; a text edit leaves the total; shipping and discount edits shift it by their change; a GST edit shifts it by subtotal times the rate change / 100 |
| Generator.AddItemSubtotal | src/components/Invoice/InvoiceGenerator.tsx:82-102 | adding a row leaves the subtotal unchanged |
| Generator.AmountFoldAppend | src/components/Invoice/InvoiceGenerator.tsx:102 | reducing over a list with one more row at the end adds that row's amount |
| Generator.AmountFoldConcat | src/components/Invoice/InvoiceGenerator.tsx:102 | reducing over a concatenation continues from where the first part left off |
| Generator.LineSumPermutation | src/components/Invoice/InvoiceGenerator.tsx:102 | lists that are permutations of each other have the same sum of quantity times rate |
| Generator.AmountFoldPermutation | src/components/Invoice/InvoiceGenerator.tsx:102 | reordering the rows leaves the reduce over cached amounts unchanged, whatever the start value |
| Generator.SubtotalPermutation | src/components/Invoice/InvoiceGenerator.tsx:102-103 | two documents whose rows are permutations of each other, with equal GST, shipping and discount, have the same subtotal and total |
| Generator.EditQuantityLineSum | src/components/Invoice/InvoiceGenerator.tsx:69-77 | with distinct ids, setting row k's quantity to q moves the sum of quantity times rate by (q - old quantity) * rate |
| Generator.UpdateQuantitySubtotal | src/components/Invoice/InvoiceGenerator.tsx:66-102 | on a well-formed document, setting row k's quantity to q moves the subtotal by (q - old quantity) * rate |
| Generator.TextEditSubtotal | src/components/Invoice/InvoiceGenerator.tsx:66-102 | a name or description edit leaves the reduce over amounts unchanged |
| Generator.FoldWithoutAt | src/components/Invoice/InvoiceGenerator.tsx:98-102 | with distinct ids, filtering out row k's id takes exactly its amount out of the reduce |
| Generator.RemoveItemSubtotal | src/components/Invoice/InvoiceGenerator.tsx:94-102 | with distinct ids and several rows, removing row k lowers the subtotal by its amount |
| Generator.SeedTotalsExample | src/components/Invoice/InvoiceGenerator.tsx:20-103 | from the seed with GST 18, shipping 50 and discount 10, the subtotal is 0, the GST amount is 0 and the total is 40 |
| Generator.EditSequenceExample | src/components/Invoice/InvoiceGenerator.tsx:66-102 | add a row, set its quantity to 3 and rate to 20, add a row, remove the seed row: two rows remain (net one added), the first with amount 60, and the subtotal is 60 |
| GeneratorState.InvoiceGenerator.constructor | src/components/Invoice/InvoiceGenerator.tsx:54 | the page mounts with the seed document, which satisfies the invariant |
| GeneratorState.InvoiceGenerator.UpdateData | src/components/Invoice/InvoiceGenerator.tsx:62-64 | `data` is replaced by the edited document; the named field holds the value, every other field and the items are unchanged, and the invariant holds |
| GeneratorState.InvoiceGenerator.UpdateItem | src/components/Invoice/InvoiceGenerator.tsx:66-80 | `data` is replaced by the item-edited document; an unknown id leaves it as it was; the invariant holds |
| GeneratorState.InvoiceGenerator.AddItem | src/components/Invoice/InvoiceGenerator.tsx:82-92 | with a fresh id, `data` gains one blank row at the end and keeps the invariant |
| GeneratorState.InvoiceGenerator.RemoveItem | src/components/Invoice/InvoiceGenerator.tsx:94-100 | with state updates applied one at a time, the guard and the filter see the same document: one row means no change; otherwise the row with that id goes (length - 1 if it occurs); the invariant holds |
| GeneratorState.InvoiceGenerator.Subtotal | src/components/Invoice/InvoiceGenerator.tsx:102 | under the invariant, the rendered subtotal is the sum of quantity times rate |
| GeneratorState.InvoiceGenerator.GstAmount | src/components/Invoice/InvoiceGenerator.tsx:416 | under the invariant, the rendered GST figure is that sum * gst / 100 |
| GeneratorState.InvoiceGenerator.Total | src/components/Invoice/InvoiceGenerator.tsx:103 | under the invariant, the rendered total is that sum * (1 + gst/100) + shipping - discount |
| Template.FoldIsRowSum | src/components/Invoice/InvoiceTemplate.tsx:33 | the reduce of quantity * price equals its start value plus the sum of the row totals |
| Template.Subtotal | src/components/Invoice/InvoiceTemplate.tsx:33 | the subtotal is the sum of the per-row figures quantity * price, each row once |
| Template.TotalFormula | src/components/Invoice/InvoiceTemplate.tsx:34-35 | tax = row sum * taxRate / 100 and total = row sum * (1 + taxRate / 100); no shipping or discount term |
| Template.EmptyTotals | src/components/Invoice/InvoiceTemplate.tsx:33-35 | an empty list gives subtotal, tax and total 0 whatever the tax rate |
| Template.RowSumConcat | src/components/Invoice/InvoiceTemplate.tsx:33 | the row sum of a concatenation is the sum of the parts' row sums |
| Template.SubtotalAppend | src/components/Invoice/InvoiceTemplate.tsx:33 | appending a row adds its quantity * price to the subtotal |
| Template.RemoveRow | src/components/Invoice/InvoiceTemplate.tsx:33 | removing row i removes it from the multiset of rows and removes its total from the row sum |
| Template.RowSumPermutation | src/components/Invoice/InvoiceTemplate.tsx:33 | lists that are permutations of each other have the same row sum |
| Template.TotalsPermutation | src/components/Invoice/InvoiceTemplate.tsx:33-35 | reordering the rows leaves subtotal, tax and total unchanged |
| Template.SampleTotals | src/app/page.tsx:15-19 | rows (500, 0.85) and (1, 150.00) at tax rate 5 give subtotal 575, tax 28.75 and total 603.75 |
| Form.ApplyEdit | src/components/Invoice/InvoiceForm.tsx:16 | the named item field takes the value and every other field keeps its value |
| Form.EditMatching | src/components/Invoice/InvoiceForm.tsx:15-17 | the mapped list has the same length; rows whose id differs are unchanged; matching rows are edited |
| Form.SameHeaderReads | src/components/Invoice/InvoiceForm.tsx:18 | `{ ...data, items }` agrees with `data` on every header field |
| Form.HandleItemChange | src/components/Invoice/InvoiceForm.tsx:14-19 | only the items change, and those as the map does |
| Form.HandleItemChangeUnknownId | src/components/Invoice/InvoiceForm.tsx:15-17 | with an id no row carries, the document is returned unchanged |
| Form.NewItem | src/components/Invoice/InvoiceForm.tsx:22-27 | the new row has the given id, empty description, quantity 1 and price 0 |
| Form.AddItem | src/components/Invoice/InvoiceForm.tsx:21-29 | exactly one new row is appended at the end; the prefix and the header are unchanged |
| Form.AddItemTotals | src/components/Invoice/InvoiceForm.tsx:21-29 | the new row has price 0, so subtotal and total do not move |
| Form.Keep | src/components/Invoice/InvoiceForm.tsx:32 | the filtered list holds exactly the rows whose id differs |
| Form.KeepAppend | src/components/Invoice/InvoiceForm.tsx:32 | the filter distributes over concatenation, so survivors keep their order |
| Form.KeepUnknownId | src/components/Invoice/InvoiceForm.tsx:32 | filtering by an id no row carries keeps the list |
| Form.RemoveItem | src/components/Invoice/InvoiceForm.tsx:31-33 | only the items change; they are filtered by id, with no last-row guard |
| Form.RemoveItemUnknownId | src/components/Invoice/InvoiceForm.tsx:31-33 | removing an id no row carries leaves the document unchanged |
| Form.RemoveOnlyItem | src/components/Invoice/InvoiceForm.tsx:31-33 | removing the only row leaves an empty list, whose subtotal and total are 0 |
| Form.RemoveItemSubtotal | src/components/Invoice/InvoiceForm.tsx:31-33 | with distinct ids, removing row k shortens the list by one and lowers the subtotal by that row's total |
| Form.ApplyHeaderEdit | src/components/Invoice/InvoiceForm.tsx:61-177 | each header input's spread sets its field to the new value and leaves every other field and the items unchanged |
| Form.HeaderDeterminesInvoice | src/components/Invoice/InvoiceTemplate.tsx:15-25 | two documents agreeing on every header field read and on the items are equal |
| Form.HeaderEditTotals | src/components/Invoice/InvoiceTemplate.tsx:33-35 | a header edit never moves the subtotal; only a tax-rate edit can move the total, and then the tax is subtotal * new rate / 100 |

## Left out

- Markup, styling, animation and images. Two figures are computed inside the JSX: the template's
  row total (`InvoiceTemplate.tsx:100`), modelled as `Template.RowTotal`, and the generator's GST
  amount (`InvoiceGenerator.tsx:416`), modelled as `Generator.GstAmount`.
- Printing (`useReactToPrint` in the generator, `window.print` in the form): foreign browser calls.
- `handleSend`: it builds a `mailto:` URL and navigates to it. That is I/O.
- `formatCurrency`: `@/lib/utils` is not part of this model. It only formats figures for display.
- Dates in the form version are already-parsed instants (`Date` is an `int` count of milliseconds).
  Parsing input text with `new Date(...)`, ISO formatting and the template's date-fns `format` are
  library- and time-zone-dependent. The generator's dates are free text and are modelled as strings.
- `parseFloat(...) || 0` on numeric inputs: each edit receives an already-sanitised number.
- Id generation (`Math.random().toString(36)`, `uuidv4`) is randomness. The new id is a parameter
  of the add operations. The generator's class requires it to be fresh.
- IEEE-754 doubles: all arithmetic is exact over `real`. For example, 0.1 + 0.2 is exactly 0.3
  here, while the page computes 0.30000000000000004.
- The GSTIN input in the generator is bound to no state.
- `updateData` can be called with any field name, including `items`, and with a value of any type.
  The page only ever passes the scalar header fields and the three numeric adjustments, each with a
  value of its own type. `Generator.HeaderEdit` has exactly those cases.
- `updateItem` and `handleItemChange` accept any item field name. The generator page passes only
  name, description, quantity and rate; the form passes only description, quantity and price. Edits
  of `id` or `amount` are not modelled.
- `src/app/page.tsx`: its page state and layout are not modelled. Its two seed rows and tax rate
  appear only as the worked example `Template.SampleTotals`.
- Generator.SetHeader: its own contract states only that the items are unchanged. What a header edit
  does to the fields is stated by `Generator.SetHeaderReads`.
- React state updates are modelled as applied one at a time, so `removeItem`'s guard and its filter
  see the same document. In the page the guard reads the last rendered `data`
  (`InvoiceGenerator.tsx:95`) while the filter runs on `prev`, the latest queued state (`:96-98`).
  Two removals batched before a re-render can both pass the guard and empty a two-row list. The
  model does not capture this, and `GeneratorState.InvoiceGenerator.RemoveItem`'s "a row is left"
  holds only for updates applied one at a time.
- Template.Tax and Template.Total carry no contract of their own. Their formulas are stated by
  `Template.TotalFormula`.
