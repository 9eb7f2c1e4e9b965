/**
 * The generator page as the stateful component it is: one state cell `data`
 * that every handler replaces with a new document.
 */
module GeneratorState {
  import opened Generator

  class InvoiceGenerator {
    /** The current document, as held by the page's state hook. */
    var data: Invoice

    /** Every row's amount is quantity times rate, ids are distinct, and a row is left. */
    ghost predicate Valid()
      reads this
    {
      WellFormed(data)
    }

    /** The page mounts with the seed document. */
    constructor ()
      ensures Valid()
      ensures data == InitialData()
    {
      data := InitialData();
    }

    /** `updateData(field, value)`. */
    method UpdateData(e: HeaderEdit)
      requires Valid()
      modifies this
      ensures Valid()
      ensures data == SetHeader(old(data), e)
      ensures Read(data, FieldOf(e)) == ValueOf(e)
      ensures forall f :: f != FieldOf(e) ==> Read(data, f) == Read(old(data), f)
      ensures data.items == old(data.items)
    {
      SetHeaderPreserves(data, e);
      forall f {
        SetHeaderReads(data, e, f);
      }
      data := SetHeader(data, e);
    }

    /** `updateItem(id, field, value)`. */
    method UpdateItem(id: Id, e: ItemEdit)
      requires Valid()
      modifies this
      ensures Valid()
      ensures data == Generator.UpdateItem(old(data), id, e)
      ensures id !in Ids(old(data.items)) ==> data == old(data)
    {
      UpdateItemPreserves(data, id, e);
      if id !in Ids(data.items) {
        UpdateItemUnknownId(data, id, e);
      }
      data := Generator.UpdateItem(data, id, e);
    }

    /** `addItem()`, with the id the page would generate passed in and required fresh. */
    method AddItem(newId: Id)
      requires Valid()
      requires newId !in Ids(data.items)
      modifies this
      ensures Valid()
      ensures data == Generator.AddItem(old(data), newId)
      ensures data.items == old(data.items) + [BlankItem(newId)]
    {
      AddItemPreserves(data, newId);
      data := Generator.AddItem(data, newId);
    }

    /**
     * `removeItem(id)`: a one-row document is left alone; otherwise the rows
     * with that id are filtered out. Updates are applied one at a time here, so
     * the guard and the filter see the same document.
     */
    method RemoveItem(id: Id)
      requires Valid()
      modifies this
      ensures Valid()
      ensures data == Generator.RemoveItem(old(data), id)
      ensures |old(data.items)| == 1 ==> data == old(data)
      ensures |data.items| == if |old(data.items)| > 1 && id in Ids(old(data.items)) then |old(data.items)| - 1 else |old(data.items)|
    {
      RemoveItemPreserves(data, id);
      RemoveKeepsARow(data, id);
      if |data.items| == 1 {
        return;
      }
      data := data.(items := Without(data.items, id));
    }

    /** The subtotal the page renders: the sum of quantity times rate over the rows. */
    function Subtotal(): (s: real)
      reads this
      ensures Valid() ==> s == LineSum(data.items)
    {
      Generator.Subtotal(data)
    }

    /** The GST amount the page renders beside the rate input. */
    function GstAmount(): (g: real)
      reads this
      ensures Valid() ==> g == LineSum(data.items) * data.gst / 100.0
    {
      Generator.GstAmount(data)
    }

    /** The total the page renders. */
    function Total(): (t: real)
      reads this
      ensures Valid() ==> t == LineSum(data.items) * (1.0 + data.gst / 100.0) + data.shipping - data.discount
    {
      Generator.Total(data)
    }
  }
}
