/**
  The state the new-invoice page keeps for its item table: the item list, the
  tax rate and the three derived amounts. Each handler replaces the list (or
  the tax rate) and is followed by the recompute effect, which rewrites the
  subtotal, the tax amount and the total together.
 */
module InvoiceEditor {
  import opened LineItems

  class Editor {
    var items: seq<Item>
    var taxRate: real
    var subtotal: real
    var taxAmount: real
    var total: real

    /** The derived amounts agree with the items and the tax rate. */
    ghost predicate Valid()
      reads this
    {
      Consistent(items, taxRate, Totals(subtotal, taxAmount, total))
    }

    /** The page once mounted: the state starts empty with a 10% tax rate,
        the mount effect puts in one blank row stamped `now`, and the
        recompute effect derives the amounts, all of them 0. */
    constructor (now: int)
      ensures items == [NewItem(now)] && taxRate == 10.0
      ensures subtotal == 0.0 && taxAmount == 0.0 && total == 0.0
      ensures Valid()
    {
      items := [];
      taxRate := 10.0;
      subtotal, taxAmount, total := 0.0, 0.0, 0.0;
      new;
      items := [NewItem(now)];
      BlankRowTotals(now, taxRate);
      RecomputeTotals();
    }

    /** The effect that runs whenever the items or the tax rate change: it
        writes all three amounts in one step and nothing else. */
    method RecomputeTotals()
      modifies this
      ensures items == old(items) && taxRate == old(taxRate)
      ensures Totals(subtotal, taxAmount, total) == ComputeTotals(items, taxRate)
      ensures Valid()
    {
      var t := ComputeTotals(items, taxRate);
      subtotal, taxAmount, total := t.subtotal, t.taxAmount, t.total;
    }

    /** Append one blank row stamped `now`; the existing rows stay as they are. */
    method AddItem(now: int)
      modifies this
      ensures items == old(items) + [NewItem(now)]
      ensures taxRate == old(taxRate)
      ensures subtotal == old(Subtotal(items))
      ensures Valid()
    {
      items := items + [NewItem(now)];
      RecomputeTotals();
      assert items[..|items| - 1] == old(items);
    }

    /** Drop every row whose id is `id`; the others keep their order. */
    method RemoveItem(id: int)
      modifies this
      ensures items == WithoutId(old(items), id)
      ensures taxRate == old(taxRate)
      ensures subtotal == old(Subtotal(items)) - old(Subtotal(WithId(items, id)))
      ensures Valid()
    {
      SubtotalAfterRemoval(items, id);
      items := WithoutId(items, id);
      RecomputeTotals();
    }

    /** Write `value` into `field` of every row whose id is `id`: quantity and
        rate are coerced with `parseFloat(value) || 0`, the description is
        stored as typed. */
    method UpdateItem(id: int, field: Field, value: string, parseFloat: string -> Parsed)
      modifies this
      ensures items == Updated(old(items), id, EditFor(field, value, parseFloat))
      ensures taxRate == old(taxRate)
      ensures field == Description ==> subtotal == old(Subtotal(items))
      ensures Valid()
    {
      var e := EditFor(field, value, parseFloat);
      if field == Description {
        DescriptionEditKeepsSubtotal(items, id, value);
      }
      items := Updated(items, id, e);
      RecomputeTotals();
    }

    /** The tax-rate input: `parseFloat(value) || 0`, then the recompute. */
    method SetTaxRate(value: string, parseFloat: string -> Parsed)
      modifies this
      ensures taxRate == OrZero(parseFloat(value))
      ensures parseFloat(value).NaN? ==> taxRate == 0.0 && taxAmount == 0.0 && total == subtotal
      ensures items == old(items)
      ensures Valid()
    {
      taxRate := OrZero(parseFloat(value));
      RecomputeTotals();
    }
  }
}
