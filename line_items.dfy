/**
  The item list of the new-invoice form and the arithmetic derived from it:
  the three list edits the form's handlers perform (append, remove by id,
  update one field by id) and the subtotal / tax / total recomputation.
  Amounts are JavaScript numbers in the form; here they are exact reals.
 */
module LineItems {

  /** One row of the form's item list. `id` is the millisecond timestamp the
      form stamps on a row when it creates it. */
  datatype Item = Item(id: int, description: string, quantity: real, rate: real)

  /** What JavaScript's `parseFloat` gives back: a number, or NaN. */
  datatype Parsed = NaN | Num(value: real)

  /** The item fields the form edits. */
  datatype Field = Description | Quantity | Rate

  /** The change one call of the update handler makes to a matching row. */
  datatype Edit = SetDescription(text: string) | SetQuantity(q: real) | SetRate(r: real)

  /** The three amounts the recompute effect writes together. */
  datatype Totals = Totals(subtotal: real, taxAmount: real, total: real)

  // ---------------------------------------------------------------------------
  // Numeric coercion

  /** `parseFloat(v) || 0`: `||` replaces every falsy number (NaN and 0) by 0,
      so a number that parsed is kept and NaN becomes 0. */
  function OrZero(p: Parsed): (r: real)
    ensures p.NaN? ==> r == 0.0
    ensures p.Num? ==> r == p.value
  {
    if p.NaN? || p.value == 0.0 then 0.0 else p.value
  }

  /** The field an edit writes. */
  function Target(e: Edit): Field
  {
    match e
    case SetDescription(_) => Description
    case SetQuantity(_) => Quantity
    case SetRate(_) => Rate
  }

  /** The edit the update handler performs for `(field, value)`: quantity and
      rate go through `parseFloat(value) || 0`, the description is stored as
      typed. */
  function EditFor(field: Field, value: string, parseFloat: string -> Parsed): (e: Edit)
    ensures Target(e) == field
    ensures field == Description ==> e == SetDescription(value)
    ensures field == Quantity && parseFloat(value).NaN? ==> e == SetQuantity(0.0)
    ensures field == Rate && parseFloat(value).NaN? ==> e == SetRate(0.0)
    ensures field == Quantity && parseFloat(value).Num? ==> e == SetQuantity(parseFloat(value).value)
    ensures field == Rate && parseFloat(value).Num? ==> e == SetRate(parseFloat(value).value)
  {
    match field
    case Description => SetDescription(value)
    case Quantity => SetQuantity(OrZero(parseFloat(value)))
    case Rate => SetRate(OrZero(parseFloat(value)))
  }

  /** `{ ...item, [field]: value }`: the targeted field takes the new value,
      every other field, the id included, is kept. */
  function Apply(it: Item, e: Edit): (r: Item)
    ensures r.id == it.id
    ensures r.description == if Target(e) == Description then e.text else it.description
    ensures r.quantity == if Target(e) == Quantity then e.q else it.quantity
    ensures r.rate == if Target(e) == Rate then e.r else it.rate
  {
    match e
    case SetDescription(t) => it.(description := t)
    case SetQuantity(q) => it.(quantity := q)
    case SetRate(x) => it.(rate := x)
  }

  // ---------------------------------------------------------------------------
  // Totals

  /** The row the add handler appends, and the one the form starts with. */
  function NewItem(id: int): (r: Item)
    ensures r.id == id && r.description == ""
    ensures LineAmount(r) == 0.0
  {
    Item(id, "", 1.0, 0.0)
  }

  /** What one row contributes to the subtotal. */
  function LineAmount(it: Item): (r: real)
    ensures it.quantity == 0.0 || it.rate == 0.0 ==> r == 0.0
    ensures it.quantity >= 0.0 && it.rate >= 0.0 ==> r >= 0.0
  {
    it.quantity * it.rate
  }

  /** The subtotal as `items.reduce((sum, item) => sum + quantity * rate, 0)`
      computes it: a fold from the left starting at 0. */
  function Subtotal(items: seq<Item>): (r: real)
    ensures items == [] ==> r == 0.0
    ensures (forall i :: 0 <= i < |items| ==> LineAmount(items[i]) >= 0.0) ==> r >= 0.0
  {
    if items == [] then 0.0
    else Subtotal(items[..|items| - 1]) + LineAmount(items[|items| - 1])
  }

  /** The relation the three derived amounts must stand in to the items and
      the tax rate (a percentage). */
  ghost predicate Consistent(items: seq<Item>, taxRate: real, t: Totals)
  {
    && t.subtotal == Subtotal(items)
    && t.taxAmount == t.subtotal * taxRate / 100.0
    && t.total == t.subtotal + t.taxAmount
  }

  /** The recompute effect: the subtotal, then `subtotal * (taxRate / 100)`,
      then their sum. */
  function ComputeTotals(items: seq<Item>, taxRate: real): (t: Totals)
    ensures Consistent(items, taxRate, t)
    ensures items == [] ==> t == Totals(0.0, 0.0, 0.0)
  {
    var s := Subtotal(items);
    var tax := s * (taxRate / 100.0);
    Totals(s, tax, s + tax)
  }

  /** A list holding only a blank row costs nothing, whatever the tax rate. */
  lemma BlankRowTotals(id: int, taxRate: real)
    ensures ComputeTotals([NewItem(id)], taxRate) == Totals(0.0, 0.0, 0.0)
  {
  }

  /** The subtotal adds up over a concatenation. */
  lemma {:induction false} SubtotalConcat(a: seq<Item>, b: seq<Item>)
    ensures Subtotal(a + b) == Subtotal(a) + Subtotal(b)
    decreases |b|
  {
    if b == [] {
      assert a + b == a;
    } else {
      var n := |b| - 1;
      assert (a + b)[..|a + b| - 1] == a + b[..n];
      assert (a + b)[|a + b| - 1] == b[n];
      SubtotalConcat(a, b[..n]);
    }
  }

  /** The subtotal does not depend on the order of the rows. */
  lemma {:induction false} SubtotalPermutation(a: seq<Item>, b: seq<Item>)
    requires multiset(a) == multiset(b)
    ensures Subtotal(a) == Subtotal(b)
    decreases |a|
  {
    if a == [] {
      assert |b| == |multiset(b)| == 0;
    } else {
      var n := |a| - 1;
      var x := a[n];
      assert a == a[..n] + [x];
      assert x in multiset(b);
      var j :| 0 <= j < |b| && b[j] == x;
      assert b == b[..j] + [x] + b[j + 1..];
      var rest := b[..j] + b[j + 1..];
      calc {
        multiset(a[..n]);
        multiset(a) - multiset{x};
        multiset(b) - multiset{x};
        multiset(rest);
      }
      SubtotalPermutation(a[..n], rest);
      SubtotalConcat(b[..j] + [x], b[j + 1..]);
      SubtotalConcat(b[..j], [x]);
      SubtotalConcat(b[..j], b[j + 1..]);
    }
  }

  // ---------------------------------------------------------------------------
  // Remove by id: `items.filter(item => item.id !== id)`

  /** The rows whose id differs from `id`, in their original order. */
  function WithoutId(items: seq<Item>, id: int): (r: seq<Item>)
    ensures |r| <= |items|
    ensures forall x :: x in r <==> x in items && x.id != id
  {
    if items == [] then []
    else (if items[0].id == id then [] else [items[0]]) + WithoutId(items[1..], id)
  }

  /** The rows whose id is `id`, in their original order: what removal drops. */
  function WithId(items: seq<Item>, id: int): (r: seq<Item>)
    ensures forall x :: x in r <==> x in items && x.id == id
  {
    if items == [] then []
    else (if items[0].id == id then [items[0]] else []) + WithId(items[1..], id)
  }

  /** Removal works row by row: it distributes over concatenation, so the
      surviving rows keep their relative order. */
  lemma {:induction false} WithoutIdConcat(a: seq<Item>, b: seq<Item>, id: int)
    ensures WithoutId(a + b, id) == WithoutId(a, id) + WithoutId(b, id)
    decreases |a|
  {
    if a == [] {
      assert a + b == b;
    } else {
      assert (a + b)[0] == a[0];
      assert (a + b)[1..] == a[1..] + b;
      WithoutIdConcat(a[1..], b, id);
    }
  }

  /** Removing an id that no row carries leaves the list as it was. */
  lemma {:induction false} WithoutAbsentId(items: seq<Item>, id: int)
    requires forall i :: 0 <= i < |items| ==> items[i].id != id
    ensures WithoutId(items, id) == items
  {
    if items != [] {
      WithoutAbsentId(items[1..], id);
      assert items == [items[0]] + items[1..];
    }
  }

  /** Every row lands in exactly one of the kept and the dropped part, and the
      subtotal after removal is the old one less the dropped rows' amounts. */
  lemma {:induction false} SubtotalAfterRemoval(items: seq<Item>, id: int)
    ensures |WithoutId(items, id)| + |WithId(items, id)| == |items|
    ensures Subtotal(WithoutId(items, id)) == Subtotal(items) - Subtotal(WithId(items, id))
  {
    if items != [] {
      var head := [items[0]];
      SubtotalAfterRemoval(items[1..], id);
      assert items == head + items[1..];
      SubtotalConcat(head, items[1..]);
      var kept := if items[0].id == id then [] else head;
      var dropped := if items[0].id == id then head else [];
      SubtotalConcat(kept, WithoutId(items[1..], id));
      SubtotalConcat(dropped, WithId(items[1..], id));
    }
  }

  // ---------------------------------------------------------------------------
  // Update by id: `items.map(item => item.id === id ? { ...item, [field]: v } : item)`

  /** Every row whose id is `id` gets the edit; every other row is kept. */
  function Updated(items: seq<Item>, id: int, e: Edit): (r: seq<Item>)
    ensures |r| == |items|
    ensures forall i :: 0 <= i < |items| ==> r[i].id == items[i].id
    ensures forall i :: 0 <= i < |items| && items[i].id != id ==> r[i] == items[i]
    ensures forall i :: 0 <= i < |items| && items[i].id == id ==> r[i] == Apply(items[i], e)
  {
    if items == [] then []
    else [if items[0].id == id then Apply(items[0], e) else items[0]] + Updated(items[1..], id, e)
  }

  /** Updating works row by row: it distributes over concatenation. */
  lemma UpdatedConcat(a: seq<Item>, b: seq<Item>, id: int, e: Edit)
    ensures Updated(a + b, id, e) == Updated(a, id, e) + Updated(b, id, e)
  {
  }

  /** Repeating the same update changes nothing more. */
  lemma UpdatedIdempotent(items: seq<Item>, id: int, e: Edit)
    ensures Updated(Updated(items, id, e), id, e) == Updated(items, id, e)
  {
  }

  /** Editing a description leaves every amount, hence the subtotal, as it was. */
  lemma {:induction false} DescriptionEditKeepsSubtotal(items: seq<Item>, id: int, text: string)
    ensures Subtotal(Updated(items, id, SetDescription(text))) == Subtotal(items)
    decreases |items|
  {
    if items != [] {
      var n := |items| - 1;
      var e := SetDescription(text);
      assert items == items[..n] + [items[n]];
      UpdatedConcat(items[..n], [items[n]], id, e);
      var u := Updated(items, id, e);
      assert u == Updated(items[..n], id, e) + Updated([items[n]], id, e);
      assert u[..n] == Updated(items[..n], id, e);
      assert LineAmount(u[n]) == LineAmount(items[n]);
      DescriptionEditKeepsSubtotal(items[..n], id, text);
    }
  }

  /** Worked example: one row of 2 x 500 at 10% tax. */
  lemma SingleRowExample()
    ensures ComputeTotals([Item(1, "Design", 2.0, 500.0)], 10.0) == Totals(1000.0, 100.0, 1100.0)
  {
    var one := [Item(1, "Design", 2.0, 500.0)];
    assert one[..0] == [];
    assert Subtotal(one) == 0.0 + 2.0 * 500.0;
  }

  /** Worked example: rows 1 x 250.50 and 3 x 99.99 at 0% tax. */
  lemma TwoRowExample()
    ensures ComputeTotals([Item(1, "", 1.0, 250.50), Item(2, "", 3.0, 99.99)], 0.0)
            == Totals(550.47, 0.0, 550.47)
  {
    var first := Item(1, "", 1.0, 250.50);
    var second := Item(2, "", 3.0, 99.99);
    var two := [first, second];
    assert two[..1] == [first];
    assert [first][..0] == [];
    assert Subtotal([first]) == 250.50;
    assert LineAmount(second) == 299.97;
    assert Subtotal(two) == Subtotal([first]) + LineAmount(second) == 550.47;
    var t := ComputeTotals(two, 0.0);
    assert t.subtotal == 550.47;
    assert t.taxAmount == 550.47 * (0.0 / 100.0) == 0.0;
  }
}
