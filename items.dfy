/**
 * Line items as stored in `items_json`, and `compute_subtotal`.
 *
 * A quantity is an integer number of hundredths, a unit price an integer number
 * of cents, so a line amount is an integer number of ten-thousandths of a dollar.
 */
module Items {
  import opened Wrappers

  /** One row of `items_json`; each of its keys may be missing. */
  datatype Item = Item(description: Option<string>, qty: Option<int>, unitPrice: Option<int>)

  /** `str(row.get("Description", ""))` */
  function Description(it: Item): string { it.description.GetOr("") }

  /** `float(row.get("Qty", 0))`, in hundredths. */
  function Qty(it: Item): int { it.qty.GetOr(0) }

  /** `float(row.get("Unit Price", 0))`, in cents. */
  function UnitPrice(it: Item): int { it.unitPrice.GetOr(0) }

  /** Qty times Unit Price, in ten-thousandths of a dollar. */
  function LineAmount(it: Item): int { Qty(it) * UnitPrice(it) }

  /** `compute_subtotal`: the sum of the line amounts, in ten-thousandths of a dollar. */
  function ComputeSubtotal(items: seq<Item>): int
  {
    if items == [] then 0 else ComputeSubtotal(items[..|items| - 1]) + LineAmount(items[|items| - 1])
  }

  /** The subtotal of a concatenation is the sum of the subtotals. */
  lemma {:induction false} SubtotalAppend(a: seq<Item>, b: seq<Item>)
    ensures ComputeSubtotal(a + b) == ComputeSubtotal(a) + ComputeSubtotal(b)
    decreases |b|
  {
    if b == [] {
      assert a + b == a;
    } else {
      assert (a + b)[..|a + b| - 1] == a + b[..|b| - 1];
      SubtotalAppend(a, b[..|b| - 1]);
    }
  }

  /** Summed from the front: the first item's amount plus the subtotal of the rest. */
  lemma SubtotalCons(items: seq<Item>)
    requires items != []
    ensures ComputeSubtotal(items) == LineAmount(items[0]) + ComputeSubtotal(items[1..])
  {
    SubtotalAppend([items[0]], items[1..]);
    assert [items[0]] + items[1..] == items;
    assert ComputeSubtotal([items[0]]) == LineAmount(items[0]) by {
      assert [items[0]][..0] == [];
    }
  }

  /** With no negative quantity or price the subtotal is not negative. */
  lemma {:induction false} SubtotalNonNegative(items: seq<Item>)
    requires forall i :: 0 <= i < |items| ==> Qty(items[i]) >= 0 && UnitPrice(items[i]) >= 0
    ensures ComputeSubtotal(items) >= 0
    decreases |items|
  {
    if items != [] {
      var init := items[..|items| - 1];
      assert forall i :: 0 <= i < |init| ==> init[i] == items[i];
      SubtotalNonNegative(init);
    }
  }

  /** Items missing a quantity or a unit price contribute nothing. */
  lemma {:induction false} SubtotalOfIncompleteItems(items: seq<Item>)
    requires forall i :: 0 <= i < |items| ==> items[i].qty.None? || items[i].unitPrice.None?
    ensures ComputeSubtotal(items) == 0
    decreases |items|
  {
    if items != [] {
      var init := items[..|items| - 1];
      assert forall i :: 0 <= i < |init| ==> init[i] == items[i];
      SubtotalOfIncompleteItems(init);
    }
  }
}
