/**
 * Invoice line items and what both the invoice form and the PDF design
 * compute from them: the row total, the grand total (a left-to-right
 * `reduce`), the rows that are shown (a `filter` on a non-empty product
 * name) and the list without one index (a `filter` on the index).
 */
module LineItems {

  /** One product row. Quantities and prices are integers in this model. */
  datatype Item = Item(product: string, quantity: int, price: int)

  /**
   * The row a new form, `addItem` and `resetForm` start from: quantity 1 and
   * price 0, with no product, so the filter drops it and it adds 0 to the total.
   */
  function EmptyItem(): (e: Item)
    ensures e.quantity == 1 && !Shown(e) && RowTotal(e) == 0
  {
    Item("", 1, 0)
  }

  function ItemTotal(quantity: int, price: int): int {
    quantity * price
  }

  function RowTotal(item: Item): int {
    ItemTotal(item.quantity, item.price)
  }

  /** `items.reduce((sum, i) => sum + i.quantity * i.price, 0)`, over every row. */
  function GrandTotal(items: seq<Item>): int {
    if items == [] then 0
    else GrandTotal(items[..|items| - 1]) + RowTotal(items[|items| - 1])
  }

  /** A row is drawn or shared exactly when its product name is truthy, i.e. non-empty. */
  predicate Shown(item: Item) {
    item.product != ""
  }

  /** `items.filter((i) => i.product)`. */
  function Visible(items: seq<Item>): seq<Item> {
    if items == [] then []
    else Visible(items[..|items| - 1]) + (if Shown(items[|items| - 1]) then [items[|items| - 1]] else [])
  }

  /** The rows the filter drops: those with an empty product name. */
  function Hidden(items: seq<Item>): seq<Item> {
    if items == [] then []
    else Hidden(items[..|items| - 1]) + (if Shown(items[|items| - 1]) then [] else [items[|items| - 1]])
  }

  /** The indices, in the full list, of the rows that are shown. */
  function Positions(items: seq<Item>): seq<nat> {
    if items == [] then []
    else Positions(items[..|items| - 1]) + (if Shown(items[|items| - 1]) then [|items| - 1] else [])
  }

  /**
   * The shown rows are exactly the rows with a non-empty product, taken in
   * list order: Positions lists their indices in increasing order, and the
   * filter yields the rows at those indices.
   */
  lemma {:induction false} PositionsSpec(items: seq<Item>)
    ensures |Positions(items)| == |Visible(items)| <= |items|
    ensures forall j :: 0 <= j < |Positions(items)| ==>
      Positions(items)[j] < |items| && Visible(items)[j] == items[Positions(items)[j]]
    ensures forall j, k :: 0 <= j < k < |Positions(items)| ==> Positions(items)[j] < Positions(items)[k]
    ensures forall i :: 0 <= i < |items| ==> (Shown(items[i]) <==> i in Positions(items))
  {
    if items != [] {
      var n := |items| - 1;
      var prefix, last := items[..n], items[n];
      PositionsSpec(prefix);
      var positions, visible := Positions(prefix), Visible(prefix);
      assert forall i :: 0 <= i < n ==> prefix[i] == items[i];
      assert n !in positions;
      if Shown(last) {
        assert Positions(items) == positions + [n];
        assert Visible(items) == visible + [last];
      } else {
        assert Positions(items) == positions;
        assert Visible(items) == visible;
      }
    }
  }

  /** Every shown row has a non-empty product name. */
  lemma VisibleAreShown(items: seq<Item>)
    ensures forall j :: 0 <= j < |Visible(items)| ==> Shown(Visible(items)[j])
  {
    PositionsSpec(items);
  }

  lemma {:induction false} GrandTotalConcat(s: seq<Item>, t: seq<Item>)
    ensures GrandTotal(s + t) == GrandTotal(s) + GrandTotal(t)
    decreases |t|
  {
    if t != [] {
      assert (s + t)[..|s + t| - 1] == s + t[..|t| - 1];
      GrandTotalConcat(s, t[..|t| - 1]);
    } else {
      assert s + t == s;
    }
  }

  /**
   * The grand total counts the rows the filter drops as well as those it
   * keeps.
   */
  lemma {:induction false} GrandTotalIncludesHidden(items: seq<Item>)
    ensures GrandTotal(items) == GrandTotal(Visible(items)) + GrandTotal(Hidden(items))
  {
    if items != [] {
      var n := |items| - 1;
      GrandTotalIncludesHidden(items[..n]);
      assert GrandTotal([items[n]]) == RowTotal(items[n]) by { assert [items[n]][..0] == []; }
      if Shown(items[n]) {
        assert Visible(items) == Visible(items[..n]) + [items[n]] && Hidden(items) == Hidden(items[..n]);
        GrandTotalConcat(Visible(items[..n]), [items[n]]);
      } else {
        assert Hidden(items) == Hidden(items[..n]) + [items[n]] && Visible(items) == Visible(items[..n]);
        GrandTotalConcat(Hidden(items[..n]), [items[n]]);
      }
    }
  }

  /** A row in the middle contributes its row total once. */
  lemma GrandTotalAt(items: seq<Item>, i: nat)
    requires i < |items|
    ensures GrandTotal(items) == GrandTotal(items[..i]) + RowTotal(items[i]) + GrandTotal(items[i + 1..])
  {
    assert items == items[..i] + [items[i]] + items[i + 1..];
    GrandTotalConcat(items[..i] + [items[i]], items[i + 1..]);
    GrandTotalConcat(items[..i], [items[i]]);
  }

  /** `items.filter((_, i) => i !== index)`: drops the row at `index`, if there is one. */
  function WithoutIndex(items: seq<Item>, index: int): (r: seq<Item>)
    ensures r == if 0 <= index < |items| then items[..index] + items[index + 1..] else items
  {
    if items == [] then []
    else
      var n := |items| - 1;
      var prefix := WithoutIndex(items[..n], index);
      assert 0 <= index < n ==> items[..n][..index] == items[..index] && items[..n][index + 1..] + [items[n]] == items[index + 1..];
      prefix + (if index == n then [] else [items[n]])
  }
}
