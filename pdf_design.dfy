/**
 * The coordinate and content plan of the designed invoice PDF
 * (app/Components/PDFDesign.tsx, `createPDF`): the page size, one table row
 * per line item with a product name, and the grand-total line. Units are
 * points; `y` grows down the page.
 */
module PdfDesign {
  import opened Strings
  import opened LineItems
  import opened Drawing

  const RowHeight := 30
  const HeaderHeight := 370     // header, invoice info and customer info
  const FooterHeight := 80      // the total and the bottom wave
  const MinHeight := 600
  const PageWidth := 595        // the fixed width of the page format
  const StartY := 320           // top of the table header

  /** `Math.max(headerHeight + items.length * rowHeight + footerHeight, minHeight)`. */
  function PageHeight(n: nat): (h: int)
    ensures h >= MinHeight && h >= HeaderHeight + RowHeight * n + FooterHeight
    ensures h == MinHeight || h == HeaderHeight + RowHeight * n + FooterHeight
  {
    var needed := HeaderHeight + n * RowHeight + FooterHeight;
    if needed >= MinHeight then needed else MinHeight
  }

  /** More rows never make the page shorter. */
  lemma PageHeightMonotone(n: nat, m: nat)
    requires n <= m
    ensures PageHeight(n) <= PageHeight(m)
  {
  }

  /** `String(index + 1).padStart(2, "0")`: the number printed in the ITEM column. */
  function RowLabel(index: nat): string {
    PadStart(NatToString(index + 1), 2, '0')
  }

  /**
   * The row number is at least two digits and reads as `index + 1`: below
   * ten it is a '0' and one digit, from ten on it is the plain decimal.
   */
  lemma RowLabelSpec(index: nat)
    ensures var num := RowLabel(index);
      |num| >= 2 && AllDigits(num) && Value(num) == index + 1 &&
      (index + 1 < 10 ==> |num| == 2 && num[0] == '0') &&
      (index + 1 >= 10 ==> num == NatToString(index + 1))
  {
    NatToStringValue(index + 1);
    PadStartSpec(NatToString(index + 1), 2, '0');
    PadWithZerosValue(NatToString(index + 1), 2);
  }

  /** The cells and the divider of one table row. */
  datatype Row = Row(number: TextAt, description: TextAt, price: TextAt, quantity: TextAt,
                     total: TextAt, divider: Line)

  /** Baseline of the `j`-th drawn row (0-based). */
  function RowBaseline(j: nat): int {
    StartY + 50 + RowHeight * j
  }

  /** The row drawn `j`-th, for the item at `index` of the full list. */
  function MakeRow(index: nat, item: Item, j: nat): Row {
    var y := RowBaseline(j);
    Row(TextAt(RowLabel(index), 60, y),
        TextAt(item.product, 140, y),
        TextAt(IntToString(item.price), 360, y),
        TextAt(IntToString(item.quantity), 450, y),
        TextAt(IntToString(ItemTotal(item.quantity, item.price)), 530, y),
        Line(40, y + 10, PageWidth - 40, y + 10))
  }

  /** The rows of the table: rows without a product are skipped and take no space, but keep their number. */
  function PlannedRows(items: seq<Item>): seq<Row> {
    if items == [] then []
    else
      var n := |items| - 1;
      var before := PlannedRows(items[..n]);
      before + (if Shown(items[n]) then [MakeRow(n, items[n], |before|)] else [])
  }

  /** Extending a prefix by one row adds that row's table row, if it has a product. */
  lemma PlannedRowsStep(items: seq<Item>, i: nat)
    requires i < |items|
    ensures PlannedRows(items[..i + 1]) ==
      PlannedRows(items[..i]) + (if Shown(items[i]) then [MakeRow(i, items[i], |PlannedRows(items[..i])|)] else [])
  {
    assert items[..i + 1][..i] == items[..i];
  }

  /**
   * The `j`-th table row shows the `j`-th item with a product name, numbered
   * by its index in the full list (so skipped items leave gaps in the
   * numbering), at baseline 370 + 30 * j.
   */
  lemma {:induction false} PlannedRowsLayout(items: seq<Item>)
    ensures |PlannedRows(items)| == |Positions(items)| <= |items|
    ensures forall j :: 0 <= j < |Positions(items)| ==>
      Positions(items)[j] < |items| &&
      PlannedRows(items)[j] == MakeRow(Positions(items)[j], items[Positions(items)[j]], j)
    decreases |items|, 1
  {
    if items != [] {
      var n := |items| - 1;
      var prefix := items[..n];
      PlannedRowsLayout(prefix);
      forall j | 0 <= j < |Positions(items)|
        ensures Positions(items)[j] < |items|
        ensures PlannedRows(items)[j] == MakeRow(Positions(items)[j], items[Positions(items)[j]], j)
      {
        PlannedRowAt(items, j);
      }
    }
  }

  /** One step of the induction above: row `j` of a non-empty list, from the rows of its prefix. */
  lemma {:induction false} PlannedRowAt(items: seq<Item>, j: nat)
    requires items != []
    requires j < |Positions(items)|
    ensures |PlannedRows(items)| == |Positions(items)| <= |items|
    ensures Positions(items)[j] < |items|
    ensures PlannedRows(items)[j] == MakeRow(Positions(items)[j], items[Positions(items)[j]], j)
    decreases |items|, 0
  {
    var n := |items| - 1;
    var prefix := items[..n];
    PlannedRowsLayout(prefix);
    var positions, rows := Positions(prefix), PlannedRows(prefix);
    if j < |positions| {
      assert Positions(items)[j] == positions[j];
      assert PlannedRows(items)[j] == rows[j];
      assert prefix[positions[j]] == items[positions[j]];
    }
  }

  /** A row's number reads as its item's index in the full list plus one. */
  lemma RowNumbering(items: seq<Item>, j: nat)
    requires j < |PlannedRows(items)|
    ensures j < |Positions(items)|
    ensures Positions(items)[j] < |items| && Shown(items[Positions(items)[j]])
    ensures PlannedRows(items)[j].number.text == RowLabel(Positions(items)[j])
    ensures AllDigits(PlannedRows(items)[j].number.text)
    ensures Value(PlannedRows(items)[j].number.text) == Positions(items)[j] + 1
  {
    PlannedRowsLayout(items);
    PositionsSpec(items);
    assert Positions(items)[j] in Positions(items);
    RowLabelSpec(Positions(items)[j]);
  }

  /** Baseline of the grand-total line after `k` drawn rows. */
  function TotalBaseline(k: nat): int {
    RowBaseline(k) + 25
  }

  /** The plan of `createPDF`. */
  datatype Plan = Plan(width: int, height: int, rows: seq<Row>, totalHeading: TextAt, totalValue: TextAt)

  /** `createPDF`: page size, table rows from a running baseline `y`, then the total line. */
  method CreatePdf(items: seq<Item>) returns (plan: Plan)
    ensures plan.width == PageWidth && plan.height == PageHeight(|items|)
    ensures plan.rows == PlannedRows(items)
    ensures plan.totalHeading == TextAt("TOTAL AMOUNT:", 400, TotalBaseline(|plan.rows|))
    ensures plan.totalValue == TextAt(IntToString(GrandTotal(items)), PageWidth - 50, TotalBaseline(|plan.rows|))
    ensures FooterHeight - 25 <= plan.height - plan.totalHeading.y
  {
    var pageHeight := PageHeight(|items|);
    var rows: seq<Row> := [];
    var y := StartY + 50;
    var i := 0;
    while i < |items|
      invariant 0 <= i <= |items|
      invariant rows == PlannedRows(items[..i])
      invariant y == RowBaseline(|rows|)
    {
      var item := items[i];
      PlannedRowsStep(items, i);
      if item.product != "" {
        var itemNum := PadStart(NatToString(i + 1), 2, '0');
        var row := Row(TextAt(itemNum, 60, y),
                       TextAt(item.product, 140, y),
                       TextAt(IntToString(item.price), 360, y),
                       TextAt(IntToString(item.quantity), 450, y),
                       TextAt(IntToString(ItemTotal(item.quantity, item.price)), 530, y),
                       Line(40, y + 10, PageWidth - 40, y + 10));
        assert row == MakeRow(i, item, |rows|);
        rows := rows + [row];
        y := y + RowHeight;
      }
      i := i + 1;
    }
    assert items[..i] == items;
    y := y + 25;
    PlannedRowsLayout(items);
    plan := Plan(PageWidth, pageHeight, rows,
                 TextAt("TOTAL AMOUNT:", 400, y),
                 TextAt(IntToString(GrandTotal(items)), PageWidth - 50, y));
  }

  /**
   * The total line lies strictly inside the page, at least the footer's
   * allowance minus 25 above the bottom edge, and below every row divider.
   */
  lemma TotalLineInsidePage(items: seq<Item>)
    ensures TotalBaseline(|PlannedRows(items)|) + (FooterHeight - 25) <= PageHeight(|items|)
    ensures forall j :: 0 <= j < |PlannedRows(items)| ==>
      PlannedRows(items)[j].divider.y1 < TotalBaseline(|PlannedRows(items)|)
  {
    PlannedRowsLayout(items);
  }

  /** Every row and its divider lie within the page width, 40 points in from each edge. */
  lemma RowsWithinWidth(items: seq<Item>)
    ensures forall j :: 0 <= j < |PlannedRows(items)| ==>
      PlannedRows(items)[j].divider == Line(40, RowBaseline(j) + 10, PageWidth - 40, RowBaseline(j) + 10) &&
      PlannedRows(items)[j].number.y == RowBaseline(j) &&
      40 <= PlannedRows(items)[j].number.x && PlannedRows(items)[j].total.x <= PageWidth - 40
  {
    PlannedRowsLayout(items);
  }

  /** Each row's total column is its quantity times its price. */
  lemma RowTotals(items: seq<Item>)
    ensures |PlannedRows(items)| == |Positions(items)|
    ensures forall j :: 0 <= j < |PlannedRows(items)| ==>
      Positions(items)[j] < |items| &&
      PlannedRows(items)[j].total.text ==
        IntToString(items[Positions(items)[j]].quantity * items[Positions(items)[j]].price)
  {
    PlannedRowsLayout(items);
  }

  /** Below ten, the number is a '0' followed by the single digit. */
  lemma SingleDigitLabel(index: nat)
    requires index + 1 < 10
    ensures RowLabel(index) == ['0', DigitChar(index + 1)]
  {
    var num := RowLabel(index);
    RowLabelSpec(index);
    assert num[..1][..0] == [];
    assert Value(num) == Value(num[..1]) * 10 + DigitValue(num[1]);
    assert DigitValue(num[1]) == index + 1;
  }

  /** Two named rows: numbered "01" and "02", grand total 200. */
  lemma TwoRowsExample()
    ensures |PlannedRows([Item("Widget", 2, 50), Item("Gadget", 1, 100)])| == 2
    ensures PlannedRows([Item("Widget", 2, 50), Item("Gadget", 1, 100)])[0].number.text == "01"
    ensures PlannedRows([Item("Widget", 2, 50), Item("Gadget", 1, 100)])[1].number.text == "02"
    ensures GrandTotal([Item("Widget", 2, 50), Item("Gadget", 1, 100)]) == 200
  {
    var items := [Item("Widget", 2, 50), Item("Gadget", 1, 100)];
    assert items[..1] == [Item("Widget", 2, 50)];
    assert items[..1][..0] == [];
    SingleDigitLabel(0);
    SingleDigitLabel(1);
  }

  /** A single row without a product: no table row, but its total still counts. */
  lemma EmptyProductExample()
    ensures PlannedRows([Item("", 3, 10)]) == []
    ensures GrandTotal([Item("", 3, 10)]) == 30
  {
    assert [Item("", 3, 10)][..0] == [];
  }

  /** A skipped first row leaves a gap: the only drawn row is the second item, numbered "02". */
  lemma NumberingGapExample()
    ensures |PlannedRows([EmptyItem(), Item("Widget", 2, 50)])| == 1
    ensures PlannedRows([EmptyItem(), Item("Widget", 2, 50)])[0].number.text == "02"
    ensures PlannedRows([EmptyItem(), Item("Widget", 2, 50)])[0].description.text == "Widget"
    ensures PlannedRows([EmptyItem(), Item("Widget", 2, 50)])[0].number.y == RowBaseline(0)
  {
    var items := [EmptyItem(), Item("Widget", 2, 50)];
    assert items[..1] == [EmptyItem()];
    assert items[..1][..0] == [];
    assert PlannedRows(items[..1]) == [];
    SingleDigitLabel(1);
  }
}
