/**
 * The invoice creation form (app/invoice/new/page.tsx): the editable list
 * of line items and the customer name as the state of a form object, the
 * trial/subscription gate, the save guards and the record they let
 * through, the text of the share message, and the plain PDF the form draws
 * after a save.
 *
 * Firebase (the signed-in user, the user document, the write), the clock
 * and `Math.random` are parameters here.
 */
module InvoiceForm {
  import opened Wrappers
  import opened Strings
  import opened LineItems
  import opened Drawing

  // ---------------------------------------------------------------------
  // Invoice number
  // ---------------------------------------------------------------------

  /** `Math.floor(1000 + r * 9000)`, for `r` the value of `Math.random()`. */
  function InvoiceSerial(r: real): (n: int)
    requires 0.0 <= r < 1.0
    ensures 1000 <= n <= 9999
  {
    (1000.0 + r * 9000.0).Floor
  }

  /** Every serial in 1000..9999 is produced by some random value. */
  lemma InvoiceSerialReachesEvery(n: int)
    requires 1000 <= n <= 9999
    ensures 0.0 <= (n - 1000) as real / 9000.0 < 1.0
    ensures InvoiceSerial((n - 1000) as real / 9000.0) == n
  {
    var r := (n - 1000) as real / 9000.0;
    assert 1000.0 + r * 9000.0 == n as real;
  }

  /** `generateInvoiceNo()`: "INV-" followed by the decimal digits of the serial. */
  function GenerateInvoiceNo(r: real): (no: string)
    requires 0.0 <= r < 1.0
    ensures |no| > 4 && no[..4] == "INV-"
    ensures AllDigits(no[4..]) && Value(no[4..]) == InvoiceSerial(r)
    ensures 1000 <= Value(no[4..]) <= 9999
  {
    NatToStringValue(InvoiceSerial(r));
    "INV-" + NatToString(InvoiceSerial(r))
  }

  // ---------------------------------------------------------------------
  // Trial / subscription gate
  // ---------------------------------------------------------------------

  /** The two expiry instants of a user document, in milliseconds; a field that is not a timestamp is None. */
  datatype UserDoc = UserDoc(trialEndsAt: Option<int>, subscriptionEndsAt: Option<int>)

  /** `ends && ends > now`. */
  predicate StillValid(ends: Option<int>, now: int) {
    ends.Some? && ends.value > now
  }

  /**
   * The access check: no user document denies; otherwise access is granted
   * when the trial or the subscription ends strictly after `now`.
   */
  function AccessGate(user: Option<UserDoc>, now: int): (granted: bool)
    ensures user.None? ==> !granted
    ensures user.Some? ==>
      (granted <==> StillValid(user.value.trialEndsAt, now) || StillValid(user.value.subscriptionEndsAt, now))
    ensures user.Some? && user.value.trialEndsAt.None? && user.value.subscriptionEndsAt.None? ==> !granted
  {
    match user
    case None => false
    case Some(data) => StillValid(data.trialEndsAt, now) || StillValid(data.subscriptionEndsAt, now)
  }

  /** The later of the expiry instants that are present. */
  function LaterEnd(a: Option<int>, b: Option<int>): Option<int> {
    match (a, b)
    case (None, None) => None
    case (Some(x), None) => Some(x)
    case (None, Some(y)) => Some(y)
    case (Some(x), Some(y)) => Some(if x >= y then x else y)
  }

  /** Equivalently: access lasts until the later of the two expiry instants. */
  lemma AccessUntilLaterEnd(user: Option<UserDoc>, now: int)
    ensures AccessGate(user, now) <==>
      user.Some? && LaterEnd(user.value.trialEndsAt, user.value.subscriptionEndsAt).Some? &&
      now < LaterEnd(user.value.trialEndsAt, user.value.subscriptionEndsAt).value
  {
  }

  /** Access granted now was granted at every earlier instant too. */
  lemma AccessGateEarlier(user: Option<UserDoc>, now: int, earlier: int)
    requires earlier <= now && AccessGate(user, now)
    ensures AccessGate(user, earlier)
  {
  }

  // ---------------------------------------------------------------------
  // Editing the rows
  // ---------------------------------------------------------------------

  /** `updateItem(index, field, value)`: the field named and the value written to it. */
  datatype Edit = SetProduct(product: string) | SetQuantity(quantity: int) | SetPrice(price: int)

  /** `{ ...item, [field]: value }`: the named field takes the value, the others are kept. */
  function ApplyEdit(item: Item, edit: Edit): (r: Item)
    ensures r.product == if edit.SetProduct? then edit.product else item.product
    ensures r.quantity == if edit.SetQuantity? then edit.quantity else item.quantity
    ensures r.price == if edit.SetPrice? then edit.price else item.price
  {
    match edit
    case SetProduct(p) => item.(product := p)
    case SetQuantity(q) => item.(quantity := q)
    case SetPrice(p) => item.(price := p)
  }

  /**
   * `removeItem(index)`: a single row is never removed; otherwise the row at
   * `index` goes, and an index outside the list removes nothing.
   */
  function Removed(items: seq<Item>, index: int): (r: seq<Item>)
    ensures |items| == 1 ==> r == items
    ensures |items| != 1 && 0 <= index < |items| ==> r == items[..index] + items[index + 1..]
    ensures !(0 <= index < |items|) ==> r == items
    ensures |items| >= 1 ==> |r| >= 1
  {
    if |items| == 1 then items else WithoutIndex(items, index)
  }

  /** A new row (quantity 1, price 0) does not change the grand total. */
  lemma AddItemKeepsTotal(items: seq<Item>)
    ensures GrandTotal(items + [EmptyItem()]) == GrandTotal(items)
  {
    assert (items + [EmptyItem()])[..|items|] == items;
  }

  /** Removing a row takes exactly its row total off the grand total. */
  lemma RemovedTotal(items: seq<Item>, index: int)
    ensures GrandTotal(Removed(items, index)) ==
      if |items| != 1 && 0 <= index < |items| then GrandTotal(items) - RowTotal(items[index]) else GrandTotal(items)
  {
    if |items| != 1 && 0 <= index < |items| {
      GrandTotalAt(items, index);
      GrandTotalConcat(items[..index], items[index + 1..]);
    }
  }

  /** Editing a row changes the grand total by the change in that row's total. */
  lemma UpdatedTotal(items: seq<Item>, index: nat, edit: Edit)
    requires index < |items|
    ensures GrandTotal(items[index := ApplyEdit(items[index], edit)]) ==
      GrandTotal(items) - RowTotal(items[index]) + RowTotal(ApplyEdit(items[index], edit))
  {
    var updated := items[index := ApplyEdit(items[index], edit)];
    GrandTotalAt(items, index);
    GrandTotalAt(updated, index);
    assert updated[..index] == items[..index] && updated[index + 1..] == items[index + 1..];
  }

  // ---------------------------------------------------------------------
  // Saving
  // ---------------------------------------------------------------------

  /** The fields written to the user's invoices collection (the server timestamp aside). */
  datatype InvoiceRecord = InvoiceRecord(invoiceNo: string, customerName: string, items: seq<Item>, total: int)

  /** What `saveInvoice` does: which guard stops it, or the record it writes and whether the write succeeded. */
  datatype SaveOutcome =
    | NoAccess                       // returns silently
    | LoginRequired                  // "Please login first"
    | MissingDetails                 // "Please add customer & items"
    | Saved(record: InvoiceRecord)   // the popup opens
    | SaveFailed(record: InvoiceRecord)  // "Error saving invoice"

  /**
   * The guards of `saveInvoice`, in order, and the record it writes: the
   * items as they stand and the grand total of all of them.
   */
  function Save(canCreate: bool, signedIn: bool, invoiceNo: string, customerName: string,
                items: seq<Item>, writeSucceeds: bool): (o: SaveOutcome)
    ensures o == NoAccess <==> !canCreate
    ensures o == LoginRequired <==> canCreate && !signedIn
    ensures (o.Saved? || o.SaveFailed?) <==> canCreate && signedIn && customerName != "" && GrandTotal(items) != 0
    ensures (o.Saved? || o.SaveFailed?) ==> o.record == InvoiceRecord(invoiceNo, customerName, items, GrandTotal(items))
    ensures o.Saved? ==> writeSucceeds
    ensures o.SaveFailed? ==> !writeSucceeds
  {
    if !canCreate then NoAccess
    else if !signedIn then LoginRequired
    else if customerName == "" || GrandTotal(items) == 0 then MissingDetails
    else
      var record := InvoiceRecord(invoiceNo, customerName, items, GrandTotal(items));
      if writeSucceeds then Saved(record) else SaveFailed(record)
  }

  /** A list made only of untouched new rows totals 0, so it is never written. */
  lemma {:induction false} DefaultRowsAreNotSaved(canCreate: bool, signedIn: bool, invoiceNo: string,
                                                  customerName: string, items: seq<Item>, writeSucceeds: bool)
    requires forall i :: 0 <= i < |items| ==> items[i] == EmptyItem()
    ensures GrandTotal(items) == 0
    ensures !Save(canCreate, signedIn, invoiceNo, customerName, items, writeSucceeds).Saved?
    ensures !Save(canCreate, signedIn, invoiceNo, customerName, items, writeSucceeds).SaveFailed?
  {
    if items != [] {
      DefaultRowsAreNotSaved(canCreate, signedIn, invoiceNo, customerName, items[..|items| - 1], writeSucceeds);
    }
  }

  // ---------------------------------------------------------------------
  // Share message
  // ---------------------------------------------------------------------

  /** `${product} | ${quantity} x ${price} = ${quantity * price}`. */
  function ShareLine(item: Item): string {
    item.product + " | " + IntToString(item.quantity) + " x " + IntToString(item.price)
      + " = " + IntToString(RowTotal(item))
  }

  /** `items.filter((i) => i.product).map(...)`. */
  function ShareLines(items: seq<Item>): seq<string> {
    var shown := Visible(items);
    seq(|shown|, j requires 0 <= j < |shown| => ShareLine(shown[j]))
  }

  /** The template literal built by `shareWhatsApp`, before URL encoding. */
  function ShareMessage(invoiceNo: string, customerName: string, items: seq<Item>): string {
    "\nInvoice " + invoiceNo + "\nCustomer: " + customerName + "\n\n"
      + Join(ShareLines(items), "\n")
      + "\n\nTotal: " + IntToString(GrandTotal(items)) + "\n    "
  }

  /** One share line per row with a product name, in list order. */
  lemma ShareLinesInOrder(items: seq<Item>)
    ensures |ShareLines(items)| == |Positions(items)|
    ensures forall j :: 0 <= j < |Positions(items)| ==>
      Positions(items)[j] < |items| && ShareLines(items)[j] == ShareLine(items[Positions(items)[j]])
  {
    PositionsSpec(items);
  }

  lemma NoNewlineConcat(a: string, b: string)
    requires NoNewline(a) && NoNewline(b)
    ensures NoNewline(a + b)
  {
    forall i | 0 <= i < |a + b| ensures (a + b)[i] != '\n' {
      if i >= |a| {
        assert (a + b)[i] == b[i - |a|];
      }
    }
  }

  lemma IntToStringNoNewline(i: int)
    ensures NoNewline(IntToString(i))
  {
    var s := IntToString(i);
    IntToStringValue(i);
    forall k | 0 <= k < |s| ensures s[k] != '\n' {
      if i < 0 && k > 0 {
        assert s[k] == s[1..][k - 1];
      }
    }
  }

  lemma ShareLineNoNewline(item: Item)
    requires NoNewline(item.product)
    ensures NoNewline(ShareLine(item))
  {
    IntToStringNoNewline(item.quantity);
    IntToStringNoNewline(item.price);
    IntToStringNoNewline(RowTotal(item));
    NoNewlineConcat(item.product, " | ");
    NoNewlineConcat(item.product + " | ", IntToString(item.quantity));
    NoNewlineConcat(item.product + " | " + IntToString(item.quantity), " x ");
    NoNewlineConcat(item.product + " | " + IntToString(item.quantity) + " x ", IntToString(item.price));
    NoNewlineConcat(item.product + " | " + IntToString(item.quantity) + " x " + IntToString(item.price), " = ");
    NoNewlineConcat(item.product + " | " + IntToString(item.quantity) + " x " + IntToString(item.price) + " = ",
                    IntToString(RowTotal(item)));
  }

  /** A heading followed by a newline-free text is a single line. */
  lemma LinesOfHeading(heading: string, s: string)
    requires NoNewline(heading) && NoNewline(s)
    ensures Lines(heading + s) == [heading + s]
  {
    NoNewlineConcat(heading, s);
    LinesOfLine(heading + s);
  }

  /** A newline, a heading and a newline-free text add one line after those of `x`. */
  lemma LinesAfterHeading(x: string, lit: string, heading: string, s: string)
    requires lit == "\n" + heading && NoNewline(heading) && NoNewline(s)
    ensures Lines(x + lit + s) == Lines(x) + [heading + s]
  {
    assert x + lit + s == x + "\n" + (heading + s);
    LinesSplitAtNewline(x, heading + s);
    LinesOfHeading(heading, s);
  }

  /** Two newlines leave a blank line between the lines of `x` and those of `body`. */
  lemma LinesAfterBlank(x: string, body: string)
    ensures Lines(x + "\n\n" + body) == Lines(x) + [""] + Lines(body)
  {
    assert x + "\n\n" + body == x + "\n" + ("" + "\n" + body);
    LinesSplitAtNewline(x, "" + "\n" + body);
    LinesSplitAtNewline("", body);
  }

  /** The lines of the message around its body. */
  lemma MessageLines(invoiceNo: string, customerName: string, body: string, total: string)
    requires NoNewline(invoiceNo) && NoNewline(customerName) && NoNewline(total)
    ensures Lines("\nInvoice " + invoiceNo + "\nCustomer: " + customerName + "\n\n" + body + "\n\nTotal: " + total + "\n    ")
      == ["", "Invoice " + invoiceNo, "Customer: " + customerName, ""] + Lines(body) + ["", "Total: " + total, "    "]
  {
    var p1 := "\nInvoice " + invoiceNo;
    var p3 := p1 + "\nCustomer: " + customerName;
    var p5 := p3 + "\n\n" + body;
    var p7 := p5 + "\n\nTotal: " + total;
    assert Lines(p1) == ["", "Invoice " + invoiceNo] by {
      assert "" + "\nInvoice " + invoiceNo == p1;
      LinesAfterHeading("", "\nInvoice ", "Invoice ", invoiceNo);
    }
    var head := ["", "Invoice " + invoiceNo, "Customer: " + customerName, ""];
    assert Lines(p5) == head + Lines(body) by {
      LinesAfterHeading(p1, "\nCustomer: ", "Customer: ", customerName);
      LinesAfterBlank(p3, body);
    }
    assert Lines(p7) == head + Lines(body) + ["", "Total: " + total] by {
      assert p7 == p5 + "\n\n" + ("Total: " + total);
      LinesAfterBlank(p5, "Total: " + total);
      LinesOfHeading("Total: ", total);
    }
    assert Lines(p7 + "\n    ") == Lines(p7) + ["    "] by {
      assert p7 + "\n    " + "" == p7 + "\n    " && "    " + "" == "    ";
      LinesAfterHeading(p7, "\n    ", "    ", "");
    }
  }

  /**
   * Read line by line, the message is: a blank line, the invoice number,
   * the customer, a blank line, one line per row with a product name (or a
   * single empty line when there is none), a blank line, the grand total
   * over all rows, and the closing indentation.
   */
  lemma ShareMessageLines(invoiceNo: string, customerName: string, items: seq<Item>)
    requires NoNewline(invoiceNo) && NoNewline(customerName)
    requires forall i :: 0 <= i < |items| ==> NoNewline(items[i].product)
    ensures Lines(ShareMessage(invoiceNo, customerName, items)) ==
      ["", "Invoice " + invoiceNo, "Customer: " + customerName, ""]
      + (if Visible(items) == [] then [""] else ShareLines(items))
      + ["", "Total: " + IntToString(GrandTotal(items)), "    "]
  {
    var lines := ShareLines(items);
    IntToStringNoNewline(GrandTotal(items));
    MessageLines(invoiceNo, customerName, Join(lines, "\n"), IntToString(GrandTotal(items)));
    if Visible(items) != [] {
      PositionsSpec(items);
      forall j | 0 <= j < |lines| ensures NoNewline(lines[j]) {
        ShareLineNoNewline(Visible(items)[j]);
      }
      LinesOfJoin(lines);
    }
  }

  /** A row without a product is left out of the lines but still counted in the total. */
  lemma EmptyProductShareExample(invoiceNo: string, customerName: string)
    ensures ShareLines([Item("", 3, 10)]) == []
    ensures ShareMessage(invoiceNo, customerName, [Item("", 3, 10)])
      == "\nInvoice " + invoiceNo + "\nCustomer: " + customerName + "\n\n\n\nTotal: 30\n    "
  {
    var items := [Item("", 3, 10)];
    assert items[..0] == [];
    assert Visible(items) == [];
    assert Join(ShareLines(items), "\n") == "";
    assert GrandTotal(items) == 30;
    assert IntToString(30) == "30" by {
      assert NatToString(3) == "3";
      assert NatToString(30) == NatToString(3) + "0";
    }
  }

  // ---------------------------------------------------------------------
  // The plain PDF drawn after a save
  // ---------------------------------------------------------------------

  /** The fixed headings, the invoice number and the customer ("N/A" when empty). */
  function SimpleHeader(invoiceNo: string, customerName: string): seq<TextAt> {
    [ TextAt("INVOICE", 14, 20),
      TextAt("Invoice No: " + invoiceNo, 14, 30),
      TextAt("Customer: " + (if customerName == "" then "N/A" else customerName), 14, 38),
      TextAt("Product", 14, 55), TextAt("Qty", 90, 55), TextAt("Price", 120, 55), TextAt("Total", 160, 55) ]
  }

  /** The four cells of one drawn row, at baseline `y`. */
  function SimpleRowTexts(item: Item, y: int): seq<TextAt> {
    [ TextAt(item.product, 14, y), TextAt(IntToString(item.quantity), 90, y),
      TextAt(IntToString(item.price), 120, y), TextAt(IntToString(ItemTotal(item.quantity, item.price)), 160, y) ]
  }

  /** A row `generatePDF` draws: the item and the baseline of its cells. */
  datatype SimpleRow = SimpleRow(item: Item, y: int)

  /** The drawn rows: rows without a product are skipped and take no space. */
  function SimpleRows(items: seq<Item>): seq<SimpleRow> {
    if items == [] then []
    else
      var prefix := items[..|items| - 1];
      SimpleRows(prefix)
        + (if Shown(items[|items| - 1]) then [SimpleRow(items[|items| - 1], 65 + 10 * |Visible(prefix)|)] else [])
  }

  /** The drawing calls of the drawn rows, four per row, in order. */
  function Cells(rows: seq<SimpleRow>): seq<TextAt> {
    if rows == [] then []
    else
      var last := rows[|rows| - 1];
      Cells(rows[..|rows| - 1]) + SimpleRowTexts(last.item, last.y)
  }

  /** A further row is drawn after all earlier ones. */
  lemma CellsSnoc(rows: seq<SimpleRow>, row: SimpleRow)
    ensures Cells(rows + [row]) == Cells(rows) + SimpleRowTexts(row.item, row.y)
  {
    assert (rows + [row])[..|rows|] == rows;
  }

  /**
   * Extending a prefix by one row adds that row, at the next baseline, if it
   * has a product, and counts it among the shown rows.
   */
  lemma SimpleRowsStep(items: seq<Item>, i: nat)
    requires i < |items|
    ensures SimpleRows(items[..i + 1]) == SimpleRows(items[..i])
      + (if Shown(items[i]) then [SimpleRow(items[i], 65 + 10 * |Visible(items[..i])|)] else [])
    ensures |Visible(items[..i + 1])| == |Visible(items[..i])| + (if Shown(items[i]) then 1 else 0)
  {
    assert items[..i + 1][..i] == items[..i];
  }

  /** Drawing one more row after the texts placed before the rows and the rows drawn so far. */
  lemma DrawRowStep(drawn: seq<TextAt>, rows: seq<SimpleRow>, row: SimpleRow)
    ensures drawn + Cells(rows) + SimpleRowTexts(row.item, row.y) == drawn + Cells(rows + [row])
  {
    CellsSnoc(rows, row);
  }

  /** The whole text plan of `generatePDF`. */
  function SimplePdf(invoiceNo: string, customerName: string, items: seq<Item>): seq<TextAt> {
    SimpleHeader(invoiceNo, customerName) + Cells(SimpleRows(items))
      + [TextAt("Grand Total: " + IntToString(GrandTotal(items)), 14, 65 + 10 * |Visible(items)| + 10)]
  }

  /**
   * The j-th drawn row is the j-th row with a product, at baseline
   * 65 + 10 * j; no other row is drawn.
   */
  lemma {:induction false} SimpleRowsLayout(items: seq<Item>)
    ensures |SimpleRows(items)| == |Visible(items)|
    ensures forall j :: 0 <= j < |Visible(items)| ==> SimpleRows(items)[j] == SimpleRow(Visible(items)[j], 65 + 10 * j)
  {
    if items != [] {
      var n := |items| - 1;
      var prefix, last := items[..n], items[n];
      SimpleRowsLayout(prefix);
      var rows, visible := SimpleRows(prefix), Visible(prefix);
      if Shown(last) {
        assert SimpleRows(items) == rows + [SimpleRow(last, 65 + 10 * |visible|)];
        assert Visible(items) == visible + [last];
      } else {
        assert SimpleRows(items) == rows;
        assert Visible(items) == visible;
      }
    }
  }

  /**
   * The `items.forEach` of `generatePDF`: after the texts already placed,
   * the cells of each row with a product at a running baseline `y` that
   * starts at 65 and moves down 10 per drawn row.
   */
  method DrawRows(drawn: seq<TextAt>, items: seq<Item>) returns (texts: seq<TextAt>, y: int)
    ensures texts == drawn + Cells(SimpleRows(items))
    ensures y == 65 + 10 * |Visible(items)|
  {
    ghost var rows: seq<SimpleRow> := [];
    texts, y := drawn, 65;
    var i := 0;
    while i < |items|
      invariant 0 <= i <= |items|
      invariant rows == SimpleRows(items[..i])
      invariant texts == drawn + Cells(rows)
      invariant y == 65 + 10 * |Visible(items[..i])|
    {
      var item := items[i];
      SimpleRowsStep(items, i);
      if item.product != "" {
        var cells := [ TextAt(item.product, 14, y), TextAt(IntToString(item.quantity), 90, y),
                       TextAt(IntToString(item.price), 120, y),
                       TextAt(IntToString(ItemTotal(item.quantity, item.price)), 160, y) ];
        assert cells == SimpleRowTexts(item, y);
        DrawRowStep(drawn, rows, SimpleRow(item, y));
        texts, rows := texts + cells, rows + [SimpleRow(item, y)];
        y := y + 10;
      }
      i := i + 1;
    }
    assert items[..i] == items;
  }

  // ---------------------------------------------------------------------
  // The form
  // ---------------------------------------------------------------------

  /** The state of the form component. */
  class InvoiceFormState {
    var items: seq<Item>
    var customerName: string
    var invoiceNo: string
    var canCreateInvoice: bool

    /** The form always shows at least one row. */
    ghost predicate Valid()
      reads this
    {
      |items| >= 1
    }

    /** The initial state: one new row, no customer, a fresh number, no access until checked. */
    constructor (r: real)
      requires 0.0 <= r < 1.0
      ensures Valid()
      ensures items == [EmptyItem()] && customerName == "" && invoiceNo == GenerateInvoiceNo(r)
      ensures !canCreateInvoice
    {
      items := [EmptyItem()];
      customerName := "";
      invoiceNo := GenerateInvoiceNo(r);
      canCreateInvoice := false;
    }

    /**
     * The access check run on mount. `read` is the outcome of reading the
     * user document: `None` when the read rejects, otherwise the document
     * if it exists. Without a signed-in user the check returns early; a
     * rejected read ends it before any update (nothing catches it). In both
     * cases the flag keeps its value; otherwise the flag becomes the gate.
     */
    method CheckAccess(signedIn: bool, read: Option<Option<UserDoc>>, now: int)
      modifies this`canCreateInvoice
      ensures !signedIn || read.None? ==> canCreateInvoice == old(canCreateInvoice)
      ensures signedIn && read.Some? ==> canCreateInvoice == AccessGate(read.value, now)
    {
      if !signedIn {
        return;
      }
      match read {
        case None =>
          return;
        case Some(user) =>
          canCreateInvoice := AccessGate(user, now);
      }
    }

    /** The customer input's change handler. */
    method SetCustomerName(name: string)
      modifies this`customerName
      ensures customerName == name
    {
      customerName := name;
    }

    /** `updateItem`: only the named field of row `index` changes. */
    method UpdateItem(index: int, edit: Edit)
      requires Valid() && 0 <= index < |items|
      modifies this`items
      ensures Valid()
      ensures |items| == |old(items)|
      ensures items[index] == ApplyEdit(old(items)[index], edit)
      ensures forall j :: 0 <= j < |items| && j != index ==> items[j] == old(items)[j]
      ensures GrandTotal(items) == GrandTotal(old(items)) - RowTotal(old(items)[index]) + RowTotal(items[index])
    {
      UpdatedTotal(items, index, edit);
      items := items[index := ApplyEdit(items[index], edit)];
    }

    /** `addItem`: one new row at the end, the others unchanged and in order. */
    method AddItem()
      requires Valid()
      modifies this`items
      ensures Valid()
      ensures items == old(items) + [EmptyItem()]
      ensures GrandTotal(items) == GrandTotal(old(items))
    {
      AddItemKeepsTotal(items);
      items := items + [EmptyItem()];
    }

    /** `removeItem`: never leaves the form without a row. */
    method RemoveItem(index: int)
      requires Valid()
      modifies this`items
      ensures Valid()
      ensures items == Removed(old(items), index)
    {
      if |items| == 1 {
        return;
      }
      items := WithoutIndex(items, index);
    }

    /** `resetForm`: back to one new row, no customer, a fresh invoice number. */
    method ResetForm(r: real)
      requires 0.0 <= r < 1.0
      modifies this`items, this`customerName, this`invoiceNo
      ensures Valid()
      ensures items == [EmptyItem()] && customerName == "" && invoiceNo == GenerateInvoiceNo(r)
    {
      items := [EmptyItem()];
      customerName := "";
      invoiceNo := GenerateInvoiceNo(r);
    }

    /** `saveInvoice`: the record it writes, or the guard that stops it. */
    method SaveInvoice(signedIn: bool, writeSucceeds: bool) returns (outcome: SaveOutcome)
      ensures outcome == Save(canCreateInvoice, signedIn, invoiceNo, customerName, items, writeSucceeds)
    {
      if !canCreateInvoice {
        return NoAccess;
      }
      if !signedIn {
        return LoginRequired;
      }
      if customerName == "" || GrandTotal(items) == 0 {
        return MissingDetails;
      }
      var record := InvoiceRecord(invoiceNo, customerName, items, GrandTotal(items));
      if writeSucceeds {
        outcome := Saved(record);
      } else {
        outcome := SaveFailed(record);
      }
    }

    /** `generatePDF`: the header, the rows from `y` = 65, then the grand total 10 below `y`. */
    method GeneratePdf() returns (texts: seq<TextAt>)
      ensures texts == SimplePdf(invoiceNo, customerName, items)
    {
      texts := SimpleHeader(invoiceNo, customerName);
      var y;
      texts, y := DrawRows(texts, items);
      var total := TextAt("Grand Total: " + IntToString(GrandTotal(items)), 14, y + 10);
      assert total == TextAt("Grand Total: " + IntToString(GrandTotal(items)), 14, 65 + 10 * |Visible(items)| + 10);
      texts := texts + [total];
    }

    /** `handlePopupChoice`: draws the PDF if asked, then resets the form. */
    method HandlePopupChoice(download: bool, r: real) returns (pdf: Option<seq<TextAt>>)
      requires 0.0 <= r < 1.0
      modifies this`items, this`customerName, this`invoiceNo
      ensures pdf == if download then Some(SimplePdf(old(invoiceNo), old(customerName), old(items))) else None
      ensures Valid()
      ensures items == [EmptyItem()] && customerName == "" && invoiceNo == GenerateInvoiceNo(r)
    {
      pdf := None;
      if download {
        var texts := GeneratePdf();
        pdf := Some(texts);
      }
      ResetForm(r);
    }
  }
}
