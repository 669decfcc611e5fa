# SaaSto invoice core, modelled in Dafny

SaaSto is a small invoicing web app. Its one piece of real logic is the
invoice form, a designed PDF of the invoice, and the dashboard counters.
This project models that logic and proves properties of it:

- **Invoice form** (`app/invoice/new/page.tsx`, module `InvoiceForm`).
  - The form state is a class `InvoiceFormState`: rows, customer name, invoice number and the access flag.
  - Its methods add, remove, update and reset rows, much as the component's state setters do.
  - The trial/subscription access gate is a function of the user document and "now".
  - The save guards and the saved record are the function `Save`.
  - The share message text is the function `ShareMessage`.
  - The plain PDF drawn after a save, `GeneratePdf`, builds a list of text placements; its row loop is `DrawRows`.
- **Designed PDF** (`app/Components/PDFDesign.tsx`, module `PdfDesign`).
  - The page size and the table rows: rows without a product are skipped, and row numbers are zero-padded.
  - Each row has a divider line, and the grand-total line comes after the rows.
  - The method `CreatePdf` loops over the items with a running baseline `y`.
- **Dashboard** (`app/dashboard/page.tsx`, module `Dashboard`).
  - The total, paid and unpaid counts of the fetched invoices.
- Shared modules:
  - `LineItems`: the line item, the row total, the grand total (a `reduce`), and the non-empty-product filter.
  - `Strings`: decimal text, `padStart`, `join`, and splitting a text into lines.
  - `Drawing`: text and line placements.
  - `Wrappers`: `Option`.

Quantities, prices and timestamps are integers. The signed-in user, the user
document, the result of the store write, the clock and `Math.random()` are
parameters: `signedIn`, the outcome of reading the user document (`read`), the
outcome of reading the invoices (`fetched`), `writeSucceeds`, `now` and a real
`r` in [0, 1). A read outcome of `None` stands for a rejected read.

What the code does, and so the model, in three places where a reader might
expect otherwise:
- **Access gate.** The gate yields only a boolean
  (app/invoice/new/page.tsx:62). The code has no status label and does not
  prefer one expiry instant over the other.
- **Row numbering.** A designed-PDF row is numbered by its item's index in the
  full list. A skipped row with an empty product therefore leaves a gap: the
  numbers do not always run 01, 02, … (`PdfDesign.NumberingGapExample`).
- **Negative values.** Quantities and prices are not checked for being
  non-negative. The model allows any integer.

## Model

| member | source | states |
|---|---|---|
| `LineItems.EmptyItem` | app/invoice/new/page.tsx:22 | the row every new form, `addItem` and `resetForm` start from: no product, quantity 1, price 0, so the filter drops it and it adds 0 to the grand total |
| `LineItems.ItemTotal` | app/invoice/new/page.tsx:83 | `itemTotal(q, p)` is q × p (defined once and shared by the form and the PDF design, PDFDesign.tsx:12) |
| `LineItems.GrandTotal` | app/invoice/new/page.tsx:84-87 | the left-to-right `reduce` from 0 adding quantity × price of every row, shown or not (the same reduce as PDFDesign.tsx:13) |
| `LineItems.Visible` | app/invoice/new/page.tsx:130 | `filter((i) => i.product)`: the rows with a non-empty product name, in list order (the same test skips rows at PDFDesign.tsx:95) |
| `LineItems.PositionsSpec` | app/invoice/new/page.tsx:130 | the rows kept by the product filter are exactly the rows with a non-empty product, in list order, at strictly increasing indices (both directions of "kept iff non-empty") |
| `LineItems.VisibleAreShown` | app/Components/PDFDesign.tsx:95 | every row that survives the filter has a non-empty product |
| `LineItems.GrandTotalIncludesHidden` | app/invoice/new/page.tsx:84-87 | the grand total is the total of the shown rows plus the total of the rows with an empty product: skipped rows still count |
| `LineItems.GrandTotalAt` | app/Components/PDFDesign.tsx:13 | each row contributes quantity × price exactly once to the grand total |
| `LineItems.WithoutIndex` | app/invoice/new/page.tsx:80 | filtering on the index drops exactly the row at that index and keeps the others in order; an out-of-range index drops nothing |
| `Strings.IntToString` | app/invoice/new/page.tsx:113-115 | `String(i)` of an integer: '-' and the decimal digits of −i for a negative i, the decimal digits of i otherwise |
| `Strings.PadStart` | app/Components/PDFDesign.tsx:97 | `padStart(width, fill)` with a one-character fill: the text unchanged when already `width` long, otherwise fill characters added in front until it is |
| `Strings.Join` | app/invoice/new/page.tsx:138 | `join(sep)`: the empty text for no lines, otherwise the lines with `sep` between neighbours and none at the ends |
| `Strings.Lines` | app/invoice/new/page.tsx:125-141 | `split("\n")`, under which the message is read line by line: the maximal newline-free pieces, always at least one |
| `Strings.NatToStringValue` | app/Components/PDFDesign.tsx:97 | `String(n)` of a natural number is a non-empty digit string with no leading zero, one digit exactly when n < 10, and it reads back as n |
| `Strings.IntToStringValue` | app/invoice/new/page.tsx:113-115 | `String(i)` is the digits of `i`, preceded by '-' when `i` is negative |
| `Strings.PadStartSpec` | app/Components/PDFDesign.tsx:97 | `padStart` gives length max(length, width), ends with the original text and is filled with the pad character in front |
| `Strings.PadWithZerosValue` | app/Components/PDFDesign.tsx:97 | padding with '0' keeps a digit string's value |
| `Strings.LinesOfJoin` | app/invoice/new/page.tsx:138 | newline-free lines joined with "\n" split back into the same lines |
| `Strings.LinesSplitAtNewline` | app/invoice/new/page.tsx:125-141 | a newline splits a text into the lines before it and the lines after it |
| `InvoiceForm.InvoiceSerial` | app/invoice/new/page.tsx:34 | `Math.floor(1000 + r * 9000)` lies in 1000..9999 for every `r` in [0, 1) |
| `InvoiceForm.InvoiceSerialReachesEvery` | app/invoice/new/page.tsx:34 | every serial in 1000..9999 is produced by some random value |
| `InvoiceForm.GenerateInvoiceNo` | app/invoice/new/page.tsx:33-35 | the invoice number is "INV-" followed by digits reading as the serial, which is in 1000..9999 |
| `InvoiceForm.AccessGate` | app/invoice/new/page.tsx:46-62 | no user document denies access; otherwise access holds iff the trial end or the subscription end is present and strictly after now; both absent denies |
| `InvoiceForm.AccessUntilLaterEnd` | app/invoice/new/page.tsx:55-62 | equivalently, access holds iff now is strictly before the later of the expiry instants that are present |
| `InvoiceForm.AccessGateEarlier` | app/invoice/new/page.tsx:58-60 | access granted at some instant is granted at every earlier instant |
| `InvoiceForm.ApplyEdit` | app/invoice/new/page.tsx:72 | the spread update sets the named field to the value and keeps the other two fields |
| `InvoiceForm.Removed` | app/invoice/new/page.tsx:78-81 | removal is a no-op on a single row; otherwise it drops exactly the row at the index; an out-of-range index changes nothing; the list never becomes empty |
| `InvoiceForm.AddItemKeepsTotal` | app/invoice/new/page.tsx:76 | appending the new row (quantity 1, price 0) leaves the grand total unchanged |
| `InvoiceForm.RemovedTotal` | app/invoice/new/page.tsx:78-87 | removing a row lowers the grand total by exactly that row's total, and a no-op removal keeps it |
| `InvoiceForm.UpdatedTotal` | app/invoice/new/page.tsx:70-74 | an edit changes the grand total by the change in the edited row's total |
| `InvoiceForm.Save` | app/invoice/new/page.tsx:149-180 | the guards in order: no access stops silently, no user asks to log in, an empty name or a zero total asks for details. Otherwise the record carries the number, the name, the items verbatim and total = grand total, and it is reported saved or failed by the write result |
| `InvoiceForm.DefaultRowsAreNotSaved` | app/invoice/new/page.tsx:158 | a list made only of untouched new rows has total 0, so the save guard never writes it |
| `InvoiceForm.ShareLine` | app/invoice/new/page.tsx:133-136 | one share line: the product, " \| ", the quantity, " x ", the price, " = " and `itemTotal` of the row |
| `InvoiceForm.ShareLines` | app/invoice/new/page.tsx:129-137 | the share line of each row the product filter keeps, in list order |
| `InvoiceForm.ShareMessage` | app/invoice/new/page.tsx:125-141 | the message template: a leading newline, the invoice and customer lines, a blank line, the share lines joined with "\n", a blank line, "Total: " with the grand total over all rows, and the closing newline and indentation |
| `InvoiceForm.ShareLinesInOrder` | app/invoice/new/page.tsx:129-138 | one share line `product \| q x p = q*p` per row with a non-empty product, in list order |
| `InvoiceForm.MessageLines` | app/invoice/new/page.tsx:125-141 | the message's lines are: blank, "Invoice …", "Customer: …", blank, then the body's lines, then blank, "Total: …" and the closing indentation |
| `InvoiceForm.ShareMessageLines` | app/invoice/new/page.tsx:124-141 | read line by line, the message has exactly one line per row with a product, in order (one empty line if none), and a `Total:` line with the grand total over all rows |
| `InvoiceForm.EmptyProductShareExample` | app/invoice/new/page.tsx:129-140 | a single row with an empty product (3 × 10) gives no item line but "Total: 30" |
| `InvoiceForm.SimpleHeader` | app/invoice/new/page.tsx:99-107 | the fixed texts of the plain PDF: "INVOICE" at (14, 20), the invoice number at y 30, the customer at y 38 ("N/A" for an empty name) and the four column headings at y 55 |
| `InvoiceForm.SimplePdf` | app/invoice/new/page.tsx:96-119 | the whole plain PDF: the header, then the four cells of each row with a product at y = 65 + 10·j for the j-th drawn row, then "Grand Total: " with the grand total at 65 + 10·k + 10 for k drawn rows |
| `InvoiceForm.SimpleRowsLayout` | app/invoice/new/page.tsx:109-117 | the generated PDF draws exactly the rows with a product, in order; drawn row j (0-based) is the j-th such row at y = 65 + 10·j |
| `InvoiceForm.InvoiceFormState.constructor` | app/invoice/new/page.tsx:25-31 | the form starts with one new row, no customer name, a generated number and access not yet granted |
| `InvoiceForm.InvoiceFormState.CheckAccess` | app/invoice/new/page.tsx:38-67 | with no signed-in user, or when reading the user document rejects, the flag keeps its value; otherwise it becomes the access gate's verdict on the document read |
| `InvoiceForm.InvoiceFormState.SetCustomerName` | app/invoice/new/page.tsx:217 | the customer input replaces the name |
| `InvoiceForm.InvoiceFormState.UpdateItem` | app/invoice/new/page.tsx:70-74 | only the named field of row `index` changes; the length and every other row stay the same; the total moves by that row's change |
| `InvoiceForm.InvoiceFormState.AddItem` | app/invoice/new/page.tsx:76 | exactly one new row is appended and the existing rows are unchanged and in order; the total is unchanged |
| `InvoiceForm.InvoiceFormState.RemoveItem` | app/invoice/new/page.tsx:78-81 | the rows become `Removed(old rows, index)`, so the form keeps at least one row |
| `InvoiceForm.InvoiceFormState.ResetForm` | app/invoice/new/page.tsx:89-93 | the rows become a single new row, the name is cleared and a fresh invoice number is generated |
| `InvoiceForm.InvoiceFormState.SaveInvoice` | app/invoice/new/page.tsx:149-180 | the outcome is `Save` of the current state, the sign-in and the write result |
| `InvoiceForm.DrawRows` | app/invoice/new/page.tsx:109-117 | after the texts already placed, the four cells of each row with a product, in item order, at a running y that starts at 65 and steps by 10 per drawn row; rows without a product add nothing; the final y is 65 + 10·k for k drawn rows |
| `InvoiceForm.InvoiceFormState.GeneratePdf` | app/invoice/new/page.tsx:96-121 | the loop places the header, then the cells of each row with a product at a running y from 65 in steps of 10, then "Grand Total" at y + 10, which is 65 + 10·k + 10 for k drawn rows, 20 below the last drawn row's baseline when k ≥ 1 |
| `InvoiceForm.InvoiceFormState.HandlePopupChoice` | app/invoice/new/page.tsx:182-186 | the PDF of the state before the reset is produced only when asked, and the form is reset either way |
| `PdfDesign.PageHeight` | app/Components/PDFDesign.tsx:17-22 | the page height is the larger of 370 + 30·n + 80 and 600, so it is at least 600 and never clips the rows of n items |
| `PdfDesign.PageHeightMonotone` | app/Components/PDFDesign.tsx:20-22 | more items never make the page shorter |
| `PdfDesign.RowLabel` | app/Components/PDFDesign.tsx:97 | `String(index + 1).padStart(2, "0")`, the text of the ITEM column |
| `PdfDesign.RowLabelSpec` | app/Components/PDFDesign.tsx:97 | the row number is at least two digits and reads as index + 1; below 10 it is '0' then a digit, from 10 on it is the plain decimal |
| `PdfDesign.SingleDigitLabel` | app/Components/PDFDesign.tsx:97 | for index + 1 below 10 the number is exactly "0" followed by that digit |
| `PdfDesign.MakeRow` | app/Components/PDFDesign.tsx:97-109 | one table row at baseline y: the number at x 60, the product at 140, the price at 360, the quantity at 450, `itemTotal` at 530, and a divider from x 40 to 555 at y + 10 |
| `PdfDesign.PlannedRows` | app/Components/PDFDesign.tsx:94-111 | the forEach over all items: a row without a product is skipped and takes no space; every other row is `MakeRow` of its full-list index, placed one row height below the previous drawn row |
| `PdfDesign.PlannedRowsLayout` | app/Components/PDFDesign.tsx:90-112 | row j is the j-th item with a product, numbered by its index in the full list, with baseline 370 + 30·j and its divider 10 below; there are no more rows than items |
| `PdfDesign.RowNumbering` | app/Components/PDFDesign.tsx:94-97 | each row's number reads as the full-list index of its item plus one, and that item has a product |
| `PdfDesign.CreatePdf` | app/Components/PDFDesign.tsx:15-126 | the page is 595 wide and `PageHeight(n)` tall; the rows are the planned rows; "TOTAL AMOUNT:" at x 400 and the grand total at x 545 sit on y = 370 + 30·k + 25, at least 55 above the page bottom |
| `PdfDesign.TotalLineInsidePage` | app/Components/PDFDesign.tsx:115-124 | for k drawn rows out of n items, 395 + 30·k + 55 ≤ page height, so the total lies strictly inside the page, below every row divider |
| `PdfDesign.RowsWithinWidth` | app/Components/PDFDesign.tsx:97-109 | each divider runs at y + 10 from x = 40 to x = 555 (the page width − 40); the number is anchored at x ≥ 40 and the total at x ≤ 555 |
| `PdfDesign.RowTotals` | app/Components/PDFDesign.tsx:105 | each row's total column is the quantity × price of its own item |
| `PdfDesign.TwoRowsExample` | app/Components/PDFDesign.tsx:94-97 | two named rows ("Widget" 2 × 50, "Gadget" 1 × 100) are numbered "01" and "02", and the grand total is 200 |
| `PdfDesign.EmptyProductExample` | app/Components/PDFDesign.tsx:95 | a single row with an empty product (3 × 10) draws no row but counts 30 in the grand total |
| `PdfDesign.NumberingGapExample` | app/Components/PDFDesign.tsx:97 | after a skipped empty first row, the only drawn row is numbered "02" |
| `Dashboard.PaidInvoices` | app/dashboard/page.tsx:39 | `filter((i) => i.paid)`: the fetched invoices whose `paid` is present and true, in order |
| `Dashboard.UnpaidInvoices` | app/dashboard/page.tsx:40 | `filter((i) => !i.paid)`: the fetched invoices whose `paid` is absent or false, in order |
| `Dashboard.PaidUnpaidPartition` | app/dashboard/page.tsx:38-40 | as multisets, the paid and the unpaid invoices together are the fetched list, so paid + unpaid = total |
| `Dashboard.PaidInvoicesSpec` | app/dashboard/page.tsx:39-40 | the paid filter keeps exactly the invoices with `paid` true; the unpaid one keeps those with `paid` false or absent |
| `Dashboard.FetchInvoices` | app/dashboard/page.tsx:22-41 | without a signed-in user, or when reading the invoices rejects, all three counters stay 0; otherwise total = number fetched, paid and unpaid are the filter counts, and paid + unpaid = total |
| `Dashboard.AllPaid` | app/dashboard/page.tsx:39-40 | when every fetched invoice is paid, unpaid is 0 and paid equals total |

## Left out

- Firebase is not modelled: `auth.currentUser`, `getDoc`, `addDoc`, `getDocs`, `serverTimestamp` and `createdAt` are foreign services. The signed-in user, the user document, the fetched invoices and whether the write succeeds are parameters.
- The jsPDF primitives are a foreign library and are not modelled: fonts, colours, font sizes, `doc.save` and its file name.
- Text alignment is not modelled: a `TextAt` records only its anchor point. The designed PDF's total column and grand-total value are right-aligned at their x, and the model does not bound where any text ends.
- `PdfDesign.CreatePdf`: the plan holds the table rows and the total line only. The fixed drawing calls are not in it: the ellipses of the top and bottom waves, the company name, the info bar with the date, the customer block and the table header.
- The clock and `toLocaleDateString` are not modelled: "now" is an integer parameter of the access gate, and the PDF date is left out.
- `InvoiceForm.InvoiceSerial`: `r` is a real, not a double. The rounding of `1000 + r * 9000` in floating point is not modelled.
- Quantities, prices and totals are unbounded, exact integers in the model, and `String` and `toFixed(0)` are read as their plain decimal text. In the source they are IEEE doubles, so the two agree only while every product and sum stays below 2^53 in magnitude and every printed number below 10^21. Past 2^53 the products and the `reduce` round; 1 × 2^60, 1 × 1 and 1 × −2^60 total 0 there, so the save guard refuses where the model's total is 1. From 10^21 on, `String` and `toFixed(0)` print exponent form, e.g. "1e+22". `Number(...)` of an input, which may be fractional or NaN, and `toFixed(0)` rounding of non-integers are not modelled either.
- `InvoiceForm.InvoiceFormState.UpdateItem` requires an index inside the list, because the form only calls it from `items.map`. JavaScript's behaviour for an index outside the list is not modelled: sparse holes, or a property that is not an element.
- `customerName.toUpperCase()` is left out, because Unicode case mapping is not modelled.
- `encodeURIComponent` and `window.open` in the share action are browser calls. The model stops at the message text.
- React concerns are not modelled: hook lifecycle, the `saving`, `popup` and `checkingAccess` flags, the disabled state of the save button, alerts as UI, and all markup.
- The login, register and invoice-list pages, the marketing pages and the other components are display or authentication glue and are not modelled.

