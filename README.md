# Invoice generator: line-item editor and HTML renderer

The invoice generator is a web form for drafting invoices, plus a small
server. The server stores the invoices and turns them into PDF documents and
e-mails. This project models the two deterministic pieces of that system.

- **The line-item editor** of the new-invoice page (`LineItems`, `InvoiceEditor`).
  - The page keeps an ordered list of item rows, each with an id, a
    description, a quantity and a rate. It also keeps a tax rate and three
    derived amounts: subtotal, tax amount and total.
  - Handlers append a blank row, remove the rows carrying an id, update one
    field of the rows carrying an id, and change the tax rate. Quantity, rate
    and tax rate are read with `parseFloat(value) || 0`.
  - After every change an effect recomputes the three amounts together.
  - `InvoiceEditor.Editor` is a class with those five fields. Each handler is
    a method that replaces the list or the tax rate and then runs
    `RecomputeTotals`.
  - Every method re-establishes `Valid()`, which says:
    - the subtotal is the sum of `quantity * rate` over the rows;
    - the tax amount is `subtotal * taxRate / 100`;
    - the total is their sum.
  - The list edits are pure functions in `LineItems`. Their lemmas state the
    frame properties: which rows change, which are kept, and in what order.
- **The server-side renderer** `getInvoiceHtml` (`InvoiceHtml`). It is one
  pure function from an invoice record to an HTML page.
  - The page is modelled as a sequence of pieces joined with no separator:
    fixed template text alternating with the record's fields.
  - The item table is one row per item, in item order.
  - A missing company shows as nothing.
  - Line feeds in the address become `<br>` tags.
  - The totals block shows the record's own subtotal, tax rate, tax amount
    and total, unchanged. The server stores the totals the client sends
    without recomputing them, so no lemma about the page assumes that the
    totals agree with the items.
  - The lemmas are stated for an arbitrary `Template`.
    `InvoiceHtml.GetInvoiceHtml` instantiates them with the exact template
    text of the source, `InvoiceHtml.SourceTemplate`.

Library calls become parameters:
- `parseFloat` is a function `string -> Parsed` (a number or NaN).
- `Date.now()` is the `now: int` handed to the constructor and to `AddItem`.
- `Intl.NumberFormat(...).format`, number-to-string conversion and
  `toLocaleDateString` are the three fields of `Formatters`.

Three facts about the code that a reader might expect otherwise:
- The renderer never recomputes totals, not even for an invoice with no
  items. It shows whatever totals the record holds
  (`DisagreeingTotalsRendered`).
- Notes and terms are stored with the invoice but are not part of the
  rendered page (`UnshownFields`).
- Rows 1 x 250.50 and 3 x 99.99 give a subtotal of exactly 550.47
  (`TwoRowExample`).

## Model

| member | source | states |
|---|---|---|
| LineItems.OrZero | frontend/invoice-generator/app/page.tsx:181 | `parseFloat(v) \|\| 0`: a value that parsed is kept (0 stays 0), NaN becomes 0 |
| LineItems.EditFor | frontend/invoice-generator/app/page.tsx:181 | the update handler writes the named field; quantity and rate get the parsed number or 0 on NaN; the description is stored verbatim |
| LineItems.Apply | frontend/invoice-generator/app/page.tsx:182 | `{ ...item, [field]: value }` changes only the targeted field; id and the other fields are kept |
| LineItems.NewItem | frontend/invoice-generator/app/page.tsx:154 | the blank row `{id: Date.now(), description: '', quantity: 1, rate: 0}` carries the given id, an empty description and a zero line amount |
| LineItems.LineAmount | frontend/invoice-generator/app/page.tsx:159 | `quantity * rate`: zero when either factor is zero, non-negative when both are |
| LineItems.Subtotal | frontend/invoice-generator/app/page.tsx:159 | the reduce starting at 0: an empty list gives 0; non-negative line amounts give a non-negative subtotal |
| LineItems.ComputeTotals | frontend/invoice-generator/app/page.tsx:158-166 | the three amounts satisfy subtotal = sum of quantity*rate, taxAmount = subtotal*taxRate/100, total = subtotal + taxAmount; no rows gives all zeros |
| LineItems.BlankRowTotals | frontend/invoice-generator/app/page.tsx:154-161 | the single blank row `{quantity: 1, rate: 0}` gives subtotal, tax and total 0 for any tax rate |
| LineItems.SubtotalConcat | frontend/invoice-generator/app/page.tsx:159 | the subtotal of two lists joined is the sum of their subtotals |
| LineItems.SubtotalPermutation | frontend/invoice-generator/app/page.tsx:159 | reordering the rows does not change the subtotal |
| LineItems.WithoutId | frontend/invoice-generator/app/page.tsx:175 | the filter keeps exactly the rows whose id differs from the given id, and never grows the list |
| LineItems.WithId | frontend/invoice-generator/app/page.tsx:175 | the rows the filter drops are exactly those carrying the id |
| LineItems.WithoutIdConcat | frontend/invoice-generator/app/page.tsx:175 | the filter distributes over concatenation, so the kept rows stay in their relative order |
| LineItems.WithoutAbsentId | frontend/invoice-generator/app/page.tsx:175 | removing an id no row carries leaves the list unchanged |
| LineItems.SubtotalAfterRemoval | frontend/invoice-generator/app/page.tsx:174-176 | each row is either kept or dropped; the new subtotal is the old one minus the dropped rows' amounts |
| LineItems.Updated | frontend/invoice-generator/app/page.tsx:178-185 | the map keeps the length and every id; rows with another id are unchanged; rows with the id get exactly the edit |
| LineItems.UpdatedConcat | frontend/invoice-generator/app/page.tsx:179-183 | the update distributes over concatenation |
| LineItems.UpdatedIdempotent | frontend/invoice-generator/app/page.tsx:178-185 | applying the same update twice gives the same list as applying it once |
| LineItems.DescriptionEditKeepsSubtotal | frontend/invoice-generator/app/page.tsx:178-185 | editing a description never changes the subtotal |
| LineItems.SingleRowExample | frontend/invoice-generator/app/page.tsx:158-166 | 2 x 500 at 10% gives 1000 / 100 / 1100 |
| LineItems.TwoRowExample | frontend/invoice-generator/app/page.tsx:158-166 | 1 x 250.50 plus 3 x 99.99 at 0% gives 550.47 / 0 / 550.47 |
| InvoiceEditor.Editor.constructor | frontend/invoice-generator/app/page.tsx:129-166 | after mount the list is one blank row stamped with the clock, the tax rate is 10, and all three amounts are 0 and consistent |
| InvoiceEditor.Editor.RecomputeTotals | frontend/invoice-generator/app/page.tsx:158-166 | writes all three amounts in one step from the items and tax rate, and changes nothing else |
| InvoiceEditor.Editor.AddItem | frontend/invoice-generator/app/page.tsx:170-172 | appends exactly one blank row at the end, keeps the existing rows and the tax rate, and leaves the subtotal as it was; amounts consistent |
| InvoiceEditor.Editor.RemoveItem | frontend/invoice-generator/app/page.tsx:174-176 | the list becomes the filter result; the subtotal drops by exactly the removed rows' amounts; tax rate kept; amounts consistent |
| InvoiceEditor.Editor.UpdateItem | frontend/invoice-generator/app/page.tsx:178-185 | the list becomes the field-wise update with coercion; a description edit keeps the subtotal; tax rate kept; amounts consistent |
| InvoiceEditor.Editor.SetTaxRate | frontend/invoice-generator/app/page.tsx:388 | the tax rate becomes `parseFloat(value) \|\| 0`; unparsable input gives rate 0, tax 0 and total = subtotal; items kept; amounts consistent |
| InvoiceHtml.Concat | backend/utils/generateInvoiceHtml.ts:17 | `join('')`: no pieces give the empty text, one piece gives itself |
| InvoiceHtml.ConcatAppend | backend/utils/generateInvoiceHtml.ts:17 | joining distributes over concatenation of the piece lists |
| InvoiceHtml.SourceTemplate | backend/utils/generateInvoiceHtml.ts:10-95 | the fixed text of the row template and of the page template, character for character, cut at each interpolation |
| InvoiceHtml.ShownCompany | backend/utils/generateInvoiceHtml.ts:62 | a missing company renders as the empty text; a present one as itself |
| InvoiceHtml.ReplaceNewlines | backend/utils/generateInvoiceHtml.ts:63 | the result has no line feed; its length is the original plus 3 per line feed; text without line feeds is unchanged; a single line feed becomes `<br>` and any other single character is kept |
| InvoiceHtml.ReplaceNewlinesConcat | backend/utils/generateInvoiceHtml.ts:63 | the replacement distributes over concatenation, so with the one-character case every character other than a line feed is kept in place |
| InvoiceHtml.NewlinesRoundTrip | backend/utils/generateInvoiceHtml.ts:63 | for an address without `<`, reading every `<br>` back as a line feed restores the original address |
| InvoiceHtml.ShownAddress | backend/utils/generateInvoiceHtml.ts:63 | a missing address renders as the empty text; a present one as its line-feed replacement, which has no line feed and grows by 3 per line feed |
| InvoiceHtml.RowPieces | backend/utils/generateInvoiceHtml.ts:10-16 | nine pieces framed by the template's row opening and row close, with the cell separator between each two of the four cells |
| InvoiceHtml.Row | backend/utils/generateInvoiceHtml.ts:10-16 | a row is the opening and the description cell, then the quantity cell, then the formatted rate and the formatted `quantity * rate` as the last two cells and the row close, in that order and nothing else |
| InvoiceHtml.Rows | backend/utils/generateInvoiceHtml.ts:10 | one row per item, row i being item i's row |
| InvoiceHtml.ItemsHtml | backend/utils/generateInvoiceHtml.ts:10-17 | no items give the empty fragment |
| InvoiceHtml.ItemsHtmlAppend | backend/utils/generateInvoiceHtml.ts:10-17 | the fragment of two item lists joined is the two fragments in order |
| InvoiceHtml.RowAt | backend/utils/generateInvoiceHtml.ts:10-17 | item i's row sits after the rows of the items before it and before the rows of the items after it |
| InvoiceHtml.Pieces | backend/utils/generateInvoiceHtml.ts:19-95 | the page is 32 pieces, fixed text interleaved with the record's fields in template order |
| InvoiceHtml.Render | backend/utils/generateInvoiceHtml.ts:19-95 | the page starts with the document opening (doctype and head) and ends with the footer and closing tags |
| InvoiceHtml.GetInvoiceHtml | backend/utils/generateInvoiceHtml.ts:3-96 | the source page contains the invoice number in the title and the meta block, the client block, exactly the item rows inside `<tbody>`, and the given totals |
| InvoiceHtml.NumberInTitle | backend/utils/generateInvoiceHtml.ts:24 | the invoice number sits inside `<title>` |
| InvoiceHtml.NumberInMeta | backend/utils/generateInvoiceHtml.ts:66 | the invoice number follows the `Invoice No:` label |
| InvoiceHtml.ClientBlock | backend/utils/generateInvoiceHtml.ts:59-64 | the bill-to block is the name, the shown company and the shown address, separated by `<br>` |
| InvoiceHtml.MissingClientDetails | backend/utils/generateInvoiceHtml.ts:61-63 | without company and address both slots of the bill-to block are empty |
| InvoiceHtml.ItemsInTableBody | backend/utils/generateInvoiceHtml.ts:80-82 | `<tbody>` holds exactly the joined rows; with no items it holds nothing |
| InvoiceHtml.TotalsShownAsGiven | backend/utils/generateInvoiceHtml.ts:84-88 | the page shows the record's subtotal, tax rate, tax amount and total, formatted, with nothing recomputed |
| InvoiceHtml.UnshownFields | backend/utils/generateInvoiceHtml.ts:19-95 | email, payment terms, status, notes and terms do not affect the page |
| InvoiceHtml.DisagreeingTotalsRendered | backend/routes/invoices.ts:13-15 | a record whose totals contradict its items (no items, subtotal 5) is rendered anyway and shows subtotal 5 |

## Left out

- Floating point: amounts are exact reals. IEEE-754 rounding, `toFixed(2)`, Infinity and -0 are not modelled, so the worked examples hold exactly and not up to rounding.
- `parseFloat` itself: its grammar is taken as a parameter. `OrZero` covers the `|| 0` around it, including that 0 and NaN are both falsy.
- Clock and calendar: `Date.now()` row ids and the default issue and due dates are parameters or opaque strings.
- Formatting: the output of `Intl.NumberFormat`, number-to-string and `toLocaleDateString` is left uninterpreted.
- Field setters: the page's other fields (client, dates, notes, terms) and their setters hold plain values and derive nothing.
- Updating the `id` field: `handleUpdateItem` accepts `id` as a field name, but the page never passes it. `Field` offers only description, quantity and rate.
- Network handlers: saving a draft, downloading the PDF and e-mailing the invoice are network I/O.
- Server wiring: the Express routes, Puppeteer, Nodemailer, the Mongoose schema and the server bootstrap are library and I/O code. The only part kept is the fact that totals are stored unchecked.
- Preview: the preview modal's template in the page is JSX markup. It shows the same fields.
- Input shape: the record is taken as well-typed. Missing fields in the JSON body are outside the model. A missing string field would render as `undefined`. Missing `items` would make the row mapping throw. A missing amount would be formatted as NaN. A missing date would show as "Invalid Date".
- HTML escaping: descriptions and names are spliced into the page as they are. Nothing escapes them, and the model does not either.
- Effect timing: each handler and the recompute effect are modelled as one atomic step. In the page, one render shows the new items next to the old totals before the effect runs. `InvoiceEditor.Editor` does not capture that intermediate state.
- Sign checks: nothing enforces non-negative quantities, rates or tax rates. The model does not assume it.
