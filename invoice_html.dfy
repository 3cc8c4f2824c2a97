/**
  The server-side invoice renderer: one pure function from the invoice data
  to an HTML document. The document is a fixed template with the invoice's
  fields spliced in; the item table is one row per item, joined with no
  separator. Currency, plain-number and date formatting are library calls
  whose output depends on the locale; they are passed in as `Formatters`.
 */
module InvoiceHtml {

  datatype Option<T> = None | Some(value: T)

  /** One item as the invoice record stores it. */
  datatype LineItem = LineItem(description: string, quantity: real, rate: real)

  /** The invoice record handed to the renderer. Dates are kept as the value
      the record holds; nothing here assumes the three totals agree with the
      items, since the record's totals come from the client unchecked. */
  datatype InvoiceData = InvoiceData(
    invoiceNumber: string,
    clientName: string,
    clientEmail: string,
    clientCompany: Option<string>,
    clientAddress: Option<string>,
    issueDate: string,
    dueDate: string,
    paymentTerms: Option<string>,
    status: string,
    items: seq<LineItem>,
    notes: Option<string>,
    terms: Option<string>,
    taxRate: real,
    subtotal: real,
    taxAmount: real,
    total: real)

  /** The locale-dependent formatting the template calls:
      `Intl.NumberFormat('en-IN', {style: 'currency', currency: 'INR'}).format`,
      JavaScript's number-to-string conversion inside a template literal, and
      `new Date(x).toLocaleDateString()`. */
  datatype Formatters = Formatters(currency: real -> string, number: real -> string, date: string -> string)

  /** The fixed text of the template, in the order it appears in the page;
      `rowOpen`, `cellBreak` and `rowClose` frame the cells of an item row. */
  datatype Template = Template(
    documentOpening: string,
    titleOpen: string,
    titleClose: string,
    styleAndHeader: string,
    billToHeading: string,
    lineBreak: string,
    billToClose: string,
    invoiceNoLabel: string,
    issueDateLabel: string,
    dueDateLabel: string,
    tableHead: string,
    tbodyOpen: string,
    tbodyClose: string,
    totalsOpen: string,
    subtotalLabel: string,
    taxLabelOpen: string,
    taxLabelClose: string,
    grandTotalLabel: string,
    documentClosing: string,
    rowOpen: string,
    cellBreak: string,
    rowClose: string)

  /** The template text `getInvoiceHtml` fills in. */
  function SourceTemplate(): Template
  {
    Template(
      documentOpening := "\n    <!DOCTYPE html>\n    <html>\n    <head>\n        <meta charset=\"utf-8\" />\n        ",
      titleOpen := "<title>Invoice #",
      titleClose := "</title>",
      styleAndHeader := @"
        <style>
            body { font-family: 'Helvetica Neue', 'Helvetica', Helvetica, Arial, sans-serif; color: #555; }
            .invoice-box { max-width: 800px; margin: auto; padding: 30px; border: 1px solid #eee; box-shadow: 0 0 10px rgba(0, 0, 0, 0.15); font-size: 16px; line-height: 24px; }
            .invoice-box table { width: 100%; line-height: inherit; text-align: left; border-collapse: collapse; }
            .invoice-box table td { padding: 8px 0; vertical-align: top; }
            .invoice-box table tr.top table td { padding-bottom: 20px; }
            .invoice-box .header { display: flex; justify-content: space-between; align-items: flex-start; margin-bottom: 40px; }
            .invoice-box .header .logo { font-size: 28px; font-weight: bold; color: #333; }
            .invoice-box .header .invoice-title { text-align: right; }
            .invoice-box .header .invoice-title h1 { margin: 0; font-size: 45px; color: #0d9488; font-weight: 300; } /* Teal Accent Color */
            .invoice-box .details { display: flex; justify-content: space-between; margin-bottom: 40px; }
            .invoice-box .details .bill-to h2 { margin: 0 0 5px 0; font-size: 16px; font-weight: bold; }
            .invoice-box .invoice-meta { text-align: right; }
            .invoice-box .invoice-meta div { margin-bottom: 5px; }
            .invoice-box .invoice-meta span { display: inline-block; min-width: 90px; font-weight: bold; text-align: left; }
            .invoice-box table.items-table { width: 100%; }
            .invoice-box table.items-table th { background: #f7f7f7; border-bottom: 2px solid #ddd; font-weight: bold; padding: 10px 0; text-align: left; }
            .invoice-box table.items-table th:last-child, .invoice-box table.items-table td:last-child { text-align: right; }
            .invoice-box table.items-table td { border-bottom: 1px solid #eee; padding: 10px 0; }
            .invoice-box .totals { text-align: right; margin-top: 20px; }
            .invoice-box .totals div { margin-bottom: 5px; }
            .invoice-box .totals .grand-total { margin-top: 10px; padding: 10px; background-color: #0d9488; color: white; font-size: 1.2em; font-weight: bold; } /* Teal Accent Color */
            .invoice-box .footer { margin-top: 40px; text-align: center; font-size: 12px; color: #777; }
        </style>
    </head>
    <body>
        <div class=""invoice-box"">
            <div class=""header"">
                <div class=""logo"">GUVI HCL</div>
                <div class=""invoice-title"">
                    <h1>INVOICE</h1>
                </div>
            </div>
            <div class=""details"">
                <div class=""bill-to"">
                    ",
      billToHeading := "<h2>Bill To:</h2>\n                    ",
      lineBreak := "<br>\n                    ",
      billToClose := "\n                </div>\n                <div class=\"invoice-meta\">\n                    ",
      invoiceNoLabel := "<div><span>Invoice No:</span> ",
      issueDateLabel := "</div>\n                    <div><span>Issue Date:</span> ",
      dueDateLabel := "</div>\n                    <div><span>Due Date:</span> ",
      tableHead := @"</div>
                </div>
            </div>
            <table class=""items-table"">
                <thead>
                    <tr>
                        <th>Description</th>
                        <th>Qty</th>
                        <th>Unit Price</th>
                        <th>Total</th>
                    </tr>
                </thead>
                ",
      tbodyOpen := "<tbody>\n                    ",
      tbodyClose := "\n                </tbody>",
      totalsOpen := "\n            </table>\n            <div class=\"totals\">\n                ",
      subtotalLabel := "<div><span>Subtotal:</span> ",
      taxLabelOpen := "</div>\n                <div><span>Tax (",
      taxLabelClose := "%):</span> ",
      grandTotalLabel := "</div>\n                <div class=\"grand-total\">Grand Total: ",
      documentClosing := "</div>\n            </div>\n            <div class=\"footer\">\n                Thank you for your business!\n            </div>\n        </div>\n    </body>\n    </html>\n  ",
      rowOpen := "\n    <tr class=\"item\">\n        <td>",
      cellBreak := "</td>\n        <td>",
      rowClose := "</td>\n    </tr>\n  ")
  }

  // ---------------------------------------------------------------------------
  // Text helpers

  /** `pieces.join('')`. */
  function Concat(pieces: seq<string>): (r: string)
    ensures pieces == [] ==> r == ""
    ensures |pieces| == 1 ==> r == pieces[0]
  {
    if pieces == [] then "" else pieces[0] + Concat(pieces[1..])
  }

  /** Joining distributes over concatenation of the piece lists. */
  lemma {:induction false} ConcatAppend(a: seq<string>, b: seq<string>)
    ensures Concat(a + b) == Concat(a) + Concat(b)
    decreases |a|
  {
    if a == [] {
      assert a + b == b;
    } else {
      assert (a + b)[0] == a[0];
      assert (a + b)[1..] == a[1..] + b;
      ConcatAppend(a[1..], b);
    }
  }

  /** `t` sits in `s` starting at position `k`. */
  ghost predicate At(t: string, s: string, k: int)
  {
    0 <= k <= |s| - |t| && s[k..k + |t|] == t
  }

  /** `t` appears in `s` as a contiguous piece. */
  ghost predicate Occurs(t: string, s: string)
  {
    exists k :: At(t, s, k)
  }

  /** The joined text starts with the first piece and ends with the last. */
  lemma ConcatEnds(pieces: seq<string>)
    requires |pieces| >= 2
    ensures |Concat(pieces)| >= |pieces[0]| + |pieces[|pieces| - 1]|
    ensures Concat(pieces)[..|pieces[0]|] == pieces[0]
    ensures Concat(pieces)[|Concat(pieces)| - |pieces[|pieces| - 1]|..] == pieces[|pieces| - 1]
  {
    var n := |pieces| - 1;
    ConcatSplit(pieces, n);
    ConcatSplit(pieces[..n], 1);
    assert pieces[..n][..1] == [pieces[0]];
    assert pieces[n..] == [pieces[n]];
  }

  /** A piece with text on both sides of it appears in the whole. */
  lemma OccursBetween(a: string, t: string, b: string)
    ensures Occurs(t, a + (t + b))
  {
    assert (a + (t + b))[|a|..|a| + |t|] == t;
    assert At(t, a + (t + b), |a|);
  }

  /** A list of pieces is its first `i` pieces followed by the rest. */
  lemma ConcatSplit(pieces: seq<string>, i: nat)
    requires i <= |pieces|
    ensures Concat(pieces) == Concat(pieces[..i]) + Concat(pieces[i..])
  {
    assert pieces == pieces[..i] + pieces[i..];
    ConcatAppend(pieces[..i], pieces[i..]);
  }

  /** The pieces from `i` on are those from `i` to `j`, then those from `j` on. */
  lemma ConcatSplitAt(pieces: seq<string>, i: nat, j: nat)
    requires i <= j <= |pieces|
    ensures Concat(pieces[i..]) == Concat(pieces[i..j]) + Concat(pieces[j..])
  {
    assert pieces[i..] == pieces[i..j] + pieces[j..];
    ConcatAppend(pieces[i..j], pieces[j..]);
  }

  /** Any run of consecutive pieces appears in the joined text. */
  lemma OccursSlice(pieces: seq<string>, i: nat, j: nat)
    requires i <= j <= |pieces|
    ensures Occurs(Concat(pieces[i..j]), Concat(pieces))
  {
    ConcatSplit(pieces, i);
    ConcatSplitAt(pieces, i, j);
    OccursBetween(Concat(pieces[..i]), Concat(pieces[i..j]), Concat(pieces[j..]));
  }

  /** A run of pieces found at position `i` appears in the joined text. */
  lemma OccursRun(pieces: seq<string>, i: nat, run: seq<string>)
    requires i + |run| <= |pieces|
    requires forall k :: 0 <= k < |run| ==> pieces[i + k] == run[k]
    ensures Occurs(Concat(run), Concat(pieces))
  {
    assert pieces[i..i + |run|] == run;
    OccursSlice(pieces, i, i + |run|);
  }

  /** How many times `c` occurs in `s`. */
  function CountOf(c: char, s: string): nat
  {
    multiset(s)[c]
  }

  // ---------------------------------------------------------------------------
  // Client block

  /** `clientCompany || ''`: a missing company shows as nothing. */
  function ShownCompany(company: Option<string>): (r: string)
    ensures company.None? ==> r == ""
    ensures company.Some? ==> r == company.value
  {
    if company.Some? && company.value != "" then company.value else ""
  }

  /** `s.replace(/\n/g, '<br>')`: every line feed becomes a `<br>` tag and
      every other character is kept in place. */
  function ReplaceNewlines(s: string): (r: string)
    ensures '\n' !in r
    ensures |r| == |s| + 3 * CountOf('\n', s)
    ensures '\n' !in s ==> r == s
    ensures |s| == 1 ==> r == if s[0] == '\n' then "<br>" else s
  {
    if s == [] then ""
    else
      assert s == [s[0]] + s[1..];
      assert multiset(s) == multiset{s[0]} + multiset(s[1..]);
      (if s[0] == '\n' then "<br>" else [s[0]]) + ReplaceNewlines(s[1..])
  }

  /** The replacement works character by character: it distributes over
      concatenation, so together with the one-character case it fixes the
      whole result. */
  lemma {:induction false} ReplaceNewlinesConcat(a: string, b: string)
    ensures ReplaceNewlines(a + b) == ReplaceNewlines(a) + ReplaceNewlines(b)
    decreases |a|
  {
    if a != [] {
      var head := if a[0] == '\n' then "<br>" else [a[0]];
      assert (a + b)[0] == a[0];
      assert (a + b)[1..] == a[1..] + b;
      assert ReplaceNewlines(a + b) == head + ReplaceNewlines(a[1..] + b);
      assert ReplaceNewlines(a) == head + ReplaceNewlines(a[1..]);
      ReplaceNewlinesConcat(a[1..], b);
    } else {
      assert a + b == b;
    }
  }

  /** The reverse reading: every `<br>` tag back to a line feed. */
  function BreaksToNewlines(s: string): string
  {
    if s == [] then ""
    else if |s| >= 4 && s[0] == '<' && s[1] == 'b' && s[2] == 'r' && s[3] == '>'
    then "\n" + BreaksToNewlines(s[4..])
    else [s[0]] + BreaksToNewlines(s[1..])
  }

  /** Reading back a `<br>` tag gives a line feed. */
  lemma BreakReadBack(rest: string)
    ensures BreaksToNewlines("<br>" + rest) == "\n" + BreaksToNewlines(rest)
  {
  }

  /** Reading back any other character keeps it, unless it opens a tag. */
  lemma PlainReadBack(c: char, rest: string)
    requires c != '<'
    ensures BreaksToNewlines([c] + rest) == [c] + BreaksToNewlines(rest)
  {
  }

  /** For an address with no `<` of its own, the line breaks can be read back
      from the rendered text: the replacement loses nothing. */
  lemma {:induction false} NewlinesRoundTrip(s: string)
    requires '<' !in s
    ensures BreaksToNewlines(ReplaceNewlines(s)) == s
  {
    if s != [] {
      var rest := ReplaceNewlines(s[1..]);
      assert s == [s[0]] + s[1..];
      assert '<' !in s[1..];
      NewlinesRoundTrip(s[1..]);
      if s[0] == '\n' {
        BreakReadBack(rest);
      } else {
        PlainReadBack(s[0], rest);
      }
    }
  }

  /** `clientAddress ? clientAddress.replace(/\n/g, '<br>') : ''`: a missing
      or empty address shows as nothing, any other has its line feeds turned
      into `<br>` tags. */
  function ShownAddress(address: Option<string>): (r: string)
    ensures '\n' !in r
    ensures address.None? ==> r == ""
    ensures address.Some? ==> r == ReplaceNewlines(address.value)
    ensures address.Some? ==> |r| == |address.value| + 3 * CountOf('\n', address.value)
  {
    if address.Some? && address.value != "" then ReplaceNewlines(address.value) else ""
  }

  // ---------------------------------------------------------------------------
  // Item table

  /** The pieces of one `<tr class="item">` row: description, quantity, the
      rate formatted as currency, and `quantity * rate` formatted as currency. */
  function RowPieces(t: Template, it: LineItem, f: Formatters): (r: seq<string>)
    ensures |r| == 9 && r[0] == t.rowOpen && r[8] == t.rowClose
    ensures r[2] == t.cellBreak && r[4] == t.cellBreak && r[6] == t.cellBreak
  {
    [t.rowOpen, it.description, t.cellBreak, f.number(it.quantity), t.cellBreak,
     f.currency(it.rate), t.cellBreak, f.currency(it.quantity * it.rate), t.rowClose]
  }

  /** One row of the item table. */
  function Row(t: Template, it: LineItem, f: Formatters): (r: string)
    ensures |r| >= |t.rowOpen| && r[..|t.rowOpen|] == t.rowOpen
    ensures r == Concat([t.rowOpen, it.description, t.cellBreak, f.number(it.quantity)])
               + Concat([t.cellBreak, f.currency(it.rate), t.cellBreak,
                         f.currency(it.quantity * it.rate), t.rowClose])
  {
    var ps := RowPieces(t, it, f);
    ConcatSplit(ps, 4);
    assert ps[..4] == [t.rowOpen, it.description, t.cellBreak, f.number(it.quantity)];
    assert ps[4..] == [t.cellBreak, f.currency(it.rate), t.cellBreak,
                       f.currency(it.quantity * it.rate), t.rowClose];
    Concat(ps)
  }

  /** `items.map(row)`: one row per item, in item order. */
  function Rows(t: Template, items: seq<LineItem>, f: Formatters): (r: seq<string>)
    ensures |r| == |items|
    ensures forall i :: 0 <= i < |items| ==> r[i] == Row(t, items[i], f)
  {
    seq(|items|, i requires 0 <= i < |items| => Row(t, items[i], f))
  }

  /** `items.map(row).join('')`. */
  function ItemsHtml(t: Template, items: seq<LineItem>, f: Formatters): (r: string)
    ensures items == [] ==> r == ""
  {
    Concat(Rows(t, items, f))
  }

  /** The fragment of a concatenation is the fragments of the parts, in order. */
  lemma ItemsHtmlAppend(t: Template, a: seq<LineItem>, b: seq<LineItem>, f: Formatters)
    ensures ItemsHtml(t, a + b, f) == ItemsHtml(t, a, f) + ItemsHtml(t, b, f)
  {
    var ra, rb := Rows(t, a, f), Rows(t, b, f);
    forall i | 0 <= i < |a| + |b|
      ensures Rows(t, a + b, f)[i] == (ra + rb)[i]
    {
      if i < |a| {
        assert (a + b)[i] == a[i];
      } else {
        assert (a + b)[i] == b[i - |a|];
      }
    }
    assert Rows(t, a + b, f) == ra + rb;
    ConcatAppend(Rows(t, a, f), Rows(t, b, f));
  }

  /** Item `i`'s row sits between the rows of the items before it and the
      rows of the items after it. */
  lemma RowAt(t: Template, items: seq<LineItem>, i: nat, f: Formatters)
    requires i < |items|
    ensures ItemsHtml(t, items, f)
            == ItemsHtml(t, items[..i], f) + Row(t, items[i], f) + ItemsHtml(t, items[i + 1..], f)
  {
    assert items == items[..i] + [items[i]] + items[i + 1..];
    ItemsHtmlAppend(t, items[..i] + [items[i]], items[i + 1..], f);
    ItemsHtmlAppend(t, items[..i], [items[i]], f);
  }

  // ---------------------------------------------------------------------------
  // The whole document

  /** The template's pieces in order, fixed text interleaved with the
      invoice's fields. */
  function Pieces(t: Template, d: InvoiceData, f: Formatters): (r: seq<string>)
    ensures |r| == 32
  {
    [t.documentOpening, t.titleOpen, d.invoiceNumber, t.titleClose, t.styleAndHeader,   // 0-4
     t.billToHeading, d.clientName, t.lineBreak, ShownCompany(d.clientCompany),         // 5-8
     t.lineBreak, ShownAddress(d.clientAddress), t.billToClose,                         // 9-11
     t.invoiceNoLabel, d.invoiceNumber, t.issueDateLabel, f.date(d.issueDate),          // 12-15
     t.dueDateLabel, f.date(d.dueDate),                                                 // 16-17
     t.tableHead, t.tbodyOpen, ItemsHtml(t, d.items, f), t.tbodyClose,                  // 18-21
     t.totalsOpen, t.subtotalLabel, f.currency(d.subtotal),                             // 22-24
     t.taxLabelOpen, f.number(d.taxRate), t.taxLabelClose, f.currency(d.taxAmount),     // 25-28
     t.grandTotalLabel, f.currency(d.total), t.documentClosing]                         // 29-31
  }

  /** The page the template `t` gives for the invoice `d`. */
  function Render(t: Template, d: InvoiceData, f: Formatters): (r: string)
    ensures |r| >= |t.documentOpening| + |t.documentClosing|
    ensures r[..|t.documentOpening|] == t.documentOpening
    ensures r[|r| - |t.documentClosing|..] == t.documentClosing
  {
    var ps := Pieces(t, d, f);
    ConcatEnds(ps);
    Concat(ps)
  }

  /** `getInvoiceHtml(data)`: the source's template filled in. The page
      shows the invoice number in its title and its meta block, the client
      block with defaults for what is missing, exactly the item rows inside
      the table body, and the record's totals as given. */
  function GetInvoiceHtml(d: InvoiceData, f: Formatters): (html: string)
    ensures var t := SourceTemplate();
      && Occurs(Concat([t.titleOpen, d.invoiceNumber, t.titleClose]), html)
      && Occurs(Concat([t.invoiceNoLabel, d.invoiceNumber, t.issueDateLabel]), html)
      && Occurs(Concat([t.billToHeading, d.clientName, t.lineBreak, ShownCompany(d.clientCompany),
                        t.lineBreak, ShownAddress(d.clientAddress), t.billToClose]), html)
      && Occurs(Concat([t.tbodyOpen, Concat(Rows(t, d.items, f)), t.tbodyClose]), html)
      && Occurs(Concat([t.subtotalLabel, f.currency(d.subtotal), t.taxLabelOpen]), html)
      && Occurs(Concat([t.taxLabelOpen, f.number(d.taxRate), t.taxLabelClose, f.currency(d.taxAmount),
                        t.grandTotalLabel]), html)
      && Occurs(Concat([t.grandTotalLabel, f.currency(d.total), t.documentClosing]), html)
  {
    var t := SourceTemplate();
    NumberInTitle(t, d, f);
    NumberInMeta(t, d, f);
    ClientBlock(t, d, f);
    ItemsInTableBody(t, d, f);
    TotalsShownAsGiven(t, d, f);
    Render(t, d, f)
  }

  /** The invoice number appears in the page's `<title>`. */
  lemma NumberInTitle(t: Template, d: InvoiceData, f: Formatters)
    ensures Occurs(Concat([t.titleOpen, d.invoiceNumber, t.titleClose]), Render(t, d, f))
  {
    OccursRun(Pieces(t, d, f), 1, [t.titleOpen, d.invoiceNumber, t.titleClose]);
  }

  /** The invoice number appears again in the meta block, after its label. */
  lemma NumberInMeta(t: Template, d: InvoiceData, f: Formatters)
    ensures Occurs(Concat([t.invoiceNoLabel, d.invoiceNumber, t.issueDateLabel]), Render(t, d, f))
  {
    OccursRun(Pieces(t, d, f), 12, [t.invoiceNoLabel, d.invoiceNumber, t.issueDateLabel]);
  }

  /** The client block holds the name, then the company or nothing, then the
      address with `<br>` for line feeds or nothing. */
  lemma ClientBlock(t: Template, d: InvoiceData, f: Formatters)
    ensures Occurs(Concat([t.billToHeading, d.clientName, t.lineBreak, ShownCompany(d.clientCompany),
                           t.lineBreak, ShownAddress(d.clientAddress), t.billToClose]), Render(t, d, f))
  {
    OccursRun(Pieces(t, d, f), 5, [t.billToHeading, d.clientName, t.lineBreak, ShownCompany(d.clientCompany),
                                   t.lineBreak, ShownAddress(d.clientAddress), t.billToClose]);
  }

  /** Without company and address the client block is the name followed by
      two empty slots: both defaults are the empty text. */
  lemma MissingClientDetails(t: Template, d: InvoiceData, f: Formatters)
    requires d.clientCompany.None? && d.clientAddress.None?
    ensures Occurs(Concat([t.billToHeading, d.clientName, t.lineBreak, "", t.lineBreak, "", t.billToClose]),
                   Render(t, d, f))
  {
    ClientBlock(t, d, f);
  }

  /** The table body holds exactly the rows of the items; with no items it is
      empty. */
  lemma ItemsInTableBody(t: Template, d: InvoiceData, f: Formatters)
    ensures Occurs(Concat([t.tbodyOpen, Concat(Rows(t, d.items, f)), t.tbodyClose]), Render(t, d, f))
    ensures d.items == [] ==> Occurs(Concat([t.tbodyOpen, "", t.tbodyClose]), Render(t, d, f))
  {
    OccursRun(Pieces(t, d, f), 19, [t.tbodyOpen, Concat(Rows(t, d.items, f)), t.tbodyClose]);
  }

  /** The totals shown are the record's own fields, formatted, whatever the
      items hold: nothing is recomputed or checked. */
  lemma TotalsShownAsGiven(t: Template, d: InvoiceData, f: Formatters)
    ensures Occurs(Concat([t.subtotalLabel, f.currency(d.subtotal), t.taxLabelOpen]), Render(t, d, f))
    ensures Occurs(Concat([t.taxLabelOpen, f.number(d.taxRate), t.taxLabelClose, f.currency(d.taxAmount),
                           t.grandTotalLabel]), Render(t, d, f))
    ensures Occurs(Concat([t.grandTotalLabel, f.currency(d.total), t.documentClosing]), Render(t, d, f))
  {
    var ps := Pieces(t, d, f);
    OccursRun(ps, 23, [t.subtotalLabel, f.currency(d.subtotal), t.taxLabelOpen]);
    OccursRun(ps, 25, [t.taxLabelOpen, f.number(d.taxRate), t.taxLabelClose, f.currency(d.taxAmount),
                       t.grandTotalLabel]);
    OccursRun(ps, 29, [t.grandTotalLabel, f.currency(d.total), t.documentClosing]);
  }

  /** The fields the template never reads (email, payment terms, status,
      notes, terms) do not affect the document. */
  lemma UnshownFields(t: Template, d: InvoiceData, f: Formatters, email: string, payment: Option<string>,
                      status: string, notes: Option<string>, terms: Option<string>)
    ensures Render(t, d.(clientEmail := email, paymentTerms := payment, status := status,
                        notes := notes, terms := terms), f)
            == Render(t, d, f)
  {
  }

  /** The sum of `quantity * rate` over the record's items. The stored item
      has no id (the form's row id is not part of the saved record), so this
      is a separate type from the form's row and the sum is restated over it;
      it is the same left fold as the form's subtotal. */
  function ItemsSubtotal(items: seq<LineItem>): real
  {
    if items == [] then 0.0
    else ItemsSubtotal(items[..|items| - 1]) + items[|items| - 1].quantity * items[|items| - 1].rate
  }

  /** The record's totals are the ones its items and tax rate give. */
  ghost predicate TotalsAgree(d: InvoiceData)
  {
    && d.subtotal == ItemsSubtotal(d.items)
    && d.taxAmount == d.subtotal * d.taxRate / 100.0
    && d.total == d.subtotal + d.taxAmount
  }

  /** The record is saved and rendered as received, so a page can show
      totals that its own rows contradict: with no items and a subtotal of
      5 the page still shows 5 as the subtotal. */
  lemma DisagreeingTotalsRendered(t: Template, d: InvoiceData, f: Formatters)
    requires d.items == [] && d.subtotal == 5.0
    ensures !TotalsAgree(d)
    ensures Occurs(Concat([t.subtotalLabel, f.currency(5.0), t.taxLabelOpen]), Render(t, d, f))
  {
    TotalsShownAsGiven(t, d, f);
  }
}
