# Quote generator (preventivi): a Dafny model of its arithmetic and document assembly

The program is a one-page Streamlit form for "Studio Dainotti". It collects
quote line items (*voci*) into a list held by the browser session. On request
it writes a Word document: a heading, the quote metadata, a five-column table
with one row per item, the real and applied totals with the discount and its
percentage, and fixed payment conditions. The file is offered for download as
`Preventivo_<numero>.docx`.

The model has three modules:

- `QuoteItems` (`items.dfy`): the line-item record, with prices at least 0. It
  also holds the two totals as functions of the list, the discount (`Sconto`),
  the discount percentage with its zero guard (`PercentualeSconto`), and the
  lemmas about them.
- `QuoteSession` (`session.dfy`): the session's `lista_voci` key as a class
  `Session` whose field is absent (`None`) until the script creates it. Its
  methods are the "create if absent" step and the append on submit. A pure
  function `AfterRuns` describes the list after any sequence of script runs.
- `QuoteDocument` (`document.dfy`): the document as a sequence of blocks
  (headings, paragraphs, one table). `Table` is a class whose rows are added
  in place. `BuildTable` is the single loop that fills the table and both
  accumulators; it is proved against `TableRows` and `Total`.
  `GenerateQuote` assembles the whole document and the download name; it is
  proved against the specification function `QuoteBlocks`.

Money is exact: prices are `real` values of at least 0, not binary floats. The
two number formats (`:.2f` for money, `:.1f` for the percentage) are the
parameters `fmt2` and `fmt1`. The date enters already formatted as `data`. So
every statement about the document holds for every formatting function.

The column labels are the Italian ones of app.py:55-59, and the file name
is `"Preventivo_" + numero + ".docx"` (app.py:97).

## Model

| member | source | states |
|---|---|---|
| `QuoteItems.Total` | app.py:61-72 | The value an accumulator reaches by adding one price column over the list, in order, from 0. It is never negative, because every price is at least 0. |
| `QuoteItems.TotalAppend` | app.py:61-72 | The total of a concatenation is the sum of the totals of its parts. |
| `QuoteItems.TotalAfterAppend` | app.py:71-72 | Appending one item raises a total by exactly that item's price, so a total never decreases as items are added. |
| `QuoteItems.TotalBoundsEachPrice` | app.py:61-72 | Each single price in the list is at most the total of its column. |
| `QuoteItems.Sconto` | app.py:74 | The discount is unclamped. It is negative exactly when the applied total exceeds the real total, and 0 exactly when the two are equal. |
| `QuoteItems.PercentualeSconto` | app.py:75 | The percentage is 0 when the real total is 0, so there is no division by zero. Otherwise percentage × real total = discount × 100. |
| `QuoteItems.ScontoIsSumOfItemDiscounts` | app.py:71-74 | The discount from the two totals equals the sum of the per-item differences (real − applied). |
| `QuoteItems.PercentualeScontoRange` | app.py:74-75 | With prices at least 0, the percentage is at most 100. It is 100 exactly when a quote of non-zero real value is fully discounted. It is 0 exactly when the totals are equal or the real total is 0. It is negative exactly when the applied total exceeds a non-zero real total. |
| `QuoteItems.PercentOfPositive` | app.py:75 | For a positive real total and an applied total of at least 0, the percentage has the bounds and sign cases above. |
| `QuoteItems.EmptyQuote` | app.py:61-75 | With no items, both totals, the discount and the percentage are 0. |
| `QuoteItems.TwoItemQuote` | app.py:61-75 | Items (1000, 800) and (500, 500) give totals 1500 and 1300, a discount of 200 and a percentage of 40/3. |
| `QuoteSession.AfterRunsAppendsSubmitted` | app.py:26-36 | After any sequence of script runs, the list is the list held before (empty if absent), followed by exactly the submitted items in submission order. |
| `QuoteSession.AfterRunsTotals` | app.py:26-36 | After any runs, each total is the total held before plus the total of the submitted items. |
| `QuoteSession.RunComposes` | app.py:26-36 | `AfterRuns`, the list after a sequence of runs, is what repeated `Session.Run` calls produce: one more run on the list after some runs gives the list after all of them. |
| `QuoteSession.Session.constructor` | app.py:26 | A new session does not hold the key `lista_voci`. |
| `QuoteSession.Session.EnsureList` | app.py:26-27 | Creates an empty list only when none is held. An existing list is left exactly as it was. |
| `QuoteSession.Session.AddItem` | app.py:29-36 | Appends exactly one record at the end. The length grows by one, and every earlier record keeps its position and value. |
| `QuoteSession.Session.Run` | app.py:26-36 | One script run. The list then exists, and it is the list held before (or empty) with the submitted record appended if the form was submitted. |
| `QuoteDocument.ItemRowsAt` | app.py:64-70 | `ItemRows`, the rows `table.add_row()` adds: there is one per item, and row i is `ItemRow` of item i (its voce, frequenza, descrizione and two formatted prices). |
| `QuoteDocument.TableShape` | app.py:53-70 | `TableRows`, the whole table: 1 + (number of items) rows. Row 0 is `TableHeader`, the fixed five-label header. Row i+1 has five cells: item i's voce, frequenza and descrizione, then its two formatted prices, in insertion order. |
| `QuoteDocument.Table.constructor` | app.py:53-59 | A new table holds exactly the header row. Its width is the header's length. |
| `QuoteDocument.Table.AddRow` | app.py:65-70 | Appends one row of the table's width at the end. The earlier rows are unchanged. |
| `QuoteDocument.BuildTable` | app.py:53-72 | The single loop yields the header plus one row per item, the sum of the real prices and the sum of the applied prices. Its invariant is that all three hold for the prefix already processed. |
| `QuoteDocument.GenerateQuote` | app.py:44-97 | The document built block by block equals `QuoteBlocks` for the given items, and the download name is `FileName(numero)`. |
| `QuoteDocument.QuoteLayout` | app.py:44-89 | `QuoteBlocks`, the whole document: 19 blocks. Headings are at positions 0, 6 and 12 and the item table is at 7. The two totals lines show the column sums, and block 11 shows the discount and its percentage computed from them. The payment-reference line is "Causale: " + the number line + " del " + the date of the "Data: " line. |
| `QuoteDocument.TotalsLines` | app.py:77-80 | `TotalsBlocks`: a blank line and three totals lines. The discount line shows the sum of the per-item discounts, with the percentage 0 when the real total is 0 and otherwise that sum divided by the real total times 100. |
| `QuoteDocument.OnlyTableAndTotalsDependOnItems` | app.py:45-89 | `HeaderBlocks` and `ConditionsBlocks` are fixed by the header fields: two quotes with the same number, date, client and subject agree on every block except the table and the three totals lines, and on every block but the table when their totals agree. |
| `QuoteDocument.FileNameRecoversNumber` | app.py:97 | `FileName`, the download name: 16 characters longer than the number, with the number at positions 11 onward. Different numbers give different names. |

## Left out

- The Streamlit page itself is not modelled: page setup, widgets, the form, the buttons, and the markdown preview of the list (app.py:7-24, 38-43). These are user interface. A submitted form is an `Option<Item>` given to `Session.Run`.
- The unused local `voci = []` (app.py:17) is not modelled, because nothing reads it.
- `Session.Run`: Streamlit re-runs the script on every interaction. The model has no loop over runs. A sequence of runs is described by the function `AfterRuns`, and `RunComposes` ties it to repeated `Session.Run` calls.
- Rendering the document with python-docx is not modelled: styles, heading levels beyond the number passed, `doc.save` into a `BytesIO`, and `st.download_button` (app.py:44, 91-99). The document is a sequence of blocks, and the file name is the only part of the download that is modelled.
- `GenerateQuote`: python-docx inserts the table into the document first and then fills it in place. The model inserts the filled rows at the same position, so the final document is the same. The aliasing between the document and its table object is not modelled.
- Floating-point arithmetic is not modelled. Prices and totals are exact reals, so float rounding of the sums and of the division on app.py:75 is absent.
- The formats `:.2f` and `:.1f` (app.py:69-70, 78-80) are not modelled. They are the parameters `fmt2` and `fmt1`, and nothing is assumed about them.
- `datetime.today()` and `strftime('%d/%m/%Y')` (app.py:11, 48, 87) are not modelled. The formatted date is the input `data`, and the source formats the same date value at both places where it is shown.
- The form's lower bound of 0 on both prices (app.py:22-23) is part of the type `Price`. The widget's own handling of out-of-range entries is not modelled.
- The sign written before the discount and the percentage on app.py:80 is modelled as literal text. Nothing is claimed about how a negative discount is rendered.
