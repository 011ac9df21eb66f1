/** The Word document the "Genera Preventivo Word" button builds
    (app.py:43-97): a fixed sequence of headings and paragraphs around one
    table with a row per line item, and the name it is downloaded under.

    The document is a sequence of blocks. Number formatting (`:.2f` for
    money, `:.1f` for the percentage) and the date rendering (`%d/%m/%Y`)
    are parameters: `fmt2`, `fmt1` and the already-formatted `data`. */
module QuoteDocument {
  import opened QuoteItems

  /** What `doc.add_heading`, `doc.add_paragraph` and `doc.add_table` put
      into the document. */
  datatype Block =
    | Heading(text: string, level: nat)
    | Paragraph(text: string)
    | TableBlock(rows: seq<seq<string>>)

  /** The five column labels of the table's first row (app.py:53-59). */
  const TableHeader: seq<string> :=
    ["Voce", "Frequenza", "Descrizione", "Prezzo reale (€)", "Prezzo applicato (€)"]

  /** The cells of the row for one item (app.py:66-70). */
  function ItemRow(item: Item, fmt2: real -> string): seq<string>
  {
    [item.voce, item.frequenza, item.descrizione, fmt2(item.prezzoReale), fmt2(item.prezzoApplicato)]
  }

  /** The rows `table.add_row()` adds, one per item and in list order. */
  function ItemRows(items: seq<Item>, fmt2: real -> string): seq<seq<string>>
    decreases |items|
  {
    if items == [] then []
    else ItemRows(items[..|items| - 1], fmt2) + [ItemRow(items[|items| - 1], fmt2)]
  }

  /** Row i of the item rows is the row of item i, and there are as many
      rows as items. */
  lemma {:induction false} ItemRowsAt(items: seq<Item>, fmt2: real -> string)
    ensures |ItemRows(items, fmt2)| == |items|
    ensures forall i :: 0 <= i < |items| ==> ItemRows(items, fmt2)[i] == ItemRow(items[i], fmt2)
    decreases |items|
  {
    if items != [] {
      ItemRowsAt(items[..|items| - 1], fmt2);
    }
  }

  /** The whole table: the header row, then the item rows. */
  function TableRows(items: seq<Item>, fmt2: real -> string): seq<seq<string>>
  {
    [TableHeader] + ItemRows(items, fmt2)
  }

  /** The table has one row more than there are items; row 0 is the fixed
      header and row i + 1 shows item i, in insertion order, with its three
      text fields and its two prices formatted, in five cells. */
  lemma TableShape(items: seq<Item>, fmt2: real -> string)
    ensures var rows := TableRows(items, fmt2);
            && |rows| == 1 + |items|
            && rows[0] == TableHeader
            && forall i :: 0 <= i < |items| ==>
                 && |rows[i + 1]| == 5
                 && rows[i + 1][0] == items[i].voce
                 && rows[i + 1][1] == items[i].frequenza
                 && rows[i + 1][2] == items[i].descrizione
                 && rows[i + 1][3] == fmt2(items[i].prezzoReale)
                 && rows[i + 1][4] == fmt2(items[i].prezzoApplicato)
  {
    var rows := TableRows(items, fmt2);
    ItemRowsAt(items, fmt2);
    forall i | 0 <= i < |items|
      ensures rows[i + 1] == ItemRow(items[i], fmt2)
    {
      assert rows[i + 1] == ItemRows(items, fmt2)[i];
    }
  }

  /** The document's table, filled in place one row at a time. */
  class Table {
    const cols: nat
    var rows: seq<seq<string>>

    ghost predicate Valid()
      reads this
    {
      forall r :: r in rows ==> |r| == cols
    }

    /** A one-row table whose first row is `header`. */
    constructor (header: seq<string>)
      ensures Valid()
      ensures cols == |header| && rows == [header]
    {
      cols := |header|;
      rows := [header];
    }

    /** `table.add_row()` followed by writing its cells. */
    method AddRow(cells: seq<string>)
      requires Valid() && |cells| == cols
      modifies this
      ensures Valid()
      ensures rows == old(rows) + [cells]
    {
      rows := rows + [cells];
    }
  }

  const Title := "Preventivo – Analisi e Strategia Marketing"
  const Issuer := "Studio Dainotti"
  const TableTitle := "Dettaglio Servizi e Valore"
  const ConditionsTitle := "Condizioni"
  const Delivery := "Consegna: entro 15-20 giorni lavorativi dalla conferma"
  const PaymentSplit := "Pagamento: 50% alla conferma – 50% alla consegna"
  const PaymentMethod := "Modalità: Bonifico Bancario intestato a: Dainotti Srls, via Roma, 52, 21010 Porto Valtravaglia (VA)"
  const Iban := "IBAN: IT06S0538750401000003855981"
  const Validity := "\nAttenzione: Il preventivo ha validità 7 giorni dalla data di emissione"

  /** The heading block and metadata lines (app.py:45-50). */
  function HeaderBlocks(numero: string, data: string, cliente: string, oggetto: string): seq<Block>
  {
    [ Heading(Title, 1),
      Paragraph(Issuer),
      Paragraph("Preventivo n. " + numero),
      Paragraph("Data: " + data),
      Paragraph("Cliente: " + cliente),
      Paragraph("Oggetto: " + oggetto) ]
  }

  /** The blank line and the three totals lines (app.py:77-80). */
  function TotalsBlocks(totaleReale: real, totaleApplicato: real,
                        fmt2: real -> string, fmt1: real -> string): seq<Block>
  {
    var sconto := Sconto(totaleReale, totaleApplicato);
    var percentuale := PercentualeSconto(sconto, totaleReale);
    [ Paragraph(""),
      Paragraph("Valore complessivo dei servizi: €" + fmt2(totaleReale) + " + IVA"),
      Paragraph("Totale applicato: €" + fmt2(totaleApplicato) + " + IVA"),
      Paragraph("Sconto applicato: –€" + fmt2(sconto) + " (–" + fmt1(percentuale) + "%)") ]
  }

  /** The conditions section and the validity notice (app.py:82-89). */
  function ConditionsBlocks(numero: string, data: string): seq<Block>
  {
    [ Heading(ConditionsTitle, 2),
      Paragraph(Delivery),
      Paragraph(PaymentSplit),
      Paragraph(PaymentMethod),
      Paragraph(Iban),
      Paragraph("Causale: Preventivo n. " + numero + " del " + data),
      Paragraph(Validity) ]
  }

  /** The document app.py:44-89 builds for the given items. */
  function QuoteBlocks(items: seq<Item>, numero: string, data: string, cliente: string, oggetto: string,
                       fmt2: real -> string, fmt1: real -> string): seq<Block>
  {
    HeaderBlocks(numero, data, cliente, oggetto)
    + [Heading(TableTitle, 2)]
    + [TableBlock(TableRows(items, fmt2))]
    + TotalsBlocks(Total(items, Reale), Total(items, Applicato), fmt2, fmt1)
    + ConditionsBlocks(numero, data)
  }

  /** The download name, `f"Preventivo_{numero}.docx"` (app.py:97). */
  function FileName(numero: string): string
  {
    "Preventivo_" + numero + ".docx"
  }

  /** Distinct quote numbers give distinct file names, and the number can
      be read back from the name. */
  lemma FileNameRecoversNumber(numero: string, other: string)
    ensures |FileName(numero)| == |numero| + 16
    ensures FileName(numero)[11..|numero| + 11] == numero
    ensures FileName(numero) == FileName(other) ==> numero == other
  {
    var f := FileName(numero);
    assert f[11..|numero| + 11] == numero;
    if f == FileName(other) {
      assert |other| == |numero|;
      assert FileName(other)[11..|other| + 11] == other;
    }
  }

  /** The fixed layout of the document: nineteen blocks, the headings at
      positions 0, 6 and 12, the item table at position 7, the totals lines
      at 9 to 11 showing the sums of the two price columns, the discount and
      its percentage, and the payment
      reference at 17 repeating the quote number and date of lines 2 and
      3. */
  lemma QuoteLayout(items: seq<Item>, numero: string, data: string, cliente: string, oggetto: string,
                    fmt2: real -> string, fmt1: real -> string)
    ensures var doc := QuoteBlocks(items, numero, data, cliente, oggetto, fmt2, fmt1);
            && |doc| == 19
            && doc[0] == Heading(Title, 1)
            && doc[6] == Heading(TableTitle, 2)
            && doc[12] == Heading(ConditionsTitle, 2)
            && doc[7] == TableBlock(TableRows(items, fmt2))
            && |doc[7].rows| == |items| + 1
            && doc[9] == Paragraph("Valore complessivo dei servizi: €" + fmt2(Total(items, Reale)) + " + IVA")
            && doc[10] == Paragraph("Totale applicato: €" + fmt2(Total(items, Applicato)) + " + IVA")
            && doc[11] == Paragraph("Sconto applicato: –€" + fmt2(Sconto(Total(items, Reale), Total(items, Applicato)))
                                    + " (–" + fmt1(PercentualeSconto(Sconto(Total(items, Reale), Total(items, Applicato)), Total(items, Reale)))
                                    + "%)")
            && doc[2].Paragraph? && doc[3].Paragraph? && doc[17].Paragraph?
            && doc[17].text == "Causale: " + doc[2].text + " del " + doc[3].text[6..]
  {
    ItemRowsAt(items, fmt2);
    var doc := QuoteBlocks(items, numero, data, cliente, oggetto, fmt2, fmt1);
    assert doc[3].text[6..] == data;
    assert doc[17].text == "Causale: " + ("Preventivo n. " + numero) + " del " + data;
  }

  /** The discount line shows the sum of the per-item discounts, and a
      percentage that is 0 when the real total is 0 and otherwise that sum
      as a share of the real total; the totals block opens with a blank
      line and has four blocks. */
  lemma TotalsLines(items: seq<Item>, fmt2: real -> string, fmt1: real -> string)
    ensures var tr, ta := Total(items, Reale), Total(items, Applicato);
            var lines := TotalsBlocks(tr, ta, fmt2, fmt1);
            var sconto := DiscountSum(items);
            && |lines| == 4
            && lines[0] == Paragraph("")
            && (tr == 0.0 ==> lines[3] == Paragraph("Sconto applicato: –€" + fmt2(sconto) + " (–" + fmt1(0.0) + "%)"))
            && (tr != 0.0 ==> lines[3] == Paragraph("Sconto applicato: –€" + fmt2(sconto) + " (–" + fmt1(sconto / tr * 100.0) + "%)"))
  {
    ScontoIsSumOfItemDiscounts(items);
  }

  /** Only the table (block 7) and the three totals lines (blocks 9 to 11)
      depend on the items: two quotes with the same header fields agree on
      every other block, the headings, metadata lines and conditions
      included; and quotes whose two totals agree differ at most in the
      table. */
  lemma OnlyTableAndTotalsDependOnItems(a: seq<Item>, b: seq<Item>,
                                        numero: string, data: string, cliente: string, oggetto: string,
                                        fmt2: real -> string, fmt1: real -> string)
    ensures var da := QuoteBlocks(a, numero, data, cliente, oggetto, fmt2, fmt1);
            var db := QuoteBlocks(b, numero, data, cliente, oggetto, fmt2, fmt1);
            && |da| == |db| == 19
            && (forall k :: 0 <= k < 19 && k != 7 && !(9 <= k <= 11) ==> da[k] == db[k])
            && (Total(a, Reale) == Total(b, Reale) && Total(a, Applicato) == Total(b, Applicato) ==>
                  forall k :: 0 <= k < 19 && k != 7 ==> da[k] == db[k])
  {
    var da := QuoteBlocks(a, numero, data, cliente, oggetto, fmt2, fmt1);
    var db := QuoteBlocks(b, numero, data, cliente, oggetto, fmt2, fmt1);
    var header := HeaderBlocks(numero, data, cliente, oggetto) + [Heading(TableTitle, 2)];
    var ta := TotalsBlocks(Total(a, Reale), Total(a, Applicato), fmt2, fmt1);
    var tb := TotalsBlocks(Total(b, Reale), Total(b, Applicato), fmt2, fmt1);
    var conditions := ConditionsBlocks(numero, data);
    assert da == header + [TableBlock(TableRows(a, fmt2))] + ta + conditions;
    assert db == header + [TableBlock(TableRows(b, fmt2))] + tb + conditions;
    assert ta[0] == tb[0];
  }

  /** The table and the two running totals (app.py:53-72): the header row,
      then, in one pass over the items, a row per item while each price is
      added to its accumulator. */
  method BuildTable(items: seq<Item>, fmt2: real -> string)
    returns (table: Table, totaleReale: real, totaleApplicato: real)
    ensures table.rows == TableRows(items, fmt2)
    ensures totaleReale == Total(items, Reale)
    ensures totaleApplicato == Total(items, Applicato)
  {
    table := new Table(TableHeader);
    totaleReale := 0.0;
    totaleApplicato := 0.0;
    var i := 0;
    while i < |items|
      invariant 0 <= i <= |items|
      invariant table.Valid() && table.cols == 5
      invariant table.rows == TableRows(items[..i], fmt2)
      invariant totaleReale == Total(items[..i], Reale)
      invariant totaleApplicato == Total(items[..i], Applicato)
    {
      var voce := items[i];
      table.AddRow(ItemRow(voce, fmt2));
      totaleReale := totaleReale + voce.prezzoReale;
      totaleApplicato := totaleApplicato + voce.prezzoApplicato;
      assert items[..i + 1][..i] == items[..i];
      i := i + 1;
    }
    assert items[..i] == items;
  }

  /** The "Genera Preventivo Word" action (app.py:44-97): builds the
      document block by block around the filled table and the totals, and
      returns it with its download name. */
  method GenerateQuote(items: seq<Item>, numero: string, data: string, cliente: string, oggetto: string,
                       fmt2: real -> string, fmt1: real -> string)
    returns (doc: seq<Block>, fileName: string)
    ensures doc == QuoteBlocks(items, numero, data, cliente, oggetto, fmt2, fmt1)
    ensures fileName == FileName(numero)
  {
    doc := HeaderBlocks(numero, data, cliente, oggetto);
    doc := doc + [Heading(TableTitle, 2)];
    var table, totaleReale, totaleApplicato := BuildTable(items, fmt2);
    doc := doc + [TableBlock(table.rows)];
    doc := doc + TotalsBlocks(totaleReale, totaleApplicato, fmt2, fmt1);
    doc := doc + ConditionsBlocks(numero, data);
    fileName := "Preventivo_" + numero + ".docx";
  }
}
