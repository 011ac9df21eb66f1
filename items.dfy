/** Line items of a quote and the arithmetic over them: the two running
    totals, the discount and the discount percentage (app.py lines 17-36
    and 61-75). Prices are exact reals; the source's binary floats are not
    modelled. */
module QuoteItems {

  /** A price as the form accepts it: `st.number_input(..., min_value=0.0)`
      never yields a value below zero. */
  type Price = x: real | 0.0 <= x

  /** One record of `lista_voci`, with the five keys the form writes. */
  datatype Item = Item(
    voce: string,
    frequenza: string,
    descrizione: string,
    prezzoReale: Price,
    prezzoApplicato: Price)

  /** Which of the two price columns a total runs over. */
  datatype Column = Reale | Applicato

  function PriceOf(item: Item, col: Column): Price
  {
    match col
    case Reale => item.prezzoReale
    case Applicato => item.prezzoApplicato
  }

  /** The value an accumulator holds after adding the prices of `items`,
      one at a time and in order, to 0 (app.py:61-72). Defined on the last
      element so that each loop step is one unfolding. */
  function Total(items: seq<Item>, col: Column): (t: real)
    ensures 0.0 <= t
    decreases |items|
  {
    if items == [] then 0.0
    else Total(items[..|items| - 1], col) + PriceOf(items[|items| - 1], col)
  }

  /** Totals split over concatenation: the total of a list is the total of
      its first part plus the total of the rest. */
  lemma {:induction false} TotalAppend(a: seq<Item>, b: seq<Item>, col: Column)
    ensures Total(a + b, col) == Total(a, col) + Total(b, col)
    decreases |b|
  {
    if b == [] {
      assert a + b == a;
    } else {
      var front := b[..|b| - 1];
      assert (a + b)[..|a + b| - 1] == a + front;
      assert (a + b)[|a + b| - 1] == b[|b| - 1];
      TotalAppend(a, front, col);
    }
  }

  /** Appending an item raises a total by exactly that item's price, so a
      total never decreases as the list grows. */
  lemma TotalAfterAppend(items: seq<Item>, item: Item, col: Column)
    ensures Total(items + [item], col) == Total(items, col) + PriceOf(item, col)
    ensures Total(items, col) <= Total(items + [item], col)
  {
    TotalAppend(items, [item], col);
    assert [item][..0] == [];
  }

  /** A total is at least every single price in the list. */
  lemma {:induction false} TotalBoundsEachPrice(items: seq<Item>, col: Column, i: nat)
    requires i < |items|
    ensures PriceOf(items[i], col) <= Total(items, col)
    decreases |items|
  {
    if i < |items| - 1 {
      TotalBoundsEachPrice(items[..|items| - 1], col, i);
    }
  }

  /** `sconto = totale_reale - totale_applicato` (app.py:74). Nothing clamps
      it: it is negative exactly when the applied total exceeds the real
      one. */
  function Sconto(totaleReale: real, totaleApplicato: real): (s: real)
    ensures s < 0.0 <==> totaleApplicato > totaleReale
    ensures s == 0.0 <==> totaleApplicato == totaleReale
  {
    totaleReale - totaleApplicato
  }

  /** `(sconto / totale_reale * 100) if totale_reale else 0` (app.py:75):
      the discount as a percentage of the real total, and 0 when the real
      total is 0, so that nothing divides by zero. */
  function PercentualeSconto(sconto: real, totaleReale: real): (p: real)
    ensures totaleReale == 0.0 ==> p == 0.0
    ensures totaleReale != 0.0 ==> p * totaleReale == sconto * 100.0
  {
    if totaleReale != 0.0 then sconto / totaleReale * 100.0 else 0.0
  }

  /** The discount one item contributes on its own. */
  function ItemDiscount(item: Item): real
  {
    item.prezzoReale - item.prezzoApplicato
  }

  /** An independent reading of the discount: the sum of the per-item
      discounts, first to last. */
  function DiscountSum(items: seq<Item>): real
    decreases |items|
  {
    if items == [] then 0.0
    else DiscountSum(items[..|items| - 1]) + ItemDiscount(items[|items| - 1])
  }

  /** The discount computed from the two totals equals the sum of the
      discounts of the single items. */
  lemma {:induction false} ScontoIsSumOfItemDiscounts(items: seq<Item>)
    ensures Sconto(Total(items, Reale), Total(items, Applicato)) == DiscountSum(items)
    decreases |items|
  {
    if items != [] {
      ScontoIsSumOfItemDiscounts(items[..|items| - 1]);
    }
  }

  /** Because every price is at least 0, the percentage of a quote never
      exceeds 100; it is 100 exactly when a quote of non-zero real value is
      given away, and 0 exactly when the two totals are equal or the real
      total is 0. It is negative exactly when the applied total exceeds a
      non-zero real total: when the real total is 0 and the applied one is
      not, the discount is negative but the percentage is still 0. */
  lemma PercentualeScontoRange(items: seq<Item>)
    ensures var tr, ta := Total(items, Reale), Total(items, Applicato);
            var p := PercentualeSconto(Sconto(tr, ta), tr);
            && p <= 100.0
            && (p < 0.0 <==> tr > 0.0 && ta > tr)
            && (p == 0.0 <==> tr == 0.0 || ta == tr)
            && (p == 100.0 <==> tr > 0.0 && ta == 0.0)
  {
    var tr, ta := Total(items, Reale), Total(items, Applicato);
    var p := PercentualeSconto(Sconto(tr, ta), tr);
    if tr != 0.0 {
      PercentOfPositive(p, tr, ta);
    }
  }

  /** The arithmetic behind PercentualeScontoRange: `p` is the discount
      `tr - ta` as a percentage of a positive `tr`, with `ta` at least 0. */
  lemma PercentOfPositive(p: real, tr: real, ta: real)
    requires 0.0 < tr && 0.0 <= ta
    requires p * tr == (tr - ta) * 100.0
    ensures p <= 100.0
    ensures p < 0.0 <==> ta > tr
    ensures p == 0.0 <==> ta == tr
    ensures p == 100.0 <==> ta == 0.0
  {
    assert p * tr == 100.0 * tr - 100.0 * ta;
    CancelPositive(p, 100.0, tr);
    CancelPositive(100.0, p, tr);
    CancelPositive(p, 0.0, tr);
  }

  /** Multiplying both sides by a positive number keeps order and
      equality. */
  lemma CancelPositive(a: real, b: real, d: real)
    requires 0.0 < d
    ensures a * d < b * d <==> a < b
    ensures a * d == b * d <==> a == b
  {
    if a < b {
      assert (b - a) * d > 0.0;
    } else if a > b {
      assert (a - b) * d > 0.0;
    }
  }

  /** The quote with no items: both totals, the discount and the percentage
      are all 0. */
  lemma EmptyQuote()
    ensures Total([], Reale) == 0.0 && Total([], Applicato) == 0.0
    ensures Sconto(0.0, 0.0) == 0.0
    ensures PercentualeSconto(Sconto(0.0, 0.0), 0.0) == 0.0
  {
  }

  /** A worked two-item quote: real 1000 + 500, applied 800 + 500. */
  lemma TwoItemQuote()
    ensures var items := [Item("A", "", "", 1000.0, 800.0), Item("B", "", "", 500.0, 500.0)];
            var tr, ta := Total(items, Reale), Total(items, Applicato);
            && tr == 1500.0 && ta == 1300.0
            && Sconto(tr, ta) == 200.0
            && PercentualeSconto(Sconto(tr, ta), tr) == 40.0 / 3.0
  {
    var items := [Item("A", "", "", 1000.0, 800.0), Item("B", "", "", 500.0, 500.0)];
    assert items[..1] == [items[0]];
    assert items[..1][..0] == [];
  }
}
