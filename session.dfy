/** The session-held list of line items, `st.session_state.lista_voci`,
    and what one run of the form script does to it (app.py:17-36). */
module QuoteSession {
  import opened QuoteItems

  datatype Option<T> = None | Some(value: T)

  /** The list a session holds once the script has made sure it exists:
      the held one, or a new empty one when the key is absent. */
  function ListOrEmpty(held: Option<seq<Item>>): seq<Item>
  {
    match held
    case None => []
    case Some(items) => items
  }

  /** The list after a sequence of script runs, each of which either
      submitted the form with an item (`Some(item)`) or did not (`None`),
      starting from the list the session holds beforehand. */
  function AfterRuns(held: Option<seq<Item>>, runs: seq<Option<Item>>): seq<Item>
    decreases |runs|
  {
    if runs == [] then ListOrEmpty(held)
    else
      var before := AfterRuns(held, runs[..|runs| - 1]);
      match runs[|runs| - 1]
      case None => before
      case Some(item) => before + [item]
  }

  /** The items that were submitted, in submission order. */
  function Submitted(runs: seq<Option<Item>>): seq<Item>
    decreases |runs|
  {
    if runs == [] then []
    else
      var before := Submitted(runs[..|runs| - 1]);
      match runs[|runs| - 1]
      case None => before
      case Some(item) => before + [item]
  }

  /** The list is append-only: after any runs it is the list held before
      (empty if there was none) followed by exactly the submitted items, in
      the order they were submitted. */
  lemma {:induction false} AfterRunsAppendsSubmitted(held: Option<seq<Item>>, runs: seq<Option<Item>>)
    ensures AfterRuns(held, runs) == ListOrEmpty(held) + Submitted(runs)
    decreases |runs|
  {
    if runs != [] {
      AfterRunsAppendsSubmitted(held, runs[..|runs| - 1]);
    }
  }

  /** After any runs, the real total of the list is the total held before
      plus the real prices of the submitted items (likewise for the applied
      total): submitting never changes what earlier items contribute. */
  lemma AfterRunsTotals(held: Option<seq<Item>>, runs: seq<Option<Item>>, col: Column)
    ensures Total(AfterRuns(held, runs), col) == Total(ListOrEmpty(held), col) + Total(Submitted(runs), col)
  {
    AfterRunsAppendsSubmitted(held, runs);
    TotalAppend(ListOrEmpty(held), Submitted(runs), col);
  }

  /** One more run after some runs is the same as running them all: what
      `Session.Run` promises for a single run therefore chains, call after
      call, into `AfterRuns` over the whole sequence. */
  lemma RunComposes(held: Option<seq<Item>>, runs: seq<Option<Item>>, submitted: Option<Item>)
    ensures AfterRuns(Some(AfterRuns(held, runs)), [submitted]) == AfterRuns(held, runs + [submitted])
  {
    assert [submitted][..0] == [];
    assert (runs + [submitted])[..|runs|] == runs;
  }

  /** The slice of `st.session_state` this program uses: `None` while the
      key "lista_voci" is absent, the list once it is present. */
  class Session {
    var listaVoci: Option<seq<Item>>

    /** A new browser session: the key is absent. */
    constructor ()
      ensures listaVoci == None
    {
      listaVoci := None;
    }

    /** `if "lista_voci" not in st.session_state: ... = []` (app.py:26-27):
        creates an empty list only when none is held, and never resets an
        existing one. */
    method EnsureList()
      modifies this
      ensures listaVoci == Some(ListOrEmpty(old(listaVoci)))
      ensures old(listaVoci).Some? ==> listaVoci == old(listaVoci)
    {
      if listaVoci.None? {
        listaVoci := Some([]);
      }
    }

    /** `lista_voci.append({...})` (app.py:30-36): one record at the end;
        every earlier record keeps its position and value. */
    method AddItem(item: Item)
      requires listaVoci.Some?
      modifies this
      ensures listaVoci.Some?
      ensures listaVoci.value == old(listaVoci.value) + [item]
      ensures |listaVoci.value| == |old(listaVoci.value)| + 1
      ensures forall i :: 0 <= i < |old(listaVoci.value)| ==> listaVoci.value[i] == old(listaVoci.value)[i]
    {
      listaVoci := Some(listaVoci.value + [item]);
    }

    /** One run of the script's list handling (app.py:26-36): make sure the
        list exists, then append the form's record if the form was
        submitted (`aggiungi`). */
    method Run(submitted: Option<Item>)
      modifies this
      ensures listaVoci == Some(AfterRuns(old(listaVoci), [submitted]))
    {
      EnsureList();
      if submitted.Some? {
        AddItem(submitted.value);
      }
      assert [submitted][..0] == [];
    }
  }
}
