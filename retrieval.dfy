/**
 * The retrieval adapter (`query_cortex_search_service`, app.py:93-119) and
 * the completion adapter (`complete`, app.py:121-123). The search service,
 * the completion model and the service catalogue are opaque: they are the
 * fields of a `Backend` value.
 */
module Retrieval {
  import opened Wrappers
  import opened Text

  /** One search hit: column name to value. */
  type Row = map<string, string>

  /** One entry of `st.session_state.service_metadata`. */
  datatype ServiceInfo = ServiceInfo(name: string, searchColumn: string)

  /** The external collaborators, as seen by one session: the catalogue of
      search services, the one selected in the sidebar, the search call
      (with the fixed columns, language filter and chunk limit already
      applied) and the completion call (with the selected model). Each
      call gives `None` when it raises. */
  datatype Backend = Backend(
    services: seq<ServiceInfo>,
    selected: string,
    search: string -> Option<seq<Row>>,
    llm: string -> Option<string>)

  /** Exceptions the retrieval adapter lets escape: the service lookup or the
      search call raising, the `[0]` of an empty list (no service of the
      selected name) and `r[search_col]` on a hit without that column. */
  datatype SearchError = SearchRaised | NoSuchService | MissingColumn(column: string)

  /** `(context_str, results)`. */
  datatype Retrieved = Retrieved(context: string, results: seq<Row>)

  /** Position of the first service with the given name, or `|services|`. */
  function ServiceIndex(services: seq<ServiceInfo>, selected: string): (k: nat)
    ensures k <= |services|
    ensures forall j :: 0 <= j < k ==> services[j].name != selected
    ensures k < |services| ==> services[k].name == selected
  {
    if |services| == 0 then 0
    else if services[0].name == selected then 0
    else 1 + ServiceIndex(services[1..], selected)
  }

  /** `[s["search_column"] for s in meta if s["name"] == selected][0].lower()`. */
  function SearchColumn(services: seq<ServiceInfo>, selected: string): (r: Option<string>)
    ensures r.None? <==> forall j :: 0 <= j < |services| ==> services[j].name != selected
  {
    var k := ServiceIndex(services, selected);
    if k < |services| then Some(Lower(services[k].searchColumn)) else None
  }

  /** Every hit carries the column. */
  predicate HasColumn(rows: seq<Row>, col: string)
  {
    forall k :: 0 <= k < |rows| ==> col in rows[k]
  }

  /** The column's value in each hit, in result order. */
  function Column(rows: seq<Row>, col: string): seq<string>
    requires HasColumn(rows, col)
  {
    seq(|rows|, k requires 0 <= k < |rows| => rows[k][col])
  }

  /** The text added for the `n`-th result (counting from 1). */
  function Entry(n: nat, value: string): string
  {
    "Context document " + NatToString(n) + ": " + value + " \n" + "\n"
  }

  /** The context string for the given column values, built as the loop does:
      the text for the first `|vs| - 1` values, then the last one's entry. */
  function ContextText(vs: seq<string>): (r: string)
    ensures r == "" <==> vs == []
  {
    if |vs| == 0 then "" else ContextText(vs[..|vs| - 1]) + Entry(|vs|, vs[|vs| - 1])
  }

  /** An independent reading: entries labelled from `first` upwards, front to back. */
  function Labelled(vs: seq<string>, first: nat): string
  {
    if |vs| == 0 then "" else Entry(first, vs[0]) + Labelled(vs[1..], first + 1)
  }

  lemma {:induction false} LabelledSnoc(vs: seq<string>, v: string, first: nat)
    ensures Labelled(vs + [v], first) == Labelled(vs, first) + Entry(first + |vs|, v)
    decreases |vs|
  {
    if |vs| == 0 {
      assert vs + [v] == [v];
      assert Labelled([v], first) == Entry(first, v) + Labelled([], first + 1);
    } else {
      assert (vs + [v])[1..] == vs[1..] + [v];
      LabelledSnoc(vs[1..], v, first + 1);
    }
  }

  /** The context string is the concatenation, in result order, of one
      labelled entry per result, labels counting 1, 2, 3, ... */
  lemma {:induction false} ContextIsLabelled(vs: seq<string>)
    ensures ContextText(vs) == Labelled(vs, 1)
    decreases |vs|
  {
    if |vs| > 0 {
      var init := vs[..|vs| - 1];
      ContextIsLabelled(init);
      LabelledSnoc(init, vs[|vs| - 1], 1);
      assert init + [vs[|vs| - 1]] == vs;
    }
  }

  /** The text for the first `k` results is a prefix of the whole. */
  lemma {:induction false} ContextPrefix(vs: seq<string>, k: nat)
    requires k <= |vs|
    ensures |ContextText(vs[..k])| <= |ContextText(vs)|
    ensures ContextText(vs)[..|ContextText(vs[..k])|] == ContextText(vs[..k])
    decreases |vs|
  {
    if k < |vs| {
      var init := vs[..|vs| - 1];
      assert init[..k] == vs[..k];
      ContextPrefix(init, k);
    } else {
      assert vs[..k] == vs;
    }
  }

  /** Result `k` contributes exactly its entry, labelled `k + 1`, right after
      the text for the results before it. */
  lemma ContextEntryAt(vs: seq<string>, k: nat)
    requires k < |vs|
    ensures |ContextText(vs[..k])| + |Entry(k + 1, vs[k])| <= |ContextText(vs)|
    ensures ContextText(vs)[|ContextText(vs[..k])|..|ContextText(vs[..k])| + |Entry(k + 1, vs[k])|]
            == Entry(k + 1, vs[k])
  {
    var pre := vs[..k + 1];
    assert pre[..k] == vs[..k];
    assert ContextText(pre) == ContextText(vs[..k]) + Entry(k + 1, vs[k]);
    ContextPrefix(vs, k + 1);
    var whole := ContextText(vs);
    var a := |ContextText(vs[..k])|;
    assert whole[..|ContextText(pre)|] == ContextText(pre);
    assert whole[a..a + |Entry(k + 1, vs[k])|] == ContextText(pre)[a..];
  }

  /** One more hit adds its entry at the end of the context string. */
  lemma ContextStep(rows: seq<Row>, col: string, i: nat)
    requires i < |rows| && HasColumn(rows[..i], col) && col in rows[i]
    ensures HasColumn(rows[..i + 1], col)
    ensures ContextText(Column(rows[..i + 1], col)) == ContextText(Column(rows[..i], col)) + Entry(i + 1, rows[i][col])
  {
    assert forall k :: 0 <= k < i + 1 ==> rows[..i + 1][k] == rows[k];
    var vs := Column(rows[..i + 1], col);
    assert vs[..i] == Column(rows[..i], col);
  }

  /** The `context_str +=` loop: one entry per hit, in result order; the
      first hit without the column raises. */
  method BuildContext(rows: seq<Row>, col: string) returns (r: Option<string>)
    ensures r.Some? <==> HasColumn(rows, col)
    ensures r.Some? ==> r.value == ContextText(Column(rows, col))
  {
    var context := "";
    for i := 0 to |rows|
      invariant HasColumn(rows[..i], col)
      invariant context == ContextText(Column(rows[..i], col))
    {
      if col !in rows[i] {
        return None;
      }
      ContextStep(rows, col, i);
      context := context + Entry(i + 1, rows[i][col]);
    }
    assert rows[..|rows|] == rows;
    return Some(context);
  }

  /** What `query_cortex_search_service(query, ...)` returns or raises. */
  function Retrieve(b: Backend, query: string): (r: Result<Retrieved, SearchError>)
    ensures r == Failure(SearchRaised) <==> b.search(query).None?
    ensures r.Success? ==> b.search(query) == Some(r.value.results)
    ensures r == Failure(NoSuchService) <==>
              b.search(query).Some? && SearchColumn(b.services, b.selected).None?
  {
    match b.search(query)
    case None => Failure(SearchRaised)
    case Some(results) =>
      match SearchColumn(b.services, b.selected)
      case None => Failure(NoSuchService)
      case Some(col) =>
        if HasColumn(results, col) then Success(Retrieved(ContextText(Column(results, col)), results))
        else Failure(MissingColumn(col))
  }

  /** `query_cortex_search_service`: search, find the display column of the
      selected service, then build the context string. */
  method Query(b: Backend, query: string) returns (r: Result<Retrieved, SearchError>)
    ensures r == Retrieve(b, query)
  {
    var hits := b.search(query);
    if hits.None? {
      return Failure(SearchRaised);
    }
    var results := hits.value;
    var col := SearchColumn(b.services, b.selected);
    if col.None? {
      return Failure(NoSuchService);
    }
    var context := BuildContext(results, col.value);
    if context.None? {
      return Failure(MissingColumn(col.value));
    }
    return Success(Retrieved(context.value, results));
  }

  /** `complete(model, prompt)`: the model's text with every `$` escaped, or
      `None` when the completion call raises. */
  function Complete(b: Backend, prompt: string): (r: Option<string>)
    ensures r.Some? <==> b.llm(prompt).Some?
    ensures r.Some? ==> DollarsEscaped(r.value) && Replace(r.value, "\\$", "$") == b.llm(prompt).value
  {
    match b.llm(prompt)
    case None => None
    case Some(text) =>
      EscapeGuards(text);
      UnescapeEscape(text);
      Some(EscapeDollar(text))
  }
}
