/** The featured-snippet ("position zero") extractor of streamlit_app.py: for
    each query of a batch, ask the search API, pick the answer box or the
    featured snippet of the response, and build one table row holding the
    query and the snippet text, with an em dash when there is none; then show
    each row's text, or a notice when the row holds the em dash. */
module PositionZero {
  import opened PyValue

  /** The placeholder a row holds when no snippet text was found. */
  const Sentinel: Value := Str("\U{2014}")

  /** One row of the result table: column "Requête" is `query`, column
      "Position zéro" is `positionZero`. */
  datatype Row = Row(query: string, positionZero: Value)

  /** The request sent for one query: French interface and results, ten
      results, the configured key. */
  function SearchParams(query: string, apiKey: string): (p: map<string, Value>)
    ensures p.Keys == {"q", "api_key", "hl", "gl", "num"}
    ensures p["q"] == Str(query) && p["api_key"] == Str(apiKey)
    ensures p["hl"] == Str("fr") && p["gl"] == Str("fr") && p["num"] == Int(10)
  {
    map["q" := Str(query), "api_key" := Str(apiKey), "hl" := Str("fr"),
        "gl" := Str("fr"), "num" := Int(10)]
  }

  /** The block `get_featured_snippet` returns for a response: `answer_box`
      or `featured_snippet` or `{}`. It is a truthy value taken from the
      response, or else the empty dict. */
  function SelectBlock(results: map<string, Value>): (block: Value)
    ensures block == Get(results, "answer_box") || block == Get(results, "featured_snippet")
            || block == Dict(map[])
    ensures Truthy(block) || block == Dict(map[])
  {
    Or([Get(results, "answer_box"), Get(results, "featured_snippet"), Dict(map[])])
  }

  /** `get_featured_snippet(query)`, with the network call as `search`: it
      asks `search` for SearchParams(query, apiKey); if the client raises, so
      does this, otherwise it returns the block SelectBlock picks from the
      response. */
  function GetFeaturedSnippet(search: Search, query: string, apiKey: string): (r: Result<Value>)
    ensures var response := search(SearchParams(query, apiKey));
            && (response.Raised? ==> r == Raised(response.error))
            && (response.Ok? ==> r == Ok(SelectBlock(response.value)))
    ensures r.Ok? ==> Truthy(r.value) || r.value == Dict(map[])
  {
    match search(SearchParams(query, apiKey))
    case Raised(e) => Raised(e)
    case Ok(results) => Ok(SelectBlock(results))
  }

  /** The row text for a block: its `snippet`, or its `answer`, or the em
      dash. It is never falsy, and it is one of those three values. */
  function SnippetText(block: map<string, Value>): (text: Value)
    ensures Truthy(text)
    ensures text == Get(block, "snippet") || text == Get(block, "answer") || text == Sentinel
  {
    Or([Get(block, "snippet"), Get(block, "answer"), Sentinel])
  }

  /** One iteration of the loop of `fetch_snippets`: the row for `query`, or
      the exception of the search client, or the AttributeError raised by
      `fs.get` when the selected block is not a dict. Besides a client failure,
      a truthy answer box or featured snippet that is not a dict (a list, a
      string) is the only way a row can fail. */
  function RowFor(search: Search, query: string, apiKey: string): (r: Result<Row>)
    ensures var fs := GetFeaturedSnippet(search, query, apiKey);
            && (fs.Raised? ==> r == Raised(fs.error))
            && (fs.Ok? ==> (r.Raised? <==> Truthy(fs.value) && !fs.value.Dict?))
            && (fs.Ok? && r.Raised? ==> r.error == AttributeError)
            && (r.Ok? ==> fs.Ok? && fs.value.Dict? && r.value.positionZero == SnippetText(fs.value.entries))
    ensures r.Ok? ==> r.value.query == query
  {
    match GetFeaturedSnippet(search, query, apiKey)
    case Raised(e) => Raised(e)
    case Ok(Dict(block)) => Ok(Row(query, SnippetText(block)))
    case Ok(_) => Raised(AttributeError)
  }

  /** `fetch_snippets(queries)`: one row per query, in the order of the
      queries. The loop has no handler, so the first query whose search raises
      or whose block is not a dict aborts the whole batch with that exception. */
  method FetchSnippets(search: Search, queries: seq<string>, apiKey: string)
    returns (r: Result<seq<Row>>)
    ensures r.Ok? <==> forall i :: 0 <= i < |queries| ==> RowFor(search, queries[i], apiKey).Ok?
    ensures r.Raised? ==> exists i :: 0 <= i < |queries|
                            && RowFor(search, queries[i], apiKey) == Raised(r.error)
                            && forall j :: 0 <= j < i ==> RowFor(search, queries[j], apiKey).Ok?
    ensures r.Ok? ==> |r.value| == |queries|
    ensures r.Ok? ==> forall i :: 0 <= i < |queries| ==>
                        RowFor(search, queries[i], apiKey) == Ok(r.value[i])
                        && r.value[i].query == queries[i]
  {
    var snippets: seq<Row> := [];
    for i := 0 to |queries|
      invariant |snippets| == i
      invariant forall k :: 0 <= k < i ==> RowFor(search, queries[k], apiKey) == Ok(snippets[k])
    {
      var q := queries[i];
      var fs := GetFeaturedSnippet(search, q, apiKey);
      if fs.Raised? {
        return Raised(fs.error);
      }
      if !fs.value.Dict? {
        return Raised(AttributeError);
      }
      var texte := SnippetText(fs.value.entries);
      snippets := snippets + [Row(q, texte)];
    }
    return Ok(snippets);
  }

  /** The block is `answer_box` whenever that is truthy, else
      `featured_snippet` whenever that is truthy, else the empty dict. */
  lemma SelectBlockOrder(results: map<string, Value>)
    ensures Truthy(Get(results, "answer_box")) ==>
              SelectBlock(results) == Get(results, "answer_box")
    ensures !Truthy(Get(results, "answer_box")) && Truthy(Get(results, "featured_snippet")) ==>
              SelectBlock(results) == Get(results, "featured_snippet")
    ensures !Truthy(Get(results, "answer_box")) && !Truthy(Get(results, "featured_snippet")) ==>
              SelectBlock(results) == Dict(map[])
  {
    var ops := [Get(results, "answer_box"), Get(results, "featured_snippet"), Dict(map[])];
    if Truthy(ops[0]) {
      OrPicks(ops, 0);
    } else if Truthy(ops[1]) {
      OrPicks(ops, 1);
    } else {
      OrPicks(ops, 2);
    }
  }

  /** The row text is the snippet whenever it is truthy, whatever the answer
      is; else the answer whenever it is truthy; else the em dash. */
  lemma SnippetTextFallback(block: map<string, Value>)
    ensures Truthy(Get(block, "snippet")) ==> SnippetText(block) == Get(block, "snippet")
    ensures !Truthy(Get(block, "snippet")) && Truthy(Get(block, "answer")) ==>
              SnippetText(block) == Get(block, "answer")
    ensures !Truthy(Get(block, "snippet")) && !Truthy(Get(block, "answer")) ==>
              SnippetText(block) == Sentinel
  {
    var ops := [Get(block, "snippet"), Get(block, "answer"), Sentinel];
    if Truthy(ops[0]) {
      OrPicks(ops, 0);
    } else if Truthy(ops[1]) {
      OrPicks(ops, 1);
    } else {
      OrPicks(ops, 2);
    }
  }

  /** A response with neither an answer box nor a featured snippet (both
      missing or empty) gives the em dash row, never an error. */
  lemma NoPositionZeroGivesSentinel(search: Search, query: string, apiKey: string)
    requires var response := search(SearchParams(query, apiKey));
             && response.Ok?
             && !Truthy(Get(response.value, "answer_box"))
             && !Truthy(Get(response.value, "featured_snippet"))
    ensures RowFor(search, query, apiKey) == Ok(Row(query, Sentinel))
  {
  }

  /** What the page shows under a row's heading. */
  datatype Body = Markdown(text: Value) | Info(message: string)

  /** The section shown for one row: a heading with the query, then the body
      (the horizontal rule drawn before it is not modelled). */
  datatype Panel = Panel(heading: string, body: Body)

  const NoSnippetNotice: string := "Pas de featured snippet trouvé pour cette requête."

  /** The subheading of a row: a magnifier emoji, a space, then the query,
      which can be read back from it. */
  function Heading(query: string): (h: string)
    ensures |h| == |query| + 2 && h[..2] == "\U{1F50D} " && h[2..] == query
  {
    "\U{1F50D} " + query
  }

  /** The display of one row: its text, or the notice when the text is the em
      dash. */
  function Present(row: Row): (p: Panel)
    ensures p.heading == Heading(row.query)
    ensures p.body.Info? <==> row.positionZero == Sentinel
    ensures p.body.Info? ==> p.body.message == NoSnippetNotice
    ensures p.body.Markdown? ==> p.body.text == row.positionZero
  {
    Panel(Heading(row.query),
          if row.positionZero != Sentinel then Markdown(row.positionZero) else Info(NoSnippetNotice))
  }

  /** The display loop over the rows of the table, one panel per row in row
      order. */
  method ShowRows(rows: seq<Row>) returns (panels: seq<Panel>)
    ensures |panels| == |rows|
    ensures forall i :: 0 <= i < |rows| ==> panels[i] == Present(rows[i])
  {
    panels := [];
    for i := 0 to |rows|
      invariant |panels| == i
      invariant forall k :: 0 <= k < i ==> panels[k] == Present(rows[k])
    {
      var row := rows[i];
      var body := if row.positionZero != Sentinel then Markdown(row.positionZero)
                  else Info(NoSnippetNotice);
      panels := panels + [Panel(Heading(row.query), body)];
    }
  }

  /** For a row built from a block, the notice is shown exactly when neither
      `snippet` nor `answer` is truthy, or when the first truthy one is itself
      the em dash string: a snippet that reads "—" cannot be told apart from a
      missing one. */
  lemma NoticeShownIff(query: string, block: map<string, Value>)
    ensures Present(Row(query, SnippetText(block))).body.Info? <==>
              var snippet, answer := Get(block, "snippet"), Get(block, "answer");
              || (!Truthy(snippet) && !Truthy(answer))
              || (Truthy(snippet) && snippet == Sentinel)
              || (!Truthy(snippet) && Truthy(answer) && answer == Sentinel)
  {
    SnippetTextFallback(block);
  }
}
