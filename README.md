# scraper-SERP, modelled in Dafny

Two small Streamlit scripts around the SerpAPI Google search service.

- `streamlit_app.py` extracts the "position zero" of each query of a batch.
  For each query it sends one search. It takes the response's `answer_box`, or else its `featured_snippet`, or else `{}`.
  From that block it takes `snippet`, or else `answer`, or else an em dash.
  It builds one row (query, text) per query, and then shows each row's text, or a notice when the text is the em dash.
- `Scraper.py` sends one search for a query.
  It keeps the `link` of every organic result that has a truthy one, in order.
  It then reports how many links it found, or that there were none.
  It never fetches when the API key is empty.

The model is written against Python's semantics, stated explicitly:

- `PyValue` (py_value.dfy) holds the decoded JSON values and their truthiness.
  It also gives `dict.get` with and without a default.
  It gives the `or` chain as "first truthy operand, else the last one".
  It names the two exceptions a malformed response can cause: `AttributeError` and `TypeError`.
- `PyInt` (py_int.dfy) models `str(n)` for an integer, with its inverse.
- `PositionZero` (position_zero.dfy) models `streamlit_app.py`.
- `Scraper` (scraper.dfy) models `Scraper.py`.

The search API call is a function parameter `search`. It maps the request parameters to the decoded response dict, or to the exception the client raised.
The Streamlit inputs are ordinary parameters: the key from the secrets, the query, the count and whether the button was pressed.

What the code does, and the model with it:

- These two files have no worker pool, cache key, time-to-live, progress counter, "People Also Ask" extraction or per-query error row.
- `fetch_snippets` has no exception handler. If the search client raises, or a selected block is truthy but not a dict (so `fs.get` raises), the whole batch aborts. `PositionZero.FetchSnippets` returns the exception of the first query that fails.
- `main` in `Scraper.py` does not catch an exception of `fetch_urls` either. `Scraper.RunMain` ends in `Crashed` with that exception.
- The fallbacks test truthiness, not presence. An empty `snippet` falls through to `answer`, and an empty `answer_box` falls through to `featured_snippet`.
- Row texts and links are kept as values. The code never checks that they are strings.

## Model

| member | source | states |
|---|---|---|
| PyValue.Or | streamlit_app.py:45 | an `or` chain yields one of its operands; it is truthy exactly when some operand is, and otherwise it is the last operand |
| PyValue.OrPicks | streamlit_app.py:59 | the chain yields operand i whenever all earlier operands are falsy and i is truthy or last |
| PyValue.OrAssociates | streamlit_app.py:59 | `(a or b) or c` gives the same value as the flat chain `a or b or c` |
| PyValue.Truthy | streamlit_app.py:45 | None, False, zero and the empty string, list and dict are falsy; a non-empty string, list or dict is truthy |
| PyValue.Get | streamlit_app.py:59 | `d.get(k)` is the value under k, or None when the key is missing |
| PyValue.GetOr | Scraper.py:29 | `d.get(k, default)` is the value under k, or the default exactly when the key is missing |
| PyInt.Repr | Scraper.py:24 | `str(num)` is a canonical decimal spelling: optional minus sign, digits, no leading zero, no "-0" |
| PyInt.ReprRoundTrip | Scraper.py:24 | reading `str(num)` back as a decimal gives `num` |
| PyInt.ReprInjective | Scraper.py:24 | distinct counts are sent as distinct strings |
| PyInt.DigitsCanonical | Scraper.py:24 | a digit string with no leading zero (other than "0") is exactly the digit spelling of the number it denotes |
| PyInt.ReprOfDecimalValue | Scraper.py:24 | every canonical decimal spelling is `str` of the number it denotes, so each count has exactly one spelling |
| PositionZero.SearchParams | streamlit_app.py:35-41 | the request has exactly the keys q, api_key, hl, gl and num, with the query and key verbatim, French language and country, and ten results |
| PositionZero.SelectBlock | streamlit_app.py:45 | the selected block is the answer box, the featured snippet or `{}`, and it is truthy unless it is `{}` |
| PositionZero.SelectBlockOrder | streamlit_app.py:45 | the answer box wins when truthy; otherwise a truthy featured snippet wins; otherwise the block is `{}` |
| PositionZero.GetFeaturedSnippet | streamlit_app.py:30-45 | asks `search` for SearchParams(query, key); raises what the client raises; otherwise returns SelectBlock of the response, which is truthy or `{}` |
| PositionZero.SnippetText | streamlit_app.py:59 | the row text is never falsy, and it is the snippet, the answer or the em dash |
| PositionZero.SnippetTextFallback | streamlit_app.py:59 | a truthy snippet is the text whatever the answer is; otherwise a truthy answer is; otherwise the text is the em dash |
| PositionZero.NoPositionZeroGivesSentinel | streamlit_app.py:45-59 | a response whose answer box and featured snippet are both missing or empty gives the row (query, em dash), not an error |
| PositionZero.RowFor | streamlit_app.py:58-60 | one query's step raises what the client raised if it raised; otherwise it raises AttributeError exactly when the selected block is truthy but not a dict; a row it returns carries the query and SnippetText of the selected dict |
| PositionZero.FetchSnippets | streamlit_app.py:56-61 | it succeeds exactly when every query's step does; it then has one row per query, in input order, with row i carrying query i and the text from query i's response; otherwise it raises the exception of the first query whose step fails |
| PositionZero.Present | streamlit_app.py:81-85 | a row shows the notice exactly when its text equals the em dash, and otherwise shows its text under the query heading |
| PositionZero.ShowRows | streamlit_app.py:79-85 | the display loop produces one panel per row, in row order, each as Present gives it |
| PositionZero.Heading | streamlit_app.py:81 | the subheading is the magnifier emoji, a space and the query, so the query can be read back from it |
| PositionZero.NoticeShownIff | streamlit_app.py:59-85 | the notice appears exactly when neither snippet nor answer is truthy, or when the first truthy one is itself the em dash |
| Scraper.Params | Scraper.py:17-26 | the request has exactly the eight keys, all strings; q, location and api_key are verbatim; engine, google_domain, gl and hl are fixed; num reads back as the given count |
| Scraper.KeepLinks | Scraper.py:30 | the comprehension succeeds exactly when every organic item is a dict, and otherwise raises AttributeError; every kept link is truthy; there are at most as many links as items |
| Scraper.ExtractLinks | Scraper.py:29-30 | a response without `organic_results` yields the empty list; a list of organic results yields exactly what the comprehension over it yields (KeepLinks), so at most as many links as results; every returned link is truthy |
| Scraper.FetchUrls | Scraper.py:13-30 | asks `search` for Params(query, key, location, num), with defaults France and 50; raises what the client raises; otherwise returns ExtractLinks of the response, every link truthy |
| Scraper.LinkIndicesSelectLinks | Scraper.py:30 | the positions of the kept items are strictly increasing, in range, and are exactly the items with a truthy link |
| Scraper.KeepLinksAppend | Scraper.py:30 | filtering the concatenation of two lists of dicts is the concatenation of the two filters |
| Scraper.KeepLinksIsOrderedFilter | Scraper.py:30 | link k of the result is the link of the k-th organic item that has a truthy link, so the result is the order-preserving filter |
| Scraper.FetchUrlsIsOrderedFilter | Scraper.py:13-30 | end to end: when the response holds a list of organic results and `fetch_urls` returns, link k of its result is the link of the k-th organic result with a truthy link |
| Scraper.RunMain | Scraper.py:40-63 | the missing-key warning shows exactly when the key is empty; `fetch_urls(query, key, num=num)` is called exactly when the button is pressed and the key is not empty; without that call nothing is shown; with an empty key only the warning shows, whether or not the button is pressed |
| Scraper.SuccessMessage | Scraper.py:50 | the success message starts with exactly `str(count)` followed by a space, so its leading digit run reads back as the count |
| Scraper.MainBranches | Scraper.py:48-63 | after the call, an exception of fetch_urls crashes main with that exception; a non-empty list gives the success branch, which lists exactly those links and whose message starts with `str` of their number followed by a space, reading back as that number; an empty list gives the "no organic result" error |

## Left out

- The SerpAPI client (`GoogleSearch(params).get_dict()`) is a network call into a library that is not part of this model. It is the `search` parameter. It returns a response or raises one generic `ClientError`; the client's own exception types are not modelled.
- `search` is a function, so the model gives the same response to the same request every time. The real service may answer the same query differently from one call to the next.
- The query list fetched from GitHub and parsed by `pd.read_csv` at module scope is network I/O and library parsing. `FetchSnippets` takes the queries as a sequence of strings, so a non-string cell such as a NaN is not modelled.
- `st.cache_data` memoisation is library caching with no logic of its own in these files. With it, a repeated `fetch_urls` or `fetch_snippets` call with the same arguments sends no network request and returns the stored result. So `Scraper.Screen.fetchCalls` counts calls to `fetch_urls`, not requests that reach the network.
- The secrets lookups and the `serpapi` import fallback are environment plumbing. `SERPAPI_KEY = st.secrets["serpapi_key"]` raising on a missing key is not modelled.
- The Streamlit page itself is presentation and is not modelled: page config, titles, text input, slider, spinner, table display and download button.
- The pandas DataFrame construction and CSV encoding (`to_csv(...).encode("utf-8")`) follow pandas' quoting rules, and pandas is not part of this model.
- Float values are modelled as reals. NaN and infinities, which JSON does not produce, are not modelled.
- Iterating a non-empty string or dict in place of a list of organic results is modelled only by its outcome (AttributeError on the first element), not by the order in which the elements are visited.
