/** The organic-link scraper of Scraper.py: send one Google search for a
    query, keep the `link` of every organic result that has one, and report
    either how many links came back or that there were none. */
module Scraper {
  import opened PyValue
  import PyInt

  /** The request `fetch_urls` sends: Google on google.fr, French results and
      interface, the query, location and key as given, and the result count
      spelled in decimal. */
  function Params(query: string, apiKey: string, location: string, num: int): (p: map<string, Value>)
    ensures p.Keys == {"engine", "q", "location", "google_domain", "gl", "hl", "num", "api_key"}
    ensures forall k :: k in p ==> p[k].Str?
    ensures p["q"] == Str(query) && p["api_key"] == Str(apiKey) && p["location"] == Str(location)
    ensures p["engine"] == Str("google") && p["google_domain"] == Str("google.fr")
    ensures p["gl"] == Str("fr") && p["hl"] == Str("fr")
    ensures PyInt.IsCanonicalDecimal(p["num"].s) && PyInt.DecimalValue(p["num"].s) == num
  {
    PyInt.ReprRoundTrip(num);
    map[
      "engine" := Str("google"),
      "q" := Str(query),
      "location" := Str(location),
      "google_domain" := Str("google.fr"),
      "gl" := Str("fr"),
      "hl" := Str("fr"),
      "num" := Str(PyInt.Repr(num)),
      "api_key" := Str(apiKey)
    ]
  }

  /** `item.get("link")`, for an item that is a dict. */
  function LinkOf(item: map<string, Value>): Value
  {
    Get(item, "link")
  }

  /** An organic result the comprehension keeps: a dict with a truthy link. */
  predicate HasLink(item: Value)
  {
    item.Dict? && Truthy(LinkOf(item.entries))
  }

  /** `[item.get("link") for item in organic if item.get("link")]` over a
      list: the truthy links, at most one per item; it raises AttributeError
      exactly when some item is not a dict. */
  function KeepLinks(organic: seq<Value>): (r: Result<seq<Value>>)
    ensures r.Ok? <==> forall i :: 0 <= i < |organic| ==> organic[i].Dict?
    ensures r.Raised? ==> r.error == AttributeError
    ensures r.Ok? ==> |r.value| <= |organic|
    ensures r.Ok? ==> forall k :: 0 <= k < |r.value| ==> Truthy(r.value[k])
  {
    if organic == [] then Ok([])
    else match organic[0]
      case Dict(item) =>
        var rest := KeepLinks(organic[1..]);
        if rest.Raised? then rest
        else if Truthy(LinkOf(item)) then Ok([LinkOf(item)] + rest.value)
        else rest
      case _ => Raised(AttributeError)
  }

  /** The link-extraction step of `fetch_urls`: `organic_results`, defaulting
      to an empty list, run through the comprehension. Iterating an empty
      string or dict yields nothing; a non-empty one yields strings, whose
      missing `.get` raises; any other non-list is not iterable. */
  function ExtractLinks(data: map<string, Value>): (r: Result<seq<Value>>)
    ensures "organic_results" !in data ==> r == Ok([])
    ensures "organic_results" in data && data["organic_results"].List? ==>
              r == KeepLinks(data["organic_results"].items)
    ensures r.Ok? ==> forall k :: 0 <= k < |r.value| ==> Truthy(r.value[k])
    ensures "organic_results" in data && data["organic_results"].List? ==>
              r.Ok? ==> |r.value| <= |data["organic_results"].items|
  {
    match GetOr(data, "organic_results", List([]))
    case List(organic) => KeepLinks(organic)
    case Str(s) => if s == "" then Ok([]) else Raised(AttributeError)
    case Dict(m) => if m == map[] then Ok([]) else Raised(AttributeError)
    case _ => Raised(TypeError)
  }

  /** `fetch_urls(query, api_key, location, num)`, the network call being
      `search`: it asks `search` for Params(query, apiKey, location, num); if
      the client raises, so does this, otherwise it returns the links
      ExtractLinks takes from the response, each of them truthy. */
  function FetchUrls(search: Search, query: string, apiKey: string,
                     location: string := "France", num: int := 50): (r: Result<seq<Value>>)
    ensures var response := search(Params(query, apiKey, location, num));
            && (response.Raised? ==> r == Raised(response.error))
            && (response.Ok? ==> r == ExtractLinks(response.value))
    ensures r.Ok? ==> forall k :: 0 <= k < |r.value| ==> Truthy(r.value[k])
  {
    match search(Params(query, apiKey, location, num))
    case Raised(e) => Raised(e)
    case Ok(data) => ExtractLinks(data)
  }

  /** The positions of the items the comprehension keeps, in increasing
      order. */
  function LinkIndices(organic: seq<Value>): seq<int>
  {
    if organic == [] then []
    else
      var n := |organic| - 1;
      LinkIndices(organic[..n]) + (if HasLink(organic[n]) then [n] else [])
  }

  /** LinkIndices lists, in strictly increasing order, exactly the positions
      of the items that have a truthy link. */
  lemma {:induction false} LinkIndicesSelectLinks(organic: seq<Value>)
    ensures var idx := LinkIndices(organic);
            && (forall k :: 0 <= k < |idx| ==> 0 <= idx[k] < |organic|)
            && (forall k, l :: 0 <= k < l < |idx| ==> idx[k] < idx[l])
            && (forall i :: 0 <= i < |organic| ==> (HasLink(organic[i]) <==> i in idx))
  {
    if organic != [] {
      var n := |organic| - 1;
      var init := organic[..n];
      LinkIndicesSelectLinks(init);
      assert forall i :: 0 <= i < n ==> organic[i] == init[i];
    }
  }

  /** Keeping links distributes over concatenation of all-dict lists. */
  lemma {:induction false} KeepLinksAppend(a: seq<Value>, b: seq<Value>)
    requires forall i :: 0 <= i < |a| ==> a[i].Dict?
    requires forall i :: 0 <= i < |b| ==> b[i].Dict?
    ensures KeepLinks(a + b) == Ok(KeepLinks(a).value + KeepLinks(b).value)
  {
    if a != [] {
      assert (a + b)[0] == a[0];
      assert (a + b)[1..] == a[1..] + b;
      KeepLinksAppend(a[1..], b);
      var item := a[0].entries;
      if Truthy(LinkOf(item)) {
        assert KeepLinks(a + b).value == [LinkOf(item)] + KeepLinks(a[1..] + b).value;
        assert KeepLinks(a).value == [LinkOf(item)] + KeepLinks(a[1..]).value;
        assert [LinkOf(item)] + (KeepLinks(a[1..]).value + KeepLinks(b).value)
            == ([LinkOf(item)] + KeepLinks(a[1..]).value) + KeepLinks(b).value;
      }
    } else {
      assert a + b == b;
      assert KeepLinks(b).Ok?;
      assert KeepLinks(a).value + KeepLinks(b).value == KeepLinks(b).value;
    }
  }

  /** The links returned are the in-order filter of the organic results:
      link k is the link of the k-th item that has one. */
  lemma {:induction false} KeepLinksIsOrderedFilter(organic: seq<Value>)
    requires forall i :: 0 <= i < |organic| ==> organic[i].Dict?
    ensures var links, idx := KeepLinks(organic).value, LinkIndices(organic);
            && |links| == |idx|
            && forall k :: 0 <= k < |idx| ==> 0 <= idx[k] < |organic| && links[k] == LinkOf(organic[idx[k]].entries)
  {
    if organic != [] {
      var n := |organic| - 1;
      var init, last := organic[..n], organic[n];
      assert organic == init + [last];
      KeepLinksIsOrderedFilter(init);
      KeepLinksAppend(init, [last]);
      assert [last][1..] == [];
      LinkIndicesSelectLinks(init);
    }
  }

  /** End to end: when the response holds a list of organic results and
      `fetch_urls` returns, link k of its result is the link of the k-th
      organic result that has a truthy one. */
  lemma FetchUrlsIsOrderedFilter(search: Search, query: string, apiKey: string, location: string, num: int)
    requires var response := search(Params(query, apiKey, location, num));
             response.Ok? && "organic_results" in response.value
             && response.value["organic_results"].List?
    requires FetchUrls(search, query, apiKey, location, num).Ok?
    ensures var response := search(Params(query, apiKey, location, num));
            var organic := response.value["organic_results"].items;
            var links, idx := FetchUrls(search, query, apiKey, location, num).value, LinkIndices(organic);
            && |links| == |idx|
            && forall k :: 0 <= k < |idx| ==> 0 <= idx[k] < |organic| && links[k] == LinkOf(organic[idx[k]].entries)
  {
    var organic := search(Params(query, apiKey, location, num)).value["organic_results"].items;
    KeepLinksIsOrderedFilter(organic);
  }

  /** What `main` ends up showing. */
  datatype Outcome =
    | Idle                   // button not pressed, or no key
    | Listed(urls: seq<Value>, message: string) // success message, URL table and CSV download
    | NoOrganicResult        // error message
    | Crashed(error: PyError) // fetch_urls raised, uncaught

  /** The arguments of one call to `fetch_urls`. */
  datatype FetchCall = FetchCall(query: string, apiKey: string, location: string, num: int)

  /** The page after one run of `main`: whether the missing-key warning is
      shown, the calls made to `fetch_urls`, and the outcome. */
  datatype Screen = Screen(keyWarning: bool, fetchCalls: seq<FetchCall>, outcome: Outcome)

  /** The success message: the number of links in decimal, then a space and
      the text, so the run of characters before the first space reads back as
      the count. */
  function SuccessMessage(count: nat): (m: string)
    ensures var digits := PyInt.Repr(count);
            && |digits| < |m| && m[..|digits|] == digits && m[|digits|] == ' '
            && PyInt.DecimalValue(m[..|digits|]) == count
  {
    PyInt.ReprRoundTrip(count);
    var m := PyInt.Repr(count) + " URLs récupérées.";
    assert m[..|PyInt.Repr(count)|] == PyInt.Repr(count);
    m
  }

  /** `main`, given the key read from the secrets, the query and count typed
      in, and whether the run button was pressed. */
  function RunMain(search: Search, apiKey: string, query: string, num: int, pressed: bool): (screen: Screen)
    ensures screen.keyWarning <==> apiKey == ""
    ensures screen.fetchCalls != [] <==> pressed && apiKey != ""
    ensures screen.fetchCalls != [] ==> screen.fetchCalls == [FetchCall(query, apiKey, "France", num)]
    ensures screen.fetchCalls == [] <==> screen.outcome == Idle
    ensures apiKey == "" ==> screen == Screen(true, [], Idle)
  {
    var warned := apiKey == "";
    if pressed && apiKey != "" then
      var outcome := match FetchUrls(search, query, apiKey, num := num)
        case Raised(e) => Crashed(e)
        case Ok(urls) => if |urls| > 0 then Listed(urls, SuccessMessage(|urls|)) else NoOrganicResult;
      Screen(warned, [FetchCall(query, apiKey, "France", num)], outcome)
    else
      Screen(warned, [], Idle)
  }

  /** After a fetch, a non-empty link list leads to the success branch, which
      shows the links and a message whose leading digits, up to the first
      space, read back as the number of links; an empty one leads to the
      "no organic result" branch; an exception of fetch_urls leaves main
      uncaught. */
  lemma MainBranches(search: Search, apiKey: string, query: string, num: int)
    requires apiKey != ""
    ensures var fetched := FetchUrls(search, query, apiKey, num := num);
            var screen := RunMain(search, apiKey, query, num, true);
            && (fetched.Raised? ==> screen.outcome == Crashed(fetched.error))
            && (fetched.Ok? && |fetched.value| > 0 ==>
                  && screen.outcome.Listed?
                  && screen.outcome.urls == fetched.value
                  && var digits := PyInt.Repr(|fetched.value|);
                     && screen.outcome.message[..|digits|] == digits
                     && screen.outcome.message[|digits|] == ' '
                     && PyInt.DecimalValue(screen.outcome.message[..|digits|]) == |fetched.value|)
            && (fetched.Ok? && |fetched.value| == 0 ==> screen.outcome == NoOrganicResult)
  {
  }
}
