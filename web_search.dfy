/** The Tavily web searcher: construction from the environment, shaping of
    the client's results, and formatting them as text. The Tavily client is a
    parameter. */
module WebSearch {
  import opened Wrappers
  import Py

  /** A result as the client returns it: any of its keys may be missing. */
  datatype RawResult = RawResult(title: Option<string>, content: Option<string>, url: Option<string>, score: Option<real>)

  /** The dict search() builds for each kept result. */
  datatype WebResult = WebResult(title: string, content: string, url: string, score: real)

  /** The arguments search() passes on to the client. */
  datatype Request = Request(
    query: string,
    searchDepth: string,
    maxResults: int,
    includeDomains: Option<seq<string>>,
    excludeDomains: Option<seq<string>>,
    includeRawContent: bool)

  /** The client's search: the "results" list of its reply (None when the
      reply has no such key), or an exception. */
  type Client = Request -> Result<Option<seq<RawResult>>>

  datatype WebSearcher = WebSearcher(apiKey: string, client: Client)

  /** WebSearcher(): needs a non-empty TAVILY_API_KEY in the environment. */
  function New(env: map<string, string>, client: Client): (r: Result<WebSearcher>)
    ensures r.Failure? <==> "TAVILY_API_KEY" !in env || env["TAVILY_API_KEY"] == ""
    ensures r.Failure? ==> r.error == ValueError("TAVILY_API_KEY environment variable is not set")
    ensures r.Success? ==> r.value.apiKey == env["TAVILY_API_KEY"] && r.value.client == client
  {
    if "TAVILY_API_KEY" !in env || env["TAVILY_API_KEY"] == "" then
      Failure(ValueError("TAVILY_API_KEY environment variable is not set"))
    else Success(WebSearcher(env["TAVILY_API_KEY"], client))
  }

  /** The dict built for one raw result: missing text keys become "" and a
      missing score 0. */
  function Shape(r: RawResult): (w: WebResult)
    ensures w.title == (if r.title.Some? then r.title.value else "")
    ensures w.content == (if r.content.Some? then r.content.value else "")
    ensures w.url == (if r.url.Some? then r.url.value else "")
    ensures w.score == (if r.score.Some? then r.score.value else 0.0)
  {
    WebResult(r.title.GetOr(""), r.content.GetOr(""), r.url.GetOr(""), r.score.GetOr(0.0))
  }

  const DefaultMaxResults := 1

  /** search(query, max_results, ...): shaped results[:max_results]; any client
      exception gives []. */
  function Search(ws: WebSearcher, query: string, maxResults: int, searchDepth: string,
                  includeDomains: Option<seq<string>>, excludeDomains: Option<seq<string>>,
                  includeRawContent: bool): (r: seq<WebResult>)
    ensures var reply := ws.client(Request(query, searchDepth, maxResults, includeDomains, excludeDomains, includeRawContent));
      && (reply.Failure? ==> r == [])
      && (reply.Success? ==>
            var raw := reply.value.GetOr([]);
            && |r| <= |raw|
            && (maxResults >= 0 ==> |r| <= maxResults)
            && (0 <= maxResults <= |raw| ==> |r| == maxResults)
            && (maxResults > |raw| ==> |r| == |raw|)
            && (maxResults < 0 ==> |r| == (if |raw| + maxResults < 0 then 0 else |raw| + maxResults))
            && forall k :: 0 <= k < |r| ==> r[k] == Shape(raw[k]))
  {
    var reply := ws.client(Request(query, searchDepth, maxResults, includeDomains, excludeDomains, includeRawContent));
    if reply.Failure? then []
    else
      var kept := Py.SliceTo(reply.value.GetOr([]), maxResults);
      seq(|kept|, k requires 0 <= k < |kept| => Shape(kept[k]))
  }

  const NoResults := "No related web search results found."
  const Header := "Here are the related web search results:\n"

  /** The three lines of the i-th result. */
  function ResultLines(i: nat, w: WebResult): seq<string> {
    [Py.NatToString(i) + ". " + w.title, "   " + w.content, "   Source: " + w.url + "\n"]
  }

  /** The lines of results numbered from `first`. */
  function LinesFrom(first: nat, results: seq<WebResult>): seq<string>
    decreases |results|
  {
    if results == [] then [] else ResultLines(first, results[0]) + LinesFrom(first + 1, results[1..])
  }

  lemma {:induction false} LinesFromAppend(first: nat, results: seq<WebResult>, w: WebResult)
    ensures LinesFrom(first, results + [w]) == LinesFrom(first, results) + ResultLines(first + |results|, w)
    decreases |results|
  {
    if results == [] {
      assert LinesFrom(first + 1, []) == [];
    } else {
      assert (results + [w])[0] == results[0] && (results + [w])[1..] == results[1..] + [w];
      LinesFromAppend(first + 1, results[1..], w);
    }
  }

  /** Three lines per result: its number and title, its indented content, and
      its source URL. */
  lemma {:induction false} LinesFromShape(first: nat, results: seq<WebResult>)
    ensures |LinesFrom(first, results)| == 3 * |results|
    ensures forall k :: 0 <= k < |results| ==>
              LinesFrom(first, results)[3 * k] == Py.NatToString(first + k) + ". " + results[k].title
              && LinesFrom(first, results)[3 * k + 1] == "   " + results[k].content
              && LinesFrom(first, results)[3 * k + 2] == "   Source: " + results[k].url + "\n"
    decreases |results|
  {
    if results != [] {
      LinesFromShape(first + 1, results[1..]);
      var head := ResultLines(first, results[0]);
      var rest := LinesFrom(first + 1, results[1..]);
      assert LinesFrom(first, results) == head + rest;
      forall k | 0 < k < |results|
        ensures LinesFrom(first, results)[3 * k] == Py.NatToString(first + k) + ". " + results[k].title
             && LinesFrom(first, results)[3 * k + 1] == "   " + results[k].content
             && LinesFrom(first, results)[3 * k + 2] == "   Source: " + results[k].url + "\n"
      {
        assert results[1..][k - 1] == results[k];
        ShiftThree(head, rest, k);
      }
    }
  }

  /** Past a block of three, the lines are those of the rest, one block on. */
  lemma ShiftThree(head: seq<string>, rest: seq<string>, k: nat)
    requires |head| == 3 && 0 < k && 3 * k + 2 < 3 + |rest|
    ensures (head + rest)[3 * k] == rest[3 * (k - 1)]
    ensures (head + rest)[3 * k + 1] == rest[3 * (k - 1) + 1]
    ensures (head + rest)[3 * k + 2] == rest[3 * (k - 1) + 2]
  {
  }

  /** format_search_results. */
  method FormatSearchResults(results: seq<WebResult>) returns (text: string)
    ensures results == [] ==> text == NoResults
    ensures results != [] ==> text == Py.Join([Header] + LinesFrom(1, results), "\n")
  {
    if results == [] {
      return NoResults;
    }
    var lines := [Header];
    var i := 0;
    while i < |results|
      invariant 0 <= i <= |results|
      invariant lines == [Header] + LinesFrom(1, results[..i])
    {
      LinesFromAppend(1, results[..i], results[i]);
      assert results[..i + 1] == results[..i] + [results[i]];
      lines := lines + ResultLines(i + 1, results[i]);
      i := i + 1;
    }
    assert results[..i] == results;
    text := Py.Join(lines, "\n");
  }
}
