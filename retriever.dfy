/** The retriever: gathers entities, knowledge-base hits, graph triples and web
    results for a question into the `refs` record, and builds the final prompt
    from them. The language model, the knowledge-base backend, the graph lookup,
    the environment and the Tavily client are parameters; the global agent
    configuration is a value read at each call. */
module CoreRetriever {
  import opened Wrappers
  import opened StrFormat
  import Py
  import Prompts
  import Operators
  import QueryEngine
  import DataTransformer
  import WebSearch
  import History

  /** The agent_config attributes the retriever reads. */
  datatype AgentSettings = AgentSettings(enableKb: bool, enableWebsearch: bool, queryMode: string, model: string)

  /** The request's `meta` dict: a missing flag is false, a missing or empty
      db_id is "", the other keys are present or absent. */
  datatype Meta = Meta(
    useGraph: bool,
    dbId: string,
    useWeb: bool,
    mode: Option<string>,
    useRewriteQuery: Option<string>,
    distanceThreshold: Option<real>,
    rerankThreshold: Option<real>,
    maxQueryCount: Option<int>,
    topK: Option<int>)

  /** model.generate_response of the selected chat model. */
  type Llm = string -> Result<Operators.Reply>

  /** The collaborators: the chat model, the knowledge base's query engine,
      the graph database's sample-node lookup, the process environment and
      the Tavily client. */
  datatype Services = Services(
    llm: Llm,
    kb: QueryEngine.Backend,
    sampleNodes: string -> Result<seq<DataTransformer.Row>>,
    env: map<string, string>,
    tavily: WebSearch.Client)

  datatype KbResponse = KbResponse(results: seq<QueryEngine.Hit>, allResults: seq<QueryEngine.Hit>, rwQuery: string, message: string)

  /** query_web's dict: `message` is absent after a search. */
  datatype WebResponse = WebResponse(results: seq<WebSearch.WebResult>, message: Option<string>)

  /** The `refs` dict retrieval builds, one field per key. */
  datatype Refs = Refs(
    query: string,
    history: seq<History.Message>,
    meta: Meta,
    modelName: string,
    entities: seq<string>,
    knowledgeBase: KbResponse,
    graphBase: DataTransformer.Graph,
    webSearch: WebResponse)

  // ---------------------------------------------------------------------------
  // Query rewriting.
  // ---------------------------------------------------------------------------

  /** The rewrite mode: meta's use_rewrite_query (default "off") in search
      mode, the global query_mode otherwise. */
  function RewriteSpan(cfg: AgentSettings, meta: Meta): (span: string)
    ensures meta.mode == Some("search") ==> span == meta.useRewriteQuery.GetOr("off")
    ensures meta.mode != Some("search") ==> span == cfg.queryMode
  {
    if meta.mode == Some("search") then meta.useRewriteQuery.GetOr("off") else cfg.queryMode
  }

  /** The contents of the user messages, in order. */
  function UserContents(history: seq<History.Message>): (r: seq<string>)
    ensures |r| <= |history|
  {
    if history == [] then []
    else
      var init := UserContents(history[..|history| - 1]);
      var m := history[|history| - 1];
      if m.role == "user" then init + [m.content] else init
  }

  predicate IsUser(m: History.Message) {
    m.role == "user"
  }

  /** The k-th user content is the content of the k-th message whose role is
      "user": every user message contributes, in order, and no other. */
  lemma {:induction false} UserContentsAt(history: seq<History.Message>)
    ensures var idx := Py.Positions(history, IsUser);
            |UserContents(history)| == |idx|
            && forall k :: 0 <= k < |idx| ==> UserContents(history)[k] == history[idx[k]].content
  {
    if history != [] {
      UserContentsAt(history[..|history| - 1]);
    }
  }

  /** str() of a list of strings. */
  function ListRepr(items: seq<string>): string {
    "[" + Py.Join(seq(|items|, i requires 0 <= i < |items| => "'" + items[i] + "'"), ", ") + "]"
  }

  /** The text the `history` field receives: "" for an empty history, else the
      list of user contents. */
  function HistoryText(history: seq<History.Message>): string {
    if history == [] then "" else ListRepr(UserContents(history))
  }

  /** The related_context HyDE receives, None when it is falsy ("" or []). */
  function HydeContext(history: seq<History.Message>): Option<string> {
    if history == [] || UserContents(history) == [] then None else Some(ListRepr(UserContents(history)))
  }

  function RewritePrompt(query: string, history: seq<History.Message>): string {
    Prompts.RewriteFields();
    Fill(Prompts.QueryRewritePromptFlexible, map["history" := HistoryText(history), "query" := query])
  }

  /** rewrite_query with the HyDE operator called with the given keyword names. */
  function RewriteWith(hydeKeywords: set<string>, cfg: AgentSettings, meta: Meta, llm: Llm,
                       query: string, history: seq<History.Message>): Result<string>
  {
    var span := RewriteSpan(cfg, meta);
    if span == "off" then Success(query)
    else
      var out := llm(RewritePrompt(query, history));
      if out.Failure? then Failure(out.error)
      else if span != "hyde" then Success(out.value.content)
      else
        var res := Operators.ExecuteKw(hydeKeywords, Operators.Callable(llm), query, HydeContext(history));
        if res.Failure? then Failure(res.error) else Success(res.value.content)
  }

  /** The keyword names rewrite_query passes to HyDEOperator.execute. */
  const HydeKeywordsAsWritten: set<string> := {"model_callable", "query", "context_str"}

  /** rewrite_query with the HyDE call bound to execute's own parameter names:
      "off" keeps the query; any other mode asks the model to rewrite it from
      the user turns; "hyde" then replaces it by the HyDE passage. */
  function RewriteQuery(cfg: AgentSettings, meta: Meta, llm: Llm, query: string, history: seq<History.Message>): (r: Result<string>)
    ensures RewriteSpan(cfg, meta) == "off" ==> r == Success(query)
    ensures RewriteSpan(cfg, meta) != "off" && llm(RewritePrompt(query, history)).Failure? ==>
              r == Failure(llm(RewritePrompt(query, history)).error)
    ensures RewriteSpan(cfg, meta) !in {"off", "hyde"} && llm(RewritePrompt(query, history)).Success? ==>
              r == Success(llm(RewritePrompt(query, history)).value.content)
    ensures RewriteSpan(cfg, meta) == "hyde" && llm(RewritePrompt(query, history)).Success? ==>
              var h := Operators.Execute(Operators.Callable(llm), query, HydeContext(history));
              && (h.Success? ==> r == Success(h.value.content))
              && (h.Failure? ==> r == Failure(h.error))
  {
    RewriteWith(Operators.RequiredKeywords, cfg, meta, llm, query, history)
  }

  /** rewrite_query as written: the HyDE call names none of execute's
      parameters, so hyde mode fails with TypeError once the rewrite call has
      succeeded; the other modes behave as in RewriteQuery. */
  function RewriteQueryAsWritten(cfg: AgentSettings, meta: Meta, llm: Llm, query: string, history: seq<History.Message>): (r: Result<string>)
    ensures RewriteSpan(cfg, meta) == "hyde" && llm(RewritePrompt(query, history)).Success? ==>
              r.Failure? && r.error.TypeError?
    ensures !(RewriteSpan(cfg, meta) == "hyde" && llm(RewritePrompt(query, history)).Success?) ==>
              r == RewriteQuery(cfg, meta, llm, query, history)
  {
    AsWrittenMissesKeywords();
    RewriteWithMissing(HydeKeywordsAsWritten, cfg, meta, llm, query, history);
    RewriteWithAgree(HydeKeywordsAsWritten, Operators.RequiredKeywords, cfg, meta, llm, query, history);
    RewriteWith(HydeKeywordsAsWritten, cfg, meta, llm, query, history)
  }

  /** None of execute's parameter names is among the names rewrite_query uses. */
  lemma AsWrittenMissesKeywords()
    ensures !(Operators.RequiredKeywords <= HydeKeywordsAsWritten)
  {
    assert "llm_handler" in Operators.RequiredKeywords;
    assert "llm_handler" !in HydeKeywordsAsWritten;
  }

  /** A HyDE call that misses one of execute's parameters fails with TypeError. */
  lemma RewriteWithMissing(keywords: set<string>, cfg: AgentSettings, meta: Meta, llm: Llm,
                           query: string, history: seq<History.Message>)
    requires !(Operators.RequiredKeywords <= keywords)
    ensures RewriteSpan(cfg, meta) == "hyde" && llm(RewritePrompt(query, history)).Success? ==>
              RewriteWith(keywords, cfg, meta, llm, query, history).Failure?
              && RewriteWith(keywords, cfg, meta, llm, query, history).error.TypeError?
  {
  }

  /** Outside hyde mode, or when the rewrite call fails, the keyword names
      passed to the HyDE operator do not matter. */
  lemma RewriteWithAgree(k1: set<string>, k2: set<string>, cfg: AgentSettings, meta: Meta, llm: Llm,
                         query: string, history: seq<History.Message>)
    ensures !(RewriteSpan(cfg, meta) == "hyde" && llm(RewritePrompt(query, history)).Success?) ==>
              RewriteWith(k1, cfg, meta, llm, query, history) == RewriteWith(k2, cfg, meta, llm, query, history)
  {
  }

  /** The model never has a say in hyde mode as written: whatever it answers,
      the call fails, while the corrected call returns its passage. */
  lemma HydeAsWrittenAlwaysFails(cfg: AgentSettings, meta: Meta, llm: Llm, query: string, history: seq<History.Message>)
    requires RewriteSpan(cfg, meta) == "hyde"
    requires llm(RewritePrompt(query, history)).Success?
    requires Py.Strip(query) != []
    requires llm(Operators.HydePrompt(query, HydeContext(history))).Success?
    ensures RewriteQueryAsWritten(cfg, meta, llm, query, history).Failure?
    ensures RewriteQuery(cfg, meta, llm, query, history)
            == Success(llm(Operators.HydePrompt(query, HydeContext(history))).value.content)
  {
    var h := Operators.Execute(Operators.Callable(llm), query, HydeContext(history));
    assert h == llm(Operators.HydePrompt(query, HydeContext(history)));
    var r := RewriteQuery(cfg, meta, llm, query, history);
    assert r == Success(h.value.content);
  }

  // ---------------------------------------------------------------------------
  // Entity recognition.
  // ---------------------------------------------------------------------------

  function NerPrompt(text: string): string {
    Prompts.NerFields();
    Fill(Prompts.NerPromptTemplate, map["text" := text])
  }

  /** reco_entities: nothing unless use_graph; otherwise the model's answer cut
      at every "<->", kept whole: rejoining the pieces gives the answer back,
      and no piece holds the separator. */
  function RecoEntities(meta: Meta, llm: Llm, query: string): (r: Result<seq<string>>)
    ensures !meta.useGraph ==> r == Success([])
    ensures meta.useGraph && llm(NerPrompt(query)).Failure? ==> r == Failure(llm(NerPrompt(query)).error)
    ensures meta.useGraph && llm(NerPrompt(query)).Success? ==>
              && r.Success? && |r.value| >= 1
              && Py.Join(r.value, "<->") == llm(NerPrompt(query)).value.content
              && forall i :: 0 <= i < |r.value| ==> !Py.Contains(r.value[i], "<->")
  {
    if !meta.useGraph then Success([])
    else
      var out := llm(NerPrompt(query));
      if out.Failure? then Failure(out.error)
      else
        Py.JoinSplit(out.value.content, "<->");
        Py.SplitPiecesFree(out.value.content, "<->");
        Success(Py.Split(out.value.content, "<->"))
  }

  // ---------------------------------------------------------------------------
  // Knowledge base.
  // ---------------------------------------------------------------------------

  const KbDisabledMessage := "The knowledge base is not enabled, or the knowledge base is not specified, or the knowledge base does not exist"

  /** The keyword arguments query_knowledgebase passes: meta's values or the
      defaults 0.5, 0.1, 20 and 10. */
  function KbParams(meta: Meta): (p: QueryEngine.Params)
    ensures p.distanceThreshold == Some(if meta.distanceThreshold.Some? then meta.distanceThreshold.value else 0.5)
    ensures p.rerankThreshold == Some(if meta.rerankThreshold.Some? then meta.rerankThreshold.value else 0.1)
    ensures p.maxQueryCount == Some(if meta.maxQueryCount.Some? then meta.maxQueryCount.value else 20)
    ensures p.topK == Some(if meta.topK.Some? then meta.topK.value else 10)
  {
    QueryEngine.Params(
      Some(meta.distanceThreshold.GetOr(0.5)),
      Some(meta.rerankThreshold.GetOr(0.1)),
      Some(meta.maxQueryCount.GetOr(20)),
      Some(meta.topK.GetOr(10)))
  }

  /** What query_knowledgebase answers: the disabled response without a db_id
      or with the knowledge base off; the rewrite's exception when it fails;
      otherwise the engine's answer for the rewritten query (see
      QueryEngine.Answered), its results and all_results carried over. */
  ghost predicate KbOutcome(cfg: AgentSettings, svc: Services, query: string,
                            history: seq<History.Message>, meta: Meta, r: Result<KbResponse>) {
    if meta.dbId == "" || !cfg.enableKb then r == Success(KbResponse([], [], query, KbDisabledMessage))
    else
      var rw := RewriteQuery(cfg, meta, svc.llm, query, history);
      if rw.Failure? then r == Failure(rw.error)
      else exists response, picks :: QueryEngine.Answered(svc.kb, rw.value, meta.dbId, KbParams(meta), response, picks)
                                     && KbFrom(rw.value, response, r)
  }

  predicate KbFrom(rw: string, response: Result<QueryEngine.Response>, r: Result<KbResponse>) {
    && (response.Failure? ==> r == Failure(response.error))
    && (response.Success? ==> r == Success(KbResponse(response.value.results, response.value.allResults, rw, "")))
  }

  /** query_knowledgebase: the disabled response without a db_id or with the
      knowledge base off; otherwise the engine's results for the rewritten
      query. */
  method QueryKnowledgebase(cfg: AgentSettings, svc: Services, query: string,
                            history: seq<History.Message>, meta: Meta) returns (r: Result<KbResponse>)
    ensures meta.dbId == "" || !cfg.enableKb ==> r == Success(KbResponse([], [], query, KbDisabledMessage))
    ensures meta.dbId != "" && cfg.enableKb && RewriteQuery(cfg, meta, svc.llm, query, history).Failure? ==>
              r == Failure(RewriteQuery(cfg, meta, svc.llm, query, history).error)
    ensures meta.dbId != "" && cfg.enableKb && RewriteQuery(cfg, meta, svc.llm, query, history).Success? ==>
              var rw := RewriteQuery(cfg, meta, svc.llm, query, history).value;
              var s := QueryEngine.Resolve(KbParams(meta));
              && (r.Failure? ==> r.error == IndexError)
              && (r.Success? ==>
                    && r.value.rwQuery == rw && r.value.message == ""
                    && |r.value.allResults| == |QueryEngine.Search(svc.kb, rw, meta.dbId, s.maxQueryCount)|
                    && (forall k :: 0 <= k < |r.value.results| ==>
                          r.value.results[k].distance > s.distanceThreshold
                          && r.value.results[k] in r.value.allResults)
                    && (s.topK.value > 0 ==> |r.value.results| <= s.topK.value))
    ensures KbOutcome(cfg, svc, query, history, meta, r)
  {
    if meta.dbId == "" || !cfg.enableKb {
      return Success(KbResponse([], [], query, KbDisabledMessage));
    }
    var rw := RewriteQuery(cfg, meta, svc.llm, query, history);
    if rw.Failure? {
      return Failure(rw.error);
    }
    var qr, picks := QueryEngine.AdvancedQuery(svc.kb, rw.value, meta.dbId, KbParams(meta));
    if qr.Failure? {
      r := Failure(qr.error);
    } else {
      r := Success(KbResponse(qr.value.results, qr.value.allResults, rw.value, ""));
    }
    assert KbFrom(rw.value, qr, r);
  }

  // ---------------------------------------------------------------------------
  // Graph database.
  // ---------------------------------------------------------------------------

  /** The entities query_graph looks up: the non-empty ones, in order. */
  function NonEmpty(entities: seq<string>): (r: seq<string>)
    ensures forall i :: 0 <= i < |r| ==> r[i] != "" && r[i] in entities
  {
    if entities == [] then []
    else
      var init := NonEmpty(entities[..|entities| - 1]);
      var e := entities[|entities| - 1];
      if e == "" then init else init + [e]
  }

  predicate Given(e: string) {
    e != ""
  }

  /** The entities looked up are the given entities at the positions of the
      non-empty ones: all of them, in order, and nothing else. */
  lemma {:induction false} NonEmptyAt(entities: seq<string>)
    ensures var idx := Py.Positions(entities, Given);
            |NonEmpty(entities)| == |idx|
            && forall k :: 0 <= k < |idx| ==> NonEmpty(entities)[k] == entities[idx[k]]
  {
    if entities != [] {
      NonEmptyAt(entities[..|entities| - 1]);
    }
  }

  /** The rows query_graph collects: each non-empty entity's rows, in order;
      the first failing lookup ends the loop with its exception. */
  function GraphRows(lookup: string -> Result<seq<DataTransformer.Row>>, entities: seq<string>): Result<seq<DataTransformer.Row>>
  {
    if entities == [] then Success([])
    else
      var init := GraphRows(lookup, entities[..|entities| - 1]);
      var e := entities[|entities| - 1];
      if init.Failure? || e == "" then init
      else
        var rows := lookup(e);
        if rows.Failure? then Failure(rows.error) else Success(init.value + rows.value)
  }

  /** An empty entity never reaches the lookup: collecting over all entities
      is collecting over the non-empty ones. */
  lemma {:induction false} GraphRowsSkipsEmpty(lookup: string -> Result<seq<DataTransformer.Row>>, entities: seq<string>)
    ensures GraphRows(lookup, entities) == GraphRows(lookup, NonEmpty(entities))
  {
    if entities != [] {
      var init := entities[..|entities| - 1];
      var e := entities[|entities| - 1];
      GraphRowsSkipsEmpty(lookup, init);
      if e != "" {
        var ne := NonEmpty(entities);
        assert ne[..|ne| - 1] == NonEmpty(init);
      }
    }
  }

  /** query_graph: looks up every non-empty entity (and nothing at all unless
      use_graph and enable_kb), concatenates the rows and formats them. */
  method QueryGraph(cfg: AgentSettings, svc: Services, meta: Meta, entities: seq<string>)
    returns (r: Result<DataTransformer.Graph>, ghost asked: seq<string>)
    ensures !(meta.useGraph && cfg.enableKb) ==> r == Success(DataTransformer.Empty) && asked == []
    ensures meta.useGraph && cfg.enableKb ==>
              var rows := GraphRows(svc.sampleNodes, entities);
              && (rows.Failure? ==> r == Failure(rows.error))
              && (rows.Success? ==> r == Success(DataTransformer.Run(DataTransformer.Empty, rows.value))
                                    && asked == NonEmpty(entities))
  {
    var results: seq<DataTransformer.Row> := [];
    var looked: seq<string> := [];
    if meta.useGraph && cfg.enableKb {
      var i := 0;
      while i < |entities|
        invariant 0 <= i <= |entities|
        invariant GraphRows(svc.sampleNodes, entities[..i]) == Success(results)
        invariant looked == NonEmpty(entities[..i])
      {
        var e := entities[i];
        assert entities[..i + 1][..i] == entities[..i];
        if e != "" {
          var result := svc.sampleNodes(e);
          looked := looked + [e];
          if result.Failure? {
            GraphRowsFailStays(svc.sampleNodes, entities, i + 1);
            return Failure(result.error), looked;
          }
          if result.value != [] {
            results := results + result.value;
          } else {
            assert results + result.value == results;
          }
        }
        i := i + 1;
      }
      assert entities[..i] == entities;
    }
    DataTransformer.FormatEmpty();
    var g := DataTransformer.FormatQueryResults(results);
    r, asked := Success(g), looked;
  }

  /** Once a prefix of the entities fails, the whole collection fails the same way. */
  lemma {:induction false} GraphRowsFailStays(lookup: string -> Result<seq<DataTransformer.Row>>, entities: seq<string>, n: nat)
    requires n <= |entities|
    requires GraphRows(lookup, entities[..n]).Failure?
    ensures GraphRows(lookup, entities) == GraphRows(lookup, entities[..n])
    decreases |entities| - n
  {
    if n < |entities| {
      assert entities[..n + 1][..n] == entities[..n];
      GraphRowsFailStays(lookup, entities, n + 1);
    } else {
      assert entities[..n] == entities;
    }
  }

  // ---------------------------------------------------------------------------
  // The final prompt.
  // ---------------------------------------------------------------------------

  /** An f-string of a graph property value. */
  function PropText(v: DataTransformer.PropValue): string {
    match v
    case Text(s) => s
    case Null => "None"
    case Other(repr) => repr
  }

  function KbLines(results: seq<QueryEngine.Hit>): (r: seq<string>)
    ensures |r| == |results|
    ensures forall i :: 0 <= i < |results| ==> r[i] == results[i].id + ": " + results[i].entity.text
  {
    seq(|results|, i requires 0 <= i < |results| => results[i].id + ": " + results[i].entity.text)
  }

  function GraphLines(edges: seq<DataTransformer.Edge>): (r: seq<string>)
    ensures |r| == |edges|
    ensures forall i :: 0 <= i < |edges| ==>
              r[i] == PropText(edges[i].sourceName) + " and " + PropText(edges[i].targetName)
                      + " are connected by " + edges[i].relType
  {
    seq(|edges|, i requires 0 <= i < |edges| =>
      PropText(edges[i].sourceName) + " and " + PropText(edges[i].targetName) + " are connected by " + edges[i].relType)
  }

  function WebLines(results: seq<WebSearch.WebResult>): (r: seq<string>)
    ensures |r| == |results|
    ensures forall i :: 0 <= i < |results| ==> r[i] == results[i].title + ": " + results[i].content
  {
    seq(|results|, i requires 0 <= i < |results| => results[i].title + ": " + results[i].content)
  }

  const KbHeader := "Knowledge base information:"
  const GraphHeader := "Graph database information:"
  const WebHeader := "Web search information:"

  /** external_parts: a header and a text for each section that has results;
      the graph section counts only when there are nodes. */
  function Sections(refs: Refs): seq<string> {
    (if refs.knowledgeBase.results != [] then [KbHeader, Py.Join(KbLines(refs.knowledgeBase.results), "\n")] else [])
    + (if |refs.graphBase.nodes| > 0 then [GraphHeader, Py.Join(GraphLines(refs.graphBase.edges), "\n")] else [])
    + (if refs.webSearch.results != [] then [WebHeader, Py.Join(WebLines(refs.webSearch.results), "\n")] else [])
  }

  /** The headers of the contributing sections, in order. */
  function Headers(refs: Refs): (h: seq<string>)
    ensures KbHeader in h <==> refs.knowledgeBase.results != []
    ensures GraphHeader in h <==> |refs.graphBase.nodes| > 0
    ensures WebHeader in h <==> refs.webSearch.results != []
  {
    (if refs.knowledgeBase.results != [] then [KbHeader] else [])
    + (if |refs.graphBase.nodes| > 0 then [GraphHeader] else [])
    + (if refs.webSearch.results != [] then [WebHeader] else [])
  }

  /** The parts alternate header and text: the k-th header sits at 2k. */
  lemma SectionsHeaders(refs: Refs)
    ensures |Sections(refs)| == 2 * |Headers(refs)|
    ensures forall k :: 0 <= k < |Headers(refs)| ==> Sections(refs)[2 * k] == Headers(refs)[k]
  {
    var kb, graph, web := refs.knowledgeBase.results != [], |refs.graphBase.nodes| > 0, refs.webSearch.results != [];
    var s1 := if kb then [KbHeader, Py.Join(KbLines(refs.knowledgeBase.results), "\n")] else [];
    var s2 := if graph then [GraphHeader, Py.Join(GraphLines(refs.graphBase.edges), "\n")] else [];
    var s3 := if web then [WebHeader, Py.Join(WebLines(refs.webSearch.results), "\n")] else [];
    var h1, h2, h3 := if kb then [KbHeader] else [], if graph then [GraphHeader] else [], if web then [WebHeader] else [];
    assert Sections(refs) == s1 + s2 + s3;
    assert Headers(refs) == h1 + h2 + h3;
    HeadersAppend(s1, s2, h1, h2);
    HeadersAppend(s1 + s2, s3, h1 + h2, h3);
  }

  /** Two runs of header-text pairs placed one after the other. */
  lemma HeadersAppend(x: seq<string>, y: seq<string>, hx: seq<string>, hy: seq<string>)
    requires |x| == 2 * |hx| && forall k :: 0 <= k < |hx| ==> x[2 * k] == hx[k]
    requires |y| == 2 * |hy| && forall k :: 0 <= k < |hy| ==> y[2 * k] == hy[k]
    ensures |x + y| == 2 * |hx + hy|
    ensures forall k :: 0 <= k < |hx + hy| ==> (x + y)[2 * k] == (hx + hy)[k]
  {
    forall k | 0 <= k < |hx + hy|
      ensures (x + y)[2 * k] == (hx + hy)[k]
    {
      if k >= |hx| {
        assert (x + y)[2 * k] == y[2 * (k - |hx|)];
      }
    }
  }

  /** No section contributes exactly when every source came back empty. */
  lemma SectionsEmptyIff(refs: Refs)
    ensures Sections(refs) == [] <==>
              refs.knowledgeBase.results == [] && refs.graphBase.nodes == [] && refs.webSearch.results == []
  {
  }

  /** The knowledge-base section comes first and holds one "id: text" line per
      result, in order. */
  lemma KbSectionLines(refs: Refs)
    requires refs.knowledgeBase.results != []
    requires forall i :: 0 <= i < |refs.knowledgeBase.results| ==>
               '\n' !in refs.knowledgeBase.results[i].id && '\n' !in refs.knowledgeBase.results[i].entity.text
    ensures Sections(refs)[0] == KbHeader
    ensures Py.Split(Sections(refs)[1], "\n") == KbLines(refs.knowledgeBase.results)
  {
    var hits := refs.knowledgeBase.results;
    var lines := KbLines(hits);
    forall i | 0 <= i < |lines| ensures '\n' !in lines[i] {
      assert lines[i] == hits[i].id + ": " + hits[i].entity.text;
    }
    Py.SplitJoinChar(lines, '\n');
  }

  /** The graph section follows the knowledge-base section when there is one,
      and its text splits back into one line per edge, in order. */
  lemma GraphSectionLines(refs: Refs)
    requires |refs.graphBase.nodes| > 0 && refs.graphBase.edges != []
    requires forall i :: 0 <= i < |refs.graphBase.edges| ==>
               '\n' !in PropText(refs.graphBase.edges[i].sourceName)
               && '\n' !in PropText(refs.graphBase.edges[i].targetName)
               && '\n' !in refs.graphBase.edges[i].relType
    ensures var g := if refs.knowledgeBase.results != [] then 2 else 0;
            && Sections(refs)[g] == GraphHeader
            && Py.Split(Sections(refs)[g + 1], "\n") == GraphLines(refs.graphBase.edges)
  {
    var lines := GraphLines(refs.graphBase.edges);
    GraphLinesOneLine(refs.graphBase.edges);
    Py.SplitJoinChar(lines, '\n');
  }

  lemma GraphLinesOneLine(edges: seq<DataTransformer.Edge>)
    requires forall i :: 0 <= i < |edges| ==>
               '\n' !in PropText(edges[i].sourceName) && '\n' !in PropText(edges[i].targetName)
               && '\n' !in edges[i].relType
    ensures forall i :: 0 <= i < |GraphLines(edges)| ==> '\n' !in GraphLines(edges)[i]
  {
    var lines := GraphLines(edges);
    forall i | 0 <= i < |lines| ensures '\n' !in lines[i] {
      assert lines[i] == PropText(edges[i].sourceName) + " and " + PropText(edges[i].targetName)
                         + " are connected by " + edges[i].relType;
    }
  }

  /** The web section comes last and its text splits back into one
      "title: content" line per result, in order. */
  lemma WebSectionLines(refs: Refs)
    requires refs.webSearch.results != []
    requires forall i :: 0 <= i < |refs.webSearch.results| ==>
               '\n' !in refs.webSearch.results[i].title && '\n' !in refs.webSearch.results[i].content
    ensures var w := (if refs.knowledgeBase.results != [] then 2 else 0) + (if |refs.graphBase.nodes| > 0 then 2 else 0);
            && Sections(refs)[w] == WebHeader
            && Py.Split(Sections(refs)[w + 1], "\n") == WebLines(refs.webSearch.results)
  {
    var results := refs.webSearch.results;
    var lines := WebLines(results);
    forall i | 0 <= i < |lines| ensures '\n' !in lines[i] {
      assert lines[i] == results[i].title + ": " + results[i].content;
    }
    Py.SplitJoinChar(lines, '\n');
  }

  /** construct_query with the template filled under the given keyword for
      the joined sections. */
  function ConstructWith(key: string, query: string, refs: Option<Refs>): Result<string> {
    if refs.None? || Sections(refs.value) == [] then Success(query)
    else Format(Prompts.KnowbaseQaTemplate, map[key := Py.Join(Sections(refs.value), "\n\n"), "query" := query])
  }

  const QaBeforeContext := Prompts.KnowbaseQaTemplate[0].text
  const QaBeforeQuestion := Prompts.KnowbaseQaTemplate[2].text
  const QaAfterQuestion := Prompts.KnowbaseQaTemplate[4].text

  /** The QA template after its first literal, filled. */
  lemma QaFillRest(context: string, query: string)
    ensures FieldNames(Prompts.KnowbaseQaTemplate[1..]) <= {"context", "query"}
    ensures Fill(Prompts.KnowbaseQaTemplate[1..], map["context" := context, "query" := query])
            == context + (QaBeforeQuestion + (query + QaAfterQuestion))
  {
    var t := Prompts.KnowbaseQaTemplate;
    assert |t| == 5 && t[0].Lit? && t[1] == Field("context") && t[2].Lit? && t[3] == Field("query") && t[4].Lit?;
    FillContextQuery(t, context, query);
  }

  /** A template of a literal, the context field, a literal, the query field
      and a literal, filled after its first literal. */
  lemma FillContextQuery(t: Template, context: string, query: string)
    requires |t| == 5 && t[0].Lit? && t[1] == Field("context") && t[2].Lit? && t[3] == Field("query") && t[4].Lit?
    ensures FieldNames(t[1..]) <= {"context", "query"}
    ensures Fill(t[1..], map["context" := context, "query" := query])
            == context + (t[2].text + (query + t[4].text))
  {
    var args := map["context" := context, "query" := query];
    forall n | n in FieldNames(t[1..]) ensures n in {"context", "query"} {
      var k :| 0 <= k < |t[1..]| && t[1..][k].Field? && t[1..][k].name == n;
      assert t[1..][k] == t[k + 1];
    }
    StrFormat.FillStep(t[1..], args);
    assert t[1..][1..] == t[2..];
    StrFormat.FillStep(t[2..], args);
    assert t[2..][1..] == t[3..];
    StrFormat.FillStep(t[3..], args);
    assert t[3..][1..] == t[4..];
    StrFormat.FillStep(t[4..], args);
    assert t[4..][1..] == [];
  }

  /** The QA template filled with a context and a question. */
  lemma QaPrompt(context: string, query: string)
    ensures Format(Prompts.KnowbaseQaTemplate, map["context" := context, "query" := query])
            == Success(QaBeforeContext + context + QaBeforeQuestion + query + QaAfterQuestion)
  {
    var args := map["context" := context, "query" := query];
    var t := Prompts.KnowbaseQaTemplate;
    Prompts.QaFields();
    FormatFills(t, args);
    QaFillRest(context, query);
    Py.ConcatAssoc5(QaBeforeContext, context, QaBeforeQuestion, query, QaAfterQuestion);
  }

  /** construct_query, passing the sections under the template's `context`
      field: the query itself when there are no refs or no section has
      results; otherwise the QA prompt with the sections, separated by blank
      lines, as context and the query as question. */
  function ConstructQuery(query: string, refs: Option<Refs>): (r: Result<string>)
    ensures refs.None? ==> r == Success(query)
    ensures refs.Some? && Sections(refs.value) == [] ==> r == Success(query)
    ensures refs.Some? && Sections(refs.value) != [] ==>
              r == Success(QaBeforeContext + Py.Join(Sections(refs.value), "\n\n") + QaBeforeQuestion + query + QaAfterQuestion)
  {
    if refs.None? || Sections(refs.value) == [] then Success(query)
    else
      QaPrompt(Py.Join(Sections(refs.value), "\n\n"), query);
      ConstructWith("context", query, refs)
  }

  /** construct_query as written: it passes `external=`, which the template
      does not name, so any call with a contributing section raises
      KeyError('context'). */
  function ConstructQueryAsWritten(query: string, refs: Option<Refs>): (r: Result<string>)
    ensures refs.None? || Sections(refs.value) == [] ==> r == Success(query)
    ensures refs.Some? && Sections(refs.value) != [] ==> r == Failure(KeyError("context"))
  {
    Prompts.QaFields();
    ConstructWith("external", query, refs)
  }

  // ---------------------------------------------------------------------------
  // The retriever object.
  // ---------------------------------------------------------------------------

  const WebDisabled := WebResponse([], Some("Web search is disabled"))
  const WebError := WebResponse([], Some("Web search error"))

  class Retriever {
    /** The web_searcher attribute: None while it has never been set. */
    var webSearcher: Option<WebSearch.WebSearcher>

    constructor ()
      ensures webSearcher.None?
    {
      webSearcher := None;
    }

    /** _load_models: with web search enabled, builds a WebSearcher, which
        fails without an API key; otherwise leaves the attribute as it was. */
    method LoadModels(cfg: AgentSettings, svc: Services) returns (r: Result<()>)
      modifies this
      ensures cfg.enableWebsearch && WebSearch.New(svc.env, svc.tavily).Success? ==>
                r.Success? && webSearcher == Some(WebSearch.New(svc.env, svc.tavily).value)
      ensures cfg.enableWebsearch && WebSearch.New(svc.env, svc.tavily).Failure? ==>
                r == Failure(WebSearch.New(svc.env, svc.tavily).error) && webSearcher == old(webSearcher)
      ensures !cfg.enableWebsearch ==> r.Success? && webSearcher == old(webSearcher)
    {
      if cfg.enableWebsearch {
        var ws := WebSearch.New(svc.env, svc.tavily);
        if ws.Failure? {
          return Failure(ws.error);
        }
        webSearcher := Some(ws.value);
      }
      r := Success(());
    }

    /** restart: loads the models again. */
    method Restart(cfg: AgentSettings, svc: Services) returns (r: Result<()>)
      modifies this
      ensures cfg.enableWebsearch && WebSearch.New(svc.env, svc.tavily).Success? ==>
                r.Success? && webSearcher == Some(WebSearch.New(svc.env, svc.tavily).value)
      ensures cfg.enableWebsearch && WebSearch.New(svc.env, svc.tavily).Failure? ==>
                r == Failure(WebSearch.New(svc.env, svc.tavily).error) && webSearcher == old(webSearcher)
      ensures !cfg.enableWebsearch ==> r.Success? && webSearcher == old(webSearcher)
    {
      r := LoadModels(cfg, svc);
    }

    /** query_web: disabled unless the request asks for the web and web search
        is on; a missing searcher is an error; otherwise up to five results. */
    function QueryWeb(cfg: AgentSettings, meta: Meta, query: string): (r: WebResponse)
      reads this
      ensures !(meta.useWeb && cfg.enableWebsearch) ==> r == WebDisabled
      ensures meta.useWeb && cfg.enableWebsearch && webSearcher.None? ==> r == WebError
      ensures meta.useWeb && cfg.enableWebsearch && webSearcher.Some? ==>
                r.message.None? && |r.results| <= 5
                && r.results == WebSearch.Search(webSearcher.value, query, 5, "basic", None, None, false)
    {
      if !(meta.useWeb && cfg.enableWebsearch) then WebDisabled
      else SearchOrError(query)
    }

    /** The try block of query_web: `self.web_searcher` raises AttributeError
        when it was never set, which the handler turns into the error reply. */
    function SearchOrError(query: string): (r: WebResponse)
      reads this
      ensures webSearcher.None? ==> r == WebError
      ensures webSearcher.Some? ==> r == WebResponse(WebSearch.Search(webSearcher.value, query, 5, "basic", None, None, false), None)
    {
      if webSearcher.None? then WebError
      else WebResponse(WebSearch.Search(webSearcher.value, query, 5, "basic", None, None, false), None)
    }

    /** query_web as written: the gate `not (use_web or not enable_websearch)`
        shows the disabled reply exactly when use_web is off and web search is
        on, and tries to search in every other case. */
    function QueryWebAsWritten(cfg: AgentSettings, meta: Meta, query: string): (r: WebResponse)
      reads this
      ensures r == WebDisabled <==> !meta.useWeb && cfg.enableWebsearch
      ensures !(!meta.useWeb && cfg.enableWebsearch) ==> r == SearchOrError(query)
    {
      if !(meta.useWeb || !cfg.enableWebsearch) then WebDisabled
      else SearchOrError(query)
    }

    /** The refs retrieval builds once the entities and the knowledge-base
        answer are known: the knowledge base's exception, else the graph
        lookup's, else every source recorded under its key. */
    function Assemble(cfg: AgentSettings, svc: Services, query: string, history: seq<History.Message>,
                      meta: Meta, entities: seq<string>, kb: Result<KbResponse>): (r: Result<Refs>)
      reads this
      ensures kb.Failure? ==> r == Failure(kb.error)
      ensures kb.Success? && meta.useGraph && cfg.enableKb && GraphRows(svc.sampleNodes, entities).Failure? ==>
                r == Failure(GraphRows(svc.sampleNodes, entities).error)
      ensures r.Success? ==> r.value.knowledgeBase == kb.value && r.value.webSearch == QueryWeb(cfg, meta, query)
    {
      if kb.Failure? then Failure(kb.error)
      else if meta.useGraph && cfg.enableKb then
        var rows := GraphRows(svc.sampleNodes, entities);
        if rows.Failure? then Failure(rows.error)
        else Success(Refs(query, history, meta, cfg.model, entities, kb.value,
                          DataTransformer.Run(DataTransformer.Empty, rows.value), QueryWeb(cfg, meta, query)))
      else Success(Refs(query, history, meta, cfg.model, entities, kb.value, DataTransformer.Empty, QueryWeb(cfg, meta, query)))
    }

    /** [__call__ retrieval] runs the four sources in order and records them
        under the fixed keys of `refs`; an exception from the model, the
        knowledge base or the graph ends it. */
    method Retrieval(cfg: AgentSettings, svc: Services, query: string,
                     history: seq<History.Message>, meta: Meta) returns (r: Result<Refs>)
      ensures RecoEntities(meta, svc.llm, query).Failure? ==> r == Failure(RecoEntities(meta, svc.llm, query).error)
      ensures r.Success? ==>
                && r.value.query == query && r.value.history == history && r.value.meta == meta
                && r.value.modelName == cfg.model
                && RecoEntities(meta, svc.llm, query) == Success(r.value.entities)
                && ((meta.dbId == "" || !cfg.enableKb) ==> r.value.knowledgeBase == KbResponse([], [], query, KbDisabledMessage))
                && (!(meta.useGraph && cfg.enableKb) ==> r.value.graphBase == DataTransformer.Empty)
                && (meta.useGraph && cfg.enableKb ==>
                      GraphRows(svc.sampleNodes, r.value.entities).Success?
                      && r.value.graphBase == DataTransformer.Run(DataTransformer.Empty, GraphRows(svc.sampleNodes, r.value.entities).value))
                && r.value.webSearch == QueryWeb(cfg, meta, query)
      ensures RecoEntities(meta, svc.llm, query).Success? ==>
                exists kb :: KbOutcome(cfg, svc, query, history, meta, kb)
                             && r == Assemble(cfg, svc, query, history, meta, RecoEntities(meta, svc.llm, query).value, kb)
    {
      var entities := RecoEntities(meta, svc.llm, query);
      if entities.Failure? {
        return Failure(entities.error);
      }
      var kb := QueryKnowledgebase(cfg, svc, query, history, meta);
      if kb.Failure? {
        return Failure(kb.error);
      }
      var graph, asked := QueryGraph(cfg, svc, meta, entities.value);
      if graph.Failure? {
        return Failure(graph.error);
      }
      var web := QueryWeb(cfg, meta, query);
      r := Success(Refs(query, history, meta, cfg.model, entities.value, kb.value, graph.value, web));
      assert r == Assemble(cfg, svc, query, history, meta, entities.value, kb);
    }

    /** __call__ once retrieval has answered: its exception, or the prompt
        construct_query builds from its refs together with the refs. */
    predicate PromptFrom(query: string, refs: Result<Refs>, r: Result<(string, Refs)>) {
      && (refs.Failure? ==> r == Failure(refs.error))
      && (refs.Success? ==> ConstructQuery(query, Some(refs.value)).Success?
                            && r == Success((ConstructQuery(query, Some(refs.value)).value, refs.value)))
    }

    /** __call__: retrieval, then the final prompt built from its refs. */
    method Call(cfg: AgentSettings, svc: Services, query: string,
                history: seq<History.Message>, meta: Meta) returns (r: Result<(string, Refs)>)
      ensures RecoEntities(meta, svc.llm, query).Failure? ==> r == Failure(RecoEntities(meta, svc.llm, query).error)
      ensures r.Success? ==>
                && r.value.1.query == query
                && ConstructQuery(query, Some(r.value.1)) == Success(r.value.0)
                && (Sections(r.value.1) == [] ==> r.value.0 == query)
      ensures RecoEntities(meta, svc.llm, query).Success? ==>
                exists kb :: KbOutcome(cfg, svc, query, history, meta, kb)
                             && PromptFrom(query, Assemble(cfg, svc, query, history, meta, RecoEntities(meta, svc.llm, query).value, kb), r)
    {
      var refs := Retrieval(cfg, svc, query, history, meta);
      if refs.Failure? {
        return Failure(refs.error);
      }
      var prompt := ConstructQuery(query, Some(refs.value));
      r := Success((prompt.value, refs.value));
    }
  }

  /** Retriever(): a new retriever with its models loaded. */
  method NewRetriever(cfg: AgentSettings, svc: Services) returns (r: Result<Retriever>)
    ensures r.Success? ==> fresh(r.value)
    ensures r.Success? <==> !cfg.enableWebsearch || WebSearch.New(svc.env, svc.tavily).Success?
    ensures r.Success? && cfg.enableWebsearch ==> r.value.webSearcher == Some(WebSearch.New(svc.env, svc.tavily).value)
    ensures r.Success? && !cfg.enableWebsearch ==> r.value.webSearcher.None?
  {
    var ret := new Retriever();
    var loaded := ret.LoadModels(cfg, svc);
    if loaded.Failure? {
      return Failure(loaded.error);
    }
    r := Success(ret);
  }

  /** With web search switched off, the retriever never gets a searcher, so
      the gate as written answers "Web search error" to every request, where
      the corrected gate says the search is disabled. */
  lemma WebGateInverted(ret: Retriever, cfg: AgentSettings, meta: Meta, query: string)
    requires !cfg.enableWebsearch && ret.webSearcher.None?
    ensures ret.QueryWebAsWritten(cfg, meta, query) == WebError
    ensures ret.QueryWeb(cfg, meta, query) == WebDisabled
  {
  }
}
