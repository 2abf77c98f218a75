/** The nodes and fan-out functions of the deep-research graph. The language model, the search
    engine and the page fetcher are parameters: their outputs are given, and what the node asks
    of them is returned as a request. */
module ResearchNodes {
  import opened Wrappers
  import opened Messages
  import opened ResearchState
  import opened RunConfig
  import opened ResearchConfig
  import opened ResearchUtils

  /** The process environment and the `RunnableConfig` a node is called with. */
  datatype RunContext = RunContext(env: map<string, string>, config: Option<RunnableConfig>)

  function Cfg(ctx: RunContext): Result<Configuration> {
    FromRunnableConfig(ctx.env, ctx.config)
  }

  /** The query-writer call: model, research topic and number of queries asked for. */
  datatype QueryRequest = QueryRequest(model: string, researchTopic: string, numberQueries: int)

  datatype GenerateQueryOutput = GenerateQueryOutput(request: Option<QueryRequest>, update: ResearchUpdate)

  /** `generate_query`, with `generated` the queries the model returns. With queries already in
      the state it neither reads the configuration nor calls the model, and returns the existing
      list as its update. The count it asks for goes into the prompt only: the local assignment
      to `initial_search_query_count` is not part of the update. */
  function GenerateQuery(s: ResearchState, ctx: RunContext, generated: seq<string>): (r: Result<GenerateQueryOutput>)
    ensures |s.searchQuery| > 0 ==> r == Ok(GenerateQueryOutput(None, NoWrites.(searchQuery := Some(s.searchQuery))))
    ensures |s.searchQuery| == 0 ==> (r.Ok? <==> Cfg(ctx).Ok?)
    ensures |s.searchQuery| == 0 && r.Ok? ==>
              && r.value.request == Some(QueryRequest(Cfg(ctx).value.queryGeneratorModel,
                                                      GetResearchTopic(s.messages),
                                                      s.initialSearchQueryCount.GetOr(Cfg(ctx).value.numberOfInitialQueries)))
              && r.value.update == NoWrites.(searchQuery := Some(generated))
  {
    if |s.searchQuery| > 0 then
      Ok(GenerateQueryOutput(None, NoWrites.(searchQuery := Some(s.searchQuery))))
    else
      var cfg :- Cfg(ctx);
      var count := s.initialSearchQueryCount.GetOr(cfg.numberOfInitialQueries);
      var request := QueryRequest(cfg.queryGeneratorModel, GetResearchTopic(s.messages), count);
      Ok(GenerateQueryOutput(Some(request), NoWrites.(searchQuery := Some(generated))))
  }

  /** `generate_query` as its comment intends: existing queries are kept, not written again. */
  function GenerateQueryIntended(s: ResearchState, ctx: RunContext, generated: seq<string>): (r: Result<GenerateQueryOutput>)
    ensures |s.searchQuery| > 0 ==> r == Ok(GenerateQueryOutput(None, NoWrites))
    ensures |s.searchQuery| == 0 ==> r == GenerateQuery(s, ctx, generated)
  {
    if |s.searchQuery| > 0 then Ok(GenerateQueryOutput(None, NoWrites)) else GenerateQuery(s, ctx, generated)
  }

  /** `continue_to_web_research`: one dispatch per query, in order, numbered from 0. */
  function ContinueToWebResearch(s: ResearchState): (r: seq<Send>)
    ensures |r| == |s.searchQuery|
    ensures forall i :: 0 <= i < |r| ==> r[i] == Send(WebResearch, s.searchQuery[i], i)
  {
    seq(|s.searchQuery|, i requires 0 <= i < |s.searchQuery| => Send(WebResearch, s.searchQuery[i], i))
  }

  /** One search-engine hit: a dictionary that normally carries a "link". */
  type Hit = map<string, string>

  /** `[result["link"] for result in results]`, raising KeyError on a hit without a link. */
  function Links(hits: seq<Hit>): (r: Result<seq<string>>)
    ensures r.Ok? <==> forall i :: 0 <= i < |hits| ==> "link" in hits[i]
    ensures r.Ok? ==> |r.value| == |hits| && forall i :: 0 <= i < |hits| ==> r.value[i] == hits[i]["link"]
    ensures r.Err? ==> r.error == KeyError("link")
  {
    if |hits| == 0 then Ok([])
    else
      var front :- Links(hits[..|hits| - 1]);
      assert forall i :: 0 <= i < |hits| - 1 ==> hits[..|hits| - 1][i] == hits[i];
      if "link" in hits[|hits| - 1] then Ok(front + [hits[|hits| - 1]["link"]]) else Err(KeyError("link"))
  }

  /** The search call: query text and number of results asked for. */
  datatype SearchRequest = SearchRequest(query: string, numResults: int)

  datatype WebResearchOutput = WebResearchOutput(request: SearchRequest, update: ResearchUpdate)

  /** `web_research` for one dispatched query, with `hits` what the search engine returns. */
  function WebResearchNode(query: string, ctx: RunContext, hits: seq<Hit>): (r: Result<WebResearchOutput>)
    ensures r.Ok? <==> Cfg(ctx).Ok? && Links(hits).Ok?
    ensures r.Ok? ==> r.value.request == SearchRequest(query, Cfg(ctx).value.numberOfResultsPerQuery)
    ensures r.Ok? ==> r.value.update == NoWrites.(searchQuery := Some([query]),
                                                  webResearchResult := Some(Links(hits).value))
    ensures r.Ok? ==> LeavesLoopControl(r.value.update)
  {
    var cfg :- Cfg(ctx);
    var urls :- Links(hits);
    Ok(WebResearchOutput(SearchRequest(query, cfg.numberOfResultsPerQuery),
                         NoWrites.(searchQuery := Some([query]), webResearchResult := Some(urls))))
  }

  /** `continue_to_web_scraping`: the URLs beyond the first `|web_scraping_result|`, numbered
      from 0; nothing when there are no more URLs than scraped pages. */
  function ContinueToWebScraping(s: ResearchState): (r: seq<Send>)
    ensures |s.webResearchResult| <= |s.webScrapingResult| ==> r == []
    ensures |s.webResearchResult| > |s.webScrapingResult| ==>
              && |r| == |s.webResearchResult| - |s.webScrapingResult|
              && forall i :: 0 <= i < |r| ==> r[i] == Send(WebScraping, s.webResearchResult[|s.webScrapingResult| + i], i)
  {
    var urls := s.webResearchResult;
    var done := |s.webScrapingResult|;
    if |urls| <= done then []
    else
      var rest := urls[done..];
      seq(|rest|, i requires 0 <= i < |rest| => Send(WebScraping, rest[i], i))
  }

  /** `web_scraping` for one URL, with `page` what `url_to_markdown` returns for it (the page
      text, or the error description it returns instead of raising). */
  function WebScrapingNode(url: string, page: string): (u: ResearchUpdate)
    ensures u == NoWrites.(webScrapingResult := Some([page]))
    ensures LeavesLoopControl(u)
  {
    NoWrites.(webScrapingResult := Some([page]))
  }

  /** The structured `Reflection` the model returns. */
  datatype ReflectionOutput = ReflectionOutput(isSufficient: bool, knowledgeGap: string, followUpQueries: seq<string>)

  /** The reflection call: reasoning model and research topic. */
  datatype ReflectionRequest = ReflectionRequest(model: string, researchTopic: string)

  datatype ReflectionNodeOutput = ReflectionNodeOutput(request: ReflectionRequest, update: ResearchUpdate)

  /** `reflection`: one more research loop, the model's verdict, and how many queries the state
      holds. */
  function ReflectionNode(s: ResearchState, ctx: RunContext, out: ReflectionOutput): (r: Result<ReflectionNodeOutput>)
    ensures r.Ok? <==> Cfg(ctx).Ok?
    ensures r.Ok? ==> r.value.update.researchLoopCount == Some(Some(s.researchLoopCount.GetOr(0) + 1))
    ensures r.Ok? ==> r.value.update.numberOfRanQueries == Some(Some(|s.searchQuery|))
    ensures r.Ok? ==> r.value.update.isSufficient == Some(Some(out.isSufficient))
    ensures r.Ok? ==> r.value.update.followUpQueries == Some(out.followUpQueries)
    ensures r.Ok? ==> r.value.update.knowledgeGap == Some(Some(out.knowledgeGap))
    ensures r.Ok? ==> r.value.update.maxResearchLoops.None?
    ensures r.Ok? ==> && r.value.update.searchQuery.None? && r.value.update.webResearchResult.None?
                      && r.value.update.webScrapingResult.None? && r.value.update.messages.None?
                      && r.value.update.initialSearchQueryCount.None? && r.value.update.reasoningModel.None?
    ensures r.Ok? ==> r.value.request.model == s.reasoningModel.GetOr(Cfg(ctx).value.reflectionModel)
  {
    var cfg :- Cfg(ctx);
    var count := s.researchLoopCount.GetOr(0) + 1;
    var model := s.reasoningModel.GetOr(cfg.reflectionModel);
    var update := NoWrites.(isSufficient := Some(Some(out.isSufficient)),
                            knowledgeGap := Some(Some(out.knowledgeGap)),
                            followUpQueries := Some(out.followUpQueries),
                            researchLoopCount := Some(Some(count)),
                            numberOfRanQueries := Some(Some(|s.searchQuery|)));
    Ok(ReflectionNodeOutput(ReflectionRequest(model, GetResearchTopic(s.messages)), update))
  }

  /** Where `evaluate_research` sends the run. */
  datatype Route = ToFinalize | Dispatch(sends: seq<Send>)

  /** The loop cap: the state's value when set, the configuration's otherwise. */
  function MaxLoops(s: ResearchState, cfg: Configuration): int {
    s.maxResearchLoops.GetOr(cfg.maxResearchLoops)
  }

  /** The test `is_sufficient or research_loop_count >= max`, evaluated left to right. */
  predicate Finalizes(s: ResearchState, cfg: Configuration) {
    s.isSufficient == Some(true)
    || (s.isSufficient == Some(false) && s.researchLoopCount.Some? && s.researchLoopCount.value >= MaxLoops(s, cfg))
  }

  /** `evaluate_research`: finalize when the research is sufficient or the cap is reached,
      otherwise one `web_research` dispatch per follow-up query, numbered after the queries
      already run. Reading a key that was never written raises KeyError. */
  function EvaluateResearch(s: ResearchState, ctx: RunContext): (r: Result<Route>)
    ensures Cfg(ctx).Err? ==> r == Err(Cfg(ctx).error)
    ensures Cfg(ctx).Ok? ==> (r == Ok(ToFinalize) <==> Finalizes(s, Cfg(ctx).value))
    ensures Cfg(ctx).Ok? && s.isSufficient.None? ==> r == Err(KeyError("is_sufficient"))
    ensures Cfg(ctx).Ok? && s.isSufficient == Some(false) && s.researchLoopCount.None?
            ==> r == Err(KeyError("research_loop_count"))
    ensures Cfg(ctx).Ok? && s.isSufficient == Some(false) && s.researchLoopCount.Some?
            && s.researchLoopCount.value < MaxLoops(s, Cfg(ctx).value) && |s.followUpQueries| > 0
            ==> (if s.numberOfRanQueries.None? then r == Err(KeyError("number_of_ran_queries"))
                 else r.Ok? && r.value.Dispatch?)
    ensures r.Ok? && r.value.Dispatch? ==>
              && s.isSufficient == Some(false)
              && s.researchLoopCount.Some? && s.researchLoopCount.value < MaxLoops(s, Cfg(ctx).value)
              && |r.value.sends| == |s.followUpQueries|
              && (|s.followUpQueries| > 0 ==> s.numberOfRanQueries.Some?)
              && forall i :: 0 <= i < |r.value.sends| ==>
                   r.value.sends[i] == Send(WebResearch, s.followUpQueries[i], s.numberOfRanQueries.value + i)
    ensures Cfg(ctx).Ok? && s.isSufficient == Some(false) && s.researchLoopCount.Some?
            && s.researchLoopCount.value < MaxLoops(s, Cfg(ctx).value) && |s.followUpQueries| == 0
            ==> r == Ok(Dispatch([]))
  {
    var cfg :- Cfg(ctx);
    if s.isSufficient.None? then Err(KeyError("is_sufficient"))
    else if s.isSufficient.value then Ok(ToFinalize)
    else if s.researchLoopCount.None? then Err(KeyError("research_loop_count"))
    else if s.researchLoopCount.value >= MaxLoops(s, cfg) then Ok(ToFinalize)
    else if |s.followUpQueries| == 0 then Ok(Dispatch([]))
    else if s.numberOfRanQueries.None? then Err(KeyError("number_of_ran_queries"))
    else
      var f := s.followUpQueries;
      var n := s.numberOfRanQueries.value;
      Ok(Dispatch(seq(|f|, i requires 0 <= i < |f| => Send(WebResearch, f[i], n + i))))
  }

  datatype FinalizeOutput = FinalizeOutput(model: string, update: ResearchUpdate)

  /** `finalize_answer`, with `answer` the model's reply: the reasoning model when it is set and
      non-empty, the answer model otherwise; the reply is appended as one AI message. */
  function FinalizeAnswerNode(s: ResearchState, ctx: RunContext, answer: string): (r: Result<FinalizeOutput>)
    ensures r.Ok? <==> Cfg(ctx).Ok?
    ensures r.Ok? ==> r.value.update == NoWrites.(messages := Some([AiMessage(answer, [], NoKwargs)]))
    ensures r.Ok? && s.reasoningModel.Some? && s.reasoningModel.value != "" ==> r.value.model == s.reasoningModel.value
    ensures r.Ok? && (s.reasoningModel.None? || s.reasoningModel.value == "") ==> r.value.model == Cfg(ctx).value.answerModel
  {
    var cfg :- Cfg(ctx);
    var model := if s.reasoningModel.Some? && s.reasoningModel.value != "" then s.reasoningModel.value else cfg.answerModel;
    Ok(FinalizeOutput(model, NoWrites.(messages := Some([AiMessage(answer, [], NoKwargs)]))))
  }

  /** Merging the final node's update appends the answer as the last message and changes no
      other channel. */
  lemma FinalizeAppendsAnswer(s: ResearchState, ctx: RunContext, answer: string)
    requires Cfg(ctx).Ok?
    ensures FinalizeAnswerNode(s, ctx, answer).Ok?
    ensures var s2 := Merge(s, FinalizeAnswerNode(s, ctx, answer).value.update);
            && s2.messages == s.messages + [AiMessage(answer, [], NoKwargs)]
            && s2 == s.(messages := s2.messages)
  {
  }

  /** Merging reflection's update counts one more loop and records the verdict, the gap, the
      follow-ups after the earlier ones, and the number of queries run; the search channels,
      the messages and the configured values are unchanged. */
  lemma ReflectionRecords(s: ResearchState, ctx: RunContext, out: ReflectionOutput)
    requires Cfg(ctx).Ok?
    ensures ReflectionNode(s, ctx, out).Ok?
    ensures var s2 := Merge(s, ReflectionNode(s, ctx, out).value.update);
            && s2.researchLoopCount == Some(s.researchLoopCount.GetOr(0) + 1)
            && s2.isSufficient == Some(out.isSufficient)
            && s2.knowledgeGap == Some(out.knowledgeGap)
            && s2.followUpQueries == s.followUpQueries + out.followUpQueries
            && s2.numberOfRanQueries == Some(|s.searchQuery|)
            && s2 == s.(researchLoopCount := s2.researchLoopCount, isSufficient := s2.isSufficient,
                        knowledgeGap := s2.knowledgeGap, followUpQueries := s2.followUpQueries,
                        numberOfRanQueries := s2.numberOfRanQueries)
  {
  }

  /** As written, skipping generation writes the existing queries to an append channel, so the
      merged state holds every query twice and the fan-out dispatches each one twice. */
  lemma GenerateQuerySkipDuplicates(s: ResearchState, ctx: RunContext, generated: seq<string>)
    requires |s.searchQuery| > 0
    ensures GenerateQuery(s, ctx, generated).Ok?
    ensures Merge(s, GenerateQuery(s, ctx, generated).value.update).searchQuery == s.searchQuery + s.searchQuery
    ensures |ContinueToWebResearch(Merge(s, GenerateQuery(s, ctx, generated).value.update))| == 2 * |s.searchQuery|
  {
  }

  /** Skipping generation as intended leaves the state, and so the fan-out, unchanged. */
  lemma GenerateQueryIntendedKeepsQueries(s: ResearchState, ctx: RunContext, generated: seq<string>)
    requires |s.searchQuery| > 0
    ensures GenerateQueryIntended(s, ctx, generated).Ok?
    ensures Merge(s, GenerateQueryIntended(s, ctx, generated).value.update) == s
    ensures ContinueToWebResearch(Merge(s, GenerateQueryIntended(s, ctx, generated).value.update)) == ContinueToWebResearch(s)
  {
    var u := GenerateQueryIntended(s, ctx, generated).value.update;
    assert Merge(s, u).searchQuery == s.searchQuery;
  }
}
