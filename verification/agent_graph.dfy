/** The main agent graph: its declared wiring and its two routers with path maps. The routing
    functions `select_route` and `continue_to_knowledge_collection`, and the node bodies other
    than the model call and tool test, are not defined in the nodes module; their choices are
    inputs here. */
module AgentGraph {
  import opened Wrappers
  import opened Graphs
  import opened AgentState
  import opened AgentNodes

  datatype AgentNode =
    | Start | AnalyzeQuery | Tools | RouteQuery | CollectKnowledge
    | WebSearch | MemorySearch | KnowledgeCollected | FinalizeAnswer | End

  /** The builder calls, in order. */
  const Edges: seq<Edge<AgentNode>> := [
    Direct(Start, AnalyzeQuery),
    Conditional(AnalyzeQuery, {Tools, RouteQuery}),
    Direct(Tools, AnalyzeQuery),
    Conditional(RouteQuery, {CollectKnowledge, FinalizeAnswer}),
    Conditional(CollectKnowledge, {WebSearch, MemorySearch}),
    Direct(WebSearch, KnowledgeCollected),
    Direct(MemorySearch, KnowledgeCollected),
    Direct(KnowledgeCollected, AnalyzeQuery),
    Direct(FinalizeAnswer, End)
  ]

  /** The next steps the builder is meant to wire: analysis loops through the tools until no tool
      call is left, routing either collects knowledge (web and/or memory, joined and analysed
      again) or finalizes. */
  function Next(n: AgentNode): set<AgentNode> {
    match n
    case Start => {AnalyzeQuery}
    case AnalyzeQuery => {Tools, RouteQuery}
    case Tools => {AnalyzeQuery}
    case RouteQuery => {CollectKnowledge, FinalizeAnswer}
    case CollectKnowledge => {WebSearch, MemorySearch}
    case WebSearch => {KnowledgeCollected}
    case MemorySearch => {KnowledgeCollected}
    case KnowledgeCollected => {AnalyzeQuery}
    case FinalizeAnswer => {End}
    case End => {}
  }

  /** The declared edges allow exactly the next steps `Next` lists. */
  lemma Wiring(n: AgentNode)
    ensures Successors(Edges, n) == Next(n)
  {
    var a, b, c := Edges[..3], Edges[3..6], Edges[6..];
    assert Edges == a + (b + c);
    SuccessorsAppend(a, b + c, n);
    SuccessorsAppend(b, c, n);
    assert a[1..][1..][1..] == [];
    assert b[1..][1..][1..] == [];
    assert c[1..][1..][1..] == [];
  }

  /** The run can only end through `finalize_answer`. */
  lemma OnlyFinalizeEnds(n: AgentNode)
    ensures End in Successors(Edges, n) <==> n == FinalizeAnswer
  {
    Wiring(n);
  }

  /** The router after `analyze_query`, through its path map `{True: "tools", False: "route_query"}`. */
  function AnalyzeNext(s: AgentState): (r: Result<AgentNode>)
    ensures r.Ok? <==> ToolCallExists(s).Ok?
    ensures r == Ok(Tools) <==> ToolCallExists(s) == Ok(true)
    ensures r == Ok(RouteQuery) <==> ToolCallExists(s) == Ok(false)
  {
    var more :- ToolCallExists(s);
    Ok(if more then Tools else RouteQuery)
  }

  /** The router after `route_query`, through its path map: the two known labels, and a
      KeyError for any other label. */
  function RouteNext(route: string): (r: Result<AgentNode>)
    ensures route == "knowledge_collection" ==> r == Ok(CollectKnowledge)
    ensures route == "final_answer" ==> r == Ok(FinalizeAnswer)
    ensures r.Ok? <==> route in {"knowledge_collection", "final_answer"}
    ensures r.Err? ==> r.error == KeyError(route)
  {
    if route == "knowledge_collection" then Ok(CollectKnowledge)
    else if route == "final_answer" then Ok(FinalizeAnswer)
    else Err(KeyError(route))
  }

  /** The fan-out after `collect_knowledge`, given the node names the router chose: each must
      be one of the two declared branch targets. */
  function CollectNext(chosen: seq<string>): (r: Result<seq<AgentNode>>)
    ensures r.Ok? <==> forall i :: 0 <= i < |chosen| ==> chosen[i] in {"web_search", "memory_search"}
    ensures r.Ok? ==> |r.value| == |chosen| && forall i :: 0 <= i < |chosen| ==>
              r.value[i] == (if chosen[i] == "web_search" then WebSearch else MemorySearch)
    decreases |chosen|
  {
    if |chosen| == 0 then Ok([])
    else
      var first :- if chosen[0] == "web_search" then Ok(WebSearch)
                   else if chosen[0] == "memory_search" then Ok(MemorySearch)
                   else Err(KeyError(chosen[0]));
      var rest :- CollectNext(chosen[1..]);
      Ok([first] + rest)
  }

  /** The router after `analyze_query` only takes declared edges. */
  lemma AnalyzeFollowsWiring(s: AgentState)
    ensures AnalyzeNext(s).Ok? ==> AnalyzeNext(s).value in Successors(Edges, AnalyzeQuery)
  {
    Wiring(AnalyzeQuery);
  }

  /** The router after `route_query` only takes declared edges. */
  lemma RouteFollowsWiring(route: string)
    ensures RouteNext(route).Ok? ==> RouteNext(route).value in Successors(Edges, RouteQuery)
  {
    Wiring(RouteQuery);
  }

  /** The fan-out after `collect_knowledge` only takes declared edges. */
  lemma CollectFollowsWiring(chosen: seq<string>)
    ensures CollectNext(chosen).Ok? ==> forall n :: n in CollectNext(chosen).value ==> n in Successors(Edges, CollectKnowledge)
  {
    Wiring(CollectKnowledge);
  }

  /** Every route the three routers can produce is one the wiring declares. */
  lemma RoutersFollowWiring(s: AgentState, route: string, chosen: seq<string>)
    ensures AnalyzeNext(s).Ok? ==> AnalyzeNext(s).value in Successors(Edges, AnalyzeQuery)
    ensures RouteNext(route).Ok? ==> RouteNext(route).value in Successors(Edges, RouteQuery)
    ensures CollectNext(chosen).Ok? ==> forall n :: n in CollectNext(chosen).value ==> n in Successors(Edges, CollectKnowledge)
  {
    AnalyzeFollowsWiring(s);
    RouteFollowsWiring(route);
    CollectFollowsWiring(chosen);
  }
}
