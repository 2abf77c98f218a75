/** The deep-research graph: its declared wiring, and the loop it runs from the first
    `web_research` fan-out to `finalize_answer`. The graph declares a `web_content_analysis`
    node and router that are defined nowhere in the nodes module; in the loop the defined
    `continue_to_web_scraping`/`web_scraping` pair stands in for that fan-out. */
module ResearchGraph {
  import opened Wrappers
  import opened Graphs
  import opened ResearchState
  import opened RunConfig
  import opened ResearchConfig
  import opened ResearchNodes
  import Reducers

  /** The builder calls, in order. */
  const Edges: seq<Edge<ResearchNode>> := [
    Direct(Start, GenerateQuery),
    Conditional(GenerateQuery, {WebResearch}),
    Conditional(WebResearch, {WebContentAnalysis}),
    Direct(WebContentAnalysis, Reflection),
    Conditional(Reflection, {WebResearch, FinalizeAnswer}),
    Direct(FinalizeAnswer, End)
  ]

  /** The next steps the builder is meant to wire: the query step fans out to searches, each
      search to content analysis, analysis into reflection, and reflection either back to
      searching or to the final answer. */
  function Next(n: ResearchNode): set<ResearchNode> {
    match n
    case Start => {GenerateQuery}
    case GenerateQuery => {WebResearch}
    case WebResearch => {WebContentAnalysis}
    case WebContentAnalysis => {Reflection}
    case Reflection => {WebResearch, FinalizeAnswer}
    case FinalizeAnswer => {End}
    case _ => {}
  }

  /** The declared edges allow exactly the next steps `Next` lists. */
  lemma Wiring(n: ResearchNode)
    ensures Successors(Edges, n) == Next(n)
  {
    assert Edges == [Edges[0]] + Edges[1..];
    assert Edges[1..][1..][1..][1..][1..][1..] == [];
  }

  /** The run can only end through `finalize_answer`. */
  lemma OnlyFinalizeEnds(n: ResearchNode)
    ensures End in Successors(Edges, n) <==> n == FinalizeAnswer
  {
    Wiring(n);
  }

  /** Every dispatch or route the routers produce is one the wiring declares; the scraping
      fan-out targets a node the wiring does not declare at all. */
  lemma RoutersFollowWiring(s: ResearchState, ctx: RunContext)
    ensures forall d :: d in ContinueToWebResearch(s) ==> d.node in Successors(Edges, GenerateQuery)
    ensures EvaluateResearch(s, ctx) == Ok(ToFinalize) ==> FinalizeAnswer in Successors(Edges, Reflection)
    ensures EvaluateResearch(s, ctx).Ok? && EvaluateResearch(s, ctx).value.Dispatch? ==>
              forall d :: d in EvaluateResearch(s, ctx).value.sends ==> d.node in Successors(Edges, Reflection)
    ensures forall d :: d in ContinueToWebScraping(s) ==> d.node !in Successors(Edges, WebResearch)
  {
    Wiring(GenerateQuery);
    Wiring(Reflection);
    Wiring(WebResearch);
  }

  /** The outputs of the model, search engine and fetcher for one pass round the loop: hits per
      dispatched query, page text per scraped URL, and the reflection verdict. Missing entries
      read as empty. */
  datatype Round = Round(hits: seq<seq<Hit>>, pages: seq<string>, reflection: ReflectionOutput)

  function HitsFor(round: Round, i: nat): seq<Hit> {
    if i < |round.hits| then round.hits[i] else []
  }

  function PageFor(round: Round, i: nat): string {
    if i < |round.pages| then round.pages[i] else ""
  }

  /** How a run ends, with the number of reflections it made. `Stalled`: a fan-out dispatched
      nothing, so no node follows; `OutOfRounds`: the supplied outputs ran out. */
  datatype LoopResult =
    | Finalized(state: ResearchState, reflections: nat)
    | Stalled(state: ResearchState, reflections: nat)
    | Failed(error: Exception, reflections: nat)
    | OutOfRounds(state: ResearchState, reflections: nat)

  /** The `web_research` branches of one fan-out, in dispatch order. */
  function SearchUpdates(sends: seq<Send>, ctx: RunContext, round: Round, from: nat): (r: Result<seq<ResearchUpdate>>)
    ensures r.Ok? ==> |r.value| == |sends| && forall i :: 0 <= i < |sends| ==> LeavesLoopControl(r.value[i])
    ensures r.Ok? && Cfg(ctx).Ok? ==> forall i :: 0 <= i < |sends| ==>
              WebResearchNode(sends[i].arg, ctx, HitsFor(round, from + i)) == Ok(WebResearchOutput(
                SearchRequest(sends[i].arg, Cfg(ctx).value.numberOfResultsPerQuery), r.value[i]))
    ensures Cfg(ctx).Ok? && r.Err? ==> r.error == KeyError("link")
    decreases |sends|
  {
    if |sends| == 0 then Ok([])
    else
      var first :- WebResearchNode(sends[0].arg, ctx, HitsFor(round, from));
      var rest :- SearchUpdates(sends[1..], ctx, round, from + 1);
      assert forall i :: 0 < i < |sends| ==> sends[1..][i - 1] == sends[i];
      Ok([first.update] + rest)
  }

  /** The `web_scraping` branches of one fan-out, in dispatch order. */
  function ScrapeUpdates(sends: seq<Send>, round: Round): (r: seq<ResearchUpdate>)
    ensures |r| == |sends|
    ensures forall i :: 0 <= i < |sends| ==> r[i] == WebScrapingNode(sends[i].arg, PageFor(round, i))
    ensures forall i :: 0 <= i < |sends| ==> LeavesLoopControl(r[i])
  {
    seq(|sends|, i requires 0 <= i < |sends| => WebScrapingNode(sends[i].arg, PageFor(round, i)))
  }

  /** What one pass round the loop leads to: the end of the run, or a further fan-out from
      the merged state. */
  datatype Step = Halt(result: LoopResult) | Again(state: ResearchState, next: seq<Send>)

  /** The second half of a pass, once the scraped pages are merged: reflect, then evaluate. */
  function ReflectStep(s: ResearchState, ctx: RunContext, out: ReflectionOutput, done: nat): Step {
    match ReflectionNode(s, ctx, out)
    case Err(e) => Halt(Failed(e, done))
    case Ok(reflected) =>
      var s' := Merge(s, reflected.update);
      match EvaluateResearch(s', ctx)
      case Err(e) => Halt(Failed(e, done + 1))
      case Ok(ToFinalize) => Halt(Finalized(s', done + 1))
      case Ok(Dispatch(next)) => Again(s', next)
  }

  /** One pass from a non-empty `web_research` fan-out: search, scrape, reflect, evaluate.
      `done` counts the reflections made before the pass. */
  function LoopStep(s: ResearchState, ctx: RunContext, pending: seq<Send>, round: Round, done: nat): Step {
    match SearchUpdates(pending, ctx, round, 0)
    case Err(e) => Halt(Failed(e, done))
    case Ok(searched) =>
      var s1 := MergeAll(s, searched);
      var scrapes := ContinueToWebScraping(s1);
      if |scrapes| == 0 then Halt(Stalled(s1, done))
      else ReflectStep(MergeAll(s1, ScrapeUpdates(scrapes, round)), ctx, round.reflection, done)
  }

  /** The loop from a pending `web_research` fan-out, one supplied round of outputs per pass. */
  function RunLoop(s: ResearchState, ctx: RunContext, pending: seq<Send>, rounds: seq<Round>, done: nat): LoopResult
    decreases |rounds|
  {
    if |pending| == 0 then Stalled(s, done)
    else if |rounds| == 0 then OutOfRounds(s, done)
    else
      match LoopStep(s, ctx, pending, rounds[0], done)
      case Halt(result) => result
      case Again(s', next) => RunLoop(s', ctx, next, rounds[1..], done + 1)
  }

  /** The research run once `generate_query` has written the queries into `s`. */
  function RunResearch(s: ResearchState, ctx: RunContext, rounds: seq<Round>): LoopResult {
    RunLoop(s, ctx, ContinueToWebResearch(s), rounds, 0)
  }

  /** The number of reflections the loop allows: the cap, but at least one, since the first
      reflection runs before the cap is consulted. */
  function Cap(s: ResearchState, cfg: Configuration): nat {
    if MaxLoops(s, cfg) < 1 then 1 else MaxLoops(s, cfg)
  }

  /** The invariant a pass keeps, as the loop reads it. */
  predicate StepWithin(st: Step, s: ResearchState, cfg: Configuration, done: nat) {
    && (st.Halt? ==> st.result.reflections <= done + 1 && !st.result.OutOfRounds?)
    && (st.Halt? && st.result.Failed? ==> st.result.error == KeyError("link"))
    && (st.Again? ==> st.state.researchLoopCount.GetOr(0) == done + 1
                      && Cap(st.state, cfg) == Cap(s, cfg)
                      && done + 1 < Cap(s, cfg))
  }

  /** Reflection bumps the counter by one and leaves the cap alone; evaluation then finds every
      key it reads written. */
  lemma ReflectKeepsInvariant(s: ResearchState, ctx: RunContext, out: ReflectionOutput, done: nat)
    requires Cfg(ctx).Ok?
    requires s.researchLoopCount.GetOr(0) == done
    ensures StepWithin(ReflectStep(s, ctx, out, done), s, Cfg(ctx).value, done)
  {
    var s' := Merge(s, ReflectionNode(s, ctx, out).value.update);
    assert s'.researchLoopCount == Some(done + 1);
    assert s'.maxResearchLoops == s.maxResearchLoops;
    assert s'.isSufficient.Some? && s'.numberOfRanQueries.Some?;
  }

  /** The loop invariant that one pass keeps: the counter equals the reflections made, the cap
      is unchanged and not yet reached; a pass that ends the run ends it within the cap, and
      fails only on a search hit without a link. */
  lemma StepKeepsInvariant(s: ResearchState, ctx: RunContext, pending: seq<Send>, round: Round, done: nat)
    requires Cfg(ctx).Ok?
    requires s.researchLoopCount.GetOr(0) == done
    requires done < Cap(s, Cfg(ctx).value)
    ensures StepWithin(LoopStep(s, ctx, pending, round, done), s, Cfg(ctx).value, done)
  {
    var searched := SearchUpdates(pending, ctx, round, 0);
    if searched.Ok? {
      var s1 := MergeAll(s, searched.value);
      MergeAllKeepsLoopControl(s, searched.value);
      var scrapes := ContinueToWebScraping(s1);
      if |scrapes| > 0 {
        var scraped := ScrapeUpdates(scrapes, round);
        var s2 := MergeAll(s1, scraped);
        MergeAllKeepsLoopControl(s1, scraped);
        ReflectKeepsInvariant(s2, ctx, round.reflection, done);
        assert Cap(s2, Cfg(ctx).value) == Cap(s, Cfg(ctx).value);
      }
    }
  }

  /** The bound for the whole loop, by induction on the passes. */
  lemma {:induction false} LoopBounded(s: ResearchState, ctx: RunContext, pending: seq<Send>, rounds: seq<Round>, done: nat)
    requires Cfg(ctx).Ok?
    requires s.researchLoopCount.GetOr(0) == done
    requires done < Cap(s, Cfg(ctx).value)
    ensures RunLoop(s, ctx, pending, rounds, done).reflections <= Cap(s, Cfg(ctx).value)
    ensures RunLoop(s, ctx, pending, rounds, done).OutOfRounds? ==> done + |rounds| < Cap(s, Cfg(ctx).value)
    ensures RunLoop(s, ctx, pending, rounds, done).Failed? ==> RunLoop(s, ctx, pending, rounds, done).error == KeyError("link")
    decreases |rounds|
  {
    if |pending| > 0 && |rounds| > 0 {
      StepKeepsInvariant(s, ctx, pending, rounds[0], done);
      var st := LoopStep(s, ctx, pending, rounds[0], done);
      if st.Again? {
        LoopBounded(st.state, ctx, st.next, rounds[1..], done + 1);
      }
    }
  }

  /** Starting with no reflection made, whatever the model answers: the run makes at most
      `max_research_loops` reflections (at least one is always allowed), and once it is given
      that many rounds of outputs it ends by finalizing, or by a fan-out that dispatched
      nothing, or on a search hit without a link. */
  lemma ResearchTerminates(s: ResearchState, ctx: RunContext, rounds: seq<Round>)
    requires Cfg(ctx).Ok?
    requires s.researchLoopCount.GetOr(0) == 0
    ensures RunResearch(s, ctx, rounds).reflections <= Cap(s, Cfg(ctx).value)
    ensures |rounds| >= Cap(s, Cfg(ctx).value) ==>
              RunResearch(s, ctx, rounds).Finalized? || RunResearch(s, ctx, rounds).Stalled?
              || (RunResearch(s, ctx, rounds).Failed? && RunResearch(s, ctx, rounds).error == KeyError("link"))
  {
    LoopBounded(s, ctx, ContinueToWebResearch(s), rounds, 0);
  }

  /** The first round's queries are counted twice: `generate_query` writes the list and each
      `web_research` branch appends its own query again, so after the join the list holds every
      query twice, and the reflection's `number_of_ran_queries` is twice the number of searches
      run. Follow-up ids are numbered from there. */
  lemma FirstRoundCountsTwice(s: ResearchState, ctx: RunContext, round: Round)
    requires Cfg(ctx).Ok?
    requires SearchUpdates(ContinueToWebResearch(s), ctx, round, 0).Ok?
    ensures var us := SearchUpdates(ContinueToWebResearch(s), ctx, round, 0).value;
            MergeAll(s, us).searchQuery == s.searchQuery + s.searchQuery
  {
    var sends := ContinueToWebResearch(s);
    var us := SearchUpdates(sends, ctx, round, 0).value;
    MergeAllQueries(s, us);
    forall i | 0 <= i < |s.searchQuery|
      ensures SearchQueryWrites(us)[i] == Some([s.searchQuery[i]])
    {
      assert WebResearchNode(sends[i].arg, ctx, HitsFor(round, i)).Ok?;
    }
    Reducers.WrittenSingletons(SearchQueryWrites(us), s.searchQuery);
  }

  /** Follow-up queries accumulate: when the loop goes round again, it dispatches every
      follow-up query the run has collected, the earlier ones first, not only the new ones. */
  lemma FollowUpsAccumulate(s: ResearchState, ctx: RunContext, out: ReflectionOutput)
    requires Cfg(ctx).Ok?
    requires !out.isSufficient
    requires s.researchLoopCount.GetOr(0) + 1 < MaxLoops(s, Cfg(ctx).value)
    ensures var s' := Merge(s, ReflectionNode(s, ctx, out).value.update);
            && EvaluateResearch(s', ctx).Ok? && EvaluateResearch(s', ctx).value.Dispatch?
            && |EvaluateResearch(s', ctx).value.sends| == |s.followUpQueries| + |out.followUpQueries|
            && forall i :: 0 <= i < |s.followUpQueries| ==> EvaluateResearch(s', ctx).value.sends[i].arg == s.followUpQueries[i]
  {
    var s' := Merge(s, ReflectionNode(s, ctx, out).value.update);
    assert s'.followUpQueries == s.followUpQueries + out.followUpQueries;
  }

  /** An insufficient first verdict with no follow-up queries dispatches nothing: the run stops
      below the cap without reaching `finalize_answer`. */
  lemma EmptyFollowUpsStall(s: ResearchState, ctx: RunContext, out: ReflectionOutput)
    requires Cfg(ctx).Ok?
    requires !out.isSufficient && out.followUpQueries == [] && s.followUpQueries == []
    requires s.researchLoopCount.GetOr(0) + 1 < MaxLoops(s, Cfg(ctx).value)
    ensures EvaluateResearch(Merge(s, ReflectionNode(s, ctx, out).value.update), ctx) == Ok(Dispatch([]))
  {
    var s' := Merge(s, ReflectionNode(s, ctx, out).value.update);
    assert s'.followUpQueries == [];
  }
}
